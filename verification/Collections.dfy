/** Small generic vocabulary shared by the models: optional values, counting and subsequences. */
module Collections {

  datatype Option<+T> = None | Some(value: T)

  /** How many elements of `xs` satisfy `p`. */
  ghost function Count<T>(xs: seq<T>, p: T -> bool): nat
  {
    if xs == [] then 0 else Count(xs[1..], p) + (if p(xs[0]) then 1 else 0)
  }

  lemma {:induction false} CountAppend<T>(xs: seq<T>, x: T, p: T -> bool)
    ensures Count(xs + [x], p) == Count(xs, p) + (if p(x) then 1 else 0)
  {
    if xs == [] {
      assert [x][1..] == [];
    } else {
      assert (xs + [x])[1..] == xs[1..] + [x];
      CountAppend(xs[1..], x, p);
    }
  }

  lemma {:induction false} CountUpdate<T>(xs: seq<T>, i: nat, x: T, p: T -> bool)
    requires i < |xs|
    ensures Count(xs[i := x], p) + (if p(xs[i]) then 1 else 0) == Count(xs, p) + (if p(x) then 1 else 0)
  {
    if i == 0 {
      assert xs[0 := x][1..] == xs[1..];
    } else {
      assert xs[i := x][1..] == xs[1..][i - 1 := x];
      CountUpdate(xs[1..], i - 1, x, p);
    }
  }

  /** `xs` can be obtained from `ys` by deleting elements, keeping the order of the others. */
  ghost predicate Subsequence<T>(xs: seq<T>, ys: seq<T>)
    decreases |ys|
  {
    if xs == [] then true
    else if ys == [] then false
    else (xs[0] == ys[0] && Subsequence(xs[1..], ys[1..])) || Subsequence(xs, ys[1..])
  }

  lemma {:induction false} SubsequenceRefl<T>(xs: seq<T>)
    ensures Subsequence(xs, xs)
  {
    if xs != [] {
      SubsequenceRefl(xs[1..]);
    }
  }

  lemma {:induction false} SubsequenceExtend<T>(xs: seq<T>, ys: seq<T>, x: T)
    requires Subsequence(xs, ys)
    ensures Subsequence(xs + [x], ys + [x])
    decreases |ys|
  {
    if ys == [] {
      assert xs == [];
      assert xs + [x] == [x] && ys + [x] == [x];
      SubsequenceRefl([x]);
    } else {
      assert (ys + [x])[0] == ys[0] && (ys + [x])[1..] == ys[1..] + [x];
      if xs == [] {
        SubsequenceExtend(xs, ys[1..], x);
      } else if xs[0] == ys[0] && Subsequence(xs[1..], ys[1..]) {
        SubsequenceExtend(xs[1..], ys[1..], x);
        assert (xs + [x])[1..] == xs[1..] + [x];
      } else {
        SubsequenceExtend(xs, ys[1..], x);
      }
    }
  }

  /** Deleting a middle stretch keeps a subsequence a subsequence. */
  lemma {:induction false} SubsequenceCut<T>(a: seq<T>, b: seq<T>, c: seq<T>, ys: seq<T>)
    requires Subsequence(a + b + c, ys)
    ensures Subsequence(a + c, ys)
    decreases |ys|, |b|
  {
    var abc := a + b + c;
    if a + c == [] || ys == [] {
    } else if Subsequence(abc, ys[1..]) {
      SubsequenceCut(a, b, c, ys[1..]);
    } else if a != [] {
      assert abc[1..] == a[1..] + b + c;
      SubsequenceCut(a[1..], b, c, ys[1..]);
      assert (a + c)[1..] == a[1..] + c;
    } else if b != [] {
      assert abc[1..] == a + b[1..] + c;
      SubsequenceCut(a, b[1..], c, ys[1..]);
    } else {
      assert abc == a + c;
    }
  }
}
