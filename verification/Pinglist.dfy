/** The controller's deterministic 5-tuple parameters: a wrapping 32-bit hash of the GID pair, reduced to a flow
    label, a source port and a priority. */
module Pinglist {
  import Keys

  const TWO32: nat := 0x1_0000_0000
  const LABELS: nat := 1048576
  const PORTS: nat := 16384
  const FIRST_PORT: nat := 49152

  /** The base-31 polynomial of a text, without wrap-around. */
  function Poly(s: string): nat
  {
    if s == "" then 0 else 31 * Poly(s[..|s| - 1]) + s[|s| - 1] as nat
  }

  function Power31(n: nat): nat
  {
    if n == 0 then 1 else 31 * Power31(n - 1)
  }

  /** The text that is hashed. */
  function PairText(gid1: string, gid2: string): string
  {
    gid1 + ":" + gid2
  }

  /** hashGIDPair: the uint32 loop computes the polynomial modulo 2^32. */
  method HashGidPair(gid1: string, gid2: string) returns (hash: nat)
    ensures hash == Poly(PairText(gid1, gid2)) % TWO32
  {
    var combined := gid1 + ":" + gid2;
    hash := 0;
    for i := 0 to |combined|
      invariant hash == Poly(combined[..i]) % TWO32
    {
      assert combined[..i + 1][..i] == combined[..i];
      WrapStep(Poly(combined[..i]), combined[i] as nat);
      hash := (hash * 31 % TWO32 + combined[i] as nat) % TWO32;
    }
    assert combined[..|combined|] == combined;
  }

  /** One round of the loop, wrapped after each operation, equals the round wrapped at the end. */
  lemma WrapStep(h: nat, c: nat)
    ensures (h % TWO32 * 31 % TWO32 + c) % TWO32 == (31 * h + c) % TWO32
  {
    var q, a := h / TWO32, h % TWO32;
    var q', r := a * 31 / TWO32, a * 31 % TWO32;
    assert 31 * h + c == r + c + (31 * q + q') * TWO32;
    WrapMultiple(r + c, 31 * q + q');
  }

  lemma WrapMultiple(x: nat, k: nat)
    ensures (x + k * TWO32) % TWO32 == x % TWO32
  {
  }

  lemma Distribute(a: nat, p: nat, b: nat)
    ensures 31 * (a * p + b) == a * (31 * p) + 31 * b
  {
  }

  lemma {:induction false} PolyConcat(a: string, b: string)
    ensures Poly(a + b) == Poly(a) * Power31(|b|) + Poly(b)
  {
    if b == "" {
      assert a + b == a;
    } else {
      var b', c := b[..|b| - 1], b[|b| - 1];
      assert (a + b)[..|a + b| - 1] == a + b';
      PolyConcat(a, b');
      assert Power31(|b|) == 31 * Power31(|b'|);
      Distribute(Poly(a), Power31(|b'|), Poly(b'));
    }
  }

  /** The concatenation law of the hashed text. */
  lemma PairPoly(gid1: string, gid2: string)
    ensures Poly(PairText(gid1, gid2)) == (31 * Poly(gid1) + ':' as nat) * Power31(|gid2|) + Poly(gid2)
  {
    PolyConcat(gid1 + ":", gid2);
    assert (gid1 + ":")[..|gid1 + ":"| - 1] == gid1;
  }

  /** generateRequesterSpecificFlowLabel on a hash, with the uint32 additions and conversion of the index. */
  function FlowLabel(hash: nat, index: int): nat
  {
    ((hash + index % TWO32 * 1000 % TWO32) % TWO32) % LABELS
  }

  function SourcePort(hash: nat): nat
  {
    hash % PORTS + FIRST_PORT
  }

  function Priority(hash: nat): nat
  {
    hash % 8
  }

  /** The hash value the label, port and priority of a requester-target pair are taken from. */
  function PairHash(requester: string, target: string): nat
  {
    Poly(PairText(requester, target)) % TWO32
  }

  /** The label of the row with the given index. */
  function RowLabel(requester: string, target: string, index: int): nat
  {
    FlowLabel(PairHash(requester, target), index)
  }

  lemma LabelWithoutWrap(h: nat, i: int)
    ensures FlowLabel(h % TWO32, i) == (h + 1000 * i) % LABELS
  {
    var a, b := h % TWO32, i % TWO32 * 1000 % TWO32;
    assert exists q :: b == 1000 * i + q * TWO32 by {
      var q1, q2 := i / TWO32, i % TWO32 * 1000 / TWO32;
      assert b == 1000 * i + (-1000 * q1 - q2) * TWO32;
    }
    var q :| b == 1000 * i + q * TWO32;
    var r := h / TWO32;
    assert a + b == h + 1000 * i + (q - r) * TWO32;
    ReduceWrap(h + 1000 * i, q - r);
  }

  lemma ReduceWrap(x: int, k: int)
    ensures ((x + k * TWO32) % TWO32) % LABELS == x % LABELS
  {
    var y := (x + k * TWO32) % TWO32;
    var m := (x + k * TWO32) / TWO32;
    assert y == x + (k - m) * TWO32 == x + ((k - m) * 4096) * LABELS;
    SameResidue(y, x, (k - m) * 4096);
  }

  lemma SameResidue(y: int, x: int, k: int)
    requires y == x + k * LABELS
    ensures y % LABELS == x % LABELS
  {
  }

  /** Wrap-around does not show: label, port and priority are the unbounded polynomial (plus 1000 per row)
      reduced modulo 2^20, 2^14 and 8, inside the 20-bit flow-label field and the dynamic port range. */
  lemma ParametersFromPoly(requester: string, target: string, index: int)
    ensures var p, h := Poly(PairText(requester, target)), PairHash(requester, target);
      && RowLabel(requester, target, index) == (p + 1000 * index) % LABELS < LABELS
      && SourcePort(h) == p % PORTS + FIRST_PORT && 49152 <= SourcePort(h) <= 65535
      && Priority(h) == p % 8 < 8
  {
    var p := Poly(PairText(requester, target));
    LabelWithoutWrap(p, index);
    PortAndPriority(p);
  }

  lemma PortAndPriority(p: nat)
    ensures SourcePort(p % TWO32) == p % PORTS + FIRST_PORT && 49152 <= SourcePort(p % TWO32) <= 65535
    ensures Priority(p % TWO32) == p % 8 < 8
  {
    var q, r := p / TWO32, p % TWO32;
    PortResidue(p, r, q * 262144);
    PriorityResidue(p, r, q * 536870912);
  }

  lemma PortResidue(y: int, x: int, k: int)
    requires y == x + k * PORTS
    ensures y % PORTS == x % PORTS
  {
  }

  lemma PriorityResidue(y: int, x: int, k: int)
    requires y == x + k * 8
    ensures y % 8 == x % 8
  {
  }

  /** Two rows of one requester-target pair get the same label exactly when 131072 divides their distance. */
  lemma SamePairLabels(requester: string, target: string, i: int, j: int)
    ensures RowLabel(requester, target, i) == RowLabel(requester, target, j) <==> (i - j) % 131072 == 0
  {
    var p := Poly(PairText(requester, target));
    LabelWithoutWrap(p, i);
    LabelWithoutWrap(p, j);
    var x, y := p + 1000 * i, p + 1000 * j;
    if (i - j) % 131072 == 0 {
      DistanceGivesResidue(x, y, i - j);
    }
    if x % LABELS == y % LABELS {
      ResidueGivesDistance(x, y, i - j);
    }
  }

  lemma DistanceGivesResidue(x: int, y: int, d: int)
    requires x - y == 1000 * d && d % 131072 == 0
    ensures x % LABELS == y % LABELS
  {
    var k := d / 131072;
    assert d == 131072 * k;
    SameResidue(x, y, 125 * k);
  }

  /** 96469 inverts 125 modulo 131072: 125 * 96469 == 1 + 92 * 131072. */
  lemma ResidueGivesDistance(x: int, y: int, d: int)
    requires x - y == 1000 * d && x % LABELS == y % LABELS
    ensures d % 131072 == 0
  {
    var k := x / LABELS - y / LABELS;
    assert 1000 * d == k * LABELS;
    assert d == 131072 * (96469 * k - 92 * d);
  }

  // ---------- targets that differ in their last character ----------

  predicate Ascii(c: char)
  {
    c as int < 128
  }

  /** The characters of a GID in text. */
  predicate GidChar(c: char)
  {
    Keys.IsGidText([c])
  }

  /** Those of a GID as Go prints it. */
  predicate LowerChar(c: char)
  {
    GidChar(c) && !('A' <= c <= 'F')
  }

  /** The last characters a printed GID can have: no dot. */
  predicate LastGidChar(c: char)
  {
    LowerChar(c) && c != '.'
  }

  lemma GidCharCode(c: char)
    requires GidChar(c)
    ensures c == '.' || 48 <= c as int <= 58 || 65 <= c as int <= 70 || 97 <= c as int <= 102
  {
    assert c in [c];
  }

  /** In a list of `rows` rows for this requester, targets that share everything but a last character of this kind
      have the same label only if they are the same target in the same row. */
  ghost predicate LastCharLabelsDistinct(requester: string, prefix: string, rows: nat, kind: char -> bool)
  {
    forall c: char, c': char, i: nat, j: nat ::
      kind(c) && kind(c') && i < rows && j < rows
      && RowLabel(requester, prefix + [c], i) == RowLabel(requester, prefix + [c'], j)
      ==> c == c' && i == j
  }

  lemma LastCharLabel(requester: string, prefix: string, c: char, i: int)
    ensures RowLabel(requester, prefix + [c], i)
            == (31 * Poly(PairText(requester, prefix)) + c as nat + 1000 * i) % LABELS
  {
    var t := PairText(requester, prefix + [c]);
    assert t[..|t| - 1] == PairText(requester, prefix);
    LabelWithoutWrap(Poly(t), i);
  }

  /** Equal labels make 1000 row distances plus a character difference a multiple of 2^20. */
  lemma EqualLabels(requester: string, prefix: string, c: char, c': char, i: nat, j: nat) returns (k: int)
    requires RowLabel(requester, prefix + [c], i) == RowLabel(requester, prefix + [c'], j)
    ensures 1000 * (i - j) + (c as int - c' as int) == k * LABELS
  {
    LastCharLabel(requester, prefix, c, i);
    LastCharLabel(requester, prefix, c', j);
    var p := 31 * Poly(PairText(requester, prefix));
    k := (p + c as nat + 1000 * i) / LABELS - (p + c' as nat + 1000 * j) / LABELS;
  }

  lemma LabelsCollide(requester: string, prefix: string, c: char, c': char, i: nat, k: int)
    requires 1000 * i + (c as int - c' as int) == k * LABELS
    ensures RowLabel(requester, prefix + [c], i) == RowLabel(requester, prefix + [c'], 0)
  {
    LastCharLabel(requester, prefix, c, i);
    LastCharLabel(requester, prefix, c', 0);
    var p := 31 * Poly(PairText(requester, prefix));
    SameResidue(p + c as nat + 1000 * i, p + c' as nat, k);
  }

  /** Of the multiples k * 2^20 with 0 < |k| <= 18 only k = 7 and -7 come within 56 of a multiple of 1000: they are
      32 away. */
  lemma FarFromThousands(d: int, m: int, k: int)
    requires 1000 * m + d == k * LABELS && -56 <= d <= 56 && -18 <= k <= 18
    ensures k == 0 || (k == 7 && d == 32) || (k == -7 && d == -32)
  {
    if k > 0 {
      SmallRemainder(d, m - 1048 * k, k);
    } else if k < 0 {
      SmallRemainder(-d, 1048 * k - m, -k);
    }
  }

  lemma SmallRemainder(d: int, n: int, k: int)
    requires 1000 * n + d == 576 * k && -56 <= d <= 56 && 1 <= k <= 18
    ensures k == 7 && d == 32
  {
    if n <= 3 {
    } else if n <= 6 {
    } else if n <= 8 {
    } else {
    }
  }

  /** Beyond that, up to |k| = 32, only k = 26 and -26 come within 54: they are 24 away. */
  lemma FarFurtherOn(d: int, m: int, k: int)
    requires 1000 * m + d == k * LABELS && -54 <= d <= 54 && (19 <= k <= 32 || -32 <= k <= -19)
    ensures d == 24 || d == -24
  {
    if k > 0 {
      LargerRemainder(d, m - 1048 * k, k);
    } else {
      LargerRemainder(-d, 1048 * k - m, -k);
    }
  }

  lemma LargerRemainder(d: int, n: int, k: int)
    requires 1000 * n + d == 576 * k && -54 <= d <= 54 && 19 <= k <= 32
    ensures d == -24
  {
    if n <= 13 {
    } else if n <= 15 {
    } else if n <= 17 {
    } else {
    }
  }

  /** No multiple k * 2^20 with 0 < |k| <= 4 comes within 127 of a multiple of 1000. */
  lemma FartherFromThousands(d: int, m: int, k: int)
    requires 1000 * m + d == k * LABELS && -127 <= d <= 127 && -4 <= k <= 4
    ensures k == 0
  {
    if k == 1 || k == 2 {
    } else if k == 3 || k == 4 {
    } else if k == -1 || k == -2 {
    } else {
    }
  }

  /** For every requester and every prefix, targets that differ in their last GID character have distinct labels in
      lists of up to 7340 rows and in no longer ones: row 7340 of the target in 'a' has the label of row 0 of the
      one in 'A'. */
  lemma LastCharLabelsIff(requester: string, prefix: string, rows: nat)
    ensures LastCharLabelsDistinct(requester, prefix, rows, GidChar) <==> rows <= 7340
  {
    if rows <= 7340 {
      forall c: char, c': char, i: nat, j: nat |
        GidChar(c) && GidChar(c') && i < rows && j < rows
        && RowLabel(requester, prefix + [c], i) == RowLabel(requester, prefix + [c'], j)
        ensures c == c' && i == j
      {
        GidCharCode(c);
        GidCharCode(c');
        var k := EqualLabels(requester, prefix, c, c', i, j);
        FarFromThousands(c as int - c' as int, i - j, k);
      }
    } else {
      LabelsCollide(requester, prefix, 'a', 'A', 7340, 7);
    }
  }

  /** In lower case the limit is 19923 rows. */
  lemma LowerCaseLabelsIff(requester: string, prefix: string, rows: nat)
    ensures LastCharLabelsDistinct(requester, prefix, rows, LowerChar) <==> rows <= 19923
  {
    if rows <= 19923 {
      forall c: char, c': char, i: nat, j: nat |
        LowerChar(c) && LowerChar(c') && i < rows && j < rows
        && RowLabel(requester, prefix + [c], i) == RowLabel(requester, prefix + [c'], j)
        ensures c == c' && i == j
      {
        GidCharCode(c);
        GidCharCode(c');
        var k := EqualLabels(requester, prefix, c, c', i, j);
        FarFromThousands(c as int - c' as int, i - j, k);
      }
    } else {
      LabelsCollide(requester, prefix, '.', 'f', 19923, 19);
    }
  }

  /** With the last characters a printed GID can have it is 34603 rows: row 34603 of the target in '8' has the label of
      row 0 of the one in '0'. */
  lemma PrintedGidLabelsIff(requester: string, prefix: string, rows: nat)
    ensures LastCharLabelsDistinct(requester, prefix, rows, LastGidChar) <==> rows <= 34603
  {
    if rows <= 34603 {
      forall c: char, c': char, i: nat, j: nat |
        LastGidChar(c) && LastGidChar(c') && i < rows && j < rows
        && RowLabel(requester, prefix + [c], i) == RowLabel(requester, prefix + [c'], j)
        ensures c == c' && i == j
      {
        GidCharCode(c);
        GidCharCode(c');
        var k := EqualLabels(requester, prefix, c, c', i, j);
        if -18 <= k <= 18 {
          FarFromThousands(c as int - c' as int, i - j, k);
        } else {
          FarFurtherOn(c as int - c' as int, i - j, k);
        }
      }
    } else {
      LabelsCollide(requester, prefix, '8', '0', 34603, 33);
    }
  }

  /** For arbitrary ASCII characters it is 5243 rows. */
  lemma AsciiLabelsIff(requester: string, prefix: string, rows: nat)
    ensures LastCharLabelsDistinct(requester, prefix, rows, Ascii) <==> rows <= 5243
  {
    if rows <= 5243 {
      forall c: char, c': char, i: nat, j: nat |
        Ascii(c) && Ascii(c') && i < rows && j < rows
        && RowLabel(requester, prefix + [c], i) == RowLabel(requester, prefix + [c'], j)
        ensures c == c' && i == j
      {
        var k := EqualLabels(requester, prefix, c, c', i, j);
        FartherFromThousands(c as int - c' as int, i - j, k);
      }
    } else {
      LabelsCollide(requester, prefix, 0 as char, 120 as char, 5243, 5);
    }
  }

  // ---------- the lists ----------

  datatype Target = Target(gid: string, sourcePort: nat, flowLabel: nat, priority: nat)

  /** The parameters of the target in this row, from the unbounded polynomial. */
  ghost predicate FromPoly(t: Target, requester: string, row: nat)
  {
    var p := Poly(requester + ":" + t.gid);
    t.sourcePort == 49152 + p % 16384 && t.flowLabel == (p + 1000 * row) % 1048576 && t.priority == p % 8
  }

  /** generateTorMeshPinglist (with `skipSelf`) and generateInterTorPinglist: one target per registry row, in
      row order; ToR-mesh leaves out the requester. `rows` says which row each target came from: the label uses
      the row's own index, counting skipped rows. */
  method Generate(requester: string, rnics: seq<string>, skipSelf: bool) returns (targets: seq<Target>, rows: seq<nat>)
    ensures |rows| == |targets|
    ensures forall k :: 0 <= k < |rows| ==> rows[k] < |rnics| && !(skipSelf && rnics[rows[k]] == requester)
    ensures forall k, l :: 0 <= k < l < |rows| ==> rows[k] < rows[l]
    ensures forall k :: 0 <= k < |rows| ==>
              targets[k].gid == rnics[rows[k]] && FromPoly(targets[k], requester, rows[k])
    ensures forall i :: 0 <= i < |rnics| && !(skipSelf && rnics[i] == requester) ==> i in rows
  {
    targets, rows := [], [];
    for i := 0 to |rnics|
      invariant |rows| == |targets|
      invariant forall k :: 0 <= k < |rows| ==> rows[k] < i && !(skipSelf && rnics[rows[k]] == requester)
      invariant forall k, l :: 0 <= k < l < |rows| ==> rows[k] < rows[l]
      invariant forall k :: 0 <= k < |rows| ==>
                  targets[k].gid == rnics[rows[k]] && FromPoly(targets[k], requester, rows[k])
      invariant forall n :: 0 <= n < i && !(skipSelf && rnics[n] == requester) ==> n in rows
    {
      if skipSelf && rnics[i] == requester {
        continue;
      }
      var hash := HashGidPair(requester, rnics[i]);
      ParametersFromPoly(requester, rnics[i], i);
      targets := targets + [Target(rnics[i], SourcePort(hash), FlowLabel(hash, i), Priority(hash))];
      rows := rows + [i];
    }
  }
}
