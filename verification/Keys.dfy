/** The text keys of the agent: decimal numbers, session keys and service-flow keys, with the
    uniqueness each table relies on. */
module Keys {

  function Digit(d: nat): char
    requires d < 10
  {
    "0123456789"[d]
  }

  /** A number as `%d` prints it. */
  function Decimal(n: nat): string
  {
    if n < 10 then [Digit(n)] else Decimal(n / 10) + [Digit(n % 10)]
  }

  function DigitValue(c: char): nat
  {
    if '0' <= c <= '9' then (c as int - '0' as int) else 0
  }

  function DecimalValue(s: string): nat
  {
    if s == "" then 0 else 10 * DecimalValue(s[..|s| - 1]) + DigitValue(s[|s| - 1])
  }

  lemma {:induction false} DecimalRoundTrip(n: nat)
    ensures DecimalValue(Decimal(n)) == n
    ensures forall c :: c in Decimal(n) ==> '0' <= c <= '9'
  {
    if n >= 10 {
      DecimalRoundTrip(n / 10);
      assert Decimal(n)[..|Decimal(n)| - 1] == Decimal(n / 10);
    } else {
      assert Decimal(n)[..0] == "";
    }
  }

  /** generateSessionKey: "%s->%s:%d". */
  function SessionKey(src: string, tgt: string, num: nat): string
  {
    src + "->" + tgt + ":" + Decimal(num)
  }

  /** The format on an example. */
  lemma SessionKeyFormat()
    ensures SessionKey("fe80::1", "fe80::2", 12) == "fe80::1->fe80::2:12"
  {
    assert Decimal(1) == "1" && Decimal(12) == "12";
  }

  /** ServiceFlow.Key: "%s:%d-%s:%d". */
  function FlowKey(src: string, srcQpn: nat, dst: string, dstQpn: nat): string
  {
    src + ":" + Decimal(srcQpn) + "-" + dst + ":" + Decimal(dstQpn)
  }

  /** A separator that does not occur after it (in either text) marks the same place in both. */
  lemma SplitAtLast(a: string, b: string, a': string, b': string, c: char)
    requires c !in b && c !in b'
    requires a + [c] + b == a' + [c] + b'
    ensures a == a' && b == b'
  {
    var s, s' := a + [c] + b, a' + [c] + b';
    assert s[|a|] == c && s'[|a'|] == c;
    assert s'[|a|] == c && s[|a'|] == c;
    assert |a| == |a'|;
    assert a == s[..|a|] && a' == s'[..|a'|];
    assert b == s[|a| + 1..] && b' == s'[|a'| + 1..];
  }

  /** A separator that does not occur before it (in either text) marks the same place in both. */
  lemma SplitAtFirst(a: string, b: string, a': string, b': string, c: char)
    requires c !in a && c !in a'
    requires a + [c] + b == a' + [c] + b'
    ensures a == a' && b == b'
  {
    var s, s' := a + [c] + b, a' + [c] + b';
    assert s[|a|] == c && s'[|a'|] == c;
    assert s'[|a|] == c && s[|a'|] == c;
    assert |a| == |a'|;
    assert a == s[..|a|] && a' == s'[..|a'|];
    assert b == s[|a| + 1..] && b' == s'[|a'| + 1..];
  }

  /** Text that ends in ":<number>" determines both the text before it and the number. */
  lemma NumberedInjective(a: string, n: nat, a': string, n': nat)
    ensures a + ":" + Decimal(n) == a' + ":" + Decimal(n') <==> a == a' && n == n'
  {
    if a + ":" + Decimal(n) == a' + ":" + Decimal(n') {
      DecimalRoundTrip(n);
      DecimalRoundTrip(n');
      SplitAtLast(a, Decimal(n), a', Decimal(n'), ':');
    }
  }

  /** Session keys of different sequence numbers differ, whatever text the GIDs hold. */
  lemma SessionKeysDiffer(src: string, tgt: string, num: nat, src': string, tgt': string, num': nat)
    requires num != num'
    ensures SessionKey(src, tgt, num) != SessionKey(src', tgt', num')
  {
    NumberedInjective(src + "->" + tgt, num, src' + "->" + tgt', num');
  }

  /** GID text as the agent produces it: hexadecimal digits, colons and dots. */
  predicate IsGidText(s: string)
  {
    forall c :: c in s ==> c in "0123456789abcdefABCDEF:."
  }

  lemma NoDashBefore(src: string, n: nat)
    requires IsGidText(src)
    ensures '-' !in src + ":" + Decimal(n)
  {
    DecimalRoundTrip(n);
  }

  /** On such GIDs a flow key determines the whole flow. */
  lemma FlowKeyInjective(src: string, sq: nat, dst: string, dq: nat, src': string, sq': nat, dst': string, dq': nat)
    requires IsGidText(src) && IsGidText(src')
    ensures FlowKey(src, sq, dst, dq) == FlowKey(src', sq', dst', dq')
            <==> src == src' && sq == sq' && dst == dst' && dq == dq'
  {
    if FlowKey(src, sq, dst, dq) == FlowKey(src', sq', dst', dq') {
      var l, r := src + ":" + Decimal(sq), dst + ":" + Decimal(dq);
      var l', r' := src' + ":" + Decimal(sq'), dst' + ":" + Decimal(dq');
      NoDashBefore(src, sq);
      NoDashBefore(src', sq');
      assert FlowKey(src, sq, dst, dq) == l + "-" + r;
      assert FlowKey(src', sq', dst', dq') == l' + "-" + r';
      SplitAtFirst(l, r, l', r', '-');
      NumberedInjective(src, sq, src', sq');
      NumberedInjective(dst, dq, dst', dq');
    }
  }

  /** Without that restriction two different flows can share a key. */
  lemma FlowKeyCollision()
    ensures FlowKey("a", 1, "b:2-c", 3) == FlowKey("a:1-b", 2, "c", 3)
  {
    assert Decimal(1) == "1" && Decimal(2) == "2" && Decimal(3) == "3";
    assert FlowKey("a", 1, "b:2-c", 3) == "a:1-b:2-c:3";
    assert FlowKey("a:1-b", 2, "c", 3) == "a:1-b:2-c:3";
  }
}
