/** Decimal numbers as the message handlers write and read them: Python's
    `str(n)` for the index a leader sends and `int(payload)` for the index a
    node receives; and the code-point sum that picks a node's audio track. */
module Decimal {
  import opened Wrappers
  import Text

  predicate IsDigit(c: char) {
    '0' <= c <= '9'
  }

  function DigitValue(c: char): (d: nat)
    requires IsDigit(c)
    ensures d < 10
  {
    c as int - '0' as int
  }

  function DigitChar(d: nat): (c: char)
    requires d < 10
    ensures IsDigit(c) && DigitValue(c) == d
  {
    ('0' as int + d) as char
  }

  predicate AllDigits(s: string) {
    forall i :: 0 <= i < |s| ==> IsDigit(s[i])
  }

  /** The value of a run of decimal digits, most significant first. */
  function DigitsValue(s: string): nat
    requires AllDigits(s)
  {
    if s == [] then 0 else 10 * DigitsValue(s[..|s| - 1]) + DigitValue(s[|s| - 1])
  }

  /** `str(n)` for a natural number: decimal digits, no leading zero. */
  function FormatNat(n: nat): (s: string)
    ensures |s| >= 1 && AllDigits(s)
    ensures |s| > 1 ==> s[0] != '0'
  {
    if n < 10 then [DigitChar(n)] else FormatNat(n / 10) + [DigitChar(n % 10)]
  }

  /** `str(n)` for any integer. */
  function Format(n: int): (s: string)
  {
    if n < 0 then "-" + FormatNat(-n) else FormatNat(n)
  }

  /** Python's `int(s)` on a string: surrounding white space is ignored, an
      optional sign, then at least one ASCII digit; anything else raises
      (here: `None`). */
  function ParseInt(s: string): (r: Option<int>)
  {
    var t := Text.Strip(s);
    if t == [] then None
    else
      var neg := t[0] == '-';
      var body := if t[0] == '-' || t[0] == '+' then t[1..] else t;
      if body == [] || !AllDigits(body) then None
      else if neg then Some(-(DigitsValue(body) as int))
      else Some(DigitsValue(body))
  }

  lemma {:induction false} DigitsOfFormat(n: nat)
    ensures DigitsValue(FormatNat(n)) == n
  {
    if n >= 10 {
      DigitsOfFormat(n / 10);
      var s := FormatNat(n);
      assert s[..|s| - 1] == FormatNat(n / 10);
    }
  }

  /** What a leader sends, a follower reads back: `int(str(n)) == n`. */
  lemma ParseFormat(n: int)
    ensures ParseInt(Format(n)) == Some(n)
  {
    var s := Format(n);
    var m := if n < 0 then -n else n;
    DigitsOfFormat(m);
    assert !Text.IsSpace(s[0]) && !Text.IsSpace(s[|s| - 1]);
    Text.StripUnpadded(s);
    if n < 0 {
      assert s[1..] == FormatNat(m);
    }
  }

  predicate NoDigit(s: string) {
    forall i :: 0 <= i < |s| ==> !IsDigit(s[i])
  }

  /** Text without a single digit does not parse, whatever its signs and
      white space; the empty payload is one such text. */
  lemma NoDigitNoInt(s: string)
    requires NoDigit(s)
    ensures ParseInt(s) == None
  {
    var t := Text.Strip(s);
    Text.StripKeeps(s);
    var k := |s| - |Text.TrimLeft(s)|;
    if t != [] {
      var body := if t[0] == '-' || t[0] == '+' then t[1..] else t;
      if body != [] {
        var j := |t| - |body|;
        assert body[0] == t[j] == s[k + j];
        assert !AllDigits(body);
      }
    }
  }

  /** `sum(ord(c) for c in s)` */
  function CodePointSum(s: string): (n: nat)
    ensures s == [] ==> n == 0
  {
    if s == [] then 0 else CodePointSum(s[..|s| - 1]) + s[|s| - 1] as int
  }

  lemma {:induction false} CodePointSumAppend(a: string, b: string)
    ensures CodePointSum(a + b) == CodePointSum(a) + CodePointSum(b)
    decreases |b|
  {
    if b == [] {
      assert a + b == a;
    } else {
      CodePointSumAppend(a, b[..|b| - 1]);
      assert (a + b)[..|a + b| - 1] == a + b[..|b| - 1];
    }
  }

  /** The audio index a host picks among `count` tracks:
      `sum(ord(c) for c in host) % count`, which is always a valid position. */
  function HostIndex(host: string, count: nat): (i: nat)
    requires count > 0
    ensures i < count
  {
    CodePointSum(host) % count
  }
}
