/** The string operations the database and Python perform on the repair
    shop's data: ASCII case folding and substring search (`icontains`),
    the byte-wise ordering `order_by` uses on a text column, the decimal
    form of an id, and Python's `int()` on a posted value. */
module Text {
  import opened Base

  function LowerChar(c: char): char {
    if 'A' <= c <= 'Z' then (c as int + 32) as char else c
  }

  /** ASCII lower case; other characters are left as they are. */
  function Lower(s: string): (r: string)
    ensures |r| == |s|
    ensures forall i :: 0 <= i < |s| ==> r[i] == LowerChar(s[i])
  {
    if s == [] then [] else [LowerChar(s[0])] + Lower(s[1..])
  }

  /** `t` occurs in `s` starting at position `i`. */
  predicate OccursAt(s: string, t: string, i: nat) {
    i + |t| <= |s| && s[i..i + |t|] == t
  }

  /** `t` occurs in `s` as a contiguous piece. */
  predicate Contains(s: string, t: string) {
    exists i: nat :: i <= |s| && OccursAt(s, t, i)
  }

  /** Case-insensitive containment, as the `icontains` lookup performs it. */
  predicate IContains(s: string, t: string) {
    Contains(Lower(s), Lower(t))
  }

  /** Lexicographic order on character codes (a binary collation). */
  predicate StrLeq(a: string, b: string) {
    a == [] || (b != [] && (a[0] < b[0] || (a[0] == b[0] && StrLeq(a[1..], b[1..]))))
  }

  lemma {:induction false} StrLeqTotal(a: string, b: string)
    ensures StrLeq(a, b) || StrLeq(b, a)
  {
    if a != [] && b != [] && a[0] == b[0] {
      StrLeqTotal(a[1..], b[1..]);
    }
  }

  lemma {:induction false} StrLeqTrans(a: string, b: string, c: string)
    requires StrLeq(a, b) && StrLeq(b, c)
    ensures StrLeq(a, c)
  {
    if a != [] && a[0] == b[0] && b[0] == c[0] {
      StrLeqTrans(a[1..], b[1..], c[1..]);
    }
  }

  predicate IsDigit(c: char) { '0' <= c <= '9' }

  predicate AllDigits(s: string) { forall i :: 0 <= i < |s| ==> IsDigit(s[i]) }

  function DigitChar(d: nat): (c: char)
    requires d < 10
    ensures IsDigit(c) && c as int - '0' as int == d
  {
    ('0' as int + d) as char
  }

  /** The number a string of decimal digits denotes. */
  function DigitsValue(s: string): nat
    requires AllDigits(s)
  {
    if s == [] then 0
    else 10 * DigitsValue(s[..|s| - 1]) + (s[|s| - 1] as int - '0' as int)
  }

  /** The decimal form of `n` (what `str(n)` or a cast to text gives). */
  function NatToString(n: nat): (r: string)
    ensures |r| > 0 && AllDigits(r)
    ensures r[0] == '0' ==> n == 0
  {
    if n < 10 then [DigitChar(n)] else NatToString(n / 10) + [DigitChar(n % 10)]
  }

  /** Printing an id and reading it back gives the id again. */
  lemma {:induction false} DigitsValueOfNatToString(n: nat)
    ensures DigitsValue(NatToString(n)) == n
  {
    if n >= 10 {
      var s := NatToString(n);
      assert s[..|s| - 1] == NatToString(n / 10);
      DigitsValueOfNatToString(n / 10);
    }
  }

  /** The characters Python's `str.isspace` accepts: what `str.strip` and
      `int()` remove around a value. */
  predicate IsSpace(c: char) {
    var n := c as int;
    if n <= 32 then 9 <= n <= 13 || 28 <= n
    else
      || n == 0x85 || n == 0xA0 || n == 0x1680 || (0x2000 <= n <= 0x200A)
      || n == 0x2028 || n == 0x2029 || n == 0x202F || n == 0x205F || n == 0x3000
  }

  function TrimStart(s: string): (r: string)
    ensures |r| <= |s|
    ensures r != [] ==> !IsSpace(r[0])
  {
    if s != [] && IsSpace(s[0]) then TrimStart(s[1..]) else s
  }

  function TrimEnd(s: string): (r: string)
    ensures |r| <= |s|
    ensures r != [] ==> !IsSpace(r[|r| - 1])
  {
    if s != [] && IsSpace(s[|s| - 1]) then TrimEnd(s[..|s| - 1]) else s
  }

  function Strip(s: string): string {
    TrimEnd(TrimStart(s))
  }

  /** Text that neither starts nor ends with white space is its own strip. */
  lemma StripUnpadded(s: string)
    requires s != [] ==> !IsSpace(s[0]) && !IsSpace(s[|s| - 1])
    ensures Strip(s) == s
  {
    assert TrimStart(s) == s;
  }

  /** Python's `int(s)` on a string: surrounding whitespace, an optional
      sign, then at least one decimal digit; anything else raises
      `ValueError`, written `None` here. */
  function ParseInt(s: string): (r: Option<int>)
    ensures Strip(s) == [] ==> r == None
  {
    var t := Strip(s);
    if |t| >= 2 && (t[0] == '+' || t[0] == '-') && AllDigits(t[1..]) then
      var v: int := DigitsValue(t[1..]);
      Some(if t[0] == '-' then -v else v)
    else if |t| >= 1 && AllDigits(t) then
      Some(DigitsValue(t))
    else
      None
  }

  /** An id printed in decimal parses back to itself. */
  lemma ParseIntOfNatToString(n: nat)
    ensures ParseInt(NatToString(n)) == Some(n)
  {
    var s := NatToString(n);
    assert !IsSpace(s[0]) && !IsSpace(s[|s| - 1]);
    StripUnpadded(s);
    assert s[0] != '+' && s[0] != '-';
    DigitsValueOfNatToString(n);
  }
}
