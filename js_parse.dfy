/** JavaScript's `parseInt(s)` with the default radix, as the client uses it on
    text typed into inputs: leading whitespace is skipped, one sign is
    accepted, and the longest run of decimal digits that follows is read; with
    no digit the result is NaN (`None`). */
module JsParse {
  import opened Values
  import opened SkillText

  predicate IsDigit(c: char) {
    '0' <= c <= '9'
  }

  /** The value of a digit character; 0 for any other character. */
  function DigitValue(c: char): nat {
    if IsDigit(c) then (c as int - '0' as int) as nat else 0
  }

  function Digit(d: nat): char
    requires d < 10
  {
    ('0' as int + d) as char
  }

  /** The length of the run of digits at the start of `s`. */
  function LeadingDigits(s: string): (n: nat)
    ensures n <= |s|
    decreases |s|
  {
    if |s| > 0 && IsDigit(s[0]) then 1 + LeadingDigits(s[1..]) else 0
  }

  /** The number written by a string of decimal digits. */
  function DecimalValue(ds: string): nat
    decreases |ds|
  {
    if |ds| == 0 then 0 else 10 * DecimalValue(ds[..|ds| - 1]) + DigitValue(ds[|ds| - 1])
  }

  /** `s` without the whitespace `parseInt` skips before the number. */
  function SkipWhitespace(s: string): string
    decreases |s|
  {
    if |s| > 0 && IsSpace(s[0], JavaScript) then SkipWhitespace(s[1..]) else s
  }

  /** `parseInt(s)`; `None` stands for NaN. */
  function ParseInt(s: string): Option<int> {
    var t := SkipWhitespace(s);
    var negative := |t| > 0 && t[0] == '-';
    var body := if |t| > 0 && (t[0] == '-' || t[0] == '+') then t[1..] else t;
    var n := LeadingDigits(body);
    if n == 0 then None
    else
      var v: int := DecimalValue(body[..n]);
      Some(if negative then -v else v)
  }

  /** `String(n)` for a natural number. */
  function ToDecimal(n: nat): (s: string)
    ensures |s| > 0
    ensures forall i :: 0 <= i < |s| ==> IsDigit(s[i])
    decreases n
  {
    if n < 10 then [Digit(n)] else ToDecimal(n / 10) + [Digit(n % 10)]
  }

  lemma {:induction false} DecimalOfToDecimal(n: nat)
    ensures DecimalValue(ToDecimal(n)) == n
    decreases n
  {
    var s := ToDecimal(n);
    if n >= 10 {
      DecimalOfToDecimal(n / 10);
      assert s[..|s| - 1] == ToDecimal(n / 10);
    }
  }

  lemma {:induction false} LeadingDigitsAll(s: string)
    requires forall i :: 0 <= i < |s| ==> IsDigit(s[i])
    ensures LeadingDigits(s) == |s|
    decreases |s|
  {
    if |s| > 0 {
      LeadingDigitsAll(s[1..]);
    }
  }

  /** Round trip: the digits of a natural number parse back to that number. */
  lemma ParseIntOfDecimal(n: nat)
    ensures ParseInt(ToDecimal(n)) == Some(n)
  {
    var s := ToDecimal(n);
    assert !IsSpace(s[0], JavaScript);
    assert SkipWhitespace(s) == s;
    LeadingDigitsAll(s);
    assert s[..|s|] == s;
    DecimalOfToDecimal(n);
  }

  /** Text after the digits is ignored: "12abc" parses like "12". */
  lemma ParseIntIgnoresTail(n: nat, tail: string)
    requires |tail| == 0 || !IsDigit(tail[0])
    ensures ParseInt(ToDecimal(n) + tail) == Some(n)
  {
    var s := ToDecimal(n) + tail;
    var d := ToDecimal(n);
    assert s[0] == d[0];
    assert !IsSpace(s[0], JavaScript);
    assert SkipWhitespace(s) == s;
    LeadingDigitsAll(d);
    LeadingDigitsPrefix(d, tail);
    assert s[..|d|] == d;
    DecimalOfToDecimal(n);
  }

  lemma {:induction false} LeadingDigitsPrefix(d: string, tail: string)
    requires forall i :: 0 <= i < |d| ==> IsDigit(d[i])
    requires |tail| == 0 || !IsDigit(tail[0])
    ensures LeadingDigits(d + tail) == |d|
    decreases |d|
  {
    if |d| > 0 {
      assert (d + tail)[1..] == d[1..] + tail;
      LeadingDigitsPrefix(d[1..], tail);
    } else {
      assert d + tail == tail;
    }
  }

  /** The run `LeadingDigits` measures is made of digits and ends at the first
      character that is not one. */
  lemma {:induction false} LeadingDigitsRun(s: string)
    ensures forall i :: 0 <= i < LeadingDigits(s) ==> IsDigit(s[i])
    ensures LeadingDigits(s) < |s| ==> !IsDigit(s[LeadingDigits(s)])
    decreases |s|
  {
    if |s| > 0 && IsDigit(s[0]) {
      LeadingDigitsRun(s[1..]);
      assert forall i :: 1 <= i <= LeadingDigits(s[1..]) && i < |s| ==> s[i] == s[1..][i - 1];
    }
  }

  /** A minus sign in front of the digits gives the negative number. */
  lemma ParseIntOfNegative(n: nat)
    ensures ParseInt("-" + ToDecimal(n)) == Some(-(n as int))
  {
    var d := ToDecimal(n);
    var s := "-" + d;
    assert !IsSpace(s[0], JavaScript);
    assert SkipWhitespace(s) == s;
    assert s[1..] == d;
    LeadingDigitsAll(d);
    assert d[..|d|] == d;
    DecimalOfToDecimal(n);
  }
}
