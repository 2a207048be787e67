/**
 * The text of the goal field: `parseInt(this.goalInput.value)` in `setGoal`
 * (script.js:53) and the goal written back into the field after loading
 * (script.js:270). The parser covers leading blanks, an optional sign and the
 * longest run of decimal digits, after which any text is ignored.
 */
module GoalInput {

  import opened Wrappers

  predicate IsDigit(c: char)
  {
    '0' <= c <= '9'
  }

  predicate IsBlank(c: char)
  {
    c == ' ' || c == '\t' || c == '\n' || c == '\r'
  }

  predicate AllDigits(s: string)
  {
    forall i :: 0 <= i < |s| ==> IsDigit(s[i])
  }

  function SkipBlanks(s: string): (r: string)
    ensures r == [] || !IsBlank(r[0])
  {
    if |s| > 0 && IsBlank(s[0]) then SkipBlanks(s[1..]) else s
  }

  /** The text after one leading sign, if there is one. */
  function Unsigned(t: string): string
  {
    if |t| > 0 && (t[0] == '-' || t[0] == '+') then t[1..] else t
  }

  /** Length of the run of digits that starts `s`. */
  function DigitRun(s: string): (n: nat)
    ensures n <= |s| && AllDigits(s[..n])
    ensures n < |s| ==> !IsDigit(s[n])
  {
    if |s| > 0 && IsDigit(s[0]) then 1 + DigitRun(s[1..]) else 0
  }

  function DigitValue(c: char): nat
    requires IsDigit(c)
  {
    c as int - '0' as int
  }

  function DigitChar(d: nat): (c: char)
    requires d < 10
    ensures IsDigit(c) && DigitValue(c) == d
  {
    ('0' as int + d) as char
  }

  /** The number a run of decimal digits denotes, most significant digit first. */
  function DigitsValue(ds: string): nat
    requires AllDigits(ds)
  {
    if ds == [] then 0 else 10 * DigitsValue(ds[..|ds| - 1]) + DigitValue(ds[|ds| - 1])
  }

  /** `parseInt` in its decimal form: `None` plays the part of NaN. */
  function ParseInt(s: string): (r: Option<int>)
    ensures r.None? <==> var u := Unsigned(SkipBlanks(s)); u == [] || !IsDigit(u[0])
  {
    var t := SkipBlanks(s);
    var u := Unsigned(t);
    var n := DigitRun(u);
    if n == 0 then None
    else
      var magnitude: int := DigitsValue(u[..n]);
      Some(if |t| > 0 && t[0] == '-' then -magnitude else magnitude)
  }

  /** The decimal text of a number, as JavaScript converts an integer below 10^21 to a string. */
  function NatToText(n: nat): (s: string)
    decreases n
  {
    if n < 10 then [DigitChar(n)] else NatToText(n / 10) + [DigitChar(n % 10)]
  }

  function IntToText(n: int): string
  {
    if n < 0 then "-" + NatToText(-n) else NatToText(n)
  }

  lemma {:induction false} NatToTextDigits(n: nat)
    ensures |NatToText(n)| > 0 && AllDigits(NatToText(n))
    ensures DigitsValue(NatToText(n)) == n
    decreases n
  {
    if n >= 10 {
      NatToTextDigits(n / 10);
      var s := NatToText(n);
      assert s[..|s| - 1] == NatToText(n / 10);
    }
  }

  /** The digit run of a run of digits followed by text that does not start with a digit is that run. */
  lemma {:induction false} DigitRunOfDigits(s: string, rest: string)
    requires AllDigits(s)
    requires rest == [] || !IsDigit(rest[0])
    ensures DigitRun(s + rest) == |s|
    decreases |s|
  {
    if |s| > 0 {
      DigitRunOfDigits(s[1..], rest);
      assert (s + rest)[1..] == s[1..] + rest;
    } else {
      assert s + rest == rest;
    }
  }

  /** Parsing the text a goal is displayed as gives the goal back, whatever non-digit text follows it. */
  lemma ParseIntToTextThen(n: int, rest: string)
    requires rest == [] || !IsDigit(rest[0])
    ensures ParseInt(IntToText(n) + rest) == Some(n)
  {
    var m: nat := if n < 0 then -n else n;
    var digits := NatToText(m);
    NatToTextDigits(m);
    DigitRunOfDigits(digits, rest);
    var t := IntToText(n) + rest;
    assert IsDigit(digits[0]);
    assert t[0] == '-' || IsDigit(t[0]);
    assert SkipBlanks(t) == t;
    assert Unsigned(t) == digits + rest by {
      if n < 0 {
        assert t[1..] == digits + rest;
      } else {
        assert t == digits + rest;
      }
    }
    assert (digits + rest)[..|digits|] == digits;
  }

  /** Parsing the text a goal is displayed as gives the goal back. */
  lemma ParseIntToText(n: int)
    ensures ParseInt(IntToText(n)) == Some(n)
  {
    ParseIntToTextThen(n, []);
    assert IntToText(n) + [] == IntToText(n);
  }

  /** Text with no digit after the optional sign is not a number. */
  lemma NonNumericTexts()
    ensures ParseInt("abc") == None
    ensures ParseInt("") == None
  {
    assert SkipBlanks("abc") == "abc";
  }

  lemma ZeroText()
    ensures ParseInt("0") == Some(0)
  {
    ParseIntToText(0);
    assert IntToText(0) == "0";
  }

  lemma NegativeText()
    ensures ParseInt("-5") == Some(-5)
  {
    ParseIntToText(-5);
    assert IntToText(-5) == "-5";
  }
}
