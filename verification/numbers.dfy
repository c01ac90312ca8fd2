/**
 * Python's `int(s)` on a string (base 10) and `str(n)` on an integer, as the
 * cave entrance reads the player's number and as the guardian names its keys.
 */
module Numbers {
  import opened Common
  import opened Text

  predicate IsDigit(c: char) {
    '0' <= c <= '9'
  }

  function DigitValue(c: char): (d: nat)
    requires IsDigit(c)
    ensures d < 10
  {
    c as int - '0' as int
  }

  function DigitChar(d: nat): (c: char)
    requires d < 10
    ensures IsDigit(c) && DigitValue(c) == d
  {
    (d + '0' as int) as char
  }

  /** The grammar `int()` accepts after the sign: `digit ("_"? digit)*`, that
      is digits with single underscores between them. */
  predicate WellFormedDigits(s: string) {
    && s != []
    && IsDigit(s[0]) && IsDigit(s[|s| - 1])
    && (forall k :: 0 <= k < |s| ==> IsDigit(s[k]) || s[k] == '_')
    && (forall k :: 0 <= k < |s| - 1 ==> s[k] == '_' ==> s[k + 1] != '_')
  }

  /** The decimal value of the digits of `s`, underscores skipped. */
  function DigitsValue(s: string): nat
    requires forall k :: 0 <= k < |s| ==> IsDigit(s[k]) || s[k] == '_'
  {
    if s == [] then 0
    else if s[|s| - 1] == '_' then DigitsValue(s[..|s| - 1])
    else DigitsValue(s[..|s| - 1]) * 10 + DigitValue(s[|s| - 1])
  }

  /** Python's `int(s)`: surrounding whitespace is ignored, an optional sign,
      then well-formed digits; anything else is a `ValueError` (`None`). */
  function ParseInt(s: string): Option<int> {
    ParseSigned(Strip(s))
  }

  /** `int()` on a string that has already been stripped. */
  function ParseSigned(t: string): Option<int> {
    if t == [] then None
    else
      var negative := t[0] == '-';
      var body := if t[0] == '-' || t[0] == '+' then t[1..] else t;
      if WellFormedDigits(body) then
        var magnitude: int := DigitsValue(body);
        Some(if negative then -magnitude else magnitude)
      else None
  }

  /** Python's `str(n)` for a natural number: its decimal digits, no leading
      zero. */
  function ShowNat(n: nat): (s: string)
    ensures s != [] && forall k :: 0 <= k < |s| ==> IsDigit(s[k])
    ensures |s| > 1 ==> s[0] != '0'
  {
    if n < 10 then [DigitChar(n)] else ShowNat(n / 10) + [DigitChar(n % 10)]
  }

  /** Python's `str(n)`. */
  function Show(n: int): (s: string)
    ensures s != []
  {
    if n < 0 then "-" + ShowNat(-n) else ShowNat(n)
  }

  lemma {:induction false} ShowNatValue(n: nat)
    ensures DigitsValue(ShowNat(n)) == n
  {
    var s := ShowNat(n);
    if n >= 10 {
      ShowNatValue(n / 10);
      assert s[..|s| - 1] == ShowNat(n / 10);
    }
  }

  lemma NoSpaceUnchanged(s: string)
    requires forall k :: 0 <= k < |s| ==> !IsSpace(s[k])
    ensures Strip(s) == s
  {
    StripIsSlice(s);
  }

  lemma DigitsWellFormed(n: nat)
    ensures WellFormedDigits(ShowNat(n))
    ensures forall k :: 0 <= k < |ShowNat(n)| ==> !IsSpace(ShowNat(n)[k])
  {
  }

  lemma ParseNegative(body: string)
    requires WellFormedDigits(body)
    ensures ParseSigned("-" + body) == Some(-(DigitsValue(body) as int))
  {
    assert ("-" + body)[1..] == body;
  }

  lemma ShowHasNoSpace(n: int)
    ensures forall k :: 0 <= k < |Show(n)| ==> !IsSpace(Show(n)[k])
  {
    if n < 0 {
      var digits := ShowNat(-n);
      DigitsWellFormed(-n);
      forall k | 0 <= k < |Show(n)| ensures !IsSpace(Show(n)[k]) {
        if k > 0 {
          assert Show(n)[k] == digits[k - 1];
        }
      }
    } else {
      DigitsWellFormed(n);
    }
  }

  /** `int(str(n)) == n`: reading back what `str` wrote gives the number. */
  lemma ParseShow(n: int)
    ensures ParseInt(Show(n)) == Some(n)
  {
    ShowHasNoSpace(n);
    NoSpaceUnchanged(Show(n));
    if n < 0 {
      ShowNatValue(-n);
      DigitsWellFormed(-n);
      ParseNegative(ShowNat(-n));
    } else {
      ShowNatValue(n);
      DigitsWellFormed(n);
    }
  }

  /** Surrounding whitespace does not change what `int()` reads. */
  lemma ParseIgnoresSpaces(s: string)
    ensures ParseInt(Strip(s)) == ParseInt(s)
  {
    StripIdempotent(s);
  }
}
