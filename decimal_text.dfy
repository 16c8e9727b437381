/**
 * Decimal text of non-negative integers: Python's `str(n)`, `s.zfill(w)`
 * (equivalently the format `{n:0wd}` for n >= 0) and `int(s)` restricted to
 * plain ASCII digit strings. Used by the account-number and serial-ID
 * generators of the models.
 */
module DecimalText {
  import opened Wrappers

  predicate IsDigit(c: char) {
    '0' <= c <= '9'
  }

  predicate AllDigits(s: string) {
    forall i :: 0 <= i < |s| ==> IsDigit(s[i])
  }

  function DigitChar(d: nat): (c: char)
    requires d < 10
    ensures IsDigit(c)
    ensures c == '0' <==> d == 0
  {
    ('0' as int + d) as char
  }

  function DigitValue(c: char): (d: nat)
    requires IsDigit(c)
    ensures d < 10
  {
    c as int - '0' as int
  }

  /** `str(n)`: the shortest decimal spelling of `n`. */
  function DecimalString(n: nat): (s: string)
    ensures 1 <= |s| && AllDigits(s)
    ensures n >= 1 ==> s[0] != '0'
    ensures |s| == 1 || s[0] != '0'
  {
    if n < 10 then [DigitChar(n)] else DecimalString(n / 10) + [DigitChar(n % 10)]
  }

  /** The number a string of digits spells, most significant digit first. */
  function DigitsValue(s: string): nat
    requires AllDigits(s)
  {
    if |s| == 0 then 0 else DigitsValue(s[..|s| - 1]) * 10 + DigitValue(s[|s| - 1])
  }

  /** `int(s)` on digit strings; `None` stands for the `ValueError` Python raises otherwise. */
  function ParseDecimal(s: string): (r: Option<nat>)
    ensures r.Some? <==> |s| > 0 && AllDigits(s)
  {
    if |s| > 0 && AllDigits(s) then Some(DigitsValue(s)) else None
  }

  function Zeros(k: nat): (z: string)
    ensures |z| == k && AllDigits(z)
    ensures forall i :: 0 <= i < k ==> z[i] == '0'
  {
    if k == 0 then [] else Zeros(k - 1) + ['0']
  }

  /** `s.zfill(width)` for a string without a sign: left-pad with '0' up to `width`. */
  function ZFill(s: string, width: nat): (r: string)
    ensures |r| == if |s| >= width then |s| else width
    ensures r[|r| - |s|..] == s
    ensures forall i :: 0 <= i < |r| - |s| ==> r[i] == '0'
    ensures AllDigits(s) ==> AllDigits(r)
  {
    if |s| >= width then s else Zeros(width - |s|) + s
  }

  lemma {:induction false} DigitsValueOfDecimalString(n: nat)
    ensures DigitsValue(DecimalString(n)) == n
  {
    var s := DecimalString(n);
    if n >= 10 {
      DigitsValueOfDecimalString(n / 10);
      assert s[..|s| - 1] == DecimalString(n / 10);
    }
  }

  lemma {:induction false} DigitsValueOfZeros(k: nat)
    ensures DigitsValue(Zeros(k)) == 0
  {
    if k > 0 {
      var z := Zeros(k);
      DigitsValueOfZeros(k - 1);
      assert z[..k - 1] == Zeros(k - 1) && z[k - 1] == '0';
      assert DigitsValue(z) == DigitsValue(Zeros(k - 1)) * 10 + DigitValue('0');
    }
  }

  /** Leading zeros do not change the value `int()` reads. */
  lemma {:induction false} DigitsValueIgnoresLeadingZeros(k: nat, s: string)
    requires AllDigits(s)
    ensures DigitsValue(Zeros(k) + s) == DigitsValue(s)
    decreases |s|
  {
    var z := Zeros(k) + s;
    if |s| == 0 {
      assert z == Zeros(k);
      DigitsValueOfZeros(k);
    } else {
      assert z[..|z| - 1] == Zeros(k) + s[..|s| - 1];
      DigitsValueIgnoresLeadingZeros(k, s[..|s| - 1]);
    }
  }

  /** Reading back a zero-padded number gives the number: `int(str(n).zfill(w)) == n`. */
  lemma ZFillRoundTrip(n: nat, width: nat)
    ensures ParseDecimal(ZFill(DecimalString(n), width)) == Some(n)
  {
    var s := DecimalString(n);
    DigitsValueOfDecimalString(n);
    if |s| < width {
      DigitsValueIgnoresLeadingZeros(width - |s|, s);
    }
  }

  /** Padding one character longer with one more trailing character: `zfill` works on the front only. */
  lemma ZFillAppend(x: string, width: nat, c: char)
    ensures ZFill(x + [c], width + 1) == ZFill(x, width) + [c]
  {
    if |x| < width {
      assert Zeros(width - |x|) + (x + [c]) == (Zeros(width - |x|) + x) + [c];
    }
  }

  /** Appending a digit to a positive number's spelling: `str(10 * u + d) == str(u) + str(d)`. */
  lemma DecimalStringAppendDigit(u: nat, d: nat)
    requires u >= 1 && d < 10
    ensures DecimalString(u * 10 + d) == DecimalString(u) + [DigitChar(d)]
  {
    var v := u * 10 + d;
    assert v / 10 == u && v % 10 == d;
  }

  /** A digit character is the character of its own value. */
  lemma DigitCharOfValue(c: char)
    requires IsDigit(c)
    ensures DigitChar(DigitValue(c)) == c
  {
    var d := c as int - '0' as int;
    assert ('0' as int + d) as char == c;
  }

  /** `int()` of one more trailing digit: ten times the value so far, plus the digit. */
  lemma DigitsValueAppend(t: string, c: char)
    requires AllDigits(t) && IsDigit(c)
    ensures AllDigits(t + [c]) && DigitsValue(t + [c]) == DigitsValue(t) * 10 + DigitValue(c)
  {
    var s := t + [c];
    assert s[..|s| - 1] == t && s[|s| - 1] == c;
  }

  /** Appending a digit character to a positive number's spelling spells ten times it plus the digit. */
  lemma AppendDigitSpelling(u: nat, c: char)
    requires u >= 1 && IsDigit(c)
    ensures DecimalString(u * 10 + DigitValue(c)) == DecimalString(u) + [c]
  {
    DecimalStringAppendDigit(u, DigitValue(c));
    DigitCharOfValue(c);
  }

  /** If `x` pads to `t`, then `x` with one more character pads one longer to `t` with it. */
  lemma ZFillStep(x: string, t: string, c: char)
    requires ZFill(x, |t|) == t
    ensures ZFill(x + [c], |t| + 1) == t + [c]
  {
    ZFillAppend(x, |t|, c);
  }

  /** Appending a digit to the spelling of a positive number `u`, padded to `|t|` as `t`. */
  lemma SpellsBackAfterPositive(u: nat, t: string, c: char)
    requires u >= 1 && IsDigit(c) && ZFill(DecimalString(u), |t|) == t
    ensures ZFill(DecimalString(u * 10 + DigitValue(c)), |t| + 1) == t + [c]
  {
    AppendDigitSpelling(u, c);
    ZFillStep(DecimalString(u), t, c);
  }

  /** A digit string that spells zero is all zeros. */
  lemma {:induction false} ValueZeroIsZeros(t: string)
    requires AllDigits(t) && DigitsValue(t) == 0
    ensures t == Zeros(|t|)
    decreases |t|
  {
    if |t| > 0 {
      var front := t[..|t| - 1];
      SplitLast(t);
      ValueZeroIsZeros(front);
      assert t[|t| - 1] == '0';
    }
  }

  /** `str(d)` of a single digit is that digit's character. */
  lemma SingleDigitSpelling(c: char)
    requires IsDigit(c)
    ensures DecimalString(DigitValue(c)) == [c]
  {
    DigitCharOfValue(c);
  }

  /** Padding a one-character string to `k + 1`: `k` zeros, then the character. */
  lemma ZFillOneChar(k: nat, c: char)
    ensures ZFill([c], k + 1) == Zeros(k) + [c]
  {
    if k == 0 {
      assert Zeros(0) + [c] == [c];
    }
  }

  /** `str(d).zfill(k + 1)` for a single digit `d`: `k` zeros, then the digit. */
  lemma ZerosThenDigit(k: nat, c: char)
    requires IsDigit(c)
    ensures ZFill(DecimalString(DigitValue(c)), k + 1) == Zeros(k) + [c]
  {
    SingleDigitSpelling(c);
    ZFillOneChar(k, c);
  }

  /** The step of `ParsedSpellsBack` when the digits before the last spell a positive number. */
  lemma StepAfterPositive(t: string, c: char)
    requires AllDigits(t) && IsDigit(c) && DigitsValue(t) >= 1
    requires ZFill(DecimalString(DigitsValue(t)), |t|) == t
    ensures AllDigits(t + [c]) && ZFill(DecimalString(DigitsValue(t + [c])), |t| + 1) == t + [c]
  {
    DigitsValueAppend(t, c);
    SpellsBackAfterPositive(DigitsValue(t), t, c);
  }

  /** The step of `ParsedSpellsBack` when the digits before the last are `k` zeros. */
  lemma StepAfterZeros(k: nat, c: char)
    requires IsDigit(c)
    ensures AllDigits(Zeros(k) + [c]) && ZFill(DecimalString(DigitsValue(Zeros(k) + [c])), k + 1) == Zeros(k) + [c]
  {
    DigitsValueAppend(Zeros(k), c);
    DigitsValueOfZeros(k);
    ZerosThenDigit(k, c);
  }

  /** A non-empty string is its front followed by its last character. */
  lemma SplitLast(s: string)
    requires |s| > 0
    ensures s[..|s| - 1] + [s[|s| - 1]] == s
  {
  }

  /**
   * The other half of the round trip: printing the number a digit string
   * spells, padded back to the string's length, gives the string again, so
   * `int()` loses nothing but the leading zeros.
   */
  lemma {:induction false} ParsedSpellsBack(s: string)
    requires |s| > 0 && AllDigits(s)
    ensures ZFill(DecimalString(DigitsValue(s)), |s|) == s
    decreases |s|
  {
    var t := s[..|s| - 1];
    var c := s[|s| - 1];
    SplitLast(s);
    if DigitsValue(t) >= 1 {
      ParsedSpellsBack(t);
      StepAfterPositive(t, c);
    } else {
      ValueZeroIsZeros(t);
      StepAfterZeros(|t|, c);
    }
  }
}
