/** Character classes and scanning helpers shared by the regular-expression models. */
module Text {
  import opened Wrappers

  predicate IsDigit(c: char) {
    '0' <= c <= '9'
  }

  /** Python's `\s` on ASCII: space, \t \n \v \f \r and the separators \x1c-\x1f. */
  predicate IsSpace(c: char) {
    c == ' ' || c == '\t' || c == '\n' || c == '\r' || c == '\U{000B}' || c == '\U{000C}'
    || ('\U{001C}' <= c <= '\U{001F}')
  }

  /** `str.lower()` on ASCII letters. */
  function LowerChar(c: char): (d: char)
    ensures 'A' <= c <= 'Z' ==> d as int == c as int + 32
    ensures !('A' <= c <= 'Z') ==> d == c
  {
    if 'A' <= c <= 'Z' then (c as int + 32) as char else c
  }

  function ToLower(s: string): (r: string)
    ensures |r| == |s|
    ensures forall i :: 0 <= i < |s| ==> r[i] == LowerChar(s[i])
  {
    seq(|s|, i requires 0 <= i < |s| => LowerChar(s[i]))
  }

  /** Lower-casing twice is lower-casing once. */
  lemma ToLowerIdempotent(s: string)
    ensures ToLower(ToLower(s)) == ToLower(s)
  {
    assert forall i :: 0 <= i < |s| ==> LowerChar(LowerChar(s[i])) == LowerChar(s[i]);
  }

  /** The character classes the patterns use. */
  datatype CharClass =
    | Digits        // \d
    | Spaces        // \s
    | HyphenSpace   // [- ]
    | AmountChars   // [\d.,]
    | DecimalChars  // [\d.]

  predicate InClass(cls: CharClass, c: char) {
    match cls
    case Digits => IsDigit(c)
    case Spaces => IsSpace(c)
    case HyphenSpace => c == '-' || c == ' '
    case AmountChars => IsDigit(c) || c == '.' || c == ','
    case DecimalChars => IsDigit(c) || c == '.'
  }

  /** The end of the longest run of characters in the class, starting at i (a greedy `[...]*`). */
  function SpanEnd(s: string, i: nat, cls: CharClass): (j: nat)
    requires i <= |s|
    ensures i <= j <= |s|
    ensures forall k :: i <= k < j ==> InClass(cls, s[k])
    ensures j == |s| || !InClass(cls, s[j])
    decreases |s| - i
  {
    if i == |s| || !InClass(cls, s[i]) then i else SpanEnd(s, i + 1, cls)
  }

  /** `s[i:].startswith(w)`. */
  predicate HasPrefixAt(s: string, i: nat, w: string) {
    i + |w| <= |s| && s[i..i + |w|] == w
  }

  function DigitValue(c: char): nat
    requires IsDigit(c)
  {
    c as int - '0' as int
  }

  /** `int(ds)` for a non-empty run of ASCII digits. */
  function DigitsValue(ds: string): (v: nat)
    requires forall k :: 0 <= k < |ds| ==> IsDigit(ds[k])
    decreases |ds|
  {
    if |ds| == 0 then 0 else DigitsValue(ds[..|ds| - 1]) * 10 + DigitValue(ds[|ds| - 1])
  }

  /** The decimal digits of n, most significant first, without leading zeros. */
  function ShowNat(n: nat): (ds: string)
    ensures forall k :: 0 <= k < |ds| ==> IsDigit(ds[k])
    ensures |ds| >= 1
  {
    if n < 10 then [('0' as int + n) as char] else ShowNat(n / 10) + [('0' as int + n % 10) as char]
  }

  /** Reading back the digits of a number gives the number. */
  lemma {:induction false} DigitsValueShowNat(n: nat)
    ensures DigitsValue(ShowNat(n)) == n
  {
    var ds := ShowNat(n);
    if n >= 10 {
      DigitsValueShowNat(n / 10);
      assert ds[..|ds| - 1] == ShowNat(n / 10);
    }
  }

  /** The first position at or after `from` holding c (`str.find`). */
  function FindChar(s: string, c: char, from: nat): (r: Option<nat>)
    requires from <= |s|
    ensures r.Some? ==> from <= r.value < |s| && s[r.value] == c
    ensures r.Some? ==> forall k :: from <= k < r.value ==> s[k] != c
    ensures r.None? ==> forall k :: from <= k < |s| ==> s[k] != c
    decreases |s| - from
  {
    if from == |s| then None
    else if s[from] == c then Some(from)
    else FindChar(s, c, from + 1)
  }

  /** The first position at or after `from` holding a digit. */
  function FindDigit(s: string, from: nat): (r: Option<nat>)
    requires from <= |s|
    ensures r.Some? ==> from <= r.value < |s| && IsDigit(s[r.value])
    ensures r.Some? ==> forall k :: from <= k < r.value ==> !IsDigit(s[k])
    ensures r.None? ==> forall k :: from <= k < |s| ==> !IsDigit(s[k])
    decreases |s| - from
  {
    if from == |s| then None
    else if IsDigit(s[from]) then Some(from)
    else FindDigit(s, from + 1)
  }
}
