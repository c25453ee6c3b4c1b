/** The offline query parser and fallback of app/services/llm_service.py. */
module LlmService {
  import opened Wrappers
  import opened JsonValue
  import opened Text

  // ---- `float()` and the inner `to_number` ----

  function Pow10(k: nat): (p: nat)
    ensures p >= 1
  {
    if k == 0 then 1 else 10 * Pow10(k - 1)
  }

  predicate IsDecimalChar(c: char) {
    IsDigit(c) || c == '.'
  }

  predicate AllDigits(s: string) {
    forall k :: 0 <= k < |s| ==> IsDigit(s[k])
  }

  predicate DecimalText(s: string) {
    forall k :: 0 <= k < |s| ==> IsDecimalChar(s[k])
  }

  /** No two dots. */
  predicate AtMostOneDot(s: string) {
    forall a, b :: 0 <= a < b < |s| && s[a] == '.' ==> s[b] != '.'
  }

  predicate HasDigit(s: string) {
    exists k :: 0 <= k < |s| && IsDigit(s[k])
  }

  /** Python `float(s)` for a string of digits and dots: it parses exactly when there is at most one
      dot and at least one digit; the digits before the dot are the whole part and those after it
      the fraction. */
  function ParseDecimal(s: string): (r: Option<real>)
    requires forall k :: 0 <= k < |s| ==> IsDecimalChar(s[k])
    ensures r.Some? <==> AtMostOneDot(s) && HasDigit(s)
    ensures AllDigits(s) ==> (r.Some? <==> |s| >= 1)
    ensures AllDigits(s) && |s| >= 1 ==> r == Some(DigitsValue(s) as real)
    ensures s == "." ==> r.None?
    ensures r.Some? && FindChar(s, '.', 0).Some? ==>
              var d := FindChar(s, '.', 0).value;
              AllDigits(s[..d]) && AllDigits(s[d + 1..])
              && r.value == DigitsValue(s[..d]) as real + DigitsValue(s[d + 1..]) as real / Pow10(|s| - d - 1) as real
    ensures r.Some? ==> r.value >= 0.0
  {
    var dot := FindChar(s, '.', 0);
    if dot.None? then
      NoDot(s);
      if |s| == 0 then None else Some(DigitsValue(s) as real)
    else
      var d := dot.value;
      DotAt(s, d);
      if !AllDigits(s[d + 1..]) || |s| == 1 then None
      else
        var frac, scale := DigitsValue(s[d + 1..]) as real, Pow10(|s| - d - 1) as real;
        assert frac / scale >= 0.0 by { FractionNonNegative(frac, scale); }
        Some(DigitsValue(s[..d]) as real + frac / scale)
  }

  lemma FractionNonNegative(x: real, y: real)
    requires x >= 0.0 && y > 0.0
    ensures x / y >= 0.0
  {
    assert x / y * y == x;
  }

  /** Without a dot, a decimal text is all digits. */
  lemma NoDot(s: string)
    requires forall k :: 0 <= k < |s| ==> IsDecimalChar(s[k]) && s[k] != '.'
    ensures AllDigits(s) && AtMostOneDot(s)
    ensures HasDigit(s) <==> |s| > 0
  {
    if |s| > 0 {
      assert IsDigit(s[0]);
    }
  }

  /** Around its first dot at d, a decimal text has digits before; it has digits after exactly when
      it has no second dot, and then d is its only dot and it holds a digit unless it is the lone dot. */
  lemma DotAt(s: string, d: nat)
    requires forall k :: 0 <= k < |s| ==> IsDecimalChar(s[k])
    requires d < |s| && s[d] == '.' && forall k :: 0 <= k < d ==> s[k] != '.'
    ensures AllDigits(s[..d])
    ensures AllDigits(s[d + 1..]) <==> AtMostOneDot(s)
    ensures AtMostOneDot(s) ==> forall e :: 0 <= e < |s| && s[e] == '.' ==> e == d
    ensures AtMostOneDot(s) ==> (HasDigit(s) <==> |s| > 1)
  {
    var whole, frac := s[..d], s[d + 1..];
    assert forall k :: 0 <= k < |whole| ==> whole[k] == s[k] && IsDecimalChar(s[k]) && s[k] != '.';
    assert forall k :: 0 <= k < |frac| ==> frac[k] == s[d + 1 + k];
    if !AllDigits(frac) {
      var k :| 0 <= k < |frac| && !IsDigit(frac[k]);
      assert frac[k] == s[d + 1 + k] && IsDecimalChar(s[d + 1 + k]);
      assert s[d] == '.' && s[d + 1 + k] == '.';
    } else {
      forall a, b | 0 <= a < b < |s| && s[a] == '.'
        ensures s[b] != '.'
      {
        assert a >= d;
        assert s[b] == frac[b - d - 1];
      }
      if |s| > 1 {
        if d > 0 {
          assert IsDigit(s[0]);
        } else {
          assert frac[0] == s[1];
        }
      }
    }
  }

  /** The characters of a `0.` literal: a zero, the only dot, then digits. */
  lemma ZeroPointShape(s: string)
    requires |s| >= 3 && s[..2] == "0." && AllDigits(s[2..])
    ensures DecimalText(s)
    ensures FindChar(s, '.', 0) == Some(1)
    ensures DigitsValue(s[..1]) == 0
  {
    assert s[0] == '0' && s[1] == '.' by {
      assert s[..2][0] == s[0] && s[..2][1] == s[1];
    }
    forall k | 2 <= k < |s|
      ensures IsDigit(s[k])
    {
      assert s[k] == s[2..][k - 2];
    }
    assert FindChar(s, '.', 0) == FindChar(s, '.', 1);
    assert s[..1] == "0" && s[..1][..0] == [];
  }

  /** A `0.` literal with at least one decimal digit always parses, to its decimal value. */
  lemma ParseZeroPoint(s: string)
    requires |s| >= 3 && s[..2] == "0." && AllDigits(s[2..])
    ensures DecimalText(s)
    ensures ParseDecimal(s) == Some(DigitsValue(s[2..]) as real / Pow10(|s| - 2) as real)
  {
    ZeroPointShape(s);
    assert s[1 + 1..] == s[2..];
  }

  function RemoveCommas(s: string): (r: string)
    ensures forall k :: 0 <= k < |r| ==> r[k] != ',' && r[k] in s
    ensures (forall k :: 0 <= k < |s| ==> s[k] != ',') ==> r == s
  {
    if |s| == 0 then ""
    else if s[0] == ',' then RemoveCommas(s[1..])
    else (assert s == [s[0]] + s[1..]; [s[0]] + RemoveCommas(s[1..]))
  }

  /** Removing commas works piece by piece: with the comma-free case and `RemoveCommas(",") == ""`,
      this says exactly the commas go and every other character stays, in order. */
  lemma {:induction false} RemoveCommasAppend(a: string, b: string)
    ensures RemoveCommas(a + b) == RemoveCommas(a) + RemoveCommas(b)
    decreases |a|
  {
    if |a| == 0 {
      assert a + b == b;
    } else {
      assert (a + b)[0] == a[0] && (a + b)[1..] == a[1..] + b;
      RemoveCommasAppend(a[1..], b);
      if a[0] != ',' {
        assert RemoveCommas(a + b) == [a[0]] + RemoveCommas(a[1..] + b);
      }
    }
  }

  /** The multiplier a unit word stands for. */
  function UnitScale(unit: Option<string>): (m: nat)
    ensures unit == Some("k") || unit == Some("thousand") ==> m == 1000
    ensures unit == Some("m") || unit == Some("million") ==> m == 1000000
    ensures unit == None ==> m == 1
    ensures m == 1 || m == 1000 || m == 1000000
  {
    match unit
    case Some(u) =>
      if u == "k" || u == "thousand" then 1000
      else if u == "m" || u == "million" then 1000000
      else 1
    case None => 1
  }

  /** `n * multiplier`, written per multiplier so that the arithmetic stays linear. */
  function Scale(n: real, unit: Option<string>): (x: real)
    ensures UnitScale(unit) == 1 ==> x == n
    ensures UnitScale(unit) == 1000 ==> x == n * 1000.0
    ensures UnitScale(unit) == 1000000 ==> x == n * 1000000.0
  {
    var m := UnitScale(unit);
    if m == 1000 then n * 1000.0 else if m == 1000000 then n * 1000000.0 else n
  }

  /** `to_number(val, unit)`: drop commas, parse, scale by the unit, truncate; None when not a number. */
  function ToNumber(val: string, unit: Option<string>): (r: Option<int>)
    requires forall k :: 0 <= k < |val| ==> IsDecimalChar(val[k]) || val[k] == ','
    ensures DecimalText(RemoveCommas(val))
    ensures r.Some? <==> ParseDecimal(RemoveCommas(val)).Some?
    ensures r.Some? ==> r.value >= 0
    ensures r.Some? ==> r.value as real <= Scale(ParseDecimal(RemoveCommas(val)).value, unit) < r.value as real + 1.0
  {
    var plain := RemoveCommas(val);
    match ParseDecimal(plain)
    case None => None
    case Some(n) => Some(Truncate(Scale(n, unit)))
  }

  /** A whole amount without commas is its digits' value times the unit's multiplier. */
  lemma ToNumberWhole(s: string, unit: Option<string>)
    requires |s| >= 1 && AllDigits(s)
    ensures ToNumber(s, unit) == Some(DigitsValue(s) * UnitScale(unit))
  {
    assert RemoveCommas(s) == s;
    ScaleWhole(DigitsValue(s), UnitScale(unit), unit);
  }

  /** Scaling a whole number gives the whole product. */
  lemma ScaleWhole(a: nat, m: nat, unit: Option<string>)
    requires m == UnitScale(unit)
    ensures Scale(a as real, unit) == (a * m) as real
    ensures Truncate((a * m) as real) == a * m
  {
    if m == 1000 {
      assert (a * m) as real == a as real * 1000.0;
    } else if m == 1000000 {
      assert (a * m) as real == a as real * 1000000.0;
    }
  }

  // ---- The regular expressions of `_parse_query` ----

  /** The five patterns `_parse_query` searches for. */
  datatype Pattern =
    | MonthsPattern      // (\d+)\s*[- ]*\s*month
    | SalesPattern       // (\d+)\s*(sales\s*people|salespeople|sales)
    | MarketingPattern   // \$?([\d.,]+)\s*(k|m|million|thousand)?\s*(marketing|ad|advertis|budget|spend)
    | PercentPattern     // ([\d.]+)\s*%\s*(conversion|conv)
    | DecimalPattern     // (0\.[\d]+)\s*(conversion|conv)

  /** The captured groups of a match: the number text and, for marketing, the unit word. */
  datatype Capture = Capture(group: string, unit: Option<string>)

  predicate SpendWordAt(t: string, p: nat) {
    HasPrefixAt(t, p, "marketing") || HasPrefixAt(t, p, "ad") || HasPrefixAt(t, p, "advertis")
    || HasPrefixAt(t, p, "budget") || HasPrefixAt(t, p, "spend")
  }

  predicate UnitThenSpendWord(t: string, p: nat, unit: string)
    requires p <= |t|
  {
    HasPrefixAt(t, p, unit) && SpendWordAt(t, SpanEnd(t, p + |unit|, Spaces))
  }

  /** After the amount and its spaces: the optional unit (tried in the pattern's order) and a spend word.
      None means no match; Some(u) a match whose unit group is u. */
  function MarketingTail(t: string, p: nat): (r: Option<Option<string>>)
    requires p <= |t|
    ensures r.Some? && r.value.Some? ==> UnitThenSpendWord(t, p, r.value.value)
    ensures r == Some(None) ==> SpendWordAt(t, p)
    ensures r.None? <==> !SpendWordAt(t, p) && !UnitThenSpendWord(t, p, "k") && !UnitThenSpendWord(t, p, "m")
                         && !UnitThenSpendWord(t, p, "million") && !UnitThenSpendWord(t, p, "thousand")
  {
    if UnitThenSpendWord(t, p, "k") then Some(Some("k"))
    else if UnitThenSpendWord(t, p, "m") then Some(Some("m"))
    else if UnitThenSpendWord(t, p, "million") then Some(Some("million"))
    else if UnitThenSpendWord(t, p, "thousand") then Some(Some("thousand"))
    else if SpendWordAt(t, p) then Some(None)
    else None
  }

  /** `(\d+)` then, after the pattern's separators, the keyword: the group is the maximal digit run. */
  function DigitsThenWord(t: string, i: nat, sep: seq<CharClass>, word: string): (r: Option<Capture>)
    requires i <= |t|
    ensures r.Some? ==> |r.value.group| >= 1 && AllDigits(r.value.group) && r.value.unit == None
  {
    if i < |t| && IsDigit(t[i]) then
      var j := SpanEnd(t, i, Digits);
      if HasPrefixAt(t, SkipAll(t, j, sep), word) then Some(Capture(t[i..j], None)) else None
    else None
  }

  /** Greedy runs of each class in turn. */
  function SkipAll(t: string, i: nat, classes: seq<CharClass>): (j: nat)
    requires i <= |t|
    ensures i <= j <= |t|
    decreases |classes|
  {
    if |classes| == 0 then i else SkipAll(t, SpanEnd(t, i, classes[0]), classes[1..])
  }

  function MarketingAt(t: string, i: nat): (r: Option<Capture>)
    requires i <= |t|
    ensures r.Some? ==> |r.value.group| >= 1
    ensures r.Some? ==> forall k :: 0 <= k < |r.value.group| ==> IsDecimalChar(r.value.group[k]) || r.value.group[k] == ','
  {
    var a := if i < |t| && t[i] == '$' then i + 1 else i;
    if a < |t| && InClass(AmountChars, t[a]) then
      var j := SpanEnd(t, a, AmountChars);
      match MarketingTail(t, SpanEnd(t, j, Spaces))
      case Some(unit) => Some(Capture(t[a..j], unit))
      case None => None
    else None
  }

  function PercentAt(t: string, i: nat): (r: Option<Capture>)
    requires i <= |t|
    ensures r.Some? ==> |r.value.group| >= 1 && DecimalText(r.value.group) && r.value.unit == None
  {
    if i < |t| && InClass(DecimalChars, t[i]) then
      var j := SpanEnd(t, i, DecimalChars);
      var k := SpanEnd(t, j, Spaces);
      if k < |t| && t[k] == '%' && HasPrefixAt(t, SpanEnd(t, k + 1, Spaces), "conv")
      then Some(Capture(t[i..j], None)) else None
    else None
  }

  function DecimalAt(t: string, i: nat): (r: Option<Capture>)
    requires i <= |t|
    ensures r.Some? ==> |r.value.group| >= 3 && r.value.group[..2] == "0." && AllDigits(r.value.group[2..])
    ensures r.Some? ==> DecimalText(r.value.group) && r.value.unit == None
  {
    if i + 2 < |t| && t[i] == '0' && t[i + 1] == '.' && IsDigit(t[i + 2]) then
      var j := SpanEnd(t, i + 2, Digits);
      var g := t[i..j];
      assert g[..2] == "0." && g[2..] == t[i + 2..j];
      assert forall k :: 2 <= k < |g| ==> g[k] == t[i + k];
      if HasPrefixAt(t, SpanEnd(t, j, Spaces), "conv") then Some(Capture(g, None)) else None
    else None
  }

  /** Whether the pattern matches starting exactly at position i, and what it captures.
      Each group is a maximal run: a shorter run would leave a character of the run's class
      where the rest of the pattern needs a space, a `%`, a unit or a keyword. */
  function MatchAt(pat: Pattern, t: string, i: nat): (r: Option<Capture>)
    requires i <= |t|
    ensures r.Some? ==> |r.value.group| >= 1
    ensures r.Some? && (pat == MonthsPattern || pat == SalesPattern) ==> AllDigits(r.value.group)
    ensures r.Some? && pat == MarketingPattern ==>
              forall k :: 0 <= k < |r.value.group| ==> IsDecimalChar(r.value.group[k]) || r.value.group[k] == ','
    ensures r.Some? && (pat == PercentPattern || pat == DecimalPattern) ==> DecimalText(r.value.group)
    ensures r.Some? && pat == DecimalPattern ==>
              |r.value.group| >= 3 && r.value.group[..2] == "0." && AllDigits(r.value.group[2..])
  {
    match pat
    case MonthsPattern => DigitsThenWord(t, i, [Spaces, HyphenSpace, Spaces], "month")
    case SalesPattern => DigitsThenWord(t, i, [Spaces], "sales")
    case MarketingPattern => MarketingAt(t, i)
    case PercentPattern => PercentAt(t, i)
    case DecimalPattern => DecimalAt(t, i)
  }

  /** `re.search`: the match that starts leftmost, trying positions from `from` on. */
  function SearchFrom(pat: Pattern, t: string, from: nat): (r: Option<nat>)
    requires from <= |t|
    ensures r.Some? ==> from <= r.value <= |t| && MatchAt(pat, t, r.value).Some?
    ensures r.Some? ==> forall k :: from <= k < r.value ==> MatchAt(pat, t, k).None?
    ensures r.None? ==> forall k :: from <= k <= |t| ==> MatchAt(pat, t, k).None?
    decreases |t| - from
  {
    if MatchAt(pat, t, from).Some? then Some(from)
    else if from == |t| then None
    else SearchFrom(pat, t, from + 1)
  }

  /** The groups of the leftmost match of the pattern in t, if any. */
  function Search(pat: Pattern, t: string): (r: Option<Capture>)
    ensures r.Some? ==> |r.value.group| >= 1
    ensures r.Some? && (pat == MonthsPattern || pat == SalesPattern) ==> AllDigits(r.value.group)
    ensures r.Some? && pat == MarketingPattern ==>
              forall k :: 0 <= k < |r.value.group| ==> IsDecimalChar(r.value.group[k]) || r.value.group[k] == ','
    ensures r.Some? && (pat == PercentPattern || pat == DecimalPattern) ==> DecimalText(r.value.group)
    ensures r.Some? && pat == DecimalPattern ==>
              |r.value.group| >= 3 && r.value.group[..2] == "0." && AllDigits(r.value.group[2..])
  {
    match SearchFrom(pat, t, 0)
    case Some(i) => MatchAt(pat, t, i)
    case None => None
  }

  // ---- `_parse_query` ----

  /** The dict `_parse_query` returns: each of its four possible keys is present (Some) or absent (None). */
  datatype Parsed = Parsed(
    months: Option<Json>,
    salesPeople: Option<Json>,
    marketing: Option<Json>,
    conversion: Option<Json>)

  const NothingParsed := Parsed(None, None, None, None)

  /** The conversion rate: the percent form wins; the bare `0.x` form is used only without it.
      A percent group that `float()` rejects (such as "1.2.3") raises. */
  function ConversionOf(t: string): (r: Option<Result<real>>)
    ensures Search(PercentPattern, t).Some? ==> r.Some?
    ensures r.None? <==> Search(PercentPattern, t).None? && Search(DecimalPattern, t).None?
    ensures r.Some? && r.value.Ok? ==> r.value.value >= 0.0
  {
    var percent := Search(PercentPattern, t);
    if percent.Some? then
      var x := ParseDecimal(percent.value.group);
      if x.Some? then Some(Ok(x.value / 100.0)) else Some(Err(NotANumber(percent.value.group)))
    else
      var bare := Search(DecimalPattern, t);
      if bare.Some? then (ParseZeroPoint(bare.value.group); Some(Ok(ParseDecimal(bare.value.group).value)))
      else None
  }

  /** The marketing amount: None when `to_number` rejects the text (the key is still set). */
  function AmountOf(c: Capture): (v: Json)
    requires forall k :: 0 <= k < |c.group| ==> IsDecimalChar(c.group[k]) || c.group[k] == ','
    ensures ToNumber(c.group, c.unit).Some? ==> v == JNum(ToNumber(c.group, c.unit).value as real)
    ensures ToNumber(c.group, c.unit).None? ==> v == JNull
    ensures v == JNull || (v.JNum? && v.n >= 0.0)
  {
    match ToNumber(c.group, c.unit)
    case Some(n) => JNum(n as real)
    case None => JNull
  }

  /** The parsed record once the conversion entry is known: a key is set only if its pattern matched. */
  function FieldsWith(t: string, conversion: Option<Json>): Parsed {
    var months := Search(MonthsPattern, t);
    var sales := Search(SalesPattern, t);
    var marketing := Search(MarketingPattern, t);
    Parsed(
      if months.Some? then Some(JNum(DigitsValue(months.value.group) as real)) else None,
      if sales.Some? then Some(JNum(DigitsValue(sales.value.group) as real)) else None,
      if marketing.Some? then Some(AmountOf(marketing.value)) else None,
      conversion)
  }

  /** What `_parse_query` returns for the lower-cased text t; a key is present only if its pattern matched. */
  function ParsedFields(t: string): (r: Result<Parsed>)
    ensures r.Err? <==> ConversionOf(t).Some? && ConversionOf(t).value.Err?
    ensures r.Ok? ==> (r.value.months.Some? <==> Search(MonthsPattern, t).Some?)
    ensures r.Ok? ==> (r.value.salesPeople.Some? <==> Search(SalesPattern, t).Some?)
    ensures r.Ok? ==> (r.value.marketing.Some? <==> Search(MarketingPattern, t).Some?)
    ensures r.Ok? ==> (r.value.conversion.Some? <==> ConversionOf(t).Some?)
    ensures r.Ok? && r.value.months.Some? ==>
              r.value.months.value == JNum(DigitsValue(Search(MonthsPattern, t).value.group) as real)
    ensures r.Ok? && r.value.salesPeople.Some? ==>
              r.value.salesPeople.value == JNum(DigitsValue(Search(SalesPattern, t).value.group) as real)
    ensures r.Ok? && r.value.conversion.Some? ==> r.value.conversion.value == JNum(ConversionOf(t).value.value)
    ensures r.Ok? && r.value.marketing.Some? ==> r.value.marketing.value == AmountOf(Search(MarketingPattern, t).value)
  {
    var conversion := ConversionOf(t);
    if conversion.Some? && conversion.value.Err? then Err(conversion.value.error)
    else Ok(FieldsWith(t, if conversion.Some? then Some(JNum(conversion.value.value)) else None))
  }

  /** The ways `ConversionOf` can turn out, each stated on its own for the parsing method. */
  lemma ConversionFromPercent(t: string, x: Option<real>)
    requires Search(PercentPattern, t).Some? && ParseDecimal(Search(PercentPattern, t).value.group) == x
    ensures x.Some? ==> ConversionOf(t) == Some(Ok(x.value / 100.0))
    ensures x.None? ==> ConversionOf(t) == Some(Err(NotANumber(Search(PercentPattern, t).value.group)))
  {
    var percent := Search(PercentPattern, t);
    assert percent.Some?;
    if x.Some? {
      assert ConversionOf(t) == Some(Ok(x.value / 100.0));
    } else {
      assert ConversionOf(t) == Some(Err(NotANumber(percent.value.group)));
    }
  }

  lemma ConversionFromDecimal(t: string)
    requires Search(PercentPattern, t).None?
    ensures Search(DecimalPattern, t).Some? ==>
              ConversionOf(t) == Some(Ok(ParseDecimal(Search(DecimalPattern, t).value.group).value))
    ensures Search(DecimalPattern, t).None? ==> ConversionOf(t) == None
  {
  }

  lemma ParsedFieldsWithRate(t: string, x: real)
    requires ConversionOf(t) == Some(Ok(x))
    ensures ParsedFields(t) == Ok(FieldsWith(t, Some(JNum(x))))
  {
  }

  lemma ParsedFieldsWithoutRate(t: string)
    requires ConversionOf(t) == None
    ensures ParsedFields(t) == Ok(FieldsWith(t, None))
  {
  }

  /** The conversion step of `_parse_query`: the percent form, else the bare `0.x` form. */
  method ParseConversion(text: string) returns (rate: Option<Result<real>>)
    ensures rate == ConversionOf(text)
  {
    var m := Search(PercentPattern, text);
    if m.Some? {
      var x := ParseDecimal(m.value.group);
      ConversionFromPercent(text, x);
      if x.None? {
        return Some(Err(NotANumber(m.value.group)));
      }
      rate := Some(Ok(x.value / 100.0));
    } else {
      ConversionFromDecimal(text);
      m := Search(DecimalPattern, text);
      if m.Some? {
        ParseZeroPoint(m.value.group);
        rate := Some(Ok(ParseDecimal(m.value.group).value));
      } else {
        rate := None;
      }
    }
  }

  /** `LLMService._parse_query`: lower-case the query, then fill the result one pattern at a time. */
  method ParseQuery(userQuery: string) returns (res: Result<Parsed>)
    ensures res == ParsedFields(ToLower(userQuery))
  {
    var text := ToLower(userQuery);
    var fields := NothingParsed;
    var m := Search(MonthsPattern, text);
    if m.Some? {
      fields := fields.(months := Some(JNum(DigitsValue(m.value.group) as real)));
    }
    m := Search(SalesPattern, text);
    if m.Some? {
      fields := fields.(salesPeople := Some(JNum(DigitsValue(m.value.group) as real)));
    }
    m := Search(MarketingPattern, text);
    if m.Some? {
      var n := ToNumber(m.value.group, m.value.unit);
      fields := fields.(marketing := Some(if n.Some? then JNum(n.value as real) else JNull));
    }
    var rate := ParseConversion(text);
    if rate.Some? {
      if rate.value.Err? {
        return Err(rate.value.error);
      }
      fields := fields.(conversion := Some(JNum(rate.value.value)));
      ParsedFieldsWithRate(text, rate.value.value);
    } else {
      ParsedFieldsWithoutRate(text);
    }
    res := Ok(fields);
  }

  // ---- `_fallback_response` and the fallback rule ----

  /** `parsed.get(key, default)`. */
  function OrDefault(entry: Option<Json>, default: Json): (v: Json)
    ensures entry.Some? ==> v == entry.value
    ensures entry.None? ==> v == default
  {
    if entry.Some? then entry.value else default
  }

  function Driver(name: string, value: Json, unit: string): Json {
    JObj(map["name" := JStr(name), "type" := JStr("input"), "value" := value, "unit" := JStr(unit)])
  }

  /** The `assumptions` dictionary of the offline response, around the three parsed values. */
  function FallbackAssumptionFields(salesPeople: Json, marketing: Json, conversion: Json): map<string, Json> {
    map[
      "initial_sales_people" := salesPeople,
      "sales_people_growth_monthly" := JNum(1.0),
      "revenue_per_large_customer" := JNum(16667.0),
      "monthly_marketing_spend" := marketing,
      "sales_inquiries_per_month" := JNum(160.0),
      "demo_rate" := conversion,
      "avg_revenue_per_small_customer" := JNum(5000.0)]
  }

  /** The offline response built from the parsed fields, with the stated defaults. */
  function FallbackFor(p: Parsed): (j: Json)
    ensures j.JObj?
    ensures "time_horizon_months" in j.fields && j.fields["time_horizon_months"] == OrDefault(p.months, JNum(11.0))
    ensures "revenue_drivers" in j.fields && j.fields["revenue_drivers"].JArr?
    ensures |j.fields["revenue_drivers"].items| == 2
    ensures j.fields["revenue_drivers"].items[0] == Driver("number_of_sales_people", OrDefault(p.salesPeople, JNum(2.0)), "#")
    ensures j.fields["revenue_drivers"].items[1] == Driver("marketing_spend", OrDefault(p.marketing, JNum(200000.0)), "$")
    ensures "assumptions" in j.fields
    ensures j.fields["assumptions"] == JObj(FallbackAssumptionFields(
              OrDefault(p.salesPeople, JNum(2.0)), OrDefault(p.marketing, JNum(200000.0)), OrDefault(p.conversion, JNum(0.45))))
    ensures "special_instructions" in j.fields && j.fields["special_instructions"] == JArr([])
  {
    var months := OrDefault(p.months, JNum(11.0));
    var salesPeople := OrDefault(p.salesPeople, JNum(2.0));
    var marketing := OrDefault(p.marketing, JNum(200000.0));
    var conversion := OrDefault(p.conversion, JNum(0.45));
    JObj(map[
      "time_horizon_months" := months,
      "revenue_drivers" := JArr([
        Driver("number_of_sales_people", salesPeople, "#"),
        Driver("marketing_spend", marketing, "$")]),
      "assumptions" := JObj(FallbackAssumptionFields(salesPeople, marketing, conversion)),
      "business_focus" := JArr([JStr("large_customers"), JStr("small_medium_customers")]),
      "special_instructions" := JArr([])])
  }

  /** The offline response has exactly the five keys of the source's dictionary, and its assumptions
      exactly seven, the parsed values among them under the alias names. */
  lemma FallbackShape(p: Parsed)
    ensures FallbackFor(p).fields.Keys
            == {"time_horizon_months", "revenue_drivers", "assumptions", "business_focus", "special_instructions"}
    ensures var a := FallbackFor(p).fields["assumptions"].fields;
            a.Keys == {"initial_sales_people", "sales_people_growth_monthly", "revenue_per_large_customer",
                       "monthly_marketing_spend", "sales_inquiries_per_month", "demo_rate", "avg_revenue_per_small_customer"}
            && a["initial_sales_people"] == OrDefault(p.salesPeople, JNum(2.0))
            && a["monthly_marketing_spend"] == OrDefault(p.marketing, JNum(200000.0))
            && a["demo_rate"] == OrDefault(p.conversion, JNum(0.45))
  {
  }

  /** `LLMService._fallback_response`: raises exactly when `_parse_query` does. */
  function FallbackResponse(userQuery: string): (r: Result<Json>)
    ensures r.Err? <==> ParsedFields(ToLower(userQuery)).Err?
    ensures r.Ok? ==> r.value == FallbackFor(ParsedFields(ToLower(userQuery)).value)
  {
    match ParsedFields(ToLower(userQuery))
    case Ok(p) => Ok(FallbackFor(p))
    case Err(e) => Err(e)
  }

  /** `get_financial_model_from_query`: without an API key, or when the remote model or the JSON
      decoding fails (`reply` is None), the answer is the fallback; otherwise the decoded reply. */
  function GetFinancialModelFromQuery(userQuery: string, apiKeySet: bool, reply: Option<Json>): (r: Result<Json>)
    ensures !apiKeySet || reply.None? ==> r == FallbackResponse(userQuery)
    ensures apiKeySet && reply.Some? ==> r == Ok(reply.value)
  {
    if !apiKeySet then FallbackResponse(userQuery)
    else match reply
      case Some(j) => Ok(j)
      case None => FallbackResponse(userQuery)
  }

  // ---- Properties of the parser ----

  /** Matching ignores case: a query and its lower-cased form get the same fallback. */
  lemma FallbackIgnoresCase(userQuery: string)
    ensures FallbackResponse(ToLower(userQuery)) == FallbackResponse(userQuery)
  {
    ToLowerIdempotent(userQuery);
  }

  /** `to_number("200", "k")`: thousands. */
  lemma ThousandsExample()
    ensures ToNumber("200", Some("k")) == Some(200000)
  {
    var s := "200";
    var one, two := s[..1], s[..2];
    assert one[..0] == [] && two[..1] == one;
    assert DigitsValue(one) == 2;
    assert DigitsValue(two) == 20;
    assert DigitsValue(s) == 200;
    ToNumberWhole(s, Some("k"));
  }

  /** `to_number("1.2", "m")`: a decimal amount in millions. */
  lemma MillionsExample()
    ensures ToNumber("1.2", Some("m")) == Some(1200000)
  {
    var s := "1.2";
    assert RemoveCommas(s) == s;
    OnePointTwo();
    assert Scale(1.2, Some("m")) == 1200000.0;
  }

  /** `float("1.2")`. */
  lemma OnePointTwo()
    ensures ParseDecimal("1.2") == Some(1.2)
  {
    var s := "1.2";
    assert FindChar(s, '.', 0) == Some(1);
    assert s[..1] == "1" && s[..1][..0] == "" && s[2..] == "2" && s[2..][..0] == "";
  }

  /** `to_number("1,000", "k")`: the thousands separator goes, then the unit scales. */
  lemma ThousandsSeparatorExample()
    ensures ToNumber("1,000", Some("k")) == Some(1000000)
  {
    SeparatorRemoved();
    OneThousand();
    ToNumberWhole("1000", Some("k"));
  }

  /** `"1,000".replace(',', '')` is `"1000"`. */
  lemma SeparatorRemoved()
    ensures RemoveCommas("1,000") == "1000"
  {
    var rest, zeros := ",000", "000";
    assert "1,000" == "1" + rest && rest == "," + zeros && "1000" == "1" + zeros;
    RemoveCommasAppend("1", rest);
    RemoveCommasAppend(",", zeros);
  }

  /** `float("1000")`'s digits. */
  lemma OneThousand()
    ensures AllDigits("1000") && DigitsValue("1000") == 1000
  {
    var s := "1000";
    var one, two, three := s[..1], s[..2], s[..3];
    assert one[..0] == [] && two[..1] == one && three[..2] == two && s[..3] == three;
    assert DigitsValue(one) == 1;
    assert DigitsValue(two) == 10;
    assert DigitsValue(three) == 100;
  }

  /** `to_number(",")`: nothing is left once the commas go, and `float("")` fails. */
  lemma BareCommaExample()
    ensures ToNumber(",", None) == None
  {
    assert RemoveCommas(",") == "";
  }

  /** `re.search` reports the leftmost position where the pattern matches. */
  lemma SearchLeftmost(pat: Pattern, t: string, i: nat)
    requires i <= |t| && MatchAt(pat, t, i).Some?
    requires forall k :: 0 <= k < i ==> MatchAt(pat, t, k).None?
    ensures Search(pat, t) == MatchAt(pat, t, i)
  {
    var r := SearchFrom(pat, t, 0);
    assert r.Some? && r.value == i;
  }

  /** `re.search` finds nothing exactly when the pattern matches at no position. */
  lemma SearchAbsent(pat: Pattern, t: string)
    ensures Search(pat, t).None? <==> forall k :: 0 <= k <= |t| ==> MatchAt(pat, t, k).None?
  {
    var r := SearchFrom(pat, t, 0);
    if r.Some? {
      assert MatchAt(pat, t, r.value).Some?;
    }
  }

  /** The lower-cased query of the service test. */
  const TestQuery := "create 6-month forecast with 3 sales people"

  /** A character at which no pattern can start. */
  predicate PlainChar(c: char) {
    !IsDigit(c) && c != '.' && c != ',' && c != '$'
  }

  /** Lower-casing changes only a leading capital when no other letter is upper case. */
  lemma LowerFirstOnly(q: string, t: string)
    requires |q| == |t| >= 1 && 'A' <= q[0] <= 'Z' && t[0] as int == q[0] as int + 32
    requires forall k :: 1 <= k < |q| ==> q[k] == t[k]
    requires forall k :: 1 <= k < |t| ==> !('A' <= t[k] <= 'Z')
    ensures ToLower(q) == t
  {
  }

  /** The query of the service test, as the user typed it. */
  const ServiceQuery := "Create 6-month forecast with 3 sales people"

  lemma ServiceQueryStart()
    ensures |ServiceQuery| == |TestQuery|
    ensures forall k :: 1 <= k < 15 ==> ServiceQuery[k] == TestQuery[k]
  {
  }

  lemma ServiceQueryMiddle()
    ensures forall k :: 15 <= k < 30 ==> ServiceQuery[k] == TestQuery[k]
  {
  }

  lemma ServiceQueryEnd()
    ensures forall k :: 30 <= k < |TestQuery| ==> ServiceQuery[k] == TestQuery[k]
  {
  }

  lemma TestQueryLower()
    ensures ToLower(ServiceQuery) == TestQuery
  {
    ServiceQueryStart();
    ServiceQueryMiddle();
    ServiceQueryEnd();
    TestQueryNoCapitals();
    LowerFirstOnly(ServiceQuery, TestQuery);
  }

  lemma TestQueryNoCapitals()
    ensures forall k :: 1 <= k < |TestQuery| ==> !('A' <= TestQuery[k] <= 'Z')
  {
    assert forall k :: 1 <= k < 22 ==> !('A' <= TestQuery[k] <= 'Z');
  }

  lemma TestQueryPlainBefore7()
    ensures forall k :: 0 <= k < 7 ==> PlainChar(TestQuery[k])
  {
  }

  lemma TestQueryPlainBetween()
    ensures forall k :: 8 <= k < 29 ==> PlainChar(TestQuery[k])
  {
  }

  lemma TestQueryPlainAfter29()
    ensures forall k :: 30 <= k < |TestQuery| ==> PlainChar(TestQuery[k])
  {
  }

  /** No pattern can start at a character that is not a digit, '.', ',' or '$'. */
  lemma NoMatchAtPlainChar(pat: Pattern, t: string, k: nat)
    requires k <= |t|
    requires k < |t| ==> PlainChar(t[k])
    ensures MatchAt(pat, t, k).None?
  {
  }

  /** Outside positions 7 and 29 no pattern matches the test query. */
  lemma TestQueryElsewhere(pat: Pattern)
    ensures forall k :: 0 <= k <= |TestQuery| && k != 7 && k != 29 ==> MatchAt(pat, TestQuery, k).None?
  {
    TestQueryPlainBefore7();
    TestQueryPlainBetween();
    TestQueryPlainAfter29();
    forall k | 0 <= k <= |TestQuery| && k != 7 && k != 29
      ensures MatchAt(pat, TestQuery, k).None?
    {
      NoMatchAtPlainChar(pat, TestQuery, k);
    }
  }

  /** `HasPrefixAt` fixes the characters of the text under the word. */
  lemma PrefixChar(t: string, p: nat, w: string, k: nat)
    requires HasPrefixAt(t, p, w) && k < |w|
    ensures t[p + k] == w[k]
  {
    assert t[p..p + |w|][k] == w[k];
  }

  /** A word cannot start where the text holds a character other than the word's first. */
  lemma NotPrefixAt(t: string, p: nat, w: string)
    requires |w| >= 1 && p < |t| && t[p] != w[0]
    ensures !HasPrefixAt(t, p, w)
  {
  }

  /** No spend word starts at p when its first two characters rule them all out. */
  lemma NoSpendWordStartsAt(t: string, p: nat)
    requires p + 1 < |t|
    requires t[p] !in "mabs" || (t[p] == 's' && t[p + 1] != 'p')
    ensures !SpendWordAt(t, p)
  {
    if t[p] == 's' {
      if HasPrefixAt(t, p, "spend") {
        PrefixChar(t, p, "spend", 1);
      }
    } else {
      NotPrefixAt(t, p, "spend");
    }
    NotPrefixAt(t, p, "marketing");
    NotPrefixAt(t, p, "ad");
    NotPrefixAt(t, p, "advertis");
    NotPrefixAt(t, p, "budget");
  }

  /** No unit and no spend word starts at p when its first two characters rule them all out. */
  lemma NoSpendWordAt(t: string, p: nat)
    requires p + 1 < |t|
    requires t[p] !in "mabskt" || (t[p] == 's' && t[p + 1] != 'p')
    ensures MarketingTail(t, p).None?
  {
    NoSpendWordStartsAt(t, p);
    NotPrefixAt(t, p, "k");
    NotPrefixAt(t, p, "m");
    NotPrefixAt(t, p, "million");
    NotPrefixAt(t, p, "thousand");
  }

  /** A single digit followed, after the separators, by the keyword: the digit is the group. */
  lemma SingleDigitThenWord(t: string, i: nat, sep: seq<CharClass>, word: string, p: nat)
    requires i + 1 < |t| && IsDigit(t[i]) && !IsDigit(t[i + 1])
    requires SkipAll(t, i + 1, sep) == p && HasPrefixAt(t, p, word)
    ensures DigitsThenWord(t, i, sep, word) == Some(Capture([t[i]], None))
  {
    assert SpanEnd(t, i, Digits) == i + 1;
    assert t[i..i + 1] == [t[i]];
  }

  /** The characters of the test query around "6-month". */
  lemma TestQueryAt7()
    ensures TestQuery[7] == '6' && TestQuery[8] == '-' && TestQuery[9] == 'm'
    ensures HasPrefixAt(TestQuery, 9, "month")
  {
    var t := TestQuery;
    assert t[9] == 'm' && t[10] == 'o' && t[11] == 'n' && t[12] == 't' && t[13] == 'h';
    assert t[9..14] == "month";
  }

  lemma MonthsAt7()
    ensures MatchAt(MonthsPattern, TestQuery, 7) == Some(Capture("6", None))
  {
    TestQueryAt7();
    assert SkipAll(TestQuery, 8, [Spaces, HyphenSpace, Spaces]) == 9;
    SingleDigitThenWord(TestQuery, 7, [Spaces, HyphenSpace, Spaces], "month", 9);
  }

  lemma SalesAt7()
    ensures MatchAt(SalesPattern, TestQuery, 7).None?
  {
    var t := TestQuery;
    assert t[7] == '6' && t[8] == '-';
    assert SpanEnd(t, 7, Digits) == 8;
    assert SkipAll(t, 8, [Spaces]) == 8;
  }

  lemma MarketingAt7()
    ensures MatchAt(MarketingPattern, TestQuery, 7).None?
  {
    var t := TestQuery;
    assert t[7] == '6' && t[8] == '-' && t[9] == 'm';
    assert SpanEnd(t, 7, AmountChars) == 8;
    assert SpanEnd(t, 8, Spaces) == 8;
    NoSpendWordAt(t, 8);
  }

  lemma RateAt7()
    ensures MatchAt(PercentPattern, TestQuery, 7).None?
    ensures MatchAt(DecimalPattern, TestQuery, 7).None?
  {
    var t := TestQuery;
    assert t[7] == '6' && t[8] == '-';
    assert SpanEnd(t, 7, DecimalChars) == 8;
    assert SpanEnd(t, 8, Spaces) == 8;
  }

  /** The characters of the test query around "3 sales". */
  lemma TestQueryAt29()
    ensures TestQuery[29] == '3' && TestQuery[30] == ' ' && TestQuery[31] == 's' && TestQuery[32] == 'a'
    ensures HasPrefixAt(TestQuery, 31, "sales")
  {
    var t := TestQuery;
    assert t[31] == 's' && t[32] == 'a' && t[33] == 'l' && t[34] == 'e' && t[35] == 's';
    assert t[31..36] == "sales";
  }

  lemma SalesAt29()
    ensures MatchAt(SalesPattern, TestQuery, 29) == Some(Capture("3", None))
  {
    TestQueryAt29();
    assert SkipAll(TestQuery, 30, [Spaces]) == 31;
    SingleDigitThenWord(TestQuery, 29, [Spaces], "sales", 31);
  }

  lemma MarketingAt29()
    ensures MatchAt(MarketingPattern, TestQuery, 29).None?
  {
    var t := TestQuery;
    assert t[29] == '3' && t[30] == ' ' && t[31] == 's' && t[32] == 'a';
    assert SpanEnd(t, 29, AmountChars) == 30;
    assert SpanEnd(t, 30, Spaces) == 31;
    NoSpendWordAt(t, 31);
  }

  lemma RateAt29()
    ensures MatchAt(PercentPattern, TestQuery, 29).None?
    ensures MatchAt(DecimalPattern, TestQuery, 29).None?
  {
    var t := TestQuery;
    assert t[29] == '3' && t[30] == ' ' && t[31] == 's';
    assert SpanEnd(t, 29, DecimalChars) == 30;
    assert SpanEnd(t, 30, Spaces) == 31;
  }

  lemma TestQueryMonths()
    ensures Search(MonthsPattern, TestQuery) == Some(Capture("6", None))
  {
    MonthsAt7();
    TestQueryElsewhere(MonthsPattern);
    SearchLeftmost(MonthsPattern, TestQuery, 7);
  }

  lemma TestQuerySales()
    ensures Search(SalesPattern, TestQuery) == Some(Capture("3", None))
  {
    SalesAt7();
    SalesAt29();
    TestQueryElsewhere(SalesPattern);
    SearchLeftmost(SalesPattern, TestQuery, 29);
  }

  lemma TestQueryNoMarketing()
    ensures Search(MarketingPattern, TestQuery).None?
  {
    MarketingAt7();
    MarketingAt29();
    TestQueryElsewhere(MarketingPattern);
    SearchAbsent(MarketingPattern, TestQuery);
  }

  lemma TestQueryNoRate()
    ensures Search(PercentPattern, TestQuery).None?
    ensures Search(DecimalPattern, TestQuery).None?
  {
    RateAt7();
    RateAt29();
    TestQueryElsewhere(PercentPattern);
    SearchAbsent(PercentPattern, TestQuery);
    TestQueryElsewhere(DecimalPattern);
    SearchAbsent(DecimalPattern, TestQuery);
  }

  /** A text in which only the month count and the head-count patterns match. */
  lemma OnlyMonthsAndSales(t: string, months: string, salesPeople: string)
    requires Search(MonthsPattern, t) == Some(Capture(months, None))
    requires Search(SalesPattern, t) == Some(Capture(salesPeople, None))
    requires Search(MarketingPattern, t).None?
    requires Search(PercentPattern, t).None? && Search(DecimalPattern, t).None?
    ensures AllDigits(months) && AllDigits(salesPeople)
    ensures ParsedFields(t)
            == Ok(Parsed(Some(JNum(DigitsValue(months) as real)), Some(JNum(DigitsValue(salesPeople) as real)), None, None))
  {
    assert ConversionOf(t) == None;
  }

  lemma TestQueryFields()
    ensures ParsedFields(TestQuery) == Ok(Parsed(Some(JNum(6.0)), Some(JNum(3.0)), None, None))
  {
    TestQueryMonths();
    TestQuerySales();
    TestQueryNoMarketing();
    TestQueryNoRate();
    OnlyMonthsAndSales(TestQuery, "6", "3");
    TestQueryDigits();
  }

  lemma TestQueryDigits()
    ensures DigitsValue("6") == 6 && DigitsValue("3") == 3
  {
    assert "6"[..0] == "" && "3"[..0] == "";
  }

  /** The query of the service test: six months and three sales people are read, nothing else. */
  lemma TestQueryParsed()
    ensures ParsedFields(ToLower(ServiceQuery))
            == Ok(Parsed(Some(JNum(6.0)), Some(JNum(3.0)), None, None))
  {
    TestQueryLower();
    TestQueryFields();
  }
}
