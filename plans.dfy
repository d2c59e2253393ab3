/**
 * The display form of one plan, as the server sends it to the page and to the
 * client cache: the price rule, the feature filter and its JSON shape.
 */
module Plans {
  import opened Base
  import opened Store
  import opened Html

  /**
   * A plan as rendered: the array `get_single_plan_data` returns. The feature
   * list keeps its PHP keys, which decide how json_encode sends it to the client.
   */
  datatype PlanView = PlanView(
    id: int,
    title: string,
    price: string,
    buttonText: string,
    buttonLink: string,
    features: StringArray,
    starred: bool,
    annual: bool)

  // ---------------------------------------------------------------------------
  // Price display

  /** The integer part of an amount with a ',' between groups of three digits. */
  function Grouped(n: nat): (s: string)
    ensures |s| >= 1 && IsDigit(s[0])
    ensures AmountChars(s)
  {
    if n < 1000 then
      DigitsAreAmountChars(NatToString(n));
      NatToString(n)
    else
      var hi, lo := Grouped(n / 1000), Padded(n % 1000, 3);
      DigitsAreAmountChars(lo);
      AmountCharsAppend(hi, ",");
      AmountCharsAppend(hi + ",", lo);
      hi + "," + lo
  }

  /** An amount in cents as number_format($x, 2) prints it: sign, grouped units, '.', two decimals. */
  function FormatAmount(cents: int): (s: string)
    ensures |s| >= 4 && s[|s| - 3] == '.'
  {
    var a := if cents < 0 then -cents else cents;
    (if cents < 0 then "-" else "") + Grouped(a / 100) + "." + Padded(a % 100, 2)
  }

  /** Only digits, ',', '.' and '-': nothing that HTML would read as markup. */
  predicate AmountChars(s: string) {
    forall i :: 0 <= i < |s| ==> IsDigit(s[i]) || s[i] in ",.-"
  }

  lemma DigitsAreAmountChars(s: string)
    requires AllDigits(s)
    ensures AmountChars(s)
  {
  }

  lemma AmountCharsAppend(a: string, b: string)
    requires AmountChars(a) && AmountChars(b)
    ensures AmountChars(a + b)
  {
    assert forall i :: |a| <= i < |a + b| ==> (a + b)[i] == b[i - |a|];
  }

  /** A formatted amount holds only digits, ',', '.' and '-'. */
  lemma FormatAmountChars(cents: int)
    ensures AmountChars(FormatAmount(cents))
  {
    var a := if cents < 0 then -cents else cents;
    var sign, units, decimals := if cents < 0 then "-" else "", Grouped(a / 100), Padded(a % 100, 2);
    assert sign + units + "." + decimals == FormatAmount(cents);
    AmountCharsAppend(sign, units);
    AmountCharsAppend(sign + units, ".");
    AmountCharsAppend(sign + units + ".", decimals);
  }

  function StripCommas(s: string): (r: string)
    ensures |r| <= |s|
  {
    if s == [] then [] else (if s[0] == ',' then [] else [s[0]]) + StripCommas(s[1..])
  }

  lemma {:induction false} StripCommasAppend(a: string, b: string)
    ensures StripCommas(a + b) == StripCommas(a) + StripCommas(b)
  {
    if a != [] {
      assert (a + b)[0] == a[0];
      assert (a + b)[1..] == a[1..] + b;
      StripCommasAppend(a[1..], b);
    } else {
      assert a + b == b;
    }
  }

  lemma {:induction false} StripCommasOfDigits(s: string)
    requires AllDigits(s)
    ensures StripCommas(s) == s
  {
    if s != [] {
      StripCommasOfDigits(s[1..]);
    }
  }

  /** Reads back the integer part of a grouped amount. */
  lemma {:induction false} GroupedValue(n: nat)
    ensures AllDigits(StripCommas(Grouped(n)))
    ensures Value(StripCommas(Grouped(n))) == n
  {
    if n < 1000 {
      StripCommasOfDigits(NatToString(n));
      NatToStringValue(n);
    } else {
      var hi, lo := Grouped(n / 1000), Padded(n % 1000, 3);
      GroupedValue(n / 1000);
      StripCommasAppend(hi + ",", lo);
      StripCommasAppend(hi, ",");
      assert StripCommas(",") == [];
      StripCommasOfDigits(lo);
      assert StripCommas(Grouped(n)) == StripCommas(hi) + lo;
      ValueAppend(StripCommas(hi), lo);
      assert Pow10(3) == 1000;
    }
  }

  /** The inverse of FormatAmount: a number_format(…, 2) string back to cents. */
  function ParseAmount(s: string): Option<int> {
    if |s| >= 1 && s[0] == '-' then
      match ParseUnsigned(s[1..])
      case Some(v) => Some(-v)
      case None => None
    else ParseUnsigned(s)
  }

  function ParseUnsigned(s: string): Option<int> {
    if |s| < 4 || s[|s| - 3] != '.' then None
    else ParseSplit(s[..|s| - 3], s[|s| - 2..])
  }

  /** The two sides of the point: grouped units (no sign) and the decimals. */
  function ParseSplit(unitsText: string, decimals: string): Option<int> {
    var units := StripCommas(unitsText);
    if unitsText == [] || unitsText[0] == '-' || !AllDigits(units) || !AllDigits(decimals) then None
    else Some(Value(units) * 100 + Value(decimals))
  }

  /** Every amount the formatter prints reads back as the same number of cents. */
  lemma FormatAmountRoundTrip(cents: int)
    ensures ParseAmount(FormatAmount(cents)) == Some(cents)
  {
    if cents < 0 {
      var a: nat := -cents;
      NonNegativeAmount(a);
      NegativeAmount(a);
      var s := FormatAmount(cents);
      assert s[0] == '-' && s[1..] == FormatAmount(a);
    } else {
      NonNegativeAmount(cents);
    }
  }

  /** A negative amount prints as '-' followed by its magnitude. */
  lemma NegativeAmount(a: nat)
    requires a > 0
    ensures FormatAmount(-(a as int)) == "-" + FormatAmount(a)
  {
    var units, decimals := Grouped(a / 100), Padded(a % 100, 2);
    assert FormatAmount(a) == units + "." + decimals;
    assert FormatAmount(-(a as int)) == "-" + units + "." + decimals;
  }

  /** A non-negative amount starts with a digit and reads back unsigned. */
  lemma NonNegativeAmount(a: nat)
    ensures FormatAmount(a)[0] != '-'
    ensures ParseUnsigned(FormatAmount(a)) == Some(a)
  {
    var units, decimals := Grouped(a / 100), Padded(a % 100, 2);
    var body := units + "." + decimals;
    assert FormatAmount(a) == body;
    assert body[0] == units[0];
    UnsignedRoundTrip(units, decimals, a / 100, a % 100);
  }

  lemma UnsignedRoundTrip(units: string, decimals: string, u: nat, d: nat)
    requires d < 100
    requires units == Grouped(u) && decimals == Padded(d, 2)
    ensures ParseUnsigned(units + "." + decimals) == Some(u * 100 + d)
  {
    ParseUnsignedParts(units, decimals);
    GroupedValue(u);
  }

  /** ParseUnsigned splits "units.dd" at the point. */
  lemma ParseUnsignedParts(units: string, decimals: string)
    requires |units| >= 1 && |decimals| == 2
    ensures ParseUnsigned(units + "." + decimals) == ParseSplit(units, decimals)
  {
    var body := units + "." + decimals;
    assert body[..|body| - 3] == units;
    assert body[|body| - 2..] == decimals;
    assert body[|body| - 3] == '.';
  }

  /**
   * format_price: a non-empty custom label wins as it is; otherwise an empty or
   * non-numeric price is "Free"; otherwise '$' and the amount with two decimals.
   * `cents` is the price as PHP's is_numeric and floatval read it, rounded to cents.
   */
  function FormatPrice(price: string, customLabel: string, cents: Option<int>): (r: string)
    ensures !PhpEmpty(customLabel) ==> r == customLabel
    ensures PhpEmpty(customLabel) && (PhpEmpty(price) || cents == None) ==> r == "Free"
    ensures PhpEmpty(customLabel) && !PhpEmpty(price) && cents.Some? ==>
      |r| >= 1 && r[0] == '$' && ParseAmount(r[1..]) == Some(cents.value)
  {
    if !PhpEmpty(customLabel) then customLabel
    else if PhpEmpty(price) || cents == None then "Free"
    else
      var r := "$" + FormatAmount(cents.value);
      assert r[1..] == FormatAmount(cents.value);
      FormatAmountRoundTrip(cents.value);
      r
  }

  /**
   * format_price as written: the custom label comes back already passed through
   * esc_html, which the card renderers escape a second time.
   */
  function FormatPriceAsWritten(price: string, customLabel: string, cents: Option<int>): (r: string)
    ensures !PhpEmpty(customLabel) ==> r == EscHtml(customLabel)
    ensures PhpEmpty(customLabel) ==> r == FormatPrice(price, customLabel, cents)
  {
    if !PhpEmpty(customLabel) then EscHtml(customLabel) else FormatPrice(price, customLabel, cents)
  }

  lemma FormatPriceExample()
    ensures FormatPrice("19.5", "", Some(1950)) == "$19.50"
  {
    PlainAmountExample(1950);
    NumericPrice("19.5", 1950);
  }

  lemma PlainAmountExample(a: nat)
    requires a == 1950
    ensures FormatAmount(a) == "19.50"
  {
    TwoDigitString(19);
    PaddedExample(50, "50");
    AmountFromParts(a, 19, 50, "19", "50");
  }

  lemma FormatPriceGroupsThousands()
    ensures FormatPrice("1234.56", "", Some(123456)) == "$1,234.56"
  {
    GroupedAmountExample(123456, 1234);
    NumericPrice("1234.56", 123456);
  }

  lemma GroupedAmountExample(a: nat, u: nat)
    requires a == 123456 && u == 1234
    ensures FormatAmount(a) == "1,234.56"
  {
    GroupedExample(u);
    PaddedFiftySix(a % 100);
    AmountFromParts(a, u, a % 100, "1,234", "56");
    JoinedExample();
  }

  lemma PaddedFiftySix(d: nat)
    requires d == 56
    ensures Padded(d, 2) == "56"
  {
    PaddedExample(d, "56");
  }

  lemma JoinedExample()
    ensures "1,234" + "." + "56" == "1,234.56"
  {
  }

  lemma PaddedExample(d: nat, text: string)
    requires d < 100 && text == [DigitChar(d / 10), DigitChar(d % 10)]
    ensures Padded(d, 2) == text
  {
    TwoPadded(d);
  }

  lemma AmountFromParts(a: nat, u: nat, d: nat, units: string, decimals: string)
    requires a == u * 100 + d && d < 100
    requires Grouped(u) == units && Padded(d, 2) == decimals
    ensures FormatAmount(a) == units + "." + decimals
  {
    NonNegativeAmountParts(a);
    assert a / 100 == u && a % 100 == d;
  }

  lemma GroupedExample(u: nat)
    requires u == 1234
    ensures Grouped(u) == "1,234"
  {
    ThousandsExample();
  }

  lemma ThousandsExample()
    ensures Grouped(1234) == "1,234"
  {
    GroupsOfThree(1234);
    ThreePadded(234);
  }

  /** Above 999, the last three digits follow a comma, zero-padded. */
  lemma GroupsOfThree(n: nat)
    requires n >= 1000
    ensures Grouped(n) == Grouped(n / 1000) + "," + Padded(n % 1000, 3)
  {
  }

  /** Without a custom label, a numeric price is '$' and the formatted amount. */
  lemma NumericPrice(price: string, cents: int)
    requires !PhpEmpty(price)
    ensures FormatPrice(price, "", Some(cents)) == "$" + FormatAmount(cents)
  {
  }

  lemma NonNegativeAmountParts(a: nat)
    ensures FormatAmount(a) == Grouped(a / 100) + "." + Padded(a % 100, 2)
  {
    assert "" + Grouped(a / 100) == Grouped(a / 100);
  }

  lemma TwoDigitString(n: nat)
    requires 10 <= n < 100
    ensures Grouped(n) == [DigitChar(n / 10), DigitChar(n % 10)]
  {
    assert NatToString(n / 10) == [DigitChar(n / 10)];
  }

  lemma TwoPadded(n: nat)
    requires n < 100
    ensures Padded(n, 2) == [DigitChar(n / 10), DigitChar(n % 10)]
  {
    assert Padded(n / 10 / 10, 0) == "";
    assert Padded(n / 10, 1) == [DigitChar(n / 10 % 10)];
  }

  lemma ThreePadded(n: nat)
    requires n < 1000
    ensures Padded(n, 3) == [DigitChar(n / 100), DigitChar(n / 10 % 10), DigitChar(n % 10)]
  {
    assert Padded(n, 3) == Padded(n / 10, 2) + [DigitChar(n % 10)];
    TwoPadded(n / 10);
    assert n / 10 / 10 == n / 100;
  }

  /** PHP's empty("0") holds, so a stored price of 0 shows as "Free", not "$0.00". */
  lemma FormatPriceZeroIsFree()
    ensures FormatPrice("0", "", Some(0)) == "Free"
  {
  }

  // ---------------------------------------------------------------------------
  // Features

  /**
   * array_filter on the feature list as written: falsy entries ("" and "0") are
   * dropped and the survivors KEEP their original keys.
   */
  function FilterFeaturesAsWritten(features: seq<string>, from: nat): (r: seq<(nat, string)>)
    ensures forall i :: 0 <= i < |r| ==> !PhpEmpty(r[i].1) && from <= r[i].0 < from + |features|
    ensures forall i :: 0 <= i < |r| ==> features[r[i].0 - from] == r[i].1
    ensures forall i, j :: 0 <= i < j < |r| ==> r[i].0 < r[j].0
    ensures |r| == KeptCount(features)
  {
    if features == [] then []
    else
      var head := if PhpEmpty(features[0]) then [] else [(from, features[0])];
      var tail := FilterFeaturesAsWritten(features[1..], from + 1);
      KeptEntriesPrepend(features, from, head, tail);
      head + tail
  }

  /** The entries kept from the rest stay valid, and in key order, behind the head's entry. */
  lemma KeptEntriesPrepend(features: seq<string>, from: nat, head: seq<(nat, string)>, tail: seq<(nat, string)>)
    requires features != [] && head == if PhpEmpty(features[0]) then [] else [(from, features[0])]
    requires forall i :: 0 <= i < |tail| ==> !PhpEmpty(tail[i].1) && from + 1 <= tail[i].0 < from + |features|
    requires forall i :: 0 <= i < |tail| ==> features[1..][tail[i].0 - (from + 1)] == tail[i].1
    requires forall i, j :: 0 <= i < j < |tail| ==> tail[i].0 < tail[j].0
    ensures forall i :: 0 <= i < |head + tail| ==>
      !PhpEmpty((head + tail)[i].1) && from <= (head + tail)[i].0 < from + |features|
    ensures forall i :: 0 <= i < |head + tail| ==> features[(head + tail)[i].0 - from] == (head + tail)[i].1
    ensures forall i, j :: 0 <= i < j < |head + tail| ==> (head + tail)[i].0 < (head + tail)[j].0
  {
    forall i | 0 <= i < |tail|
      ensures features[tail[i].0 - from] == tail[i].1
    {
      assert features[1..][tail[i].0 - (from + 1)] == features[tail[i].0 - from];
    }
  }

  /** The number of entries PHP does not consider empty. */
  function KeptCount(features: seq<string>): nat {
    if features == [] then 0 else (if PhpEmpty(features[0]) then 0 else 1) + KeptCount(features[1..])
  }

  /**
   * array_filter keeps every non-empty entry under its own key: together with the
   * increasing keys, the result is exactly the non-empty entries with their indices.
   */
  lemma {:induction false} FilterFeaturesAsWrittenKeepsAll(features: seq<string>, from: nat, j: nat)
    requires j < |features| && !PhpEmpty(features[j])
    ensures (from + j, features[j]) in FilterFeaturesAsWritten(features, from)
  {
    if j > 0 {
      FilterFeaturesAsWrittenKeepsAll(features[1..], from + 1, j - 1);
    }
  }

  /**
   * A PHP array of strings, as far as its keys matter here: a list (keys 0, 1, 2, …,
   * as array_values leaves them) or an array with the keys given explicitly.
   */
  datatype StringArray = List(values: seq<string>) | Keyed(entries: seq<(nat, string)>)

  /** How json_encode writes a PHP array of strings: a list iff its keys are 0, 1, 2, … in order. */
  datatype JsonStrings = JsonList(items: seq<string>) | JsonObject(entries: seq<(nat, string)>)

  predicate KeysSequential(kv: seq<(nat, string)>) {
    forall i :: 0 <= i < |kv| ==> kv[i].0 == i
  }

  function ValuesOf(kv: seq<(nat, string)>): (r: seq<string>)
    ensures |r| == |kv| && forall i :: 0 <= i < |kv| ==> r[i] == kv[i].1
  {
    if kv == [] then [] else [kv[0].1] + ValuesOf(kv[1..])
  }

  /** The values in iteration order: what a PHP foreach over the array visits. */
  function ArrayValues(a: StringArray): seq<string> {
    match a
    case List(v) => v
    case Keyed(kv) => ValuesOf(kv)
  }

  function JsonEncode(a: StringArray): (j: JsonStrings)
    ensures j.JsonList? ==> j.items == ArrayValues(a)
  {
    match a
    case List(v) => JsonList(v)
    case Keyed(kv) => if KeysSequential(kv) then JsonList(ValuesOf(kv)) else JsonObject(kv)
  }

  /**
   * The feature list with falsy entries removed and the rest re-indexed from 0
   * (array_values over array_filter): what the server evidently means to send.
   */
  function FilterFeatures(features: seq<string>): (r: seq<string>)
    ensures forall i :: 0 <= i < |r| ==> !PhpEmpty(r[i])
    ensures forall f :: f in r <==> f in features && !PhpEmpty(f)
    ensures forall f :: multiset(r)[f] == if PhpEmpty(f) then 0 else multiset(features)[f]
  {
    if features == [] then []
    else
      assert features == [features[0]] + features[1..];
      (if PhpEmpty(features[0]) then [] else [features[0]]) + FilterFeatures(features[1..])
  }

  /**
   * The corrected filter keeps exactly the values array_filter keeps, in the same
   * order, wherever array_filter's keys start.
   */
  lemma {:induction false} FilterFeaturesKeepsFilteredValues(features: seq<string>, from: nat)
    ensures ValuesOf(FilterFeaturesAsWritten(features, from)) == FilterFeatures(features)
  {
    if features != [] {
      FilterFeaturesKeepsFilteredValues(features[1..], from + 1);
      if !PhpEmpty(features[0]) {
        ValuesOfCons((from, features[0]), FilterFeaturesAsWritten(features[1..], from + 1));
      }
    }
  }

  lemma ValuesOfCons(x: (nat, string), kv: seq<(nat, string)>)
    ensures ValuesOf([x] + kv) == [x.1] + ValuesOf(kv)
  {
    assert ([x] + kv)[1..] == kv;
  }

  /**
   * get_single_plan_data with the corrected feature filter and the custom label
   * left for the renderers to escape.
   */
  function SinglePlanData(p: PlanRecord): PlanView {
    PlanView(p.id, p.title, FormatPrice(p.price, p.customLabel, p.priceCents),
             p.buttonText, p.buttonLink, List(FilterFeatures(p.features)), p.starred, p.annual)
  }

  /**
   * The fields of a plan's display form: copied from the record, the price by the
   * display rule, and the features as a list keyed 0, 1, 2, … holding the non-empty entries.
   */
  lemma SinglePlanDataFields(p: PlanRecord)
    ensures var v := SinglePlanData(p);
      && v.id == p.id && v.title == p.title && v.starred == p.starred && v.annual == p.annual
      && v.buttonText == p.buttonText && v.buttonLink == p.buttonLink
      && v.price == FormatPrice(p.price, p.customLabel, p.priceCents)
      && ArrayValues(v.features) == FilterFeatures(p.features) == ValuesOf(FilterFeaturesAsWritten(p.features, 0))
      && JsonEncode(v.features) == JsonList(FilterFeatures(p.features))
  {
    FilterFeaturesKeepsFilteredValues(p.features, 0);
  }

  /** get_single_plan_data as written: array_filter's keys kept, the label escaped early. */
  function SinglePlanDataAsWritten(p: PlanRecord): (v: PlanView)
    ensures v.id == p.id && v.title == p.title && v.starred == p.starred && v.annual == p.annual
    ensures v.buttonText == p.buttonText && v.buttonLink == p.buttonLink
    ensures v.price == FormatPriceAsWritten(p.price, p.customLabel, p.priceCents)
    ensures v.features == Keyed(FilterFeaturesAsWritten(p.features, 0))
  {
    PlanView(p.id, p.title, FormatPriceAsWritten(p.price, p.customLabel, p.priceCents),
             p.buttonText, p.buttonLink, Keyed(FilterFeaturesAsWritten(p.features, 0)), p.starred, p.annual)
  }

  /**
   * array_map of a per-plan payload builder over a query result: the program maps
   * SinglePlanDataAsWritten; SinglePlanData is the corrected builder.
   */
  function Views(view: PlanRecord -> PlanView, ps: seq<PlanRecord>): (r: seq<PlanView>)
    ensures |r| == |ps| && forall i :: 0 <= i < |ps| ==> r[i] == view(ps[i])
  {
    seq(|ps|, i requires 0 <= i < |ps| => view(ps[i]))
  }

  /** Rendering a slice of the records gives the same slice of the rendered list. */
  lemma ViewsSlice(view: PlanRecord -> PlanView, ps: seq<PlanRecord>, lo: int, hi: int)
    requires 0 <= lo <= hi <= |ps|
    ensures Views(view, ps[lo..hi]) == Views(view, ps)[lo..hi]
  {
    assert forall i :: 0 <= i < hi - lo ==> Views(view, ps[lo..hi])[i] == Views(view, ps)[lo..hi][i];
  }
}
