/** The rewrites applied to a decoded record before it is dispatched: millisecond timestamps,
    location strings and numbers in scientific notation. */
module RecordTransforms {
  import opened GoTypes

  /** The record types whose payload is unmarshalled and rewritten. */
  const REWRITTEN_TYPES: set<string> := {"alerts", "errors", "V", "connectivity"}

  // ---------------------------------------------------------------- timestamps

  datatype Timestamp = Timestamp(seconds: int, nanos: int)

  /** The largest number of seconds that can be printed as JSON; larger ones are milliseconds. */
  const MAX_SECONDS: int := 315_576_000_000

  /** convertTimestamp: a nil timestamp stays nil, and milliseconds drop the nanoseconds they came with. */
  function ConvertTimestamp(t: Option<Timestamp>): (r: Option<Timestamp>) {
    if t.None? || t.value.seconds < MAX_SECONDS then t
    else Some(Timestamp(t.value.seconds / 1000, t.value.seconds % 1000 * 1_000_000))
  }

  /** The same instant, if `t` is in milliseconds whenever it is too large for seconds. */
  predicate SameInstant(t: Option<Timestamp>, r: Option<Timestamp>) {
    if t.None? || t.value.seconds < 315_576_000_000 then r == t
    else
      && r.Some? && r.value.seconds * 1000 + r.value.nanos / 1_000_000 == t.value.seconds
      && r.value.nanos % 1_000_000 == 0 && 0 <= r.value.nanos < 1_000_000_000
  }

  /** No millisecond is lost: a converted timestamp is the same instant, in canonical form. */
  lemma ConversionKeepsInstant(t: Option<Timestamp>)
    ensures SameInstant(t, ConvertTimestamp(t))
  {
  }

  /** Converting twice changes nothing exactly when the first conversion leaves plain seconds. */
  lemma ConversionIdempotent(t: Option<Timestamp>)
    ensures ConvertTimestamp(ConvertTimestamp(t)) == ConvertTimestamp(t)
       <==> (t.Some? ==> t.value.seconds < MAX_SECONDS * 1000)
  {
  }

  datatype Alert = Alert(name: string, startedAt: Option<Timestamp>, endedAt: Option<Timestamp>)

  function ConvertAlert(a: Alert): (r: Alert) {
    a.(startedAt := ConvertTimestamp(a.startedAt), endedAt := ConvertTimestamp(a.endedAt))
  }

  /** transformTimestamp. */
  method TransformTimestamp(alerts: array<Alert>)
    modifies alerts
    ensures forall i :: 0 <= i < alerts.Length ==> alerts[i] == ConvertAlert(old(alerts[i]))
    ensures IsNormalAlerts(old(alerts[..]), alerts[..])
  {
    hide ConvertTimestamp;
    for i := 0 to alerts.Length
      invariant forall k :: 0 <= k < i ==> alerts[k] == ConvertAlert(old(alerts[k]))
      invariant forall k :: i <= k < alerts.Length ==> alerts[k] == old(alerts[k])
    {
      alerts[i] := alerts[i].(startedAt := ConvertTimestamp(alerts[i].startedAt));
      alerts[i] := alerts[i].(endedAt := ConvertTimestamp(alerts[i].endedAt));
    }
    AlertsAreNormal(old(alerts[..]), alerts[..]);
  }

  /** Names stay, and so does every instant, that of the start with the start and that of the end with the end. */
  predicate IsNormalAlerts(alerts: seq<Alert>, normal: seq<Alert>) {
    && |normal| == |alerts|
    && forall i :: 0 <= i < |alerts| ==>
                     && normal[i].name == alerts[i].name
                     && SameInstant(alerts[i].startedAt, normal[i].startedAt) && SameInstant(alerts[i].endedAt, normal[i].endedAt)
  }

  lemma AlertsAreNormal(alerts: seq<Alert>, normal: seq<Alert>)
    requires |normal| == |alerts| && forall i :: 0 <= i < |alerts| ==> normal[i] == ConvertAlert(alerts[i])
    ensures IsNormalAlerts(alerts, normal)
  {
    hide SameInstant, ConvertTimestamp;
    forall i | 0 <= i < |alerts|
      ensures SameInstant(alerts[i].startedAt, normal[i].startedAt) && SameInstant(alerts[i].endedAt, normal[i].endedAt)
    {
      ConversionKeepsInstant(alerts[i].startedAt);
      ConversionKeepsInstant(alerts[i].endedAt);
    }
  }

  // ---------------------------------------------------------------- signals

  datatype Location = Location(latitude: real, longitude: real)

  datatype Value = StringValue(s: string) | LocationValue(location: Location) | TireLocationValue | OtherValue(code: int)

  /** One signal of a vehicle payload; its value may be missing. */
  datatype Datum = Datum(key: int, value: Option<Value>) {
    /** GetValue().GetStringValue(): empty unless the value is a string. */
    function Text(): string {
      if value.Some? && value.value.StringValue? then value.value.s else ""
    }
  }

  const LOCATION: int := 21

  type LocationParser = string -> Option<Location>

  /** A location is written `(37.4 N, 122.1 W)`: the scanner wants the parenthesis first. */
  ghost predicate OpensWithParenthesis(parse: LocationParser) {
    forall s :: parse(s).Some? ==> s != "" && s[0] == '('
  }

  /** What transformLocation does to the first location datum, and to no other. */
  function LocateFirst(data: seq<Datum>, parse: LocationParser): (r: seq<Datum>)
    ensures |r| == |data|
  {
    if data == [] then []
    else if data[0].key != LOCATION then [data[0]] + LocateFirst(data[1..], parse)
    else [Located(data[0], parse)] + data[1..]
  }

  function Located(d: Datum, parse: LocationParser): (r: Datum) {
    if d.Text() != "" && parse(d.Text()).Some? then d.(value := Some(LocationValue(parse(d.Text()).value))) else d
  }

  /** transformLocation. */
  method TransformLocation(data: array<Datum>, parse: LocationParser)
    modifies data
    ensures data[..] == LocateFirst(old(data[..]), parse)
  {
    ghost var before := data[..];
    var i := 0;
    while i < data.Length
      invariant 0 <= i <= data.Length && data[..] == before
      invariant forall k :: 0 <= k < i ==> before[k].key != LOCATION
    {
      if data[i].key == LOCATION {
        var text := data[i].Text();
        if text != "" {
          var location := parse(text);
          if location.Some? {
            data[i] := data[i].(value := Some(LocationValue(location.value)));
          }
        }
        LocateFirstChangesOne(before, parse, i);
        return;
      }
      i := i + 1;
    }
    LocateFirstChangesOne(before, parse, i);
  }

  /** At most the first location datum changes, and only its value. */
  lemma {:induction false} LocateFirstChangesOne(data: seq<Datum>, parse: LocationParser, i: nat)
    requires i <= |data| && (forall k :: 0 <= k < i ==> data[k].key != LOCATION)
    requires i < |data| ==> data[i].key == LOCATION
    ensures LocateFirst(data, parse) == if i < |data| then data[i := Located(data[i], parse)] else data
  {
    if i > 0 {
      LocateFirstChangesOne(data[1..], parse, i - 1);
    }
  }

  // ---------------------------------------------------------------- scientific notation

  predicate IsDigit(c: char) {
    '0' <= c <= '9'
  }

  predicate AllDigits(s: string) {
    forall c <- s :: IsDigit(c)
  }

  predicate IsSign(s: string) {
    s == "" || s == "+" || s == "-"
  }

  /** The language of `^[+-]?(\d*\.\d+|\d+\.\d*)([eE][+-]?\d+)$`. */
  ghost predicate InScientificLanguage(s: string) {
    exists sign, whole, frac, mark, exponentSign, exponent ::
      IsScientificSplit(s, sign, whole, frac, mark, exponentSign, exponent)
  }

  ghost predicate IsScientificSplit(s: string, sign: string, whole: string, frac: string, mark: char,
                                    exponentSign: string, exponent: string) {
    && s == sign + (whole + ("." + (frac + ([mark] + (exponentSign + exponent)))))
    && IsSign(sign) && AllDigits(whole) && AllDigits(frac) && (frac != "" || whole != "")
    && (mark == 'e' || mark == 'E')
    && IsSign(exponentSign) && exponent != "" && AllDigits(exponent)
  }

  function SkipSign(s: string): (r: string) {
    if s != "" && (s[0] == '+' || s[0] == '-') then s[1..] else s
  }

  /** How many digits `s` starts with. */
  function LeadingDigits(s: string): (n: nat)
    ensures n <= |s| && forall k :: 0 <= k < n ==> IsDigit(s[k])
    ensures n < |s| ==> !IsDigit(s[n])
  {
    if s == "" || !IsDigit(s[0]) then 0 else 1 + LeadingDigits(s[1..])
  }

  predicate IsExponent(s: string) {
    SkipSign(s) != "" && AllDigits(SkipSign(s))
  }

  /** What follows the point; `optional` says that digits stood in front of it. */
  predicate IsFraction(s: string, optional: bool) {
    var m := LeadingDigits(s);
    (m > 0 || optional) && m < |s| && (s[m] == 'e' || s[m] == 'E') && IsExponent(s[m + 1..])
  }

  predicate IsUnsigned(s: string) {
    var n := LeadingDigits(s);
    n < |s| && s[n] == '.' && IsFraction(s[n + 1..], n > 0)
  }

  /** The recogniser, scanning once from left to right. */
  predicate IsScientific(s: string) {
    IsUnsigned(SkipSign(s))
  }

  lemma LeadingDigitsStop(digits: string, rest: string)
    requires AllDigits(digits) && (rest != "" ==> !IsDigit(rest[0]))
    ensures LeadingDigits(digits + rest) == |digits|
  {
    var s := digits + rest;
    assert forall k :: 0 <= k < |digits| ==> s[k] == digits[k];
    assert rest != "" ==> s[|digits|] == rest[0];
  }

  lemma SignSplit(s: string) returns (sign: string)
    ensures IsSign(sign) && s == sign + SkipSign(s)
  {
    sign := if SkipSign(s) == s then "" else s[..1];
  }

  /** The recogniser accepts exactly the language of the expression. */
  lemma RecogniserExact(s: string)
    ensures IsScientific(s) <==> InScientificLanguage(s)
  {
    if IsScientific(s) {
      RecognisedSplits(s);
    }
    if InScientificLanguage(s) {
      var sign, whole, frac, mark, exponentSign, exponent :|
        IsScientificSplit(s, sign, whole, frac, mark, exponentSign, exponent);
      SplitRecognised(s, sign, whole, frac, mark, exponentSign, exponent);
    }
  }

  lemma RecognisedSplits(s: string)
    requires IsScientific(s)
    ensures InScientificLanguage(s)
  {
    hide IsUnsigned, SkipSign;
    var sign := SignSplit(s);
    var whole, frac, mark, exponentSign, exponent := UnsignedSplits(SkipSign(s));
    assert IsScientificSplit(s, sign, whole, frac, mark, exponentSign, exponent);
  }

  lemma UnsignedSplits(s: string) returns (whole: string, frac: string, mark: char, exponentSign: string, exponent: string)
    requires IsUnsigned(s)
    ensures s == whole + ("." + (frac + ([mark] + (exponentSign + exponent))))
    ensures AllDigits(whole) && AllDigits(frac) && (frac != "" || whole != "") && (mark == 'e' || mark == 'E')
    ensures IsSign(exponentSign) && exponent != "" && AllDigits(exponent)
  {
    hide IsFraction;
    var n := LeadingDigits(s);
    whole := s[..n];
    var fraction := s[n + 1..];
    assert s == whole + ("." + fraction);
    frac, mark, exponentSign, exponent := FractionSplits(fraction, n > 0);
  }

  lemma Cut(s: string, m: nat)
    requires m < |s|
    ensures s == s[..m] + ([s[m]] + s[m + 1..])
  {
  }

  lemma FractionSplits(s: string, optional: bool) returns (frac: string, mark: char, exponentSign: string, exponent: string)
    requires IsFraction(s, optional)
    ensures s == frac + ([mark] + (exponentSign + exponent))
    ensures AllDigits(frac) && (frac != "" || optional) && (mark == 'e' || mark == 'E')
    ensures IsSign(exponentSign) && exponent != "" && AllDigits(exponent)
  {
    var m := LeadingDigits(s);
    frac, mark, exponent := s[..m], s[m], SkipSign(s[m + 1..]);
    exponentSign := SignSplit(s[m + 1..]);
    Cut(s, m);
  }

  lemma SplitRecognised(s: string, sign: string, whole: string, frac: string, mark: char, exponentSign: string, exponent: string)
    requires IsScientificSplit(s, sign, whole, frac, mark, exponentSign, exponent)
    ensures IsScientific(s)
  {
    var tail := exponentSign + exponent;
    var fraction := frac + ([mark] + tail);
    SignSkipped(exponentSign, exponent);
    assert IsExponent(tail);
    FractionRecognised(frac, mark, tail, whole != "");
    UnsignedRecognised(whole, fraction);
    SignSkipped(sign, whole + ("." + fraction));
  }

  lemma SignSkipped(sign: string, rest: string)
    requires IsSign(sign) && rest != "" && (IsDigit(rest[0]) || rest[0] == '.')
    ensures SkipSign(sign + rest) == rest
  {
    assert sign == "" || (sign + rest)[1..] == rest;
    assert sign == "" ==> sign + rest == rest;
  }

  lemma FractionRecognised(frac: string, mark: char, tail: string, optional: bool)
    requires AllDigits(frac) && (frac != "" || optional) && (mark == 'e' || mark == 'E') && IsExponent(tail)
    ensures IsFraction(frac + ([mark] + tail), optional)
  {
    LeadingDigitsStop(frac, [mark] + tail);
    assert (frac + ([mark] + tail))[|frac| + 1..] == tail;
  }

  lemma UnsignedRecognised(whole: string, fraction: string)
    requires AllDigits(whole) && IsFraction(fraction, whole != "")
    ensures IsUnsigned(whole + ("." + fraction))
  {
    LeadingDigitsStop(whole, "." + fraction);
    assert (whole + ("." + fraction))[|whole| + 1..] == fraction;
  }

  /** A number rounded to five decimal places, as `%.5f` prints it. */
  datatype Rounded = Rounded(negative: bool, hundredThousandths: nat)

  /** strconv.ParseFloat and the rounding of `%.5f`; None when the number is out of range. */
  type FloatParser = string -> Option<Rounded>

  function DigitChar(n: nat): (c: char)
    requires n < 10
    ensures IsDigit(c)
  {
    '0' + n as char
  }

  function Decimal(n: nat): (s: string)
    ensures s != "" && AllDigits(s)
  {
    if n < 10 then [DigitChar(n)] else Decimal(n / 10) + [DigitChar(n % 10)]
  }

  /** The last digits of a number, with leading zeros. */
  function Padded(n: nat, width: nat): (s: string)
    ensures |s| == width && AllDigits(s)
    decreases width
  {
    if width == 0 then "" else Padded(n / 10, width - 1) + [DigitChar(n % 10)]
  }

  function FormatFixed(r: Rounded): (s: string) {
    (if r.negative then "-" else "") + (Decimal(r.hundredThousandths / 100_000) + ("." + Padded(r.hundredThousandths % 100_000, 5)))
  }

  /** The fixed-point form has no exponent, so it is never taken for scientific notation again. */
  lemma FixedIsNotScientific(r: Rounded)
    ensures var s := FormatFixed(r); !IsScientific(s) && s != "" && (s[0] == '-' || IsDigit(s[0]))
  {
    var whole, frac := Decimal(r.hundredThousandths / 100_000), Padded(r.hundredThousandths % 100_000, 5);
    NotFixed(if r.negative then "-" else "", whole, frac);
  }

  lemma NotFixed(sign: string, whole: string, frac: string)
    requires (sign == "" || sign == "-") && whole != "" && AllDigits(whole) && AllDigits(frac)
    ensures var s := sign + (whole + ("." + frac)); !IsScientific(s) && s != "" && (s[0] == '-' || IsDigit(s[0]))
  {
    var rest := whole + ("." + frac);
    assert rest[0] == whole[0] && whole[0] in whole;
    SignSkipped(sign, rest);
    LeadingDigitsStop(whole, "." + frac);
    assert rest[|whole| + 1..] == frac;
    assert frac + "" == frac;
    LeadingDigitsStop(frac, "");
  }

  /** The number a string of digits stands for. */
  function Number(digits: string): (n: nat)
    requires AllDigits(digits)
  {
    if digits == "" then 0
    else
      var last := digits[|digits| - 1];
      assert IsDigit(last);
      10 * Number(digits[..|digits| - 1]) + (last as int - '0' as int)
  }

  lemma {:induction false} DecimalReads(n: nat)
    ensures Number(Decimal(n)) == n && (Decimal(n) == "0" || Decimal(n)[0] != '0')
  {
    if n >= 10 {
      DecimalReads(n / 10);
      assert Decimal(n)[..|Decimal(n)| - 1] == Decimal(n / 10);
    } else {
      assert Decimal(n)[..0] == "";
    }
  }

  function PowerOfTen(width: nat): nat {
    if width == 0 then 1 else 10 * PowerOfTen(width - 1)
  }

  lemma {:induction false} PaddedReads(n: nat, width: nat)
    requires n < PowerOfTen(width)
    ensures Number(Padded(n, width)) == n
    decreases width
  {
    if width > 0 {
      PaddedReads(n / 10, width - 1);
      assert Padded(n, width)[..width - 1] == Padded(n / 10, width - 1);
    }
  }

  /** A minus sign exactly if the number is negative, the whole part without leading zeros, and five
      decimals that together with it are the number. */
  ghost predicate IsFixed(s: string, r: Rounded) {
    exists whole, frac ::
      && s == (if r.negative then "-" else "") + (whole + ("." + frac))
      && AllDigits(whole) && AllDigits(frac) && |frac| == 5 && (whole == "0" || (whole != "" && whole[0] != '0'))
      && 100_000 * Number(whole) + Number(frac) == r.hundredThousandths
  }

  lemma FixedReads(r: Rounded)
    ensures IsFixed(FormatFixed(r), r)
  {
    var whole, frac := Decimal(r.hundredThousandths / 100_000), Padded(r.hundredThousandths % 100_000, 5);
    DecimalReads(r.hundredThousandths / 100_000);
    assert PowerOfTen(5) == 100_000;
    PaddedReads(r.hundredThousandths % 100_000, 5);
    assert FormatFixed(r) == (if r.negative then "-" else "") + (whole + ("." + frac));
  }

  function FixScientific(d: Datum, parse: FloatParser): (r: Datum) {
    if d.Text() != "" && IsScientific(d.Text()) && parse(d.Text()).Some?
    then d.(value := Some(StringValue(FormatFixed(parse(d.Text()).value)))) else d
  }

  function FixAll(data: seq<Datum>, parse: FloatParser): (r: seq<Datum>)
    ensures |r| == |data| && forall i :: 0 <= i < |data| ==> r[i] == FixScientific(data[i], parse)
  {
    seq(|data|, i requires 0 <= i < |data| => FixScientific(data[i], parse))
  }

  /** transformScientificNotation. */
  method TransformScientificNotation(data: array<Datum>, parse: FloatParser)
    modifies data
    ensures data[..] == FixAll(old(data[..]), parse)
  {
    hide IsScientific, FormatFixed;
    for i := 0 to data.Length
      invariant forall k :: 0 <= k < i ==> data[k] == FixScientific(old(data[k]), parse)
      invariant forall k :: i <= k < data.Length ==> data[k] == old(data[k])
    {
      var text := data[i].Text();
      if text != "" {
        if IsScientific(text) {
          var number := parse(text);
          if number.Some? {
            data[i] := data[i].(value := Some(StringValue(FormatFixed(number.value))));
          }
        }
      }
    }
  }

  // ---------------------------------------------------------------- both rewrites

  function Normalise(data: seq<Datum>, location: LocationParser, number: FloatParser): (r: seq<Datum>)
    ensures |r| == |data|
  {
    FixAll(LocateFirst(data, location), number)
  }

  lemma {:induction false} NormaliseKeepsKeys(data: seq<Datum>, location: LocationParser, number: FloatParser)
    ensures forall i :: 0 <= i < |data| ==> Normalise(data, location, number)[i].key == data[i].key
  {
    LocateFirstKeepsKeys(data, location);
  }

  lemma {:induction false} LocateFirstKeepsKeys(data: seq<Datum>, location: LocationParser)
    ensures forall i :: 0 <= i < |data| ==> LocateFirst(data, location)[i].key == data[i].key
  {
    if data != [] {
      LocateFirstKeepsKeys(data[1..], location);
    }
  }

  /** The first signal that is a location, if its text can be parsed as one, has become one; every
      other text that is a number in scientific notation has become that number in fixed-point form;
      nothing else has changed. */
  ghost predicate IsNormalSignal(data: seq<Datum>, i: nat, r: Datum, location: LocationParser, number: FloatParser)
    requires i < |data|
  {
    var d := data[i];
    var text := if d.value.Some? && d.value.value.StringValue? then d.value.value.s else "";
    var first := d.key == 21 && forall j :: 0 <= j < i ==> data[j].key != 21;
    && r.key == d.key
    && if first && text != "" && location(text).Some? then r.value == Some(LocationValue(location(text).value))
       else if InScientificLanguage(text) && number(text).Some? then
         r.value.Some? && r.value.value.StringValue? && IsFixed(r.value.value.s, number(text).value)
       else r.value == d.value
  }

  lemma SignalsAreNormal(data: seq<Datum>, location: LocationParser, number: FloatParser)
    ensures var r := Normalise(data, location, number);
            forall i :: 0 <= i < |data| ==> IsNormalSignal(data, i, r[i], location, number)
  {
    hide IsNormalSignal, Normalise;
    forall i: int | 0 <= i < |data|
      ensures IsNormalSignal(data, i, Normalise(data, location, number)[i], location, number)
    {
      SignalIsNormal(data, i, location, number);
    }
  }

  lemma SignalIsNormal(data: seq<Datum>, i: nat, location: LocationParser, number: FloatParser)
    requires i < |data|
    ensures IsNormalSignal(data, i, Normalise(data, location, number)[i], location, number)
  {
    hide LocateFirst, IsScientific, InScientificLanguage, FormatFixed, IsFixed;
    var d, l := data[i], LocateFirst(data, location)[i];
    LocatedAt(data, location, i);
    RecogniserExact(l.Text());
    NothingIsNoNumber();
    if number(l.Text()).Some? {
      FixedReads(number(l.Text()).value);
    }
  }

  lemma NothingIsNoNumber()
    ensures !IsScientific("") && !InScientificLanguage("")
  {
    RecogniserExact("");
  }

  lemma {:induction false} LocatedAt(data: seq<Datum>, location: LocationParser, i: nat)
    requires i < |data|
    ensures LocateFirst(data, location)[i] ==
            if data[i].key == 21 && (forall j :: 0 <= j < i ==> data[j].key != 21) then Located(data[i], location) else data[i]
  {
    hide Located;
    if i > 0 {
      LocatedAt(data[1..], location, i - 1);
      assert (forall j :: 0 <= j < i ==> data[j].key != 21) <==>
             data[0].key != 21 && forall j :: 0 <= j < i - 1 ==> data[1..][j].key != 21 by {
        assert forall j :: 1 <= j < i ==> data[j] == data[1..][j - 1];
      }
    }
  }

  /** Normalising a normalised record changes nothing. */
  lemma NormaliseIdempotent(data: seq<Datum>, location: LocationParser, number: FloatParser)
    requires OpensWithParenthesis(location)
    ensures var once := Normalise(data, location, number); Normalise(once, location, number) == once
  {
    var once := Normalise(data, location, number);
    NothingToLocate(data, location, number);
    forall i | 0 <= i < |data|
      ensures FixScientific(once[i], number) == once[i]
    {
      var d := LocateFirst(data, location)[i];
      if d.Text() != "" && IsScientific(d.Text()) && number(d.Text()).Some? {
        FixedIsNotScientific(number(d.Text()).value);
      }
    }
    assert FixAll(once, number) == once;
  }

  lemma {:induction false} NothingToLocate(data: seq<Datum>, location: LocationParser, number: FloatParser)
    requires OpensWithParenthesis(location)
    ensures var once := Normalise(data, location, number); LocateFirst(once, location) == once
  {
    hide FixScientific, Located, FixAll, LocateFirst;
    if data == [] {
      NormaliseNothing(location, number);
    } else {
      var first, rest := data[0], data[1..];
      assert data == [first] + rest;
      LocateFirstOf(first, rest, location);
      FixKeepsKey(first, number);
      if first.key == LOCATION {
        var fixed := FixScientific(Located(first, location), number);
        FixedIsLocated(first, location, number);
        LocatedKeepsKey(first, location);
        FixKeepsKey(Located(first, location), number);
        FixAllOf(Located(first, location), rest, number);
        LocateFirstOf(fixed, FixAll(rest, number), location);
      } else {
        FixAllOf(first, LocateFirst(rest, location), number);
        LocateFirstOf(FixScientific(first, number), Normalise(rest, location, number), location);
        NothingToLocate(rest, location, number);
      }
    }
  }

  lemma NormaliseNothing(location: LocationParser, number: FloatParser)
    ensures LocateFirst([], location) == [] && Normalise([], location, number) == []
  {
  }

  lemma LocateFirstOf(d: Datum, rest: seq<Datum>, location: LocationParser)
    ensures LocateFirst([d] + rest, location)
            == if d.key == LOCATION then [Located(d, location)] + rest else [d] + LocateFirst(rest, location)
  {
    hide Located;
    assert ([d] + rest)[1..] == rest;
  }

  lemma FixAllOf(d: Datum, rest: seq<Datum>, number: FloatParser)
    ensures FixAll([d] + rest, number) == [FixScientific(d, number)] + FixAll(rest, number)
  {
    hide FixScientific;
    assert ([d] + rest)[1..] == rest;
  }

  lemma FixKeepsKey(d: Datum, number: FloatParser)
    ensures FixScientific(d, number).key == d.key
  {
    hide IsScientific, FormatFixed;
  }

  lemma LocatedKeepsKey(d: Datum, location: LocationParser)
    ensures Located(d, location).key == d.key
  {
  }

  /** A datum that was located, and then had its number rewritten, is not located again. */
  lemma FixedIsLocated(datum: Datum, location: LocationParser, number: FloatParser)
    requires OpensWithParenthesis(location)
    ensures var fixed := FixScientific(Located(datum, location), number); Located(fixed, location) == fixed
  {
    hide IsScientific, FormatFixed;
    var d := Located(datum, location);
    if d.Text() != "" && IsScientific(d.Text()) && number(d.Text()).Some? {
      FixedIsNotScientific(number(d.Text()).value);
    }
  }

  // ---------------------------------------------------------------- messages

  /** The protobuf message of a record, by the type of the record; only some types have one. */
  datatype Message = Signals(data: seq<Datum>) | Alerts(alerts: seq<Alert>) | Errors(names: seq<string>) | Connectivity | NoMessage {
    predicate OfType(txType: string) {
      match this
      case Signals(_) => txType == "V"
      case Alerts(_) => txType == "alerts"
      case Errors(_) => txType == "errors"
      case Connectivity => txType == "connectivity"
      case NoMessage => txType !in REWRITTEN_TYPES
    }
  }

  function Normalised(m: Message, location: LocationParser, number: FloatParser): (r: Message) {
    match m
    case Signals(data) => Signals(Normalise(data, location, number))
    case Alerts(alerts) => Alerts(seq(|alerts|, i requires 0 <= i < |alerts| => ConvertAlert(alerts[i])))
    case _ => m
  }

  /** The rewrites of a message, in place. */
  method NormaliseMessage(m: Message, location: LocationParser, number: FloatParser) returns (r: Message)
    ensures r == Normalised(m, location, number)
  {
    hide LocateFirst, FixScientific;
    if m.Signals? {
      var data := new Datum[|m.data|](i requires 0 <= i < |m.data| => m.data[i]);
      assert data[..] == m.data;
      TransformLocation(data, location);
      TransformScientificNotation(data, number);
      return Signals(data[..]);
    }
    if m.Alerts? {
      var alerts := new Alert[|m.alerts|](i requires 0 <= i < |m.alerts| => m.alerts[i]);
      TransformTimestamp(alerts);
      assert alerts[..] == Normalised(m, location, number).alerts;
      return Alerts(alerts[..]);
    }
    r := m;
  }

  /** What is said of the rewrites of a message, field by field. */
  ghost predicate IsNormal(m: Message, r: Message, location: LocationParser, number: FloatParser) {
    match m
    case Signals(data) =>
      && r.Signals? && |r.data| == |data|
      && forall i :: 0 <= i < |data| ==> IsNormalSignal(data, i, r.data[i], location, number)
    case Alerts(alerts) => r.Alerts? && IsNormalAlerts(alerts, r.alerts)
    case _ => r == m
  }

  lemma NormalisedIsNormal(m: Message, location: LocationParser, number: FloatParser)
    ensures IsNormal(m, Normalised(m, location, number), location, number)
  {
    hide Normalise, IsNormalSignal, IsNormalAlerts, ConvertAlert;
    match m {
      case Signals(data) => SignalsAreNormal(data, location, number);
      case Alerts(alerts) => AlertsAreNormal(alerts, Normalised(m, location, number).alerts);
      case _ =>
    }
  }

  /** Some signal has no value. */
  predicate LacksValue(data: seq<Datum>) {
    exists i :: 0 <= i < |data| && data[i].value.None?
  }

  /** Some signal tells where tires are. */
  predicate HasTires(data: seq<Datum>) {
    exists i :: 0 <= i < |data| && data[i].value == Some(TireLocationValue)
  }

  lemma {:induction false} LocateKeepsKinds(data: seq<Datum>, location: LocationParser, i: nat)
    requires i < |data|
    ensures var d := LocateFirst(data, location)[i];
            && (d.value.None? <==> data[i].value.None?)
            && (d.value == Some(TireLocationValue) <==> data[i].value == Some(TireLocationValue))
  {
    if i > 0 {
      LocateKeepsKinds(data[1..], location, i - 1);
    }
  }

  /** Normalisation neither gives a signal a value nor takes one away, and leaves tires alone. */
  lemma NormaliseKeepsKinds(data: seq<Datum>, location: LocationParser, number: FloatParser)
    ensures LacksValue(Normalise(data, location, number)) <==> LacksValue(data)
    ensures HasTires(Normalise(data, location, number)) <==> HasTires(data)
  {
    hide LocateFirst, IsScientific, FormatFixed;
    var r := Normalise(data, location, number);
    forall i | 0 <= i < |data|
      ensures r[i].value.None? <==> data[i].value.None?
      ensures r[i].value == Some(TireLocationValue) <==> data[i].value == Some(TireLocationValue)
    {
      LocateKeepsKinds(data, location, i);
      assert r[i] == FixScientific(LocateFirst(data, location)[i], number);
    }
  }
}
