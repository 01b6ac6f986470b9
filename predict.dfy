/**
 * The `/predict` handler of the SberAuto prediction service: the session
 * record it accepts, the features it derives from it, and the response built
 * from the classifier's answer.
 *
 * Date parsing and the trained classifier belong to libraries outside this
 * model, so `Predict` receives them as function parameters.
 */
module Prediction {
  import opened Wrappers
  import opened PyText

  /** One web-visit session as the request describes it. */
  datatype SessionInput = SessionInput(
    sessionId: string,
    visitDate: string,
    visitNumber: int,
    utmSource: string,
    utmMedium: string,
    utmCampaign: string,
    utmAdcontent: Option<string>,
    utmKeyword: Option<string>,
    deviceCategory: string,
    deviceBrand: string,
    deviceScreenResolution: string,
    deviceBrowser: string,
    geoCountry: string,
    geoCity: string)

  /** The calendar facts the service reads off a parsed visit date. */
  datatype ParsedDate = ParsedDate(month: int, dayOfWeek: int)

  /** A parsed date has a month in 1..12 and a day of week in 0..6, Monday being 0. */
  type CalendarDate = d: ParsedDate | 1 <= d.month <= 12 && 0 <= d.dayOfWeek <= 6
    witness ParsedDate(1, 0)

  /**
   * The row handed to the classifier: the session's fields in request order,
   * with the visit date replaced by its parse (None when it did not parse),
   * followed by the six derived columns.
   */
  datatype Features = Features(
    sessionId: string,
    visitDate: Option<CalendarDate>,
    visitNumber: int,
    utmSource: string,
    utmMedium: string,
    utmCampaign: string,
    utmAdcontent: Option<string>,
    utmKeyword: Option<string>,
    deviceCategory: string,
    deviceBrand: string,
    deviceScreenResolution: string,
    deviceBrowser: string,
    geoCountry: string,
    geoCity: string,
    visitMonth: int,
    dayOfWeek: int,
    isWeekend: int,
    screenWidth: nat,
    screenHeight: nat,
    isSocial: int)

  /** The response body: the echoed session identifier and the predicted label. */
  datatype Response = Response(sessionId: string, prediction: int)

  datatype PredictError =
    | ScoringFailed   // the classifier raised, e.g. on a category it was not trained on
    | NoPrediction    // the classifier returned no labels, so the first one does not exist

  // ---------------------------------------------------------------------------
  // Date features

  /** Month of the parsed date, 0 when the date did not parse. */
  function VisitMonth(date: Option<CalendarDate>): (m: int)
    ensures date.None? ==> m == 0
    ensures date.Some? ==> 1 <= m <= 12 && m == date.value.month
  {
    if date.Some? then date.value.month else 0
  }

  /** Day of week of the parsed date (Monday = 0), 0 when the date did not parse. */
  function DayOfWeek(date: Option<CalendarDate>): (d: int)
    ensures date.None? ==> d == 0
    ensures date.Some? ==> 0 <= d <= 6 && d == date.value.dayOfWeek
  {
    if date.Some? then date.value.dayOfWeek else 0
  }

  /** 1 exactly when the day of week is 5 or more, otherwise 0. */
  function IsWeekend(dow: int): (r: int)
    ensures r == 0 || r == 1
    ensures r == 1 <==> dow >= 5
  {
    if dow >= 5 then 1 else 0
  }

  /** Over the seven days of a week, the weekend flag is set for Saturday (5) and Sunday (6) only. */
  lemma WeekendDaysOfWeek(dow: int)
    requires 0 <= dow <= 6
    ensures IsWeekend(dow) == 1 <==> dow == 5 || dow == 6
    ensures IsWeekend(dow) == 0 <==> dow <= 4
  {
  }

  // ---------------------------------------------------------------------------
  // Screen resolution

  /** `int(p) if p.isdigit() else 0`. */
  function IntOrZero(p: string): (n: nat)
    ensures !IsDigits(p) ==> n == 0
  {
    if IsDigits(p) then DecimalValue(p) else 0
  }

  /**
   * Width and height from a "<width>x<height>" string: without an 'x' both are
   * 0; otherwise the first two 'x'-separated pieces are read, each one as a
   * decimal number when it is all digits and as 0 when it is not.
   */
  function ParseResolution(res: string): (r: (nat, nat))
    ensures 'x' !in res ==> r == (0, 0)
  {
    if 'x' in res then
      var parts := Split(res, 'x');
      (IntOrZero(parts[0]), IntOrZero(parts[1]))
    else
      (0, 0)
  }

  /**
   * The resolution is read field by field: whatever precedes the first 'x' is the
   * width, whatever lies between the first and the second 'x' (or the end) is the
   * height, each read independently of the other, and anything from a second 'x'
   * on is ignored.
   */
  lemma ResolutionFields(w: string, h: string, tail: string)
    requires 'x' !in w && 'x' !in h
    requires tail == [] || tail[0] == 'x'
    ensures ParseResolution(w + "x" + h + tail) == (IntOrZero(w), IntOrZero(h))
  {
    var res := w + "x" + h + tail;
    assert res == w + ['x'] + h + tail;
    SplitFirstTwo(w, 'x', h, tail);
    assert res[|w|] == 'x';
  }

  /**
   * The same reading stated by position: the width is the text before the first
   * 'x', the height the text from there up to the next 'x' or the end.
   */
  lemma ResolutionByPosition(res: string)
    requires 'x' in res
    ensures var i := FieldEnd(res, 'x');
      var rest := res[i + 1..];
      ParseResolution(res) == (IntOrZero(res[..i]), IntOrZero(rest[..FieldEnd(rest, 'x')]))
  {
    var i := FieldEnd(res, 'x');
    var rest := res[i + 1..];
    var j := FieldEnd(rest, 'x');
    assert res == res[..i] + "x" + rest[..j] + rest[j..];
    ResolutionFields(res[..i], rest[..j], rest[j..]);
  }

  /** A well-formed "<digits>x<digits>" string gives the two base-10 values. */
  lemma ResolutionOfDigits(w: string, h: string)
    requires IsDigits(w) && IsDigits(h)
    ensures ParseResolution(w + "x" + h) == (DecimalValue(w), DecimalValue(h))
  {
    DigitsExclude(w, 'x');
    DigitsExclude(h, 'x');
    assert w + "x" + h == w + "x" + h + [];
    ResolutionFields(w, h, []);
  }

  /** Rendering two numbers as "<width>x<height>" and parsing the result gives them back. */
  lemma ResolutionRoundTrip(width: nat, height: nat)
    ensures ParseResolution(ToDecimal(width) + "x" + ToDecimal(height)) == (width, height)
  {
    ResolutionOfDigits(ToDecimal(width), ToDecimal(height));
    DecimalOfToDecimal(width);
    DecimalOfToDecimal(height);
  }

  // ---------------------------------------------------------------------------
  // Social sources

  /** The six `utm_source` identifiers that count as social networks. */
  const SocialSources: seq<string> := [
    "QxAxdyPLuQMEcrdZWdWb", "MvfHsxITijuriZxsqZqt", "ISrKoXQCxqqYvAZICvjs",
    "IZEXUFLARCUMynmHNBGo", "PlbkrSYoHuZBWfYjYnfw", "gVRrcxiDQubJiljoTbGm"]

  /** 1 exactly when the source is one of the listed identifiers, compared character for character. */
  function IsSocial(src: string): (r: int)
    ensures r == 0 || r == 1
    ensures r == 1 <==> src in SocialSources
  {
    if src in SocialSources then 1 else 0
  }

  /** Every listed identifier is twenty characters long. */
  lemma SocialSourceLength(src: string)
    requires src in SocialSources
    ensures |src| == 20
  {
  }

  /** A source of any other length, such as a strict prefix or a padded listed identifier, is not social. */
  lemma NotSocialUnlessTwentyChars(src: string)
    requires |src| != 20
    ensures IsSocial(src) == 0
  {
    if src in SocialSources {
      SocialSourceLength(src);
    }
  }

  /** A strict prefix of a listed identifier is not social. */
  lemma StrictPrefixNotSocial(listed: string, prefix: string)
    requires listed in SocialSources
    requires |prefix| < |listed| && prefix == listed[..|prefix|]
    ensures IsSocial(prefix) == 0
  {
    SocialSourceLength(listed);
    NotSocialUnlessTwentyChars(prefix);
  }

  /** A listed identifier with anything added before or after it is not social. */
  lemma PaddedNotSocial(listed: string, before: string, after: string)
    requires listed in SocialSources
    requires |before| + |after| > 0
    ensures IsSocial(before + listed + after) == 0
  {
    SocialSourceLength(listed);
    NotSocialUnlessTwentyChars(before + listed + after);
  }

  function LowerChar(ch: char): char {
    if 'A' <= ch <= 'Z' then (ch as int + 32) as char else ch
  }

  /** ASCII lower-casing, character by character. */
  function AsciiLower(s: string): (r: string)
    ensures |r| == |s|
    ensures forall k :: 0 <= k < |s| ==> r[k] == LowerChar(s[k])
  {
    seq(|s|, k requires 0 <= k < |s| => LowerChar(s[k]))
  }

  /** No two listed identifiers differ in letter case only. */
  lemma SocialSourcesCaseDistinct(a: string, b: string)
    requires a in SocialSources && b in SocialSources
    requires AsciiLower(a) == AsciiLower(b)
    ensures a == b
  {
    SocialSourceLength(a);
    SocialSourceLength(b);
    assert LowerChar(a[0]) == AsciiLower(a)[0] == AsciiLower(b)[0] == LowerChar(b[0]);
    assert LowerChar(a[1]) == AsciiLower(a)[1] == AsciiLower(b)[1] == LowerChar(b[1]);
  }

  /** A case variant of a listed identifier that is not the identifier itself is not social. */
  lemma CaseVariantNotSocial(listed: string, variant: string)
    requires listed in SocialSources
    requires AsciiLower(variant) == AsciiLower(listed) && variant != listed
    ensures IsSocial(variant) == 0
  {
    if variant in SocialSources {
      SocialSourcesCaseDistinct(variant, listed);
    }
  }

  // ---------------------------------------------------------------------------
  // Derivation and response

  /**
   * The row the classifier scores: the session's fields unchanged except the
   * visit date, which is replaced by its parse, plus the derived columns.
   */
  function DeriveFeatures(input: SessionInput, date: Option<CalendarDate>): (f: Features)
    ensures f.sessionId == input.sessionId && f.visitDate == date
    ensures f.visitNumber == input.visitNumber
    ensures f.utmSource == input.utmSource && f.utmMedium == input.utmMedium
    ensures f.utmCampaign == input.utmCampaign && f.utmAdcontent == input.utmAdcontent
    ensures f.utmKeyword == input.utmKeyword
    ensures f.deviceCategory == input.deviceCategory && f.deviceBrand == input.deviceBrand
    ensures f.deviceScreenResolution == input.deviceScreenResolution
    ensures f.deviceBrowser == input.deviceBrowser
    ensures f.geoCountry == input.geoCountry && f.geoCity == input.geoCity
    ensures date.None? ==> f.visitMonth == 0 && f.dayOfWeek == 0 && f.isWeekend == 0
    ensures date.Some? ==> f.visitMonth == date.value.month && f.dayOfWeek == date.value.dayOfWeek
    ensures 0 <= f.visitMonth <= 12 && 0 <= f.dayOfWeek <= 6
    ensures f.isWeekend == 1 <==> date.Some? && (date.value.dayOfWeek == 5 || date.value.dayOfWeek == 6)
    ensures f.isWeekend == 0 || f.isWeekend == 1
    ensures (f.screenWidth, f.screenHeight) == ParseResolution(input.deviceScreenResolution)
    ensures f.isSocial == 1 <==> input.utmSource in SocialSources
    ensures f.isSocial == 0 || f.isSocial == 1
  {
    var dow := DayOfWeek(date);
    var (width, height) := ParseResolution(input.deviceScreenResolution);
    Features(
      input.sessionId, date, input.visitNumber,
      input.utmSource, input.utmMedium, input.utmCampaign, input.utmAdcontent, input.utmKeyword,
      input.deviceCategory, input.deviceBrand, input.deviceScreenResolution, input.deviceBrowser,
      input.geoCountry, input.geoCity,
      VisitMonth(date), dow, IsWeekend(dow), width, height, IsSocial(input.utmSource))
  }

  /**
   * Handles one request: parses the visit date with `parseDate`, derives the
   * features, scores them with `score` (None when the classifier raises) and
   * answers with the session identifier and the first label.
   */
  function Predict(input: SessionInput,
                   parseDate: string -> Option<CalendarDate>,
                   score: Features -> Option<seq<int>>): (r: Result<Response, PredictError>)
    ensures var labels := score(DeriveFeatures(input, parseDate(input.visitDate)));
      && (r.Success? <==> labels.Some? && |labels.value| > 0)
      && (r.Success? ==> r.value == Response(input.sessionId, labels.value[0]))
      && (labels.None? ==> r == Failure(ScoringFailed))
      && (labels.Some? && |labels.value| == 0 ==> r == Failure(NoPrediction))
  {
    var features := DeriveFeatures(input, parseDate(input.visitDate));
    match score(features)
    case None => Failure(ScoringFailed)
    case Some(labels) =>
      if |labels| == 0 then Failure(NoPrediction)
      else Success(Response(input.sessionId, labels[0]))
  }
}
