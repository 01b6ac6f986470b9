/**
 * Worked inputs for the feature deriver and the `/predict` handler. Each
 * string is passed in as a parameter equal to its literal, so that the
 * verifier reasons about it through the general lemmas instead of unfolding
 * the parser on it.
 */
module Scenarios {
  import opened Wrappers
  import opened PyText
  import opened Prediction

  /** "1920x1080" gives width 1920 and height 1080. */
  lemma Resolution1920x1080(res: string)
    requires res == "1920x1080"
    ensures ParseResolution(res) == (1920, 1080)
  {
    assert ToDecimal(1920) == "1920";
    assert ToDecimal(1080) == "1080";
    assert res == ToDecimal(1920) + "x" + ToDecimal(1080);
    ResolutionRoundTrip(1920, 1080);
  }

  /** "1280xAB" keeps the width and drops the non-numeric height to 0. */
  lemma Resolution1280xAB(res: string)
    requires res == "1280xAB"
    ensures ParseResolution(res) == (1280, 0)
  {
    var w := ToDecimal(1280);
    assert w == "1280";
    DecimalOfToDecimal(1280);
    assert res == w + "x" + "AB" + "";
    DigitsExclude(w, 'x');
    ResolutionFields(w, "AB", "");
  }

  /** "x1080" has an empty width piece, which is not all digits, so the width is 0. */
  lemma ResolutionX1080(res: string)
    requires res == "x1080"
    ensures ParseResolution(res) == (0, 1080)
  {
    var h := ToDecimal(1080);
    assert h == "1080";
    DecimalOfToDecimal(1080);
    assert res == "" + "x" + h + "";
    DigitsExclude(h, 'x');
    ResolutionFields("", h, "");
  }

  /** "1x2x3" reads only the first two pieces. */
  lemma Resolution1x2x3(res: string)
    requires res == "1x2x3"
    ensures ParseResolution(res) == (1, 2)
  {
    assert res == "1" + "x" + "2" + "x3";
    ResolutionFields("1", "2", "x3");
  }

  /** "unknown" has no 'x', so both dimensions are 0. */
  lemma ResolutionUnknown(res: string)
    requires res == "unknown"
    ensures ParseResolution(res) == (0, 0)
  {
    assert forall i :: 0 <= i < |res| ==> res[i] != 'x';
  }

  const Saturday: SessionInput := SessionInput(
    "s1", "2023-05-13", 1, "QxAxdyPLuQMEcrdZWdWb", "cpc", "x", None, None,
    "mobile", "Apple", "375x667", "Safari", "Russia", "Moscow")

  /**
   * A session dated Saturday 13 May 2023 from a listed social source on a
   * 375x667 screen: its derived columns, and a response that echoes "s1"
   * with the classifier's first label.
   */
  lemma SaturdaySession(parseDate: string -> Option<CalendarDate>, score: Features -> Option<seq<int>>)
    requires parseDate("2023-05-13") == Some(ParsedDate(5, 5))
    ensures var f := DeriveFeatures(Saturday, parseDate(Saturday.visitDate));
      && f.visitMonth == 5 && f.dayOfWeek == 5 && f.isWeekend == 1
      && f.screenWidth == 375 && f.screenHeight == 667 && f.isSocial == 1
      && var labels := score(f);
         labels.Some? && |labels.value| > 0 ==>
           Predict(Saturday, parseDate, score) == Success(Response("s1", labels.value[0]))
  {
    var res := Saturday.deviceScreenResolution;
    assert ToDecimal(375) == "375";
    assert ToDecimal(667) == "667";
    assert res == ToDecimal(375) + "x" + ToDecimal(667);
    ResolutionRoundTrip(375, 667);
  }
}
