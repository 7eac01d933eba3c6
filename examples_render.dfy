/**
 * The bot's test scenarios, stated about the rendering model. Each expected
 * text is written as the literal pieces the source concatenates, so that
 * the verifier compares piece with piece.
 */
module RenderExamples {
  import opened Wrappers
  import opened Strings
  import opened Severity
  import opened Render

  /** A forecast for a place whose second period is `today` (the test fixtures' shape). */
  function SampleForecast(display: StringField, zip: string, today: Period): Forecast
  {
    Forecast(1520827200, Some(Location(Str(zip), display, Some([Period(None, None), today]))))
  }

  /** Today's period of the Nashville fixture. */
  function NashvilleToday(): Period
  {
    Period(Some(Reading("8.2", 82)), Some([Row(Str("Alder")), Row(Str("Juniper")), Row(Str("Maple"))]))
  }

  /** The fixture's three allergens, in key order, and their joined form. */
  lemma NashvilleTriggers()
    ensures TodayTriggers(NashvilleToday().triggers) == Success(["Alder", "Juniper", "Maple"])
    ensures Join(["Alder", "Juniper", "Maple"], Comma) == "Alder" + ", " + "Juniper" + ", " + "Maple"
  {
    var t := NashvilleToday().triggers;
    TodayTriggersSpec(t);
    assert !HasNullRow(RowsOf(t));
    var v := TodayTriggers(t).value;
    assert |v| == 3 && v[0] == "Alder" && v[1] == "Juniper" && v[2] == "Maple";
    assert v == ["Alder", "Juniper", "Maple"];

    var names := ["Alder", "Juniper", "Maple"];
    assert names[..2] == ["Alder", "Juniper"];
    assert ["Alder", "Juniper"][..1] == ["Alder"];
  }

  /** The Nashville fixture on a plain-text adapter: 8.2 is Medium-High. */
  lemma NashvilleTextExample()
    ensures ForecastReply(SampleForecast(Str("Nashville, TN"), "37206", NashvilleToday()), OtherAdapter)
      == Success(Text("Nashville, TN" + " Pollen: " + "8.2" + " (" + "Medium-High" + ") - "
                      + ("Alder" + ", " + "Juniper" + ", " + "Maple")))
  {
    NashvilleTriggers();
  }

  /** The Nashville fixture on Slack: the attachment the Slack test expects. */
  lemma NashvilleCardExample()
    ensures ForecastReply(SampleForecast(Str("Nashville, TN"), "37206", NashvilleToday()), Slack)
      == Success(Card(Attachment(
           "Nashville, TN" + " Pollen: " + "8.2" + " (" + "Medium-High" + ") - "
             + ("Alder" + ", " + "Juniper" + ", " + "Maple"),
           "Nashville, TN" + " Pollen",
           "https://www.pollen.com/forecast/current/pollen/" + "37206",
           "Pollen.com", "https://www.pollen.com/",
           "https://www.pollen.com/Content/favicon/apple-touch-icon-72x72.png",
           "Pollen.com", "danger",
           [Field("Level", "Medium-High", true), Field("Count", "8.2", true),
            Field("Types", "Alder" + ", " + "Juniper" + ", " + "Maple", false)],
           1520827200)))
  {
    NashvilleTriggers();
  }

  /** The fixture without triggers: the sentinel stands in for the allergens, and 0.1 is Low. */
  lemma NoTriggersExample()
    ensures ForecastReply(SampleForecast(Str("Nashville, TN"), "37206", Period(Some(Reading("0.1", 1)), Some([]))),
                          OtherAdapter)
      == Success(Text("Nashville, TN" + " Pollen: " + "0.1" + " (" + "Low" + ") - "
                      + "The pollen season in the area has completed."))
  {
  }

  /** A ZIP without a forecast gets the same line on either adapter. */
  lemma NoResultsExample(adapter: Adapter)
    ensures ForecastReply(Forecast(0, Some(Location(Str("99501"), Absent, None))), adapter)
      == Success(Text("99501" + " Pollen: No forecast available."))
  {
  }

  /**
   * JSON null prints as "null" in a template literal: a null ZIP with a null
   * display name, and a trigger whose `Name` is null.
   */
  lemma NullFieldsExample(adapter: Adapter)
    ensures ForecastReply(Forecast(0, Some(Location(Null, Null, None))), adapter)
      == Success(Text("null" + " Pollen: No forecast available."))
    ensures TodayTriggers(Some([Row(Null), Row(Str("Oak"))])) == Success(["null", "Oak"])
  {
    var t := Some([Row(Null), Row(Str("Oak"))]);
    TodayTriggersSpec(t);
    assert !HasNullRow(RowsOf(t));
    var v := TodayTriggers(t).value;
    assert |v| == 2 && v[0] == "null" && v[1] == "Oak";
    assert v == ["null", "Oak"];
  }
}
