/**
 * Rendering a parsed Pollen.com forecast as the bot's reply (`formatForecast`).
 *
 * The parsed JSON is a datatype. A string field that a template literal
 * prints is a `StringField`, which keeps JSON null apart from a missing
 * key; other optional fields are `Option`s. A property access that JavaScript would make on `undefined` or `null`
 * throws a TypeError; here it is a `Fault`, and the caller turns it into
 * an error reply. `ForecastReply` is the specification; the method
 * `FormatForecast` follows the source step by step (the `forEach`/`push`
 * loop, the `+=` on the payload) and is proved to compute it.
 */
module Render {
  import opened Wrappers
  import opened Strings
  import opened Severity

  /**
   * The day's pollen index as the bot uses it: `text` is what `${index}`
   * prints (8.2 prints "8.2") and `tenths` is `index.toFixed(1)` as a
   * number of tenths (82).
   */
  datatype Reading = Reading(text: string, tenths: int)

  /**
   * A JSON field that the bot prints or tests for truthiness: a missing
   * key (`undefined`), JSON null, or a string.
   */
  datatype StringField = Absent | Null | Str(value: string)

  /** One value of a period's `Triggers` object: a record with a `Name` field, or JSON null. */
  datatype TriggerRow = Row(name: StringField) | NullRow

  /**
   * One day of the forecast. `index` is None when `Index` is absent, null or
   * not a number; `triggers` is None when `Triggers` is absent or null, and
   * otherwise lists its values in `Object.keys` order.
   */
  datatype Period = Period(index: Option<Reading>, triggers: Option<seq<TriggerRow>>)

  /** The forecast's `Location` object. */
  datatype Location = Location(
    zip: StringField,
    displayLocation: StringField,
    periods: Option<seq<Period>>)

  /**
   * The parsed response. `unixTime` is `ForecastDate` in epoch seconds, as
   * the date library computes it.
   */
  datatype Forecast = Forecast(unixTime: int, location: Option<Location>)

  /** The chat adapter, decided by `robot.adapterName`. */
  datatype Adapter = Slack | OtherAdapter

  /** One entry of the attachment's `fields` array. */
  datatype Field = Field(title: string, value: string, short: bool)

  /** The single Slack attachment the card reply carries. */
  datatype Attachment = Attachment(
    fallback: string,
    title: string,
    titleLink: string,
    authorName: string,
    authorLink: string,
    authorIcon: string,
    footer: string,
    color: string,
    fields: seq<Field>,
    ts: int)

  /** What the bot sends: a plain string, or `{ attachments: [attachment] }`. */
  datatype Reply = Text(text: string) | Card(attachment: Attachment)

  /** The TypeErrors `formatForecast` can throw on a parsed response. */
  datatype Fault =
    | NoLocation      // `forecast.Location` is undefined
    | NoPeriods       // `forecast.Location.periods` is undefined
    | NoToday         // `periods[1]` is undefined
    | NullTrigger     // a value of `Triggers` is null
    | IndexNotNumber  // `Index` is undefined, so `index.toFixed` throws

  /** The string `${e}` gives for each fault, in the V8 engine's wording. */
  function FaultMessage(fault: Fault): (msg: string)
    ensures |msg| > 11 && msg[..11] == "TypeError: "
  {
    "TypeError: " +
    match fault
    case NoLocation => "Cannot read properties of undefined (reading 'DisplayLocation')"
    case NoPeriods => "Cannot read properties of undefined (reading '1')"
    case NoToday => "Cannot read properties of undefined (reading 'Index')"
    case NullTrigger => "Cannot read properties of null (reading 'Name')"
    case IndexNotNumber => "Cannot read properties of undefined (reading 'toFixed')"
  }

  /** Replaces an empty allergen list. */
  const Sentinel: string := "The pollen season in the area has completed."

  /** Separator of `triggers.join(', ')`. */
  const Comma: string := ", "

  /** Base of the card's `title_link`, written out in full in the source. */
  const TitleLinkBase: string := "https://www.pollen.com/forecast/current/pollen/"

  const Attribution: string := "Pollen.com"
  const AuthorLink: string := "https://www.pollen.com/"
  const AuthorIcon: string := "https://www.pollen.com/Content/favicon/apple-touch-icon-72x72.png"

  /** `adapterName === 'slack'` selects the card form; every other name the plain line. */
  function AdapterOf(adapterName: string): (adapter: Adapter)
    ensures adapter == Slack <==> adapterName == "slack"
  {
    if adapterName == "slack" then Slack else OtherAdapter
  }

  /**
   * A field inside a template literal: a string prints as itself, a
   * missing key as "undefined" and JSON null as "null".
   */
  function Interpolate(v: StringField): (s: string)
    ensures v.Str? ==> s == v.value
    ensures v.Absent? ==> s == "undefined"
    ensures v.Null? ==> s == "null"
  {
    match v
    case Absent => "undefined"
    case Null => "null"
    case Str(x) => x
  }

  /**
   * JavaScript truthiness of `DisplayLocation`: a non-empty string. A
   * truthy field prints as its own non-empty text.
   */
  predicate Truthy(v: StringField)
    ensures Truthy(v) ==> v.Str? && Interpolate(v) == v.value && |Interpolate(v)| > 0
    ensures !Truthy(v) ==> v.Absent? || v.Null? || v == Str("")
  {
    v.Str? && v.value != ""
  }

  /** The values of `Triggers || {}`: no rows when it is absent or null. */
  function RowsOf(triggers: Option<seq<TriggerRow>>): (rows: seq<TriggerRow>)
    ensures triggers.None? ==> rows == []
    ensures triggers.Some? ==> rows == triggers.value
  {
    match triggers
    case None => []
    case Some(rows) => rows
  }

  /**
   * The strings pushed for a run of trigger rows, `${row.Name}` for each
   * (a row without `Name` gives "undefined", a null `Name` "null"), or the fault of the first
   * null row.
   */
  function TriggerNames(rows: seq<TriggerRow>): (r: Result<seq<string>, Fault>)
    ensures r.Success? ==> |r.value| == |rows|
    ensures r.Failure? ==> r.error == NullTrigger
  {
    if rows == [] then Success([])
    else
      match TriggerNames(rows[..|rows| - 1])
      case Failure(e) => Failure(e)
      case Success(names) =>
        match rows[|rows| - 1]
        case NullRow => Failure(NullTrigger)
        case Row(name) => Success(names + [Interpolate(name)])
  }

  /**
   * The allergen list of a period: one name per trigger row, or exactly
   * the sentinel when there are none, so it is never empty.
   */
  function TodayTriggers(triggers: Option<seq<TriggerRow>>): (r: Result<seq<string>, Fault>)
    ensures r.Success? ==> |r.value| > 0
    ensures RowsOf(triggers) == [] ==> r == Success([Sentinel])
  {
    match TriggerNames(RowsOf(triggers))
    case Failure(e) => Failure(e)
    case Success(names) => Success(if |names| == 0 then [Sentinel] else names)
  }

  /**
   * The plain-text form of a forecast, also the card's `fallback`: it opens
   * with the place and " Pollen: " and closes with the joined allergens.
   */
  function PlainLine(display: string, reading: Reading, triggers: seq<string>): (line: string)
    ensures |display| + 9 <= |line| && line[..|display| + 9] == display + " Pollen: "
    ensures |Join(triggers, Comma)| <= |line|
    ensures line[|line| - |Join(triggers, Comma)|..] == Join(triggers, Comma)
  {
    var head := display + " Pollen: ";
    var mid := reading.text + " (" + FormatIndexLabel(reading.tenths) + ") - ";
    var tail := Join(triggers, Comma);
    var line := display + " Pollen: " + reading.text + " (" + FormatIndexLabel(reading.tenths) + ") - "
      + Join(triggers, Comma);
    assert line == head + mid + tail;
    assert line[..|head|] == head;
    assert line[|line| - |tail|..] == tail;
    line
  }

  /** The suffix of the reply when `DisplayLocation` is falsy. */
  const NoForecast: string := " Pollen: No forecast available."

  /**
   * The reply when `DisplayLocation` is falsy: the ZIP as the template
   * literal prints it, then the fixed notice.
   */
  function NoForecastLine(zip: StringField): (line: string)
    ensures |line| == |Interpolate(zip)| + |NoForecast|
    ensures line[..|Interpolate(zip)|] == Interpolate(zip)
    ensures line[|Interpolate(zip)|..] == NoForecast
  {
    Interpolate(zip) + NoForecast
  }

  /**
   * The Slack attachment for today's forecast. Its fallback opens with its
   * title and closes with its Types field, and its colour goes with its
   * Level field.
   */
  function SlackAttachment(display: string, zip: StringField, reading: Reading,
                           triggers: seq<string>, unixTime: int): (card: Attachment)
    ensures |card.fields| == 3
    ensures |card.title| <= |card.fallback| && card.fallback[..|card.title|] == card.title
    ensures |card.fields[2].value| <= |card.fallback|
    ensures card.fallback[|card.fallback| - |card.fields[2].value|..] == card.fields[2].value
    ensures card.color == "good" <==> card.fields[0].value == "Low"
    ensures card.color == "danger" <==> card.fields[0].value in {"Medium-High", "High", "Death by Pollen"}
    ensures card.ts == unixTime
  {
    ColorAgreesWithLabel(reading.tenths);
    var line := PlainLine(display, reading, triggers);
    assert line[..|display| + 7] == (display + " Pollen: ")[..|display| + 7];
    assert (display + " Pollen: ")[..|display| + 7] == display + " Pollen";

    Attachment(
      fallback := PlainLine(display, reading, triggers),
      title := display + " Pollen",
      titleLink := TitleLinkBase + Interpolate(zip),
      authorName := Attribution,
      authorLink := AuthorLink,
      authorIcon := AuthorIcon,
      footer := Attribution,
      color := FormatIndexColor(reading.tenths),
      fields := [
        Field("Level", FormatIndexLabel(reading.tenths), true),
        Field("Count", reading.text, true),
        Field("Types", Join(triggers, Comma), false)],
      ts := unixTime)
  }

  /**
   * The reply for a location with a display name, from today's period only:
   * a card exactly on Slack, and a fault only for a null trigger or a
   * missing index.
   */
  function TodayReply(display: string, zip: StringField, today: Period,
                      unixTime: int, adapter: Adapter): (r: Result<Reply, Fault>)
    ensures today.index.None? ==> r.Failure?
    ensures r.Failure? ==> r.error == NullTrigger || r.error == IndexNotNumber
    ensures r.Success? ==> (r.value.Card? <==> adapter == Slack)
  {
    match TodayTriggers(today.triggers)
    case Failure(e) => Failure(e)
    case Success(triggers) =>
      match today.index
      case None => Failure(IndexNotNumber)
      case Some(reading) =>
        match adapter
        case Slack => Success(Card(SlackAttachment(display, zip, reading, triggers, unixTime)))
        case OtherAdapter => Success(Text(PlainLine(display, reading, triggers)))
  }

  /**
   * Specification of `formatForecast`: the reply, or the TypeError it throws.
   * Without a `Location` it throws; with a falsy display name it answers the
   * no-forecast line; a card is only ever sent on Slack for a named place.
   */
  function ForecastReply(forecast: Forecast, adapter: Adapter): (r: Result<Reply, Fault>)
    ensures forecast.location.None? ==> r == Failure(NoLocation)
    ensures forecast.location.Some? && !Truthy(forecast.location.value.displayLocation) ==>
      r == Success(Text(NoForecastLine(forecast.location.value.zip)))
    ensures r.Success? && r.value.Card? ==>
      adapter == Slack && forecast.location.Some? && Truthy(forecast.location.value.displayLocation)
  {
    match forecast.location
    case None => Failure(NoLocation)
    case Some(loc) =>
      if !Truthy(loc.displayLocation) then Success(Text(NoForecastLine(loc.zip)))
      else
        match loc.periods
        case None => Failure(NoPeriods)
        case Some(periods) =>
          if |periods| < 2 then Failure(NoToday)
          else TodayReply(loc.displayLocation.value, loc.zip, periods[1], forecast.unixTime, adapter)
  }

  /** A null row anywhere in the first `k` rows fails the whole list. */
  lemma {:induction false} PrefixFailurePersists(rows: seq<TriggerRow>, k: nat)
    requires k <= |rows|
    requires TriggerNames(rows[..k]).Failure?
    ensures TriggerNames(rows) == TriggerNames(rows[..k])
    decreases |rows| - k
  {
    if k < |rows| {
      var next := rows[..k + 1];
      assert next[..|next| - 1] == rows[..k];
      PrefixFailurePersists(rows, k + 1);
    } else {
      assert rows[..k] == rows;
    }
  }

  /**
   * Lines 76-83: build `triggers` by pushing `${row.Name}` for every value of
   * `Triggers || {}` in key order, then push the sentinel if none was pushed.
   */
  method CollectTriggers(triggers: Option<seq<TriggerRow>>) returns (r: Result<seq<string>, Fault>)
    ensures r == TodayTriggers(triggers)
  {
    var rows := if triggers.Some? then triggers.value else [];
    assert rows == RowsOf(triggers);
    var names: seq<string> := [];
    var i := 0;
    while i < |rows|
      invariant 0 <= i <= |rows|
      invariant TriggerNames(rows[..i]) == Success(names)
    {
      var prefix := rows[..i + 1];
      assert prefix[..|prefix| - 1] == rows[..i];
      match rows[i]
      case NullRow =>
        PrefixFailurePersists(rows, i + 1);
        return Failure(NullTrigger);
      case Row(name) =>
        names := names + [Interpolate(name)];
      i := i + 1;
    }
    assert rows[..|rows|] == rows;
    if |names| == 0 {
      names := names + [Sentinel];
      assert names == [Sentinel];
    }
    r := Success(names);
  }

  /** `formatForecast`, with its early returns and the payload built by `+=`. */
  method FormatForecast(forecast: Forecast, adapter: Adapter) returns (r: Result<Reply, Fault>)
    ensures r == ForecastReply(forecast, adapter)
  {
    if forecast.location.None? {
      return Failure(NoLocation);
    }
    var loc := forecast.location.value;
    if !Truthy(loc.displayLocation) {
      return Success(Text(Interpolate(loc.zip) + NoForecast));
    }
    var display := loc.displayLocation.value;
    if loc.periods.None? {
      return Failure(NoPeriods);
    }
    if |loc.periods.value| < 2 {
      return Failure(NoToday);
    }
    var today := loc.periods.value[1];
    var index := today.index;
    var collected := CollectTriggers(today.triggers);
    if collected.Failure? {
      return Failure(collected.error);
    }
    var triggers := collected.value;
    match adapter
    case Slack =>
      if index.None? {
        return Failure(IndexNotNumber);
      }
      var reading := index.value;
      r := Success(Card(SlackAttachment(display, loc.zip, reading, triggers, forecast.unixTime)));
    case OtherAdapter =>
      var payload := display + " Pollen: ";
      if index.None? {
        return Failure(IndexNotNumber);
      }
      var reading := index.value;
      payload := payload + reading.text + " (" + FormatIndexLabel(reading.tenths) + ") - ";
      payload := payload + Join(triggers, Comma);
      r := Success(Text(payload));
  }

  /**
   * `${row.Name}` is pushed for every row, nameless ones included, in order:
   * the list succeeds exactly when no row is null, and then has one entry
   * per row.
   */
  lemma {:induction false} TriggerNamesElementwise(rows: seq<TriggerRow>)
    ensures TriggerNames(rows).Success? <==> forall j :: 0 <= j < |rows| ==> rows[j].Row?
    ensures TriggerNames(rows).Success? ==>
      forall j :: 0 <= j < |rows| ==> TriggerNames(rows).value[j] == Interpolate(rows[j].name)
  {
    if rows != [] {
      var init := rows[..|rows| - 1];
      TriggerNamesElementwise(init);
      assert forall j :: 0 <= j < |init| ==> init[j] == rows[j];
    }
  }

  /** Some value of `Triggers` is null. */
  predicate HasNullRow(rows: seq<TriggerRow>)
  {
    exists j :: 0 <= j < |rows| && rows[j].NullRow?
  }

  /**
   * The allergen list in full: it fails exactly when a trigger value is
   * null; otherwise it is the sentinel alone when there are no rows, and
   * one `${row.Name}` per row, in key order, when there are.
   */
  lemma TodayTriggersSpec(triggers: Option<seq<TriggerRow>>)
    ensures TodayTriggers(triggers).Failure? <==> HasNullRow(RowsOf(triggers))
    ensures TodayTriggers(triggers).Failure? ==> TodayTriggers(triggers).error == NullTrigger
    ensures TodayTriggers(triggers).Success? && RowsOf(triggers) == [] ==>
      TodayTriggers(triggers).value == [Sentinel]
    ensures TodayTriggers(triggers).Success? && RowsOf(triggers) != [] ==>
      |TodayTriggers(triggers).value| == |RowsOf(triggers)|
      && forall j :: 0 <= j < |RowsOf(triggers)| ==>
        TodayTriggers(triggers).value[j] == Interpolate(RowsOf(triggers)[j].name)
  {
    TriggerNamesElementwise(RowsOf(triggers));
  }

  /**
   * A falsy `DisplayLocation` always gives the "No forecast available."
   * line for the forecast's ZIP, whatever the adapter, and no period is
   * looked at: replacing the periods changes nothing.
   */
  lemma NoForecastIgnoresPeriods(forecast: Forecast, adapter: Adapter, other: Adapter,
                                 periods: Option<seq<Period>>)
    requires forecast.location.Some? && !Truthy(forecast.location.value.displayLocation)
    ensures ForecastReply(forecast, adapter)
      == Success(Text(Interpolate(forecast.location.value.zip) + " Pollen: No forecast available."))
    ensures ForecastReply(forecast.(location := Some(forecast.location.value.(periods := periods))), other)
      == ForecastReply(forecast, adapter)
  {
  }

  /**
   * Only `periods[1]` is read: two forecasts for the same place and date
   * whose second periods agree get the same reply, whatever the other
   * periods hold.
   */
  lemma OnlyTodayConsulted(f: Forecast, g: Forecast, adapter: Adapter)
    requires f.unixTime == g.unixTime
    requires f.location.Some? && g.location.Some?
    requires f.location.value.zip == g.location.value.zip
    requires f.location.value.displayLocation == g.location.value.displayLocation
    requires f.location.value.periods.Some? && g.location.value.periods.Some?
    requires |f.location.value.periods.value| >= 2 && |g.location.value.periods.value| >= 2
    requires f.location.value.periods.value[1] == g.location.value.periods.value[1]
    ensures ForecastReply(f, adapter) == ForecastReply(g, adapter)
  {
  }

  /** A fault does not depend on the adapter: either both adapters fail alike or neither does. */
  lemma FaultIgnoresAdapter(forecast: Forecast, a: Adapter, b: Adapter)
    ensures ForecastReply(forecast, a).Failure? ==> ForecastReply(forecast, b) == ForecastReply(forecast, a)
  {
    if forecast.location.Some? && forecast.location.value.periods.Some?
      && |forecast.location.value.periods.value| >= 2
    {
      TodayTriggersSpec(forecast.location.value.periods.value[1].triggers);
    }
  }

  /**
   * Which TypeError, if any, `formatForecast` throws: each fault happens
   * exactly under its condition, checked in the order the source reads
   * the fields.
   */
  lemma FaultConditions(forecast: Forecast, adapter: Adapter)
    ensures ForecastReply(forecast, adapter) == Failure(NoLocation) <==> forecast.location.None?
    ensures ForecastReply(forecast, adapter) == Failure(NoPeriods) <==>
      forecast.location.Some? && Truthy(forecast.location.value.displayLocation)
      && forecast.location.value.periods.None?
    ensures ForecastReply(forecast, adapter) == Failure(NoToday) <==>
      forecast.location.Some? && Truthy(forecast.location.value.displayLocation)
      && forecast.location.value.periods.Some? && |forecast.location.value.periods.value| < 2
    ensures ForecastReply(forecast, adapter) == Failure(NullTrigger) <==>
      forecast.location.Some? && Truthy(forecast.location.value.displayLocation)
      && forecast.location.value.periods.Some? && |forecast.location.value.periods.value| >= 2
      && HasNullRow(RowsOf(forecast.location.value.periods.value[1].triggers))
    ensures ForecastReply(forecast, adapter) == Failure(IndexNotNumber) <==>
      forecast.location.Some? && Truthy(forecast.location.value.displayLocation)
      && forecast.location.value.periods.Some? && |forecast.location.value.periods.value| >= 2
      && !HasNullRow(RowsOf(forecast.location.value.periods.value[1].triggers))
      && forecast.location.value.periods.value[1].index.None?
  {
    if forecast.location.Some? && forecast.location.value.periods.Some?
      && |forecast.location.value.periods.value| >= 2
    {
      TodayTriggersSpec(forecast.location.value.periods.value[1].triggers);
    }
  }

  /**
   * The Slack card and the plain line agree: both fail with the same fault
   * or both succeed; a card's `fallback` is exactly the plain line, its
   * title and link name the place, its Level is the label, its Count the
   * index's text, its Types the joined allergens, and its colour the one
   * that belongs to the label. A card is sent exactly when there is a
   * display name.
   */
  lemma CardMatchesPlainText(forecast: Forecast)
    ensures ForecastReply(forecast, Slack).Failure? <==> ForecastReply(forecast, OtherAdapter).Failure?
    ensures ForecastReply(forecast, Slack).Failure? ==>
      ForecastReply(forecast, Slack).error == ForecastReply(forecast, OtherAdapter).error
    ensures ForecastReply(forecast, OtherAdapter).Success? ==> ForecastReply(forecast, OtherAdapter).value.Text?
    ensures ForecastReply(forecast, Slack).Success? ==>
      (ForecastReply(forecast, Slack).value.Card? <==> Truthy(forecast.location.value.displayLocation))
    ensures ForecastReply(forecast, Slack).Success? && ForecastReply(forecast, Slack).value.Card? ==>
      var loc := forecast.location.value;
      var today := loc.periods.value[1];
      var level := FormatIndexLabel(today.index.value.tenths);
      var card := ForecastReply(forecast, Slack).value.attachment;
      && card.fallback == ForecastReply(forecast, OtherAdapter).value.text
      && card.fallback == loc.displayLocation.value + " Pollen: " + today.index.value.text
           + " (" + level + ") - " + Join(TodayTriggers(today.triggers).value, ", ")
      && card.title == loc.displayLocation.value + " Pollen"
      && card.titleLink == TitleLinkBase + Interpolate(loc.zip)
      && card.color == FormatIndexColor(today.index.value.tenths)
      && (card.color == "good" <==> level == "Low")
      && (card.color == "danger" <==> level in {"Medium-High", "High", "Death by Pollen"})
      && |card.fields| == 3
      && card.fields[0] == Field("Level", level, true)
      && card.fields[1] == Field("Count", today.index.value.text, true)
      && card.fields[2] == Field("Types", Join(TodayTriggers(today.triggers).value, ", "), false)
      && card.ts == forecast.unixTime
  {
  }
}
