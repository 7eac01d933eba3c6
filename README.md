# hubot-pollen in Dafny

A model of the core of `hubot-pollen`, a Hubot script that answers `pollen` and
`pollen <zip>` with today's pollen forecast from Pollen.com. The model covers:

- **Severity classification** (`Severity`): `formatIndexLabel` and
  `formatIndexColor`, the two first-match chains over the inclusive bounds
  2.4, 4.8, 7.2, 9.6 and 12.0. The index is the integer number of tenths that
  `index.toFixed(1)` leaves (8.2 is 82), so the bounds are 24, 48, 72, 96 and
  120. A reference classification (`Tier`, a scan over the bounds) is the
  partner both chains are proved against.
- **Reply rendering** (`Render`): `formatForecast` over a parsed forecast.
  `ForecastReply` is the specification. `FormatForecast` is the method
  that follows the source: early returns, the `forEach`/`push` loop over
  `Triggers` (`CollectTriggers`) and the payload built with `+=`. The reply
  is a plain `Text` or a Slack `Card`. A property access on `undefined` or
  `null` that would throw a TypeError is a `Fault`.
- **Response outcome** (`Fetch`): the request URL and headers built by
  `getPollenForecast`, and its response callback. The callback maps a
  transport error, a non-200 status, a thrown exception and a rendered
  forecast to one reply each. `HandleResponse` sends that reply through a
  `Chat` object (the `msg` the framework hands in), exactly once.
- `Strings` holds `Array.prototype.join` and the decimal text of a status code.
  `RenderExamples` restates the repository's test scenarios about the model.

Behaviour that follows the code:

- A falsy `DisplayLocation` (absent, null or `""`) gives
  `<ZIP> Pollen: No forecast available.` with the ZIP as the template literal
  prints it. There is no "Unknown" fallback: a missing ZIP prints
  `undefined` and a JSON null ZIP prints `null`.
- There is no separate reply for a missing "today". A missing `periods` or
  `periods[1]` throws, and the throw is reported as an error reply. An index
  of zero is classified like any other index.
- Every value of `Triggers` pushes `${row.Name}`, so a nameless entry gives
  `undefined` and a null `Name` gives `null`. Only a null entry throws. The sentinel is used only when no
  value was pushed.
- A body that fails `JSON.parse` is reported with the SyntaxError's own text
  after `Error retrieving forecast: `. No other wording is added.
- The `User-Agent` header value begins with `User-Agent: ` itself
  (`src/pollen.js:19`). It is modelled as written.

## Model

| member | source | states |
|---|---|---|
| Severity.TierFrom | src/pollen.js:47-61 | scanning the bounds from a position gives the first bound not exceeded; every bound skipped is exceeded |
| Severity.Tier | src/pollen.js:46-63 | the band of a rounded index: below its own bound and above the previous one; six bands in all |
| Severity.TierMonotone | src/pollen.js:46-63 | a larger rounded index never falls in a lower band |
| Severity.FormatIndexLabel | src/pollen.js:46-63 | the label is the reference band's label; "Low" exactly up to 2.4 inclusive; "Death by Pollen" exactly above 12.0 |
| Severity.FormatIndexColor | src/pollen.js:27-44 | the colour is the reference band's colour; "good" exactly up to 2.4; "danger" exactly above 7.2 |
| Severity.ColorAgreesWithLabel | src/pollen.js:27-63 | "good" iff Low; "warning" iff Medium-Low or Medium; "danger" iff Medium-High, High or Death by Pollen |
| Severity.ClassifiersMonotone | src/pollen.js:27-63 | for a larger rounded index the label is never earlier in the list and the colour never milder |
| Severity.BandExamples | src/pollen.js:46-63 | 0.1 is Low/good, 2.4 Low, 2.5 Medium-Low, 7.2 Medium/warning, 8.2 Medium-High/danger, 12.0 High, 12.1 Death by Pollen |
| Strings.Join | src/pollen.js:112 | joining no parts gives ""; the length is the parts' lengths plus one separator per gap; the result starts with the first part |
| Strings.JoinSingleton | src/pollen.js:126 | a one-element list joins to its element (the sentinel alone) |
| Strings.JoinCons | src/pollen.js:126 | a join is the first part, the separator, then the join of the rest |
| Strings.NatToString | src/pollen.js:148 | the status code's text is non-empty, all digits, no leading zero |
| Strings.ParseNatToString | src/pollen.js:148 | the status code's text reads back as the code |
| Strings.NatToStringInjective | src/pollen.js:148 | different codes give different texts |
| Render.FaultMessage | src/pollen.js:154-156 | every TypeError caught by the callback prints with the `TypeError: ` prefix |
| Render.AdapterOf | src/pollen.js:85-87 | the card form is chosen exactly for the adapter named "slack" |
| Render.Interpolate | src/pollen.js:69 | in a template literal a string prints as itself, a missing field as "undefined" and JSON null as "null" |
| Render.Truthy | src/pollen.js:68 | a truthy display name is a non-empty string; every other value (missing, null, "") is falsy |
| Render.RowsOf | src/pollen.js:77 | `Triggers || {}` contributes no values when `Triggers` is missing or null, and its own values otherwise |
| Render.NoForecastLine | src/pollen.js:69 | the no-forecast reply is the printed ZIP followed by " Pollen: No forecast available." |
| Render.PlainLine | src/pollen.js:124-126 | the plain line (also the card fallback of line 91) opens with `<place> Pollen: ` and closes with the joined allergens |
| Render.SlackAttachment | src/pollen.js:88-119 | the card has three fields; its fallback opens with its title and closes with its Types value; its colour is "good" iff Level is Low and "danger" iff Level is Medium-High, High or Death by Pollen; `ts` is the forecast date |
| Render.TodayReply | src/pollen.js:73-126 | from today's period: a missing index always throws; only a null trigger or a missing index can throw; a card is sent exactly on Slack |
| Render.ForecastReply | src/pollen.js:65-130 | `formatForecast`: throws without a Location; answers the no-forecast line for a falsy display name; sends a card only on Slack for a named place |
| Render.FaultIgnoresAdapter | src/pollen.js:65-130 | when formatting throws on one adapter it throws the same TypeError on every adapter |
| Render.TriggerNames | src/pollen.js:77-80 | pushing over the trigger values yields one string per value, or fails only with the null-entry fault |
| Render.TodayTriggers | src/pollen.js:76-83 | the allergen list is never empty, and is exactly the sentinel when `Triggers` is absent, null or empty |
| Render.PrefixFailurePersists | src/pollen.js:77-80 | once a null entry has thrown, later entries do not change the outcome |
| Render.CollectTriggers | src/pollen.js:76-83 | the push loop plus the sentinel push computes the allergen list exactly |
| Render.TriggerNamesElementwise | src/pollen.js:77-80 | the list succeeds iff no value is null; then entry j is `${Name}` of value j, nameless values included |
| Render.TodayTriggersSpec | src/pollen.js:76-83 | fails iff a value is null; otherwise the sentinel alone for no values, else one name per value in key order |
| Render.FormatForecast | src/pollen.js:65-130 | the imperative `formatForecast` returns exactly the specified reply or fault |
| Render.NoForecastIgnoresPeriods | src/pollen.js:68-70 | a falsy DisplayLocation gives exactly `<ZIP> Pollen: No forecast available.` on any adapter, whatever the periods hold |
| Render.OnlyTodayConsulted | src/pollen.js:73-78 | forecasts agreeing on place, date and `periods[1]` get the same reply whatever the other periods are |
| Render.FaultConditions | src/pollen.js:65-130 | each TypeError (no Location, no periods, no `periods[1]`, a null trigger, a missing Index) happens exactly under its condition |
| Render.CardMatchesPlainText | src/pollen.js:88-126 | Slack and plain adapters fail alike; the card's fallback equals the plain line `<place> Pollen: <index> (<label>) - <allergens>`; title, link, Level, Count, Types, colour and timestamp as stated |
| RenderExamples.NashvilleTriggers | test/pollen-test.js:44 | the Nashville fixture's allergens are Alder, Juniper, Maple in that order, joined as "Alder, Juniper, Maple" |
| RenderExamples.NashvilleTextExample | test/pollen-test.js:30-53 | the Nashville fixture on a plain adapter gives "Nashville, TN Pollen: 8.2 (Medium-High) - Alder, Juniper, Maple" |
| RenderExamples.NashvilleCardExample | test/pollen-slack-test.js:42-100 | the Nashville fixture on Slack gives the expected attachment, colour "danger" |
| RenderExamples.NoTriggersExample | test/pollen-test.js:55-78 | an empty `Triggers` at index 0.1 gives "Nashville, TN Pollen: 0.1 (Low) - The pollen season in the area has completed." |
| RenderExamples.NoResultsExample | test/pollen-slack-test.js:161-184 | a location without a display name gives "99501 Pollen: No forecast available." on either adapter |
| RenderExamples.NullFieldsExample | src/pollen.js:69-80 | a null ZIP with a null display name gives "null Pollen: No forecast available."; a null `Name` is pushed as "null" |
| Fetch.BuildRequest | src/pollen.js:134-140 | the API URL and the Referer are their bases followed by `/<zip>`; the User-Agent is the fixed string |
| Fetch.TitleLinkIsReferer | src/pollen.js:93 | the card's title link for the requested ZIP is the page sent as Referer |
| Fetch.OutcomeOf | src/pollen.js:141-157 | transport error iff `err`, carrying `err`; bad status iff not 200, carrying the status code; thrown iff the parse or the formatting throws, carrying the SyntaxError's text or the TypeError's message; rendered replies are the formatted forecast |
| Fetch.ReplyOf | src/pollen.js:143-155 | a rendered forecast is sent as it is; every other outcome is a text that starts with "Error retrieving forecast: " |
| Fetch.ErrorText | src/pollen.js:22-25 | an error message is the prefix followed by the error's own text, and splits back into the two |
| Fetch.ErrorRepliesArePrefixed | src/pollen.js:22-25 | every non-rendered outcome is a text that starts with "Error retrieving forecast: " and carries the error text |
| Fetch.StatusReply | src/pollen.js:147-149 | a non-200 status gives exactly "Error retrieving forecast: Server responded with HTTP <code>", and the code reads back from the reply |
| Fetch.ServerErrorExample | test/pollen-test.js:130-153 | HTTP 500 gives "Error retrieving forecast: Server responded with HTTP 500" |
| Fetch.ErrorsIgnoreAdapter | src/pollen.js:141-157 | error replies are the same on every adapter |
| Fetch.Chat.Send | src/pollen.js:153 | sending appends the reply to what the message has sent |
| Fetch.HandleError | src/pollen.js:22-25 | sends exactly one text: the prefix and the error |
| Fetch.HandleResponse | src/pollen.js:141-157 | sends exactly one reply per response, the one its outcome calls for |

## Left out

- The HTTP transport, its 200 ms timeout and the sending of headers go
  through a library outside this model. `Response` stands for what the
  transport delivered. Only the URL and header strings are modelled.
- `JSON.parse` is not modelled. `Body` is either the parsed forecast or the
  SyntaxError's text. A parse result that is not an object (`null`, a number,
  an array), a null period, and fields of unexpected JSON types are not
  modelled. Examples are a numeric `ZIP` or `Name`, or a truthy
  non-object `Triggers`.
- `moment(forecast.ForecastDate).unix()` is a foreign date library. The
  forecast carries its epoch seconds as `unixTime`.
- `toFixed(1)` rounding and JavaScript's number-to-string conversion are
  floating point. `Reading` takes both the rounded tenths and the printed
  text as inputs.
- Render.CardMatchesPlainText: the card's Count field holds the index's
  printed text, while the source passes the number itself. The Slack test
  compares it as the string "8.2".
- Render.FaultMessage: the TypeError texts are the V8 engine's. A null
  `Location`, `periods` or `periods[1]`, or an `Index` that is present but
  not a number, throws with slightly different wording that is not modelled.
- Fetch.HandleResponse: an exception thrown by `msg.send` itself inside the
  `try` would produce a second, error reply. That is framework behaviour and
  is not modelled.
- `Object.keys` order (integer-like keys first, then insertion order) is
  not computed. The trigger values are given already in key order.
- `robot.respond` command routing, the `process.env.HUBOT_POLLEN_ZIP || 37203`
  default ZIP, and the `robot.logger` calls are framework plumbing and are
  left out.
