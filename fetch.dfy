/**
 * `getPollenForecast`: the request it builds for a ZIP code and the one
 * reply its response callback sends.
 *
 * The HTTP transport, its 200 ms timeout, JSON parsing and logging are
 * outside the model: a `Response` says what the transport and `JSON.parse`
 * produced, and the callback is a method that sends on a `Chat`, the
 * message object the framework hands in.
 */
module Fetch {
  import opened Wrappers
  import opened Strings
  import opened Render

  const ApiUrl: string := "https://www.pollen.com/api/forecast/current/pollen"
  const WebUrl: string := "https://www.pollen.com/forecast/current/pollen"

  /**
   * The `User-Agent` value. It begins with the header's own name, so the
   * header sent reads "User-Agent: User-Agent: Mozilla/5.0 ...".
   */
  const UserAgentString: string :=
    "User-Agent: Mozilla/5.0 (Macintosh; Intel Mac OS X 10.15; rv:75.0) Gecko/20100101 Firefox/75.0"

  /** Prefix of every error reply sent by `handleError`. */
  const ErrorPrefix: string := "Error retrieving forecast: "

  /** Text of the error for a status other than 200. */
  const StatusPrefix: string := "Server responded with HTTP "

  /** The GET request: its URL and its two headers. */
  datatype Request = Request(url: string, userAgent: string, referer: string)

  /**
   * The request for a ZIP code: the API URL and the `Referer` page both end
   * in `/<zip>`, so the ZIP can be read back from either.
   */
  function BuildRequest(zip: string): (req: Request)
    ensures |req.url| == |ApiUrl| + 1 + |zip| && req.url[..|ApiUrl| + 1] == ApiUrl + "/"
    ensures req.url[|ApiUrl| + 1..] == zip
    ensures |req.referer| == |WebUrl| + 1 + |zip| && req.referer[..|WebUrl| + 1] == WebUrl + "/"
    ensures req.referer[|WebUrl| + 1..] == zip
    ensures req.userAgent == UserAgentString
  {
    Request(ApiUrl + "/" + zip, UserAgentString, WebUrl + "/" + zip)
  }

  /**
   * The card's `title_link` is the very page sent as `Referer` when the
   * forecast carries the ZIP that was requested.
   */
  lemma TitleLinkIsReferer(zip: string)
    ensures TitleLinkBase + Interpolate(Str(zip)) == BuildRequest(zip).referer
  {
  }

  /** What `JSON.parse(body)` gave: a parsed forecast or the SyntaxError's text. */
  datatype Body = Unparsable(syntaxError: string) | Parsed(forecast: Forecast)

  /** What the transport hands the callback: `err`, or a response with its status and body. */
  datatype Response = TransportFailure(err: string) | HttpResponse(statusCode: nat, body: Body)

  /** The four ways the callback can end. */
  datatype Outcome =
    | TransportError(detail: string)  // `err` was set
    | BadStatus(code: nat)            // status other than 200
    | Thrown(detail: string)          // `JSON.parse` or `formatForecast` threw
    | Rendered(reply: Reply)          // the forecast was formatted

  /** How the callback classifies a response, branch by branch in source order. */
  function OutcomeOf(response: Response, adapter: Adapter): (outcome: Outcome)
    ensures outcome.TransportError? <==> response.TransportFailure?
    ensures outcome.BadStatus? <==> response.HttpResponse? && response.statusCode != 200
    ensures outcome.Thrown? <==>
      response.HttpResponse? && response.statusCode == 200
      && (response.body.Unparsable? || ForecastReply(response.body.forecast, adapter).Failure?)
    ensures outcome.Rendered? ==>
      response.HttpResponse? && response.statusCode == 200 && response.body.Parsed?
      && ForecastReply(response.body.forecast, adapter) == Success(outcome.reply)
    ensures response.TransportFailure? ==> outcome == TransportError(response.err)
    ensures outcome.BadStatus? ==> outcome.code == response.statusCode
    ensures outcome.Thrown? ==>
      outcome.detail == (if response.body.Unparsable? then response.body.syntaxError
                         else FaultMessage(ForecastReply(response.body.forecast, adapter).error))
  {
    match response
    case TransportFailure(err) => TransportError(err)
    case HttpResponse(code, body) =>
      if code != 200 then BadStatus(code)
      else
        match body
        case Unparsable(e) => Thrown(e)
        case Parsed(forecast) =>
          match ForecastReply(forecast, adapter)
          case Failure(fault) => Thrown(FaultMessage(fault))
          case Success(reply) => Rendered(reply)
  }

  /** The message `handleError` sends for an error `err`. */
  function ErrorText(err: string): (text: string)
    ensures |text| == |ErrorPrefix| + |err|
    ensures text[..|ErrorPrefix|] == ErrorPrefix && text[|ErrorPrefix|..] == err
  {
    ErrorPrefix + err
  }

  /**
   * The one reply sent for each outcome: a rendered forecast is sent as it
   * is, every other outcome as a text carrying the error prefix.
   */
  function ReplyOf(outcome: Outcome): (reply: Reply)
    ensures outcome.Rendered? ==> reply == outcome.reply
    ensures !outcome.Rendered? ==>
      reply.Text? && |ErrorPrefix| <= |reply.text| && reply.text[..|ErrorPrefix|] == ErrorPrefix
  {
    match outcome
    case TransportError(detail) => Text(ErrorText(detail))
    case BadStatus(code) => Text(ErrorText(StatusPrefix + NatToString(code)))
    case Thrown(detail) => Text(ErrorText(detail))
    case Rendered(reply) => reply
  }

  /**
   * Every outcome but a rendered forecast is answered with a plain text
   * that starts with the error prefix and carries the error's own text.
   */
  lemma ErrorRepliesArePrefixed(outcome: Outcome)
    requires !outcome.Rendered?
    ensures ReplyOf(outcome).Text?
    ensures |ErrorPrefix| <= |ReplyOf(outcome).text|
    ensures ReplyOf(outcome).text[..|ErrorPrefix|] == ErrorPrefix
    ensures outcome.TransportError? ==> ReplyOf(outcome).text[|ErrorPrefix|..] == outcome.detail
    ensures outcome.Thrown? ==> ReplyOf(outcome).text[|ErrorPrefix|..] == outcome.detail
  {
  }

  /**
   * A status other than 200 is answered with exactly "Error retrieving
   * forecast: Server responded with HTTP <code>", and the code reads back
   * from the reply's last digits.
   */
  lemma StatusReply(response: Response, adapter: Adapter)
    requires response.HttpResponse? && response.statusCode != 200
    ensures ReplyOf(OutcomeOf(response, adapter))
      == Text("Error retrieving forecast: " + "Server responded with HTTP " + NatToString(response.statusCode))
    ensures var text := ReplyOf(OutcomeOf(response, adapter)).text;
      var digits := text[|ErrorPrefix| + |StatusPrefix|..];
      IsDigits(digits) && ParseDecimal(digits) == response.statusCode
  {
    var digits := NatToString(response.statusCode);
    var text := ReplyOf(OutcomeOf(response, adapter)).text;
    assert text == ErrorPrefix + StatusPrefix + digits;
    assert text[|ErrorPrefix| + |StatusPrefix|..] == digits;
    ParseNatToString(response.statusCode);
  }

  /** The failing server of the bot's tests: HTTP 500. */
  lemma ServerErrorExample(adapter: Adapter, body: Body)
    ensures ReplyOf(OutcomeOf(HttpResponse(500, body), adapter))
      == Text("Error retrieving forecast: " + "Server responded with HTTP " + "500")
  {
  }

  /**
   * Error replies never depend on the adapter: only a rendered forecast
   * can differ between Slack and the plain-text adapters.
   */
  lemma ErrorsIgnoreAdapter(response: Response, a: Adapter, b: Adapter)
    requires !OutcomeOf(response, a).Rendered?
    ensures !OutcomeOf(response, b).Rendered?
    ensures ReplyOf(OutcomeOf(response, a)) == ReplyOf(OutcomeOf(response, b))
  {
    if response.HttpResponse? && response.statusCode == 200 && response.body.Parsed? {
      FaultIgnoresAdapter(response.body.forecast, a, b);
    }
  }

  /** The message object a handler replies through: everything it has sent, in order. */
  class Chat {
    var sent: seq<Reply>

    constructor ()
      ensures sent == []
    {
      sent := [];
    }

    /** `msg.send`. */
    method Send(reply: Reply)
      modifies this
      ensures sent == old(sent) + [reply]
    {
      sent := sent + [reply];
    }
  }

  /** `handleError`: log the error (not modelled) and send it prefixed. */
  method HandleError(err: string, msg: Chat)
    modifies msg
    ensures msg.sent == old(msg.sent) + [Text(ErrorText(err))]
  {
    msg.Send(Text(ErrorPrefix + err));
  }

  /**
   * The callback of `getPollenForecast`: whichever branch it takes, it sends
   * exactly one reply, the one its outcome calls for.
   */
  method HandleResponse(response: Response, adapter: Adapter, msg: Chat)
    modifies msg
    ensures msg.sent == old(msg.sent) + [ReplyOf(OutcomeOf(response, adapter))]
  {
    if response.TransportFailure? {
      HandleError(response.err, msg);
      return;
    }
    if response.statusCode != 200 {
      HandleError(StatusPrefix + NatToString(response.statusCode), msg);
      return;
    }
    if response.body.Unparsable? {
      HandleError(response.body.syntaxError, msg);
      return;
    }
    var formatted := FormatForecast(response.body.forecast, adapter);
    match formatted
    case Failure(fault) =>
      HandleError(FaultMessage(fault), msg);
    case Success(reply) =>
      msg.Send(reply);
  }
}
