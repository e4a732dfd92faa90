/** The /signal handler of the trading gateway: the reply of the
    completion API is cleaned of code fences, decoded as JSON, checked
    for the fields a decision needs, filled in with defaults and stamped
    with the request's symbol and price and the server time. Every
    failure becomes a HOLD decision.

    The completion API, `json.loads` and the clock are not modelled:
    the reply (or the failure of the call) is an `Upstream` value, the
    decoder is the function parameter `loads`, and the clock reading is
    the parameter `clock`. */
module TraderServer {
  import opened Text
  import opened Fences
  import opened JsonData

  /** The request body of POST /signal. */
  datatype MarketState = MarketState(
    symbol: string,
    timeframe: string,
    price: real,
    indicators: map<string, real>,
    positions: seq<map<string, Json>>)

  /** What the completion API call inside `call_gpt` produced: the text
      of the first choice, or an exception (network, authentication,
      quota, a reply without content). */
  datatype Upstream = Answered(content: string) | CallFailed

  /** What `json.loads` does with a text: a value, a JSONDecodeError,
      or some other exception (a RecursionError on deep nesting) with
      its text. */
  datatype Loads = Decoded(value: Json) | DecodeError | Crashed(message: string)

  /** A step of the handler either yields a value or raises an exception
      that no inner `except` catches; the outer handler sees its text. */
  datatype Outcome<T> = Done(value: T) | Escaped(message: string)

  const Hold: Json := JString("HOLD")

  /** The lot inserted when the reply names none. */
  const DefaultLot: Json := JFloat(0.01)

  /** The lot of every fallback decision. */
  const NoLot: Json := JFloat(0.0)

  const ApiError: string := "API error"
  const ParseFailed: string := "JSON parsing failed"
  const InvalidStructure: string := "Invalid response structure"
  const ServerErrorPrefix: string := "Server error: "

  /** The JSON text `call_gpt` returns in place of a reply it could not get. */
  const ApiErrorReply: string :=
    "{\"action\":\"HOLD\"," + "\"lot\":0.0," + "\"reason\":\"API error\"}"

  /** The keys every successful response is stamped with. */
  const StampKeys: set<string> := {"server_time", "symbol", "received_price"}

  /** A HOLD decision with no lot and the given reason. */
  function HoldDecision(reason: string): (d: map<string, Json>)
    ensures d.Keys == {"action", "lot", "reason"}
    ensures d["action"] == Hold && d["lot"] == NoLot && d["reason"] == JString(reason)
  {
    map["action" := Hold, "lot" := NoLot, "reason" := JString(reason)]
  }

  /** The record the outer handler returns for an exception with text
      `message`: no symbol and no received price. */
  function ServerErrorRecord(message: string, now: int): (d: map<string, Json>)
    ensures d.Keys == {"action", "lot", "reason", "server_time"}
    ensures "symbol" !in d && "received_price" !in d
    ensures d["action"] == Hold && d["lot"] == NoLot && d["server_time"] == JInt(now)
    ensures d["reason"] == JString(ServerErrorPrefix + message)
  {
    HoldDecision(ServerErrorPrefix + message)["server_time" := JInt(now)]
  }

  /** Python's `int(x)` on a float: truncation toward zero. */
  function Truncate(x: real): (n: int)
    ensures x >= 0.0 ==> n as real <= x < n as real + 1.0
    ensures x < 0.0 ==> n as real - 1.0 < x <= n as real
  {
    if x >= 0.0 then x.Floor else -((-x).Floor)
  }

  /** `call_gpt`: the stripped text of the reply, or a fixed HOLD
      decision in JSON when the call raised. */
  function CallGpt(upstream: Upstream): (reply: string)
    ensures Trimmed(reply)
    ensures upstream.CallFailed? ==> reply == ApiErrorReply
    ensures upstream.Answered? ==> Contains(upstream.content, reply)
    ensures upstream.Answered? ==> reply == Trim(upstream.content)
  {
    match upstream
    case Answered(content) => Trim(content)
    case CallFailed => ApiErrorReply
  }

  /** The text the handler hands to `json.loads`: it holds no "```" and
      has no whitespace at its ends, and the fixed "API error" text of a
      failed call reaches the decoder unchanged. */
  function ParserInput(upstream: Upstream): (r: string)
    ensures !Contains(r, Fence) && Trimmed(r)
    ensures upstream.CallFailed? ==> r == ApiErrorReply
  {
    assert '`' !in ApiErrorReply;
    StripFences(CallGpt(upstream))
  }

  /** The structure check and default filling of a decoded reply:
      without an "action" the whole reply is replaced by a fixed HOLD
      decision; without a "lot" the lot 0.01 is inserted. The action
      itself is not checked. Python's `in` and item assignment apply
      to whatever value was decoded, so a non-dict may raise. */
  function Validate(v: Json): (r: Outcome<Json>)
    ensures v.JObject? && "action" !in v.fields ==>
      r == Done(JObject(HoldDecision(InvalidStructure)))
    ensures v.JObject? && "action" in v.fields ==>
      && r.Done? && r.value.JObject?
      && r.value.fields.Keys == v.fields.Keys + {"lot"}
      && (forall k :: k in v.fields ==> r.value.fields[k] == v.fields[k])
      && ("lot" !in v.fields ==> r.value.fields["lot"] == DefaultLot)
    ensures !v.JObject? && HasKey(v, "action") == Pass(false) ==>
      r == Done(JObject(HoldDecision(InvalidStructure)))
    ensures !v.JObject? && HasKey(v, "action") == Pass(true) ==>
      r == Done(v) || r == Escaped(TypeErrorText(AssignmentError(v)))
    ensures v.JNull? || v.JBool? || v.JInt? || v.JFloat? ==>
      r == Escaped(TypeErrorText(NotContainer(TypeName(v))))
    ensures r.Done? && r.value.JObject? ==> "action" in r.value.fields && "lot" in r.value.fields
    ensures r.Done? && r.value.JObject? && r.value.fields["action"] != Hold ==>
      v.JObject? && "action" in v.fields && r.value.fields["action"] == v.fields["action"]
  {
    match HasKey(v, "action")
    case Fail(e) => Escaped(TypeErrorText(e))
    case Pass(hasAction) =>
      var d := if hasAction then v else JObject(HoldDecision(InvalidStructure));
      match HasKey(d, "lot")
      case Fail(e) => Escaped(TypeErrorText(e))
      case Pass(hasLot) =>
        if hasLot then Done(d)
        else if d.JObject? then Done(JObject(d.fields["lot" := DefaultLot]))
        else Escaped(TypeErrorText(AssignmentError(d)))
  }

  /** The inner `try` of the handler: strip fences, decode, validate. A
      JSONDecodeError gives a fixed HOLD decision; any other exception
      escapes. */
  function Decide(reply: string, loads: string -> Loads): (r: Outcome<Json>)
    ensures r.Done? && r.value.JObject? ==> "action" in r.value.fields && "lot" in r.value.fields
    ensures r.Done? && r.value.JObject? && r.value.fields["action"] != Hold ==>
      DecodedAction(loads(StripFences(reply)), r.value.fields["action"])
  {
    match loads(StripFences(reply))
    case Decoded(v) => Validate(v)
    case DecodeError => Done(JObject(HoldDecision(ParseFailed)))
    case Crashed(message) => Escaped(message)
  }

  /** The three stamps: server time, the request's symbol and its price,
      each overwriting a key of the same name. Only a dict accepts them. */
  function Stamp(d: Json, ms: MarketState, now: int): (r: Outcome<map<string, Json>>)
    ensures r.Done? <==> d.JObject?
    ensures r.Done? ==>
      && r.value.Keys == d.fields.Keys + StampKeys
      && r.value["server_time"] == JInt(now)
      && r.value["symbol"] == JString(ms.symbol)
      && r.value["received_price"] == JFloat(ms.price)
      && (forall k :: k in d.fields && k !in StampKeys ==> r.value[k] == d.fields[k])
    ensures r.Done? ==>
      && ("action" in d.fields ==> r.value["action"] == d.fields["action"])
      && ("lot" in d.fields ==> r.value["lot"] == d.fields["lot"])
      && ("reason" in d.fields ==> r.value["reason"] == d.fields["reason"])
    ensures r.Escaped? ==> r.message == TypeErrorText(AssignmentError(d))
  {
    match d
    case JObject(fields) =>
      Done(fields["server_time" := JInt(now)]["symbol" := JString(ms.symbol)]["received_price" := JFloat(ms.price)])
    case _ => Escaped(TypeErrorText(AssignmentError(d)))
  }

  /** The body of the outer `try`: ask for a reply, decide, stamp. */
  function Handle(ms: MarketState, upstream: Upstream, loads: string -> Loads, now: int): (r: Outcome<map<string, Json>>)
    ensures r.Done? ==>
      && "action" in r.value && "lot" in r.value && StampKeys <= r.value.Keys
      && r.value["server_time"] == JInt(now)
      && r.value["symbol"] == JString(ms.symbol)
      && r.value["received_price"] == JFloat(ms.price)
    ensures r.Done? && r.value["action"] != Hold ==> ActionFromModel(upstream, loads, r.value["action"])
  {
    var decided := Decide(CallGpt(upstream), loads);
    if decided.Escaped? then Escaped(decided.message)
    else
      Stamp(decided.value, ms, now)
  }

  /** The decoder gave a dict whose "action" is `action`. */
  predicate DecodedAction(parsed: Loads, action: Json) {
    && parsed.Decoded?
    && parsed.value.JObject?
    && "action" in parsed.value.fields
    && parsed.value.fields["action"] == action
  }

  /** The reply, as decoded, was a dict whose "action" is `action`. */
  predicate ActionFromModel(upstream: Upstream, loads: string -> Loads, action: Json) {
    DecodedAction(loads(ParserInput(upstream)), action)
  }

  /** POST /signal. Whatever happens, the response holds an action, a
      lot and the server time; an action other than HOLD is always the
      one the decoded reply named; the symbol and price are echoed
      together or not at all, and only the server-error record lacks
      them. */
  function GetSignal(ms: MarketState, upstream: Upstream, loads: string -> Loads, clock: real): (r: map<string, Json>)
    ensures "action" in r && "lot" in r && "server_time" in r
    ensures r["server_time"] == JInt(Truncate(clock))
    ensures r["action"] != Hold ==> ActionFromModel(upstream, loads, r["action"])
    ensures ("symbol" in r) == ("received_price" in r)
    ensures "symbol" in r ==>
      r["symbol"] == JString(ms.symbol) && r["received_price"] == JFloat(ms.price)
    ensures "symbol" !in r ==>
      && r.Keys == {"action", "lot", "reason", "server_time"}
      && r["action"] == Hold && r["lot"] == NoLot
    ensures "symbol" !in r ==> exists message :: r == ServerErrorRecord(message, Truncate(clock))
  {
    var now := Truncate(clock);
    var handled := Handle(ms, upstream, loads, now);
    assert handled.Escaped? ==> Respond(handled, now) == ServerErrorRecord(handled.message, now);
    Respond(handled, now)
  }

  /** The outer `except`: a response is returned as it is, an exception
      becomes the server-error record carrying its text. */
  function Respond(handled: Outcome<map<string, Json>>, now: int): (r: map<string, Json>)
    ensures handled.Done? ==> r == handled.value
    ensures handled.Escaped? ==>
      && r.Keys == {"action", "lot", "reason", "server_time"}
      && r["action"] == Hold && r["lot"] == NoLot && r["server_time"] == JInt(now)
      && r["reason"] == JString(ServerErrorPrefix + handled.message)
  {
    match handled
    case Done(decision) => decision
    case Escaped(message) => ServerErrorRecord(message, now)
  }

  /** The six-key HOLD response of a handled failure. */
  function HoldResponse(reason: string, ms: MarketState, now: int): map<string, Json> {
    map[
      "action" := Hold, "lot" := NoLot, "reason" := JString(reason),
      "server_time" := JInt(now), "symbol" := JString(ms.symbol),
      "received_price" := JFloat(ms.price)]
  }

  /** An exception that escapes the body of the outer `try` becomes the
      server-error record. */
  lemma EscapedIsServerError(ms: MarketState, upstream: Upstream, loads: string -> Loads, clock: real, message: string)
    requires Handle(ms, upstream, loads, Truncate(clock)) == Escaped(message)
    ensures GetSignal(ms, upstream, loads, clock) == ServerErrorRecord(message, Truncate(clock))
  {
    assert Respond(Escaped(message), Truncate(clock)) == ServerErrorRecord(message, Truncate(clock));
  }

  /** An exception escaping the inner `try` reaches the outer handler. */
  lemma DecidedEscape(ms: MarketState, upstream: Upstream, loads: string -> Loads, clock: real, message: string)
    requires Decide(CallGpt(upstream), loads) == Escaped(message)
    ensures GetSignal(ms, upstream, loads, clock) == ServerErrorRecord(message, Truncate(clock))
  {
    assert Handle(ms, upstream, loads, Truncate(clock)) == Escaped(message);
    EscapedIsServerError(ms, upstream, loads, clock, message);
  }

  /** A decision that is not a dict fails at the first stamp, and the
      outer handler reports the item-assignment TypeError. */
  lemma UnstampableDecision(ms: MarketState, upstream: Upstream, loads: string -> Loads, clock: real, v: Json)
    requires Decide(CallGpt(upstream), loads) == Done(v) && !v.JObject?
    ensures GetSignal(ms, upstream, loads, clock) == ServerErrorRecord(TypeErrorText(AssignmentError(v)), Truncate(clock))
  {
    var message := TypeErrorText(AssignmentError(v));
    assert Handle(ms, upstream, loads, Truncate(clock)) == Escaped(message);
    EscapedIsServerError(ms, upstream, loads, clock, message);
  }

  /** A response the body of the outer `try` produces is returned as it is. */
  lemma HandledIsResponse(ms: MarketState, upstream: Upstream, loads: string -> Loads, clock: real, d: map<string, Json>)
    requires Handle(ms, upstream, loads, Truncate(clock)) == Done(d)
    ensures GetSignal(ms, upstream, loads, clock) == d
  {
    assert Respond(Done(d), Truncate(clock)) == d;
  }

  /** A HOLD decision reached before stamping becomes the six-key HOLD
      response. */
  lemma DecidedHold(ms: MarketState, upstream: Upstream, loads: string -> Loads, clock: real, reason: string)
    requires Decide(CallGpt(upstream), loads) == Done(JObject(HoldDecision(reason)))
    ensures GetSignal(ms, upstream, loads, clock) == HoldResponse(reason, ms, Truncate(clock))
  {
    var now := Truncate(clock);
    var decision := JObject(HoldDecision(reason));
    assert Handle(ms, upstream, loads, now) == Stamp(decision, ms, now);
    StampedHold(reason, ms, now);
    HandledIsResponse(ms, upstream, loads, clock, HoldResponse(reason, ms, now));
  }

  /** Stamping a HOLD decision gives the six-key HOLD response. */
  lemma StampedHold(reason: string, ms: MarketState, now: int)
    ensures Stamp(JObject(HoldDecision(reason)), ms, now) == Done(HoldResponse(reason, ms, now))
  {
    var r := Stamp(JObject(HoldDecision(reason)), ms, now).value;
    var expected := HoldResponse(reason, ms, now);
    assert r.Keys == expected.Keys;
    forall k | k in r
      ensures r[k] == expected[k]
    {
    }
  }

  /** A reply fenced as ```json … ``` reaches the decoder as its bare body. */
  lemma FencedAnswerParsedAsBody(lead: string, body: string, trail: string)
    requires AllSpace(lead) && AllSpace(trail)
    requires '`' !in body && Trimmed(body)
    ensures ParserInput(Answered(JsonFence + lead + body + trail + Fence)) == body
  {
    var content := JsonFence + lead + body + trail + Fence;
    assert content[0] == '`' && content[|content| - 1] == '`';
    assert Trim(content) == content;
    FencedReplyRoundTrip(lead, body, trail);
  }

  /** When the completion call fails, `call_gpt`'s JSON text goes through
      the same path: its lot 0.0 is present, so it is not defaulted, and
      the request's symbol and price are echoed. */
  lemma UpstreamFailureHolds(ms: MarketState, loads: string -> Loads, clock: real)
    requires loads(ApiErrorReply) == Decoded(JObject(HoldDecision(ApiError)))
    ensures GetSignal(ms, CallFailed, loads, clock) == HoldResponse(ApiError, ms, Truncate(clock))
  {
    assert ParserInput(CallFailed) == ApiErrorReply;
    assert HasKey(JObject(HoldDecision(ApiError)), "action") == Pass(true);
    assert Decide(CallGpt(CallFailed), loads) == Done(JObject(HoldDecision(ApiError)));
    DecidedHold(ms, CallFailed, loads, clock, ApiError);
  }

  /** A reply that does not decode gives the parse-failure HOLD decision. */
  lemma UndecodableReplyHolds(ms: MarketState, content: string, loads: string -> Loads, clock: real)
    requires loads(ParserInput(Answered(content))) == DecodeError
    ensures GetSignal(ms, Answered(content), loads, clock) == HoldResponse(ParseFailed, ms, Truncate(clock))
  {
    assert Decide(CallGpt(Answered(content)), loads) == Done(JObject(HoldDecision(ParseFailed)));
    DecidedHold(ms, Answered(content), loads, clock, ParseFailed);
  }

  /** A dict reply without "action" is discarded whole: none of its keys
      survive. */
  lemma MissingActionDiscardsReply(ms: MarketState, content: string, loads: string -> Loads, clock: real, fields: map<string, Json>)
    requires loads(ParserInput(Answered(content))) == Decoded(JObject(fields))
    requires "action" !in fields
    ensures GetSignal(ms, Answered(content), loads, clock) == HoldResponse(InvalidStructure, ms, Truncate(clock))
  {
    assert Decide(CallGpt(Answered(content)), loads) == Done(JObject(HoldDecision(InvalidStructure)));
    DecidedHold(ms, Answered(content), loads, clock, InvalidStructure);
  }

  /** A dict reply with "action" is kept: every key it has survives
      unchanged unless a stamp overwrites it, "lot" is 0.01 when it was
      missing, and the action is passed on whatever it is. */
  lemma ModelDecisionKept(ms: MarketState, content: string, loads: string -> Loads, clock: real, fields: map<string, Json>)
    requires loads(ParserInput(Answered(content))) == Decoded(JObject(fields))
    requires "action" in fields
    ensures var r := GetSignal(ms, Answered(content), loads, clock);
      && r.Keys == fields.Keys + {"lot"} + StampKeys
      && (forall k :: k in fields && k !in StampKeys ==> r[k] == fields[k])
      && ("lot" !in fields ==> r["lot"] == DefaultLot)
      && r["server_time"] == JInt(Truncate(clock))
      && r["symbol"] == JString(ms.symbol)
      && r["received_price"] == JFloat(ms.price)
  {
    var now := Truncate(clock);
    var decided := Validate(JObject(fields));
    assert Decide(CallGpt(Answered(content)), loads) == decided;
    assert Handle(ms, Answered(content), loads, now) == Stamp(decided.value, ms, now);
  }

  /** An exception from the decoder other than JSONDecodeError reaches the
      outer handler. */
  lemma DecoderCrashIsServerError(ms: MarketState, content: string, loads: string -> Loads, clock: real, message: string)
    requires loads(ParserInput(Answered(content))) == Crashed(message)
    ensures GetSignal(ms, Answered(content), loads, clock) == ServerErrorRecord(message, Truncate(clock))
    ensures "symbol" !in GetSignal(ms, Answered(content), loads, clock)
  {
    assert Decide(CallGpt(Answered(content)), loads) == Escaped(message);
    DecidedEscape(ms, Answered(content), loads, clock, message);
  }

  /** A reply that decodes to a number, a boolean or null makes
      `"action" in decision` raise. */
  lemma ScalarReplyIsServerError(ms: MarketState, content: string, loads: string -> Loads, clock: real, v: Json)
    requires loads(ParserInput(Answered(content))) == Decoded(v)
    requires v.JNull? || v.JBool? || v.JInt? || v.JFloat?
    ensures GetSignal(ms, Answered(content), loads, clock)
      == ServerErrorRecord(TypeErrorText(NotContainer(TypeName(v))), Truncate(clock))
  {
    var message := TypeErrorText(NotContainer(TypeName(v)));
    assert Decide(CallGpt(Answered(content)), loads) == Escaped(message);
    DecidedEscape(ms, Answered(content), loads, clock, message);
  }

  /** A reply that decodes to a list or a string in which "action" is not
      found is treated like a dict without "action". */
  lemma ContainerWithoutActionHolds(ms: MarketState, content: string, loads: string -> Loads, clock: real, v: Json)
    requires loads(ParserInput(Answered(content))) == Decoded(v)
    requires (v.JArray? && JString("action") !in v.items) || (v.JString? && !Contains(v.s, "action"))
    ensures GetSignal(ms, Answered(content), loads, clock) == HoldResponse(InvalidStructure, ms, Truncate(clock))
  {
    assert HasKey(v, "action") == Pass(false);
    assert Decide(CallGpt(Answered(content)), loads) == Done(JObject(HoldDecision(InvalidStructure)));
    DecidedHold(ms, Answered(content), loads, clock, InvalidStructure);
  }

  /** A reply that decodes to a list or a string in which "action" is
      found passes the check and then fails on item assignment. */
  lemma ContainerWithActionIsServerError(ms: MarketState, content: string, loads: string -> Loads, clock: real, v: Json)
    requires loads(ParserInput(Answered(content))) == Decoded(v)
    requires (v.JArray? && JString("action") in v.items) || (v.JString? && Contains(v.s, "action"))
    ensures GetSignal(ms, Answered(content), loads, clock)
      == ServerErrorRecord(
           TypeErrorText(if v.JArray? then ListIndexNotInt else NoItemAssignment("str")),
           Truncate(clock))
  {
    assert HasKey(v, "action") == Pass(true);
    var decided := Validate(v);
    assert Decide(CallGpt(Answered(content)), loads) == decided;
    var error := if v.JArray? then ListIndexNotInt else NoItemAssignment("str");
    assert AssignmentError(v) == error;
    if decided.Done? {
      assert decided.value == v;
      UnstampableDecision(ms, Answered(content), loads, clock, v);
    } else {
      DecidedEscape(ms, Answered(content), loads, clock, decided.message);
    }
  }
}
