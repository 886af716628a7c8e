/**
 * The check-in pipeline of the door scanner (app.js): how the reply to a
 * verification request is read (`extractName`, `data.message`) and mapped to
 * the banner, the attendee name and the audio/vibration feedback shown to the
 * attendant (`processCheckin`).  Everything here is a pure function of the
 * outcome; the session state that gates check-ins lives in module Session.
 */
module Checkin {
  import opened Wrappers

  /** The path verification requests are posted to. */
  const API_ENDPOINT: string := "/api/checkin"

  // Banner texts used by processCheckin.
  const CHECKING_TEXT: string := "Checking\U{2026}"
  const OFFLINE_TEXT: string := "Offline \U{2014} cannot verify"
  const NETWORK_ERROR_TEXT: string := "Network error"
  const OK_TEXT: string := "OK"
  const ALREADY_USED_TEXT: string := "Already used"
  const INVALID_TICKET_TEXT: string := "Invalid ticket"
  const FORBIDDEN_TEXT: string := "Forbidden \U{2014} check scanner key"
  const RATE_LIMITED_TEXT: string := "Rate limited \U{2014} slow down"

  /** A parsed JSON response body; JSON numbers are taken as integers. */
  datatype Json =
    | JNull
    | JBool(b: bool)
    | JNum(n: int)
    | JStr(s: string)
    | JArr(items: seq<Json>)
    | JObj(fields: map<string, Json>)

  /** JavaScript truthiness of a parsed JSON value: all but null, false, 0 and "" are truthy. */
  predicate Truthy(v: Json)
    ensures Truthy(v) <==> v != JNull && v != JBool(false) && v != JNum(0) && v != JStr("")
  {
    match v
    case JNull => false
    case JBool(b) => b
    case JNum(n) => n != 0
    case JStr(s) => s != ""
    case JArr(_) => true
    case JObj(_) => true
  }

  /**
   * The property read `v[key]` on a value other than null, for the keys the
   * check-in code reads ("attendee", "name", "message"), which no built-in
   * prototype defines: only an object's own field answers; `None` is `undefined`.
   */
  function Prop(v: Json, key: string): Option<Json> {
    if v.JObj? && key in v.fields then Some(v.fields[key]) else None
  }

  /** `v[key]` when `typeof v[key] === "string"`. */
  function StringProp(v: Json, key: string): Option<string> {
    match Prop(v, key)
    case Some(JStr(s)) => Some(s)
    case _ => None
  }

  /**
   * The three places a reply may carry the attendee's name, highest priority
   * first: `attendee` as a string, `attendee.name` of a truthy `attendee`, and
   * a top-level `name`.
   */
  function NameSources(data: Json): seq<Option<string>> {
    var attendee := Prop(data, "attendee");
    [ StringProp(data, "attendee"),
      if attendee.Some? && Truthy(attendee.value) then StringProp(attendee.value, "name") else None,
      StringProp(data, "name") ]
  }

  /** The first candidate that is present, or "" when none is. */
  function FirstPresent(cands: seq<Option<string>>): (r: string)
    ensures r == "" || Some(r) in cands
    ensures (forall i :: 0 <= i < |cands| ==> cands[i].None?) ==> r == ""
    ensures forall i :: 0 <= i < |cands| && cands[i].Some? && (forall j :: 0 <= j < i ==> cands[j].None?) ==>
      r == cands[i].value
  {
    if cands == [] then ""
    else if cands[0].Some? then cands[0].value
    else FirstPresent(cands[1..])
  }

  lemma FirstPresentOfThree(a: Option<string>, b: Option<string>, c: Option<string>)
    ensures FirstPresent([a, b, c])
         == if a.Some? then a.value else if b.Some? then b.value else if c.Some? then c.value else ""
  {
    assert [a, b, c][1..] == [b, c];
    assert [b, c][1..] == [c];
    assert [c][1..] == [];
    if a.None? {
      assert FirstPresent([a, b, c]) == FirstPresent([b, c]);
      if b.None? {
        assert FirstPresent([b, c]) == FirstPresent([c]);
        assert c.None? ==> FirstPresent([c]) == FirstPresent([]);
      }
    }
  }

  /**
   * `extractName`: never fails, yields "" for a falsy body, and otherwise the
   * first name source that holds a string.
   */
  function ExtractName(data: Json): (r: string)
    ensures !Truthy(data) ==> r == ""
    ensures Truthy(data) ==> r == FirstPresent(NameSources(data))
  {
    FirstPresentOfThree(NameSources(data)[0], NameSources(data)[1], NameSources(data)[2]);
    if !Truthy(data) then ""
    else if StringProp(data, "attendee").Some? then StringProp(data, "attendee").value
    else if Prop(data, "attendee").Some? && Truthy(Prop(data, "attendee").value)
      && StringProp(Prop(data, "attendee").value, "name").Some?
    then StringProp(Prop(data, "attendee").value, "name").value
    else if StringProp(data, "name").Some? then StringProp(data, "name").value
    else ""
  }

  /** What the banner's message line shows. */
  datatype Message =
    | Literal(s: string)        // a fixed text, or a string `message` sent by the server
    | StatusError(status: int)  // "Error (" + status + ")"
    | ServerValue(v: Json)      // a truthy non-string `message`, shown as JavaScript renders it

  /** `data.message || ""` read as an optional override of the default text. */
  function ServerMessage(data: Json): (m: Option<Message>)
    requires data != JNull
    ensures m.Some? <==> Prop(data, "message").Some? && Truthy(Prop(data, "message").value)
    ensures StringProp(data, "message").Some? && m.Some? ==> m.value == Literal(StringProp(data, "message").value)
  {
    match Prop(data, "message")
    case Some(v) =>
      if !Truthy(v) then None
      else if v.JStr? then Some(Literal(v.s))
      else Some(ServerValue(v))
    case None => None
  }

  /** The banner classes of showBanner. */
  datatype Tone = Ok | Error | Warning | Checking

  /** The argument of `feedback(type)`: one beep/pulse for ok, two for error. */
  datatype Feedback = OkFeedback | ErrorFeedback

  /** What the network gave processCheckin. */
  datatype Outcome =
    | Offline                                   // navigator.onLine was false: no request
    | NetErr                                    // fetch rejected: no response
    | Resp(status: int, body: Option<Json>)     // a response; None when res.json() rejected

  /** The final banner and feedback of one check-in. */
  datatype Directive = Directive(tone: Tone, message: Message, name: string, feedback: Feedback)

  predicate OkStatus(status: int) {
    200 <= status <= 299
  }

  /** The `data` processCheckin works on: the parsed body, or `{}` when the body was not JSON. */
  function BodyOf(o: Outcome): Json
    requires o.Resp?
  {
    match o.body
    case Some(v) => v
    case None => JObj(map[])
  }

  /**
   * A response arrived and its body can be read: a JSON `null` body makes
   * `data.message` throw, which lands in the same catch as a failed fetch.
   */
  predicate Answered(o: Outcome) {
    o.Resp? && BodyOf(o) != JNull
  }

  /** The directive of the catch branch. */
  const NETWORK_ERROR: Directive := Directive(Error, Literal(NETWORK_ERROR_TEXT), "", ErrorFeedback)

  /** The banner text for an answered check-in whose reply carries no message. */
  function DefaultMessage(status: int): Message {
    if OkStatus(status) then Literal(OK_TEXT)
    else if status == 409 then Literal(ALREADY_USED_TEXT)
    else if status == 400 then Literal(INVALID_TICKET_TEXT)
    else if status == 403 then Literal(FORBIDDEN_TEXT)
    else if status == 429 then Literal(RATE_LIMITED_TEXT)
    else StatusError(status)
  }

  /**
   * processCheckin's classification of an outcome into the final banner and
   * feedback.  Total: every outcome and every status yields one directive.
   */
  function Classify(o: Outcome): (d: Directive)
    // the final banner is never the transient "checking" one
    ensures d.tone != Checking
    // the ok banner and the ok feedback go together, and only for res.ok
    ensures d.tone == Ok <==> d.feedback == OkFeedback
    ensures d.feedback == OkFeedback <==> Answered(o) && OkStatus(o.status)
    // offline and 429 warn (yet still signal an error)
    ensures d.tone == Warning <==> o.Offline? || (Answered(o) && o.status == 429)
    // only the ok and 409 banners carry the attendee's name
    ensures d.name != "" ==> Answered(o) && (OkStatus(o.status) || o.status == 409)
    ensures Answered(o) && (OkStatus(o.status) || o.status == 409) ==> d.name == ExtractName(BodyOf(o))
    // a server message replaces the default text whatever the status
    ensures Answered(o) ==> d.message == ServerMessage(BodyOf(o)).GetOr(DefaultMessage(o.status))
    ensures o.Offline? ==> d.message == Literal(OFFLINE_TEXT)
    ensures !o.Offline? && !Answered(o) ==> d == NETWORK_ERROR
  {
    match o
    case Offline => Directive(Warning, Literal(OFFLINE_TEXT), "", ErrorFeedback)
    case NetErr => NETWORK_ERROR
    case Resp(status, _) =>
      var data := BodyOf(o);
      if data == JNull then NETWORK_ERROR
      else
        var name := ExtractName(data);
        var msg := ServerMessage(data);
        if OkStatus(status) then Directive(Ok, msg.GetOr(Literal(OK_TEXT)), name, OkFeedback)
        else if status == 409 then Directive(Error, msg.GetOr(Literal(ALREADY_USED_TEXT)), name, ErrorFeedback)
        else if status == 400 then Directive(Error, msg.GetOr(Literal(INVALID_TICKET_TEXT)), "", ErrorFeedback)
        else if status == 403 then Directive(Error, msg.GetOr(Literal(FORBIDDEN_TEXT)), "", ErrorFeedback)
        else if status == 429 then Directive(Warning, msg.GetOr(Literal(RATE_LIMITED_TEXT)), "", ErrorFeedback)
        else Directive(Error, msg.GetOr(StatusError(status)), "", ErrorFeedback)
  }

  /** The statuses without a branch of their own all get the generic "Error (status)" text; 404 and 408 among them. */
  lemma UnlistedStatusesAreGeneric(status: int, body: Option<Json>)
    requires !OkStatus(status) && status != 400 && status != 403 && status != 409 && status != 429
    requires Answered(Resp(status, body)) && ServerMessage(BodyOf(Resp(status, body))).None?
    ensures Classify(Resp(status, body)) == Directive(Error, StatusError(status), "", ErrorFeedback)
  {
  }

  /** An observable step of the check-in flow, in the order it happens. */
  datatype Effect =
    | CheckinCall(token: string)                          // processCheckin(token) is called
    | Show(tone: Tone, message: Message, name: string)    // showBanner
    | Hide                                                // hideBanner
    | Request(token: string)                              // the POST to API_ENDPOINT
    | Signal(feedback: Feedback)                          // feedback(type)
    | UnlockScheduled                                     // scheduleUnlock()

  /** What processCheckin does up to its await, when online. */
  function Begin(token: string): seq<Effect> {
    [Show(Checking, Literal(CHECKING_TEXT), ""), Request(token)]
  }

  /** What processCheckin does once the outcome is known. */
  function Finish(o: Outcome): seq<Effect> {
    var d := Classify(o);
    [Show(d.tone, d.message, d.name), Signal(d.feedback), UnlockScheduled]
  }

  /** Every effect of one processCheckin(token) call. */
  function ProcessCheckin(token: string, o: Outcome): seq<Effect> {
    if o.Offline? then Finish(Offline) else Begin(token) + Finish(o)
  }

  /** The feedback calls in a run of effects, in order. */
  function Signals(es: seq<Effect>): seq<Feedback> {
    if es == [] then []
    else (if es[0].Signal? then [es[0].feedback] else []) + Signals(es[1..])
  }

  /** The tokens sent to the server in a run of effects, in order. */
  function Requests(es: seq<Effect>): seq<string> {
    if es == [] then []
    else (if es[0].Request? then [es[0].token] else []) + Requests(es[1..])
  }

  /** The tokens processCheckin was called with in a run of effects, in order. */
  function Checkins(es: seq<Effect>): seq<string> {
    if es == [] then []
    else (if es[0].CheckinCall? then [es[0].token] else []) + Checkins(es[1..])
  }

  /** The number of unlocks scheduled in a run of effects. */
  function Unlocks(es: seq<Effect>): nat {
    if es == [] then 0
    else (if es[0].UnlockScheduled? then 1 else 0) + Unlocks(es[1..])
  }

  lemma {:induction false} SignalsDistribute(a: seq<Effect>, b: seq<Effect>)
    ensures Signals(a + b) == Signals(a) + Signals(b)
  {
    if a == [] {
      assert a + b == b;
    } else {
      var ab := a + b;
      assert ab[0] == a[0] && ab[1..] == a[1..] + b;
      SignalsDistribute(a[1..], b);
      var head := if a[0].Signal? then [a[0].feedback] else [];
      assert Signals(ab) == head + Signals(a[1..] + b);
      assert Signals(a) == head + Signals(a[1..]);
    }
  }

  lemma {:induction false} RequestsDistribute(a: seq<Effect>, b: seq<Effect>)
    ensures Requests(a + b) == Requests(a) + Requests(b)
  {
    if a == [] {
      assert a + b == b;
    } else {
      var ab := a + b;
      assert ab[0] == a[0] && ab[1..] == a[1..] + b;
      RequestsDistribute(a[1..], b);
      var head := if a[0].Request? then [a[0].token] else [];
      assert Requests(ab) == head + Requests(a[1..] + b);
      assert Requests(a) == head + Requests(a[1..]);
    }
  }

  lemma {:induction false} CheckinsDistribute(a: seq<Effect>, b: seq<Effect>)
    ensures Checkins(a + b) == Checkins(a) + Checkins(b)
  {
    if a == [] {
      assert a + b == b;
    } else {
      var ab := a + b;
      assert ab[0] == a[0] && ab[1..] == a[1..] + b;
      CheckinsDistribute(a[1..], b);
      var head := if a[0].CheckinCall? then [a[0].token] else [];
      assert Checkins(ab) == head + Checkins(a[1..] + b);
      assert Checkins(a) == head + Checkins(a[1..]);
    }
  }

  lemma {:induction false} UnlocksDistribute(a: seq<Effect>, b: seq<Effect>)
    ensures Unlocks(a + b) == Unlocks(a) + Unlocks(b)
  {
    if a == [] {
      assert a + b == b;
    } else {
      var ab := a + b;
      assert ab[0] == a[0] && ab[1..] == a[1..] + b;
      UnlocksDistribute(a[1..], b);
      var head := if a[0].UnlockScheduled? then 1 else 0;
      assert Unlocks(ab) == head + Unlocks(a[1..] + b);
      assert Unlocks(a) == head + Unlocks(a[1..]);
    }
  }

  /** The part before the await sends the one request and nothing else counted. */
  lemma BeginEffects(token: string)
    ensures Requests(Begin(token)) == [token]
    ensures Checkins(Begin(token)) == [] && Signals(Begin(token)) == [] && Unlocks(Begin(token)) == 0
  {
    var b := Begin(token);
    var last := [Request(token)];
    assert b[1..] == last;
    assert last[1..] == [];
    assert Requests(last) == [token] + Requests([]);
    assert Checkins(last) == [] + Checkins([]);
    assert Signals(last) == [] + Signals([]);
    assert Unlocks(last) == 0 + Unlocks([]);
  }

  /**
   * Every path through processCheckin gives feedback exactly once, schedules
   * the unlock exactly once and last, sends at most the one request with the
   * scanned token, and none at all when offline.
   */
  lemma ProcessCheckinEffects(token: string, o: Outcome)
    ensures Signals(ProcessCheckin(token, o)) == [Classify(o).feedback]
    ensures Unlocks(ProcessCheckin(token, o)) == 1
    ensures ProcessCheckin(token, o)[|ProcessCheckin(token, o)| - 1] == UnlockScheduled
    ensures Requests(ProcessCheckin(token, o)) == if o.Offline? then [] else [token]
    ensures Checkins(ProcessCheckin(token, o)) == []
  {
    var f := Finish(o);
    assert Signals(f[2..]) == [] && Requests(f[2..]) == [] && Checkins(f[2..]) == [];
    assert Signals(f[1..]) == [Classify(o).feedback];
    if !o.Offline? {
      SignalsDistribute(Begin(token), f);
      RequestsDistribute(Begin(token), f);
      CheckinsDistribute(Begin(token), f);
      UnlocksDistribute(Begin(token), f);
    }
  }

  /** Offline: no request is sent, the banner warns and the feedback is an error. */
  lemma OfflineScenario()
    ensures Classify(Offline) == Directive(Warning, Literal(OFFLINE_TEXT), "", ErrorFeedback)
    ensures Requests(ProcessCheckin("ABC123", Offline)) == []
  {
    ProcessCheckinEffects("ABC123", Offline);
  }

  /** A 409 reply naming the attendee as a bare string. */
  lemma AlreadyUsedScenario()
    ensures Classify(Resp(409, Some(JObj(map["attendee" := JStr("Jane Doe")]))))
         == Directive(Error, Literal(ALREADY_USED_TEXT), "Jane Doe", ErrorFeedback)
  {
    var jane := JObj(map["attendee" := JStr("Jane Doe")]);
    assert Prop(jane, "attendee") == Some(JStr("Jane Doe"));
    assert Prop(jane, "message") == None;
  }

  /** A 200 reply naming the attendee in a top-level `name`. */
  lemma AcceptedScenario()
    ensures Classify(Resp(200, Some(JObj(map["name" := JStr("J. Smith")]))))
         == Directive(Ok, Literal(OK_TEXT), "J. Smith", OkFeedback)
  {
    var smith := JObj(map["name" := JStr("J. Smith")]);
    assert Prop(smith, "attendee") == None && Prop(smith, "message") == None;
    assert Prop(smith, "name") == Some(JStr("J. Smith"));
  }

  /** A JSON `null` body is reported as a network error even with a 2xx status. */
  lemma NullBodyScenario()
    ensures Classify(Resp(200, Some(JNull))) == NETWORK_ERROR
  {
  }
}
