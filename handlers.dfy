/** The three POST handlers: /api/evaluate-pitch, /api/check-password and
    /api/improve-pitch. Each handler is a function from the request body,
    the configured CLASS_PASSWORD and an upstream oracle to the HTTP
    response together with the upstream requests it issued. */
module Handlers {
  import opened Wrappers
  import opened Personas
  import opened Extraction
  import opened Synthesis
  import opened Upstream

  /** A request-body field that the handler tests for truthiness and then
      uses as an array: a falsy value (absent, null, "", 0, false), any other
      non-array value, or an array. */
  datatype Field<T> = Falsy | NonArray | Array(items: seq<T>)

  datatype Body<V> =
    | Error(message: string)
    | Evaluations(records: seq<Feedback<V>>)
    | PasswordCheck(valid: bool)
    | ImprovedPitch(text: string)

  datatype Response<V> = Response(status: nat, body: Body<V>)

  /** What a handler did: the response it sent and, in order, the upstream
      requests it issued. */
  datatype Exchange<V> = Exchange(response: Response<V>, calls: seq<Request>)

  /** The messages API: the reply text, or None when the call rejects. A
      reply whose first content block has no text is not modelled. */
  type Oracle = Request -> Option<string>

  /** `password !== process.env.CLASS_PASSWORD`, negated: strict equality, so
      an absent password matches an unset secret. */
  predicate Authorized(password: Option<string>, secret: Option<string>)
  {
    password == secret
  }

  /** The truthiness test on a pitch: absent and "" are falsy. */
  predicate Truthy(s: Option<string>)
  {
    s.Some? && s.value != ""
  }

  /** The request getDragonFeedback sends for one persona. */
  function DragonRequest(id: string, pitch: string): Request
  {
    PersonaCall(id, pitch)
  }

  /** getDragonFeedback: one upstream call, then extraction from its text. */
  function DragonFeedback<V>(id: string, pitch: string, upstream: Oracle,
                             parse: string -> Option<map<string, V>>)
    : (r: Result<Feedback<V>, Failure>)
    ensures upstream(DragonRequest(id, pitch)).None? <==> r == Failure(UpstreamFailed)
    ensures r.Success? ==> r.value.dragonId == id
    ensures upstream(DragonRequest(id, pitch)).Some? ==>
      r == ExtractFeedback(id, upstream(DragonRequest(id, pitch)).value, parse)
  {
    match upstream(DragonRequest(id, pitch))
    case None => Failure(UpstreamFailed)
    case Some(text) => ExtractFeedback(id, text, parse)
  }

  /** Promise.all over settled results: the values in order when every one
      succeeded, otherwise one of the failures. */
  function AllOk<T, E>(rs: seq<Result<T, E>>): (r: Result<seq<T>, E>)
    ensures r.Success? <==> forall i :: 0 <= i < |rs| ==> rs[i].Success?
    ensures r.Success? ==> |r.value| == |rs|
    ensures r.Success? ==> forall i :: 0 <= i < |rs| ==> rs[i].Success? && r.value[i] == rs[i].value
    ensures r.Failure? ==> exists i :: 0 <= i < |rs| && rs[i] == Failure(r.error)
  {
    if |rs| == 0 then Success([])
    else match rs[0]
      case Failure(e) => Failure(e)
      case Success(v) =>
        match AllOk(rs[1..])
        case Failure(e) => Failure(e)
        case Success(vs) => Success([v] + vs)
  }

  /** `dragonIds.map(dragonId => getDragonFeedback(dragonId, pitch))`: every
      call is started before any is awaited, so every request is issued. */
  function DragonRequests(ids: seq<string>, pitch: string): (qs: seq<Request>)
    ensures |qs| == |ids|
    ensures forall i :: 0 <= i < |ids| ==> qs[i] == DragonRequest(ids[i], pitch)
  {
    seq(|ids|, i requires 0 <= i < |ids| => DragonRequest(ids[i], pitch))
  }

  function DragonResults<V>(ids: seq<string>, pitch: string, upstream: Oracle,
                            parse: string -> Option<map<string, V>>)
    : (rs: seq<Result<Feedback<V>, Failure>>)
    ensures |rs| == |ids|
    ensures forall i :: 0 <= i < |ids| ==> rs[i] == DragonFeedback(ids[i], pitch, upstream, parse)
  {
    seq(|ids|, i requires 0 <= i < |ids| => DragonFeedback(ids[i], pitch, upstream, parse))
  }

  /** POST /api/evaluate-pitch. */
  function EvaluatePitch<V>(pitch: Option<string>, dragonIds: Field<string>, password: Option<string>,
                            secret: Option<string>, upstream: Oracle,
                            parse: string -> Option<map<string, V>>)
    : (x: Exchange<V>)
    // the password is checked first, and a mismatch costs no upstream call
    ensures !Authorized(password, secret) ==>
      x == Exchange(Response(401, Error("Invalid password. Please contact your instructor.")), [])
    // then the shape of the body, again before any upstream call
    ensures Authorized(password, secret) && (!Truthy(pitch) || !dragonIds.Array?) ==>
      x == Exchange(Response(400, Error("Invalid request")), [])
    // past both guards, one request per id, in the ids' order
    ensures Authorized(password, secret) && Truthy(pitch) && dragonIds.Array? ==>
      x.calls == DragonRequests(dragonIds.items, pitch.value)
    // all-or-nothing: 200 exactly when every persona succeeded
    ensures Authorized(password, secret) && Truthy(pitch) && dragonIds.Array? ==>
      (x.response.status == 200 <==>
        forall i :: 0 <= i < |dragonIds.items| ==>
          DragonFeedback(dragonIds.items[i], pitch.value, upstream, parse).Success?)
    ensures x.response.status == 200 ==>
      && Truthy(pitch) && dragonIds.Array?
      && x.response.body.Evaluations?
      && |x.response.body.records| == |dragonIds.items|
      && forall i :: 0 <= i < |dragonIds.items| ==>
        && x.response.body.records[i].dragonId == dragonIds.items[i]
        && DragonFeedback(dragonIds.items[i], pitch.value, upstream, parse)
             == Success(x.response.body.records[i])
    ensures Authorized(password, secret) && Truthy(pitch) && dragonIds.Array? ==>
      x.response.status in {200, 500}
    ensures x.response.status !in {200, 400, 401} ==>
      x.response == Response(500, Error("Failed to get dragon feedback"))
  {
    if password != secret then
      Exchange(Response(401, Error("Invalid password. Please contact your instructor.")), [])
    else if !Truthy(pitch) || !dragonIds.Array? then
      Exchange(Response(400, Error("Invalid request")), [])
    else
      var ids, text := dragonIds.items, pitch.value;
      var calls := DragonRequests(ids, text);
      match AllOk(DragonResults(ids, text, upstream, parse))
      case Success(evaluations) => Exchange(Response(200, Evaluations(evaluations)), calls)
      case Failure(_) => Exchange(Response(500, Error("Failed to get dragon feedback")), calls)
  }

  /** POST /api/check-password: 200 {valid: true} on a match, otherwise
      401 {valid: false}. */
  function CheckPassword<V>(password: Option<string>, secret: Option<string>): (r: Response<V>)
    ensures r.body.PasswordCheck? && (r.body.valid <==> Authorized(password, secret))
    ensures r.status == if r.body.valid then 200 else 401
  {
    if password == secret then Response(200, PasswordCheck(true)) else Response(401, PasswordCheck(false))
  }

  /** The request the improvement call sends: the pitch and the summary of
      the feedback records. */
  function ImproveRequest<V>(pitch: string, fs: seq<Feedback<V>>, render: V -> string): Request
  {
    ImproveCall(pitch, FeedbackSummary(fs, render))
  }

  /** POST /api/improve-pitch. `render` is how a template literal shows a
      rating, critique or question value. */
  function ImprovePitch<V>(originalPitch: Option<string>, feedback: Field<Feedback<V>>,
                           password: Option<string>, secret: Option<string>,
                           upstream: Oracle, render: V -> string)
    : (x: Exchange<V>)
    ensures !Authorized(password, secret) ==>
      x == Exchange(Response(401, Error("Invalid password")), [])
    ensures Authorized(password, secret) && (!Truthy(originalPitch) || feedback.Falsy?) ==>
      x == Exchange(Response(400, Error("Invalid request")), [])
    // a truthy non-array has no map method: the TypeError is caught as a 500
    ensures Authorized(password, secret) && Truthy(originalPitch) && feedback.NonArray? ==>
      x == Exchange(Response(500, Error("Failed to improve pitch")), [])
    // otherwise exactly one upstream call, and its text is returned as is
    ensures Authorized(password, secret) && Truthy(originalPitch) && feedback.Array? ==>
      var q := ImproveRequest(originalPitch.value, feedback.items, render);
      && x.calls == [q]
      && (upstream(q).Some? ==> x.response == Response(200, ImprovedPitch(upstream(q).value)))
      && (upstream(q).None? ==> x.response == Response(500, Error("Failed to improve pitch")))
  {
    if password != secret then
      Exchange(Response(401, Error("Invalid password")), [])
    else if !Truthy(originalPitch) || feedback.Falsy? then
      Exchange(Response(400, Error("Invalid request")), [])
    else if feedback.NonArray? then
      Exchange(Response(500, Error("Failed to improve pitch")), [])
    else
      var q := ImproveRequest(originalPitch.value, feedback.items, render);
      match upstream(q)
      case Some(text) => Exchange(Response(200, ImprovedPitch(text)), [q])
      case None => Exchange(Response(500, Error("Failed to improve pitch")), [q])
  }

  /** check-password says valid exactly when the two other endpoints let the
      same password past their first guard. */
  lemma PasswordCheckMatchesGuards<V>(password: Option<string>, secret: Option<string>,
                                      pitch: Option<string>, dragonIds: Field<string>,
                                      feedback: Field<Feedback<V>>, upstream: Oracle,
                                      parse: string -> Option<map<string, V>>, render: V -> string)
    ensures CheckPassword<V>(password, secret).body.valid
      <==> EvaluatePitch(pitch, dragonIds, password, secret, upstream, parse).response.status != 401
    ensures CheckPassword<V>(password, secret).body.valid
      <==> ImprovePitch(pitch, feedback, password, secret, upstream, render).response.status != 401
  {
    if Authorized(password, secret) {
      var x := EvaluatePitch(pitch, dragonIds, password, secret, upstream, parse);
      if Truthy(pitch) && dragonIds.Array? {
        assert x.response.status == 200 || x.response.status == 500;
      }
    }
  }

  /** With a secret configured, the empty password is refused. */
  lemma EmptyPasswordRefused<V>(secret: Option<string>)
    requires secret.Some? && secret.value != ""
    ensures CheckPassword<V>(Some(""), secret) == Response(401, PasswordCheck(false))
  {
  }

  /** With CLASS_PASSWORD unset, a body that omits the password passes the
      guard (undefined === undefined). */
  lemma UnsetSecretAdmitsOmittedPassword<V>()
    ensures CheckPassword<V>(None, None) == Response(200, PasswordCheck(true))
  {
  }

  /** An empty id list passes the shape check and yields an empty batch
      without calling upstream. */
  lemma EmptyIdListAccepted<V>(pitch: string, password: string, upstream: Oracle,
                               parse: string -> Option<map<string, V>>)
    requires pitch != ""
    ensures EvaluatePitch(Some(pitch), Array([]), Some(password), Some(password), upstream, parse)
      == Exchange(Response(200, Evaluations([])), [])
  {
  }

  /** One failing persona fails the batch with a 500 and no partial list,
      while every persona's request has still been issued. */
  lemma OneFailureFailsBatch<V>(pitch: string, ids: seq<string>, k: nat,
                                password: Option<string>, upstream: Oracle,
                                parse: string -> Option<map<string, V>>)
    requires pitch != "" && k < |ids|
    requires DragonFeedback(ids[k], pitch, upstream, parse).Failure?
    ensures var x := EvaluatePitch(Some(pitch), Array(ids), password, password, upstream, parse);
      x.response == Response(500, Error("Failed to get dragon feedback"))
      && x.calls == DragonRequests(ids, pitch)
  {
  }

  /** An id outside the table raises no error of its own: its request still
      goes upstream, with no system prompt, and a reply holding an object
      that parses yields a record under that id. */
  lemma UnknownIdStillEvaluated<V>(id: string, pitch: string, upstream: Oracle,
                                   parse: string -> Option<map<string, V>>)
    requires id !in KnownIds
    ensures PersonaCallWire(id, pitch).system.None?
    ensures var reply := upstream(DragonRequest(id, pitch));
      (reply.Some? && JsonSpan(reply.value).Some?
       && parse(Matched(reply.value, JsonSpan(reply.value).value)).Some?)
      ==>
      (DragonFeedback(id, pitch, upstream, parse).Success?
       && DragonFeedback(id, pitch, upstream, parse).value.dragonId == id)
  {
  }
}
