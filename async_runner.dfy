/**
 * `AsyncFamilyGraphRunner` without its threads: what each background `run()`
 * does once the synchronous call has returned a body or thrown. The Java
 * `catch` clauses are tried in their written order, and the first one whose
 * class matches the thrown exception picks the single listener call; an
 * exception that no clause catches ends the thread with no call at all.
 */
module AsyncRunner {
  import opened Wrappers
  import opened JavaLang
  import opened Bundles
  import opened FamilyGraphErrors
  import opened Sessions
  import opened Requests
  import opened Client

  /** The caller's `state` object, handed back untouched; null by default. */
  datatype CallbackState = NullState | StateObject(id: nat)

  /** One call on a RequestListener. */
  datatype RequestCall =
    | OnComplete(response: string, state: CallbackState)
    | OnIOException(exception: Fault, state: CallbackState)
    | OnFileNotFoundException(exception: Fault, state: CallbackState)
    | OnMalformedURLException(exception: Fault, state: CallbackState)
    | OnFamilyGraphError(error: FamilyGraphError, state: CallbackState)

  datatype CatchClause = CatchFileNotFound | CatchMalformedUrl | CatchIO

  /** Whether `catch (X e)` catches `f`: FileNotFoundException and
      MalformedURLException are themselves IOExceptions. */
  predicate Catches(c: CatchClause, f: Fault) {
    match c
    case CatchFileNotFound => f == FileNotFound
    case CatchMalformedUrl => f == MalformedUrl
    case CatchIO => IsIOException(f)
  }

  /** The clauses of both `run()` bodies, in source order. */
  const RunCatches: seq<CatchClause> := [CatchFileNotFound, CatchMalformedUrl, CatchIO]

  /** The index of the first clause that catches `f`, as the JVM chooses it. */
  function FirstCatch(clauses: seq<CatchClause>, f: Fault): (r: Option<nat>)
    ensures r.Some? ==> r.value < |clauses| && Catches(clauses[r.value], f)
    ensures r.Some? ==> forall j :: 0 <= j < r.value ==> !Catches(clauses[j], f)
    ensures r.None? ==> forall j :: 0 <= j < |clauses| ==> !Catches(clauses[j], f)
  {
    if |clauses| == 0 then None
    else if Catches(clauses[0], f) then Some(0)
    else
      match FirstCatch(clauses[1..], f)
      case None => None
      case Some(i) => Some(i + 1)
  }

  function Handler(c: CatchClause, f: Fault, state: CallbackState): (r: RequestCall) {
    match c
    case CatchFileNotFound => OnFileNotFoundException(f, state)
    case CatchMalformedUrl => OnMalformedURLException(f, state)
    case CatchIO => OnIOException(f, state)
  }

  /** The listener call the catch clauses make for `f`, if any. */
  function Caught(f: Fault, state: CallbackState): (r: Option<RequestCall>) {
    match FirstCatch(RunCatches, f)
    case None => None
    case Some(i) => Some(Handler(RunCatches[i], f, state))
  }

  /** `run()` of `request`: the body goes to `onComplete` unchanged. */
  function RequestDelivery(r: Response, state: CallbackState): (call: Option<RequestCall>) {
    match r
    case Body(text) => Some(OnComplete(text, state))
    case Raised(f) => Caught(f, state)
  }

  /** The logout responses reported as failures. */
  predicate LogoutFailed(response: string) {
    |response| == 0 || response == "false"
  }

  /** `run()` of `logout`. */
  function LogoutDelivery(r: Response, state: CallbackState): (call: Option<RequestCall>) {
    match r
    case Body(text) =>
      if LogoutFailed(text) then Some(OnFamilyGraphError(NewError("logout failed"), state))
      else Some(OnComplete(text, state))
    case Raised(f) => Caught(f, state)
  }

  /** The specific handlers come before the IOException one, so each
      IOException kind reaches its own callback; anything else is not caught. */
  lemma CatchOrder(state: CallbackState, f: Fault)
    ensures Caught(FileNotFound, state) == Some(OnFileNotFoundException(FileNotFound, state))
    ensures Caught(MalformedUrl, state) == Some(OnMalformedURLException(MalformedUrl, state))
    ensures Caught(OtherIO, state) == Some(OnIOException(OtherIO, state))
    ensures !IsIOException(f) ==> Caught(f, state) == None
  {
    assert Catches(RunCatches[0], FileNotFound);
    assert !Catches(RunCatches[0], MalformedUrl) && Catches(RunCatches[1], MalformedUrl);
    assert !Catches(RunCatches[0], OtherIO) && !Catches(RunCatches[1], OtherIO) && Catches(RunCatches[2], OtherIO);
  }

  function CallState(c: RequestCall): (r: CallbackState) {
    c.state
  }

  /** A request calls its listener exactly once when it returns or throws an
      IOException, never otherwise, and always with the caller's state. */
  lemma RequestCallsOnce(r: Response, state: CallbackState)
    ensures RequestDelivery(r, state).Some? <==> r.Body? || IsIOException(r.fault)
    ensures RequestDelivery(r, state).Some? ==> CallState(RequestDelivery(r, state).value) == state
    ensures r.Body? ==> RequestDelivery(r, state) == Some(OnComplete(r.text, state))
  {
    if r.Raised? {
      CatchOrder(state, r.fault);
    }
  }

  /** The same for logout; an empty or "false" body is reported as the
      FamilyGraphError "logout failed" and never as a completion. */
  lemma LogoutCallsOnce(r: Response, state: CallbackState)
    ensures LogoutDelivery(r, state).Some? <==> r.Body? || IsIOException(r.fault)
    ensures LogoutDelivery(r, state).Some? ==> CallState(LogoutDelivery(r, state).value) == state
    ensures r.Body? && LogoutFailed(r.text) ==>
              LogoutDelivery(r, state) == Some(OnFamilyGraphError(NewError("logout failed"), state))
    ensures r.Body? && !LogoutFailed(r.text) ==> LogoutDelivery(r, state) == Some(OnComplete(r.text, state))
  {
    if r.Raised? {
      CatchOrder(state, r.fault);
    }
  }

  class AsyncFamilyGraphRunner {
    const fg: FamilyGraph

    constructor (fg: FamilyGraph)
      ensures this.fg == fg
    {
      this.fg := fg;
    }

    /** `logout(context, listener, state)`: the client's logout always answers
        "true", so the listener always sees a completion, and the session is gone. */
    method Logout(state: CallbackState) returns (call: Option<RequestCall>)
      modifies fg`accessToken, fg`accessExpires
      ensures fg.CurrentSession() == NoSession
      ensures forall now: Long :: !fg.IsSessionValid(now)
      ensures call == LogoutDelivery(Body("true"), state) == Some(OnComplete("true", state))
    {
      var response := fg.Logout();
      call := LogoutDelivery(Body(response), state);
    }

    /** `logout(context, listener)`: a null state. */
    method LogoutNoState() returns (call: Option<RequestCall>)
      modifies fg`accessToken, fg`accessExpires
      ensures fg.CurrentSession() == NoSession
      ensures call == Some(OnComplete("true", NullState))
    {
      call := Logout(NullState);
    }

    /** `request(graphPath, parameters, httpMethod, listener, state)`. */
    method Request(graphPath: string, parameters: Bundle, httpMethod: string, state: CallbackState,
                   now: Long, openUrl: Transport) returns (call: Option<RequestCall>)
      modifies parameters
      ensures parameters.entries == WithBearer(old(parameters.entries), fg.CurrentSession(), now)
      ensures call == RequestDelivery(openUrl(GraphBaseUrl + graphPath, httpMethod, parameters.entries), state)
    {
      var resp := fg.Request(graphPath, parameters, httpMethod, now, openUrl);
      call := RequestDelivery(resp, state);
    }

    /** `request(graphPath, parameters, listener, state)`: a GET. */
    method RequestWithParams(graphPath: string, parameters: Bundle, state: CallbackState,
                             now: Long, openUrl: Transport) returns (call: Option<RequestCall>)
      modifies parameters
      ensures parameters.entries == WithBearer(old(parameters.entries), fg.CurrentSession(), now)
      ensures call == RequestDelivery(openUrl(GraphBaseUrl + graphPath, "GET", parameters.entries), state)
    {
      call := Request(graphPath, parameters, "GET", state, now, openUrl);
    }

    /** `request(graphPath, parameters, listener)`: a GET with a null state. */
    method RequestWithParamsNoState(graphPath: string, parameters: Bundle, now: Long, openUrl: Transport)
      returns (call: Option<RequestCall>)
      modifies parameters
      ensures parameters.entries == WithBearer(old(parameters.entries), fg.CurrentSession(), now)
      ensures call == RequestDelivery(openUrl(GraphBaseUrl + graphPath, "GET", parameters.entries), NullState)
    {
      call := Request(graphPath, parameters, "GET", NullState, now, openUrl);
    }

    /** `request(graphPath, listener, state)`: a GET with an empty Bundle. */
    method RequestPath(graphPath: string, state: CallbackState, now: Long, openUrl: Transport)
      returns (call: Option<RequestCall>)
      ensures call == RequestDelivery(openUrl(GraphBaseUrl + graphPath, "GET", WithBearer(map[], fg.CurrentSession(), now)), state)
    {
      var parameters := new Bundle();
      call := Request(graphPath, parameters, "GET", state, now, openUrl);
    }

    /** `request(graphPath, listener)`: a GET with an empty Bundle and a null state. */
    method RequestPathNoState(graphPath: string, now: Long, openUrl: Transport) returns (call: Option<RequestCall>)
      ensures call == RequestDelivery(openUrl(GraphBaseUrl + graphPath, "GET", WithBearer(map[], fg.CurrentSession(), now)), NullState)
    {
      var parameters := new Bundle();
      call := Request(graphPath, parameters, "GET", NullState, now, openUrl);
    }
  }
}
