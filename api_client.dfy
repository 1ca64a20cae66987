/**
 * The transport client of the browser application: the classified errors, the
 * response unwrapping, the four error interceptors and the two clients that
 * register them (the redirecting default client and the non-redirecting one).
 *
 * A failed call runs through every registered handler in registration order, as
 * a chain of `.then(onFulfilled, onRejected)`: each error handler receives what
 * the previous one threw, and a handler that resolves makes every later error
 * handler be skipped. The report to the error-monitoring service and the
 * assignment to `window.location` are recorded as the `reports` and
 * `navigations` of a step.
 */
module ApiClient {
  import opened Wrappers
  import opened JsStrings

  // ----- Error taxonomy -----

  /** The literal every validation message from the server starts with. */
  const ValidationErrorPrefix: string := "Validation Error: "

  /** `ApiValidationError.isValidationErrorMessage`. */
  predicate IsValidationErrorMessage(message: string)
    ensures IsValidationErrorMessage(message) <==> ValidationErrorPrefix <= message
    ensures IsValidationErrorMessage(message) ==>
      message == ValidationErrorPrefix + message[|ValidationErrorPrefix|..]
  {
    StartsWith(message, ValidationErrorPrefix)
  }

  /**
   * The `code` the `ApiValidationError` constructor stores: the message with the
   * first occurrence of the prefix removed. For a validation message that is
   * exactly the leading prefix, so prefix and code rebuild the message.
   */
  function ValidationCode(message: string): (code: string)
    ensures IsValidationErrorMessage(message) ==> ValidationErrorPrefix + code == message
    ensures (forall j: nat :: !OccursAt(message, ValidationErrorPrefix, j)) ==> code == message
  {
    ReplaceFirst(message, ValidationErrorPrefix, "")
  }

  /** Prefixing a code and constructing the error gives the code back. */
  lemma ValidationCodeRoundTrip(code: string)
    ensures IsValidationErrorMessage(ValidationErrorPrefix + code)
    ensures ValidationCode(ValidationErrorPrefix + code) == code
  {
    var message := ValidationErrorPrefix + code;
    assert message[..|ValidationErrorPrefix|] == ValidationErrorPrefix;
  }

  /** The parsed body of an HTTP response, `response.data`. */
  datatype Body =
    | Absent                            // undefined or null
    | Text(text: string)                // a string body
    | Record(fields: map<string, string>)  // a JSON object

  /** JavaScript truthiness of a body. */
  predicate Truthy(b: Body) {
    match b
    case Absent => false
    case Text(t) => t != ""
    case Record(_) => true
  }

  /** `data.location` of a present body; a string has no such property. */
  function Location(b: Body): Option<string> {
    if b.Record? && "location" in b.fields then Some(b.fields["location"]) else None
  }

  /** JavaScript truthiness of an optional string. */
  predicate TruthyString(s: Option<string>) {
    s.Some? && s.value != ""
  }

  /** An HTTP response as axios gives it. */
  datatype Response = Response(status: int, data: Body)

  /** What a rejected call carries. */
  datatype Error =
    | Transport(response: Option<Response>)  // an AxiosError, with the response when one arrived
    | Unauthenticated                         // UnauthenticatedError
    | ApiValidation(code: string)             // ApiValidationError
    | ApiData(data: Body)                     // ApiDataError
    | TypeError                               // reading `.location` of an absent body

  /** `error.response`: only an AxiosError carries one. */
  function ResponseOf(e: Error): Option<Response> {
    if e.Transport? then e.response else None
  }

  /** What a fulfilled call carries. */
  datatype Value =
    | Envelope(response: Response)  // the AxiosResponse itself
    | Payload(data: Body)           // its unwrapped data
    | Undefined                     // what the redirect handler resolves with

  datatype Outcome = Resolved(value: Value) | Rejected(error: Error)

  /** The value a handler assigns to `window.location`, if it assigns one. */
  datatype Navigation = Stay | NavigateTo(target: Option<string>)

  /** The settlement of one handler, with its reports and its navigation. */
  datatype Step = Step(outcome: Outcome, reports: nat, navigation: Navigation)

  /** The handler throws the error it was given and does nothing else. */
  function Rethrow(e: Error): Step {
    Step(Rejected(e), 0, Stay)
  }

  // ----- Success path -----

  /** `unwrapResponseInterceptor`: the data of an envelope whose data is truthy, otherwise the value itself. */
  function UnwrapResponse(v: Value): (r: Value)
    ensures v.Envelope? && Truthy(v.response.data) ==> r == Payload(v.response.data)
    ensures !(v.Envelope? && Truthy(v.response.data)) ==> r == v
    ensures r.Envelope? ==> !Truthy(r.response.data)
  {
    if v.Envelope? && Truthy(v.response.data) then Payload(v.response.data) else v
  }

  // ----- The error interceptors -----

  /** `unauthenticatedRedirectInterceptor`. */
  function UnauthenticatedRedirectInterceptor(e: Error): (s: Step)
    ensures s.reports == 0
    ensures s == Rethrow(e) <==> ResponseOf(e).None? || ResponseOf(e).value.status != 401
    ensures s.outcome.Resolved? <==> ResponseOf(e).Some? && ResponseOf(e).value.status == 401 && !ResponseOf(e).value.data.Absent?
    ensures s.outcome.Resolved? ==>
      s.outcome.value == Undefined && s.navigation == NavigateTo(Location(ResponseOf(e).value.data))
    ensures !s.outcome.Resolved? ==> s.navigation == Stay
    ensures e.Transport? ==>
      (s.outcome == Rejected(TypeError) <==> ResponseOf(e).Some? && ResponseOf(e).value.status == 401 && ResponseOf(e).value.data.Absent?)
  {
    match ResponseOf(e)
    case None => Rethrow(e)
    case Some(r) =>
      if r.status != 401 then Rethrow(e)
      else if r.data.Absent? then Step(Rejected(TypeError), 0, Stay)
      else Step(Resolved(Undefined), 0, NavigateTo(Location(r.data)))
  }

  /** `unauthenticatedThrowInterceptor`. */
  function UnauthenticatedThrowInterceptor(e: Error): (s: Step)
    ensures s.reports == 0 && s.navigation == Stay && s.outcome.Rejected?
    ensures e.Transport? ==>
      (s.outcome == Rejected(Unauthenticated) <==>
        ResponseOf(e).Some? && ResponseOf(e).value.status == 401 && TruthyString(Location(ResponseOf(e).value.data)))
    ensures e.Transport? ==>
      (s.outcome == Rejected(TypeError) <==> ResponseOf(e).Some? && ResponseOf(e).value.status == 401 && ResponseOf(e).value.data.Absent?)
    ensures s == Rethrow(e) <==>
      ResponseOf(e).None? || ResponseOf(e).value.status != 401 ||
      (!ResponseOf(e).value.data.Absent? && !TruthyString(Location(ResponseOf(e).value.data)))
  {
    match ResponseOf(e)
    case None => Rethrow(e)
    case Some(r) =>
      if r.status != 401 then Rethrow(e)
      else if r.data.Absent? then Step(Rejected(TypeError), 0, Stay)
      else if !TruthyString(Location(r.data)) then Rethrow(e)
      else Step(Rejected(Unauthenticated), 0, Stay)
  }

  /** `badRequestInterceptor`. */
  function BadRequestInterceptor(e: Error): (s: Step)
    ensures s.reports == 0 && s.navigation == Stay && s.outcome.Rejected?
    ensures s == Rethrow(e) <==> ResponseOf(e).None? || ResponseOf(e).value.status != 400
    ensures ResponseOf(e).Some? && ResponseOf(e).value.status == 400 ==>
      var data := ResponseOf(e).value.data;
      if data.Text? && IsValidationErrorMessage(data.text)
      then s.outcome.error.ApiValidation? && ValidationErrorPrefix + s.outcome.error.code == data.text
      else s.outcome == Rejected(ApiData(data))
  {
    match ResponseOf(e)
    case None => Rethrow(e)
    case Some(r) =>
      if r.status != 400 then Rethrow(e)
      else if r.data.Text? && IsValidationErrorMessage(r.data.text) then
        Step(Rejected(ApiValidation(ValidationCode(r.data.text))), 0, Stay)
      else Step(Rejected(ApiData(r.data)), 0, Stay)
  }

  /** `apiDataErrorInterceptor`. */
  function ApiDataErrorInterceptor(e: Error): (s: Step)
    ensures s.navigation == Stay && s.outcome.Rejected?
    ensures s == Rethrow(e) <==> ResponseOf(e).None? || !Truthy(ResponseOf(e).value.data)
    ensures s != Rethrow(e) ==> s.reports == 1 && s.outcome == Rejected(ApiData(ResponseOf(e).value.data))
  {
    match ResponseOf(e)
    case None => Rethrow(e)
    case Some(r) =>
      if !Truthy(r.data) then Rethrow(e)
      else Step(Rejected(ApiData(r.data)), 1, Stay)
  }

  /** `defaultErrorInterceptor`: one report, and the same error thrown on. */
  function DefaultErrorInterceptor(e: Error): (s: Step)
    ensures s.outcome == Rejected(e) && s.reports == 1 && s.navigation == Stay
  {
    Step(Rejected(e), 1, Stay)
  }

  datatype Interceptor =
    | UnauthenticatedRedirect
    | UnauthenticatedThrow
    | BadRequest
    | ApiDataErr
    | DefaultErr

  function Intercept(h: Interceptor, e: Error): Step {
    match h
    case UnauthenticatedRedirect => UnauthenticatedRedirectInterceptor(e)
    case UnauthenticatedThrow => UnauthenticatedThrowInterceptor(e)
    case BadRequest => BadRequestInterceptor(e)
    case ApiDataErr => ApiDataErrorInterceptor(e)
    case DefaultErr => DefaultErrorInterceptor(e)
  }

  // ----- The chain -----

  /** One registration `use(onFulfilled, onRejected)`: the unwrapper, or one error interceptor. */
  datatype Handler = OnFulfilled | OnRejected(interceptor: Interceptor)

  /** The state of a call between handlers: its outcome so far, all reports, all navigations. */
  datatype Trace = Trace(outcome: Outcome, reports: nat, navigations: seq<Option<string>>)

  function NavigationsOf(n: Navigation): seq<Option<string>> {
    if n.NavigateTo? then [n.target] else []
  }

  /** `.then(onFulfilled, onRejected)` of one handler: only the matching half runs. */
  function Then(t: Trace, h: Handler): Trace {
    match t.outcome
    case Resolved(v) =>
      if h.OnFulfilled? then t.(outcome := Resolved(UnwrapResponse(v))) else t
    case Rejected(e) =>
      if h.OnFulfilled? then t
      else
        var s := Intercept(h.interceptor, e);
        Trace(s.outcome, t.reports + s.reports, t.navigations + NavigationsOf(s.navigation))
  }

  /**
   * The call settling through the handlers in registration order. Effects only
   * accumulate, and a resolved call stays resolved with no further effect.
   */
  function Settle(hs: seq<Handler>, t: Trace): (r: Trace)
    ensures r.reports >= t.reports
    ensures |r.navigations| >= |t.navigations| && r.navigations[..|t.navigations|] == t.navigations
    ensures t.outcome.Resolved? ==> r.outcome.Resolved? && r.reports == t.reports && r.navigations == t.navigations
  {
    if hs == [] then t else Settle(hs[1..], Then(t, hs[0]))
  }

  /** Settling through two lists of handlers is settling through the first, then the second. */
  lemma {:induction false} SettleAppend(a: seq<Handler>, b: seq<Handler>, t: Trace)
    ensures Settle(a + b, t) == Settle(b, Settle(a, t))
  {
    if a != [] {
      assert (a + b)[0] == a[0] && (a + b)[1..] == a[1..] + b;
      SettleAppend(a[1..], b, Then(t, a[0]));
    } else {
      assert a + b == b;
    }
  }

  // ----- The two clients -----

  /** How a client reacts to a 401: navigate away, or throw `UnauthenticatedError`. */
  datatype Strategy = Redirect | Throw

  function UnauthenticatedInterceptor(s: Strategy): Interceptor {
    if s == Redirect then UnauthenticatedRedirect else UnauthenticatedThrow
  }

  /** The error interceptors a client registers, in order. */
  function ErrorInterceptors(s: Strategy): (hs: seq<Interceptor>)
    ensures |hs| == 4 && hs[0] == UnauthenticatedInterceptor(s)
    ensures hs[1..] == [BadRequest, ApiDataErr, DefaultErr]
  {
    [UnauthenticatedInterceptor(s), BadRequest, ApiDataErr, DefaultErr]
  }

  /** Every handler of a client: the unwrapper, then each error interceptor as an error-only handler. */
  function RegisteredHandlers(s: Strategy): (hs: seq<Handler>)
    ensures |hs| == 5 && hs[0] == OnFulfilled
    ensures forall k :: 1 <= k < 5 ==> hs[k] == OnRejected(ErrorInterceptors(s)[k - 1])
  {
    [OnFulfilled] + ErrorHandlers(ErrorInterceptors(s))
  }

  function ErrorHandlers(list: seq<Interceptor>): (hs: seq<Handler>)
    ensures |hs| == |list| && forall k :: 0 <= k < |list| ==> hs[k] == OnRejected(list[k])
  {
    if list == [] then [] else [OnRejected(list[0])] + ErrorHandlers(list[1..])
  }

  /** The two clients register the same handlers in the same order but for the unauthenticated one. */
  lemma ClientsDifferOnlyInUnauthenticatedHandler()
    ensures |RegisteredHandlers(Redirect)| == |RegisteredHandlers(Throw)| == 5
    ensures forall k :: 0 <= k < 5 && k != 1 ==> RegisteredHandlers(Redirect)[k] == RegisteredHandlers(Throw)[k]
    ensures RegisteredHandlers(Redirect)[1] == OnRejected(UnauthenticatedRedirect)
    ensures RegisteredHandlers(Throw)[1] == OnRejected(UnauthenticatedThrow)
  {
  }

  /** An axios instance with its response interceptors. */
  class Client {
    var handlers: seq<Handler>

    /** `axios.create()` followed by the registrations of the chosen client. */
    constructor Create(strategy: Strategy)
      ensures handlers == RegisteredHandlers(strategy)
      ensures forall transport :: Respond(transport) == Pipeline(strategy, transport)
    {
      handlers := [];
      new;
      Use(OnFulfilled);
      var interceptors := ErrorInterceptors(strategy);
      for i := 0 to |interceptors|
        invariant handlers == [OnFulfilled] + ErrorHandlers(interceptors[..i])
      {
        ErrorHandlersAppend(interceptors[..i], interceptors[i]);
        assert interceptors[..i + 1] == interceptors[..i] + [interceptors[i]];
        Use(OnRejected(interceptors[i]));
      }
      assert interceptors[..|interceptors|] == interceptors;
    }

    /** `interceptors.response.use(...)`: appends one handler. */
    method Use(h: Handler)
      modifies this
      ensures handlers == old(handlers) + [h]
    {
      handlers := handlers + [h];
    }

    /** A call whose transport settled with `transport`, as the caller sees it. */
    function Respond(transport: Outcome): (r: Trace)
      reads this
      ensures transport.Resolved? ==> r.outcome.Resolved? && r.reports == 0 && r.navigations == []
    {
      Settle(handlers, Trace(transport, 0, []))
    }
  }

  lemma ErrorHandlersAppend(list: seq<Interceptor>, i: Interceptor)
    ensures ErrorHandlers(list + [i]) == ErrorHandlers(list) + [OnRejected(i)]
  {
    var hs := ErrorHandlers(list + [i]);
    assert forall k :: 0 <= k < |list| ==> hs[k] == OnRejected((list + [i])[k]) == ErrorHandlers(list)[k];
  }

  /** What a client created with strategy `s` gives its caller. */
  function Pipeline(s: Strategy, transport: Outcome): (r: Trace)
    ensures transport.Resolved? ==> r.outcome.Resolved? && r.reports == 0 && r.navigations == []
  {
    Settle(RegisteredHandlers(s), Trace(transport, 0, []))
  }

  // ----- What the chain does with a failure, as registered -----

  /**
   * The terminal trace of a failed call, read off the failure in one match:
   * the reference the registered chain is proved against.
   */
  function AsRegistered(s: Strategy, failure: Option<Response>): Trace {
    match failure
    case None => Trace(Rejected(Transport(None)), 1, [])
    case Some(r) =>
      if r.status == 401 && r.data.Absent? then Trace(Rejected(TypeError), 1, [])
      else if r.status == 401 && s == Redirect then Trace(Resolved(Undefined), 0, [Location(r.data)])
      else if r.status == 401 && TruthyString(Location(r.data)) then Trace(Rejected(Unauthenticated), 1, [])
      else if r.status == 400 && r.data.Text? && IsValidationErrorMessage(r.data.text) then
        Trace(Rejected(ApiValidation(ValidationCode(r.data.text))), 1, [])
      else if r.status == 400 then Trace(Rejected(ApiData(r.data)), 1, [])
      else if Truthy(r.data) then Trace(Rejected(ApiData(r.data)), 2, [])
      else Trace(Rejected(Transport(failure)), 1, [])
  }

  /** The registered chain settles a failed call exactly as `AsRegistered` reads it. */
  lemma PipelineOnFailure(s: Strategy, failure: Option<Response>)
    ensures Pipeline(s, Rejected(Transport(failure))) == AsRegistered(s, failure)
  {
    PipelineErrorSteps(s, Transport(failure));
    match s
    case Redirect => RedirectClientSteps(failure);
    case Throw => ThrowClientSteps(failure);
  }

  /** The error interceptors of the redirect client applied in turn to a failure. */
  lemma RedirectClientSteps(failure: Option<Response>)
    ensures ErrorSteps(Redirect, Transport(failure)) == AsRegistered(Redirect, failure)
  {
    var t0 := Trace(Rejected(Transport(failure)), 0, []);
    var t2 := Then(t0, OnRejected(UnauthenticatedRedirect));
    if failure.Some? && failure.value.status == 401 && failure.value.data.Absent? {
      assert t2 == Trace(Rejected(TypeError), 0, []);
      ClassifiedErrorIsReported(TypeError);
    } else if failure.Some? && failure.value.status == 401 {
      var r := failure.value;
      assert t2 == Trace(Resolved(Undefined), 0, [Location(r.data)]);
      ResolvedPassesErrorInterceptors(t2);
      assert AsRegistered(Redirect, failure) == t2;
    } else {
      assert t2 == t0;
      UnclaimedFailureSteps(failure);
    }
  }

  /** The error interceptors of the throw client applied in turn to a failure. */
  lemma ThrowClientSteps(failure: Option<Response>)
    ensures ErrorSteps(Throw, Transport(failure)) == AsRegistered(Throw, failure)
  {
    var t0 := Trace(Rejected(Transport(failure)), 0, []);
    var t2 := Then(t0, OnRejected(UnauthenticatedThrow));
    if failure.Some? && failure.value.status == 401 && failure.value.data.Absent? {
      assert t2 == Trace(Rejected(TypeError), 0, []);
      ClassifiedErrorIsReported(TypeError);
    } else if failure.Some? && failure.value.status == 401 && TruthyString(Location(failure.value.data)) {
      assert t2 == Trace(Rejected(Unauthenticated), 0, []);
      ClassifiedErrorIsReported(Unauthenticated);
      assert AsRegistered(Throw, failure) == Trace(Rejected(Unauthenticated), 1, []);
    } else {
      assert t2 == t0;
      UnclaimedFailureSteps(failure);
    }
  }

  /** A failure the unauthenticated interceptor passed on unchanged, through the last three. */
  lemma UnclaimedFailureSteps(failure: Option<Response>)
    requires failure.Some? && failure.value.status == 401 ==>
      !failure.value.data.Absent? && !TruthyString(Location(failure.value.data))
    ensures forall s: Strategy :: s == Throw || failure.None? || failure.value.status != 401 ==>
      var t0 := Trace(Rejected(Transport(failure)), 0, []);
      Then(Then(Then(t0, OnRejected(BadRequest)), OnRejected(ApiDataErr)), OnRejected(DefaultErr)) == AsRegistered(s, failure)
  {
    match failure
    case None =>
      ClassifiedErrorIsReported(Transport(None));
    case Some(r) =>
      LaterSteps(r);
  }

  /** An error without a response passes the last three interceptors with one report. */
  lemma ClassifiedErrorIsReported(e: Error)
    requires ResponseOf(e).None?
    ensures var t := Trace(Rejected(e), 0, []);
      Then(Then(Then(t, OnRejected(BadRequest)), OnRejected(ApiDataErr)), OnRejected(DefaultErr)) == Trace(Rejected(e), 1, [])
  {
    var t := Trace(Rejected(e), 0, []);
    var r := Then(Then(Then(t, OnRejected(BadRequest)), OnRejected(ApiDataErr)), OnRejected(DefaultErr));
    assert r.outcome == Rejected(e) && r.reports == 1 && r.navigations == [];
  }

  /** Error-only interceptors leave a resolved call as it is. */
  lemma ResolvedPassesErrorInterceptors(t: Trace)
    requires t.outcome.Resolved?
    ensures Then(Then(Then(t, OnRejected(BadRequest)), OnRejected(ApiDataErr)), OnRejected(DefaultErr)) == t
  {
  }

  /** The three interceptors after the unauthenticated one, applied to an error with a response. */
  lemma LaterSteps(r: Response)
    ensures var t0 := Trace(Rejected(Transport(Some(r))), 0, []);
      Then(Then(Then(t0, OnRejected(BadRequest)), OnRejected(ApiDataErr)), OnRejected(DefaultErr)) ==
      if r.status == 400 then
        Trace(BadRequestInterceptor(Transport(Some(r))).outcome, 1, [])
      else if Truthy(r.data) then Trace(Rejected(ApiData(r.data)), 2, [])
      else Trace(Rejected(Transport(Some(r))), 1, [])
  {
    var t0 := Trace(Rejected(Transport(Some(r))), 0, []);
    if r.status == 400 {
      var t3 := Then(t0, OnRejected(BadRequest));
      assert t3 == Trace(BadRequestInterceptor(Transport(Some(r))).outcome, 0, []);
      assert Then(t3, OnRejected(ApiDataErr)) == t3;
    } else {
      assert Then(t0, OnRejected(BadRequest)) == t0;
    }
  }

  /** The four error interceptors of a client run in turn on `e`. */
  function ErrorSteps(s: Strategy, e: Error): Trace {
    Then(Then(Then(Then(Trace(Rejected(e), 0, []), OnRejected(UnauthenticatedInterceptor(s))),
      OnRejected(BadRequest)), OnRejected(ApiDataErr)), OnRejected(DefaultErr))
  }

  /** A rejected call runs through the four error interceptors in registration order. */
  lemma PipelineErrorSteps(s: Strategy, e: Error)
    ensures Pipeline(s, Rejected(e)) == ErrorSteps(s, e)
  {
    var hs := RegisteredHandlers(s);
    assert hs == [OnFulfilled, OnRejected(UnauthenticatedInterceptor(s)), OnRejected(BadRequest),
                  OnRejected(ApiDataErr), OnRejected(DefaultErr)];
    SettleFive(hs, Trace(Rejected(e), 0, []));
  }

  /** Settling through five handlers is running each of them in turn. */
  lemma SettleFive(hs: seq<Handler>, t: Trace)
    requires |hs| == 5
    ensures Settle(hs, t) == Then(Then(Then(Then(Then(t, hs[0]), hs[1]), hs[2]), hs[3]), hs[4])
  {
    var t1 := Then(t, hs[0]);
    var t2 := Then(t1, hs[1]);
    var t3 := Then(t2, hs[2]);
    var t4 := Then(t3, hs[3]);
    SettleStep(hs, 0, t);
    SettleStep(hs, 1, t1);
    SettleStep(hs, 2, t2);
    SettleStep(hs, 3, t3);
    SettleStep(hs, 4, t4);
    assert hs[0..] == hs && hs[5..] == [];
  }

  /** Settling from handler `k` on is running handler `k`, then settling from `k + 1`. */
  lemma SettleStep(hs: seq<Handler>, k: nat, t: Trace)
    requires k < |hs|
    ensures Settle(hs[k..], t) == Settle(hs[k + 1..], Then(t, hs[k]))
  {
    assert hs[k..][0] == hs[k] && hs[k..][1..] == hs[k + 1..];
  }

  /** Every failure settles once: resolved only by a redirect, and then with no report. */
  lemma FailureSettlement(s: Strategy, failure: Option<Response>)
    ensures var t := Pipeline(s, Rejected(Transport(failure)));
      1 <= t.reports + |t.navigations| && t.reports <= 2 && |t.navigations| <= 1 &&
      (t.outcome.Resolved? <==> |t.navigations| == 1) &&
      (t.outcome.Resolved? <==> t.reports == 0) &&
      (t.outcome.Resolved? ==> s == Redirect && t.outcome.value == Undefined)
  {
    PipelineOnFailure(s, failure);
    AsRegisteredSettlement(s, failure);
  }

  /** The reference table's rows: each failure navigates once or is reported once or twice. */
  lemma AsRegisteredSettlement(s: Strategy, failure: Option<Response>)
    ensures var t := AsRegistered(s, failure);
      1 <= t.reports + |t.navigations| && t.reports <= 2 && |t.navigations| <= 1 &&
      (t.outcome.Resolved? <==> |t.navigations| == 1) &&
      (t.outcome.Resolved? <==> t.reports == 0) &&
      (t.outcome.Resolved? ==> s == Redirect && t.outcome.value == Undefined)
  {
  }

  /** Redirect client, 401 with a body: navigates to `data.location`, even when it is undefined, and resolves. */
  lemma RedirectClientOn401(r: Response)
    requires r.status == 401 && !r.data.Absent?
    ensures Pipeline(Redirect, Rejected(Transport(Some(r)))) == Trace(Resolved(Undefined), 0, [Location(r.data)])
  {
    PipelineOnFailure(Redirect, Some(r));
  }

  /** Either client, 401 without a body: reading `data.location` throws a TypeError, which is reported. */
  lemma ClientsOn401WithoutBody(s: Strategy)
    ensures Pipeline(s, Rejected(Transport(Some(Response(401, Absent))))) == Trace(Rejected(TypeError), 1, [])
  {
    PipelineOnFailure(s, Some(Response(401, Absent)));
  }

  /** Throw client, 401 with a truthy location: `UnauthenticatedError`, no navigation. */
  lemma ThrowClientOn401(r: Response)
    requires r.status == 401 && TruthyString(Location(r.data))
    ensures var t := Pipeline(Throw, Rejected(Transport(Some(r))));
      t.outcome == Rejected(Unauthenticated) && t.navigations == [] && t.reports == 1
  {
    PipelineOnFailure(Throw, Some(r));
  }

  /** Throw client, 401 with a body but no truthy location: the rest of the chain treats it as the client without its first handler would. */
  lemma ThrowClientFallsThrough(r: Response)
    requires r.status == 401 && !r.data.Absent? && !TruthyString(Location(r.data))
    ensures var t0 := Trace(Rejected(Transport(Some(r))), 0, []);
      Pipeline(Throw, t0.outcome) == Settle(RegisteredHandlers(Throw)[2..], t0)
  {
    var hs := RegisteredHandlers(Throw);
    var t0 := Trace(Rejected(Transport(Some(r))), 0, []);
    assert hs == hs[..2] + hs[2..];
    SettleAppend(hs[..2], hs[2..], t0);
    assert hs[..2][1..][1..] == [];
  }

  /** A 400 whose body is a validation message: `ApiValidationError` whose code is the message after the prefix. */
  lemma BadRequestValidation(s: Strategy, r: Response)
    requires r.status == 400 && r.data.Text? && IsValidationErrorMessage(r.data.text)
    ensures var t := Pipeline(s, Rejected(Transport(Some(r))));
      t.outcome.Rejected? && t.outcome.error.ApiValidation? &&
      ValidationErrorPrefix + t.outcome.error.code == r.data.text && t.navigations == []
  {
    PipelineOnFailure(s, Some(r));
  }

  /** Any other 400: `ApiDataError` carrying the body unchanged. */
  lemma BadRequestData(s: Strategy, r: Response)
    requires r.status == 400 && !(r.data.Text? && IsValidationErrorMessage(r.data.text))
    ensures var t := Pipeline(s, Rejected(Transport(Some(r))));
      t.outcome == Rejected(ApiData(r.data)) && t.navigations == []
  {
    PipelineOnFailure(s, Some(r));
  }

  /** A 400 still reaches `defaultErrorInterceptor`, so it is reported once. */
  lemma BadRequestIsReported(s: Strategy, r: Response)
    requires r.status == 400
    ensures Pipeline(s, Rejected(Transport(Some(r)))).reports == 1
  {
    PipelineOnFailure(s, Some(r));
  }

  /** A 500 with a body is reported by `apiDataErrorInterceptor` and again by `defaultErrorInterceptor`. */
  lemma DataErrorReportedTwice(s: Strategy)
    ensures var t := Pipeline(s, Rejected(Transport(Some(Response(500, Text("Internal Server Error"))))));
      t.outcome == Rejected(ApiData(Text("Internal Server Error"))) && t.reports == 2
  {
    PipelineOnFailure(s, Some(Response(500, Text("Internal Server Error"))));
  }

  /** Any status other than 400 and 401 with a truthy body: `ApiDataError` with that body, reported twice. */
  lemma DataError(s: Strategy, r: Response)
    requires r.status != 400 && r.status != 401 && Truthy(r.data)
    ensures Pipeline(s, Rejected(Transport(Some(r)))) == Trace(Rejected(ApiData(r.data)), 2, [])
  {
    PipelineOnFailure(s, Some(r));
  }

  /** No response, or a response whose data is falsy (and not a 400 or a 401 handled above): the same error, reported once. */
  lemma UnclassifiedErrorReportedOnce(s: Strategy, failure: Option<Response>)
    requires failure.None? || (failure.value.status != 400 && failure.value.status != 401 && !Truthy(failure.value.data))
    ensures Pipeline(s, Rejected(Transport(failure))) == Trace(Rejected(Transport(failure)), 1, [])
  {
    PipelineOnFailure(s, failure);
  }

  /** A successful call comes back unwrapped, with no report and no navigation. */
  lemma SuccessIsUnwrapped(s: Strategy, r: Response)
    ensures Pipeline(s, Resolved(Envelope(r))) ==
      Trace(Resolved(if Truthy(r.data) then Payload(r.data) else Envelope(r)), 0, [])
  {
    var hs := RegisteredHandlers(s);
    var t1 := Then(Trace(Resolved(Envelope(r)), 0, []), hs[0]);
    assert t1.outcome == Resolved(UnwrapResponse(Envelope(r)));
    ResolvedSkipsErrorHandlers(hs[1..], t1);
  }

  /** Error-only handlers pass a resolved call through untouched. */
  lemma {:induction false} ResolvedSkipsErrorHandlers(hs: seq<Handler>, t: Trace)
    requires t.outcome.Resolved?
    requires forall k :: 0 <= k < |hs| ==> hs[k].OnRejected?
    ensures Settle(hs, t) == t
  {
    if hs != [] {
      ResolvedSkipsErrorHandlers(hs[1..], Then(t, hs[0]));
    }
  }

  // ----- The chain the comments describe: first match wins -----

  /**
   * The interceptors tried in order, the first one that does something other
   * than rethrow the error it was given deciding the outcome alone.
   */
  function FirstMatch(list: seq<Interceptor>, e: Error): (r: Trace)
    ensures r.reports <= 1 && |r.navigations| <= 1
    ensures r.outcome.Resolved? ==> r.reports == 0 && |r.navigations| == 1
  {
    if list == [] then Trace(Rejected(e), 0, [])
    else
      var st := Intercept(list[0], e);
      if st == Rethrow(e) then FirstMatch(list[1..], e)
      else Trace(st.outcome, st.reports, NavigationsOf(st.navigation))
  }

  /**
   * With first-match-wins, a failure is reported at most once, and not at all
   * exactly when the unauthenticated or the bad-request interceptor took it.
   */
  lemma FirstMatchReportsAtMostOnce(s: Strategy, failure: Option<Response>)
    ensures var t := FirstMatch(ErrorInterceptors(s), Transport(failure));
      t.reports <= 1 &&
      (t.reports == 0 <==>
        failure.Some? &&
        (failure.value.status == 400 ||
         (failure.value.status == 401 &&
          (s == Redirect || failure.value.data.Absent? || TruthyString(Location(failure.value.data))))))
  {
    var e := Transport(failure);
    var list := ErrorInterceptors(s);
    FirstMatchAfterUnauthenticated(e);
    assert list[1..] == [BadRequest, ApiDataErr, DefaultErr];
    var st := Intercept(list[0], e);
    if st == Rethrow(e) {
      assert FirstMatch(list, e) == FirstMatch(list[1..], e);
    } else {
      assert FirstMatch(list, e).reports == 0;
    }
  }

  /** First-match-wins changes only how often a failure is reported: the caller sees the same outcome and navigation. */
  lemma FirstMatchKeepsOutcome(s: Strategy, failure: Option<Response>)
    ensures var t := FirstMatch(ErrorInterceptors(s), Transport(failure));
      t.outcome == AsRegistered(s, failure).outcome && t.navigations == AsRegistered(s, failure).navigations
  {
    var e := Transport(failure);
    var list := ErrorInterceptors(s);
    var st := Intercept(list[0], e);
    if st != Rethrow(e) {
      assert FirstMatch(list, e) == Trace(st.outcome, st.reports, NavigationsOf(st.navigation));
    } else {
      assert list[1..] == [BadRequest, ApiDataErr, DefaultErr];
      assert FirstMatch(list, e) == FirstMatch([BadRequest, ApiDataErr, DefaultErr], e);
      FirstMatchOfUnclaimed(e);
    }
  }

  /** The last three interceptors, first match wins, on a failure the first interceptor passed on. */
  lemma FirstMatchOfUnclaimed(e: Error)
    requires e.Transport?
    ensures var t := FirstMatch([BadRequest, ApiDataErr, DefaultErr], e);
      t.navigations == [] &&
      t.outcome ==
        if e.response.Some? && e.response.value.status == 400 then BadRequestInterceptor(e).outcome
        else if e.response.Some? && Truthy(e.response.value.data) then Rejected(ApiData(e.response.value.data))
        else Rejected(e)
  {
    var list := [BadRequest, ApiDataErr, DefaultErr];
    assert list[1..] == [ApiDataErr, DefaultErr];
    assert list[1..][1..] == [DefaultErr];
    assert FirstMatch([DefaultErr], e) == Trace(Rejected(e), 1, []);
  }

  /** The last three interceptors, first match wins: no report for a 400, one otherwise. */
  lemma FirstMatchAfterUnauthenticated(e: Error)
    ensures FirstMatch([BadRequest, ApiDataErr, DefaultErr], e).reports ==
      if ResponseOf(e).Some? && ResponseOf(e).value.status == 400 then 0 else 1
  {
    var list := [BadRequest, ApiDataErr, DefaultErr];
    assert list[1..] == [ApiDataErr, DefaultErr];
    assert list[1..][1..] == [DefaultErr];
    assert FirstMatch([DefaultErr], e).reports == 1;
  }
}
