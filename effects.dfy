/** What the front-end orchestration can observe and do outside itself: the store's `dispatch`, the
    `fetch` API, `setTimeout` and the platform WebAuthn ceremonies. Each of them is an oracle; a
    `Runtime` records, in order, every effect the orchestration performs, so that contracts can
    speak about the exact sequence of dispatches, requests and timers. */
module Effects {
  import opened Common
  import opened AppContext
  import opened WebAuthnWire

  datatype Method = GET | POST | PUT | DELETE

  /** A JavaScript error object as far as the core inspects it: `error.name` and `error.message`. */
  datatype JsError = JsError(name: string, message: string)

  /** A JSON text the core passes through without reading it (profile fields, a transfer, a receipt). */
  type JsonText = string

  /** The JSON bodies the service layer sends. */
  datatype RequestBody =
    | NoBody
    | RegistrationBeginBody(userId: string, username: Option<string>, displayName: Option<string>)
    | RegistrationCompleteBody(credential: CredentialData, keyName: string)
    | AuthenticationBeginBody(userId: string)
    | AuthenticationCompleteBody(assertion: AssertionData)
    | OpaqueBody(json: JsonText)

  datatype Request = Request(verb: Method, url: string, headers: map<string, string>, body: RequestBody)

  /** The result of `response.json()`: the parsed body (its `message` member and the value the
      caller receives) or the parse failure's message. */
  datatype ResponseBody<T> = Parsed(message: Option<string>, value: T) | Unparsable(parseError: string)

  /** What `fetch` does: it rejects (a network failure), or it yields a status and a body. */
  datatype HttpOutcome<T> = Rejected(error: JsError) | Responded(status: nat, body: ResponseBody<T>)

  /** What a platform ceremony does: it resolves to a credential or rejects with a DOMException. */
  datatype Ceremony<T> = Resolved(value: T) | Failed(error: JsError)

  /** An async function's settlement: a value, or a thrown error. */
  datatype Result<T> = Ok(value: T) | Thrown(error: JsError)

  datatype PlatformCall = CreateCredential(creation: CreationOptions) | GetAssertion(request: RequestOptions)

  datatype Event =
    | Dispatched(action: Action)
    | Fetched(request: Request)
    | TimerSet(delay: int, timed: Action)
    | CeremonyInvoked(call: PlatformCall)

  /** The effects an operation performs, in order, and how it settles. */
  datatype Outcome<T> = Outcome(events: seq<Event>, result: Result<T>)

  /** The recorder of effects. `apiBase` is `import.meta.env.VITE_API_URL || '/api/v1'`. */
  class Runtime {
    const apiBase: string
    var trace: seq<Event>

    /** A runtime whose `API_BASE_URL` comes from the build's `VITE_API_URL` setting. */
    constructor (env: Option<string>)
      ensures apiBase == ApiBaseUrl(env) && apiBase != "" && trace == []
    {
      apiBase := ApiBaseUrl(env);
      trace := [];
    }

    method Dispatch(a: Action)
      modifies this
      ensures trace == old(trace) + [Dispatched(a)]
    {
      trace := trace + [Dispatched(a)];
    }

    method Fetch(r: Request)
      modifies this
      ensures trace == old(trace) + [Fetched(r)]
    {
      trace := trace + [Fetched(r)];
    }

    method SetTimeout(delay: int, a: Action)
      modifies this
      ensures trace == old(trace) + [TimerSet(delay, a)]
    {
      trace := trace + [TimerSet(delay, a)];
    }

    method Invoke(c: PlatformCall)
      modifies this
      ensures trace == old(trace) + [CeremonyInvoked(c)]
    {
      trace := trace + [CeremonyInvoked(c)];
    }
  }

  /** `import.meta.env.VITE_API_URL || '/api/v1'`. */
  function ApiBaseUrl(env: Option<string>): (r: string)
    ensures Truthy(env) ==> r == env.value
    ensures !Truthy(env) ==> r == "/api/v1"
    ensures r != ""
  {
    if Truthy(env) then env.value else "/api/v1"
  }

  // ---------------------------------------------------------------------------------------------
  // Projections of a trace

  function ActionOf(e: Event): seq<Action> {
    if e.Dispatched? then [e.action] else []
  }

  function RequestOf(e: Event): seq<Request> {
    if e.Fetched? then [e.request] else []
  }

  function NoticeOf(e: Event): seq<Notification> {
    if e.Dispatched? && e.action.AddNotification? then [e.action.notification] else []
  }

  function CeremonyOf(e: Event): seq<PlatformCall> {
    if e.CeremonyInvoked? then [e.call] else []
  }

  /** The actions dispatched, in order. */
  function Actions(es: seq<Event>): seq<Action> {
    FlatMap(es, ActionOf)
  }

  /** The requests issued, in order. */
  function Requests(es: seq<Event>): seq<Request> {
    FlatMap(es, RequestOf)
  }

  /** The notifications added by dispatching `ADD_NOTIFICATION`, in order. */
  function Notices(es: seq<Event>): seq<Notification> {
    FlatMap(es, NoticeOf)
  }

  /** The platform ceremonies started, in order. */
  function Ceremonies(es: seq<Event>): seq<PlatformCall> {
    FlatMap(es, CeremonyOf)
  }

  /** What a sequence of effects followed by another shows is what the first shows followed by
      what the second shows. */
  lemma ProjectionsAppend(a: seq<Event>, b: seq<Event>)
    ensures Actions(a + b) == Actions(a) + Actions(b)
    ensures Requests(a + b) == Requests(a) + Requests(b)
    ensures Notices(a + b) == Notices(a) + Notices(b)
    ensures Ceremonies(a + b) == Ceremonies(a) + Ceremonies(b)
  {
    FlatMapAppend(a, b, ActionOf);
    FlatMapAppend(a, b, RequestOf);
    FlatMapAppend(a, b, NoticeOf);
    FlatMapAppend(a, b, CeremonyOf);
  }

  /** What one event followed by others shows. */
  lemma ProjectionsCons(e: Event, rest: seq<Event>)
    ensures Actions([e] + rest) == ActionOf(e) + Actions(rest)
    ensures Requests([e] + rest) == RequestOf(e) + Requests(rest)
    ensures Notices([e] + rest) == NoticeOf(e) + Notices(rest)
    ensures Ceremonies([e] + rest) == CeremonyOf(e) + Ceremonies(rest)
  {
    FlatMapCons(e, rest, ActionOf);
    FlatMapCons(e, rest, RequestOf);
    FlatMapCons(e, rest, NoticeOf);
    FlatMapCons(e, rest, CeremonyOf);
  }

  /** What one event shows. */
  lemma ProjectionsOne(e: Event)
    ensures Actions([e]) == ActionOf(e) && Requests([e]) == RequestOf(e)
    ensures Notices([e]) == NoticeOf(e) && Ceremonies([e]) == CeremonyOf(e)
  {
    FlatMapOne(e, ActionOf);
    FlatMapOne(e, RequestOf);
    FlatMapOne(e, NoticeOf);
    FlatMapOne(e, CeremonyOf);
  }

  /** The events of dispatching `acts` one after the other. */
  function Dispatches(acts: seq<Action>): (r: seq<Event>)
    ensures |r| == |acts|
    ensures forall i :: 0 <= i < |acts| ==> r[i] == Dispatched(acts[i])
  {
    seq(|acts|, i requires 0 <= i < |acts| => Dispatched(acts[i]))
  }

  /** Dispatching a sequence of actions dispatches exactly those actions and does nothing else. */
  lemma {:induction false} DispatchesProjections(acts: seq<Action>)
    ensures Actions(Dispatches(acts)) == acts
    ensures Requests(Dispatches(acts)) == [] && Ceremonies(Dispatches(acts)) == []
    decreases |acts|
  {
    if acts != [] {
      assert Dispatches(acts) == [Dispatched(acts[0])] + Dispatches(acts[1..]);
      ProjectionsCons(Dispatched(acts[0]), Dispatches(acts[1..]));
      DispatchesProjections(acts[1..]);
    }
  }

  /** A notification is always an added one: only `ADD_NOTIFICATION` dispatches show up in `Notices`. */
  lemma {:induction false} NoticesOnlyFromAdds(es: seq<Event>)
    requires forall i :: 0 <= i < |es| ==> !(es[i].Dispatched? && es[i].action.AddNotification?)
    ensures Notices(es) == []
  {
    if es != [] {
      assert es == [es[0]] + es[1..];
      ProjectionsCons(es[0], es[1..]);
      NoticesOnlyFromAdds(es[1..]);
    }
  }
}
