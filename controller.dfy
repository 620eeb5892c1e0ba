/** The App component's state and the events that change it, as values.
    `Step` is what one handler does to the state; `Run` replays a sequence of events. */
module Controller {
  import opened AppTypes
  import opened OrderRequest
  import opened Messages

  /** `orders`, `loading` and `error` are the component's state; `requests` are the backend calls
      issued so far and `alerts` the success notifications shown so far. */
  datatype AppState = AppState(
    orders: seq<Order>,
    loading: bool,
    error: Option<string>,
    requests: seq<Request>,
    alerts: seq<string>)

  /** The moments at which a handler runs: the synchronous start of `placeOrder`, the three ways its
      awaited POST ends, and the two ways a `loadOrders` GET ends. `success` is the truthiness of the
      response's `success` field; `restaurantName` is the name `placeOrder` was called with. */
  datatype Event =
    | StartSubmit(restaurantId: int)
    | CreateResponded(success: bool, restaurantName: string)
    | CreateThrew(serverError: Option<string>, message: string)
    | RefreshSucceeded(list: seq<Order>)
    | RefreshFailed

  /** Number of history fetches in a request log. */
  function Refreshes(rs: seq<Request>): nat
  {
    if rs == [] then 0
    else Refreshes(rs[..|rs| - 1]) + (if rs[|rs| - 1].FetchOrders? then 1 else 0)
  }

  /** Number of create requests in a request log. */
  function Creates(rs: seq<Request>): nat
  {
    if rs == [] then 0
    else Creates(rs[..|rs| - 1]) + (if rs[|rs| - 1].CreateOrder? then 1 else 0)
  }

  /** Number of submissions started in a trace. */
  function Starts(es: seq<Event>): nat
  {
    if es == [] then 0
    else Starts(es[..|es| - 1]) + (if es[|es| - 1].StartSubmit? then 1 else 0)
  }

  /** Number of create responses with a truthy `success` in a trace. */
  function Successes(es: seq<Event>): nat
  {
    if es == [] then 0
    else Successes(es[..|es| - 1]) + (if es[|es| - 1].CreateResponded? && es[|es| - 1].success then 1 else 0)
  }

  /** The state after mounting: empty history, idle, no banner, and the startup effect's one fetch. */
  function Initial(): (s: AppState)
    ensures s.orders == [] && !s.loading && s.error == None && s.alerts == []
    ensures Refreshes(s.requests) == 1 && Creates(s.requests) == 0
  {
    var s := AppState([], false, None, [FetchOrders(UserId)], []);
    assert s.requests[..0] == [];
    s
  }

  function Step(s: AppState, e: Event): AppState
  {
    match e
    case StartSubmit(restaurantId) =>
      s.(loading := true, error := None,
         requests := s.requests + [CreateOrder(BuildPayload(restaurantId))])
    case CreateResponded(success, restaurantName) =>
      if success then
        s.(alerts := s.alerts + [SuccessAlert(restaurantName)],
           requests := s.requests + [FetchOrders(UserId)],
           loading := false)
      else
        s.(loading := false)
    case CreateThrew(serverError, message) =>
      s.(error := Some(FailureMessage(serverError, message)), loading := false)
    case RefreshSucceeded(list) =>
      s.(orders := list)
    case RefreshFailed =>
      s
  }

  /** The state after the events `es`, in order, starting from `s`. */
  function Run(s: AppState, es: seq<Event>): AppState
    decreases |es|
  {
    if es == [] then s else Step(Run(s, es[..|es| - 1]), es[|es| - 1])
  }

  /** The list of the latest successful refresh in `es`, or `fallback` when there is none. */
  function LatestList(es: seq<Event>, fallback: seq<Order>): seq<Order>
  {
    if es == [] then fallback
    else if es[|es| - 1].RefreshSucceeded? then es[|es| - 1].list
    else LatestList(es[..|es| - 1], fallback)
  }

  /** The banner decided by the latest submission start or failure in `es`: a start clears it,
      a failure composes it; `fallback` when `es` has neither. */
  function LatestError(es: seq<Event>, fallback: Option<string>): Option<string>
  {
    if es == [] then fallback
    else match es[|es| - 1]
      case StartSubmit(_) => None
      case CreateThrew(serverError, message) => Some(FailureMessage(serverError, message))
      case _ => LatestError(es[..|es| - 1], fallback)
  }

  /** Whether the latest submission event in `es` is a start (rather than an outcome). */
  function LatestLoading(es: seq<Event>, fallback: bool): bool
  {
    if es == [] then fallback
    else match es[|es| - 1]
      case StartSubmit(_) => true
      case CreateResponded(_, _) => false
      case CreateThrew(_, _) => false
      case _ => LatestLoading(es[..|es| - 1], fallback)
  }

  predicate WellFormedRequest(r: Request)
  {
    match r
    case FetchOrders(userId) => userId == UserId
    case CreateOrder(payload) => WellFormedPayload(payload)
  }

  predicate WellFormedError(error: Option<string>)
  {
    error.Some? ==> |error.value| >= |FailurePrefix| && error.value[..|FailurePrefix|] == FailurePrefix
  }

  /** What holds of every state the component reaches: every request sent was for user 1 with a
      well-formed payload, any banner is a composed failure message, and the banner and the
      "Processing order..." notice are never shown together. */
  predicate Consistent(s: AppState)
  {
    && WellFormedError(s.error)
    && (s.loading ==> s.error == None)
    && forall i :: 0 <= i < |s.requests| ==> WellFormedRequest(s.requests[i])
  }

  // ---------------------------------------------------------------------------
  // One submission attempt

  /** Starting a submission raises `loading`, clears the banner and sends exactly one create
      request carrying the built payload; `orders` and the alerts are untouched. */
  lemma StartSubmitEffect(s: AppState, restaurantId: int)
    ensures Step(s, StartSubmit(restaurantId)).loading
    ensures Step(s, StartSubmit(restaurantId)).error == None
    ensures Step(s, StartSubmit(restaurantId)).orders == s.orders
    ensures Step(s, StartSubmit(restaurantId)).alerts == s.alerts
    ensures Step(s, StartSubmit(restaurantId)).requests == s.requests + [CreateOrder(BuildPayload(restaurantId))]
  {
  }

  /** One call `placeOrder(restaurantId, restaurantName)`: its start, then one outcome of its POST
      (a response answering this call carries this call's name). Every way it ends leaves `loading`
      false and `orders` as they were; only a thrown request sets the banner; a truthy `success`
      alerts with this call's name and starts exactly one refresh, a falsy one does neither. */
  lemma {:induction false} PlaceOrderOutcome(s: AppState, restaurantId: int, restaurantName: string, outcome: Event)
    requires outcome.CreateResponded? || outcome.CreateThrew?
    requires outcome.CreateResponded? ==> outcome.restaurantName == restaurantName
    ensures !Run(s, [StartSubmit(restaurantId), outcome]).loading
    ensures Run(s, [StartSubmit(restaurantId), outcome]).orders == s.orders
    ensures Run(s, [StartSubmit(restaurantId), outcome]).error ==
      if outcome.CreateThrew? then Some(FailureMessage(outcome.serverError, outcome.message)) else None
    ensures Run(s, [StartSubmit(restaurantId), outcome]).requests ==
      s.requests + [CreateOrder(BuildPayload(restaurantId))]
        + (if outcome.CreateResponded? && outcome.success then [FetchOrders(UserId)] else [])
    ensures Run(s, [StartSubmit(restaurantId), outcome]).alerts ==
      s.alerts + (if outcome.CreateResponded? && outcome.success then [SuccessAlert(restaurantName)] else [])
  {
    var es := [StartSubmit(restaurantId), outcome];
    assert es[..1] == [StartSubmit(restaurantId)] && es[..1][..0] == [];
    assert Run(s, es[..1]) == Step(s, StartSubmit(restaurantId));
    assert Run(s, es) == Step(Step(s, StartSubmit(restaurantId)), outcome);
  }

  // ---------------------------------------------------------------------------
  // History refresh

  /** A successful refresh replaces the list verbatim and touches nothing else; repeating it with
      the same list changes nothing more. */
  lemma RefreshReplaces(s: AppState, list: seq<Order>)
    ensures Step(s, RefreshSucceeded(list)) == s.(orders := list)
    ensures Step(Step(s, RefreshSucceeded(list)), RefreshSucceeded(list)) == Step(s, RefreshSucceeded(list))
  {
  }

  /** A failed refresh changes nothing. */
  lemma RefreshFailedKeeps(s: AppState)
    ensures Step(s, RefreshFailed) == s
  {
  }

  // ---------------------------------------------------------------------------
  // Whole traces

  /** The local history is always the list of the latest successful fetch: it is never more current
      than the server's last answer, and nothing but a fetch changes it. */
  lemma {:induction false} LastRefreshWins(s: AppState, es: seq<Event>)
    ensures Run(s, es).orders == LatestList(es, s.orders)
    decreases |es|
  {
    if es != [] {
      LastRefreshWins(s, es[..|es| - 1]);
    }
  }

  /** The banner is the failure message of the latest attempt if that attempt threw, and absent
      if a later start cleared it or it never threw. */
  lemma {:induction false} ErrorTracksLatestAttempt(s: AppState, es: seq<Event>)
    ensures Run(s, es).error == LatestError(es, s.error)
    decreases |es|
  {
    if es != [] {
      ErrorTracksLatestAttempt(s, es[..|es| - 1]);
    }
  }

  /** `loading` is true exactly when the latest submission event is a start with no outcome after it. */
  lemma {:induction false} LoadingTracksLatestAttempt(s: AppState, es: seq<Event>)
    ensures Run(s, es).loading == LatestLoading(es, s.loading)
    decreases |es|
  {
    if es != [] {
      LoadingTracksLatestAttempt(s, es[..|es| - 1]);
    }
  }

  lemma CountAppend(rs: seq<Request>, r: Request)
    ensures Refreshes(rs + [r]) == Refreshes(rs) + (if r.FetchOrders? then 1 else 0)
    ensures Creates(rs + [r]) == Creates(rs) + (if r.CreateOrder? then 1 else 0)
  {
    assert (rs + [r])[..|rs + [r]| - 1] == rs;
  }

  /** One event adds one create request if it is a start, one fetch if it is a truthy response. */
  lemma StepAccounting(s: AppState, e: Event)
    ensures Creates(Step(s, e).requests) == Creates(s.requests) + (if e.StartSubmit? then 1 else 0)
    ensures Refreshes(Step(s, e).requests) ==
      Refreshes(s.requests) + (if e.CreateResponded? && e.success then 1 else 0)
  {
    match e
    case StartSubmit(restaurantId) =>
      CountAppend(s.requests, CreateOrder(BuildPayload(restaurantId)));
    case CreateResponded(success, _) =>
      if success { CountAppend(s.requests, FetchOrders(UserId)); }
    case _ =>
  }

  /** Every started submission sends exactly one create request, and every truthy response exactly
      one history fetch; nothing else sends anything. */
  lemma {:induction false} RequestAccounting(s: AppState, es: seq<Event>)
    ensures Creates(Run(s, es).requests) == Creates(s.requests) + Starts(es)
    ensures Refreshes(Run(s, es).requests) == Refreshes(s.requests) + Successes(es)
    decreases |es|
  {
    if es != [] {
      var init := es[..|es| - 1];
      RequestAccounting(s, init);
      StepAccounting(Run(s, init), es[|es| - 1]);
    }
  }

  /** From mounting on, the component has fetched its history once plus once per truthy response. */
  lemma {:induction false} RefreshesFromMount(es: seq<Event>)
    ensures Refreshes(Run(Initial(), es).requests) == 1 + Successes(es)
    ensures Creates(Run(Initial(), es).requests) == Starts(es)
  {
    RequestAccounting(Initial(), es);
  }

  lemma StepPreservesConsistent(s: AppState, e: Event)
    requires Consistent(s)
    ensures Consistent(Step(s, e))
  {
  }

  /** Every reachable state is consistent. */
  lemma {:induction false} RunPreservesConsistent(s: AppState, es: seq<Event>)
    requires Consistent(s)
    ensures Consistent(Run(s, es))
    decreases |es|
  {
    if es != [] {
      RunPreservesConsistent(s, es[..|es| - 1]);
      StepPreservesConsistent(Run(s, es[..|es| - 1]), es[|es| - 1]);
    }
  }

  lemma {:induction false} ReachableIsConsistent(es: seq<Event>)
    ensures Consistent(Run(Initial(), es))
  {
    assert Consistent(Initial());
    RunPreservesConsistent(Initial(), es);
  }

  // ---------------------------------------------------------------------------
  // Scenarios

  /** The server refuses with an `error` field of "card declined": that reason is shown and the
      history is untouched. */
  lemma ScenarioCardDeclined(s: AppState, restaurantId: int, transport: string)
    ensures Run(s, [StartSubmit(restaurantId), CreateThrew(Some("card declined"), transport)]).error
      == Some("Failed to place order: card declined")
    ensures Run(s, [StartSubmit(restaurantId), CreateThrew(Some("card declined"), transport)]).orders == s.orders
  {
    PlaceOrderOutcome(s, restaurantId, "", CreateThrew(Some("card declined"), transport));
    var shown := FailureMessage(Some("card declined"), transport);
    assert shown == FailurePrefix + "card declined";
    assert shown == "Failed to place order: card declined";
    assert Run(s, [StartSubmit(restaurantId), CreateThrew(Some("card declined"), transport)]).error == Some(shown);
  }

  /** The backend is unreachable (no response body): the transport message is shown. */
  lemma ScenarioUnreachable(s: AppState, restaurantId: int, transport: string)
    ensures Run(s, [StartSubmit(restaurantId), CreateThrew(None, transport)]).error
      == Some("Failed to place order: " + transport)
  {
    PlaceOrderOutcome(s, restaurantId, "", CreateThrew(None, transport));
  }

  /** The startup fetch fails: the history stays empty and no banner appears. */
  lemma ScenarioStartupFetchFails()
    ensures Run(Initial(), [RefreshFailed]).orders == []
    ensures Run(Initial(), [RefreshFailed]).error == None
  {
    assert [RefreshFailed][..0] == [];
  }
}
