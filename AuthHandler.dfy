/**
 * The post-redirect reconciler: finishes a pending OAuth redirect when the SDK can,
 * subscribes to auth events, and for every user-bearing event upserts the user's row
 * and then broadcasts a local event carrying the session.
 */
module AuthHandler {
  import opened Wrappers
  import opened Session

  const UsersTable: string := "users"
  const AuthChangedEvent: string := "inflow:auth-changed"

  /** The reconciler's side effects, in the order they are issued. */
  datatype Effect =
    | GetSessionFromUrl(storeSession: bool, failed: bool)   // the guarded redirect completion
    | SubscribeAuthEvents                                   // `onAuthStateChange(handler)`
    | Upsert(table: string, id: string, email: Option<string>, failed: bool)
    | DispatchEvent(name: string, session: Session)         // `window.dispatchEvent(...)`
    | GetSession                                            // the final `getSession()`

  /** One event delivered to the handler, with whether its upsert fails (throws or errors). */
  datatype Delivery = Delivery(event: AuthEvent, upsertFailed: bool)

  predicate CarriesUser(d: Delivery)
  {
    UserOf(d.event.session).Some?
  }

  /** The upsert a user-bearing delivery issues: keyed by the user's id, email as given. */
  function UpsertOf(d: Delivery): Effect
    requires CarriesUser(d)
  {
    var u := d.event.session.value.user.value;
    Upsert(UsersTable, u.id, u.email, d.upsertFailed)
  }

  /** The broadcast a user-bearing delivery issues, carrying the session it received. */
  function DispatchOf(d: Delivery): Effect
    requires CarriesUser(d)
  {
    DispatchEvent(AuthChangedEvent, d.event.session.value)
  }

  /** What the handler does for one delivery: upsert then dispatch, or nothing at all. */
  function HandlerTrace(d: Delivery): (t: seq<Effect>)
    ensures t == [] <==> !CarriesUser(d)
    ensures CarriesUser(d) ==>
      && |t| == 2
      && t[0].Upsert? && t[0].table == UsersTable
      && t[0].id == d.event.session.value.user.value.id
      && t[0].email == d.event.session.value.user.value.email
      && t[1] == DispatchEvent(AuthChangedEvent, d.event.session.value)
  {
    if CarriesUser(d) then [UpsertOf(d), DispatchOf(d)] else []
  }

  /** The handler's effects for a run of deliveries. */
  function Trace(ds: seq<Delivery>): seq<Effect>
    decreases |ds|
  {
    if ds == [] then [] else HandlerTrace(ds[0]) + Trace(ds[1..])
  }

  /** The deliveries that carry a user, in order (repeats included). */
  function UserDeliveries(ds: seq<Delivery>): (r: seq<Delivery>)
    ensures |r| <= |ds|
    ensures forall d :: d in r ==> CarriesUser(d)
    decreases |ds|
  {
    if ds == [] then []
    else if CarriesUser(ds[0]) then [ds[0]] + UserDeliveries(ds[1..])
    else UserDeliveries(ds[1..])
  }

  /** A failed upsert changes nothing but its own record: the dispatch still follows. */
  lemma UpsertFailureSwallowed(e: AuthEvent)
    requires UserOf(e.session).Some?
    ensures HandlerTrace(Delivery(e, true))[1] == HandlerTrace(Delivery(e, false))[1]
    ensures HandlerTrace(Delivery(e, true))[1].DispatchEvent?
  {
  }

  /**
   * The trace of any run of deliveries is, for each user-bearing delivery in order,
   * exactly one upsert of that user followed by exactly one dispatch of that session;
   * deliveries without a user contribute nothing.
   */
  lemma {:induction false} TraceInterleaves(ds: seq<Delivery>)
    ensures |Trace(ds)| == 2 * |UserDeliveries(ds)|
    ensures forall j :: 0 <= j < |UserDeliveries(ds)| ==>
      && Trace(ds)[2 * j] == UpsertOf(UserDeliveries(ds)[j])
      && Trace(ds)[2 * j + 1] == DispatchOf(UserDeliveries(ds)[j])
    decreases |ds|
  {
    if ds != [] {
      TraceInterleaves(ds[1..]);
      var rest, users := Trace(ds[1..]), UserDeliveries(ds[1..]);
      if CarriesUser(ds[0]) {
        assert UserDeliveries(ds) == [ds[0]] + users;
        assert Trace(ds) == [UpsertOf(ds[0]), DispatchOf(ds[0])] + rest;
        forall j | 1 <= j < |UserDeliveries(ds)|
          ensures Trace(ds)[2 * j] == UpsertOf(UserDeliveries(ds)[j])
          ensures Trace(ds)[2 * j + 1] == DispatchOf(UserDeliveries(ds)[j])
        {
          assert UserDeliveries(ds)[j] == users[j - 1];
          assert Trace(ds)[2 * j] == rest[2 * (j - 1)];
          assert Trace(ds)[2 * j + 1] == rest[2 * (j - 1) + 1];
        }
      } else {
        assert Trace(ds) == rest;
      }
    }
  }

  /** A repeated sign-in of the same user upserts it again: one upsert per delivery. */
  lemma RepeatedEventUpsertsEachTime(d: Delivery)
    requires CarriesUser(d)
    ensures Trace([d, d]) == [UpsertOf(d), DispatchOf(d), UpsertOf(d), DispatchOf(d)]
  {
    assert [d, d][1..] == [d];
    assert [d][1..] == [];
    assert Trace([d]) == HandlerTrace(d);
  }

  /** The effects of the start-up step: the redirect completion only when the SDK offers it. */
  function UrlStep(hasGetSessionFromUrl: bool, urlStepThrows: bool): (t: seq<Effect>)
    ensures hasGetSessionFromUrl <==> t != []
    ensures t != [] ==> t == [GetSessionFromUrl(true, urlStepThrows)]
  {
    if hasGetSessionFromUrl then [GetSessionFromUrl(true, urlStepThrows)] else []
  }

  /** The reconciler's view of the outside world: the effects issued so far. */
  class Reconciler {
    var trace: seq<Effect>
    var subscribed: bool

    constructor ()
      ensures trace == [] && !subscribed
    {
      trace := [];
      subscribed := false;
    }

    /**
     * `processOAuthRedirectAndSession`: the guarded redirect completion (any failure is
     * swallowed), the subscription, then the current session as the result.
     */
    method ProcessOAuthRedirectAndSession(hasGetSessionFromUrl: bool, urlStepThrows: bool, current: Option<Session>)
      returns (r: Option<Session>)
      modifies this
      ensures r == current
      ensures subscribed
      ensures trace == old(trace) + UrlStep(hasGetSessionFromUrl, urlStepThrows) + [SubscribeAuthEvents, GetSession]
    {
      if hasGetSessionFromUrl {
        trace := trace + [GetSessionFromUrl(true, urlStepThrows)];
      }
      trace := trace + [SubscribeAuthEvents];
      subscribed := true;
      trace := trace + [GetSession];
      r := current;
    }

    /** The subscribed handler receiving one event: it runs only once registered. */
    method OnAuthEvent(e: AuthEvent, upsertFailed: bool)
      requires subscribed
      modifies this`trace
      ensures trace == old(trace) + HandlerTrace(Delivery(e, upsertFailed))
    {
      var u := UserOf(e.session);
      if u.Some? {
        trace := trace + [Upsert(UsersTable, u.value.id, u.value.email, upsertFailed)];
        trace := trace + [DispatchEvent(AuthChangedEvent, e.session.value)];
      }
    }
  }
}
