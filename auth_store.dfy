/**
 * The client-side session store: `user`, `loading`, `error` and
 * `initialized`, changed by `fetchMe`, `init`, `logout` and by the
 * dashboard's hydration writer.
 *
 * `fetchMe` is split at its `await`: `FetchBegin` is the synchronous
 * guard and `set({ loading: true, error: null })`; `FetchComplete` is
 * what runs when the request settles. The request itself is not modelled:
 * its outcome is a parameter.
 */
module AuthStore {
  import opened Options
  import opened UserModel

  /** The abstract state of the store. */
  datatype Session = Session(user: Option<User>, loading: bool, error: Option<string>, initialized: bool)

  /** How the `/users/me` request settled. */
  datatype FetchOutcome =
    | Ok(body: User)                  // `res.ok` and the body parsed as a user
    | NotOk                           // `!res.ok`: the code throws `new Error("Unauthorized")`
    | Threw(message: Option<string>)  // the request or the body parse threw; `None` when not an `Error`

  const InitialSession := Session(None, false, None, false)
  const UNAUTHORIZED := "Unauthorized"
  const FAILED_TO_LOAD_USER := "Failed to load user"

  /** The store invariant: a request is only in flight while no user is known. */
  predicate NoUserWhileLoading(s: Session) {
    s.loading ==> s.user == None
  }

  // ---------------------------------------------------------------------
  // The operations on the abstract state
  // ---------------------------------------------------------------------

  /** `fetchMe` starts a request unless one is in flight or a user is already present. */
  predicate StartsFetch(s: Session) {
    !s.loading && s.user == None
  }

  function BeginFetch(s: Session): (r: Session)
    ensures r.user == s.user && r.initialized == s.initialized
    ensures StartsFetch(s) ==> r.loading && r.error == None
    ensures !StartsFetch(s) ==> r == s
  {
    if s.loading || s.user.Some? then s else s.(loading := true, error := None)
  }

  /** The message `fetchMe` records for a failed request. */
  function FailureMessage(o: FetchOutcome): (m: string)
    requires !o.Ok?
    ensures o.NotOk? ==> m == UNAUTHORIZED
    ensures o.Threw? && o.message.None? ==> m == FAILED_TO_LOAD_USER
    ensures o.Threw? && o.message.Some? ==> m == o.message.value
  {
    match o
    case NotOk => UNAUTHORIZED
    case Threw(msg) => msg.GetOr(FAILED_TO_LOAD_USER)
  }

  function CompleteFetch(s: Session, o: FetchOutcome): (r: Session)
    ensures !r.loading && r.initialized == s.initialized
    ensures o.Ok? ==> r.user == Some(o.body) && r.error == s.error
    ensures !o.Ok? ==> r.user == None && r.error == Some(FailureMessage(o))
  {
    match o
    case Ok(body) => s.(user := Some(body), loading := false)
    case _ => s.(user := None, loading := false, error := Some(FailureMessage(o)))
  }

  /** `init` starts a request only on an uninitialized store that can fetch. */
  predicate InitStarts(s: Session) {
    !s.initialized && StartsFetch(s)
  }

  function InitSession(s: Session): (r: Session)
    ensures r.initialized
    ensures s.initialized ==> r == s
    ensures !s.initialized ==> r.user == s.user && (r.loading <==> s.loading || StartsFetch(s))
    ensures !s.initialized && StartsFetch(s) ==> r.error == None
    ensures !s.initialized && !StartsFetch(s) ==> r.error == s.error
  {
    if s.initialized then s else BeginFetch(s.(initialized := true))
  }

  function LogoutSession(s: Session): (r: Session)
    ensures r.user == None && !r.initialized && r.loading == s.loading && r.error == s.error
  {
    s.(user := None, initialized := false)
  }

  /** The hydration writer's `setState({ user, initialized: true, loading: false })`. */
  function HydrateSession(s: Session, u: Option<User>): (r: Session)
    ensures r.user == u && r.initialized && !r.loading && r.error == s.error
  {
    s.(user := u, initialized := true, loading := false)
  }

  // ---------------------------------------------------------------------
  // Sequences of operations
  // ---------------------------------------------------------------------

  datatype Op =
    | Init
    | FetchMe
    | Complete(outcome: FetchOutcome)
    | Logout
    | Hydrate(user: Option<User>)

  function Step(s: Session, op: Op): Session {
    match op
    case Init => InitSession(s)
    case FetchMe => BeginFetch(s)
    case Complete(o) => CompleteFetch(s, o)
    case Logout => LogoutSession(s)
    case Hydrate(u) => HydrateSession(s, u)
  }

  /** Whether performing `op` on `s` sends a request to `/users/me`. */
  predicate StepStarts(s: Session, op: Op) {
    match op
    case Init => InitStarts(s)
    case FetchMe => StartsFetch(s)
    case _ => false
  }

  function Run(s: Session, ops: seq<Op>): Session
    decreases |ops|
  {
    if ops == [] then s else Run(Step(s, ops[0]), ops[1..])
  }

  /** The number of requests a run of operations starts. */
  function Requests(s: Session, ops: seq<Op>): nat
    decreases |ops|
  {
    if ops == [] then 0
    else (if StepStarts(s, ops[0]) then 1 else 0) + Requests(Step(s, ops[0]), ops[1..])
  }

  /** An operation that can end a request in flight. */
  predicate Settles(op: Op) {
    op.Complete? || op.Hydrate?
  }

  // ---------------------------------------------------------------------
  // Properties
  // ---------------------------------------------------------------------

  /** `init` on an initialized store changes nothing and starts nothing. */
  lemma InitOnInitializedIsNoOp(s: Session)
    requires s.initialized
    ensures InitSession(s) == s && !InitStarts(s)
  {
  }

  /** `init` is idempotent: a second call right after the first is a no-op, so two calls start at most one request. */
  lemma InitIdempotent(s: Session)
    ensures InitSession(InitSession(s)) == InitSession(s)
    ensures !InitStarts(InitSession(s))
    ensures Requests(s, [Init, Init]) <= 1
  {
    assert [Init, Init][1..] == [Init];
  }

  /** A started request sets `loading` and clears `error`, leaving `user` and `initialized` as they were. */
  lemma BeginFetchEffect(s: Session)
    requires StartsFetch(s)
    ensures BeginFetch(s) == Session(s.user, true, None, s.initialized)
  {
  }

  /** Single flight: while a request is in flight, or once a user is present, `fetchMe` is a no-op. */
  lemma FetchSingleFlight(s: Session)
    requires s.loading || s.user.Some?
    ensures BeginFetch(s) == s && !StartsFetch(s)
  {
  }

  /** `fetchMe` never writes `initialized`, whatever the outcome. */
  lemma FetchLeavesInitialized(s: Session, o: FetchOutcome)
    ensures BeginFetch(s).initialized == s.initialized
    ensures CompleteFetch(BeginFetch(s), o).initialized == s.initialized
  {
  }

  /** After `logout`, `init` on a store with no request in flight starts a fresh request. */
  lemma LogoutThenInitRefetches(s: Session)
    requires !s.loading
    ensures InitStarts(LogoutSession(s))
    ensures InitSession(LogoutSession(s)) == Session(None, true, None, true)
  {
  }

  /** After hydration with a user, both `fetchMe` and `init` are no-ops. */
  lemma HydratedStoreDoesNotFetch(s: Session, u: User)
    ensures var h := HydrateSession(s, Some(u));
      !StartsFetch(h) && BeginFetch(h) == h && !InitStarts(h) && InitSession(h) == h
  {
  }

  /** Every operation keeps the invariant `loading ==> user == null`. */
  lemma StepKeepsInvariant(s: Session, op: Op)
    requires NoUserWhileLoading(s)
    ensures NoUserWhileLoading(Step(s, op))
  {
  }

  /** The invariant holds after any run of operations from the initial store. */
  lemma {:induction false} RunKeepsInvariant(s: Session, ops: seq<Op>)
    requires NoUserWhileLoading(s)
    ensures NoUserWhileLoading(Run(s, ops))
    decreases |ops|
  {
    if ops != [] {
      StepKeepsInvariant(s, ops[0]);
      RunKeepsInvariant(Step(s, ops[0]), ops[1..]);
    }
  }

  /** While a request is in flight, no sequence of `init`/`fetchMe`/`logout` calls starts another. */
  lemma {:induction false} NoRequestWhileLoading(s: Session, ops: seq<Op>)
    requires s.loading
    requires forall k | 0 <= k < |ops| :: !Settles(ops[k])
    ensures Requests(s, ops) == 0
    decreases |ops|
  {
    if ops != [] {
      assert !Settles(ops[0]);
      NoRequestWhileLoading(Step(s, ops[0]), ops[1..]);
    }
  }

  /**
   * Callers of `init` and `fetchMe` collapse into one request: between two
   * requests there is always a completion or a hydration.
   */
  lemma {:induction false} AtMostOneRequestUntilSettled(s: Session, ops: seq<Op>)
    requires forall k | 0 <= k < |ops| :: !Settles(ops[k])
    ensures Requests(s, ops) <= 1
    decreases |ops|
  {
    if ops != [] {
      var next := Step(s, ops[0]);
      assert !Settles(ops[0]);
      if StepStarts(s, ops[0]) {
        NoRequestWhileLoading(next, ops[1..]);
      } else {
        AtMostOneRequestUntilSettled(next, ops[1..]);
      }
    }
  }

  /** A request rejected with 401 ends in { user: null, initialized: true, loading: false }. */
  lemma UnauthorizedSessionEnds()
    ensures Run(InitialSession, [Init, Complete(NotOk)]) == Session(None, false, Some(UNAUTHORIZED), true)
    ensures Requests(InitialSession, [Init, Complete(NotOk)]) == 1
  {
    assert [Init, Complete(NotOk)][1..] == [Complete(NotOk)];
  }

  // ---------------------------------------------------------------------
  // The store object
  // ---------------------------------------------------------------------

  class Store {
    var user: Option<User>
    var loading: bool
    var error: Option<string>
    var initialized: bool

    function State(): Session
      reads this
    {
      Session(user, loading, error, initialized)
    }

    /** The store invariant `NoUserWhileLoading` on the fields; `RunKeepsInvariant` proves the same over runs of `Session` values. */
    ghost predicate Valid()
      reads this
    {
      NoUserWhileLoading(State())
    }

    /** The store as created: no user, not loading, no error, not initialized. */
    constructor ()
      ensures State() == InitialSession && Valid()
    {
      user, loading, error, initialized := None, false, None, false;
    }

    /** The synchronous part of `fetchMe`, up to its `await`; `started` tells whether a request was sent. */
    method FetchBegin() returns (started: bool)
      requires Valid()
      modifies this
      ensures Valid()
      ensures started == StartsFetch(old(State()))
      ensures State() == BeginFetch(old(State()))
    {
      if loading || user.Some? {
        return false;
      }
      loading, error := true, None;
      started := true;
    }

    /** The rest of `fetchMe`, once the request has settled. */
    method FetchComplete(outcome: FetchOutcome)
      requires Valid()
      modifies this
      ensures Valid()
      ensures State() == CompleteFetch(old(State()), outcome)
    {
      match outcome
      case Ok(body) =>
        user, loading := Some(body), false;
      case NotOk =>
        user, loading, error := None, false, Some(UNAUTHORIZED);
      case Threw(message) =>
        user, loading, error := None, false, Some(message.GetOr(FAILED_TO_LOAD_USER));
    }

    /** `init`: marks the store initialized first, then runs `fetchMe`. */
    method Init() returns (started: bool)
      requires Valid()
      modifies this
      ensures Valid()
      ensures started == InitStarts(old(State()))
      ensures State() == InitSession(old(State()))
    {
      if initialized {
        return false;
      }
      initialized := true;
      started := FetchBegin();
    }

    method Logout()
      requires Valid()
      modifies this
      ensures Valid()
      ensures State() == LogoutSession(old(State()))
    {
      user, initialized := None, false;
    }

    /** The direct `setState` of the dashboard's hydration writer. */
    method Hydrate(u: Option<User>)
      requires Valid()
      modifies this
      ensures Valid()
      ensures State() == HydrateSession(old(State()), u)
    {
      user, initialized, loading := u, true, false;
    }
  }

  /** Two back-to-back `init()` calls on a fresh store send exactly one request. */
  method InitTwiceOnFreshStore() returns (first: bool, second: bool)
    ensures first && !second
  {
    var store := new Store();
    first := store.Init();
    second := store.Init();
  }
}
