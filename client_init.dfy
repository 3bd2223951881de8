/**
 * The dashboard's hydration writer: an effect that copies the user the
 * server layout fetched into the session store, guarded by a ref.
 */
module ClientInit {
  import opened Options
  import opened UserModel
  import opened AuthStore

  /** The effect's guard `!initialized.current || user`: a present user always passes it. */
  predicate ShouldHydrate(refSet: bool, user: Option<User>) {
    !refSet || user.Some?
  }

  lemma PresentUserAlwaysHydrates(refSet: bool, u: User)
    ensures ShouldHydrate(refSet, Some(u))
  {
  }

  class DashboardClientInit {
    /** The ref `initialized.current`. */
    var refSet: bool

    constructor ()
      ensures !refSet
    {
      refSet := false;
    }

    /** One run of the effect for the `user` prop; `hydrated` tells whether it wrote the store. */
    method Effect(store: Store, user: Option<User>) returns (hydrated: bool)
      requires store.Valid()
      modifies this, store
      ensures store.Valid()
      ensures hydrated == ShouldHydrate(old(refSet), user)
      ensures hydrated ==> store.State() == HydrateSession(old(store.State()), user) && refSet
      ensures !hydrated ==> store.State() == old(store.State()) && refSet == old(refSet)
    {
      hydrated := !refSet || user.Some?;
      if hydrated {
        store.Hydrate(user);
        refSet := true;
      }
    }
  }

  /**
   * After the effect runs with a user, the store holds that user, is
   * initialized and not loading, keeps its error, and neither `init()`
   * nor `fetchMe()` sends a request.
   */
  method HydrateThenInit(u: User, staleError: Option<string>)
    returns (state: Session, initStarted: bool, fetchStarted: bool)
    ensures state == Session(Some(u), false, staleError, true)
    ensures !initStarted && !fetchStarted
  {
    var store := new Store();
    store.error := staleError;
    var writer := new DashboardClientInit();
    var _ := writer.Effect(store, Some(u));
    var again := writer.Effect(store, Some(u));
    assert again;
    state := store.State();
    initStarted := store.Init();
    fetchStarted := store.FetchBegin();
  }
}
