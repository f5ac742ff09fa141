/**
 * Interleavings of the session store. The store runs on one thread; the only
 * concurrency is that asynchronous actions suspend at their `await`s and other
 * actions run in between. A schedule is therefore a sequence of atomic steps,
 * each one a synchronous stretch of some action.
 *
 * The world adds two counters the source never stores: session fetches started
 * and not yet completed, and callbacks subscribed to the backend's auth events.
 * Step order within one `login` or `logout` is not enforced, so the schedules
 * here include every real one.
 */
module AuthTrace {
  import opened Wrappers
  import opened Session
  import opened AuthStore

  datatype World = World(store: Store, inFlight: nat, subscriptions: nat)

  datatype Step =
    | CallCheckAuth                      // `checkAuth()`, directly or from `login`
    | FinishCheckAuth(replies: Replies)  // the in-flight `checkAuth` resumes after its last `await`
    | AuthEvent(event: string)           // the subscribed callback fires
    | StartLogin                         // `login` before `signInWithPassword`
    | FinishLogin                        // `login`'s `finally`
    | StartLogout                        // `logout` before `signOut`
    | SettleLogout(reply: SignOutReply)  // `logout` after `signOut`
    | ChooseChurch(churchId: Option<string>)
    | InitListener

  /** A completion needs a fetch in flight; an event needs a subscribed callback. */
  predicate Enabled(w: World, step: Step) {
    match step
    case FinishCheckAuth(_) => w.inFlight > 0
    case AuthEvent(_) => w.subscriptions > 0
    case _ => true
  }

  /** One atomic step. */
  function Next(w: World, step: Step): (r: World)
    requires Enabled(w, step)
    ensures step.FinishCheckAuth? ==>
              !r.store.checking && !r.store.isLoading && r.inFlight == w.inFlight - 1
    ensures step.CallCheckAuth? && w.store.checking ==> r == w
    ensures step.AuthEvent? && RechecksOn(step.event) && w.store.checking ==> r == w
    ensures r.inFlight > w.inFlight ==>
              r.inFlight == w.inFlight + 1 && !w.store.checking && r.store.checking
    ensures r.subscriptions > w.subscriptions ==>
              r.subscriptions == w.subscriptions + 1 && !w.store.listenerInitialized
  {
    match step
    case CallCheckAuth =>
      World(Begin(w.store), if w.store.checking then w.inFlight else w.inFlight + 1, w.subscriptions)
    case FinishCheckAuth(replies) =>
      World(Complete(w.store, replies), w.inFlight - 1, w.subscriptions)
    case AuthEvent(event) =>
      var starts := RechecksOn(event) && !w.store.checking;
      World(Dispatch(w.store, event), if starts then w.inFlight + 1 else w.inFlight, w.subscriptions)
    case StartLogin => w.(store := StartLoading(w.store))
    case FinishLogin => w.(store := LoginFinally(w.store))
    case StartLogout => w.(store := StartLoading(w.store))
    case SettleLogout(reply) => w.(store := LogoutSettle(w.store, reply))
    case ChooseChurch(churchId) => w.(store := SetCurrentChurchId(w.store, churchId))
    case InitListener =>
      var init := InitializeListener(w.store);
      World(init.store, w.inFlight, if init.subscribed then w.subscriptions + 1 else w.subscriptions)
  }

  /** The world after a schedule, or `None` if some step of it cannot happen. */
  function Run(w: World, steps: seq<Step>): Option<World>
    decreases |steps|
  {
    if steps == [] then Some(w)
    else if !Enabled(w, steps[0]) then None
    else Run(Next(w, steps[0]), steps[1..])
  }

  /** A process just started (or restarted with a persisted church). */
  function Boot(p: Persisted): (w: World)
    ensures Inv(w)
  {
    World(Rehydrate(p), 0, 0)
  }

  /** The lock is held exactly while one fetch is in flight; the flag is set exactly when one callback is subscribed. */
  predicate Inv(w: World) {
    && w.inFlight == (if w.store.checking then 1 else 0)
    && w.subscriptions == (if w.store.listenerInitialized then 1 else 0)
  }

  lemma NextKeepsInv(w: World, step: Step)
    requires Inv(w) && Enabled(w, step)
    ensures Inv(Next(w, step))
  {
  }

  lemma {:induction false} RunKeepsInv(w: World, steps: seq<Step>)
    requires Inv(w)
    ensures Run(w, steps).Some? ==> Inv(Run(w, steps).value)
    decreases |steps|
  {
    if steps != [] && Enabled(w, steps[0]) {
      NextKeepsInv(w, steps[0]);
      RunKeepsInv(Next(w, steps[0]), steps[1..]);
    }
  }

  /**
   * Whatever the schedule since start-up, at most one session fetch is in
   * flight, it is in flight exactly while the lock is held, and at most one
   * callback is subscribed.
   */
  lemma AtMostOneFetch(p: Persisted, steps: seq<Step>)
    ensures Run(Boot(p), steps).Some? ==>
              var w := Run(Boot(p), steps).value;
              && w.inFlight <= 1
              && (w.inFlight == 1 <==> w.store.checking)
              && w.subscriptions <= 1
  {
    RunKeepsInv(Boot(p), steps);
  }

  /**
   * Two near-simultaneous triggers, a direct `checkAuth` and a
   * `TOKEN_REFRESHED` event, start one fetch; after it completes, no second
   * completion can follow.
   */
  lemma TwoTriggersOneResolution(w: World, r1: Replies, r2: Replies)
    requires Inv(w) && !w.store.checking && w.subscriptions > 0
    ensures Run(w, [CallCheckAuth, AuthEvent(TokenRefreshedEvent)])
            == Some(World(Begin(w.store), 1, w.subscriptions))
    ensures Run(w, [CallCheckAuth, AuthEvent(TokenRefreshedEvent), FinishCheckAuth(r1)])
            == Some(World(Complete(Begin(w.store), r1), 0, w.subscriptions))
    ensures Run(w, [CallCheckAuth, AuthEvent(TokenRefreshedEvent), FinishCheckAuth(r1), FinishCheckAuth(r2)])
            == None
  {
    var e := AuthEvent(TokenRefreshedEvent);
    var w1 := Next(w, CallCheckAuth);
    var w2 := Next(w1, e);
    var w3 := Next(w2, FinishCheckAuth(r1));
    assert w2 == World(Begin(w.store), 1, w.subscriptions);
    assert Run(w1, [e]) == Some(w2) by { assert Run(w2, []) == Some(w2); }
    assert Run(w1, [e, FinishCheckAuth(r1)]) == Some(w3) by {
      assert Run(w3, []) == Some(w3);
      assert Run(w2, [FinishCheckAuth(r1)]) == Some(w3);
    }
    assert Run(w1, [e, FinishCheckAuth(r1), FinishCheckAuth(r2)]) == None by {
      assert !Enabled(w3, FinishCheckAuth(r2));
      assert Run(w2, [FinishCheckAuth(r1), FinishCheckAuth(r2)]) == Run(w3, [FinishCheckAuth(r2)]);
    }
  }

  /**
   * `SIGNED_OUT` during a resolution clears `isLoading` while the lock is
   * still held; when the resolution then completes, it overwrites the
   * cleared user with the one it resolved.
   */
  lemma SignedOutThenLateCompletion(w: World, replies: Replies)
    requires Inv(w) && !w.store.checking && w.subscriptions > 0
    requires Classify(replies) in {SuperAdminRecord, MemberRecord}
    ensures var mid := Run(w, [CallCheckAuth, AuthEvent(SignedOutEvent)]);
            && mid.Some?
            && mid.value.store.checking && !mid.value.store.isLoading
            && mid.value.store.user.None?
    ensures var end := Run(w, [CallCheckAuth, AuthEvent(SignedOutEvent), FinishCheckAuth(replies)]);
            && end.Some?
            && end.value.store.user.Some?
            && end.value.store.user == Resolve(replies)
  {
    var e := AuthEvent(SignedOutEvent);
    var w1 := Next(w, CallCheckAuth);
    var w2 := Next(w1, e);
    var w3 := Next(w2, FinishCheckAuth(replies));
    assert Run(w1, [e]) == Some(w2) by { assert Run(w2, []) == Some(w2); }
    assert Run(w1, [e, FinishCheckAuth(replies)]) == Some(w3) by {
      assert Run(w3, []) == Some(w3);
      assert Run(w2, [FinishCheckAuth(replies)]) == Some(w3);
    }
  }

  /**
   * A `login` whose nested `checkAuth` is ignored, because another resolution
   * holds the lock, still clears `isLoading` in its `finally`: the UI shows
   * "not loading" while a fetch is in flight.
   */
  lemma LoginClearsLoadingUnderLock(w: World)
    requires Inv(w) && !w.store.checking
    ensures var end := Run(w, [CallCheckAuth, StartLogin, CallCheckAuth, FinishLogin]);
            && end.Some?
            && end.value.store.checking && !end.value.store.isLoading
            && end.value.inFlight == 1
  {
  }
}
