/**
 * The session store `useAuthStore`: the record `{user, isLoading,
 * currentChurchId}` plus the module-level lock `isCheckingAuth` and the
 * `_authListenerInitialized` flag, with each action as a pure transition.
 *
 * Every backend call is an input (`Replies`, `SignInReply`, `SignOutReply`).
 * `checkAuth` is split at its suspension: `Begin` runs synchronously up to the
 * first `await` and writes `isLoading` and the lock; `Complete` runs after the
 * last `await`, where every write to `user` and `currentChurchId`, and the
 * `finally`, happen. Nothing is written between the first and the last
 * `await`. Other steps may run between the two (see module `AuthTrace`).
 */
module AuthStore {
  import opened Wrappers
  import opened Session

  /** The store's state; `checking` is the module-level `isCheckingAuth` lock. */
  datatype Store = Store(
    user: Option<User>,
    isLoading: bool,
    currentChurchId: Option<string>,
    checking: bool,
    listenerInitialized: bool)

  /** The state a fresh process starts in, before rehydration. */
  const Initial := Store(None, true, None, false, false)

  /** `checkAuth` up to its first `await`: ignored while the lock is held, otherwise raises `isLoading` and takes the lock. */
  function Begin(s: Store): (r: Store)
    ensures r.checking
    ensures s.checking ==> r == s
    ensures !s.checking ==>
              && r.isLoading
              && r.user == s.user
              && r.currentChurchId == s.currentChurchId
              && r.listenerInitialized == s.listenerInitialized
  {
    if s.checking then s else s.(isLoading := true, checking := true)
  }

  /**
   * `checkAuth` after its last `await`: stores the resolved user (or clears
   * it), then, in `finally`, releases the lock and clears `isLoading`.
   */
  function Complete(s: Store, replies: Replies): (r: Store)
    ensures !r.checking && !r.isLoading
    ensures r.user == Resolve(replies)
    ensures r.currentChurchId == (if r.user.Some? then r.user.value.churchId else None)
    ensures Classify(replies) in {SessionError, NoSession, MemberQueryError, MemberMissing} ==>
              r.user == None && r.currentChurchId == None
    ensures Classify(replies) == SuperAdminRecord ==> r.currentChurchId == None
    ensures Classify(replies) == MemberRecord ==>
              r.currentChurchId == replies.member.data.value.churchId
              && r.user.value.churchId == replies.member.data.value.churchId
    ensures r.listenerInitialized == s.listenerInitialized
  {
    var u := Resolve(replies);
    var church := match u case Some(v) => v.churchId case None => None;
    s.(user := u, currentChurchId := church, checking := false, isLoading := false)
  }

  /** One whole `checkAuth` call with nothing interleaved between its two halves. */
  function CheckAuth(s: Store, replies: Replies): (r: Store)
    ensures s.checking ==> r == s
    ensures !s.checking ==>
              && !r.checking && !r.isLoading
              && r.user == Resolve(replies)
              && r.currentChurchId == (if r.user.Some? then r.user.value.churchId else None)
              && r.listenerInitialized == s.listenerInitialized
  {
    if s.checking then s else Complete(Begin(s), replies)
  }

  /** What `signInWithPassword` gave back, or that it threw. */
  datatype SignInReply = SignInError | SignInNoUser | SignInUser(id: string) | SignInThrew

  /** The first statement of both `login` and `logout`: raise `isLoading`, nothing else. */
  function StartLoading(s: Store): (r: Store)
    ensures r.isLoading
    ensures r.(isLoading := s.isLoading) == s
  {
    s.(isLoading := true)
  }

  /** `login`'s `finally`, which clears `isLoading` whoever holds the lock. */
  function LoginFinally(s: Store): (r: Store)
    ensures !r.isLoading
    ensures r.(isLoading := s.isLoading) == s
  {
    s.(isLoading := false)
  }

  /** The value `login` resolves to, and the store after it. */
  datatype LoginResult = LoginResult(ok: bool, store: Store)

  /**
   * `login` run to the end. A returned user makes it `true` whatever the
   * nested `checkAuth` did, including being ignored because of the lock.
   */
  function Login(s: Store, signIn: SignInReply, replies: Replies): (r: LoginResult)
    ensures r.ok <==> signIn.SignInUser?
    ensures !r.store.isLoading
    ensures r.store.checking == s.checking
    ensures r.store.listenerInitialized == s.listenerInitialized
    ensures !r.ok ==> r.store.user == s.user && r.store.currentChurchId == s.currentChurchId
    ensures r.ok && s.checking ==> r.store.user == s.user && r.store.currentChurchId == s.currentChurchId
    ensures r.ok && !s.checking ==> r.store.user == Resolve(replies)
    ensures r.ok && !s.checking ==>
              r.store.currentChurchId == (if r.store.user.Some? then r.store.user.value.churchId else None)
  {
    var started := StartLoading(s);
    match signIn
    case SignInUser(_) => LoginResult(true, LoginFinally(CheckAuth(started, replies)))
    case _ => LoginResult(false, LoginFinally(started))
  }

  /** What `signOut` gave back; `SignOutThrew` is a rejected promise, which `logout` does not catch. */
  datatype SignOutReply = SignedOut | SignOutError | SignOutThrew

  /** `logout` after `signOut` answered. A rejection escapes and leaves `isLoading` as it was. */
  function LogoutSettle(s: Store, reply: SignOutReply): (r: Store)
    ensures reply.SignedOut? ==> r.user.None? && r.currentChurchId.None? && !r.isLoading
    ensures reply.SignOutError? ==> r == s.(isLoading := false)
    ensures reply.SignOutThrew? ==> r == s
    ensures r.checking == s.checking && r.listenerInitialized == s.listenerInitialized
  {
    match reply
    case SignedOut => s.(user := None, currentChurchId := None, isLoading := false)
    case SignOutError => s.(isLoading := false)
    case SignOutThrew => s
  }

  /** `logout` run to the end. */
  function Logout(s: Store, reply: SignOutReply): (r: Store)
    ensures reply.SignedOut? ==> r.user.None? && r.currentChurchId.None? && !r.isLoading
    ensures reply.SignOutError? ==>
              r.user == s.user && r.currentChurchId == s.currentChurchId && !r.isLoading
    ensures reply.SignOutThrew? ==>
              r.user == s.user && r.currentChurchId == s.currentChurchId && r.isLoading
    ensures r.checking == s.checking && r.listenerInitialized == s.listenerInitialized
  {
    LogoutSettle(StartLoading(s), reply)
  }

  /** `setCurrentChurchId`: an unconditional setter that touches nothing else. */
  function SetCurrentChurchId(s: Store, churchId: Option<string>): (r: Store)
    ensures r.currentChurchId == churchId
    ensures r.user == s.user && r.isLoading == s.isLoading
    ensures r.checking == s.checking && r.listenerInitialized == s.listenerInitialized
  {
    s.(currentChurchId := churchId)
  }

  const SignedInEvent := "SIGNED_IN"
  const SignedOutEvent := "SIGNED_OUT"
  const TokenRefreshedEvent := "TOKEN_REFRESHED"
  const UserUpdatedEvent := "USER_UPDATED"

  /** The events on which the listener re-runs `checkAuth`. */
  predicate RechecksOn(event: string) {
    event == SignedInEvent || event == TokenRefreshedEvent || event == UserUpdatedEvent
  }

  /**
   * The listener callback, up to the point where it hands over: a re-check
   * event calls `checkAuth` (its first half, guarded by the lock),
   * `SIGNED_OUT` clears the session directly, any other event is ignored.
   */
  function Dispatch(s: Store, event: string): (r: Store)
    ensures RechecksOn(event) ==> r == Begin(s)
    ensures event == SignedOutEvent ==>
              && r.user.None? && r.currentChurchId.None? && !r.isLoading
              && r.checking == s.checking
              && r.listenerInitialized == s.listenerInitialized
    ensures !RechecksOn(event) && event != SignedOutEvent ==> r == s
  {
    if RechecksOn(event) then Begin(s)
    else if event == SignedOutEvent then s.(user := None, currentChurchId := None, isLoading := false)
    else s
  }

  /** The store after `initializeAuthListener`, and whether it subscribed a callback. */
  datatype ListenerInit = ListenerInit(store: Store, subscribed: bool)

  /** `initializeAuthListener`: subscribes only when the flag is not yet set, then sets it. */
  function InitializeListener(s: Store): (r: ListenerInit)
    ensures r.subscribed <==> !s.listenerInitialized
    ensures r.store.listenerInitialized
    ensures r.store.(listenerInitialized := s.listenerInitialized) == s
  {
    ListenerInit(s.(listenerInitialized := true), !s.listenerInitialized)
  }

  /** A second initialisation never subscribes again. */
  lemma ListenerInstalledOnce(s: Store)
    ensures !InitializeListener(InitializeListener(s).store).subscribed
  {
  }

  /** The persisted subset (`partialize`): only `currentChurchId`. */
  datatype Persisted = Persisted(currentChurchId: Option<string>)

  function Partialize(s: Store): (p: Persisted)
    ensures p.currentChurchId == s.currentChurchId
  {
    Persisted(s.currentChurchId)
  }

  /** The store a restarted process begins with: the initial state with the persisted subset merged in. */
  function Rehydrate(p: Persisted): (s: Store)
    ensures s.currentChurchId == p.currentChurchId
    ensures s.user.None? && s.isLoading && !s.checking && !s.listenerInitialized
  {
    Initial.(currentChurchId := p.currentChurchId)
  }

  /** A church chosen before a restart is back after it, while the user waits for `checkAuth`. */
  lemma RestartKeepsChurch(s: Store, churchId: Option<string>)
    ensures Rehydrate(Partialize(SetCurrentChurchId(s, churchId))).currentChurchId == churchId
    ensures Rehydrate(Partialize(SetCurrentChurchId(s, churchId))).user.None?
  {
  }

  /** Only `currentChurchId` is persisted: stores that agree on it persist the same thing. */
  lemma PersistedIgnoresSession(s: Store, t: Store)
    requires s.currentChurchId == t.currentChurchId
    ensures Partialize(s) == Partialize(t)
  {
  }
}
