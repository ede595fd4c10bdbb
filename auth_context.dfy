/**
 * The authentication context of the chat application: the provider's session
 * state (`user`, `isAuthenticated`), the identity-change callback, profile
 * enrichment, and the `login`, `register` and `logout` operations exposed to
 * the views.
 *
 * Calls into the identity backend and the document store are not modelled.
 * Sign-in, sign-up, sign-out and the document write each appear as their
 * settled outcome, a `Result` given as a parameter; a document read appears
 * as the `Option<ProfileDoc>` snapshot given to enrichment.
 */
module AuthContext {
  import opened Wrappers
  import opened Messages

  /** The backend's signed-in identity record, reduced to `uid`, the only field the provider reads. */
  datatype Identity = Identity(uid: string)

  /** The profile document stored under `users/<uid>`. */
  datatype ProfileDoc = ProfileDoc(username: string, profileUrl: string, userId: string)

  /**
   * The value held in `user`: the backend identity's own fields when they are
   * present, overlaid with the profile fields once enrichment has run.
   */
  datatype User = User(identity: Option<Identity>, username: Option<string>,
                       profileUrl: Option<string>, userId: Option<string>)

  /** `isAuthenticated`: `undefined` until the first identity event, then a boolean. */
  datatype AuthFlag = Undefined | Known(value: bool)

  /** The provider's two pieces of state. */
  datatype AuthState = AuthState(user: Option<User>, isAuthenticated: AuthFlag)

  /** An error raised by the backend; its message embeds a code such as `(auth/invalid-email)`. */
  datatype FirebaseError = FirebaseError(message: string)

  /** The object `{success, msg?, data?, error?}` that `login`, `register` and `logout` resolve to. */
  datatype AuthResult = AuthResult(success: bool, msg: Option<string>,
                                   data: Option<Identity>, error: Option<FirebaseError>)

  /** What can happen to the provider's state: an identity event, or a profile fetch settling. */
  datatype Action =
    | IdentityChanged(identity: Option<Identity>)
    | ProfileFetched(captured: Option<User>, snapshot: Option<ProfileDoc>)

  /** The message `useAuth` throws outside a provider. */
  const OutsideProvider: string := "useAuth must be wrapped inside AuthContextProvider"

  /** State right after the provider mounts. */
  function Initial(): AuthState
  {
    AuthState(None, Undefined)
  }

  /** Outside the initial pending phase, the flag is true exactly when a user is present. */
  predicate Agrees(s: AuthState)
  {
    s.isAuthenticated.Known? && (s.isAuthenticated.value <==> s.user.Some?)
  }

  /** The user set by an identity event, before enrichment. */
  function FromIdentity(id: Identity): User
  {
    User(Some(id), None, None, None)
  }

  /** `{...base, username, profileUrl, userId}`; spreading `null` contributes no fields. */
  function Overlay(base: Option<User>, doc: ProfileDoc): User
  {
    User(if base.Some? then base.value.identity else None,
         Some(doc.username), Some(doc.profileUrl), Some(doc.userId))
  }

  /** `getDoc(doc(db, 'users', uid))`: the snapshot exists when the store holds that key. */
  function Fetch(users: map<string, ProfileDoc>, uid: string): Option<ProfileDoc>
  {
    if uid in users then Some(users[uid]) else None
  }

  /** The identity-change callback: the new state depends only on the event. */
  function OnEvent(identity: Option<Identity>): (t: AuthState)
    ensures Agrees(t)
    ensures t.isAuthenticated == Known(identity.Some?)
    ensures identity.Some? ==> t.user == Some(FromIdentity(identity.value))
  {
    if identity.Some? then AuthState(Some(FromIdentity(identity.value)), Known(true))
    else AuthState(None, Known(false))
  }

  /** Enrichment: `user` changes only when the snapshot exists, and the flag never changes. */
  function Enrich(s: AuthState, captured: Option<User>, snapshot: Option<ProfileDoc>): (t: AuthState)
    ensures t.isAuthenticated == s.isAuthenticated
    ensures snapshot.None? ==> t == s
    ensures snapshot.Some? ==> t.user.Some?
                               && t.user.value.username == Some(snapshot.value.username)
                               && t.user.value.profileUrl == Some(snapshot.value.profileUrl)
                               && t.user.value.userId == Some(snapshot.value.userId)
    ensures snapshot.Some? ==> t.user.value.identity == (if captured.Some? then captured.value.identity else None)
  {
    if snapshot.Some? then AuthState(Some(Overlay(captured, snapshot.value)), s.isAuthenticated)
    else s
  }

  function Step(s: AuthState, a: Action): AuthState
  {
    match a
    case IdentityChanged(identity) => OnEvent(identity)
    case ProfileFetched(captured, snapshot) => Enrich(s, captured, snapshot)
  }

  /** The state after the actions, applied in order from `s`. */
  function Run(s: AuthState, acts: seq<Action>): AuthState
    decreases |acts|
  {
    if acts == [] then s else Step(Run(s, acts[..|acts| - 1]), acts[|acts| - 1])
  }

  /** The identity carried by the latest identity event, or `None` if there was none. */
  function LastEvent(acts: seq<Action>): Option<Option<Identity>>
    decreases |acts|
  {
    if acts == [] then None
    else if acts[|acts| - 1].IdentityChanged? then Some(acts[|acts| - 1].identity)
    else LastEvent(acts[..|acts| - 1])
  }

  /** Every profile fetch is started by an earlier event that carried an identity. */
  ghost predicate FetchesFollowSignIns(acts: seq<Action>)
  {
    forall i :: 0 <= i < |acts| && acts[i].ProfileFetched? ==>
      exists j :: 0 <= j < i && acts[j].IdentityChanged? && acts[j].identity.Some?
  }

  /**
   * The flag is decided by the latest identity event alone: it stays as it was
   * until the first event, and profile fetches never touch it. If that event
   * carried an identity, a user is present whatever fetches settled after it.
   */
  lemma {:induction false} FlagFollowsLastEvent(s: AuthState, acts: seq<Action>)
    ensures Run(s, acts).isAuthenticated ==
      if LastEvent(acts).None? then s.isAuthenticated else Known(LastEvent(acts).value.Some?)
    ensures LastEvent(acts).Some? && LastEvent(acts).value.Some? ==> Run(s, acts).user.Some?
    decreases |acts|
  {
    if acts != [] {
      FlagFollowsLastEvent(s, acts[..|acts| - 1]);
    }
  }

  /** No identity event has happened exactly when the latest one is absent. */
  lemma {:induction false} NoEventYet(acts: seq<Action>)
    ensures LastEvent(acts).None? <==> forall i :: 0 <= i < |acts| ==> !acts[i].IdentityChanged?
    decreases |acts|
  {
    if acts != [] {
      var prefix := acts[..|acts| - 1];
      NoEventYet(prefix);
      assert forall i :: 0 <= i < |prefix| ==> prefix[i] == acts[i];
    }
  }

  /**
   * From mount, `isAuthenticated` is `undefined` only while nothing has
   * happened yet, and then `user` is still `null`.
   */
  lemma PendingOnlyBeforeFirstEvent(acts: seq<Action>)
    requires FetchesFollowSignIns(acts)
    ensures Run(Initial(), acts).isAuthenticated == Undefined <==> acts == []
    ensures Run(Initial(), acts).isAuthenticated == Undefined ==> Run(Initial(), acts).user == None
  {
    FlagFollowsLastEvent(Initial(), acts);
    NoEventYet(acts);
    if acts != [] && LastEvent(acts).None? {
      assert false;
    }
  }

  /** After any identity event, whatever came before, the flag agrees with `user`. */
  lemma EventRestoresAgreement(s: AuthState, acts: seq<Action>, identity: Option<Identity>)
    ensures Agrees(Run(s, acts + [IdentityChanged(identity)]))
  {
    assert (acts + [IdentityChanged(identity)])[..|acts|] == acts;
  }

  /**
   * Fetches have no stale-result check: one that settles after a sign-out
   * puts a user back while the flag stays false.
   */
  lemma SignOutRaceBreaksAgreement(id: Identity, doc: ProfileDoc)
    ensures var acts := [IdentityChanged(Some(id)), IdentityChanged(None), ProfileFetched(None, Some(doc))];
      FetchesFollowSignIns(acts) && !Agrees(Run(Initial(), acts))
      && Run(Initial(), acts).isAuthenticated == Known(false) && Run(Initial(), acts).user.Some?
  {
    var acts := [IdentityChanged(Some(id)), IdentityChanged(None), ProfileFetched(None, Some(doc))];
    assert acts[..2][..1] == [IdentityChanged(Some(id))];
    assert acts[..2] == [IdentityChanged(Some(id)), IdentityChanged(None)];
    assert Run(Initial(), acts[..2]) == OnEvent(None);
  }

  /**
   * The same missing check lets one user's late fetch overlay that user's
   * document after another user has signed in: the flag still agrees, but the
   * profile fields belong to the first user.
   */
  lemma LateFetchOverlaysPreviousUser(a: Identity, b: Identity, docA: ProfileDoc)
    ensures var acts := [IdentityChanged(Some(a)), IdentityChanged(Some(b)), ProfileFetched(None, Some(docA))];
      var t := Run(Initial(), acts);
      FetchesFollowSignIns(acts) && Agrees(t) && t.user.value.username == Some(docA.username)
      && t.user.value.userId == Some(docA.userId)
  {
    var acts := [IdentityChanged(Some(a)), IdentityChanged(Some(b)), ProfileFetched(None, Some(docA))];
    assert acts[..2][..1] == [IdentityChanged(Some(a))];
    assert acts[..2] == [IdentityChanged(Some(a)), IdentityChanged(Some(b))];
    assert Run(Initial(), acts[..2]) == OnEvent(Some(b));
  }

  /**
   * The callback's closure was created at mount, when `user` was `null`, so
   * every enrichment it runs drops the identity fields and keeps only the
   * profile fields.
   */
  lemma MountTimeCaptureDropsIdentity(s: AuthState, doc: ProfileDoc)
    ensures Enrich(s, None, Some(doc)).user == Some(User(None, Some(doc.username), Some(doc.profileUrl), Some(doc.userId)))
  {
  }

  /** `useAuth`: the provider's value, or the error it throws when there is none. */
  function UseAuth(value: Option<AuthContextProvider>): (r: Result<AuthContextProvider, string>)
    ensures r.Success? <==> value.Some?
    ensures r.Success? ==> r.value == value.value
    ensures r.Failure? ==> r.error == OutsideProvider
  {
    match value
    case Some(provider) => Success(provider)
    case None => Failure(OutsideProvider)
  }

  class AuthContextProvider {
    var user: Option<User>
    var isAuthenticated: AuthFlag
    /**
     * The `user` value seen by the identity callback's closure. The
     * subscription is made once, at mount, so this is the mount-time `null`.
     */
    const mountUser: Option<User> := None

    ghost function State(): AuthState
      reads this
    {
      AuthState(user, isAuthenticated)
    }

    /** Mount: `user` is `null` and `isAuthenticated` is `undefined`. */
    constructor ()
      ensures State() == Initial()
    {
      user := None;
      isAuthenticated := Undefined;
    }

    /**
     * The `onAuthStateChanged` callback. Returns the uid whose profile it asks
     * `updateUserData` to fetch, if any.
     */
    method OnAuthEvent(identity: Option<Identity>) returns (fetch: Option<string>)
      modifies this
      ensures State() == Step(old(State()), IdentityChanged(identity))
      ensures Agrees(State())
      ensures fetch == if identity.Some? then Some(identity.value.uid) else None
    {
      if identity.Some? {
        isAuthenticated := Known(true);
        user := Some(FromIdentity(identity.value));
        fetch := Some(identity.value.uid);
      } else {
        isAuthenticated := Known(false);
        user := None;
        fetch := None;
      }
    }

    /**
     * The tail of `updateUserData`, once `getDoc` has settled: `snapshot` is
     * the document if it exists. The overlay spreads the closure's `user`,
     * which is `mountUser`, so an enriched user carries no identity fields.
     */
    method ApplyProfile(snapshot: Option<ProfileDoc>)
      modifies this`user
      ensures State() == Step(old(State()), ProfileFetched(mountUser, snapshot))
      ensures snapshot.Some? ==> user == Some(User(None, Some(snapshot.value.username),
                                                   Some(snapshot.value.profileUrl), Some(snapshot.value.userId)))
    {
      if snapshot.Some? {
        user := Some(Overlay(mountUser, snapshot.value));
      }
    }

    /**
     * `login`: resolves to `{success: true}` when sign-in succeeds, otherwise to
     * `{success: false, msg}` with the translated message. It has no frame,
     * so it leaves `user` and `isAuthenticated` alone.
     */
    method Login(signIn: Result<Identity, FirebaseError>) returns (r: AuthResult)
      ensures r.success <==> signIn.Success?
      ensures r.data.None? && r.error.None?
      ensures signIn.Success? ==> r.msg.None?
      ensures signIn.Failure? ==> r.msg == Some(LoginMessage(signIn.error.message))
      ensures !r.success ==> r.msg.value in {InvalidEmailText, WrongCredentialsText, signIn.error.message}
    {
      match signIn
      case Success(_) =>
        r := AuthResult(true, None, None, None);
      case Failure(e) =>
        var msg := LoginMessage(e.message);
        r := AuthResult(false, Some(msg), None, None);
    }

    /**
     * `logout`: never throws; on failure the raw message and the error are
     * returned untranslated.
     */
    method Logout(signOut: Result<(), FirebaseError>) returns (r: AuthResult)
      ensures r.success <==> signOut.Success?
      ensures r.data.None?
      ensures signOut.Success? ==> r.msg.None? && r.error.None?
      ensures signOut.Failure? ==> r.msg == Some(signOut.error.message) && r.error == Some(signOut.error)
    {
      match signOut
      case Success(_) =>
        r := AuthResult(true, None, None, None);
      case Failure(e) =>
        r := AuthResult(false, Some(e.message), None, Some(e));
    }

    /**
     * `register`: writes the profile document under the new uid only after
     * sign-up succeeded; a failure of sign-up or of the write is translated.
     * `users` is the store before the call and `users'` after it.
     */
    method Register(signUp: Result<Identity, FirebaseError>, username: string, profileUrl: string,
                    write: Result<(), FirebaseError>, users: map<string, ProfileDoc>)
      returns (r: AuthResult, users': map<string, ProfileDoc>)
      ensures r.success <==> signUp.Success? && write.Success?
      ensures r.error.None?
      ensures r.success ==> r.data == Some(signUp.value) && r.msg.None?
      ensures r.success ==> users' == users[signUp.value.uid := ProfileDoc(username, profileUrl, signUp.value.uid)]
      ensures !r.success ==> users' == users && r.data.None?
      ensures signUp.Failure? ==> r.msg == Some(RegisterMessage(signUp.error.message))
      ensures signUp.Success? && write.Failure? ==> r.msg == Some(RegisterMessage(write.error.message))
    {
      match signUp
      case Failure(e) =>
        r := AuthResult(false, Some(RegisterMessage(e.message)), None, None);
        users' := users;
      case Success(id) =>
        match write
        case Failure(e) =>
          r := AuthResult(false, Some(RegisterMessage(e.message)), None, None);
          users' := users;
        case Success(_) =>
          users' := users[id.uid := ProfileDoc(username, profileUrl, id.uid)];
          r := AuthResult(true, None, Some(id), None);
    }
  }

  /**
   * A profile written by a successful `register` is what enrichment later
   * overlays when the new identity signs in.
   */
  lemma RegisteredProfileServesLaterSignIn(users: map<string, ProfileDoc>, id: Identity,
                                        username: string, profileUrl: string, captured: Option<User>)
    ensures var users' := users[id.uid := ProfileDoc(username, profileUrl, id.uid)];
      var t := Enrich(OnEvent(Some(id)), captured, Fetch(users', id.uid));
      Agrees(t) && t.isAuthenticated == Known(true)
      && t.user.value.username == Some(username)
      && t.user.value.profileUrl == Some(profileUrl)
      && t.user.value.userId == Some(id.uid)
  {
  }
}
