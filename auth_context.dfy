/**
 * The session provider of contexts/AuthContext.tsx.
 *
 * The provider's state is the pair (`currentUser`, `loading`). It changes only in the
 * identity service's change notification and in the synchronous refresh at the end of
 * `signUp`; `Step` and `Run` give those changes as a reference definition, and the
 * class `AuthProvider` is proved to follow them. The identity service is seen only
 * through the calls the provider issues (recorded by `IdentityService`) and through
 * the answers it gives, which are parameters of the methods.
 */
module AuthContext {
  import opened Wrappers

  datatype User = User(uid: string, email: Option<string>, displayName: Option<string>)

  /** A user credential; `user` may be absent, as the source's check allows. */
  datatype Credential = Credential(user: Option<User>)

  /** An identity-service failure, carrying the provider-reported error code. */
  datatype AuthError = AuthError(code: string)

  datatype FederatedProvider = GoogleProvider

  /** The identity-service operations the provider uses. */
  datatype IdentityCall =
    | CreateUserWithEmailAndPassword(email: string, password: string)
    | UpdateProfile(user: User, displayName: string)
    | SignInWithEmailAndPassword(email: string, password: string)
    | SignInWithPopup(provider: FederatedProvider)
    | SignOut
    | Subscribe
    | Unsubscribe

  /** The identity service, as the record of the calls issued to it. */
  class IdentityService {
    var calls: seq<IdentityCall>

    constructor ()
      ensures calls == []
    {
      calls := [];
    }

    method Record(call: IdentityCall)
      modifies this
      ensures calls == old(calls) + [call]
    {
      calls := calls + [call];
    }
  }

  // ---------------------------------------------------------------------
  // The session state machine

  datatype Session = Session(currentUser: Option<User>, loading: bool)

  /** `useState(null)` and `useState(true)`. */
  const InitialSession := Session(None, true)

  /** The two ways the session changes: a change notification, and the refresh after `signUp`. */
  datatype SessionEvent = Notified(user: Option<User>) | Refreshed(user: Option<User>)

  function Step(s: Session, e: SessionEvent): (t: Session)
    ensures t.currentUser == e.user
    ensures e.Notified? ==> !t.loading
    ensures e.Refreshed? ==> t.loading == s.loading
  {
    match e
    case Notified(u) => Session(u, false)
    case Refreshed(u) => s.(currentUser := u)
  }

  function Run(s: Session, events: seq<SessionEvent>): Session
    decreases |events|
  {
    if events == [] then s else Run(Step(s, events[0]), events[1..])
  }

  /** `{!loading && children}`: the render gate. */
  predicate RendersChildren(s: Session)
  {
    !s.loading
  }

  /** Once `loading` is false it stays false, whatever happens next. */
  lemma {:induction false} LoadingNeverReturns(s: Session, events: seq<SessionEvent>)
    requires !s.loading
    ensures !Run(s, events).loading
    decreases |events|
  {
    if events != [] {
      LoadingNeverReturns(Step(s, events[0]), events[1..]);
    }
  }

  /** `loading` is still true exactly when it was and no notification has arrived. */
  lemma {:induction false} LoadingUntilNotified(s: Session, events: seq<SessionEvent>)
    ensures Run(s, events).loading
        <==> s.loading && forall i :: 0 <= i < |events| ==> events[i].Refreshed?
    decreases |events|
  {
    if events != [] {
      var t := Step(s, events[0]);
      LoadingUntilNotified(t, events[1..]);
      if t.loading && (forall i :: 0 <= i < |events[1..]| ==> events[1..][i].Refreshed?) {
        forall i | 0 <= i < |events| ensures events[i].Refreshed? {
          if i > 0 { assert events[i] == events[1..][i - 1]; }
        }
      }
      if forall i :: 0 <= i < |events| ==> events[i].Refreshed? {
        assert events[0].Refreshed?;
        forall i | 0 <= i < |events[1..]| ensures events[1..][i].Refreshed? {
          assert events[1..][i] == events[i + 1];
        }
      }
    }
  }

  /** Children are rendered from the initial state exactly after some notification. */
  lemma RendersAfterFirstNotification(events: seq<SessionEvent>)
    ensures RendersChildren(Run(InitialSession, events))
        <==> exists i :: 0 <= i < |events| && events[i].Notified?
  {
    LoadingUntilNotified(InitialSession, events);
  }

  /** The user is the one carried by the last event, or unchanged when there was none. */
  lemma {:induction false} LastEventDecidesUser(s: Session, events: seq<SessionEvent>)
    ensures Run(s, events).currentUser
         == if events == [] then s.currentUser else events[|events| - 1].user
    decreases |events|
  {
    if events != [] {
      LastEventDecidesUser(Step(s, events[0]), events[1..]);
      if |events| > 1 {
        assert events[1..][|events[1..]| - 1] == events[|events| - 1];
      }
    }
  }

  /** A signed-in user disappears only through an event that carries no user. */
  lemma UserClearedOnlyByEvent(s: Session, events: seq<SessionEvent>)
    requires s.currentUser.Some? && Run(s, events).currentUser.None?
    ensures exists i :: 0 <= i < |events| && events[i].user.None?
  {
    LastEventDecidesUser(s, events);
    assert events[|events| - 1].user.None?;
  }

  // ---------------------------------------------------------------------
  // signUp, as seen from the identity service

  /** The calls `signUp` issues: account creation, then the profile update when a user came back. */
  function SignUpCalls(email: string, password: string, displayName: string,
                       created: Result<Credential, AuthError>): (calls: seq<IdentityCall>)
    ensures 1 <= |calls| <= 2
    ensures calls[0] == CreateUserWithEmailAndPassword(email, password)
    ensures |calls| == 2 <==> created.Success? && created.value.user.Some?
    ensures |calls| == 2 ==> calls[1] == UpdateProfile(created.value.user.value, displayName)
  {
    [CreateUserWithEmailAndPassword(email, password)]
    + match created
      case Success(Credential(Some(u))) => [UpdateProfile(u, displayName)]
      case _ => []
  }

  /**
   * What `signUp` resolves or rejects with, given the answers of account creation and
   * (when it is called) of the profile update.
   */
  function SignUpOutcome(created: Result<Credential, AuthError>, profileError: Option<AuthError>)
    : (r: Result<Credential, AuthError>)
    ensures r.Success? <==> created.Success? && (created.value.user.None? || profileError.None?)
    ensures r.Success? || created.Failure? ==> r == created
    ensures r.Failure? && created.Success? ==> r.error == profileError.value
  {
    match created
    case Failure(_) => created
    case Success(cred) =>
      if cred.user.Some? && profileError.Some? then Failure(profileError.value) else created
  }

  /** `useAuth()`: the context value, or the error thrown outside a provider. */
  function UseAuth(context: Option<Session>): (r: Result<Session, string>)
    ensures r.Failure? <==> context.None?
    ensures r.Success? ==> r.value == context.value
    ensures r.Failure? ==> r.error == "useAuth must be used within an AuthProvider"
  {
    match context
    case Some(value) => Success(value)
    case None => Failure("useAuth must be used within an AuthProvider")
  }

  // ---------------------------------------------------------------------
  // The provider

  class AuthProvider {
    var currentUser: Option<User>
    var loading: bool
    /** Whether the `onAuthStateChanged` listener of the mount effect is registered. */
    var subscribed: bool

    function Snapshot(): Session
      reads this
    {
      Session(currentUser, loading)
    }

    constructor ()
      ensures Snapshot() == InitialSession && !subscribed
    {
      currentUser := None;
      loading := true;
      subscribed := false;
    }

    /** The mount effect: subscribe once to change notifications. */
    method Mount(identity: IdentityService)
      requires !subscribed
      modifies this, identity
      ensures subscribed && Snapshot() == old(Snapshot())
      ensures identity.calls == old(identity.calls) + [Subscribe]
    {
      identity.Record(Subscribe);
      subscribed := true;
    }

    /** The effect's cleanup: release the subscription. */
    method Unmount(identity: IdentityService)
      requires subscribed
      modifies this, identity
      ensures !subscribed && Snapshot() == old(Snapshot())
      ensures identity.calls == old(identity.calls) + [Unsubscribe]
    {
      identity.Record(Unsubscribe);
      subscribed := false;
    }

    /** A change notification; none is delivered to a provider that is not subscribed. */
    method OnAuthStateChanged(user: Option<User>)
      modifies this
      ensures subscribed == old(subscribed)
      ensures Snapshot() == if old(subscribed) then Step(old(Snapshot()), Notified(user)) else old(Snapshot())
    {
      if subscribed {
        currentUser := user;
        loading := false;
      }
    }

    /**
     * `signUp(email, password, displayName)`. `created` and `profileError` are the
     * identity service's answers; `accountNow` is `auth.currentUser` after both awaits.
     */
    method SignUp(identity: IdentityService, email: string, password: string, displayName: string,
                  created: Result<Credential, AuthError>, profileError: Option<AuthError>,
                  accountNow: Option<User>)
      returns (r: Result<Credential, AuthError>)
      modifies this, identity
      ensures identity.calls == old(identity.calls) + SignUpCalls(email, password, displayName, created)
      ensures r == SignUpOutcome(created, profileError)
      ensures Snapshot() == if r.Success? then Step(old(Snapshot()), Refreshed(accountNow)) else old(Snapshot())
      ensures subscribed == old(subscribed)
    {
      identity.Record(CreateUserWithEmailAndPassword(email, password));
      if created.Failure? {
        return created;
      }
      var credential := created.value;
      if credential.user.Some? {
        identity.Record(UpdateProfile(credential.user.value, displayName));
        if profileError.Some? {
          return Failure(profileError.value);
        }
      }
      currentUser := accountNow;
      r := created;
    }

    /** `logIn`: delegates only; the provider's state is untouched. */
    method LogIn(identity: IdentityService, email: string, password: string,
                 answer: Result<Credential, AuthError>)
      returns (r: Result<Credential, AuthError>)
      modifies identity
      ensures identity.calls == old(identity.calls) + [SignInWithEmailAndPassword(email, password)]
      ensures r == answer
      ensures unchanged(this)
    {
      identity.Record(SignInWithEmailAndPassword(email, password));
      r := answer;
    }

    /** `logOut`: delegates only; the user is cleared by the later notification, not here. */
    method LogOut(identity: IdentityService, answer: Option<AuthError>)
      returns (r: Option<AuthError>)
      modifies identity
      ensures identity.calls == old(identity.calls) + [SignOut]
      ensures r == answer
      ensures unchanged(this)
    {
      identity.Record(SignOut);
      r := answer;
    }

    /** `signInWithGoogle`: a popup sign-in with a new Google provider; delegates only. */
    method SignInWithGoogle(identity: IdentityService, answer: Result<Credential, AuthError>)
      returns (r: Result<Credential, AuthError>)
      modifies identity
      ensures identity.calls == old(identity.calls) + [SignInWithPopup(GoogleProvider)]
      ensures r == answer
      ensures unchanged(this)
    {
      identity.Record(SignInWithPopup(GoogleProvider));
      r := answer;
    }
  }
}
