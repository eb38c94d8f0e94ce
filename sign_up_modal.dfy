/**
 * The form logic of components/SignUpModal.tsx: the minimum password length, the
 * mapping from identity-service error codes to messages, and the two submit
 * handlers, which close the form only on success.
 */
module SignUpModal {
  import opened Wrappers
  import opened AuthContext

  const MinPasswordLength: nat := 6

  const PasswordTooShortMessage := "Password must be at least 6 characters long."
  const EmailInUseMessage := "This email address is already in use."
  const InvalidEmailMessage := "Please enter a valid email address."
  const WeakPasswordMessage := "Password is too weak. Please choose a stronger one."
  const UnexpectedErrorMessage := "An unexpected error occurred. Please try again."
  const GoogleFailureMessage := "Could not sign up with Google. Please try again."

  /** The codes the form recognises. */
  const KnownCodes: set<string> := {"auth/email-already-in-use", "auth/invalid-email", "auth/weak-password"}

  /** The `switch (err.code)` of `handleSubmit`. */
  function SignUpErrorMessage(code: string): (message: string)
    ensures message != ""
    ensures code == "auth/email-already-in-use" <==> message == EmailInUseMessage
    ensures code == "auth/invalid-email" <==> message == InvalidEmailMessage
    ensures code == "auth/weak-password" <==> message == WeakPasswordMessage
    ensures code !in KnownCodes <==> message == UnexpectedErrorMessage
  {
    match code
    case "auth/email-already-in-use" => EmailInUseMessage
    case "auth/invalid-email" => InvalidEmailMessage
    case "auth/weak-password" => WeakPasswordMessage
    case _ => UnexpectedErrorMessage
  }

  /** What the modal shows: nothing when closed; the alert only for a non-empty error. */
  datatype ModalView = ModalView(alert: Option<string>)

  function Render(isOpen: bool, error: string): (v: Option<ModalView>)
    ensures v.None? <==> !isOpen
    ensures v.Some? ==> (v.value.alert.Some? <==> error != "")
    ensures v.Some? && v.value.alert.Some? ==> v.value.alert.value == error
  {
    if !isOpen then None
    else Some(ModalView(if error == "" then None else Some(error)))
  }

  /** The form's `error` state and the number of times it has called its `onClose` prop. */
  class SignUpForm {
    var error: string
    var closeRequests: nat

    constructor ()
      ensures error == "" && closeRequests == 0
    {
      error := "";
      closeRequests := 0;
    }

    /**
     * `handleSubmit` with the form's `name`, `email` and `password`. The identity
     * service's answers to `signUp` are the parameters `created`, `profileError` and
     * `accountNow`.
     */
    method HandleSubmit(auth: AuthProvider, identity: IdentityService,
                        name: string, email: string, password: string,
                        created: Result<Credential, AuthError>, profileError: Option<AuthError>,
                        accountNow: Option<User>)
      modifies this, auth, identity
      ensures |password| < MinPasswordLength ==>
                error == PasswordTooShortMessage && closeRequests == old(closeRequests)
                && unchanged(auth) && identity.calls == old(identity.calls)
      ensures |password| >= MinPasswordLength ==>
                identity.calls == old(identity.calls) + SignUpCalls(email, password, name, created)
      ensures |password| >= MinPasswordLength ==>
                var outcome := SignUpOutcome(created, profileError);
                && auth.Snapshot() == (if outcome.Success? then Step(old(auth.Snapshot()), Refreshed(accountNow))
                                       else old(auth.Snapshot()))
                && (outcome.Success? ==> error == "" && closeRequests == old(closeRequests) + 1)
                && (outcome.Failure? ==> error == SignUpErrorMessage(outcome.error.code)
                                         && closeRequests == old(closeRequests))
      ensures auth.subscribed == old(auth.subscribed)
    {
      error := "";
      if |password| < MinPasswordLength {
        error := PasswordTooShortMessage;
        return;
      }
      var r := auth.SignUp(identity, email, password, name, created, profileError, accountNow);
      if r.Success? {
        closeRequests := closeRequests + 1;
      } else {
        error := SignUpErrorMessage(r.error.code);
      }
    }

    /** `handleGoogleSignUp`; `answer` is the popup sign-in's outcome. */
    method HandleGoogleSignUp(auth: AuthProvider, identity: IdentityService,
                              answer: Result<Credential, AuthError>)
      modifies this, identity
      ensures identity.calls == old(identity.calls) + [SignInWithPopup(GoogleProvider)]
      ensures answer.Success? ==> error == "" && closeRequests == old(closeRequests) + 1
      ensures answer.Failure? ==> error == GoogleFailureMessage && closeRequests == old(closeRequests)
      ensures unchanged(auth)
    {
      error := "";
      var r := auth.SignInWithGoogle(identity, answer);
      if r.Success? {
        closeRequests := closeRequests + 1;
      } else {
        error := GoogleFailureMessage;
      }
    }
  }
}
