/**
  The change-password screen: three password fields, a loading flag, an error message and a
  success snackbar, updated step by step by `handleUpdatePassword`. The two calls into the
  authentication service (re-authenticate with the current password, then set the new one)
  take their outcomes as parameters.
 */
module ChangePassword {
  import opened Wrappers
  import opened Backend
  import opened JsString
  import opened AuthSlice

  const MismatchMessage := "New passwords don't match"
  const TooShortMessage := "Password must be at least 6 characters"
  const WrongPasswordMessage := "Current password is incorrect"
  const MinLength := 6

  /**
    The ordered rule check: a mismatch between the new password and its confirmation is
    reported first, then a new password shorter than six UTF-16 code units; otherwise none.
   */
  function PasswordProblem(newPassword: string, confirmPassword: string): (r: Option<string>)
    ensures newPassword != confirmPassword ==> r == Some(MismatchMessage)
    ensures newPassword == confirmPassword && Utf16Length(newPassword) < MinLength ==> r == Some(TooShortMessage)
    ensures r.None? <==> newPassword == confirmPassword && Utf16Length(newPassword) >= MinLength
  {
    if newPassword != confirmPassword then Some(MismatchMessage)
    else if Utf16Length(newPassword) < MinLength then Some(TooShortMessage)
    else None
  }

  /** The mismatch rule wins even for a password that is also too short. */
  lemma MismatchReportedBeforeLength()
    ensures PasswordProblem("ab", "abc") == Some(MismatchMessage)
  {
  }

  /** Length six is accepted; length five is not. */
  lemma BoundaryLengths()
    ensures PasswordProblem("abcdef", "abcdef").None?
    ensures PasswordProblem("abcde", "abcde") == Some(TooShortMessage)
  {
    assert Utf16Length("abcdef") >= 6;
  }

  /** The length counts code units: three characters outside the Basic Multilingual Plane pass the check. */
  lemma ThreeAstralCharactersAccepted()
    ensures var p := "\U{1F600}\U{1F600}\U{1F600}"; |p| == 3 && PasswordProblem(p, p).None?
  {
    var p := "\U{1F600}\U{1F600}\U{1F600}";
    assert p[1..][1..][1..] == [];
    assert Utf16Length(p) == 6;
  }

  /** `user?.email || ""`: the address the current password is checked against. */
  function LoginEmail(user: Option<User>): (r: string)
    ensures user.Some? && user.value.email.Some? ==> r == user.value.email.value
    ensures user.None? || user.value.email.None? ==> r == ""
  {
    match user
    case None => ""
    case Some(u) => u.email.GetOr("")
  }

  datatype Request = SignInWithPassword(email: string, password: string) | UpdatePassword(password: string)

  datatype PasswordForm = PasswordForm(
    currentPassword: string,
    newPassword: string,
    confirmPassword: string,
    loading: bool,
    error: string,
    showSnackbar: bool)

  /** A call into the authentication service, with the screen's state at the moment it was made. */
  datatype Call = Call(request: Request, seen: PasswordForm)

  class ChangePasswordScreen {
    var currentPassword: string
    var newPassword: string
    var confirmPassword: string
    var loading: bool
    var error: string
    var showSnackbar: bool

    function Form(): PasswordForm
      reads this
    {
      PasswordForm(currentPassword, newPassword, confirmPassword, loading, error, showSnackbar)
    }

    constructor ()
      ensures Form() == PasswordForm("", "", "", false, "", false)
    {
      currentPassword, newPassword, confirmPassword := "", "", "";
      loading, error, showSnackbar := false, "", false;
    }

    /**
      `handleUpdatePassword`. A failed rule check records its message and does nothing else.
      Otherwise loading is switched on and the error cleared before re-authenticating; a
      failed re-authentication stops there, before any update; a successful update clears
      the three fields and shows the snackbar; loading ends off on every such path.
     */
    method HandleUpdatePassword(user: Option<User>, reauth: AuthReply, update: AuthReply)
      returns (ghost calls: seq<Call>)
      modifies this
      ensures var problem := PasswordProblem(old(newPassword), old(confirmPassword));
        problem.Some? ==> calls == [] && Form() == old(Form()).(error := problem.value)
      ensures PasswordProblem(old(newPassword), old(confirmPassword)).None? ==>
        && |calls| >= 1 && !loading
        && calls[0] == Call(SignInWithPassword(LoginEmail(user), old(currentPassword)),
                            old(Form()).(loading := true, error := ""))
      ensures PasswordProblem(old(newPassword), old(confirmPassword)).None? && reauth.ReturnedError? ==>
        |calls| == 1 && Form() == old(Form()).(loading := false, error := WrongPasswordMessage)
      ensures PasswordProblem(old(newPassword), old(confirmPassword)).None? && reauth.Threw? ==>
        |calls| == 1 && Form() == old(Form()).(loading := false, error := reauth.message)
      ensures PasswordProblem(old(newPassword), old(confirmPassword)).None? && reauth.Ok? ==>
        && |calls| == 2
        && calls[1] == Call(UpdatePassword(old(newPassword)), old(Form()).(loading := true, error := ""))
        && (update.Ok? ==> Form() == PasswordForm("", "", "", false, "", true))
        && (!update.Ok? ==> Form() == old(Form()).(loading := false, error := update.message))
    {
      calls := [];
      var problem := PasswordProblem(newPassword, confirmPassword);
      if problem.Some? {
        error := problem.value;
        return;
      }

      loading := true;
      error := "";

      calls := calls + [Call(SignInWithPassword(LoginEmail(user), currentPassword), Form())];
      match reauth {
        case ReturnedError(_) =>
          error := WrongPasswordMessage;
          loading := false;
          return;
        case Threw(message) =>
          error := message;
          loading := false;
          return;
        case Ok =>
      }

      calls := calls + [Call(UpdatePassword(newPassword), Form())];
      if update.Ok? {
        showSnackbar := true;
        currentPassword := "";
        newPassword := "";
        confirmPassword := "";
      } else {
        error := update.message;
      }
      loading := false;
    }
  }
}
