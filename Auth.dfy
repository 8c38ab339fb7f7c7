/**
 * The sign-in / sign-up form: the sign-up checks run in a fixed order before any call is made,
 * a successful sign-up saves the profile with trimmed names, and every failure ends up as one
 * error message.
 */
module Auth {
  import opened Wrappers
  import opened Strings

  const NamesRequired: string := "First name and last name are required"
  const PasswordsDiffer: string := "Passwords do not match"
  const PasswordTooShort: string := "Password must be at least 6 characters long"
  const DefaultError: string := "An error occurred during authentication"
  const MinPasswordLength: nat := 6

  /** The five form fields. */
  datatype Form = Form(email: string, password: string, confirmPassword: string, firstName: string, lastName: string)

  const EmptyForm: Form := Form("", "", "", "", "")

  /** A backend call the submit makes. */
  datatype AuthCall =
    | SignIn(email: string, password: string)
    | SignUp(email: string, password: string)
    | UpsertProfile(id: string, first_name: string, last_name: string)

  /**
   * The sign-up checks, in order: both names non-blank, the passwords equal, the password at
   * least six characters. The first one that fails gives the message.
   */
  function SignupError(f: Form): (r: Option<string>)
    ensures r.None? <==> !IsBlank(f.firstName) && !IsBlank(f.lastName) && f.password == f.confirmPassword && |f.password| >= MinPasswordLength
    ensures IsBlank(f.firstName) || IsBlank(f.lastName) ==> r == Some(NamesRequired)
    ensures !IsBlank(f.firstName) && !IsBlank(f.lastName) && f.password != f.confirmPassword ==> r == Some(PasswordsDiffer)
    ensures !IsBlank(f.firstName) && !IsBlank(f.lastName) && f.password == f.confirmPassword && |f.password| < MinPasswordLength
            ==> r == Some(PasswordTooShort)
    ensures r.Some? ==> r.value != ""
  {
    if IsBlank(f.firstName) || IsBlank(f.lastName) then Some(NamesRequired)
    else if f.password != f.confirmPassword then Some(PasswordsDiffer)
    else if |f.password| < MinPasswordLength then Some(PasswordTooShort)
    else None
  }

  /** With names given, the password check only ever reports one of its own two messages. */
  lemma PasswordChecksOnlyWithNames(f: Form)
    requires SignupError(f).Some? && SignupError(f) != Some(NamesRequired)
    ensures !IsBlank(f.firstName) && !IsBlank(f.lastName)
    ensures SignupError(f) == Some(PasswordsDiffer) || SignupError(f) == Some(PasswordTooShort)
  {
  }

  /** The shown text of a caught error: its message, or the default text when the message is empty. */
  function ErrorText(message: string): (r: string)
    ensures r != ""
    ensures message != "" ==> r == message
  {
    if message != "" then message else DefaultError
  }

  /** Whether a submit ends without an error. */
  predicate Succeeded(isLogin: bool, f: Form, signIn: Outcome<()>, signUp: Outcome<Option<string>>, upsert: Outcome<()>) {
    if isLogin then signIn.Ok?
    else SignupError(f).None? && signUp.Ok? && (signUp.value.None? || upsert.Ok?)
  }

  /** The form's state. */
  class AuthState {
    var isLogin: bool
    var showPassword: bool
    var form: Form
    var error: string
    var loading: bool

    constructor ()
      ensures isLogin && !showPassword && form == EmptyForm && error == "" && !loading
    {
      isLogin := true;
      showPassword := false;
      form := EmptyForm;
      error := "";
      loading := false;
    }

    method EditForm(f: Form)
      modifies this`form
      ensures form == f
    {
      form := f;
    }

    /** Either eye button. */
    method ToggleShowPassword()
      modifies this`showPassword
      ensures showPassword == !old(showPassword)
    {
      showPassword := !showPassword;
    }

    /**
     * Submitting. Login sends only the sign-in. Sign-up runs its checks first and sends
     * nothing when one fails; otherwise it signs up, and when a user comes back saves the
     * profile with trimmed names. `signIn`, `signUp` (the new user's id, if any) and `upsert`
     * are the outcomes of those calls, read only when they are made. Returns the calls made.
     */
    method Submit(signIn: Outcome<()>, signUp: Outcome<Option<string>>, upsert: Outcome<()>) returns (calls: seq<AuthCall>)
      modifies this`error, this`loading
      ensures !loading
      ensures error == "" <==> Succeeded(isLogin, form, signIn, signUp, upsert)
      ensures isLogin ==>
        calls == [SignIn(form.email, form.password)] && error == (if signIn.Err? then ErrorText(signIn.message) else "")
      ensures !isLogin && SignupError(form).Some? ==> calls == [] && error == SignupError(form).value
      ensures !isLogin && SignupError(form).None? && signUp.Err? ==>
        calls == [SignUp(form.email, form.password)] && error == ErrorText(signUp.message)
      ensures !isLogin && SignupError(form).None? && signUp.Ok? && signUp.value.None? ==>
        calls == [SignUp(form.email, form.password)] && error == ""
      ensures !isLogin && SignupError(form).None? && signUp.Ok? && signUp.value.Some? ==>
        && calls == [SignUp(form.email, form.password), UpsertProfile(signUp.value.value, Trim(form.firstName), Trim(form.lastName))]
        && error == (if upsert.Err? then ErrorText(upsert.message) else "")
    {
      var f := form;
      error := "";
      loading := true;
      calls := [];
      if isLogin {
        calls := [SignIn(form.email, form.password)];
        if signIn.Err? {
          error := ErrorText(signIn.message);
        }
      } else {
        var invalid := SignupError(form);
        if invalid.Some? {
          error := invalid.value;
        } else {
          calls := [SignUp(form.email, form.password)];
          if signUp.Err? {
            error := ErrorText(signUp.message);
          } else if signUp.value.Some? {
            calls := [SignUp(form.email, form.password), UpsertProfile(signUp.value.value, Trim(form.firstName), Trim(form.lastName))];
            if upsert.Err? {
              error := ErrorText(upsert.message);
            }
          }
        }
      }
      loading := false;
      assert form == f;
    }

    /** Switching between login and sign-up clears the error and every field. */
    method ToggleMode()
      modifies this`isLogin, this`error, this`form
      ensures isLogin == !old(isLogin) && error == "" && form == EmptyForm
    {
      isLogin := !isLogin;
      error := "";
      form := EmptyForm;
    }
  }
}
