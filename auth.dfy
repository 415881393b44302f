/**
 * The sign-in page: one form that logs in or signs up. Submitting runs a
 * chain of guards that stop at the first failing one; the account calls
 * themselves belong to the authentication context, whose reply is a
 * parameter. Navigation is recorded as the path navigated to.
 */
module Auth {
  import opened JsText

  datatype AuthForm = AuthForm(username: string, email: string, password: string, confirmPassword: string)

  const EmptyForm := AuthForm("", "", "", "")

  /** A call into the authentication context. */
  datatype AuthCall = Login(email: string, password: string) | Signup(username: string, email: string, password: string)

  /** The context's reply: `{success: true}` or `{success: false, error}`. */
  datatype AuthReply = Succeeded | Failed(error: string)

  const FillInAllFields := "Please fill in all fields"
  const PasswordsDiffer := "Passwords do not match"
  const PasswordTooShort := "Password must be at least 6 characters"

  /** The login guard: the message it stops with, if any. */
  function LoginCheck(form: AuthForm): Option<string> {
    if form.email == "" || form.password == "" then Some(FillInAllFields) else None
  }

  /** The sign-up guards, in order: a field left empty, then differing passwords, then a short password. */
  function SignupCheck(form: AuthForm): Option<string> {
    if form.username == "" || form.email == "" || form.password == "" || form.confirmPassword == "" then
      Some(FillInAllFields)
    else if form.password != form.confirmPassword then Some(PasswordsDiffer)
    else if |form.password| < 6 then Some(PasswordTooShort)
    else None
  }

  /** The login guard passes exactly when both fields are filled in. */
  lemma LoginCheckPasses(form: AuthForm)
    ensures LoginCheck(form).None? <==> form.email != "" && form.password != ""
    ensures LoginCheck(form).Some? ==> LoginCheck(form).value == FillInAllFields
  {
  }

  /**
   * Sign-up goes ahead exactly when all four fields are filled in, the
   * passwords agree and the password has at least six characters; and the
   * message shown is that of the first check that fails.
   */
  lemma SignupCheckPasses(form: AuthForm)
    ensures SignupCheck(form).None? <==>
      form.username != "" && form.email != "" && form.password != "" && form.confirmPassword != ""
      && form.password == form.confirmPassword && |form.password| >= 6
    ensures (form.username == "" || form.email == "" || form.password == "" || form.confirmPassword == "")
      ==> SignupCheck(form) == Some(FillInAllFields)
    ensures SignupCheck(form) == Some(PasswordsDiffer) <==>
      form.username != "" && form.email != "" && form.password != "" && form.confirmPassword != ""
      && form.password != form.confirmPassword
    ensures SignupCheck(form) == Some(PasswordTooShort) <==>
      form.username != "" && form.email != "" && form.password != ""
      && form.password == form.confirmPassword && |form.password| < 6
  {
  }

  /** `location.state?.from?.pathname || '/'`: where a successful submit leads. */
  function RedirectTarget(fromPath: Option<string>): (r: string)
    ensures r != ""
    ensures fromPath.Some? && fromPath.value != "" ==> r == fromPath.value
    ensures !(fromPath.Some? && fromPath.value != "") ==> r == "/"
  {
    if fromPath.Some? && fromPath.value != "" then fromPath.value else "/"
  }

  /** The form with the input called `name` set to `value`; a name that is none of the four changes none of them. */
  function FormAfterChange(form: AuthForm, name: string, value: string): AuthForm {
    if name == "username" then form.(username := value)
    else if name == "email" then form.(email := value)
    else if name == "password" then form.(password := value)
    else if name == "confirmPassword" then form.(confirmPassword := value)
    else form
  }

  /** The input called `name`, if the form has one. */
  function Field(form: AuthForm, name: string): Option<string> {
    if name == "username" then Some(form.username)
    else if name == "email" then Some(form.email)
    else if name == "password" then Some(form.password)
    else if name == "confirmPassword" then Some(form.confirmPassword)
    else None
  }

  /**
   * A change sets the named input and leaves every other input as it was;
   * writing back an input's own value changes nothing.
   */
  lemma ChangeSetsOnlyItsField(form: AuthForm, name: string, value: string, other: string)
    ensures Field(form, name).Some? ==> Field(FormAfterChange(form, name, value), name) == Some(value)
    ensures other != name ==> Field(FormAfterChange(form, name, value), other) == Field(form, other)
    ensures Field(form, name).Some? ==> FormAfterChange(form, name, Field(form, name).value) == form
  {
  }

  /** After switching mode the form is empty, so submitting it stops at the first guard. */
  lemma EmptyFormStopsSubmit()
    ensures LoginCheck(EmptyForm) == Some(FillInAllFields) && SignupCheck(EmptyForm) == Some(FillInAllFields)
  {
  }

  class AuthPage {
    var isLogin: bool
    var form: AuthForm
    var error: string
    var loading: bool
    /** The calls made into the authentication context, oldest first. */
    var calls: seq<AuthCall>
    var navigatedTo: Option<string>

    constructor ()
      ensures isLogin && form == EmptyForm && error == "" && !loading
      ensures calls == [] && navigatedTo.None?
    {
      isLogin := true;
      form := EmptyForm;
      error := "";
      loading := false;
      calls := [];
      navigatedTo := None;
    }

    /** `handleChange`: the named field takes the value and the error is cleared. */
    method HandleChange(name: string, value: string)
      modifies this`form, this`error
      ensures form == FormAfterChange(old(form), name, value)
      ensures error == ""
    {
      form := FormAfterChange(form, name, value);
      error := "";
    }

    /** `toggleMode`: switch between login and sign-up with an empty form and no error. */
    method ToggleMode()
      modifies this`isLogin, this`error, this`form
      ensures isLogin == !old(isLogin) && error == "" && form == EmptyForm
    {
      isLogin := !isLogin;
      error := "";
      form := EmptyForm;
    }

    /**
     * `handleSubmit`, with `reply` what the context answers if it is called
     * and `fromPath` the `location.state?.from?.pathname` the page was
     * reached with. A failing guard shows its message without calling the
     * context; otherwise exactly one call is made, and a success navigates
     * to `RedirectTarget(fromPath)` while a failure shows the context's
     * message. Every path ends with `loading` false.
     */
    method HandleSubmit(reply: AuthReply, fromPath: Option<string>)
      modifies this`error, this`loading, this`calls, this`navigatedTo
      ensures !loading
      ensures var check := if isLogin then LoginCheck(form) else SignupCheck(form);
        var call := if isLogin then Login(form.email, form.password)
                    else Signup(form.username, form.email, form.password);
        (check.Some? ==> error == check.value && calls == old(calls) && navigatedTo == old(navigatedTo))
        && (check.None? ==> calls == old(calls) + [call])
        && (check.None? && reply.Succeeded? ==> error == "" && navigatedTo == Some(RedirectTarget(fromPath)))
        && (check.None? && reply.Failed? ==> error == reply.error && navigatedTo == old(navigatedTo))
    {
      error := "";
      loading := true;
      if isLogin {
        if form.email == "" || form.password == "" {
          error := FillInAllFields;
          loading := false;
          return;
        }
        calls := calls + [Login(form.email, form.password)];
      } else {
        if form.username == "" || form.email == "" || form.password == "" || form.confirmPassword == "" {
          error := FillInAllFields;
          loading := false;
          return;
        }
        if form.password != form.confirmPassword {
          error := PasswordsDiffer;
          loading := false;
          return;
        }
        if |form.password| < 6 {
          error := PasswordTooShort;
          loading := false;
          return;
        }
        calls := calls + [Signup(form.username, form.email, form.password)];
      }
      if reply.Succeeded? {
        navigatedTo := Some(RedirectTarget(fromPath));
      } else {
        error := reply.error;
      }
      loading := false;
    }
  }
}
