/** The login page: the e-mail / password / error state, the submit handler that validates the
    fields before asking the authentication context, and the demo-account quick login. */
module LoginPage {
  import opened Wrappers
  import opened Domain
  import opened AuthContext
  import AppRoutes

  const EmptyFieldsError: string := "Por favor complete todos los campos"
  const InvalidCredentialsError: string := "Credenciales inválidas"

  /** The e-mails of the demo-account cards. */
  const DemoEmails: seq<string> := ["ciudadano@demo.com", "supervisor@demo.com", "trabajador@demo.com"]

  /** Every demo card names an account that logs in with the demo password, one card per
      account, in the order of the accounts. */
  lemma DemoEmailsLogIn()
    ensures |DemoEmails| == |MockUsers|
    ensures forall i :: 0 <= i < |DemoEmails| ==> FindUserByEmail(DemoEmails[i]) == Some(MockUsers[i])
    ensures forall e :: e in DemoEmails ==> LoginAccepted(e, DemoPassword)
  {
    forall i | 0 <= i < |DemoEmails|
      ensures FindUserByEmail(DemoEmails[i]) == Some(MockUsers[i])
    {
      EveryAccountLogsIn(MockUsers[i]);
    }
  }

  // The form across a submit, with the application shell around it.

  /** What the login form shows: its two fields and its error message. */
  datatype FormView = FormView(email: string, password: string, error: string)

  /** A freshly mounted form. */
  const BlankForm: FormView := FormView("", "", "")

  /** The `/login` route across one submit of `form` by a visitor with session `user`, as the
      application is wired. An empty field only sets the fields error. Otherwise `login` raises
      the session's loading flag, and while it is up the shell renders the spinner in place of
      every route, so the form is unmounted. Once the session has loaded, the route either no
      longer shows the form (None) or mounts a new one. The handler's own error message is
      written to the unmounted form and never shown. */
  function ShownAfterSubmit(form: FormView, user: Option<User>): (shown: Option<FormView>)
    ensures form.email == "" || form.password == "" ==> shown == Some(form.(error := EmptyFieldsError))
    ensures form.email != "" && form.password != "" ==>
              (shown.Some? <==> user.None? && !LoginAccepted(form.email, form.password))
    ensures form.email != "" && form.password != "" && shown.Some? ==> shown.value == BlankForm
  {
    if form.email == "" || form.password == "" then Some(form.(error := EmptyFieldsError))
    else
      var unmounted := AppRoutes.Route("/login", true, user).Spinner?;
      var after := if LoginAccepted(form.email, form.password) then FindUserByEmail(form.email) else user;
      if AppRoutes.Route("/login", false, after) != AppRoutes.Show(AppRoutes.LoginPage) then None
      else if unmounted then Some(BlankForm)
      else Some(form.(error := InvalidCredentialsError))
  }

  /** As written, a visitor whose credentials are refused is shown an empty form with no error
      message: the credentials error never reaches the screen, and what was typed is lost. */
  lemma RefusedLoginShowsBlankForm(form: FormView)
    requires form.email != "" && form.password != ""
    requires !LoginAccepted(form.email, form.password)
    ensures ShownAfterSubmit(form, None) == Some(BlankForm)
    ensures ShownAfterSubmit(form, None).value.error != InvalidCredentialsError
    ensures ShownAfterSubmit(form, None).value != form
  {
  }

  class LoginForm {
    var email: string
    var password: string
    var error: string

    constructor ()
      ensures email == "" && password == "" && error == ""
    {
      email, password, error := "", "", "";
    }

    method SetEmail(value: string)
      modifies this
      ensures email == value && password == old(password) && error == old(error)
    {
      email := value;
    }

    method SetPassword(value: string)
      modifies this
      ensures password == value && email == old(email) && error == old(error)
    {
      password := value;
    }

    /** `handleSubmit`, on a form that stays mounted while the session logs in (as intended;
        see `ShownAfterSubmit` for the shell as written). The error is cleared first; an empty field sets the fields error and the
        session is not asked; otherwise the session's `login` decides, and a refusal sets the
        credentials error. The fields themselves are never changed. */
    method HandleSubmit(auth: AuthSession) returns (success: bool)
      modifies this, auth
      ensures email == old(email) && password == old(password)
      ensures old(email) == "" || old(password) == "" ==>
                !success && error == EmptyFieldsError && auth.user == old(auth.user) && auth.isLoading == old(auth.isLoading)
      ensures old(email) != "" && old(password) != "" ==>
                (success <==> LoginAccepted(old(email), old(password)))
                && error == (if success then "" else InvalidCredentialsError)
                && auth.user == (if success then FindUserByEmail(old(email)) else old(auth.user))
                && !auth.isLoading
    {
      error := "";
      if email == "" || password == "" {
        error := EmptyFieldsError;
        return false;
      }
      success := auth.Login(email, password);
      if !success {
        error := InvalidCredentialsError;
      }
    }

    /** `quickLogin`: fills the form with a demo account's e-mail and the demo password. */
    method QuickLogin(demoEmail: string)
      modifies this
      ensures email == demoEmail && password == DemoPassword
      ensures error == old(error)
    {
      email := demoEmail;
      password := DemoPassword;
    }
  }
}
