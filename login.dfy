/** `LoginComponent.submit`: the form gate, the loading and error signals, and
    the two ways the login request ends. */
module Login {
  import opened Common
  import Forms

  const LoginError: string := "Invalid email or password"
  const DashboardUrl: string := "/dashboard"

  /** The non-nullable form: `email` (required, email) and `password` (required). */
  datatype LoginForm = LoginForm(email: string, password: string)

  datatype Credentials = Credentials(email: string, password: string)

  datatype LoginState = LoginState(form: LoginForm, loading: bool, error: Option<string>)

  predicate FormValid(f: LoginForm, looksLikeEmail: string -> bool) {
    && Forms.Required(f.email) && Forms.Email(f.email, looksLikeEmail)
    && Forms.Required(f.password)
  }

  /** The form is valid exactly when both fields are filled in and the email
      has the email shape. */
  lemma FormValidIff(f: LoginForm, looksLikeEmail: string -> bool)
    ensures FormValid(f, looksLikeEmail) <==> f.email != "" && looksLikeEmail(f.email) && f.password != ""
  {
  }

  class LoginComponent {
    var form: LoginForm
    var loading: bool
    var error: Option<string>

    function View(): LoginState
      reads this
    {
      LoginState(form, loading, error)
    }

    constructor ()
      ensures View() == LoginState(LoginForm("", ""), false, None)
    {
      form := LoginForm("", "");
      loading := false;
      error := None;
    }

    /** `submit`, up to the request: nothing happens on an invalid form;
        otherwise the form's raw values are sent. */
    method Submit(looksLikeEmail: string -> bool) returns (request: Option<Credentials>)
      modifies this
      ensures !FormValid(old(form), looksLikeEmail) ==> request == None && View() == old(View())
      ensures FormValid(old(form), looksLikeEmail) ==>
        View() == old(View()).(loading := true, error := None)
      ensures FormValid(old(form), looksLikeEmail) ==>
        request == Some(Credentials(old(form).email, old(form).password))
    {
      if !FormValid(form, looksLikeEmail) {
        return None;
      }
      loading := true;
      error := None;
      request := Some(Credentials(form.email, form.password));
    }

    /** The login response: success navigates to the dashboard and leaves the
        signals as they are; any failure shows one fixed message. */
    method OnLoginSettled(succeeded: bool) returns (navigateTo: Option<string>)
      modifies this
      ensures succeeded ==> navigateTo == Some(DashboardUrl) && View() == old(View())
      ensures !succeeded ==> navigateTo == None
      ensures !succeeded ==> View() == old(View()).(error := Some(LoginError), loading := false)
    {
      if succeeded {
        navigateTo := Some(DashboardUrl);
      } else {
        error := Some(LoginError);
        loading := false;
        navigateTo := None;
      }
    }
  }
}
