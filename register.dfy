/** `RegisterComponent`: the registration form's rules, the loading, error and
    success signals, and the two ways the registration request ends. */
module Register {
  import opened Common
  import Forms

  const NameMaxLength: nat := 50
  const PasswordMinLength: nat := 6
  const ArtistRole: string := "artist"
  const DefaultError: string := "Registration failed."
  const LoginUrl: string := "/login"
  const RedirectDelayMs: nat := 1500

  datatype RegisterForm = RegisterForm(name: string, email: string, password: string)

  /** The body posted to the registration endpoint. */
  datatype RegisterBody = RegisterBody(name: string, email: string, password: string, role: string)

  /** How the request ends: success, or an error whose body may carry a message. */
  datatype RegisterOutcome = Registered | RegisterFailed(message: Option<string>)

  /** `setTimeout(() => navigateByUrl(url), delay)`. */
  datatype ScheduledNavigation = ScheduledNavigation(url: string, delayMs: nat)

  datatype RegisterState = RegisterState(form: RegisterForm, loading: bool, error: Option<string>, success: bool)

  /** `name`: required, at most 50; `email`: required, email;
      `password`: required, at least 6. */
  predicate FormValid(f: RegisterForm, looksLikeEmail: string -> bool) {
    && Forms.Required(f.name) && Forms.MaxLength(f.name, NameMaxLength)
    && Forms.Required(f.email) && Forms.Email(f.email, looksLikeEmail)
    && Forms.Required(f.password) && Forms.MinLength(f.password, PasswordMinLength)
  }

  /** The form is valid exactly when the name has 1 to 50 UTF-16 code units,
      the email is filled in and has the email shape, and the password has
      at least 6 code units. */
  lemma FormValidIff(f: RegisterForm, looksLikeEmail: string -> bool)
    ensures FormValid(f, looksLikeEmail) <==>
              && 1 <= Forms.Utf16Length(f.name) <= 50
              && f.email != "" && looksLikeEmail(f.email)
              && Forms.Utf16Length(f.password) >= 6
  {
    assert Forms.Required(f.name) <==> Forms.Utf16Length(f.name) >= 1;
    assert Forms.Required(f.password) <==> Forms.Utf16Length(f.password) >= 1;
  }

  /** A name of 26 characters beyond U+FFFF is 52 code units: over the limit,
      so the form is invalid. */
  lemma LongAstralNameRefused(password: string, email: string, looksLikeEmail: string -> bool)
    ensures !FormValid(RegisterForm(seq(26, _ => '\U{1F3B5}'), email, password), looksLikeEmail)
  {
    Forms.Utf16LengthAstral(seq(26, _ => '\U{1F3B5}'));
  }

  /** A password of 3 characters beyond U+FFFF is 6 code units: long enough. */
  lemma ShortAstralPasswordAccepted(name: string, email: string, looksLikeEmail: string -> bool)
    requires 1 <= |name| <= 50 && forall i :: 0 <= i < |name| ==> name[i] <= '\U{FFFF}'
    requires email != "" && looksLikeEmail(email)
    ensures FormValid(RegisterForm(name, email, seq(3, _ => '\U{1F3B5}')), looksLikeEmail)
  {
    Forms.Utf16LengthBasic(name);
    Forms.Utf16LengthAstral(seq(3, _ => '\U{1F3B5}'));
  }

  /** `err?.error?.message || 'Registration failed.'`: the server's message
      unless it is missing or empty. */
  function ErrorText(message: Option<string>): (text: string)
    ensures text != ""
    ensures message.Some? && message.value != "" ==> text == message.value
    ensures message.None? || message.value == "" ==> text == DefaultError
  {
    if message.Some? && message.value != "" then message.value else DefaultError
  }

  class RegisterComponent {
    var form: RegisterForm
    var loading: bool
    var error: Option<string>
    var success: bool

    function View(): RegisterState
      reads this
    {
      RegisterState(form, loading, error, success)
    }

    constructor ()
      ensures View() == RegisterState(RegisterForm("", "", ""), false, None, false)
    {
      form := RegisterForm("", "", "");
      loading := false;
      error := None;
      success := false;
    }

    /** `submit`, up to the request: nothing happens on an invalid form;
        otherwise the form's values are posted with the artist role. */
    method Submit(looksLikeEmail: string -> bool) returns (request: Option<RegisterBody>)
      modifies this
      ensures !FormValid(old(form), looksLikeEmail) ==> request == None && View() == old(View())
      ensures FormValid(old(form), looksLikeEmail) ==>
        View() == old(View()).(loading := true, error := None, success := false)
      ensures FormValid(old(form), looksLikeEmail) ==>
        request == Some(RegisterBody(old(form).name, old(form).email, old(form).password, ArtistRole))
    {
      if !FormValid(form, looksLikeEmail) {
        return None;
      }
      loading := true;
      error := None;
      success := false;
      request := Some(RegisterBody(form.name, form.email, form.password, ArtistRole));
    }

    /** The registration response: success is shown and the move to the login
        page is scheduled; a failure shows a non-empty message. */
    method OnRegisterSettled(outcome: RegisterOutcome) returns (navigation: Option<ScheduledNavigation>)
      modifies this
      ensures outcome.Registered? ==>
        navigation == Some(ScheduledNavigation(LoginUrl, RedirectDelayMs)) &&
        View() == old(View()).(success := true)
      ensures outcome.RegisterFailed? ==> navigation == None
      ensures outcome.RegisterFailed? ==>
        View() == old(View()).(error := Some(ErrorText(outcome.message)), loading := false)
    {
      match outcome
      case Registered =>
        success := true;
        navigation := Some(ScheduledNavigation(LoginUrl, RedirectDelayMs));
      case RegisterFailed(message) =>
        error := Some(ErrorText(message));
        loading := false;
        navigation := None;
    }
  }
}
