/**
 * The login page: a two-field form and the credential check on submit. The stored
 * user record, read from browser storage and parsed from JSON, is handed in as an
 * optional value; the page never writes it.
 */
module Login {
  import opened Wrappers

  /** The record saved at registration. */
  datatype Credential = Credential(email: string, password: string)

  /** The names of the two inputs. */
  datatype LoginField = EmailInput | PasswordInput

  datatype LoginForm = LoginForm(email: string, password: string)

  /** After submitting: a client-side redirect, or a blocking alert. */
  datatype SubmitOutcome = Navigate(path: string) | Alert(message: string)

  const HomePath := "/home"
  const InvalidCredentialsMessage := "Invalid email or password"

  /** The spread-and-override update of the login form. */
  function SetLoginField(f: LoginForm, k: LoginField, v: string): (g: LoginForm)
    ensures k == EmailInput ==> g.email == v && g.password == f.password
    ensures k == PasswordInput ==> g.password == v && g.email == f.email
  {
    match k
    case EmailInput => f.(email := v)
    case PasswordInput => f.(password := v)
  }

  /**
   * handleSubmit's decision: the home page exactly when a user is stored and both its
   * e-mail and its password equal the submitted ones; the alert otherwise.
   */
  function Submit(stored: Option<Credential>, f: LoginForm): (r: SubmitOutcome)
    ensures r == Navigate(HomePath) <==>
      (stored.Some? && stored.value.email == f.email && stored.value.password == f.password)
    ensures r != Navigate(HomePath) ==> r == Alert(InvalidCredentialsMessage)
  {
    if stored.Some? && stored.value.email == f.email && stored.value.password == f.password then
      Navigate(HomePath)
    else
      Alert(InvalidCredentialsMessage)
  }

  /** With no stored user, no submission gets past the login page. */
  lemma NoStoredUserNeverNavigates(f: LoginForm)
    ensures Submit(None, f) == Alert(InvalidCredentialsMessage)
  {
  }

  /** A submission with a right e-mail and a wrong password, or the reverse, is refused. */
  lemma HalfMatchIsRefused(c: Credential, f: LoginForm)
    requires (c.email == f.email) != (c.password == f.password)
    ensures Submit(Some(c), f) == Alert(InvalidCredentialsMessage)
  {
  }

  /** The page's own state is the form; submitting reads it and changes nothing. */
  class LoginPage {
    var formData: LoginForm

    constructor ()
      ensures formData == LoginForm("", "")
    {
      formData := LoginForm("", "");
    }

    method HandleChange(field: LoginField, value: string)
      modifies this
      ensures formData == SetLoginField(old(formData), field, value)
    {
      formData := SetLoginField(formData, field, value);
    }

    /** The store is passed by value and nothing is modified: the submit only reads. */
    method HandleSubmit(stored: Option<Credential>) returns (r: SubmitOutcome)
      ensures r.Navigate? <==>
        (stored.Some? && stored.value.email == formData.email
                      && stored.value.password == formData.password)
      ensures r.Navigate? ==> r.path == HomePath
      ensures r.Alert? ==> r.message == InvalidCredentialsMessage
      ensures r == Submit(stored, formData)
    {
      var user := stored;
      if user.Some? && user.value.email == formData.email && user.value.password == formData.password {
        r := Navigate(HomePath);
      } else {
        r := Alert(InvalidCredentialsMessage);
      }
    }
  }
}
