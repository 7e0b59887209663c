/**
 * The login form: two text fields, the emptiness check run on submit, and
 * the completion of the simulated sign-in, which loads the demo profile
 * under the entered email and sends the user to the dashboard.
 */
module LoginPage {
  import opened Common
  import opened UserContext
  import opened AppRoutes

  const FillAllFields := "Please fill in all fields"

  /** The check of `handleLogin`: both fields must be non-empty. */
  function Validate(email: string, password: string): (r: Option<string>)
    ensures r.None? <==> email != "" && password != ""
    ensures r.Some? ==> r.value == FillAllFields
  {
    if email == "" || password == "" then Some(FillAllFields) else None
  }

  /** The demo profile the sign-in loads, carrying the entered email. */
  function SignedInUser(email: string): User {
    MockUser.(email := email)
  }

  /**
   * Signing in yields the demo profile with only the email replaced; its
   * onboarding is done, so the dashboard renders and the onboarding route
   * sends the user back to the dashboard.
   */
  lemma SignedInLandsOnDashboard(email: string)
    ensures var u := SignedInUser(email);
      && u.email == email
      && u == MockUser.(email := u.email)
      && Resolve(false, false, Some(u), DashboardPath) == Render(MainLayout(Dashboard))
      && Resolve(false, false, Some(u), OnboardingPath) == Redirect(DashboardPath)
  {
  }

  datatype Field = EmailField | PasswordField

  class LoginForm {
    var email: string
    var password: string
    var error: string
    var isLoading: bool
    /** The email the pending request was sent with (what its timer closed over). */
    var sentEmail: string

    constructor ()
      ensures email == "" && password == "" && error == "" && !isLoading
    {
      email, password, error, isLoading := "", "", "", false;
      sentEmail := "";
    }

    /** One field's `onChange`. */
    method Edit(field: Field, value: string)
      modifies this
      ensures email == (if field == EmailField then value else old(email))
      ensures password == (if field == PasswordField then value else old(password))
      ensures error == old(error) && isLoading == old(isLoading)
      ensures sentEmail == old(sentEmail)
    {
      match field
      case EmailField => email := value;
      case PasswordField => password := value;
    }

    /** `handleLogin` up to the simulated request; while loading, the disabled button submits nothing. */
    method Submit() returns (started: bool)
      modifies this
      ensures email == old(email) && password == old(password)
      ensures started <==> !old(isLoading) && Validate(email, password).None?
      ensures started ==> error == "" && isLoading && sentEmail == email
      ensures !old(isLoading) && !started ==> error == FillAllFields && isLoading == old(isLoading)
      ensures old(isLoading) ==> error == old(error) && isLoading
      ensures !started ==> sentEmail == old(sentEmail)
    {
      if isLoading {
        return false;
      }
      if Validate(email, password).Some? {
        error := FillAllFields;
        return false;
      }
      isLoading := true;
      error := "";
      sentEmail := email;
      started := true;
    }

    /**
     * The request resolves: the demo profile is signed in under the email
     * captured at submit, loading ends, and the page navigates.
     */
    method Complete(store: UserStore) returns (route: string)
      requires isLoading
      modifies this, store
      ensures store.user == Some(SignedInUser(sentEmail))
      ensures store.isLoading == old(store.isLoading)
      ensures route == DashboardPath
      ensures !isLoading && error == old(error)
      ensures email == old(email) && password == old(password)
      ensures sentEmail == old(sentEmail)
    {
      store.SetUser(Some(SignedInUser(sentEmail)));
      route := DashboardPath;
      isLoading := false;
    }
  }
}
