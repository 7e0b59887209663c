/**
 * The signup form: four text fields, the validation chain run on submit,
 * and the completion of the simulated account creation, which signs in a
 * fresh level-1 user and sends them to onboarding.
 */
module SignupPage {
  import opened Common
  import opened UserContext
  import opened AppRoutes
  import opened ProfileUtils

  const FillAllFields := "Please fill in all fields"
  const PasswordsDiffer := "Passwords do not match"
  const PasswordTooShort := "Password must be at least 8 characters"

  /** The first failed check of `handleSignup`, or `None` when the form is accepted. */
  function Validate(name: string, email: string, password: string, confirm: string): (r: Option<string>)
    ensures r.None? <==> name != "" && email != "" && password != "" && confirm != ""
                         && password == confirm && |password| >= 8
    ensures r == Some(FillAllFields) <==> name == "" || email == "" || password == "" || confirm == ""
    ensures r == Some(PasswordsDiffer) <==>
      name != "" && email != "" && password != "" && confirm != "" && password != confirm
    ensures r == Some(PasswordTooShort) <==>
      name != "" && email != "" && password != "" && password == confirm && |password| < 8
  {
    if name == "" || email == "" || password == "" || confirm == "" then Some(FillAllFields)
    else if password != confirm then Some(PasswordsDiffer)
    else if |password| < 8 then Some(PasswordTooShort)
    else None
  }

  /** The account created on signup; `stamp` stands for the `Date.now()` in its id. */
  function NewUser(name: string, email: string, stamp: string): User {
    User("user-" + stamp, name, email, "https://i.pravatar.cc/150?u=" + email,
      1, 0, 50, 0, false, [], Preferences(Light, true))
  }

  /**
   * A fresh account is a level-1 user with no XP, 50 coins and onboarding to
   * do: the onboarding route renders for them, their level bar is empty with
   * the whole band of 100 XP ahead, and they hold the Rookie badge.
   */
  lemma NewUserStartsOnboarding(name: string, email: string, stamp: string)
    ensures var u := NewUser(name, email, stamp);
      && u.name == name && u.email == email
      && u.coins == 50 && u.achievements == []
      && Resolve(false, false, Some(u), OnboardingPath) == Render(OnboardingPage)
      && LevelProgress(u.xp as real, u.level) == 0
      && RemainingXP(u.xp as real, u.level) == 100.0
      && LevelBadge(u.level).name == "Rookie"
  {
  }

  datatype Field = NameField | EmailField | PasswordField | ConfirmField

  class SignupForm {
    var name: string
    var email: string
    var password: string
    var confirmPassword: string
    var error: string
    var isLoading: bool
    /** The name and email the pending request was sent with (what its timer closed over). */
    var sentName: string
    var sentEmail: string

    constructor ()
      ensures name == "" && email == "" && password == "" && confirmPassword == ""
      ensures error == "" && !isLoading
    {
      name, email, password, confirmPassword := "", "", "", "";
      error, isLoading := "", false;
      sentName, sentEmail := "", "";
    }

    /** One field's `onChange`. */
    method Edit(field: Field, value: string)
      modifies this
      ensures name == (if field == NameField then value else old(name))
      ensures email == (if field == EmailField then value else old(email))
      ensures password == (if field == PasswordField then value else old(password))
      ensures confirmPassword == (if field == ConfirmField then value else old(confirmPassword))
      ensures error == old(error) && isLoading == old(isLoading)
      ensures sentName == old(sentName) && sentEmail == old(sentEmail)
    {
      match field
      case NameField => name := value;
      case EmailField => email := value;
      case PasswordField => password := value;
      case ConfirmField => confirmPassword := value;
    }

    /**
     * `handleSignup` up to the simulated request: a rejected form shows the
     * first failed check, an accepted one starts loading with the error
     * cleared and the entered name and email captured for the request;
     * while loading, the disabled button submits nothing.
     */
    method Submit() returns (started: bool)
      modifies this
      ensures name == old(name) && email == old(email)
      ensures password == old(password) && confirmPassword == old(confirmPassword)
      ensures started <==> !old(isLoading) && Validate(name, email, password, confirmPassword).None?
      ensures started ==> error == "" && isLoading && sentName == name && sentEmail == email
      ensures !old(isLoading) && !started ==>
        error == Validate(name, email, password, confirmPassword).value && isLoading == old(isLoading)
      ensures old(isLoading) ==> error == old(error) && isLoading
      ensures !started ==> sentName == old(sentName) && sentEmail == old(sentEmail)
    {
      if isLoading {
        return false;
      }
      var check := Validate(name, email, password, confirmPassword);
      if check.Some? {
        error := check.value;
        return false;
      }
      isLoading := true;
      error := "";
      sentName, sentEmail := name, email;
      started := true;
    }

    /**
     * The request resolves: the user is created from the name and email
     * captured at submit, whatever the fields hold now; loading ends, and
     * the page navigates.
     */
    method Complete(store: UserStore, stamp: string) returns (route: string)
      requires isLoading
      modifies this, store
      ensures store.user == Some(NewUser(sentName, sentEmail, stamp))
      ensures store.isLoading == old(store.isLoading)
      ensures route == OnboardingPath
      ensures !isLoading && error == old(error)
      ensures name == old(name) && email == old(email)
      ensures password == old(password) && confirmPassword == old(confirmPassword)
      ensures sentName == old(sentName) && sentEmail == old(sentEmail)
    {
      store.SetUser(Some(NewUser(sentName, sentEmail, stamp)));
      route := OnboardingPath;
      isLoading := false;
    }
  }
}
