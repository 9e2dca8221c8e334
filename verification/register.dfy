/** RegisterViewController: the input check that runs before an account is
    created, and the error alert. */
module Register {
  import opened Wrappers
  import opened Identity

  /** The alert's fixed text. */
  const DefaultAlertMessage: string := "Please enter all information to create a new account."

  /** The text passed to the alert when the address is already registered. */
  const AccountExistsMessage: string := "Account for this email is alredy exists."

  /** A password must have more characters than this. */
  const MinPasswordLength: nat := 6

  /** What tapping "Register" leads to: an alert, or on to account creation
      with the user to be stored. */
  datatype RegisterOutcome =
    | ShowAlert(message: string)
    | CreateAccount(user: ChatAppUser, password: string)

  /** `alertUserLoginError(message:)` as written: the alert is built with the
      default text whatever `message` is. */
  function AlertUserLoginError(message: string): (shown: string)
    ensures shown == DefaultAlertMessage
  {
    DefaultAlertMessage
  }

  /** The alert as evidently intended: it shows the message it is given. */
  function AlertWithMessage(message: string): (shown: string)
    ensures |shown| == |message| && forall i :: 0 <= i < |message| ==> shown[i] == message[i]
  {
    message
  }

  /** As written, the "already exists" message never reaches the user. */
  lemma ExistsMessageIsDropped()
    ensures AlertUserLoginError(AccountExistsMessage) != AccountExistsMessage
  {
    assert |AccountExistsMessage| != |DefaultAlertMessage|;
  }

  /** As intended, each caller's message is what the user sees, and the
      default alert is unchanged. */
  lemma AlertShowsGivenMessage()
    ensures AlertWithMessage(AccountExistsMessage) == AccountExistsMessage
    ensures AlertWithMessage(DefaultAlertMessage) == AlertUserLoginError(DefaultAlertMessage)
  {
  }

  /** The validation guard of `registerButtontapped`: all four fields
      present and non-empty, and a password of more than six characters. */
  predicate FieldsValid(email: Option<string>, password: Option<string>,
                        firstName: Option<string>, lastName: Option<string>)
  {
    && email.Some? && password.Some? && firstName.Some? && lastName.Some?
    && |email.value| > 0 && |password.value| > 0 && |firstName.value| > 0 && |lastName.value| > 0
    && |password.value| > MinPasswordLength
  }

  /** `registerButtontapped` up to the point where the account is created. */
  function RegisterTapped(email: Option<string>, password: Option<string>,
                          firstName: Option<string>, lastName: Option<string>): (r: RegisterOutcome)
    ensures r.CreateAccount? <==> FieldsValid(email, password, firstName, lastName)
    ensures r.ShowAlert? ==> r.message == DefaultAlertMessage
    ensures r.CreateAccount? ==>
      && r.user == ChatAppUser(firstName.value, lastName.value, email.value)
      && r.password == password.value
  {
    if FieldsValid(email, password, firstName, lastName) then
      CreateAccount(ChatAppUser(firstName.value, lastName.value, email.value), password.value)
    else ShowAlert(AlertUserLoginError(DefaultAlertMessage))
  }

  /** Any empty or missing field is rejected, and so is a password of
      exactly six characters; seven are enough. */
  lemma PasswordBoundary(email: string, firstName: string, lastName: string, password: string)
    requires |email| > 0 && |firstName| > 0 && |lastName| > 0
    ensures |password| == 6 ==> RegisterTapped(Some(email), Some(password), Some(firstName), Some(lastName)).ShowAlert?
    ensures |password| == 7 ==> RegisterTapped(Some(email), Some(password), Some(firstName), Some(lastName)).CreateAccount?
    ensures RegisterTapped(Some(""), Some(password), Some(firstName), Some(lastName)).ShowAlert?
    ensures RegisterTapped(None, Some(password), Some(firstName), Some(lastName)).ShowAlert?
  {
  }
}
