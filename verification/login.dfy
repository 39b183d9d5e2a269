/**
  The login button: both fields are trimmed, the email and then the password must have at
  least four UTF-16 code units, and only then is the login request issued.
 */
module Login {
  import opened Wrappers
  import opened KotlinText

  /** The shortest email and password `validateInputs` accepts. */
  const MinLength: nat := 4

  /** The string resources `enter_your_email` and `enter_your_password`, shown on that field. */
  datatype LoginError = EnterYourEmail | EnterYourPassword

  /** `validateInputs(userEmail, userPassword)`: the first failing length check, if any. */
  function ValidateInputs(userEmail: Text, userPassword: Text): (r: Option<LoginError>)
    ensures r == Some(EnterYourEmail) <==> |userEmail| < MinLength
    ensures r == Some(EnterYourPassword) <==> |userEmail| >= MinLength && |userPassword| < MinLength
    ensures r == None <==> |userEmail| >= MinLength && |userPassword| >= MinLength
  {
    if |userEmail| < MinLength then Some(EnterYourEmail)
    else if |userPassword| < MinLength then Some(EnterYourPassword)
    else None
  }

  /** What a click on the login button does. */
  datatype LoginAction = LoginUser(email: Text, password: Text) | ShowError(error: LoginError)

  /**
    The click listener: trims both fields, validates them, and asks the view model to log
    in with the trimmed values only when they pass.
   */
  function OnLoginClicked(emailInput: Text, passwordInput: Text): (r: LoginAction)
    ensures r.LoginUser? <==> |Trim(emailInput)| >= MinLength && |Trim(passwordInput)| >= MinLength
    ensures r.LoginUser? ==> r.email == Trim(emailInput) && r.password == Trim(passwordInput)
    ensures r.ShowError? ==> (r.error == EnterYourEmail <==> |Trim(emailInput)| < MinLength)
  {
    var email := Trim(emailInput);
    var password := Trim(passwordInput);
    match ValidateInputs(email, password)
    case Some(e) => ShowError(e)
    case None => LoginUser(email, password)
  }

  /** Whitespace around either field does not count toward its length. */
  lemma PaddingDoesNotCount(
    emailInput: Text, passwordInput: Text, pre1: Text, post1: Text, pre2: Text, post2: Text)
    requires AllWhitespace(pre1) && AllWhitespace(post1)
    requires AllWhitespace(pre2) && AllWhitespace(post2)
    ensures OnLoginClicked(pre1 + emailInput + post1, pre2 + passwordInput + post2)
         == OnLoginClicked(emailInput, passwordInput)
  {
    TrimIgnoresPadding(pre1, emailInput, post1);
    TrimIgnoresPadding(pre2, passwordInput, post2);
  }

  /** The email is checked first: a short email is the error reported, whatever the password. */
  lemma ShortEmailRejectedWhateverThePassword(emailInput: Text, passwordInput: Text)
    requires |Trim(emailInput)| < MinLength
    ensures OnLoginClicked(emailInput, passwordInput) == ShowError(EnterYourEmail)
  {
  }
}
