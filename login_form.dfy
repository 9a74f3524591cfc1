/**
 * The login form's validation rule (the `validateForm` closure of
 * src/components/auth/LoginForm.tsx).
 */
module LoginForm {
  import opened Wrappers
  import opened Validators
  import RegisterForm

  datatype LoginFormData = LoginFormData(identifier: string, password: string)

  /** The only two keys the rule can set, with at most one message each. */
  datatype LoginErrors = LoginErrors(identifier: Option<string>, password: Option<string>)

  const IdentifierRequired := "Username or Email is required"
  const PasswordRequired := "Password is required"
  const PasswordTooShort := "Password must be at least 6 characters"

  /**
   * `validateForm`. Any non-empty identifier passes (no format or length check);
   * the password must be present and at least 6 characters long.
   */
  function ValidateForm(values: LoginFormData): (errors: LoginErrors)
    ensures values.identifier == "" ==> errors.identifier == Some(IdentifierRequired)
    ensures errors.identifier == None <==> values.identifier != ""
    ensures values.password == "" ==> errors.password == Some(PasswordRequired)
    ensures 0 < |values.password| < 6 ==> errors.password == Some(PasswordTooShort)
    ensures errors.password == None <==> IsValidPassword(values.password)
    ensures errors == LoginErrors(None, None) <==> values.identifier != "" && |values.password| >= 6
  {
    var identifier :=
      if values.identifier == "" then Some(IdentifierRequired) else None;
    var password :=
      if values.password == "" then Some(PasswordRequired)
      else if |values.password| < 6 then Some(PasswordTooShort)
      else None;
    LoginErrors(identifier, password)
  }

  /** The login and the registration forms judge every password alike, message for message. */
  lemma PasswordRuleMatchesRegister(values: LoginFormData, other: RegisterForm.RegisterFormData)
    requires values.password == other.password
    ensures ValidateForm(values).password == RegisterForm.ValidateForm(other).password
  {
  }
}
