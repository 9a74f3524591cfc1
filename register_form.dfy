/**
 * The registration form's validation rule (the `validateForm` closure of
 * src/components/auth/RegisterForm.tsx): one optional message per field,
 * each field's checks tried in a fixed order.
 */
module RegisterForm {
  import opened Wrappers
  import opened Validators

  datatype RegisterFormData = RegisterFormData(
    name: string,
    username: string,
    email: string,
    password: string,
    confirmPassword: string)

  /** At most one message per field: `None` is a key the source never assigns. */
  datatype RegisterErrors = RegisterErrors(
    name: Option<string>,
    username: Option<string>,
    email: Option<string>,
    password: Option<string>,
    confirmPassword: Option<string>)

  const NameRequired := "Full Name is required"
  const NameTooShort := "Name must be at least 2 characters"
  const UsernameRequired := "Username is required"
  const UsernameTooShort := "Username must be at least 3 characters"
  const EmailRequired := "Email is required"
  const EmailInvalid := "Email is invalid"
  const PasswordRequired := "Password is required"
  const PasswordTooShort := "Password must be at least 6 characters"
  const PasswordsDiffer := "Passwords do not match"

  /**
   * The unanchored pattern `\S+@\S+\.\S+` matches the substring `s[p..q]`, with
   * its literal `@` at `at` and its literal `.` at `dot`. Unlike the pattern of
   * `isValidEmail`, `\S` also matches `@` and `.`.
   */
  predicate LooseEmailMatchAt(s: string, p: int, at: int, dot: int, q: int) {
    && 0 <= p < at && at + 1 < dot && dot + 1 < q <= |s|
    && s[at] == '@' && s[dot] == '.'
    && NoSpace(s[p..at]) && NoSpace(s[at + 1..dot]) && NoSpace(s[dot + 1..q])
  }

  /** `/\S+@\S+\.\S+/.test(s)`: the pattern matches somewhere in `s`. */
  predicate ContainsLooseEmail(s: string) {
    exists p, at, dot, q | 0 <= p <= |s| && 0 <= at <= |s| && 0 <= dot <= |s| && 0 <= q <= |s|
      :: LooseEmailMatchAt(s, p, at, dot, q)
  }

  predicate NoErrors(errors: RegisterErrors) {
    errors == RegisterErrors(None, None, None, None, None)
  }

  /**
   * `validateForm`. An empty field reports "required", a short one its length
   * message; the email must contain the loose pattern; the two passwords must
   * be equal, whatever else holds (two empty passwords do not differ).
   */
  function ValidateForm(values: RegisterFormData): (errors: RegisterErrors)
    ensures values.name == "" ==> errors.name == Some(NameRequired)
    ensures 0 < |values.name| < 2 ==> errors.name == Some(NameTooShort)
    ensures errors.name == None <==> |values.name| >= 2
    ensures values.username == "" ==> errors.username == Some(UsernameRequired)
    ensures 0 < |values.username| < 3 ==> errors.username == Some(UsernameTooShort)
    ensures errors.username == None <==> |values.username| >= 3
    ensures values.email == "" ==> errors.email == Some(EmailRequired)
    ensures values.email != "" && !ContainsLooseEmail(values.email) ==> errors.email == Some(EmailInvalid)
    ensures errors.email == None <==> values.email != "" && ContainsLooseEmail(values.email)
    ensures values.password == "" ==> errors.password == Some(PasswordRequired)
    ensures 0 < |values.password| < 6 ==> errors.password == Some(PasswordTooShort)
    ensures errors.password == None <==> IsValidPassword(values.password)
    ensures errors.confirmPassword == None <==> values.password == values.confirmPassword
    ensures errors.confirmPassword != None ==> errors.confirmPassword == Some(PasswordsDiffer)
    ensures NoErrors(errors) <==>
      && |values.name| >= 2 && |values.username| >= 3
      && values.email != "" && ContainsLooseEmail(values.email)
      && IsValidPassword(values.password) && values.password == values.confirmPassword
  {
    var name :=
      if values.name == "" then Some(NameRequired)
      else if |values.name| < 2 then Some(NameTooShort)
      else None;
    var username :=
      if values.username == "" then Some(UsernameRequired)
      else if |values.username| < 3 then Some(UsernameTooShort)
      else None;
    var email :=
      if values.email == "" then Some(EmailRequired)
      else if !ContainsLooseEmail(values.email) then Some(EmailInvalid)
      else None;
    var password :=
      if values.password == "" then Some(PasswordRequired)
      else if |values.password| < 6 then Some(PasswordTooShort)
      else None;
    var confirmPassword :=
      if values.password != values.confirmPassword then Some(PasswordsDiffer)
      else None;
    RegisterErrors(name, username, email, password, confirmPassword)
  }

  /** A string the anchored pattern accepts also contains the loose pattern. */
  lemma ValidEmailContainsLooseEmail(s: string)
    requires IsValidEmail(s)
    ensures ContainsLooseEmail(s)
  {
    var at, dot :| 0 <= at < |s| && 0 <= dot < |s| && EmailMatchAt(s, at, dot);
    assert forall i :: 0 <= i < at ==> s[..at][i] == s[i];
    assert forall i :: dot < i < |s| ==> s[dot + 1..][i - dot - 1] == s[i];
    assert LooseEmailMatchAt(s, 0, at, dot, |s|);
  }

  /** So every email `isValidEmail` accepts gets no email message from the form. */
  lemma ValidEmailHasNoEmailError(values: RegisterFormData)
    requires IsValidEmail(values.email)
    ensures ValidateForm(values).email == None
  {
    ValidEmailContainsLooseEmail(values.email);
  }

  /** The converse fails: a second `@` passes the form's check but not `isValidEmail`. */
  lemma LooseEmailIsWeaker()
    ensures ContainsLooseEmail("x@@y.z") && !IsValidEmail("x@@y.z")
  {
    var s := "x@@y.z";
    assert LooseEmailMatchAt(s, 0, 1, 4, 6);
    assert Occurrences(s, '@') == 2 by {
      assert s[1..] == "@@y.z" && s[1..][1..] == "@y.z" && s[1..][1..][1..] == "y.z";
      assert Occurrences("y.z", '@') == 0 by {
        OccursNoneIff("y.z", '@');
      }
    }
    EmailValidIff(s);
  }

  /** The form checks only a lower bound on usernames: 21 characters pass it but not `isValidUsername`. */
  lemma UsernameRuleIsLaxer(values: RegisterFormData)
    ensures IsValidUsername(values.username) ==> ValidateForm(values).username == None
    ensures |values.username| == 21 ==> ValidateForm(values).username == None && !IsValidUsername(values.username)
  {
  }
}
