/**
 * The account forms: field cleaning (strip, required, length limits) and the
 * sign-up, e-mail login, verification-code and password-change validators.
 * Each form is a pure function from the submitted values and the user table
 * to the errors it reports and, when there are none, the cleaned values.
 */
module AccountForms {
  import opened Base
  import opened AccountModels

  const PASSWORD_MIN_LENGTH: nat := 8
  const USERNAME_MIN_LENGTH: nat := 3
  const MINIMUM_AGE: int := 13
  const MAXIMUM_AGE: int := 150
  const NAME_MAX_LENGTH: nat := 100
  const USERNAME_MAX_LENGTH: nat := 50
  const EMAIL_MAX_LENGTH: nat := 255
  /** The `max_length` of the user model's `password` column. */
  const PASSWORD_MAX_LENGTH: nat := 128

  datatype FieldError = Required | TooShort(min: nat) | TooLong(max: nat)

  /**
   * A text field: the submitted value (None when the key is missing) is
   * stripped; an empty value fails a required field and is otherwise
   * accepted as empty; a non-empty value must meet the length limits.
   */
  function CleanCharField(raw: Option<string>, required: bool, minLength: Option<nat>,
                          maxLength: Option<nat>): (r: Result<string, FieldError>)
    ensures r.Ok? ==> r.value == Strip(OrEmpty(raw))
    ensures r.Ok? && r.value != "" ==>
      && (minLength.Some? ==> |r.value| >= minLength.value)
      && (maxLength.Some? ==> |r.value| <= maxLength.value)
    ensures r == Err(Required) <==> required && Strip(OrEmpty(raw)) == ""
    ensures r.Err? && r.error.TooShort? ==> minLength.Some? && |Strip(OrEmpty(raw))| < minLength.value
    ensures r.Err? && r.error.TooLong? ==> maxLength.Some? && |Strip(OrEmpty(raw))| > maxLength.value
  {
    var v := Strip(OrEmpty(raw));
    if v == "" then (if required then Err(Required) else Ok(v))
    else if minLength.Some? && |v| < minLength.value then Err(TooShort(minLength.value))
    else if maxLength.Some? && |v| > maxLength.value then Err(TooLong(maxLength.value))
    else Ok(v)
  }

  // ---------------------------------------------------------------------------
  // Sign-up
  // ---------------------------------------------------------------------------

  datatype SignUpInput = SignUpInput(
    name: Option<string>,
    age: Option<int>,
    username: Option<string>,
    email: Option<string>,
    password: Option<string>,
    passwordConfirm: Option<string>)

  datatype SignUpError =
    | NameInvalid(e: FieldError)
    | AgeNegative
    | AgeTooYoung
    | AgeOutOfRange
    | UsernameInvalid(e: FieldError)
    | UsernameTaken
    | UsernameTooShort
    | EmailInvalid(e: FieldError)
    | EmailTaken
    | PasswordInvalid(e: FieldError)
    | PasswordConfirmInvalid(e: FieldError)
    | PasswordMismatch

  /** `SignUpForm.clean_email`: the address lower-cased, refused when it is already registered. */
  function CleanSignUpEmail(email: string, users: seq<User>): (r: Result<string, SignUpError>)
    ensures r.Ok? <==> !HasEmail(users, Lower(email))
    ensures r.Ok? ==> r.value == Lower(email)
    ensures r.Err? ==> r.error == EmailTaken
  {
    var e := Lower(email);
    if HasEmail(users, e) then Err(EmailTaken) else Ok(e)
  }

  /**
   * `SignUpForm.clean_username`: the name lower-cased; a taken name is
   * refused first, then one shorter than three characters.
   */
  function CleanUsername(username: string, users: seq<User>): (r: Result<string, SignUpError>)
    ensures r.Ok? <==> !HasUsername(users, Lower(username)) && |username| >= USERNAME_MIN_LENGTH
    ensures r.Ok? ==> r.value == Lower(username) && |r.value| >= USERNAME_MIN_LENGTH
    ensures HasUsername(users, Lower(username)) ==> r == Err(UsernameTaken)
    ensures !HasUsername(users, Lower(username)) && |username| < USERNAME_MIN_LENGTH ==> r == Err(UsernameTooShort)
  {
    var u := Lower(username);
    if HasUsername(users, u) then Err(UsernameTaken)
    else if |u| < USERNAME_MIN_LENGTH then Err(UsernameTooShort)
    else Ok(u)
  }

  /** `SignUpForm.clean_age`: only an age that is given, non-zero and below 13 is refused. */
  function CleanAge(age: Option<int>): (r: Result<Option<int>, SignUpError>)
    ensures r.Err? <==> age.Some? && age.value != 0 && age.value < MINIMUM_AGE
    ensures r.Ok? ==> r.value == age
  {
    if age.Some? && age.value != 0 && age.value < MINIMUM_AGE then Err(AgeTooYoung) else Ok(age)
  }

  /** The sign-up and password-change rule: an error exactly when both values are present, non-empty and differ. */
  predicate Mismatch(first: Option<string>, second: Option<string>) {
    first.Some? && second.Some? && first.value != "" && second.value != "" && first.value != second.value
  }

  /** The values a field holds after cleaning: present only when the field produced no error. */
  function Cleaned<T, E>(r: Result<T, E>): Option<T> {
    if r.Ok? then Some(r.value) else None
  }

  function ErrorOf<T, E>(r: Result<T, E>): set<E> {
    if r.Err? then {r.error} else {}
  }

  /** The e-mail field: the text field checks, then `clean_email`. */
  function SignUpEmailField(raw: Option<string>, users: seq<User>): Result<string, SignUpError> {
    var f := CleanCharField(raw, true, None, Some(EMAIL_MAX_LENGTH));
    if f.Err? then Err(EmailInvalid(f.error)) else CleanSignUpEmail(f.value, users)
  }

  function SignUpUsernameField(raw: Option<string>, users: seq<User>): Result<string, SignUpError> {
    var f := CleanCharField(raw, true, None, Some(USERNAME_MAX_LENGTH));
    if f.Err? then Err(UsernameInvalid(f.error)) else CleanUsername(f.value, users)
  }

  /**
   * The age field: a negative number fails the field itself, then `clean_age`
   * runs, then the model's 13 to 150 range is checked on a value that passed.
   */
  function SignUpAgeField(age: Option<int>): Result<Option<int>, SignUpError> {
    if age.Some? && age.value < 0 then Err(AgeNegative)
    else
      var c := CleanAge(age);
      if c.Err? then c
      else if age.Some? && !(MINIMUM_AGE <= age.value <= MAXIMUM_AGE) then Err(AgeOutOfRange)
      else c
  }

  function SignUpNameField(raw: Option<string>): Result<string, SignUpError> {
    var f := CleanCharField(raw, true, None, Some(NAME_MAX_LENGTH));
    if f.Err? then Err(NameInvalid(f.error)) else Ok(f.value)
  }

  function SignUpPasswordField(raw: Option<string>): Result<string, SignUpError> {
    var f := CleanCharField(raw, true, Some(PASSWORD_MIN_LENGTH), None);
    if f.Err? then Err(PasswordInvalid(f.error)) else Ok(f.value)
  }

  /**
   * The model check that `_post_clean` runs once `clean` has passed: the
   * cleaned password is copied onto the user row and validated against the
   * column's 128-character limit. It runs after the mismatch check, so a
   * long password that matches its confirmation reports only this error.
   */
  function SignUpPasswordColumn(pw: Result<string, SignUpError>): (e: set<SignUpError>)
    ensures e == {} <==> pw.Err? || |pw.value| <= PASSWORD_MAX_LENGTH
  {
    if pw.Ok? && |pw.value| > PASSWORD_MAX_LENGTH then {PasswordInvalid(TooLong(PASSWORD_MAX_LENGTH))} else {}
  }

  function SignUpConfirmField(raw: Option<string>): Result<string, SignUpError> {
    var f := CleanCharField(raw, true, None, None);
    if f.Err? then Err(PasswordConfirmInvalid(f.error)) else Ok(f.value)
  }

  /** Every error the sign-up form reports: each field's, then the form-wide mismatch check. */
  function SignUpErrors(input: SignUpInput, users: seq<User>): set<SignUpError> {
    var name := SignUpNameField(input.name);
    var pw := SignUpPasswordField(input.password);
    var confirm := SignUpConfirmField(input.passwordConfirm);
    ErrorOf(name) + ErrorOf(SignUpAgeField(input.age))
    + ErrorOf(SignUpUsernameField(input.username, users)) + ErrorOf(SignUpEmailField(input.email, users))
    + ErrorOf(pw) + ErrorOf(confirm) + SignUpPasswordColumn(pw)
    + (if Mismatch(Cleaned(pw), Cleaned(confirm)) then {PasswordMismatch} else {})
  }

  /**
   * What a form without errors has established: the e-mail and the username
   * are the lower-cased stripped inputs and free in the table, the username
   * has at least three characters, the age is absent or in 13..150,
   * and the password has eight to 128 characters and equals its confirmation.
   */
  lemma SignUpAccepted(input: SignUpInput, users: seq<User>)
    requires SignUpErrors(input, users) == {}
    ensures var email := Lower(Strip(OrEmpty(input.email)));
      email != "" && !HasEmail(users, email)
    ensures var username := Lower(Strip(OrEmpty(input.username)));
      |username| >= USERNAME_MIN_LENGTH && !HasUsername(users, username)
    ensures input.age.Some? ==> MINIMUM_AGE <= input.age.value <= MAXIMUM_AGE
    ensures var pw := Strip(OrEmpty(input.password));
      PASSWORD_MIN_LENGTH <= |pw| <= PASSWORD_MAX_LENGTH && pw == Strip(OrEmpty(input.passwordConfirm))
  {
    var name := SignUpNameField(input.name);
    var pw := SignUpPasswordField(input.password);
    var confirm := SignUpConfirmField(input.passwordConfirm);
    var e := SignUpEmailField(input.email, users);
    var u := SignUpUsernameField(input.username, users);
    var a := SignUpAgeField(input.age);
    var errs := SignUpErrors(input, users);
    assert ErrorOf(pw) <= errs && ErrorOf(confirm) <= errs && ErrorOf(e) <= errs;
    assert ErrorOf(u) <= errs && ErrorOf(a) <= errs && SignUpPasswordColumn(pw) <= errs;
    assert pw.Ok? && confirm.Ok? && e.Ok? && u.Ok? && a.Ok?;
    assert !Mismatch(Cleaned(pw), Cleaned(confirm));
    var email := Strip(OrEmpty(input.email));
    assert |Lower(email)| == |email|;
  }

  /** The mismatch error is reported exactly when both passwords cleaned to different non-empty values. */
  lemma SignUpMismatchReported(input: SignUpInput, users: seq<User>)
    ensures PasswordMismatch in SignUpErrors(input, users) <==>
      var pw := CleanCharField(input.password, true, Some(PASSWORD_MIN_LENGTH), None);
      var confirm := CleanCharField(input.passwordConfirm, true, None, None);
      pw.Ok? && confirm.Ok? && pw.value != confirm.value
  {
    var name := SignUpNameField(input.name);
    var pw := SignUpPasswordField(input.password);
    var confirm := SignUpConfirmField(input.passwordConfirm);
    var e := SignUpEmailField(input.email, users);
    var u := SignUpUsernameField(input.username, users);
    var a := SignUpAgeField(input.age);
    assert PasswordMismatch !in ErrorOf(name) && PasswordMismatch !in ErrorOf(a);
    assert PasswordMismatch !in ErrorOf(u) && PasswordMismatch !in ErrorOf(e);
    assert PasswordMismatch !in ErrorOf(pw) && PasswordMismatch !in ErrorOf(confirm);
    assert PasswordMismatch !in SignUpPasswordColumn(pw);
    assert pw.Ok? ==> pw.value != "";
    assert confirm.Ok? ==> confirm.value != "";
  }

  // ---------------------------------------------------------------------------
  // The other account forms
  // ---------------------------------------------------------------------------

  datatype LoginError = LoginEmailInvalid(e: FieldError) | NoVerifiedAccount | LoginPasswordInvalid(e: FieldError)

  predicate HasVerifiedEmail(users: seq<User>, email: string) {
    exists i :: 0 <= i < |users| && users[i].email == email && users[i].isVerified
  }

  /** `EmailLoginForm`: the lower-cased address of an existing verified account. */
  function CleanEmailLogin(raw: Option<string>, users: seq<User>): (r: Result<string, LoginError>)
    ensures r.Ok? ==> r.value == Lower(Strip(OrEmpty(raw))) && HasVerifiedEmail(users, r.value)
    ensures Strip(OrEmpty(raw)) != "" && !HasVerifiedEmail(users, Lower(Strip(OrEmpty(raw)))) ==>
      r == Err(NoVerifiedAccount)
    ensures Strip(OrEmpty(raw)) == "" ==> r == Err(LoginEmailInvalid(Required))
    ensures Strip(OrEmpty(raw)) != "" && HasVerifiedEmail(users, Lower(Strip(OrEmpty(raw)))) ==>
      r == Ok(Lower(Strip(OrEmpty(raw))))
  {
    var f := CleanCharField(raw, true, None, None);
    if f.Err? then Err(LoginEmailInvalid(f.error))
    else
      var e := Lower(f.value);
      if HasVerifiedEmail(users, e) then Ok(e) else Err(NoVerifiedAccount)
  }

  /** `LoginForm`: a required e-mail and a required (stripped) password. */
  function CleanLogin(rawEmail: Option<string>, rawPassword: Option<string>): (r: Result<(string, string), LoginError>)
    ensures r.Ok? <==> Strip(OrEmpty(rawEmail)) != "" && Strip(OrEmpty(rawPassword)) != ""
    ensures r.Ok? ==> r.value == (Strip(OrEmpty(rawEmail)), Strip(OrEmpty(rawPassword)))
  {
    var e := CleanCharField(rawEmail, true, None, None);
    var p := CleanCharField(rawPassword, true, None, None);
    if e.Err? then Err(LoginEmailInvalid(e.error))
    else if p.Err? then Err(LoginPasswordInvalid(p.error))
    else Ok((e.value, p.value))
  }

  /** `VerificationCodeForm`: the stripped code, exactly six characters long. */
  function CleanCode(raw: Option<string>): (r: Result<string, FieldError>)
    ensures r.Ok? <==> |Strip(OrEmpty(raw))| == CODE_LENGTH
    ensures r.Ok? ==> r.value == Strip(OrEmpty(raw))
  {
    CleanCharField(raw, true, Some(CODE_LENGTH), Some(CODE_LENGTH))
  }

  datatype PasswordChangeInput = PasswordChangeInput(
    current: Option<string>, newPassword: Option<string>, confirm: Option<string>)

  datatype PasswordChangeError =
    | CurrentInvalid(e: FieldError)
    | NewInvalid(e: FieldError)
    | ConfirmInvalid(e: FieldError)
    | NewMismatch

  function PasswordChangeErrors(input: PasswordChangeInput): set<PasswordChangeError> {
    var cur := CleanCharField(input.current, true, None, None);
    var pw := CleanCharField(input.newPassword, true, Some(PASSWORD_MIN_LENGTH), None);
    var confirm := CleanCharField(input.confirm, true, None, None);
    (if cur.Err? then {CurrentInvalid(cur.error)} else {})
    + (if pw.Err? then {NewInvalid(pw.error)} else {})
    + (if confirm.Err? then {ConfirmInvalid(confirm.error)} else {})
    + (if Mismatch(Cleaned(pw), Cleaned(confirm)) then {NewMismatch} else {})
  }

  /** A password change without errors carries a new password of at least eight characters equal to its confirmation. */
  lemma PasswordChangeAccepted(input: PasswordChangeInput)
    requires PasswordChangeErrors(input) == {}
    ensures var pw := Strip(OrEmpty(input.newPassword));
      |pw| >= PASSWORD_MIN_LENGTH && pw == Strip(OrEmpty(input.confirm))
      && Strip(OrEmpty(input.current)) != ""
  {
    var cur := CleanCharField(input.current, true, None, None);
    var pw := CleanCharField(input.newPassword, true, Some(PASSWORD_MIN_LENGTH), None);
    var confirm := CleanCharField(input.confirm, true, None, None);
    assert cur.Ok? && pw.Ok? && confirm.Ok?;
    assert !Mismatch(Cleaned(pw), Cleaned(confirm));
  }
}
