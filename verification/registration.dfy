/**
 * The registration form (`Registration.jsx`): one error per field, "required" before any other
 * rule, an email pattern, and a form that is cleared once the store has created the user.
 */
module Registration {
  import opened Wrappers
  import opened Text

  const FullNameRequired := "Full name is required!"
  const EmailRequired := "Email is required!"
  const EmailInvalid := "Invalid email format!"
  const PasswordRequired := "Password is required!"
  const PasswordTooShort := "Password must be at least 6 characters!"
  const MinPasswordLength: nat := 6
  const Registered := "Registered Successfully!"
  const ServerError := "\U{26A0}\U{FE0F} Server Error. Please try again later."

  // ---------------------------------------------------------------- the email pattern

  /** A character `[^\s@]` matches. */
  predicate PlainChar(c: char) { !IsWhitespace(c) && c != '@' }

  predicate AllPlain(s: string) { forall k :: 0 <= k < |s| ==> PlainChar(s[k]) }

  /**
   * What `/^[^\s@]+@[^\s@]+\.[^\s@]+$/` accepts: a non-empty plain run, "@", a non-empty plain
   * run, ".", a non-empty plain run.
   */
  ghost predicate EmailShape(s: string) {
    exists i, j :: 0 < i && i + 1 < j && j + 1 < |s| && s[i] == '@' && s[j] == '.'
      && AllPlain(s[..i]) && AllPlain(s[i + 1..j]) && AllPlain(s[j + 1..])
  }

  /** The position of the first `c` in `s`, or `|s|` when there is none. */
  function IndexOf(s: string, c: char): (r: nat)
    ensures r <= |s|
    ensures r < |s| ==> s[r] == c
    ensures forall k :: 0 <= k < r ==> s[k] != c
  {
    if s == [] then 0
    else if s[0] == c then 0
    else 1 + IndexOf(s[1..], c)
  }

  /** The pattern as a matcher: split at the first "@", then look for a dot strictly inside the rest. */
  predicate IsEmail(s: string) {
    var i := IndexOf(s, '@');
    && 0 < i < |s|
    && AllPlain(s[..i])
    && AllPlain(s[i + 1..])
    && |s| - i - 1 >= 3 && '.' in s[i + 2..|s| - 1]
  }

  /** Every string the matcher accepts has the pattern's shape. */
  lemma IsEmailHasShape(s: string)
    requires IsEmail(s)
    ensures EmailShape(s)
  {
    var i := IndexOf(s, '@');
    var rest := s[i + 2..|s| - 1];
    var m :| 0 <= m < |rest| && rest[m] == '.';
    var j := i + 2 + m;
    assert s[j] == '.';
    var domain, host, top := s[i + 1..], s[i + 1..j], s[j + 1..];
    assert AllPlain(host) by {
      forall k | 0 <= k < |host| ensures PlainChar(host[k]) {
        assert host[k] == domain[k];
      }
    }
    assert AllPlain(top) by {
      forall k | 0 <= k < |top| ensures PlainChar(top[k]) {
        assert top[k] == domain[k + j - i];
      }
    }
  }

  /** Every string of the pattern's shape is accepted by the matcher. */
  lemma ShapeIsEmail(s: string, i: nat, j: nat)
    requires 0 < i && i + 1 < j && j + 1 < |s| && s[i] == '@' && s[j] == '.'
    requires AllPlain(s[..i]) && AllPlain(s[i + 1..j]) && AllPlain(s[j + 1..])
    ensures IsEmail(s)
  {
    assert forall k :: 0 <= k < i ==> s[k] == s[..i][k];
    assert IndexOf(s, '@') == i;
    var domain := s[i + 1..];
    forall k | 0 <= k < |domain| ensures PlainChar(domain[k]) {
      var q := k + i + 1;
      assert domain[k] == s[q];
      if q < j {
        assert s[q] == s[i + 1..j][q - i - 1];
      } else if q > j {
        assert s[q] == s[j + 1..][q - j - 1];
      }
    }
    assert s[i + 2..|s| - 1][j - i - 2] == '.';
  }

  /** The matcher accepts exactly the strings of the pattern. */
  lemma IsEmailMatchesPattern(s: string)
    ensures IsEmail(s) <==> EmailShape(s)
  {
    if IsEmail(s) {
      IsEmailHasShape(s);
    }
    if EmailShape(s) {
      var i, j :| 0 < i && i + 1 < j && j + 1 < |s| && s[i] == '@' && s[j] == '.'
        && AllPlain(s[..i]) && AllPlain(s[i + 1..j]) && AllPlain(s[j + 1..]);
      ShapeIsEmail(s, i, j);
    }
  }

  // ---------------------------------------------------------------- validation

  /** `newError`: the message of each field that failed, absent for a field that passed. */
  datatype Errors = Errors(fullName: Option<string>, email: Option<string>, password: Option<string>)

  /** `{}`: `Object.keys(newError).length === 0`. */
  const NoErrors := Errors(None, None, None)

  /** `validateForm`'s error object, field by field. */
  function Validate(fullName: string, email: string, password: string): Errors {
    Errors(
      if Trim(fullName) == "" then Some(FullNameRequired) else None,
      if Trim(email) == "" then Some(EmailRequired) else if !IsEmail(email) then Some(EmailInvalid) else None,
      if Trim(password) == "" then Some(PasswordRequired)
      else if |password| < MinPasswordLength then Some(PasswordTooShort)
      else None)
  }

  /**
   * At most one message per field, "required" checked first: a blank field is required, a
   * non-blank email must have the pattern's shape, a non-blank password at least 6 characters.
   */
  lemma ValidateRules(fullName: string, email: string, password: string)
    ensures var errors := Validate(fullName, email, password);
      && (errors.fullName.Some? <==> Blank(fullName))
      && (errors.fullName.Some? ==> errors.fullName.value == FullNameRequired)
      && (errors.email.Some? <==> Blank(email) || !EmailShape(email))
      && (errors.email.Some? ==> errors.email.value == if Blank(email) then EmailRequired else EmailInvalid)
      && (errors.password.Some? <==> Blank(password) || |password| < MinPasswordLength)
      && (errors.password.Some? ==> errors.password.value == if Blank(password) then PasswordRequired else PasswordTooShort)
      && (errors == NoErrors <==>
            !Blank(fullName) && !Blank(email) && EmailShape(email) && !Blank(password) && |password| >= MinPasswordLength)
  {
    TrimEmptyIffBlank(fullName);
    TrimEmptyIffBlank(email);
    TrimEmptyIffBlank(password);
    IsEmailMatchesPattern(email);
  }

  // ---------------------------------------------------------------- the form

  datatype NewUser = NewUser(fullName: string, email: string, password: string)

  class RegistrationForm {
    var fullName: string
    var email: string
    var password: string
    var message: string
    var errors: Errors
    /** The `/users` collection. */
    var users: seq<NewUser>

    constructor(users: seq<NewUser>)
      ensures fullName == "" && email == "" && password == "" && message == "" && errors == NoErrors
      ensures this.users == users
    {
      fullName, email, password, message, errors := "", "", "", "", NoErrors;
      this.users := users;
    }

    /** `validateForm`: records the error object and reports whether it holds no message. */
    method ValidateForm() returns (valid: bool)
      modifies this
      ensures errors == Validate(fullName, email, password)
      ensures valid <==> errors == NoErrors
      ensures fullName == old(fullName) && email == old(email) && password == old(password)
      ensures message == old(message) && users == old(users)
    {
      errors := Validate(fullName, email, password);
      valid := errors == NoErrors;
    }

    /**
     * `handleSubmit`: an invalid form posts nothing. `status` is the store's answer, `None` when
     * the request fails. On 201 the three fields and the errors are cleared.
     */
    method HandleSubmit(status: Option<int>)
      modifies this
      ensures var e := Validate(old(fullName), old(email), old(password));
        e != NoErrors ==>
        && users == old(users) && errors == e
        && fullName == old(fullName) && email == old(email) && password == old(password) && message == old(message)
      ensures var e := Validate(old(fullName), old(email), old(password));
        e == NoErrors ==>
        && users == (if status.Some? then old(users) + [NewUser(old(fullName), old(email), old(password))] else old(users))
        && (status == Some(201) ==> fullName == "" && email == "" && password == "" && errors == NoErrors && message == Registered)
        && (status.None? ==>
              message == ServerError && errors == NoErrors
              && fullName == old(fullName) && email == old(email) && password == old(password))
        && (status.Some? && status.value != 201 ==>
              message == old(message) && errors == NoErrors
              && fullName == old(fullName) && email == old(email) && password == old(password))
    {
      var valid := ValidateForm();
      if !valid {
        return;
      }
      if status.None? {
        message := ServerError;
        return;
      }
      users := users + [NewUser(fullName, email, password)];
      if status.value == 201 {
        message, fullName, email, password, errors := Registered, "", "", "", NoErrors;
      }
    }
  }
}
