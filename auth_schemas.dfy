/**
 * The request schemas of the user service: field presence, length bounds, and
 * the character rules of the `@validator` hooks for passwords, usernames and
 * role names.
 *
 * Character classes are those of ASCII: `isupper`, `islower`, `isdigit` and
 * `isalnum` are taken on the letters A-Z, a-z and the digits 0-9, and `lower`
 * maps A-Z to a-z.
 */
module AuthSchemas {
  import opened Common

  // ------------------------------------------------------ character classes

  predicate IsUpper(c: char) { 'A' <= c <= 'Z' }
  predicate IsLower(c: char) { 'a' <= c <= 'z' }
  predicate IsDigit(c: char) { '0' <= c <= '9' }
  predicate IsAlnum(c: char) { IsUpper(c) || IsLower(c) || IsDigit(c) }

  /** `any(c.isupper() for c in v)` */
  predicate HasUpper(v: string) { exists i :: 0 <= i < |v| && IsUpper(v[i]) }
  /** `any(c.islower() for c in v)` */
  predicate HasLower(v: string) { exists i :: 0 <= i < |v| && IsLower(v[i]) }
  /** `any(c.isdigit() for c in v)` */
  predicate HasDigit(v: string) { exists i :: 0 <= i < |v| && IsDigit(v[i]) }

  /** `str.isalnum()`: non-empty and alphanumeric throughout. */
  predicate IsAlnumString(v: string) { |v| > 0 && forall i :: 0 <= i < |v| ==> IsAlnum(v[i]) }

  function LowerChar(c: char): (d: char)
    ensures IsUpper(c) ==> IsLower(d)
    ensures !IsUpper(c) ==> d == c
  {
    if IsUpper(c) then (c as int - 'A' as int + 'a' as int) as char else c
  }

  /** `str.lower()`. */
  function ToLower(v: string): (r: string)
    ensures |r| == |v|
    ensures forall i :: 0 <= i < |v| ==> r[i] == LowerChar(v[i])
  {
    seq(|v|, i requires 0 <= i < |v| => LowerChar(v[i]))
  }

  /** `v.replace('_', '').replace('-', '')`. */
  function StripSeparators(v: string): (r: string)
    ensures |r| <= |v|
    ensures forall i :: 0 <= i < |r| ==> r[i] != '_' && r[i] != '-'
  {
    if |v| == 0 then ""
    else if v[0] == '_' || v[0] == '-' then StripSeparators(v[1..])
    else [v[0]] + StripSeparators(v[1..])
  }

  // ------------------------------------------------------------- verdicts

  datatype ErrorKind =
    | Missing                  // a required field is absent
    | TooShort(min: nat)       // Field(min_length=...)
    | TooLong(max: nat)        // Field(max_length=...)
    | InvalidEmail             // EmailStr
    | Rule(message: string)    // a @validator's ValueError

  datatype Checked<T> = Accepted(value: T) | Rejected(error: ErrorKind)

  datatype FieldError = FieldError(field: string, error: ErrorKind)

  /** A schema either builds its model or reports every failing field, in declaration order. */
  datatype Validated<T> = Model(value: T) | Errors(errors: seq<FieldError>)

  const MSG_UPPER := "Password must contain at least one uppercase letter"
  const MSG_LOWER := "Password must contain at least one lowercase letter"
  const MSG_DIGIT := "Password must contain at least one digit"
  const MSG_USERNAME := "Username must contain only alphanumeric characters and underscores"
  const MSG_ROLE_NAME := "Role name must contain only alphanumeric characters, hyphens, and underscores"

  const PASSWORD_MIN: nat := 8
  const PASSWORD_MAX: nat := 128
  const USERNAME_MIN: nat := 3
  const USERNAME_MAX: nat := 100
  const NAME_MAX: nat := 100
  const ROLE_NAME_MIN: nat := 1
  const ROLE_NAME_MAX: nat := 100

  /** `Field(min_length=min, max_length=max)` on a string, checked before the field's validator. */
  function CheckLength(v: string, min: nat, max: nat): (r: Option<ErrorKind>)
    ensures r.None? <==> min <= |v| <= max
  {
    if |v| < min then Some(TooShort(min)) else if |v| > max then Some(TooLong(max)) else None
  }

  // ------------------------------------------------------------ passwords

  /** The accepted passwords, stated independently of the order of the checks. */
  predicate PasswordRule(v: string)
  {
    PASSWORD_MIN <= |v| <= PASSWORD_MAX && HasUpper(v) && HasLower(v) && HasDigit(v)
  }

  /** `password` of UserCreateSchema and `new_password` of PasswordChangeSchema and ResetPasswordSchema. */
  function ValidatePassword(v: string): (r: Checked<string>)
    ensures r.Accepted? <==> PasswordRule(v)
    ensures r.Accepted? ==> r.value == v
    ensures PASSWORD_MIN <= |v| <= PASSWORD_MAX && !HasUpper(v) ==> r == Rejected(Rule(MSG_UPPER))
    ensures PASSWORD_MIN <= |v| <= PASSWORD_MAX && HasUpper(v) && !HasLower(v) ==> r == Rejected(Rule(MSG_LOWER))
    ensures PASSWORD_MIN <= |v| <= PASSWORD_MAX && HasUpper(v) && HasLower(v) && !HasDigit(v) ==> r == Rejected(Rule(MSG_DIGIT))
  {
    match CheckLength(v, PASSWORD_MIN, PASSWORD_MAX)
    case Some(e) => Rejected(e)
    case None =>
      if !HasUpper(v) then Rejected(Rule(MSG_UPPER))
      else if !HasLower(v) then Rejected(Rule(MSG_LOWER))
      else if !HasDigit(v) then Rejected(Rule(MSG_DIGIT))
      else Accepted(v)
  }

  /** The scenario password "Passw0rd" is accepted; "password1" lacks an uppercase letter, reported first. */
  lemma PasswordExamples()
    ensures ValidatePassword("Passw0rd") == Accepted("Passw0rd")
    ensures ValidatePassword("password") == Rejected(Rule(MSG_UPPER))
    ensures ValidatePassword("PASSWORD1") == Rejected(Rule(MSG_LOWER))
    ensures ValidatePassword("Pass") == Rejected(TooShort(8))
  {
    assert IsUpper("Passw0rd"[0]) && IsLower("Passw0rd"[1]) && IsDigit("Passw0rd"[5]);
    assert IsUpper("PASSWORD1"[0]) && IsDigit("PASSWORD1"[8]);
    assert !HasLower("PASSWORD1");
  }

  // ------------------------------------------------------------ usernames

  /**
   * `username` of UserCreateSchema: 3..100 characters, and rejected only when
   * it is not alphanumeric AND has no '_'. Any string with an underscore
   * passes the character check, whatever else it contains.
   */
  function ValidateUsername(v: string): (r: Checked<string>)
    ensures r.Accepted? <==> USERNAME_MIN <= |v| <= USERNAME_MAX && (IsAlnumString(v) || '_' in v)
    ensures r.Accepted? ==> r.value == v
    ensures USERNAME_MIN <= |v| <= USERNAME_MAX && r.Rejected? ==> r.error == Rule(MSG_USERNAME)
  {
    match CheckLength(v, USERNAME_MIN, USERNAME_MAX)
    case Some(e) => Rejected(e)
    case None =>
      if !IsAlnumString(v) && '_' !in v then Rejected(Rule(MSG_USERNAME)) else Accepted(v)
  }

  /** The quirk: "a b!_" (space, '!') passes, "bob!" does not. */
  lemma UsernameUnderscoreQuirk()
    ensures ValidateUsername("a b!_").Accepted?
    ensures ValidateUsername("bob!") == Rejected(Rule(MSG_USERNAME))
  {
    assert "a b!_"[4] == '_';
    assert !IsAlnum("bob!"[3]);
    assert '_' !in "bob!" by {
      assert forall i :: 0 <= i < |"bob!"| ==> "bob!"[i] != '_';
    }
  }

  /** `username` of UserUpdateSchema: absent passes through; present obeys the same rule. */
  function ValidateUsernameUpdate(v: Option<string>): (r: Checked<Option<string>>)
    ensures v.None? ==> r == Accepted(None)
    ensures v.Some? ==> (r.Accepted? <==> ValidateUsername(v.value).Accepted?)
    ensures r.Accepted? ==> r.value == v
  {
    match v
    case None => Accepted(None)
    case Some(s) =>
      match ValidateUsername(s)
      case Accepted(_) => Accepted(v)
      case Rejected(e) => Rejected(e)
  }

  // ----------------------------------------------------------- role names

  /** The accepted role-name characters, stated without the string rewriting. */
  predicate RoleNameChars(v: string)
  {
    (exists i :: 0 <= i < |v| && IsAlnum(v[i]))
    && forall i :: 0 <= i < |v| ==> IsAlnum(v[i]) || v[i] == '_' || v[i] == '-'
  }

  /** `StripSeparators` keeps exactly the characters of its input that are not '_' or '-'. */
  lemma {:induction false} StripMembers(v: string)
    ensures forall c :: c in StripSeparators(v) <==> c in v && c != '_' && c != '-'
  {
    if |v| > 0 {
      StripMembers(v[1..]);
      assert v == [v[0]] + v[1..];
    }
  }

  lemma StripSeparatorsAlnum(v: string)
    ensures IsAlnumString(StripSeparators(v)) <==> RoleNameChars(v)
  {
    var s := StripSeparators(v);
    StripMembers(v);
    if IsAlnumString(s) {
      assert s[0] in v;
      forall i | 0 <= i < |v| ensures IsAlnum(v[i]) || v[i] == '_' || v[i] == '-' {
        if v[i] != '_' && v[i] != '-' {
          assert v[i] in s;
        }
      }
    }
    if RoleNameChars(v) {
      var i :| 0 <= i < |v| && IsAlnum(v[i]);
      assert v[i] in s;
      forall j | 0 <= j < |s| ensures IsAlnum(s[j]) {
        assert s[j] in v;
      }
    }
  }


  /**
   * `name` of RoleCreateSchema: 1..100 characters; after deleting every '_'
   * and '-' what is left must be non-empty and alphanumeric; the stored value
   * is the lower-cased input.
   */
  function ValidateRoleName(v: string): (r: Checked<string>)
    ensures r.Accepted? <==> ROLE_NAME_MIN <= |v| <= ROLE_NAME_MAX && RoleNameChars(v)
    ensures r.Accepted? ==> r.value == ToLower(v)
    ensures ROLE_NAME_MIN <= |v| <= ROLE_NAME_MAX && r.Rejected? ==> r.error == Rule(MSG_ROLE_NAME)
  {
    StripSeparatorsAlnum(v);
    match CheckLength(v, ROLE_NAME_MIN, ROLE_NAME_MAX)
    case Some(e) => Rejected(e)
    case None =>
      if !IsAlnumString(StripSeparators(v)) then Rejected(Rule(MSG_ROLE_NAME)) else Accepted(ToLower(v))
  }

  /** A stored role name has no upper-case letter and is itself accepted unchanged. */
  lemma RoleNameNormalised(v: string)
    requires ValidateRoleName(v).Accepted?
    ensures var n := ValidateRoleName(v).value;
            (forall i :: 0 <= i < |n| ==> !IsUpper(n[i])) && ValidateRoleName(n) == Accepted(n)
  {
    var n := ToLower(v);
    assert forall i :: 0 <= i < |n| ==> (IsAlnum(n[i]) <==> IsAlnum(v[i]));
    assert forall i :: 0 <= i < |n| ==> ((n[i] == '_' <==> v[i] == '_') && (n[i] == '-' <==> v[i] == '-'));
    var i :| 0 <= i < |v| && IsAlnum(v[i]);
    assert IsAlnum(n[i]);
    assert RoleNameChars(n);
    assert ToLower(n) == n;
  }

  lemma RoleNameExamples()
    ensures ValidateRoleName("Data-Analyst") == Accepted("data-analyst")
    ensures ValidateRoleName("-_-") == Rejected(Rule(MSG_ROLE_NAME))
  {
    var v := "Data-Analyst";
    assert IsAlnum(v[0]);
    assert forall i :: 0 <= i < |v| ==> IsAlnum(v[i]) || v[i] == '-';
    assert RoleNameChars(v);
    assert ToLower(v) == "data-analyst";
    var w := "-_-";
    assert forall i :: 0 <= i < |w| ==> !IsAlnum(w[i]);
    assert !RoleNameChars(w);
  }

  /** `name` of RoleUpdateSchema: absent passes through; present obeys the same rule and is lower-cased. */
  function ValidateRoleNameUpdate(v: Option<string>): (r: Checked<Option<string>>)
    ensures v.None? ==> r == Accepted(None)
    ensures v.Some? ==> (r.Accepted? <==> ValidateRoleName(v.value).Accepted?)
    ensures v.Some? && r.Accepted? ==> r.value == Some(ToLower(v.value))
  {
    match v
    case None => Accepted(None)
    case Some(s) =>
      match ValidateRoleName(s)
      case Accepted(n) => Accepted(Some(n))
      case Rejected(e) => Rejected(e)
  }

  // -------------------------------------------------------------- schemas

  /** A required field: absent is `Missing`. */
  function Required(v: Option<string>, check: string -> Checked<string>): (r: Checked<string>)
    ensures v.None? ==> r == Rejected(Missing)
    ensures v.Some? ==> r == check(v.value)
  {
    match v
    case None => Rejected(Missing)
    case Some(s) => check(s)
  }

  /** An optional string with `max_length`. */
  function OptionalMax(v: Option<string>, max: nat): (r: Checked<Option<string>>)
    ensures r.Accepted? <==> (v.None? || |v.value| <= max)
    ensures r.Accepted? ==> r.value == v
  {
    match v
    case None => Accepted(None)
    case Some(s) => if |s| > max then Rejected(TooLong(max)) else Accepted(v)
  }

  function Report<T>(field: string, c: Checked<T>): (r: seq<FieldError>)
    ensures r == [] <==> c.Accepted?
  {
    if c.Rejected? then [FieldError(field, c.error)] else []
  }

  /** `EmailStr`: the validator's normalized address, or the field error when it refuses the string. */
  function Email(emailStr: string -> Option<string>): string -> Checked<string>
  {
    s => if emailStr(s).Some? then Accepted(emailStr(s).value) else Rejected(InvalidEmail)
  }

  /** A request body of POST /auth/register; a key that is absent, or null, is `None`. */
  datatype UserCreateForm = UserCreateForm(
    email: Option<string>, username: Option<string>, password: Option<string>,
    firstName: Option<string>, lastName: Option<string>)

  datatype UserCreate = UserCreate(
    email: string, username: string, password: string, firstName: Option<string>, lastName: Option<string>)

  /**
   * UserCreateSchema. `emailStr` is the e-mail validator behind `EmailStr`,
   * which is not modelled: it refuses a string (`None`) or returns the
   * normalized address the model then holds.
   */
  function ValidateUserCreate(f: UserCreateForm, emailStr: string -> Option<string>): (r: Validated<UserCreate>)
    ensures r.Model? <==>
      && f.email.Some? && emailStr(f.email.value).Some?
      && f.username.Some? && ValidateUsername(f.username.value).Accepted?
      && f.password.Some? && PasswordRule(f.password.value)
      && (f.firstName.None? || |f.firstName.value| <= NAME_MAX)
      && (f.lastName.None? || |f.lastName.value| <= NAME_MAX)
    ensures r.Model? ==> r.value == UserCreate(emailStr(f.email.value).value, f.username.value, f.password.value, f.firstName, f.lastName)
    ensures r.Errors? ==> |r.errors| > 0
  {
    var e := Required(f.email, Email(emailStr));
    var u := Required(f.username, ValidateUsername);
    var p := Required(f.password, ValidatePassword);
    var first := OptionalMax(f.firstName, NAME_MAX);
    var last := OptionalMax(f.lastName, NAME_MAX);
    var errors := Report("email", e) + Report("username", u) + Report("password", p)
                + Report("first_name", first) + Report("last_name", last);
    if errors == [] then Model(UserCreate(e.value, u.value, p.value, first.value, last.value))
    else Errors(errors)
  }

  datatype LoginRequest = LoginRequest(email: string, password: string)

  /** LoginRequestSchema: a normalized e-mail address and any password string; no length rules. */
  function ValidateLogin(email: Option<string>, password: Option<string>, emailStr: string -> Option<string>): (r: Validated<LoginRequest>)
    ensures r.Model? <==> email.Some? && emailStr(email.value).Some? && password.Some?
    ensures r.Model? ==> r.value == LoginRequest(emailStr(email.value).value, password.value)
  {
    var e := Required(email, Email(emailStr));
    var p := Required(password, s => Accepted(s));
    var errors := Report("email", e) + Report("password", p);
    if errors == [] then Model(LoginRequest(e.value, p.value)) else Errors(errors)
  }

  datatype UserUpdateForm = UserUpdateForm(
    email: Option<string>, username: Option<string>, firstName: Option<string>, lastName: Option<string>,
    isActive: Option<bool>, isVerified: Option<bool>)

  /** UserUpdateSchema: every field optional; a present username obeys the registration rule, a present e-mail is normalized. */
  function ValidateUserUpdate(f: UserUpdateForm, emailStr: string -> Option<string>): (r: Validated<UserUpdateForm>)
    ensures r.Model? <==>
      && (f.email.None? || emailStr(f.email.value).Some?)
      && (f.username.None? || ValidateUsername(f.username.value).Accepted?)
      && (f.firstName.None? || |f.firstName.value| <= NAME_MAX)
      && (f.lastName.None? || |f.lastName.value| <= NAME_MAX)
    ensures r.Model? ==> r.value == f.(email := if f.email.Some? then emailStr(f.email.value) else None)
  {
    var e: Checked<Option<string>> :=
      if f.email.None? then Accepted(None)
      else if emailStr(f.email.value).Some? then Accepted(emailStr(f.email.value))
      else Rejected(InvalidEmail);
    var u := ValidateUsernameUpdate(f.username);
    var first := OptionalMax(f.firstName, NAME_MAX);
    var last := OptionalMax(f.lastName, NAME_MAX);
    var errors := Report("email", e) + Report("username", u) + Report("first_name", first) + Report("last_name", last);
    if errors == [] then Model(f.(email := e.value)) else Errors(errors)
  }

  datatype PasswordChange = PasswordChange(currentPassword: string, newPassword: string)

  /** PasswordChangeSchema: `current_password` is any string; `new_password` obeys the registration rules. */
  function ValidatePasswordChange(current: Option<string>, newPassword: Option<string>): (r: Validated<PasswordChange>)
    ensures r.Model? <==> current.Some? && newPassword.Some? && PasswordRule(newPassword.value)
    ensures r.Model? ==> r.value == PasswordChange(current.value, newPassword.value)
  {
    var c := Required(current, s => Accepted(s));
    var n := Required(newPassword, ValidatePassword);
    var errors := Report("current_password", c) + Report("new_password", n);
    if errors == [] then Model(PasswordChange(c.value, n.value)) else Errors(errors)
  }

  datatype ResetPassword = ResetPassword(token: string, newPassword: string)

  /** ResetPasswordSchema: `token` is any string; `new_password` obeys the registration rules. */
  function ValidateResetPassword(token: Option<string>, newPassword: Option<string>): (r: Validated<ResetPassword>)
    ensures r.Model? <==> token.Some? && newPassword.Some? && PasswordRule(newPassword.value)
    ensures r.Model? ==> r.value == ResetPassword(token.value, newPassword.value)
  {
    var t := Required(token, s => Accepted(s));
    var n := Required(newPassword, ValidatePassword);
    var errors := Report("token", t) + Report("new_password", n);
    if errors == [] then Model(ResetPassword(t.value, n.value)) else Errors(errors)
  }

  datatype RoleCreate = RoleCreate(name: string, description: Option<string>, permissions: map<string, seq<string>>)

  /** RoleCreateSchema: `permissions` defaults to the empty map; the name is validated and lower-cased. */
  function ValidateRoleCreate(name: Option<string>, description: Option<string>, permissions: Option<map<string, seq<string>>>)
    : (r: Validated<RoleCreate>)
    ensures r.Model? <==> name.Some? && ValidateRoleName(name.value).Accepted?
    ensures r.Model? ==> r.value == RoleCreate(ToLower(name.value), description, permissions.GetOr(map[]))
  {
    var n := Required(name, ValidateRoleName);
    if n.Rejected? then Errors([FieldError("name", n.error)])
    else Model(RoleCreate(n.value, description, permissions.GetOr(map[])))
  }

  datatype RoleUpdate = RoleUpdate(name: Option<string>, description: Option<string>, permissions: Option<map<string, seq<string>>>)

  /** RoleUpdateSchema: every field optional; a present name is validated and lower-cased. */
  function ValidateRoleUpdate(name: Option<string>, description: Option<string>, permissions: Option<map<string, seq<string>>>)
    : (r: Validated<RoleUpdate>)
    ensures r.Model? <==> ValidateRoleNameUpdate(name).Accepted?
    ensures r.Model? ==> r.value == RoleUpdate(if name.Some? then Some(ToLower(name.value)) else None, description, permissions)
  {
    var n := ValidateRoleNameUpdate(name);
    if n.Rejected? then Errors([FieldError("name", n.error)])
    else Model(RoleUpdate(n.value, description, permissions))
  }
}
