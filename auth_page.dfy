/** The login / sign-up page (components/AuthPage.tsx): the email and phone validators, the
    password-strength meter, per-field sign-up validation, and the login and sign-up handlers
    over the `lostfound_users` map and the session slot. */
module AuthPage {
  import opened Common
  import opened Text
  import opened Records
  import opened Storage

  // ---------------------------------------------------------------- email

  /** `[^\s@]` */
  predicate Plain(c: char) {
    !IsSpace(c) && c != '@'
  }

  predicate AllPlain(s: string) {
    forall i | 0 <= i < |s| :: Plain(s[i])
  }

  /** The regex `^[^\s@]+@[^\s@]+\.[^\s@]+$` matches `s` with its `@` at `a` and the escaped
      dot at `j`. */
  predicate MatchesAt(s: string, a: int, j: int) {
    && 0 < a && a + 1 < j && j + 1 < |s|
    && s[a] == '@' && s[j] == '.'
    && AllPlain(s[..a]) && AllPlain(s[a + 1..j]) && AllPlain(s[j + 1..])
  }

  /** The regex matches for some choice of the `@` and the dot. */
  predicate RegexMatches(s: string) {
    exists a, j | 0 <= a < |s| && 0 <= j < |s| :: MatchesAt(s, a, j)
  }

  /** `isValidEmail`: accepts exactly the strings of the character-level shape. */
  predicate IsValidEmail(s: string): (b: bool)
    ensures b <==> EmailShape(s)
  {
    EmailShapeIff(s);
    RegexMatches(s)
  }

  /** The same language described character by character: no whitespace, exactly one `@`,
      something before it, and a dot after it that is neither right after the `@` nor last. */
  predicate EmailShape(s: string) {
    && (forall i | 0 <= i < |s| :: !IsSpace(s[i]))
    && exists a | 0 < a < |s| :: OnlyAtAt(s, a) && HasInnerDot(s, a)
  }

  /** `s[a]` is the one and only `@` of `s`. */
  predicate OnlyAtAt(s: string, a: int)
    requires 0 <= a < |s|
  {
    s[a] == '@' && forall i | 0 <= i < |s| && i != a :: s[i] != '@'
  }

  /** After position `a` there is a dot with at least one character on each side of it. */
  predicate HasInnerDot(s: string, a: int)
    requires 0 <= a
  {
    exists j | a + 1 < j < |s| - 1 :: s[j] == '.'
  }

  /** The regex and the character-level description accept the same strings. */
  lemma EmailShapeIff(s: string)
    ensures RegexMatches(s) <==> EmailShape(s)
  {
    if RegexMatches(s) {
      var a, j :| 0 <= a < |s| && 0 <= j < |s| && MatchesAt(s, a, j);
      forall i | 0 <= i < |s| ensures Plain(s[i]) || i == a || i == j {
        if i < a {
          assert s[..a][i] == s[i];
        } else if a < i < j {
          assert s[a + 1..j][i - a - 1] == s[i];
        } else if j < i {
          assert s[j + 1..][i - j - 1] == s[i];
        }
      }
      assert OnlyAtAt(s, a);
      assert HasInnerDot(s, a);
    }
    if EmailShape(s) {
      var a :| 0 < a < |s| && OnlyAtAt(s, a) && HasInnerDot(s, a);
      var j :| a + 1 < j < |s| - 1 && s[j] == '.';
      assert forall i | 0 <= i < |s| && i != a :: Plain(s[i]);
      assert AllPlain(s[..a]) by {
        forall i | 0 <= i < a ensures Plain(s[..a][i]) { assert s[..a][i] == s[i]; }
      }
      var mid, tail := s[a + 1..j], s[j + 1..];
      forall i | 0 <= i < |mid| ensures Plain(mid[i]) { assert mid[i] == s[a + 1 + i]; }
      forall i | 0 <= i < |tail| ensures Plain(tail[i]) { assert tail[i] == s[j + 1 + i]; }
      assert MatchesAt(s, a, j);
    }
  }

  // ---------------------------------------------------------------- phone

  /** `phone.replace(/\D/g, "")`: the digits of `phone`, in order. */
  function Digits(phone: string): (r: string)
    ensures IsSubsequence(r, phone)
    ensures forall c :: c in r <==> c in phone && IsDigit(c)
    ensures forall c :: multiset(r)[c] == (if IsDigit(c) then multiset(phone)[c] else 0)
  {
    FilterIsSubsequence(IsDigit, phone);
    FilterMultiset(IsDigit, phone);
    forall c ensures c in Filter(IsDigit, phone) <==> c in phone && IsDigit(c) {
      FilterMember(IsDigit, phone, c);
    }
    Filter(IsDigit, phone)
  }

  /** `isValidPhone`: exactly ten digits once every other character is removed, that is,
      exactly ten positions of `phone` hold a digit. */
  predicate IsValidPhone(phone: string): (b: bool)
    ensures b <==> |set i | 0 <= i < |phone| && IsDigit(phone[i])| == 10
  {
    FilterCountsIndices(IsDigit, phone);
    assert IndicesWhere(IsDigit, phone) == set i | 0 <= i < |phone| && IsDigit(phone[i]);
    |Digits(phone)| == 10
  }

  /** Separators (spaces, dashes, brackets: anything but a digit) do not change whether a
      phone number is valid. */
  lemma PhoneIgnoresSeparators(before: string, sep: string, after: string)
    requires forall i | 0 <= i < |sep| :: !IsDigit(sep[i])
    ensures IsValidPhone(before + sep + after) <==> IsValidPhone(before + after)
  {
    FilterAppend(IsDigit, before + sep, after);
    FilterAppend(IsDigit, before, sep);
    FilterAppend(IsDigit, before, after);
    NoDigits(sep);
  }

  lemma {:induction false} NoDigits(s: string)
    requires forall i | 0 <= i < |s| :: !IsDigit(s[i])
    ensures Filter(IsDigit, s) == []
  {
    if s != [] {
      NoDigits(s[1..]);
    }
  }

  /** Ten digits and nothing else is a valid phone number. */
  lemma TenDigitsValid(phone: string)
    requires |phone| == 10 && forall i | 0 <= i < |phone| :: IsDigit(phone[i])
    ensures IsValidPhone(phone)
  {
    FilterKeepsAll(IsDigit, phone);
  }

  // ---------------------------------------------------------------- password strength

  predicate HasLower(p: string) { exists i | 0 <= i < |p| :: IsLowerLetter(p[i]) }
  predicate HasUpper(p: string) { exists i | 0 <= i < |p| :: IsUpperLetter(p[i]) }
  predicate HasDigit(p: string) { exists i | 0 <= i < |p| :: IsDigit(p[i]) }
  /** `/[^a-zA-Z\d]/` */
  predicate HasSymbol(p: string) { exists i | 0 <= i < |p| :: !IsAlphaNumeric(p[i]) }

  function Point(b: bool): nat { if b then 1 else 0 }

  /** The score of a password of length at least 6: one point each for length at least 8,
      mixed case, a digit, a symbol. */
  function Score(p: string): (n: nat)
    ensures n <= 4
    ensures n == 4 <==>
      Utf16Length(p) >= 8 && HasLower(p) && HasUpper(p) && HasDigit(p) && HasSymbol(p)
  {
    Point(Utf16Length(p) >= 8) + Point(HasLower(p) && HasUpper(p)) + Point(HasDigit(p)) + Point(HasSymbol(p))
  }

  datatype Strength = Strength(strength: string, color: string, percentage: nat)

  /** `getPasswordStrength`. */
  function PasswordStrength(p: string): (r: Strength)
    ensures r.percentage == 0 <==> p == ""
    ensures r.percentage in {0, 25, 40, 60, 80, 100}
    ensures 0 < Utf16Length(p) < 6 ==> r.percentage == 25
    ensures Utf16Length(p) >= 6 ==>
      r.percentage == (if Score(p) <= 1 then 40 else 20 * Score(p) + 20)
    ensures r.strength == "Strong" <==>
      Utf16Length(p) >= 8 && HasLower(p) && HasUpper(p) && HasDigit(p) && HasSymbol(p)
    ensures r.strength == "Strong" <==> r.percentage == 100
    ensures r.strength == "Good" <==> r.percentage == 80
    ensures r.strength == "Fair" <==> r.percentage == 60
    ensures r.strength == "Weak" <==> r.percentage == 25 || r.percentage == 40
  {
    if Utf16Length(p) == 0 then Strength("", "", 0)
    else if Utf16Length(p) < 6 then Strength("Weak", "text-red-600", 25)
    else
      var score := Score(p);
      if score <= 1 then Strength("Weak", "text-orange-600", 40)
      else if score == 2 then Strength("Fair", "text-yellow-600", 60)
      else if score == 3 then Strength("Good", "text-blue-600", 80)
      else Strength("Strong", "text-green-600", 100)
  }

  /** Typing more characters never lowers the meter. */
  lemma StrengthGrows(p: string, more: string)
    ensures PasswordStrength(p).percentage <= PasswordStrength(p + more).percentage
  {
    var q := p + more;
    Utf16LengthAppend(p, more);
    assert forall i | 0 <= i < |p| :: q[i] == p[i];
    if HasLower(p) { var i :| 0 <= i < |p| && IsLowerLetter(p[i]); assert IsLowerLetter(q[i]); }
    if HasUpper(p) { var i :| 0 <= i < |p| && IsUpperLetter(p[i]); assert IsUpperLetter(q[i]); }
    if HasDigit(p) { var i :| 0 <= i < |p| && IsDigit(p[i]); assert IsDigit(q[i]); }
    if HasSymbol(p) { var i :| 0 <= i < |p| && !IsAlphaNumeric(p[i]); assert !IsAlphaNumeric(q[i]); }
    assert Score(p) <= Score(q);
  }

  // ---------------------------------------------------------------- sign-up validation

  /** The five fields `validateSignupField` is called with. */
  datatype SignupField = Name | Email | Phone | Password | ConfirmPassword

  datatype SignupData = SignupData(name: string, email: string, phone: string,
                                   password: string, confirmPassword: string)

  /** The first message of each field: the value is missing (for the name, blank once trimmed). */
  function MissingMessage(f: SignupField): string {
    match f
    case Name => "Name is required"
    case Email => "Email is required"
    case Phone => "Phone number is required"
    case Password => "Password is required"
    case ConfirmPassword => "Please confirm your password"
  }

  /** The second message of each field: the value is there but not acceptable. */
  function InvalidMessage(f: SignupField): string {
    match f
    case Name => "Name must be at least 2 characters"
    case Email => "Invalid email format"
    case Phone => "Phone must be 10 digits"
    case Password => "Password must be at least 6 characters"
    case ConfirmPassword => "Passwords do not match"
  }

  /** When a field's value is missing. */
  predicate Missing(f: SignupField, value: string) {
    if f == Name then Trim(value) == "" else value == ""
  }

  /** What each field accepts, stated without the two-step cascade. */
  predicate FieldOk(f: SignupField, value: string, password: string) {
    match f
    case Name => Utf16Length(Trim(value)) >= 2
    case Email => IsValidEmail(value)
    case Phone => IsValidPhone(value)
    case Password => Utf16Length(value) >= 6
    case ConfirmPassword => value != "" && value == password
  }

  /** The error `validateSignupField(f, value)` computes while the sign-up password is
      `password`: "" exactly when the field accepts the value, otherwise the field's
      "missing" message for a missing value and its "invalid" message for any other. */
  function FieldError(f: SignupField, value: string, password: string): (e: string)
    ensures e == "" <==> FieldOk(f, value, password)
    ensures e != "" ==> e == (if Missing(f, value) then MissingMessage(f) else InvalidMessage(f))
  {
    if Missing(f, value) then MissingMessage(f)
    else if !FieldOk(f, value, password) then InvalidMessage(f)
    else ""
  }

  /** All five checks of `handleSignup` pass. */
  predicate AllFieldsOk(d: SignupData) {
    && FieldOk(Name, d.name, d.password) && FieldOk(Email, d.email, d.password)
    && FieldOk(Phone, d.phone, d.password) && FieldOk(Password, d.password, d.password)
    && FieldOk(ConfirmPassword, d.confirmPassword, d.password)
  }

  /** `signupErrors` after `handleSignup` validates the five fields one after another. */
  function ValidatedErrors(errors: map<SignupField, string>, d: SignupData): map<SignupField, string> {
    errors[Name := FieldError(Name, d.name, d.password)]
          [Email := FieldError(Email, d.email, d.password)]
          [Phone := FieldError(Phone, d.phone, d.password)]
          [Password := FieldError(Password, d.password, d.password)]
          [ConfirmPassword := FieldError(ConfirmPassword, d.confirmPassword, d.password)]
  }

  // ---------------------------------------------------------------- login and sign-up

  const FillAllFields := "Please fill in all fields."
  const EnterValidEmail := "Please enter a valid email address."
  const NoAccount := "No account found with this email address."
  const WrongPassword := "Incorrect password. Please try again."
  const FixErrors := "Please fix the errors in the form."
  const DuplicateEmail := "An account with this email already exists"

  /** The session user a login or sign-up stores: `{ name, email, phone }`, no password. */
  function SessionUser(a: Account, email: string): User {
    User(a.name, email, a.phone)
  }

  /** The checks of `handleLogin`, in the source's order, against the stored accounts. */
  function LoginOutcome(email: string, password: string, users: map<string, Account>): (r: Result<User>)
    ensures r.Ok? <==>
      email != "" && password != "" && IsValidEmail(email) && email in users
      && users[email].password == password
    ensures r.Ok? ==> r.value == User(users[email].name, email, users[email].phone)
    ensures email == "" || password == "" ==> r == Err(FillAllFields)
    ensures email != "" && password != "" && !IsValidEmail(email) ==> r == Err(EnterValidEmail)
    ensures email != "" && password != "" && IsValidEmail(email) && email !in users ==> r == Err(NoAccount)
    ensures (email != "" && password != "" && IsValidEmail(email) && email in users
             && users[email].password != password) ==> r == Err(WrongPassword)
  {
    if email == "" || password == "" then Err(FillAllFields)
    else if !IsValidEmail(email) then Err(EnterValidEmail)
    else if email !in users then Err(NoAccount)
    else if users[email].password != password then Err(WrongPassword)
    else Ok(SessionUser(users[email], email))
  }

  /** The account `handleSignup` stores under the email (password in plain text). */
  function NewAccount(d: SignupData, now: string): Account {
    Account(d.name, d.email, d.phone, d.password, now)
  }

  /** The accounts map after `handleSignup`: unchanged on a failed check, one entry added
      otherwise. */
  function SignupOutcome(d: SignupData, users: map<string, Account>, now: string)
    : (r: Result<map<string, Account>>)
    ensures r.Ok? <==> AllFieldsOk(d) && d.email !in users
    ensures !AllFieldsOk(d) ==> r == Err(FixErrors)
    ensures AllFieldsOk(d) && d.email in users ==> r == Err(DuplicateEmail)
    ensures r.Ok? ==>
      && r.value.Keys == users.Keys + {d.email}
      && |r.value| == |users| + 1
      && r.value[d.email] == NewAccount(d, now)
      && (forall k | k in users :: r.value[k] == users[k])
  {
    if !AllFieldsOk(d) then Err(FixErrors)
    else if d.email in users then Err(DuplicateEmail)
    else Ok(users[d.email := NewAccount(d, now)])
  }

  /** Signing up and then logging in with the same email and password succeeds, and the
      login stores the same session user the sign-up stored. */
  lemma LoginAfterSignup(d: SignupData, users: map<string, Account>, now: string)
    requires SignupOutcome(d, users, now).Ok?
    ensures LoginOutcome(d.email, d.password, SignupOutcome(d, users, now).value)
            == Ok(User(d.name, d.email, d.phone))
  {
    assert FieldOk(Email, d.email, d.password);
    assert FieldOk(Password, d.password, d.password);
  }

  /** A sign-up does not change the outcome of logging in with any other email. */
  lemma SignupKeepsOtherLogins(d: SignupData, users: map<string, Account>, now: string,
                               email: string, password: string)
    requires SignupOutcome(d, users, now).Ok? && email != d.email
    ensures LoginOutcome(email, password, SignupOutcome(d, users, now).value)
            == LoginOutcome(email, password, users)
  {
  }

  datatype LoginData = LoginData(email: string, password: string, rememberMe: bool)

  /** The mounted page: the two forms' data, the error messages it shows, and the browser
      storage it reads and writes. */
  class Page {
    const storage: LocalStorage
    var loginData: LoginData
    var signupData: SignupData
    var loginError: string
    var signupErrors: map<SignupField, string>

    constructor (storage: LocalStorage)
      ensures this.storage == storage
      ensures loginData == LoginData("", "", false)
      ensures signupData == SignupData("", "", "", "", "")
      ensures loginError == ""
      ensures signupErrors == map[Name := "", Email := "", Phone := "", Password := "", ConfirmPassword := ""]
    {
      this.storage := storage;
      loginData := LoginData("", "", false);
      signupData := SignupData("", "", "", "", "");
      loginError := "";
      signupErrors := map[Name := "", Email := "", Phone := "", Password := "", ConfirmPassword := ""];
    }

    /** `validateSignupField(f, value)`: records the field's error and reports whether there
        is none. */
    method ValidateSignupField(f: SignupField, value: string) returns (ok: bool)
      modifies this`signupErrors
      ensures signupErrors == old(signupErrors)[f := FieldError(f, value, signupData.password)]
      ensures ok <==> FieldOk(f, value, signupData.password)
    {
      var error := FieldError(f, value, signupData.password);
      signupErrors := signupErrors[f := error];
      ok := error == "";
    }

    /** `handleLogin`: on success the session slot holds the user (and a ticked "remember me"
        sets the remember flag) and the user is handed to `onLogin`; on failure the page
        shows the first failed check's message and storage is untouched. */
    method HandleLogin() returns (loggedIn: Option<User>)
      modifies this`loginError, storage`session, storage`remember
      ensures match LoginOutcome(loginData.email, loginData.password, storage.users)
        case Ok(u) =>
          && loggedIn == Some(u) && loginError == "" && storage.session == Some(u)
          && storage.remember == (old(storage.remember) || loginData.rememberMe)
        case Err(message) =>
          && loggedIn == None && loginError == message
          && storage.session == old(storage.session) && storage.remember == old(storage.remember)
    {
      loginError := "";
      var outcome := LoginOutcome(loginData.email, loginData.password, storage.users);
      if outcome.Err? {
        loginError := outcome.error;
        return None;
      }
      storage.session := Some(outcome.value);
      if loginData.rememberMe {
        storage.remember := true;
      }
      loggedIn := Some(outcome.value);
    }

    /** `handleSignup`: validates all five fields (each records its error, none is skipped);
        then rejects an email that already has an account; otherwise stores the new account
        and logs the new user in. */
    method HandleSignup(now: string) returns (loggedIn: Option<User>)
      modifies this`signupErrors, storage`users, storage`session
      ensures var outcome := SignupOutcome(signupData, old(storage.users), now);
        && (outcome.Ok? ==>
              && storage.users == outcome.value
              && storage.session == Some(User(signupData.name, signupData.email, signupData.phone))
              && loggedIn == storage.session
              && signupErrors == ValidatedErrors(old(signupErrors), signupData))
        && (outcome.Err? ==>
              && storage.users == old(storage.users) && storage.session == old(storage.session)
              && loggedIn == None
              && signupErrors == (if outcome.error == DuplicateEmail
                                  then ValidatedErrors(old(signupErrors), signupData)[Email := DuplicateEmail]
                                  else ValidatedErrors(old(signupErrors), signupData)))
    {
      var d := signupData;
      var nameOk := ValidateSignupField(Name, d.name);
      var emailOk := ValidateSignupField(Email, d.email);
      var phoneOk := ValidateSignupField(Phone, d.phone);
      var passwordOk := ValidateSignupField(Password, d.password);
      var confirmOk := ValidateSignupField(ConfirmPassword, d.confirmPassword);
      if !nameOk || !emailOk || !phoneOk || !passwordOk || !confirmOk {
        return None;
      }
      if d.email in storage.users {
        signupErrors := signupErrors[Email := DuplicateEmail];
        return None;
      }
      storage.users := storage.users[d.email := NewAccount(d, now)];
      storage.session := Some(User(d.name, d.email, d.phone));
      loggedIn := storage.session;
    }
  }
}
