/** The account routes: the `sanitizeUser` projection, the two input
    validators, customer and business registration, the customer and business
    login ladders, and the forgot-password, reset-password and verify-email
    flows.

    The e-mail regular expression of the validators is the opaque predicate
    `emailPattern`; bcrypt's compare is the function `compare(candidate,
    storedHash)`; the bcrypt hash a save stores for a new password is the
    parameter `hashed`; SHA-256 is `hash`; `Date.now()` is `now`; whether an
    e-mail could be sent is `mailSent`. JWT signing and the e-mail contents are
    not part of this model. */
module AuthRoutes {
  import opened Common
  import opened UserModel

  // ---------------------------------------------------------------------------
  // sanitizeUser

  /** What `sanitizeUser` lets out of a user document. */
  datatype SafeUser = SafeUser(
    id: nat,
    username: Option<string>,
    firstName: string,
    lastName: string,
    email: string,
    phone: Option<string>,
    location: Location,
    userType: UserType,
    isVerified: bool,
    isActive: bool,
    profilePicture: Option<string>,
    createdAt: int,
    lastLogin: Option<int>,
    tags: seq<string>)

  function SanitizeUser(a: Account): (r: SafeUser)
    ensures r.id == a.id && r.username == a.username && r.email == a.email && r.userType == a.userType
    ensures r.firstName == a.firstName && r.lastName == a.lastName && r.phone == a.phone && r.location == a.location
    ensures r.isVerified == a.isVerified && r.isActive == a.isActive && r.lastLogin == a.lastLogin
    ensures r.tags == if a.tags.Some? then a.tags.value else []
  {
    SafeUser(a.id, a.username, a.firstName, a.lastName, a.email, a.phone, a.location, a.userType,
             a.isVerified, a.isActive, a.profilePicture, a.createdAt, a.lastLogin,
             if a.tags.Some? then a.tags.value else [])
  }

  /** Nothing secret leaks: accounts that differ only in the password hash and
      the two stored tokens sanitize to the same value. */
  lemma SanitizeIgnoresSecrets(a: Account, password: string, reset: TokenSlot, verification: TokenSlot)
    ensures SanitizeUser(a.(password := password, reset := reset, verification := verification)) == SanitizeUser(a)
  {
  }

  // ---------------------------------------------------------------------------
  // Replies

  /** An HTTP answer: the status, `message`, the `error`/`errors` detail and,
      on success, the sanitized user. */
  datatype Reply = Reply(status: nat, message: string, detail: seq<string>, user: Option<SafeUser>)

  function Fail(status: nat, message: string, error: string): Reply {
    Reply(status, message, [error], None)
  }

  // The texts of the replies that recur in the routes below.
  const UsernameTakenText := "Username already taken. Please choose a different username."
  const BadUserTypeText := "Invalid user type. Must be one of: customer, business, admin"
  const RegisteredText := "Registration successful! Welcome to AAA Services."
  const BusinessNameShortText := "Business name must be at least 2 characters long"
  const DescriptionShortText := "Business description must be at least 20 characters long"
  const LoggedInText := "Login successful! Welcome back."
  const BusinessLoggedInText := "Business login successful! Welcome back."
  const ForgotTypeText := "User type must be either \"customer\" or \"business\""
  const ResetSentBusinessText := "Password reset link has been sent to your business email."
  const ResetSentText := "Password reset link has been sent to your email."
  const TryLaterText := "Please try again later or contact support for assistance."
  const RequestNewResetText := "Please request a new password reset link"
  const RequestNewVerificationText := "Please request a new verification link"
  const AlreadyVerifiedText := "Your email is already verified. You can login normally."
  const ResetDoneText := "Password has been reset successfully"
  const ContactSupportText := "Please contact support for assistance."
  const ProvideResetTokenText := "Please provide a valid reset token"

  const BadCredentials := "Invalid email or password. Please check your credentials and try again."
  const Deactivated := "Account is deactivated. Please contact support for assistance."
  const UseBusinessPortal := "You have a business account. Please login through the business login portal."
  const UseCustomerPortal := "You have a customer account. Please login through the customer login portal."
  const VerifyFirst := "Please verify your email address before logging in. Check your email for the verification link."

  /** Where a guard ladder ends: an answer, or going on with the account at an index. */
  datatype Step = Answer(reply: Reply) | Proceed(value: nat)

  function TypeName(t: UserType): string {
    match t
    case Customer => "customer"
    case Business => "business"
    case Admin => "admin"
  }

  // ---------------------------------------------------------------------------
  // Input validation

  datatype RegistrationInput = RegistrationInput(
    username: Option<string>,
    firstName: Option<string>,
    lastName: Option<string>,
    email: Option<string>,
    password: Option<string>,
    confirmPassword: Option<string>,
    location: Option<Location>,
    phone: Option<string>,
    userType: Option<string>)

  /** The rules of `validateRegistrationInput`, in the order they run. */
  datatype RegistrationError = FirstNameShort | LastNameShort | InvalidEmail | PasswordShort | PasswordMismatch | CityMissing
  {
    function Text(): string {
      match this
      case FirstNameShort => "First name must be at least 2 characters long"
      case LastNameShort => "Last name must be at least 2 characters long"
      case InvalidEmail => "Please provide a valid email address"
      case PasswordShort => "Password must be at least 6 characters long"
      case PasswordMismatch => "Passwords do not match"
      case CityMissing => "City is required in location information"
    }

    function Rank(): nat {
      match this
      case FirstNameShort => 0
      case LastNameShort => 1
      case InvalidEmail => 2
      case PasswordShort => 3
      case PasswordMismatch => 4
      case CityMissing => 5
    }
  }

  /** A name is missing or shorter than 2 once trimmed. */
  predicate ShortName(name: Option<string>) {
    !Present(name) || |Trim(name.value)| < 2
  }

  predicate BadEmail(email: Option<string>, emailPattern: string -> bool) {
    !Present(email) || !emailPattern(email.value)
  }

  predicate ShortPassword(password: Option<string>) {
    !Present(password) || |password.value| < 6
  }

  predicate NoCity(location: Option<Location>) {
    location.None? || !Present(location.value.city)
  }

  /** The rules in the order the validator runs them. */
  const Rules: seq<RegistrationError> := [FirstNameShort, LastNameShort, InvalidEmail, PasswordShort, PasswordMismatch, CityMissing]

  /** Whether `input` breaks rule `e`. */
  predicate Fails(e: RegistrationError, input: RegistrationInput, emailPattern: string -> bool) {
    match e
    case FirstNameShort => ShortName(input.firstName)
    case LastNameShort => ShortName(input.lastName)
    case InvalidEmail => BadEmail(input.email, emailPattern)
    case PasswordShort => ShortPassword(input.password)
    case PasswordMismatch => input.password != input.confirmPassword
    case CityMissing => NoCity(input.location)
  }

  /** The messages of the rules in `rules` that `input` breaks, in order. */
  function Failures(rules: seq<RegistrationError>, input: RegistrationInput, emailPattern: string -> bool): seq<RegistrationError>
  {
    if rules == [] then []
    else
      var last := rules[|rules| - 1];
      Failures(rules[..|rules| - 1], input, emailPattern) + (if Fails(last, input, emailPattern) then [last] else [])
  }

  /** Messages appear in rule order. */
  predicate Ascending(errors: seq<RegistrationError>) {
    forall i, j :: 0 <= i < j < |errors| ==> errors[i].Rank() < errors[j].Rank()
  }

  /** A message is reported exactly when its rule is among `rules` and fails,
      and the messages keep the order of `rules`. */
  lemma {:induction false} FailuresAreFailingRules(rules: seq<RegistrationError>, input: RegistrationInput, emailPattern: string -> bool)
    requires Ascending(rules)
    ensures forall e :: e in Failures(rules, input, emailPattern) <==> e in rules && Fails(e, input, emailPattern)
    ensures Ascending(Failures(rules, input, emailPattern))
  {
    if rules != [] {
      var init := rules[..|rules| - 1];
      var last := rules[|rules| - 1];
      assert rules == init + [last];
      assert Ascending(init);
      FailuresAreFailingRules(init, input, emailPattern);
      var f := Failures(init, input, emailPattern);
      assert forall i :: 0 <= i < |f| ==> f[i].Rank() < last.Rank() by {
        forall i | 0 <= i < |f|
          ensures f[i].Rank() < last.Rank()
        {
          assert f[i] in init;
        }
      }
    }
  }

  /** `validateRegistrationInput`: every rule runs, in order, and each one
      that fails adds its message. */
  method ValidateRegistrationInput(input: RegistrationInput, emailPattern: string -> bool) returns (errors: seq<RegistrationError>)
    ensures errors == Failures(Rules, input, emailPattern)
  {
    errors := [];
    if ShortName(input.firstName) {
      errors := errors + [FirstNameShort];
    }
    ghost var e1 := errors;
    assert e1 == Check(FirstNameShort, input, emailPattern);
    if ShortName(input.lastName) {
      errors := errors + [LastNameShort];
    }
    ghost var e2 := errors;
    assert e2 == e1 + Check(LastNameShort, input, emailPattern);
    if BadEmail(input.email, emailPattern) {
      errors := errors + [InvalidEmail];
    }
    ghost var e3 := errors;
    assert e3 == e2 + Check(InvalidEmail, input, emailPattern);
    if ShortPassword(input.password) {
      errors := errors + [PasswordShort];
    }
    ghost var e4 := errors;
    assert e4 == e3 + Check(PasswordShort, input, emailPattern);
    if input.password != input.confirmPassword {
      errors := errors + [PasswordMismatch];
    }
    ghost var e5 := errors;
    assert e5 == e4 + Check(PasswordMismatch, input, emailPattern);
    if NoCity(input.location) {
      errors := errors + [CityMissing];
    }
    assert errors == e5 + Check(CityMissing, input, emailPattern);
    ChainIsFailures(input, emailPattern, e1, e2, e3, e4, e5, errors);
  }

  /** The messages collected rule by rule, in the validator's order, are `Failures(Rules, …)`. */
  lemma ChainIsFailures(input: RegistrationInput, emailPattern: string -> bool,
                        e1: seq<RegistrationError>, e2: seq<RegistrationError>, e3: seq<RegistrationError>,
                        e4: seq<RegistrationError>, e5: seq<RegistrationError>, errors: seq<RegistrationError>)
    requires e1 == Check(FirstNameShort, input, emailPattern)
    requires e2 == e1 + Check(LastNameShort, input, emailPattern)
    requires e3 == e2 + Check(InvalidEmail, input, emailPattern)
    requires e4 == e3 + Check(PasswordShort, input, emailPattern)
    requires e5 == e4 + Check(PasswordMismatch, input, emailPattern)
    requires errors == e5 + Check(CityMissing, input, emailPattern)
    ensures errors == Failures(Rules, input, emailPattern)
  {
    FailuresUnrolled(input, emailPattern);
  }

  /** The message of rule `e` when `input` breaks it. */
  function Check(e: RegistrationError, input: RegistrationInput, emailPattern: string -> bool): seq<RegistrationError> {
    if Fails(e, input, emailPattern) then [e] else []
  }

  /** Running one more rule appends its message when it fails. */
  lemma FailuresSnoc(rules: seq<RegistrationError>, e: RegistrationError, input: RegistrationInput, emailPattern: string -> bool)
    ensures Failures(rules + [e], input, emailPattern) == Failures(rules, input, emailPattern) + Check(e, input, emailPattern)
  {
    assert (rules + [e])[..|rules|] == rules;
  }

  /** The six rules one after the other. */
  lemma FailuresUnrolled(input: RegistrationInput, emailPattern: string -> bool)
    ensures Failures(Rules, input, emailPattern)
            == Check(FirstNameShort, input, emailPattern) + Check(LastNameShort, input, emailPattern)
               + Check(InvalidEmail, input, emailPattern) + Check(PasswordShort, input, emailPattern)
               + Check(PasswordMismatch, input, emailPattern) + Check(CityMissing, input, emailPattern)
  {
    var r1 := [FirstNameShort];
    var r2 := r1 + [LastNameShort];
    var r3 := r2 + [InvalidEmail];
    var r4 := r3 + [PasswordShort];
    var r5 := r4 + [PasswordMismatch];
    assert [] + r1 == r1;
    FailuresSnoc([], FirstNameShort, input, emailPattern);
    FailuresSnoc(r1, LastNameShort, input, emailPattern);
    FailuresSnoc(r2, InvalidEmail, input, emailPattern);
    FailuresSnoc(r3, PasswordShort, input, emailPattern);
    FailuresSnoc(r4, PasswordMismatch, input, emailPattern);
    FailuresSnoc(r5, CityMissing, input, emailPattern);
    assert Rules == r5 + [CityMissing];
  }

  /** The validator reports each broken rule once its message, only those,
      in rule order; a request passes exactly when it breaks no rule. */
  lemma RegistrationErrorsAreFailingRules(input: RegistrationInput, emailPattern: string -> bool)
    ensures forall e :: e in Failures(Rules, input, emailPattern) <==> Fails(e, input, emailPattern)
    ensures Ascending(Failures(Rules, input, emailPattern))
    ensures Failures(Rules, input, emailPattern) == [] <==> forall e :: !Fails(e, input, emailPattern)
  {
    assert Ascending(Rules);
    FailuresAreFailingRules(Rules, input, emailPattern);
    forall e
      ensures e in Rules
    {
      match e
      case FirstNameShort => assert Rules[0] == e;
      case LastNameShort => assert Rules[1] == e;
      case InvalidEmail => assert Rules[2] == e;
      case PasswordShort => assert Rules[3] == e;
      case PasswordMismatch => assert Rules[4] == e;
      case CityMissing => assert Rules[5] == e;
    }
    if Failures(Rules, input, emailPattern) != [] {
      assert Failures(Rules, input, emailPattern)[0] in Failures(Rules, input, emailPattern);
    }
  }

  function Texts(errors: seq<RegistrationError>): (r: seq<string>)
    ensures |r| == |errors| && forall i :: 0 <= i < |errors| ==> r[i] == errors[i].Text()
  {
    if errors == [] then [] else [errors[0].Text()] + Texts(errors[1..])
  }

  /** `validateLoginInput`: one message per missing field, e-mail first. */
  method ValidateLoginInput(email: Option<string>, password: Option<string>) returns (errors: seq<string>)
    ensures "Email is required" in errors <==> !Present(email)
    ensures "Password is required" in errors <==> !Present(password)
    ensures errors == [] <==> Present(email) && Present(password)
    ensures |errors| <= 2 && (|errors| == 2 ==> errors[0] == "Email is required")
  {
    errors := [];
    if !Present(email) {
      errors := errors + ["Email is required"];
    }
    if !Present(password) {
      errors := errors + ["Password is required"];
    }
  }

  /** The middleware's answer: 400 with all the messages, or pass on to the handler. */
  function Rejection(errors: seq<string>): (r: Option<Reply>)
    ensures r.None? <==> errors == []
    ensures r.Some? ==> r.value.status == 400 && r.value.detail == errors
  {
    if errors == [] then None else Some(Reply(400, "Validation failed", errors, None))
  }

  // ---------------------------------------------------------------------------
  // Looking up accounts

  /** The schema trims and lower-cases `email`, and those setters also apply
      to the value of an `{ email }` query. */
  function NormalEmail(email: string): (r: string)
    ensures |r| <= |email|
    ensures r == [] || (!IsSpace(r[0]) && !IsSpace(r[|r| - 1]))
    ensures forall i :: 0 <= i < |r| ==> !('A' <= r[i] <= 'Z')
  {
    TrimDropsOnlySpace(email);
    var t := Trim(email);
    assert t != [] ==> !IsSpace(LowerChar(t[0])) && !IsSpace(LowerChar(t[|t| - 1]));
    ToLower(t)
  }

  /** A stored, already normalised address normalises to itself, so looking
      it up finds its own account. */
  lemma NormalEmailIdempotent(email: string)
    ensures NormalEmail(NormalEmail(email)) == NormalEmail(email)
  {
    var r := NormalEmail(email);
    assert TrimStart(r) == r;
    assert TrimEnd(r) == r;
    assert Trim(r) == r;
    assert ToLower(r) == r;
  }

  /** `User.findOne({ email })`: the first account with that e-mail. */
  function FindByEmail(accounts: seq<Account>, email: string): (r: Option<nat>)
    ensures r.Some? ==> r.value < |accounts| && accounts[r.value].email == NormalEmail(email)
    ensures r.Some? ==> forall j :: 0 <= j < r.value ==> accounts[j].email != NormalEmail(email)
    ensures r.None? ==> forall j :: 0 <= j < |accounts| ==> accounts[j].email != NormalEmail(email)
  {
    FirstWithEmail(accounts, NormalEmail(email))
  }

  /** The first account whose stored e-mail is `e`. */
  function FirstWithEmail(accounts: seq<Account>, e: string): (r: Option<nat>)
    ensures r.Some? ==> r.value < |accounts| && accounts[r.value].email == e
    ensures r.Some? ==> forall j :: 0 <= j < r.value ==> accounts[j].email != e
    ensures r.None? ==> forall j :: 0 <= j < |accounts| ==> accounts[j].email != e
  {
    if accounts == [] then None
    else if accounts[0].email == e then Some(0)
    else match FirstWithEmail(accounts[1..], e)
      case None => None
      case Some(k) => Some(k + 1)
  }

  predicate UsernameTaken(accounts: seq<Account>, username: string) {
    exists j :: 0 <= j < |accounts| && accounts[j].username == Some(username)
  }

  function Usernames(accounts: seq<Account>): (r: set<string>)
    ensures forall n :: n in r <==> UsernameTaken(accounts, n)
  {
    if accounts == [] then {}
    else
      var rest := Usernames(accounts[1..]);
      assert forall n :: UsernameTaken(accounts[1..], n) ==> UsernameTaken(accounts, n) by {
        forall n | UsernameTaken(accounts[1..], n) ensures UsernameTaken(accounts, n) {
          var j :| 0 <= j < |accounts[1..]| && accounts[1..][j].username == Some(n);
          assert accounts[j + 1].username == Some(n);
        }
      }
      if accounts[0].username.Some? then {accounts[0].username.value} + rest else rest
  }

  /** The current values of the stored documents. */
  function Views(users: seq<UserDoc>): (r: seq<Account>)
    reads users
    ensures |r| == |users| && forall i :: 0 <= i < |users| ==> r[i] == users[i].View()
  {
    if users == [] then [] else [users[0].View()] + Views(users[1..])
  }

  // ---------------------------------------------------------------------------
  // POST /register

  function ParseUserType(s: string): (t: Option<UserType>)
    ensures t.Some? <==> s in ["customer", "business", "admin"]
  {
    if s == "customer" then Some(Customer) else if s == "business" then Some(Business)
    else if s == "admin" then Some(Admin) else None
  }

  /** The requested type: 'customer' when the field is absent. */
  function RequestedType(userType: Option<string>): string {
    if userType.Some? then userType.value else "customer"
  }

  const EmailTaken := Fail(400, "Registration failed", "Email already registered. Please use a different email or try logging in.")

  /** The registration handler's checks, after validation: the e-mail is free,
      a given username is free, the user type is one of the three. The
      username query compares the trimmed name, as the schema's `trim`
      setter applies to `findOne({ username })`. */
  function RegisterGuard(accounts: seq<Account>, input: RegistrationInput): (r: Option<Reply>)
    requires Present(input.email)
    ensures r.Some? ==> r.value.status == 400 && r.value.user.None?
    ensures r.None? <==> FindByEmail(accounts, input.email.value).None?
                         && !(Present(input.username) && UsernameTaken(accounts, Trim(input.username.value)))
                         && ParseUserType(RequestedType(input.userType)).Some?
  {
    if FindByEmail(accounts, input.email.value).Some? then Some(EmailTaken)
    else if Present(input.username) && UsernameTaken(accounts, Trim(input.username.value)) then
      Some(Fail(400, "Registration failed", UsernameTakenText))
    else if ParseUserType(RequestedType(input.userType)).None? then
      Some(Fail(400, "Registration failed", BadUserTypeText))
    else None
  }

  /** The order of the checks: a taken e-mail wins over everything; the
      username is looked at only when one is given; the type last. */
  lemma RegisterLadder(accounts: seq<Account>, input: RegistrationInput)
    requires Present(input.email)
    ensures FindByEmail(accounts, input.email.value).Some? ==> RegisterGuard(accounts, input) == Some(EmailTaken)
    ensures !Present(input.username) && FindByEmail(accounts, input.email.value).None? ==>
              (RegisterGuard(accounts, input).None? <==> ParseUserType(RequestedType(input.userType)).Some?)
    ensures RegisterGuard(accounts, input).None? <==>
              FindByEmail(accounts, input.email.value).None?
              && !(Present(input.username) && UsernameTaken(accounts, Trim(input.username.value)))
              && RequestedType(input.userType) in ["customer", "business", "admin"]
  {
  }

  /** A username that differs from a stored one only by surrounding white
      space is refused as taken. */
  lemma PaddedUsernameRefused(accounts: seq<Account>, input: RegistrationInput, name: string)
    requires Present(input.email) && FindByEmail(accounts, input.email.value).None?
    requires name != [] && !IsSpace(name[0]) && !IsSpace(name[|name| - 1]) && UsernameTaken(accounts, name)
    requires input.username == Some([' '] + name + [' '])
    ensures RegisterGuard(accounts, input) == Some(Fail(400, "Registration failed", UsernameTakenText))
  {
    TrimPadded(name);
  }

  lemma TrimPadded(w: string)
    requires w != [] && !IsSpace(w[0]) && !IsSpace(w[|w| - 1])
    ensures Trim([' '] + w + [' ']) == w
  {
    var p := [' '] + w + [' '];
    assert p[1..] == w + [' '];
    assert (w + [' '])[..|w|] == w;
    assert TrimStart(p) == TrimStart(w + [' ']) == w + [' '];
    assert TrimEnd(w + [' ']) == TrimEnd(w) == w;
  }

  function TrimmedOption(s: Option<string>): Option<string> {
    if Present(s) then Some(Trim(s.value)) else None
  }

  /** The location a new user stores: the city trimmed, area and address trimmed when given. */
  function StoredLocation(l: Location): Location
    requires Present(l.city)
  {
    Location(Some(Trim(l.city.value)), TrimmedOption(l.area), TrimmedOption(l.address), l.coordinates)
  }

  /** The fields `new User(...)` receives from a validated registration, with
      the schema's defaults for everything else. */
  function NewCustomerAccount(input: RegistrationInput, t: UserType, id: nat, now: int): (a: Account)
    requires Present(input.firstName) && Present(input.lastName) && Present(input.email) && Present(input.password)
    requires input.location.Some? && Present(input.location.value.city)
    ensures a.email == NormalEmail(input.email.value) && a.firstName == Trim(input.firstName.value)
    ensures a.userType == t && a.tags == Some(["Customer"]) && a.isActive && !a.emailVerified && !a.isVerified
    ensures a.reset == Cleared && a.verification == Cleared
    ensures a.username == TrimmedOption(input.username)
  {
    Account(id, TrimmedOption(input.username), NormalEmail(input.email.value), input.password.value,
            Trim(input.firstName.value), Trim(input.lastName.value), TrimmedOption(input.phone),
            StoredLocation(input.location.value), None, false, true, t, None, Some(["Customer"]),
            Cleared, Cleared, false, now)
  }

  /** Predicate form of what `validateRegistrationInput` lets through. */
  predicate ValidRegistration(input: RegistrationInput, emailPattern: string -> bool) {
    !ShortName(input.firstName) && !ShortName(input.lastName) && !BadEmail(input.email, emailPattern)
    && !ShortPassword(input.password) && input.password == input.confirmPassword && !NoCity(input.location)
  }

  /** The validator lets a request through exactly when it is a valid registration. */
  lemma PassesValidation(input: RegistrationInput, emailPattern: string -> bool)
    ensures Failures(Rules, input, emailPattern) == [] <==> ValidRegistration(input, emailPattern)
  {
    RegistrationErrorsAreFailingRules(input, emailPattern);
    assert ValidRegistration(input, emailPattern) <==>
             !Fails(FirstNameShort, input, emailPattern) && !Fails(LastNameShort, input, emailPattern)
             && !Fails(InvalidEmail, input, emailPattern) && !Fails(PasswordShort, input, emailPattern)
             && !Fails(PasswordMismatch, input, emailPattern) && !Fails(CityMissing, input, emailPattern);
  }

  /** `new User(...)` and `save()` for a registration that passed every
      check: both pre-save hooks run on the new document, which stores the
      trimmed username. */
  method CreateCustomer(accounts: seq<Account>, input: RegistrationInput, t: UserType, id: nat, now: int, hashed: string)
      returns (doc: UserDoc)
    requires Present(input.firstName) && Present(input.lastName) && Present(input.email) && Present(input.password)
    requires input.location.Some? && Present(input.location.value.city)
    requires !(Present(input.username) && UsernameTaken(accounts, Trim(input.username.value)))
    ensures fresh(doc)
    ensures doc.email == NormalEmail(input.email.value) && doc.password == hashed && doc.userType == t
    ensures doc.tags == Some(TaggedFor(["Customer"], t))
    ensures HookUsername(TrimmedOption(input.username), doc.email, Usernames(accounts), doc.username)
    ensures doc.username.Some? && doc.username.value !in Usernames(accounts)
  {
    doc := new UserDoc(NewCustomerAccount(input, t, id, now));
    if Present(TrimmedOption(input.username)) {
      TrimDropsOnlySpace(input.username.value);
    }
    doc.Save(Usernames(accounts), Some(hashed));
  }

  /** POST /register: the validator, the handler's checks, then the new
      document and its save (`hashed` is the bcrypt hash of the password).
      Saving can still fail on schema rules not modelled here. */
  method Register(users: seq<UserDoc>, input: RegistrationInput, emailPattern: string -> bool,
                  id: nat, now: int, hashed: string) returns (reply: Reply, created: Option<UserDoc>)
    ensures !ValidRegistration(input, emailPattern) ==> reply.status == 400 && created.None?
    ensures ValidRegistration(input, emailPattern) && RegisterGuard(Views(users), input).Some? ==>
              reply == RegisterGuard(Views(users), input).value && created.None?
    ensures created.Some? <==> reply.status == 201
    ensures created.Some? ==>
              fresh(created.value) && ValidRegistration(input, emailPattern) && RegisterGuard(Views(users), input).None?
              && var a := created.value.View();
                 a.email == NormalEmail(input.email.value) && a.password == hashed
                 && a.userType == ParseUserType(RequestedType(input.userType)).value
                 && a.tags == Some(TaggedFor(["Customer"], a.userType))
                 && HookUsername(TrimmedOption(input.username), a.email, Usernames(Views(users)), a.username)
                 && a.username.Some? && a.username.value !in Usernames(Views(users))
                 && reply.user == Some(SanitizeUser(a))
  {
    var errors := ValidateRegistrationInput(input, emailPattern);
    PassesValidation(input, emailPattern);
    if errors != [] {
      return Rejection(Texts(errors)).value, None;
    }
    var accounts := Views(users);
    var guard := RegisterGuard(accounts, input);
    if guard.Some? {
      return guard.value, None;
    }
    var t := ParseUserType(RequestedType(input.userType)).value;
    var doc := CreateCustomer(accounts, input, t, id, now, hashed);
    reply := Reply(201, RegisteredText, [], Some(SanitizeUser(doc.View())));
    created := Some(doc);
  }

  /** A business that signs up through the customer form keeps the
      'Customer' tag the handler sets and gets 'Service Provider' from the hook. */
  lemma RegisterTagsBusinessAsCustomer()
    ensures TaggedFor(["Customer"], Business) == ["Customer", "Service Provider"]
  {
  }

  // ---------------------------------------------------------------------------
  // POST /business/register

  datatype BusinessInput = BusinessInput(
    businessName: Option<string>,
    businessType: Option<string>,
    description: Option<string>,
    contactPhone: Option<string>,
    contactEmail: Option<string>,
    location: Option<Location>,
    serviceAreas: Option<seq<string>>)

  /** The business handler's checks, after validation. */
  function BusinessRegisterGuard(accounts: seq<Account>, email: string, b: BusinessInput): (r: Option<Reply>)
    ensures FindByEmail(accounts, email).Some? ==> r == Some(EmailTaken)
    ensures r.None? <==> FindByEmail(accounts, email).None? && Present(b.businessName) && |Trim(b.businessName.value)| >= 2
                         && Present(b.businessType) && Present(b.description) && |Trim(b.description.value)| >= 20
  {
    if FindByEmail(accounts, email).Some? then Some(EmailTaken)
    else if !Present(b.businessName) || |Trim(b.businessName.value)| < 2 then
      Some(Fail(400, "Business registration failed", BusinessNameShortText))
    else if !Present(b.businessType) then
      Some(Fail(400, "Business registration failed", "Business type is required"))
    else if !Present(b.description) || |Trim(b.description.value)| < 20 then
      Some(Fail(400, "Business registration failed", DescriptionShortText))
    else None
  }

  /** `a || b` on two optional strings. */
  function OrString(a: Option<string>, b: Option<string>): Option<string> {
    if Present(a) then a else b
  }

  /** `a || b || 0` on two optional coordinates. */
  function OrNumber(a: Option<int>, b: Option<int>): int {
    if a.Some? && a.value != 0 then a.value else if b.Some? && b.value != 0 then b.value else 0
  }

  function Lat(c: Option<Coordinates>): Option<int> {
    if c.Some? then Some(c.value.lat) else None
  }

  function Lng(c: Option<Coordinates>): Option<int> {
    if c.Some? then Some(c.value.lng) else None
  }

  datatype BusinessLocation = BusinessLocation(address: string, city: Option<string>, area: Option<string>,
                                               coordinates: Option<Coordinates>, serviceAreas: seq<string>)

  /** The business profile's location: each field from the business form,
      else from the personal location; a coordinate falls back to 0, and the
      coordinates are deleted when both end up 0. */
  function BusinessLocationOf(b: Option<Location>, serviceAreas: Option<seq<string>>, personal: Location): (r: BusinessLocation)
    requires Present(personal.city)
    ensures r.coordinates.None? <==>
              OrNumber(Lat(if b.Some? then b.value.coordinates else None), Lat(personal.coordinates)) == 0
              && OrNumber(Lng(if b.Some? then b.value.coordinates else None), Lng(personal.coordinates)) == 0
    ensures r.coordinates.Some? ==> r.coordinates.value.lat != 0 || r.coordinates.value.lng != 0
    ensures Present(r.city)
    ensures serviceAreas.None? ==> r.serviceAreas == [personal.city.value]
  {
    var bc := if b.Some? then b.value.coordinates else None;
    var lat := OrNumber(Lat(bc), Lat(personal.coordinates));
    var lng := OrNumber(Lng(bc), Lng(personal.coordinates));
    var address := OrString(if b.Some? then b.value.address else None, personal.address);
    var draft := BusinessLocation(
      if Present(address) then address.value else "",
      OrString(if b.Some? then b.value.city else None, personal.city),
      OrString(if b.Some? then b.value.area else None, personal.area),
      Some(Coordinates(lat, lng)),
      if serviceAreas.Some? then serviceAreas.value else [personal.city.value]);
    if lat == 0 && lng == 0 then draft.(coordinates := None) else draft
  }

  // ---------------------------------------------------------------------------
  // Login

  /** POST /login before the password is compared: unknown e-mail (401),
      deactivated (401), business account sent to its own portal (403). */
  function CustomerLoginGuard(user: Option<Account>): (r: Option<Reply>)
    ensures r.None? <==> user.Some? && user.value.isActive && user.value.userType != Business
    ensures r.Some? ==> r.value.status != 200 && r.value.user.None?
  {
    if user.None? then Some(Fail(401, "Login failed", BadCredentials))
    else if !user.value.isActive then Some(Fail(401, "Login failed", Deactivated))
    else if user.value.userType == Business then
      Some(Fail(403, "Access Denied", UseBusinessPortal))
    else None
  }

  /** The whole ladder, `passwordOk` being bcrypt's answer. */
  function CustomerLogin(user: Option<Account>, passwordOk: bool): (r: Reply)
    ensures r.user.Some? <==> r.status == 200
    ensures r.user.Some? ==> user.Some? && passwordOk && r.user == Some(SanitizeUser(user.value))
  {
    match CustomerLoginGuard(user)
    case Some(r) => r
    case None =>
      if !passwordOk then Fail(401, "Login failed", BadCredentials)
      else Reply(200, LoggedInText, [], Some(SanitizeUser(user.value)))
  }

  lemma CustomerLoginLadder(user: Option<Account>, passwordOk: bool)
    ensures user.None? ==> CustomerLogin(user, passwordOk).status == 401
    ensures user.Some? && !user.value.isActive ==> CustomerLogin(user, passwordOk) == Fail(401, "Login failed", Deactivated)
    ensures user.Some? && user.value.isActive && user.value.userType == Business ==>
              CustomerLogin(user, true) == CustomerLogin(user, false) && CustomerLogin(user, passwordOk).status == 403
    ensures CustomerLogin(user, passwordOk).status == 200 <==>
              user.Some? && user.value.isActive && user.value.userType != Business && passwordOk
    ensures CustomerLogin(user, passwordOk).status == 200 ==> CustomerLogin(user, passwordOk).user == Some(SanitizeUser(user.value))
  {
  }

  /** POST /business/login before the password: unknown (401), deactivated
      (401), e-mail not verified (401), customer account (403). */
  function BusinessLoginGuard(user: Option<Account>): (r: Option<Reply>)
    ensures r.None? <==> user.Some? && user.value.isActive && user.value.emailVerified && user.value.userType != Customer
    ensures r.Some? ==> r.value.status != 200 && r.value.user.None?
  {
    if user.None? then Some(Fail(401, "Business login failed", BadCredentials))
    else if !user.value.isActive then Some(Fail(401, "Business login failed", Deactivated))
    else if !user.value.emailVerified then
      Some(Fail(401, "Email verification required",
                VerifyFirst))
    else if user.value.userType == Customer then
      Some(Fail(403, "Access Denied", UseCustomerPortal))
    else None
  }

  /** The business portal's ladder, `passwordOk` being bcrypt's answer. */
  function BusinessLogin(user: Option<Account>, passwordOk: bool): (r: Reply)
    ensures r.user.Some? <==> r.status == 200
    ensures r.user.Some? ==> user.Some? && passwordOk && r.user == Some(SanitizeUser(user.value))
  {
    match BusinessLoginGuard(user)
    case Some(r) => r
    case None =>
      if !passwordOk then Fail(401, "Business login failed", BadCredentials)
      else Reply(200, BusinessLoggedInText, [], Some(SanitizeUser(user.value)))
  }

  lemma BusinessLoginLadder(user: Option<Account>, passwordOk: bool)
    ensures user.Some? && user.value.isActive && !user.value.emailVerified ==>
              BusinessLogin(user, passwordOk).status == 401 && BusinessLogin(user, true) == BusinessLogin(user, false)
    ensures user.Some? && user.value.isActive && user.value.emailVerified && user.value.userType == Customer ==>
              BusinessLogin(user, passwordOk).status == 403 && BusinessLogin(user, true) == BusinessLogin(user, false)
    ensures BusinessLogin(user, passwordOk).status == 200 <==>
              user.Some? && user.value.isActive && user.value.emailVerified && user.value.userType != Customer && passwordOk
  {
  }

  /** Neither portal refuses an admin account: both let it through to the password check. */
  lemma AdminsPassBothPortals(a: Account)
    requires a.userType == Admin && a.isActive && a.emailVerified
    ensures CustomerLogin(Some(a), true).status == 200 && BusinessLogin(Some(a), true).status == 200
  {
  }

  /** The ladder of the portal the request came through. */
  function PortalLogin(business: bool, user: Option<Account>, passwordOk: bool): (r: Reply)
    ensures r.status == 200 <==>
              user.Some? && user.value.isActive && passwordOk
              && (if business then user.value.emailVerified && user.value.userType != Customer
                  else user.value.userType != Business)
  {
    if business then BusinessLogin(user, passwordOk) else CustomerLogin(user, passwordOk)
  }

  /** The ladder on the account found, and on success `lastLogin := now` and
      `save()`, whose hooks may also set the username and add the type's tag;
      `taken` holds the stored usernames. */
  method LoginAccount(doc: UserDoc, business: bool, password: string, compare: (string, string) -> bool, now: int,
                      taken: set<string>) returns (reply: Reply)
    modifies doc
    ensures var expected := PortalLogin(business, Some(old(doc.View())), compare(password, old(doc.password)));
            reply.status == expected.status && reply.message == expected.message && reply.detail == expected.detail
    ensures reply.status == 200 ==>
              doc.View() == Saved(old(doc.View()).(lastLogin := Some(now)), doc.username, None)
              && HookUsername(old(doc.username), old(doc.email), taken, doc.username)
              && reply.user == Some(SanitizeUser(doc.View()))
    ensures reply.status != 200 ==> doc.View() == old(doc.View())
  {
    reply := PortalLogin(business, Some(doc.View()), compare(password, doc.password));
    if reply.status == 200 {
      ghost var before := doc.View();
      doc.lastLogin := Some(now);
      assert doc.View() == before.(lastLogin := Some(now));
      doc.Save(taken, None);
      reply := reply.(user := Some(SanitizeUser(doc.View())));
    }
  }

  /** Both login routes: the validator, the lookup, the ladder, and on
      success `lastLogin` set to now on the account found, which is saved. */
  method Login(users: seq<UserDoc>, business: bool, email: Option<string>, password: Option<string>,
               compare: (string, string) -> bool, now: int) returns (reply: Reply)
    modifies users
    ensures !(Present(email) && Present(password)) ==> reply.status == 400
    ensures Present(email) && Present(password) && FindByEmail(old(Views(users)), email.value).None? ==>
              reply == PortalLogin(business, None, false)
    ensures Present(email) && Present(password) && FindByEmail(old(Views(users)), email.value).Some? ==>
              var doc := users[FindByEmail(old(Views(users)), email.value).value];
              var expected := PortalLogin(business, Some(old(doc.View())), compare(password.value, old(doc.password)));
              reply.status == expected.status && reply.message == expected.message && reply.detail == expected.detail
              && (reply.status == 200 ==> doc.View() == Saved(old(doc.View()).(lastLogin := Some(now)), doc.username, None)
                                          && HookUsername(old(doc.username), old(doc.email), Usernames(old(Views(users))), doc.username)
                                          && reply.user == Some(SanitizeUser(doc.View()))
                                          && forall j :: 0 <= j < |users| && users[j] != doc ==> users[j].View() == old(users[j].View()))
    ensures reply.status != 200 ==> forall j :: 0 <= j < |users| ==> users[j].View() == old(users[j].View())
  {
    var errors := ValidateLoginInput(email, password);
    if errors != [] {
      return Rejection(errors).value;
    }
    var k := FindByEmail(Views(users), email.value);
    if k.None? {
      return PortalLogin(business, None, false);
    }
    reply := LoginAccount(users[k.value], business, password.value, compare, now, Usernames(Views(users)));
  }

  // ---------------------------------------------------------------------------
  // POST /forgot-password

  const GenericForgotReply := Reply(200, "If an account with that email exists, a password reset link has been sent.", [], None)

  /** The forgot-password checks: a valid e-mail, a requested type of
      'customer' or 'business' when one is given, then the account: none gives
      the same 200 as success, deactivated or of another type gives 400. The
      result is the account that gets a token, or the reply. */
  function ForgotPasswordTarget(accounts: seq<Account>, email: Option<string>, userType: Option<string>,
                                emailPattern: string -> bool): (r: Step)
    ensures r.Answer? ==> r.reply.status in {200, 400}
    ensures r.Answer? && r.reply.status == 200 <==>
              ForgotInputOk(email, userType, emailPattern) && FindByEmail(accounts, email.value).None?
    ensures r.Proceed? <==>
              ForgotInputOk(email, userType, emailPattern) && FindByEmail(accounts, email.value).Some?
              && accounts[FindByEmail(accounts, email.value).value].isActive
              && (!Present(userType) || TypeName(accounts[FindByEmail(accounts, email.value).value].userType) == userType.value)
    ensures r.Proceed? ==> Present(email) && FindByEmail(accounts, email.value) == Some(r.value) && accounts[r.value].isActive
    ensures r.Proceed? ==> !Present(userType) || TypeName(accounts[r.value].userType) == userType.value
  {
    if !Present(email) || !emailPattern(email.value) then
      Answer(Fail(400, "Invalid email format", "Please provide a valid email address"))
    else if Present(userType) && userType.value !in ["customer", "business"] then
      Answer(Fail(400, "Invalid user type", ForgotTypeText))
    else match FindByEmail(accounts, email.value)
      case None => Answer(GenericForgotReply)
      case Some(k) =>
        if !accounts[k].isActive then Answer(Fail(400, "Account is deactivated", ContactSupportText))
        else if Present(userType) && TypeName(accounts[k].userType) != userType.value then
          Answer(Fail(400, "Invalid email for this account type",
                      "This email is registered as a " + TypeName(accounts[k].userType) + " account, not a "
                      + userType.value + " account. Please use the correct email address."))
        else Proceed(k)
  }

  /** The checks made before the account is looked up: an e-mail the
      pattern accepts, and no requested type other than 'customer' or 'business'. */
  predicate ForgotInputOk(email: Option<string>, userType: Option<string>, emailPattern: string -> bool) {
    Present(email) && emailPattern(email.value) && (!Present(userType) || userType.value in ["customer", "business"])
  }

  /** A registered address is refused with 400 when its account is
      deactivated or is not of the type the request names. */
  lemma ForgotPasswordRefusesInactiveOrOtherType(accounts: seq<Account>, email: string, userType: Option<string>,
                                                 emailPattern: string -> bool)
    requires ForgotInputOk(Some(email), userType, emailPattern)
    requires FindByEmail(accounts, email).Some?
    requires var a := accounts[FindByEmail(accounts, email).value];
             !a.isActive || (Present(userType) && TypeName(a.userType) != userType.value)
    ensures var r := ForgotPasswordTarget(accounts, Some(email), userType, emailPattern);
            r.Answer? && r.reply.status == 400
  {
  }

  /** Whether an address is registered cannot be told from the reply: an
      unknown address gets the generic 200, and a known active one whose mail
      goes out gets a 200 too. */
  lemma ForgotPasswordHidesUnknownEmail(accounts: seq<Account>, email: string, emailPattern: string -> bool)
    requires emailPattern(email) && email != ""
    requires FindByEmail(accounts, email).None?
    ensures ForgotPasswordTarget(accounts, Some(email), None, emailPattern) == Answer(GenericForgotReply)
    ensures GenericForgotReply.status == 200
  {
  }

  method ForgotPassword(users: seq<UserDoc>, email: Option<string>, userType: Option<string>,
                        emailPattern: string -> bool, raw: string, hash: string -> string, now: int,
                        mailSent: bool) returns (reply: Reply)
    modifies users
    ensures match ForgotPasswordTarget(old(Views(users)), email, userType, emailPattern)
            case Answer(r) => reply == r && forall j :: 0 <= j < |users| ==> users[j].View() == old(users[j].View())
            case Proceed(k) =>
              reply.status == (if mailSent then 200 else 500)
              && users[k].View() == Saved(old(users[k].View()).(reset := if mailSent then Issue(raw, hash, now, ResetTokenLifetime) else Cleared),
                                          users[k].username, None)
              && (mailSent ==> HookUsername(old(users[k].username), old(users[k].email), Usernames(old(Views(users))), users[k].username))
              && (Present(old(users[k].username)) ==> users[k].username == old(users[k].username))
              && (!Present(old(users[k].username)) ==>
                    users[k].username.Some? && users[k].username.value !in Usernames(old(Views(users))))
              && forall j :: 0 <= j < |users| && users[j] != users[k] ==> users[j].View() == old(users[j].View())
  {
    var target := ForgotPasswordTarget(Views(users), email, userType, emailPattern);
    if target.Answer? {
      return target.reply;
    }
    reply := IssueResetToken(users[target.value], raw, hash, now, mailSent, Usernames(Views(users)));
  }

  /** The account found gets a one-hour token and is saved; when the mail
      cannot be sent the token is cleared, the account saved again, and the
      route answers 500. The second save sees the username the first one
      stored as taken. */
  method IssueResetToken(doc: UserDoc, raw: string, hash: string -> string, now: int, mailSent: bool,
                         taken: set<string>) returns (reply: Reply)
    modifies doc
    ensures reply.status == (if mailSent then 200 else 500)
    ensures doc.View() == Saved(old(doc.View()).(reset := if mailSent then Issue(raw, hash, now, ResetTokenLifetime) else Cleared),
                                doc.username, None)
    ensures mailSent ==> HookUsername(old(doc.username), old(doc.email), taken, doc.username)
    ensures Present(old(doc.username)) ==> doc.username == old(doc.username)
    ensures !Present(old(doc.username)) ==> doc.username.Some? && doc.username.value !in taken
  {
    ghost var before := doc.View();
    var _ := doc.GeneratePasswordResetToken(raw, hash, now);
    doc.Save(taken, None);
    if mailSent {
      reply := Reply(200, if doc.userType == Business then ResetSentBusinessText
                          else ResetSentText, [], None);
    } else {
      ghost var first := doc.username;
      ghost var saved := doc.View();
      doc.ClearPasswordResetToken();
      assert doc.View() == Saved(before.(reset := Cleared), first, None) by {
        assert saved == Saved(before.(reset := Issue(raw, hash, now, ResetTokenLifetime)), first, None);
      }
      var stored := if doc.username.Some? then {doc.username.value} else {};
      doc.Save(taken + stored, None);
      SavedAgain(before.(reset := Cleared), first, doc.username, None);
      reply := Fail(500, "Failed to send password reset email", TryLaterText);
    }
  }

  // ---------------------------------------------------------------------------
  // POST /reset-password

  /** `findOne({ resetToken: { $exists: true }, resetTokenExpiry: { $gt: now } })`. */
  function FirstPendingReset(accounts: seq<Account>, now: int): (r: Option<nat>)
    ensures r.Some? ==> r.value < |accounts| && PendingReset(accounts[r.value], now)
    ensures r.Some? ==> forall j :: 0 <= j < r.value ==> !PendingReset(accounts[j], now)
    ensures r.None? ==> forall j :: 0 <= j < |accounts| ==> !PendingReset(accounts[j], now)
  {
    if accounts == [] then None
    else if PendingReset(accounts[0], now) then Some(0)
    else match FirstPendingReset(accounts[1..], now)
      case None => None
      case Some(k) => Some(k + 1)
  }

  predicate PendingReset(a: Account, now: int) {
    a.reset.digest.Some? && a.reset.expiry.Some? && a.reset.expiry.value > now
  }

  /** The reset-password ladder: a token, a password of at least 6
      characters, some account with a pending reset, and the token must be
      that account's. The result is the account whose password changes. */
  function ResetPasswordTarget(accounts: seq<Account>, token: Option<string>, password: Option<string>,
                               hash: string -> string, now: int): (r: Step)
    ensures r.Answer? ==> r.reply.status == 400
    ensures r.Proceed? <==>
              Present(token) && Present(password) && |password.value| >= 6
              && FirstPendingReset(accounts, now).Some?
              && Accepts(accounts[FirstPendingReset(accounts, now).value].reset, token.value, hash, now)
    ensures r.Proceed? ==> r.value == FirstPendingReset(accounts, now).value
  {
    if !Present(token) then Answer(Fail(400, "Reset token is required", ProvideResetTokenText))
    else if !Present(password) || |password.value| < 6 then
      Answer(Fail(400, "Invalid password", "Password must be at least 6 characters long"))
    else match FirstPendingReset(accounts, now)
      case None => Answer(Fail(400, "Invalid or expired reset token", RequestNewResetText))
      case Some(k) =>
        if !Accepts(accounts[k].reset, token.value, hash, now) then
          Answer(Fail(400, "Invalid reset token", RequestNewResetText))
        else Proceed(k)
  }

  /** Missing token and short password are refused before any account is looked at. */
  lemma ResetChecksInputFirst(accounts: seq<Account>, others: seq<Account>, token: Option<string>, password: Option<string>,
                              hash: string -> string, now: int)
    requires !Present(token) || !Present(password) || |password.value| < 6
    ensures ResetPasswordTarget(accounts, token, password, hash, now) == ResetPasswordTarget(others, token, password, hash, now)
    ensures ResetPasswordTarget(accounts, token, password, hash, now).Answer?
  {
  }

  /** Only the first account with a pending reset can ever be reset: the
      token is compared with that account's alone, so a second account's
      valid token is refused. */
  lemma ResetOnlyReachesFirstPending(a: Account, b: Account, tb: string, hash: string -> string, now: int)
    requires PendingReset(a, now) && a.reset.digest.value != hash(tb)
    requires Accepts(b.reset, tb, hash, now)
    ensures ResetPasswordTarget([a, b], Some(tb), Some("secret1"), hash, now).Answer?
  {
    assert FirstPendingReset([a, b], now) == Some(0);
  }

  method ResetPassword(users: seq<UserDoc>, token: Option<string>, password: Option<string>,
                       hash: string -> string, now: int, hashed: string) returns (reply: Reply)
    modifies users
    ensures match ResetPasswordTarget(old(Views(users)), token, password, hash, now)
            case Answer(r) => reply == r && forall j :: 0 <= j < |users| ==> users[j].View() == old(users[j].View())
            case Proceed(k) =>
              reply.status == 200
              && users[k].View() == Saved(old(users[k].View()).(reset := Cleared), users[k].username, Some(hashed))
              && HookUsername(old(users[k].username), old(users[k].email), Usernames(old(Views(users))), users[k].username)
              && forall j :: 0 <= j < |users| && users[j] != users[k] ==> users[j].View() == old(users[j].View())
  {
    var target := ResetPasswordTarget(Views(users), token, password, hash, now);
    if target.Answer? {
      return target.reply;
    }
    ResetAccount(users[target.value], password.value, hashed, Usernames(Views(users)));
    reply := Reply(200, ResetDoneText, [], None);
  }

  /** The account found takes the new password, its reset token is cleared,
      and it is saved: the hook replaces the password by `hashed`. */
  method ResetAccount(doc: UserDoc, password: string, hashed: string, taken: set<string>)
    modifies doc
    ensures doc.View() == Saved(old(doc.View()).(reset := Cleared), doc.username, Some(hashed))
    ensures HookUsername(old(doc.username), old(doc.email), taken, doc.username)
  {
    doc.password := password;
    doc.ClearPasswordResetToken();
    doc.Save(taken, Some(hashed));
  }

  // ---------------------------------------------------------------------------
  // GET /verify-email/:token

  /** `User.find({ emailVerificationToken: { $exists: true }, emailVerificationExpiry: { $gt: now } })`. */
  predicate PendingVerification(a: Account, now: int) {
    a.verification.digest.Some? && a.verification.expiry.Some? && a.verification.expiry.value > now
  }

  /** The first pending account whose verification token accepts `token`. */
  function FirstVerifiable(accounts: seq<Account>, token: string, hash: string -> string, now: int): (r: Option<nat>)
    ensures r.Some? ==> r.value < |accounts| && Accepts(accounts[r.value].verification, token, hash, now)
    ensures r.Some? ==> forall j :: 0 <= j < r.value ==> !Accepts(accounts[j].verification, token, hash, now)
    ensures r.None? ==> forall j :: 0 <= j < |accounts| ==> !Accepts(accounts[j].verification, token, hash, now)
  {
    if accounts == [] then None
    else if PendingVerification(accounts[0], now) && Accepts(accounts[0].verification, token, hash, now) then Some(0)
    else match FirstVerifiable(accounts[1..], token, hash, now)
      case None => None
      case Some(k) => Some(k + 1)
  }

  /** The search loop of the handler: over the pending accounts, stop at the first whose token matches. */
  method FindVerifiable(users: seq<UserDoc>, token: string, hash: string -> string, now: int) returns (found: Option<nat>)
    ensures found == FirstVerifiable(Views(users), token, hash, now)
  {
    ghost var accounts := Views(users);
    var i := 0;
    while i < |users|
      invariant 0 <= i <= |users|
      invariant forall j :: 0 <= j < i ==> !Accepts(accounts[j].verification, token, hash, now)
    {
      var a := users[i].View();
      if PendingVerification(a, now) && users[i].IsEmailVerificationTokenValid(token, hash, now) {
        FirstVerifiableIsFirst(accounts, token, hash, now, i);
        return Some(i);
      }
      i := i + 1;
    }
    FirstVerifiableIsFirst(accounts, token, hash, now, i);
    found := None;
  }

  /** `FirstVerifiable` is the least index that accepts. */
  lemma {:induction false} FirstVerifiableIsFirst(accounts: seq<Account>, token: string, hash: string -> string, now: int, i: nat)
    requires i <= |accounts|
    requires forall j :: 0 <= j < i ==> !Accepts(accounts[j].verification, token, hash, now)
    requires i < |accounts| ==> Accepts(accounts[i].verification, token, hash, now)
    ensures FirstVerifiable(accounts, token, hash, now) == if i < |accounts| then Some(i) else None
  {
    if accounts != [] && i > 0 {
      FirstVerifiableIsFirst(accounts[1..], token, hash, now, i - 1);
    }
  }

  /** The verify-email ladder: no matching account (400), already verified
      (200, nothing changes), otherwise the account is verified. The
      handler's second token check always passes and is omitted. */
  function VerifyEmailTarget(accounts: seq<Account>, token: string, hash: string -> string, now: int): (r: Step)
    ensures r.Proceed? <==> FirstVerifiable(accounts, token, hash, now).Some?
                            && !accounts[FirstVerifiable(accounts, token, hash, now).value].emailVerified
    ensures r.Proceed? ==> r.value == FirstVerifiable(accounts, token, hash, now).value
    ensures (r.Answer? && r.reply.status == 400) <==> FirstVerifiable(accounts, token, hash, now).None?
    ensures r.Answer? ==> r.reply.status in {200, 400}
    ensures r.Proceed? ==> r.value < |accounts| && !accounts[r.value].emailVerified
                           && Accepts(accounts[r.value].verification, token, hash, now)
    ensures r.Answer? && r.reply.status == 200 ==>
              FirstVerifiable(accounts, token, hash, now).Some? && accounts[FirstVerifiable(accounts, token, hash, now).value].emailVerified
  {
    match FirstVerifiable(accounts, token, hash, now)
    case None => Answer(Fail(400, "Invalid or expired verification token", RequestNewVerificationText))
    case Some(k) =>
      if accounts[k].emailVerified then Answer(Reply(200, AlreadyVerifiedText, [], None))
      else Proceed(k)
  }

  method VerifyEmailRoute(users: seq<UserDoc>, token: string, hash: string -> string, now: int) returns (reply: Reply)
    modifies users
    ensures match VerifyEmailTarget(old(Views(users)), token, hash, now)
            case Answer(r) => reply == r && forall j :: 0 <= j < |users| ==> users[j].View() == old(users[j].View())
            case Proceed(k) =>
              reply.status == 200
              && users[k].View() == Saved(old(users[k].View()).(emailVerified := true, isVerified := true, verification := Cleared),
                                          users[k].username, None)
              && HookUsername(old(users[k].username), old(users[k].email), Usernames(old(Views(users))), users[k].username)
              && forall j :: 0 <= j < |users| && users[j] != users[k] ==> users[j].View() == old(users[j].View())
  {
    var found := FindVerifiable(users, token, hash, now);
    if found.None? {
      return Fail(400, "Invalid or expired verification token", RequestNewVerificationText);
    }
    var doc := users[found.value];
    if doc.emailVerified {
      return Reply(200, AlreadyVerifiedText, [], None);
    }
    VerifyAccount(doc, Usernames(Views(users)));
    reply := Reply(200, "Email verified successfully!", [], None);
  }

  /** `verifyEmail()` on the account found, then `save()`. */
  method VerifyAccount(doc: UserDoc, taken: set<string>)
    modifies doc
    ensures doc.View() == Saved(old(doc.View()).(emailVerified := true, isVerified := true, verification := Cleared),
                                doc.username, None)
    ensures HookUsername(old(doc.username), old(doc.email), taken, doc.username)
  {
    doc.VerifyEmail();
    doc.Save(taken, None);
  }

  /** A verification link works once: after it succeeds the same token no longer finds that account. */
  lemma VerifiedTokenIsSpent(accounts: seq<Account>, token: string, hash: string -> string, now: int)
    requires VerifyEmailTarget(accounts, token, hash, now).Proceed?
    ensures var k := VerifyEmailTarget(accounts, token, hash, now).value;
            var after := accounts[k := accounts[k].(emailVerified := true, isVerified := true, verification := Cleared)];
            FirstVerifiable(after, token, hash, now) != Some(k)
  {
  }
}
