/** The user document: its fields, the two pre-save hooks (username
    generation, password hashing and the user-type tag), the `fullName`
    virtual, and the password-reset and email-verification token methods.

    The random token bytes, SHA-256 and bcrypt are not part of this model:
    the raw token and the hashed password arrive as parameters and the digest
    is a function parameter `hash`; the clock is the parameter `now`
    (milliseconds). A stored `Date` is an `int` of milliseconds. */
module UserModel {
  import opened Common

  const ResetTokenLifetime := 60 * 60 * 1000
  const VerificationTokenLifetime := 24 * 60 * 60 * 1000

  // ---------------------------------------------------------------------------
  // fullName

  /** `${firstName} ${lastName}`. */
  function FullName(firstName: string, lastName: string): (r: string)
    ensures |r| == |firstName| + 1 + |lastName|
    ensures r[..|firstName|] == firstName && r[|firstName|] == ' ' && r[|firstName| + 1..] == lastName
  {
    firstName + " " + lastName
  }

  /** A first name without spaces is recovered from the full name. */
  lemma FullNameSplits(firstName: string, lastName: string)
    requires ' ' !in firstName
    ensures Before(FullName(firstName, lastName), ' ') == firstName
  {
  }

  // ---------------------------------------------------------------------------
  // Username generation

  /** The k-th candidate: the e-mail prefix, then the prefix followed by 1, 2, .... */
  function Candidate(prefix: string, k: nat): (r: string)
    ensures |r| >= |prefix| && r[..|prefix|] == prefix
    ensures k == 0 <==> |r| == |prefix|
  {
    if k == 0 then prefix else prefix + NatToString(k)
  }

  lemma CandidateInjective(prefix: string, j: nat, k: nat)
    requires Candidate(prefix, j) == Candidate(prefix, k)
    ensures j == k
  {
    if j != 0 && k != 0 {
      var cj, ck := Candidate(prefix, j), Candidate(prefix, k);
      assert NatToString(j) == cj[|prefix|..] == ck[|prefix|..] == NatToString(k);
      NatToStringInjective(j, k);
    }
  }

  /** Some candidate numbered below `n` is `t`. */
  ghost predicate TriedBefore(prefix: string, t: string, n: nat) {
    exists k: nat :: 0 <= k < n && t == Candidate(prefix, k)
  }

  /** The username loop of the pre-save hook: tries the prefix, then the prefix
      followed by 1, 2, ... and keeps the first candidate not `taken`
      (`findOne({ username })` finds nobody). The result is that first free
      candidate: every earlier one is taken. */
  method GenerateUsername(prefix: string, taken: set<string>) returns (name: string)
    ensures name !in taken
    ensures exists k: nat :: name == Candidate(prefix, k) && forall j :: 0 <= j < k ==> Candidate(prefix, j) in taken
  {
    var baseUsername := prefix;
    var counter := 1;
    ghost var tried: set<string> := {};
    while baseUsername in taken
      invariant counter >= 1 && baseUsername == Candidate(prefix, counter - 1)
      invariant forall j :: 0 <= j < counter - 1 ==> Candidate(prefix, j) in taken
      invariant tried <= taken
      invariant forall t :: t in tried ==> TriedBefore(prefix, t, counter - 1)
      decreases taken - tried
    {
      if baseUsername in tried {
        var k :| 0 <= k < counter - 1 && baseUsername == Candidate(prefix, k);
        CandidateInjective(prefix, k, counter - 1);
        assert false;
      }
      tried := tried + {baseUsername};
      assert TriedBefore(prefix, baseUsername, counter);
      baseUsername := prefix + NatToString(counter);
      counter := counter + 1;
    }
    name := baseUsername;
  }

  // ---------------------------------------------------------------------------
  // The user-type tag

  /** The tag the second pre-save hook associates with each user type. */
  function TypeTag(t: UserType): string {
    match t
    case Customer => "Customer"
    case Business => "Service Provider"
    case Admin => "Admin"
  }

  /** The tags after the hook: the type's tag appended when it is absent. */
  function TaggedFor(tags: seq<string>, t: UserType): (r: seq<string>)
    ensures TypeTag(t) in r
    ensures |tags| <= |r| <= |tags| + 1 && r[..|tags|] == tags
    ensures forall x :: x in r ==> x in tags || x == TypeTag(t)
  {
    if TypeTag(t) in tags then tags else tags + [TypeTag(t)]
  }

  /** Saving twice adds nothing the second time. */
  lemma TagHookIdempotent(tags: seq<string>, t: UserType)
    ensures TaggedFor(TaggedFor(tags, t), t) == TaggedFor(tags, t)
  {
  }

  /** `this.tags || []`. */
  function TagsOf(tags: Option<seq<string>>): seq<string> {
    if tags.Some? then tags.value else []
  }

  /** `name` is the first candidate built from `prefix` that is not `taken`. */
  ghost predicate FirstFree(prefix: string, taken: set<string>, name: string) {
    name !in taken
    && exists k: nat :: name == Candidate(prefix, k) && forall j :: 0 <= j < k ==> Candidate(prefix, j) in taken
  }

  /** The username the first pre-save hook leaves: a present one is kept, a
      missing or empty one becomes the first free candidate built from the
      part of `email` before '@'. */
  ghost predicate HookUsername(before: Option<string>, email: string, taken: set<string>, after: Option<string>) {
    if Present(before) then after == before else after.Some? && FirstFree(Before(email, '@'), taken, after.value)
  }

  // ---------------------------------------------------------------------------
  // Tokens

  /** A stored token: the digest of the raw token and its expiry time. */
  datatype TokenSlot = TokenSlot(digest: Option<string>, expiry: Option<int>)

  /** `generate...Token`: stores the digest of `raw` and an expiry `lifetime` from now. */
  function Issue(raw: string, hash: string -> string, now: int, lifetime: nat): (t: TokenSlot)
    ensures t.digest == Some(hash(raw)) && t.expiry == Some(now + lifetime)
  {
    TokenSlot(Some(hash(raw)), Some(now + lifetime))
  }

  const Cleared := TokenSlot(None, None)

  /** `is...TokenValid(token)`: false when no digest (or an empty one) or no
      expiry is stored; otherwise the digest of `token` must equal the stored
      one and `now` must be before the expiry. */
  predicate Accepts(slot: TokenSlot, token: string, hash: string -> string, now: int)
    ensures Accepts(slot, token, hash, now) ==>
              slot.digest == Some(hash(token)) && hash(token) != "" && slot.expiry.Some? && now < slot.expiry.value
    ensures slot == Cleared ==> !Accepts(slot, token, hash, now)
  {
    if slot.digest.None? || slot.digest.value == "" || slot.expiry.None? then false
    else slot.digest.value == hash(token) && now < slot.expiry.value
  }

  /** A freshly issued token is accepted exactly until its expiry, and any
      token with a different digest never is. */
  lemma IssuedTokenAccepted(raw: string, hash: string -> string, issuedAt: int, lifetime: nat, token: string, now: int)
    requires hash(raw) != ""
    ensures Accepts(Issue(raw, hash, issuedAt, lifetime), token, hash, now)
            <==> hash(token) == hash(raw) && now < issuedAt + lifetime
    ensures Accepts(Issue(raw, hash, issuedAt, lifetime), raw, hash, now) <==> now < issuedAt + lifetime
  {
  }

  /** A cleared slot accepts no token. */
  lemma ClearedAcceptsNothing(token: string, hash: string -> string, now: int)
    ensures !Accepts(Cleared, token, hash, now)
  {
  }

  // ---------------------------------------------------------------------------
  // The document

  datatype Coordinates = Coordinates(lat: int, lng: int)

  datatype Location = Location(city: Option<string>, area: Option<string>, address: Option<string>,
                               coordinates: Option<Coordinates>)

  /** A user document's fields as values (`toObject()`); `id` is `_id`. */
  datatype Account = Account(
    id: nat,
    username: Option<string>,
    email: string,
    password: string,
    firstName: string,
    lastName: string,
    phone: Option<string>,
    location: Location,
    profilePicture: Option<string>,
    isVerified: bool,
    isActive: bool,
    userType: UserType,
    lastLogin: Option<int>,
    tags: Option<seq<string>>,
    reset: TokenSlot,
    verification: TokenSlot,
    emailVerified: bool,
    createdAt: int)

  /** The document `save()` writes: the username the first hook leaves
      (`username`), the password replaced by its hash when it was modified
      (`hashed`), the tags after the second hook; every other field as it was. */
  function Saved(a: Account, username: Option<string>, hashed: Option<string>): (r: Account)
    ensures r.tags.Some? && TypeTag(a.userType) in r.tags.value
    ensures |TagsOf(a.tags)| <= |r.tags.value| <= |TagsOf(a.tags)| + 1
    ensures r.tags.value[..|TagsOf(a.tags)|] == TagsOf(a.tags)
    ensures hashed.None? ==> r.password == a.password
    ensures r.(username := a.username, password := a.password, tags := a.tags) == a
  {
    a.(username := username, password := if hashed.Some? then hashed.value else a.password,
       tags := Some(TaggedFor(TagsOf(a.tags), a.userType)))
  }

  /** A second save that does not touch the password adds no tag and keeps
      the first one's hash: only its username counts. */
  lemma SavedAgain(a: Account, first: Option<string>, second: Option<string>, hashed: Option<string>)
    ensures Saved(Saved(a, first, hashed), second, None) == Saved(a, second, hashed)
  {
    TagHookIdempotent(TagsOf(a.tags), a.userType);
  }

  class UserDoc {
    const id: nat
    var username: Option<string>
    var email: string
    var password: string
    var firstName: string
    var lastName: string
    var phone: Option<string>
    var location: Location
    var profilePicture: Option<string>
    var isVerified: bool
    var isActive: bool
    var userType: UserType
    var lastLogin: Option<int>
    var tags: Option<seq<string>>
    var resetToken: Option<string>
    var resetTokenExpiry: Option<int>
    var emailVerificationToken: Option<string>
    var emailVerificationExpiry: Option<int>
    var emailVerified: bool
    var createdAt: int

    /** `new User(fields)`: the fields as given, schema defaults already applied to `init`. */
    constructor (init: Account)
      ensures View() == init
    {
      id := init.id;
      username := init.username;
      email := init.email;
      password := init.password;
      firstName := init.firstName;
      lastName := init.lastName;
      phone := init.phone;
      location := init.location;
      profilePicture := init.profilePicture;
      isVerified := init.isVerified;
      isActive := init.isActive;
      userType := init.userType;
      lastLogin := init.lastLogin;
      tags := init.tags;
      resetToken := init.reset.digest;
      resetTokenExpiry := init.reset.expiry;
      emailVerificationToken := init.verification.digest;
      emailVerificationExpiry := init.verification.expiry;
      emailVerified := init.emailVerified;
      createdAt := init.createdAt;
    }

    function View(): Account
      reads this
    {
      Account(id, username, email, password, firstName, lastName, phone, location, profilePicture,
              isVerified, isActive, userType, lastLogin, tags,
              TokenSlot(resetToken, resetTokenExpiry),
              TokenSlot(emailVerificationToken, emailVerificationExpiry),
              emailVerified, createdAt)
    }

    /** The first pre-save hook: a missing or empty username becomes the first
        free candidate built from the part of the e-mail before '@'; a given
        one is kept. A modified password is replaced by its bcrypt hash,
        `hashed` here. */
    method PreSaveUsernameAndPassword(taken: set<string>, passwordModified: bool, hashed: string)
      modifies this
      ensures Present(old(username)) ==> username == old(username)
      ensures !Present(old(username)) ==>
                username.Some? && username.value !in taken
                && exists k: nat :: username.value == Candidate(Before(email, '@'), k)
                               && forall j :: 0 <= j < k ==> Candidate(Before(email, '@'), j) in taken
      ensures View() == old(View()).(username := username, password := if passwordModified then hashed else old(password))
    {
      var prefix := Before(email, '@');
      if !Present(username) {
        var name := GenerateUsername(prefix, taken);
        username := Some(name);
      }
      if passwordModified {
        password := hashed;
      }
      assert Before(email, '@') == prefix;
    }

    /** The second pre-save hook: a missing tag list becomes empty, then the tag
        of the user type is added when it is absent. */
    method PreSaveTag()
      modifies this
      ensures View() == old(View()).(tags := Some(TaggedFor(if old(tags).Some? then old(tags).value else [], userType)))
    {
      if tags.None? {
        tags := Some([]);
      }
      var current := tags.value;
      if userType == Customer && "Customer" !in current {
        tags := Some(current + ["Customer"]);
      } else if userType == Business && "Service Provider" !in current {
        tags := Some(current + ["Service Provider"]);
      } else if userType == Admin && "Admin" !in current {
        tags := Some(current + ["Admin"]);
      }
    }

    /** `save()`: the two pre-save hooks in order. `taken` holds the usernames
        already stored; `hashed` is the bcrypt hash of the password when the
        password was modified, and `None` when it was not. */
    method Save(taken: set<string>, hashed: Option<string>)
      modifies this
      ensures HookUsername(old(username), old(email), taken, username)
      ensures View() == Saved(old(View()), username, hashed)
    {
      PreSaveUsernameAndPassword(taken, hashed.Some?, if hashed.Some? then hashed.value else "");
      PreSaveTag();
    }

    /** The `fullName` virtual: the two names can be read back around the one space. */
    function FullNameOf(): (r: string)
      reads this
      ensures |r| == |firstName| + 1 + |lastName|
      ensures r[..|firstName|] == firstName && r[|firstName|] == ' ' && r[|firstName| + 1..] == lastName
    {
      FullName(firstName, lastName)
    }

    /** `generatePasswordResetToken()`: returns the raw token, keeps its digest, valid for one hour. */
    method GeneratePasswordResetToken(raw: string, hash: string -> string, now: int) returns (token: string)
      modifies this
      ensures token == raw
      ensures View() == old(View()).(reset := Issue(raw, hash, now, ResetTokenLifetime))
    {
      resetToken := Some(hash(raw));
      resetTokenExpiry := Some(now + 60 * 60 * 1000);
      token := raw;
    }

    method ClearPasswordResetToken()
      modifies this
      ensures View() == old(View()).(reset := Cleared)
    {
      resetToken := None;
      resetTokenExpiry := None;
    }

    predicate IsResetTokenValid(token: string, hash: string -> string, now: int)
      reads this
      ensures IsResetTokenValid(token, hash, now) ==>
                resetToken == Some(hash(token)) && resetTokenExpiry.Some? && now < resetTokenExpiry.value
      ensures resetToken.None? || resetTokenExpiry.None? ==> !IsResetTokenValid(token, hash, now)
    {
      Accepts(View().reset, token, hash, now)
    }

    /** `generateEmailVerificationToken()`: the same, valid for 24 hours. */
    method GenerateEmailVerificationToken(raw: string, hash: string -> string, now: int) returns (token: string)
      modifies this
      ensures token == raw
      ensures View() == old(View()).(verification := Issue(raw, hash, now, VerificationTokenLifetime))
    {
      emailVerificationToken := Some(hash(raw));
      emailVerificationExpiry := Some(now + 24 * 60 * 60 * 1000);
      token := raw;
    }

    method ClearEmailVerificationToken()
      modifies this
      ensures View() == old(View()).(verification := Cleared)
    {
      emailVerificationToken := None;
      emailVerificationExpiry := None;
    }

    predicate IsEmailVerificationTokenValid(token: string, hash: string -> string, now: int)
      reads this
      ensures IsEmailVerificationTokenValid(token, hash, now) ==>
                emailVerificationToken == Some(hash(token)) && emailVerificationExpiry.Some?
                && now < emailVerificationExpiry.value
      ensures emailVerificationToken.None? || emailVerificationExpiry.None? ==> !IsEmailVerificationTokenValid(token, hash, now)
    {
      Accepts(View().verification, token, hash, now)
    }

    /** `verifyEmail()`: both verification flags set, the verification token cleared. */
    method VerifyEmail()
      modifies this
      ensures View() == old(View()).(emailVerified := true, isVerified := true, verification := Cleared)
      ensures forall token, hash, now :: !IsEmailVerificationTokenValid(token, hash, now)
    {
      emailVerified := true;
      isVerified := true;
      ClearEmailVerificationToken();
    }
  }
}
