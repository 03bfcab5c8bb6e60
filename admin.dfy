/** The admin panel's routes: the `authenticateAdmin` middleware, the admin
    login ladder, the status whitelists of the moderation endpoints, the
    pagination fields, the query and update objects the handlers build, and
    the guards of user and admin-user deletion. The Admin, Business, Review
    and Complaint models are not part of this model: their documents appear
    only with the fields the handlers read. */
module AdminRoutes {
  import opened Common

  // Reply texts used by several members below.
  const HasBusinessesText := "Cannot delete user. User has associated businesses. Please delete businesses first."
  const HasReviewsText := "Cannot delete user. User has associated reviews. Please delete reviews first."
  const InvalidCredentialsText := "Invalid credentials or account inactive"
  const PasswordNotSetText := "Password not set. Please contact administrator."
  const CredentialsRequiredText := "Username and password are required"

  /** An HTTP answer: status code and `message`. */
  datatype Reply = Reply(status: nat, message: string)

  /** An admin document, with the fields the handlers read. */
  datatype AdminAccount = AdminAccount(
    id: string,
    username: string,
    email: string,
    fullName: string,
    role: string,
    status: string,
    isPasswordSet: bool,
    password: string,
    lastLogin: Option<int>)

  const SuperAdmin := "super_admin"

  /** The first admin whose `key` is `v`: `Admin.findOne` / `Admin.findById`. */
  function FindAdmin(admins: seq<AdminAccount>, key: AdminAccount -> string, v: string): (r: Option<nat>)
    ensures r.Some? ==> r.value < |admins| && key(admins[r.value]) == v
    ensures r.Some? ==> forall j :: 0 <= j < r.value ==> key(admins[j]) != v
    ensures r.None? ==> forall j :: 0 <= j < |admins| ==> key(admins[j]) != v
  {
    if admins == [] then None
    else if key(admins[0]) == v then Some(0)
    else match FindAdmin(admins[1..], key, v)
      case None => None
      case Some(k) => Some(k + 1)
  }

  function IdOf(a: AdminAccount): string { a.id }
  function UsernameOf(a: AdminAccount): string { a.username }
  function EmailOf(a: AdminAccount): string { a.email }

  // ---------------------------------------------------------------------------
  // authenticateAdmin

  /** `s.replace(pat, rep)` with a string pattern: only the first occurrence is replaced. */
  function ReplaceFirst(s: string, pat: string, rep: string): (r: string)
    requires pat != []
    ensures |s| >= |pat| && s[..|pat|] == pat ==> r == rep + s[|pat|..]
    ensures !Occurs(s, pat) ==> r == s
  {
    if |s| < |pat| then s
    else if s[..|pat|] == pat then
      assert OccursAt(s, pat, 0);
      rep + s[|pat|..]
    else
      var rest := ReplaceFirst(s[1..], pat, rep);
      assert !Occurs(s, pat) ==> !Occurs(s[1..], pat) by {
        if Occurs(s[1..], pat) {
          var i: nat :| OccursAt(s[1..], pat, i);
          assert s[1..][i..i + |pat|] == s[i + 1..i + 1 + |pat|];
          assert OccursAt(s, pat, i + 1);
        }
      }
      [s[0]] + rest
  }

  /** `pat` occurs in `s` at index `i`. */
  predicate OccursAt(s: string, pat: string, i: nat) {
    i + |pat| <= |s| && s[i..i + |pat|] == pat
  }

  /** `pat` occurs somewhere in `s`. */
  ghost predicate Occurs(s: string, pat: string) {
    exists i: nat :: OccursAt(s, pat, i)
  }

  /** The payload `jwt.verify` returns; `adminId` is whatever the token carried. */
  datatype Claims = Claims(adminId: Value)

  datatype AuthOutcome = Authenticated(admin: AdminAccount) | Denied(message: string)

  /** The bearer token of an `Authorization` header: undefined without a header. */
  function BearerToken(header: Option<string>): string {
    if header.Some? then ReplaceFirst(header.value, "Bearer ", "") else ""
  }

  /** The admin a truthy `adminId` names, when it is a stored id. */
  function TokenAdmin(admins: seq<AdminAccount>, adminId: Value): Option<nat> {
    if adminId.Str? then FindAdmin(admins, IdOf, adminId.s) else None
  }

  /** `authenticateAdmin`: every refusal is a 401. `verify` is `jwt.verify`,
      None when it throws. */
  function AuthenticateAdmin(admins: seq<AdminAccount>, header: Option<string>, verify: string -> Option<Claims>): (r: AuthOutcome)
    ensures r.Authenticated? ==> r.admin in admins && r.admin.status == "active"
    ensures r.Denied? ==> r.message in {"Access denied. No token provided.", "Invalid token.",
                                        "Access denied. Invalid token structure.", "Access denied. Invalid token."}
  {
    var token := BearerToken(header);
    if token == "" then Denied("Access denied. No token provided.")
    else match verify(token)
      case None => Denied("Invalid token.")
      case Some(claims) =>
        if !Truthy(claims.adminId) then Denied("Access denied. Invalid token structure.")
        else match TokenAdmin(admins, claims.adminId)
          case None => Denied("Access denied. Invalid token.")
          case Some(k) =>
            if admins[k].status != "active" then Denied("Access denied. Invalid token.")
            else Authenticated(admins[k])
  }

  /** A request is let through exactly when it carries a token that verifies,
      names a stored admin, and that admin is active; the admin attached to
      the request is that stored document. */
  lemma AuthenticateAdminLadder(admins: seq<AdminAccount>, header: Option<string>, verify: string -> Option<Claims>)
    ensures var r := AuthenticateAdmin(admins, header, verify);
            var token := BearerToken(header);
            (r.Authenticated? <==>
               token != "" && verify(token).Some? && Truthy(verify(token).value.adminId)
               && TokenAdmin(admins, verify(token).value.adminId).Some?
               && admins[TokenAdmin(admins, verify(token).value.adminId).value].status == "active")
            && (r.Authenticated? ==> r.admin.status == "active" && r.admin in admins)
    ensures header.None? ==> AuthenticateAdmin(admins, header, verify) == Denied("Access denied. No token provided.")
    ensures header == Some("Bearer ") ==> AuthenticateAdmin(admins, header, verify) == Denied("Access denied. No token provided.")
  {
    if header == Some("Bearer ") {
      assert BearerToken(header) == "";
    }
  }

  /** A header of the form "Bearer <token>" yields the token after the prefix. */
  lemma BearerPrefixStripped(token: string)
    ensures BearerToken(Some("Bearer " + token)) == token
  {
    assert ("Bearer " + token)[..7] == "Bearer ";
    assert ("Bearer " + token)[7..] == token;
  }

  // ---------------------------------------------------------------------------
  // POST /login

  datatype LoginOutcome = LoginRefused(reply: Reply) | LoggedIn(index: nat)

  /** The admin login ladder. `compare` is `admin.comparePassword`; a
      username that is not a string makes `toLowerCase` throw, a 500. */
  function AdminLogin(admins: seq<AdminAccount>, username: Value, password: Value,
                      compare: (Value, string) -> bool): (r: LoginOutcome)
    ensures r.LoggedIn? ==> r.index < |admins|
  {
    if !Truthy(username) || !Truthy(password) then LoginRefused(Reply(400, CredentialsRequiredText))
    else if !username.Str? then LoginRefused(Reply(500, "Server error"))
    else match FindAdmin(admins, UsernameOf, ToLower(username.s))
      case None => LoginRefused(Reply(401, InvalidCredentialsText))
      case Some(k) =>
        if admins[k].status != "active" then LoginRefused(Reply(401, InvalidCredentialsText))
        else if !admins[k].isPasswordSet then LoginRefused(Reply(401, PasswordNotSetText))
        else if !compare(password, admins[k].password) then LoginRefused(Reply(401, "Invalid credentials"))
        else LoggedIn(k)
  }

  /** The checks in order: both fields, an active account, a password set,
      the password; an admin gets in only when all of them pass, and the
      account is the one stored under the lower-cased username. */
  lemma AdminLoginLadder(admins: seq<AdminAccount>, username: Value, password: Value, compare: (Value, string) -> bool)
    ensures var r := AdminLogin(admins, username, password, compare);
            (r.LoggedIn? <==>
               Truthy(username) && Truthy(password) && username.Str?
               && FindAdmin(admins, UsernameOf, ToLower(username.s)).Some?
               && var a := admins[FindAdmin(admins, UsernameOf, ToLower(username.s)).value];
                  a.status == "active" && a.isPasswordSet && compare(password, a.password))
            && (r.LoggedIn? ==> admins[r.index].username == ToLower(username.s))
    ensures var r := AdminLogin(admins, username, password, compare);
            r.LoginRefused? && r.reply.status == 401 && r.reply.message == PasswordNotSetText ==>
              r == AdminLogin(admins, username, password, (p: Value, h: string) => true)
  {
  }

  /** The admin collection, as the login route changes it. */
  class AdminStore {
    var admins: seq<AdminAccount>

    constructor (init: seq<AdminAccount>)
      ensures admins == init
    {
      admins := init;
    }

    /** POST /login: on success `lastLogin := now` and `save()`, and nothing
        else changes; a refusal changes nothing. */
    method Login(username: Value, password: Value, compare: (Value, string) -> bool, now: int) returns (r: LoginOutcome)
      modifies this
      ensures r == AdminLogin(old(admins), username, password, compare)
      ensures r.LoggedIn? ==> admins == old(admins)[r.index := old(admins)[r.index].(lastLogin := Some(now))]
      ensures r.LoginRefused? ==> admins == old(admins)
    {
      r := AdminLogin(admins, username, password, compare);
      if r.LoggedIn? {
        admins := admins[r.index := admins[r.index].(lastLogin := Some(now))];
      }
    }
  }

  // ---------------------------------------------------------------------------
  // Status whitelists

  /** The three moderated collections, each with its own status whitelist. */
  datatype Moderated = Businesses | Reviews | Complaints
  {
    function Statuses(): seq<string> {
      match this
      case Businesses => ["active", "pending", "suspended", "rejected", "inactive"]
      case Reviews => ["active", "hidden", "flagged", "deleted"]
      case Complaints => ["pending", "under_review", "investigating", "resolved", "closed", "rejected"]
    }

    function NotFound(): string {
      match this
      case Businesses => "Business not found"
      case Reviews => "Review not found"
      case Complaints => "Complaint not found"
    }

    function Updated(): string {
      match this
      case Businesses => "Status updated successfully"
      case Reviews => "Review status updated successfully"
      case Complaints => "Complaint status updated successfully"
    }
  }

  /** `[...].includes(status)`: strict equality, so only a string in the list passes. */
  predicate Allowed(kind: Moderated, status: Value) {
    status.Str? && status.s in kind.Statuses()
  }

  /** PATCH .../:id/status: the whitelist first (400), then the update by
      id (404 when nothing matched). `found` is whether the id names a document. */
  function UpdateStatus(kind: Moderated, status: Value, found: bool): (r: Reply)
    ensures r.status in {200, 400, 404}
    ensures r.status == 404 <==> Allowed(kind, status) && !found
  {
    if !Allowed(kind, status) then Reply(400, "Invalid status")
    else if !found then Reply(404, kind.NotFound())
    else Reply(200, kind.Updated())
  }

  /** A status outside the endpoint's whitelist is refused whether or not the
      document exists; only a listed status reaches the update. */
  lemma UpdateStatusLadder(kind: Moderated, status: Value, found: bool)
    ensures UpdateStatus(kind, status, found).status == 400 <==> !Allowed(kind, status)
    ensures UpdateStatus(kind, status, found).status == 200 <==> Allowed(kind, status) && found
    ensures !Allowed(kind, status) ==> UpdateStatus(kind, status, true) == UpdateStatus(kind, status, false)
  {
  }

  /** The whitelists have 5, 4 and 6 distinct entries, and they differ: a
      review can be hidden but a business cannot, a business can be inactive
      but a complaint cannot. */
  lemma WhitelistsDiffer()
    ensures |Businesses.Statuses()| == 5 && |Reviews.Statuses()| == 4 && |Complaints.Statuses()| == 6
    ensures Allowed(Reviews, Str("hidden")) && !Allowed(Businesses, Str("hidden"))
    ensures Allowed(Businesses, Str("inactive")) && !Allowed(Complaints, Str("inactive"))
    ensures Allowed(Complaints, Str("rejected")) && !Allowed(Reviews, Str("rejected"))
  {
    assert "hidden" != "active" && "hidden" != "pending" && "hidden" != "suspended" && "hidden" != "rejected" && "hidden" != "inactive";
    assert Complaints.Statuses()[0] != "inactive" && Complaints.Statuses()[1] != "inactive";
    assert Reviews.Statuses()[0] != "rejected";
  }

  /** The note a complaint status change records: `note || \`Status changed to ${status}\``. */
  function ComplaintNote(note: Value, status: string): (r: Value)
    ensures Truthy(note) ==> r == note
    ensures !Truthy(note) ==> r == Str("Status changed to " + status)
  {
    if Truthy(note) then note else Str("Status changed to " + status)
  }

  // ---------------------------------------------------------------------------
  // Pagination

  /** `(page - 1) * limit`: the number of documents before the page. */
  function Skip(page: nat, limit: nat): (r: int)
    ensures page >= 1 ==> r >= 0 && r + limit == page * limit
    ensures page == 1 ==> r == 0
  {
    (page - 1) * limit
  }

  /** `Math.ceil(total / limit)` for a positive limit. */
  function CeilDiv(total: nat, limit: nat): (r: nat)
    requires limit >= 1
    ensures r * limit >= total
    ensures r == 0 || (r - 1) * limit < total
  {
    (total + limit - 1) / limit
  }

  datatype Pagination = Pagination(currentPage: nat, totalPages: nat, totalComplaints: nat, hasNextPage: bool, hasPrevPage: bool)

  /** The `pagination` object of GET /complaints. */
  function ComplaintPagination(page: nat, limit: nat, total: nat): (p: Pagination)
    requires limit >= 1
    ensures p.currentPage == page && p.totalComplaints == total
    ensures p.totalPages * limit >= total && (p.totalPages == 0 || (p.totalPages - 1) * limit < total)
    ensures p.hasPrevPage <==> page >= 2
    ensures p.hasNextPage ==> total > 0
  {
    Pagination(page, CeilDiv(total, limit), total, page * limit < total, page > 1)
  }

  /** `hasNextPage` holds exactly when the page is not the last one, and
      `hasPrevPage` exactly when it is not the first; the pages before a page
      together hold `skip` documents, so the next page starts where this one
      ends. */
  lemma PaginationConsistent(page: nat, limit: nat, total: nat)
    requires page >= 1 && limit >= 1
    ensures ComplaintPagination(page, limit, total).hasNextPage <==> page < ComplaintPagination(page, limit, total).totalPages
    ensures ComplaintPagination(page, limit, total).hasPrevPage <==> Skip(page, limit) > 0
    ensures Skip(page + 1, limit) == Skip(page, limit) + limit
  {
    var n := CeilDiv(total, limit);
    if page * limit < total {
      if page >= n {
        MulMono(n, page, limit);
      }
    } else {
      if page < n {
        MulMono(page, n - 1, limit);
      }
    }
    if page > 1 {
      MulPos(page - 1, limit);
    }
  }

  lemma MulMono(a: nat, b: nat, c: nat)
    requires a <= b
    ensures a * c <= b * c
  {
  }

  lemma MulPos(a: nat, b: nat)
    requires a >= 1 && b >= 1
    ensures a * b >= 1
  {
  }

  // ---------------------------------------------------------------------------
  // Query objects

  /** Present and not 'all': the handlers' `x && x !== 'all'`. */
  predicate Selected(x: Option<string>) {
    Present(x) && x.value != "all"
  }

  /** GET /users: the filter object. */
  method UserFilter(userType: Option<string>, status: Option<string>, search: Option<string>) returns (query: map<string, Cond>)
    ensures query.Keys <= {"userType", "isActive", "emailVerified", "$or"}
    ensures "userType" in query <==> Selected(userType)
    ensures "userType" in query ==> query["userType"] == Eq(Str(userType.value))
    ensures "isActive" in query <==> Present(status) && status.value in {"active", "inactive"}
    ensures "isActive" in query ==> query["isActive"] == Eq(Bool(status.value == "active"))
    ensures "emailVerified" in query <==> Present(status) && status.value in {"verified", "unverified"}
    ensures "emailVerified" in query ==> query["emailVerified"] == Eq(Bool(status.value == "verified"))
    ensures "$or" in query <==> Present(search)
    ensures "$or" in query ==> query["$or"] == AnyMatches(["firstName", "lastName", "email", "username"], search.value)
  {
    query := map[];
    if Selected(userType) {
      query := query["userType" := Eq(Str(userType.value))];
    }
    if Selected(status) {
      if status.value == "active" {
        query := query["isActive" := Eq(Bool(true))];
      } else if status.value == "inactive" {
        query := query["isActive" := Eq(Bool(false))];
      } else if status.value == "verified" {
        query := query["emailVerified" := Eq(Bool(true))];
      } else if status.value == "unverified" {
        query := query["emailVerified" := Eq(Bool(false))];
      }
    }
    if Present(search) {
      query := query["$or" := AnyMatches(["firstName", "lastName", "email", "username"], search.value)];
    }
  }

  /** A stored user, as far as the status filter looks at it. */
  predicate SatisfiesStatus(query: map<string, Cond>, isActive: bool, emailVerified: bool) {
    ("isActive" in query ==> query["isActive"] == Eq(Bool(isActive)))
    && ("emailVerified" in query ==> query["emailVerified"] == Eq(Bool(emailVerified)))
  }

  /** The status filter constrains one flag at most: 'active'/'inactive' the
      account flag, 'verified'/'unverified' the e-mail flag; any other status,
      'all' or none lets every user through. */
  lemma UserStatusFilterMeaning(query: map<string, Cond>, status: Option<string>, isActive: bool, emailVerified: bool)
    requires query.Keys <= {"userType", "isActive", "emailVerified", "$or"}
    requires "isActive" in query <==> Present(status) && status.value in {"active", "inactive"}
    requires "isActive" in query ==> query["isActive"] == Eq(Bool(status.value == "active"))
    requires "emailVerified" in query <==> Present(status) && status.value in {"verified", "unverified"}
    requires "emailVerified" in query ==> query["emailVerified"] == Eq(Bool(status.value == "verified"))
    ensures !("isActive" in query && "emailVerified" in query)
    ensures status == Some("active") ==> (SatisfiesStatus(query, isActive, emailVerified) <==> isActive)
    ensures status == Some("unverified") ==> (SatisfiesStatus(query, isActive, emailVerified) <==> !emailVerified)
    ensures !(Present(status) && status.value in {"active", "inactive", "verified", "unverified"}) ==>
              SatisfiesStatus(query, isActive, emailVerified)
  {
  }

  /** GET /service-providers: the filter object. */
  method BusinessFilter(status: Option<string>, search: Option<string>) returns (query: map<string, Cond>)
    ensures query.Keys <= {"status", "$or"}
    ensures "status" in query <==> Selected(status)
    ensures "status" in query ==> query["status"] == Eq(Str(status.value))
    ensures "$or" in query <==> Present(search)
    ensures "$or" in query ==> query["$or"] == AnyMatches(["businessName", "contact.email", "location.city"], search.value)
  {
    query := map[];
    if Selected(status) {
      query := query["status" := Eq(Str(status.value))];
    }
    if Present(search) {
      query := query["$or" := AnyMatches(["businessName", "contact.email", "location.city"], search.value)];
    }
  }

  /** GET /reviews: the filter object. */
  method ReviewFilter(status: Option<string>, search: Option<string>) returns (query: map<string, Cond>)
    ensures query.Keys <= {"status", "$or"}
    ensures "status" in query <==> Selected(status)
    ensures "status" in query ==> query["status"] == Eq(Str(status.value))
    ensures "$or" in query <==> Present(search)
    ensures "$or" in query ==> query["$or"] == AnyMatches(["comment", "title"], search.value)
  {
    query := map[];
    if Selected(status) {
      query := query["status" := Eq(Str(status.value))];
    }
    if Present(search) {
      query := query["$or" := AnyMatches(["comment", "title"], search.value)];
    }
  }

  /** The request fields GET /complaints filters on, besides `status`. */
  const ComplaintFields: seq<string> := ["priority", "severity", "serviceCategory", "businessId", "userId"]

  /** GET /complaints: `status` unless 'all', and each other filter field that is given. */
  method ComplaintFilter(status: Option<string>, fields: map<string, string>) returns (query: map<string, Cond>)
    ensures "status" in query <==> Selected(status)
    ensures "status" in query ==> query["status"] == Eq(Str(status.value))
    ensures forall f :: f in ComplaintFields ==>
              (f in query <==> f in fields && fields[f] != "") && (f in query ==> query[f] == Eq(Str(fields[f])))
    ensures forall f :: f in query ==> f == "status" || f in ComplaintFields
  {
    query := map[];
    if Selected(status) {
      query := query["status" := Eq(Str(status.value))];
    }
    var i := 0;
    while i < |ComplaintFields|
      invariant 0 <= i <= |ComplaintFields|
      invariant "status" in query <==> Selected(status)
      invariant "status" in query ==> query["status"] == Eq(Str(status.value))
      invariant forall j :: 0 <= j < i ==>
                  (ComplaintFields[j] in query <==> ComplaintFields[j] in fields && fields[ComplaintFields[j]] != "")
                  && (ComplaintFields[j] in query ==> query[ComplaintFields[j]] == Eq(Str(fields[ComplaintFields[j]])))
      invariant forall j :: i <= j < |ComplaintFields| ==> ComplaintFields[j] !in query
      invariant forall f :: f in query ==> f == "status" || f in ComplaintFields[..i]
    {
      var f := ComplaintFields[i];
      if f in fields && fields[f] != "" {
        query := query[f := Eq(Str(fields[f]))];
      }
      i := i + 1;
    }
  }

  /** `sortOrder === 'desc' ? -1 : 1`. */
  function SortDirection(sortOrder: string): (d: int)
    ensures d == -1 <==> sortOrder == "desc"
    ensures d == 1 <==> sortOrder != "desc"
  {
    if sortOrder == "desc" then -1 else 1
  }

  // ---------------------------------------------------------------------------
  // PATCH /users/:id

  /** The fields an admin may change on a user. */
  const UserPatchFields: seq<string> := ["firstName", "lastName", "email", "phone", "isActive", "emailVerified", "userType"]

  /** A body field, `undefined` when absent. */
  function Field(body: map<string, Value>, k: string): Value {
    if k in body then body[k] else Undefined
  }

  /** The update object: every listed field the body defines, with its value,
      and nothing else. */
  method UserUpdate(body: map<string, Value>) returns (update: map<string, Value>)
    ensures forall k :: k in update <==> k in UserPatchFields && Field(body, k) != Undefined
    ensures forall k :: k in update ==> update[k] == Field(body, k)
  {
    update := map[];
    var i := 0;
    while i < |UserPatchFields|
      invariant 0 <= i <= |UserPatchFields|
      invariant forall k :: k in update <==> k in UserPatchFields[..i] && Field(body, k) != Undefined
      invariant forall k :: k in update ==> update[k] == Field(body, k)
    {
      var k := UserPatchFields[i];
      if Field(body, k) != Undefined {
        update := update[k := body[k]];
      }
      assert UserPatchFields[..i + 1] == UserPatchFields[..i] + [k];
      i := i + 1;
    }
    assert UserPatchFields[..i] == UserPatchFields;
  }

  // ---------------------------------------------------------------------------
  // DELETE /users/:id

  /** The deletion guards, in order: the user exists (404), owns no business
      (400), wrote no review (400). `owners` and `reviewers` list the `owner`
      of every business and the `reviewer` of every review. */
  function DeleteUser(users: set<string>, owners: seq<string>, reviewers: seq<string>, id: string): (r: Reply)
    ensures r.status in {200, 400, 404}
    ensures r.status == 404 <==> id !in users
  {
    if id !in users then Reply(404, "User not found")
    else if multiset(owners)[id] > 0 then
      Reply(400, HasBusinessesText)
    else if multiset(reviewers)[id] > 0 then
      Reply(400, HasReviewsText)
    else Reply(200, "User deleted successfully")
  }

  /** A user is deleted exactly when it exists and nothing refers to it; a
      business owner hears about the businesses even when they also wrote reviews. */
  lemma DeleteUserLadder(users: set<string>, owners: seq<string>, reviewers: seq<string>, id: string)
    ensures DeleteUser(users, owners, reviewers, id).status == 200 <==> id in users && id !in owners && id !in reviewers
    ensures id in users && id in owners ==>
              DeleteUser(users, owners, reviewers, id) == DeleteUser(users, owners, [], id)
              && DeleteUser(users, owners, reviewers, id).status == 400
  {
  }

  // ---------------------------------------------------------------------------
  // Admin users

  /** The 403 every admin-user route starts with: only a super admin may go on. */
  function RequireSuperAdmin(caller: AdminAccount, action: string): (r: Option<Reply>)
    ensures r.None? <==> caller.role == SuperAdmin
    ensures r.Some? ==> r.value.status == 403
  {
    if caller.role != SuperAdmin then
      Some(Reply(403, "Access denied. Only super administrators can " + action + " admin users."))
    else None
  }

  /** DELETE /admin-users/:id: the caller's role, the target's existence,
      the target's role, then self-deletion. */
  function DeleteAdminUser(admins: seq<AdminAccount>, caller: AdminAccount, id: string): (r: Reply)
    ensures r.status == 403 <==> caller.role != SuperAdmin
    ensures r.status == 404 <==> caller.role == SuperAdmin && FindAdmin(admins, IdOf, id).None?
    ensures r.status == 200 ==> id != caller.id && admins[FindAdmin(admins, IdOf, id).value].role != SuperAdmin
  {
    match RequireSuperAdmin(caller, "delete")
    case Some(refused) => refused
    case None =>
      match FindAdmin(admins, IdOf, id)
      case None => Reply(404, "Admin user not found")
      case Some(k) =>
        if admins[k].role == SuperAdmin then Reply(400, "Cannot delete superadmin accounts")
        else if id == caller.id then Reply(400, "Cannot delete your own account")
        else Reply(200, "Admin user deleted successfully")
  }

  /** The caller of an admin-user route is the stored admin its token named
      (`authenticateAdmin`), so a super admin trying to delete itself meets
      the super-admin check first: the self-deletion check never decides. */
  lemma SelfDeletionNeverDecides(admins: seq<AdminAccount>, caller: AdminAccount, id: string)
    requires FindAdmin(admins, IdOf, caller.id).Some? && admins[FindAdmin(admins, IdOf, caller.id).value] == caller
    ensures DeleteAdminUser(admins, caller, id) != Reply(400, "Cannot delete your own account")
    ensures DeleteAdminUser(admins, caller, id).status == 200 <==>
              caller.role == SuperAdmin && FindAdmin(admins, IdOf, id).Some?
              && admins[FindAdmin(admins, IdOf, id).value].role != SuperAdmin
  {
    if caller.role == SuperAdmin && id == caller.id {
      assert admins[FindAdmin(admins, IdOf, id).value].role == SuperAdmin;
    }
  }

  /** The fields an admin-user update may never set. */
  const Sensitive: set<string> := {"password", "passwordResetToken", "passwordResetExpires"}

  /** `delete updateData.password` and the two token fields, in place on the body. */
  method StripSensitive(body: map<string, Value>) returns (update: map<string, Value>)
    ensures update.Keys == body.Keys - Sensitive
    ensures forall k :: k in update ==> k in body && update[k] == body[k]
  {
    update := body;
    update := update - {"password"};
    update := update - {"passwordResetToken"};
    update := update - {"passwordResetExpires"};
  }

  /** PATCH /admin-users/:id: 403 for a non-super admin, 404 for an unknown
      id; otherwise the body without its sensitive fields is applied. */
  method UpdateAdminUser(admins: seq<AdminAccount>, caller: AdminAccount, id: string, body: map<string, Value>)
      returns (reply: Reply, update: Option<map<string, Value>>)
    ensures reply.status == 200 <==> update.Some?
    ensures caller.role != SuperAdmin ==> reply.status == 403
    ensures caller.role == SuperAdmin ==>
              (reply.status == 404 <==> FindAdmin(admins, IdOf, id).None?)
              && (reply.status == 200 <==> FindAdmin(admins, IdOf, id).Some?)
    ensures update.Some? ==> update.value.Keys == body.Keys - Sensitive
                             && forall k :: k in update.value ==> k in body && update.value[k] == body[k]
  {
    var refused := RequireSuperAdmin(caller, "update");
    if refused.Some? {
      return refused.value, None;
    }
    var stripped := StripSensitive(body);
    if FindAdmin(admins, IdOf, id).None? {
      return Reply(404, "Admin user not found"), None;
    }
    reply := Reply(200, "Admin user updated successfully");
    update := Some(stripped);
  }

  /** POST /admin-users before the document is created: the caller's role,
      the four required fields, then a free lower-cased username and a free
      lower-cased e-mail. A username or e-mail that is not a string makes
      `toLowerCase` throw, a 500. */
  function AddAdminGuard(admins: seq<AdminAccount>, caller: AdminAccount,
                         username: Value, email: Value, fullName: Value, role: Value): (r: Option<Reply>)
    ensures caller.role != SuperAdmin ==> r.Some? && r.value.status == 403
    ensures r.Some? ==> r.value.status in {400, 403, 500}
    ensures r.Some? && r.value.status == 500 ==> !username.Str? || !email.Str?
  {
    match RequireSuperAdmin(caller, "add")
    case Some(refused) => Some(refused)
    case None =>
      if !Truthy(username) || !Truthy(email) || !Truthy(fullName) || !Truthy(role) then
        Some(Reply(400, "All required fields must be provided"))
      else if !username.Str? then Some(Reply(500, "Server error"))
      else if FindAdmin(admins, UsernameOf, ToLower(username.s)).Some? then Some(Reply(400, "Username already exists"))
      else if !email.Str? then Some(Reply(500, "Server error"))
      else if FindAdmin(admins, EmailOf, ToLower(email.s)).Some? then Some(Reply(400, "Email already exists"))
      else None
  }

  /** A new admin is created only by a super admin, with all four fields, and
      never with a username or e-mail another admin already has once lower-cased. */
  lemma AddAdminKeepsNamesUnique(admins: seq<AdminAccount>, caller: AdminAccount,
                                 username: Value, email: Value, fullName: Value, role: Value)
    requires AddAdminGuard(admins, caller, username, email, fullName, role).None?
    ensures caller.role == SuperAdmin
    ensures Truthy(username) && Truthy(email) && Truthy(fullName) && Truthy(role)
    ensures username.Str? && email.Str?
    ensures forall j :: 0 <= j < |admins| ==> admins[j].username != ToLower(username.s) && admins[j].email != ToLower(email.s)
  {
  }

  /** GET /admin-users: the filter object, built only after the super-admin check. */
  method AdminUserFilter(search: string, role: string) returns (query: map<string, Cond>)
    ensures query.Keys <= {"$or", "role"}
    ensures "$or" in query <==> search != ""
    ensures "$or" in query ==> query["$or"] == AnyMatches(["username", "email", "fullName"], search)
    ensures "role" in query <==> role != "" && role != "all"
    ensures "role" in query ==> query["role"] == Eq(Str(role))
  {
    query := map[];
    if search != "" {
      query := query["$or" := AnyMatches(["username", "email", "fullName"], search)];
    }
    if role != "" && role != "all" {
      query := query["role" := Eq(Str(role))];
    }
  }
}
