/** The authentication routes (backend/src/routes/auth.js): request
    validation, the team-size quota, and the signup, login, verify, refresh
    and logout handlers over an in-memory store of User and Organization
    documents. The `authenticateToken` middleware is not part of this model:
    the protected handlers receive the user id it decoded. */
module AuthRoutes {
  import opened Wrappers
  import opened Strings
  import opened OrganizationModel
  import opened UserModel

  // ---------------------------------------------------------------------------
  // Tokens, requests, responses
  // ---------------------------------------------------------------------------

  /** A signed JWT reduced to its `userId` claim; the secret, the signature
      and the expiry are not modelled. */
  datatype Token = Jwt(userId: nat)

  function GenerateToken(userId: nat): (t: Token)
    ensures t.userId == userId
  {
    Jwt(userId)
  }

  /** express-validator's `isEmail` and `normalizeEmail`, taken as given. */
  datatype EmailRules = EmailRules(isEmail: string -> bool, normalizeEmail: string -> string)

  /** The value `User.findOne({ email })` compares stored emails with: the
      normalized address after the schema's query setters. */
  function EmailKey(rules: EmailRules, email: string): string {
    StoredEmail(rules.normalizeEmail(email))
  }

  datatype LoginRequest = LoginRequest(email: string, password: string)

  datatype SignupRequest = SignupRequest(
    name: string, email: string, password: string, organizationName: string, teamSize: string)

  datatype Body =
    | Failure(message: string, errors: seq<Field>)
    | Session(user: Json, organization: Option<Organization>, token: Option<Token>)
    | TokenIssued(issued: Token)
    | Acknowledged(message: string)

  datatype Response = Response(status: nat, body: Body)

  function ValidationFailed(errors: seq<Field>): Response {
    Response(400, Failure("Validation failed", errors))
  }

  const InvalidCredentials := Response(401, Failure("Invalid credentials", []))
  const UserExists := Response(400, Failure("User already exists with this email", []))
  const RegistrationError := Response(500, Failure("Server error during registration", []))
  const UserNotFound := Response(401, Failure("User not found", []))
  const LoggedOut := Response(200, Acknowledged("Logged out successfully"))

  // ---------------------------------------------------------------------------
  // Validation
  // ---------------------------------------------------------------------------

  /** The request fields the validation chains check, named in the errors
      array of a 400 response. */
  datatype Field = Name | Email | Password | OrganizationName | TeamSize

  const TeamSizes: set<string> := {"1-5", "6-20", "21-50", "50+"}

  /** The variation selectors U+FE0E and U+FE0F, which ask for text or emoji
      presentation of the character before them. */
  predicate IsPresentationSelector(c: char) {
    c == '\U{FE0E}' || c == '\U{FE0F}'
  }

  /** The count `isLength` of validator 13 compares with its bounds: a
      surrogate pair counts once (a `char` here is a whole code point) and a
      presentation selector does not count at all. */
  function Characters(s: string): (n: nat)
    ensures n <= |s|
    ensures n == 0 <==> forall i :: 0 <= i < |s| ==> IsPresentationSelector(s[i])
  {
    if s == [] then 0
    else (if IsPresentationSelector(s[0]) then 0 else 1) + Characters(s[1..])
  }

  /** The count is additive over concatenation. */
  lemma {:induction false} CharactersAppend(a: string, b: string)
    ensures Characters(a + b) == Characters(a) + Characters(b)
  {
    if a != [] {
      assert (a + b)[0] == a[0] && (a + b)[1..] == a[1..] + b;
      CharactersAppend(a[1..], b);
    } else {
      assert a + b == b;
    }
  }

  /** Without presentation selectors, `isLength` counts every character. */
  lemma {:induction false} CharactersWithoutSelectors(s: string)
    requires forall i :: 0 <= i < |s| ==> !IsPresentationSelector(s[i])
    ensures Characters(s) == |s|
  {
    if s != [] {
      CharactersWithoutSelectors(s[1..]);
    }
  }

  /** A password of six code points whose last is U+FE0F counts as five, so
      the login validation refuses it. */
  lemma SelectorPasswordRefused(rules: EmailRules, req: LoginRequest)
    requires req.password == "abcde\U{FE0F}"
    ensures |req.password| == 6 && Characters(req.password) == 5
    ensures Password in LoginErrors(rules, req)
  {
    assert Characters("abcde\U{FE0F}") == 5;
  }

  /** `validateLogin`: the fields that fail, in chain order. */
  function LoginErrors(rules: EmailRules, req: LoginRequest): (errors: seq<Field>)
    ensures Email in errors <==> !rules.isEmail(req.email)
    ensures Password in errors <==> Characters(req.password) < 6
    ensures errors == [] <==> rules.isEmail(req.email) && Characters(req.password) >= 6
  {
    Check(rules.isEmail(req.email), Email) + Check(Characters(req.password) >= 6, Password)
  }

  /** One validator of a chain: no error, or the field's name. */
  function Check(ok: bool, field: Field): (errors: seq<Field>)
    ensures field in errors <==> !ok
    ensures forall f :: f in errors ==> f == field
    ensures |errors| == if ok then 0 else 1
  {
    if ok then [] else [field]
  }

  /** The five validators of `validateSignup`, given whether each passes:
      the failing fields in chain order. */
  function SignupChain(nameOk: bool, emailOk: bool, passwordOk: bool, organizationNameOk: bool, teamSizeOk: bool)
    : (errors: seq<Field>)
    ensures Name in errors <==> !nameOk
    ensures Email in errors <==> !emailOk
    ensures Password in errors <==> !passwordOk
    ensures OrganizationName in errors <==> !organizationNameOk
    ensures TeamSize in errors <==> !teamSizeOk
    ensures errors == [] <==> nameOk && emailOk && passwordOk && organizationNameOk && teamSizeOk
  {
    Check(nameOk, Name) + Check(emailOk, Email) + Check(passwordOk, Password)
    + Check(organizationNameOk, OrganizationName) + Check(teamSizeOk, TeamSize)
  }

  /** The `validateSignup` chain, measuring `name` and `organizationName`
      (both trimmed first) with `length` and the password with `isLength`;
      the fields that fail, in order. */
  function SignupFieldErrors(rules: EmailRules, req: SignupRequest, length: string -> nat): (errors: seq<Field>)
    ensures Name in errors <==> !(2 <= length(Trim(req.name)) <= 50)
    ensures Email in errors <==> !rules.isEmail(req.email)
    ensures Password in errors <==> Characters(req.password) < 6
    ensures OrganizationName in errors <==> !(2 <= length(Trim(req.organizationName)) <= 100)
    ensures TeamSize in errors <==> req.teamSize !in TeamSizes
    ensures errors == [] <==>
      2 <= length(Trim(req.name)) <= 50 && rules.isEmail(req.email) && Characters(req.password) >= 6
      && 2 <= length(Trim(req.organizationName)) <= 100 && req.teamSize in TeamSizes
  {
    SignupChain(2 <= length(Trim(req.name)) <= 50, rules.isEmail(req.email), Characters(req.password) >= 6,
                2 <= length(Trim(req.organizationName)) <= 100, req.teamSize in TeamSizes)
  }

  /** `validateSignup` as written: every length is the `isLength` count. */
  function SignupErrors(rules: EmailRules, req: SignupRequest): (errors: seq<Field>)
    ensures Name in errors <==> !(2 <= Characters(Trim(req.name)) <= 50)
    ensures Password in errors <==> Characters(req.password) < 6
    ensures OrganizationName in errors <==> !(2 <= Characters(Trim(req.organizationName)) <= 100)
    ensures errors == [] <==>
      2 <= Characters(Trim(req.name)) <= 50 && rules.isEmail(req.email) && Characters(req.password) >= 6
      && 2 <= Characters(Trim(req.organizationName)) <= 100 && req.teamSize in TeamSizes
  {
    SignupFieldErrors(rules, req, Characters)
  }

  /** The validation the schema's bounds call for: lengths in UTF-16 code
      units, as Mongoose's `maxlength` measures them. */
  function SignupErrorsInCodeUnits(rules: EmailRules, req: SignupRequest): seq<Field> {
    SignupFieldErrors(rules, req, Utf16Length)
  }

  /** A request the corrected validation lets through is one the User schema
      accepts, once the email normalizes to something. */
  lemma CorrectedValidationFitsSchema(rules: EmailRules, req: SignupRequest)
    requires SignupErrorsInCodeUnits(rules, req) == [] && EmailKey(rules, req.email) != []
    ensures NewUserValid(Trim(req.name), rules.normalizeEmail(req.email), Plain(req.password))
  {
    assert Utf16Length(Trim(req.name)) <= 50 && Utf16Length(req.password) >= |req.password| >= 6;
    TrimIdempotent(req.name);
  }

  /** A display name of 26 emoji from outside the Basic Multilingual Plane:
      one character each, two UTF-16 code units each. */
  function AstralName(): (name: string)
    ensures |name| == 26 && forall i :: 0 <= i < |name| ==> name[i] == '\U{1F600}'
  {
    seq(26, _ => '\U{1F600}')
  }

  /** As written, `validateSignup` counts the astral name as 26 characters
      and lets it through, while the code-unit validation and the User
      schema's `maxlength` both count 52 and refuse it. */
  lemma AstralNamePassesValidationOnly(rules: EmailRules, req: SignupRequest, email: string, password: Secret)
    requires req.name == AstralName()
    ensures Name !in SignupErrors(rules, req)
    ensures Name in SignupErrorsInCodeUnits(rules, req)
    ensures !NewUserValid(Trim(req.name), email, password)
  {
    AstralNameCounts();
  }

  /** The astral name trims to itself; `isLength` counts 26, `length` 52. */
  lemma AstralNameCounts()
    ensures Trim(AstralName()) == AstralName()
    ensures Characters(AstralName()) == 26 && Utf16Length(AstralName()) == 52
  {
    var name := AstralName();
    EmojiTrim(name);
    assert forall i :: 0 <= i < |name| ==> !IsPresentationSelector(name[i]);
    CharactersWithoutSelectors(name);
    assert forall i :: 0 <= i < |name| ==> name[i] as int > 0xFFFF;
    Utf16LengthOfAstral(name);
  }

  lemma EmojiTrim(s: string)
    requires forall i :: 0 <= i < |s| ==> s[i] == '\U{1F600}'
    ensures Trim(s) == s
  {
    TrimStartIdle(s);
    TrimEndIdle(s);
  }

  /** A request that passes either signup validation also passes login
      validation with the same email and password. */
  lemma SignupValidationPassesLogin(rules: EmailRules, req: SignupRequest, length: string -> nat)
    requires SignupFieldErrors(rules, req, length) == []
    ensures LoginErrors(rules, LoginRequest(req.email, req.password)) == []
  {
  }

  // ---------------------------------------------------------------------------
  // Team size
  // ---------------------------------------------------------------------------

  datatype Quota = Quota(maxUsers: int, maxRepositories: int)

  /** The `maxUsers` / `maxRepositories` signup stores for a team size;
      anything but the first three buckets gets the largest quota. */
  function TeamSizeQuota(teamSize: string): (q: Quota)
    ensures teamSize == "1-5" ==> q == Quota(5, 3)
    ensures teamSize == "6-20" ==> q == Quota(20, 10)
    ensures teamSize == "21-50" ==> q == Quota(50, 25)
    ensures teamSize !in {"1-5", "6-20", "21-50"} ==> q == Quota(100, 100)
  {
    if teamSize == "1-5" then Quota(5, 3)
    else if teamSize == "6-20" then Quota(20, 10)
    else if teamSize == "21-50" then Quota(50, 25)
    else Quota(100, 100)
  }

  /** Every team size gets at least the free plan's user and repository
      limits and satisfies the schema's `min: 1`; every bucket above "1-5"
      admits more users than the free plan it is signed up on, because the
      admission checks read these stored values, not the plan. */
  lemma TeamSizeQuotaVersusFreePlan(teamSize: string)
    ensures var q := TeamSizeQuota(teamSize);
      q.maxUsers >= FreeLimits.maxUsers >= 1 && q.maxRepositories >= FreeLimits.maxRepositories >= 1
    ensures TeamSizeQuota(teamSize).maxUsers > PlanLimits("free").maxUsers <==> teamSize != "1-5"
  {
  }

  // ---------------------------------------------------------------------------
  // The store
  // ---------------------------------------------------------------------------

  /** Stored users: ids below `nextId`, no modified path, the schema met, and
      the unique indexes on `_id` and `email`. */
  ghost predicate UsersWellFormed(users: set<User>, nextId: nat)
    reads users
  {
    (forall u :: u in users ==> u.id < nextId && !u.passwordModified && u.SchemaValid())
    && UsersUnique(users)
  }

  /** The unique indexes on `_id` and `email`. */
  ghost predicate UsersUnique(users: set<User>)
    reads users
  {
    (forall u, v :: u in users && v in users && u.id == v.id ==> u == v)
    && (forall u, v :: u in users && v in users && u.email == v.email ==> u == v)
  }

  /** Updates that leave every email as it was keep the indexes unique. */
  twostate lemma UsersUniqueKept(users: set<User>)
    requires old(UsersUnique(users))
    requires forall u :: u in users ==> u.email == old(u.email)
    ensures UsersUnique(users)
  {
  }

  /** Stored organizations: ids below `nextId`, no modified path, the schema
      met, and the unique indexes on `_id` and `slug`. */
  ghost predicate OrgsWellFormed(orgs: set<Organization>, nextId: nat)
    reads orgs
  {
    (forall o :: o in orgs ==> o.id < nextId && !o.nameModified)
    && (forall o, p :: o in orgs && p in orgs && o.id == p.id ==> o == p)
    && (forall o, p :: o in orgs && p in orgs && o.slug == p.slug ==> o == p)
  }

  /** Storing a saved user with a fresh id and a free email keeps the users
      well formed. */
  lemma InsertKeepsUsersWellFormed(users: set<User>, nextId: nat, u: User)
    requires UsersWellFormed(users, nextId) && u !in users && u.id == nextId
    requires !u.passwordModified && u.SchemaValid()
    requires forall v :: v in users ==> v.email != u.email
    ensures UsersWellFormed(users + {u}, nextId + 1)
  {
  }

  /** Storing a saved organization with a fresh id and a free slug keeps the
      organizations well formed. */
  lemma InsertKeepsOrgsWellFormed(orgs: set<Organization>, nextId: nat, o: Organization)
    requires OrgsWellFormed(orgs, nextId) && o !in orgs && o.id == nextId
    requires !o.nameModified
    requires forall p :: p in orgs ==> p.slug != o.slug
    ensures OrgsWellFormed(orgs + {o}, nextId + 1)
  {
  }

  lemma UsersWellFormedLater(users: set<User>, nextId: nat)
    requires UsersWellFormed(users, nextId)
    ensures UsersWellFormed(users, nextId + 1)
  {
  }

  lemma OrgsWellFormedLater(orgs: set<Organization>, nextId: nat)
    requires OrgsWellFormed(orgs, nextId)
    ensures OrgsWellFormed(orgs, nextId + 1)
  {
  }

  /** The two collections, with Mongoose's `_id` allocation as a counter. */
  class Store {
    var users: set<User>
    var orgs: set<Organization>
    var nextId: nat
    const emailRules: EmailRules

    /** Ids are unique and below `nextId`, the unique indexes on `email` and
        `slug` hold, and stored documents passed the schema and have no
        modified paths. */
    ghost predicate Valid()
      reads this, users, orgs
    {
      UsersWellFormed(users, nextId) && OrgsWellFormed(orgs, nextId)
    }

    constructor (emailRules: EmailRules)
      ensures Valid() && this.emailRules == emailRules
      ensures users == {} && orgs == {}
    {
      this.emailRules := emailRules;
      users, orgs, nextId := {}, {}, 0;
    }

    /** Some stored user has this (stored) email. */
    ghost predicate EmailTaken(email: string)
      reads this, users
    {
      exists u :: u in users && u.email == email
    }

    /** The stored user with this (stored) email accepts this password. */
    ghost predicate PasswordAccepted(email: string, password: string)
      reads this, users
    {
      exists u :: u in users && u.email == email && u.ComparePassword(password)
    }

    /** Some stored user has this id. */
    ghost predicate UserWithId(id: nat)
      reads this, users
    {
      exists u :: u in users && u.id == id
    }

    /** `populate('organizationId')`: the organization with that id, or
        nothing when it does not exist. */
    ghost predicate PopulatedAs(organizationId: nat, org: Option<Organization>)
      reads this, orgs
    {
      match org
      case Some(o) => o in orgs && o.id == organizationId
      case None => forall o :: o in orgs ==> o.id != organizationId
    }

    method Populate(organizationId: nat) returns (org: Option<Organization>)
      ensures PopulatedAs(organizationId, org)
    {
      if o :| o in orgs && o.id == organizationId {
        org := Some(o);
      } else {
        org := None;
      }
    }

    // -------------------------------------------------------------------------
    // Signup
    // -------------------------------------------------------------------------

    /** `organization.save()` succeeds for this (already trimmed) name: the
        schema validates it and the unique index admits its slug. */
    ghost predicate OrganizationAccepted(organizationName: string)
      reads this, orgs
    {
      var name := Trim(organizationName);
      name != [] && Utf16Length(name) <= 100
      && forall p :: p in orgs ==> p.slug != Slugify(name)
    }

    /** The organization signup creates. */
    ghost predicate IsNewOrganization(o: Organization, organizationName: string, teamSize: string, now: nat, periodEnd: nat)
      reads o
    {
      o.name == Trim(organizationName) && o.slug == Slugify(Trim(organizationName)) && o.plan == "free"
      && o.maxUsers == TeamSizeQuota(teamSize).maxUsers
      && o.maxRepositories == TeamSizeQuota(teamSize).maxRepositories
      && o.settings == DefaultSettings() && o.billing == Billing(None, None, "active", now, periodEnd)
      && o.usage == Usage(0, 0, 0, now) && o.SchemaValid()
    }

    /** The first user of a new organization: an admin bound to it, holding
        `stored` as its password. */
    ghost predicate IsNewAdmin(u: User, organizationId: nat, name: string, email: string, stored: Secret, now: nat)
      reads u
    {
      u.name == Trim(name) && u.email == StoredEmail(email) && u.password == stored
      && u.role == Admin && u.organizationId == organizationId && u.status == Active
      && u.lastLoginAt == now && u.preferences == DefaultPreferences && u.SchemaValid()
    }

    /** Stores a saved organization under the next id. */
    method InsertOrganization(o: Organization)
      requires Valid() && o !in orgs && o.id == nextId && !o.nameModified
      requires forall p :: p in orgs ==> p.slug != o.slug
      modifies this`orgs, this`nextId
      ensures Valid() && orgs == old(orgs) + {o} && nextId == old(nextId) + 1
    {
      InsertKeepsOrgsWellFormed(orgs, nextId, o);
      UsersWellFormedLater(users, nextId);
      orgs := orgs + {o};
      nextId := nextId + 1;
    }

    /** Stores a saved user under the next id; its email is free. */
    method InsertUser(u: User)
      requires Valid() && u !in users && u.id == nextId && !u.passwordModified && u.SchemaValid()
      requires !EmailTaken(u.email)
      modifies this`users, this`nextId
      ensures Valid() && users == old(users) + {u} && nextId == old(nextId) + 1
    {
      InsertKeepsUsersWellFormed(users, nextId, u);
      OrgsWellFormedLater(orgs, nextId);
      users := users + {u};
      nextId := nextId + 1;
    }

    /** `new Organization({...})` and `organization.save()`: the document is
        stored, or the save fails (schema or duplicate slug) and nothing is. */
    method CreateOrganization(organizationName: string, teamSize: string, now: nat, periodEnd: nat)
      returns (org: Organization?)
      requires Valid()
      modifies this`orgs, this`nextId
      ensures Valid() && users == old(users)
      ensures !old(OrganizationAccepted(organizationName)) ==> org == null && orgs == old(orgs)
      ensures old(OrganizationAccepted(organizationName)) ==>
        org != null && org !in old(orgs) && orgs == old(orgs) + {org}
        && IsNewOrganization(org, organizationName, teamSize, now, periodEnd)
    {
      var quota := TeamSizeQuota(teamSize);
      TeamSizeQuotaVersusFreePlan(teamSize);
      var o, saved := NewSavedOrganization(nextId, organizationName, now, periodEnd, quota.maxUsers, quota.maxRepositories);
      if !saved || exists p :: p in orgs && p.slug == o.slug {
        return null;
      }
      InsertOrganization(o);
      org := o;
    }

    /** `new User({...})` and `user.save()` for the organization's first
        user, an admin: the document is stored, or the schema refuses it and
        nothing is. */
    method CreateAdmin(organizationId: nat, name: string, email: string, password: Secret, now: nat)
      returns (admin: User?)
      requires Valid() && !EmailTaken(StoredEmail(email))
      modifies this`users, this`nextId
      ensures Valid() && orgs == old(orgs)
      ensures !NewUserValid(name, email, password) ==> admin == null && users == old(users)
      ensures NewUserValid(name, email, password) ==>
        admin != null && fresh(admin) && users == old(users) + {admin}
        && IsNewAdmin(admin, organizationId, name, email, BcryptHash(password), now)
    {
      var u, saved := NewSavedUser(nextId, name, email, password, organizationId, now, Admin);
      if !saved {
        return null;
      }
      InsertUser(u);
      admin := u;
    }

    /** Steps after the email check: create and save the organization, then
        the user (whose pre-save hook hashes `password` once more), then sign
        a token. A failed save surfaces as the handler's 500; a failure of the
        user's save leaves the organization stored. */
    method CreateAccount(name: string, email: string, password: Secret, organizationName: string,
                         teamSize: string, now: nat, periodEnd: nat)
      returns (r: Response, ghost org: Organization?, ghost admin: User?)
      requires Valid() && !EmailTaken(StoredEmail(email))
      modifies this`orgs, this`users, this`nextId
      ensures Valid()
      ensures !old(OrganizationAccepted(organizationName)) ==>
        r == RegistrationError && users == old(users) && orgs == old(orgs)
      ensures old(OrganizationAccepted(organizationName)) ==>
        org != null && org !in old(orgs) && orgs == old(orgs) + {org}
        && IsNewOrganization(org, organizationName, teamSize, now, periodEnd)
      ensures old(OrganizationAccepted(organizationName)) && !NewUserValid(name, email, password) ==>
        r == RegistrationError && users == old(users)
      ensures old(OrganizationAccepted(organizationName)) && NewUserValid(name, email, password) ==>
        admin != null && fresh(admin) && users == old(users) + {admin}
        && IsNewAdmin(admin, org.id, name, email, BcryptHash(password), now)
        && r == Response(201, Session(admin.ToJSON(), Some(org), Some(GenerateToken(admin.id))))
    {
      var o := CreateOrganization(organizationName, teamSize, now, periodEnd);
      org := o;
      if o == null {
        return RegistrationError, null, null;
      }
      var u := CreateAdmin(o.id, name, email, password, now);
      admin := u;
      if u == null {
        return RegistrationError, o, null;
      }
      r := Response(201, Session(u.ToJSON(), Some(o), Some(GenerateToken(u.id))));
    }

    /** `POST /signup` as written: the handler hashes the password and the
        User pre-save hook hashes the hash again. It neither consults
        `canAddUser` nor calls `incrementUsage`, so the new organization's
        `usage.users` stays 0. */
    method Signup(req: SignupRequest, now: nat, periodEnd: nat)
      returns (r: Response, ghost org: Organization?, ghost admin: User?)
      requires Valid()
      modifies this`orgs, this`users, this`nextId
      ensures Valid()
      ensures r.status in {201, 400, 500}
      ensures r.status != 201 ==> users == old(users)
      ensures SignupErrors(emailRules, req) != [] ==>
        r == ValidationFailed(SignupErrors(emailRules, req)) && users == old(users) && orgs == old(orgs)
      ensures SignupErrors(emailRules, req) == [] && old(EmailTaken(EmailKey(emailRules, req.email))) ==>
        r == UserExists && users == old(users) && orgs == old(orgs)
      ensures r.status == 201 ==>
        org != null && admin != null && org !in old(orgs) && fresh(admin)
        && orgs == old(orgs) + {org} && users == old(users) + {admin}
        && IsNewOrganization(org, Trim(req.organizationName), req.teamSize, now, periodEnd)
        && IsNewAdmin(admin, org.id, Trim(req.name), emailRules.normalizeEmail(req.email),
                      Hashed(Hashed(Plain(req.password))), now)
        && r == Response(201, Session(admin.ToJSON(), Some(org), Some(GenerateToken(admin.id))))
      ensures r.status == 500 ==>
        r == RegistrationError && users == old(users)
        && (!old(OrganizationAccepted(Trim(req.organizationName))) ==> orgs == old(orgs))
        && (old(OrganizationAccepted(Trim(req.organizationName))) ==>
              org != null && org !in old(orgs) && orgs == old(orgs) + {org}
              && IsNewOrganization(org, Trim(req.organizationName), req.teamSize, now, periodEnd))
      ensures SignupErrors(emailRules, req) == [] && !old(EmailTaken(EmailKey(emailRules, req.email))) ==>
        r.status != 400 && (r.status == 201 <==>
          old(OrganizationAccepted(Trim(req.organizationName)))
          && NewUserValid(Trim(req.name), emailRules.normalizeEmail(req.email), BcryptHash(Plain(req.password))))
    {
      var errors := SignupErrors(emailRules, req);
      if errors != [] {
        return ValidationFailed(errors), null, null;
      }
      var email := emailRules.normalizeEmail(req.email);
      if exists u :: u in users && u.email == StoredEmail(email) {
        return UserExists, null, null;
      }
      var hashed := BcryptHash(Plain(req.password));
      r, org, admin := CreateAccount(Trim(req.name), email, hashed, Trim(req.organizationName), req.teamSize, now, periodEnd);
    }

    /** `POST /signup` with the two corrections the schema calls for: lengths
        are validated in UTF-16 code units, and the plaintext is handed to
        the User document so that its pre-save hook hashes it exactly once. */
    method SignupCorrected(req: SignupRequest, now: nat, periodEnd: nat)
      returns (r: Response, ghost org: Organization?, ghost admin: User?)
      requires Valid()
      modifies this`orgs, this`users, this`nextId
      ensures Valid()
      ensures r.status in {201, 400, 500}
      ensures r.status != 201 ==> users == old(users)
      ensures SignupErrorsInCodeUnits(emailRules, req) != [] ==>
        r == ValidationFailed(SignupErrorsInCodeUnits(emailRules, req)) && users == old(users) && orgs == old(orgs)
      ensures SignupErrorsInCodeUnits(emailRules, req) == [] && old(EmailTaken(EmailKey(emailRules, req.email))) ==>
        r == UserExists && users == old(users) && orgs == old(orgs)
      ensures r.status == 201 ==>
        org != null && admin != null && org !in old(orgs) && fresh(admin)
        && orgs == old(orgs) + {org} && users == old(users) + {admin}
        && IsNewOrganization(org, Trim(req.organizationName), req.teamSize, now, periodEnd)
        && IsNewAdmin(admin, org.id, Trim(req.name), emailRules.normalizeEmail(req.email), Hashed(Plain(req.password)), now)
        && r == Response(201, Session(admin.ToJSON(), Some(org), Some(GenerateToken(admin.id))))
      ensures r.status == 500 && EmailKey(emailRules, req.email) != [] ==>
        r == RegistrationError && users == old(users) && orgs == old(orgs)
      ensures SignupErrorsInCodeUnits(emailRules, req) == [] && !old(EmailTaken(EmailKey(emailRules, req.email)))
              && EmailKey(emailRules, req.email) != [] ==>
        r.status != 400 && (r.status == 201 <==> old(OrganizationAccepted(Trim(req.organizationName))))
    {
      var errors := SignupErrorsInCodeUnits(emailRules, req);
      if errors != [] {
        return ValidationFailed(errors), null, null;
      }
      var email := emailRules.normalizeEmail(req.email);
      if exists u :: u in users && u.email == StoredEmail(email) {
        return UserExists, null, null;
      }
      if StoredEmail(email) != [] {
        CorrectedValidationFitsSchema(emailRules, req);
      }
      r, org, admin := CreateAccount(Trim(req.name), email, Plain(req.password), Trim(req.organizationName), req.teamSize, now, periodEnd);
    }

    // -------------------------------------------------------------------------
    // Login, verify, refresh, logout
    // -------------------------------------------------------------------------

    /** `User.findOne({ email })` followed by `bcrypt.compare`: the stored
        user with that email when it accepts the password, otherwise none. */
    method FindCredentials(key: string, password: string) returns (found: User?)
      requires Valid()
      ensures found != null ==> found in users && found.email == key && found.ComparePassword(password)
      ensures found == null ==> !PasswordAccepted(key, password)
    {
      if u :| u in users && u.email == key {
        if !BcryptCompare(password, u.password) {
          return null;
        }
        return u;
      }
      return null;
    }

    /** `user.lastLoginAt = new Date()` and `user.save()`: a stored user
        passes validation, and its password is not modified, so the save
        succeeds and the pre-save hook leaves the password alone. */
    method RecordLogin(u: User, now: nat) returns (saved: bool)
      requires Valid() && u in users
      modifies u`lastLoginAt, u`password, u`passwordModified
      ensures saved
      ensures Valid() && u.lastLoginAt == now
      ensures forall v :: v in users ==> v.password == old(v.password) && !v.passwordModified
    {
      u.lastLoginAt := now;
      saved := u.Save();
      UsersUniqueKept(users);
    }

    /** `POST /login`. Both ways of failing after validation give the very
        same 401; the user's `status` is not consulted. Only the matching
        user's `lastLoginAt` changes. */
    method Login(req: LoginRequest, now: nat) returns (r: Response, ghost user: User?)
      requires Valid()
      modifies users`lastLoginAt, users`password, users`passwordModified
      ensures Valid()
      ensures r.status in {200, 400, 401}
      ensures LoginErrors(emailRules, req) != [] ==> r == ValidationFailed(LoginErrors(emailRules, req))
      ensures LoginErrors(emailRules, req) == [] && !old(EmailTaken(EmailKey(emailRules, req.email))) ==>
        r == InvalidCredentials
      ensures LoginErrors(emailRules, req) == [] && !old(PasswordAccepted(EmailKey(emailRules, req.email), req.password)) ==>
        r == InvalidCredentials
      ensures LoginErrors(emailRules, req) == [] && old(PasswordAccepted(EmailKey(emailRules, req.email), req.password)) ==>
        r.status == 200
      ensures r.status == 200 <==> user != null
      ensures user != null ==>
        user in users && user.email == EmailKey(emailRules, req.email) && old(user.ComparePassword(req.password))
        && user.lastLoginAt == now && r.body.Session?
        && r == Response(200, Session(user.ToJSON(), r.body.organization, Some(GenerateToken(user.id))))
        && PopulatedAs(user.organizationId, r.body.organization)
      ensures forall u :: u in users ==> u.password == old(u.password) && !u.passwordModified
      ensures forall u :: u in users && u != user ==> u.lastLoginAt == old(u.lastLoginAt)
    {
      var errors := LoginErrors(emailRules, req);
      if errors != [] {
        return ValidationFailed(errors), null;
      }
      var u := FindCredentials(StoredEmail(emailRules.normalizeEmail(req.email)), req.password);
      if u == null {
        return InvalidCredentials, null;
      }
      var saved := RecordLogin(u, now);
      var organization := Populate(u.organizationId);
      r, user := Response(200, Session(u.ToJSON(), organization, Some(GenerateToken(u.id)))), u;
    }

    /** `GET /verify` for the user id the token carried. */
    method Verify(userId: nat) returns (r: Response)
      ensures !UserWithId(userId) ==> r == UserNotFound
      ensures UserWithId(userId) ==>
        r.status == 200 && r.body.Session? && r.body.token == None
        && exists u :: u in users && u.id == userId && r.body.user == u.ToJSON()
                       && PopulatedAs(u.organizationId, r.body.organization)
    {
      if u :| u in users && u.id == userId {
        var organization := Populate(u.organizationId);
        r := Response(200, Session(u.ToJSON(), organization, None));
      } else {
        r := UserNotFound;
      }
    }

    /** `POST /refresh` for the user id the token carried: a new token for
        that same id, or 401 when the user no longer exists. */
    method Refresh(userId: nat) returns (r: Response)
      ensures !UserWithId(userId) ==> r == UserNotFound
      ensures UserWithId(userId) ==> r == Response(200, TokenIssued(GenerateToken(userId)))
    {
      if u :| u in users && u.id == userId {
        r := Response(200, TokenIssued(GenerateToken(u.id)));
      } else {
        r := UserNotFound;
      }
    }

    /** `POST /logout`: an acknowledgement; no stored document changes (the
        method modifies nothing) and the token stays valid. */
    method Logout(userId: nat) returns (r: Response)
      ensures r == LoggedOut
    {
      r := LoggedOut;
    }

    // -------------------------------------------------------------------------
    // Signup followed by login
    // -------------------------------------------------------------------------

    /** An admin stored the way `Signup` stores it, holding a hash of the
        hash, does not accept the password chosen at signup: a later `Login`
        with that email and that password ends in the uniform 401. */
    lemma DoubleHashedAdminLocksOut(admin: User, organizationId: nat, name: string, email: string, password: string, now: nat)
      requires Valid() && admin in users
      requires IsNewAdmin(admin, organizationId, name, email, Hashed(Hashed(Plain(password))), now)
      ensures !PasswordAccepted(StoredEmail(email), password)
    {
      forall u | u in users && u.email == StoredEmail(email) ensures !u.ComparePassword(password) {
        assert u == admin;
        CompareRejectsDoubleHash(password);
      }
    }

    /** An admin stored the way `SignupCorrected` stores it accepts exactly
        the password it signed up with. */
    lemma HashedAdminLogsIn(admin: User, organizationId: nat, name: string, email: string, password: string, now: nat)
      requires Valid() && admin in users
      requires IsNewAdmin(admin, organizationId, name, email, Hashed(Plain(password)), now)
      ensures forall candidate :: PasswordAccepted(StoredEmail(email), candidate) <==> candidate == password
    {
      forall candidate ensures PasswordAccepted(StoredEmail(email), candidate) <==> candidate == password {
        CompareAcceptsHashedPassword(candidate, password);
        if PasswordAccepted(StoredEmail(email), candidate) {
          var u :| u in users && u.email == StoredEmail(email) && u.ComparePassword(candidate);
          assert u == admin;
        } else {
          assert !admin.ComparePassword(candidate);
        }
      }
    }

    /** A signup whose name is `AstralName()`, with every other field valid,
        a free email and an acceptable organization name, as written: the
        validation passes, the organization is saved, the user's save fails,
        and the handler answers 500 with the organization left stored. */
    method AstralSignup(req: SignupRequest, now: nat, periodEnd: nat) returns (r: Response, ghost org: Organization?)
      requires Valid() && req.name == AstralName()
      requires emailRules.isEmail(req.email) && Characters(req.password) >= 6
      requires 2 <= Characters(Trim(req.organizationName)) <= 100 && req.teamSize in TeamSizes
      requires !EmailTaken(EmailKey(emailRules, req.email)) && OrganizationAccepted(Trim(req.organizationName))
      modifies this`orgs, this`users, this`nextId
      ensures r == RegistrationError && users == old(users)
      ensures org != null && org !in old(orgs) && orgs == old(orgs) + {org}
    {
      AstralNamePassesValidationOnly(emailRules, req, emailRules.normalizeEmail(req.email), BcryptHash(Plain(req.password)));
      ghost var admin;
      r, org, admin := Signup(req, now, periodEnd);
    }

    /** The same request against the corrected signup: refused with 400
        before anything is stored. */
    method AstralSignupCorrected(req: SignupRequest, now: nat, periodEnd: nat) returns (r: Response)
      requires Valid() && req.name == AstralName()
      modifies this`orgs, this`users, this`nextId
      ensures r.status == 400 && r.body.Failure? && Name in r.body.errors
      ensures users == old(users) && orgs == old(orgs)
    {
      AstralNamePassesValidationOnly(emailRules, req, emailRules.normalizeEmail(req.email), Plain(req.password));
      ghost var org, admin;
      r, org, admin := SignupCorrected(req, now, periodEnd);
    }
  }
}
