/** The User document: schema constraints, the password hashing pre-save
    hook, password comparison, the password-free JSON projection and the two
    static queries (backend/src/models/User.js). */
module UserModel {
  import opened Wrappers
  import opened Strings

  datatype Role = Admin | Developer | Viewer
  datatype Status = Active | Pending | Inactive

  function RoleName(r: Role): string {
    match r
    case Admin => "admin"
    case Developer => "developer"
    case Viewer => "viewer"
  }

  function StatusName(s: Status): string {
    match s
    case Active => "active"
    case Pending => "pending"
    case Inactive => "inactive"
  }

  // ---------------------------------------------------------------------------
  // bcrypt, as a perfect one-way function: a hash records what was hashed.
  // Salt, cost factor and the 72-byte input limit are not modelled.
  // ---------------------------------------------------------------------------

  datatype Secret = Plain(text: string) | Hashed(of: Secret)

  function BcryptHash(s: Secret): Secret {
    Hashed(s)
  }

  /** `bcrypt.compare(candidate, stored)`: true when `stored` is a hash of
      exactly the candidate text. */
  predicate BcryptCompare(candidate: string, stored: Secret) {
    stored == Hashed(Plain(candidate))
  }

  /** The length Mongoose's `minlength` sees, in UTF-16 code units: a bcrypt
      hash has 60 characters. */
  function SecretLength(s: Secret): nat {
    match s
    case Plain(t) => Utf16Length(t)
    case Hashed(_) => 60
  }

  /** A password hashed once is accepted for that password and no other. */
  lemma CompareAcceptsHashedPassword(candidate: string, password: string)
    ensures BcryptCompare(candidate, BcryptHash(Plain(password))) <==> candidate == password
  {
  }

  /** A password hashed twice is not accepted for the password itself. */
  lemma CompareRejectsDoubleHash(password: string)
    ensures !BcryptCompare(password, BcryptHash(BcryptHash(Plain(password))))
  {
  }

  // ---------------------------------------------------------------------------
  // Preferences sub-document
  // ---------------------------------------------------------------------------

  /** The `dashboard.defaultView` enum. */
  datatype View = Overview | Repositories | Analytics

  datatype Preferences = Preferences(
    emailNotifications: bool,
    slackNotifications: bool,
    webhookNotifications: bool,
    defaultView: View,
    itemsPerPage: int)

  const DefaultPreferences := Preferences(true, false, true, Overview, 10)

  predicate PreferencesValid(p: Preferences) {
    5 <= p.itemsPerPage <= 100
  }

  /** What the `lowercase` and `trim` setters make of an email; Mongoose also
      applies them to the values of query filters on `email`. */
  function StoredEmail(e: string): string {
    Trim(Lower(e))
  }

  /** What the schema's `required`, `maxlength` and `minlength` demand of a
      new document built from these arguments (the setters trim the name and
      lower-case and trim the email first). */
  predicate NewUserValid(name: string, email: string, password: Secret) {
    Trim(name) != [] && Utf16Length(Trim(name)) <= 50 && StoredEmail(email) != [] && SecretLength(password) >= 6
  }

  // ---------------------------------------------------------------------------
  // JSON projection
  // ---------------------------------------------------------------------------

  datatype Value = Str(s: string) | Num(n: int) | Null | Ref(id: nat) | PasswordHash(secret: Secret) | Prefs(p: Preferences)

  /** The paths of a User document, as they appear as JSON keys (`_id`,
      `name`, `email`, `password`, ...). */
  datatype Path = PathId | PathName | PathEmail | PathPassword | PathAvatar | PathRole
                | PathOrganizationId | PathStatus | PathLastLoginAt | PathPreferences

  type Json = map<Path, Value>

  // ---------------------------------------------------------------------------
  // The document
  // ---------------------------------------------------------------------------

  class User {
    const id: nat
    var name: string
    var email: string
    var password: Secret
    var avatar: Option<string>
    var role: Role
    var organizationId: nat
    var status: Status
    var lastLoginAt: nat
    var preferences: Preferences
    var passwordModified: bool   // Mongoose's modified flag for `password`

    /** `new User({...})` with the schema's defaults and setters. */
    constructor (id: nat, name: string, email: string, password: Secret, organizationId: nat, now: nat,
                 role: Role := Developer)
      ensures this.id == id && this.name == Trim(name) && this.email == StoredEmail(email)
      ensures this.password == password && passwordModified
      ensures this.organizationId == organizationId && this.role == role
      ensures avatar == None && status == Active && lastLoginAt == now && preferences == DefaultPreferences
      ensures SchemaValid() <==> NewUserValid(name, email, password)
    {
      this.id := id;
      this.name := Trim(name);
      this.email := StoredEmail(email);
      this.password := password;
      this.organizationId := organizationId;
      this.role := role;
      avatar := None;
      status := Active;
      lastLoginAt := now;
      preferences := DefaultPreferences;
      passwordModified := true;
    }

    /** The schema's `required`, `maxlength`, `minlength`, `min` and `max`
        constraints (the role and status enums are enforced by their types). */
    predicate SchemaValid()
      reads this
    {
      name != [] && Utf16Length(name) <= 50 && email != [] && SecretLength(password) >= 6
      && PreferencesValid(preferences)
    }

    /** `save()`: validation runs first, on the password as it stands; a
        document that fails it is rejected before the pre-save hook and stays
        as it was. Otherwise the hook hashes the password only when it was
        modified, and afterwards no path is modified. */
    method Save() returns (saved: bool)
      modifies this`password, this`passwordModified
      ensures saved == old(SchemaValid())
      ensures saved ==> password == if old(passwordModified) then BcryptHash(old(password)) else old(password)
      ensures saved && old(passwordModified) ==> password.Hashed?
      ensures saved ==> !passwordModified && SchemaValid()
      ensures !saved ==> password == old(password) && passwordModified == old(passwordModified)
    {
      saved := SchemaValid();
      if !saved {
        return;
      }
      if passwordModified {
        password := BcryptHash(password);
      }
      passwordModified := false;
    }

    /** `comparePassword`: accepted exactly when the stored secret is the
        hash of the candidate, so a stored plaintext accepts nothing. */
    function ComparePassword(candidate: string): (ok: bool)
      reads this
      ensures ok <==> password == BcryptHash(Plain(candidate))
      ensures ok ==> password.Hashed?
    {
      BcryptCompare(candidate, password)
    }

    /** `toObject()`: every stored path. */
    function ToObject(): Json
      reads this
    {
      map[PathId := Ref(id), PathName := Str(name), PathEmail := Str(email), PathPassword := PasswordHash(password),
          PathAvatar := (if avatar.Some? then Str(avatar.value) else Null),
          PathRole := Str(RoleName(role)), PathOrganizationId := Ref(organizationId),
          PathStatus := Str(StatusName(status)), PathLastLoginAt := Num(lastLoginAt),
          PathPreferences := Prefs(preferences)]
    }

    /** `toJSON()`, and the `toObject()` + `delete password` the routes do:
        every path except the password, and no password hash anywhere. */
    function ToJSON(): (r: Json)
      reads this
      ensures PathPassword !in r
      ensures forall k :: k in r ==> !r[k].PasswordHash?
      ensures forall k :: k in ToObject() && k != PathPassword ==> k in r && r[k] == ToObject()[k]
    {
      ToObject() - {PathPassword}
    }
  }

  /** `new User({...})` followed by `save()`: validation runs first, on the
      password as given; only a document that passes it reaches the pre-save
      hook, which hashes the password. */
  method NewSavedUser(id: nat, name: string, email: string, password: Secret, organizationId: nat, now: nat, role: Role)
    returns (u: User, saved: bool)
    ensures fresh(u)
    ensures saved <==> NewUserValid(name, email, password)
    ensures u.id == id && u.name == Trim(name) && u.email == StoredEmail(email)
    ensures u.organizationId == organizationId && u.role == role && u.status == Active
    ensures u.lastLoginAt == now && u.preferences == DefaultPreferences && u.avatar == None
    ensures saved ==> u.password == BcryptHash(password) && !u.passwordModified && u.SchemaValid()
  {
    u := new User(id, name, email, password, organizationId, now, role);
    saved := u.Save();
  }

  // ---------------------------------------------------------------------------
  // Static queries over the collection
  // ---------------------------------------------------------------------------

  /** `findByEmail`: the documents whose email equals the lower-cased
      argument (the unique index allows at most one). */
  function FindByEmail(users: set<User>, email: string): (r: set<User>)
    reads users
    ensures r <= users
    ensures forall u :: u in r ==> u.email == StoredEmail(Lower(email))
    ensures (forall u, v :: u in users && v in users && u.email == v.email ==> u == v) ==> |r| <= 1
  {
    AtMostOneWithEmail(users, StoredEmail(Lower(email)));
    set u | u in users && u.email == StoredEmail(Lower(email))
  }

  /** Under a unique index on `email`, at most one document has a given one. */
  lemma AtMostOneWithEmail(users: set<User>, key: string)
    ensures (forall u, v :: u in users && v in users && u.email == v.email ==> u == v)
            ==> |set u | u in users && u.email == key| <= 1
  {
    var r := set u | u in users && u.email == key;
    if r != {} && (forall u, v :: u in users && v in users && u.email == v.email ==> u == v) {
      var w :| w in r;
      assert r == {w};
    }
  }

  /** Lookup ignores the case of the argument: a document stored with email
      `e` is found by every spelling that lower-cases to the same text. */
  lemma FindByEmailIgnoresCase(users: set<User>, u: User, e: string, query: string)
    requires u in users && u.email == StoredEmail(e)
    requires Lower(query) == Lower(e)
    ensures u in FindByEmail(users, query)
    ensures FindByEmail(users, query) == FindByEmail(users, e)
  {
    LowerIdempotent(query);
    LowerIdempotent(e);
  }

  datatype QueryOptions = QueryOptions(role: Option<string>, status: Option<string>)

  const NoFilter := QueryOptions(None, None)

  /** JavaScript truthiness of an optional string. */
  predicate Given(o: Option<string>) {
    o.Some? && o.value != ""
  }

  /** `getOrganizationUsers`: the members of one organization, narrowed by
      role and status only when those options are given. */
  function GetOrganizationUsers(users: set<User>, organizationId: nat, options: QueryOptions): (r: set<User>)
    reads users
    ensures r <= users
    ensures forall u :: u in r ==> u.organizationId == organizationId
    ensures forall u :: u in r ==> !Given(options.role) || RoleName(u.role) == options.role.value
    ensures forall u :: u in r ==> !Given(options.status) || StatusName(u.status) == options.status.value
    ensures forall u ::
      (u in users && u.organizationId == organizationId
       && (!Given(options.role) || RoleName(u.role) == options.role.value)
       && (!Given(options.status) || StatusName(u.status) == options.status.value)) ==> u in r
  {
    set u | u in users && u.organizationId == organizationId
      && (!Given(options.role) || RoleName(u.role) == options.role.value)
      && (!Given(options.status) || StatusName(u.status) == options.status.value)
  }

  /** Options only narrow the result, and the three role filters split the
      members of the organization: together they give back every member, and
      no member is returned by two of them. */
  lemma RoleFiltersPartitionMembers(users: set<User>, organizationId: nat, options: QueryOptions)
    ensures GetOrganizationUsers(users, organizationId, options) <= GetOrganizationUsers(users, organizationId, NoFilter)
    ensures GetOrganizationUsers(users, organizationId, NoFilter)
         == GetOrganizationUsers(users, organizationId, QueryOptions(Some("admin"), None))
          + GetOrganizationUsers(users, organizationId, QueryOptions(Some("developer"), None))
          + GetOrganizationUsers(users, organizationId, QueryOptions(Some("viewer"), None))
    ensures GetOrganizationUsers(users, organizationId, QueryOptions(Some("admin"), None))
         !! GetOrganizationUsers(users, organizationId, QueryOptions(Some("developer"), None))
    ensures GetOrganizationUsers(users, organizationId, QueryOptions(Some("admin"), None))
         !! GetOrganizationUsers(users, organizationId, QueryOptions(Some("viewer"), None))
    ensures GetOrganizationUsers(users, organizationId, QueryOptions(Some("developer"), None))
         !! GetOrganizationUsers(users, organizationId, QueryOptions(Some("viewer"), None))
  {
  }
}
