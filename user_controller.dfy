/** The user controller: creating, updating, reading and listing user
    accounts, with the validation and self-service rules that decide what
    each request may do. */
module Controllers {
  import opened Wrappers
  import opened Text
  import opened Rights
  import opened Models
  import opened Security
  import opened Database
  import Routes

  /** The request body of create and update. Every field but the id may be
      left out. */
  datatype UserUpdate = UserUpdate(
    id: int,
    name: Option<string>,
    systemIdentifier: Option<string>,
    password: Option<string>,
    administrationRights: Option<Mask>,
    instanceManagerRights: Option<Mask>,
    enabled: Option<bool>)

  /** Why a request was refused with 400 Bad Request. */
  datatype BadRequestReason =
    | CredentialMismatch
    | NameMismatch
    | NameHasColon
    | PasswordTooShort(minimum: nat)
    | SystemIdentifierChange
    | NameChange
  {
    /** The error message returned with the refusal. */
    function Message(): string {
      match this
      case CredentialMismatch => "User must have exactly one of either a password or system identifier!"
      case NameMismatch => "User must have a name if and only if user has no system identifier!"
      case NameHasColon => "Username must not contain colons!"
      case PasswordTooShort(n) => "Password must be at least " + Routes.Decimal(n) + " characters long!"
      case SystemIdentifierChange => "Cannot change a user's system identifier!"
      case NameChange => "Can only change capitalization of a user's name!"
    }
  }

  /** The HTTP result of a controller action. */
  datatype Response =
    | Created(user: UserView)        // 201
    | Ok(user: UserView)             // 200 with a user
    | OkIdOnly(id: int)              // 200 with only the id of a user
    | OkList(users: set<UserView>)   // 200 with every user
    | BadRequest(reason: BadRequestReason)
    | Forbidden
    | NotFound
    | Gone                           // 410
    | NotImplemented                 // 501

  /** `CheckValidName`: a name, when given, must not contain a colon. */
  function CheckValidName(model: UserUpdate): (r: Option<Response>)
    ensures r.None? <==> model.name.None? || forall i :: 0 <= i < |model.name.value| ==> model.name.value[i] != ':'
    ensures r.Some? ==> r.value == BadRequest(NameHasColon)
  {
    if model.name.Some? && ':' in model.name.value then Some(BadRequest(NameHasColon)) else None
  }

  /** The name of a create request after trimming, an empty name counting
      as no name. */
  function NormalizedName(name: Option<string>): (r: Option<string>)
    ensures r.Some? ==> name.Some? && r.value == Trim(name.value) && r.value != []
    ensures r.None? <==> name.None? || forall i :: 0 <= i < |name.value| ==> IsWhiteSpace(name.value[i])
  {
    match name
    case None => None
    case Some(n) => if Trim(n) == [] then None else Some(Trim(n))
  }

  /** First check of create: exactly one of a password or a system identifier. */
  predicate CredentialsExclusive(model: UserUpdate) {
    model.password.Some? != model.systemIdentifier.Some?
  }

  /** Second check of create: a (normalized) name exactly when there is no
      system identifier. */
  predicate NamePairingHolds(model: UserUpdate) {
    NormalizedName(model.name).Some? != model.systemIdentifier.Some?
  }

  /** The three request checks of create, in their order. */
  predicate ValidCreateRequest(model: UserUpdate) {
    && CredentialsExclusive(model)
    && NamePairingHolds(model)
    && CheckValidName(model.(name := NormalizedName(model.name))).None?
  }

  /** What create decides: a refusal, or the name, system identifier and
      password of the account it stores. */
  datatype CreatePlan =
    | Reject(response: Response)
    | Accept(name: string, systemIdentifier: Option<string>, password: Option<string>)

  /** The shape of a create request that has passed the three checks, for
      its normalized name: exactly one credential, a name exactly for a
      password account, and no colon in that name. */
  predicate CheckedCreateRequest(model: UserUpdate, name: Option<string>) {
    && model.password.Some? != model.systemIdentifier.Some?
    && name.Some? != model.systemIdentifier.Some?
    && (name.Some? ==> ':' !in name.value)
  }

  /** The credential step of create's decision, once the checks have
      passed: the account lookup decides a system account, the password
      length a password account. */
  function PlanCredential(model: UserUpdate, name: Option<string>, identity: SystemIdentityLookup,
                          minimumPasswordLength: nat): (r: CreatePlan)
    requires CheckedCreateRequest(model, name)
    ensures model.systemIdentifier.Some? ==>
              && (identity.Absent? ==> r == Reject(Gone))
              && (identity.Unsupported? ==> r == Reject(NotImplemented))
              && (identity.Found? ==> r == Accept(identity.identity.username, Some(identity.identity.uid), None))
    ensures model.password.Some? ==>
              if Utf16Length(model.password.value) < minimumPasswordLength
              then r == Reject(BadRequest(PasswordTooShort(minimumPasswordLength)))
              else r == Accept(name.value, None, model.password)
    ensures r.Accept? ==> r.password.Some? != r.systemIdentifier.Some?
  {
    if model.systemIdentifier.Some? then
      match identity
      case Absent => Reject(Gone)
      case Unsupported => Reject(NotImplemented)
      case Found(sys) => Accept(sys.username, Some(sys.uid), None)
    else if Utf16Length(model.password.value) < minimumPasswordLength then
      Reject(BadRequest(PasswordTooShort(minimumPasswordLength)))
    else Accept(name.value, None, model.password)
  }

  /** The decision of `Create` for a request, the account lookup the
      system-identity factory gives, and the configured minimum password
      length. The checks run in order and the first failure is the answer. */
  function PlanCreate(model: UserUpdate, identity: SystemIdentityLookup, minimumPasswordLength: nat): (r: CreatePlan)
    ensures !CredentialsExclusive(model) ==> r == Reject(BadRequest(CredentialMismatch))
    ensures CredentialsExclusive(model) && !NamePairingHolds(model) ==> r == Reject(BadRequest(NameMismatch))
    ensures (CredentialsExclusive(model) && NamePairingHolds(model) && !ValidCreateRequest(model))
              ==> r == Reject(BadRequest(NameHasColon))
    ensures ValidCreateRequest(model) && model.systemIdentifier.Some? ==>
              && (identity.Absent? ==> r == Reject(Gone))
              && (identity.Unsupported? ==> r == Reject(NotImplemented))
              && (identity.Found? ==> r == Accept(identity.identity.username, Some(identity.identity.uid), None))
    ensures ValidCreateRequest(model) && model.password.Some? ==>
              if Utf16Length(model.password.value) < minimumPasswordLength
              then r == Reject(BadRequest(PasswordTooShort(minimumPasswordLength)))
              else r == Accept(NormalizedName(model.name).value, None, model.password)
    ensures r.Accept? ==> ValidCreateRequest(model) && (r.password.Some? != r.systemIdentifier.Some?)
    ensures r.Accept? && r.password.Some? ==>
              Utf16Length(r.password.value) >= minimumPasswordLength && ':' !in r.name && Some(r.name) == NormalizedName(model.name)
  {
    if !CredentialsExclusive(model) then Reject(BadRequest(CredentialMismatch))
    else
      var name := NormalizedName(model.name);
      if name.Some? == model.systemIdentifier.Some? then Reject(BadRequest(NameMismatch))
      else if CheckValidName(model.(name := name)).Some? then Reject(BadRequest(NameHasColon))
      else PlanCredential(model, name, identity, minimumPasswordLength)
  }

  /** Self-service update: any change other than the password, or another
      user's id, is refused. */
  predicate SelfServiceOverreach(model: UserUpdate, selfId: int): (r: bool)
    ensures !r <==> model == UserUpdate(selfId, None, model.systemIdentifier, model.password, None, None, None)
  {
    model.id != selfId || model.instanceManagerRights.Some? || model.administrationRights.Some?
    || model.enabled.Some? || model.name.Some?
  }

  predicate KeepsSystemIdentifier(model: UserUpdate, u: UserRecord) {
    model.systemIdentifier.None? || model.systemIdentifier == u.systemIdentifier
  }

  predicate PasswordLongEnough(model: UserUpdate, minimumPasswordLength: nat) {
    model.password.None? || Utf16Length(model.password.value) >= minimumPasswordLength
  }

  predicate ChangesOnlyCapitalization(model: UserUpdate, u: UserRecord) {
    model.name.None? || Some(Upper(model.name.value)) == u.canonicalName
  }

  /** Update writes the new password once the system-identifier check has
      passed and the password is long enough, whatever the later checks say. */
  predicate PasswordWritten(model: UserUpdate, u: UserRecord, minimumPasswordLength: nat) {
    KeepsSystemIdentifier(model, u) && model.password.Some? && Utf16Length(model.password.value) >= minimumPasswordLength
  }

  datatype UpdateStep = Applied | Rejected(response: Response)

  /** The checks and field changes of `Update` on the row it targets: the
      outcome, and the row as it stands in memory afterwards. Changes made
      before a failing check stay on the row, but only `Applied` is saved. */
  function ApplyUpdate(u: UserRecord, model: UserUpdate, minimumPasswordLength: nat): (r: (UpdateStep, UserRecord))
    ensures r.1.id == u.id && r.1.systemIdentifier == u.systemIdentifier
    ensures r.1.canonicalName == u.canonicalName && r.1.createdAt == u.createdAt
    ensures r.0 == Applied <==>
              && KeepsSystemIdentifier(model, u) && PasswordLongEnough(model, minimumPasswordLength)
              && ChangesOnlyCapitalization(model, u) && CheckValidName(model).None?
    ensures r.1.passwordHash == if PasswordWritten(model, u, minimumPasswordLength) then model.password else u.passwordHash
    ensures !KeepsSystemIdentifier(model, u) ==> r == (Rejected(BadRequest(SystemIdentifierChange)), u)
    ensures (KeepsSystemIdentifier(model, u) && !PasswordLongEnough(model, minimumPasswordLength))
              ==> r == (Rejected(BadRequest(PasswordTooShort(minimumPasswordLength))), u)
    ensures (KeepsSystemIdentifier(model, u) && PasswordLongEnough(model, minimumPasswordLength) && !ChangesOnlyCapitalization(model, u))
              ==> r == (Rejected(BadRequest(NameChange)), u.(passwordHash := r.1.passwordHash))
    ensures (&& KeepsSystemIdentifier(model, u) && PasswordLongEnough(model, minimumPasswordLength)
             && ChangesOnlyCapitalization(model, u) && CheckValidName(model).Some?)
              ==> r == (Rejected(BadRequest(NameHasColon)), u.(
                        passwordHash := if model.password.Some? then model.password else u.passwordHash,
                        administrationRights := model.administrationRights.GetOr(u.administrationRights),
                        instanceManagerRights := model.instanceManagerRights.GetOr(u.instanceManagerRights),
                        enabled := model.enabled.GetOr(u.enabled)))
    ensures r.0.Rejected? ==> r.1.name == u.name
    ensures r.0 == Applied ==> r.1 == u.(
              name := if model.name.Some? then model.name else u.name,
              passwordHash := if model.password.Some? then model.password else u.passwordHash,
              administrationRights := model.administrationRights.GetOr(u.administrationRights),
              instanceManagerRights := model.instanceManagerRights.GetOr(u.instanceManagerRights),
              enabled := model.enabled.GetOr(u.enabled))
  {
    if !KeepsSystemIdentifier(model, u) then (Rejected(BadRequest(SystemIdentifierChange)), u)
    else if !PasswordLongEnough(model, minimumPasswordLength) then
      (Rejected(BadRequest(PasswordTooShort(minimumPasswordLength))), u)
    else
      var withPassword := if model.password.Some? then u.(passwordHash := model.password) else u;
      if !ChangesOnlyCapitalization(model, withPassword) then (Rejected(BadRequest(NameChange)), withPassword)
      else
        var withRights := withPassword.(
          instanceManagerRights := model.instanceManagerRights.GetOr(u.instanceManagerRights),
          administrationRights := model.administrationRights.GetOr(u.administrationRights),
          enabled := model.enabled.GetOr(u.enabled));
        if CheckValidName(model).Some? then (Rejected(CheckValidName(model).value), withRights)
        else (Applied, withRights.(name := if model.name.Some? then model.name else u.name))
  }

  /** The row an update targets: the caller's own without WriteUsers, the
      requested one with it. */
  function UpdateTarget(model: UserUpdate, callerRights: Mask, callerId: int): (r: int)
    ensures r == model.id || r == callerId
    ensures !HasFlag(callerRights, WriteUsers) ==> r == callerId
  {
    if HasFlag(callerRights, WriteUsers) then model.id else callerId
  }

  /** The user controller, bound to one request: its database context, the
      caller's authentication context, the cryptography suite and the
      configured minimum password length. */
  class UserController {
    const db: DatabaseContext
    const auth: AuthenticationContext
    const crypto: CryptographySuite
    const minimumPasswordLength: nat

    /** The table is consistent and the caller's user is its row in the
        table. */
    ghost predicate Valid()
      reads db, db.users.Values, auth.user
    {
      db.Valid() && auth.user.id in db.users && db.users[auth.user.id] == auth.user
    }

    constructor (db: DatabaseContext, auth: AuthenticationContext, crypto: CryptographySuite,
                 minimumPasswordLength: nat)
      ensures this.db == db && this.auth == auth && this.crypto == crypto
      ensures this.minimumPasswordLength == minimumPasswordLength
    {
      this.db := db;
      this.auth := auth;
      this.crypto := crypto;
      this.minimumPasswordLength := minimumPasswordLength;
    }

    /** `TrySetPassword`: a password shorter than the minimum is refused and
        the suite is not called; otherwise it is set, once. */
    method TrySetPassword(user: User, newPassword: string) returns (fail: Option<Response>)
      modifies user, crypto
      ensures fail.Some? <==> Utf16Length(newPassword) < minimumPasswordLength
      ensures fail.Some? ==> && fail.value == BadRequest(PasswordTooShort(minimumPasswordLength))
                             && user.Record() == old(user.Record())
                             && crypto.passwordSets == old(crypto.passwordSets)
      ensures fail.None? ==> && user.Record() == old(user.Record()).(passwordHash := Some(newPassword))
                             && crypto.passwordSets == old(crypto.passwordSets) + [(user, newPassword)]
      ensures user.createdBy == old(user.createdBy)
    {
      if Utf16Length(newPassword) < minimumPasswordLength {
        return Some(BadRequest(PasswordTooShort(minimumPasswordLength)));
      }
      crypto.SetUserPassword(user, newPassword);
      fail := None;
    }

    /** `Create` (requires WriteUsers). A refused request stores nothing,
        commits nothing and sets no password. An accepted one stores a new
        row under the next id with the upper-cased name as its key, the
        defaults for rights and enabled, the caller as creator, and exactly
        one credential, and answers 201 with that row. */
    method Create(model: UserUpdate, identity: SystemIdentityLookup, createdAt: int) returns (res: Response)
      requires Valid()
      requires HasAnyFlag(auth.GetRight(Administration), WriteUsers)
      modifies db, crypto
      ensures Valid()
      ensures var plan := PlanCreate(model, identity, minimumPasswordLength);
        plan.Reject? ==> && res == plan.response
                         && db.users == old(db.users) && db.saves == old(db.saves)
                         && crypto.passwordSets == old(crypto.passwordSets)
      ensures var plan := PlanCreate(model, identity, minimumPasswordLength);
        plan.Accept? ==>
          && old(db.nextId) !in old(db.users) && old(db.nextId) in db.users
          && var u := db.users[old(db.nextId)];
          && fresh(u)
          && db.users == old(db.users)[old(db.nextId) := u]
          && u.Record() == UserRecord(old(db.nextId), Some(plan.name), Some(Upper(plan.name)),
                                      plan.systemIdentifier, plan.password,
                                      model.administrationRights.GetOr(NoRights),
                                      model.instanceManagerRights.GetOr(NoRights),
                                      model.enabled.GetOr(false), createdAt)
          && u.Record().HasOneCredential()
          && u.createdBy == auth.user
          && res == Created(View(u))
          && db.saves == old(db.saves) + 1
          && crypto.passwordSets == old(crypto.passwordSets) + (if plan.password.Some? then [(u, plan.password.value)] else [])
    {
      if !(model.password.Some? != model.systemIdentifier.Some?) {
        return BadRequest(CredentialMismatch);
      }
      var name := NormalizedName(model.name);
      if !(name.Some? != model.systemIdentifier.Some?) {
        return BadRequest(NameMismatch);
      }
      var invalid := CheckValidName(model.(name := name));
      if invalid.Some? {
        return invalid.value;
      }
      assert PlanCreate(model, identity, minimumPasswordLength) == PlanCredential(model, name, identity, minimumPasswordLength);
      res := CreateAccount(model, name, identity, createdAt);
    }

    /** The part of `Create` after the request checks have passed: the row
        is built, its credential resolved, and the row stored. */
    method CreateAccount(model: UserUpdate, name: Option<string>, identity: SystemIdentityLookup, createdAt: int)
      returns (res: Response)
      requires Valid()
      requires CheckedCreateRequest(model, name)
      modifies db, crypto
      ensures Valid()
      ensures var plan := PlanCredential(model, name, identity, minimumPasswordLength);
        plan.Reject? ==> && res == plan.response
                         && db.users == old(db.users) && db.saves == old(db.saves)
                         && crypto.passwordSets == old(crypto.passwordSets)
      ensures var plan := PlanCredential(model, name, identity, minimumPasswordLength);
        plan.Accept? ==>
          && old(db.nextId) !in old(db.users) && old(db.nextId) in db.users
          && var u := db.users[old(db.nextId)];
          && fresh(u)
          && db.users == old(db.users)[old(db.nextId) := u]
          && u.Record() == UserRecord(old(db.nextId), Some(plan.name), Some(Upper(plan.name)),
                                      plan.systemIdentifier, plan.password,
                                      model.administrationRights.GetOr(NoRights),
                                      model.instanceManagerRights.GetOr(NoRights),
                                      model.enabled.GetOr(false), createdAt)
          && u.Record().HasOneCredential()
          && u.createdBy == auth.user
          && res == Created(View(u))
          && db.saves == old(db.saves) + 1
          && crypto.passwordSets == old(crypto.passwordSets) + (if plan.password.Some? then [(u, plan.password.value)] else [])
    {
      ghost var plan := PlanCredential(model, name, identity, minimumPasswordLength);
      var dbUser, fail := PrepareRow(model, name, identity, createdAt);
      assert Valid() && db.users == old(db.users);
      if fail.Some? {
        return fail.value;
      }
      assert plan.Accept?;
      res := StoreUser(dbUser);
    }

    /** The new row of `Create` with its credential resolved: the answer and
        the password that the plan for the request gives. */
    method PrepareRow(model: UserUpdate, name: Option<string>, identity: SystemIdentityLookup, createdAt: int)
      returns (dbUser: User, fail: Option<Response>)
      requires CheckedCreateRequest(model, name)
      modifies crypto
      ensures fresh(dbUser) && dbUser.createdBy == auth.user
      ensures var plan := PlanCredential(model, name, identity, minimumPasswordLength);
        && (fail.Some? <==> plan.Reject?)
        && (plan.Reject? ==> fail == Some(plan.response) && crypto.passwordSets == old(crypto.passwordSets))
        && (plan.Accept? ==>
              && dbUser.Record() == UserRecord(0, Some(plan.name), None, plan.systemIdentifier, plan.password,
                                               model.administrationRights.GetOr(NoRights),
                                               model.instanceManagerRights.GetOr(NoRights),
                                               model.enabled.GetOr(false), createdAt)
              && crypto.passwordSets == old(crypto.passwordSets) + (if plan.password.Some? then [(dbUser, plan.password.value)] else []))
    {
      dbUser := NewUserRow(model, name, createdAt);
      fail := ResolveCredential(dbUser, model, identity);
    }

    /** The credential step of `Create`. With a system identifier the
        account is looked up: gone gives 410, an unsupported platform gives
        501, and a found account overwrites the row's name and system
        identifier. Otherwise the password is set as `TrySetPassword` says. */
    method ResolveCredential(dbUser: User, model: UserUpdate, identity: SystemIdentityLookup)
      returns (fail: Option<Response>)
      requires model.systemIdentifier.None? ==> model.password.Some?
      modifies dbUser, crypto
      ensures dbUser.createdBy == old(dbUser.createdBy)
      ensures model.systemIdentifier.Some? ==>
                && crypto.passwordSets == old(crypto.passwordSets)
                && (identity.Absent? ==> fail == Some(Gone))
                && (identity.Unsupported? ==> fail == Some(NotImplemented))
                && (identity.Found? ==> fail.None? && dbUser.Record() == old(dbUser.Record()).(
                      name := Some(identity.identity.username), systemIdentifier := Some(identity.identity.uid)))
      ensures model.systemIdentifier.None? ==>
                if Utf16Length(model.password.value) < minimumPasswordLength
                then fail == Some(BadRequest(PasswordTooShort(minimumPasswordLength)))
                     && crypto.passwordSets == old(crypto.passwordSets)
                else fail.None? && dbUser.Record() == old(dbUser.Record()).(passwordHash := model.password)
                     && crypto.passwordSets == old(crypto.passwordSets) + [(dbUser, model.password.value)]
    {
      if model.systemIdentifier.Some? {
        match identity
        case Absent =>
          return Some(Gone);
        case Unsupported =>
          return Some(NotImplemented);
        case Found(sysIdentity) =>
          dbUser.name := Some(sysIdentity.username);
          dbUser.systemIdentifier := Some(sysIdentity.uid);
          fail := None;
      } else {
        fail := TrySetPassword(dbUser, model.password.value);
      }
    }

    /** The row `Create` builds from the request: requested or default
        rights and enabled flag, the creation time, the caller as creator. */
    method NewUserRow(model: UserUpdate, name: Option<string>, createdAt: int) returns (dbUser: User)
      ensures fresh(dbUser)
      ensures dbUser.Record() == UserRecord(0, name, None, model.systemIdentifier, None,
                                            model.administrationRights.GetOr(NoRights),
                                            model.instanceManagerRights.GetOr(NoRights),
                                            model.enabled.GetOr(false), createdAt)
      ensures dbUser.createdBy == auth.user
    {
      dbUser := new User();
      dbUser.administrationRights := model.administrationRights.GetOr(NoRights);
      dbUser.createdAt := createdAt;
      dbUser.createdBy := auth.user;
      dbUser.enabled := model.enabled.GetOr(false);
      dbUser.instanceManagerRights := model.instanceManagerRights.GetOr(NoRights);
      dbUser.name := name;
      dbUser.systemIdentifier := model.systemIdentifier;
    }

    /** The end of `Create`: the canonical name is the upper-cased name, the
        row is added under the next id, the table is committed, and the
        answer is 201 with the stored row. */
    method StoreUser(dbUser: User) returns (res: Response)
      requires Valid()
      requires dbUser.name.Some? && dbUser.createdBy == auth.user
      requires forall id :: id in db.users ==> db.users[id] != dbUser
      modifies db, dbUser
      ensures Valid()
      ensures dbUser.Record() == old(dbUser.Record()).(id := old(db.nextId), canonicalName := Some(Upper(old(dbUser.name.value))))
      ensures dbUser.createdBy == old(dbUser.createdBy)
      ensures old(db.nextId) !in old(db.users) && db.users == old(db.users)[old(db.nextId) := dbUser]
      ensures db.saves == old(db.saves) + 1
      ensures res == Created(View(dbUser))
    {
      dbUser.canonicalName := Some(Upper(dbUser.name.value));
      db.Add(dbUser);
      db.Save();
      res := Created(View(dbUser));
    }

    /** The checks and changes `Update` makes to the row it targets, up to
        and including the commit: the row ends as `ApplyUpdate` says, the
        password is set when `PasswordWritten` holds, and the changes are
        committed only when every check passes. */
    method UpdateRow(originalUser: User, model: UserUpdate) returns (step: UpdateStep)
      modifies originalUser, crypto, db`saves
      ensures var r := ApplyUpdate(old(originalUser.Record()), model, minimumPasswordLength);
        step == r.0 && originalUser.Record() == r.1
      ensures originalUser.createdBy == old(originalUser.createdBy)
      ensures crypto.passwordSets == old(crypto.passwordSets) +
                (if PasswordWritten(model, old(originalUser.Record()), minimumPasswordLength)
                 then [(originalUser, model.password.value)] else [])
      ensures db.saves == old(db.saves) + (if step == Applied then 1 else 0)
    {
      ghost var before := originalUser.Record();
      var fail := CheckSystemIdentifierAndSetPassword(originalUser, model);
      if fail.Some? {
        return Rejected(fail.value);
      }
      assert originalUser.Record() == if model.password.Some? then before.(passwordHash := model.password) else before;
      step := UpdateFields(originalUser, model);
    }

    /** The first two checks of `Update`: the system identifier must not
        change, and a new password must be long enough, in which case it is
        set. */
    method CheckSystemIdentifierAndSetPassword(originalUser: User, model: UserUpdate) returns (fail: Option<Response>)
      modifies originalUser, crypto
      ensures var u := old(originalUser.Record());
        && (fail.Some? <==> !KeepsSystemIdentifier(model, u) || !PasswordLongEnough(model, minimumPasswordLength))
        && (fail.Some? ==> Rejected(fail.value) == ApplyUpdate(u, model, minimumPasswordLength).0 && originalUser.Record() == u)
        && (fail.None? ==> originalUser.Record() == if model.password.Some? then u.(passwordHash := model.password) else u)
        && crypto.passwordSets == old(crypto.passwordSets) +
             (if PasswordWritten(model, u, minimumPasswordLength) then [(originalUser, model.password.value)] else [])
      ensures originalUser.createdBy == old(originalUser.createdBy)
    {
      if model.systemIdentifier.Some? && model.systemIdentifier != originalUser.systemIdentifier {
        return Some(BadRequest(SystemIdentifierChange));
      }

      if model.password.Some? {
        var result := TrySetPassword(originalUser, model.password.value);
        if result.Some? {
          return result;
        }
      }
      fail := None;
    }

    /** The remaining checks and changes of `Update`: only capitalization of
        the name may change, then rights and enabled are taken over, then a
        name with a colon is refused, then the name is taken over and the
        changes are committed. */
    method UpdateFields(originalUser: User, model: UserUpdate) returns (step: UpdateStep)
      modifies originalUser, db`saves
      ensures var u := old(originalUser.Record());
        var withRights := u.(instanceManagerRights := model.instanceManagerRights.GetOr(u.instanceManagerRights),
                             administrationRights := model.administrationRights.GetOr(u.administrationRights),
                             enabled := model.enabled.GetOr(u.enabled));
        if !ChangesOnlyCapitalization(model, u) then step == Rejected(BadRequest(NameChange)) && originalUser.Record() == u
        else if CheckValidName(model).Some? then
          step == Rejected(CheckValidName(model).value) && originalUser.Record() == withRights
        else step == Applied && originalUser.Record() == withRights.(name := if model.name.Some? then model.name else u.name)
      ensures originalUser.createdBy == old(originalUser.createdBy)
      ensures db.saves == old(db.saves) + (if step == Applied then 1 else 0)
    {
      if model.name.Some? && Some(Upper(model.name.value)) != originalUser.canonicalName {
        return Rejected(BadRequest(NameChange));
      }

      originalUser.instanceManagerRights := model.instanceManagerRights.GetOr(originalUser.instanceManagerRights);
      originalUser.administrationRights := model.administrationRights.GetOr(originalUser.administrationRights);
      originalUser.enabled := model.enabled.GetOr(originalUser.enabled);

      var fail := CheckValidName(model);
      if fail.Some? {
        return Rejected(fail.value);
      }

      originalUser.name := if model.name.Some? then model.name else originalUser.name;

      db.Save();
      step := Applied;
    }

    /** `Update` (requires WriteUsers or EditOwnPassword). Without
        WriteUsers it targets the caller's own row and refuses any change but
        the password. The target row goes through `UpdateRow`; no other row
        changes. The id-only answer is never given. */
    method Update(model: UserUpdate) returns (res: Response)
      requires Valid()
      requires HasAnyFlag(auth.GetRight(Administration), WriteUsers | EditOwnPassword)
      modifies db, crypto, db.users.Values
      ensures Valid()
      ensures db.users == old(db.users) && db.nextId == old(db.nextId)
      ensures forall id :: id in db.users ==> db.users[id].createdBy == old(db.users[id].createdBy)
      ensures !res.OkIdOnly?
      ensures var target := UpdateTarget(model, old(auth.user.administrationRights), auth.user.id);
        target !in db.users ==> res == NotFound
      ensures var rights := old(auth.user.administrationRights);
        var target := UpdateTarget(model, rights, auth.user.id);
        target in db.users && !HasFlag(rights, WriteUsers) && SelfServiceOverreach(model, target) ==> res == Forbidden
      ensures var rights := old(auth.user.administrationRights);
        var target := UpdateTarget(model, rights, auth.user.id);
        target !in db.users || (!HasFlag(rights, WriteUsers) && SelfServiceOverreach(model, target)) ==>
          && db.saves == old(db.saves) && crypto.passwordSets == old(crypto.passwordSets)
          && forall id :: id in db.users ==> db.users[id].Record() == old(db.users[id].Record())
      ensures var rights := old(auth.user.administrationRights);
        var target := UpdateTarget(model, rights, auth.user.id);
        target in db.users && !(!HasFlag(rights, WriteUsers) && SelfServiceOverreach(model, target)) ==>
          var u := db.users[target];
          var step := ApplyUpdate(old(u.Record()), model, minimumPasswordLength);
          && u.Record() == step.1
          && (forall id :: id in db.users && id != target ==> db.users[id].Record() == old(db.users[id].Record()))
          && crypto.passwordSets == old(crypto.passwordSets) +
               (if PasswordWritten(model, old(u.Record()), minimumPasswordLength) then [(u, model.password.value)] else [])
          && (step.0 == Applied ==> res == Ok(View(u)) && db.saves == old(db.saves) + 1)
          && (step.0.Rejected? ==> res == step.0.response && db.saves == old(db.saves))
    {
      var callerAdministrationRights := auth.GetRight(Administration);
      var passwordEditOnly := !HasFlag(callerAdministrationRights, WriteUsers);

      var originalUser: User;
      if passwordEditOnly {
        originalUser := auth.user;
      } else {
        if model.id !in db.users {
          return NotFound;
        }
        originalUser := db.users[model.id];
      }

      // without WriteUsers only the password may change (a system
      // identifier change is refused by the row checks)
      var originalId := originalUser.id;
      if passwordEditOnly && SelfServiceOverreach(model, originalId) {
        return Forbidden;
      }

      var step := UpdateRow(originalUser, model);
      if step.Rejected? {
        return step.response;
      }

      // the reduced answer is for another user's update by a caller who
      // cannot read users
      if model.id == originalId || HasFlag(callerAdministrationRights, ReadUsers) {
        res := Ok(View(originalUser));
      } else {
        res := OkIdOnly(originalId);
      }
    }

    /** `Read`: the caller's own profile, whatever their rights. */
    function Read(): (r: Response)
      reads auth.user, auth.user.createdBy
      ensures r.Ok? && r.user.id == auth.user.id && r.user == View(auth.user)
    {
      Ok(View(auth.user))
    }

    /** `List` (requires ReadUsers): one entry for each row of the table,
        showing that row. */
    function List(): (r: Response)
      requires Valid()
      requires HasAnyFlag(auth.GetRight(Administration), ReadUsers)
      reads db, db.users.Values, auth.user, auth.instanceUser
      ensures r.OkList?
      ensures forall id :: id in db.users ==> View(db.users[id]) in r.users
      ensures forall v :: v in r.users ==> v.id in db.users && v == View(db.users[v.id])
    {
      OkList(set id | id in db.users :: View(db.users[id]))
    }

    /** `GetId`: the caller's own id is answered as `Read`, whatever their
        rights; any other id needs ReadUsers, and an id with no row is not
        found. */
    function GetId(id: int): (r: Response)
      requires Valid()
      reads db, db.users.Values, auth.user, auth.instanceUser
      ensures id == auth.user.id ==> r == Read()
      ensures id != auth.user.id && !HasFlag(auth.GetRight(Administration), ReadUsers) ==> r == Forbidden
      ensures id != auth.user.id && HasFlag(auth.GetRight(Administration), ReadUsers) ==>
                r == if id in db.users then Ok(View(db.users[id])) else NotFound
    {
      if id == auth.user.id then Read()
      else if !HasFlag(auth.GetRight(Administration), ReadUsers) then Forbidden
      else if id !in db.users then NotFound
      else Ok(View(db.users[id]))
    }

    /** Whenever `GetId` answers, its answer is the row the table holds for
        that id: the shortcut for the caller's own id shows the same row a
        reader of users would see. */
    lemma GetIdShowsTableRow(id: int)
      requires Valid()
      ensures GetId(id) != Forbidden ==> GetId(id) == if id in db.users then Ok(View(db.users[id])) else NotFound
    {
    }
  }

  // ---- consequences of the decisions, for particular requests ----

  /** Once an update gets past the target choice and the self-service
      check, the row it works on is the one the request names: the
      condition that picks the full answer after the commit always holds. */
  lemma UpdateTargetIsRequestedId(model: UserUpdate, callerRights: Mask, callerId: int)
    requires HasFlag(callerRights, WriteUsers) || !SelfServiceOverreach(model, UpdateTarget(model, callerRights, callerId))
    ensures UpdateTarget(model, callerRights, callerId) == model.id
  {
  }

  /** On a row whose canonical name has no colon, a name that passes the
      capitalization check has none either, so the colon check after it
      cannot refuse. Every row `Create` stores has such a canonical name. */
  lemma CapitalizationCheckExcludesColon(model: UserUpdate, u: UserRecord)
    requires u.canonicalName.Some? && ':' !in u.canonicalName.value
    requires ChangesOnlyCapitalization(model, u)
    ensures CheckValidName(model).None?
  {
    if model.name.Some? {
      UpperKeepsColons(model.name.value);
    }
  }

  /** An update that gives a password to a system-identifier account is
      applied, and the account then holds both credentials: the update path
      does not keep the one-credential rule that create establishes. */
  lemma UpdateCanGiveSystemUserPassword(u: UserRecord, model: UserUpdate, minimumPasswordLength: nat)
    requires u.HasOneCredential() && u.systemIdentifier.Some?
    requires model.systemIdentifier.None? && model.password.Some?
    requires Utf16Length(model.password.value) >= minimumPasswordLength
    requires ChangesOnlyCapitalization(model, u) && CheckValidName(model).None?
    ensures var r := ApplyUpdate(u, model, minimumPasswordLength);
      r.0 == Applied && r.1.systemIdentifier == u.systemIdentifier && r.1.passwordHash == model.password
      && !r.1.HasOneCredential()
  {
  }

  /** A request that only changes the capitalization of the stored name is
      applied and renames the account. */
  lemma CapitalizationChangeApplies()
    ensures var u := UserRecord(2, Some("alice"), Some("ALICE"), None, Some("secret"), 0, 0, true, 0);
      var model := UserUpdate(2, Some("Alice"), None, None, None, None, None);
      ApplyUpdate(u, model, 6) == (Applied, u.(name := Some("Alice")))
  {
    assert Upper("Alice") == "ALICE" by {
      assert UpperChar('A') == 'A' && UpperChar('l') == 'L' && UpperChar('i') == 'I';
      assert UpperChar('c') == 'C' && UpperChar('e') == 'E';
    }
  }

  /** Renaming an account to another name is refused, and the row keeps
      its name. */
  lemma RenameRefused()
    ensures var u := UserRecord(2, Some("alice"), Some("ALICE"), None, Some("secret"), 0, 0, true, 0);
      var model := UserUpdate(2, Some("bob"), None, None, None, None, None);
      ApplyUpdate(u, model, 6) == (Rejected(BadRequest(NameChange)), u)
  {
    var bob := Upper("bob");
    assert bob[0] == 'B';
  }

  /** Creating an account for a system identifier whose account cannot be
      found gives 410, whatever else the request says. */
  lemma CreateForMissingAccountIsGone(model: UserUpdate, minimumPasswordLength: nat)
    requires model.systemIdentifier.Some? && model.password.None?
    requires model.name.None? || forall i :: 0 <= i < |model.name.value| ==> IsWhiteSpace(model.name.value[i])
    ensures PlanCreate(model, Absent, minimumPasswordLength) == Reject(Gone)
  {
  }

  /** A password request with a name that is only white space has no name,
      and is refused before any password is looked at. */
  lemma BlankNameRefused(model: UserUpdate, minimumPasswordLength: nat, identity: SystemIdentityLookup)
    requires model.password.Some? && model.systemIdentifier.None?
    requires model.name.Some? && forall i :: 0 <= i < |model.name.value| ==> IsWhiteSpace(model.name.value[i])
    ensures PlanCreate(model, identity, minimumPasswordLength) == Reject(BadRequest(NameMismatch))
  {
  }
}
