/** The stored user and instance-user records and the user payload the API
    returns. */
module Models {
  import opened Wrappers
  import opened Rights

  /** A user row. Tracked rows are shared by reference: a change made
      through one reference is seen through every other. */
  class User {
    var id: int
    var name: Option<string>
    /** The upper-cased name, the uniqueness key of the user table. */
    var canonicalName: Option<string>
    var systemIdentifier: Option<string>
    /** `Some(p)` stands for the salt and hash derived from plaintext `p`. */
    var passwordHash: Option<string>
    var administrationRights: Mask
    var instanceManagerRights: Mask
    var enabled: bool
    var createdAt: int
    var createdBy: User?

    /** `new User()`: every field at its default. */
    constructor ()
      ensures Record() == UserRecord(0, None, None, None, None, NoRights, NoRights, false, 0)
      ensures createdBy == null
    {
      id, name, canonicalName, systemIdentifier, passwordHash := 0, None, None, None, None;
      administrationRights, instanceManagerRights, enabled, createdAt := NoRights, NoRights, false, 0;
      createdBy := null;
    }

    /** The field values of the row, apart from the creator reference. */
    function Record(): UserRecord
      reads this
    {
      UserRecord(id, name, canonicalName, systemIdentifier, passwordHash,
                 administrationRights, instanceManagerRights, enabled, createdAt)
    }
  }

  /** A snapshot of the value fields of a `User`. */
  datatype UserRecord = UserRecord(
    id: int,
    name: Option<string>,
    canonicalName: Option<string>,
    systemIdentifier: Option<string>,
    passwordHash: Option<string>,
    administrationRights: Mask,
    instanceManagerRights: Mask,
    enabled: bool,
    createdAt: int)
  {
    /** The account has exactly one of a password or a system identifier. */
    predicate HasOneCredential() {
      passwordHash.Some? != systemIdentifier.Some?
    }
  }

  /** A grant of per-instance rights to a user, one mask per category. */
  class InstanceUser {
    var repositoryRights: Mask
    var byondRights: Mask
    var dreamMakerRights: Mask
    var dreamDaemonRights: Mask
    var chatBotRights: Mask
    var configurationRights: Mask
    var instanceUserRights: Mask

    /** `new InstanceUser()`: no rights in any category. */
    constructor ()
      ensures repositoryRights == byondRights == dreamMakerRights == dreamDaemonRights == NoRights
      ensures chatBotRights == configurationRights == instanceUserRights == NoRights
    {
      repositoryRights, byondRights, dreamMakerRights, dreamDaemonRights := NoRights, NoRights, NoRights, NoRights;
      chatBotRights, configurationRights, instanceUserRights := NoRights, NoRights, NoRights;
    }
  }

  /** The user payload of a response. The password is write-only and never
      part of it. */
  datatype UserView = UserView(
    id: int,
    name: Option<string>,
    systemIdentifier: Option<string>,
    enabled: bool,
    administrationRights: Mask,
    instanceManagerRights: Mask,
    createdAt: int,
    createdBy: Option<UserView>)

  /** `ToApi(false)`: the user without its creator. */
  function Summary(u: User): (v: UserView)
    reads u
    ensures v.id == u.id && v.name == u.name && v.createdBy.None?
  {
    UserView(u.id, u.name, u.systemIdentifier, u.enabled, u.administrationRights,
             u.instanceManagerRights, u.createdAt, None)
  }

  /** `ToApi(true)`: the user with a summary of its creator. */
  function View(u: User): (v: UserView)
    reads u, u.createdBy
    ensures v.id == u.id && v.name == u.name && v.systemIdentifier == u.systemIdentifier
    ensures v.enabled == u.enabled && v.createdAt == u.createdAt
    ensures v.administrationRights == u.administrationRights && v.instanceManagerRights == u.instanceManagerRights
    ensures v.createdBy.Some? <==> u.createdBy != null
    ensures u.createdBy != null ==> v.createdBy == Some(Summary(u.createdBy))
  {
    Summary(u).(createdBy := if u.createdBy == null then None else Some(Summary(u.createdBy)))
  }
}
