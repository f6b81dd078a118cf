/** The per-request authentication context and the two security
    collaborators of the user workflow: the system-identity lookup and the
    cryptography suite. */
module Security {
  import opened Wrappers
  import opened Rights
  import opened Models

  /** A verified operating-system account. */
  datatype SystemIdentity = SystemIdentity(username: string, uid: string)

  /** What the system-identity factory gives for a system identifier: the
      account is gone, the platform has no system accounts (the factory
      throws `NotImplementedException`), or the account was found. */
  datatype SystemIdentityLookup = Absent | Unsupported | Found(identity: SystemIdentity)

  /** The `ArgumentNullException` the context constructor throws. */
  datatype ContextError = ArgumentNull(paramName: string)

  /** The checks of the `AuthenticationContext` constructor: a user is
      required, and a user with a system identifier needs a system identity.
      A system identity beside a user without one is accepted. */
  function ConstructionError(systemIdentity: Option<SystemIdentity>, user: User?,
                             instanceUser: InstanceUser?): (r: Option<ContextError>)
    reads user
    ensures user == null ==> r == Some(ArgumentNull("user"))
    ensures user != null ==> (r.None? <==> user.systemIdentifier.None? || systemIdentity.Some?)
    ensures r.Some? ==> r.value.paramName in {"user", "systemIdentity"}
  {
    if user == null then Some(ArgumentNull("user"))
    else if systemIdentity.None? && user.systemIdentifier.Some? then Some(ArgumentNull("systemIdentity"))
    else None
  }

  /** Who is making the request. The context holds references: the
      rights it reports are those the user and instance user hold now. */
  class AuthenticationContext {
    const systemIdentity: Option<SystemIdentity>
    const user: User
    const instanceUser: InstanceUser?

    constructor (systemIdentity: Option<SystemIdentity>, user: User, instanceUser: InstanceUser?)
      requires ConstructionError(systemIdentity, user, instanceUser).None?
      ensures this.systemIdentity == systemIdentity && this.user == user && this.instanceUser == instanceUser
    {
      this.systemIdentity := systemIdentity;
      this.user := user;
      this.instanceUser := instanceUser;
    }

    /** The mask of one rights category: the global categories from the
        user, the instance categories from the instance user, and no rights
        in an instance category when no instance user is bound. */
    function GetRight(rightsType: RightsType): (r: Mask)
      reads user, instanceUser
      ensures rightsType == Administration ==> r == user.administrationRights
      ensures rightsType == InstanceManager ==> r == user.instanceManagerRights
      ensures rightsType.IsInstanceRight() && instanceUser == null ==> r == NoRights
      ensures rightsType == Byond && instanceUser != null ==> r == instanceUser.byondRights
      ensures rightsType == Repository && instanceUser != null ==> r == instanceUser.repositoryRights
      ensures rightsType == DreamMaker && instanceUser != null ==> r == instanceUser.dreamMakerRights
      ensures rightsType == DreamDaemon && instanceUser != null ==> r == instanceUser.dreamDaemonRights
      ensures rightsType == ChatBots && instanceUser != null ==> r == instanceUser.chatBotRights
      ensures rightsType == Configuration && instanceUser != null ==> r == instanceUser.configurationRights
      ensures rightsType == InstanceUser && instanceUser != null ==> r == instanceUser.instanceUserRights
    {
      match rightsType
      case Administration => user.administrationRights
      case InstanceManager => user.instanceManagerRights
      case Repository => if instanceUser == null then NoRights else instanceUser.repositoryRights
      case Byond => if instanceUser == null then NoRights else instanceUser.byondRights
      case DreamMaker => if instanceUser == null then NoRights else instanceUser.dreamMakerRights
      case DreamDaemon => if instanceUser == null then NoRights else instanceUser.dreamDaemonRights
      case ChatBots => if instanceUser == null then NoRights else instanceUser.chatBotRights
      case Configuration => if instanceUser == null then NoRights else instanceUser.configurationRights
      case InstanceUser => if instanceUser == null then NoRights else instanceUser.instanceUserRights
    }
  }

  /** The construction cases the context tests pin down. Each result is
      whether that combination of arguments is accepted. */
  method ConstructionCases() returns (nothing: bool, identityOnly: bool, instanceOnly: bool,
                                      identityAndInstance: bool, plainUser: bool,
                                      plainUserWithIdentity: bool, plainUserWithInstance: bool,
                                      plainUserWithBoth: bool, systemUserWithoutIdentity: bool)
    ensures !nothing && !identityOnly && !instanceOnly && !identityAndInstance
    ensures plainUser && plainUserWithIdentity && plainUserWithInstance && plainUserWithBoth
    ensures !systemUserWithoutIdentity
  {
    var identity := Some(SystemIdentity("root", "0"));
    var user := new User();
    var instanceUser := new InstanceUser();
    nothing := ConstructionError(None, null, null).None?;
    plainUser := ConstructionError(None, user, null).None?;
    identityOnly := ConstructionError(identity, null, null).None?;
    instanceOnly := ConstructionError(None, null, instanceUser).None?;
    identityAndInstance := ConstructionError(identity, null, instanceUser).None?;
    plainUserWithIdentity := ConstructionError(identity, user, null).None?;
    plainUserWithInstance := ConstructionError(None, user, instanceUser).None?;
    plainUserWithBoth := ConstructionError(identity, user, instanceUser).None?;
    user.systemIdentifier := Some("root");
    systemUserWithoutIdentity := ConstructionError(None, user, null).None?;
  }

  /** Rights granted after the context is built are the ones it reports. */
  method RightsReadLive() returns (administration: Mask, byond: Mask)
    ensures administration == WriteUsers
    ensures byond == ByondChangeVersion | ByondReadActive
  {
    var user := new User();
    var instanceUser := new InstanceUser();
    var context := new AuthenticationContext(None, user, instanceUser);
    user.administrationRights := WriteUsers;
    instanceUser.byondRights := ByondChangeVersion | ByondReadActive;
    administration := context.GetRight(Administration);
    byond := context.GetRight(Byond);
  }

  /** The password part of the cryptography suite. Hashing is not modelled:
      setting a password records the plaintext it was derived from, and the
      suite keeps a log of its calls. */
  class CryptographySuite {
    var passwordSets: seq<(User, string)>

    constructor ()
      ensures passwordSets == []
    {
      passwordSets := [];
    }

    /** `SetUserPassword`: the user's credential becomes the one derived from
        `newPassword`; nothing else about the user changes. */
    method SetUserPassword(user: User, newPassword: string)
      modifies this, user
      ensures user.Record() == old(user.Record()).(passwordHash := Some(newPassword))
      ensures user.createdBy == old(user.createdBy)
      ensures passwordSets == old(passwordSets) + [(user, newPassword)]
    {
      user.passwordHash := Some(newPassword);
      passwordSets := passwordSets + [(user, newPassword)];
    }
  }
}
