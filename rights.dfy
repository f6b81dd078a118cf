/** Rights bitmasks and their categories. */
module Rights {

  /** A rights bitmask (an unsigned 64-bit value in the wire format). */
  type Mask = bv64

  /** Flags of the administration category. Only their distinctness
      matters to the controller. */
  const NoRights: Mask := 0
  const WriteUsers: Mask := 1
  const EditOwnPassword: Mask := 8
  const ReadUsers: Mask := 16

  /** Flags of the BYOND category, as used by the authentication tests. */
  const ByondReadActive: Mask := 1
  const ByondChangeVersion: Mask := 4

  /** `Enum.HasFlag`: every bit of `flag` is set in `value`. */
  predicate HasFlag(value: Mask, flag: Mask) {
    value & flag == flag
  }

  /** An authorisation attribute naming several flags admits a caller who
      holds any one of them. */
  predicate HasAnyFlag(value: Mask, flags: Mask) {
    value & flags != 0
  }

  /** The rights categories. The first two are global and live on the user;
      the rest are per instance and live on the instance user. */
  datatype RightsType =
    | Administration
    | InstanceManager
    | Repository
    | Byond
    | DreamMaker
    | DreamDaemon
    | ChatBots
    | Configuration
    | InstanceUser
  {
    predicate IsInstanceRight() {
      !(this == Administration || this == InstanceManager)
    }
  }
}
