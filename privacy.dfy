/** The four privacy levels a workout, its map or a comment text can have. */
module Privacy {

  datatype PrivacyLevel = Private | Followers | FollowersAndRemote | Public

  /**
   * The enum's string value, as shown in error messages. The enum definition
   * (privacy_levels.py) is not part of this model; these are its values.
   */
  function LevelValue(level: PrivacyLevel): (v: string)
    ensures v != ""
  {
    match level
    case Private => "private"
    case Followers => "followers_only"
    case FollowersAndRemote => "followers_and_remote_only"
    case Public => "public"
  }

  /** The levels that never leave the local instance. */
  predicate LocalOnly(level: PrivacyLevel) {
    level == Private || level == Followers
  }
}
