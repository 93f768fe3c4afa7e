/**
 * The Delete activity sent when a local workout or comment is deleted
 * (federation/objects/tombstone.py): which deletions may leave the instance
 * at all, and to whom the activity is addressed.
 */
module Tombstone {
  import opened Wrappers
  import opened Errors
  import opened Privacy
  import opened Lists

  /**
   * The special collection that addresses everyone (section 5.6 of the
   * W3C ActivityPub recommendation).
   */
  const PublicStream: string := "https://www.w3.org/ns/activitystreams#Public"

  /** The deleting user's actor: its activitypub_id and followers collection URL. */
  datatype Owner = Owner(activityPubId: string, followersUrl: string)

  /**
   * The object being deleted. For a comment, `localMentions` and
   * `remoteMentions` are the activitypub_ids of the users handle_mentions
   * finds, and `hasRemoteMentions` is the comment's own flag.
   */
  datatype Deleted =
    | DeletedWorkout(apId: string, owner: Owner, workoutVisibility: PrivacyLevel)
    | DeletedComment(apId: string, owner: Owner, textVisibility: PrivacyLevel,
                     hasRemoteMentions: bool, localMentions: seq<string>, remoteMentions: seq<string>)

  /** A TombstoneObject that passed construction, with the visibility it settled on. */
  datatype TombstoneObject = TombstoneObject(deleted: Deleted, visibility: PrivacyLevel)
  {
    /**
     * What construction guarantees: the visibility is the deleted object's
     * own, and a local-only one belongs to a comment with remote mentions.
     */
    predicate Valid() {
      && visibility == ObjectVisibility(deleted)
      && (LocalOnly(visibility) ==> deleted.DeletedComment? && deleted.hasRemoteMentions)
    }
  }

  /** The message of the InvalidVisibilityException for `level`. */
  function InvalidVisibilityMessage(level: PrivacyLevel): string {
    "object visibility is: '" + LevelValue(level) + "'"
  }

  /** _get_object_visibility: a comment is governed by its text visibility, a workout by its workout visibility. */
  function ObjectVisibility(d: Deleted): (r: PrivacyLevel)
    ensures d.DeletedComment? ==> r == d.textVisibility
    ensures d.DeletedWorkout? ==> r == d.workoutVisibility
  {
    match d
    case DeletedComment(_, _, text, _, _, _) => text
    case DeletedWorkout(_, _, workout) => workout
  }

  /**
   * TombstoneObject.__init__: refuse an object whose governing visibility
   * is private or followers-only, unless it is a comment with remote
   * mentions.
   */
  function New(d: Deleted): (r: Result<TombstoneObject, Error>)
    ensures r.Ok? <==> (ObjectVisibility(d) == Public || ObjectVisibility(d) == FollowersAndRemote
                        || (d.DeletedComment? && d.hasRemoteMentions))
    ensures r.Err? ==> r.error == InvalidVisibility(InvalidVisibilityMessage(ObjectVisibility(d)))
    ensures r.Err? ==> ObjectVisibility(d) == Private || ObjectVisibility(d) == Followers
    ensures r.Ok? ==> r.value.deleted == d && r.value.Valid()
    ensures r.Ok? && d.DeletedComment? ==> r.value.visibility == d.textVisibility
    ensures r.Ok? && d.DeletedWorkout? ==> r.value.visibility == d.workoutVisibility
  {
    var visibility := ObjectVisibility(d);
    if LocalOnly(visibility) && (!d.DeletedComment? || (d.DeletedComment? && !d.hasRemoteMentions)) then
      Err(InvalidVisibility(InvalidVisibilityMessage(visibility)))
    else
      Ok(TombstoneObject(d, visibility))
  }

  /** The Delete activity get_activity builds, without its JSON-LD context. */
  datatype DeleteActivity = DeleteActivity(
    id: string,
    kind: string,
    actor: string,
    objectType: string,
    objectId: string,
    to: seq<string>,
    cc: seq<string>)

  /** The activitypub_ids of the users a comment mentions, local and remote, each once. */
  function Mentions(d: Deleted): (r: seq<string>)
    ensures NoDuplicates(r)
    ensures d.DeletedComment? ==> forall x :: x in r <==> x in d.localMentions || x in d.remoteMentions
    ensures d.DeletedWorkout? ==> r == []
  {
    match d
    case DeletedWorkout(_, _, _) => []
    case DeletedComment(_, _, _, _, local, remote) =>
      var r := Dedup(local + remote);
      assert forall x :: x in local + remote <==> x in local || x in remote;
      assert forall x :: x in r <==> x in local + remote by {
        forall x ensures x in r <==> x in local + remote {
          if x in r {
            var i :| 0 <= i < |r| && r[i] == x;
          }
          if x in local + remote {
            var i :| 0 <= i < |local + remote| && (local + remote)[i] == x;
          }
        }
      }
      r
  }

  /**
   * get_activity: id `<ap_id>/delete`, type Delete, the owner's actor, a
   * Tombstone object; addressed to the public stream with the followers in
   * copy when public, to the mentioned users when local-only, and to the
   * followers otherwise.
   */
  function GetActivity(t: TombstoneObject): (r: DeleteActivity)
    requires t.Valid()
    ensures r.id == t.deleted.apId + "/delete"
    ensures r.kind == "Delete" && r.actor == t.deleted.owner.activityPubId
    ensures r.objectType == "Tombstone" && r.objectId == t.deleted.apId
    ensures t.visibility == Public ==> r.to == [PublicStream] && r.cc == [t.deleted.owner.followersUrl]
    ensures t.visibility == FollowersAndRemote ==> r.to == [t.deleted.owner.followersUrl] && r.cc == []
    ensures LocalOnly(t.visibility) ==>
              && r.cc == [] && NoDuplicates(r.to)
              && forall x :: x in r.to <==> x in t.deleted.localMentions || x in t.deleted.remoteMentions
  {
    var d := t.deleted;
    var (to, cc) :=
      if t.visibility == Public then ([PublicStream], [d.owner.followersUrl])
      else if LocalOnly(t.visibility) then (Mentions(d), [])
      else ([d.owner.followersUrl], []);
    DeleteActivity(d.apId + "/delete", "Delete", d.owner.activityPubId, "Tombstone", d.apId, to, cc)
  }

  /**
   * A deleted workout is never addressed to mentioned users: either it may
   * not leave the instance, or its Delete goes to the public stream or to
   * the followers collection.
   */
  lemma WorkoutTombstoneAddressing(apId: string, owner: Owner, level: PrivacyLevel)
    ensures var r := New(DeletedWorkout(apId, owner, level));
            && (r.Err? <==> LocalOnly(level))
            && (r.Ok? ==> GetActivity(r.value).to in {[PublicStream], [owner.followersUrl]})
  {
  }

  /**
   * Whatever object is deleted, the public stream is addressed exactly when
   * it is public, provided neither the followers collection nor a mentioned
   * user is the public stream itself.
   */
  lemma PublicStreamOnlyWhenPublic(d: Deleted)
    requires New(d).Ok? && d.owner.followersUrl != PublicStream
    requires d.DeletedComment? ==> PublicStream !in d.localMentions && PublicStream !in d.remoteMentions
    ensures var a := GetActivity(New(d).value);
            (PublicStream in a.to + a.cc) <==> ObjectVisibility(d) == Public
  {
  }
}
