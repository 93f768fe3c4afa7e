/**
 * Who may see a workout or its map (can_view_workout,
 * get_workout_user_status) and the access gate of get_workout. Their code is
 * not part of this model; the decision table below is the one the workout
 * tests assert case by case.
 */
module Visibility {
  import opened Wrappers
  import opened Errors
  import opened Privacy
  import FollowGraph

  /** How the viewer stands to the workout's owner: 'owner', 'follower' or 'other'. */
  datatype Relation = Owner | Follower | Other

  /** The visibility field a decision is about: the workout itself or its map. */
  datatype Field = WorkoutVisibility | MapVisibility

  /** A workout as far as visibility goes: its owner's activitypub_id and its two levels. */
  datatype WorkoutPrivacy = WorkoutPrivacy(owner: string, workoutVisibility: PrivacyLevel, mapVisibility: PrivacyLevel)

  /** The level of the field being judged. */
  function LevelOf(w: WorkoutPrivacy, f: Field): PrivacyLevel {
    match f
    case WorkoutVisibility => w.workoutVisibility
    case MapVisibility => w.mapVisibility
  }

  /** The relation of `viewer` (None: not authenticated) to the owner, whatever the level. */
  function RelationOf(w: WorkoutPrivacy, viewer: Option<string>, g: FollowGraph.Graph): Relation {
    if viewer == Some(w.owner) then Owner
    else if viewer.Some? && FollowGraph.IsApprovedFollower(g, viewer.value, w.owner) then Follower
    else Other
  }

  /**
   * can_view_workout: the owner always sees; nobody else sees a private
   * field; an approved follower sees a followers-only or followers-and-remote
   * field; everybody sees a public one.
   */
  function CanViewWorkout(w: WorkoutPrivacy, f: Field, viewer: Option<string>, g: FollowGraph.Graph)
    : (r: (bool, Relation))
    ensures r.1 == Owner <==> viewer == Some(w.owner)
    ensures r.1 == Follower <==>
              viewer.Some? && viewer.value != w.owner && FollowGraph.IsApprovedFollower(g, viewer.value, w.owner)
    ensures r.0 <==> (|| r.1 == Owner
                      || LevelOf(w, f) == Public
                      || (r.1 == Follower && LevelOf(w, f) in {Followers, FollowersAndRemote}))
    ensures LevelOf(w, f) == Private ==> (r.0 <==> r.1 == Owner)
  {
    var relation := RelationOf(w, viewer, g);
    var visible :=
      match relation
      case Owner => true
      case Follower => LevelOf(w, f) != Private
      case Other => LevelOf(w, f) == Public;
    (visible, relation)
  }

  /** get_workout_user_status: the relation can_view_workout computes for the workout field. */
  function GetWorkoutUserStatus(w: WorkoutPrivacy, viewer: Option<string>, g: FollowGraph.Graph): (r: Relation)
    ensures r == Owner <==> viewer == Some(w.owner)
    ensures r == CanViewWorkout(w, WorkoutVisibility, viewer, g).1
  {
    CanViewWorkout(w, WorkoutVisibility, viewer, g).1
  }

  /** An authenticated user: its activitypub_id and whether it has admin rights. */
  datatype Viewer = Viewer(id: string, isAdmin: bool)

  /**
   * The gate of get_workout: a viewer the owner blocks is refused, and
   * otherwise the viewer gets the workout exactly when can_view_workout lets
   * it see it. Admin rights grant nothing.
   */
  function GetWorkout(w: WorkoutPrivacy, viewer: Option<Viewer>, g: FollowGraph.Graph, blocks: set<(string, string)>)
    : (r: Result<WorkoutPrivacy, Error>)
    ensures r.Ok? ==> r.value == w
    ensures r.Err? ==> r.error == WorkoutForbidden
    ensures viewer.Some? && (w.owner, viewer.value.id) in blocks ==> r.Err?
    ensures r.Ok? <==>
              && !(viewer.Some? && (w.owner, viewer.value.id) in blocks)
              && CanViewWorkout(w, WorkoutVisibility, if viewer.Some? then Some(viewer.value.id) else None, g).0
  {
    if viewer.Some? && (w.owner, viewer.value.id) in blocks then Err(WorkoutForbidden)
    else
      var id := if viewer.Some? then Some(viewer.value.id) else None;
      if CanViewWorkout(w, WorkoutVisibility, id, g).0 then Ok(w) else Err(WorkoutForbidden)
  }

  /** Not authenticated is treated exactly like an authenticated user who neither owns nor follows. */
  lemma AnonymousIsStranger(w: WorkoutPrivacy, f: Field, g: FollowGraph.Graph, stranger: string)
    requires stranger != w.owner && !FollowGraph.IsApprovedFollower(g, stranger, w.owner)
    ensures CanViewWorkout(w, f, None, g) == CanViewWorkout(w, f, Some(stranger), g)
    ensures CanViewWorkout(w, f, None, g) == (LevelOf(w, f) == Public, Other)
  {
  }

  /** The map is judged by the same table as the workout, on its own level only. */
  lemma MapUsesSameTable(w: WorkoutPrivacy, viewer: Option<string>, g: FollowGraph.Graph, other: PrivacyLevel)
    ensures CanViewWorkout(w, MapVisibility, viewer, g)
              == CanViewWorkout(w.(workoutVisibility := w.mapVisibility), WorkoutVisibility, viewer, g)
    ensures CanViewWorkout(w, MapVisibility, viewer, g)
              == CanViewWorkout(w.(workoutVisibility := other), MapVisibility, viewer, g)
  {
  }

  /** The order of openness: private, followers only, followers and remote, public. */
  function Openness(level: PrivacyLevel): nat {
    match level
    case Private => 0
    case Followers => 1
    case FollowersAndRemote => 2
    case Public => 3
  }

  /** Opening a field never hides it from anyone who could see it. */
  lemma OpeningNeverHides(w: WorkoutPrivacy, f: Field, viewer: Option<string>, g: FollowGraph.Graph, level: PrivacyLevel)
    requires Openness(LevelOf(w, f)) <= Openness(level)
    requires CanViewWorkout(w, f, viewer, g).0
    ensures var w' := if f == WorkoutVisibility then w.(workoutVisibility := level) else w.(mapVisibility := level);
            CanViewWorkout(w', f, viewer, g).0
  {
  }

  /**
   * Approving a pending follow request makes the requester a follower, who
   * then sees every field that is not private.
   */
  lemma ApprovalGrantsFollowerView(w: WorkoutPrivacy, f: Field, viewer: string, g: FollowGraph.Graph)
    requires viewer != w.owner
    requires (viewer, w.owner) in g && g[(viewer, w.owner)] == FollowGraph.Pending
    ensures FollowGraph.Approve(g, viewer, w.owner).Ok?
    ensures var v := CanViewWorkout(w, f, Some(viewer), FollowGraph.Approve(g, viewer, w.owner).value);
            v.1 == Follower && (v.0 <==> LevelOf(w, f) != Private)
  {
  }

  /** Admin rights change nothing at the gate: an admin is refused a private or followers-only workout it does not own or follow. */
  lemma AdminGetsNoExtraAccess(w: WorkoutPrivacy, id: string, g: FollowGraph.Graph, blocks: set<(string, string)>)
    ensures GetWorkout(w, Some(Viewer(id, true)), g, blocks) == GetWorkout(w, Some(Viewer(id, false)), g, blocks)
    ensures id != w.owner && !FollowGraph.IsApprovedFollower(g, id, w.owner) && LocalOnly(w.workoutVisibility) ==>
              GetWorkout(w, Some(Viewer(id, true)), g, blocks) == Err(WorkoutForbidden)
  {
  }

  /** A viewer the owner blocks is refused even a public workout. */
  lemma BlockedRefusedEvenWhenPublic(w: WorkoutPrivacy, viewer: Viewer, g: FollowGraph.Graph, blocks: set<(string, string)>)
    requires w.workoutVisibility == Public && (w.owner, viewer.id) in blocks
    ensures GetWorkout(w, Some(viewer), g, blocks) == Err(WorkoutForbidden)
    ensures GetWorkout(w, None, g, blocks) == Ok(w)
  {
  }
}
