/**
 * The instance that receives activities, with its stores as fields that
 * the handlers update in place (actor provisioning, follow-graph changes,
 * workout insert, delete and field-by-field update). Each method does what
 * the handler of activities/activities.py does, step by step, and is proved
 * to end in the state, and raise the error, that the handler's function in
 * Activities gives.
 */
module Inbox {
  import opened Wrappers
  import opened Values
  import opened Errors
  import opened Records
  import FollowGraph
  import Activities

  class Instance {
    var domains: map<string, Domain>
    var actors: map<string, Actor>
    var follows: FollowGraph.Graph
    var workouts: map<string, Workout>
    var sports: set<int>
    /** The code outside this model the handlers call. */
    const collaborators: Collaborators

    /** The current contents of the stores. */
    function Stores(): Records.Stores
      reads this
    {
      Records.Stores(domains, actors, follows, workouts, sports)
    }

    /** A fresh instance: no domain, actor, follow request or workout; the given sport table. */
    constructor (c: Collaborators, sportIds: set<int>)
      ensures collaborators == c
      ensures Stores() == Records.Stores(map[], map[], map[], map[], sportIds)
      ensures Stores().Valid()
    {
      domains := map[];
      actors := map[];
      follows := map[];
      workouts := map[];
      sports := sportIds;
      collaborators := c;
    }

    /** get_actor: find the activity actor; provision it and, if new, its domain when `create`. */
    method GetActor(a: Activities.Activity, name: string, create: bool) returns (result: Result<string, Error>)
      modifies this
      ensures Activities.GetActor(old(Stores()), collaborators, a, name, create)
                == Activities.Resolution(Stores(), result)
    {
      if a.actor in actors {
        return Ok(a.actor);
      }
      if !create {
        return Err(ActorNotFound(Activities.ActorNotFoundMessage(name)));
      }
      var host := collaborators.hostOf(a.actor);
      if host !in domains {
        domains := domains[host := Domain(true)];
      }
      actors := actors[a.actor := Actor(a.actor, host)];
      return Ok(a.actor);
    }

    /** get_actors: the activity actor first, then the object actor, which is only looked up. */
    method GetActors(a: Activities.Activity, name: string, create: bool)
      returns (result: Result<(string, string), Error>)
      modifies this
      ensures Activities.GetActors(old(Stores()), collaborators, a, name, create)
                == Activities.Resolution(Stores(), result)
    {
      var actor := GetActor(a, name, create);
      if actor.Err? {
        return Err(actor.error);
      }
      var ref := Activities.ObjectActorRef(a);
      if ref.Err? {
        return Err(ref.error);
      }
      if !(ref.value.Str? && ref.value.s in actors) {
        return Err(ActorNotFound(Activities.ObjectActorNotFoundMessage(name)));
      }
      return Ok((a.actor, ref.value.s));
    }

    /** FollowActivity.process_activity. */
    method ProcessFollow(a: Activities.Activity) returns (raised: Option<Error>)
      modifies this
      ensures Activities.ProcessFollow(old(Stores()), collaborators, a) == Activities.Step(Stores(), raised)
    {
      var pair := GetActors(a, "FollowActivity", true);
      if pair.Err? {
        return Some(pair.error);
      }
      var (follower, followed) := pair.value;
      var r := FollowGraph.SendRequest(follows, follower, followed);
      if r.Err? {
        return Some(r.error);
      }
      follows := r.value;
      return None;
    }

    /** AcceptActivity.process_activity: the activity actor is the followed one. */
    method ProcessAccept(a: Activities.Activity) returns (raised: Option<Error>)
      modifies this
      ensures Activities.ProcessAccept(old(Stores()), collaborators, a) == Activities.Step(Stores(), raised)
    {
      var pair := GetActors(a, "AcceptActivity", false);
      if pair.Err? {
        return Some(pair.error);
      }
      var (followed, follower) := pair.value;
      var r := FollowGraph.Approve(follows, follower, followed);
      if r.Err? {
        return Some(r.error);
      }
      follows := r.value;
      return None;
    }

    /** RejectActivity.process_activity: the activity actor is the followed one. */
    method ProcessReject(a: Activities.Activity) returns (raised: Option<Error>)
      modifies this
      ensures Activities.ProcessReject(old(Stores()), collaborators, a) == Activities.Step(Stores(), raised)
    {
      var pair := GetActors(a, "RejectActivity", false);
      if pair.Err? {
        return Some(pair.error);
      }
      var (followed, follower) := pair.value;
      var r := FollowGraph.Reject(follows, follower, followed);
      if r.Err? {
        return Some(r.error);
      }
      follows := r.value;
      return None;
    }

    /** UndoActivity.process_activity and undoes_follow. */
    method ProcessUndo(a: Activities.Activity) returns (raised: Option<Error>)
      modifies this
      ensures Activities.ProcessUndo(old(Stores()), collaborators, a) == Activities.Step(Stores(), raised)
    {
      var t := Field(a.obj, "type");
      if t.Err? {
        return Some(FromAccess(t.error));
      }
      if t.value != Str("Follow") {
        return None;
      }
      var pair := GetActors(a, "UndoActivity", false);
      if pair.Err? {
        return Some(pair.error);
      }
      var (follower, followed) := pair.value;
      var r := FollowGraph.Undo(follows, follower, followed);
      if r.Err? {
        return Some(r.error);
      }
      follows := r.value;
      return None;
    }

    /** CreateActivity.create_remote_workout: check the sport, build the workout, add and commit it. */
    method CreateRemoteWorkout(data: map<string, Value>, actor: string) returns (raised: Option<Error>)
      modifies this
      ensures Activities.CreateRemoteWorkout(old(Stores()), collaborators, data, actor)
                == Activities.Step(Stores(), raised)
    {
      if "sport_id" !in data {
        return Some(MissingKey("sport_id"));
      }
      var sportId := data["sport_id"];
      if !Truthy(sportId) {
        return Some(SportNotFound);
      }
      var key := Activities.SportKey(sportId);
      if !(key.Some? && key.value in sports) {
        return Some(SportNotFound);
      }
      var built := collaborators.newWorkout(data);
      if built.Err? {
        return Some(Raised(built.error));
      }
      var w := built.value.(owner := actor);
      if w.apId in workouts {
        return Some(CommitRefused(w.apId));
      }
      workouts := workouts[w.apId := w];
      return None;
    }

    /** CreateActivity.process_activity. */
    method ProcessCreate(a: Activities.Activity) returns (raised: Option<Error>)
      modifies this
      ensures Activities.ProcessCreate(old(Stores()), collaborators, a) == Activities.Step(Stores(), raised)
    {
      var actor := GetActor(a, "CreateActivity", false);
      if actor.Err? {
        return Some(actor.error);
      }
      var t := Field(a.obj, "type");
      if t.Err? {
        return Some(FromAccess(t.error));
      }
      if t.value == Str("Workout") {
        raised := CreateRemoteWorkout(a.obj.fields, a.actor);
      } else {
        raised := None;
      }
    }

    /** DeleteActivity.process_activity and delete_remote_workout. */
    method ProcessDelete(a: Activities.Activity) returns (raised: Option<Error>)
      modifies this
      ensures Activities.ProcessDelete(old(Stores()), collaborators, a) == Activities.Step(Stores(), raised)
    {
      var actor := GetActor(a, "DeleteActivity", false);
      if actor.Err? {
        return Some(actor.error);
      }
      if !Contains(a.id, "workout") {
        return None;
      }
      var owned := Activities.OwnedWorkout(Stores(), a, a.actor, "DeleteActivity");
      if owned.Err? {
        return Some(owned.error);
      }
      workouts := workouts - {owned.value};
      return None;
    }

    /** The ActivityException that replaces a failure inside the try block of an Update. */
    static function Invalid(e: PyException): Error {
      ActivityError(Activities.InvalidWorkoutMessage("UpdateActivity", e))
    }

    /**
     * UpdateActivity.update_remote_workout: assign the nine fields one by one
     * to a working copy, stop at the first failure, and store the copy only
     * when every assignment succeeded (the session is committed once, at the
     * end of the try block).
     */
    method UpdateRemoteWorkout(a: Activities.Activity) returns (raised: Option<Error>)
      requires a.actor in actors  // the caller resolved the actor
      modifies this
      ensures Activities.ProcessUpdate(old(Stores()), collaborators, a) == Activities.Step(Stores(), raised)
    {
      if !Contains(a.id, "workout") {
        return None;
      }
      var owned := Activities.OwnedWorkout(Stores(), a, a.actor, "UpdateActivity");
      if owned.Err? {
        return Some(owned.error);
      }
      var k := owned.value;
      var data := a.obj.fields;
      var w := workouts[k];
      var v := Key(data, "ave_speed");
      if v.Err? { return Some(Invalid(v.error)); }
      w := w.(aveSpeed := v.value);
      v := Key(data, "distance");
      if v.Err? { return Some(Invalid(v.error)); }
      w := w.(distance := v.value);
      v := Key(data, "duration");
      if v.Err? { return Some(Invalid(v.error)); }
      var secs := collaborators.durationSeconds(v.value);
      if secs.Err? { return Some(Invalid(secs.error)); }
      w := w.(duration := secs.value);
      v := Key(data, "max_speed");
      if v.Err? { return Some(Invalid(v.error)); }
      w := w.(maxSpeed := v.value);
      v := Key(data, "moving");
      if v.Err? { return Some(Invalid(v.error)); }
      secs := collaborators.durationSeconds(v.value);
      if secs.Err? { return Some(Invalid(secs.error)); }
      w := w.(moving := secs.value);
      v := Key(data, "sport_id");
      if v.Err? { return Some(Invalid(v.error)); }
      w := w.(sportId := v.value);
      v := Key(data, "title");
      if v.Err? { return Some(Invalid(v.error)); }
      w := w.(title := v.value);
      v := Key(data, "workout_date");
      if v.Err? { return Some(Invalid(v.error)); }
      var date := collaborators.parseWorkoutDate(v.value);
      if date.Err? { return Some(Invalid(date.error)); }
      w := w.(workoutDate := date.value);
      v := Key(data, "workout_visibility");
      if v.Err? { return Some(Invalid(v.error)); }
      w := w.(workoutVisibility := v.value);
      assert Activities.UpdatedWorkout(collaborators, old(workouts)[k], data) == Ok(w);
      workouts := workouts[k := w];
      return None;
    }

    /** UpdateActivity.process_activity. */
    method ProcessUpdate(a: Activities.Activity) returns (raised: Option<Error>)
      modifies this
      ensures Activities.ProcessUpdate(old(Stores()), collaborators, a) == Activities.Step(Stores(), raised)
    {
      var actor := GetActor(a, "UpdateActivity", false);
      if actor.Err? {
        return Some(actor.error);
      }
      raised := UpdateRemoteWorkout(a);
    }

    /**
     * Process one inbound activity: pick the handler by `type` (an unknown
     * type is refused) and run it. The stores stay valid.
     */
    method ProcessActivity(a: Activities.Activity) returns (raised: Option<Error>)
      modifies this
      ensures Activities.Process(old(Stores()), collaborators, a) == Activities.Step(Stores(), raised)
      ensures old(Stores()).Valid() ==> Stores().Valid()
    {
      var t := Activities.ActivityTypeOf(a.kind);
      if t.Err? {
        return Some(t.error);
      }
      match t.value
      case Follow => raised := ProcessFollow(a);
      case Accept => raised := ProcessAccept(a);
      case Reject => raised := ProcessReject(a);
      case Undo => raised := ProcessUndo(a);
      case Create => raised := ProcessCreate(a);
      case Delete => raised := ProcessDelete(a);
      case Update => raised := ProcessUpdate(a);
      if old(Stores()).Valid() {
        Activities.ProcessPreservesValid(old(Stores()), collaborators, a);
      }
    }
  }
}
