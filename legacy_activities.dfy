/**
 * The earlier, follow-only handlers (federation/activities.py). Actor and
 * object-actor resolution are one function there; the handlers are the same
 * four rules. Each is proved to behave exactly as its successor in
 * Activities, so the properties proved there carry over.
 */
module LegacyActivities {
  import opened Wrappers
  import opened Values
  import opened Errors
  import opened Records
  import FollowGraph
  import Activities

  /**
   * get_actors in one piece: look the activity actor up, provision it when
   * asked to, then find the object actor, which is never provisioned.
   */
  function GetActors(s: Stores, c: Collaborators, a: Activities.Activity, name: string, create: bool)
    : (r: Activities.Resolution<(string, string)>)
    ensures a.actor !in s.actors && !create ==>
              r == Activities.Resolution(s, Err(ActorNotFound(Activities.ActorNotFoundMessage(name))))
    ensures a.actor in s.actors ==> r.after == s
    ensures a.actor !in s.actors && create ==> r.after == Activities.Provision(s, c, a.actor)
    ensures r.result.Ok? ==>
              && r.result.value.0 == a.actor
              && Activities.ObjectActorRef(a) == Ok(Str(r.result.value.1))
              && r.result.value.1 in r.after.actors
    ensures (a.actor in s.actors || create) && Activities.ObjectActorRef(a).Err? ==>
              r.result == Err(Activities.ObjectActorRef(a).error)
    ensures (a.actor in s.actors || create) && Activities.ObjectActorRef(a).Ok? &&
            !(Activities.ObjectActorRef(a).value.Str? && Activities.ObjectActorRef(a).value.s in r.after.actors) ==>
              r.result == Err(ActorNotFound(Activities.ObjectActorNotFoundMessage(name)))
    ensures (a.actor in s.actors || create) && Activities.ObjectActorRef(a).Ok? &&
            Activities.ObjectActorRef(a).value.Str? && Activities.ObjectActorRef(a).value.s in r.after.actors ==>
              r.result == Ok((a.actor, Activities.ObjectActorRef(a).value.s))
  {
    var after :=
      if a.actor in s.actors then s
      else if create then Activities.Provision(s, c, a.actor)
      else s;
    if a.actor !in s.actors && !create then
      Activities.Resolution(s, Err(ActorNotFound(Activities.ActorNotFoundMessage(name))))
    else
      match Activities.ObjectActorRef(a)
      case Err(e) => Activities.Resolution(after, Err(e))
      case Ok(v) =>
        if v.Str? && v.s in after.actors then Activities.Resolution(after, Ok((a.actor, v.s)))
        else Activities.Resolution(after, Err(ActorNotFound(Activities.ObjectActorNotFoundMessage(name))))
  }

  /** The combined resolution and the later split one (get_actor, then the object actor) agree on every input. */
  lemma {:induction false} SameResolution(s: Stores, c: Collaborators, a: Activities.Activity, name: string, create: bool)
    ensures GetActors(s, c, a, name, create) == Activities.GetActors(s, c, a, name, create)
  {
    var first := Activities.GetActor(s, c, a, name, create);
    assert first.after == (if a.actor in s.actors || !create then s else Activities.Provision(s, c, a.actor));
  }

  /** FollowActivity: the activity actor (provisioned if unknown) requests to follow the object actor. */
  function ProcessFollow(s: Stores, c: Collaborators, a: Activities.Activity): (st: Activities.Step)
    ensures st == Activities.ProcessFollow(s, c, a)
  {
    SameResolution(s, c, a, "FollowActivity", true);
    var res := GetActors(s, c, a, "FollowActivity", true);
    if res.result.Err? then Activities.Step(res.after, Some(res.result.error))
    else
      var (follower, followed) := res.result.value;
      match FollowGraph.SendRequest(res.after.follows, follower, followed)
      case Err(e) => Activities.Step(res.after, Some(e))
      case Ok(g) => Activities.Step(res.after.(follows := g), None)
  }

  /** AcceptActivity: the activity actor (followed) approves the request of the object actor (follower). */
  function ProcessAccept(s: Stores, c: Collaborators, a: Activities.Activity): (st: Activities.Step)
    ensures st == Activities.ProcessAccept(s, c, a)
  {
    SameResolution(s, c, a, "AcceptActivity", false);
    var res := GetActors(s, c, a, "AcceptActivity", false);
    if res.result.Err? then Activities.Step(res.after, Some(res.result.error))
    else
      var (followed, follower) := res.result.value;
      match FollowGraph.Approve(res.after.follows, follower, followed)
      case Err(e) => Activities.Step(res.after, Some(e))
      case Ok(g) => Activities.Step(res.after.(follows := g), None)
  }

  /** RejectActivity: the activity actor (followed) rejects the request of the object actor (follower). */
  function ProcessReject(s: Stores, c: Collaborators, a: Activities.Activity): (st: Activities.Step)
    ensures st == Activities.ProcessReject(s, c, a)
  {
    SameResolution(s, c, a, "RejectActivity", false);
    var res := GetActors(s, c, a, "RejectActivity", false);
    if res.result.Err? then Activities.Step(res.after, Some(res.result.error))
    else
      var (followed, follower) := res.result.value;
      match FollowGraph.Reject(res.after.follows, follower, followed)
      case Err(e) => Activities.Step(res.after, Some(e))
      case Ok(g) => Activities.Step(res.after.(follows := g), None)
  }

  /** UndoActivity: an undone Follow withdraws the request; any other object type is a no-op. */
  function ProcessUndo(s: Stores, c: Collaborators, a: Activities.Activity): (st: Activities.Step)
    ensures st == Activities.ProcessUndo(s, c, a)
  {
    SameResolution(s, c, a, "UndoActivity", false);
    match Field(a.obj, "type")
    case Err(e) => Activities.Step(s, Some(FromAccess(e)))
    case Ok(t) =>
      if t != Str("Follow") then Activities.Step(s, None)
      else
        var res := GetActors(s, c, a, "UndoActivity", false);
        if res.result.Err? then Activities.Step(res.after, Some(res.result.error))
        else
          var (follower, followed) := res.result.value;
          match FollowGraph.Undo(res.after.follows, follower, followed)
          case Err(e) => Activities.Step(res.after, Some(e))
          case Ok(g) => Activities.Step(res.after.(follows := g), None)
  }

  /**
   * The activity actor is looked up first: when neither actor is known,
   * the error names the activity actor, not the object actor.
   */
  lemma ActivityActorCheckedFirst(s: Stores, c: Collaborators, a: Activities.Activity, name: string)
    requires a.actor !in s.actors
    requires Activities.ObjectActorRef(a).Ok? && Activities.ObjectActorRef(a).value.Str?
    requires Activities.ObjectActorRef(a).value.s !in s.actors
    ensures GetActors(s, c, a, name, false).result == Err(ActorNotFound(Activities.ActorNotFoundMessage(name)))
  {
  }
}
