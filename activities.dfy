/**
 * The inbound activity handlers (federation/activities/activities.py): actor
 * resolution, then one rule per activity type over the stores. Each rule
 * either raises a named error or applies one change. A handler is a function
 * from the stores before to a Step: the stores after and the error raised,
 * if any.
 */
module Activities {
  import opened Wrappers
  import opened Values
  import opened Errors
  import opened Records
  import FollowGraph

  datatype ActivityType = Follow | Accept | Reject | Undo | Create | Delete | Update

  /** The `type` string of each activity. */
  function TypeName(t: ActivityType): string {
    match t
    case Follow => "Follow"
    case Accept => "Accept"
    case Reject => "Reject"
    case Undo => "Undo"
    case Create => "Create"
    case Delete => "Delete"
    case Update => "Update"
  }

  /** `activity_name()`: the handler's class name. */
  function ActivityName(t: ActivityType): string {
    TypeName(t) + "Activity"
  }

  /** An inbound envelope: `id`, `type`, `actor` and `object`. */
  datatype Activity = Activity(id: string, kind: string, actor: string, obj: Value)

  /** What processing did: the stores afterwards and the error raised, if any. */
  datatype Step = Step(after: Stores, raised: Option<Error>)

  /** Actor resolution may provision an actor before it fails, so it also returns the stores. */
  datatype Resolution<T> = Resolution(after: Stores, result: Result<T, Error>)

  /** The activity type a `type` string selects; any other string is unsupported. */
  function ActivityTypeOf(kind: string): (r: Result<ActivityType, Error>)
    ensures r.Ok? ==> TypeName(r.value) == kind
    ensures r.Err? ==> r.error == UnsupportedActivity(kind) && forall t :: TypeName(t) != kind
  {
    if kind == "Follow" then Ok(Follow)
    else if kind == "Accept" then Ok(Accept)
    else if kind == "Reject" then Ok(Reject)
    else if kind == "Undo" then Ok(Undo)
    else if kind == "Create" then Ok(Create)
    else if kind == "Delete" then Ok(Delete)
    else if kind == "Update" then Ok(Update)
    else Err(UnsupportedActivity(kind))
  }

  /** The message of the ActorNotFoundException for an unknown activity actor. */
  function ActorNotFoundMessage(name: string): string {
    "actor not found for " + name
  }

  /** The message of the ActorNotFoundException for an unknown object actor. */
  function ObjectActorNotFoundMessage(name: string): string {
    "object actor not found for " + name
  }

  /** The stores after provisioning the unknown remote actor `url` and, if new, its domain. */
  function Provision(s: Stores, c: Collaborators, url: string): (r: Stores)
    ensures url in r.actors && r.actors[url] == Actor(url, c.hostOf(url))
    ensures r.actors.Keys == s.actors.Keys + {url}
    ensures url !in s.actors ==> Extends(s.actors, r.actors)
    ensures Extends(s.domains, r.domains) && r.domains.Keys == s.domains.Keys + {c.hostOf(url)}
    ensures c.hostOf(url) !in s.domains ==> r.domains[c.hostOf(url)].isRemote
    ensures r.follows == s.follows && r.workouts == s.workouts && r.sports == s.sports
    ensures s.Valid() ==> r.Valid()
  {
    var host := c.hostOf(url);
    var domains := if host in s.domains then s.domains else s.domains[host := Domain(true)];
    s.(domains := domains, actors := s.actors[url := Actor(url, host)])
  }

  /**
   * get_actor: the stored actor for `activity['actor']`; if there is none,
   * either provision it (create) or raise ActorNotFound.
   */
  function GetActor(s: Stores, c: Collaborators, a: Activity, name: string, create: bool)
    : (r: Resolution<string>)
    ensures r.result.Ok? <==> a.actor in s.actors || create
    ensures r.result.Ok? ==> r.result.value == a.actor && a.actor in r.after.actors
    ensures r.result.Err? ==> r.result.error == ActorNotFound(ActorNotFoundMessage(name))
    ensures a.actor in s.actors || !create ==> r.after == s
    ensures a.actor !in s.actors && create ==>
              && r.after.actors[a.actor].domain == c.hostOf(a.actor)
              && c.hostOf(a.actor) in r.after.domains
              && (c.hostOf(a.actor) !in s.domains ==> r.after.domains[c.hostOf(a.actor)].isRemote)
    ensures Extends(s.actors, r.after.actors) && r.after.actors.Keys == s.actors.Keys + {a.actor} - (if r.result.Ok? then {} else {a.actor})
    ensures Extends(s.domains, r.after.domains)
    ensures r.after.follows == s.follows && r.after.workouts == s.workouts && r.after.sports == s.sports
    ensures s.Valid() ==> r.after.Valid()
  {
    if a.actor in s.actors then Resolution(s, Ok(a.actor))
    else if create then Resolution(Provision(s, c, a.actor), Ok(a.actor))
    else Resolution(s, Err(ActorNotFound(ActorNotFoundMessage(name))))
  }

  /** The object key naming the object actor: `object` for an Undo, `actor` otherwise. */
  function ObjectActorKey(kind: string): string {
    if kind == "Undo" then "object" else "actor"
  }

  /**
   * The value naming the object actor: the `object` itself when it is a
   * string, otherwise its ObjectActorKey entry.
   */
  function ObjectActorRef(a: Activity): (r: Result<Value, Error>)
    ensures a.obj.Str? ==> r == Ok(a.obj)
    ensures a.obj.Obj? && ObjectActorKey(a.kind) in a.obj.fields ==>
              r == Ok(a.obj.fields[ObjectActorKey(a.kind)])
    ensures a.obj.Obj? && ObjectActorKey(a.kind) !in a.obj.fields ==>
              r == Err(MissingKey(ObjectActorKey(a.kind)))
    ensures !a.obj.Str? && !a.obj.Obj? ==> r == Err(NotSubscriptable)
  {
    if a.obj.Str? then Ok(a.obj)
    else
      match Field(a.obj, ObjectActorKey(a.kind))
      case Ok(v) => Ok(v)
      case Err(e) => Err(FromAccess(e))
  }

  /**
   * get_actors: the activity actor (resolved first, provisioned only when
   * `create`), then the object actor, which is never provisioned.
   */
  function GetActors(s: Stores, c: Collaborators, a: Activity, name: string, create: bool)
    : (r: Resolution<(string, string)>)
    ensures a.actor !in s.actors && !create ==>
              r == Resolution(s, Err(ActorNotFound(ActorNotFoundMessage(name))))
    ensures r.after == GetActor(s, c, a, name, create).after
    ensures r.result.Ok? ==>
              && r.result.value.0 == a.actor
              && ObjectActorRef(a) == Ok(Str(r.result.value.1))
              && r.result.value.1 in r.after.actors
              && (r.result.value.1 in s.actors || r.result.value.1 == a.actor)
    ensures (a.actor in s.actors || create) && ObjectActorRef(a).Err? ==>
              r.result == Err(ObjectActorRef(a).error)
    ensures (a.actor in s.actors || create) && ObjectActorRef(a).Ok? &&
            !(ObjectActorRef(a).value.Str? && ObjectActorRef(a).value.s in r.after.actors) ==>
              r.result == Err(ActorNotFound(ObjectActorNotFoundMessage(name)))
    ensures (a.actor in s.actors || create) && ObjectActorRef(a).Ok? &&
            ObjectActorRef(a).value.Str? && ObjectActorRef(a).value.s in r.after.actors ==>
              r.result == Ok((a.actor, ObjectActorRef(a).value.s))
  {
    var first := GetActor(s, c, a, name, create);
    if first.result.Err? then Resolution(first.after, Err(first.result.error))
    else
      match ObjectActorRef(a)
      case Err(e) => Resolution(first.after, Err(e))
      case Ok(v) =>
        if v.Str? && v.s in first.after.actors then Resolution(first.after, Ok((a.actor, v.s)))
        else Resolution(first.after, Err(ActorNotFound(ObjectActorNotFoundMessage(name))))
  }

  /** FollowActivity: the activity actor (provisioned if unknown) requests to follow the object actor. */
  function ProcessFollow(s: Stores, c: Collaborators, a: Activity): (st: Step)
    ensures st.after.workouts == s.workouts && st.after.sports == s.sports
    ensures var res := GetActors(s, c, a, "FollowActivity", true);
            && (res.result.Err? ==> st == Step(res.after, Some(res.result.error)))
            && (res.result.Ok? ==>
                  var p := res.result.value;
                  && st.after.actors == res.after.actors && st.after.domains == res.after.domains
                  && (st.raised.Some? <==> p in res.after.follows && res.after.follows[p] == FollowGraph.Rejected)
                  && (st.raised.Some? ==> st == Step(res.after, Some(FollowRequestAlreadyRejected)))
                  && (st.raised.None? ==>
                        && p in st.after.follows && st.after.follows[p] != FollowGraph.Rejected
                        && (p in res.after.follows ==> st.after.follows == res.after.follows)
                        && (p !in res.after.follows ==> st.after.follows[p] == FollowGraph.Pending)
                        && FollowGraph.SameElsewhere(res.after.follows, st.after.follows, p)))
  {
    var res := GetActors(s, c, a, "FollowActivity", true);
    if res.result.Err? then Step(res.after, Some(res.result.error))
    else
      var (follower, followed) := res.result.value;
      match FollowGraph.SendRequest(res.after.follows, follower, followed)
      case Err(e) => Step(res.after, Some(e))
      case Ok(g) => Step(res.after.(follows := g), None)
  }

  /**
   * AcceptActivity: the activity actor (followed) approves the pending
   * request from the object actor (follower).
   */
  function ProcessAccept(s: Stores, c: Collaborators, a: Activity): (st: Step)
    ensures st.after.actors == s.actors && st.after.domains == s.domains
    ensures st.after.workouts == s.workouts && st.after.sports == s.sports
    ensures var res := GetActors(s, c, a, "AcceptActivity", false);
            && (res.result.Err? ==> st == Step(s, Some(res.result.error)))
            && (res.result.Ok? ==>
                  var p := (res.result.value.1, res.result.value.0);
                  && (p !in s.follows ==> st == Step(s, Some(NotExistingFollowRequest)))
                  && (p in s.follows && s.follows[p] != FollowGraph.Pending ==>
                        st == Step(s, Some(FollowRequestAlreadyProcessed)))
                  && (p in s.follows && s.follows[p] == FollowGraph.Pending ==>
                        && st.raised.None?
                        && FollowGraph.IsApprovedFollower(st.after.follows, p.0, p.1)
                        && FollowGraph.SameElsewhere(s.follows, st.after.follows, p)))
  {
    var res := GetActors(s, c, a, "AcceptActivity", false);
    if res.result.Err? then Step(res.after, Some(res.result.error))
    else
      var (followed, follower) := res.result.value;
      match FollowGraph.Approve(res.after.follows, follower, followed)
      case Err(e) => Step(res.after, Some(e))
      case Ok(g) => Step(res.after.(follows := g), None)
  }

  /**
   * RejectActivity: the activity actor (followed) rejects the pending
   * request from the object actor (follower).
   */
  function ProcessReject(s: Stores, c: Collaborators, a: Activity): (st: Step)
    ensures st.after.actors == s.actors && st.after.domains == s.domains
    ensures st.after.workouts == s.workouts && st.after.sports == s.sports
    ensures var res := GetActors(s, c, a, "RejectActivity", false);
            && (res.result.Err? ==> st == Step(s, Some(res.result.error)))
            && (res.result.Ok? ==>
                  var p := (res.result.value.1, res.result.value.0);
                  && (p !in s.follows ==> st == Step(s, Some(NotExistingFollowRequest)))
                  && (p in s.follows && s.follows[p] != FollowGraph.Pending ==>
                        st == Step(s, Some(FollowRequestAlreadyProcessed)))
                  && (p in s.follows && s.follows[p] == FollowGraph.Pending ==>
                        && st.raised.None?
                        && p in st.after.follows && st.after.follows[p] == FollowGraph.Rejected
                        && FollowGraph.SameElsewhere(s.follows, st.after.follows, p)))
  {
    var res := GetActors(s, c, a, "RejectActivity", false);
    if res.result.Err? then Step(res.after, Some(res.result.error))
    else
      var (followed, follower) := res.result.value;
      match FollowGraph.Reject(res.after.follows, follower, followed)
      case Err(e) => Step(res.after, Some(e))
      case Ok(g) => Step(res.after.(follows := g), None)
  }

  /**
   * UndoActivity.undoes_follow: the activity actor (follower) withdraws its
   * request to the object actor (`object.object`, followed), whatever its status.
   */
  function UndoesFollow(s: Stores, c: Collaborators, a: Activity): (st: Step)
    ensures st.after.actors == s.actors && st.after.domains == s.domains
    ensures st.after.workouts == s.workouts && st.after.sports == s.sports
    ensures var res := GetActors(s, c, a, "UndoActivity", false);
            && (res.result.Err? ==> st == Step(s, Some(res.result.error)))
            && (res.result.Ok? ==>
                  var p := res.result.value;
                  && (p !in s.follows ==> st == Step(s, Some(NotExistingFollowRequest)))
                  && (p in s.follows ==>
                        && st.raised.None? && p !in st.after.follows
                        && FollowGraph.SameElsewhere(s.follows, st.after.follows, p)))
  {
    var res := GetActors(s, c, a, "UndoActivity", false);
    if res.result.Err? then Step(res.after, Some(res.result.error))
    else
      var (follower, followed) := res.result.value;
      match FollowGraph.Undo(res.after.follows, follower, followed)
      case Err(e) => Step(res.after, Some(e))
      case Ok(g) => Step(res.after.(follows := g), None)
  }

  /** UndoActivity: only an undone Follow is acted on; any other object type is a no-op without actor lookup. */
  function ProcessUndo(s: Stores, c: Collaborators, a: Activity): (st: Step)
    ensures Field(a.obj, "type").Err? ==> st == Step(s, Some(FromAccess(Field(a.obj, "type").error)))
    ensures Field(a.obj, "type").Ok? && Field(a.obj, "type").value != Str("Follow") ==> st == Step(s, None)
    ensures Field(a.obj, "type") == Ok(Str("Follow")) ==> st == UndoesFollow(s, c, a)
  {
    match Field(a.obj, "type")
    case Err(e) => Step(s, Some(FromAccess(e)))
    case Ok(t) => if t == Str("Follow") then UndoesFollow(s, c, a) else Step(s, None)
  }

  /** The sport id a payload value denotes: an integral number; anything else finds no sport. */
  function SportKey(v: Value): (r: Option<int>)
    ensures r.Some? <==> v.Num? && v.r == v.r.Floor as real
    ensures r.Some? ==> v == Num(r.value as real)
  {
    if v.Num? && v.r == v.r.Floor as real then Some(v.r.Floor) else None
  }

  /** The payload's sport_id is set and names a known sport. */
  predicate KnownSport(s: Stores, v: Value) {
    Truthy(v) && SportKey(v).Some? && SportKey(v).value in s.sports
  }

  /**
   * CreateActivity.create_remote_workout: check sport_id, build the workout
   * and store it as owned by `actor`, all or nothing.
   */
  function CreateRemoteWorkout(s: Stores, c: Collaborators, data: map<string, Value>, actor: string)
    : (st: Step)
    ensures "sport_id" !in data ==> st == Step(s, Some(MissingKey("sport_id")))
    ensures "sport_id" in data && !KnownSport(s, data["sport_id"]) ==> st == Step(s, Some(SportNotFound))
    ensures st.raised.Some? ==> st.after == s
    ensures "sport_id" in data && KnownSport(s, data["sport_id"]) && c.newWorkout(data).Err? ==>
              st == Step(s, Some(Raised(c.newWorkout(data).error)))
    ensures "sport_id" in data && KnownSport(s, data["sport_id"]) && c.newWorkout(data).Ok? ==>
              var w := c.newWorkout(data).value.(owner := actor);
              && (w.apId in s.workouts ==> st == Step(s, Some(CommitRefused(w.apId))))
              && (w.apId !in s.workouts ==> st == Step(s.(workouts := s.workouts[w.apId := w]), None))
    ensures st.raised.None? ==>
              && "sport_id" in data && KnownSport(s, data["sport_id"])
              && c.newWorkout(data).Ok?
              && var w := c.newWorkout(data).value.(owner := actor);
                 w.apId !in s.workouts && st.after == s.(workouts := s.workouts[w.apId := w])
  {
    if "sport_id" !in data then Step(s, Some(MissingKey("sport_id")))
    else if !Truthy(data["sport_id"]) then Step(s, Some(SportNotFound))
    else if !(SportKey(data["sport_id"]).Some? && SportKey(data["sport_id"]).value in s.sports) then
      Step(s, Some(SportNotFound))
    else
      match c.newWorkout(data)
      case Err(e) => Step(s, Some(Raised(e)))
      case Ok(w0) =>
        var w := w0.(owner := actor);
        if w.apId in s.workouts then Step(s, Some(CommitRefused(w.apId)))
        else Step(s.(workouts := s.workouts[w.apId := w]), None)
  }

  /** CreateActivity: the actor must already exist; only a Workout object is created. */
  function ProcessCreate(s: Stores, c: Collaborators, a: Activity): (st: Step)
    ensures st.after.actors == s.actors && st.after.domains == s.domains
    ensures st.after.follows == s.follows && st.after.sports == s.sports
    ensures a.actor !in s.actors ==> st == Step(s, Some(ActorNotFound(ActorNotFoundMessage("CreateActivity"))))
    ensures a.actor in s.actors && Field(a.obj, "type").Err? ==>
              st == Step(s, Some(FromAccess(Field(a.obj, "type").error)))
    ensures a.actor in s.actors && Field(a.obj, "type").Ok? && Field(a.obj, "type").value != Str("Workout") ==>
              st == Step(s, None)
    ensures a.actor in s.actors && Field(a.obj, "type") == Ok(Str("Workout")) ==>
              st == CreateRemoteWorkout(s, c, a.obj.fields, a.actor)
    ensures st.raised.Some? ==> st.after == s
  {
    var res := GetActor(s, c, a, "CreateActivity", false);
    if res.result.Err? then Step(res.after, Some(res.result.error))
    else
      match Field(a.obj, "type")
      case Err(e) => Step(s, Some(FromAccess(e)))
      case Ok(t) =>
        if t == Str("Workout") then CreateRemoteWorkout(s, c, a.obj.fields, a.actor)
        else Step(s, None)
  }

  /** The message of the ActivityException raised when the activity actor does not own the workout. */
  function MismatchMessage(name: string): string {
    name + ": activity actor does not match workout actor."
  }

  /**
   * Look up the workout an activity targets by `object.id` and check that
   * `actor` owns it; the result is its ap_id.
   */
  function OwnedWorkout(s: Stores, a: Activity, actor: string, name: string): (r: Result<string, Error>)
    ensures r.Ok? <==> Field(a.obj, "id").Ok? && Field(a.obj, "id").value.Str? &&
                       Field(a.obj, "id").value.s in s.workouts &&
                       s.workouts[Field(a.obj, "id").value.s].owner == actor
    ensures r.Ok? ==> Field(a.obj, "id") == Ok(Str(r.value))
    ensures Field(a.obj, "id").Err? ==> r == Err(FromAccess(Field(a.obj, "id").error))
    ensures (Field(a.obj, "id").Ok? &&
             !(Field(a.obj, "id").value.Str? && Field(a.obj, "id").value.s in s.workouts)) ==>
              r == Err(ObjectNotFound("workout", name))
    ensures (Field(a.obj, "id").Ok? && Field(a.obj, "id").value.Str? &&
             Field(a.obj, "id").value.s in s.workouts &&
             s.workouts[Field(a.obj, "id").value.s].owner != actor) ==>
              r == Err(ActivityError(MismatchMessage(name)))
  {
    match Field(a.obj, "id")
    case Err(e) => Err(FromAccess(e))
    case Ok(v) =>
      if !(v.Str? && v.s in s.workouts) then Err(ObjectNotFound("workout", name))
      else if s.workouts[v.s].owner != actor then Err(ActivityError(MismatchMessage(name)))
      else Ok(v.s)
  }

  /** DeleteActivity: once the actor is resolved, a workout activity removes the actor's own workout. */
  function ProcessDelete(s: Stores, c: Collaborators, a: Activity): (st: Step)
    ensures st.after.actors == s.actors && st.after.domains == s.domains
    ensures st.after.follows == s.follows && st.after.sports == s.sports
    ensures a.actor !in s.actors ==> st == Step(s, Some(ActorNotFound(ActorNotFoundMessage("DeleteActivity"))))
    ensures a.actor in s.actors && !Contains(a.id, "workout") ==> st == Step(s, None)
    ensures a.actor in s.actors && Contains(a.id, "workout") ==>
              match OwnedWorkout(s, a, a.actor, "DeleteActivity")
              case Err(e) => st == Step(s, Some(e))
              case Ok(k) => st.raised.None? && k in s.workouts && st.after.workouts == s.workouts - {k}
  {
    var res := GetActor(s, c, a, "DeleteActivity", false);
    if res.result.Err? then Step(res.after, Some(res.result.error))
    else if !Contains(a.id, "workout") then Step(s, None)
    else
      match OwnedWorkout(s, a, a.actor, "DeleteActivity")
      case Err(e) => Step(s, Some(e))
      case Ok(k) => Step(s.(workouts := s.workouts - {k}), None)
  }

  /**
   * The try block of update_remote_workout: the nine assignments in source
   * order; the first failure is the exception raised.
   */
  function UpdatedWorkout(c: Collaborators, w: Workout, data: map<string, Value>)
    : (r: Result<Workout, PyException>)
    // the first missing key or failed conversion, in source order, is the error
    ensures "ave_speed" !in data ==> r == Err(KeyErrorOf("ave_speed"))
    ensures "ave_speed" in data && "distance" !in data ==> r == Err(KeyErrorOf("distance"))
    ensures ("ave_speed" in data && "distance" in data) && "duration" !in data ==> r == Err(KeyErrorOf("duration"))
    ensures ("ave_speed" in data && "distance" in data && "duration" in data)
            && c.durationSeconds(data["duration"]).Err? ==>
              r == Err(c.durationSeconds(data["duration"]).error)
    ensures ("ave_speed" in data && "distance" in data && "duration" in data)
            && c.durationSeconds(data["duration"]).Ok? ==>
              && ("max_speed" !in data ==> r == Err(KeyErrorOf("max_speed")))
              && ("max_speed" in data && "moving" !in data ==> r == Err(KeyErrorOf("moving")))
    ensures ("ave_speed" in data && "distance" in data && "duration" in data && "max_speed" in data
             && "moving" in data)
            && c.durationSeconds(data["duration"]).Ok? && c.durationSeconds(data["moving"]).Err? ==>
              r == Err(c.durationSeconds(data["moving"]).error)
    ensures ("ave_speed" in data && "distance" in data && "duration" in data && "max_speed" in data
             && "moving" in data)
            && c.durationSeconds(data["duration"]).Ok? && c.durationSeconds(data["moving"]).Ok? ==>
              && ("sport_id" !in data ==> r == Err(KeyErrorOf("sport_id")))
              && ("sport_id" in data && "title" !in data ==> r == Err(KeyErrorOf("title")))
              && ("sport_id" in data && "title" in data && "workout_date" !in data ==>
                    r == Err(KeyErrorOf("workout_date")))
    ensures && "ave_speed" in data && "distance" in data && "duration" in data && "max_speed" in data
            && "moving" in data && "sport_id" in data && "title" in data && "workout_date" in data
            && c.durationSeconds(data["duration"]).Ok? && c.durationSeconds(data["moving"]).Ok? ==>
              && (c.parseWorkoutDate(data["workout_date"]).Err? ==> r == Err(c.parseWorkoutDate(data["workout_date"]).error))
              && (c.parseWorkoutDate(data["workout_date"]).Ok? && "workout_visibility" !in data ==>
                    r == Err(KeyErrorOf("workout_visibility")))
    // success: every step passed, and the workout carries the payload's values
    ensures r.Ok? <==>
              && "ave_speed" in data && "distance" in data && "duration" in data && "max_speed" in data
              && "moving" in data && "sport_id" in data && "title" in data && "workout_date" in data
              && "workout_visibility" in data
              && c.durationSeconds(data["duration"]).Ok? && c.durationSeconds(data["moving"]).Ok?
              && c.parseWorkoutDate(data["workout_date"]).Ok?
    ensures r.Ok? ==>
              && r.value.apId == w.apId && r.value.owner == w.owner
              && r.value.aveSpeed == data["ave_speed"] && r.value.distance == data["distance"]
              && r.value.duration == c.durationSeconds(data["duration"]).value
              && r.value.maxSpeed == data["max_speed"]
              && r.value.moving == c.durationSeconds(data["moving"]).value
              && r.value.sportId == data["sport_id"] && r.value.title == data["title"]
              && r.value.workoutDate == c.parseWorkoutDate(data["workout_date"]).value
              && r.value.workoutVisibility == data["workout_visibility"]
  {
    var aveSpeed :- Key(data, "ave_speed");
    var distance :- Key(data, "distance");
    var durationString :- Key(data, "duration");
    var duration :- c.durationSeconds(durationString);
    var maxSpeed :- Key(data, "max_speed");
    var movingString :- Key(data, "moving");
    var moving :- c.durationSeconds(movingString);
    var sportId :- Key(data, "sport_id");
    var title :- Key(data, "title");
    var dateString :- Key(data, "workout_date");
    var workoutDate :- c.parseWorkoutDate(dateString);
    var visibility :- Key(data, "workout_visibility");
    Ok(w.(aveSpeed := aveSpeed, distance := distance, duration := duration, maxSpeed := maxSpeed,
          moving := moving, sportId := sportId, title := title, workoutDate := workoutDate,
          workoutVisibility := visibility))
  }

  /** The message of the ActivityException that replaces any failure inside the try block. */
  function InvalidWorkoutMessage(name: string, e: PyException): string {
    name + ": invalid Workout activity (" + e.cls + ": " + e.msg + ")."
  }

  /** UpdateActivity: once the actor is resolved, a workout activity overwrites the actor's own workout. */
  function ProcessUpdate(s: Stores, c: Collaborators, a: Activity): (st: Step)
    ensures st.after.actors == s.actors && st.after.domains == s.domains
    ensures st.after.follows == s.follows && st.after.sports == s.sports
    ensures a.actor !in s.actors ==> st == Step(s, Some(ActorNotFound(ActorNotFoundMessage("UpdateActivity"))))
    ensures a.actor in s.actors && !Contains(a.id, "workout") ==> st == Step(s, None)
    ensures st.raised.Some? ==> st.after == s
    ensures a.actor in s.actors && Contains(a.id, "workout") ==>
              match OwnedWorkout(s, a, a.actor, "UpdateActivity")
              case Err(e) => st == Step(s, Some(e))
              case Ok(k) =>
                && a.obj.Obj? && k in s.workouts
                && match UpdatedWorkout(c, s.workouts[k], a.obj.fields)
                   case Err(e) => st == Step(s, Some(ActivityError(InvalidWorkoutMessage("UpdateActivity", e))))
                   case Ok(w) => st == Step(s.(workouts := s.workouts[k := w]), None)
  {
    var res := GetActor(s, c, a, "UpdateActivity", false);
    if res.result.Err? then Step(res.after, Some(res.result.error))
    else if !Contains(a.id, "workout") then Step(s, None)
    else
      match OwnedWorkout(s, a, a.actor, "UpdateActivity")
      case Err(e) => Step(s, Some(e))
      case Ok(k) =>
        match UpdatedWorkout(c, s.workouts[k], a.obj.fields)
        case Err(e) => Step(s, Some(ActivityError(InvalidWorkoutMessage("UpdateActivity", e))))
        case Ok(w) => Step(s.(workouts := s.workouts[k := w]), None)
  }

  /** The dispatcher: pick the handler by `type`, then run its process_activity. */
  function Process(s: Stores, c: Collaborators, a: Activity): (st: Step)
    ensures ActivityTypeOf(a.kind).Err? ==> st == Step(s, Some(UnsupportedActivity(a.kind)))
  {
    match ActivityTypeOf(a.kind)
    case Err(e) => Step(s, Some(e))
    case Ok(t) =>
      match t
      case Follow => ProcessFollow(s, c, a)
      case Accept => ProcessAccept(s, c, a)
      case Reject => ProcessReject(s, c, a)
      case Undo => ProcessUndo(s, c, a)
      case Create => ProcessCreate(s, c, a)
      case Delete => ProcessDelete(s, c, a)
      case Update => ProcessUpdate(s, c, a)
  }

  /** Replacing the follow graph by one whose pairs are old pairs or `p` keeps the stores valid when `p` joins known actors. */
  lemma GraphChangeKeepsValid(s: Stores, g: FollowGraph.Graph, p: FollowGraph.Pair)
    requires s.Valid() && p.0 in s.actors && p.1 in s.actors
    requires forall q :: q in g ==> q in s.follows || q == p
    ensures s.(follows := g).Valid()
  {
  }

  /** Every handler keeps the stores valid: no dangling actor, follow request or workout owner. */
  lemma ProcessPreservesValid(s: Stores, c: Collaborators, a: Activity)
    requires s.Valid()
    ensures Process(s, c, a).after.Valid()
  {
    match ActivityTypeOf(a.kind)
    case Err(_) =>
    case Ok(t) =>
      match t
      case Follow =>
        var res := GetActors(s, c, a, "FollowActivity", true);
        if res.result.Ok? {
          var r := FollowGraph.SendRequest(res.after.follows, res.result.value.0, res.result.value.1);
          if r.Ok? { GraphChangeKeepsValid(res.after, r.value, res.result.value); }
        }
      case Accept =>
        var res := GetActors(s, c, a, "AcceptActivity", false);
        if res.result.Ok? {
          var p := (res.result.value.1, res.result.value.0);
          var r := FollowGraph.Approve(res.after.follows, p.0, p.1);
          if r.Ok? { GraphChangeKeepsValid(res.after, r.value, p); }
        }
      case Reject =>
        var res := GetActors(s, c, a, "RejectActivity", false);
        if res.result.Ok? {
          var p := (res.result.value.1, res.result.value.0);
          var r := FollowGraph.Reject(res.after.follows, p.0, p.1);
          if r.Ok? { GraphChangeKeepsValid(res.after, r.value, p); }
        }
      case Undo =>
      case Create =>
      case Delete =>
      case Update =>
  }

  /**
   * What each activity type may change: only a Follow adds to the directory,
   * only the follow activities touch the graph, only the workout activities
   * touch the workout store, and nothing touches the sport table. A handler
   * that raises leaves the graph and the workouts as they were; only the
   * actor a Follow provisioned before failing stays.
   */
  lemma ProcessFrame(s: Stores, c: Collaborators, a: Activity)
    ensures var st := Process(s, c, a);
            && st.after.sports == s.sports
            && Extends(s.actors, st.after.actors) && Extends(s.domains, st.after.domains)
            && (a.kind != "Follow" ==> st.after.actors == s.actors && st.after.domains == s.domains)
            && (a.kind in {"Create", "Delete", "Update"} ==> st.after.follows == s.follows)
            && (a.kind !in {"Create", "Delete", "Update"} ==> st.after.workouts == s.workouts)
            && (st.raised.Some? ==> st.after.follows == s.follows && st.after.workouts == s.workouts)
            && (st.raised.Some? && a.kind != "Follow" ==> st.after == s)
  {
  }

  /** Lookup precedes creation: resolving the same actor again finds it and provisions nothing. */
  lemma ResolveTwiceProvisionsOnce(s: Stores, c: Collaborators, a: Activity, name: string, create: bool)
    requires GetActor(s, c, a, name, true).result.Ok?
    ensures var first := GetActor(s, c, a, name, true);
            GetActor(first.after, c, a, name, create) == Resolution(first.after, Ok(a.actor))
    ensures var first := GetActor(s, c, a, name, true);
            |first.after.actors| <= |s.actors| + 1
  {
    var first := GetActor(s, c, a, name, true);
    if a.actor !in s.actors {
      assert first.after.actors.Keys == s.actors.Keys + {a.actor};
    } else {
      assert first.after.actors == s.actors;
    }
  }

  /** A Follow from a known actor to a known actor, with nothing between them yet. */
  function FollowOf(id: string, follower: string, followed: string): Activity {
    Activity(id, "Follow", follower, Str(followed))
  }

  /** An Accept or Reject sent by `followed` about the Follow of `follower`. */
  function AnswerOf(id: string, kind: string, follower: string, followed: string): Activity {
    Activity(id, kind, followed, Obj(map["type" := Str("Follow"), "actor" := Str(follower), "object" := Str(followed)]))
  }

  /** The Undo `follower` sends for its Follow of `followed`. */
  function UndoOf(id: string, follower: string, followed: string): Activity {
    Activity(id, "Undo", follower, Obj(map["type" := Str("Follow"), "actor" := Str(follower), "object" := Str(followed)]))
  }

  /** Follow, then Accept: the follower is an approved follower and nothing else in the graph moved. */
  lemma FollowThenAcceptApproves(s: Stores, c: Collaborators, follower: string, followed: string, id1: string, id2: string)
    requires follower in s.actors && followed in s.actors && (follower, followed) !in s.follows
    ensures var st1 := Process(s, c, FollowOf(id1, follower, followed));
            var st2 := Process(st1.after, c, AnswerOf(id2, "Accept", follower, followed));
            && st1 == Step(s.(follows := s.follows[(follower, followed) := FollowGraph.Pending]), None)
            && st2.raised.None?
            && FollowGraph.IsApprovedFollower(st2.after.follows, follower, followed)
            && st2.after == s.(follows := s.follows[(follower, followed) := FollowGraph.Approved])
  {
    var p := (follower, followed);
    var st1 := Process(s, c, FollowOf(id1, follower, followed));
    assert st1.after.follows == s.follows[p := FollowGraph.Pending];
    var st2 := Process(st1.after, c, AnswerOf(id2, "Accept", follower, followed));
    assert st2.after.follows == s.follows[p := FollowGraph.Approved];
  }

  /**
   * A Follow between two known actors succeeds unless the pair's request
   * was rejected, and leaves a request that is not rejected.
   */
  lemma FollowBetweenKnownActorsSucceeds(s: Stores, c: Collaborators, a: Activity)
    requires a.kind == "Follow" && a.actor in s.actors
    requires ObjectActorRef(a).Ok? && ObjectActorRef(a).value.Str? && ObjectActorRef(a).value.s in s.actors
    ensures var p := (a.actor, ObjectActorRef(a).value.s);
            var st := Process(s, c, a);
            && (st.raised.None? <==> !(p in s.follows && s.follows[p] == FollowGraph.Rejected))
            && (st.raised.None? ==> p in st.after.follows && st.after.follows[p] != FollowGraph.Rejected)
  {
  }

  /** Follow, Reject, Follow again: the second Follow is refused and the rejection stands. */
  lemma RejectedFollowIsRefused(s: Stores, c: Collaborators, follower: string, followed: string,
                                id1: string, id2: string, id3: string)
    requires follower in s.actors && followed in s.actors && (follower, followed) !in s.follows
    ensures var st1 := Process(s, c, FollowOf(id1, follower, followed));
            var st2 := Process(st1.after, c, AnswerOf(id2, "Reject", follower, followed));
            var st3 := Process(st2.after, c, FollowOf(id3, follower, followed));
            && st2.raised.None?
            && st3 == Step(st2.after, Some(FollowRequestAlreadyRejected))
            && st2.after.follows[(follower, followed)] == FollowGraph.Rejected
  {
    var p := (follower, followed);
    var st1 := Process(s, c, FollowOf(id1, follower, followed));
    assert st1.after.follows == s.follows[p := FollowGraph.Pending];
    var st2 := Process(st1.after, c, AnswerOf(id2, "Reject", follower, followed));
    assert st2.after.follows == s.follows[p := FollowGraph.Rejected];
  }

  /** Follow, then Undo: the stores are exactly as before the Follow. */
  lemma FollowThenUndoRestores(s: Stores, c: Collaborators, follower: string, followed: string, id1: string, id2: string)
    requires follower in s.actors && followed in s.actors && (follower, followed) !in s.follows
    ensures var st1 := Process(s, c, FollowOf(id1, follower, followed));
            Process(st1.after, c, UndoOf(id2, follower, followed)) == Step(s, None)
  {
    var p := (follower, followed);
    var st1 := Process(s, c, FollowOf(id1, follower, followed));
    assert st1.after.follows == s.follows[p := FollowGraph.Pending];
    FollowGraph.RequestThenUndoRestores(s.follows, follower, followed);
    assert st1.after.follows - {p} == s.follows;
  }

  /** An Undo whose object is not a Follow does nothing, not even resolve its actor. */
  lemma UndoOfOtherIsNoop(s: Stores, c: Collaborators, a: Activity)
    requires a.kind == "Undo" && Field(a.obj, "type").Ok? && Field(a.obj, "type").value != Str("Follow")
    ensures Process(s, c, a) == Step(s, None)
  {
  }

  /**
   * Create of a Workout by a known actor, with a known sport and a fresh
   * ap_id, stores it; a Delete of it by the same actor then restores the
   * stores exactly.
   */
  lemma CreateThenDeleteRestores(s: Stores, c: Collaborators, cr: Activity, del: Activity)
    requires cr.kind == "Create" && cr.actor in s.actors && Field(cr.obj, "type") == Ok(Str("Workout"))
    requires "sport_id" in cr.obj.fields && KnownSport(s, cr.obj.fields["sport_id"])
    requires c.newWorkout(cr.obj.fields).Ok? && c.newWorkout(cr.obj.fields).value.apId !in s.workouts
    requires del.kind == "Delete" && del.actor == cr.actor && Contains(del.id, "workout")
    requires del.obj == Obj(map["id" := Str(c.newWorkout(cr.obj.fields).value.apId)])
    ensures var w := c.newWorkout(cr.obj.fields).value.(owner := cr.actor);
            Process(s, c, cr) == Step(s.(workouts := s.workouts[w.apId := w]), None)
    ensures Process(Process(s, c, cr).after, c, del) == Step(s, None)
  {
    var w := c.newWorkout(cr.obj.fields).value.(owner := cr.actor);
    var st1 := Process(s, c, cr);
    assert st1.after == s.(workouts := s.workouts[w.apId := w]);
    assert s.workouts[w.apId := w] - {w.apId} == s.workouts;
  }

  /** Delete or Update of a workout another actor owns raises the mismatch error and changes nothing. */
  lemma ForeignWorkoutUntouched(s: Stores, c: Collaborators, a: Activity, k: string)
    requires a.kind == "Delete" || a.kind == "Update"
    requires a.actor in s.actors && Contains(a.id, "workout")
    requires Field(a.obj, "id") == Ok(Str(k)) && k in s.workouts && s.workouts[k].owner != a.actor
    ensures var name := if a.kind == "Delete" then "DeleteActivity" else "UpdateActivity";
            Process(s, c, a) == Step(s, Some(ActivityError(MismatchMessage(name))))
  {
  }

  /** Delete or Update whose id does not mention a workout does nothing once the actor is known. */
  lemma NonWorkoutIdIgnored(s: Stores, c: Collaborators, a: Activity)
    requires a.kind == "Delete" || a.kind == "Update"
    requires a.actor in s.actors && forall i :: !OccursAt(a.id, "workout", i)
    ensures Process(s, c, a) == Step(s, None)
  {
    ContainsIffOccurs(a.id, "workout");
  }

  /** A Create with a falsy or unknown sport_id raises SportNotFound and adds no workout. */
  lemma UnknownSportRefused(s: Stores, c: Collaborators, a: Activity)
    requires a.kind == "Create" && a.actor in s.actors && Field(a.obj, "type") == Ok(Str("Workout"))
    requires Field(a.obj, "sport_id").Ok? && !KnownSport(s, Field(a.obj, "sport_id").value)
    ensures Process(s, c, a) == Step(s, Some(SportNotFound))
  {
  }

  /**
   * An Update of the actor's own workout whose workout_date does not parse
   * raises ActivityException naming the parse error, and commits none of the
   * fields assigned before it.
   */
  lemma MalformedDateRollsBack(s: Stores, c: Collaborators, a: Activity, k: string)
    requires a.kind == "Update" && a.actor in s.actors && Contains(a.id, "workout")
    requires Field(a.obj, "id") == Ok(Str(k)) && k in s.workouts && s.workouts[k].owner == a.actor
    requires var d := a.obj.fields;
             && "ave_speed" in d && "distance" in d && "duration" in d && "max_speed" in d
             && "moving" in d && "sport_id" in d && "title" in d && "workout_date" in d
             && "workout_visibility" in d
             && c.durationSeconds(d["duration"]).Ok? && c.durationSeconds(d["moving"]).Ok?
             && c.parseWorkoutDate(d["workout_date"]).Err?
    ensures Process(s, c, a) == Step(s, Some(ActivityError(InvalidWorkoutMessage(
              "UpdateActivity", c.parseWorkoutDate(a.obj.fields["workout_date"]).error))))
  {
  }
}
