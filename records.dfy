/**
 * The persisted state the inbound handlers read and change: the domain and
 * actor directory, the follow graph, the store of remote workouts and the
 * sport table; and the collaborators whose code is not part of this model.
 */
module Records {
  import opened Wrappers
  import opened Values
  import FollowGraph

  /** A federation peer, keyed by host name in the directory. */
  datatype Domain = Domain(isRemote: bool)

  /** An actor, keyed by its activitypub_id; `domain` names its Domain. */
  datatype Actor = Actor(apId: string, domain: string)

  /** A timestamp as WORKOUT_DATE_FORMAT ("%Y-%m-%d %H:%M") yields it. */
  datatype DateTime = DateTime(year: int, month: int, day: int, hour: int, minute: int)

  /**
   * A workout received from a peer. `owner` is the activitypub_id of the
   * owning user's actor. The fields an Update assigns from the payload
   * without conversion keep the payload value as it came.
   */
  datatype Workout = Workout(
    apId: string,
    owner: string,
    sportId: Value,
    aveSpeed: Value,
    distance: Value,
    duration: int,        // seconds
    maxSpeed: Value,
    moving: int,          // seconds
    title: Value,
    workoutDate: DateTime,
    workoutVisibility: Value)

  /** The four stores and the sport table. */
  datatype Stores = Stores(
    domains: map<string, Domain>,
    actors: map<string, Actor>,
    follows: FollowGraph.Graph,
    workouts: map<string, Workout>,
    sports: set<int>)
  {
    /**
     * Actors are keyed by activitypub_id and belong to a known domain; follow
     * requests join known actors; workouts are keyed by ap_id and owned by a
     * known actor.
     */
    ghost predicate Valid() {
      && (forall id :: id in actors ==> actors[id].apId == id && actors[id].domain in domains)
      && (forall p :: p in follows ==> p.0 in actors && p.1 in actors)
      && (forall k :: k in workouts ==> workouts[k].apId == k && workouts[k].owner in actors)
    }
  }

  /** `after` keeps every entry of `before` (entries may be added, none changed). */
  ghost predicate Extends<K, V>(before: map<K, V>, after: map<K, V>) {
    forall k :: k in before ==> k in after && after[k] == before[k]
  }

  /**
   * Code outside this model, as functions of its input: the host name
   * get_or_create_remote_domain_from_url derives from an actor URL,
   * convert_duration_string_to_seconds, datetime.strptime with
   * WORKOUT_DATE_FORMAT, and create_workout applied to
   * convert_workout_activity. Each partial one returns the exception it
   * raises.
   */
  datatype Collaborators = Collaborators(
    hostOf: string -> string,
    durationSeconds: Value -> Result<int, PyException>,
    parseWorkoutDate: Value -> Result<DateTime, PyException>,
    newWorkout: map<string, Value> -> Result<Workout, PyException>)
}
