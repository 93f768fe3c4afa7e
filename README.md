# FitTrackee federation core, modelled in Dafny

This project models the federation core of FitTrackee. FitTrackee is a
self-hosted workout tracker that exchanges ActivityPub activities with
other servers. The model covers five parts.

- **Inbox handlers.** The handlers of inbound activities
  (`fittrackee/federation/activities/activities.py`):
  - actor resolution, with lazy provisioning of unknown remote actors and
    their domains;
  - the follow-request activities: Follow, Accept, Reject and Undo;
  - the workout activities: Create, Delete and Update. Delete and Update act
    only when the activity id contains `workout`, and only on the actor's own
    workout.
- **Legacy handlers.** The earlier follow-only handlers
  (`fittrackee/federation/activities.py`). They are proved to agree with the
  later ones on every input.
- **Tombstone.** The Delete activity built when a local workout or comment
  is deleted (`fittrackee/federation/objects/tombstone.py`): which objects may
  be announced at all, and how the announcement is addressed.
- **Visibility.** The decision table of `can_view_workout` and
  `get_workout_user_status`, and the access gate of `get_workout`. These
  follow the workout tests case by case.
- **Fan-out.** Which `send_to_remote_inbox.send` calls a new local workout
  triggers, as the workout-creation tests assert.

Each handler is modelled twice:

- a pure function on the stores (`Activities.ProcessX`), returning the new
  stores and the exception raised, if any;
- a method of the class `Inbox.Instance`, whose fields are the stores. It
  updates them step by step, as the ORM session does. It is proved to end in
  exactly the state and error the function gives.

The follow graph (`FollowGraph`) is a map from ordered (follower, followed)
pairs to a status. A pending request is one with `updated_at` unset.
`Records.Stores.Valid` states referential integrity: every actor's domain,
every follow-request endpoint and every workout owner is a known record.
Every activity preserves it.

An activity whose `type` has no handler raises UnsupportedActivity, as the
dispatcher's test shows
(`fittrackee/tests/federation/federation/test_federation_activities.py:38-40`).

## Model

| member | source | states |
|---|---|---|
| Activities.ActivityTypeOf | fittrackee/tests/federation/federation/test_federation_activities.py:27-40 | Each of the seven handled `type` strings selects its own handler. Any other string raises UnsupportedActivity naming the type. |
| Activities.Process | fittrackee/tests/federation/federation/test_federation_activities.py:36-40 | An activity of an unsupported type is refused with UnsupportedActivity and leaves the stores unchanged. |
| Activities.Provision | fittrackee/federation/activities/activities.py:51-58 | Provisioning adds the actor, keyed by its URL and attached to the host's domain. A new host gets a remote domain. Existing domains are kept, follows, workouts and sports are unchanged, and validity is preserved. |
| Activities.GetActor | fittrackee/federation/activities/activities.py:43-63 | A known actor is returned and nothing changes. An unknown one either raises ActorNotFound "actor not found for <name>", or, when creation is asked for, is provisioned. Provisioning adds a remote domain for the actor's host if the host is new. Existing actors and domains are kept; follows, workouts and sports are untouched; validity is preserved. |
| Activities.ObjectActorRef | fittrackee/federation/activities/activities.py:73-80 | The object actor is the `object` string itself. Otherwise it is `object['object']` for an Undo and `object['actor']` for the other types. A missing key gives a KeyError; a non-dict gives a TypeError. |
| Activities.GetActors | fittrackee/federation/activities/activities.py:65-88 | The activity actor is resolved first, then the object actor, which is never provisioned. An unknown object actor raises "object actor not found for <name>". When both actors resolve, the result is the pair (activity actor, object actor). A provisioned activity actor stays provisioned even when the object actor lookup fails. |
| Activities.ProcessFollow | fittrackee/federation/activities/activities.py:97-106 | Follow provisions the follower if needed. It raises FollowRequestAlreadyRejected exactly when the pair's request was rejected. Otherwise an existing request is left as is, or a new pending one is added; no other pair changes. |
| Activities.ProcessAccept | fittrackee/federation/activities/activities.py:109-125 | Accept needs both actors known and the follower's request pending. It then approves that request only. With no request it raises NotExistingFollowRequest; with a processed one, FollowRequestAlreadyProcessed; neither changes anything. |
| Activities.ProcessReject | fittrackee/federation/activities/activities.py:128-144 | Reject behaves like Accept, except that a pending request becomes rejected. |
| Activities.UndoesFollow | fittrackee/federation/activities/activities.py:152-160 | The follower's request to the object actor is removed, whatever its status. Without a request it raises NotExistingFollowRequest. No other pair changes. |
| Activities.ProcessUndo | fittrackee/federation/activities/activities.py:147-150 | Only an Undo whose object type is Follow acts. Any other object type does nothing, not even resolve the actor. An object that cannot be subscripted raises. |
| Activities.SportKey | fittrackee/federation/activities/activities.py:166-171 | A sport id is found exactly when the payload carries an integral number, and it is that number. |
| Activities.CreateRemoteWorkout | fittrackee/federation/activities/activities.py:164-176 | A missing sport_id raises a KeyError. A falsy or unknown sport_id raises SportNotFound. A failure while building the workout raises that exception; a duplicate ap_id raises CommitRefused. Each failure leaves the stores unchanged. Otherwise (known sport, workout built, fresh ap_id) exactly that workout is added, owned by the activity actor, and nothing is raised. |
| Activities.ProcessCreate | fittrackee/federation/activities/activities.py:178-181 | The actor must already exist (no provisioning). Only an object of type Workout is created; other types are ignored. Actors, domains, follows and sports never change. |
| Activities.OwnedWorkout | fittrackee/federation/activities/activities.py:185-197 | The targeted workout is found by `object.id`. A missing workout raises ObjectNotFound. A workout another actor owns raises "<name>: activity actor does not match workout actor.". Success holds exactly when the actor owns the workout. |
| Activities.ProcessDelete | fittrackee/federation/activities/activities.py:184-205 | Once the actor is known, an activity whose id contains `workout` deletes exactly the actor's own workout. Any other id is ignored. On error nothing changes. |
| Activities.UpdatedWorkout | fittrackee/federation/activities/activities.py:231-253 | The nine fields are assigned in source order, with durations and the date converted. For each step, when every earlier step succeeded, a missing key raises KeyError on that key and a failed conversion raises the converter's exception. Success holds exactly when every key is present and every conversion succeeds, and the workout then carries exactly the payload's values. |
| Activities.ProcessUpdate | fittrackee/federation/activities/activities.py:208-264 | Once the actor is known, an activity whose id contains `workout` updates the actor's own workout. Any failure in the try block becomes ActivityException "UpdateActivity: invalid Workout activity (<cls>: <msg>)." and nothing is committed. |
| Activities.ProcessPreservesValid | fittrackee/federation/activities/activities.py:43-264 | Every activity keeps the stores referentially valid: no dangling domain, follow-request endpoint or workout owner. |
| Activities.ProcessFrame | fittrackee/federation/activities/activities.py:97-264 | The sport table never changes, and actors and domains only grow. Only a Follow grows them, only follow activities change the graph, and only workout activities change the workouts. A raising handler leaves the graph and the workouts unchanged. |
| Activities.ResolveTwiceProvisionsOnce | fittrackee/federation/activities/activities.py:47-58 | After a successful resolution, resolving the same actor again finds it and provisions nothing. At most one actor is ever added. |
| Activities.FollowThenAcceptApproves | fittrackee/tests/federation/federation/test_federation_activities.py:303-325 | Follow and then Accept between two known actors leaves the follower approved and changes nothing else. |
| Activities.FollowBetweenKnownActorsSucceeds | fittrackee/federation/activities/activities.py:97-106 | A Follow between two known actors succeeds exactly when their request was not rejected, and then leaves a request that is not rejected. |
| Activities.RejectedFollowIsRefused | fittrackee/tests/federation/federation/test_federation_activities.py:143-160 | Follow, Reject, then Follow again: the second Follow raises FollowRequestAlreadyRejected and the rejection stands. |
| Activities.FollowThenUndoRestores | fittrackee/tests/federation/federation/test_federation_activities.py:470-491 | Follow and then Undo restore the stores exactly. |
| Activities.UndoOfOtherIsNoop | fittrackee/federation/activities/activities.py:147-150 | An Undo whose object is not a Follow changes nothing and raises nothing. |
| Activities.CreateThenDeleteRestores | fittrackee/federation/activities/activities.py:163-205 | A Create of a Workout by a known actor, with a known sport, a workout that builds and a fresh ap_id, stores that workout. Deleting it by the same actor then restores the stores exactly. |
| Activities.ForeignWorkoutUntouched | fittrackee/federation/activities/activities.py:193-197 | A Delete or Update of another actor's workout raises the mismatch error and changes nothing. |
| Activities.NonWorkoutIdIgnored | fittrackee/federation/activities/activities.py:202-205 | A Delete or Update whose id contains no `workout` substring is a no-op once the actor is known. |
| Activities.UnknownSportRefused | fittrackee/federation/activities/activities.py:164-171 | A Create with a falsy or unknown sport_id raises SportNotFound and adds nothing. |
| Activities.MalformedDateRollsBack | fittrackee/federation/activities/activities.py:231-259 | An Update whose workout_date does not parse raises an ActivityException naming the parse error. None of the fields assigned before the failure are kept. |
| Values.ContainsIffOccurs | fittrackee/federation/activities/activities.py:204 | Python's substring test `'workout' in id` holds exactly when the pattern occurs at some position. |
| FollowGraph.SendRequest | fittrackee/tests/federation/federation/test_federation_activities.py:143-233 | A rejected request is refused. An existing one is left untouched. Otherwise a pending request is added, and no other pair changes. |
| FollowGraph.Approve | fittrackee/tests/federation/federation/test_federation_activities.py:269-325 | Only a pending request can be approved. A missing one raises NotExistingFollowRequest; a processed one raises FollowRequestAlreadyProcessed. |
| FollowGraph.Reject | fittrackee/tests/federation/federation/test_federation_activities.py:328-417 | Only a pending request can be rejected, with the same two errors. |
| FollowGraph.Undo | fittrackee/tests/federation/federation/test_federation_activities.py:453-491 | Any existing request is removed whatever its status. A missing one raises NotExistingFollowRequest. |
| FollowGraph.ProcessedIsFinal | fittrackee/tests/federation/federation/test_federation_activities.py:285-301 | A processed request cannot be approved or rejected again. A new Follow does not revive it. Only an Undo removes it. |
| FollowGraph.ApproveTwiceFails | fittrackee/federation/activities/activities.py:109-125 | Request, approve, approve: the second approval raises FollowRequestAlreadyProcessed. |
| FollowGraph.RequestThenUndoRestores | fittrackee/tests/federation/federation/test_federation_activities.py:470-491 | A new request followed by its undo gives back the original graph. |
| LegacyActivities.GetActors | fittrackee/federation/activities.py:29-67 | This is the combined resolution. The activity actor is looked up first and provisioned only on request. The object actor is looked up by the same key rule and never provisioned. |
| LegacyActivities.SameResolution | fittrackee/federation/activities.py:29-67 | The combined resolution equals the split one (get_actor, then the object actor) on every input, including the stores it leaves. |
| LegacyActivities.ProcessFollow | fittrackee/federation/activities.py:76-85 | The legacy Follow handler equals the later one on every input. |
| LegacyActivities.ProcessAccept | fittrackee/federation/activities.py:88-104 | The legacy Accept handler equals the later one on every input. |
| LegacyActivities.ProcessReject | fittrackee/federation/activities.py:107-123 | The legacy Reject handler equals the later one on every input. |
| LegacyActivities.ProcessUndo | fittrackee/federation/activities.py:126-139 | The legacy Undo handler equals the later one on every input. |
| LegacyActivities.ActivityActorCheckedFirst | fittrackee/federation/activities.py:35-50 | When neither actor is known, the error names the activity actor, not the object actor. |
| Tombstone.ObjectVisibility | fittrackee/federation/objects/tombstone.py:41-44 | A comment is governed by its text visibility and a workout by its workout visibility. |
| Tombstone.New | fittrackee/federation/objects/tombstone.py:19-39 | Construction succeeds exactly when that visibility is public or followers-and-remote, or the object is a comment with remote mentions. Otherwise it raises InvalidVisibility "object visibility is: '<value>'". A built object keeps the governing visibility, and a local-only one is always a comment with remote mentions. |
| Tombstone.Mentions | fittrackee/federation/objects/tombstone.py:63-69 | The mentioned users are exactly the local and the remote mentions, each listed once. |
| Tombstone.GetActivity | fittrackee/federation/objects/tombstone.py:46-75 | The id is `<ap_id>/delete`, the type is Delete, the actor is the owner, and the object is a Tombstone with the object's ap_id. Public objects go to the public stream with the followers in copy. Private and followers-only objects go to exactly the mentioned users. Any other object goes to the followers collection. |
| Tombstone.WorkoutTombstoneAddressing | fittrackee/federation/objects/tombstone.py:19-75 | A private or followers-only workout is refused. A deleted workout is otherwise addressed only to the public stream or to the followers collection. |
| Tombstone.PublicStreamOnlyWhenPublic | fittrackee/federation/objects/tombstone.py:58-74 | The public stream is addressed exactly when the object is public. |
| Visibility.CanViewWorkout | fittrackee/tests/workouts/test_workouts_utils_visibility.py:15-179 | The relation is owner, follower (approved request) or other. The owner always sees. Nobody else sees a private field. A follower also sees followers-only and followers-and-remote fields. Everybody sees a public field. |
| Visibility.GetWorkoutUserStatus | fittrackee/tests/workouts/test_workouts_utils_visibility.py:351-380 | The status is the relation `can_view_workout` reports, and it is owner exactly for the owner. |
| Visibility.GetWorkout | fittrackee/tests/workouts/test_utils/test_workouts.py:201-452 | A viewer the owner blocks is refused. Otherwise the workout is returned exactly when the viewer may see it, and refused with WorkoutForbidden otherwise. |
| Visibility.AnonymousIsStranger | fittrackee/tests/workouts/test_workouts_utils_visibility.py:151-179 | An unauthenticated viewer is judged like a user who neither owns nor follows, and sees only public fields. |
| Visibility.MapUsesSameTable | fittrackee/tests/workouts/test_workouts_utils_visibility.py:182-348 | The map is judged by the same table, on the map visibility alone. |
| Visibility.OpeningNeverHides | fittrackee/tests/workouts/test_workouts_utils_visibility.py:15-136 | Raising a field's visibility never hides it from anyone who could see it. |
| Visibility.ApprovalGrantsFollowerView | fittrackee/tests/workouts/test_workouts_utils_visibility.py:48-93 | Approving a pending request makes the requester a follower, who then sees every field that is not private. |
| Visibility.AdminGetsNoExtraAccess | fittrackee/tests/workouts/test_utils/test_workouts.py:361-373 | Admin rights do not change the gate's answer. An admin who neither owns nor follows is refused a private or followers-only workout. |
| Visibility.BlockedRefusedEvenWhenPublic | fittrackee/tests/workouts/test_utils/test_workouts.py:271-282 | A blocked viewer is refused even a public workout that an anonymous viewer gets. |
| FanOut.Sends | fittrackee/tests/federation/workouts/test_workouts_api_post.py:20-203 | Nothing is sent for a private or followers-only workout. Otherwise there are at most two sends, each from the owner and each to a non-empty list of distinct inboxes. FitTrackee peers get the workout activity; other software gets the note. |
| FanOut.RecipientsAreRemoteFollowers | fittrackee/tests/federation/workouts/test_workouts_api_post.py:115-203 | Every remote follower's shared inbox receives the payload its instance takes. Every recipient is the shared inbox of such a follower. |
| FanOut.LocalFollowersOnlyNoSend | fittrackee/tests/federation/workouts/test_workouts_api_post.py:20-49 | With only local followers nothing is sent, whatever the visibility. |
| FanOut.SinglePeerGetsWorkoutActivity | fittrackee/tests/federation/workouts/test_workouts_api_post.py:115-159 | A single remote FitTrackee follower gets exactly one send: the workout activity, to its shared inbox. |
| FanOut.SingleOtherGetsNote | fittrackee/tests/federation/workouts/test_workouts_api_post.py:161-203 | A single follower on other remote software gets exactly one send: the note activity, to its shared inbox. |
| FanOut.MapVisibilityIgnored | fittrackee/tests/federation/workouts/test_workouts_api_post.py:310-347 | The map visibility does not affect what is sent. |
| FanOut.SendsForAll | fittrackee/tests/federation/workouts/test_workouts_api_post.py:389-492 | The sends for the workouts of one archive are exactly the sends of each of its workouts, at most two per workout. |
| FanOut.OneSendPerWorkout | fittrackee/tests/federation/workouts/test_workouts_api_post.py:389-440 | For one FitTrackee follower, an archive of n workouts gives exactly n sends, one workout-activity send per workout, to that follower's shared inbox. |
| FanOut.OneNotePerWorkout | fittrackee/tests/federation/workouts/test_workouts_api_post.py:442-492 | For one follower on other remote software, an archive of n workouts gives exactly n sends, one note send per workout, to that follower's shared inbox. |
| Inbox.Instance.GetActor | fittrackee/federation/activities/activities.py:43-63 | The in-place lookup and provisioning end in the state and result of Activities.GetActor. |
| Inbox.Instance.GetActors | fittrackee/federation/activities/activities.py:65-88 | The in-place resolution of both actors ends in the state and result of Activities.GetActors. |
| Inbox.Instance.ProcessFollow | fittrackee/federation/activities/activities.py:97-106 | The state and the raised error are those of Activities.ProcessFollow. |
| Inbox.Instance.ProcessAccept | fittrackee/federation/activities/activities.py:109-125 | The state and the raised error are those of Activities.ProcessAccept. |
| Inbox.Instance.ProcessReject | fittrackee/federation/activities/activities.py:128-144 | The state and the raised error are those of Activities.ProcessReject. |
| Inbox.Instance.ProcessUndo | fittrackee/federation/activities/activities.py:147-160 | The state and the raised error are those of Activities.ProcessUndo. |
| Inbox.Instance.CreateRemoteWorkout | fittrackee/federation/activities/activities.py:164-176 | The state and the raised error are those of Activities.CreateRemoteWorkout. |
| Inbox.Instance.ProcessCreate | fittrackee/federation/activities/activities.py:178-181 | The state and the raised error are those of Activities.ProcessCreate. |
| Inbox.Instance.ProcessDelete | fittrackee/federation/activities/activities.py:184-205 | The state and the raised error are those of Activities.ProcessDelete. |
| Inbox.Instance.UpdateRemoteWorkout | fittrackee/federation/activities/activities.py:217-259 | The field-by-field update of a working copy, committed only when all nine assignments succeed, gives the state and error of Activities.ProcessUpdate. |
| Inbox.Instance.ProcessUpdate | fittrackee/federation/activities/activities.py:261-264 | The state and the raised error are those of Activities.ProcessUpdate. |
| Inbox.Instance.ProcessActivity | fittrackee/tests/federation/federation/test_federation_activities.py:27-40 | Dispatch by type gives the state and error of Activities.Process, and valid stores stay valid. |

## Left out

- HTTP and the network are not modelled. The remote lookups of `get_or_create_remote_domain_from_url` and `create_remote_user` become a provisioning step. Its only input is the host a collaborator function extracts from the actor URL.
- The JSON-LD `@context` of the Delete activity is not modelled.
- `appLog` logging is not modelled.
- The database session is not modelled. Of the commit failures, only the unique ap_id of a new workout is modelled, as CommitRefused.
- Some code the handlers call is outside the model and is taken as uninterpreted functions: `convert_duration_string_to_seconds`, the `strptime` of workout_date, and `convert_workout_activity` followed by `create_workout`.
- Activities.UpdatedWorkout: Update stores sport_id and workout_visibility without checking them, as the handler does. The database's own checks at commit (the sport foreign key, the visibility enumeration) are not modelled. In the code, such a commit failure is also reported as an invalid Workout activity.
- The lookups by `object.id` (Delete, Update) and by the object actor's id are database equality filters on whatever JSON value the payload holds. The model treats any value that is not a string as not found. In the code, `null` becomes an `IS NULL` filter, and a number or an object may raise a database error.
- The order of the archive sends is not modelled as a promise: the model lists them in creation order, and the tests accept any order.
- The activity envelope's `id`, `type` and `actor` are taken to be present strings. A payload missing one of them, which raises KeyError in the code, is not modelled.
- JSON numbers are reals: the int/float distinction of Python is lost. A sport_id names a sport only when it is an integral number.
- Workout durations are whole seconds. A workout date is an opaque value.
- The follow-request timestamps are reduced to a status: pending (`updated_at` unset), approved or rejected.
- `send_follow_request_to`, `approves_follow_request_from`, `rejects_follow_request_from` and `undoes_follow` of the users model are not part of this model. Their behaviour is taken from the federation tests.
- `can_view_workout`, `get_workout_user_status` and `get_workout` are not part of this model. Their behaviour is taken from the visibility and workout tests. No test pins the followers-and-remote level, so the model treats it like followers-only for viewing.
- The user-blocking relation is a set of (owner, blocked) pairs. How blocks are created is not modelled.
- The fan-out code is not part of this model. Its rule comes from the workout-creation tests, which show one follower at a time. For several followers the model also sends each shared inbox once, with at most one workout-activity send and one note send per workout.
- The payloads of the fan-out are only named (workout activity, note activity). Their JSON content is not modelled.
- `handle_mentions` is not modelled. The comment's local and remote mentioned users are inputs.
- Tombstone.Mentions: the model lists local mentions before remote ones. The code builds a Python set union, whose order is unspecified, so only membership and the absence of repeats are stated.
- `fittrackee/utils.py` is not modelled, since none of the modelled operations depend on it.
- Activities.Process: its own contract states only the unsupported-type case. What each supported type does is stated by each handler's contract, and by ProcessFrame and ProcessPreservesValid about Process itself.
- Concurrency and the serialisation of concurrent deliveries are not modelled. Each activity is processed alone.
