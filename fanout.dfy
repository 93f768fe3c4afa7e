/**
 * The outbound fan-out when a local user creates a workout: which calls to
 * send_to_remote_inbox.send it makes. The code is not part of this model;
 * the rule is the one the workout creation tests assert. Only a workout that
 * may leave the instance is sent; approved followers on a remote FitTrackee
 * instance receive the workout activity, those on any other remote
 * software receive the note activity, each through its shared inbox.
 */
module FanOut {
  import opened Privacy
  import opened Lists

  /** Where an approved follower lives. */
  datatype Instance = Local | RemoteFitTrackee | RemoteOther

  /** An approved follower of the workout's owner. */
  datatype Follower = Follower(actorId: string, instance: Instance, sharedInbox: string)

  /** The workout just created: its id, its owner's actor id, and its two visibility levels. */
  datatype LocalWorkout = LocalWorkout(id: string, ownerActorId: string, workoutVisibility: PrivacyLevel,
                                       mapVisibility: PrivacyLevel)

  /** The two activities get_activities returns for a workout: the workout one first, the note second. */
  datatype Payload = WorkoutActivity(workoutId: string) | NoteActivity(workoutId: string)

  /** One call send(sender_id, activity, recipients). */
  datatype Send = Send(senderId: string, activity: Payload, recipients: seq<string>)

  /** The shared inboxes of the followers on instances of kind `instance`, in follower order. */
  function Inboxes(followers: seq<Follower>, instance: Instance): (r: seq<string>)
    ensures forall x :: x in r <==> exists f :: f in followers && f.instance == instance && f.sharedInbox == x
    decreases |followers|
  {
    if followers == [] then []
    else
      var init := followers[..|followers| - 1];
      var f := followers[|followers| - 1];
      assert forall g :: g in followers <==> g in init || g == f by {
        assert followers == init + [f];
      }
      var rest := Inboxes(init, instance);
      if f.instance == instance then rest + [f.sharedInbox] else rest
  }

  /** The kind of payload a follower's instance receives. */
  function PayloadFor(instance: Instance, workoutId: string): Payload {
    if instance == RemoteFitTrackee then WorkoutActivity(workoutId) else NoteActivity(workoutId)
  }

  /** The activity a call carries goes with the instance kind it serves. */
  function Audience(p: Payload): Instance {
    if p.WorkoutActivity? then RemoteFitTrackee else RemoteOther
  }

  /** A send of `payload` to `inboxes`, or none when there is no inbox to send to. */
  function SendTo(sender: string, payload: Payload, inboxes: seq<string>): (r: seq<Send>)
    ensures |r| <= 1
    ensures r != [] <==> inboxes != []
    ensures forall snd :: snd in r ==> snd == Send(sender, payload, inboxes)
  {
    if inboxes == [] then [] else [Send(sender, payload, inboxes)]
  }

  /**
   * The sends for one workout: none unless its workout visibility is
   * followers-and-remote or public; then one workout-activity send to the
   * FitTrackee peers and one note send to the other remote instances, each
   * skipped when it would have no recipient.
   */
  function Sends(w: LocalWorkout, followers: seq<Follower>): (r: seq<Send>)
    ensures LocalOnly(w.workoutVisibility) ==> r == []
    ensures |r| <= 2
    ensures forall snd :: snd in r ==>
              && snd.senderId == w.ownerActorId
              && snd.activity == PayloadFor(Audience(snd.activity), w.id)
              && snd.recipients != [] && NoDuplicates(snd.recipients)
  {
    if LocalOnly(w.workoutVisibility) then []
    else
      SendTo(w.ownerActorId, WorkoutActivity(w.id), Dedup(Inboxes(followers, RemoteFitTrackee)))
      + SendTo(w.ownerActorId, NoteActivity(w.id), Dedup(Inboxes(followers, RemoteOther)))
  }

  /**
   * The recipients are exactly the shared inboxes of the remote followers:
   * each remote follower's inbox is in the send carrying the payload its
   * instance takes, and every recipient is the inbox of such a follower.
   */
  lemma {:induction false} RecipientsAreRemoteFollowers(w: LocalWorkout, followers: seq<Follower>)
    requires !LocalOnly(w.workoutVisibility)
    ensures forall f :: f in followers && f.instance != Local ==>
              exists snd :: snd in Sends(w, followers) && snd.activity == PayloadFor(f.instance, w.id)
                            && f.sharedInbox in snd.recipients
    ensures forall snd, x :: snd in Sends(w, followers) && x in snd.recipients ==>
              exists f :: f in followers && f.instance == Audience(snd.activity) && f.sharedInbox == x
  {
    var peers := Dedup(Inboxes(followers, RemoteFitTrackee));
    var others := Dedup(Inboxes(followers, RemoteOther));
    var r := Sends(w, followers);
    assert r == SendTo(w.ownerActorId, WorkoutActivity(w.id), peers)
                + SendTo(w.ownerActorId, NoteActivity(w.id), others);
    forall f | f in followers && f.instance != Local
      ensures exists snd :: snd in r && snd.activity == PayloadFor(f.instance, w.id) && f.sharedInbox in snd.recipients
    {
      if f.instance == RemoteFitTrackee {
        assert f.sharedInbox in peers;
        assert Send(w.ownerActorId, WorkoutActivity(w.id), peers) in r;
      } else {
        assert f.sharedInbox in others;
        assert Send(w.ownerActorId, NoteActivity(w.id), others) in r;
      }
    }
    forall snd, x | snd in r && x in snd.recipients
      ensures exists f :: f in followers && f.instance == Audience(snd.activity) && f.sharedInbox == x
    {
      if snd.activity.WorkoutActivity? {
        assert snd in SendTo(w.ownerActorId, WorkoutActivity(w.id), peers);
        assert x in Inboxes(followers, RemoteFitTrackee);
      } else {
        assert snd in SendTo(w.ownerActorId, NoteActivity(w.id), others);
        assert x in Inboxes(followers, RemoteOther);
      }
    }
  }

  /**
   * The sends for the workouts created together (an archive creates
   * several): exactly the sends of each workout, at most two per workout.
   */
  function SendsForAll(ws: seq<LocalWorkout>, followers: seq<Follower>): (r: seq<Send>)
    ensures |r| <= 2 * |ws|
    ensures forall snd :: snd in r <==> exists i :: 0 <= i < |ws| && snd in Sends(ws[i], followers)
    decreases |ws|
  {
    if ws == [] then []
    else
      var rest := SendsForAll(ws[1..], followers);
      assert forall i :: 1 <= i < |ws| ==> ws[1..][i - 1] == ws[i];
      Sends(ws[0], followers) + rest
  }

  /** With only local followers nothing is sent, whatever the visibility. */
  lemma LocalFollowersOnlyNoSend(w: LocalWorkout, followers: seq<Follower>)
    requires forall f :: f in followers ==> f.instance == Local
    ensures Sends(w, followers) == []
  {
    NoInboxWithoutFollower(followers, RemoteFitTrackee);
    NoInboxWithoutFollower(followers, RemoteOther);
  }

  /** No follower on an instance of that kind, no inbox of that kind. */
  lemma {:induction false} NoInboxWithoutFollower(followers: seq<Follower>, instance: Instance)
    requires forall f :: f in followers ==> f.instance != instance
    ensures Inboxes(followers, instance) == []
    decreases |followers|
  {
    if followers != [] {
      var init := followers[..|followers| - 1];
      assert forall f :: f in init ==> f in followers;
      NoInboxWithoutFollower(init, instance);
      assert followers[|followers| - 1] in followers;
    }
  }

  /** A single follower on a remote FitTrackee instance: exactly one send, of the workout activity, to its shared inbox. */
  lemma SinglePeerGetsWorkoutActivity(w: LocalWorkout, f: Follower)
    requires !LocalOnly(w.workoutVisibility) && f.instance == RemoteFitTrackee
    ensures Sends(w, [f]) == [Send(w.ownerActorId, WorkoutActivity(w.id), [f.sharedInbox])]
  {
    assert [f][..0] == [];
    assert Inboxes([f], RemoteFitTrackee) == [f.sharedInbox];
    assert Inboxes([f], RemoteOther) == [];
    assert Dedup([f.sharedInbox]) == [f.sharedInbox] by {
      assert [f.sharedInbox][..0] == [];
    }
  }

  /** A single follower on another remote software: exactly one send, of the note activity, to its shared inbox. */
  lemma SingleOtherGetsNote(w: LocalWorkout, f: Follower)
    requires !LocalOnly(w.workoutVisibility) && f.instance == RemoteOther
    ensures Sends(w, [f]) == [Send(w.ownerActorId, NoteActivity(w.id), [f.sharedInbox])]
  {
    assert [f][..0] == [];
    assert Inboxes([f], RemoteFitTrackee) == [];
    assert Inboxes([f], RemoteOther) == [f.sharedInbox];
    assert Dedup([f.sharedInbox]) == [f.sharedInbox] by {
      assert [f.sharedInbox][..0] == [];
    }
  }

  /** The map visibility plays no part in the decision. */
  lemma MapVisibilityIgnored(w: LocalWorkout, followers: seq<Follower>, level: PrivacyLevel)
    ensures Sends(w.(mapVisibility := level), followers) == Sends(w, followers)
  {
  }

  /**
   * Several workouts created together for one FitTrackee peer follower:
   * one workout-activity send per workout.
   */
  lemma {:induction false} OneSendPerWorkout(ws: seq<LocalWorkout>, f: Follower)
    requires f.instance == RemoteFitTrackee
    requires forall w :: w in ws ==> !LocalOnly(w.workoutVisibility)
    ensures |SendsForAll(ws, [f])| == |ws|
    ensures forall i :: 0 <= i < |ws| ==>
              SendsForAll(ws, [f])[i] == Send(ws[i].ownerActorId, WorkoutActivity(ws[i].id), [f.sharedInbox])
    decreases |ws|
  {
    if ws != [] {
      SinglePeerGetsWorkoutActivity(ws[0], f);
      OneSendPerWorkout(ws[1..], f);
      var rest := SendsForAll(ws[1..], [f]);
      assert SendsForAll(ws, [f]) == Sends(ws[0], [f]) + rest;
      forall i | 1 <= i < |ws|
        ensures SendsForAll(ws, [f])[i] == Send(ws[i].ownerActorId, WorkoutActivity(ws[i].id), [f.sharedInbox])
      {
        assert ws[1..][i - 1] == ws[i];
      }
    }
  }

  /**
   * Several workouts created together for one follower on other remote
   * software: one note send per workout.
   */
  lemma {:induction false} OneNotePerWorkout(ws: seq<LocalWorkout>, f: Follower)
    requires f.instance == RemoteOther
    requires forall w :: w in ws ==> !LocalOnly(w.workoutVisibility)
    ensures |SendsForAll(ws, [f])| == |ws|
    ensures forall i :: 0 <= i < |ws| ==>
              SendsForAll(ws, [f])[i] == Send(ws[i].ownerActorId, NoteActivity(ws[i].id), [f.sharedInbox])
    decreases |ws|
  {
    if ws != [] {
      SingleOtherGetsNote(ws[0], f);
      OneNotePerWorkout(ws[1..], f);
      var rest := SendsForAll(ws[1..], [f]);
      assert SendsForAll(ws, [f]) == Sends(ws[0], [f]) + rest;
      forall i | 1 <= i < |ws|
        ensures SendsForAll(ws, [f])[i] == Send(ws[i].ownerActorId, NoteActivity(ws[i].id), [f.sharedInbox])
      {
        assert ws[1..][i - 1] == ws[i];
      }
    }
  }
}
