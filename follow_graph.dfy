/**
 * The follow graph: at most one follow request per ordered pair
 * (follower, followed), each pending, approved or rejected. The four
 * operations the inbound handlers call (send_follow_request_to,
 * approves_follow_request_from, rejects_follow_request_from, undoes_follow)
 * are not part of this model's source; their behaviour is the one the
 * federation tests assert.
 */
module FollowGraph {
  import opened Wrappers
  import opened Errors

  /** Pending: updated_at is None; Approved / Rejected: is_approved after processing. */
  datatype Status = Pending | Approved | Rejected

  /** (follower activitypub_id, followed activitypub_id) */
  type Pair = (string, string)

  type Graph = map<Pair, Status>

  /** `h` agrees with `g` on every pair except `p`. */
  ghost predicate SameElsewhere(g: Graph, h: Graph, p: Pair) {
    forall q :: q != p ==> (q in g <==> q in h) && (q in g ==> g[q] == h[q])
  }

  /** `follower` has an approved request pointed at `followed`. */
  predicate IsApprovedFollower(g: Graph, follower: string, followed: string) {
    (follower, followed) in g && g[(follower, followed)] == Approved
  }

  /**
   * send_follow_request_to: a rejected request is refused, an existing one is
   * left as it is, otherwise a new pending request is stored.
   */
  function SendRequest(g: Graph, follower: string, followed: string): (r: Result<Graph, Error>)
    ensures r.Err? <==> (follower, followed) in g && g[(follower, followed)] == Rejected
    ensures r.Err? ==> r.error == FollowRequestAlreadyRejected
    ensures r.Ok? && (follower, followed) in g ==> r.value == g
    ensures r.Ok? ==> (follower, followed) in r.value && r.value[(follower, followed)] != Rejected
    ensures r.Ok? && (follower, followed) !in g ==> r.value[(follower, followed)] == Pending
    ensures r.Ok? ==> SameElsewhere(g, r.value, (follower, followed))
  {
    var p := (follower, followed);
    if p !in g then Ok(g[p := Pending])
    else if g[p] == Rejected then Err(FollowRequestAlreadyRejected)
    else Ok(g)
  }

  /** The shared decision of approving and rejecting: settle a pending request to `outcome`. */
  function Settle(g: Graph, follower: string, followed: string, outcome: Status): (r: Result<Graph, Error>)
    requires outcome != Pending
    ensures (follower, followed) !in g <==> r == Err(NotExistingFollowRequest)
    ensures ((follower, followed) in g && g[(follower, followed)] != Pending)
            <==> r == Err(FollowRequestAlreadyProcessed)
    ensures r.Ok? <==> (follower, followed) in g && g[(follower, followed)] == Pending
    ensures r.Ok? ==> (follower, followed) in r.value && r.value[(follower, followed)] == outcome
    ensures r.Ok? ==> SameElsewhere(g, r.value, (follower, followed))
  {
    var p := (follower, followed);
    if p !in g then Err(NotExistingFollowRequest)
    else if g[p] != Pending then Err(FollowRequestAlreadyProcessed)
    else Ok(g[p := outcome])
  }

  /** approves_follow_request_from, called on `followed` with `follower`. */
  function Approve(g: Graph, follower: string, followed: string): (r: Result<Graph, Error>)
    ensures r.Ok? <==> (follower, followed) in g && g[(follower, followed)] == Pending
    ensures r.Ok? ==> IsApprovedFollower(r.value, follower, followed)
    ensures r.Ok? ==> SameElsewhere(g, r.value, (follower, followed))
    ensures r.Err? ==> r.error == (if (follower, followed) in g then FollowRequestAlreadyProcessed
                                   else NotExistingFollowRequest)
  {
    Settle(g, follower, followed, Approved)
  }

  /** rejects_follow_request_from, called on `followed` with `follower`. */
  function Reject(g: Graph, follower: string, followed: string): (r: Result<Graph, Error>)
    ensures r.Ok? <==> (follower, followed) in g && g[(follower, followed)] == Pending
    ensures r.Ok? ==> (follower, followed) in r.value && r.value[(follower, followed)] == Rejected
    ensures r.Ok? ==> SameElsewhere(g, r.value, (follower, followed))
    ensures r.Err? ==> r.error == (if (follower, followed) in g then FollowRequestAlreadyProcessed
                                   else NotExistingFollowRequest)
  {
    Settle(g, follower, followed, Rejected)
  }

  /** undoes_follow, called on `followed` with `follower`: removes the request whatever its status. */
  function Undo(g: Graph, follower: string, followed: string): (r: Result<Graph, Error>)
    ensures r.Err? <==> (follower, followed) !in g
    ensures r.Err? ==> r.error == NotExistingFollowRequest
    ensures r.Ok? ==> (follower, followed) !in r.value && SameElsewhere(g, r.value, (follower, followed))
  {
    var p := (follower, followed);
    if p !in g then Err(NotExistingFollowRequest) else Ok(g - {p})
  }

  /**
   * A processed request stays processed: approving or rejecting it again
   * fails, and a new follow request neither revives nor replaces it. Only an
   * undo removes it.
   */
  lemma ProcessedIsFinal(g: Graph, follower: string, followed: string)
    requires (follower, followed) in g && g[(follower, followed)] != Pending
    ensures Approve(g, follower, followed) == Err(FollowRequestAlreadyProcessed)
    ensures Reject(g, follower, followed) == Err(FollowRequestAlreadyProcessed)
    ensures SendRequest(g, follower, followed).Ok? ==> SendRequest(g, follower, followed).value == g
    ensures Undo(g, follower, followed).Ok?
  {
  }

  /** Request, approve, approve: the second approval fails as already processed. */
  lemma ApproveTwiceFails(g: Graph, follower: string, followed: string)
    requires (follower, followed) !in g
    ensures SendRequest(g, follower, followed).Ok?
    ensures var g1 := SendRequest(g, follower, followed).value;
            Approve(g1, follower, followed).Ok? &&
            Approve(Approve(g1, follower, followed).value, follower, followed)
              == Err(FollowRequestAlreadyProcessed)
  {
  }

  /** Request, undo: the pair is back where it started, everything else untouched. */
  lemma {:induction false} RequestThenUndoRestores(g: Graph, follower: string, followed: string)
    requires (follower, followed) !in g
    ensures SendRequest(g, follower, followed).Ok?
    ensures Undo(SendRequest(g, follower, followed).value, follower, followed) == Ok(g)
  {
    var p := (follower, followed);
    var g1 := SendRequest(g, follower, followed).value;
    assert g1 - {p} == g;
  }
}
