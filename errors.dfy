/** The exceptions the federation core raises, as one closed datatype. */
module Errors {
  import opened Values

  datatype Error =
    | ActorNotFound(message: string)                      // ActorNotFoundException
    | ObjectNotFound(kind: string, activityName: string)  // ObjectNotFoundException
    | ActivityError(message: string)                      // ActivityException
    | SportNotFound                                       // SportNotFoundException
    | NotExistingFollowRequest                            // NotExistingFollowRequestError
    | FollowRequestAlreadyProcessed                       // FollowRequestAlreadyProcessedError
    | FollowRequestAlreadyRejected                        // FollowRequestAlreadyRejectedError
    | UnsupportedActivity(kind: string)                   // UnsupportedActivityException
    | InvalidVisibility(message: string)                  // InvalidVisibilityException
    | WorkoutForbidden                                    // WorkoutForbiddenException
    | MissingKey(key: string)                             // KeyError on the payload
    | NotSubscriptable                                    // TypeError on the payload
    | Raised(cause: PyException)                          // raised by a collaborator, passed on unchanged
    | CommitRefused(apId: string)                         // the store's unique key on ap_id refuses a commit

  /** The exception a failed payload subscript raises. */
  function FromAccess(e: AccessError): (r: Error)
    ensures e.KeyError? <==> r.MissingKey?
    ensures e.KeyError? ==> r.key == e.key
  {
    match e
    case KeyError(k) => MissingKey(k)
    case TypeError => NotSubscriptable
  }
}
