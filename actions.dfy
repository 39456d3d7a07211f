/** What the review actions do to the outside world: requests handed to the REST communicator and
    Qt signals emitted, recorded in order as a trace. */
module Actions {
  import opened Reviews

  /** The signals the actions emit when they are done. */
  datatype Signal = PatchesAdded | ReviewStarted

  /** One observable effect: a POST with a body (`postData`), a POST without one (`post`), or an
      emitted signal. */
  datatype Effect =
    | PostData(path: string, blob: Patch)
    | Post(path: string)
    | Emitted(signal: Signal)

  /** How the communicator answers an outstanding call: `callSuccessful` or `callFailed`. */
  datatype Reply = Success | Failure

  /** A run of `n` successful replies. */
  function Successes(n: nat): (r: seq<Reply>)
    ensures |r| == n && forall i :: 0 <= i < n ==> r[i] == Success
  {
    if n == 0 then [] else [Success] + Successes(n - 1)
  }
}
