/** `StartReviewAction`: one POST that asks the server to approve (start) the review, and the
    `reviewStarted` signal when it succeeds. */
module StartReview {
  import opened Reviews
  import opened Actions

  /** The transition request that starts the review `id`. */
  function StartPath(id: string): string {
    id + "/transition?action=action:approveReview"
  }

  /** The action's state: the trace of effects and how many calls await a reply. */
  datatype CallState = CallState(effects: seq<Effect>, inFlight: nat)

  /** `run`: post the transition. */
  function StartRun(s: CallState, id: string): CallState {
    CallState(s.effects + [Post(StartPath(id))], s.inFlight + 1)
  }

  /** `callSuccessful`: emit `reviewStarted`. */
  function StartSucceeded(s: CallState): CallState
    requires s.inFlight > 0
  {
    CallState(s.effects + [Emitted(ReviewStarted)], s.inFlight - 1)
  }

  /** `callFailed`: only logged. */
  function StartFailed(s: CallState): CallState
    requires s.inFlight > 0
  {
    s.(inFlight := s.inFlight - 1)
  }

  /** The state after the communicator answers with `replies`, one per outstanding call; replies
      beyond the calls made are never delivered. */
  function DeliverStart(s: CallState, replies: seq<Reply>): CallState
    decreases |replies|
  {
    if replies == [] || s.inFlight == 0 then s
    else if replies[0] == Success then DeliverStart(StartSucceeded(s), replies[1..])
    else DeliverStart(StartFailed(s), replies[1..])
  }

  /** One run is one shot: exactly one POST, to the review's transition path; `reviewStarted`
      follows exactly when the first reply is a success; a failure is not retried and emits
      nothing; later replies change nothing. */
  lemma OneShot(s: CallState, id: string, replies: seq<Reply>)
    requires s.inFlight == 0
    ensures var after := DeliverStart(StartRun(s, id), replies);
      && after.effects == s.effects + [Post(StartPath(id))]
           + (if replies != [] && replies[0] == Success then [Emitted(ReviewStarted)] else [])
      && after.inFlight == (if replies == [] then 1 else 0)
  {
  }

  /** Replies only ever add `reviewStarted` signals to the trace, at most one per outstanding
      call: the signal only answers a post. */
  lemma {:induction false} SignalOnlyAnswersPost(s: CallState, replies: seq<Reply>)
    ensures var after := DeliverStart(s, replies);
      && |s.effects| <= |after.effects|
      && |after.effects| + after.inFlight <= |s.effects| + s.inFlight
      && after.effects[..|s.effects|] == s.effects
      && forall i :: |s.effects| <= i < |after.effects| ==> after.effects[i] == Emitted(ReviewStarted)
    decreases |replies|
  {
    if replies != [] && s.inFlight > 0 {
      var next := if replies[0] == Success then StartSucceeded(s) else StartFailed(s);
      SignalOnlyAnswersPost(next, replies[1..]);
      var after := DeliverStart(s, replies);
      assert after == DeliverStart(next, replies[1..]);
      assert after.effects[..|next.effects|] == next.effects;
      forall i | |s.effects| <= i < |next.effects|
        ensures after.effects[i] == Emitted(ReviewStarted)
      {
        assert after.effects[i] == next.effects[i];
      }
    }
  }

  class StartReviewAction {
    const review: Review
    /** The posts made through the communicator and the signals emitted, in order. */
    var effects: seq<Effect>
    /** Calls made and not yet answered. */
    ghost var inFlight: nat

    ghost function State(): CallState
      reads this
    {
      CallState(effects, inFlight)
    }

    constructor (review: Review)
      ensures this.review == review && State() == CallState([], 0)
    {
      this.review := review;
      effects, inFlight := [], 0;
    }

    method Run()
      modifies this
      ensures State() == StartRun(old(State()), review.id)
      ensures unchanged(review)
    {
      effects := effects + [Post(StartPath(review.id))];
      inFlight := inFlight + 1;
    }

    method CallFailed()
      requires inFlight > 0
      modifies this
      ensures State() == StartFailed(old(State()))
      ensures unchanged(review)
    {
      inFlight := inFlight - 1;
    }

    method CallSuccessful()
      requires inFlight > 0
      modifies this
      ensures State() == StartSucceeded(old(State()))
      ensures unchanged(review)
    {
      effects := effects + [Emitted(ReviewStarted)];
      inFlight := inFlight - 1;
    }
  }
}
