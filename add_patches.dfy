/** `AddPatchesAction`: uploads the Review's patches one at a time. `run` copies the patches onto a
    stack and pops the first; every successful reply pops the next one, and the empty stack emits
    `patchesAdded`. A failed reply is only logged. */
module AddPatches {
  import opened Reviews
  import opened Actions

  /** The path the patches are posted to. */
  function AddPatchPath(id: string): string {
    id + "/addPatch"
  }

  /** The action's state: the stack `m_patches` (its top is the last element), the trace of
      effects, and how many calls await a reply. */
  datatype QueueState = QueueState(pending: seq<Patch>, effects: seq<Effect>, inFlight: nat)

  /** `doPatchQueue`: on an empty stack, emit `patchesAdded`; otherwise pop the top blob and post it. */
  function QueueStep(q: QueueState, id: string): QueueState {
    if q.pending == [] then
      q.(effects := q.effects + [Emitted(PatchesAdded)])
    else
      var top := q.pending[|q.pending| - 1];
      QueueState(q.pending[..|q.pending| - 1], q.effects + [PostData(AddPatchPath(id), top)], q.inFlight + 1)
  }

  /** `run`: the stack becomes the Review's patches; the queue starts when there are any. */
  function RunStep(q: QueueState, patches: seq<Patch>, id: string): QueueState {
    if patches == [] then q.(pending := []) else QueueStep(q.(pending := patches), id)
  }

  /** `callSuccessful`: the outstanding call is answered and the queue moves on. */
  function SuccessStep(q: QueueState, id: string): QueueState
    requires q.inFlight > 0
  {
    QueueStep(q.(inFlight := q.inFlight - 1), id)
  }

  /** `callFailed`: the outstanding call is answered and nothing else happens. */
  function FailureStep(q: QueueState): QueueState
    requires q.inFlight > 0
  {
    q.(inFlight := q.inFlight - 1)
  }

  /** The state after the communicator answers with `replies`, one per outstanding call; replies
      beyond the calls made are never delivered. */
  function Deliver(q: QueueState, replies: seq<Reply>, id: string): QueueState
    decreases |replies|
  {
    if replies == [] || q.inFlight == 0 then q
    else if replies[0] == Success then Deliver(SuccessStep(q, id), replies[1..], id)
    else Deliver(FailureStep(q), replies[1..], id)
  }

  /** The posts that draining the stack `p` makes, in the order it makes them: top first. */
  function PopOrderPosts(p: seq<Patch>, id: string): (posts: seq<Effect>)
    ensures |posts| == |p|
  {
    if p == [] then [] else [PostData(AddPatchPath(id), p[|p| - 1])] + PopOrderPosts(p[..|p| - 1], id)
  }

  /** The i-th post of the drain carries the i-th patch from the end: blobs go out in the reverse
      of the Review's order. */
  lemma {:induction false} PopOrderPostsAt(p: seq<Patch>, id: string, i: nat)
    requires i < |p|
    ensures PopOrderPosts(p, id)[i] == PostData(AddPatchPath(id), p[|p| - 1 - i])
    decreases |p|
  {
    var top, below := p[|p| - 1], p[..|p| - 1];
    if i == 0 {
      if below != [] {
        PopOrderPostsAt(below, id, 0);
      }
    } else {
      PopOrderPostsAt(below, id, i - 1);
      assert below[|below| - 1 - (i - 1)] == p[|p| - 1 - i];
    }
  }

  /** Every post of the drain goes to the review's `addPatch` path, and none is a signal. */
  lemma {:induction false} PopOrderPostsOnlyPosts(p: seq<Patch>, id: string)
    ensures forall e :: e in PopOrderPosts(p, id) ==> e.PostData? && e.path == AddPatchPath(id)
    decreases |p|
  {
    if p != [] {
      PopOrderPostsOnlyPosts(p[..|p| - 1], id);
    }
  }

  /** With one call outstanding and the stack `p` left, |p| + 1 successes post every blob of `p`,
      top first, and then emit `patchesAdded`; nothing is left outstanding, so any further replies
      (`extra` more successes) are never delivered. */
  lemma {:induction false} DrainSucceeds(q: QueueState, id: string, extra: nat)
    requires q.inFlight == 1
    ensures Deliver(q, Successes(|q.pending| + 1 + extra), id)
      == QueueState([], q.effects + PopOrderPosts(q.pending, id) + [Emitted(PatchesAdded)], 0)
    decreases |q.pending|
  {
    var replies := Successes(|q.pending| + 1 + extra);
    var next := SuccessStep(q, id);
    assert replies[1..] == Successes(|q.pending| + extra);
    if q.pending == [] {
      assert Deliver(next, replies[1..], id) == next;
    } else {
      var top := q.pending[|q.pending| - 1];
      DrainSucceeds(next, id, extra);
      assert q.effects + PopOrderPosts(q.pending, id)
        == (q.effects + [PostData(AddPatchPath(id), top)]) + PopOrderPosts(next.pending, id);
    }
  }

  /** With N >= 1 patches and every reply successful, `run` and the N replies post each patch once,
      last patch first, and emit `patchesAdded` once, after the N-th reply; replies beyond the N-th
      (`extra` of them) are never delivered and change nothing. */
  lemma AllSucceed(q: QueueState, patches: seq<Patch>, id: string, extra: nat)
    requires q.inFlight == 0 && patches != []
    ensures Deliver(RunStep(q, patches, id), Successes(|patches| + extra), id)
      == QueueState([], q.effects + PopOrderPosts(patches, id) + [Emitted(PatchesAdded)], 0)
  {
    var started := RunStep(q, patches, id);
    DrainSucceeds(started, id, extra);
    assert q.effects + PopOrderPosts(patches, id)
      == started.effects + PopOrderPosts(started.pending, id);
  }

  /** Before the N-th success nothing is emitted: after k < N successful replies the trace holds
      exactly the first k + 1 posts of the drain. */
  lemma {:induction false} NoSignalBeforeLastSuccess(q: QueueState, id: string, k: nat)
    requires q.inFlight == 1 && k <= |q.pending|
    ensures var after := Deliver(q, Successes(k), id);
      && after.effects == q.effects + PopOrderPosts(q.pending, id)[..k]
      && after.inFlight == 1
      && after.pending == q.pending[..|q.pending| - k]
    decreases k
  {
    PopOrderPostsOnlyPosts(q.pending, id);
    if k > 0 {
      var next := SuccessStep(q, id);
      var top := q.pending[|q.pending| - 1];
      assert Successes(k)[1..] == Successes(k - 1);
      NoSignalBeforeLastSuccess(next, id, k - 1);
      assert next.pending[..|next.pending| - (k - 1)] == q.pending[..|q.pending| - k];
      assert PopOrderPosts(q.pending, id)[..k]
        == [PostData(AddPatchPath(id), top)] + PopOrderPosts(next.pending, id)[..k - 1];
    }
  }

  /** A failed reply stalls the queue for good: the stack is kept, no further post is made and
      `patchesAdded` is never emitted, whatever replies follow. */
  lemma StallAfterFailure(q: QueueState, replies: seq<Reply>, id: string)
    requires q.inFlight == 1
    ensures Deliver(q, [Failure] + replies, id) == q.(inFlight := 0)
  {
  }

  /** A post is made only by `run` or by a successful reply, so at most one call is ever
      outstanding; a failed reply adds no effect at all. */
  lemma AtMostOneOutstanding(q: QueueState, patches: seq<Patch>, id: string)
    ensures q.inFlight == 0 ==> RunStep(q, patches, id).inFlight <= 1
    ensures q.inFlight == 1 ==> SuccessStep(q, id).inFlight <= 1
    ensures q.inFlight == 1 ==> FailureStep(q).inFlight == 0 && FailureStep(q).effects == q.effects
    ensures |RunStep(q, patches, id).effects| <= |q.effects| + 1
  {
  }

  /** Over any sequence of replies, at most one call is outstanding once `run` has started the
      queue: the invariant holds for the whole run, not just one step. */
  lemma {:induction false} OutstandingStaysAtMostOne(q: QueueState, replies: seq<Reply>, id: string)
    requires q.inFlight <= 1
    ensures Deliver(q, replies, id).inFlight <= 1
    decreases |replies|
  {
    if replies != [] && q.inFlight > 0 {
      var next := if replies[0] == Success then SuccessStep(q, id) else FailureStep(q);
      assert next.inFlight <= 1;
      OutstandingStaysAtMostOne(next, replies[1..], id);
    }
  }

  /** Every step only appends to the trace; each of `run` and `callSuccessful` appends at most one
      effect. */
  lemma {:induction false} DeliverExtendsTrace(q: QueueState, replies: seq<Reply>, id: string)
    ensures var after := Deliver(q, replies, id);
      |q.effects| <= |after.effects| && after.effects[..|q.effects|] == q.effects
    decreases |replies|
  {
    if replies != [] && q.inFlight > 0 {
      var next := if replies[0] == Success then SuccessStep(q, id) else FailureStep(q);
      DeliverExtendsTrace(next, replies[1..], id);
    }
  }

  /** `run` drops whatever the stack held and loads exactly the Review's patches; with none it
      makes no call and emits nothing. */
  lemma RunLoadsReviewPatches(q: QueueState, other: seq<Patch>, patches: seq<Patch>, id: string)
    ensures RunStep(q, patches, id) == RunStep(q.(pending := other), patches, id)
    ensures patches == [] ==> RunStep(q, patches, id) == q.(pending := [])
    ensures patches != [] ==>
      var r := RunStep(q, patches, id);
      && r.pending == patches[..|patches| - 1]
      && r.effects == q.effects + [PostData(AddPatchPath(id), patches[|patches| - 1])]
      && r.inFlight == q.inFlight + 1
  {
  }

  /** Without patches nothing ever happens: no reply is awaited, so none is delivered. */
  lemma NoPatchesNoEffects(q: QueueState, replies: seq<Reply>, id: string)
    requires q.inFlight == 0
    ensures Deliver(RunStep(q, [], id), replies, id).effects == q.effects
  {
  }

  class AddPatchesAction {
    const review: Review
    /** `m_patches`: the blobs still to be posted; the top of the stack is the last element. */
    var patches: seq<Patch>
    /** The posts made through the communicator and the signals emitted, in order. */
    var effects: seq<Effect>
    /** Calls made and not yet answered. */
    ghost var inFlight: nat

    ghost function State(): QueueState
      reads this
    {
      QueueState(patches, effects, inFlight)
    }

    constructor (review: Review)
      ensures this.review == review && State() == QueueState([], [], 0)
    {
      this.review := review;
      patches, effects, inFlight := [], [], 0;
    }

    method Run()
      modifies this
      ensures State() == RunStep(old(State()), review.patches, review.id)
      ensures unchanged(review)
    {
      patches := [];
      var all := review.patches;
      for i := 0 to |all|
        invariant patches == all[..i]
        invariant effects == old(effects) && inFlight == old(inFlight)
        invariant unchanged(review)
      {
        patches := patches + [all[i]];
      }
      assert all[..|all|] == all;
      if patches != [] {
        DoPatchQueue();
      }
    }

    method DoPatchQueue()
      modifies this
      ensures State() == QueueStep(old(State()), review.id)
      ensures unchanged(review)
    {
      if patches == [] {
        effects := effects + [Emitted(PatchesAdded)];
        return;
      }
      var patch := patches[|patches| - 1];
      patches := patches[..|patches| - 1];
      effects := effects + [PostData(AddPatchPath(review.id), patch)];
      inFlight := inFlight + 1;
    }

    method CallFailed()
      requires inFlight > 0
      modifies this
      ensures State() == FailureStep(old(State()))
      ensures unchanged(review)
    {
      inFlight := inFlight - 1;
    }

    method CallSuccessful()
      requires inFlight > 0
      modifies this
      ensures State() == SuccessStep(old(State()), review.id)
      ensures unchanged(review)
    {
      inFlight := inFlight - 1;
      DoPatchQueue();
    }
  }
}
