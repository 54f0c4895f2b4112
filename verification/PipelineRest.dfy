/** What the pipeline keeps in every run: no lost wakeup, and what becomes of the chunks a file accepted. */
module PipelineRest {
  import opened Sequences
  import opened ChunkStatus
  import opened Pipeline
  import FileThread

  ghost predicate IsDone(s: State, id: nat) {
    id < |s.chunks.status| && Has(s.chunks.status, id, Done)
  }

  ghost predicate AllDone(s: State) {
    forall id :: 0 <= id < |s.chunks.status| ==> IsDone(s, id)
  }

  /** A queued chunk of the file always has a token, a worker about to post, or a file thread at work. */
  ghost predicate CoverInv(s: State) {
    s.fileQueue != [] ==> s.fileTokens > 0 || Handed in s.workers || exists d :: 0 <= d < |s.drainers| && s.drainers[d] != Waiting
  }

  /** Every accepted chunk is queued or DONE, and nothing else is; the counter is right; and only a file with
      every chunk DONE is no longer active. */
  ghost predicate ConserveInv(s: State) {
    && (forall id :: id in s.accepted ==> id < |s.chunks.status| && (id in s.fileQueue || IsDone(s, id)))
    && (forall id: nat :: id in s.fileQueue || IsDone(s, id) ==> id in s.accepted)
    && s.chunks.completed == DoneCount(s.chunks.status)
    && (!s.active ==> AllDone(s))
  }

  /** Under the lock no file thread is ever seen inside a turn; without it there is only one, and it works on
      the front of the queue. */
  ghost predicate FrontInv(o: Options, s: State) {
    if o.locked then forall d :: 0 <= d < |s.drainers| ==> s.drainers[d] == Waiting || s.drainers[d] == Draining
    else |s.drainers| <= 1 && (s.drainers != [] ==> AtFront(s, s.drainers[0]))
  }

  ghost predicate AtFront(s: State, x: Drainer) {
    match x
    case Reading(id) => s.fileQueue != [] && s.fileQueue[0] == id
    case Writing(id) => s.fileQueue != [] && s.fileQueue[0] == id && !IsDone(s, id)
    case Marked(id) => s.fileQueue != [] && s.fileQueue[0] == id && IsDone(s, id)
    case _ => true
  }

  /** The loop sets what it read DONE, and its turns do not overlap. */
  predicate SoundMarks(o: Options, drainers: nat) {
    o.loop.setStatus && (o.locked || drainers <= 1)
  }

  ghost predicate FileInv(o: Options, s: State) {
    ConserveInv(s) && FrontInv(o, s)
  }

  // ----- the file's queue is covered, whatever the loop does -----

  lemma StepKeepsCover(o: Options, s: State, a: Action)
    requires CoverInv(s)
    ensures CoverInv(Step(o, s, a))
  {
    if CanDo(s, a) {
      var t := Step(o, s, a);
      if IsWorker(a) {
        WorkerKeepsCover(s, a);
      } else if IsFile(a) {
        assert t.fileQueue != [] ==> t.drainers[a.d] != Waiting;
      } else if a.AddThread? {
        assert t.workers[..|s.workers|] == s.workers;
      }
    }
  }

  lemma WorkerKeepsCover(s: State, a: Action)
    requires CoverInv(s) && IsWorker(a) && CanDo(s, a)
    ensures CoverInv(WorkerStep(s, a))
  {
    var t := WorkerStep(s, a);
    if Handed in s.workers && s.workers[a.j] != Handed {
      var k :| 0 <= k < |s.workers| && s.workers[k] == Handed;
      assert t.workers[k] == Handed;
    }
    assert a.Hand? ==> t.workers[a.j] == Handed || t.fileQueue == s.fileQueue;
  }

  // ----- the accepted chunks -----

  lemma SetDone(p: Progress, id: nat)
    requires id < |p.status| && p.completed == DoneCount(p.status) && !Has(p.status, id, Done)
    ensures var q := SetStatus(p, id, Done);
      && |q.status| == |p.status| && q.completed == DoneCount(q.status)
      && forall i :: 0 <= i < |p.status| ==> (Has(q.status, i, Done) <==> Has(p.status, i, Done) || i == id)
  {
    DoneCountSet(p.status, id);
  }

  /** A turn under the lock. */
  lemma TurnKeepsFile(o: Options, s: State, a: Action)
    requires FileInv(o, s) && SoundMarks(o, |s.drainers|) && a.Read? && CanDo(s, a) && o.locked
    ensures FileInv(o, FileStep(o, s, a))
  {
    if s.fileQueue != [] {
      var t, id := FileStep(o, s, a), s.fileQueue[0];
      assert s.fileQueue == [id] + s.fileQueue[1..];
      if !Has(s.chunks.status, id, Done) { SetDone(s.chunks, id); }
      assert forall i: nat :: IsDone(t, i) <==> IsDone(s, i) || i == id;
    }
  }

  lemma MarkKeepsFile(o: Options, s: State, a: Action)
    requires FileInv(o, s) && SoundMarks(o, |s.drainers|) && a.Mark? && CanDo(s, a)
    ensures FileInv(o, FileStep(o, s, a))
  {
    var t, id := FileStep(o, s, a), s.drainers[a.d].id;
    assert s.drainers[0] == Writing(id) && t.drainers[0] == Marked(id);
    SetDone(s.chunks, id);
    assert forall i: nat :: IsDone(t, i) <==> IsDone(s, i) || i == id;
  }

  lemma OtherKeepsFile(o: Options, s: State, a: Action)
    requires FileInv(o, s) && SoundMarks(o, |s.drainers|) && IsFile(a) && CanDo(s, a)
    requires !a.Mark? && (a.Read? ==> !o.locked)
    ensures FileInv(o, FileStep(o, s, a))
  {
    var t := FileStep(o, s, a);
    assert forall id: nat :: IsDone(t, id) == IsDone(s, id);
    hide IsDone;
    if s.fileQueue != [] { assert s.fileQueue == [s.fileQueue[0]] + s.fileQueue[1..]; }
  }

  lemma HandKeepsFile(o: Options, s: State, a: Action)
    requires FileInv(o, s) && ReceivedInv(s) && IsWorker(a) && CanDo(s, a)
    ensures FileInv(o, WorkerStep(s, a))
  {
    var t := WorkerStep(s, a);
    assert forall id: nat :: IsDone(t, id) == IsDone(s, id);
    hide IsDone;
    if a.Hand? {
      assert Held(s, s.workers[a.j].chunk);
      assert s.workers[a.j].chunk in s.received;
    }
  }

  lemma StepKeepsFile(o: Options, s: State, a: Action)
    requires FileInv(o, s) && SoundMarks(o, |s.drainers|) && ReceivedInv(s)
    ensures FileInv(o, Step(o, s, a)) && |Step(o, s, a).drainers| == |s.drainers|
  {
    hide ReceivedInv, ConserveInv, FrontInv;
    if CanDo(s, a) {
      if IsWorker(a) {
        HandKeepsFile(o, s, a);
      } else if a.Mark? {
        MarkKeepsFile(o, s, a);
      } else if a.Read? && o.locked {
        TurnKeepsFile(o, s, a);
      } else if IsFile(a) {
        OtherKeepsFile(o, s, a);
      } else {
        RestKeepsFile(o, s, a);
      }
    }
  }

  lemma RestKeepsFile(o: Options, s: State, a: Action)
    requires FileInv(o, s) && CanDo(s, a) && !IsWorker(a) && !IsFile(a)
    ensures FileInv(o, Step(o, s, a))
  {
    var t := Step(o, s, a);
    assert forall id: nat :: IsDone(t, id) == IsDone(s, id);
  }

  // ----- a file that nobody touches -----

  /** No process thread is there, or no file thread, or the file threads neither mark nor pop. */
  predicate HandsOff(o: Options, drainers: nat) {
    !o.started || drainers == 0 || (!o.loop.setStatus && !o.loop.byReference)
  }

  /** No process thread has done anything, and so no file thread either. */
  ghost predicate Idle(s: State) {
    && s.workers == [] && s.taken == [] && s.accepted == [] && s.emptyPops == 0 && s.fileTokens == 0
    && forall d :: 0 <= d < |s.drainers| ==> s.drainers[d] == Waiting
  }

  /** Everything that was accepted is still queued, and nothing is DONE. */
  ghost predicate Untouched(o: Options, s: State) {
    && s.fileQueue == s.accepted && s.chunks.completed == 0
    && (forall id :: id in s.accepted ==> id < |s.chunks.status|)
    && (forall id: nat :: !IsDone(s, id))
    && (!s.active ==> s.chunks.status == [])
    && (!o.started ==> Idle(s))
  }

  lemma StepLeavesUntouched(o: Options, s: State, a: Action)
    requires HandsOff(o, |s.drainers|) && Untouched(o, s) && ReceivedInv(s)
    ensures Untouched(o, Step(o, s, a)) && |Step(o, s, a).drainers| == |s.drainers|
  {
    var t := Step(o, s, a);
    if CanDo(s, a) {
      if a.Hand? {
        assert Held(s, s.workers[a.j].chunk);
        assert s.workers[a.j].chunk in s.received;
      }
      if a.Verify? && s.chunks.status != [] { assert !IsDone(s, 0); }
      assert t.chunks == s.chunks;
      assert forall id: nat :: IsDone(t, id) == IsDone(s, id);
    }
  }

  lemma {:induction false} NoneDoneCounts(status: seq<bv8>)
    requires forall i :: 0 <= i < |status| ==> !Has(status, i, Done)
    ensures DoneCount(status) == 0
  {
    if status != [] {
      assert forall i :: 0 <= i < |status[1..]| ==> Has(status[1..], i, Done) == Has(status, i + 1, Done);
      NoneDoneCounts(status[1..]);
    }
  }

  lemma UntouchedConserves(o: Options, s: State)
    requires Untouched(o, s)
    ensures ConserveInv(s)
  {
    forall i | 0 <= i < |s.chunks.status| ensures !Has(s.chunks.status, i, Done) { assert !IsDone(s, i); }
    NoneDoneCounts(s.chunks.status);
  }

  lemma {:induction false} RunLeavesUntouched(o: Options, s: State, acts: seq<Action>)
    requires HandsOff(o, |s.drainers|) && Untouched(o, s) && ReceivedInv(s)
    ensures Untouched(o, Run(o, s, acts))
    decreases |acts|
  {
    hide ReceivedInv, Untouched, Step, HandsOff;
    if acts != [] {
      StepKeepsReceived(o, s, acts[0]);
      StepLeavesUntouched(o, s, acts[0]);
      RunLeavesUntouched(o, Step(o, s, acts[0]), acts[1..]);
    }
  }

  // ----- runs -----

  lemma {:induction false} RunKeepsQueue(o: Options, s: State, acts: seq<Action>)
    requires QueueInv(s) && ReceivedInv(s) && CoverInv(s)
    ensures var t := Run(o, s, acts); QueueInv(t) && ReceivedInv(t) && CoverInv(t)
    decreases |acts|
  {
    hide QueueInv, ReceivedInv, CoverInv, Step;
    if acts != [] {
      StepKeepsQueue(o, s, acts[0]);
      StepKeepsReceived(o, s, acts[0]);
      StepKeepsCover(o, s, acts[0]);
      RunKeepsQueue(o, Step(o, s, acts[0]), acts[1..]);
    }
  }

  lemma {:induction false} RunKeepsFile(o: Options, s: State, acts: seq<Action>)
    requires ReceivedInv(s) && FileInv(o, s) && SoundMarks(o, |s.drainers|)
    ensures var t := Run(o, s, acts); FileInv(o, t) && |t.drainers| == |s.drainers|
    decreases |acts|
  {
    hide ReceivedInv, ConserveInv, FrontInv, Step;
    if acts != [] {
      StepKeepsReceived(o, s, acts[0]);
      StepKeepsFile(o, s, acts[0]);
      RunKeepsFile(o, Step(o, s, acts[0]), acts[1..]);
    }
  }

  lemma InitInv(o: Options, pairs: nat, drainers: nat, chunks: nat)
    ensures var s := Init(o, pairs, drainers, chunks);
      QueueInv(s) && ReceivedInv(s) && CoverInv(s) && Untouched(o, s)
      && (SoundMarks(o, drainers) ==> FileInv(o, s))
  {
    var s := Init(o, pairs, drainers, chunks);
    TotalZero(s.flows, IsPushed());
    TotalZero(s.workers, IsWoken());
    ClearBytes(s.chunks.status);
  }

  /** No lost wakeup, whatever the loop of the file threads does and for any number of threads: in every
      reachable state each queued chunk is covered by a token, a thread about to pop or a thread about to post,
      and pops that find nothing are paid for by removed threads. What was taken and what is queued is, in
      order, exactly what was received. */
  lemma NoLostWakeup(o: Options, pairs: nat, drainers: nat, chunks: nat, acts: seq<Action>)
    ensures var s := Run(o, Init(o, pairs, drainers, chunks), acts);
      && |s.queue| + s.removals == s.tokens + Popping(s) + Posting(s) + s.emptyPops
      && s.emptyPops <= s.removals
      && |s.queue| <= s.tokens + Popping(s) + Posting(s)
      && s.received == s.taken + s.queue
  {
    InitInv(o, pairs, drainers, chunks);
    RunKeepsQueue(o, Init(o, pairs, drainers, chunks), acts);
  }

  /** In every reachable state, whatever the loop does, a file queue that is not empty has a token, a worker
      about to post or a file thread at work. */
  lemma FileQueueIsCovered(o: Options, pairs: nat, drainers: nat, chunks: nat, acts: seq<Action>)
    ensures CoverInv(Run(o, Init(o, pairs, drainers, chunks), acts))
  {
    InitInv(o, pairs, drainers, chunks);
    RunKeepsQueue(o, Init(o, pairs, drainers, chunks), acts);
  }

  lemma RunConserves(o: Options, pairs: nat, drainers: nat, chunks: nat, acts: seq<Action>)
    requires SoundMarks(o, drainers) || HandsOff(o, drainers)
    ensures ConserveInv(Run(o, Init(o, pairs, drainers, chunks), acts))
  {
    hide ReceivedInv, Untouched, ConserveInv, Run;
    InitInv(o, pairs, drainers, chunks);
    if SoundMarks(o, drainers) {
      RunKeepsFile(o, Init(o, pairs, drainers, chunks), acts);
    } else {
      RunLeavesUntouched(o, Init(o, pairs, drainers, chunks), acts);
      UntouchedConserves(o, Run(o, Init(o, pairs, drainers, chunks), acts));
    }
  }
}
