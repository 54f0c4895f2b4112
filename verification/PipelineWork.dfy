/** The pipeline left to itself: with a sound loop its threads come to rest, in every order, and are complete. */
module PipelineWork {
  import opened Sequences
  import opened ChunkStatus
  import opened Pipeline
  import opened PipelineRest
  import FileThread

  /** The steps by which the threads work off what is there; the others bring chunks, or add and stop threads. */
  predicate IsWork(a: Action) {
    a.Post? || a.Wake? || a.GetNext? || a.Hand? || a.PostFile? || IsFile(a)
  }

  /** Every one of these steps is work, and can be done. */
  ghost predicate Working(o: Options, s: State, acts: seq<Action>)
    decreases |acts|
  {
    acts == [] || (IsWork(acts[0]) && CanDo(s, acts[0]) && Working(o, Step(o, s, acts[0]), acts[1..]))
  }

  ghost predicate NothingToDo(s: State) {
    forall a :: IsWork(a) ==> !CanDo(s, a)
  }

  ghost predicate WorkBelow(o: Options, s: State, n: nat) {
    forall more :: Working(o, s, more) ==> |more| <= n
  }

  /** A pair of threads is there that has not been stopped, as far as the second of them was ever started. */
  ghost predicate Staffed(s: State) {
    exists i :: 0 <= i < |s.flows| && s.flows[i] != Stopped && (i < |s.workers| ==> s.workers[i] != Gone)
  }

  /** Both queues are empty, every removal was matched by an empty pop, and the DONE chunks of the file are
      exactly those that were received for it, each counted once. */
  ghost predicate Complete(s: State) {
    && s.queue == [] && s.fileQueue == [] && s.emptyPops == s.removals
    && (forall id: nat :: IsDone(s, id) <==> Chunk(true, id) in s.received)
    && s.chunks.completed == DoneCount(s.chunks.status)
  }

  /** Left to itself from here the pipeline stops, and when it has stopped it is complete. */
  ghost predicate Finishes(o: Options, s: State) {
    (exists n: nat :: WorkBelow(o, s, n)) && (Staffed(s) && NothingToDo(s) ==> Complete(s))
  }

  ghost predicate AlwaysFinishes(o: Options, drainers: nat) {
    forall pairs: nat, chunks: nat, acts :: Finishes(o, Run(o, Init(o, pairs, drainers, chunks), acts))
  }

  // ----- the work that is left -----

  /** The loop is repaired, and its turns do not overlap. */
  predicate SoundLoop(o: Options, drainers: nat) {
    o.loop == FileThread.INTENDED && SoundMarks(o, drainers)
  }

  function FlowWork(): Flow -> nat { (f: Flow) => if f == Pushed then 3 else 0 }

  function WorkerWork(): Worker -> nat {
    (w: Worker) => match w case Woken => 1 case Holding(_) => 11 case Handed => 6 case _ => 0
  }

  function DrainerWork(): Drainer -> nat {
    (d: Drainer) => match d
      case Waiting => 0
      case Draining => 4
      case Reading(_) => 3
      case Writing(_) => 2
      case Marked(_) => 1
  }

  /** How many steps can still be done, at most. */
  function Work(s: State): nat {
    Total(s.flows, FlowWork()) + Total(s.workers, WorkerWork()) + Total(s.drainers, DrainerWork())
    + 11 * |s.queue| + 2 * s.tokens + 4 * |s.fileQueue| + 5 * s.fileTokens
  }

  lemma FlowLowers(s: State, a: Action)
    requires a.Post? && CanDo(s, a)
    ensures Work(FlowStep(s, a)) < Work(s)
  {
    hide Total;
    TotalUpdate(s.flows, a.i, Listening, FlowWork());
  }

  lemma WorkerLowers(s: State, a: Action)
    requires IsWorker(a) && !a.Retire? && CanDo(s, a)
    ensures Work(WorkerStep(s, a)) < Work(s)
  {
    hide Total;
    var t := WorkerStep(s, a);
    TotalUpdate(s.workers, a.j, t.workers[a.j], WorkerWork());
    assert t.workers == s.workers[a.j := t.workers[a.j]];
  }

  lemma FileLowers(o: Options, s: State, a: Action)
    requires FrontInv(o, s) && SoundLoop(o, |s.drainers|) && IsFile(a) && CanDo(s, a)
    ensures Work(FileStep(o, s, a)) < Work(s)
  {
    hide Total;
    var t := FileStep(o, s, a);
    assert a.Pop? ==> AtFront(s, s.drainers[0]);
    TotalUpdate(s.drainers, a.d, t.drainers[a.d], DrainerWork());
    assert t.drainers == s.drainers[a.d := t.drainers[a.d]];
  }

  lemma StepLowers(o: Options, s: State, a: Action)
    requires FrontInv(o, s) && SoundLoop(o, |s.drainers|) && IsWork(a) && CanDo(s, a)
    ensures Work(Step(o, s, a)) < Work(s)
  {
    hide Work, FrontInv, SoundLoop, FlowStep, WorkerStep, FileStep, CanDo;
    if a.Post? {
      FlowLowers(s, a);
    } else if IsFile(a) {
      FileLowers(o, s, a);
    } else {
      WorkerLowers(s, a);
    }
  }

  lemma {:induction false} WorkIsBounded(o: Options, s: State, acts: seq<Action>)
    requires ReceivedInv(s) && FileInv(o, s) && SoundLoop(o, |s.drainers|) && Working(o, s, acts)
    ensures |acts| + Work(Run(o, s, acts)) <= Work(s)
    decreases |acts|
  {
    hide ReceivedInv, ConserveInv, FrontInv, Work, Step, SoundMarks, CanDo;
    if acts != [] {
      StepLowers(o, s, acts[0]);
      StepKeepsReceived(o, s, acts[0]);
      StepKeepsFile(o, s, acts[0]);
      WorkIsBounded(o, Step(o, s, acts[0]), acts[1..]);
    }
  }

  // ----- rest -----

  /** Whether a process thread runs for every flow thread, or none does. */
  ghost predicate Paired(o: Options, s: State) {
    |s.workers| == if o.started then |s.flows| else 0
  }

  lemma StepKeepsPairs(o: Options, s: State, a: Action)
    requires Paired(o, s)
    ensures Paired(o, Step(o, s, a))
  {
  }

  lemma {:induction false} RunKeepsPairs(o: Options, s: State, acts: seq<Action>)
    requires Paired(o, s)
    ensures Paired(o, Run(o, s, acts))
    decreases |acts|
  {
    if acts != [] {
      StepKeepsPairs(o, s, acts[0]);
      hide Paired, Step;
      RunKeepsPairs(o, Step(o, s, acts[0]), acts[1..]);
    }
  }

  lemma IdleWorkers(o: Options, s: State)
    requires NothingToDo(s) && Staffed(s) && Paired(o, s) && o.started
    ensures s.tokens == 0
    ensures forall i :: 0 <= i < |s.flows| ==> s.flows[i] != Pushed
    ensures forall j :: 0 <= j < |s.workers| ==> s.workers[j] == Blocked || s.workers[j] == Gone
  {
    forall i | 0 <= i < |s.flows| ensures s.flows[i] != Pushed {
      assert !CanDo(s, Post(i));
    }
    forall j | 0 <= j < |s.workers| ensures s.workers[j] == Blocked || s.workers[j] == Gone {
      assert !CanDo(s, GetNext(j)) && !CanDo(s, Hand(j)) && !CanDo(s, PostFile(j));
    }
    var j :| 0 <= j < |s.flows| && s.flows[j] != Stopped && (j < |s.workers| ==> s.workers[j] != Gone);
    assert !CanDo(s, Wake(j));
  }

  lemma IdleDrainers(o: Options, s: State)
    requires NothingToDo(s) && s.drainers != [] && FileInv(o, s)
    ensures s.fileTokens == 0
    ensures forall d :: 0 <= d < |s.drainers| ==> s.drainers[d] == Waiting
  {
    forall k | 0 <= k < |s.fileQueue| ensures s.fileQueue[k] < |s.chunks.status| {
      assert s.fileQueue[k] in s.fileQueue;
    }
    forall d | 0 <= d < |s.drainers| ensures s.drainers[d] == Waiting {
      assert !CanDo(s, Read(d)) && !CanDo(s, Check(d)) && !CanDo(s, Mark(d)) && !CanDo(s, Pop(d));
    }
    assert !CanDo(s, WakeFile(0));
  }

  lemma RestIsComplete(o: Options, s: State)
    requires QueueInv(s) && ReceivedInv(s) && CoverInv(s) && FileInv(o, s)
    requires NothingToDo(s) && Staffed(s) && Paired(o, s) && o.started && s.drainers != []
    ensures Complete(s)
  {
    IdleWorkers(o, s);
    IdleDrainers(o, s);
    TotalZero(s.flows, IsPushed());
    TotalZero(s.workers, IsWoken());
    assert s.queue == [];
    assert s.fileQueue == [];
    forall id: nat ensures IsDone(s, id) <==> Chunk(true, id) in s.received {
      assert Chunk(true, id) in s.received ==> Chunk(true, id) in s.taken;
    }
  }

  /** In every reachable state of a pipeline with a sound loop: the threads can do no more than Work steps before
      more chunks come; and with process and file threads there, when nothing is left to do every chunk that was
      received for the file is DONE. */
  lemma WorkEndsComplete(o: Options, pairs: nat, drainers: nat, chunks: nat, acts: seq<Action>)
    requires SoundLoop(o, drainers)
    ensures var s := Run(o, Init(o, pairs, drainers, chunks), acts);
      && WorkBelow(o, s, Work(s))
      && (o.started && drainers > 0 ==> Finishes(o, s))
  {
    hide QueueInv, ReceivedInv, ConserveInv, CoverInv, FrontInv, Work, Step, CanDo, Complete;
    var z := Init(o, pairs, drainers, chunks);
    InitInv(o, pairs, drainers, chunks);
    RunKeepsQueue(o, z, acts);
    RunKeepsFile(o, z, acts);
    RunKeepsPairs(o, z, acts);
    var s := Run(o, z, acts);
    forall more | Working(o, s, more) ensures |more| <= Work(s) { WorkIsBounded(o, s, more); }
    assert WorkBelow(o, s, Work(s));
    if o.started && drainers > 0 && Staffed(s) && NothingToDo(s) { RestIsComplete(o, s); }
  }

  // ----- no process threads, as written -----

  /** Only posts are left to do, and each is done once. */
  lemma {:induction false} OnlyPosts(o: Options, s: State, more: seq<Action>)
    requires !o.started && Untouched(o, s) && ReceivedInv(s) && QueueInv(s) && Working(o, s, more)
    ensures var t := Run(o, s, more);
      && Untouched(o, t) && ReceivedInv(t) && QueueInv(t)
      && t.received == s.received && t.removals == s.removals
      && |more| + Posting(t) == Posting(s)
    decreases |more|
  {
    if more != [] {
      OnePost(o, s, more[0]);
      hide Untouched, ReceivedInv, QueueInv, Posting, Step, CanDo;
      OnlyPosts(o, Step(o, s, more[0]), more[1..]);
    }
  }

  lemma OnePost(o: Options, s: State, a: Action)
    requires !o.started && Untouched(o, s) && ReceivedInv(s) && QueueInv(s) && IsWork(a) && CanDo(s, a)
    ensures var t := Step(o, s, a);
      && Untouched(o, t) && ReceivedInv(t) && QueueInv(t)
      && t.received == s.received && t.removals == s.removals && 1 + Posting(t) == Posting(s)
  {
    StepLeavesUntouched(o, s, a);
    StepKeepsReceived(o, s, a);
    StepKeepsQueue(o, s, a);
    assert a.Post?;
    TotalUpdate(s.flows, a.i, Listening, IsPushed());
  }

  lemma CompleteIfNothingCame(o: Options, t: State)
    requires !o.started && Untouched(o, t) && ReceivedInv(t)
    ensures Complete(t) <==> t.received == [] && t.removals == 0
  {
    UntouchedConserves(o, t);
  }

  /** Without process threads, as the text has it: from every reachable state exactly the pending posts are left
      to do, and when they are done the pipeline is complete just if no chunk was received and no thread removed. */
  lemma WithoutProcessThreads(o: Options, pairs: nat, drainers: nat, chunks: nat, acts: seq<Action>, more: seq<Action>)
    requires !o.started && Working(o, Run(o, Init(o, pairs, drainers, chunks), acts), more)
    ensures var s := Run(o, Init(o, pairs, drainers, chunks), acts); var t := Run(o, s, more);
      && |more| + Posting(t) == Posting(s)
      && (Complete(t) <==> s.received == [] && s.removals == 0)
  {
    hide QueueInv, ReceivedInv, CoverInv, Untouched, Working, Complete, Posting;
    var z := Init(o, pairs, drainers, chunks);
    InitInv(o, pairs, drainers, chunks);
    RunKeepsQueue(o, z, acts);
    RunLeavesUntouched(o, z, acts);
    OnlyPosts(o, Run(o, z, acts), more);
    CompleteIfNothingCame(o, Run(o, Run(o, z, acts), more));
  }
}
