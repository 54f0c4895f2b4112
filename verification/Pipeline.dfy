/** From the flow threads of a connection to the status bytes of a file: two queues, two semaphores, and any
    number of flow, process and file threads that interleave. */
module Pipeline {
  import opened Sequences
  import opened ChunkStatus
  import opened Protocol
  import FileThread

  /** What the threads do: the text is not locked, starts no process thread, and has none of the repairs of the
      file threads' loop. */
  datatype Options = Options(
    locked: bool,           // a turn of the loop of a file thread is one step, as under a lock
    started: bool,          // the second thread of add_thread runs processThread
    loop: FileThread.Repairs)

  /** `known` says that the file id of the chunk names the file that is being received. */
  datatype Chunk = Chunk(known: bool, id: nat)

  /** A flow thread pushes a chunk, and then posts; it is stopped only while it listens. */
  datatype Flow = Listening | Pushed | Stopped

  /** A process thread waits, pops, hands the chunk to its file, and posts the file's semaphore. */
  datatype Worker = Blocked | Woken | Holding(chunk: Chunk) | Handed | Gone

  /** A file thread waits, reads the front of the file's queue, looks whether it is DONE, marks it, and pops. */
  datatype Drainer = Waiting | Draining | Reading(id: nat) | Writing(id: nat) | Marked(id: nat)

  datatype State = State(
    flows: seq<Flow>, queue: seq<Chunk>, tokens: nat, workers: seq<Worker>,
    removals: nat, emptyPops: nat,
    active: bool, fileQueue: seq<nat>, fileTokens: nat, drainers: seq<Drainer>, chunks: Progress,
    received: seq<Chunk>, taken: seq<Chunk>, accepted: seq<nat>)   // the last three are histories

  datatype Action =
    | Receive(i: nat, chunk: Chunk) | Post(i: nat) | Stop(i: nat)
    | Wake(j: nat) | GetNext(j: nat) | Hand(j: nat) | PostFile(j: nat) | Retire(j: nat)
    | AddThread | RemoveThread
    | WakeFile(d: nat) | Read(d: nat) | Check(d: nat) | Mark(d: nat) | Pop(d: nat) | Verify

  /** A flow thread and its process thread are added as a pair. */
  function Init(o: Options, pairs: nat, drainers: nat, chunks: nat): State {
    State(seq(pairs, _ => Listening), [], 0, seq(if o.started then pairs else 0, _ => Blocked), 0, 0,
          true, [], 0, seq(drainers, _ => Waiting), Progress(seq(chunks, _ => 0), 0), [], [], [])
  }

  predicate IsFlow(a: Action) { a.Receive? || a.Post? || a.Stop? }

  predicate IsWorker(a: Action) { a.Wake? || a.GetNext? || a.Hand? || a.PostFile? || a.Retire? }

  predicate IsFile(a: Action) { a.WakeFile? || a.Read? || a.Check? || a.Mark? || a.Pop? }

  /** The thread of the action stands where the action can be taken. */
  predicate CanDo(s: State, a: Action) {
    match a
    case Receive(i, c) => i < |s.flows| && s.flows[i] == Listening && (c.known ==> c.id < |s.chunks.status|)
    case Post(i) => i < |s.flows| && s.flows[i] == Pushed
    case Stop(i) => i < |s.flows| && s.flows[i] == Listening
    case Wake(j) => j < |s.workers| && s.workers[j] == Blocked && s.tokens > 0
    case GetNext(j) => j < |s.workers| && s.workers[j] == Woken
    case Hand(j) => j < |s.workers| && s.workers[j].Holding?
    case PostFile(j) => j < |s.workers| && s.workers[j] == Handed
    case Retire(j) => j < |s.workers| && s.workers[j] == Blocked
    case WakeFile(d) => d < |s.drainers| && s.drainers[d] == Waiting && s.fileTokens > 0
    case Read(d) => d < |s.drainers| && s.drainers[d] == Draining && InRange(s.fileQueue, |s.chunks.status|)
    case Check(d) => d < |s.drainers| && s.drainers[d].Reading? && s.drainers[d].id < |s.chunks.status|
    case Mark(d) => d < |s.drainers| && s.drainers[d].Writing? && s.drainers[d].id < |s.chunks.status|
    case Pop(d) => d < |s.drainers| && s.drainers[d].Marked?
    case _ => true
  }

  function Step(o: Options, s: State, a: Action): State {
    if !CanDo(s, a) then s
    else if IsFlow(a) then FlowStep(s, a)
    else if IsWorker(a) then WorkerStep(s, a)
    else if IsFile(a) then FileStep(o, s, a)
    else if a.AddThread? then
      s.(flows := s.flows + [Listening], workers := if o.started then s.workers + [Blocked] else s.workers)
    else if a.RemoveThread? then s.(removals := s.removals + 1, tokens := s.tokens + 1)
    else s.(active := s.active && LeastMissingFrom(s.chunks.status, 0) >= 0)
  }

  function FlowStep(s: State, a: Action): State
    requires IsFlow(a) && CanDo(s, a)
  {
    match a
    case Receive(i, c) => s.(flows := s.flows[i := Pushed], queue := s.queue + [c], received := s.received + [c])
    case Post(i) => s.(flows := s.flows[i := Listening], tokens := s.tokens + 1)
    case Stop(i) => s.(flows := s.flows[i := Stopped])
  }

  function WorkerStep(s: State, a: Action): State
    requires IsWorker(a) && CanDo(s, a)
  {
    match a
    case Wake(j) => s.(workers := s.workers[j := Woken], tokens := s.tokens - 1)
    case GetNext(j) =>
      if s.queue == [] then s.(workers := s.workers[j := Blocked], emptyPops := s.emptyPops + 1)
      else s.(workers := s.workers[j := Holding(s.queue[0])], queue := s.queue[1..], taken := s.taken + [s.queue[0]])
    case Hand(j) =>
      var c := s.workers[j].chunk;
      if c.known && s.active
      then s.(workers := s.workers[j := Handed], fileQueue := s.fileQueue + [c.id], accepted := s.accepted + [c.id])
      else s.(workers := s.workers[j := Blocked])
    case PostFile(j) => s.(workers := s.workers[j := Blocked], fileTokens := s.fileTokens + 1)
    case Retire(j) => s.(workers := s.workers[j := Gone])
  }

  function FileStep(o: Options, s: State, a: Action): State
    requires IsFile(a) && CanDo(s, a)
  {
    match a
    case WakeFile(d) => s.(drainers := s.drainers[d := Draining], fileTokens := s.fileTokens - 1)
    case Read(d) =>
      if s.fileQueue == [] then s.(drainers := s.drainers[d := Waiting])
      else if o.locked then
        var turned := FileThread.Turn(o.loop, FileThread.Drain(s.fileQueue, s.chunks));
        s.(fileQueue := turned.queue, chunks := turned.chunks)
      else s.(drainers := s.drainers[d := Reading(s.fileQueue[0])])
    case Check(d) =>
      var id := s.drainers[d].id;
      var next := if !Has(s.chunks.status, id, Done) then Writing(id) else if o.loop.popAlways then Marked(id) else Draining;
      s.(drainers := s.drainers[d := next])
    case Mark(d) =>
      var id := s.drainers[d].id;
      s.(drainers := s.drainers[d := Marked(id)],
         chunks := if o.loop.setStatus then SetStatus(s.chunks, id, Done) else s.chunks)
    case Pop(d) =>
      s.(drainers := s.drainers[d := Draining],
         fileQueue := if !o.loop.byReference || s.fileQueue == [] then s.fileQueue else s.fileQueue[1..])
  }

  function Run(o: Options, s: State, acts: seq<Action>): State
    decreases |acts|
  {
    if acts == [] then s else Run(o, Step(o, s, acts[0]), acts[1..])
  }

  lemma StatusKeepsLength(o: Options, s: State, a: Action)
    ensures |Step(o, s, a).chunks.status| == |s.chunks.status|
  {
  }

  // ----- the process queue -----

  /** The queue that the flow threads of a peer fill and its process threads empty. */
  class ProcessQueue {
    var processChunks: seq<Chunk>
    var packetsCount: nat
    var semProcessChunkThread: nat

    method AddChunkToProcess(chunk: Chunk)
      modifies `processChunks
      ensures processChunks == old(processChunks) + [chunk]
    {
      processChunks := processChunks + [chunk];
    }

    /** A flow thread takes a chunk in: the steps Receive and Post, without another thread between them. */
    method TakeIn(chunk: Chunk)
      modifies this
      ensures processChunks == old(processChunks) + [chunk]
      ensures packetsCount == old(packetsCount) + 1 && semProcessChunkThread == old(semProcessChunkThread) + 1
    {
      AddChunkToProcess(chunk);
      packetsCount := packetsCount + 1;
      semProcessChunkThread := semProcessChunkThread + 1;
    }

    method GetNextChunk() returns (next: Option<Chunk>)
      modifies `processChunks
      ensures next == if old(processChunks) == [] then None else Some(old(processChunks)[0])
      ensures processChunks == if old(processChunks) == [] then [] else old(processChunks)[1..]
    {
      if processChunks == [] { return None; }
      next := Some(processChunks[0]);
      processChunks := processChunks[1..];
    }
  }

  function IsPushed(): Flow -> nat { (f: Flow) => if f == Pushed then 1 else 0 }

  function IsWoken(): Worker -> nat { (w: Worker) => if w == Woken then 1 else 0 }

  /** Flow threads that have pushed and not posted, and process threads that have a token and not popped. */
  function Posting(s: State): nat { Total(s.flows, IsPushed()) }

  function Popping(s: State): nat { Total(s.workers, IsWoken()) }

  /** No token is lost and none is made up: each stands for a queued chunk, a removal or an empty pop. */
  ghost predicate QueueInv(s: State) {
    && |s.queue| + s.removals == s.tokens + Popping(s) + Posting(s) + s.emptyPops
    && s.emptyPops <= s.removals
  }

  lemma FlowKeepsQueue(s: State, a: Action)
    requires QueueInv(s) && IsFlow(a) && CanDo(s, a)
    ensures QueueInv(FlowStep(s, a))
  {
    hide Total;
    TotalUpdate(s.flows, a.i, FlowStep(s, a).flows[a.i], IsPushed());
  }

  lemma WorkerKeepsQueue(s: State, a: Action)
    requires QueueInv(s) && IsWorker(a) && CanDo(s, a)
    ensures QueueInv(WorkerStep(s, a))
  {
    hide Total;
    var t := WorkerStep(s, a);
    TotalUpdate(s.workers, a.j, t.workers[a.j], IsWoken());
    assert t.workers == s.workers[a.j := t.workers[a.j]];
  }

  lemma StepKeepsQueue(o: Options, s: State, a: Action)
    requires QueueInv(s)
    ensures QueueInv(Step(o, s, a))
  {
    if CanDo(s, a) {
      if IsFlow(a) {
        FlowKeepsQueue(s, a);
      } else if IsWorker(a) {
        WorkerKeepsQueue(s, a);
      } else if a.AddThread? {
        TotalAppend(s.flows, Listening, IsPushed());
        TotalAppend(s.workers, Blocked, IsWoken());
      }
    }
  }

  // ----- where every chunk is -----

  predicate Held(s: State, c: Chunk) { Holding(c) in s.workers }

  /** The queue is first in, first out and loses nothing; what was taken from it is in a worker's hands or was
      accepted by the file, unless its file is not known or no longer active. */
  ghost predicate ReceivedInv(s: State) {
    && s.received == s.taken + s.queue
    && (forall c :: c in s.taken ==> Held(s, c) || (c.known ==> c.id in s.accepted || !s.active))
    && (forall c :: Held(s, c) ==> c in s.taken)
    && (forall id :: id in s.accepted ==> Chunk(true, id) in s.taken)
    && (forall c :: c in s.received && c.known ==> c.id < |s.chunks.status|)
  }

  lemma StepKeepsReceived(o: Options, s: State, a: Action)
    requires ReceivedInv(s)
    ensures ReceivedInv(Step(o, s, a))
  {
    StatusKeepsLength(o, s, a);
    if CanDo(s, a) && IsWorker(a) {
      WorkerKeepsReceived(s, a);
    } else if a.AddThread? {
      assert forall c :: Holding(c) in s.workers + [Blocked] <==> Holding(c) in s.workers;
    }
  }

  lemma WorkerKeepsReceived(s: State, a: Action)
    requires ReceivedInv(s) && IsWorker(a) && CanDo(s, a)
    ensures ReceivedInv(WorkerStep(s, a))
  {
    hide LeastMissingFrom, Has;
    var t := WorkerStep(s, a);
    var before := s.workers[a.j];
    forall c | Held(s, c) && before != Holding(c) ensures Held(t, c) {
      var k :| 0 <= k < |s.workers| && s.workers[k] == Holding(c);
      assert t.workers[k] == Holding(c);
    }
    if before.Holding? { assert Held(s, before.chunk); }
    if a.GetNext? && s.queue != [] {
      assert s.queue == [s.queue[0]] + s.queue[1..];
      assert t.workers[a.j] == Holding(s.queue[0]);
    }
  }

  // ----- what each step does to the histories, to the file and to the threads -----

  /** A chunk is received exactly by a listening flow thread, taken exactly from the front of the queue by a woken
      process thread, and accepted exactly when it is handed to its file, known and still active. */
  lemma HistoriesGrow(o: Options, s: State, a: Action)
    ensures var t := Step(o, s, a);
      && t.received == s.received + (if a.Receive? && CanDo(s, a) then [a.chunk] else [])
      && t.taken == s.taken + (if a.GetNext? && a.j < |s.workers| && s.workers[a.j] == Woken && s.queue != []
                               then [s.queue[0]] else [])
      && t.accepted == s.accepted + (if Accepts(s, a) then [s.workers[a.j].chunk.id] else [])
      && (Accepts(s, a) ==> t.fileQueue == s.fileQueue + [s.workers[a.j].chunk.id])
      && (a.Receive? ==> (CanDo(s, a) <==> Hears(s, a.i, a.chunk)))
  {
  }

  predicate Hears(s: State, i: nat, c: Chunk) {
    i < |s.flows| && s.flows[i] == Listening && (!c.known || c.id < |s.chunks.status|)
  }

  predicate Accepts(s: State, a: Action) {
    a.Hand? && a.j < |s.workers| && s.workers[a.j].Holding? && s.workers[a.j].chunk.known && s.active
  }

  /** A file ends exactly at a completion scan that finds every chunk DONE. */
  lemma FileEnds(o: Options, s: State, a: Action)
    ensures Step(o, s, a).active <==>
      s.active && !(a.Verify? && forall i :: 0 <= i < |s.chunks.status| ==> Has(s.chunks.status, i, Done))
  {
    if a.Verify? && LeastMissingFrom(s.chunks.status, 0) == -1 {
      assert forall i :: 0 <= i < |s.chunks.status| ==> Has(s.chunks.status, i, Done);
    }
  }

  /** A file that is over stays so, and accepts nothing any more, in any run. */
  lemma {:induction false} EndedFileIsClosed(o: Options, s: State, acts: seq<Action>)
    requires !s.active
    ensures !Run(o, s, acts).active && Run(o, s, acts).accepted == s.accepted
    decreases |acts|
  {
    hide Step, CanDo;
    if acts != [] {
      FileEnds(o, s, acts[0]);
      HistoriesGrow(o, s, acts[0]);
      EndedFileIsClosed(o, Step(o, s, acts[0]), acts[1..]);
    }
  }

  /** A flow thread is stopped exactly when it listens, and a process thread exactly when it waits; a pair is
      added at the end, the process thread of it only where one is started. */
  lemma ThreadsComeAndGo(o: Options, s: State, i: nat)
    ensures Step(o, s, Stop(i)).flows == if i < |s.flows| && s.flows[i] == Listening then s.flows[i := Stopped] else s.flows
    ensures Step(o, s, Retire(i)).workers == if i < |s.workers| && s.workers[i] == Blocked then s.workers[i := Gone] else s.workers
    ensures Step(o, s, AddThread).flows == s.flows + [Listening]
    ensures Step(o, s, AddThread).workers == s.workers + if o.started then [Blocked] else []
    ensures var t := Step(o, s, RemoveThread); t == s.(removals := s.removals + 1, tokens := s.tokens + 1)
  {
  }

  /** A stopped thread stays stopped, so a stopped flow thread receives nothing any more, in any run. */
  lemma {:induction false} StoppedStays(o: Options, s: State, acts: seq<Action>, i: nat)
    ensures i < |s.flows| && s.flows[i] == Stopped ==> i < |Run(o, s, acts).flows| && Run(o, s, acts).flows[i] == Stopped
    ensures i < |s.workers| && s.workers[i] == Gone ==> i < |Run(o, s, acts).workers| && Run(o, s, acts).workers[i] == Gone
    decreases |acts|
  {
    if acts != [] {
      StepKeepsStopped(o, s, acts[0], i);
      hide Step;
      StoppedStays(o, Step(o, s, acts[0]), acts[1..], i);
    }
  }

  lemma StepKeepsStopped(o: Options, s: State, a: Action, i: nat)
    ensures i < |s.flows| && s.flows[i] == Stopped ==> i < |Step(o, s, a).flows| && Step(o, s, a).flows[i] == Stopped
    ensures i < |s.workers| && s.workers[i] == Gone ==> i < |Step(o, s, a).workers| && Step(o, s, a).workers[i] == Gone
  {
  }
}
