/** The pipeline of a peer with any number of files: seen from one of its files it is the pipeline of that file. */
module PipelineFiles {
  import opened Sequences
  import opened ChunkStatus
  import opened Pipeline
  import opened PipelineRest
  import opened PipelineWork

  /** A chunk carries the number of its file in the peer's list; a number past the end names no file. */
  datatype Part = Part(file: nat, id: nat)

  datatype Hand = Free | Awake | Carrying(part: Part) | Posting(file: nat) | Ended

  /** What the pipeline keeps of one file. */
  datatype File = File(active: bool, queue: seq<nat>, tokens: nat, drainers: seq<Drainer>, chunks: Progress, accepted: seq<nat>)

  datatype Peer = Peer(
    flows: seq<Flow>, queue: seq<Part>, tokens: nat, hands: seq<Hand>, removals: nat, emptyPops: nat,
    files: seq<File>, received: seq<Part>, taken: seq<Part>)

  datatype Move =
    | Receive(i: nat, part: Part)
    | Thread(a: Action)              // of a flow or process thread, or of the peer
    | OfFile(f: nat, a: Action)      // of a file thread, or the completion scan

  /** The drainers and the chunks of a file. */
  datatype Size = Size(drainers: nat, chunks: nat)

  function Fresh(size: Size): File {
    File(true, [], 0, seq(size.drainers, _ => Waiting), Progress(seq(size.chunks, _ => 0), 0), [])
  }

  function Start(o: Options, pairs: nat, sizes: seq<Size>): Peer {
    Peer(seq(pairs, _ => Listening), [], 0, seq(if o.started then pairs else 0, _ => Free), 0, 0,
         seq(|sizes|, f requires 0 <= f < |sizes| => Fresh(sizes[f])), [], [])
  }

  // ----- seen from one file -----

  function ChunkOf(p: Part, f: nat): Chunk { Chunk(p.file == f, if p.file == f then p.id else 0) }

  function ChunksOf(parts: seq<Part>, f: nat): (r: seq<Chunk>)
    ensures |r| == |parts| && forall i :: 0 <= i < |parts| ==> r[i] == ChunkOf(parts[i], f)
  {
    seq(|parts|, i requires 0 <= i < |parts| => ChunkOf(parts[i], f))
  }

  /** To another file a thread that has handed a chunk over and is about to post has nothing more to do. */
  function WorkerOf(h: Hand, f: nat): Worker {
    match h
    case Free => Blocked
    case Awake => Woken
    case Carrying(p) => Holding(ChunkOf(p, f))
    case Posting(g) => if g == f then Handed else Blocked
    case Ended => Gone
  }

  function WorkersOf(hands: seq<Hand>, f: nat): (r: seq<Worker>)
    ensures |r| == |hands| && forall j :: 0 <= j < |hands| ==> r[j] == WorkerOf(hands[j], f)
  {
    seq(|hands|, j requires 0 <= j < |hands| => WorkerOf(hands[j], f))
  }

  function View(s: Peer, f: nat): State
    requires f < |s.files|
  {
    var file := s.files[f];
    State(s.flows, ChunksOf(s.queue, f), s.tokens, WorkersOf(s.hands, f), s.removals, s.emptyPops,
          file.active, file.queue, file.tokens, file.drainers, file.chunks,
          ChunksOf(s.received, f), ChunksOf(s.taken, f), file.accepted)
  }

  function FileOf(s: State): File {
    File(s.active, s.fileQueue, s.fileTokens, s.drainers, s.chunks, s.accepted)
  }

  // ----- the steps -----

  predicate Known(s: Peer, p: Part) { p.file < |s.files| }

  predicate CanMove(s: Peer, m: Move) {
    match m
    case Receive(i, p) =>
      i < |s.flows| && s.flows[i] == Listening && (Known(s, p) ==> p.id < |s.files[p.file].chunks.status|)
    case Thread(a) =>
      (match a
       case Post(i) => i < |s.flows| && s.flows[i] == Pushed
       case Stop(i) => i < |s.flows| && s.flows[i] == Listening
       case Wake(j) => j < |s.hands| && s.hands[j] == Free && s.tokens > 0
       case GetNext(j) => j < |s.hands| && s.hands[j] == Awake
       case Hand(j) => j < |s.hands| && s.hands[j].Carrying?
       case PostFile(j) => j < |s.hands| && s.hands[j].Posting? && s.hands[j].file < |s.files|
       case Retire(j) => j < |s.hands| && s.hands[j] == Free
       case AddThread => true
       case RemoveThread => true
       case _ => false)
    case OfFile(f, a) => f < |s.files| && (IsFile(a) || a == Verify) && CanDo(View(s, f), a)
  }

  function Next(o: Options, s: Peer, m: Move): Peer {
    if !CanMove(s, m) then s else
    match m
    case Receive(i, p) => s.(flows := s.flows[i := Pushed], queue := s.queue + [p], received := s.received + [p])
    case OfFile(f, a) => s.(files := s.files[f := FileOf(Step(o, View(s, f), a))])
    case Thread(a) => ThreadNext(o, s, a)
  }

  function ThreadNext(o: Options, s: Peer, a: Action): Peer
    requires CanMove(s, Thread(a))
  {
    if a.Post? then s.(flows := s.flows[a.i := Listening], tokens := s.tokens + 1)
    else if a.Stop? then s.(flows := s.flows[a.i := Stopped])
    else if a.AddThread? then
      s.(flows := s.flows + [Listening], hands := if o.started then s.hands + [Free] else s.hands)
    else if a.RemoveThread? then s.(removals := s.removals + 1, tokens := s.tokens + 1)
    else if a.Wake? then s.(hands := s.hands[a.j := Awake], tokens := s.tokens - 1)
    else if a.GetNext? then
      if s.queue == [] then s.(hands := s.hands[a.j := Free], emptyPops := s.emptyPops + 1)
      else s.(hands := s.hands[a.j := Carrying(s.queue[0])], queue := s.queue[1..], taken := s.taken + [s.queue[0]])
    else if a.Hand? then
      var p := s.hands[a.j].part;
      if Known(s, p) && s.files[p.file].active then
        var file := s.files[p.file];
        s.(hands := s.hands[a.j := Posting(p.file)],
           files := s.files[p.file := file.(queue := file.queue + [p.id], accepted := file.accepted + [p.id])])
      else s.(hands := s.hands[a.j := Free])
    else if a.PostFile? then
      var f := s.hands[a.j].file;
      s.(hands := s.hands[a.j := Free], files := s.files[f := s.files[f].(tokens := s.files[f].tokens + 1)])
    else s.(hands := s.hands[a.j := Ended])
  }

  function Moves(o: Options, s: Peer, ms: seq<Move>): Peer
    decreases |ms|
  {
    if ms == [] then s else Moves(o, Next(o, s, ms[0]), ms[1..])
  }

  // ----- every move is a step, or nothing, for each file -----

  /** What the move is to file f. */
  function ActionOf(m: Move, f: nat): Action {
    match m
    case Receive(i, p) => Action.Receive(i, ChunkOf(p, f))
    case Thread(a) => a
    case OfFile(_, a) => a
  }

  /** The move concerns another file alone. */
  predicate Elsewhere(s: Peer, m: Move, f: nat) {
    match m
    case OfFile(g, _) => g != f
    case Thread(a) => a.PostFile? && a.j < |s.hands| && s.hands[a.j].Posting? && s.hands[a.j].file != f
    case _ => false
  }

  lemma WorkersUpdate(hands: seq<Hand>, j: nat, h: Hand, f: nat)
    requires j < |hands|
    ensures WorkersOf(hands[j := h], f) == WorkersOf(hands, f)[j := WorkerOf(h, f)]
  {
  }

  lemma ReceiveIsSeen(o: Options, s: Peer, m: Move, f: nat)
    requires CanMove(s, m) && m.Receive? && f < |s.files|
    ensures CanDo(View(s, f), ActionOf(m, f)) && View(Next(o, s, m), f) == Step(o, View(s, f), ActionOf(m, f))
  {
    assert ChunksOf(s.queue + [m.part], f) == ChunksOf(s.queue, f) + [ChunkOf(m.part, f)];
    assert ChunksOf(s.received + [m.part], f) == ChunksOf(s.received, f) + [ChunkOf(m.part, f)];
  }

  lemma FileIsSeen(o: Options, s: Peer, m: Move, f: nat)
    requires CanMove(s, m) && m.OfFile? && f < |s.files|
    ensures |Next(o, s, m).files| == |s.files|
    ensures Elsewhere(s, m, f) ==> View(Next(o, s, m), f) == View(s, f)
    ensures !Elsewhere(s, m, f) ==>
      CanDo(View(s, f), ActionOf(m, f)) && View(Next(o, s, m), f) == Step(o, View(s, f), ActionOf(m, f))
  {
  }

  lemma HandIsSeen(o: Options, s: Peer, m: Move, f: nat)
    requires CanMove(s, m) && m.Thread? && (m.a.Hand? || m.a.PostFile?) && f < |s.files|
    ensures |Next(o, s, m).files| == |s.files|
    ensures Elsewhere(s, m, f) ==> View(Next(o, s, m), f) == View(s, f)
    ensures !Elsewhere(s, m, f) ==> CanDo(View(s, f), m.a) && View(Next(o, s, m), f) == Step(o, View(s, f), m.a)
  {
    var t, j := Next(o, s, m), m.a.j;
    WorkersUpdate(s.hands, j, t.hands[j], f);
    assert t.hands == s.hands[j := t.hands[j]];
    assert WorkersOf(t.hands, f) == WorkersOf(s.hands, f)[j := WorkerOf(t.hands[j], f)];
    if Elsewhere(s, m, f) { assert WorkersOf(t.hands, f) == WorkersOf(s.hands, f); }
  }

  lemma ThreadIsSeen(o: Options, s: Peer, m: Move, f: nat)
    requires CanMove(s, m) && m.Thread? && !m.a.Hand? && !m.a.PostFile? && f < |s.files|
    ensures CanDo(View(s, f), m.a) && View(Next(o, s, m), f) == Step(o, View(s, f), m.a)
  {
    var t, a := Next(o, s, m), m.a;
    if a.AddThread? {
      assert WorkersOf(s.hands + [Free], f) == WorkersOf(s.hands, f) + [Blocked];
    } else if IsWorker(a) {
      WorkersUpdate(s.hands, a.j, t.hands[a.j], f);
      assert t.hands == s.hands[a.j := t.hands[a.j]];
      if a.GetNext? && s.queue != [] {
        assert ChunksOf(s.queue[1..], f) == ChunksOf(s.queue, f)[1..];
        assert ChunksOf(s.taken + [s.queue[0]], f) == ChunksOf(s.taken, f) + [ChunkOf(s.queue[0], f)];
      }
    }
  }

  /** Seen from any of the files, a move is one step of that file's pipeline, or nothing at all. */
  lemma MoveIsSeen(o: Options, s: Peer, m: Move, f: nat)
    requires CanMove(s, m) && f < |s.files|
    ensures |Next(o, s, m).files| == |s.files|
    ensures Elsewhere(s, m, f) ==> View(Next(o, s, m), f) == View(s, f)
    ensures !Elsewhere(s, m, f) ==>
      CanDo(View(s, f), ActionOf(m, f)) && View(Next(o, s, m), f) == Step(o, View(s, f), ActionOf(m, f))
  {
    hide Next, Step, CanDo, View;
    if m.Receive? {
      ReceiveIsSeen(o, s, m, f);
      FilesStay(o, s, m);
    } else if m.OfFile? {
      FileIsSeen(o, s, m, f);
    } else if m.a.Hand? || m.a.PostFile? {
      HandIsSeen(o, s, m, f);
    } else {
      ThreadIsSeen(o, s, m, f);
      FilesStay(o, s, m);
    }
  }

  lemma FilesStay(o: Options, s: Peer, m: Move)
    ensures |Next(o, s, m).files| == |s.files|
  {
  }

  /** And a move can be made as soon as each file that it concerns sees a step that can be done. */
  lemma MoveWhenSeen(s: Peer, m: Move)
    requires s.files != []
    requires m.Thread? ==> IsWorker(m.a) || m.a.Post? || m.a.Stop? || m.a.AddThread? || m.a.RemoveThread?
    requires m.OfFile? ==> m.f < |s.files| && (IsFile(m.a) || m.a == Verify)
    requires forall f :: 0 <= f < |s.files| && !Elsewhere(s, m, f) ==> CanDo(View(s, f), ActionOf(m, f))
    requires m.Thread? && m.a.PostFile? && m.a.j < |s.hands| && s.hands[m.a.j].Posting? ==> s.hands[m.a.j].file < |s.files|
    requires m.Thread? && (m.a.Wake? || m.a.Retire?) ==> m.a.j < |s.hands| && !s.hands[m.a.j].Posting?
    ensures CanMove(s, m)
  {
    match m
    case Receive(i, p) =>
      assert !Elsewhere(s, m, 0);
      if Known(s, p) { assert !Elsewhere(s, m, p.file); }
    case Thread(a) =>
      if !Elsewhere(s, m, 0) { assert CanDo(View(s, 0), a); }
    case OfFile(f, a) =>
      assert !Elsewhere(s, m, f);
  }

  /** So every run of the whole is, seen from any of its files, a run of that file's pipeline. */
  lemma {:induction false} RunIsSeen(o: Options, s: Peer, ms: seq<Move>, f: nat) returns (acts: seq<Action>)
    requires f < |s.files|
    ensures f < |Moves(o, s, ms).files| && View(Moves(o, s, ms), f) == Run(o, View(s, f), acts)
    decreases |ms|
  {
    hide Next, Step, CanMove, CanDo, View;
    if ms == [] {
      acts := [];
    } else {
      FilesStay(o, s, ms[0]);
      var rest := RunIsSeen(o, Next(o, s, ms[0]), ms[1..], f);
      acts := SeenFirst(o, s, ms[0], f, rest);
    }
  }

  lemma SeenFirst(o: Options, s: Peer, m: Move, f: nat, rest: seq<Action>) returns (acts: seq<Action>)
    requires f < |s.files| && f < |Next(o, s, m).files|
    ensures Run(o, View(Next(o, s, m), f), rest) == Run(o, View(s, f), acts)
  {
    acts := rest;
    if CanMove(s, m) {
      MoveIsSeen(o, s, m, f);
      hide Next, Step, CanMove, CanDo, View;
      if !Elsewhere(s, m, f) {
        acts := [ActionOf(m, f)] + rest;
        assert acts[1..] == rest;
      }
    } else {
      StaysPut(o, s, m);
    }
  }

  lemma StaysPut(o: Options, s: Peer, m: Move)
    requires !CanMove(s, m)
    ensures Next(o, s, m) == s
  {
  }

  lemma StartIsSeen(o: Options, pairs: nat, sizes: seq<Size>, f: nat)
    requires f < |sizes|
    ensures |Start(o, pairs, sizes).files| == |sizes|
    ensures View(Start(o, pairs, sizes), f) == Init(o, pairs, sizes[f].drainers, sizes[f].chunks)
  {
    var s := Start(o, pairs, sizes);
    assert WorkersOf(s.hands, f) == seq(if o.started then pairs else 0, _ => Blocked);
  }

  /** In every run with any number of files, and for each of them: no wakeup is lost, its queue is covered, and
      under the condition of AcceptedChunksAreKept every chunk it accepted is queued or DONE. */
  lemma EveryFileIsKept(o: Options, pairs: nat, sizes: seq<Size>, ms: seq<Move>, f: nat)
    requires f < |sizes|
    ensures var t := Moves(o, Start(o, pairs, sizes), ms);
      && f < |t.files|
      && QueueInv(View(t, f)) && ReceivedInv(View(t, f)) && CoverInv(View(t, f))
      && (SoundMarks(o, sizes[f].drainers) || HandsOff(o, sizes[f].drainers) ==> ConserveInv(View(t, f)))
  {
    hide View, QueueInv, ReceivedInv, CoverInv, ConserveInv, Moves, Run;
    StartIsSeen(o, pairs, sizes, f);
    var acts := RunIsSeen(o, Start(o, pairs, sizes), ms, f);
    InitInv(o, pairs, sizes[f].drainers, sizes[f].chunks);
    RunKeepsQueue(o, Init(o, pairs, sizes[f].drainers, sizes[f].chunks), acts);
    if SoundMarks(o, sizes[f].drainers) || HandsOff(o, sizes[f].drainers) {
      RunConserves(o, pairs, sizes[f].drainers, sizes[f].chunks, acts);
    }
  }

  /** A file that is over stays so, and accepts nothing any more, whatever the other files do. */
  lemma EndedFileStaysClosed(o: Options, s: Peer, ms: seq<Move>, f: nat)
    requires f < |s.files| && !s.files[f].active
    ensures var t := Moves(o, s, ms);
      f < |t.files| && !t.files[f].active && t.files[f].accepted == s.files[f].accepted
  {
    hide Moves, Run;
    var acts := RunIsSeen(o, s, ms, f);
    EndedFileIsClosed(o, View(s, f), acts);
  }

  // ----- the whole comes to rest -----

  predicate IsWorkMove(m: Move) {
    match m
    case Receive(_, _) => false
    case Thread(a) => IsWork(a)
    case OfFile(_, a) => IsWork(a)
  }

  ghost predicate WorkingMoves(o: Options, s: Peer, ms: seq<Move>)
    decreases |ms|
  {
    ms == [] || (IsWorkMove(ms[0]) && CanMove(s, ms[0]) && WorkingMoves(o, Next(o, s, ms[0]), ms[1..]))
  }

  ghost predicate NothingToMove(s: Peer) {
    forall m :: IsWorkMove(m) ==> !CanMove(s, m)
  }

  /** The work that is left, seen from the first n files. */
  function WorkOf(s: Peer, n: nat): nat
    requires n <= |s.files|
  {
    if n == 0 then 0 else WorkOf(s, n - 1) + Work(View(s, n - 1))
  }

  ghost predicate Sound(o: Options, s: Peer) {
    && s.files != []
    && (forall j :: 0 <= j < |s.hands| && s.hands[j].Posting? ==> s.hands[j].file < |s.files|)
    && forall f :: 0 <= f < |s.files| ==>
         ReceivedInv(View(s, f)) && FileInv(o, View(s, f)) && SoundLoop(o, |s.files[f].drainers|)
  }

  lemma MoveLowersEach(o: Options, s: Peer, m: Move, f: nat)
    requires Sound(o, s) && f < |s.files| && IsWorkMove(m) && CanMove(s, m)
    ensures f < |Next(o, s, m).files|
    ensures Elsewhere(s, m, f) ==> Work(View(Next(o, s, m), f)) == Work(View(s, f))
    ensures !Elsewhere(s, m, f) ==> Work(View(Next(o, s, m), f)) < Work(View(s, f))
  {
    MoveIsSeen(o, s, m, f);
    assert |View(s, f).drainers| == |s.files[f].drainers|;
    hide Work, View, Next, Step, CanDo, CanMove, SoundLoop, ReceivedInv, FileInv, FrontInv;
    if !Elsewhere(s, m, f) { SeenLowers(o, View(s, f), ActionOf(m, f)); }
  }

  lemma SeenLowers(o: Options, s: State, a: Action)
    requires FileInv(o, s) && SoundLoop(o, |s.drainers|) && IsWork(a) && CanDo(s, a)
    ensures Work(Step(o, s, a)) < Work(s)
  {
    hide Work, Step, CanDo, ConserveInv, FrontInv;
    StepLowers(o, s, a);
  }

  lemma {:induction false} MoveLowersUpTo(o: Options, s: Peer, m: Move, n: nat)
    requires Sound(o, s) && IsWorkMove(m) && CanMove(s, m) && n <= |s.files| == |Next(o, s, m).files|
    ensures WorkOf(Next(o, s, m), n) <= WorkOf(s, n)
    ensures (exists f :: 0 <= f < n && !Elsewhere(s, m, f)) ==> WorkOf(Next(o, s, m), n) < WorkOf(s, n)
  {
    hide Work, View, Next, CanMove, Sound, Elsewhere;
    if n > 0 {
      MoveLowersUpTo(o, s, m, n - 1);
      MoveLowersEach(o, s, m, n - 1);
    }
  }

  /** Every move concerns at least one of the files. */
  lemma SomewhereSeen(o: Options, s: Peer, m: Move) returns (f: nat)
    requires Sound(o, s) && CanMove(s, m)
    ensures f < |s.files| && !Elsewhere(s, m, f)
  {
    f := match m
      case OfFile(g, _) => g
      case Thread(a) => if a.PostFile? then s.hands[a.j].file else 0
      case _ => 0;
  }

  lemma MoveKeepsSound(o: Options, s: Peer, m: Move)
    requires Sound(o, s) && CanMove(s, m)
    ensures Sound(o, Next(o, s, m))
  {
    FilesStay(o, s, m);
    var t := Next(o, s, m);
    forall f | 0 <= f < |t.files|
      ensures ReceivedInv(View(t, f)) && FileInv(o, View(t, f)) && SoundLoop(o, |t.files[f].drainers|)
    {
      MoveIsSeen(o, s, m, f);
      ViewDrainers(s, f);
      ViewDrainers(t, f);
      hide Next, Step, CanDo, CanMove, View, ReceivedInv, ConserveInv, FrontInv;
      if !Elsewhere(s, m, f) {
        StepKeepsReceived(o, View(s, f), ActionOf(m, f));
        StepKeepsFile(o, View(s, f), ActionOf(m, f));
      }
    }
  }

  lemma ViewDrainers(s: Peer, f: nat)
    requires f < |s.files|
    ensures |View(s, f).drainers| == |s.files[f].drainers|
  {
  }

  lemma {:induction false} MovesAreBounded(o: Options, s: Peer, ms: seq<Move>)
    requires Sound(o, s) && WorkingMoves(o, s, ms)
    ensures Sound(o, Moves(o, s, ms))
    ensures |ms| + WorkOf(Moves(o, s, ms), |Moves(o, s, ms).files|) <= WorkOf(s, |s.files|)
    decreases |ms|
  {
    hide Sound, Next, CanMove, WorkOf, Elsewhere;
    if ms != [] {
      FilesStay(o, s, ms[0]);
      var f := SomewhereSeen(o, s, ms[0]);
      MoveLowersUpTo(o, s, ms[0], |s.files|);
      MoveKeepsSound(o, s, ms[0]);
      MovesAreBounded(o, Next(o, s, ms[0]), ms[1..]);
    }
  }

  /** When the whole has nothing to do, neither has any of its files. */
  lemma NothingIsSeen(s: Peer, f: nat)
    requires NothingToMove(s) && f < |s.files|
    requires forall j :: 0 <= j < |s.hands| && s.hands[j].Posting? ==> s.hands[j].file < |s.files|
    ensures NothingToDo(View(s, f))
  {
    forall a | IsWork(a) ensures !CanDo(View(s, f), a) {
      if IsFile(a) {
        assert !CanMove(s, OfFile(f, a));
      } else {
        assert !CanMove(s, Thread(a));
        if a.Wake? && a.j < |s.hands| { assert !CanMove(s, Thread(PostFile(a.j))); }
      }
    }
  }

  lemma StartIsSound(o: Options, pairs: nat, sizes: seq<Size>)
    requires sizes != [] && forall f :: 0 <= f < |sizes| ==> SoundLoop(o, sizes[f].drainers)
    ensures Sound(o, Start(o, pairs, sizes))
  {
    var s := Start(o, pairs, sizes);
    forall f | 0 <= f < |s.files|
      ensures ReceivedInv(View(s, f)) && FileInv(o, View(s, f)) && SoundLoop(o, |s.files[f].drainers|)
    {
      StartIsSeen(o, pairs, sizes, f);
      hide ReceivedInv, FileInv;
      InitInv(o, pairs, sizes[f].drainers, sizes[f].chunks);
    }
  }

  lemma {:induction false} MovesKeepSound(o: Options, s: Peer, ms: seq<Move>)
    requires Sound(o, s)
    ensures Sound(o, Moves(o, s, ms)) && |Moves(o, s, ms).files| == |s.files|
    decreases |ms|
  {
    hide Sound, Next, CanMove;
    if ms != [] {
      FilesStay(o, s, ms[0]);
      if CanMove(s, ms[0]) { MoveKeepsSound(o, s, ms[0]); } else { StaysPut(o, s, ms[0]); }
      MovesKeepSound(o, Next(o, s, ms[0]), ms[1..]);
    }
  }

  /** A pipeline with any number of files, a sound loop, and a file thread for each: from every reachable state
      and in every order it stops within the work there is, and with process threads there every file is then
      complete. */
  lemma EveryFileFinishes(o: Options, pairs: nat, sizes: seq<Size>, acts: seq<Move>, more: seq<Move>, f: nat)
    requires o.started && f < |sizes|
    requires forall g :: 0 <= g < |sizes| ==> sizes[g].drainers > 0 && SoundLoop(o, sizes[g].drainers)
    requires WorkingMoves(o, Moves(o, Start(o, pairs, sizes), acts), more)
    ensures var s := Moves(o, Start(o, pairs, sizes), acts); var t := Moves(o, s, more);
      && |more| <= WorkOf(s, |s.files|) && f < |t.files|
      && (NothingToMove(t) && Staffed(View(t, f)) ==> Complete(View(t, f)))
  {
    hide View, Next, CanMove, CanDo, Complete, Staffed, NothingToMove, Work, WorkingMoves;
    var z := Start(o, pairs, sizes);
    StartIsSound(o, pairs, sizes);
    StartIsSeen(o, pairs, sizes, f);
    MovesKeepSound(o, z, acts);
    var s := Moves(o, z, acts);
    MovesAreBounded(o, s, more);
    var t := Moves(o, s, more);
    MovesKeepSound(o, s, more);
    if NothingToMove(t) && Staffed(View(t, f)) {
      NothingIsSeen(t, f);
      CompleteWhenSeen(o, pairs, sizes, acts, more, f);
    }
  }

  lemma CompleteWhenSeen(o: Options, pairs: nat, sizes: seq<Size>, acts: seq<Move>, more: seq<Move>, f: nat)
    requires o.started && f < |sizes| && sizes[f].drainers > 0 && SoundLoop(o, sizes[f].drainers)
    requires var t := Moves(o, Moves(o, Start(o, pairs, sizes), acts), more);
      f < |t.files| && NothingToDo(View(t, f)) && Staffed(View(t, f))
    ensures Complete(View(Moves(o, Moves(o, Start(o, pairs, sizes), acts), more), f))
  {
    hide View, Next, Step, CanDo, Complete, Staffed, NothingToDo, Moves, SoundLoop;
    var size := sizes[f];
    StartIsSeen(o, pairs, sizes, f);
    var seen := RunIsSeen(o, Start(o, pairs, sizes), acts, f);
    var further := RunIsSeen(o, Moves(o, Start(o, pairs, sizes), acts), more, f);
    var z := Init(o, pairs, size.drainers, size.chunks);
    RunJoins(o, z, seen, further);
    WorkEndsComplete(o, pairs, size.drainers, size.chunks, seen + further);
  }

  lemma {:induction false} RunJoins(o: Options, s: State, a: seq<Action>, b: seq<Action>)
    ensures Run(o, s, a + b) == Run(o, Run(o, s, a), b)
    decreases |a|
  {
    hide Step;
    if a == [] {
      assert a + b == b;
    } else {
      assert (a + b)[1..] == a[1..] + b;
      RunJoins(o, Step(o, s, a[0]), a[1..], b);
    }
  }
}
