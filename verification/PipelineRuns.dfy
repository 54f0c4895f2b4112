/** Exactly which pipelines finish: a run for every other kind. */
module PipelineRuns {
  import opened Sequences
  import opened ChunkStatus
  import opened Pipeline
  import opened PipelineRest
  import opened PipelineWork
  import FileThread

  ghost predicate Reaches(o: Options, drainers: nat, s: State) {
    exists acts :: Run(o, Init(o, 1, drainers, 2), acts) == s
  }

  lemma {:induction false} RunAppend(o: Options, s: State, acts: seq<Action>, a: Action)
    ensures Run(o, s, acts + [a]) == Step(o, Run(o, s, acts), a)
    decreases |acts|
  {
    if acts == [] {
      assert [a][1..] == [] && acts + [a] == [a];
      assert Run(o, s, [a]) == Run(o, Step(o, s, a), []);
    } else {
      assert (acts + [a])[1..] == acts[1..] + [a];
      RunAppend(o, Step(o, s, acts[0]), acts[1..], a);
    }
  }

  lemma ReachStep(o: Options, drainers: nat, s: State, a: Action) returns (t: State)
    requires Reaches(o, drainers, s)
    ensures t == Step(o, s, a) && Reaches(o, drainers, t)
  {
    t := Step(o, s, a);
    var acts :| Run(o, Init(o, 1, drainers, 2), acts) == s;
    RunAppend(o, Init(o, 1, drainers, 2), acts, a);
  }

  lemma NotFinished(o: Options, drainers: nat, s: State)
    requires Reaches(o, drainers, s) && !Finishes(o, s)
    ensures !AlwaysFinishes(o, drainers)
  {
    hide Finishes;
    var acts :| Run(o, Init(o, 1, drainers, 2), acts) == s;
  }

  lemma Begin(o: Options, drainers: nat) returns (s: State)
    ensures s == Init(o, 1, drainers, 2) && Reaches(o, drainers, s)
  {
    s := Init(o, 1, drainers, 2);
    assert Run(o, s, []) == s;
  }

  // ----- a chunk comes in -----

  lemma Received(o: Options, drainers: nat, s: State, c: Chunk) returns (t: State)
    requires Reaches(o, drainers, s) && s.flows == [Listening] && (c.known ==> c.id < |s.chunks.status|)
    ensures Reaches(o, drainers, t)
    ensures t == s.(queue := s.queue + [c], tokens := s.tokens + 1, received := s.received + [c])
  {
    t := ReachStep(o, drainers, s, Receive(0, c));
    assert t.flows == [Pushed];
    t := ReachStep(o, drainers, t, Post(0));
    assert t.flows == [Listening];
  }

  /** From the queue it goes through the only process thread to the file. */
  lemma Passed(o: Options, drainers: nat, s: State, c: Chunk) returns (t: State)
    requires Reaches(o, drainers, s) && s.workers == [Blocked] && s.queue == [c] && s.tokens == 1 && c.known && s.active
    ensures Reaches(o, drainers, t)
    ensures t == s.(queue := [], tokens := 0, taken := s.taken + [c],
                    fileQueue := s.fileQueue + [c.id], accepted := s.accepted + [c.id], fileTokens := s.fileTokens + 1)
  {
    t := ReachStep(o, drainers, s, Wake(0));
    assert t.workers == [Woken];
    t := ReachStep(o, drainers, t, GetNext(0));
    assert t.queue == [] && t.workers == [Holding(c)];
    t := ReachStep(o, drainers, t, Hand(0));
    assert t.workers == [Handed];
    t := ReachStep(o, drainers, t, PostFile(0));
    assert t.workers == [Blocked];
  }

  /** Both together: the file has accepted one chunk more. */
  lemma Brought(o: Options, drainers: nat, s: State, id: nat) returns (t: State)
    requires Reaches(o, drainers, s) && s.flows == [Listening] && s.workers == [Blocked]
    requires s.queue == [] && s.tokens == 0 && s.active && id < |s.chunks.status|
    ensures Reaches(o, drainers, t)
    ensures t == s.(taken := s.taken + [Chunk(true, id)], received := s.received + [Chunk(true, id)],
                    fileQueue := s.fileQueue + [id], accepted := s.accepted + [id], fileTokens := s.fileTokens + 1)
  {
    t := Received(o, drainers, s, Chunk(true, id));
    t := Passed(o, drainers, t, Chunk(true, id));
  }

  // ----- no process thread, or no file thread -----

  lemma NobodyTakes(o: Options, drainers: nat)
    requires !o.started
    ensures !AlwaysFinishes(o, drainers)
  {
    var s := Begin(o, drainers);
    s := Received(o, drainers, s, Chunk(false, 0));
    assert s.flows[0] == Listening && Staffed(s) && NothingToDo(s) && !Complete(s);
    NotFinished(o, drainers, s);
  }

  lemma NobodyDrains(o: Options)
    requires o.started
    ensures !AlwaysFinishes(o, 0)
  {
    var s := Begin(o, 0);
    s := Brought(o, 0, s, 0);
    assert s.flows[0] == Listening && Staffed(s) && NothingToDo(s) && !Complete(s);
    NotFinished(o, 0, s);
  }

  // ----- a file thread that never gets out of its loop -----

  /** Chunk 0 is at the front to stay: the loop pops a copy, or does not pop what is DONE. */
  ghost predicate Spinning(o: Options, s: State) {
    && s.drainers != [] && s.fileQueue == [0] && |s.chunks.status| > 0
    && (if !o.loop.byReference then s.drainers[0] in {Draining, Reading(0), Writing(0), Marked(0)}
        else !o.loop.popAlways && Has(s.chunks.status, 0, Done) && s.drainers[0] in {Draining, Reading(0)})
  }

  lemma SpinStep(o: Options, s: State) returns (a: Action)
    requires Spinning(o, s)
    ensures IsWork(a) && CanDo(s, a) && Spinning(o, Step(o, s, a))
  {
    var x := s.drainers[0];
    a := if x.Reading? then Check(0) else if x.Writing? then Mark(0) else if x.Marked? then Pop(0) else Read(0);
    assert InRange(s.fileQueue, |s.chunks.status|);
  }

  lemma {:induction false} SpinsOn(o: Options, s: State, n: nat) returns (more: seq<Action>)
    requires Spinning(o, s)
    ensures Working(o, s, more) && |more| == n
    decreases n
  {
    hide Spinning, CanDo, Step;
    if n == 0 {
      more := [];
    } else {
      var a := SpinStep(o, s);
      var rest := SpinsOn(o, Step(o, s, a), n - 1);
      more := [a] + rest;
      assert more[1..] == rest;
    }
  }

  lemma SpinningNeverFinishes(o: Options, drainers: nat, s: State)
    requires Reaches(o, drainers, s) && Spinning(o, s)
    ensures !AlwaysFinishes(o, drainers)
  {
    forall n: nat ensures !WorkBelow(o, s, n) {
      var more := SpinsOn(o, s, n + 1);
    }
    NotFinished(o, drainers, s);
  }

  /** One file thread is woken for chunk 0. */
  lemma Woke(o: Options, drainers: nat) returns (t: State)
    requires o.started && drainers > 0
    ensures Reaches(o, drainers, t)
    ensures var z := Init(o, 1, drainers, 2);
      t == z.(taken := [Chunk(true, 0)], received := [Chunk(true, 0)], accepted := [0],
              fileQueue := [0], drainers := z.drainers[0 := Draining])
  {
    t := Begin(o, drainers);
    t := Brought(o, drainers, t, 0);
    t := ReachStep(o, drainers, t, WakeFile(0));
  }

  lemma PopsACopy(o: Options, drainers: nat)
    requires o.started && drainers > 0 && !o.loop.byReference
    ensures !AlwaysFinishes(o, drainers)
  {
    var s := Woke(o, drainers);
    SpinningNeverFinishes(o, drainers, s);
  }

  /** It reads chunk 0 and finds that it is not DONE. */
  lemma Found(o: Options, drainers: nat, s: State) returns (t: State)
    requires Reaches(o, drainers, s) && s.fileQueue == [0] && |s.chunks.status| > 0
    requires s.drainers != [] && s.drainers[0] == Draining && !Has(s.chunks.status, 0, Done) && !o.locked
    ensures Reaches(o, drainers, t) && t == s.(drainers := s.drainers[0 := Writing(0)])
  {
    hide Reaches, Has;
    assert InRange(s.fileQueue, |s.chunks.status|);
    t := ReachStep(o, drainers, s, Read(0));
    assert t == s.(drainers := s.drainers[0 := Reading(0)]);
    t := ReachStep(o, drainers, t, Check(0));
  }

  /** It marks it if it is to, and takes it off the queue. */
  lemma Finished(o: Options, drainers: nat, s: State) returns (t: State)
    requires Reaches(o, drainers, s) && o.loop.byReference && s.fileQueue == [0] && |s.chunks.status| > 0
    requires s.drainers != [] && s.drainers[0] == Writing(0)
    ensures Reaches(o, drainers, t)
    ensures t == s.(drainers := s.drainers[0 := Draining], fileQueue := [],
                    chunks := if o.loop.setStatus then SetStatus(s.chunks, 0, Done) else s.chunks)
  {
    hide Reaches, SetStatus;
    t := ReachStep(o, drainers, s, Mark(0));
    assert t == s.(drainers := s.drainers[0 := Marked(0)], chunks := t.chunks);
    t := ReachStep(o, drainers, t, Pop(0));
  }

  lemma Took(o: Options, drainers: nat, s: State) returns (t: State)
    requires Reaches(o, drainers, s) && o.loop.byReference && s.fileQueue == [0] && |s.chunks.status| > 0
    requires s.drainers != [] && s.drainers[0] == Draining && !Has(s.chunks.status, 0, Done)
    ensures Reaches(o, drainers, t)
    ensures t == s.(fileQueue := [], chunks := if o.loop.setStatus then SetStatus(s.chunks, 0, Done) else s.chunks)
  {
    hide Reaches;
    if o.locked {
      assert InRange(s.fileQueue, |s.chunks.status|);
      t := ReachStep(o, drainers, s, Read(0));
    } else {
      t := Found(o, drainers, s);
      t := Finished(o, drainers, t);
      assert t.drainers == s.drainers;
    }
  }

  lemma NotMarked(o: Options, drainers: nat)
    requires o.started && drainers > 0 && o.loop.byReference && !o.loop.setStatus
    ensures !AlwaysFinishes(o, drainers)
  {
    var s := Woke(o, drainers);
    ClearBytes(s.chunks.status);
    var t := Took(o, drainers, s);
    var u := ReachStep(o, drainers, t, Read(0));
    assert u.drainers == seq(drainers, _ => Waiting);
    assert !IsDone(u, 0) && Chunk(true, 0) in u.received;
    assert u.flows[0] == Listening && Staffed(u) && NothingToDo(u) && !Complete(u);
    NotFinished(o, drainers, u);
  }

  lemma NotPopped(o: Options, drainers: nat)
    requires o.started && drainers > 0 && o.loop.byReference && o.loop.setStatus && !o.loop.popAlways
    ensures !AlwaysFinishes(o, drainers)
  {
    var s := Woke(o, drainers);
    ClearBytes(s.chunks.status);
    var t := Took(o, drainers, s);
    var u := Brought(o, drainers, t, 0);
    assert u.fileQueue == [0] && Has(u.chunks.status, 0, Done);
    SpinningNeverFinishes(o, drainers, u);
  }

  // ----- two file threads without a lock -----

  lemma BothWake(o: Options, drainers: nat) returns (t: State)
    requires o.started && drainers >= 2
    ensures Reaches(o, drainers, t)
    ensures var z := Init(o, 1, drainers, 2); var all := [Chunk(true, 0), Chunk(true, 1)];
      t == z.(taken := all, received := all, accepted := [0, 1],
              fileQueue := [0, 1], drainers := z.drainers[0 := Draining][1 := Draining])
  {
    t := Begin(o, drainers);
    t := Brought(o, drainers, t, 0);
    t := Brought(o, drainers, t, 1);
    t := ReachStep(o, drainers, t, WakeFile(0));
    t := ReachStep(o, drainers, t, WakeFile(1));
  }

  lemma BothRead(o: Options, drainers: nat, s: State) returns (t: State)
    requires Reaches(o, drainers, s) && |s.drainers| >= 2 && s.drainers[0] == s.drainers[1] == Draining
    requires !o.locked && InRange(s.fileQueue, |s.chunks.status|)
    ensures Reaches(o, drainers, t)
    ensures t == var x := if s.fileQueue == [] then Waiting else Reading(s.fileQueue[0]);
                 s.(drainers := s.drainers[0 := x][1 := x])
  {
    t := ReachStep(o, drainers, s, Read(0));
    t := ReachStep(o, drainers, t, Read(1));
  }

  lemma BothCheck(o: Options, drainers: nat, s: State, id: nat) returns (t: State)
    requires Reaches(o, drainers, s) && |s.drainers| >= 2 && s.drainers[0] == s.drainers[1] == Reading(id)
    requires id < |s.chunks.status| && !Has(s.chunks.status, id, Done)
    ensures Reaches(o, drainers, t) && t == s.(drainers := s.drainers[0 := Writing(id)][1 := Writing(id)])
  {
    t := ReachStep(o, drainers, s, Check(0));
    t := ReachStep(o, drainers, t, Check(1));
  }

  lemma BothMark(o: Options, drainers: nat, s: State, id: nat) returns (t: State)
    requires Reaches(o, drainers, s) && |s.drainers| >= 2 && s.drainers[0] == s.drainers[1] == Writing(id)
    requires id < |s.chunks.status| && o.loop.setStatus
    ensures Reaches(o, drainers, t)
    ensures t == s.(drainers := s.drainers[0 := Marked(id)][1 := Marked(id)],
                    chunks := SetStatus(SetStatus(s.chunks, id, Done), id, Done))
  {
    t := ReachStep(o, drainers, s, Mark(0));
    t := ReachStep(o, drainers, t, Mark(1));
  }

  lemma BothPop(o: Options, drainers: nat, s: State, id: nat) returns (t: State)
    requires Reaches(o, drainers, s) && |s.drainers| >= 2 && s.drainers[0] == s.drainers[1] == Marked(id)
    requires |s.fileQueue| == 2 && o.loop.byReference
    ensures Reaches(o, drainers, t)
    ensures t == s.(drainers := s.drainers[0 := Draining][1 := Draining], fileQueue := [])
  {
    t := ReachStep(o, drainers, s, Pop(0));
    t := ReachStep(o, drainers, t, Pop(1));
    assert t.fileQueue == [];
  }

  // ----- which pipelines conserve what a file accepted -----

  ghost predicate AlwaysConserves(o: Options, drainers: nat) {
    forall pairs: nat, chunks: nat, acts :: ConserveInv(Run(o, Init(o, pairs, drainers, chunks), acts))
  }

  lemma NotConserved(o: Options, drainers: nat, s: State)
    requires Reaches(o, drainers, s) && !ConserveInv(s)
    ensures !AlwaysConserves(o, drainers)
  {
    hide ConserveInv;
    var acts :| Run(o, Init(o, 1, drainers, 2), acts) == s;
  }

  /** Two file threads both find chunk 0 missing, and count it twice. */
  lemma CountedTwice(o: Options, drainers: nat) returns (t: State)
    requires o.started && !o.locked && drainers >= 2 && o.loop.setStatus
    ensures Reaches(o, drainers, t)
    ensures var z := Init(o, 1, drainers, 2); var all := [Chunk(true, 0), Chunk(true, 1)];
      t == z.(taken := all, received := all, accepted := [0, 1], fileQueue := [0, 1],
              drainers := z.drainers[0 := Marked(0)][1 := Marked(0)],
              chunks := SetStatus(SetStatus(z.chunks, 0, Done), 0, Done))
    ensures t.chunks.completed != DoneCount(t.chunks.status) && !IsDone(t, 1)
  {
    var s := BothWake(o, drainers);
    ClearBytes(s.chunks.status);
    t := BothRead(o, drainers, s);
    t := BothCheck(o, drainers, t, 0);
    t := BothMark(o, drainers, t, 0);
    DoneCountSet(s.chunks.status, 0);
    DoneCountSet(s.chunks.status[0 := With(s.chunks.status[0], Done)], 0);
  }

  /** The loop pops chunk 0 and does not mark it. */
  lemma Forgotten(o: Options, drainers: nat)
    requires o.started && drainers > 0 && o.loop.byReference && !o.loop.setStatus
    ensures !AlwaysConserves(o, drainers)
  {
    var s := Woke(o, drainers);
    ClearBytes(s.chunks.status);
    var t := Took(o, drainers, s);
    assert 0 in t.accepted && !IsDone(t, 0);
    NotConserved(o, drainers, t);
  }

  /** In every run every chunk the file accepted is queued or DONE, and the completed counter is right, exactly
      when no process thread or no file thread is there, or the loop marks and its turns do not overlap, or it
      neither marks nor pops. The text is of the first kind, and its loop of the last. */
  lemma AcceptedChunksAreKept(o: Options, drainers: nat)
    ensures AlwaysConserves(o, drainers)
       <==> !o.started || drainers == 0 || if o.loop.setStatus then o.locked || drainers == 1 else !o.loop.byReference
  {
    if SoundMarks(o, drainers) || HandsOff(o, drainers) {
      forall pairs: nat, chunks: nat, acts ensures ConserveInv(Run(o, Init(o, pairs, drainers, chunks), acts)) {
        RunConserves(o, pairs, drainers, chunks, acts);
      }
    } else if o.loop.setStatus {
      var s := CountedTwice(o, drainers);
      NotConserved(o, drainers, s);
    } else {
      Forgotten(o, drainers);
    }
  }

  // ----- which pipelines finish -----

  /** Both threads read chunk 0, both mark it, and between them they pop chunk 1 unread. */
  lemma ChunkLost(o: Options, drainers: nat) returns (t: State)
    requires o.started && !o.locked && drainers >= 2 && o.loop == FileThread.INTENDED
    ensures Reaches(o, drainers, t) && Staffed(t) && NothingToDo(t)
    ensures t.fileQueue == [] && Chunk(true, 1) in t.received && !IsDone(t, 1)
    ensures t.chunks.completed != DoneCount(t.chunks.status)
  {
    t := CountedTwice(o, drainers);
    t := BothPop(o, drainers, t, 0);
    t := BothRead(o, drainers, t);
    assert forall d :: 0 <= d < drainers ==> t.drainers[d] == Waiting;
    assert t.flows[0] == Listening;
  }

  /** Exactly these pipelines stop when they are left to themselves, from every state and in every order, and
      then have every chunk that was received for the file: process threads are started, the loop of the file
      threads has its three repairs, and there is one file thread, or more and a lock around each turn. */
  lemma PipelineFinishes(o: Options, drainers: nat)
    ensures AlwaysFinishes(o, drainers)
      <==> o.started && o.loop == FileThread.INTENDED && drainers > 0 && (o.locked || drainers == 1)
  {
    if !o.started {
      NobodyTakes(o, drainers);
    } else if drainers == 0 {
      NobodyDrains(o);
    } else if !o.loop.byReference {
      PopsACopy(o, drainers);
    } else if !o.loop.setStatus {
      NotMarked(o, drainers);
    } else if !o.loop.popAlways {
      NotPopped(o, drainers);
    } else if !o.locked && drainers > 1 {
      var s := ChunkLost(o, drainers);
      assert !Complete(s);
      NotFinished(o, drainers, s);
    } else {
      forall pairs: nat, chunks: nat, acts ensures Finishes(o, Run(o, Init(o, pairs, drainers, chunks), acts)) {
        WorkEndsComplete(o, pairs, drainers, chunks, acts);
      }
    }
  }
}
