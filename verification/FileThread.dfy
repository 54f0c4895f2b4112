/** The inner loop of an INCOMING file thread: it empties the queue of chunks that have come in. */
module FileThread {
  import opened Protocol
  import opened ChunkStatus
  import Transfer

  /** One flag for each place where the text of the loop departs from what it is for. */
  datatype Repairs = Repairs(
    byReference: bool, // the loop works on the queue of the file and not on a copy of it
    popAlways: bool,   // a chunk that is already DONE leaves the queue as well
    setStatus: bool)   // a chunk that was written is set DONE, where the text only reads its status

  const INTENDED := Repairs(true, true, true)

  datatype Drain = Drain(queue: seq<nat>, chunks: Progress)
  {
    predicate Valid() { InRange(queue, |chunks.status|) }
  }

  /** One turn of the loop, on a queue that is not empty. */
  function Turn(fix: Repairs, d: Drain): (r: Drain)
    requires d.queue != [] && d.Valid()
    ensures r.Valid() && |r.chunks.status| == |d.chunks.status|
  {
    var id := d.queue[0];
    if !Has(d.chunks.status, id, Done) then
      Drain(if fix.byReference then d.queue[1..] else d.queue,
            if fix.setStatus then SetStatus(d.chunks, id, Done) else d.chunks)
    else
      Drain(if fix.byReference && fix.popAlways then d.queue[1..] else d.queue, d.chunks)
  }

  function Turns(fix: Repairs, d: Drain, n: nat): (r: Drain)
    requires d.Valid()
    ensures r.Valid()
    decreases n
  {
    if n == 0 || d.queue == [] then d else Turns(fix, Turn(fix, d), n - 1)
  }

  ghost predicate Ends(fix: Repairs, d: Drain)
    requires d.Valid()
  {
    exists n: nat :: Turns(fix, d, n).queue == []
  }

  ghost predicate AlwaysEnds(fix: Repairs) {
    forall d: Drain :: d.Valid() ==> Ends(fix, d)
  }

  lemma {:induction false} TurnsDrain(fix: Repairs, d: Drain)
    requires d.Valid() && fix.byReference && fix.popAlways
    ensures Turns(fix, d, |d.queue|).queue == []
    ensures Turns(fix, d, |d.queue|).chunks == if fix.setStatus then ArriveAll(d.chunks, d.queue) else d.chunks
    decreases |d.queue|
  {
    if d.queue != [] {
      TurnsDrain(fix, Turn(fix, d));
    }
  }

  lemma {:induction false} StuckTurns(fix: Repairs, d: Drain, n: nat)
    requires d.Valid() && d.queue != [] && Turn(fix, d) == d
    ensures Turns(fix, d, n) == d
  {
    if n > 0 { StuckTurns(fix, d, n - 1); }
  }

  lemma OneTurnLess(fix: Repairs, d: Drain)
    requires d.Valid() && d.queue != []
    ensures Ends(fix, d) <==> Ends(fix, Turn(fix, d))
  {
    if Ends(fix, d) {
      var n: nat :| Turns(fix, d, n).queue == [];
      assert Turns(fix, Turn(fix, d), n - 1).queue == [];
    }
    if Ends(fix, Turn(fix, d)) {
      var n: nat :| Turns(fix, Turn(fix, d), n).queue == [];
      assert Turns(fix, d, n + 1).queue == [];
    }
  }

  lemma {:induction false} CopyKeepsQueue(fix: Repairs, d: Drain, n: nat)
    requires d.Valid() && !fix.byReference
    ensures Turns(fix, d, n).queue == d.queue
    decreases n
  {
    if n > 0 && d.queue != [] { CopyKeepsQueue(fix, Turn(fix, d), n - 1); }
  }

  ghost predicate CanEnd(fix: Repairs, d: Drain)
    requires d.Valid()
  {
    || d.queue == []
    || (fix.byReference
        && (fix.popAlways
            || (NoneDone(d.chunks.status, d.queue) && (fix.setStatus ==> NoRepeats(d.queue)))))
  }

  lemma TurnKeepsCanEnd(fix: Repairs, d: Drain)
    requires d.Valid() && d.queue != [] && fix.byReference && !fix.popAlways
    requires !Has(d.chunks.status, d.queue[0], Done)
    ensures CanEnd(fix, d) <==> CanEnd(fix, Turn(fix, d))
  {
    var q, e := d.queue, Turn(fix, d);
    var rest := q[1..];
    assert e.queue == rest && forall k :: 0 <= k < |rest| ==> rest[k] == q[k + 1];
    assert forall i :: 0 <= i < |d.chunks.status| ==>
      (Has(e.chunks.status, i, Done) <==> Has(d.chunks.status, i, Done) || (fix.setStatus && i == q[0]));
    if CanEnd(fix, e) && rest != [] {
      forall k | 0 <= k < |q| ensures !Has(d.chunks.status, q[k], Done) && (fix.setStatus && 0 < k ==> q[k] != q[0]) {
        if 0 < k { assert !Has(e.chunks.status, rest[k - 1], Done); }
      }
      forall j, k | fix.setStatus && 0 <= j < k < |q| ensures q[j] != q[k] {
        if 0 < j { assert rest[j - 1] != rest[k - 1]; }
      }
    }
  }

  /** Exactly these queues are emptied: with a pop that is misplaced, those in which no chunk is DONE already
      and, once the loop sets the status, none comes twice; on a copy of the queue, the empty one alone. */
  lemma {:induction false} EndsExactly(fix: Repairs, d: Drain)
    requires d.Valid()
    ensures Ends(fix, d) <==> CanEnd(fix, d)
    decreases |d.queue|
  {
    if d.queue == [] {
      assert Turns(fix, d, 0).queue == [];
    } else if !fix.byReference {
      forall n: nat ensures Turns(fix, d, n).queue != [] { CopyKeepsQueue(fix, d, n); }
    } else if fix.popAlways {
      TurnsDrain(fix, d);
    } else if Has(d.chunks.status, d.queue[0], Done) {
      forall n: nat ensures Turns(fix, d, n).queue != [] { StuckTurns(fix, d, n); }
    } else {
      EndsExactly(fix, Turn(fix, d));
      OneTurnLess(fix, d);
      TurnKeepsCanEnd(fix, d);
    }
  }

  /** The loop ends on every queue exactly when it works on the real queue and pops every chunk; it then
      takes one turn a chunk, and leaves the chunks of the queue DONE if it also sets the status. */
  lemma DrainEnds(fix: Repairs)
    ensures AlwaysEnds(fix) <==> fix.byReference && fix.popAlways
    ensures AlwaysEnds(fix) ==> forall d: Drain :: d.Valid() ==>
      Turns(fix, d, |d.queue|) == Drain([], if fix.setStatus then ArriveAll(d.chunks, d.queue) else d.chunks)
  {
    if fix.byReference && fix.popAlways {
      forall d: Drain | d.Valid()
        ensures Ends(fix, d)
        ensures Turns(fix, d, |d.queue|) == Drain([], if fix.setStatus then ArriveAll(d.chunks, d.queue) else d.chunks)
      {
        TurnsDrain(fix, d);
      }
    } else {
      var d := Drain([0], Progress([With(0, Done)], 1));
      EndsExactly(fix, d);
      assert !Ends(fix, d);
    }
  }

  /** The repaired loop on a file: every queued chunk is DONE afterwards, by the same rule as single arrivals. */
  method DrainIncoming(file: Transfer.UDTPFile)
    requires InRange(file.incomingChunks, |file.chunksCompleted|)
    modifies file`incomingChunks, file`chunksCompleted, file`chunksCompletedCount
    ensures file.incomingChunks == []
    ensures file.Chunks() == ArriveAll(old(file.Chunks()), old(file.incomingChunks))
  {
    while file.incomingChunks != []
      invariant InRange(file.incomingChunks, |file.chunksCompleted|)
      invariant |file.chunksCompleted| == |old(file.chunksCompleted)|
      invariant ArriveAll(file.Chunks(), file.incomingChunks) == ArriveAll(old(file.Chunks()), old(file.incomingChunks))
      decreases |file.incomingChunks|
    {
      var processChunkID := file.incomingChunks[0];
      if !Has(file.chunksCompleted, processChunkID, Done) {
        file.SetChunkStatus(processChunkID, Done);
      }
      file.incomingChunks := file.incomingChunks[1..];
    }
  }

  // ----- ending a file -----

  /** How many threads the queue holds after n calls of remove_file_thread that returned true, or None when
      one of them returned false. As written a thread is cancelled but never popped. */
  function Removed(popped: bool, starting: nat, active: bool, threads: nat, n: nat): (left: Option<nat>)
    decreases n
  {
    if n == 0 then Some(threads)
    else if (active && threads == starting) || threads == 0 then None
    else Removed(popped, starting, active, if popped then threads - 1 else threads, n - 1)
  }

  /** The loop of end_file_processing is left: some call returns false. */
  ghost predicate Leaves(popped: bool, starting: nat, active: bool, threads: nat) {
    exists n: nat :: Removed(popped, starting, active, threads, n) == None
  }

  lemma {:induction false} NeverLeft(starting: nat, active: bool, threads: nat, n: nat)
    requires threads != 0 && !(active && threads == starting)
    ensures Removed(false, starting, active, threads, n) == Some(threads)
  {
    if n > 0 { NeverLeft(starting, active, threads, n - 1); }
  }

  lemma {:induction false} PoppedIsLeft(starting: nat, active: bool, threads: nat)
    ensures var kept := if active && threads >= starting then starting else 0;
      && Removed(true, starting, active, threads, threads - kept) == Some(kept)
      && Removed(true, starting, active, threads, threads - kept + 1) == None
    decreases threads
  {
    if threads != 0 && !(active && threads == starting) { PoppedIsLeft(starting, active, threads - 1); }
  }

  /** As written the end of a file is reached only if no thread is there to remove, or exactly the starting
      number on a file that is active. If removal popped, always; an active file keeps its starting number. */
  lemma EndingIsReached(popped: bool, starting: nat, active: bool, threads: nat)
    ensures Leaves(popped, starting, active, threads)
       <==> popped || threads == 0 || (active && threads == starting)
  {
    if popped {
      PoppedIsLeft(starting, active, threads);
    } else if threads == 0 || (active && threads == starting) {
      assert Removed(popped, starting, active, threads, 1) == None;
    } else {
      forall n: nat ensures Removed(popped, starting, active, threads, n) != None {
        NeverLeft(starting, active, threads, n);
      }
    }
  }
}
