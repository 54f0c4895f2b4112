/** A HOST and a PEER that scale their flow threads together, in every interleaving. */
module AcknowledgeRuns {
  import opened Protocol
  import opened Sequences
  import opened Acknowledge

  /** The two thread counts and the packets in flight each way. `missed` counts the approved additions that
      the HOST could not carry out itself; no step reads it. A side that takes a thread from an empty queue
      fails, and then nothing goes on. */
  datatype Pair = Pair(host: nat, peer: nat, up: seq<Ack>, down: seq<Ack>, missed: nat, failed: bool)

  /** The PEER reports what it sent; a packet may be taken from any position of its channel. `local` and
      `addOk` are what the receiving side has when it responds. */
  datatype Action =
    | Report(packets: nat)
    | Up(i: nat, local: nat, addOk: bool)
    | Down(i: nat, local: nat, addOk: bool)

  const START := Pair(0, 0, [], [], 0, false)

  predicate CanRespond(wire: seq<Ack>, i: nat, local: nat) {
    i < |wire| && (wire[i].kind == PacketCount && wire[i].code == ResponseNone ==> local > 0)
  }

  function Step(fix: Repairs, lim: Limits, s: Pair, a: Action): Pair {
    if s.failed then s else
    match a
    case Report(packets) => s.(up := s.up + [Ack(PacketCount, ResponseNone, packets)])
    case Up(i, local, addOk) =>
      if !CanRespond(s.up, i, local) then s
      else if Breaks(fix, lim, s.host, s.up[i], local) then s.(failed := true)
      else
        var p := s.up[i];
        var out := Respond(fix, lim, s.host, p, local, addOk);
        s.(host := out.threads, up := Without(s.up, i),
           down := if GoesBack(fix, out.reply) then s.down + [out.ack] else s.down,
           missed := if p.kind == AddThread && p.code == ResponseApproved && !addOk then s.missed + 1 else s.missed)
    case Down(i, local, addOk) =>
      if !CanRespond(s.down, i, local) then s
      else if Breaks(fix, lim, s.peer, s.down[i], local) then s.(failed := true)
      else
        var out := Respond(fix, lim, s.peer, s.down[i], local, addOk);
        s.(peer := out.threads, down := Without(s.down, i),
           up := if GoesBack(fix, out.reply) then s.up + [out.ack] else s.up)
  }

  function Run(fix: Repairs, lim: Limits, s: Pair, acts: seq<Action>): Pair
    decreases |acts|
  {
    if acts == [] then s else Run(fix, lim, Step(fix, lim, s, acts[0]), acts[1..])
  }

  /** A side fails exactly when it takes a packet that removes a thread and nothing was ever queued; and then
      nothing goes on, in any run. */
  lemma {:induction false} FailureIsFinal(fix: Repairs, lim: Limits, s: Pair, acts: seq<Action>)
    ensures s.failed ==> Run(fix, lim, s, acts) == s
    ensures !s.failed && acts != [] ==> (Step(fix, lim, s, acts[0]).failed <==> !fix.queued && RemovesOne(fix, lim, s, acts[0]))
    decreases |acts|
  {
    if acts != [] && s.failed {
      assert Step(fix, lim, s, acts[0]) == s;
      FailureIsFinal(fix, lim, s, acts[1..]);
    }
  }

  predicate RemovesOne(fix: Repairs, lim: Limits, s: Pair, a: Action) {
    || (a.Up? && CanRespond(s.up, a.i, a.local) && Removes(fix, lim, s.host, s.up[a.i], a.local))
    || (a.Down? && CanRespond(s.down, a.i, a.local) && Removes(fix, lim, s.peer, s.down[a.i], a.local))
  }

  lemma {:induction false} RunAppend(fix: Repairs, lim: Limits, s: Pair, a: seq<Action>, b: seq<Action>)
    ensures Run(fix, lim, s, a + b) == Run(fix, lim, Run(fix, lim, s, a), b)
    decreases |a|
  {
    if a == [] {
      assert a + b == b;
    } else {
      assert (a + b)[1..] == a[1..] + b;
      RunAppend(fix, lim, Step(fix, lim, s, a[0]), a[1..], b);
    }
  }

  // ----- accounting -----

  function Is(kind: AcknowledgeType, code: ResponseCode): Ack -> nat {
    (a: Ack) => if a.kind == kind && a.code == code then 1 else 0
  }

  /** Additions the PEER has made and the HOST has not heard of yet. */
  function ApprovedAdds(s: Pair): nat { Total(s.up, Is(AddThread, ResponseApproved)) }

  /** Removals the HOST has made and the PEER has not heard of yet. */
  function RemovalRequests(s: Pair): nat { Total(s.down, Is(RemoveThread, ResponseNone)) }

  function AddRequests(s: Pair): nat { Total(s.down, Is(AddThread, ResponseNone)) }

  function OpenAdds(s: Pair): nat { AddRequests(s) + ApprovedAdds(s) }

  /** The PEER is ahead of the HOST by exactly what is in flight and what the HOST missed. */
  ghost predicate Balanced(s: Pair) {
    s.peer == s.host + ApprovedAdds(s) + RemovalRequests(s) + s.missed
  }

  predicate Goes(a: Ack, up: bool) {
    if up then
      || (a.kind == PacketCount && a.code == ResponseNone)
      || ((a.kind == AddThread || a.kind == RemoveThread) && (a.code == ResponseApproved || a.code == ResponseRejected))
    else
      || (a.kind == PacketCount && a.code == ResponseConfirm)
      || ((a.kind == AddThread || a.kind == RemoveThread) && a.code == ResponseNone)
  }

  ghost predicate Inv(s: Pair) {
    !s.failed && Balanced(s) && (forall a :: a in s.up ==> Goes(a, true)) && (forall a :: a in s.down ==> Goes(a, false))
  }

  lemma StartHasNoOpenAdds()
    ensures OpenAdds(START) == 0
  {
  }

  predicate CountRepairs(fix: Repairs) {
    fix.setCode && fix.keepAnswer && fix.noAddOnRemoval && fix.stopAtZero && fix.stopOnAnswer && fix.gateOnRespond
    && fix.queued
  }

  lemma TotalPositive(wire: seq<Ack>, i: nat, f: Ack -> nat)
    requires i < |wire|
    ensures Total(wire, f) >= f(wire[i])
  {
    TotalWithout(wire, i, f);
  }

  lemma ReportKeepsInv(fix: Repairs, lim: Limits, s: Pair, packets: nat)
    requires Inv(s)
    ensures var t := Step(fix, lim, s, Report(packets)); Inv(t) && OpenAdds(t) == OpenAdds(s)
  {
    TotalAppend(s.up, Ack(PacketCount, ResponseNone, packets), Is(AddThread, ResponseApproved));
  }

  function Sent(fix: Repairs, out: Outcome, f: Ack -> nat): nat {
    if GoesBack(fix, out.reply) then f(out.ack) else 0
  }

  lemma HostTakes(fix: Repairs, lim: Limits, threads: nat, a: Ack, local: nat, addOk: bool)
    requires CountRepairs(fix) && Goes(a, true)
    requires a.kind == PacketCount && a.code == ResponseNone ==> local > 0
    ensures var out := Respond(fix, lim, threads, a, local, addOk);
      && (GoesBack(fix, out.reply) ==> Goes(out.ack, false))
      && out.threads + Sent(fix, out, Is(RemoveThread, ResponseNone))
         + (if a.kind == AddThread && a.code == ResponseApproved && !addOk then 1 else 0)
         == threads + Is(AddThread, ResponseApproved)(a)
  {
  }

  lemma PeerTakes(fix: Repairs, lim: Limits, threads: nat, a: Ack, local: nat, addOk: bool)
    requires CountRepairs(fix) && Goes(a, false) && (a.kind == RemoveThread ==> threads > 0)
    ensures var out := Respond(fix, lim, threads, a, local, addOk);
      && (GoesBack(fix, out.reply) ==> Goes(out.ack, true))
      && out.threads + Is(RemoveThread, ResponseNone)(a)
         == threads + Sent(fix, out, Is(AddThread, ResponseApproved))
  {
  }

  lemma UpKeepsInv(fix: Repairs, lim: Limits, s: Pair, a: Action)
    requires CountRepairs(fix) && Inv(s) && a.Up?
    ensures Inv(Step(fix, lim, s, a))
  {
    hide Respond, GoesBack, Goes, Total, Removes;
    if CanRespond(s.up, a.i, a.local) {
      var out := Respond(fix, lim, s.host, s.up[a.i], a.local, a.addOk);
      HostTakes(fix, lim, s.host, s.up[a.i], a.local, a.addOk);
      TotalWithout(s.up, a.i, Is(AddThread, ResponseApproved));
      TotalAppend(s.down, out.ack, Is(RemoveThread, ResponseNone));
    }
  }

  lemma DownKeepsInv(fix: Repairs, lim: Limits, s: Pair, a: Action)
    requires CountRepairs(fix) && Inv(s) && a.Down?
    ensures Inv(Step(fix, lim, s, a))
  {
    hide Respond, GoesBack, Total, Removes;
    if CanRespond(s.down, a.i, a.local) {
      var out := Respond(fix, lim, s.peer, s.down[a.i], a.local, a.addOk);
      assert Goes(s.down[a.i], false);
      TotalPositive(s.down, a.i, Is(RemoveThread, ResponseNone));
      PeerTakes(fix, lim, s.peer, s.down[a.i], a.local, a.addOk);
      TotalWithout(s.down, a.i, Is(RemoveThread, ResponseNone));
      TotalAppend(s.up, out.ack, Is(AddThread, ResponseApproved));
    }
  }

  lemma {:induction false} RunKeepsInv(fix: Repairs, lim: Limits, s: Pair, acts: seq<Action>)
    requires CountRepairs(fix) && Inv(s)
    ensures Inv(Run(fix, lim, s, acts))
    decreases |acts|
  {
    if acts != [] {
      match acts[0] {
        case Report(packets) => ReportKeepsInv(fix, lim, s, packets);
        case Up(_, _, _) => UpKeepsInv(fix, lim, s, acts[0]);
        case Down(_, _, _) => DownKeepsInv(fix, lim, s, acts[0]);
      }
      RunKeepsInv(fix, lim, Step(fix, lim, s, acts[0]), acts[1..]);
    }
  }

  // ----- which repairs the accounting needs -----

  ghost predicate Reachable(fix: Repairs, lim: Limits, s: Pair) {
    exists acts :: Run(fix, lim, START, acts) == s
  }

  lemma ReachStep(fix: Repairs, lim: Limits, s: Pair, a: Action) returns (t: Pair)
    requires Reachable(fix, lim, s)
    ensures t == Step(fix, lim, s, a) && Reachable(fix, lim, t)
  {
    hide Step;
    t := Step(fix, lim, s, a);
    var acts :| Run(fix, lim, START, acts) == s;
    RunAppend(fix, lim, START, acts, [a]);
    assert [a][1..] == [];
    assert Run(fix, lim, s, [a]) == Run(fix, lim, t, []);
  }

  ghost predicate AlwaysBalanced(fix: Repairs, lim: Limits) {
    forall s :: Reachable(fix, lim, s) ==> !s.failed && Balanced(s)
  }

  function Good(lim: Limits): Ack { Ack(PacketCount, ResponseNone, Plenty(lim)) }

  function Request(lim: Limits): Ack { Ack(AddThread, ResponseNone, Plenty(lim)) }

  function Approval(lim: Limits): Ack { Ack(AddThread, ResponseApproved, Plenty(lim)) }

  const BAD := Ack(PacketCount, ResponseNone, 0)
  const REMOVE := Ack(RemoveThread, ResponseNone, 0)
  const REMOVED := Ack(RemoveThread, ResponseApproved, 0)

  lemma StartIsReachable(fix: Repairs, lim: Limits)
    ensures Reachable(fix, lim, START)
  {
    assert Run(fix, lim, START, []) == START;
  }

  /** One good report, and the HOST asks for a thread. */
  lemma HostAsks(fix: Repairs, lim: Limits) returns (s: Pair)
    requires lim.most > 0
    ensures Reachable(fix, lim, s) && s == Pair(0, 0, [], [Request(lim)], 0, false)
  {
    hide Reachable, Judge, Plenty;
    StartIsReachable(fix, lim);
    s := ReachStep(fix, lim, START, Report(Plenty(lim)));
    assert s == Pair(0, 0, [Good(lim)], [], 0, false);
    PlentyIsGood(fix, lim);
    s := ReachStep(fix, lim, s, Up(0, 1, true));
  }

  /** And the PEER has added it. */
  lemma PeerAdds(fix: Repairs, lim: Limits) returns (s: Pair)
    requires lim.most > 0
    ensures Reachable(fix, lim, s)
    ensures var code := if !fix.setCode then ResponseNone else if fix.keepAnswer then ResponseApproved else ResponseRejected;
      s == Pair(0, 1, [Ack(AddThread, code, Plenty(lim))], [], 0, false)
  {
    hide Reachable, Judge, Plenty;
    s := HostAsks(fix, lim);
    s := ReachStep(fix, lim, s, Down(0, 1, true));
    assert s.down == [];
  }

  /** One packet up and none down. */
  lemma OneUp(s: Pair, a: Ack)
    requires s.up == [a] && s.down == []
    ensures Balanced(s) <==> s.peer == s.host + Is(AddThread, ResponseApproved)(a) + s.missed
  {
    TotalSmall(a, a, Is(AddThread, ResponseApproved));
  }

  lemma AnswerLost(fix: Repairs, lim: Limits)
    requires lim.most > 0 && (!fix.setCode || !fix.keepAnswer)
    ensures !AlwaysBalanced(fix, lim)
  {
    hide Reachable;
    var s := PeerAdds(fix, lim);
    OneUp(s, s.up[0]);
    assert !Balanced(s);
  }

  lemma AnswerEchoed(fix: Repairs, lim: Limits)
    requires lim.most > 0 && fix.setCode && fix.keepAnswer && (!fix.stopOnAnswer || !fix.gateOnRespond)
    ensures !AlwaysBalanced(fix, lim)
  {
    hide Reachable, Judge, Plenty;
    var s := PeerAdds(fix, lim);
    s := ReachStep(fix, lim, s, Up(0, 1, true));
    assert s == Pair(1, 1, [], [Approval(lim)], 0, false);
    s := ReachStep(fix, lim, s, Down(0, 1, false));
    assert s == Pair(1, 1, [Approval(lim)], [], 0, false);
    OneUp(s, Approval(lim));
  }

  /** A report that the HOST sends back makes the PEER ask the HOST. */
  lemma ReportComesBack(fix: Repairs, lim: Limits) returns (s: Pair)
    requires lim.most > 0 && fix.setCode && !fix.stopAtZero
    ensures Reachable(fix, lim, s) && s == Pair(0, 0, [Request(lim)], [], 0, false)
  {
    hide Reachable, Judge, Plenty, Far;
    StartIsReachable(fix, lim);
    s := ReachStep(fix, lim, START, Report(Plenty(lim)));
    assert s == Pair(0, 0, [Good(lim)], [], 0, false);
    FarIsBad(fix, lim, Plenty(lim));
    FarIsSome(Plenty(lim));
    s := ReachStep(fix, lim, s, Up(0, Far(Plenty(lim)), true));
    assert s == Pair(0, 0, [], [Good(lim)], 0, false);
    PlentyIsGood(fix, lim);
    s := ReachStep(fix, lim, s, Down(0, 1, true));
    assert s.down == [];
  }

  lemma FarIsSome(reported: nat)
    ensures Far(reported) > 0 && Far(0) == 1
  {
  }

  lemma ReportBounced(fix: Repairs, lim: Limits)
    requires lim.most > 0 && fix.setCode && !fix.stopAtZero
    ensures !AlwaysBalanced(fix, lim)
  {
    hide Reachable, Judge, Plenty;
    var s := ReportComesBack(fix, lim);
    s := ReachStep(fix, lim, s, Up(0, 1, true));
    assert s.host == 1 && s.peer == 0;
    assert !Balanced(s);
  }

  lemma BothAdded(fix: Repairs, lim: Limits) returns (s: Pair)
    requires lim.most > 0 && fix.setCode && fix.keepAnswer && fix.stopOnAnswer && fix.gateOnRespond
    ensures Reachable(fix, lim, s) && s == Pair(1, 1, [BAD], [], 0, false)
  {
    hide Reachable, Judge, Plenty;
    s := PeerAdds(fix, lim);
    s := ReachStep(fix, lim, s, Up(0, 1, true));
    assert s == Pair(1, 1, [], [], 0, false);
    s := ReachStep(fix, lim, s, Report(0));
    assert s.up == [BAD];
  }

  lemma QueueBreaks(fix: Repairs, lim: Limits)
    requires lim.most > 0 && fix.setCode && fix.keepAnswer && fix.stopOnAnswer && fix.gateOnRespond && !fix.queued
    ensures !AlwaysBalanced(fix, lim)
  {
    hide Reachable, Judge, Plenty;
    var s := BothAdded(fix, lim);
    FarIsBad(fix, lim, 0);
    s := ReachStep(fix, lim, s, Up(0, 1, true));
    assert s.failed;
  }

  lemma RemovalAdds(fix: Repairs, lim: Limits)
    requires lim.most > 0 && fix.queued && !fix.noAddOnRemoval
    requires fix.setCode && fix.keepAnswer && fix.stopOnAnswer && fix.gateOnRespond
    ensures !AlwaysBalanced(fix, lim)
  {
    hide Reachable, Judge, Plenty;
    var s := BothAdded(fix, lim);
    FarIsBad(fix, lim, 0);
    s := ReachStep(fix, lim, s, Up(0, 1, true));
    assert s == Pair(0, 1, [], [REMOVE], 0, false);
    s := ReachStep(fix, lim, s, Down(0, 1, true));
    assert s == Pair(0, 0, [REMOVED], [], 0, false);
    s := ReachStep(fix, lim, s, Up(0, 1, true));
    assert s.host == 1 && s.peer == 0;
    assert !Balanced(s);
  }

  // ----- a HOST that may have no threads at all -----

  /** Nothing but reports and their answers is in flight, and nobody has a thread. */
  ghost predicate Threadless(s: Pair) {
    && s.host == s.peer == s.missed == 0 && !s.failed
    && (forall a :: a in s.up + s.down ==> a.kind == PacketCount && (a.code == ResponseNone || a.code == ResponseConfirm))
  }

  lemma StaysThreadless(fix: Repairs, lim: Limits, s: Pair, a: Action)
    requires lim.most == 0 && Threadless(s)
    ensures Threadless(Step(fix, lim, s, a))
  {
    hide Judge;
  }

  lemma ThreadlessIsBalanced(s: Pair)
    requires Threadless(s)
    ensures Balanced(s) && OpenAdds(s) == 0
  {
    TotalZero(s.up, Is(AddThread, ResponseApproved));
    TotalZero(s.down, Is(RemoveThread, ResponseNone));
    TotalZero(s.down, Is(AddThread, ResponseNone));
  }

  lemma {:induction false} RunStaysThreadless(fix: Repairs, lim: Limits, s: Pair, acts: seq<Action>)
    requires lim.most == 0 && Threadless(s)
    ensures Threadless(Run(fix, lim, s, acts))
    decreases |acts|
  {
    if acts != [] {
      StaysThreadless(fix, lim, s, acts[0]);
      RunStaysThreadless(fix, lim, Step(fix, lim, s, acts[0]), acts[1..]);
    }
  }

  /** Under any limits: in every reachable state no side has failed, and the PEER is ahead of the HOST by
      exactly the approved additions and removal requests in flight and the additions the HOST missed, if and
      only if all these seven repairs are made or no thread is allowed at all. */
  lemma ThreadsAreBalanced(fix: Repairs, lim: Limits)
    ensures AlwaysBalanced(fix, lim) <==> CountRepairs(fix) || lim.most == 0
  {
    if CountRepairs(fix) {
      forall s | Reachable(fix, lim, s) ensures !s.failed && Balanced(s) {
        var acts :| Run(fix, lim, START, acts) == s;
        RunKeepsInv(fix, lim, START, acts);
      }
    } else if lim.most == 0 {
      forall s | Reachable(fix, lim, s) ensures !s.failed && Balanced(s) {
        var acts :| Run(fix, lim, START, acts) == s;
        RunStaysThreadless(fix, lim, START, acts);
        ThreadlessIsBalanced(s);
      }
    } else if !fix.setCode || !fix.keepAnswer {
      AnswerLost(fix, lim);
    } else if !fix.stopOnAnswer || !fix.gateOnRespond {
      AnswerEchoed(fix, lim);
    } else if !fix.stopAtZero {
      ReportBounced(fix, lim);
    } else if !fix.queued {
      QueueBreaks(fix, lim);
    } else {
      RemovalAdds(fix, lim);
    }
  }

  /** The text is balanced under no limits but those that allow no thread. */
  lemma BalancedAsWritten(lim: Limits)
    ensures AlwaysBalanced(AS_WRITTEN, lim) <==> lim.most == 0
  {
    ThreadsAreBalanced(AS_WRITTEN, lim);
  }

  /** A removal request that is in flight always finds a thread at the PEER; and when nothing is in flight
      the counts are equal exactly when the HOST missed no addition. */
  lemma RemovalsNeverFail(fix: Repairs, lim: Limits, s: Pair)
    requires CountRepairs(fix) && Reachable(fix, lim, s)
    ensures forall i :: 0 <= i < |s.down| && s.down[i].kind == RemoveThread && s.down[i].code == ResponseNone ==> s.peer > 0
    ensures s.up == [] && s.down == [] ==> s.peer == s.host + s.missed
  {
    ThreadsAreBalanced(fix, lim);
    forall i | 0 <= i < |s.down| && s.down[i].kind == RemoveThread && s.down[i].code == ResponseNone ensures s.peer > 0 {
      TotalPositive(s.down, i, Is(RemoveThread, ResponseNone));
    }
  }
}
