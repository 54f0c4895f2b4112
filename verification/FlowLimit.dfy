/** How far the flow threads of a connection can grow, and what sustained reports do to them. */
module FlowLimit {
  import opened Protocol
  import opened Sequences
  import opened Acknowledge
  import opened AcknowledgeRuns

  /** The states hold the start, and every step that leaves no more than k additions open stays among them. */
  ghost predicate Closed(fix: Repairs, lim: Limits, k: nat, states: iset<Pair>) {
    START in states
    && forall s, a :: s in states && OpenAdds(Step(fix, lim, s, a)) <= k ==> Step(fix, lim, s, a) in states
  }

  /** The states that are reached with at most k additions open at a time: the least that are so closed. */
  ghost predicate ReachableWithin(fix: Repairs, lim: Limits, s: Pair, k: nat) {
    forall states :: Closed(fix, lim, k, states) ==> s in states
  }

  /** None of the states of the run has more than k additions open. */
  ghost predicate StaysWithin(fix: Repairs, lim: Limits, s: Pair, acts: seq<Action>, k: nat)
    decreases |acts|
  {
    OpenAdds(s) <= k && (acts != [] ==> StaysWithin(fix, lim, Step(fix, lim, s, acts[0]), acts[1..], k))
  }

  ghost predicate EndsRun(fix: Repairs, lim: Limits, s: Pair, k: nat) {
    exists acts :: StaysWithin(fix, lim, START, acts, k) && Run(fix, lim, START, acts) == s
  }

  predicate Under(lim: Limits, s: Pair, k: nat) { s.host + OpenAdds(s) <= lim.most + k - 1 }

  ghost predicate AlwaysUnder(fix: Repairs, lim: Limits, k: nat) {
    forall s :: ReachableWithin(fix, lim, s, k) ==> Under(lim, s, k)
  }

  /** The repairs that the bound needs: fewer than the accounting. If every answer is a rejection nothing is
      added on one, and if no thread is ever queued nothing is removed. */
  predicate LimitRepairs(fix: Repairs) {
    && fix.setCode && fix.stopAtZero && fix.gateOnRespond
    && (fix.keepAnswer ==> fix.stopOnAnswer && (fix.noAddOnRemoval || !fix.queued))
  }

  predicate Changes(a: Ack) { a.kind == AddThread || a.kind == RemoveThread }

  predicate UpKind(fix: Repairs, a: Ack) {
    || (a.kind == PacketCount && a.code == ResponseNone)
    || (Changes(a) && a.code == ResponseRejected)
    || (Changes(a) && a.code == ResponseApproved && fix.keepAnswer && (a.kind == RemoveThread ==> fix.queued))
  }

  predicate DownKind(fix: Repairs, a: Ack) {
    || (a.kind == PacketCount && a.code == ResponseConfirm)
    || (Changes(a) && a.code == ResponseNone && (a.kind == RemoveThread ==> fix.queued))
    || (Changes(a) && a.code == ResponseRejected && !fix.stopOnAnswer)
  }

  ghost predicate Kinds(fix: Repairs, s: Pair) {
    (forall a :: a in s.up ==> UpKind(fix, a)) && (forall a :: a in s.down ==> DownKind(fix, a))
  }

  lemma HostStays(fix: Repairs, lim: Limits, threads: nat, a: Ack, local: nat, addOk: bool)
    requires LimitRepairs(fix) && UpKind(fix, a)
    requires a.kind == PacketCount && a.code == ResponseNone ==> local > 0
    requires !Breaks(fix, lim, threads, a, local)
    ensures var out := Respond(fix, lim, threads, a, local, addOk);
      && (GoesBack(fix, out.reply) ==> DownKind(fix, out.ack))
      && (out.threads + Sent(fix, out, Is(AddThread, ResponseNone)) <= threads + Is(AddThread, ResponseApproved)(a)
          || out.threads == threads < lim.most)
  {
  }

  lemma PeerStays(fix: Repairs, lim: Limits, threads: nat, a: Ack, local: nat, addOk: bool)
    requires LimitRepairs(fix) && DownKind(fix, a)
    ensures var out := Respond(fix, lim, threads, a, local, addOk);
      && (GoesBack(fix, out.reply) ==> UpKind(fix, out.ack))
      && Sent(fix, out, Is(AddThread, ResponseApproved)) <= Is(AddThread, ResponseNone)(a)
  {
  }

  lemma UpStays(fix: Repairs, lim: Limits, s: Pair, a: Action, k: nat)
    requires LimitRepairs(fix) && Kinds(fix, s) && a.Up? && OpenAdds(Step(fix, lim, s, a)) <= k && Under(lim, s, k)
    ensures Kinds(fix, Step(fix, lim, s, a)) && Under(lim, Step(fix, lim, s, a), k)
  {
    hide Respond, GoesBack, UpKind, DownKind, Total, Removes, Breaks, Is;
    if !s.failed && CanRespond(s.up, a.i, a.local) && !Breaks(fix, lim, s.host, s.up[a.i], a.local) {
      var out := Respond(fix, lim, s.host, s.up[a.i], a.local, a.addOk);
      HostStays(fix, lim, s.host, s.up[a.i], a.local, a.addOk);
      TotalWithout(s.up, a.i, Is(AddThread, ResponseApproved));
      TotalAppend(s.down, out.ack, Is(AddThread, ResponseNone));
    }
  }

  lemma DownStays(fix: Repairs, lim: Limits, s: Pair, a: Action, k: nat)
    requires LimitRepairs(fix) && Kinds(fix, s) && a.Down? && Under(lim, s, k)
    ensures Kinds(fix, Step(fix, lim, s, a)) && Under(lim, Step(fix, lim, s, a), k)
  {
    hide Respond, GoesBack, UpKind, DownKind, Total, Removes, Breaks, Is;
    if !s.failed && CanRespond(s.down, a.i, a.local) && !Breaks(fix, lim, s.peer, s.down[a.i], a.local) {
      var out := Respond(fix, lim, s.peer, s.down[a.i], a.local, a.addOk);
      PeerStays(fix, lim, s.peer, s.down[a.i], a.local, a.addOk);
      TotalWithout(s.down, a.i, Is(AddThread, ResponseNone));
      TotalAppend(s.up, out.ack, Is(AddThread, ResponseApproved));
    }
  }

  lemma ReportStays(fix: Repairs, lim: Limits, s: Pair, packets: nat, k: nat)
    requires Kinds(fix, s) && Under(lim, s, k)
    ensures Kinds(fix, Step(fix, lim, s, Report(packets))) && Under(lim, Step(fix, lim, s, Report(packets)), k)
  {
    TotalAppend(s.up, Ack(PacketCount, ResponseNone, packets), Is(AddThread, ResponseApproved));
  }

  lemma StepStays(fix: Repairs, lim: Limits, s: Pair, a: Action, k: nat)
    requires LimitRepairs(fix) && Kinds(fix, s) && OpenAdds(Step(fix, lim, s, a)) <= k && Under(lim, s, k)
    ensures Kinds(fix, Step(fix, lim, s, a)) && Under(lim, Step(fix, lim, s, a), k)
  {
    hide Step, Kinds, Under;
    match a {
      case Report(packets) => ReportStays(fix, lim, s, packets, k);
      case Up(_, _, _) => UpStays(fix, lim, s, a, k);
      case Down(_, _, _) => DownStays(fix, lim, s, a, k);
    }
  }

  lemma StartStays(fix: Repairs, lim: Limits, k: nat)
    requires k > 0
    ensures Kinds(fix, START) && Under(lim, START, k)
  {
    hide OpenAdds;
    StartHasNoOpenAdds();
  }

  lemma StaysAreClosed(fix: Repairs, lim: Limits, k: nat, states: iset<Pair>)
    requires LimitRepairs(fix) && k > 0
    requires states == iset s | Kinds(fix, s) && Under(lim, s, k)
    ensures Closed(fix, lim, k, states)
  {
    hide Step, OpenAdds, Kinds, Under, LimitRepairs;
    StartStays(fix, lim, k);
    forall s, a | s in states && OpenAdds(Step(fix, lim, s, a)) <= k ensures Step(fix, lim, s, a) in states {
      StepStays(fix, lim, s, a, k);
    }
  }

  lemma EndStays(fix: Repairs, lim: Limits, s: Pair, k: nat)
    requires LimitRepairs(fix) && k > 0 && ReachableWithin(fix, lim, s, k)
    ensures Under(lim, s, k)
  {
    hide Closed, Kinds, Under, LimitRepairs;
    var states := iset t | Kinds(fix, t) && Under(lim, t, k);
    StaysAreClosed(fix, lim, k, states);
  }

  lemma StepWithin(fix: Repairs, lim: Limits, s: Pair, a: Action, t: Pair, k: nat)
    requires ReachableWithin(fix, lim, s, k) && t == Step(fix, lim, s, a) && OpenAdds(t) <= k
    ensures ReachableWithin(fix, lim, t, k)
  {
    hide Step, OpenAdds;
  }

  // ----- these states are the ends of the runs that stay within k -----

  lemma {:induction false} OneMoreWithin(fix: Repairs, lim: Limits, s: Pair, acts: seq<Action>, a: Action, k: nat)
    requires StaysWithin(fix, lim, s, acts, k) && OpenAdds(Step(fix, lim, Run(fix, lim, s, acts), a)) <= k
    ensures StaysWithin(fix, lim, s, acts + [a], k)
    ensures Run(fix, lim, s, acts + [a]) == Step(fix, lim, Run(fix, lim, s, acts), a)
    decreases |acts|
  {
    hide Step, OpenAdds;
    if acts == [] {
      assert [a][1..] == [] && acts + [a] == [a];
      assert Run(fix, lim, s, [a]) == Run(fix, lim, Step(fix, lim, s, a), []);
      assert StaysWithin(fix, lim, Step(fix, lim, s, a), [], k);
    } else {
      assert (acts + [a])[1..] == acts[1..] + [a];
      OneMoreWithin(fix, lim, Step(fix, lim, s, acts[0]), acts[1..], a, k);
    }
  }

  lemma RunsAreClosed(fix: Repairs, lim: Limits, k: nat, states: iset<Pair>)
    requires states == iset s | EndsRun(fix, lim, s, k)
    ensures Closed(fix, lim, k, states)
  {
    hide Step, OpenAdds;
    StartHasNoOpenAdds();
    assert StaysWithin(fix, lim, START, [], k) && Run(fix, lim, START, []) == START;
    forall s, a | s in states && OpenAdds(Step(fix, lim, s, a)) <= k ensures Step(fix, lim, s, a) in states {
      var acts :| StaysWithin(fix, lim, START, acts, k) && Run(fix, lim, START, acts) == s;
      OneMoreWithin(fix, lim, START, acts, a, k);
    }
  }

  lemma {:induction false} RunReaches(fix: Repairs, lim: Limits, s: Pair, acts: seq<Action>, k: nat)
    requires ReachableWithin(fix, lim, s, k) && StaysWithin(fix, lim, s, acts, k)
    ensures ReachableWithin(fix, lim, Run(fix, lim, s, acts), k)
    decreases |acts|
  {
    hide ReachableWithin, Step, OpenAdds;
    if acts != [] {
      StepWithin(fix, lim, s, acts[0], Step(fix, lim, s, acts[0]), k);
      RunReaches(fix, lim, Step(fix, lim, s, acts[0]), acts[1..], k);
    }
  }

  lemma ReachableByRuns(fix: Repairs, lim: Limits, s: Pair, k: nat)
    ensures ReachableWithin(fix, lim, s, k) <==> EndsRun(fix, lim, s, k)
  {
    hide Closed, StaysWithin, Run;
    var states := iset t | EndsRun(fix, lim, t, k);
    RunsAreClosed(fix, lim, k, states);
    if EndsRun(fix, lim, s, k) {
      var acts :| StaysWithin(fix, lim, START, acts, k) && Run(fix, lim, START, acts) == s;
      StartWithin(fix, lim, k);
      RunReaches(fix, lim, START, acts, k);
    }
  }

  // ----- the bound is reached -----

  function Copies(a: Ack, n: nat): seq<Ack> { seq(n, _ => a) }

  lemma {:induction false} CopiesTotal(a: Ack, n: nat, f: Ack -> nat)
    ensures Total(Copies(a, n), f) == if f(a) == 0 then 0 else n * f(a)
    ensures n > 0 ==> Copies(a, n)[0] == a && Without(Copies(a, n), 0) == Copies(a, n - 1)
    ensures Copies(a, n) + [a] == Copies(a, n + 1)
  {
    if n > 0 {
      CopiesTotal(a, n - 1, f);
      assert Copies(a, n)[1..] == Copies(a, n - 1);
      assert n * f(a) == (n - 1) * f(a) + f(a);
    }
  }

  /** j reports, r requests and d approvals in flight. */
  function Crowd(lim: Limits, host: nat, peer: nat, j: nat, r: nat, d: nat): Pair {
    Pair(host, peer, Copies(Good(lim), j) + Copies(Approval(lim), d), Copies(Request(lim), r), 0, false)
  }

  lemma CrowdOpen(lim: Limits, host: nat, peer: nat, j: nat, r: nat, d: nat)
    ensures OpenAdds(Crowd(lim, host, peer, j, r, d)) == r + d
  {
    CopiesTotal(Good(lim), j, Is(AddThread, ResponseApproved));
    CopiesTotal(Approval(lim), d, Is(AddThread, ResponseApproved));
    CopiesTotal(Request(lim), r, Is(AddThread, ResponseNone));
    TotalConcat(Copies(Good(lim), j), Copies(Approval(lim), d), Is(AddThread, ResponseApproved));
  }

  lemma OneReport(fix: Repairs, lim: Limits, h: nat, n: nat)
    ensures Step(fix, lim, Crowd(lim, h, h, n, 0, 0), Report(Plenty(lim))) == Crowd(lim, h, h, n + 1, 0, 0)
  {
    CopiesTotal(Good(lim), n, Is(AddThread, ResponseApproved));
    assert Copies(Good(lim), n + 1) + [] == Copies(Good(lim), n) + [] + [Good(lim)];
  }

  lemma {:induction false} Reports(fix: Repairs, lim: Limits, h: nat, n: nat, k: nat)
    requires ReachableWithin(fix, lim, Crowd(lim, h, h, 0, 0, 0), k)
    ensures ReachableWithin(fix, lim, Crowd(lim, h, h, n, 0, 0), k)
  {
    hide *;
    if n > 0 {
      Reports(fix, lim, h, n - 1, k);
      OneReport(fix, lim, h, n - 1);
      CrowdOpen(lim, h, h, n, 0, 0);
      StepWithin(fix, lim, Crowd(lim, h, h, n - 1, 0, 0), Report(Plenty(lim)), Crowd(lim, h, h, n, 0, 0), k);
    }
  }

  lemma OneRequest(fix: Repairs, lim: Limits, h: nat, n: nat, r: nat)
    requires CountRepairs(fix) && h < lim.most && n > 0
    ensures Step(fix, lim, Crowd(lim, h, h, n, r, 0), Up(0, 1, true)) == Crowd(lim, h, h, n - 1, r + 1, 0)
  {
    var s := Crowd(lim, h, h, n, r, 0);
    CopiesTotal(Good(lim), n, Is(AddThread, ResponseApproved));
    CopiesTotal(Request(lim), r, Is(AddThread, ResponseApproved));
    PlentyIsGood(fix, lim);
    assert s.up == Copies(Good(lim), n);
  }

  lemma {:induction false} Requests(fix: Repairs, lim: Limits, h: nat, n: nat, r: nat, all: nat, k: nat)
    requires CountRepairs(fix) && h < lim.most && n + r == all <= k
    requires ReachableWithin(fix, lim, Crowd(lim, h, h, n, r, 0), k)
    ensures ReachableWithin(fix, lim, Crowd(lim, h, h, 0, all, 0), k)
    decreases n
  {
    hide *;
    if n > 0 {
      OneRequest(fix, lim, h, n, r);
      CrowdOpen(lim, h, h, n - 1, r + 1, 0);
      StepWithin(fix, lim, Crowd(lim, h, h, n, r, 0), Up(0, 1, true), Crowd(lim, h, h, n - 1, r + 1, 0), k);
      Requests(fix, lim, h, n - 1, r + 1, all, k);
    }
  }

  lemma OneApproval(fix: Repairs, lim: Limits, h: nat, p: nat, r: nat, d: nat)
    requires CountRepairs(fix) && r > 0
    ensures Step(fix, lim, Crowd(lim, h, p, 0, r, d), Down(0, 1, true)) == Crowd(lim, h, p + 1, 0, r - 1, d + 1)
  {
    var s := Crowd(lim, h, p, 0, r, d);
    CopiesTotal(Request(lim), r, Is(AddThread, ResponseNone));
    CopiesTotal(Approval(lim), d, Is(AddThread, ResponseNone));
    assert s.up == Copies(Approval(lim), d);
  }

  lemma {:induction false} Approvals(fix: Repairs, lim: Limits, h: nat, p: nat, r: nat, d: nat, top: nat, all: nat, k: nat)
    requires CountRepairs(fix) && r + d == all <= k && p + r == top
    requires ReachableWithin(fix, lim, Crowd(lim, h, p, 0, r, d), k)
    ensures ReachableWithin(fix, lim, Crowd(lim, h, top, 0, 0, all), k)
    decreases r
  {
    hide *;
    if r > 0 {
      OneApproval(fix, lim, h, p, r, d);
      CrowdOpen(lim, h, p + 1, 0, r - 1, d + 1);
      StepWithin(fix, lim, Crowd(lim, h, p, 0, r, d), Down(0, 1, true), Crowd(lim, h, p + 1, 0, r - 1, d + 1), k);
      Approvals(fix, lim, h, p + 1, r - 1, d + 1, top, all, k);
    }
  }

  lemma OneHostAdd(fix: Repairs, lim: Limits, h: nat, p: nat, d: nat)
    requires CountRepairs(fix) && d > 0
    ensures Step(fix, lim, Crowd(lim, h, p, 0, 0, d), Up(0, 1, true)) == Crowd(lim, h + 1, p, 0, 0, d - 1)
  {
    var s := Crowd(lim, h, p, 0, 0, d);
    CopiesTotal(Approval(lim), d, Is(AddThread, ResponseNone));
    assert s.up == Copies(Approval(lim), d);
  }

  lemma {:induction false} HostAdds(fix: Repairs, lim: Limits, h: nat, p: nat, d: nat, top: nat, k: nat)
    requires CountRepairs(fix) && d <= k && h + d == top
    requires ReachableWithin(fix, lim, Crowd(lim, h, p, 0, 0, d), k)
    ensures ReachableWithin(fix, lim, Crowd(lim, top, p, 0, 0, 0), k)
    decreases d
  {
    hide *;
    if d > 0 {
      OneHostAdd(fix, lim, h, p, d);
      CrowdOpen(lim, h + 1, p, 0, 0, d - 1);
      StepWithin(fix, lim, Crowd(lim, h, p, 0, 0, d), Up(0, 1, true), Crowd(lim, h + 1, p, 0, 0, d - 1), k);
      HostAdds(fix, lim, h + 1, p, d - 1, top, k);
    }
  }

  /** n good reports that are all answered before the first approval is back add n threads. */
  lemma Burst(fix: Repairs, lim: Limits, h: nat, n: nat, top: nat, k: nat)
    requires CountRepairs(fix) && h < lim.most && n <= k && h + n == top
    requires ReachableWithin(fix, lim, Crowd(lim, h, h, 0, 0, 0), k)
    ensures ReachableWithin(fix, lim, Crowd(lim, top, top, 0, 0, 0), k)
  {
    hide *;
    Reports(fix, lim, h, n, k);
    Requests(fix, lim, h, n, 0, n, k);
    Approvals(fix, lim, h, h, n, 0, top, n, k);
    HostAdds(fix, lim, h, top, n, top, k);
  }

  lemma StartWithin(fix: Repairs, lim: Limits, k: nat)
    ensures ReachableWithin(fix, lim, START, k)
  {
  }

  lemma CrowdIsStart(lim: Limits)
    ensures Crowd(lim, 0, 0, 0, 0, 0) == START
  {
  }

  lemma {:induction false} OneByOne(fix: Repairs, lim: Limits, h: nat, k: nat)
    requires CountRepairs(fix) && h < lim.most && k > 0
    ensures ReachableWithin(fix, lim, Crowd(lim, h, h, 0, 0, 0), k)
  {
    hide *;
    if h == 0 {
      StartWithin(fix, lim, k);
      CrowdIsStart(lim);
    } else {
      OneByOne(fix, lim, h - 1, k);
      Burst(fix, lim, h - 1, 1, h, k);
    }
  }

  /** With at most k additions open at a time, the HOST's count plus the open additions stays within
      most - 1 + k, that number of threads is really reached, and so the configured maximum holds in every
      such run exactly when k is 1. */
  lemma ThreadLimit(fix: Repairs, lim: Limits, k: nat)
    requires CountRepairs(fix) && lim.most > 0 && k > 0
    ensures forall s :: ReachableWithin(fix, lim, s, k) ==> s.host + OpenAdds(s) <= lim.most - 1 + k
    ensures exists s :: ReachableWithin(fix, lim, s, k) && s.host == lim.most - 1 + k
    ensures (forall s :: ReachableWithin(fix, lim, s, k) ==> s.host <= lim.most) <==> k == 1
  {
    hide ReachableWithin, OpenAdds;
    forall s | ReachableWithin(fix, lim, s, k) ensures s.host + OpenAdds(s) <= lim.most - 1 + k {
      EndStays(fix, lim, s, k);
    }
    OneByOne(fix, lim, lim.most - 1, k);
    Burst(fix, lim, lim.most - 1, k, lim.most - 1 + k, k);
    var top := Crowd(lim, lim.most - 1 + k, lim.most - 1 + k, 0, 0, 0);
    assert ReachableWithin(fix, lim, top, k) && top.host == lim.most - 1 + k;
  }

  // ----- sustained reports -----

  /** One report and everything it leads to. */
  function Round(packets: nat, local: nat): seq<Action> {
    [Report(packets), Up(0, local, true), Down(0, local, true), Up(0, local, true)]
  }

  function Rounds(fix: Repairs, lim: Limits, s: Pair, packets: nat, local: nat, n: nat): Pair
    decreases n
  {
    if n == 0 then s else Rounds(fix, lim, Run(fix, lim, s, Round(packets, local)), packets, local, n - 1)
  }

  lemma RoundUnfolds(fix: Repairs, lim: Limits, s: Pair, packets: nat, local: nat)
    ensures Run(fix, lim, s, Round(packets, local)) ==
      Step(fix, lim, Step(fix, lim, Step(fix, lim, Step(fix, lim, s, Report(packets)),
        Up(0, local, true)), Down(0, local, true)), Up(0, local, true))
  {
    var a, b, c := Report(packets), Up(0, local, true), Down(0, local, true);
    assert [a, b, c, b][1..] == [b, c, b] && [b, c, b][1..] == [c, b] && [c, b][1..] == [b] && [b][1..] == [];
    var s1 := Step(fix, lim, s, a);
    var s2 := Step(fix, lim, s1, b);
    var s3 := Step(fix, lim, s2, c);
    assert Run(fix, lim, s1, [b, c, b]) == Run(fix, lim, s2, [c, b]);
    assert Run(fix, lim, s2, [c, b]) == Run(fix, lim, s3, [b]);
    assert Run(fix, lim, s3, [b]) == Run(fix, lim, Step(fix, lim, s3, b), []);
  }

  /** A round moves both counts by at most one, towards the verdict, and leaves nothing in flight. */
  lemma OneRound(fix: Repairs, lim: Limits, h: nat, packets: nat, local: nat)
    requires CountRepairs(fix) && local > 0
    ensures Run(fix, lim, Pair(h, h, [], [], 0, false), Round(packets, local)) ==
      var n := match Judge(fix, lim, packets, local)
               case Fewer => if h > 0 then h - 1 else 0
               case Same => h
               case More => if h < lim.most then h + 1 else h;
      Pair(n, n, [], [], 0, false)
  {
    var s := Pair(h, h, [], [], 0, false);
    RoundUnfolds(fix, lim, s, packets, local);
    var s1 := Step(fix, lim, s, Report(packets));
    assert s1 == Pair(h, h, [Ack(PacketCount, ResponseNone, packets)], [], 0, false);
    var s2 := Step(fix, lim, s1, Up(0, local, true));
    assert s2.up == [];
    var s3 := Step(fix, lim, s2, Down(0, local, true));
    assert s3.down == [];
    var s4 := Step(fix, lim, s3, Up(0, local, true));
    assert s4.up == [] && s4.down == [];
  }

  /** Sustained good reports bring both counts to exactly the maximum, sustained bad ones to 0, and each
      takes exactly as many rounds as the distance. */
  lemma {:induction false} SustainedReports(fix: Repairs, lim: Limits, h: nat, packets: nat, local: nat, n: nat)
    requires CountRepairs(fix) && local > 0
    ensures var t := Rounds(fix, lim, Pair(h, h, [], [], 0, false), packets, local, n);
      && t == Pair(t.host, t.host, [], [], 0, false)
      && (Judge(fix, lim, packets, local) == More ==> t.host == if h >= lim.most then h else if h + n <= lim.most then h + n else lim.most)
      && (Judge(fix, lim, packets, local) == Fewer ==> t.host == if n <= h then h - n else 0)
      && (Judge(fix, lim, packets, local) == Same ==> t.host == h)
    decreases n
  {
    if n > 0 {
      OneRound(fix, lim, h, packets, local);
      var next := Run(fix, lim, Pair(h, h, [], [], 0, false), Round(packets, local)).host;
      SustainedReports(fix, lim, next, packets, local, n - 1);
    }
  }
}
