/** Which repairs the bound on the flow threads needs: without one of them there is no bound at all. */
module LimitRuns {
  import opened Protocol
  import opened Sequences
  import opened Acknowledge
  import opened AcknowledgeRuns
  import opened FlowLimit

  /** Under these limits and with one addition open at a time. */
  ghost predicate Within(fix: Repairs, lim: Limits, s: Pair) { ReachableWithin(fix, lim, s, 1) }

  /** The HOST can reach any number of threads. */
  ghost predicate Unbounded(fix: Repairs, lim: Limits, k: nat) {
    forall n: nat :: Has(fix, lim, k, n)
  }

  ghost predicate Has(fix: Repairs, lim: Limits, k: nat, n: nat) {
    exists s :: ReachableWithin(fix, lim, s, k) && s.host == n
  }

  function At(host: nat, peer: nat, up: seq<Ack>, down: seq<Ack>): Pair { Pair(host, peer, up, down, 0, false) }

  // ----- counting what is open -----

  function One(a: Option<Ack>, f: Ack -> nat): nat { if a.Some? then f(a.value) else 0 }

  function Tail(a: Option<Ack>): seq<Ack> { if a.Some? then [a.value] else [] }

  /** A channel that holds n times the same packet, and then perhaps one other. */
  function Wire(a: Ack, n: nat, last: Option<Ack>): seq<Ack> { Copies(a, n) + Tail(last) }

  lemma WireTotal(a: Ack, n: nat, last: Option<Ack>, f: Ack -> nat)
    requires f(a) == 0
    ensures Total(Wire(a, n, last), f) == One(last, f)
  {
    CopiesTotal(a, n, f);
    TotalConcat(Copies(a, n), Tail(last), f);
    if last.Some? { TotalSmall(last.value, last.value, f); }
  }

  lemma WireParts(a: Ack, n: nat, x: Ack)
    ensures |Wire(a, n, None)| == n && |Wire(a, n, Some(x))| == n + 1
    ensures Wire(a, n, Some(x))[n] == x && Without(Wire(a, n, Some(x)), n) == Wire(a, n, None)
    ensures Wire(a, n, None) + [x] == Wire(a, n, Some(x)) && Wire(a, n, Some(a)) == Wire(a, n + 1, None)
    ensures n > 0 ==> Wire(a, n, None)[0] == a && Without(Wire(a, n, None), 0) == Wire(a, n - 1, None)
    ensures Wire(a, 0, None) == [] && Wire(a, 0, Some(x)) == [x]
  {
  }

  /** One step more, to a state whose channels are known. */
  lemma Move(fix: Repairs, lim: Limits, s: Pair, a: Action, t: Pair,
             u: Ack, m: nat, up: Option<Ack>, d: Ack, n: nat, down: Option<Ack>)
    requires Within(fix, lim, s) && t == Step(fix, lim, s, a)
    requires t.up == Wire(u, m, up) && t.down == Wire(d, n, down)
    requires Is(AddThread, ResponseApproved)(u) == 0 && Is(AddThread, ResponseNone)(d) == 0
    requires One(up, Is(AddThread, ResponseApproved)) + One(down, Is(AddThread, ResponseNone)) <= 1
    ensures Within(fix, lim, t)
  {
    hide ReachableWithin, Step, Is, Total, Wire, Respond;
    WireTotal(u, m, up, Is(AddThread, ResponseApproved));
    WireTotal(d, n, down, Is(AddThread, ResponseNone));
    StepWithin(fix, lim, s, a, t, 1);
  }

  /** More may be open for a larger k. */
  lemma WithinMore(fix: Repairs, lim: Limits, s: Pair, k: nat)
    requires Within(fix, lim, s) && k > 0
    ensures ReachableWithin(fix, lim, s, k)
  {
    hide Step, OpenAdds;
    assert forall states :: Closed(fix, lim, k, states) ==> Closed(fix, lim, 1, states);
  }

  // ----- one thread asked for, and approved -----

  /** Behind any number of packets that wait on their way up, a good report makes the HOST ask. */
  lemma Asked(fix: Repairs, lim: Limits, u: Ack, m: nat) returns (s: Pair)
    requires lim.most > 0 && u != Approval(lim) && Is(AddThread, ResponseApproved)(u) == 0
    requires Within(fix, lim, At(0, 0, Wire(u, m, None), []))
    ensures Within(fix, lim, s) && s == At(0, 0, Wire(u, m, None), [Request(lim)])
  {
    hide ReachableWithin, Judge, Plenty, Wire;
    WireParts(u, m, Good(lim));
    WireParts(BAD, 0, Request(lim));
    var s0, s1 := At(0, 0, Wire(u, m, None), []), At(0, 0, Wire(u, m, Some(Good(lim))), []);
    Move(fix, lim, s0, Report(Plenty(lim)), s1, u, m, Some(Good(lim)), BAD, 0, None);
    PlentyIsGood(fix, lim);
    s := At(0, 0, Wire(u, m, None), [Request(lim)]);
    Move(fix, lim, s1, Up(m, 1, true), s, u, m, None, BAD, 0, Some(Request(lim)));
  }

  lemma Begin(fix: Repairs, lim: Limits, u: Ack)
    ensures Within(fix, lim, At(0, 0, Wire(u, 0, None), []))
  {
    hide ReachableWithin;
    StartWithin(fix, lim, 1);
    assert At(0, 0, Wire(u, 0, None), []) == START;
  }

  lemma Approved(fix: Repairs, lim: Limits, u: Ack, m: nat, s: Pair) returns (t: Pair)
    requires fix.setCode && fix.keepAnswer && Is(AddThread, ResponseApproved)(u) == 0
    requires Within(fix, lim, s) && s == At(0, 0, Wire(u, m, None), [Request(lim)])
    ensures Within(fix, lim, t) && t == At(0, 1, Wire(u, m, Some(Approval(lim))), [])
  {
    hide ReachableWithin, Plenty, Wire;
    WireParts(u, m, Approval(lim));
    WireParts(BAD, 0, Request(lim));
    t := At(0, 1, Wire(u, m, Some(Approval(lim))), []);
    Move(fix, lim, s, Down(0, 1, true), t, u, m, Some(Approval(lim)), BAD, 0, None);
  }

  // ----- a request that goes back as it came -----

  lemma {:induction false} AskedBack(fix: Repairs, lim: Limits, n: nat)
    requires !fix.setCode && lim.most > 0
    ensures Within(fix, lim, At(n, n, [], [Request(lim)]))
  {
    hide ReachableWithin, Judge, Plenty, Wire;
    WireParts(BAD, 0, Request(lim));
    if n == 0 {
      Begin(fix, lim, BAD);
      var s := Asked(fix, lim, BAD, 0);
    } else {
      AskedBack(fix, lim, n - 1);
      var s, t, u := At(n - 1, n - 1, [], [Request(lim)]), At(n - 1, n, [Request(lim)], []), At(n, n, [], [Request(lim)]);
      Move(fix, lim, s, Down(0, 1, true), t, BAD, 0, Some(Request(lim)), BAD, 0, None);
      Move(fix, lim, t, Up(0, 1, true), u, BAD, 0, None, BAD, 0, Some(Request(lim)));
    }
  }

  // ----- an approval that goes back -----

  lemma {:induction false} AnsweredAgain(fix: Repairs, lim: Limits, n: nat)
    requires fix.setCode && fix.keepAnswer && !fix.stopOnAnswer && lim.most > 0
    ensures Within(fix, lim, At(n, n + 1, [Approval(lim)], []))
  {
    hide ReachableWithin, Judge, Plenty, Wire;
    WireParts(BAD, 0, Approval(lim));
    if n == 0 {
      Begin(fix, lim, BAD);
      var s := Asked(fix, lim, BAD, 0);
      s := Approved(fix, lim, BAD, 0, s);
    } else {
      AnsweredAgain(fix, lim, n - 1);
      var s, t, u := At(n - 1, n, [Approval(lim)], []), At(n, n, [], [Approval(lim)]), At(n, n + 1, [Approval(lim)], []);
      Move(fix, lim, s, Up(0, 1, true), t, BAD, 0, None, BAD, 0, Some(Approval(lim)));
      Move(fix, lim, t, Down(0, 1, true), u, BAD, 0, Some(Approval(lim)), BAD, 0, None);
    }
  }

  // ----- reports that go back -----

  /** n reports come back to the PEER, which then asks the HOST for n threads. */
  lemma {:induction false} HostAskedFor(fix: Repairs, lim: Limits, n: nat)
    requires fix.setCode && (!fix.gateOnRespond || !fix.stopAtZero) && lim.most > 0
    ensures Within(fix, lim, At(0, 0, Wire(Request(lim), n, None), []))
  {
    hide Within, Wire, Plenty;
    if n == 0 {
      Begin(fix, lim, Request(lim));
    } else {
      HostAskedFor(fix, lim, n - 1);
      AskedOnceMore(fix, lim, n - 1, n);
    }
  }

  lemma AskedOnceMore(fix: Repairs, lim: Limits, m: nat, n: nat)
    requires n == m + 1 && fix.setCode && (!fix.gateOnRespond || !fix.stopAtZero) && lim.most > 0
    requires Within(fix, lim, At(0, 0, Wire(Request(lim), m, None), []))
    ensures Within(fix, lim, At(0, 0, Wire(Request(lim), n, None), []))
  {
    hide ReachableWithin, Judge, Plenty, Far, Wire;
    var r, g := Request(lim), Good(lim);
    WireParts(r, m, g);
    WireParts(r, m, r);
    WireParts(BAD, 0, g);
    var s0, s1 := At(0, 0, Wire(r, m, None), []), At(0, 0, Wire(r, m, Some(g)), []);
    Move(fix, lim, s0, Report(Plenty(lim)), s1, r, m, Some(g), BAD, 0, None);
    FarIsBad(fix, lim, Plenty(lim));
    FarIsSome(Plenty(lim));
    var s2, s3 := At(0, 0, Wire(r, m, None), [g]), At(0, 0, Wire(r, m, Some(r)), []);
    Move(fix, lim, s1, Up(m, Far(Plenty(lim)), true), s2, r, m, None, BAD, 0, Some(g));
    PlentyIsGood(fix, lim);
    Move(fix, lim, s2, Down(0, 1, true), s3, r, m, Some(r), BAD, 0, None);
  }

  lemma Answered(fix: Repairs, lim: Limits)
    requires fix.setCode
    ensures Answer(fix, Request(lim), true).kind == AddThread && Answer(fix, Request(lim), true).code != ResponseNone
  {
  }

  /** Whatever its count, the HOST adds a thread on a request and answers. */
  lemma HostResponds(fix: Repairs, lim: Limits, h: nat)
    ensures var r := Request(lim);
      && Respond(fix, lim, h, r, 1, true) == Outcome(h + 1, Answer(fix, r, true), true)
      && GoesBack(fix, true) && !Breaks(fix, lim, h, r, 1)
  {
  }

  lemma HostStep(fix: Repairs, lim: Limits, n: nat, h: nat)
    ensures var r, answer := Request(lim), Answer(fix, Request(lim), true);
      Step(fix, lim, At(h, 0, Wire(r, n + 1, None), Wire(answer, h, None)), Up(0, 1, true))
        == At(h + 1, 0, Wire(r, n, None), Wire(answer, h + 1, None))
  {
    hide Judge, Plenty, Answer, Wire, Respond, GoesBack, Breaks, Without;
    var r, answer := Request(lim), Answer(fix, Request(lim), true);
    HostResponds(fix, lim, h);
    WireParts(r, n + 1, r);
    WireParts(answer, h, answer);
  }

  /** And the HOST has no limit to look at. */
  lemma {:induction false} HostAsked(fix: Repairs, lim: Limits, n: nat, h: nat)
    requires fix.setCode && (!fix.gateOnRespond || !fix.stopAtZero) && lim.most > 0
    ensures Within(fix, lim, At(h, 0, Wire(Request(lim), n, None), Wire(Answer(fix, Request(lim), true), h, None)))
    decreases h
  {
    hide Within, Plenty, Answer, Wire, Step;
    var r, answer := Request(lim), Answer(fix, Request(lim), true);
    if h == 0 {
      WireParts(answer, 0, answer);
      HostAskedFor(fix, lim, n);
    } else {
      Answered(fix, lim);
      HostAsked(fix, lim, n + 1, h - 1);
      HostStep(fix, lim, n, h - 1);
      var s, t := At(h - 1, 0, Wire(r, n + 1, None), Wire(answer, h - 1, None)), At(h, 0, Wire(r, n, None), Wire(answer, h, None));
      Move(fix, lim, s, Up(0, 1, true), t, r, n, None, answer, h, None);
    }
  }

  // ----- removals that add -----

  /** A thread is added on both sides and then removed on both, and the approval of that waits. */
  lemma {:induction false} Withheld(fix: Repairs, lim: Limits, n: nat)
    requires fix.setCode && fix.keepAnswer && fix.stopOnAnswer && fix.gateOnRespond && fix.queued && lim.most > 0
    ensures Within(fix, lim, At(0, 0, Wire(REMOVED, n, None), []))
  {
    hide ReachableWithin, Judge, Plenty, Wire;
    if n == 0 {
      Begin(fix, lim, REMOVED);
    } else {
      Withheld(fix, lim, n - 1);
      var s := Asked(fix, lim, REMOVED, n - 1);
      s := Approved(fix, lim, REMOVED, n - 1, s);
      s := BothHave(fix, lim, n - 1, s);
      BothRemove(fix, lim, n - 1, n, s);
    }
  }

  lemma BothHave(fix: Repairs, lim: Limits, m: nat, s: Pair) returns (t: Pair)
    requires fix.stopOnAnswer && fix.gateOnRespond
    requires Within(fix, lim, s) && s == At(0, 1, Wire(REMOVED, m, Some(Approval(lim))), [])
    ensures Within(fix, lim, t) && t == At(1, 1, Wire(REMOVED, m, Some(BAD)), [])
  {
    hide ReachableWithin, Judge, Plenty, Wire;
    WireParts(REMOVED, m, Approval(lim));
    WireParts(REMOVED, m, BAD);
    WireParts(BAD, 0, BAD);
    var s1 := At(1, 1, Wire(REMOVED, m, None), []);
    Move(fix, lim, s, Up(m, 1, true), s1, REMOVED, m, None, BAD, 0, None);
    t := At(1, 1, Wire(REMOVED, m, Some(BAD)), []);
    Move(fix, lim, s1, Report(0), t, REMOVED, m, Some(BAD), BAD, 0, None);
  }

  lemma BothRemove(fix: Repairs, lim: Limits, m: nat, n: nat, s: Pair)
    requires n == m + 1 && fix.setCode && fix.keepAnswer && fix.gateOnRespond && fix.queued
    requires Within(fix, lim, s) && s == At(1, 1, Wire(REMOVED, m, Some(BAD)), [])
    ensures Within(fix, lim, At(0, 0, Wire(REMOVED, n, None), []))
  {
    hide ReachableWithin, Judge, Plenty, Wire;
    WireParts(REMOVED, m, BAD);
    WireParts(REMOVED, m, REMOVED);
    WireParts(BAD, 0, REMOVE);
    FarIsBad(fix, lim, 0);
    FarIsSome(0);
    var s1, s2 := At(0, 1, Wire(REMOVED, m, None), [REMOVE]), At(0, 0, Wire(REMOVED, m, Some(REMOVED)), []);
    Move(fix, lim, s, Up(m, 1, true), s1, REMOVED, m, None, BAD, 0, Some(REMOVE));
    Move(fix, lim, s1, Down(0, 1, true), s2, REMOVED, m, Some(REMOVED), BAD, 0, None);
  }

  /** Each of the approvals adds a thread at the HOST. */
  lemma {:induction false} RemovedThenAdded(fix: Repairs, lim: Limits, n: nat, h: nat)
    requires fix.setCode && fix.keepAnswer && fix.stopOnAnswer && fix.gateOnRespond && fix.queued && lim.most > 0
    requires !fix.noAddOnRemoval
    ensures Within(fix, lim, At(h, 0, Wire(REMOVED, n, None), []))
    decreases h
  {
    hide ReachableWithin, Judge, Plenty, Wire;
    WireParts(BAD, 0, BAD);
    if h == 0 {
      Withheld(fix, lim, n);
    } else {
      RemovedThenAdded(fix, lim, n + 1, h - 1);
      WireParts(REMOVED, n + 1, BAD);
      var s, t := At(h - 1, 0, Wire(REMOVED, n + 1, None), []), At(h, 0, Wire(REMOVED, n, None), []);
      Move(fix, lim, s, Up(0, 1, true), t, REMOVED, n, None, BAD, 0, None);
    }
  }

  // ----- the bound -----

  lemma AnyNumber(fix: Repairs, lim: Limits, n: nat) returns (s: Pair)
    requires !LimitRepairs(fix) && lim.most > 0
    ensures Within(fix, lim, s) && s.host == n
  {
    hide ReachableWithin;
    if !fix.setCode {
      AskedBack(fix, lim, n);
      s := At(n, n, [], [Request(lim)]);
    } else if !fix.gateOnRespond || !fix.stopAtZero {
      HostAsked(fix, lim, 0, n);
      s := At(n, 0, Wire(Request(lim), 0, None), Wire(Answer(fix, Request(lim), true), n, None));
    } else if !fix.stopOnAnswer {
      AnsweredAgain(fix, lim, n);
      s := At(n, n + 1, [Approval(lim)], []);
    } else {
      RemovedThenAdded(fix, lim, 0, n);
      s := At(n, 0, Wire(REMOVED, 0, None), []);
    }
  }

  lemma ThreadlessAreClosed(fix: Repairs, lim: Limits, k: nat, states: iset<Pair>)
    requires lim.most == 0 && states == iset s | Threadless(s)
    ensures Closed(fix, lim, k, states)
  {
    hide Step, OpenAdds;
    forall s, a | s in states ensures Step(fix, lim, s, a) in states { StaysThreadless(fix, lim, s, a); }
  }

  lemma ThreadlessWithin(fix: Repairs, lim: Limits, s: Pair, k: nat)
    requires lim.most == 0 && ReachableWithin(fix, lim, s, k)
    ensures s.host + OpenAdds(s) == 0
  {
    hide Closed, OpenAdds;
    var states := iset t | Threadless(t);
    ThreadlessAreClosed(fix, lim, k, states);
    ThreadlessIsBalanced(s);
  }

  /** Under any limits and for any k: in every run with at most k additions open the HOST's count plus the open
      additions stays within most - 1 + k, exactly with these repairs, or where no thread is allowed at all;
      and otherwise every number of threads is reached. */
  lemma BoundNeeds(fix: Repairs, lim: Limits, k: nat)
    requires k > 0
    ensures AlwaysUnder(fix, lim, k) <==> LimitRepairs(fix) || lim.most == 0
    ensures !AlwaysUnder(fix, lim, k) ==> Unbounded(fix, lim, k)
  {
    hide ReachableWithin, OpenAdds, LimitRepairs;
    if LimitRepairs(fix) {
      forall s | ReachableWithin(fix, lim, s, k) ensures Under(lim, s, k) { EndStays(fix, lim, s, k); }
    } else if lim.most == 0 {
      forall s | ReachableWithin(fix, lim, s, k) ensures Under(lim, s, k) { ThreadlessWithin(fix, lim, s, k); }
    } else {
      forall n: nat ensures Has(fix, lim, k, n) {
        var s := AnyNumber(fix, lim, n);
        WithinMore(fix, lim, s, k);
      }
      assert Has(fix, lim, k, lim.most + k);
      var s :| ReachableWithin(fix, lim, s, k) && s.host == lim.most + k;
      assert !Under(lim, s, k);
    }
  }

  /** The text has a bound under no limits but those that allow no thread. */
  lemma NoBoundAsWritten(lim: Limits, k: nat)
    requires k > 0
    ensures lim.most > 0 ==> Unbounded(AS_WRITTEN, lim, k)
    ensures lim.most == 0 ==> AlwaysUnder(AS_WRITTEN, lim, k)
  {
    BoundNeeds(AS_WRITTEN, lim, k);
  }
}
