/** Scaling the flow threads of a connection: UDTPAcknowledge::respond and the thread methods of UDTPPeer. */
module Acknowledge {
  import opened Protocol
  import opened Division

  /** One flag for each place where the text of the code departs from its own comments. */
  datatype Repairs = Repairs(
    setCode: bool,        // set_response_code assigns the member and not its own argument
    keepAnswer: bool,     // the answer to a request is not overwritten with Rejected
    noAddOnRemoval: bool, // an approved removal does not add a thread
    stopAtZero: bool,     // nothing is sent when there is no thread left to remove
    stopOnAnswer: bool,   // an answer is not sent back once more
    gateOnRespond: bool,  // a packet goes back only when respond asks for it
    percent: bool,        // the share of delivered packets is a percentage
    queued: bool)         // the two threads that are added are pushed onto the peer's thread queues

  const AS_WRITTEN := Repairs(false, false, false, false, false, false, false, false)

  datatype AcknowledgeType = PacketCount | Missing | MissingSent | AddThread | RemoveThread | Complete

  datatype Ack = Ack(kind: AcknowledgeType, code: ResponseCode, packets: nat)

  datatype Limits = Limits(most: nat, critical: nat, satisfactory: nat)

  datatype Verdict = Fewer | Same | More

  function Rank(v: Verdict): nat {
    match v case Fewer => 0 case Same => 1 case More => 2
  }

  function Share(fix: Repairs, reported: nat, local: nat): nat
    requires local > 0
  {
    (if fix.percent then 100 * reported else reported) / local
  }

  function Judge(fix: Repairs, lim: Limits, reported: nat, local: nat): Verdict
    requires local > 0
  {
    var share := Share(fix, reported, local);
    if share <= lim.critical then Fewer else if share >= lim.satisfactory then More else Same
  }

  /** The verdict in terms of the counts, for every report: the thresholds meet in no gap and no overlap. */
  lemma VerdictByCounts(fix: Repairs, lim: Limits, reported: nat, local: nat)
    requires local > 0
    ensures var weight := if fix.percent then 100 * reported else reported;
      && (Judge(fix, lim, reported, local) == Fewer <==> weight < (lim.critical + 1) * local)
      && (Judge(fix, lim, reported, local) == More <==>
            (weight >= (lim.critical + 1) * local && weight >= lim.satisfactory * local))
  {
    var weight := if fix.percent then 100 * reported else reported;
    DivisionBound(weight, local, lim.critical + 1);
    DivisionBound(weight, local, lim.satisfactory);
  }

  /** More delivered packets never give a worse verdict. */
  lemma VerdictIsMonotone(fix: Repairs, lim: Limits, fewer: nat, more: nat, local: nat)
    requires local > 0 && fewer <= more
    ensures Rank(Judge(fix, lim, fewer, local)) <= Rank(Judge(fix, lim, more, local))
  {
    VerdictByCounts(fix, lim, fewer, local);
    VerdictByCounts(fix, lim, more, local);
  }

  /** Without the factor 100 even a report of every packet asks for fewer threads, unless the critical
      percentage is 0; with it, such a report asks for more exactly when the limits lie within 100. */
  lemma PerfectReport(fix: Repairs, lim: Limits, local: nat)
    requires local > 0
    ensures !fix.percent ==> (Judge(fix, lim, local, local) == Fewer <==> lim.critical >= 1)
    ensures fix.percent ==> (Judge(fix, lim, local, local) == More <==> lim.critical < 100 && lim.satisfactory <= 100)
  {
    assert local / local == 1;
    assert 100 * local / local == 100 by {
      DivisionBound(100 * local, local, 100);
      DivisionBound(100 * local, local, 101);
    }
  }

  /** A report that is good news for whoever received one packet, under any limits. */
  function Plenty(lim: Limits): nat { lim.critical + 1 + lim.satisfactory }

  lemma PlentyIsGood(fix: Repairs, lim: Limits)
    ensures Judge(fix, lim, Plenty(lim), 1) == More
  {
    VerdictByCounts(fix, lim, Plenty(lim), 1);
  }

  /** And every report is bad news for whoever received this many. */
  function Far(reported: nat): nat { 100 * reported + 1 }

  lemma FarIsBad(fix: Repairs, lim: Limits, reported: nat)
    ensures Judge(fix, lim, reported, Far(reported)) == Fewer
  {
    VerdictByCounts(fix, lim, reported, Far(reported));
    MulMonotone(1, lim.critical + 1, Far(reported));
  }

  // ----- the response -----

  function SetCode(fix: Repairs, a: Ack, code: ResponseCode): Ack {
    if fix.setCode then a.(code := code) else a
  }

  /** The thread count afterwards, the packet afterwards, and what respond returns. */
  datatype Outcome = Outcome(threads: nat, ack: Ack, reply: bool)

  function Answer(fix: Repairs, a: Ack, ok: bool): Ack {
    SetCode(fix, a, if fix.keepAnswer && ok then ResponseApproved else ResponseRejected)
  }

  /** `local` is the receiver's own packet count, which the code divides by; `addOk` says whether the
      sockets for one more thread can be had. */
  function Respond(fix: Repairs, lim: Limits, threads: nat, a: Ack, local: nat, addOk: bool): Outcome
    requires a.kind == PacketCount && a.code == ResponseNone ==> local > 0
  {
    var added := if addOk then threads + 1 else threads;
    match (a.kind, a.code)
    case (PacketCount, ResponseNone) =>
      (match Judge(fix, lim, a.packets, local)
       case Fewer =>
         if threads != 0 then Outcome(threads - 1, SetCode(fix, a, ResponseNone).(kind := RemoveThread), true)
         else Outcome(0, a, !fix.stopAtZero)
       case More =>
         if threads < lim.most then Outcome(threads, SetCode(fix, a, ResponseNone).(kind := AddThread), true)
         else Outcome(threads, SetCode(fix, a, ResponseConfirm), true)
       case Same => Outcome(threads, SetCode(fix, a, ResponseConfirm), true))
    case (PacketCount, ResponseConfirm) => Outcome(threads, a, false)
    case (AddThread, ResponseNone) => Outcome(added, Answer(fix, a, addOk), true)
    case (AddThread, ResponseApproved) => Outcome(added, a, !fix.stopOnAnswer)
    case (RemoveThread, ResponseNone) =>
      Outcome(if threads > 0 then threads - 1 else 0, Answer(fix, a, threads > 0), true)
    case (RemoveThread, ResponseApproved) =>
      Outcome(if fix.noAddOnRemoval then threads else added, a, !fix.stopOnAnswer)
    case _ => Outcome(threads, a, !fix.stopOnAnswer)
  }

  /** Every report is answered, with one of three packets, but for one that finds no thread to remove: that
      comes back unchanged, or, repaired, not at all. */
  lemma ReportAnswer(fix: Repairs, lim: Limits, threads: nat, a: Ack, local: nat, addOk: bool)
    requires a.kind == PacketCount && a.code == ResponseNone && local > 0
    ensures var out, verdict := Respond(fix, lim, threads, a, local, addOk), Judge(fix, lim, a.packets, local);
      && (out.reply <==> !(verdict == Fewer && threads == 0 && fix.stopAtZero))
      && (out.ack.kind == RemoveThread <==> verdict == Fewer && threads > 0)
      && (out.ack.kind == AddThread <==> verdict == More && threads < lim.most)
      && (out.ack.kind != PacketCount || !fix.setCode || (verdict == Fewer && threads == 0) ==> out.ack.code == ResponseNone)
      && (out.ack.kind == PacketCount && fix.setCode && (verdict != Fewer || threads > 0) ==> out.ack.code == ResponseConfirm)
      && out.threads + (if out.ack.kind == RemoveThread then 1 else 0) == threads
  {
  }

  /** The answer to a request is Approved exactly when the request was carried out, if it is set and kept. */
  lemma AnswerTellsTruth(fix: Repairs, lim: Limits, threads: nat, a: Ack, local: nat, addOk: bool)
    requires (a.kind == AddThread || a.kind == RemoveThread) && a.code == ResponseNone
    ensures var out := Respond(fix, lim, threads, a, local, addOk);
      && out.reply && out.ack.kind == a.kind
      && (out.threads != threads <==> if a.kind == AddThread then addOk else threads > 0)
      && (fix.setCode && fix.keepAnswer ==> out.ack.code == if out.threads != threads then ResponseApproved else ResponseRejected)
      && (fix.setCode && !fix.keepAnswer ==> out.ack.code == ResponseRejected)
      && (!fix.setCode ==> out.ack.code == ResponseNone)
  {
  }

  /** No response changes what was counted, and every packet that is neither a report nor a request nor an
      approval of one leaves the threads alone and comes back, if at all, as it was. */
  lemma OthersChangeNothing(fix: Repairs, lim: Limits, threads: nat, a: Ack, local: nat, addOk: bool)
    requires a.kind == PacketCount && a.code == ResponseNone ==> local > 0
    ensures var out := Respond(fix, lim, threads, a, local, addOk);
      && out.ack.packets == a.packets
      && (a.code != ResponseNone ==> out.ack == a)
      && (a.code != ResponseNone ==> (out.reply <==> !fix.stopOnAnswer && !(a.kind == PacketCount && a.code == ResponseConfirm)))
      && (a.kind in {Missing, MissingSent, Complete} ==> out == Outcome(threads, a, !fix.stopOnAnswer))
      && (a.kind == PacketCount && a.code != ResponseNone ==> out.threads == threads)
      && (a.code != ResponseNone && a.code != ResponseApproved ==> out.threads == threads)
  {
  }

  /** The response takes a thread off the peer. */
  predicate Removes(fix: Repairs, lim: Limits, threads: nat, a: Ack, local: nat)
    requires a.kind == PacketCount && a.code == ResponseNone ==> local > 0
  {
    threads > 0 && a.code == ResponseNone
    && (a.kind == RemoveThread || (a.kind == PacketCount && Judge(fix, lim, a.packets, local) == Fewer))
  }

  /** That is, the thread count falls. */
  lemma RemovesIsLess(fix: Repairs, lim: Limits, threads: nat, a: Ack, local: nat, addOk: bool)
    requires a.kind == PacketCount && a.code == ResponseNone ==> local > 0
    ensures Removes(fix, lim, threads, a, local) <==> Respond(fix, lim, threads, a, local, addOk).threads < threads
  {
  }

  /** It takes it from a queue onto which nothing was pushed. */
  predicate Breaks(fix: Repairs, lim: Limits, threads: nat, a: Ack, local: nat)
    requires a.kind == PacketCount && a.code == ResponseNone ==> local > 0
  {
    !fix.queued && Removes(fix, lim, threads, a, local)
  }

  /** pack and unpack of this packet always return true, so the gate as written never closes. */
  function GoesBack(fix: Repairs, reply: bool): bool { Resends(fix.gateOnRespond, true, reply, true) }

  class FlowPeer {
    var online: bool
    var threadCount: nat
    var flowThreads: seq<nat>
    var processThreads: seq<nat>
    var semProcessChunkThread: nat
    var failed: bool   // the front of an empty queue was taken

    /** The two queues hold one thread for each that is counted, or none at all if none is ever pushed. */
    ghost predicate Valid(queued: bool)
      reads this
    {
      |flowThreads| == |processThreads| == if queued then threadCount else 0
    }

    constructor ()
      ensures threadCount == 0 && flowThreads == processThreads == [] && !failed
      ensures forall queued :: Valid(queued)
    {
      online, threadCount, flowThreads, processThreads, semProcessChunkThread, failed := false, 0, [], [], 0, false;
    }

    /** `socketOk` is the outcome of socket, setsockopt and bind. */
    method AddThread(queued: bool, socketOk: bool, flow: nat, process: nat) returns (ok: bool)
      modifies `threadCount, `flowThreads, `processThreads
      ensures ok <==> online && socketOk
      ensures threadCount == old(threadCount) + if ok then 1 else 0
      ensures flowThreads == old(flowThreads) + if ok && queued then [flow] else []
      ensures processThreads == old(processThreads) + if ok && queued then [process] else []
      ensures old(Valid(queued)) ==> Valid(queued)
    {
      if !online { return false; }
      if !socketOk { return false; }
      if queued {
        flowThreads := flowThreads + [flow];
        processThreads := processThreads + [process];
      }
      threadCount := threadCount + 1;
      return true;
    }

    /** The oldest pair of threads goes, and the process queue's semaphore is posted for the one that goes.
        With a count above 0 and nothing queued the program takes the front of an empty queue. */
    method RemoveThread() returns (ok: bool)
      modifies `threadCount, `flowThreads, `processThreads, `semProcessChunkThread, `failed
      ensures forall queued :: old(Valid(queued)) ==> Valid(queued)
      ensures failed <==> old(failed) || (old(threadCount) > 0 && (old(flowThreads) == [] || old(processThreads) == []))
      ensures ok <==> old(threadCount) > 0 && old(flowThreads) != [] && old(processThreads) != []
      ensures ok ==> threadCount == old(threadCount) - 1 && semProcessChunkThread == old(semProcessChunkThread) + 1
      ensures ok ==> flowThreads == old(flowThreads[1..]) && processThreads == old(processThreads[1..])
      ensures !ok ==> threadCount == old(threadCount) && semProcessChunkThread == old(semProcessChunkThread)
      ensures !ok ==> flowThreads == old(flowThreads) && processThreads == old(processThreads)
    {
      if threadCount <= 0 { return false; }
      if flowThreads == [] || processThreads == [] {
        failed := true;
        return false;
      }
      semProcessChunkThread := semProcessChunkThread + 1;
      threadCount := threadCount - 1;
      flowThreads := flowThreads[1..];
      processThreads := processThreads[1..];
      return true;
    }
  }

  class UDTPAcknowledge {
    var acknowledgeType: AcknowledgeType
    var responseCode: ResponseCode
    var packetsCount: nat

    ghost function Value(): Ack
      reads this
    {
      Ack(acknowledgeType, responseCode, packetsCount)
    }

    method SetResponseCode(fix: Repairs, code: ResponseCode)
      modifies `responseCode
      ensures Value() == SetCode(fix, old(Value()), code)
    {
      if fix.setCode { responseCode := code; }
    }

    /** The packet, the peer's thread count and the answer change as the function Respond says, unless the
        response removes a thread and finds nothing queued. */
    method RespondTo(fix: Repairs, lim: Limits, peer: FlowPeer, local: nat, socketOk: bool, thread: nat)
      returns (reply: bool)
      requires acknowledgeType == PacketCount && responseCode == ResponseNone ==> local > 0
      requires !peer.failed
      modifies this, peer
      ensures peer.failed == (Removes(fix, lim, old(peer.threadCount), old(Value()), local)
                              && (old(peer.flowThreads) == [] || old(peer.processThreads) == []))
      ensures !peer.failed ==>
        Outcome(peer.threadCount, Value(), reply)
          == Respond(fix, lim, old(peer.threadCount), old(Value()), local, old(peer.online) && socketOk)
      ensures old(peer.Valid(fix.queued)) ==> peer.Valid(fix.queued)
    {
      hide Judge;
      if acknowledgeType == PacketCount {
        if responseCode == ResponseNone {
          reply := Report(fix, lim, peer, local);
          return;
        }
        if responseCode == ResponseConfirm { return false; }
      }
      if acknowledgeType == AddThread {
        if responseCode == ResponseNone {
          var ok := peer.AddThread(fix.queued, socketOk, thread, thread);
          AnswerWith(fix, ok);
          return true;
        }
        if responseCode == ResponseApproved {
          var ok := peer.AddThread(fix.queued, socketOk, thread, thread);
        }
      }
      if acknowledgeType == RemoveThread {
        if responseCode == ResponseNone {
          var ok := peer.RemoveThread();
          AnswerWith(fix, ok);
          return true;
        }
        if responseCode == ResponseApproved && !fix.noAddOnRemoval {
          var ok := peer.AddThread(fix.queued, socketOk, thread, thread);
        }
      }
      return !fix.stopOnAnswer;
    }

    /** As written the second assignment overwrites the first. */
    method AnswerWith(fix: Repairs, ok: bool)
      modifies `responseCode
      ensures Value() == Answer(fix, old(Value()), ok)
    {
      SetResponseCode(fix, if ok then ResponseApproved else ResponseRejected);
      if !fix.keepAnswer { SetResponseCode(fix, ResponseRejected); }
    }

    method Report(fix: Repairs, lim: Limits, peer: FlowPeer, local: nat) returns (reply: bool)
      requires acknowledgeType == PacketCount && responseCode == ResponseNone && local > 0 && !peer.failed
      modifies this, peer
      ensures peer.failed == (Removes(fix, lim, old(peer.threadCount), old(Value()), local)
                              && (old(peer.flowThreads) == [] || old(peer.processThreads) == []))
      ensures !peer.failed ==>
        forall addOk :: Outcome(peer.threadCount, Value(), reply)
          == Respond(fix, lim, old(peer.threadCount), old(Value()), local, addOk)
      ensures forall queued :: old(peer.Valid(queued)) ==> peer.Valid(queued)
    {
      var percentageOfSuccessPacket := (if fix.percent then 100 * packetsCount else packetsCount) / local;
      if percentageOfSuccessPacket <= lim.critical {
        if peer.threadCount != 0 {
          SetResponseCode(fix, ResponseNone);
          acknowledgeType := RemoveThread;
          var ok := peer.RemoveThread();
          return true;
        }
        return !fix.stopAtZero;
      }
      if percentageOfSuccessPacket >= lim.satisfactory {
        if peer.threadCount < lim.most {
          SetResponseCode(fix, ResponseNone);
          acknowledgeType := AddThread;
          return true;
        }
      }
      SetResponseCode(fix, ResponseConfirm);
      acknowledgeType := PacketCount;
      return true;
    }
  }
}
