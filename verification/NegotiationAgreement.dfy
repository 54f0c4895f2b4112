/** What the two sides hold once an exchange is over, and which ids the exchanges get. */
module NegotiationAgreement {
  import opened Protocol
  import opened Sequences
  import opened Transfer
  import opened NegotiationRuns

  ghost predicate NoRecord(s: System, e: nat) {
    forall k :: 0 <= k < |s.sites| ==> Records(s, k, e) == []
  }

  /** Each of the two sides, and no other endpoint, holds exactly one record of the exchange: the same id, the
      type that was asked for, one approver, both started, opposite ways; of a push also the same file. */
  ghost predicate Agreed(s: System, e: nat)
    requires e < |s.begun|
  {
    var x := s.begun[e];
    && x.origin < |s.sites| && x.responder < |s.sites|
    && (forall k :: 0 <= k < |s.sites| && k != x.origin && k != x.responder ==> Records(s, k, e) == [])
    && var o, r := Records(s, x.origin, e), Records(s, x.responder, e);
       && |o| == 1 && |r| == 1
       && o[0].id == r[0].id && o[0].kind == r[0].kind == x.kind
       && !o[0].approver && r[0].approver
       && o[0].active && r[0].active && o[0].Direction() != r[0].Direction()
       && (x.kind == Push ==> o[0].chunks == r[0].chunks && o[0].size == r[0].size)
  }

  predicate Grants(p: Packet) { p.header.code == ResponseApproved || p.header.code == ResponseConfirm }

  /** The exchange was approved: an approval or a confirmation is in flight, or somebody holds a record. */
  ghost predicate Granted(s: System, e: nat) {
    (exists p :: p in Messages(s, e) && Grants(p)) || !NoRecord(s, e)
  }

  /** Once it is over, an exchange has succeeded on both sides; or it left nothing, and was never approved. */
  ghost predicate Concludes(s: System, t: System, e: nat)
    requires e < |t.begun|
  {
    Messages(t, e) == [] ==> Agreed(t, e) || (NoRecord(t, e) && !Granted(s, e))
  }

  ghost predicate AlwaysConcludes(fix: Repairs, kind: TransferType) {
    forall peers: nat, acts, more, e: nat ::
      var s := Run(fix, Init(peers), acts);
      var t := Run(fix, s, more);
      e < |s.begun| && e < |t.begun| && s.begun[e].kind == kind ==> Concludes(s, t, e)
  }

  /** The repairs that each type of transfer needs. */
  predicate KindRepairs(fix: Repairs, kind: TransferType) {
    match kind
    case Push => fix.idBeforeUnpack && fix.approveOrigin
    case Pull => fix.keepOnPack && fix.copyOnConfirm
  }

  // ----- an approval is never lost -----

  lemma DeliverKeepsGrant(fix: Repairs, s: System, a: Action, e: nat)
    requires Inv(fix, s) && Delivers(s, a) && e < |s.begun| && Granted(s, e)
    ensures Granted(Step(fix, s, a), e)
  {
    hide Only, Respond, OnWire, OnFile;
    var p, t := s.wire[a.i], Step(fix, s, a);
    if p.header.exchange != e {
      DeliverOther(fix, s, a, e);
      if !NoRecord(s, e) {
        var k :| 0 <= k < |s.sites| && Records(s, k, e) != [];
        assert Records(t, k, e) != [];
      }
    } else {
      DeliverGranted(fix, s, a);
    }
  }

  lemma DeliverGranted(fix: Repairs, s: System, a: Action)
    requires Inv(fix, s) && Delivers(s, a) && Granted(s, s.wire[a.i].header.exchange)
    ensures !NoRecord(Step(fix, s, a), s.wire[a.i].header.exchange)
  {
    hide Only, OnWire, OnFile;
    var p, t := s.wire[a.i], Step(fix, s, a);
    var e := p.header.exchange;
    assert ExchangeInv(fix, s, e);
    MessageOfItsOwn(s, p);
    DeliverOwnWire(fix, s, a);
    if !NoRecord(s, e) {
      var k :| 0 <= k < |s.sites| && Records(s, k, e) != [];
      DeliverOwnFiles(fix, s, a, k);
      assert Records(t, k, e) != [];
    } else {
      assert Grants(p);
      DeliverOwnFiles(fix, s, a, p.to);
      assert Added(fix, s.sites[p.to], p.header, a.disk, a.unset) != [];
      assert Records(t, p.to, e) != [];
    }
  }

  lemma MessageOfItsOwn(s: System, p: Packet)
    requires p in s.wire
    ensures p in Messages(s, p.header.exchange)
  {
    OnlyMember(s.wire, OnWire(p.header.exchange), p);
  }

  lemma BeginKeepsGrant(fix: Repairs, s: System, a: Action, e: nat)
    requires a.Begin? && e < |s.begun| && Granted(s, e)
    ensures Granted(Step(fix, s, a), e)
  {
    if CanBegin(s, a) {
      var t := Step(fix, s, a);
      OnlyAppend(s.wire, t.wire[|s.wire|], OnWire(e));
      assert forall k :: 0 <= k < |s.sites| ==> Records(t, k, e) == Records(s, k, e);
    }
  }

  lemma {:induction false} GrantIsKept(fix: Repairs, s: System, acts: seq<Action>, e: nat)
    requires Inv(fix, s) && e < |s.begun| && Granted(s, e)
    ensures Granted(Run(fix, s, acts), e)
    decreases |acts|
  {
    if acts != [] {
      BegunStays(fix, s, acts[0], e);
      if acts[0].Begin? {
        BeginKeepsInv(fix, s, acts[0]);
        BeginKeepsGrant(fix, s, acts[0], e);
      } else {
        DeliverKeepsInv(fix, s, acts[0]);
        if Delivers(s, acts[0]) { DeliverKeepsGrant(fix, s, acts[0], e); }
      }
      GrantIsKept(fix, Step(fix, s, acts[0]), acts[1..], e);
    }
  }

  lemma BegunStays(fix: Repairs, s: System, a: Action, e: nat)
    requires e < |s.begun|
    ensures e < |Step(fix, s, a).begun| && Step(fix, s, a).begun[e] == s.begun[e]
  {
  }

  lemma {:induction false} RunKeepsBegun(fix: Repairs, s: System, acts: seq<Action>, e: nat)
    requires e < |s.begun|
    ensures e < |Run(fix, s, acts).begun| && Run(fix, s, acts).begun[e] == s.begun[e]
    decreases |acts|
  {
    if acts != [] {
      BegunStays(fix, s, acts[0], e);
      RunKeepsBegun(fix, Step(fix, s, acts[0]), acts[1..], e);
    }
  }

  // ----- how an exchange ends -----

  lemma SettledMeansAgreed(fix: Repairs, s: System, e: nat)
    requires e < |s.begun| && ExchangeInv(fix, s, e) && Messages(s, e) == [] && KindRepairs(fix, s.begun[e].kind)
    ensures Agreed(s, e) || NoRecord(s, e)
  {
    hide Only, OnFile, OnWire;
    var x := s.begun[e];
    assert Settled(fix, x, Records(s, x.origin, e), Records(s, x.responder, e));
  }

  lemma RunConcludes(fix: Repairs, peers: nat, acts: seq<Action>, more: seq<Action>, e: nat)
    requires e < |Run(fix, Init(peers), acts).begun|
    requires KindRepairs(fix, Run(fix, Init(peers), acts).begun[e].kind)
    requires e < |Run(fix, Run(fix, Init(peers), acts), more).begun|
    ensures Concludes(Run(fix, Init(peers), acts), Run(fix, Run(fix, Init(peers), acts), more), e)
  {
    var s := Run(fix, Init(peers), acts);
    RunKeepsInv(fix, Init(peers), acts);
    RunKeepsInv(fix, s, more);
    var t := Run(fix, s, more);
    RunKeepsBegun(fix, s, more, e);
    assert ExchangeInv(fix, t, e);
    if Messages(t, e) == [] {
      SettledMeansAgreed(fix, t, e);
      if Granted(s, e) { GrantIsKept(fix, s, more, e); }
    }
  }

  /** A confirmation ends its pull in agreement exactly when the new file takes id and type from the header,
      or happens to hold them; and then both records are of one file exactly when the local file is still
      what the header says. */
  lemma ConfirmedPull(fix: Repairs, s: System, a: Action)
    requires Inv(fix, s) && Delivers(s, a) && s.wire[a.i].header.code == ResponseConfirm
    ensures var t, h := Step(fix, s, a), s.wire[a.i].header; var e := h.exchange;
      && e < |t.begun| && Messages(t, e) == []
      && (Agreed(t, e) <==> fix.copyOnConfirm || a.unset == Unset(h.id, Pull))
      && t.begun[e].origin < |t.sites| && t.begun[e].responder < |t.sites|
      && var o, r := Records(t, t.begun[e].origin, e), Records(t, t.begun[e].responder, e);
         && |o| == |r| == 1
         && (o[0].chunks == r[0].chunks && o[0].size == r[0].size <==> h.chunks == a.disk.chunks && h.size == a.disk.size)
  {
    hide Only, OnFile, OnWire;
    var p, t := s.wire[a.i], Step(fix, s, a);
    var e := p.header.exchange;
    assert ExchangeInv(fix, s, e);
    MessageOfItsOwn(s, p);
    DeliverOwnWire(fix, s, a);
    forall k | 0 <= k < |s.sites| ensures
      Records(t, k, e) == if k == p.to then Records(s, k, e) + Added(fix, s.sites[k], p.header, a.disk, a.unset) else Records(s, k, e)
    {
      DeliverOwnFiles(fix, s, a, k);
    }
  }

  /** An approval of a pull that comes back as a Push ends the exchange with one record alone. */
  lemma MisreadApproval(fix: Repairs, s: System, a: Action)
    requires Inv(fix, s) && Delivers(s, a) && s.wire[a.i].header.code == ResponseApproved
    requires var e := s.wire[a.i].header.exchange; e < |s.begun| && s.begun[e].kind == Pull
    ensures var t, h := Step(fix, s, a), s.wire[a.i].header; var e := h.exchange;
      && e < |t.begun|
      && (h.kind == Push <==> Messages(t, e) == [])
      && (h.kind == Push ==> !Agreed(t, e) && !NoRecord(t, e))
  {
    hide Only, OnFile, OnWire;
    var p, t := s.wire[a.i], Step(fix, s, a);
    var e := p.header.exchange;
    assert ExchangeInv(fix, s, e);
    MessageOfItsOwn(s, p);
    DeliverOwnWire(fix, s, a);
    forall k | 0 <= k < |s.sites| ensures
      Records(t, k, e) == if k == p.to then Records(s, k, e) + Added(fix, s.sites[k], p.header, a.disk, a.unset) else Records(s, k, e)
    {
      DeliverOwnFiles(fix, s, a, k);
    }
    assert Records(t, p.to, e) != [];
  }

  const FILE_HERE := Disk(true, 3, 99)
  const NO_FILE := Disk(false, 0, 0)

  const PUSH_RUN: seq<Action> := [
    Begin(Push, 1, 0, FILE_HERE), Deliver(0, NO_FILE, Unset(9, Push)), Deliver(0, FILE_HERE, Unset(9, Push))]

  /** The two file records that the run leaves. */
  function PushHost(fix: Repairs): File { File(0, if fix.idBeforeUnpack then 1 else 0, Push, true, true, true, 3, 99) }

  function PushPeer(fix: Repairs): File { File(0, 1, Push, false, fix.approveOrigin, fix.approveOrigin, 3, 99) }

  lemma PushAnswered(fix: Repairs)
    ensures var s := System([Site(0, []), Site(0, [])],
        [Packet(1, 0, Header(0, Push, ResponseNone, 0, 3, 99))], [Exchange(Push, 1, 0)]);
      Step(fix, s, PUSH_RUN[1]) == System([Site(1, [PushHost(fix)]), Site(0, [])],
        [Packet(0, 1, Header(0, Push, ResponseApproved, 1, 3, 99))], [Exchange(Push, 1, 0)])
  {
    assert Site(1, [] + [PushHost(fix)]) == Site(1, [PushHost(fix)]);
  }

  lemma PushTaken(fix: Repairs)
    ensures var s := System([Site(1, [PushHost(fix)]), Site(0, [])],
        [Packet(0, 1, Header(0, Push, ResponseApproved, 1, 3, 99))], [Exchange(Push, 1, 0)]);
      Step(fix, s, PUSH_RUN[2])
        == System([Site(1, [PushHost(fix)]), Site(0, [PushPeer(fix)])], [], [Exchange(Push, 1, 0)])
  {
    assert Site(0, [] + [PushPeer(fix)]) == Site(0, [PushPeer(fix)]);
  }

  lemma PushAsked(fix: Repairs)
    ensures Step(fix, Init(1), PUSH_RUN[0])
      == System([Site(0, []), Site(0, [])], [Packet(1, 0, Header(0, Push, ResponseNone, 0, 3, 99))], [Exchange(Push, 1, 0)])
  {
  }

  lemma PushRun(fix: Repairs)
    ensures Run(fix, Init(1), PUSH_RUN)
      == System([Site(1, [PushHost(fix)]), Site(0, [PushPeer(fix)])], [], [Exchange(Push, 1, 0)])
  {
    Three(fix, Init(1), PUSH_RUN[0], PUSH_RUN[1], PUSH_RUN[2]);
    hide Step, Run, Init, PushHost, PushPeer;
    PushAsked(fix);
    PushAnswered(fix);
    PushTaken(fix);
  }

  const PULL_RUN: seq<Action> := [
    Begin(Pull, 1, 0, NO_FILE), Deliver(0, FILE_HERE, Unset(9, Push)), Deliver(0, NO_FILE, Unset(9, Push))]
  const PULL_CONFIRM: Action := Deliver(0, FILE_HERE, Unset(9, Push))

  /** The answer to the pull, the puller's record, and the record that the confirmation leaves. */
  function PullPacked(): System {
    System([Site(1, []), Site(0, [])], [Packet(0, 1, Header(0, Pull, ResponseApproved, 1, 3, 99))], [Exchange(Pull, 1, 0)])
  }

  function PullPeer(): File { File(0, 1, Pull, false, true, true, 3, 99) }

  function PullTaken(): System {
    System([Site(1, []), Site(0, [PullPeer()])], [Packet(1, 0, Header(0, Pull, ResponseConfirm, 1, 3, 99))],
           [Exchange(Pull, 1, 0)])
  }

  function PullHost(): File { File(0, 9, Push, true, true, true, 3, 99) }

  lemma AskedPull(fix: Repairs)
    ensures Step(fix, Init(1), PULL_RUN[0]) == PullAsked()
  {
  }

  lemma PackPull(fix: Repairs)
    requires fix.keepOnPack
    ensures Step(fix, PullAsked(), PULL_RUN[1]) == PullPacked()
  {
  }

  lemma TakePull(fix: Repairs)
    ensures Step(fix, PullPacked(), PULL_RUN[2]) == PullTaken()
  {
    assert Site(0, [] + [PullPeer()]) == Site(0, [PullPeer()]);
  }

  lemma ConfirmPull(fix: Repairs)
    requires !fix.copyOnConfirm
    ensures Step(fix, PullTaken(), PULL_CONFIRM)
      == System([Site(1, [PullHost()]), Site(0, [PullPeer()])], [], [Exchange(Pull, 1, 0)])
  {
    assert Site(1, [] + [PullHost()]) == Site(1, [PullHost()]);
  }

  lemma PullRun(fix: Repairs)
    requires fix.keepOnPack && !fix.copyOnConfirm
    ensures Run(fix, Init(1), PULL_RUN + [PULL_CONFIRM])
      == System([Site(1, [PullHost()]), Site(0, [PullPeer()])], [], [Exchange(Pull, 1, 0)])
  {
    Three(fix, Init(1), PULL_RUN[0], PULL_RUN[1], PULL_RUN[2]);
    RunAppend(fix, Init(1), PULL_RUN, PULL_CONFIRM);
    hide Step, Run, Init;
    AskedPull(fix);
    PackPull(fix);
    TakePull(fix);
    ConfirmPull(fix);
  }

  lemma {:induction false} RunAppend(fix: Repairs, s: System, acts: seq<Action>, a: Action)
    ensures Run(fix, s, acts + [a]) == Step(fix, Run(fix, s, acts), a)
    decreases |acts|
  {
    if acts == [] {
      assert [a][1..] == [] && acts + [a] == [a];
      assert Run(fix, s, [a]) == Run(fix, Step(fix, s, a), []);
    } else {
      assert (acts + [a])[1..] == acts[1..] + [a];
      RunAppend(fix, Step(fix, s, acts[0]), acts[1..], a);
    }
  }

  lemma OnlyOne(f: File, e: nat)
    requires f.exchange == e
    ensures Only([f], OnFile(e)) == [f]
  {
    assert [f][1..] == [];
  }

  /** A run at whose end exchange 0 has a record but is not agreed. */
  lemma Disagrees(fix: Repairs, run: seq<Action>, kind: TransferType)
    requires var s := Run(fix, Init(1), run);
      |s.begun| == 1 && s.begun[0].kind == kind && Messages(s, 0) == [] && !NoRecord(s, 0) && !Agreed(s, 0)
    ensures !AlwaysConcludes(fix, kind)
  {
    var s := Run(fix, Init(1), run);
    assert Run(fix, s, []) == s;
    assert !Concludes(s, s, 0);
  }

  lemma OneSided(fix: Repairs)
    requires !fix.keepOnPack
    ensures !AlwaysConcludes(fix, Pull)
  {
    MisreadPull(fix);
    var s := Run(fix, Init(1), MISREAD_PULL);
    OnlyOne(s.sites[1].files[0], 0);
    assert Messages(s, 0) == [] && |Records(s, 1, 0)| == 1 && Records(s, 0, 0) == [];
    Disagrees(fix, MISREAD_PULL, Pull);
  }

  lemma OtherType(fix: Repairs)
    requires fix.keepOnPack && !fix.copyOnConfirm
    ensures !AlwaysConcludes(fix, Pull)
  {
    PullRun(fix);
    var s := Run(fix, Init(1), PULL_RUN + [PULL_CONFIRM]);
    OnlyOne(s.sites[0].files[0], 0);
    assert Messages(s, 0) == [] && Records(s, 0, 0)[0].kind == Push;
    Disagrees(fix, PULL_RUN + [PULL_CONFIRM], Pull);
  }

  lemma OtherIDOrIdle(fix: Repairs)
    requires !fix.idBeforeUnpack || !fix.approveOrigin
    ensures !AlwaysConcludes(fix, Push)
  {
    PushRun(fix);
    var s := Run(fix, Init(1), PUSH_RUN);
    OnlyOne(s.sites[0].files[0], 0);
    OnlyOne(s.sites[1].files[0], 0);
    assert Messages(s, 0) == [] && Records(s, 0, 0) != [];
    Disagrees(fix, PUSH_RUN, Push);
  }

  /** In every run every exchange of a type that was ever approved ends with one agreed record on each side, and
      every other one without any record, exactly with the two repairs of that type. */
  lemma RecordsAgree(fix: Repairs, kind: TransferType)
    ensures AlwaysConcludes(fix, kind) <==> KindRepairs(fix, kind)
  {
    if KindRepairs(fix, kind) {
      forall peers: nat, acts, more, e: nat
        | var s := Run(fix, Init(peers), acts);
          e < |s.begun| && e < |Run(fix, s, more).begun| && s.begun[e].kind == kind
        ensures var s := Run(fix, Init(peers), acts); Concludes(s, Run(fix, s, more), e)
      {
        RunConcludes(fix, peers, acts, more, e);
      }
    } else if kind == Push {
      OtherIDOrIdle(fix);
    } else if !fix.keepOnPack {
      OneSided(fix);
    } else {
      OtherType(fix);
    }
  }
}
