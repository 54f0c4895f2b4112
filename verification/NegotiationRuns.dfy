/** Any number of Push and Pull exchanges between a HOST and its PEERs, in every interleaving. */
module NegotiationRuns {
  import opened Protocol
  import opened Sequences
  import opened Transfer

  datatype Packet = Packet(from: nat, to: nat, header: Header)

  /** Who asked whom for what: a history of the requests, which no step reads. */
  datatype Exchange = Exchange(kind: TransferType, origin: nat, responder: nat)

  /** sites[0] is the HOST. The wire holds what is in flight between any two endpoints. */
  datatype System = System(sites: seq<Site>, wire: seq<Packet>, begun: seq<Exchange>)

  /** A packet may be taken from any position of the wire, so every first-in-first-out schedule of the
      channels is among the runs. `disk` and `unset` are what the endpoint finds when it responds. */
  datatype Action =
    | Begin(kind: TransferType, origin: nat, responder: nat, disk: Disk)
    | Deliver(i: nat, disk: Disk, unset: Unset)

  function Init(peers: nat): System {
    System(seq(peers + 1, _ => Site(0, [])), [], [])
  }

  /** send_file wants the file to exist, get_file wants it not to; one of the two ends is the HOST. */
  predicate CanBegin(s: System, a: Action)
    requires a.Begin?
  {
    && a.origin < |s.sites| && a.responder < |s.sites| && (a.origin == 0) != (a.responder == 0)
    && (a.disk.found <==> a.kind == Push)
  }

  function Step(fix: Repairs, s: System, a: Action): System {
    match a
    case Begin(kind, origin, responder, disk) =>
      if !CanBegin(s, a) then s else
        var site := s.sites[origin];
        var count := if origin == 0 then site.fileIDCount + 1 else site.fileIDCount;
        var id := if origin == 0 then FileID(count) else 0;
        var h := if kind == Push then Header(|s.begun|, Push, ResponseNone, id, disk.chunks, disk.size)
                 else Header(|s.begun|, Pull, ResponseNone, id, 0, 0);
        System(s.sites[origin := site.(fileIDCount := count)], s.wire + [Packet(origin, responder, h)],
               s.begun + [Exchange(kind, origin, responder)])
    case Deliver(i, disk, unset) =>
      if i >= |s.wire| || s.wire[i].to >= |s.sites| then s else
        var p := s.wire[i];
        var out := Respond(fix, s.sites[p.to], p.header, disk, unset);
        var rest := Without(s.wire, i);
        System(s.sites[p.to := out.site], if out.reply then rest + [Packet(p.to, p.from, out.header)] else rest, s.begun)
  }

  function Run(fix: Repairs, s: System, acts: seq<Action>): System
    decreases |acts|
  {
    if acts == [] then s else Run(fix, Step(fix, s, acts[0]), acts[1..])
  }

  // ----- what belongs to one exchange -----

  function OnWire(e: nat): Packet -> bool { (p: Packet) => p.header.exchange == e }

  function OnFile(e: nat): File -> bool { (f: File) => f.exchange == e }

  function Messages(s: System, e: nat): seq<Packet> { Only(s.wire, OnWire(e)) }

  function Records(s: System, k: nat, e: nat): seq<File>
    requires k < |s.sites|
  {
    Only(s.sites[k].files, OnFile(e))
  }

  /** The file records that a response adds: none or one, and it belongs to the header's exchange. */
  function Added(fix: Repairs, site: Site, h: Header, disk: Disk, unset: Unset): (fs: seq<File>)
    ensures Respond(fix, site, h, disk, unset).site.files == site.files + fs
    ensures |fs| <= 1 && forall f :: f in fs ==> f.exchange == h.exchange
    ensures Respond(fix, site, h, disk, unset).header.exchange == h.exchange
  {
    Respond(fix, site, h, disk, unset).site.files[|site.files|..]
  }

  // ----- the phases of one exchange -----

  predicate IsRecord(f: File, kind: TransferType, approver: bool, active: bool) {
    f.kind == kind && f.approver == approver && f.active == active
  }

  ghost predicate InFlight(fix: Repairs, x: Exchange, p: Packet, fo: seq<File>, fr: seq<File>) {
    var h := p.header;
    match h.code
    case ResponseNone =>
      p.from == x.origin && p.to == x.responder && h.kind == x.kind && fo == [] && fr == []
    case ResponseFileNotFound =>
      p.from == x.responder && p.to == x.origin && h.kind == x.kind == Pull && fo == [] && fr == []
    case ResponseFileExistsAlready =>
      p.from == x.responder && p.to == x.origin && h.kind == x.kind == Push && fo == [] && fr == []
    case ResponseApproved =>
      && p.from == x.responder && p.to == x.origin && fo == []
      && (x.kind == Pull ==> fr == [] && (fix.keepOnPack ==> h.kind == Pull))
      && (x.kind == Push ==>
            && h.kind == Push && |fr| == 1 && IsRecord(fr[0], Push, true, true)
            && fr[0].chunks == h.chunks && fr[0].size == h.size && (fix.idBeforeUnpack ==> fr[0].id == h.id))
    case ResponseConfirm =>
      && p.from == x.origin && p.to == x.responder && h.kind == x.kind == Pull && fr == []
      && |fo| == 1 && IsRecord(fo[0], Pull, false, true) && fo[0].id == h.id
      && fo[0].chunks == h.chunks && fo[0].size == h.size
    case _ => false
  }

  ghost predicate Settled(fix: Repairs, x: Exchange, fo: seq<File>, fr: seq<File>) {
    || (fo == [] && fr == [])
    || (&& x.kind == Pull && |fo| == 1 && |fr| == 1
        && IsRecord(fo[0], Pull, false, true) && fr[0].approver && fr[0].active
        && (fix.copyOnConfirm ==> fr[0].kind == Pull && fr[0].id == fo[0].id))
    || (&& x.kind == Pull && !fix.keepOnPack && fr == [] && |fo| == 1
        && IsRecord(fo[0], Push, false, fix.approveOrigin))
    || (&& x.kind == Push && |fo| == 1 && |fr| == 1
        && IsRecord(fo[0], Push, false, fix.approveOrigin) && IsRecord(fr[0], Push, true, true)
        && fo[0].chunks == fr[0].chunks && fo[0].size == fr[0].size
        && (fix.idBeforeUnpack ==> fo[0].id == fr[0].id))
  }

  ghost predicate Phase(fix: Repairs, x: Exchange, msgs: seq<Packet>, fo: seq<File>, fr: seq<File>) {
    if msgs == [] then Settled(fix, x, fo, fr) else |msgs| == 1 && InFlight(fix, x, msgs[0], fo, fr)
  }

  /** One response moves its exchange from one phase to the next. */
  lemma PhaseStep(fix: Repairs, x: Exchange, p: Packet, fo: seq<File>, fr: seq<File>, site: Site, disk: Disk, unset: Unset)
    requires x.origin != x.responder && InFlight(fix, x, p, fo, fr)
    ensures var out := Respond(fix, site, p.header, disk, unset);
      var more := Added(fix, site, p.header, disk, unset);
      Phase(fix, x, if out.reply then [Packet(p.to, p.from, out.header)] else [],
            if p.to == x.origin then fo + more else fo, if p.to == x.responder then fr + more else fr)
    ensures p.to == x.origin || p.to == x.responder
  {
  }

  ghost predicate Inv(fix: Repairs, s: System) {
    && (forall p :: p in s.wire ==> p.header.exchange < |s.begun|)
    && (forall k, f :: 0 <= k < |s.sites| && f in s.sites[k].files ==> f.exchange < |s.begun|)
    && (forall e :: 0 <= e < |s.begun| ==> ExchangeInv(fix, s, e))
  }

  ghost predicate ExchangeInv(fix: Repairs, s: System, e: nat)
    requires e < |s.begun|
  {
    var x := s.begun[e];
    && x.origin < |s.sites| && x.responder < |s.sites| && x.origin != x.responder
    && Phase(fix, x, Messages(s, e), Records(s, x.origin, e), Records(s, x.responder, e))
    && forall k :: 0 <= k < |s.sites| && k != x.origin && k != x.responder ==> Records(s, k, e) == []
  }

  ghost predicate Delivers(s: System, a: Action) {
    a.Deliver? && a.i < |s.wire| && s.wire[a.i].to < |s.sites|
  }

  lemma DeliverOtherWire(fix: Repairs, s: System, a: Action, e: nat)
    requires Delivers(s, a) && s.wire[a.i].header.exchange != e
    ensures Messages(Step(fix, s, a), e) == Messages(s, e)
  {
    hide Respond, Only;
    var p := s.wire[a.i];
    var out := Respond(fix, s.sites[p.to], p.header, a.disk, a.unset);
    var more := Added(fix, s.sites[p.to], p.header, a.disk, a.unset);
    OnlySplit(s.wire, a.i, OnWire(e));
    OnlyAppend(Without(s.wire, a.i), Packet(p.to, p.from, out.header), OnWire(e));
  }

  lemma DeliverOtherFiles(fix: Repairs, s: System, a: Action, e: nat)
    requires Delivers(s, a) && s.wire[a.i].header.exchange != e
    ensures forall k :: 0 <= k < |s.sites| ==> Records(Step(fix, s, a), k, e) == Records(s, k, e)
  {
    hide Respond, Only;
    var p := s.wire[a.i];
    var more := Added(fix, s.sites[p.to], p.header, a.disk, a.unset);
    OnlyNone(more, OnFile(e));
    OnlyConcat(s.sites[p.to].files, more, OnFile(e));
  }

  /** A delivery changes what belongs to the packet's own exchange and nothing else. */
  lemma DeliverOther(fix: Repairs, s: System, a: Action, e: nat)
    requires Delivers(s, a) && s.wire[a.i].header.exchange != e
    ensures Messages(Step(fix, s, a), e) == Messages(s, e)
    ensures forall k :: 0 <= k < |s.sites| ==> Records(Step(fix, s, a), k, e) == Records(s, k, e)
  {
    DeliverOtherWire(fix, s, a, e);
    DeliverOtherFiles(fix, s, a, e);
  }

  lemma DeliverOwnWire(fix: Repairs, s: System, a: Action)
    requires Delivers(s, a) && |Messages(s, s.wire[a.i].header.exchange)| == 1
    ensures var p := s.wire[a.i];
      var out := Respond(fix, s.sites[p.to], p.header, a.disk, a.unset);
      && Messages(s, p.header.exchange) == [p]
      && Messages(Step(fix, s, a), p.header.exchange) == if out.reply then [Packet(p.to, p.from, out.header)] else []
  {
    hide Respond;
    var p := s.wire[a.i];
    var e := p.header.exchange;
    var out := Respond(fix, s.sites[p.to], p.header, a.disk, a.unset);
    var more := Added(fix, s.sites[p.to], p.header, a.disk, a.unset);
    OnlySplit(s.wire, a.i, OnWire(e));
    OnlyAppend(Without(s.wire, a.i), Packet(p.to, p.from, out.header), OnWire(e));
  }

  lemma DeliverOwnFiles(fix: Repairs, s: System, a: Action, k: nat)
    requires Delivers(s, a) && k < |s.sites|
    ensures var p := s.wire[a.i]; var e := p.header.exchange;
      Records(Step(fix, s, a), k, e)
        == if k == p.to then Records(s, k, e) + Added(fix, s.sites[k], p.header, a.disk, a.unset) else Records(s, k, e)
  {
    hide Respond;
    var p := s.wire[a.i];
    if k == p.to {
      var more := Added(fix, s.sites[k], p.header, a.disk, a.unset);
      OnlyConcat(s.sites[k].files, more, OnFile(p.header.exchange));
      assert more == [] || more == [more[0]];
      assert Only(more, OnFile(p.header.exchange)) == more;
    }
  }

  /** No packet and no record of an exchange that was never begun appears. */
  lemma DeliverKeepsBegun(fix: Repairs, s: System, a: Action)
    requires Delivers(s, a)
    requires forall p :: p in s.wire ==> p.header.exchange < |s.begun|
    requires forall k, f :: 0 <= k < |s.sites| && f in s.sites[k].files ==> f.exchange < |s.begun|
    ensures var t := Step(fix, s, a);
      && (forall p :: p in t.wire ==> p.header.exchange < |t.begun|)
      && (forall k, f :: 0 <= k < |t.sites| && f in t.sites[k].files ==> f.exchange < |t.begun|)
  {
    hide Respond;
    var p := s.wire[a.i];
    assert p in s.wire;
    var more := Added(fix, s.sites[p.to], p.header, a.disk, a.unset);
    assert forall f :: f in more ==> f.exchange < |s.begun|;
  }

  lemma DeliverKeepsInv(fix: Repairs, s: System, a: Action)
    requires Inv(fix, s) && a.Deliver?
    ensures Inv(fix, Step(fix, s, a))
  {
    if Delivers(s, a) {
      DeliverKeepsBegun(fix, s, a);
      hide Respond, Only, Phase;
      var t := Step(fix, s, a);
      forall e | 0 <= e < |t.begun| ensures ExchangeInv(fix, t, e) {
        assert ExchangeInv(fix, s, e);
        if e == s.wire[a.i].header.exchange {
          DeliverOwnInv(fix, s, a);
        } else {
          DeliverOther(fix, s, a, e);
        }
      }
    }
  }

  lemma DeliverOwnInv(fix: Repairs, s: System, a: Action)
    requires Delivers(s, a) && s.wire[a.i].header.exchange < |s.begun|
    requires ExchangeInv(fix, s, s.wire[a.i].header.exchange)
    ensures ExchangeInv(fix, Step(fix, s, a), s.wire[a.i].header.exchange)
  {
    hide Respond, InFlight, Settled, Only;
    var p := s.wire[a.i];
    var e := p.header.exchange;
    var x := s.begun[e];
    OnlyMember(s.wire, OnWire(e), p);
    DeliverOwnWire(fix, s, a);
    forall k | 0 <= k < |s.sites| ensures
      Records(Step(fix, s, a), k, e)
        == if k == p.to then Records(s, k, e) + Added(fix, s.sites[k], p.header, a.disk, a.unset) else Records(s, k, e)
    {
      DeliverOwnFiles(fix, s, a, k);
    }
    PhaseStep(fix, x, p, Records(s, x.origin, e), Records(s, x.responder, e), s.sites[p.to], a.disk, a.unset);
  }

  lemma BeginKeepsInv(fix: Repairs, s: System, a: Action)
    requires Inv(fix, s) && a.Begin?
    ensures Inv(fix, Step(fix, s, a))
  {
    if CanBegin(s, a) {
      var t := Step(fix, s, a);
      forall e | 0 <= e < |t.begun| ensures ExchangeInv(fix, t, e) {
        if e < |s.begun| { BeginKeepsOld(fix, s, a, e); } else { BeginAddsNew(fix, s, a); }
      }
    }
  }

  lemma BeginKeepsOld(fix: Repairs, s: System, a: Action, e: nat)
    requires a.Begin? && CanBegin(s, a) && e < |s.begun| && ExchangeInv(fix, s, e)
    ensures ExchangeInv(fix, Step(fix, s, a), e)
  {
    hide Only, Phase;
    var t := Step(fix, s, a);
    OnlyAppend(s.wire, t.wire[|s.wire|], OnWire(e));
    assert forall k :: 0 <= k < |s.sites| ==> Records(t, k, e) == Records(s, k, e);
  }

  lemma BeginAddsNew(fix: Repairs, s: System, a: Action)
    requires a.Begin? && CanBegin(s, a)
    requires forall p :: p in s.wire ==> p.header.exchange < |s.begun|
    requires forall k, f :: 0 <= k < |s.sites| && f in s.sites[k].files ==> f.exchange < |s.begun|
    ensures ExchangeInv(fix, Step(fix, s, a), |s.begun|)
  {
    var t, e := Step(fix, s, a), |s.begun|;
    OnlyNone(s.wire, OnWire(e));
    OnlyAppend(s.wire, t.wire[|s.wire|], OnWire(e));
    forall k | 0 <= k < |s.sites| ensures Records(t, k, e) == [] {
      assert t.sites[k].files == s.sites[k].files;
      OnlyNone(s.sites[k].files, OnFile(e));
    }
  }

  lemma {:induction false} RunKeepsInv(fix: Repairs, s: System, acts: seq<Action>)
    requires Inv(fix, s)
    ensures Inv(fix, Run(fix, s, acts))
    decreases |acts|
  {
    if acts != [] {
      if acts[0].Begin? { BeginKeepsInv(fix, s, acts[0]); } else { DeliverKeepsInv(fix, s, acts[0]); }
      RunKeepsInv(fix, Step(fix, s, acts[0]), acts[1..]);
    }
  }

  // ----- the receiving side is always ready first -----

  ghost predicate ReceiverReady(s: System, k: nat, f: File) {
    exists l, g :: 0 <= l < |s.sites| && l != k && g in s.sites[l].files && g.exchange == f.exchange && g.Runs(Incoming)
  }

  ghost predicate IncomingFirst(s: System) {
    forall k, f :: 0 <= k < |s.sites| && f in s.sites[k].files && f.Runs(Outgoing) ==> ReceiverReady(s, k, f)
  }

  ghost predicate AlwaysIncomingFirst(fix: Repairs) {
    forall peers: nat, acts :: IncomingFirst(Run(fix, Init(peers), acts))
  }

  lemma InvMeansIncomingFirst(fix: Repairs, s: System)
    requires Inv(fix, s) && (fix.keepOnPack || !fix.approveOrigin)
    ensures IncomingFirst(s)
  {
    forall k, f | 0 <= k < |s.sites| && f in s.sites[k].files && f.Runs(Outgoing) ensures ReceiverReady(s, k, f) {
      PartnerIsReady(fix, s, k, f);
    }
  }

  /** In each phase of an exchange, a side that sends has a partner that receives. */
  lemma PhaseIsReady(fix: Repairs, x: Exchange, msgs: seq<Packet>, fo: seq<File>, fr: seq<File>)
    requires (fix.keepOnPack || !fix.approveOrigin) && Phase(fix, x, msgs, fo, fr)
    ensures forall f :: f in fo && f.Runs(Outgoing) ==> |fr| == 1 && fr[0].Runs(Incoming)
    ensures forall f :: f in fr && f.Runs(Outgoing) ==> |fo| == 1 && fo[0].Runs(Incoming)
  {
  }

  lemma PartnerIsReady(fix: Repairs, s: System, k: nat, f: File)
    requires fix.keepOnPack || !fix.approveOrigin
    requires k < |s.sites| && f in s.sites[k].files && f.Runs(Outgoing)
    requires f.exchange < |s.begun| && ExchangeInv(fix, s, f.exchange)
    ensures ReceiverReady(s, k, f)
  {
    hide Only, Phase, File.Runs;
    var e, x := f.exchange, s.begun[f.exchange];
    var fo, fr := Records(s, x.origin, e), Records(s, x.responder, e);
    PhaseIsReady(fix, x, Messages(s, e), fo, fr);
    OnlyMember(s.sites[k].files, OnFile(e), f);
    assert f in Records(s, k, e);
    if k == x.origin {
      OnlyMember(s.sites[x.responder].files, OnFile(e), fr[0]);
    } else {
      OnlyMember(s.sites[x.origin].files, OnFile(e), fo[0]);
    }
  }

  lemma Three(fix: Repairs, s: System, a: Action, b: Action, c: Action)
    ensures Run(fix, s, [a, b, c]) == Step(fix, Step(fix, Step(fix, s, a), b), c)
  {
    var s1 := Step(fix, s, a);
    var s2 := Step(fix, s1, b);
    assert [a, b, c][1..] == [b, c] && [b, c][1..] == [c] && [c][1..] == [];
    assert Run(fix, s, [a, b, c]) == Run(fix, s1, [b, c]);
    assert Run(fix, s1, [b, c]) == Run(fix, s2, [c]);
    assert Run(fix, s2, [c]) == Run(fix, Step(fix, s2, c), []);
  }

  const MISREAD_PULL: seq<Action> := [
    Begin(Pull, 1, 0, Disk(false, 0, 0)),
    Deliver(0, Disk(true, 3, 99), Unset(7, Push)),
    Deliver(0, Disk(true, 3, 99), Unset(7, Push))]

  /** The request of exchange 0, a pull by the only PEER, and the overwritten answer. */
  function PullAsked(): System {
    System([Site(0, []), Site(0, [])], [Packet(1, 0, Header(0, Pull, ResponseNone, 0, 0, 0))], [Exchange(Pull, 1, 0)])
  }

  function PullMispacked(): System {
    System([Site(1, []), Site(0, [])], [Packet(0, 1, Header(0, Push, ResponseApproved, 7, 3, 99))], [Exchange(Pull, 1, 0)])
  }

  function PullMisread(fix: Repairs): System {
    System([Site(1, []), Site(0, [File(0, 7, Push, false, fix.approveOrigin, fix.approveOrigin, 3, 99)])],
           [], [Exchange(Pull, 1, 0)])
  }

  lemma AskPull(fix: Repairs)
    ensures Step(fix, Init(1), MISREAD_PULL[0]) == PullAsked()
  {
  }

  lemma MispackPull(fix: Repairs)
    requires !fix.keepOnPack
    ensures Step(fix, PullAsked(), MISREAD_PULL[1]) == PullMispacked()
  {
  }

  lemma TakeMispacked(fix: Repairs)
    ensures Step(fix, PullMispacked(), MISREAD_PULL[2]) == PullMisread(fix)
  {
    var f := File(0, 7, Push, false, fix.approveOrigin, fix.approveOrigin, 3, 99);
    assert Site(0, [] + [f]) == Site(0, [f]);
  }

  /** When packing overwrites the header, a Pull approval can come back as a push approval: the puller then
      holds the only record of the exchange, as the sender. */
  lemma MisreadPull(fix: Repairs)
    requires !fix.keepOnPack
    ensures Run(fix, Init(1), MISREAD_PULL) == PullMisread(fix)
  {
    Three(fix, Init(1), MISREAD_PULL[0], MISREAD_PULL[1], MISREAD_PULL[2]);
    hide Step, Run, Init;
    AskPull(fix);
    MispackPull(fix);
    TakeMispacked(fix);
  }

  /** In every run the OUTGOING side of a transfer starts only after the INCOMING side has started,
      exactly when a Pull approval keeps its type or a pushing side never starts at all.
      The code as written is on the second side of that "or". */
  lemma IncomingIsAlwaysFirst(fix: Repairs)
    ensures AlwaysIncomingFirst(fix) <==> fix.keepOnPack || !fix.approveOrigin
  {
    if fix.keepOnPack || !fix.approveOrigin {
      forall peers: nat, acts ensures IncomingFirst(Run(fix, Init(peers), acts)) {
        RunKeepsInv(fix, Init(peers), acts);
        InvMeansIncomingFirst(fix, Run(fix, Init(peers), acts));
      }
    } else {
      MisreadPull(fix);
      var s := Run(fix, Init(1), MISREAD_PULL);
      var f := s.sites[1].files[0];
      assert f in s.sites[1].files && f.Runs(Outgoing);
      assert !ReceiverReady(s, 1, f);
    }
  }
}
