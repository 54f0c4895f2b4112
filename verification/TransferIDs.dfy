/** Which ids the records of the exchanges get. */
module TransferIDs {
  import opened Protocol
  import opened Sequences
  import opened Transfer
  import opened NegotiationRuns
  import opened NegotiationAgreement

  predicate IDRepairs(fix: Repairs) { fix.idBeforeUnpack && fix.keepOnPack && fix.copyOnConfirm }

  /** own[i] is the exchange that was given the id i + 1. */
  ghost predicate Owns(own: seq<nat>, e: nat, id: nat) {
    1 <= id <= |own| && own[id - 1] == e
  }

  ghost predicate Distinct(own: seq<nat>) {
    forall i, j :: 0 <= i < j < |own| ==> own[i] != own[j]
  }

  ghost predicate PacketID(own: seq<nat>, p: Packet) {
    var e, id := p.header.exchange, p.header.id;
    && (id != 0 ==> Owns(own, e, id))
    && (id == 0 ==> p.header.code in {ResponseNone, ResponseFileNotFound, ResponseFileExistsAlready})
    && (p.header.code == ResponseNone ==> (id == 0 <==> p.to == 0))
    && (p.header.code == ResponseNone && id == 0 ==> e !in own)
  }

  /** A push that a PEER asked for: as written, the HOST's record of it keeps the id 0 of the request. */
  predicate FromPeer(x: Exchange) { x.kind == Push && x.origin != 0 }

  ghost predicate RecordID(fix: Repairs, own: seq<nat>, begun: seq<Exchange>, k: nat, f: File) {
    f.exchange < |begun|
    && if !fix.idBeforeUnpack && k == 0 && FromPeer(begun[f.exchange]) then f.id == 0 else Owns(own, f.exchange, f.id)
  }

  /** Either pulls keep their ids, or there are none. */
  ghost predicate PullsAreRight(fix: Repairs, begun: seq<Exchange>) {
    (fix.keepOnPack && fix.copyOnConfirm) || forall x :: x in begun ==> x.kind == Push
  }

  ghost predicate IDInv(fix: Repairs, s: System, own: seq<nat>) {
    && (forall x :: x in s.begun ==> (x.origin == 0) != (x.responder == 0))
    && s.sites != [] && s.sites[0].fileIDCount == |own| && Distinct(own)
    && (forall e :: e in own ==> e < |s.begun|)
    && (forall k :: 1 <= k < |s.sites| ==> s.sites[k].fileIDCount == 0)
    && (forall p :: p in s.wire ==> PacketID(own, p))
    && (forall k, f :: 0 <= k < |s.sites| && f in s.sites[k].files ==> RecordID(fix, own, s.begun, k, f))
  }

  lemma {:induction false} DistinctBelow(own: seq<nat>, n: nat)
    requires Distinct(own) && forall e :: e in own ==> e < n
    ensures |own| <= n
    decreases n
  {
    if own != [] {
      assert own[0] in own;
      if n - 1 in own {
        var i :| 0 <= i < |own| && own[i] == n - 1;
        var rest := Without(own, i);
        assert forall e :: e in rest ==> e in own && e != n - 1;
        DistinctBelow(rest, n - 1);
      } else {
        DistinctBelow(own, n - 1);
      }
    }
  }

  lemma OwnsMore(own: seq<nat>, e: nat)
    requires Distinct(own) && e !in own
    ensures Distinct(own + [e]) && Owns(own + [e], e, |own| + 1)
    ensures forall d, id :: Owns(own, d, id) ==> Owns(own + [e], d, id)
    ensures forall d :: d in own + [e] <==> d in own || d == e
  {
  }

  lemma RecordsStay(fix: Repairs, s: System, own: seq<nat>, t: System, after: seq<nat>, k: nat)
    requires IDInv(fix, s, own) && k < |s.sites| && s.begun <= t.begun
    requires forall d, id :: Owns(own, d, id) ==> Owns(after, d, id)
    ensures forall f :: f in s.sites[k].files ==> RecordID(fix, after, t.begun, k, f)
  {
  }

  lemma BeginIDs(fix: Repairs, s: System, own: seq<nat>, a: Action) returns (after: seq<nat>)
    requires Inv(fix, s) && IDInv(fix, s, own) && a.Begin? && |Step(fix, s, a).begun| <= 0xFFFF
    ensures IDInv(fix, Step(fix, s, a), after)
  {
    after := own;
    if CanBegin(s, a) {
      var t := Step(fix, s, a);
      if a.origin == 0 {
        after := own + [|s.begun|];
        OwnsMore(own, |s.begun|);
        DistinctBelow(after, |t.begun|);
      }
      forall k | 0 <= k < |s.sites| ensures forall f :: f in t.sites[k].files ==> RecordID(fix, after, t.begun, k, f) {
        assert t.sites[k].files == s.sites[k].files;
        RecordsStay(fix, s, own, t, after, k);
      }
      forall p | p in t.wire ensures PacketID(after, p) {
        if p in s.wire { assert PacketID(own, p); }
      }
    }
  }

  /** After the packet is gone no other packet of its exchange is left. */
  lemma LastOfItsExchange(fix: Repairs, s: System, i: nat, p: Packet)
    requires Inv(fix, s) && i < |s.wire| && p in Without(s.wire, i)
    ensures p in s.wire && p.header.exchange != s.wire[i].header.exchange
  {
    var e := s.wire[i].header.exchange;
    if p.header.exchange == e {
      assert ExchangeInv(fix, s, e);
      OnlyMember(s.wire, OnWire(e), s.wire[i]);
      OnlySplit(s.wire, i, OnWire(e));
      OnlyMember(Without(s.wire, i), OnWire(e), p);
    }
  }

  lemma DeliverIDs(fix: Repairs, s: System, own: seq<nat>, a: Action) returns (after: seq<nat>)
    requires Inv(fix, s) && IDInv(fix, s, own) && a.Deliver? && |s.begun| <= 0xFFFF && PullsAreRight(fix, s.begun)
    ensures IDInv(fix, Step(fix, s, a), after)
  {
    after := own;
    if Delivers(s, a) {
      var p := s.wire[a.i];
      var out := Respond(fix, s.sites[p.to], p.header, a.disk, a.unset);
      assert PacketID(own, p);
      if out.site.fileIDCount != s.sites[p.to].fileIDCount {
        after := own + [p.header.exchange];
        OwnsMore(own, p.header.exchange);
      }
      DistinctBelow(after, |s.begun|);
      ResponseIDs(fix, s, own, after, a);
      DeliverIDsHold(fix, s, own, after, a);
    }
  }

  lemma DeliverIDsHold(fix: Repairs, s: System, own: seq<nat>, after: seq<nat>, a: Action)
    requires Inv(fix, s) && IDInv(fix, s, own) && Delivers(s, a)
    requires var p := s.wire[a.i]; var out := Respond(fix, s.sites[p.to], p.header, a.disk, a.unset);
      && (after == if out.site.fileIDCount != s.sites[p.to].fileIDCount then own + [p.header.exchange] else own)
      && (out.reply ==> PacketID(after, Packet(p.to, p.from, out.header)))
      && forall f :: f in Added(fix, s.sites[p.to], p.header, a.disk, a.unset) ==> RecordID(fix, after, s.begun, p.to, f)
    requires Distinct(after)
    ensures IDInv(fix, Step(fix, s, a), after)
  {
    var t, p := Step(fix, s, a), s.wire[a.i];
    assert PacketID(own, p);
    assert forall d, id :: Owns(own, d, id) ==> Owns(after, d, id);
    forall q | q in t.wire ensures PacketID(after, q) {
      if q in Without(s.wire, a.i) {
        LastOfItsExchange(fix, s, a.i, q);
        assert PacketID(own, q);
      }
    }
    forall k | 0 <= k < |t.sites| ensures forall f :: f in t.sites[k].files ==> RecordID(fix, after, t.begun, k, f) {
      RecordsStay(fix, s, own, t, after, k);
    }
  }

  /** What is in flight and in which exchange, as far as the ids need it. */
  lemma PacketKind(fix: Repairs, s: System, p: Packet)
    requires Inv(fix, s) && p in s.wire && PullsAreRight(fix, s.begun)
    ensures p.header.exchange < |s.begun|
    ensures var x := s.begun[p.header.exchange];
      && (x.kind == Pull ==> fix.keepOnPack && fix.copyOnConfirm)
      && (p.header.code in {ResponseNone, ResponseApproved, ResponseConfirm} ==> p.header.kind == x.kind)
      && (p.header.code in {ResponseNone, ResponseConfirm} ==> p.to == x.responder)
      && (p.header.code == ResponseApproved ==> p.to == x.origin)
      && (p.header.code == ResponseConfirm ==> x.kind == Pull)
  {
    hide Only;
    var e := p.header.exchange;
    assert ExchangeInv(fix, s, e);
    MessageOfItsOwn(s, p);
    assert s.begun[e] in s.begun;
  }

  lemma ResponseIDs(fix: Repairs, s: System, own: seq<nat>, after: seq<nat>, a: Action)
    requires Inv(fix, s) && IDInv(fix, s, own) && PullsAreRight(fix, s.begun) && Delivers(s, a)
    requires var p := s.wire[a.i]; var out := Respond(fix, s.sites[p.to], p.header, a.disk, a.unset);
      && PacketID(own, p)
      && after == (if out.site.fileIDCount != s.sites[p.to].fileIDCount then own + [p.header.exchange] else own)
    requires |after| <= 0xFFFF
    ensures var p := s.wire[a.i]; var out := Respond(fix, s.sites[p.to], p.header, a.disk, a.unset);
      && (out.reply ==> PacketID(after, Packet(p.to, p.from, out.header)))
      && forall f :: f in Added(fix, s.sites[p.to], p.header, a.disk, a.unset) ==> RecordID(fix, after, s.begun, p.to, f)
  {
    var p := s.wire[a.i];
    PacketKind(fix, s, p);
    var x := s.begun[p.header.exchange];
    assert x in s.begun && (x.origin == 0) != (x.responder == 0);
    assert s.sites[0].fileIDCount == |own|;
    hide Inv, IDInv;
    OneResponseID(fix, s.sites[p.to], x, own, after, p, s.begun, a.disk, a.unset);
  }

  lemma OneResponseID(fix: Repairs, site: Site, x: Exchange, own: seq<nat>, after: seq<nat>, p: Packet,
                      begun: seq<Exchange>, disk: Disk, unset: Unset)
    requires p.header.exchange < |begun| && begun[p.header.exchange] == x && (x.origin == 0) != (x.responder == 0)
    requires p.to == 0 ==> site.fileIDCount == |own|
    requires PacketID(own, p) && |after| <= 0xFFFF
    requires x.kind == Pull ==> fix.keepOnPack && fix.copyOnConfirm
    requires p.header.code in {ResponseNone, ResponseApproved, ResponseConfirm} ==> p.header.kind == x.kind
    requires p.header.code in {ResponseNone, ResponseConfirm} ==> p.to == x.responder
    requires p.header.code == ResponseApproved ==> p.to == x.origin
    requires p.header.code == ResponseConfirm ==> x.kind == Pull
    requires var out := Respond(fix, site, p.header, disk, unset);
      after == if out.site.fileIDCount != site.fileIDCount then own + [p.header.exchange] else own
    ensures var out := Respond(fix, site, p.header, disk, unset);
      && (out.reply ==> PacketID(after, Packet(p.to, p.from, out.header)))
      && forall f :: f in Added(fix, site, p.header, disk, unset) ==> RecordID(fix, after, begun, p.to, f)
  {
    assert forall d, id :: Owns(own, d, id) ==> Owns(after, d, id);
  }

  lemma {:induction false} RunIDs(fix: Repairs, s: System, own: seq<nat>, acts: seq<Action>) returns (after: seq<nat>)
    requires Inv(fix, s) && IDInv(fix, s, own) && |Run(fix, s, acts).begun| <= 0xFFFF
    requires PullsAreRight(fix, Run(fix, s, acts).begun)
    ensures IDInv(fix, Run(fix, s, acts), after)
    decreases |acts|
  {
    hide Inv, IDInv, Step;
    if acts == [] {
      after := own;
    } else {
      var t := Step(fix, s, acts[0]);
      BegunGrows(fix, t, acts[1..]);
      BegunGrows(fix, s, acts);
      if acts[0].Begin? {
        after := BeginIDs(fix, s, own, acts[0]);
        BeginKeepsInv(fix, s, acts[0]);
      } else {
        after := DeliverIDs(fix, s, own, acts[0]);
        DeliverKeepsInv(fix, s, acts[0]);
      }
      after := RunIDs(fix, t, after, acts[1..]);
    }
  }

  lemma {:induction false} BegunGrows(fix: Repairs, s: System, acts: seq<Action>)
    ensures s.begun <= Run(fix, s, acts).begun
    decreases |acts|
  {
    if acts != [] { BegunGrows(fix, Step(fix, s, acts[0]), acts[1..]); }
  }

  /** Every record has a nonzero id from the HOST's counter, and two records share an id exactly when they
      belong to one exchange. */
  ghost predicate IDsAreUnique(s: System) {
    && s.sites != []
    && (forall k, f :: 0 <= k < |s.sites| && f in s.sites[k].files ==> 0 < f.id <= s.sites[0].fileIDCount)
    && (forall k, f, l, g :: 0 <= k < |s.sites| && f in s.sites[k].files && 0 <= l < |s.sites| && g in s.sites[l].files
          ==> (f.id == g.id <==> f.exchange == g.exchange))
    && (forall k :: 1 <= k < |s.sites| ==> s.sites[k].fileIDCount == 0)
    && s.sites[0].fileIDCount <= |s.begun|
  }

  ghost predicate AlwaysUnique(fix: Repairs) {
    forall peers: nat, acts :: FewRequests(fix, peers, acts) ==> IDsAreUnique(Run(fix, Init(peers), acts))
  }

  predicate FewRequests(fix: Repairs, peers: nat, acts: seq<Action>) {
    |Run(fix, Init(peers), acts).begun| <= 0xFFFF
  }

  /** The HOST holds a record of a push that a PEER asked for. */
  ghost predicate HoldsPeerPush(s: System) {
    s.sites != [] && exists f :: f in s.sites[0].files && f.exchange < |s.begun| && FromPeer(s.begun[f.exchange])
  }

  lemma IDsOfInv(fix: Repairs, s: System, own: seq<nat>)
    requires IDInv(fix, s, own)
    ensures IDsAreUnique(s) <==> fix.idBeforeUnpack || !HoldsPeerPush(s)
  {
    DistinctBelow(own, |s.begun|);
    if fix.idBeforeUnpack || !HoldsPeerPush(s) {
      forall k, f | 0 <= k < |s.sites| && f in s.sites[k].files ensures Owns(own, f.exchange, f.id) {
        assert RecordID(fix, own, s.begun, k, f);
      }
    } else {
      var f :| f in s.sites[0].files && f.exchange < |s.begun| && FromPeer(s.begun[f.exchange]);
      assert RecordID(fix, own, s.begun, 0, f);
    }
  }

  lemma InitIDs(fix: Repairs, peers: nat)
    ensures IDInv(fix, Init(peers), [])
  {
  }

  /** In a run of at most 65535 requests without pulls, or with the two repairs of pulls: the ids are unique
      exactly when the new file takes the new id, or no push that a PEER asked for was recorded. For pushes
      this is the condition that the text needs. */
  lemma UniqueExactly(fix: Repairs, peers: nat, acts: seq<Action>)
    requires FewRequests(fix, peers, acts) && PullsAreRight(fix, Run(fix, Init(peers), acts).begun)
    ensures var s := Run(fix, Init(peers), acts);
      IDsAreUnique(s) <==> fix.idBeforeUnpack || !HoldsPeerPush(s)
  {
    hide IDInv, IDsAreUnique;
    InitIDs(fix, peers);
    var own := RunIDs(fix, Init(peers), [], acts);
    IDsOfInv(fix, Run(fix, Init(peers), acts), own);
  }

  lemma RunIDsAreUnique(fix: Repairs, peers: nat, acts: seq<Action>)
    requires IDRepairs(fix) && FewRequests(fix, peers, acts)
    ensures IDsAreUnique(Run(fix, Init(peers), acts))
  {
    UniqueExactly(fix, peers, acts);
  }

  /** One file record with an id that the HOST has not given out. */
  lemma StrayID(fix: Repairs, run: seq<Action>, k: nat)
    requires var s := Run(fix, Init(1), run);
      && |s.begun| == 1 && k < |s.sites| && |s.sites[k].files| == 1
      && (s.sites[k].files[0].id == 0 || s.sites[k].files[0].id > s.sites[0].fileIDCount)
    ensures !AlwaysUnique(fix)
  {
    var s := Run(fix, Init(1), run);
    assert s.sites[k].files[0] in s.sites[k].files;
    assert FewRequests(fix, 1, run) && !IDsAreUnique(s);
  }

  /** In every run of no more than 65535 requests the ids are unique, exactly with these three repairs. */
  lemma TransferIDsAreUnique(fix: Repairs)
    ensures AlwaysUnique(fix) <==> IDRepairs(fix)
  {
    if IDRepairs(fix) {
      forall peers: nat, acts | FewRequests(fix, peers, acts) ensures IDsAreUnique(Run(fix, Init(peers), acts)) {
        RunIDsAreUnique(fix, peers, acts);
      }
    } else if !fix.idBeforeUnpack {
      PushRun(fix);
      StrayID(fix, PUSH_RUN, 0);
    } else if !fix.keepOnPack {
      MisreadPull(fix);
      StrayID(fix, MISREAD_PULL, 1);
    } else {
      PullRun(fix);
      StrayID(fix, PULL_RUN + [PULL_CONFIRM], 0);
    }
  }

  /** So the files of one endpoint have ids that are all different. */
  lemma EndpointIDsAreDistinct(fix: Repairs, peers: nat, acts: seq<Action>, k: nat)
    requires IDRepairs(fix) && FewRequests(fix, peers, acts)
    requires k < |Run(fix, Init(peers), acts).sites|
    ensures var files := Run(fix, Init(peers), acts).sites[k].files;
      forall i, j :: 0 <= i < j < |files| ==> files[i].id != files[j].id
  {
    var s := Run(fix, Init(peers), acts);
    RunIDsAreUnique(fix, peers, acts);
    RunKeepsInv(fix, Init(peers), acts);
    var files := s.sites[k].files;
    forall i, j | 0 <= i < j < |files| ensures files[i].id != files[j].id {
      if files[i].exchange == files[j].exchange {
        assert ExchangeInv(fix, s, files[i].exchange);
        OneRecordEach(fix, s, k, i, j);
      }
      assert files[i] in files && files[j] in files;
    }
  }

  lemma OneRecordEach(fix: Repairs, s: System, k: nat, i: nat, j: nat)
    requires k < |s.sites| && i < j < |s.sites[k].files|
    requires var e := s.sites[k].files[i].exchange; e < |s.begun| && ExchangeInv(fix, s, e)
    ensures s.sites[k].files[i].exchange != s.sites[k].files[j].exchange
  {
    var e := s.sites[k].files[i].exchange;
    var x := s.begun[e];
    assert |Records(s, k, e)| <= 1 by {
      assert |Records(s, x.origin, e)| <= 1 && |Records(s, x.responder, e)| <= 1;
    }
    if s.sites[k].files[j].exchange == e { TwoRecords(s.sites[k].files, i, j); }
  }

  lemma TwoRecords(files: seq<File>, i: nat, j: nat)
    requires i < j < |files| && files[i].exchange == files[j].exchange
    ensures |Only(files, OnFile(files[i].exchange))| >= 2
  {
    var own := OnFile(files[i].exchange);
    OnlySplit(files, j, own);
    assert files[..j][i] == files[i];
    OnlyMember(files[..j], own, files[i]);
    assert |Only(files[..j], own)| >= 1;
  }
}
