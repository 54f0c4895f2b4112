/** How each push ends, from what the responder finds when the request comes in. */
module PushOutcome {
  import opened Protocol
  import opened Sequences
  import opened Transfer
  import opened NegotiationRuns
  import opened NegotiationAgreement

  ghost predicate IsPush(s: System, e: nat) { e < |s.begun| && s.begun[e].kind == Push }

  /** The responder has refused: nobody holds a record, and the refusal may still be on its way. */
  ghost predicate Refused(s: System, e: nat) {
    NoRecord(s, e) && |Messages(s, e)| <= 1 && forall p :: p in Messages(s, e) ==> p.header.code == ResponseFileExistsAlready
  }

  /** The responder has approved; `good` foretells whether the two records will agree. */
  ghost predicate Recorded(fix: Repairs, s: System, e: nat, good: bool)
    requires e < |s.begun|
  {
    var x, msgs := s.begun[e], Messages(s, e);
    && !NoRecord(s, e)
    && if msgs == [] then Agreed(s, e) <==> good
       else
         && |msgs| == 1 && msgs[0].header.code == ResponseApproved
         && x.responder < |s.sites| && |Records(s, x.responder, e)| == 1
         && (good <==> fix.approveOrigin && Records(s, x.responder, e)[0].id == msgs[0].header.id)
  }

  /** Whether the pusher's file is started and has the id of the responder's. */
  predicate Good(fix: Repairs, site: Site, h: Header) {
    fix.approveOrigin && (fix.idBeforeUnpack || h.id != 0 || FileID(site.fileIDCount + 1) == 0)
  }

  lemma SameExchange(fix: Repairs, s: System, t: System, e: nat, good: bool)
    requires IsPush(s, e) && IsPush(t, e) && s.begun[e] == t.begun[e] && |s.sites| == |t.sites|
    requires Messages(t, e) == Messages(s, e)
    requires forall k :: 0 <= k < |s.sites| ==> Records(t, k, e) == Records(s, k, e)
    ensures Refused(s, e) ==> Refused(t, e)
    ensures Recorded(fix, s, e, good) ==> Recorded(fix, t, e, good)
  {
  }

  lemma BeginIsOther(fix: Repairs, s: System, a: Action, e: nat)
    requires a.Begin? && e < |s.begun|
    ensures var t := Step(fix, s, a);
      && |t.sites| == |s.sites| && Messages(t, e) == Messages(s, e)
      && forall k :: 0 <= k < |s.sites| ==> Records(t, k, e) == Records(s, k, e)
  {
    if CanBegin(s, a) {
      var t := Step(fix, s, a);
      OnlyAppend(s.wire, t.wire[|s.wire|], OnWire(e));
      assert forall k :: 0 <= k < |s.sites| ==> t.sites[k].files == s.sites[k].files;
    }
  }

  /** What the delivery of a packet does to its own exchange. */
  lemma OwnDelivery(fix: Repairs, s: System, a: Action)
    requires Inv(fix, s) && Delivers(s, a)
    ensures var p, t := s.wire[a.i], Step(fix, s, a); var e := p.header.exchange;
      var out := Respond(fix, s.sites[p.to], p.header, a.disk, a.unset);
      && e < |s.begun| && ExchangeInv(fix, s, e) && Messages(s, e) == [p]
      && Messages(t, e) == (if out.reply then [Packet(p.to, p.from, out.header)] else [])
      && forall k :: 0 <= k < |s.sites| ==>
           Records(t, k, e) == Records(s, k, e) + if k == p.to then Added(fix, s.sites[k], p.header, a.disk, a.unset) else []
  {
    hide Only, OnFile, OnWire, Respond;
    var p, t := s.wire[a.i], Step(fix, s, a);
    var e := p.header.exchange;
    assert ExchangeInv(fix, s, e);
    MessageOfItsOwn(s, p);
    DeliverOwnWire(fix, s, a);
    forall k | 0 <= k < |s.sites| ensures
      Records(t, k, e) == if k == p.to then Records(s, k, e) + Added(fix, s.sites[k], p.header, a.disk, a.unset) else Records(s, k, e)
    {
      DeliverOwnFiles(fix, s, a, k);
    }
  }

  lemma RefusalIsTaken(fix: Repairs, s: System, a: Action)
    requires Inv(fix, s) && Delivers(s, a) && Refused(s, s.wire[a.i].header.exchange)
    ensures Refused(Step(fix, s, a), s.wire[a.i].header.exchange)
  {
    hide Only, OnFile, OnWire;
    OwnDelivery(fix, s, a);
    var p := s.wire[a.i];
    assert p in Messages(s, p.header.exchange);
    assert Added(fix, s.sites[p.to], p.header, a.disk, a.unset) == [];
  }

  /** What the taking of an approval adds to a push, and that nothing follows. */
  lemma ApprovalResponse(fix: Repairs, site: Site, h: Header, disk: Disk, unset: Unset)
    requires h.kind == Push && h.code == ResponseApproved
    ensures !Respond(fix, site, h, disk, unset).reply
    ensures Added(fix, site, h, disk, unset)
         == [NewFile(h.exchange, h.id, Push, false, fix.approveOrigin, h.chunks, h.size)]
  {
  }

  lemma ApprovalIsTaken(fix: Repairs, s: System, a: Action, good: bool)
    requires Inv(fix, s) && Delivers(s, a)
    requires var e := s.wire[a.i].header.exchange; IsPush(s, e) && Recorded(fix, s, e, good)
    ensures var e := s.wire[a.i].header.exchange; IsPush(Step(fix, s, a), e) && Recorded(fix, Step(fix, s, a), e, good)
  {
    hide Only, OnFile, OnWire, Respond, Added, Messages, Records, Settled;
    OwnDelivery(fix, s, a);
    var p, t := s.wire[a.i], Step(fix, s, a);
    var e := p.header.exchange;
    var x := s.begun[e];
    ApprovalResponse(fix, s.sites[p.to], p.header, a.disk, a.unset);
    assert Records(t, x.responder, e) == Records(s, x.responder, e);
  }

  /** The answer to the request of a push, and the record that goes with it. */
  lemma RequestResponse(fix: Repairs, site: Site, h: Header, disk: Disk, unset: Unset)
    requires h.kind == Push && h.code == ResponseNone
    ensures var out, more := Respond(fix, site, h, disk, unset), Added(fix, site, h, disk, unset);
      && out.reply
      && (disk.found ==> out.header.code == ResponseFileExistsAlready && more == [])
      && (!disk.found ==> out.header.code == ResponseApproved && |more| == 1)
      && (!disk.found ==> (Good(fix, site, h) <==> fix.approveOrigin && more[0].id == out.header.id))
  {
  }

  /** The request itself: refused if the file is there, and recorded if it is not. */
  lemma RequestIsTaken(fix: Repairs, s: System, a: Action)
    requires Inv(fix, s) && Delivers(s, a)
    requires s.wire[a.i].header.kind == Push && s.wire[a.i].header.code == ResponseNone
    ensures var p, t := s.wire[a.i], Step(fix, s, a); var e := p.header.exchange;
      && IsPush(t, e)
      && (if a.disk.found then Refused(t, e) else Recorded(fix, t, e, Good(fix, s.sites[p.to], p.header)))
  {
    hide Only, OnFile, OnWire, Respond, Added, Good, Messages, Records, Settled;
    OwnDelivery(fix, s, a);
    var p, t := s.wire[a.i], Step(fix, s, a);
    RequestResponse(fix, s.sites[p.to], p.header, a.disk, a.unset);
    if !a.disk.found { assert Records(t, p.to, p.header.exchange) != []; }
  }

  lemma StepStays(fix: Repairs, s: System, a: Action, e: nat, good: bool)
    requires Inv(fix, s) && IsPush(s, e)
    ensures IsPush(Step(fix, s, a), e)
    ensures Refused(s, e) ==> Refused(Step(fix, s, a), e)
    ensures Recorded(fix, s, e, good) ==> Recorded(fix, Step(fix, s, a), e, good)
  {
    hide Refused, Recorded, Respond;
    BegunStays(fix, s, a, e);
    if a.Begin? {
      BeginIsOther(fix, s, a, e);
      SameExchange(fix, s, Step(fix, s, a), e, good);
    } else if Delivers(s, a) {
      if s.wire[a.i].header.exchange != e {
        DeliverOther(fix, s, a, e);
        SameExchange(fix, s, Step(fix, s, a), e, good);
      } else {
        if Refused(s, e) { RefusalIsTaken(fix, s, a); }
        if Recorded(fix, s, e, good) { ApprovalIsTaken(fix, s, a, good); }
      }
    }
  }

  lemma {:induction false} RunStays(fix: Repairs, s: System, acts: seq<Action>, e: nat, good: bool)
    requires Inv(fix, s) && IsPush(s, e)
    ensures IsPush(Run(fix, s, acts), e)
    ensures Refused(s, e) ==> Refused(Run(fix, s, acts), e)
    ensures Recorded(fix, s, e, good) ==> Recorded(fix, Run(fix, s, acts), e, good)
    decreases |acts|
  {
    hide Refused, Recorded, Step, Inv;
    if acts != [] {
      StepStays(fix, s, acts[0], e, good);
      if acts[0].Begin? { BeginKeepsInv(fix, s, acts[0]); } else { DeliverKeepsInv(fix, s, acts[0]); }
      RunStays(fix, Step(fix, s, acts[0]), acts[1..], e, good);
    }
  }

  /** For every choice of repairs, and whatever happens after the request of a push has been taken: once the
      push is over, nobody holds a record of it exactly when the responder had the file already, and the two
      records agree exactly when it had not, the pusher's file is approved, and the responder's file carries
      the id of the answer. */
  lemma PushEnds(fix: Repairs, peers: nat, acts: seq<Action>, a: Action, more: seq<Action>)
    requires var s := Run(fix, Init(peers), acts);
      Delivers(s, a) && s.wire[a.i].header.kind == Push && s.wire[a.i].header.code == ResponseNone
    ensures var s := Run(fix, Init(peers), acts);
      var t, p := Run(fix, Step(fix, s, a), more), s.wire[a.i];
      var e := p.header.exchange;
      && e < |t.begun|
      && (Messages(t, e) == [] ==>
            && (NoRecord(t, e) <==> a.disk.found)
            && (Agreed(t, e) <==> !a.disk.found && Good(fix, s.sites[p.to], p.header)))
  {
    hide Inv, Step;
    RunKeepsInv(fix, Init(peers), acts);
    var s := Run(fix, Init(peers), acts);
    var p := s.wire[a.i];
    var good := Good(fix, s.sites[p.to], p.header);
    RequestIsTaken(fix, s, a);
    DeliverKeepsInv(fix, s, a);
    RunStays(fix, Step(fix, s, a), more, p.header.exchange, good);
  }

  /** As written a pushing side is never approved: a push that is over has ended well, in agreement or without
      a record, exactly when the responder had the file already. */
  lemma UnapprovedPush(fix: Repairs, peers: nat, acts: seq<Action>, a: Action, more: seq<Action>)
    requires !fix.approveOrigin
    requires var s := Run(fix, Init(peers), acts);
      Delivers(s, a) && s.wire[a.i].header.kind == Push && s.wire[a.i].header.code == ResponseNone
    ensures var s := Run(fix, Init(peers), acts);
      var t, e := Run(fix, Step(fix, s, a), more), s.wire[a.i].header.exchange;
      e < |t.begun| && (Messages(t, e) == [] ==> (Agreed(t, e) || NoRecord(t, e) <==> a.disk.found))
  {
    PushEnds(fix, peers, acts, a, more);
  }

  // ----- the request, and the numbers it carries -----

  /** What send_file and get_file accept: one of the two ends is the HOST, and the file exists at the origin to
      be pushed and does not exist there to be pulled. */
  predicate MayAsk(s: System, a: Action)
    requires a.Begin?
  {
    && a.origin < |s.sites| && a.responder < |s.sites|
    && ((a.origin == 0 && a.responder != 0) || (a.origin != 0 && a.responder == 0))
    && (if a.kind == Push then a.disk.found else !a.disk.found)
  }

  /** A request that is accepted puts exactly one packet in flight, with the numbers of the local file for a
      push and none for a pull, an id from the HOST's own counter or 0 from a PEER; any other changes nothing. */
  lemma RequestIsSent(fix: Repairs, s: System, a: Action)
    requires a.Begin? && Inv(fix, s)
    ensures var t, e := Step(fix, s, a), |s.begun|;
      if !MayAsk(s, a) then t == s
      else
        && t.begun == s.begun + [Exchange(a.kind, a.origin, a.responder)] && |t.sites| == |s.sites|
        && NoRecord(t, e) && |Messages(t, e)| == 1
        && var p := Messages(t, e)[0];
           && p.from == a.origin && p.to == a.responder && p.header.kind == a.kind && p.header.code == ResponseNone
           && (a.kind == Push ==> p.header.chunks == a.disk.chunks && p.header.size == a.disk.size)
           && (a.kind == Pull ==> p.header.chunks == p.header.size == 0)
           && (a.origin != 0 ==> p.header.id == 0 && t.sites[0].fileIDCount == s.sites[0].fileIDCount)
           && (a.origin == 0 ==> t.sites[0].fileIDCount == s.sites[0].fileIDCount + 1
                                 && p.header.id == FileID(t.sites[0].fileIDCount))
  {
    if MayAsk(s, a) {
      var t, e := Step(fix, s, a), |s.begun|;
      OnlyNone(s.wire, OnWire(e));
      OnlyAppend(s.wire, t.wire[|s.wire|], OnWire(e));
      forall k | 0 <= k < |s.sites| ensures Records(t, k, e) == [] {
        assert t.sites[k].files == s.sites[k].files;
        OnlyNone(s.sites[k].files, OnFile(e));
      }
    }
  }

  /** Every request or approval of the push in flight, and every record of it, has these numbers. */
  ghost predicate Carries(s: System, e: nat, chunks: nat, size: nat) {
    && (forall p :: p in Messages(s, e) && p.header.code in {ResponseNone, ResponseApproved} ==>
          p.header.chunks == chunks && p.header.size == size)
    && (forall k, f :: 0 <= k < |s.sites| && f in Records(s, k, e) ==> f.chunks == chunks && f.size == size)
  }

  /** A response to a push hands on the numbers of its header. */
  lemma PushNumbers(fix: Repairs, site: Site, h: Header, disk: Disk, unset: Unset)
    requires h.kind == Push
    ensures var out := Respond(fix, site, h, disk, unset);
      && (out.reply ==> out.header.chunks == h.chunks && out.header.size == h.size && h.code == ResponseNone)
      && forall f :: f in Added(fix, site, h, disk, unset) ==>
           f.chunks == h.chunks && f.size == h.size && h.code in {ResponseNone, ResponseApproved}
  {
  }

  lemma PushHeader(fix: Repairs, s: System, p: Packet)
    requires IsPush(s, p.header.exchange) && ExchangeInv(fix, s, p.header.exchange)
    requires Messages(s, p.header.exchange) == [p]
    ensures p.header.kind == Push
  {
    hide Only, Records, Messages;
  }

  lemma CarriesOn(s: System, t: System, e: nat, to: nat, more: seq<File>, chunks: nat, size: nat)
    requires Carries(s, e, chunks, size) && |t.sites| == |s.sites|
    requires forall k :: 0 <= k < |s.sites| ==> Records(t, k, e) == Records(s, k, e) + if k == to then more else []
    requires forall f :: f in more ==> f.chunks == chunks && f.size == size
    requires forall p :: p in Messages(t, e) ==> p.header.chunks == chunks && p.header.size == size
    ensures Carries(t, e, chunks, size)
  {
    hide Records, Messages;
  }

  lemma DeliveryCarries(fix: Repairs, s: System, a: Action, chunks: nat, size: nat)
    requires Inv(fix, s) && Delivers(s, a)
    requires var e := s.wire[a.i].header.exchange; IsPush(s, e) && Carries(s, e, chunks, size)
    ensures Carries(Step(fix, s, a), s.wire[a.i].header.exchange, chunks, size)
  {
    hide Inv, ExchangeInv, Respond, Added, Messages, Records, IsPush, Only, OnWire, OnFile;
    OwnDelivery(fix, s, a);
    var p := s.wire[a.i];
    PushHeader(fix, s, p);
    var more := Added(fix, s.sites[p.to], p.header, a.disk, a.unset);
    PushNumbers(fix, s.sites[p.to], p.header, a.disk, a.unset);
    if p.header.code in {ResponseNone, ResponseApproved} {
      assert p in Messages(s, p.header.exchange);
    }
    CarriesOn(s, Step(fix, s, a), p.header.exchange, p.to, more, chunks, size);
  }

  lemma StepCarries(fix: Repairs, s: System, a: Action, e: nat, chunks: nat, size: nat)
    requires Inv(fix, s) && IsPush(s, e) && Carries(s, e, chunks, size)
    ensures IsPush(Step(fix, s, a), e) && Carries(Step(fix, s, a), e, chunks, size)
  {
    hide Respond, Messages, Records;
    BegunStays(fix, s, a, e);
    if a.Begin? {
      BeginIsOther(fix, s, a, e);
    } else if Delivers(s, a) {
      if s.wire[a.i].header.exchange != e { DeliverOther(fix, s, a, e); } else { DeliveryCarries(fix, s, a, chunks, size); }
    }
  }

  lemma {:induction false} RunCarries(fix: Repairs, s: System, acts: seq<Action>, e: nat, chunks: nat, size: nat)
    requires Inv(fix, s) && IsPush(s, e) && Carries(s, e, chunks, size)
    ensures Carries(Run(fix, s, acts), e, chunks, size)
    decreases |acts|
  {
    hide Carries, Step, Inv;
    if acts != [] {
      StepCarries(fix, s, acts[0], e, chunks, size);
      if acts[0].Begin? { BeginKeepsInv(fix, s, acts[0]); } else { DeliverKeepsInv(fix, s, acts[0]); }
      RunCarries(fix, Step(fix, s, acts[0]), acts[1..], e, chunks, size);
    }
  }

  /** Whoever asks for a push, and whatever happens later: every request and approval of it in flight, and every
      record of it at either side, has the chunks and the size of the file that is pushed. */
  lemma PushKeepsNumbers(fix: Repairs, peers: nat, acts: seq<Action>, a: Action, more: seq<Action>)
    requires a.Begin? && a.kind == Push && MayAsk(Run(fix, Init(peers), acts), a)
    ensures var s := Run(fix, Init(peers), acts);
      Carries(Run(fix, Step(fix, s, a), more), |s.begun|, a.disk.chunks, a.disk.size)
  {
    RunKeepsInv(fix, Init(peers), acts);
    var s := Run(fix, Init(peers), acts);
    RequestIsSent(fix, s, a);
    BeginKeepsInv(fix, s, a);
    FreshCarries(Step(fix, s, a), |s.begun|, a.disk.chunks, a.disk.size);
    hide Inv, Step;
    RunCarries(fix, Step(fix, s, a), more, |s.begun|, a.disk.chunks, a.disk.size);
  }

  lemma FreshCarries(t: System, e: nat, chunks: nat, size: nat)
    requires NoRecord(t, e) && |Messages(t, e)| == 1
    requires Messages(t, e)[0].header.chunks == chunks && Messages(t, e)[0].header.size == size
    ensures Carries(t, e, chunks, size)
  {
  }
}
