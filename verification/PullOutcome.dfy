/** How each pull goes on, from what the responder finds when the request comes in. */
module PullOutcome {
  import opened Protocol
  import opened Sequences
  import opened Transfer
  import opened NegotiationRuns
  import opened NegotiationAgreement
  import opened PushOutcome

  ghost predicate IsPull(s: System, e: nat) { e < |s.begun| && s.begun[e].kind == Pull }

  /** What an approval says: the id and the type, and the chunks and the size of the responder's file. */
  datatype Offer = Offer(id: nat, kind: TransferType, chunks: nat, size: nat)

  predicate Says(h: Header, o: Offer) { h.id == o.id && h.kind == o.kind && h.chunks == o.chunks && h.size == o.size }

  predicate Holds(f: File, o: Offer) {
    f.id == o.id && f.kind == o.kind && f.chunks == o.chunks && f.size == o.size && !f.approver
  }

  /** The offer that a request meets: with the id and type of the request, a new id if it has none, or, as
      written, whatever the memory of a new file holds. */
  function OfferFor(fix: Repairs, site: Site, h: Header, disk: Disk, unset: Unset): Offer {
    var id := if !fix.keepOnPack then unset.id else if h.id != 0 then h.id else FileID(site.fileIDCount + 1);
    Offer(FileID(id), if fix.keepOnPack then Pull else unset.kind, disk.chunks, disk.size)
  }

  /** Nothing is left of the pull but perhaps the answer that there is no such file. */
  ghost predicate NotFound(s: System, e: nat) {
    NoRecord(s, e) && |Messages(s, e)| <= 1 && forall p :: p in Messages(s, e) ==> p.header.code == ResponseFileNotFound
  }

  /** The approval is on its way with the offer, or the puller holds the one record it made of it, and the
      confirmation, if it is on its way, repeats the offer. */
  ghost predicate Offered(s: System, e: nat, o: Offer)
    requires e < |s.begun|
  {
    var x, msgs := s.begun[e], Messages(s, e);
    && x.origin < |s.sites| && |msgs| <= 1
    && (forall p :: p in msgs ==> p.header.code in {ResponseApproved, ResponseConfirm} && Says(p.header, o))
    && (if |msgs| == 1 && msgs[0].header.code == ResponseApproved then NoRecord(s, e)
        else |Records(s, x.origin, e)| == 1 && Holds(Records(s, x.origin, e)[0], o))
  }

  lemma SamePull(s: System, t: System, e: nat, o: Offer)
    requires e < |s.begun| && e < |t.begun| && s.begun[e] == t.begun[e] && |s.sites| == |t.sites|
    requires Messages(t, e) == Messages(s, e)
    requires forall k :: 0 <= k < |s.sites| ==> Records(t, k, e) == Records(s, k, e)
    ensures NotFound(s, e) ==> NotFound(t, e)
    ensures Offered(s, e, o) ==> Offered(t, e, o)
  {
  }

  /** The answer to the request of a pull. */
  lemma RequestResponse(fix: Repairs, site: Site, h: Header, disk: Disk, unset: Unset)
    requires h.kind == Pull && h.code == ResponseNone
    ensures var out := Respond(fix, site, h, disk, unset);
      && out.reply && Added(fix, site, h, disk, unset) == []
      && (!disk.found ==> out.header.code == ResponseFileNotFound && out.site == site)
      && (disk.found ==> out.header.code == ResponseApproved && Says(out.header, OfferFor(fix, site, h, disk, unset)))
  {
  }

  /** What the puller makes of the approval: a confirmation, unless its type was overwritten. */
  lemma ApprovalResponse(fix: Repairs, site: Site, h: Header, disk: Disk, unset: Unset, o: Offer)
    requires h.code == ResponseApproved && Says(h, o)
    ensures var out, more := Respond(fix, site, h, disk, unset), Added(fix, site, h, disk, unset);
      && (out.reply <==> h.kind == Pull) && |more| == 1 && Holds(more[0], o)
      && (out.reply ==> out.header.code == ResponseConfirm && Says(out.header, o))
  {
  }

  lemma ConfirmResponse(fix: Repairs, site: Site, h: Header, disk: Disk, unset: Unset)
    requires h.kind == Pull && h.code == ResponseConfirm
    ensures !Respond(fix, site, h, disk, unset).reply
  {
  }

  lemma RequestIsTaken(fix: Repairs, s: System, a: Action)
    requires Inv(fix, s) && Delivers(s, a)
    requires s.wire[a.i].header.kind == Pull && s.wire[a.i].header.code == ResponseNone
    ensures var p, t := s.wire[a.i], Step(fix, s, a); var e := p.header.exchange;
      && IsPull(t, e)
      && (if a.disk.found then Offered(t, e, OfferFor(fix, s.sites[p.to], p.header, a.disk, a.unset)) else NotFound(t, e))
  {
    hide Only, OnFile, OnWire, Respond, Added, OfferFor, Messages, Records, Settled, Says;
    OwnDelivery(fix, s, a);
    var p, t := s.wire[a.i], Step(fix, s, a);
    RequestResponse(fix, s.sites[p.to], p.header, a.disk, a.unset);
  }

  lemma OfferIsTaken(fix: Repairs, s: System, a: Action, o: Offer)
    requires Inv(fix, s) && Delivers(s, a)
    requires var e := s.wire[a.i].header.exchange; IsPull(s, e) && Offered(s, e, o)
    ensures var e := s.wire[a.i].header.exchange; IsPull(Step(fix, s, a), e) && Offered(Step(fix, s, a), e, o)
  {
    hide Only, OnFile, OnWire, Respond, Added, Messages, Records, Settled, Says, Holds;
    OwnDelivery(fix, s, a);
    var p := s.wire[a.i];
    assert p in Messages(s, p.header.exchange);
    if p.header.code == ResponseApproved {
      ApprovalResponse(fix, s.sites[p.to], p.header, a.disk, a.unset, o);
    } else {
      ConfirmResponse(fix, s.sites[p.to], p.header, a.disk, a.unset);
    }
  }

  lemma NotFoundIsTaken(fix: Repairs, s: System, a: Action)
    requires Inv(fix, s) && Delivers(s, a) && NotFound(s, s.wire[a.i].header.exchange)
    ensures NotFound(Step(fix, s, a), s.wire[a.i].header.exchange)
  {
    hide Only, OnFile, OnWire;
    OwnDelivery(fix, s, a);
    var p := s.wire[a.i];
    assert p in Messages(s, p.header.exchange);
    assert Added(fix, s.sites[p.to], p.header, a.disk, a.unset) == [];
  }

  lemma StepStays(fix: Repairs, s: System, a: Action, e: nat, o: Offer)
    requires Inv(fix, s) && IsPull(s, e)
    ensures IsPull(Step(fix, s, a), e)
    ensures NotFound(s, e) ==> NotFound(Step(fix, s, a), e)
    ensures Offered(s, e, o) ==> Offered(Step(fix, s, a), e, o)
  {
    hide NotFound, Offered, Respond;
    BegunStays(fix, s, a, e);
    if a.Begin? {
      BeginIsOther(fix, s, a, e);
      SamePull(s, Step(fix, s, a), e, o);
    } else if Delivers(s, a) {
      if s.wire[a.i].header.exchange != e {
        DeliverOther(fix, s, a, e);
        SamePull(s, Step(fix, s, a), e, o);
      } else {
        if NotFound(s, e) { NotFoundIsTaken(fix, s, a); }
        if Offered(s, e, o) { OfferIsTaken(fix, s, a, o); }
      }
    }
  }

  lemma {:induction false} RunStays(fix: Repairs, s: System, acts: seq<Action>, e: nat, o: Offer)
    requires Inv(fix, s) && IsPull(s, e)
    ensures IsPull(Run(fix, s, acts), e)
    ensures NotFound(s, e) ==> NotFound(Run(fix, s, acts), e)
    ensures Offered(s, e, o) ==> Offered(Run(fix, s, acts), e, o)
    decreases |acts|
  {
    hide NotFound, Offered, Step, Inv;
    if acts != [] {
      StepStays(fix, s, acts[0], e, o);
      if acts[0].Begin? { BeginKeepsInv(fix, s, acts[0]); } else { DeliverKeepsInv(fix, s, acts[0]); }
      RunStays(fix, Step(fix, s, acts[0]), acts[1..], e, o);
    }
  }

  /** For every choice of repairs, whoever asked, and whatever happens after the request of a pull has been
      taken. Without the file nobody ever holds a record. With it, the approval and the confirmation in flight
      and the puller's one record always hold the chunks and the size of the responder's file, and the id and
      the type of the request or a new id, which as written are whatever an unset file holds. */
  lemma PullGoesOn(fix: Repairs, peers: nat, acts: seq<Action>, a: Action, more: seq<Action>)
    requires var s := Run(fix, Init(peers), acts);
      Delivers(s, a) && s.wire[a.i].header.kind == Pull && s.wire[a.i].header.code == ResponseNone
    ensures var s := Run(fix, Init(peers), acts);
      var t, p := Run(fix, Step(fix, s, a), more), s.wire[a.i];
      var e := p.header.exchange;
      && e < |t.begun|
      && (!a.disk.found ==> NotFound(t, e))
      && (a.disk.found ==> Offered(t, e, OfferFor(fix, s.sites[p.to], p.header, a.disk, a.unset)))
  {
    hide Inv, Step;
    RunKeepsInv(fix, Init(peers), acts);
    var s := Run(fix, Init(peers), acts);
    var p := s.wire[a.i];
    RequestIsTaken(fix, s, a);
    DeliverKeepsInv(fix, s, a);
    RunStays(fix, Step(fix, s, a), more, p.header.exchange, OfferFor(fix, s.sites[p.to], p.header, a.disk, a.unset));
  }
}
