/** The dispatch of the listen loop over every kind of control packet, and when the talking stops. */
module Listen {
  import opened Protocol
  import opened Sequences
  import Transfer
  import Handshake
  import Acknowledge

  datatype AllRepairs = AllRepairs(
    transfer: Transfer.Repairs, handshake: Handshake.Repairs, acknowledge: Acknowledge.Repairs)

  /** There is one gate for all kinds of packet. */
  type Repairs = r: AllRepairs | r.handshake.gateOnRespond == r.acknowledge.gateOnRespond
    witness AllRepairs(Transfer.AS_WRITTEN, Handshake.AS_WRITTEN, Acknowledge.AS_WRITTEN)

  const AS_WRITTEN: Repairs := AllRepairs(Transfer.AS_WRITTEN, Handshake.AS_WRITTEN, Acknowledge.AS_WRITTEN)

  datatype Message = Shake(data: Handshake.Data) | Head(header: Transfer.Header) | Ack(ack: Acknowledge.Ack) | Unknown

  type Positive = n: nat | n > 0 witness 1

  /** Everything a response can read at the endpoint that takes the message. `online` is false only at a HOST
      that has rejected the sender. */
  datatype Endpoint = Endpoint(
    online: bool,
    settings: Handshake.Settings,
    site: Transfer.Site, disk: Transfer.Disk, unset: Transfer.Unset,
    limits: Acknowledge.Limits, threads: nat, packets: Positive, addOk: bool)

  /** What is sent back. pack and unpack of a header are stubs that return false. */
  function Handle(fix: Repairs, at: Endpoint, m: Message): Option<Message> {
    if !at.online then None else
    match m
    case Shake(d) =>
      (match Handshake.Handle(fix.handshake, at.settings, d).back case None => None case Some(b) => Some(Shake(b)))
    case Head(h) =>
      var out := Transfer.Respond(fix.transfer, at.site, h, at.disk, at.unset);
      if Resends(fix.handshake.gateOnRespond, false, out.reply, false) then Some(Head(out.header)) else None
    case Ack(a) =>
      var out := Acknowledge.Respond(fix.acknowledge, at.limits, at.threads, a, at.packets, at.addOk);
      if Acknowledge.GoesBack(fix.acknowledge, out.reply) then Some(Ack(out.ack)) else None
    case Unknown => None
  }

  /** How many deliveries a message can still lead to, itself included. */
  function Rank(m: Message): nat {
    match m
    case Shake(d) =>
      if d.code == ResponseStart then 3 else if d.code == ResponseNone then 2 else 1
    case Head(h) =>
      if h.kind == Pull then (if h.code == ResponseNone then 3 else if h.code == ResponseApproved then 2 else 1)
      else if h.code == ResponseNone then 2 else 1
    case Ack(a) =>
      if a.code != ResponseNone then 1
      else if a.kind == Acknowledge.PacketCount then 3
      else if a.kind == Acknowledge.AddThread || a.kind == Acknowledge.RemoveThread then 2 else 1
    case Unknown => 1
  }

  function RankOf(): Message -> nat { (m: Message) => Rank(m) }

  predicate Gated(fix: Repairs) { fix.handshake.gateOnRespond }

  predicate QuietRepairs(fix: Repairs) {
    && Gated(fix) && fix.handshake.wireCarriesCode
    && fix.acknowledge.setCode && fix.acknowledge.stopAtZero && fix.acknowledge.stopOnAnswer
  }

  /** The message can be answered for ever: some endpoint answers it with another such message. */
  predicate Loud(fix: Repairs, m: Message) {
    match m
    case Shake(d) =>
      if Gated(fix) then !fix.handshake.wireCarriesCode && Handshake.Unpacks(d.code) else Handshake.Packs(d.code)
    case Head(_) => false
    case Ack(a) => !Gated(fix) || LoudAck(fix.acknowledge, a)
    case Unknown => false
  }

  predicate LoudAck(fix: Acknowledge.Repairs, a: Acknowledge.Ack) {
    if !fix.stopOnAnswer then !(a.kind == Acknowledge.PacketCount && a.code == ResponseConfirm)
    else
      a.code == ResponseNone
      && ((a.kind == Acknowledge.PacketCount && !(fix.setCode && fix.stopAtZero))
          || ((a.kind == Acknowledge.AddThread || a.kind == Acknowledge.RemoveThread) && !fix.setCode))
  }

  /** A message that is not loud is answered, if at all, by one that is not either, and of lower rank. */
  lemma QuietReplies(fix: Repairs, at: Endpoint, m: Message)
    requires !Loud(fix, m)
    ensures var r := Handle(fix, at, m); r.Some? ==> !Loud(fix, r.value) && Rank(r.value) < Rank(m)
  {
  }

  /** An endpoint with one thread, or none if it is to send a report back, that received far more than was reported. */
  function Poor(fix: Repairs, m: Message): Endpoint {
    Endpoint(true, Handshake.Settings(1, 420, 256, 1024), Transfer.Site(0, []), Transfer.Disk(false, 0, 0),
             Transfer.Unset(0, Push), Acknowledge.Limits(5, 0, 95),
             if fix.acknowledge.stopAtZero then 1 else 0,
             if m.Ack? then 100 * m.ack.packets + 1 else 1, false)
  }

  lemma PoorVerdict(fix: Repairs, m: Message)
    requires m.Ack?
    ensures Acknowledge.Judge(fix.acknowledge, Poor(fix, m).limits, m.ack.packets, Poor(fix, m).packets) == Acknowledge.Fewer
  {
    Acknowledge.VerdictByCounts(fix.acknowledge, Poor(fix, m).limits, m.ack.packets, Poor(fix, m).packets);
  }

  /** It answers every loud message with a loud one. */
  lemma LoudReplies(fix: Repairs, m: Message)
    requires Loud(fix, m)
    ensures var r := Handle(fix, Poor(fix, m), m); r.Some? && Loud(fix, r.value)
  {
    if m.Ack? { PoorVerdict(fix, m); }
    hide Acknowledge.Judge;
  }

  /** One delivery: which message of the bag, and the endpoint that takes it. */
  datatype Delivery = Delivery(i: nat, at: Endpoint)

  function Deliver(fix: Repairs, bag: seq<Message>, d: Delivery): seq<Message>
    requires d.i < |bag|
  {
    var rest := Without(bag, d.i);
    match Handle(fix, d.at, bag[d.i]) case None => rest case Some(r) => rest + [r]
  }

  /** The deliveries can be made one after the other, each of a message that is there. */
  predicate Runs(fix: Repairs, bag: seq<Message>, ds: seq<Delivery>)
    decreases |ds|
  {
    ds == [] || (ds[0].i < |bag| && Runs(fix, Deliver(fix, bag, ds[0]), ds[1..]))
  }

  predicate Quiet(fix: Repairs, bag: seq<Message>) { forall m :: m in bag ==> !Loud(fix, m) }

  /** Every loud message that is delivered goes to an endpoint that has rejected its sender. */
  ghost predicate LoudOffline(fix: Repairs, bag: seq<Message>, ds: seq<Delivery>)
    requires Runs(fix, bag, ds)
    decreases |ds|
  {
    ds == [] || ((Loud(fix, bag[ds[0].i]) ==> !ds[0].at.online) && LoudOffline(fix, Deliver(fix, bag, ds[0]), ds[1..]))
  }

  lemma OfflineIsSilent(fix: Repairs, at: Endpoint, m: Message)
    requires !at.online
    ensures Handle(fix, at, m) == None
  {
  }

  /** A run whose loud messages all go to endpoints that have rejected their senders is no longer than the sum
      of the ranks of its bag. */
  lemma {:induction false} SparedRunsAreShort(fix: Repairs, bag: seq<Message>, ds: seq<Delivery>)
    requires Runs(fix, bag, ds) && LoudOffline(fix, bag, ds)
    ensures |ds| <= Total(bag, RankOf())
    decreases |ds|
  {
    hide Handle, Loud;
    if ds != [] {
      var d := ds[0];
      if Loud(fix, bag[d.i]) { OfflineIsSilent(fix, d.at, bag[d.i]); } else { QuietReplies(fix, d.at, bag[d.i]); }
      TotalWithout(bag, d.i, RankOf());
      var r := Handle(fix, d.at, bag[d.i]);
      if r.Some? { TotalAppend(Without(bag, d.i), r.value, RankOf()); }
      SparedRunsAreShort(fix, Deliver(fix, bag, d), ds[1..]);
    }
  }

  /** A run that goes to such endpoints alone is no longer than its bag. */
  lemma {:induction false} RejectedRunsAreShort(fix: Repairs, bag: seq<Message>, ds: seq<Delivery>)
    requires Runs(fix, bag, ds) && forall d :: d in ds ==> !d.at.online
    ensures |ds| <= |bag|
    decreases |ds|
  {
    hide Handle;
    if ds != [] {
      OfflineIsSilent(fix, ds[0].at, bag[ds[0].i]);
      RejectedRunsAreShort(fix, Deliver(fix, bag, ds[0]), ds[1..]);
    }
  }

  lemma {:induction false} QuietIsSpared(fix: Repairs, bag: seq<Message>, ds: seq<Delivery>)
    requires Quiet(fix, bag) && Runs(fix, bag, ds)
    ensures LoudOffline(fix, bag, ds)
    decreases |ds|
  {
    hide Handle, Loud;
    if ds != [] {
      QuietReplies(fix, ds[0].at, bag[ds[0].i]);
      QuietIsSpared(fix, Deliver(fix, bag, ds[0]), ds[1..]);
    }
  }

  lemma RunsAreShort(fix: Repairs, bag: seq<Message>, ds: seq<Delivery>)
    requires Quiet(fix, bag) && Runs(fix, bag, ds)
    ensures |ds| <= Total(bag, RankOf())
  {
    QuietIsSpared(fix, bag, ds);
    SparedRunsAreShort(fix, bag, ds);
  }

  /** An endpoint that has the file, one thread, and limits that a report is either above or below. */
  const BUSY := Endpoint(true, Handshake.Settings(1, 420, 256, 1024), Transfer.Site(0, []), Transfer.Disk(true, 3, 99),
    Transfer.Unset(7, Pull), Acknowledge.Limits(5, 0, 0), 1, 1, true)

  /** It answers every quiet message that is not the last of its conversation, by one of the next lower rank. */
  lemma BusyReplies(fix: Repairs, m: Message)
    requires !Loud(fix, m) && Rank(m) > 1
    ensures var r := Handle(fix, BUSY, m); r.Some? && Rank(r.value) == Rank(m) - 1 && !Loud(fix, r.value)
  {
  }

  /** So the bound is reached: every quiet bag has a run as long as the sum of its ranks. */
  lemma {:induction false} BoundIsReached(fix: Repairs, bag: seq<Message>) returns (ds: seq<Delivery>)
    requires Quiet(fix, bag)
    ensures Runs(fix, bag, ds) && |ds| == Total(bag, RankOf())
    decreases Total(bag, RankOf())
  {
    if bag == [] {
      ds := [];
    } else {
      var d := Delivery(0, BUSY);
      QuietReplies(fix, BUSY, bag[0]);
      if Rank(bag[0]) > 1 { BusyReplies(fix, bag[0]); }
      hide Handle, Loud;
      var r := Handle(fix, BUSY, bag[0]);
      TotalWithout(bag, 0, RankOf());
      if r.Some? { TotalAppend(Without(bag, 0), r.value, RankOf()); }
      assert Quiet(fix, Deliver(fix, bag, d));
      var rest := BoundIsReached(fix, Deliver(fix, bag, d));
      ds := [d] + rest;
      assert ds[1..] == rest;
    }
  }

  ghost predicate Bounded(fix: Repairs, bag: seq<Message>, n: nat) {
    forall ds :: Runs(fix, bag, ds) ==> |ds| <= n
  }

  ghost predicate Settles(fix: Repairs, bag: seq<Message>) {
    exists n: nat :: Bounded(fix, bag, n)
  }

  ghost predicate Terminates(fix: Repairs) {
    forall bag :: Settles(fix, bag)
  }

  /** A bag with a loud message in it runs as long as one likes: that message and its answers in turn. */
  lemma {:induction false} LoudRunsOn(fix: Repairs, bag: seq<Message>, i: nat, n: nat) returns (ds: seq<Delivery>)
    requires i < |bag| && Loud(fix, bag[i])
    ensures |ds| == n && Runs(fix, bag, ds)
    decreases n
  {
    hide Handle, Loud;
    if n == 0 {
      ds := [];
    } else {
      var d := Delivery(i, Poor(fix, bag[i]));
      LoudReplies(fix, bag[i]);
      var rest := LoudRunsOn(fix, Deliver(fix, bag, d), |bag| - 1, n - 1);
      ds := [d] + rest;
      assert ds[1..] == rest;
    }
  }

  /** For every choice of repairs, exactly the bags without a loud message come to rest, whatever the endpoints
      hold and whatever the order; the sum of the ranks is then a bound, and the least one. */
  lemma BagsSettle(fix: Repairs, bag: seq<Message>)
    ensures Settles(fix, bag) <==> forall m :: m in bag ==> !Loud(fix, m)
    ensures Settles(fix, bag) ==> forall n: nat :: Bounded(fix, bag, n) <==> Total(bag, RankOf()) <= n
  {
    if Quiet(fix, bag) {
      forall ds | Runs(fix, bag, ds) ensures |ds| <= Total(bag, RankOf()) { RunsAreShort(fix, bag, ds); }
      assert Bounded(fix, bag, Total(bag, RankOf()));
      var longest := BoundIsReached(fix, bag);
    } else {
      var m :| m in bag && Loud(fix, m);
      var i :| 0 <= i < |bag| && bag[i] == m;
      forall n: nat ensures !Bounded(fix, bag, n) {
        var ds := LoudRunsOn(fix, bag, i, n + 1);
        assert Runs(fix, bag, ds) && |ds| > n;
      }
    }
  }

  /** The code as written comes to rest on headers and on handshakes whose code it does not know, and on no bag
      that holds anything else. */
  lemma BagsSettleAsWritten(bag: seq<Message>)
    ensures Settles(AS_WRITTEN, bag) <==>
      forall m :: m in bag && (m.Shake? || m.Ack?) ==>
        m.Shake? && m.data.code !in {ResponseStart, ResponseNone, ResponseApproved, ResponseCriticalError}
  {
    BagsSettle(AS_WRITTEN, bag);
    assert forall m :: Loud(AS_WRITTEN, m) <==> m.Ack? || (m.Shake? && Handshake.Packs(m.data.code));
  }

  /** A message that is loud for as long as one of the repairs is missing. */
  function Echo(fix: Repairs): Message {
    if !Gated(fix) || !fix.handshake.wireCarriesCode then Shake(Handshake.Data(ResponseStart, 1, 420))
    else Ack(Acknowledge.Ack(Acknowledge.PacketCount, ResponseNone, 0))
  }

  /** Every bag of control packets comes to rest exactly with these repairs. */
  lemma TalkingStops(fix: Repairs)
    ensures Terminates(fix) <==> QuietRepairs(fix)
  {
    if QuietRepairs(fix) {
      forall bag ensures Settles(fix, bag) {
        assert forall m :: !Loud(fix, m);
        BagsSettle(fix, bag);
      }
    } else {
      var m := Echo(fix);
      assert Loud(fix, m) && m in [m];
      BagsSettle(fix, [m]);
    }
  }
}
