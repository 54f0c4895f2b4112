/** The listen loop over the connection table, and every run of accepts, passes and stamped packets. */
module ConnectionRuns {
  import opened Protocol
  import opened Sequences
  import opened Connections

  /** The table as the listen thread changes it: the poll vector, the peer list and the id counter. */
  class ListenLoop {
    var activeListenSockets: seq<nat>
    var listPeers: seq<Conn>
    var uniqueIDCount: nat
    var accepts: nat   // as `born`: a history that no branch reads
    var failed: bool   // an erase went past the end of a vector

    ghost function Value(): Table
      reads this
    {
      Table(activeListenSockets, listPeers, accepts, failed)
    }

    ghost predicate Valid()
      reads this
    {
      uniqueIDCount == Wrapped(accepts)
    }

    constructor (listenSocket: nat)
      ensures Valid() && Value() == Start(listenSocket)
    {
      activeListenSockets := [listenSocket];
      listPeers := [Conn(listenSocket, 0, true, 0)];
      uniqueIDCount, accepts, failed := 0, 0, false;
    }

    method AcceptPeer(socket: nat)
      requires Valid()
      modifies this
      ensures Valid() && Value() == Accept(old(Value()), socket)
    {
      activeListenSockets := activeListenSockets + [socket];
      uniqueIDCount := (uniqueIDCount + 1) % ID_RANGE;
      accepts := accepts + 1;
      listPeers := listPeers + [Conn(socket, uniqueIDCount, true, accepts)];
    }

    method GetPeer(posID: nat) returns (peer: Option<Conn>)
      ensures peer == if posID < |listPeers| then Some(listPeers[posID]) else None
    {
      if posID >= |listPeers| { return None; }
      return Some(listPeers[posID]);
    }

    method RemovePeer(posID: nat) returns (ok: bool)
      modifies `listPeers
      ensures ok <==> posID < |old(listPeers)|
      ensures listPeers == if ok then Without(old(listPeers), posID) else old(listPeers)
    {
      if posID >= |listPeers| { return false; }
      listPeers := listPeers[..posID] + listPeers[posID + 1..];
      return true;
    }

    /** The scan marks and queues every connection, from position 1 on, that has hung up. */
    method Scan(hungUp: set<nat>) returns (removal: seq<nat>)
      requires |activeListenSockets| == |listPeers|
      modifies `listPeers
      ensures removal == Positions(|activeListenSockets|, hungUp)
      ensures listPeers == Marked(old(listPeers), removal)
    {
      hide Marked, Positions;
      PositionsGrow(hungUp);
      removal := [];
      MarkedNone(listPeers);
      var n := |activeListenSockets|;
      var i := 1;
      while i < n
        invariant i == 1 || i <= n
        invariant removal == Positions(i, hungUp)
        invariant listPeers == Marked(old(listPeers), removal)
      {
        if i in hungUp {
          MarkedMore(old(listPeers), removal, i);
          listPeers := listPeers[i := listPeers[i].(online := false)];
          removal := removal + [i];
        }
        i := i + 1;
      }
    }

    /** One scan for connections that have hung up, then the drain of the queue it filled. */
    method ListenPass(correct: bool, hungUp: set<nat>)
      requires Valid() && |activeListenSockets| == |listPeers| && !failed
      modifies this
      ensures Valid() && accepts == old(accepts)
      ensures failed <==> Pass(correct, old(Value()), hungUp).failed
      ensures !failed ==> Value() == Pass(correct, old(Value()), hungUp)
    {
      hide Drain, EraseEach, Queue;
      var removal := Scan(hungUp);
      DrainQueue(correct, removal);
    }

    method DrainQueue(correct: bool, queued: seq<nat>)
      requires |activeListenSockets| == |listPeers| && !failed && Ascending(queued)
      modifies this
      ensures uniqueIDCount == old(uniqueIDCount) && accepts == old(accepts)
      ensures failed <==> Drain(old(Value()), Queue(correct, queued)).failed
      ensures !failed ==> Value() == Drain(old(Value()), Queue(correct, queued))
    {
      var removal, removed := queued, 0;
      ghost var q := Queue(correct, queued);
      while removal != []
        invariant removed <= |queued| == |q| && removal == queued[removed..]
        invariant |activeListenSockets| == |listPeers| && !failed
        invariant uniqueIDCount == old(uniqueIDCount) && accepts == old(accepts)
        invariant EraseEach(old(activeListenSockets), q) == EraseEach(activeListenSockets, q[removed..])
        invariant EraseEach(old(listPeers), q) == EraseEach(listPeers, q[removed..])
        decreases |queued| - removed
        modifies this
      {
        var posID := removal[0];
        if correct {
          AscendingIndex(queued, removed);
          posID := posID - removed;
        }
        assert q[removed..][0] == posID && q[removed..][1..] == q[removed + 1..];
        if posID >= |activeListenSockets| {
          failed := true;
          return;
        }
        activeListenSockets := activeListenSockets[..posID] + activeListenSockets[posID + 1..];
        var ok := RemovePeer(posID);
        removal, removed := removal[1..], removed + 1;
      }
      assert q[removed..] == [];
    }

    /** A packet goes out by position only to a peer that carries the packet's unique id. */
    method SendTo(posID: nat, uniqueID: nat) returns (socket: Option<nat>)
      ensures socket == if posID < |listPeers| && listPeers[posID].uniqueID == uniqueID
                        then Some(listPeers[posID].socket) else None
    {
      var peer := GetPeer(posID);
      if peer == None { return None; }
      if peer.value.uniqueID != uniqueID { return None; }
      return Some(peer.value.socket);
    }
  }

  function Start(listenSocket: nat): Table {
    Table([listenSocket], [Conn(listenSocket, 0, true, 0)], 0, false)
  }

  // ----- runs -----

  /** A packet keeps the position and the unique id of the peer it came from; `born` is history. */
  datatype Stamp = Stamp(pos: nat, uniqueID: nat, born: nat)

  datatype Sent = Sent(stamp: Stamp, reached: Conn)

  datatype World = World(table: Table, stamps: seq<Stamp>, log: seq<Sent>)

  datatype Action =
    | Connect(socket: nat)
    | HangUps(hungUp: set<nat>)
    | Reject(pos: nat)
    | Receive(pos: nat)
    | Send(k: nat)

  predicate Goes(w: World, k: nat)
    requires k < |w.stamps|
  {
    var st := w.stamps[k];
    st.pos < |w.table.peers| && w.table.peers[st.pos].uniqueID == st.uniqueID
  }

  function Step(correct: bool, w: World, a: Action): World {
    var t := w.table;
    if t.failed then w else
    match a
    case Connect(socket) => w.(table := Accept(t, socket))
    case HangUps(hungUp) => w.(table := Pass(correct, t, hungUp))
    case Reject(pos) =>
      if 1 <= pos < |t.peers| then w.(table := t.(peers := t.peers[pos := t.peers[pos].(online := false)])) else w
    case Receive(pos) =>
      if 1 <= pos < |t.peers| && t.peers[pos].online
      then w.(stamps := w.stamps + [Stamp(pos, t.peers[pos].uniqueID, t.peers[pos].born)]) else w
    case Send(k) =>
      if k < |w.stamps| && Goes(w, k)
      then w.(log := w.log + [Sent(w.stamps[k], t.peers[w.stamps[k].pos])]) else w
  }

  function Run(correct: bool, w: World, acts: seq<Action>): World
    decreases |acts|
  {
    if acts == [] then w else Run(correct, Step(correct, w, acts[0]), acts[1..])
  }

  /** After a drain past the end nothing goes on, in any run. */
  lemma {:induction false} FailureIsFinal(correct: bool, w: World, acts: seq<Action>)
    requires w.table.failed
    ensures Run(correct, w, acts) == w
    decreases |acts|
  {
    if acts != [] { FailureIsFinal(correct, Step(correct, w, acts[0]), acts[1..]); }
  }

  function Init(listenSocket: nat): World { World(Start(listenSocket), [], []) }

  ghost predicate WorldInv(w: World, self: Conn) {
    && TableInv(w.table, self)
    && (forall k :: 0 <= k < |w.stamps| ==>
          w.stamps[k].uniqueID == Wrapped(w.stamps[k].born) && w.stamps[k].born <= w.table.accepts)
    && (forall x :: x in w.log ==>
          && x.stamp.uniqueID == Wrapped(x.stamp.born) == Wrapped(x.reached.born)
          && x.stamp.born <= w.table.accepts && x.reached.born <= w.table.accepts)
  }

  lemma PassKeepsAccepts(correct: bool, t: Table, hungUp: set<nat>)
    ensures Pass(correct, t, hungUp).accepts == t.accepts
  {
    hide EraseEach, Positions, Marked, Queue;
  }

  lemma PassKeepsWorld(correct: bool, w: World, self: Conn, a: Action)
    requires WorldInv(w, self) && a.HangUps?
    ensures WorldInv(Step(correct, w, a), self)
    ensures correct ==> Step(correct, w, a).table.failed == w.table.failed
  {
    hide TableInv, Pass, Wrapped;
    PassInv(correct, w.table, self, a.hungUp);
    PassKeepsAccepts(correct, w.table, a.hungUp);
  }

  lemma TableKeepsWorld(correct: bool, w: World, self: Conn, a: Action)
    requires WorldInv(w, self) && (a.Connect? || a.Reject?)
    ensures WorldInv(Step(correct, w, a), self) && Step(correct, w, a).table.failed == w.table.failed
  {
    hide Wrapped;
  }

  lemma PacketKeepsWorld(correct: bool, w: World, self: Conn, a: Action)
    requires WorldInv(w, self) && (a.Receive? || a.Send?)
    ensures WorldInv(Step(correct, w, a), self) && Step(correct, w, a).table.failed == w.table.failed
  {
    hide Wrapped, Parallel;
  }

  lemma StepKeepsInv(correct: bool, w: World, self: Conn, a: Action)
    requires WorldInv(w, self)
    ensures WorldInv(Step(correct, w, a), self)
    ensures correct ==> Step(correct, w, a).table.failed == w.table.failed
  {
    hide WorldInv, Step;
    match a {
      case HangUps(_) => PassKeepsWorld(correct, w, self, a);
      case Connect(_) => TableKeepsWorld(correct, w, self, a);
      case Reject(_) => TableKeepsWorld(correct, w, self, a);
      case _ => PacketKeepsWorld(correct, w, self, a);
    }
  }

  lemma {:induction false} RunKeepsInv(correct: bool, w: World, self: Conn, acts: seq<Action>)
    requires WorldInv(w, self)
    ensures WorldInv(Run(correct, w, acts), self)
    ensures correct ==> Run(correct, w, acts).table.failed == w.table.failed
    decreases |acts|
  {
    if acts != [] {
      StepKeepsInv(correct, w, self, acts[0]);
      RunKeepsInv(correct, Step(correct, w, acts[0]), self, acts[1..]);
    }
  }

  /** In every run the two vectors stay parallel, slot 0 stays the endpoint itself, and the connections
      stand in the order in which they were accepted; corrected, no drain ever runs past the end. */
  lemma TableStaysParallel(correct: bool, listenSocket: nat, acts: seq<Action>)
    ensures var t := Run(correct, Init(listenSocket), acts).table;
      && Parallel(t) && Ordered(t) && t.peers != [] && t.peers[0] == Conn(listenSocket, 0, true, 0)
      && (correct ==> !t.failed)
  {
    RunKeepsInv(correct, Init(listenSocket), Conn(listenSocket, 0, true, 0), acts);
  }

  ghost predicate PassesAreRight(correct: bool) {
    forall listenSocket: nat, acts, hungUp :: RightPass(correct, Run(correct, Init(listenSocket), acts).table, hungUp)
  }

  /** The table survives, and loses exactly the connections that hung up. */
  ghost predicate RightPass(correct: bool, t: Table, hungUp: set<nat>) {
    !t.failed ==> Pass(correct, t, hungUp) == Kept(t, Positions(|t.sockets|, hungUp))
  }

  /** In every run every pass removes exactly the connections that hung up, if and only if the drain is
      corrected. Two PEERs that hang up in one pass are enough to fail as written. */
  lemma OnlyCorrectedPassesAreRight(correct: bool)
    ensures PassesAreRight(correct) <==> correct
  {
    if correct {
      forall listenSocket: nat, acts, hungUp
        ensures RightPass(correct, Run(correct, Init(listenSocket), acts).table, hungUp)
      {
        var self := Conn(listenSocket, 0, true, 0);
        RunKeepsInv(correct, Init(listenSocket), self, acts);
        var t := Run(correct, Init(listenSocket), acts).table;
        if !t.failed { PassLeavesTheOthers(correct, t, self, hungUp); }
      }
    } else {
      WrongPass();
    }
  }

  lemma WrongPass()
    ensures !RightPass(false, Run(false, Init(0), [Connect(1), Connect(2)]).table, {1, 2})
  {
    var t := TwoConnected(false);
    var q := Positions(3, {1, 2});
    assert 1 in q && 2 in q;
    PassLeavesTheOthers(false, t, Conn(0, 0, true, 0), {1, 2});
  }

  lemma TwoConnected(correct: bool) returns (t: Table)
    ensures t == Run(correct, Init(0), [Connect(1), Connect(2)]).table
    ensures TableInv(t, Conn(0, 0, true, 0)) && |t.sockets| == 3 && !t.failed
  {
    var w1 := Step(correct, Init(0), Connect(1));
    var w2 := Step(correct, w1, Connect(2));
    assert [Connect(1), Connect(2)][1..] == [Connect(2)] && [Connect(2)][1..] == [];
    assert Run(correct, w1, [Connect(2)]) == Run(correct, w2, []);
    t := w2.table;
    StepKeepsInv(correct, Init(0), Conn(0, 0, true, 0), Connect(1));
    StepKeepsInv(correct, w1, Conn(0, 0, true, 0), Connect(2));
  }

  /** Whatever hangs up in between, a packet sent by position reaches a connection whose number agrees with
      the stamped one modulo 2^32, and before the counter wraps it is the very connection it came from. */
  lemma StampedPacketsReachTheirOwn(correct: bool, listenSocket: nat, acts: seq<Action>)
    ensures var w := Run(correct, Init(listenSocket), acts);
      forall x :: x in w.log ==>
        && Wrapped(x.reached.born) == Wrapped(x.stamp.born)
        && (w.table.accepts < ID_RANGE ==> x.reached.born == x.stamp.born)
  {
    RunKeepsInv(correct, Init(listenSocket), Conn(listenSocket, 0, true, 0), acts);
    var w := Run(correct, Init(listenSocket), acts);
    forall x | x in w.log && w.table.accepts < ID_RANGE ensures x.reached.born == x.stamp.born {
      SmallModulo(x.reached.born);
      SmallModulo(x.stamp.born);
    }
  }

  lemma SmallModulo(n: nat)
    ensures n < ID_RANGE ==> Wrapped(n) == n
  {
  }

  /** Before the counter wraps a stamped packet goes out exactly when the connection it came from still
      stands at the stamped position; and the unique ids increase strictly along the list. */
  lemma StampedPacketsGoExactly(correct: bool, listenSocket: nat, acts: seq<Action>, k: nat)
    requires var w := Run(correct, Init(listenSocket), acts); k < |w.stamps| && w.table.accepts < ID_RANGE
    ensures var w := Run(correct, Init(listenSocket), acts);
      && (Goes(w, k) <==> w.stamps[k].pos < |w.table.peers| && w.table.peers[w.stamps[k].pos].born == w.stamps[k].born)
      && (forall i, j :: 0 <= i < j < |w.table.peers| ==> w.table.peers[i].uniqueID < w.table.peers[j].uniqueID)
  {
    RunKeepsInv(correct, Init(listenSocket), Conn(listenSocket, 0, true, 0), acts);
    var w := Run(correct, Init(listenSocket), acts);
    SmallModulo(w.stamps[k].born);
    forall i | 0 <= i < |w.table.peers| ensures w.table.peers[i].uniqueID == w.table.peers[i].born {
      SmallModulo(w.table.peers[i].born);
    }
  }

  // ----- what one send, one packet and one rejection do -----

  /** Before the counter wraps a send puts out exactly one packet, the stamped one, and to the very connection it
      came from, if that connection still stands at the stamped position; if it does not, nothing goes out.
      Nothing else changes. */
  lemma SendGoesExactly(correct: bool, listenSocket: nat, acts: seq<Action>, k: nat)
    requires var w := Run(correct, Init(listenSocket), acts);
      k < |w.stamps| && w.table.accepts < ID_RANGE && !w.table.failed
    ensures var w := Run(correct, Init(listenSocket), acts); var st := w.stamps[k];
      var t := Step(correct, w, Send(k));
      && t.table == w.table && t.stamps == w.stamps
      && (if st.pos < |w.table.peers| && w.table.peers[st.pos].born == st.born
          then t.log == w.log + [Sent(st, w.table.peers[st.pos])] else t.log == w.log)
  {
    StampedPacketsGoExactly(correct, listenSocket, acts, k);
  }

  /** A packet is taken exactly from an online connection other than slot 0, and its stamp is that connection's. */
  lemma ReceiveStampsExactly(correct: bool, w: World, pos: nat)
    requires !w.table.failed
    ensures var t := Step(correct, w, Receive(pos));
      && t.table == w.table && t.log == w.log
      && (if 0 < pos < |w.table.peers| && w.table.peers[pos].online
          then |t.stamps| == |w.stamps| + 1 && t.stamps[..|w.stamps|] == w.stamps
               && t.stamps[|w.stamps|].pos == pos && t.stamps[|w.stamps|].born == w.table.peers[pos].born
               && t.stamps[|w.stamps|].uniqueID == w.table.peers[pos].uniqueID
          else t.stamps == w.stamps)
  {
  }

  /** A packet that is answered at once reaches the very connection it came from, wrapped counter or not. */
  lemma AnswerAtOnce(correct: bool, w: World, pos: nat)
    requires !w.table.failed && 0 < pos < |w.table.peers| && w.table.peers[pos].online
    ensures var t := Step(correct, Step(correct, w, Receive(pos)), Send(|w.stamps|));
      |t.log| == |w.log| + 1 && t.log[..|w.log|] == w.log && t.log[|w.log|].reached == w.table.peers[pos]
  {
  }

  /** A new connection stands last, is online, and answers at once. */
  lemma ConnectionIsHeard(correct: bool, w: World, socket: nat)
    requires !w.table.failed && w.table.peers != []
    ensures var t := Step(correct, w, Connect(socket)); var n := |w.table.peers|;
      && !t.table.failed && |t.table.peers| == n + 1 && t.table.peers[..n] == w.table.peers
      && t.table.peers[n].online && t.table.peers[n].socket == socket
      && |Step(correct, t, Receive(n)).stamps| == |w.stamps| + 1
  {
  }

  /** Every entry with this number is offline. */
  ghost predicate Silent(t: Table, born: nat) {
    born <= t.accepts && forall c :: c in t.peers && c.born == born ==> !c.online
  }

  lemma EraseEachIsPart<T>(s: seq<T>, q: seq<nat>)
    ensures EraseEach(s, q).Some? ==> forall x :: x in EraseEach(s, q).value ==> x in s
    decreases |q|
  {
    if q != [] && q[0] < |s| { EraseEachIsPart(Without(s, q[0]), q[1..]); }
  }

  lemma PassKeepsSilent(correct: bool, t: Table, hungUp: set<nat>, born: nat)
    requires Silent(t, born)
    ensures Silent(Pass(correct, t, hungUp), born)
  {
    hide EraseEach, Positions;
    var q := Positions(|t.sockets|, hungUp);
    EraseEachIsPart(Marked(t.peers, q), Queue(correct, q));
  }

  lemma StepKeepsSilent(correct: bool, w: World, a: Action, born: nat)
    requires Silent(w.table, born)
    ensures Silent(Step(correct, w, a).table, born)
    ensures w.stamps <= Step(correct, w, a).stamps
    ensures forall k :: |w.stamps| <= k < |Step(correct, w, a).stamps| ==> Step(correct, w, a).stamps[k].born != born
  {
    hide Pass;
    if a.HangUps? { PassKeepsSilent(correct, w.table, a.hungUp, born); }
  }

  lemma {:induction false} RunKeepsSilent(correct: bool, w: World, acts: seq<Action>, born: nat)
    requires Silent(w.table, born)
    ensures Silent(Run(correct, w, acts).table, born)
    ensures w.stamps <= Run(correct, w, acts).stamps
    ensures forall k :: |w.stamps| <= k < |Run(correct, w, acts).stamps| ==> Run(correct, w, acts).stamps[k].born != born
    decreases |acts|
  {
    if acts != [] {
      StepKeepsSilent(correct, w, acts[0], born);
      RunKeepsSilent(correct, Step(correct, w, acts[0]), acts[1..], born);
    }
  }

  /** Once a connection has been rejected no packet of it is ever taken again, in any run. */
  lemma RejectedIsSilent(correct: bool, listenSocket: nat, acts: seq<Action>, pos: nat, more: seq<Action>)
    requires var w := Run(correct, Init(listenSocket), acts); !w.table.failed && 0 < pos < |w.table.peers|
    ensures var w := Run(correct, Init(listenSocket), acts);
      var v := Step(correct, w, Reject(pos)); var t := Run(correct, v, more);
      && v.table == w.table.(peers := v.table.peers) && v.stamps == w.stamps && v.log == w.log
      && |v.table.peers| == |w.table.peers| && v.table.peers[pos] == w.table.peers[pos].(online := false)
      && (forall i :: 0 <= i < |w.table.peers| && i != pos ==> v.table.peers[i] == w.table.peers[i])
      && w.stamps <= t.stamps
      && forall k :: |w.stamps| <= k < |t.stamps| ==> t.stamps[k].born != w.table.peers[pos].born
  {
    RunKeepsInv(correct, Init(listenSocket), Conn(listenSocket, 0, true, 0), acts);
    var w := Run(correct, Init(listenSocket), acts);
    RunKeepsSilent(correct, Step(correct, w, Reject(pos)), more, w.table.peers[pos].born);
  }
}
