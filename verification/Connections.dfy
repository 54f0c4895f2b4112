/** The HOST's connection table: two parallel vectors, removal by position after a pass, and stamped packets. */
module Connections {
  import opened Protocol
  import opened Sequences

  const ID_RANGE := 0x1_0000_0000

  /** The unique id that the counter gives to the connection with this number. */
  function Wrapped(born: nat): nat { born % ID_RANGE }

  /** Two connections get one unique id exactly when they are a multiple of 2^32 apart, and the first 2^32 - 1
      ids are the numbers of their connections. */
  lemma UniqueIDsRepeatAtWrap(i: nat, j: nat)
    requires i < j
    ensures Wrapped(i) == Wrapped(j) <==> (j - i) % 0x1_0000_0000 == 0
    ensures i < 0x1_0000_0000 ==> Wrapped(i) == i
  {
    assert j - i == (j / ID_RANGE - i / ID_RANGE) * ID_RANGE + (Wrapped(j) - Wrapped(i));
  }

  /** `born` numbers the connections in the order they were accepted; no branch reads it. */
  datatype Conn = Conn(socket: nat, uniqueID: nat, online: bool, born: nat)

  // ----- erasing queued positions -----

  /** Erase the positions one after the other, as they are; None when an erase is past the end. */
  function EraseEach<T>(s: seq<T>, q: seq<nat>): Option<seq<T>>
    decreases |q|
  {
    if q == [] then Some(s) else if q[0] < |s| then EraseEach(Without(s, q[0]), q[1..]) else None
  }

  ghost predicate Ascending(q: seq<nat>) {
    forall i, j :: 0 <= i < j < |q| ==> q[i] < q[j]
  }

  ghost predicate Below(q: seq<nat>, n: nat) {
    forall i :: 0 <= i < |q| ==> q[i] < n
  }

  lemma {:induction false} AscendingIndex(q: seq<nat>, i: nat)
    requires Ascending(q) && i < |q|
    ensures i <= q[i]
  {
    if i > 0 { AscendingIndex(q, i - 1); }
  }

  /** Position j of the queue, corrected for the j erases before it. */
  function Corrected(q: seq<nat>, j: nat): nat
    requires j < |q|
  {
    if q[j] >= j then q[j] - j else 0
  }

  function ShiftDown(q: seq<nat>): seq<nat> { seq(|q|, j requires 0 <= j < |q| => Corrected(q, j)) }

  function ShiftUp(q: seq<nat>): seq<nat> { seq(|q|, j requires 0 <= j < |q| => q[j] + j) }

  /** The elements whose positions are not in `gone`, in order. */
  function Keep<T>(s: seq<T>, gone: seq<nat>): seq<T> {
    if s == [] then [] else Keep(s[..|s| - 1], gone) + if |s| - 1 in gone then [] else [s[|s| - 1]]
  }

  lemma {:induction false} KeepSplit<T>(s: seq<T>, gone: seq<nat>, m: nat)
    requires Below(gone, m) && m <= |s|
    ensures Keep(s, gone) == Keep(s[..m], gone) + s[m..]
  {
    if |s| == m {
      assert s[..m] == s;
    } else {
      var t := s[..|s| - 1];
      KeepSplit(t, gone, m);
      assert t[..m] == s[..m] && s[m..] == t[m..] + [s[|s| - 1]];
    }
  }

  lemma {:induction false} KeepSame<T>(s: seq<T>, a: seq<nat>, b: seq<nat>)
    requires forall i :: 0 <= i < |s| ==> (i in a <==> i in b)
    ensures Keep(s, a) == Keep(s, b)
  {
    if s != [] { KeepSame(s[..|s| - 1], a, b); }
  }

  lemma {:induction false} KeepAll<T>(s: seq<T>)
    ensures Keep(s, []) == s
  {
    if s != [] {
      KeepAll(s[..|s| - 1]);
      assert s == s[..|s| - 1] + [s[|s| - 1]];
    }
  }

  lemma {:induction false} EraseLast<T>(s: seq<T>, q: seq<nat>, p: nat)
    ensures EraseEach(s, q + [p]) ==
      match EraseEach(s, q) { case None => None case Some(r) => if p < |r| then Some(Without(r, p)) else None }
    decreases |q|
  {
    if q == [] {
      assert [p][1..] == [] && q + [p] == [p];
    } else {
      assert (q + [p])[1..] == q[1..] + [p];
      if q[0] < |s| { EraseLast(Without(s, q[0]), q[1..], p); }
    }
  }

  lemma WithoutAt<T>(head: seq<T>, tail: seq<T>)
    requires tail != []
    ensures Without(head + tail, |head|) == head + tail[1..]
  {
  }

  lemma KeepOneMore<T>(s: seq<T>, front: seq<nat>, m: nat)
    requires Below(front, m) && m < |s|
    ensures |Keep(s[..m], front)| < |Keep(s, front)|
    ensures Keep(s, front + [m]) == Without(Keep(s, front), |Keep(s[..m], front)|)
  {
    var head := Keep(s[..m], front);
    KeepSplit(s, front, m);
    WithoutAt(head, s[m..]);
    assert s[m..][1..] == s[m + 1..];
    KeepSplit(s, front + [m], m + 1);
    KeepSame(s[..m], front, front + [m]);
    assert s[..m + 1][..m] == s[..m];
  }

  /** Erasing ascending positions, each corrected for the erases before it, keeps exactly the others. */
  lemma {:induction false} CorrectedDrainKeeps<T>(s: seq<T>, q: seq<nat>)
    requires Ascending(q) && Below(q, |s|)
    ensures EraseEach(s, ShiftDown(q)) == Some(Keep(s, q)) && |Keep(s, q)| == |s| - |q|
    decreases |q|
  {
    if q == [] {
      KeepAll(s);
      assert ShiftDown(q) == [];
    } else {
      var n := |q| - 1;
      var m, front := q[n], q[..n];
      AscendingIndex(q, n);
      assert ShiftDown(q) == ShiftDown(front) + [m - n];
      assert q == front + [m];
      CorrectedDrainKeeps(s, front);
      EraseLast(s, ShiftDown(front), m - n);
      CorrectedDrainKeeps(s[..m], front);
      KeepOneMore(s, front, m);
    }
  }

  lemma ShiftUpDown(q: seq<nat>)
    requires Ascending(q)
    ensures Ascending(ShiftUp(q)) && ShiftDown(ShiftUp(q)) == q
  {
  }

  lemma {:induction false} ErasesFit<T>(s: seq<T>, q: seq<nat>)
    ensures EraseEach(s, q).Some? <==> forall j :: 0 <= j < |q| ==> q[j] + j < |s|
    decreases |q|
  {
    if q != [] {
      var rest := q[1..];
      if q[0] < |s| {
        ErasesFit(Without(s, q[0]), rest);
        assert forall j :: 0 <= j < |rest| ==> rest[j] == q[j + 1];
        if forall j :: 0 <= j < |rest| ==> rest[j] + j < |s| - 1 {
          forall j | 0 <= j < |q| ensures q[j] + j < |s| { if j > 0 { assert rest[j - 1] + (j - 1) < |s| - 1; } }
        }
      }
    }
  }

  /** As written, entry j of an ascending queue erases the connection that stood at q[j] + j, and the drain
      runs past the end of the vectors exactly when one of those positions does not exist. */
  lemma UncorrectedDrain<T>(s: seq<T>, q: seq<nat>)
    requires Ascending(q)
    ensures EraseEach(s, q) == if Below(ShiftUp(q), |s|) then Some(Keep(s, ShiftUp(q))) else None
  {
    ErasesFit(s, q);
    ShiftUpDown(q);
    if Below(ShiftUp(q), |s|) {
      forall j | 0 <= j < |q| ensures q[j] + j < |s| { assert ShiftUp(q)[j] < |s|; }
      CorrectedDrainKeeps(s, ShiftUp(q));
    }
  }

  lemma {:induction false} KeptElement<T>(s: seq<T>, gone: seq<nat>, i: nat)
    requires i < |s| && forall j, k :: 0 <= j < k < |s| ==> s[j] != s[k]
    ensures s[i] in Keep(s, gone) <==> i !in gone
  {
    var t, last := s[..|s| - 1], s[|s| - 1];
    if i == |s| - 1 {
      KeptAreIn(t, gone);
    } else {
      KeptElement(t, gone, i);
    }
  }

  lemma {:induction false} KeptAreIn<T>(s: seq<T>, gone: seq<nat>)
    ensures forall x :: x in Keep(s, gone) ==> x in s
  {
    if s != [] { KeptAreIn(s[..|s| - 1], gone); }
  }

  /** The uncorrected drain does what was meant exactly when no more than one connection is queued. */
  lemma UncorrectedDrainIsRight<T>(s: seq<T>, q: seq<nat>)
    requires Ascending(q) && Below(q, |s|) && forall j, k :: 0 <= j < k < |s| ==> s[j] != s[k]
    ensures EraseEach(s, q) == Some(Keep(s, q)) <==> |q| <= 1
  {
    UncorrectedDrain(s, q);
    if |q| <= 1 {
      assert ShiftUp(q) == q;
    } else if Below(ShiftUp(q), |s|) {
      var up := ShiftUp(q);
      assert q[1] !in up by {
        forall j | 0 <= j < |up| ensures up[j] != q[1] { if j > 1 { assert q[1] < q[j]; } }
      }
      KeptElement(s, up, q[1]);
      KeptElement(s, q, q[1]);
    }
  }

  // ----- the table -----

  datatype Table = Table(sockets: seq<nat>, peers: seq<Conn>, accepts: nat, failed: bool)

  /** The positions, from 1 on, whose connection has hung up: what one pass of the loop queues. */
  function Positions(n: nat, hungUp: set<nat>): (q: seq<nat>)
    ensures Ascending(q) && Below(q, n)
    ensures forall i :: i in q <==> 1 <= i < n && i in hungUp
  {
    if n <= 1 then [] else Positions(n - 1, hungUp) + if n - 1 in hungUp then [n - 1] else []
  }

  lemma PositionsGrow(hungUp: set<nat>)
    ensures Positions(0, hungUp) == Positions(1, hungUp) == []
    ensures forall n: nat :: n >= 1 ==>
      Positions(n + 1, hungUp) == Positions(n, hungUp) + if n in hungUp then [n] else []
  {
  }

  /** Every queued connection is marked offline. */
  function Marked(peers: seq<Conn>, q: seq<nat>): (r: seq<Conn>)
    ensures |r| == |peers|
    ensures forall i :: 0 <= i < |peers| ==> r[i] == if i in q then peers[i].(online := false) else peers[i]
  {
    seq(|peers|, i requires 0 <= i < |peers| => if i in q then peers[i].(online := false) else peers[i])
  }

  lemma MarkedNone(peers: seq<Conn>)
    ensures Marked(peers, []) == peers
  {
  }

  lemma MarkedMore(peers: seq<Conn>, q: seq<nat>, i: nat)
    requires i < |peers|
    ensures Marked(peers, q + [i]) == Marked(peers, q)[i := Marked(peers, q)[i].(online := false)]
  {
  }

  function Accept(t: Table, socket: nat): Table {
    var born := t.accepts + 1;
    Table(t.sockets + [socket], t.peers + [Conn(socket, Wrapped(born), true, born)], born, t.failed)
  }

  function Queue(correct: bool, q: seq<nat>): seq<nat> { if correct then ShiftDown(q) else q }

  /** One pass: mark and queue what hung up, then drain. A drain past the end leaves a failed table. */
  function Pass(correct: bool, t: Table, hungUp: set<nat>): Table {
    var q := Positions(|t.sockets|, hungUp);
    Drain(t.(peers := Marked(t.peers, q)), Queue(correct, q))
  }

  function Drain(t: Table, q: seq<nat>): Table {
    match (EraseEach(t.sockets, q), EraseEach(t.peers, q))
    case (Some(sockets), Some(peers)) => t.(sockets := sockets, peers := peers)
    case _ => t.(failed := true)
  }

  function Kept(t: Table, gone: seq<nat>): Table {
    t.(sockets := Keep(t.sockets, gone), peers := Keep(t.peers, gone))
  }

  ghost predicate Parallel(t: Table) {
    && |t.sockets| == |t.peers|
    && forall i :: 0 <= i < |t.peers| ==> t.sockets[i] == t.peers[i].socket
  }

  ghost predicate Ordered(t: Table) {
    && (forall i, j :: 0 <= i < j < |t.peers| ==> t.peers[i].born < t.peers[j].born)
    && (forall i :: 0 <= i < |t.peers| ==> t.peers[i].uniqueID == Wrapped(t.peers[i].born) && t.peers[i].born <= t.accepts)
  }

  /** The two vectors name the same sockets position by position, slot 0 is the endpoint itself, and the
      connections stand in the order they were accepted. */
  ghost predicate TableInv(t: Table, self: Conn) {
    Parallel(t) && Ordered(t) && t.peers != [] && t.peers[0] == self
  }

  lemma {:induction false} KeepParallel(sockets: seq<nat>, peers: seq<Conn>, gone: seq<nat>)
    requires |sockets| == |peers| && forall i :: 0 <= i < |peers| ==> sockets[i] == peers[i].socket
    ensures |Keep(sockets, gone)| == |Keep(peers, gone)|
    ensures forall i :: 0 <= i < |Keep(peers, gone)| ==> Keep(sockets, gone)[i] == Keep(peers, gone)[i].socket
  {
    if peers != [] { KeepParallel(sockets[..|peers| - 1], peers[..|peers| - 1], gone); }
  }

  lemma {:induction false} KeepOrdered(t: Table, gone: seq<nat>)
    requires Ordered(t)
    ensures Ordered(t.(peers := Keep(t.peers, gone)))
    decreases |t.peers|
  {
    if t.peers != [] {
      var u := t.(peers := t.peers[..|t.peers| - 1]);
      KeepOrdered(u, gone);
      KeptAreIn(u.peers, gone);
      var kept := Keep(u.peers, gone);
      forall i | 0 <= i < |kept| ensures kept[i].born < t.peers[|t.peers| - 1].born {
        assert kept[i] in u.peers;
      }
    }
  }

  lemma KeepFirst<T>(s: seq<T>, gone: seq<nat>)
    requires s != [] && 0 !in gone
    ensures Keep(s, gone) != [] && Keep(s, gone)[0] == s[0]
  {
    KeepHead(s, gone, |s|);
  }

  lemma {:induction false} KeepHead<T>(s: seq<T>, gone: seq<nat>, n: nat)
    requires 0 < n <= |s| && 0 !in gone
    ensures Keep(s[..n], gone) != [] && Keep(s[..n], gone)[0] == s[0]
    ensures s[..|s|] == s
  {
    if n > 1 {
      KeepHead(s, gone, n - 1);
      assert s[..n][..n - 1] == s[..n - 1];
    }
  }

  /** A drain erases the same original positions from both vectors, corrected or not. */
  lemma DrainKeeps(correct: bool, t: Table, q: seq<nat>)
    requires |t.sockets| == |t.peers| && Ascending(q) && Below(q, |t.peers|)
    ensures var gone := if correct then q else ShiftUp(q);
      Drain(t, Queue(correct, q)) == if Below(gone, |t.peers|) then Kept(t, gone) else t.(failed := true)
  {
    if correct {
      CorrectedDrainKeeps(t.sockets, q);
      CorrectedDrainKeeps(t.peers, q);
    } else {
      UncorrectedDrain(t.sockets, q);
      UncorrectedDrain(t.peers, q);
    }
  }

  lemma KeptInv(t: Table, self: Conn, gone: seq<nat>)
    requires TableInv(t, self) && 0 !in gone
    ensures TableInv(Kept(t, gone), self)
  {
    KeepParallel(t.sockets, t.peers, gone);
    KeepOrdered(t, gone);
    KeepFirst(t.peers, gone);
  }

  lemma MarkedInv(t: Table, self: Conn, q: seq<nat>)
    requires TableInv(t, self) && 0 !in q
    ensures TableInv(t.(peers := Marked(t.peers, q)), self)
  {
  }

  lemma DrainInv(correct: bool, t: Table, self: Conn, q: seq<nat>)
    requires TableInv(t, self) && Ascending(q) && Below(q, |t.peers|) && 0 !in q
    ensures TableInv(Drain(t, Queue(correct, q)), self)
    ensures correct ==> Drain(t, Queue(correct, q)).failed == t.failed
  {
    var gone := if correct then q else ShiftUp(q);
    DrainKeeps(correct, t, q);
    assert 0 !in gone;
    KeptInv(t, self, gone);
  }

  lemma PassInv(correct: bool, t: Table, self: Conn, hungUp: set<nat>)
    requires TableInv(t, self)
    ensures TableInv(Pass(correct, t, hungUp), self)
    ensures correct ==> Pass(correct, t, hungUp).failed == t.failed
  {
    var q := Positions(|t.sockets|, hungUp);
    MarkedInv(t, self, q);
    DrainInv(correct, t.(peers := Marked(t.peers, q)), self, q);
  }

  function Births(peers: seq<Conn>): (r: seq<nat>)
    ensures |r| == |peers|
  {
    seq(|peers|, i requires 0 <= i < |peers| => peers[i].born)
  }

  lemma {:induction false} KeepBirths(peers: seq<Conn>, gone: seq<nat>)
    ensures Births(Keep(peers, gone)) == Keep(Births(peers), gone)
  {
    if peers != [] {
      var front := peers[..|peers| - 1];
      KeepBirths(front, gone);
      assert Births(peers)[..|peers| - 1] == Births(front);
      assert Births(Keep(peers, gone)) == Births(Keep(front, gone))
        + if |peers| - 1 in gone then [] else [peers[|peers| - 1].born];
    }
  }

  lemma {:induction false} KeepOthers(a: seq<Conn>, b: seq<Conn>, gone: seq<nat>)
    requires |a| == |b| && forall i :: 0 <= i < |a| && i !in gone ==> a[i] == b[i]
    ensures Keep(a, gone) == Keep(b, gone)
  {
    if a != [] { KeepOthers(a[..|a| - 1], b[..|b| - 1], gone); }
  }

  /** With two or more queued, the drain as written does not leave what was meant. */
  lemma UncorrectedPassIsWrong(t: Table, peers: seq<Conn>, q: seq<nat>)
    requires Ordered(t) && Births(peers) == Births(t.peers)
    requires Ascending(q) && Below(q, |t.peers|) && |q| > 1 && Below(ShiftUp(q), |t.peers|)
    ensures Keep(peers, ShiftUp(q)) != Keep(t.peers, q)
  {
    var births := Births(t.peers);
    UncorrectedDrain(births, q);
    UncorrectedDrainIsRight(births, q);
    KeepBirths(peers, ShiftUp(q));
    KeepBirths(t.peers, q);
  }

  lemma DrainLeavesTheOthers(correct: bool, t: Table, m: Table, q: seq<nat>)
    requires Ordered(t) && |t.sockets| == |t.peers| && !t.failed
    requires Ascending(q) && Below(q, |t.peers|) && m == t.(peers := Marked(t.peers, q))
    ensures Drain(m, Queue(correct, q)) == Kept(t, q) <==> correct || |q| <= 1
  {
    hide Drain, EraseEach, Keep, Queue;
    if correct || |q| <= 1 {
      DrainKeepsRight(correct, m, q);
      KeepOthers(t.peers, m.peers, q);
    } else {
      DrainKeeps(correct, m, q);
      assert Births(m.peers) == Births(t.peers);
      if Below(ShiftUp(q), |t.peers|) { UncorrectedPassIsWrong(t, m.peers, q); }
    }
  }

  lemma DrainKeepsRight(correct: bool, t: Table, q: seq<nat>)
    requires |t.sockets| == |t.peers| && Ascending(q) && Below(q, |t.peers|) && (correct || |q| <= 1)
    ensures Drain(t, Queue(correct, q)) == Kept(t, q)
  {
    DrainKeeps(correct, t, q);
    if |q| <= 1 { assert ShiftUp(q) == q; }
  }

  /** Exactly these passes leave the connections that did not hang up, in their order: a corrected one
      always, the one as written when no more than one connection hung up. */
  lemma PassLeavesTheOthers(correct: bool, t: Table, self: Conn, hungUp: set<nat>)
    requires TableInv(t, self) && !t.failed
    ensures var q := Positions(|t.sockets|, hungUp);
      Pass(correct, t, hungUp) == Kept(t, q) <==> correct || |q| <= 1
  {
    var q := Positions(|t.sockets|, hungUp);
    DrainLeavesTheOthers(correct, t, t.(peers := Marked(t.peers, q)), q);
  }
}
