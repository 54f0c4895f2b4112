/** A HOST and any number of PEERs that connect to it, in every interleaving of their handshakes. */
module HandshakeRuns {
  import opened Protocol
  import opened Sequences
  import opened Handshake

  /** One connection: the PEER's settings, the two HANDSHAKE bits, and whether the HOST has it online. */
  datatype Link = Link(peer: Settings, hostDone: bool, peerDone: bool, online: bool)

  datatype Letter = Letter(link: nat, data: Data)

  datatype World = World(links: seq<Link>, up: seq<Letter>, down: seq<Letter>)

  /** A letter may be taken from any position of its channel. */
  datatype Action = Connect(peer: Settings) | Up(i: nat) | Down(i: nat)

  const EMPTY := World([], [], [])

  function Post(wire: seq<Letter>, link: nat, back: Option<Data>): seq<Letter> {
    match back case None => wire case Some(d) => wire + [Letter(link, d)]
  }

  /** The HOST's side of one connection after it has taken d: a rejected one is not listened to. */
  function HostTakes(fix: Repairs, host: Settings, x: Link, d: Data): (Link, Option<Data>) {
    if !x.online then (x, None) else
      var h := Handle(fix, host, d);
      (x.(hostDone := x.hostDone || h.effect == ApprovePeer, online := h.effect != RejectPeer), h.back)
  }

  /** The PEER's side of its own connection after it has taken d. */
  function PeerTakes(fix: Repairs, x: Link, d: Data): (Link, Option<Data>) {
    var h := Handle(fix, x.peer, d);
    (x.(peerDone := x.peerDone || h.effect == ApproveSelf), h.back)
  }

  function Step(fix: Repairs, host: Settings, w: World, a: Action): World {
    match a
    case Connect(peer) =>
      World(w.links + [Link(peer, false, false, true)], w.up,
            w.down + [Letter(|w.links|, Pack(fix, host, ResponseStart, Data(ResponseStart, 0, 0)))])
    case Up(i) =>
      if i >= |w.up| || w.up[i].link >= |w.links| then w else
        var c := w.up[i].link;
        var (x, back) := HostTakes(fix, host, w.links[c], w.up[i].data);
        World(w.links[c := x], Without(w.up, i), Post(w.down, c, back))
    case Down(i) =>
      if i >= |w.down| || w.down[i].link >= |w.links| then w else
        var c := w.down[i].link;
        var (x, back) := PeerTakes(fix, w.links[c], w.down[i].data);
        World(w.links[c := x], Post(w.up, c, back), Without(w.down, i))
  }

  function Run(fix: Repairs, host: Settings, w: World, acts: seq<Action>): World
    decreases |acts|
  {
    if acts == [] then w else Run(fix, host, Step(fix, host, w, acts[0]), acts[1..])
  }

  function Of(c: nat): Letter -> bool { (l: Letter) => l.link == c }

  function Ups(w: World, c: nat): seq<Letter> { Only(w.up, Of(c)) }

  function Downs(w: World, c: nat): seq<Letter> { Only(w.down, Of(c)) }

  predicate Compatible(host: Settings, peer: Settings) { Accepts(host, peer.version, peer.agreement) }

  // ----- the phases of one connection -----

  /** Nothing is decided yet. */
  predicate Undecided(x: Link) { !x.hostDone && !x.peerDone && x.online }

  /** The HOST has decided, and rightly. */
  predicate Decided(host: Settings, x: Link) {
    x.hostDone == x.online == Compatible(host, x.peer)
  }

  ghost predicate UpPhase(fix: Repairs, host: Settings, x: Link, d: Data) {
    if !fix.wireCarriesCode then d.code == ResponseStart && Undecided(x)
    else match d.code
      case ResponseNone => Undecided(x) && d.version == x.peer.version && d.agreement == x.peer.agreement
      case ResponseApproved => !fix.gateOnRespond && Decided(host, x) && x.hostDone && x.peerDone
      case ResponseCriticalError => !fix.gateOnRespond && Decided(host, x) && !x.hostDone && !x.peerDone
      case _ => false
  }

  ghost predicate DownPhase(fix: Repairs, host: Settings, x: Link, d: Data) {
    if !fix.wireCarriesCode then d.code == ResponseStart && Undecided(x)
    else match d.code
      case ResponseStart => Undecided(x)
      case ResponseApproved => Decided(host, x) && x.hostDone && (fix.gateOnRespond ==> !x.peerDone)
      case ResponseCriticalError => Decided(host, x) && !x.hostDone && !x.peerDone
      case _ => false
  }

  ghost predicate Phase(fix: Repairs, host: Settings, x: Link, ups: seq<Letter>, downs: seq<Letter>) {
    if ups == [] && downs == []
    then fix.wireCarriesCode && Decided(host, x) && x.peerDone == x.hostDone && (x.hostDone ==> fix.gateOnRespond)
    else if downs == [] then |ups| == 1 && UpPhase(fix, host, x, ups[0].data)
    else ups == [] && |downs| == 1 && DownPhase(fix, host, x, downs[0].data)
  }

  ghost predicate Inv(fix: Repairs, host: Settings, w: World) {
    && (forall l :: l in w.up ==> l.link < |w.links|)
    && (forall l :: l in w.down ==> l.link < |w.links|)
    && (forall c :: 0 <= c < |w.links| ==> Phase(fix, host, w.links[c], Ups(w, c), Downs(w, c)))
  }

  /** Taking the letter at i and posting at most one reply, as one connection sees the two channels. */
  lemma Exchange(from: seq<Letter>, to: seq<Letter>, i: nat, back: Option<Data>, c: nat)
    requires i < |from|
    ensures var l := from[i];
      && (l.link != c ==> Only(Without(from, i), Of(c)) == Only(from, Of(c)) && Only(Post(to, l.link, back), Of(c)) == Only(to, Of(c)))
      && (l.link == c ==> l in Only(from, Of(c)) && Only(Post(to, l.link, back), Of(c)) == Post(Only(to, Of(c)), c, back))
      && (l.link == c && |Only(from, Of(c))| == 1 ==> Only(from, Of(c)) == [l] && Only(Without(from, i), Of(c)) == [])
  {
    OnlySplit(from, i, Of(c));
    if back.Some? { OnlyAppend(to, Letter(from[i].link, back.value), Of(c)); }
  }

  lemma UpPhaseStep(fix: Repairs, host: Settings, x: Link, d: Data, c: nat)
    requires UpPhase(fix, host, x, d)
    ensures var (y, back) := HostTakes(fix, host, x, d); Phase(fix, host, y, [], Post([], c, back))
  {
  }

  lemma UpKeepsInv(fix: Repairs, host: Settings, w: World, i: nat)
    requires Inv(fix, host, w)
    ensures Inv(fix, host, Step(fix, host, w, Up(i)))
  {
    if i < |w.up| {
      var t := Step(fix, host, w, Up(i));
      var e := w.up[i].link;
      var (y, back) := HostTakes(fix, host, w.links[e], w.up[i].data);
      forall c | 0 <= c < |w.links| ensures Phase(fix, host, t.links[c], Ups(t, c), Downs(t, c)) {
        assert Phase(fix, host, w.links[c], Ups(w, c), Downs(w, c));
        Exchange(w.up, w.down, i, back, c);
        if c == e { UpPhaseStep(fix, host, w.links[e], w.up[i].data, e); }
      }
    }
  }

  lemma DownPhaseStep(fix: Repairs, host: Settings, x: Link, d: Data, c: nat)
    requires DownPhase(fix, host, x, d)
    ensures var (y, back) := PeerTakes(fix, x, d); Phase(fix, host, y, Post([], c, back), [])
  {
  }

  lemma DownKeepsInv(fix: Repairs, host: Settings, w: World, i: nat)
    requires Inv(fix, host, w)
    ensures Inv(fix, host, Step(fix, host, w, Down(i)))
  {
    if i < |w.down| {
      var t := Step(fix, host, w, Down(i));
      var e := w.down[i].link;
      var (y, back) := PeerTakes(fix, w.links[e], w.down[i].data);
      forall c | 0 <= c < |w.links| ensures Phase(fix, host, t.links[c], Ups(t, c), Downs(t, c)) {
        assert Phase(fix, host, w.links[c], Ups(w, c), Downs(w, c));
        Exchange(w.down, w.up, i, back, c);
        if c == e { DownPhaseStep(fix, host, w.links[e], w.down[i].data, e); }
      }
    }
  }

  lemma ConnectKeepsInv(fix: Repairs, host: Settings, w: World, peer: Settings)
    requires Inv(fix, host, w)
    ensures Inv(fix, host, Step(fix, host, w, Connect(peer)))
  {
    var t := Step(fix, host, w, Connect(peer));
    forall c | 0 <= c < |t.links| ensures Phase(fix, host, t.links[c], Ups(t, c), Downs(t, c)) {
      OnlyAppend(w.down, t.down[|w.down|], Of(c));
      if c == |w.links| {
        OnlyNone(w.up, Of(c));
        OnlyNone(w.down, Of(c));
      } else {
        assert Phase(fix, host, w.links[c], Ups(w, c), Downs(w, c));
      }
    }
  }

  lemma {:induction false} RunKeepsInv(fix: Repairs, host: Settings, w: World, acts: seq<Action>)
    requires Inv(fix, host, w)
    ensures Inv(fix, host, Run(fix, host, w, acts))
    decreases |acts|
  {
    if acts != [] {
      match acts[0] {
        case Connect(peer) => ConnectKeepsInv(fix, host, w, peer);
        case Up(i) => UpKeepsInv(fix, host, w, i);
        case Down(i) => DownKeepsInv(fix, host, w, i);
      }
      RunKeepsInv(fix, host, Step(fix, host, w, acts[0]), acts[1..]);
    }
  }

  /** With or without the repairs: a PEER has its HANDSHAKE bit only if the HOST has set it for that connection,
      and the HOST sets it only for its own version and a chunk size within its bounds, and rejects only where
      one of the three fails. */
  lemma HandshakeAgreement(fix: Repairs, host: Settings, acts: seq<Action>, c: nat)
    requires c < |Run(fix, host, EMPTY, acts).links|
    ensures var x := Run(fix, host, EMPTY, acts).links[c];
      && (x.peerDone ==> x.hostDone)
      && (x.hostDone ==> x.online && x.peer.version == host.version)
      && (x.hostDone ==> host.least <= x.peer.agreement && x.peer.agreement <= host.most)
      && (!x.online ==> !x.hostDone && !x.peerDone)
      && (!x.online ==> (x.peer.version != host.version || x.peer.agreement < host.least || x.peer.agreement > host.most))
  {
    RunKeepsInv(fix, host, EMPTY, acts);
    var w := Run(fix, host, EMPTY, acts);
    assert Phase(fix, host, w.links[c], Ups(w, c), Downs(w, c));
  }

  /** A connection is over when no handshake of it is in flight. */
  predicate Over(w: World, c: nat) { Ups(w, c) == [] && Downs(w, c) == [] }

  /** When the wire carries the code, a handshake that is over has decided both sides by the settings alone.
      When it does not, no handshake is ever over and neither side ever has its bit. */
  lemma HandshakeOutcome(fix: Repairs, host: Settings, acts: seq<Action>, c: nat)
    requires c < |Run(fix, host, EMPTY, acts).links|
    ensures var w := Run(fix, host, EMPTY, acts); var x := w.links[c];
      && (fix.wireCarriesCode && Over(w, c) ==> x.peerDone == x.hostDone == x.online)
      && (fix.wireCarriesCode && Over(w, c) ==>
            (x.online <==> x.peer.version == host.version && host.least <= x.peer.agreement && x.peer.agreement <= host.most))
      && (!fix.wireCarriesCode ==> !Over(w, c) && Undecided(x))
      && (fix.wireCarriesCode && !fix.gateOnRespond && x.peerDone ==> !Over(w, c))
  {
    RunKeepsInv(fix, host, EMPTY, acts);
    var w := Run(fix, host, EMPTY, acts);
    assert Phase(fix, host, w.links[c], Ups(w, c), Downs(w, c));
  }

  // ----- every handshake ends -----

  /** How many letters a letter can still lead to, itself included. */
  function Left(d: Data): nat {
    if d.code == ResponseStart then 3 else if d.code == ResponseNone then 2 else 1
  }

  function LeftOf(): Letter -> nat { (l: Letter) => Left(l.data) }

  function InFlight(w: World): nat { Total(w.up, LeftOf()) + Total(w.down, LeftOf()) }

  predicate Delivers(w: World, a: Action) {
    (a.Up? && a.i < |w.up|) || (a.Down? && a.i < |w.down|)
  }

  lemma LetterPhase(fix: Repairs, host: Settings, w: World, a: Action)
    requires Inv(fix, host, w) && Delivers(w, a)
    ensures a.Up? ==> w.up[a.i].link < |w.links| && UpPhase(fix, host, w.links[w.up[a.i].link], w.up[a.i].data)
    ensures a.Down? ==> w.down[a.i].link < |w.links| && DownPhase(fix, host, w.links[w.down[a.i].link], w.down[a.i].data)
  {
    var l := if a.Up? then w.up[a.i] else w.down[a.i];
    var c := l.link;
    assert c < |w.links| && Phase(fix, host, w.links[c], Ups(w, c), Downs(w, c));
    OnlyMember(if a.Up? then w.up else w.down, Of(c), l);
  }

  /** With both repairs every delivery brings its handshake nearer to its end. */
  lemma DeliveryLowers(fix: Repairs, host: Settings, w: World, a: Action)
    requires Inv(fix, host, w) && fix.wireCarriesCode && fix.gateOnRespond && Delivers(w, a)
    ensures InFlight(Step(fix, host, w, a)) < InFlight(w)
    ensures |Step(fix, host, w, a).links| == |w.links|
  {
    hide Total;
    LetterPhase(fix, host, w, a);
    var wire := if a.Up? then w.up else w.down;
    var other := if a.Up? then w.down else w.up;
    var c := wire[a.i].link;
    var back := if a.Up? then HostTakes(fix, host, w.links[c], wire[a.i].data).1 else PeerTakes(fix, w.links[c], wire[a.i].data).1;
    TotalWithout(wire, a.i, LeftOf());
    if back.Some? { TotalAppend(other, Letter(c, back.value), LeftOf()); }
  }

  lemma StepKeepsInv(fix: Repairs, host: Settings, w: World, a: Action)
    requires Inv(fix, host, w)
    ensures Inv(fix, host, Step(fix, host, w, a))
  {
    match a {
      case Connect(peer) => ConnectKeepsInv(fix, host, w, peer);
      case Up(i) => UpKeepsInv(fix, host, w, i);
      case Down(i) => DownKeepsInv(fix, host, w, i);
    }
  }

  lemma {:induction false} DeliverAll(fix: Repairs, host: Settings, w: World) returns (more: seq<Action>)
    requires Inv(fix, host, w) && fix.wireCarriesCode && fix.gateOnRespond
    ensures |more| <= InFlight(w) && forall a :: a in more ==> !a.Connect?
    ensures var t := Run(fix, host, w, more);
      Inv(fix, host, t) && t.up == [] && t.down == [] && |t.links| == |w.links|
    decreases InFlight(w)
  {
    hide Inv, Step, InFlight;
    if w.up == [] && w.down == [] {
      more := [];
    } else {
      var a := if w.up != [] then Up(0) else Down(0);
      DeliveryLowers(fix, host, w, a);
      StepKeepsInv(fix, host, w, a);
      var rest := DeliverAll(fix, host, Step(fix, host, w, a));
      more := [a] + rest;
      assert more[1..] == rest;
    }
  }

  /** With both repairs: whatever is in flight, each delivery leaves less of it, and when all is delivered
      every connection is decided, by the settings alone. */
  lemma EveryHandshakeEnds(fix: Repairs, host: Settings, acts: seq<Action>) returns (more: seq<Action>)
    requires fix.wireCarriesCode && fix.gateOnRespond
    ensures var w := Run(fix, host, EMPTY, acts); var t := Run(fix, host, w, more);
      && |more| <= InFlight(w) && (forall a :: a in more ==> !a.Connect?)
      && (forall a :: Delivers(w, a) ==> InFlight(Step(fix, host, w, a)) < InFlight(w))
      && |t.links| == |w.links| && t.up == [] && t.down == []
      && forall c :: 0 <= c < |t.links| ==>
           t.links[c].peerDone == t.links[c].hostDone == t.links[c].online
             == (t.links[c].peer.version == host.version && host.least <= t.links[c].peer.agreement <= host.most)
  {
    hide Inv, Step, InFlight;
    InvOfRun(fix, host, acts);
    var w := Run(fix, host, EMPTY, acts);
    forall a | Delivers(w, a) ensures InFlight(Step(fix, host, w, a)) < InFlight(w) { DeliveryLowers(fix, host, w, a); }
    more := DeliverAll(fix, host, w);
    EmptyIsDecided(fix, host, Run(fix, host, w, more));
  }

  lemma InvOfRun(fix: Repairs, host: Settings, acts: seq<Action>)
    ensures Inv(fix, host, Run(fix, host, EMPTY, acts))
  {
    RunKeepsInv(fix, host, EMPTY, acts);
  }

  lemma EmptyIsDecided(fix: Repairs, host: Settings, t: World)
    requires Inv(fix, host, t) && t.up == [] && t.down == [] && fix.wireCarriesCode && fix.gateOnRespond
    ensures forall c :: 0 <= c < |t.links| ==>
      t.links[c].peerDone == t.links[c].hostDone == t.links[c].online
        == (t.links[c].peer.version == host.version && host.least <= t.links[c].peer.agreement <= host.most)
  {
    forall c | 0 <= c < |t.links|
      ensures t.links[c].peerDone == t.links[c].hostDone == t.links[c].online
        == (t.links[c].peer.version == host.version && host.least <= t.links[c].peer.agreement <= host.most)
    {
      assert Phase(fix, host, t.links[c], Ups(t, c), Downs(t, c));
    }
  }

  /** A connection starts online and undecided, with the HOST's first letter on its way; the others stay. */
  lemma ConnectionStarts(fix: Repairs, host: Settings, w: World, peer: Settings)
    requires Inv(fix, host, w)
    ensures var t, c := Step(fix, host, w, Connect(peer)), |w.links|;
      && |t.links| == c + 1 && t.links[..c] == w.links && t.links[c].peer == peer && Undecided(t.links[c])
      && |Downs(t, c)| == 1 && Downs(t, c)[0].data.code == ResponseStart && Ups(t, c) == []
  {
    var t, c := Step(fix, host, w, Connect(peer)), |w.links|;
    OnlyNone(w.up, Of(c));
    OnlyNone(w.down, Of(c));
    OnlyAppend(w.down, t.down[|w.down|], Of(c));
  }

  /** Letters may have left the channel since, but none has joined it, and none has overtaken another. */
  ghost predicate Leftover(after: seq<Letter>, before: seq<Letter>) {
    after == [] || (before != [] &&
      ((after[0] == before[0] && Leftover(after[1..], before[1..])) || Leftover(after, before[1..])))
  }

  lemma {:induction false} LeftoverItself(a: seq<Letter>)
    ensures Leftover(a, a)
  {
    if a != [] { LeftoverItself(a[1..]); }
  }

  lemma {:induction false} LeftoverOfMore(a: seq<Letter>, b: seq<Letter>, front: seq<Letter>)
    requires Leftover(a, b)
    ensures Leftover(a, front + b) && Leftover(front + a, front + b)
  {
    if front == [] {
      assert front + a == a && front + b == b;
    } else {
      assert (front + a)[1..] == front[1..] + a && (front + b)[1..] == front[1..] + b;
      LeftoverOfMore(a, b, front[1..]);
    }
  }

  lemma {:induction false} LeftoverOfLeftover(a: seq<Letter>, b: seq<Letter>, c: seq<Letter>)
    requires Leftover(a, b) && Leftover(b, c)
    ensures Leftover(a, c)
    decreases |b| + |c|
  {
    if a != [] {
      if b[0] == c[0] && Leftover(b[1..], c[1..]) {
        if a[0] == b[0] && Leftover(a[1..], b[1..]) {
          LeftoverOfLeftover(a[1..], b[1..], c[1..]);
        } else {
          LeftoverOfLeftover(a, b[1..], c[1..]);
        }
      } else {
        LeftoverOfLeftover(a, b, c[1..]);
      }
    }
  }

  /** What a rejected connection can still see: its entry never changes again on the HOST's side, and of the
      letters to it only those remain that were posted before. */
  ghost predicate Frozen(w: World, t: World, c: nat)
    requires c < |w.links|
  {
    && c < |t.links| && t.links[c].online == w.links[c].online && t.links[c].hostDone == w.links[c].hostDone
    && Leftover(Downs(t, c), Downs(w, c))
  }

  lemma StepFreezes(fix: Repairs, host: Settings, w: World, a: Action, c: nat)
    requires c < |w.links| && !w.links[c].online
    ensures Frozen(w, Step(fix, host, w, a), c)
  {
    hide Only, Leftover, Handle;
    LeftoverItself(Downs(w, c));
    match a {
      case Connect(peer) =>
        OnlyAppend(w.down, Step(fix, host, w, a).down[|w.down|], Of(c));
      case Up(i) =>
        if i < |w.up| && w.up[i].link < |w.links| {
          var e := w.up[i].link;
          Exchange(w.up, w.down, i, HostTakes(fix, host, w.links[e], w.up[i].data).1, c);
        }
      case Down(i) =>
        if i < |w.down| && w.down[i].link < |w.links| { TakenIsLeftover(w.down, i, c); }
    }
  }

  lemma TakenIsLeftover(wire: seq<Letter>, i: nat, c: nat)
    requires i < |wire|
    ensures Leftover(Only(Without(wire, i), Of(c)), Only(wire, Of(c)))
  {
    OnlySplit(wire, i, Of(c));
    var front, back := Only(wire[..i], Of(c)), Only(wire[i + 1..], Of(c));
    LeftoverItself(back);
    LeftoverOfMore(back, back, if Of(c)(wire[i]) then [wire[i]] else []);
    LeftoverOfMore(back, (if Of(c)(wire[i]) then [wire[i]] else []) + back, front);
  }

  /** From any state on, a rejected connection is never processed or written to again. */
  lemma {:induction false} RejectedStaysRejected(fix: Repairs, host: Settings, w: World, acts: seq<Action>, c: nat)
    requires c < |w.links| && !w.links[c].online
    ensures Frozen(w, Run(fix, host, w, acts), c)
    decreases |acts|
  {
    if acts == [] {
      LeftoverItself(Downs(w, c));
    } else {
      var v := Step(fix, host, w, acts[0]);
      StepFreezes(fix, host, w, acts[0], c);
      RejectedStaysRejected(fix, host, v, acts[1..], c);
      LeftoverOfLeftover(Downs(Run(fix, host, v, acts[1..]), c), Downs(v, c), Downs(w, c));
    }
  }
}
