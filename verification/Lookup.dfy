/** The per-peer file list in front of the endpoint's list: search_file_by_id against get_file_with_id. */
module Lookup {
  import opened Protocol
  import opened Transfer
  import NegotiationRuns
  import TransferIDs

  /** A file as the two lists see it: the id it answers to, and which file it is. */
  datatype Entry = Entry(id: nat, file: nat)

  /** The list of all files of an endpoint, and one list for each of its peers. */
  datatype Lists = Lists(overall: seq<Entry>, own: map<nat, seq<Entry>>)
  {
    function Own(peer: nat): seq<Entry> { if peer in own then own[peer] else [] }
  }

  /** Start adds a file to the overall list and to the list of the peer it runs with. */
  datatype Action = Start(peer: nat, entry: Entry) | Search(peer: nat, id: nat)

  function EntryIDs(list: seq<Entry>): (ids: seq<nat>)
    ensures |ids| == |list| && forall i :: 0 <= i < |list| ==> ids[i] == list[i].id
  {
    seq(|list|, i requires 0 <= i < |list| => list[i].id)
  }

  function GetFileWithID(overall: seq<Entry>, id: nat): Option<Entry> {
    var k := IndexOf(EntryIDs(overall), id);
    if k >= 0 then Some(overall[k]) else None
  }

  /** What a peer's own search finds in its own list. */
  function OwnEntry(l: Lists, peer: nat, id: nat): Option<Entry> {
    var k := IndexOf(EntryIDs(l.Own(peer)), id);
    if k >= 0 then Some(l.Own(peer)[k]) else None
  }

  function SearchFileByID(l: Lists, peer: nat, id: nat): Option<Entry> {
    var found := OwnEntry(l, peer, id);
    if found.Some? then found else GetFileWithID(l.overall, id)
  }

  function Step(caching: bool, l: Lists, a: Action): Lists {
    match a
    case Start(peer, entry) => Lists(l.overall + [entry], l.own[peer := l.Own(peer) + [entry]])
    case Search(peer, id) =>
      var found := SearchFileByID(l, peer, id);
      if caching && found.Some? && OwnEntry(l, peer, id) == None
      then l.(own := l.own[peer := l.Own(peer) + [found.value]]) else l
  }

  function Run(caching: bool, l: Lists, acts: seq<Action>): Lists
    decreases |acts|
  {
    if acts == [] then l else Run(caching, Step(caching, l, acts[0]), acts[1..])
  }

  /** A search changes nothing but the peer's own list, and that only by the file it found, when it is to be
      kept and was not there yet; so to search twice is to search once. */
  lemma SearchAddsOnce(caching: bool, l: Lists, peer: nat, id: nat)
    ensures var m := Step(caching, l, Search(peer, id));
      && m.overall == l.overall && (forall q: nat :: q != peer ==> m.Own(q) == l.Own(q))
      && m.Own(peer) == l.Own(peer)
           + (if caching && OwnEntry(l, peer, id) == None && GetFileWithID(l.overall, id).Some?
              then [GetFileWithID(l.overall, id).value] else [])
      && SearchFileByID(m, peer, id) == SearchFileByID(l, peer, id)
      && Step(caching, m, Search(peer, id)) == m
  {
    var found := SearchFileByID(l, peer, id);
    if found.Some? && OwnEntry(l, peer, id) == None { IndexOfAppend(l.Own(peer), found.value, id); }
  }

  const EMPTY := Lists([], map[])

  ghost predicate OwnWithinOverall(l: Lists) {
    forall peer, e :: e in l.Own(peer) ==> e in l.overall
  }

  ghost predicate DistinctIDs(list: seq<Entry>) {
    forall i, j :: 0 <= i < j < |list| ==> list[i].id != list[j].id
  }

  lemma {:induction false} RunKeepsWithin(caching: bool, l: Lists, acts: seq<Action>)
    requires OwnWithinOverall(l)
    ensures OwnWithinOverall(Run(caching, l, acts))
    decreases |acts|
  {
    if acts != [] {
      var m := Step(caching, l, acts[0]);
      forall peer, e | e in m.Own(peer) ensures e in m.overall {
        assert e in l.Own(peer) || e in m.overall;
      }
      RunKeepsWithin(caching, m, acts[1..]);
    }
  }

  /** After any starts and searches, with or without the caching of misses, a peer's search and the
      endpoint's search give the same file, as long as no two files share an id. */
  lemma SearchesAgree(caching: bool, acts: seq<Action>, peer: nat, id: nat)
    requires DistinctIDs(Run(caching, EMPTY, acts).overall)
    ensures var l := Run(caching, EMPTY, acts);
      SearchFileByID(l, peer, id) == GetFileWithID(l.overall, id)
  {
    var l := Run(caching, EMPTY, acts);
    RunKeepsWithin(caching, EMPTY, acts);
    var k := IndexOf(EntryIDs(l.Own(peer)), id);
    if k >= 0 {
      assert l.Own(peer)[k] in l.overall;
      var j :| 0 <= j < |l.overall| && l.overall[j] == l.Own(peer)[k];
      assert EntryIDs(l.overall)[j] == id;
    }
  }

  /** The files that a repaired run of negotiations leaves at an endpoint are found alike by both searches,
      however they were started with the peers and searched for. */
  lemma NegotiatedFilesAreFound(caching: bool, acts: seq<Action>, peer: nat, id: nat,
                                fix: Repairs, peers: nat, run: seq<NegotiationRuns.Action>, k: nat)
    requires TransferIDs.IDRepairs(fix)
    requires var s := NegotiationRuns.Run(fix, NegotiationRuns.Init(peers), run);
      && |s.begun| <= 0xFFFF && k < |s.sites|
      && |Run(caching, EMPTY, acts).overall| == |s.sites[k].files|
      && forall i :: 0 <= i < |s.sites[k].files| ==> Run(caching, EMPTY, acts).overall[i].id == s.sites[k].files[i].id
    ensures var l := Run(caching, EMPTY, acts);
      SearchFileByID(l, peer, id) == GetFileWithID(l.overall, id)
  {
    TransferIDs.EndpointIDsAreDistinct(fix, peers, run, k);
    SearchesAgree(caching, acts, peer, id);
  }

  // ----- without distinct ids -----

  predicate StartsID(a: Action, id: nat) { a.Start? && a.entry.id == id }

  /** The first start of a file with this id, with whatever peer. */
  function FirstStart(acts: seq<Action>, id: nat): (r: int)
    ensures -1 <= r < |acts| && (r >= 0 ==> StartsID(acts[r], id))
    ensures forall i :: 0 <= i < (if r == -1 then |acts| else r) ==> !StartsID(acts[i], id)
  {
    if acts == [] then -1
    else
      var r := FirstStart(acts[..|acts| - 1], id);
      if r >= 0 then r else if StartsID(acts[|acts| - 1], id) then |acts| - 1 else -1
  }

  /** The action puts a file with this id at the end of the peer's own list, if none is there yet. */
  predicate Fills(caching: bool, acts: seq<Action>, i: nat, peer: nat, id: nat)
    requires i < |acts|
  {
    acts[i].peer == peer
    && (StartsID(acts[i], id) || (caching && acts[i] == Search(peer, id) && FirstStart(acts[..i], id) >= 0))
  }

  function FirstFill(caching: bool, acts: seq<Action>, peer: nat, id: nat): (r: int)
    ensures -1 <= r < |acts| && (r >= 0 ==> Fills(caching, acts, r, peer, id))
    ensures forall i :: 0 <= i < (if r == -1 then |acts| else r) ==> !Fills(caching, acts, i, peer, id)
  {
    if acts == [] then -1
    else
      var n := |acts| - 1;
      var r := FirstFill(caching, acts[..n], peer, id);
      assert forall i :: 0 <= i < n ==> acts[..n][..i] == acts[..i];
      assert forall i :: 0 <= i < n ==> Fills(caching, acts[..n], i, peer, id) == Fills(caching, acts, i, peer, id);
      if r >= 0 then r else if Fills(caching, acts, n, peer, id) then n else -1
  }

  lemma {:induction false} RunAppend(caching: bool, l: Lists, acts: seq<Action>, a: Action)
    ensures Run(caching, l, acts + [a]) == Step(caching, Run(caching, l, acts), a)
    decreases |acts|
  {
    if acts == [] {
      assert [a][1..] == [] && acts + [a] == [a];
      assert Run(caching, l, [a]) == Run(caching, Step(caching, l, a), []);
    } else {
      assert (acts + [a])[1..] == acts[1..] + [a];
      RunAppend(caching, Step(caching, l, acts[0]), acts[1..], a);
    }
  }

  lemma IndexOfAppend(list: seq<Entry>, e: Entry, id: nat)
    ensures var k := IndexOf(EntryIDs(list), id);
      IndexOf(EntryIDs(list + [e]), id) == if k >= 0 then k else if e.id == id then |list| else -1
  {
    var ids := EntryIDs(list + [e]);
    assert ids[..|ids| - 1] == EntryIDs(list);
  }

  lemma {:induction false} OverallFinds(caching: bool, acts: seq<Action>, id: nat)
    ensures GetFileWithID(Run(caching, EMPTY, acts).overall, id)
         == (var r := FirstStart(acts, id); if r >= 0 then Some(acts[r].entry) else None)
    decreases |acts|
  {
    if acts != [] {
      var n := |acts| - 1;
      OverallFinds(caching, acts[..n], id);
      assert acts == acts[..n] + [acts[n]];
      RunAppend(caching, EMPTY, acts[..n], acts[n]);
      if acts[n].Start? { IndexOfAppend(Run(caching, EMPTY, acts[..n]).overall, acts[n].entry, id); }
    }
  }

  lemma OwnEntryStep(caching: bool, l: Lists, a: Action, peer: nat, id: nat)
    ensures var found := OwnEntry(l, peer, id);
      OwnEntry(Step(caching, l, a), peer, id)
        == if found.Some? then found
           else if a.peer == peer && StartsID(a, id) then Some(a.entry)
           else if caching && a == Search(peer, id) then GetFileWithID(l.overall, id)
           else None
  {
    var own, after := l.Own(peer), Step(caching, l, a).Own(peer);
    if after != own {
      IndexOfAppend(own, if a.Start? then a.entry else SearchFileByID(l, peer, a.id).value, id);
    }
  }

  /** It is the file of the first action that filled the list with this id. */
  lemma {:induction false} OwnFinds(caching: bool, acts: seq<Action>, peer: nat, id: nat)
    ensures var r := FirstFill(caching, acts, peer, id);
      && (r >= 0 ==> FirstStart(acts, id) >= 0)
      && OwnEntry(Run(caching, EMPTY, acts), peer, id)
         == if r == -1 then None
            else if acts[r].Start? then Some(acts[r].entry) else Some(acts[FirstStart(acts, id)].entry)
    decreases |acts|
  {
    hide OwnEntry, IndexOf, Step, Run;
    if acts == [] {
      NothingOwned(caching, peer, id);
    } else {
      var n := |acts| - 1;
      OwnFinds(caching, acts[..n], peer, id);
      assert acts == acts[..n] + [acts[n]];
      RunAppend(caching, EMPTY, acts[..n], acts[n]);
      OwnEntryStep(caching, Run(caching, EMPTY, acts[..n]), acts[n], peer, id);
      OverallFinds(caching, acts[..n], id);
    }
  }

  lemma NothingOwned(caching: bool, peer: nat, id: nat)
    ensures OwnEntry(Run(caching, EMPTY, []), peer, id) == None
  {
  }

  /** After any starts and searches, caching or not, and with ids that may repeat: the two searches give the
      same file exactly when the peer's own list was first filled by a copy, or not at all, or by a start of
      the very file that was the first with that id. */
  lemma SearchesAgreeExactly(caching: bool, acts: seq<Action>, peer: nat, id: nat)
    ensures var l := Run(caching, EMPTY, acts);
      var r := FirstFill(caching, acts, peer, id);
      var agree := SearchFileByID(l, peer, id) == GetFileWithID(l.overall, id);
      agree <==> (r >= 0 && acts[r].Start? ==> acts[r].entry == acts[FirstStart(acts, id)].entry)
  {
    OverallFinds(caching, acts, id);
    OwnFinds(caching, acts, peer, id);
  }
}
