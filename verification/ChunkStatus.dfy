/** The status bytes of a file: one byte a chunk, one bit a ChunkCode. */
module ChunkStatus {
  datatype ChunkCode = Empty | Whine | Done

  function Mask(code: ChunkCode): bv8 {
    match code
    case Empty => 0x01
    case Whine => 0x02
    case Done => 0x04
  }

  /** The number of a code, and so of its bit. */
  function Number(code: ChunkCode): nat {
    match code case Empty => 0 case Whine => 1 case Done => 2
  }

  lemma MaskIsShift(code: ChunkCode)
    ensures Mask(code) == (1 as bv8) << Number(code)
  {
  }

  predicate On(byte: bv8, code: ChunkCode) {
    byte & Mask(code) != 0
  }

  /** OR-ing a code into a byte turns that one bit on and leaves the others. */
  function With(byte: bv8, code: ChunkCode): (r: bv8)
    ensures forall d :: On(r, d) <==> On(byte, d) || d == code
    ensures On(byte, code) ==> r == byte
  {
    byte | Mask(code)
  }

  predicate Has(status: seq<bv8>, i: nat, code: ChunkCode)
    requires i < |status|
  {
    On(status[i], code)
  }

  /** The status vector together with the completed counter kept beside it. */
  datatype Progress = Progress(status: seq<bv8>, completed: nat)

  function SetStatus(p: Progress, i: nat, code: ChunkCode): Progress
    requires i < |p.status|
  {
    Progress(p.status[i := With(p.status[i], code)], if code == Done then p.completed + 1 else p.completed)
  }

  /** One chunk taken by a file thread: a chunk that is already DONE changes nothing. */
  function Arrive(p: Progress, i: nat): Progress
    requires i < |p.status|
  {
    if Has(p.status, i, Done) then p else SetStatus(p, i, Done)
  }

  predicate InRange(ids: seq<nat>, n: nat) {
    forall k :: 0 <= k < |ids| ==> ids[k] < n
  }

  function ArriveAll(p: Progress, ids: seq<nat>): (r: Progress)
    requires InRange(ids, |p.status|)
    ensures |r.status| == |p.status|
    decreases |ids|
  {
    if ids == [] then p else ArriveAll(Arrive(p, ids[0]), ids[1..])
  }

  /** The same arrivals through set_chunk_status alone, without the guard of the file thread. */
  function MarkAll(p: Progress, ids: seq<nat>): (r: Progress)
    requires InRange(ids, |p.status|)
    ensures |r.status| == |p.status|
    decreases |ids|
  {
    if ids == [] then p else MarkAll(SetStatus(p, ids[0], Done), ids[1..])
  }

  function DoneCount(status: seq<bv8>): (n: nat)
    ensures n <= |status|
  {
    if status == [] then 0 else (if Has(status, 0, Done) then 1 else 0) + DoneCount(status[1..])
  }

  lemma {:induction false} DoneCountSet(status: seq<bv8>, i: nat)
    requires i < |status|
    ensures DoneCount(status[i := With(status[i], Done)])
         == DoneCount(status) + if Has(status, i, Done) then 0 else 1
  {
    var next := status[i := With(status[i], Done)];
    assert Has(next, i, Done);
    if i == 0 {
      assert next[1..] == status[1..];
    } else {
      assert next[1..] == status[1..][i - 1 := With(status[i], Done)];
      DoneCountSet(status[1..], i - 1);
    }
  }

  lemma {:induction false} DoneCountAll(status: seq<bv8>)
    ensures DoneCount(status) == |status| <==> forall i :: 0 <= i < |status| ==> Has(status, i, Done)
  {
    if status != [] {
      DoneCountAll(status[1..]);
      var t := status[1..];
      assert forall i :: 0 <= i < |t| ==> Has(t, i, Done) == Has(status, i + 1, Done);
      if forall i :: 0 <= i < |t| ==> Has(t, i, Done) {
        forall i | 1 <= i < |status| ensures Has(status, i, Done) { assert Has(t, i - 1, Done); }
      }
    }
  }

  lemma {:induction false} ClearBytes(status: seq<bv8>)
    requires forall k :: 0 <= k < |status| ==> status[k] == 0
    ensures DoneCount(status) == 0
    ensures forall i, code :: 0 <= i < |status| ==> !Has(status, i, code)
  {
    if status != [] {
      ClearBytes(status[1..]);
    }
    assert forall b: bv8, code :: b == 0 ==> !On(b, code);
  }

  // ----- order, duplicates and the counter -----

  lemma {:induction false} ArrivedBits(p: Progress, ids: seq<nat>)
    requires InRange(ids, |p.status|)
    ensures forall i :: 0 <= i < |p.status| ==>
      ArriveAll(p, ids).status[i] == if i in ids then With(p.status[i], Done) else p.status[i]
    ensures ArriveAll(p, ids).completed + DoneCount(p.status)
         == p.completed + DoneCount(ArriveAll(p, ids).status)
    decreases |ids|
  {
    if ids != [] {
      var q := Arrive(p, ids[0]);
      assert ids == [ids[0]] + ids[1..];
      ArrivedBits(q, ids[1..]);
      DoneCountSet(p.status, ids[0]);
    }
  }

  /** Any two arrival sequences with the same set of ids leave the same bytes and the same counter;
      no bit is ever cleared; and a counter that was right stays right. */
  lemma ArrivalsAreASet(p: Progress, a: seq<nat>, b: seq<nat>)
    requires InRange(a, |p.status|) && InRange(b, |p.status|)
    requires forall i :: i in a <==> i in b
    ensures ArriveAll(p, a) == ArriveAll(p, b)
    ensures forall i, code :: 0 <= i < |p.status| && Has(p.status, i, code) ==> Has(ArriveAll(p, a).status, i, code)
    ensures forall i :: 0 <= i < |p.status| ==> (Has(ArriveAll(p, a).status, i, Done) <==> Has(p.status, i, Done) || i in a)
    ensures p.completed == DoneCount(p.status) ==> ArriveAll(p, a).completed == DoneCount(ArriveAll(p, a).status)
  {
    ArrivedBits(p, a);
    ArrivedBits(p, b);
    assert ArriveAll(p, a).status == ArriveAll(p, b).status;
  }

  ghost predicate NoRepeats(ids: seq<nat>) {
    forall j, k :: 0 <= j < k < |ids| ==> ids[j] != ids[k]
  }

  ghost predicate NoneDone(status: seq<bv8>, ids: seq<nat>)
    requires InRange(ids, |status|)
  {
    forall k :: 0 <= k < |ids| ==> !Has(status, ids[k], Done)
  }

  lemma {:induction false} MarkedCount(p: Progress, ids: seq<nat>)
    requires InRange(ids, |p.status|)
    ensures MarkAll(p, ids).completed + DoneCount(p.status)
         >= p.completed + DoneCount(MarkAll(p, ids).status)
    ensures MarkAll(p, ids).completed + DoneCount(p.status) == p.completed + DoneCount(MarkAll(p, ids).status)
       <==> NoRepeats(ids) && NoneDone(p.status, ids)
    decreases |ids|
  {
    if ids != [] {
      var q := SetStatus(p, ids[0], Done);
      var rest := ids[1..];
      MarkedCount(q, rest);
      DoneCountSet(p.status, ids[0]);
      assert Has(q.status, ids[0], Done);
      assert forall i :: 0 <= i < |p.status| && i != ids[0] ==> Has(q.status, i, Done) == Has(p.status, i, Done);
      assert forall k :: 0 <= k < |rest| ==> rest[k] == ids[k + 1];
      if NoRepeats(rest) && NoneDone(q.status, rest) && !Has(p.status, ids[0], Done) {
        forall k | 0 <= k < |ids| ensures !Has(p.status, ids[k], Done) && (0 < k ==> ids[k] != ids[0]) {
          if 0 < k { assert !Has(q.status, rest[k - 1], Done); }
        }
        forall j, k | 0 <= j < k < |ids| ensures ids[j] != ids[k] {
          if 0 < j { assert rest[j - 1] != rest[k - 1]; }
        }
      }
      if NoRepeats(ids) && NoneDone(p.status, ids) {
        assert forall k :: 0 <= k < |rest| ==> rest[k] != ids[0] && !Has(p.status, rest[k], Done);
      }
    }
  }

  /** Without the guard the counter is right exactly when no id repeats and none was DONE before. */
  lemma UnguardedCounter(p: Progress, ids: seq<nat>)
    requires InRange(ids, |p.status|) && p.completed == DoneCount(p.status)
    ensures MarkAll(p, ids).completed == DoneCount(MarkAll(p, ids).status)
       <==> NoRepeats(ids) && NoneDone(p.status, ids)
  {
    MarkedCount(p, ids);
  }

  // ----- the scans -----

  function LeastMissingFrom(status: seq<bv8>, from: nat): (r: int)
    requires from <= |status|
    ensures r == -1 || from <= r < |status|
    ensures r >= 0 ==> !Has(status, r, Done) && forall i :: from <= i < r ==> Has(status, i, Done)
    ensures r == -1 ==> forall i :: from <= i < |status| ==> Has(status, i, Done)
    decreases |status| - from
  {
    if from == |status| then -1
    else if !Has(status, from, Done) then from
    else LeastMissingFrom(status, from + 1)
  }

  function LeastWhiningFrom(status: seq<bv8>, from: nat): (r: int)
    requires from <= |status|
    ensures r == -1 || from <= r < |status|
    ensures r >= 0 ==> Has(status, r, Whine) && !Has(status, r, Done)
    ensures r >= 0 ==> forall i :: from <= i < r ==> !Has(status, i, Whine) || Has(status, i, Done)
    ensures r == -1 ==> forall i :: from <= i < |status| ==> !Has(status, i, Whine) || Has(status, i, Done)
    decreases |status| - from
  {
    if from == |status| then -1
    else if Has(status, from, Whine) && !Has(status, from, Done) then from
    else LeastWhiningFrom(status, from + 1)
  }

  /** set_all_empty_chunks_to_whine on the first n bytes. */
  function WhineUpTo(status: seq<bv8>, n: nat): (r: seq<bv8>)
    requires n <= |status|
    ensures |r| == |status|
  {
    if n == 0 then status
    else
      var r := WhineUpTo(status, n - 1);
      if !Has(r, n - 1, Done) && !Has(r, n - 1, Whine) then r[n - 1 := With(r[n - 1], Whine)] else r
  }

  lemma {:induction false} WhineUpToBits(status: seq<bv8>, n: nat)
    requires n <= |status|
    ensures forall i :: n <= i < |status| ==> WhineUpTo(status, n)[i] == status[i]
    ensures forall i :: 0 <= i < n && (Has(status, i, Done) || Has(status, i, Whine)) ==> WhineUpTo(status, n)[i] == status[i]
    ensures forall i :: 0 <= i < n && !Has(status, i, Done) ==>
      forall code :: Has(WhineUpTo(status, n), i, code) <==> Has(status, i, code) || code == Whine
    ensures forall i :: 0 <= i < n ==> Has(WhineUpTo(status, n), i, Whine) || Has(WhineUpTo(status, n), i, Done)
    ensures forall i :: 0 <= i < |status| ==> Has(WhineUpTo(status, n), i, Done) == Has(status, i, Done)
  {
    if n > 0 {
      WhineUpToBits(status, n - 1);
      var r, out := WhineUpTo(status, n - 1), WhineUpTo(status, n);
      assert out[n - 1] == if Has(r, n - 1, Done) || Has(r, n - 1, Whine) then r[n - 1] else With(r[n - 1], Whine);
      assert Has(out, n - 1, Whine) || Has(out, n - 1, Done);
      forall i | 0 <= i < n - 1 ensures Has(out, i, Whine) || Has(out, i, Done) {
        assert out[i] == r[i];
        assert Has(r, i, Whine) || Has(r, i, Done);
      }
    }
  }

  /** After every missing chunk has been set to whine, the whine scan and the completion scan report
      the same chunk, then and after any later arrivals. */
  lemma WhineTracksCompletion(p: Progress, ids: seq<nat>)
    requires InRange(ids, |p.status|)
    ensures var q := ArriveAll(p.(status := WhineUpTo(p.status, |p.status|)), ids);
      LeastWhiningFrom(q.status, 0) == LeastMissingFrom(q.status, 0)
  {
    var w := p.(status := WhineUpTo(p.status, |p.status|));
    var q := ArriveAll(w, ids);
    WhineUpToBits(p.status, |p.status|);
    ArrivedBits(w, ids);
    forall i | 0 <= i < |q.status| ensures Has(q.status, i, Whine) || Has(q.status, i, Done) {
      assert Has(w.status, i, Whine) || Has(w.status, i, Done);
      assert q.status[i] == if i in ids then With(w.status[i], Done) else w.status[i];
    }
  }

  /** Resend whatever the whine scan reports until it reports nothing: the chunks asked for, in order. */
  function Resends(p: Progress): seq<nat>
    decreases |p.status| - DoneCount(p.status)
  {
    var k := LeastWhiningFrom(p.status, 0);
    if k < 0 then [] else
      DoneCountSet(p.status, k);
      [k as nat] + Resends(Arrive(p, k))
  }

  ghost predicate Covered(status: seq<bv8>) {
    forall i :: 0 <= i < |status| ==> Has(status, i, Whine) || Has(status, i, Done)
  }

  lemma {:induction false} ResendsComplete(p: Progress)
    requires Covered(p.status)
    ensures InRange(Resends(p), |p.status|)
    ensures |Resends(p)| == |p.status| - DoneCount(p.status)
    ensures forall i :: 0 <= i < |p.status| ==> Has(ArriveAll(p, Resends(p)).status, i, Done)
    decreases |p.status| - DoneCount(p.status)
  {
    var k := LeastWhiningFrom(p.status, 0);
    if k < 0 {
      DoneCountAll(p.status);
    } else {
      var q := Arrive(p, k);
      forall i | 0 <= i < |q.status| ensures Has(q.status, i, Whine) || Has(q.status, i, Done) {
        assert Has(p.status, i, Whine) || Has(p.status, i, Done);
        assert q.status[i] == if i == k then With(p.status[k], Done) else p.status[i];
      }
      DoneCountSet(p.status, k);
      ResendsComplete(q);
      assert Resends(p)[1..] == Resends(q);
    }
  }

  /** From any state: whine, then resend what is reported. This ends after exactly as many resends as
      chunks were missing, and then the completion scan answers -1. */
  lemma ResendingEnds(p: Progress)
    ensures var w := p.(status := WhineUpTo(p.status, |p.status|));
      && InRange(Resends(w), |p.status|)
      && |Resends(w)| == |p.status| - DoneCount(p.status)
      && LeastMissingFrom(ArriveAll(w, Resends(w)).status, 0) == -1
  {
    var w := p.(status := WhineUpTo(p.status, |p.status|));
    WhineUpToBits(p.status, |p.status|);
    ResendsComplete(w);
    SameDoneCount(p.status, w.status);
    assert forall i :: 0 <= i < |p.status| ==> Has(ArriveAll(w, Resends(w)).status, i, Done);
  }

  lemma {:induction false} SameDoneCount(a: seq<bv8>, b: seq<bv8>)
    requires |a| == |b| && forall i :: 0 <= i < |a| ==> Has(a, i, Done) == Has(b, i, Done)
    ensures DoneCount(a) == DoneCount(b)
  {
    if a != [] {
      assert forall i :: 0 <= i < |a[1..]| ==>
        Has(a[1..], i, Done) == Has(a, i + 1, Done) && Has(b[1..], i, Done) == Has(b, i + 1, Done);
      SameDoneCount(a[1..], b[1..]);
    }
  }
}
