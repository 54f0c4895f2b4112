/** Filters, sums and removals on sequences, used by the channel and thread models. */
module Sequences {
  function Without<T>(s: seq<T>, i: nat): seq<T>
    requires i < |s|
  {
    s[..i] + s[i + 1..]
  }

  function Only<T>(s: seq<T>, p: T -> bool): seq<T> {
    if s == [] then [] else (if p(s[0]) then [s[0]] else []) + Only(s[1..], p)
  }

  lemma {:induction false} OnlyConcat<T>(a: seq<T>, b: seq<T>, p: T -> bool)
    ensures Only(a + b, p) == Only(a, p) + Only(b, p)
  {
    if a == [] {
      assert a + b == b;
    } else {
      var head := if p(a[0]) then [a[0]] else [];
      var front, back := Only(a[1..], p), Only(b, p);
      assert (a + b)[0] == a[0] && (a + b)[1..] == a[1..] + b;
      OnlyConcat(a[1..], b, p);
      assert head + (front + back) == (head + front) + back;
    }
  }

  lemma OnlyAppend<T>(s: seq<T>, x: T, p: T -> bool)
    ensures Only(s + [x], p) == if p(x) then Only(s, p) + [x] else Only(s, p)
  {
    OnlyConcat(s, [x], p);
  }

  /** Cutting out position i removes that one element from the filtered sequence. */
  lemma OnlySplit<T>(s: seq<T>, i: nat, p: T -> bool)
    requires i < |s|
    ensures Only(s, p) == Only(s[..i], p) + ((if p(s[i]) then [s[i]] else []) + Only(s[i + 1..], p))
    ensures Only(Without(s, i), p) == Only(s[..i], p) + Only(s[i + 1..], p)
  {
    assert s[..i] + s[i..] == s;
    assert s[i..][0] == s[i] && s[i..][1..] == s[i + 1..];
    OnlyConcat(s[..i], s[i..], p);
    OnlyConcat(s[..i], s[i + 1..], p);
  }

  lemma {:induction false} OnlyMember<T>(s: seq<T>, p: T -> bool, x: T)
    ensures x in Only(s, p) <==> x in s && p(x)
  {
    if s != [] {
      assert s == [s[0]] + s[1..];
      OnlyMember(s[1..], p, x);
    }
  }

  lemma OnlyNone<T>(s: seq<T>, p: T -> bool)
    requires forall x :: x in s ==> !p(x)
    ensures Only(s, p) == []
  {
    if Only(s, p) != [] {
      OnlyMember(s, p, Only(s, p)[0]);
    }
  }

  function Total<T>(s: seq<T>, f: T -> nat): nat {
    if |s| == 0 then 0 else f(s[0]) + Total(s[1..], f)
  }

  lemma {:induction false} TotalConcat<T>(a: seq<T>, b: seq<T>, f: T -> nat)
    ensures Total(a + b, f) == Total(a, f) + Total(b, f)
  {
    if a == [] {
      assert a + b == b;
    } else {
      assert (a + b)[1..] == a[1..] + b;
      TotalConcat(a[1..], b, f);
    }
  }

  lemma TotalAppend<T>(s: seq<T>, x: T, f: T -> nat)
    ensures Total(s + [x], f) == Total(s, f) + f(x)
  {
    TotalConcat(s, [x], f);
  }

  lemma TotalSmall<T>(x: T, y: T, f: T -> nat)
    ensures Total([], f) == 0 && Total([x], f) == f(x) && Total([x, y], f) == f(x) + f(y)
  {
    TotalAppend([], x, f);
    TotalAppend([x], y, f);
    assert [] + [x] == [x] && [x] + [y] == [x, y];
  }

  lemma TotalWithout<T>(s: seq<T>, i: nat, f: T -> nat)
    requires i < |s|
    ensures Total(s, f) == Total(Without(s, i), f) + f(s[i])
  {
    assert s[..i] + s[i..] == s;
    assert s[i..][0] == s[i] && s[i..][1..] == s[i + 1..];
    TotalConcat(s[..i], s[i..], f);
    TotalConcat(s[..i], s[i + 1..], f);
  }

  lemma TotalUpdate<T>(s: seq<T>, i: nat, x: T, f: T -> nat)
    requires i < |s|
    ensures Total(s[i := x], f) + f(s[i]) == Total(s, f) + f(x)
  {
    TotalWithout(s, i, f);
    TotalWithout(s[i := x], i, f);
    assert Without(s[i := x], i) == Without(s, i);
  }

  lemma {:induction false} TotalZero<T>(s: seq<T>, f: T -> nat)
    ensures Total(s, f) == 0 <==> forall x :: x in s ==> f(x) == 0
  {
    if s != [] {
      assert s == [s[0]] + s[1..];
      TotalZero(s[1..], f);
    }
  }
}
