/** The stable sort by descending key that `sort_by` performs. */
module Sorting {
  /** Behind every element whose key is at least as high: only lower keys follow. */
  function Place<T>(s: seq<T>, k: nat, key: T -> nat): (at: nat)
    ensures at <= |s|
    ensures forall i :: at <= i < |s| ==> key(s[i]) < k
    ensures at > 0 ==> key(s[at - 1]) >= k
  {
    if s == [] || key(s[|s| - 1]) >= k then |s| else Place(s[..|s| - 1], k, key)
  }

  function InsertDesc<T>(s: seq<T>, x: T, key: T -> nat): (r: seq<T>)
    ensures multiset(r) == multiset(s) + multiset{x}
  {
    var at := Place(s, key(x), key);
    assert s == s[..at] + s[at..];
    s[..at] + [x] + s[at..]
  }

  function SortDesc<T>(s: seq<T>, key: T -> nat): (r: seq<T>)
    ensures multiset(r) == multiset(s)
    ensures |r| == |s|
  {
    if s == [] then [] else
      var last := |s| - 1;
      assert s == s[..last] + [s[last]];
      var r := InsertDesc(SortDesc(s[..last], key), s[last], key);
      assert |multiset(r)| == |multiset(s)|;
      r
  }

  ghost predicate Descending<T>(s: seq<T>, key: T -> nat) {
    forall i, j :: 0 <= i < j < |s| ==> key(s[i]) >= key(s[j])
  }

  ghost predicate StrictlyDescending<T>(s: seq<T>, key: T -> nat) {
    forall i, j :: 0 <= i < j < |s| ==> key(s[i]) > key(s[j])
  }

  ghost predicate DistinctKeys<T>(s: seq<T>, key: T -> nat) {
    forall i, j :: 0 <= i < j < |s| ==> key(s[i]) != key(s[j])
  }

  lemma SameElements<T>(a: seq<T>, b: seq<T>, x: T)
    requires multiset(a) == multiset(b)
    ensures x in a <==> x in b
  {
    assert x in multiset(a) <==> x in multiset(b);
  }

  lemma InsertDescending<T>(s: seq<T>, x: T, key: T -> nat)
    requires Descending(s, key)
    ensures Descending(InsertDesc(s, x, key), key)
  {
  }

  /** The result is sorted; that it is a permutation is part of the contract of `SortDesc`. */
  lemma {:induction false} SortDescending<T>(s: seq<T>, key: T -> nat)
    ensures Descending(SortDesc(s, key), key)
  {
    if s != [] {
      var last := |s| - 1;
      SortDescending(s[..last], key);
      InsertDescending(SortDesc(s[..last], key), s[last], key);
    }
  }

  lemma InsertStrict<T>(s: seq<T>, x: T, key: T -> nat)
    requires StrictlyDescending(s, key) && forall i :: 0 <= i < |s| ==> key(s[i]) != key(x)
    ensures StrictlyDescending(InsertDesc(s, x, key), key)
  {
  }

  lemma {:induction false} SortStrict<T>(s: seq<T>, key: T -> nat)
    requires DistinctKeys(s, key)
    ensures StrictlyDescending(SortDesc(s, key), key)
  {
    if s != [] {
      var last := |s| - 1;
      var r := SortDesc(s[..last], key);
      SortStrict(s[..last], key);
      forall i | 0 <= i < |r| ensures key(r[i]) != key(s[last]) {
        SameElements(r, s[..last], r[i]);
        assert r[i] in r;
      }
      InsertStrict(r, s[last], key);
    }
  }

  lemma InsertLast<T>(s: seq<T>, x: T, key: T -> nat)
    requires s == [] || key(s[|s| - 1]) >= key(x)
    ensures InsertDesc(s, x, key) == s + [x]
  {
  }

  /** A sequence already sorted stays as it is. */
  lemma {:induction false} SortSorted<T>(s: seq<T>, key: T -> nat)
    requires Descending(s, key)
    ensures SortDesc(s, key) == s
  {
    hide InsertDesc, Place;
    if s != [] {
      var init, x := s[..|s| - 1], s[|s| - 1];
      SortSorted(init, key);
      InsertLast(init, x, key);
      assert s == init + [x];
    }
  }

  /** Two strictly sorted sequences of the same elements are the same sequence. */
  lemma {:induction false} StrictUnique<T>(a: seq<T>, b: seq<T>, key: T -> nat)
    requires StrictlyDescending(a, key) && StrictlyDescending(b, key)
    requires forall x :: x in a <==> x in b
    ensures a == b
    decreases |a|
  {
    assert (b == [] || b[0] in a) && (a == [] || a[0] in b);
    if a != [] {
      var i :| 0 <= i < |b| && b[i] == a[0];
      var j :| 0 <= j < |a| && a[j] == b[0];
      assert i == 0 && j == 0;
      forall x ensures x in a[1..] <==> x in b[1..] {
        TailElements(a, key, x);
        TailElements(b, key, x);
      }
      StrictUnique(a[1..], b[1..], key);
    }
  }

  lemma TailElements<T>(a: seq<T>, key: T -> nat, x: T)
    requires StrictlyDescending(a, key) && a != []
    ensures x in a[1..] <==> x in a && x != a[0]
  {
    if x in a && x != a[0] {
      var i :| 0 <= i < |a| && a[i] == x;
      assert a[1..][i - 1] == x;
    }
  }

  // ---------------------------------------------------------------
  // Stability
  // ---------------------------------------------------------------

  /** The elements with one key, in their order. */
  function Tied<T>(s: seq<T>, k: nat, key: T -> nat): (r: seq<T>) {
    if s == [] then [] else
      var last := |s| - 1;
      Tied(s[..last], k, key) + (if key(s[last]) == k then [s[last]] else [])
  }

  lemma TiedPush<T>(s: seq<T>, x: T, k: nat, key: T -> nat)
    ensures Tied(s + [x], k, key) == Tied(s, k, key) + (if key(x) == k then [x] else [])
  {
    assert (s + [x])[..|s|] == s;
  }

  lemma {:induction false} TiedConcat<T>(a: seq<T>, b: seq<T>, k: nat, key: T -> nat)
    ensures Tied(a + b, k, key) == Tied(a, k, key) + Tied(b, k, key)
  {
    if b == [] {
      assert a + b == a;
    } else {
      var init, x := b[..|b| - 1], b[|b| - 1];
      TiedConcat(a, init, k, key);
      assert a + b == a + init + [x] && b == init + [x];
      TiedPush(a + init, x, k, key);
      TiedPush(init, x, k, key);
    }
  }

  lemma {:induction false} TiedNone<T>(s: seq<T>, k: nat, key: T -> nat)
    requires forall i :: 0 <= i < |s| ==> key(s[i]) != k
    ensures Tied(s, k, key) == []
  {
    if s != [] {
      TiedNone(s[..|s| - 1], k, key);
    }
  }

  /** An element put before elements with other keys stays tied in the same order. */
  lemma TiedBefore<T>(low: seq<T>, x: T, high: seq<T>, k: nat, key: T -> nat)
    requires forall i :: 0 <= i < |high| ==> key(high[i]) < key(x)
    ensures Tied(low + [x] + high, k, key) == Tied(low + high + [x], k, key)
  {
    hide Tied;
    TiedConcat(low + [x], high, k, key);
    TiedPush(low, x, k, key);
    TiedPush(low + high, x, k, key);
    TiedConcat(low, high, k, key);
    if k == key(x) {
      TiedNone(high, k, key);
      assert Tied(low, k, key) + [] == Tied(low, k, key);
    }
  }

  lemma InsertStable<T>(s: seq<T>, x: T, k: nat, key: T -> nat)
    ensures Tied(InsertDesc(s, x, key), k, key) == Tied(s + [x], k, key)
  {
    hide Tied;
    var at := Place(s, key(x), key);
    assert s == s[..at] + s[at..];
    TiedBefore(s[..at], x, s[at..], k, key);
  }

  /** Elements with the same key keep their order. */
  lemma {:induction false} SortStable<T>(s: seq<T>, k: nat, key: T -> nat)
    ensures Tied(SortDesc(s, key), k, key) == Tied(s, k, key)
  {
    if s != [] {
      hide InsertDesc, Tied;
      var init, x := s[..|s| - 1], s[|s| - 1];
      assert s == init + [x];
      SortStable(init, k, key);
      InsertStable(SortDesc(init, key), x, k, key);
      TiedPush(SortDesc(init, key), x, k, key);
      TiedPush(init, x, k, key);
    }
  }

  lemma {:induction false} TiedElements<T>(s: seq<T>, k: nat, key: T -> nat, x: T)
    ensures x in Tied(s, k, key) <==> x in s && key(x) == k
  {
    if s != [] {
      var init, last := s[..|s| - 1], s[|s| - 1];
      TiedElements(init, k, key, x);
      assert s == init + [last];
    }
  }

  /** Sorted sequences whose tied elements agree, key by key, are the same. */
  lemma {:induction false} StableUnique<T>(a: seq<T>, b: seq<T>, key: T -> nat)
    requires Descending(a, key) && Descending(b, key)
    requires forall k :: Tied(a, k, key) == Tied(b, k, key)
    ensures a == b
    decreases |a|
  {
    hide Tied, Descending;
    if a == [] {
      TiedOfNothing(key);
      NothingTied(b, key);
    } else {
      var init, x := a[..|a| - 1], a[|a| - 1];
      assert a == init + [x];
      TiedElements(a, key(x), key, x);
      TiedElements(b, key(x), key, x);
      LastIsLowest(a, b, key);
      var init' := b[..|b| - 1];
      assert b == init' + [x];
      forall k ensures Tied(init, k, key) == Tied(init', k, key) {
        assert Tied(a, k, key) == Tied(b, k, key);
        TiedInit(init, init', x, k, key);
      }
      InitDescending(a, key);
      InitDescending(b, key);
      StableUnique(init, init', key);
    }
  }

  lemma InitDescending<T>(s: seq<T>, key: T -> nat)
    requires s != [] && Descending(s, key)
    ensures Descending(s[..|s| - 1], key)
  {
  }

  lemma TiedInit<T>(a: seq<T>, b: seq<T>, x: T, k: nat, key: T -> nat)
    requires Tied(a + [x], k, key) == Tied(b + [x], k, key)
    ensures Tied(a, k, key) == Tied(b, k, key)
  {
    hide Tied;
    TiedPush(a, x, k, key);
    TiedPush(b, x, k, key);
    AppendCancels(Tied(a, k, key), Tied(b, k, key), if key(x) == k then [x] else []);
  }

  lemma TiedOfNothing<T>(key: T -> nat)
    ensures forall k :: Tied([], k, key) == []
  {
  }

  lemma NothingTied<T>(b: seq<T>, key: T -> nat)
    requires forall k :: Tied(b, k, key) == []
    ensures b == []
  {
    if b != [] {
      TiedElements(b, key(b[0]), key, b[0]);
    }
  }

  lemma LastIsLowest<T>(a: seq<T>, b: seq<T>, key: T -> nat)
    requires Descending(a, key) && Descending(b, key) && a != []
    requires b != [] && forall k :: Tied(a, k, key) == Tied(b, k, key)
    ensures b[|b| - 1] == a[|a| - 1]
  {
    hide Tied;
    var x, y := a[|a| - 1], b[|b| - 1];
    TiedElements(a, key(x), key, x);
    TiedElements(b, key(x), key, x);
    TiedElements(b, key(y), key, y);
    TiedElements(a, key(y), key, y);
    assert key(y) == key(x);
    TiedLast(a, key);
    TiedLast(b, key);
  }

  lemma TiedLast<T>(s: seq<T>, key: T -> nat)
    requires s != []
    ensures var tied := Tied(s, key(s[|s| - 1]), key); tied != [] && tied[|tied| - 1] == s[|s| - 1]
  {
  }

  lemma AppendCancels<T>(a: seq<T>, b: seq<T>, c: seq<T>)
    requires a + c == b + c
    ensures a == b
  {
    assert |a| == |b|;
    assert a == (a + c)[..|a|] && b == (b + c)[..|b|];
  }
}
