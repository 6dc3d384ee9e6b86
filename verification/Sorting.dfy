/** The specification of the priority sort: a stable sort by weight, and the inversion
    count that makes bubble sort stop. */
module Sorting {
  ghost predicate Ascending<T>(p: seq<T>, w: T -> int) {
    forall i, j :: 0 <= i < j < |p| ==> w(p[i]) <= w(p[j])
  }

  /** The elements of weight `k`, in order. Two sequences with the same levels are
      permutations of each other that keep equal weights in order. */
  function Level<T>(p: seq<T>, w: T -> int, k: int): seq<T> {
    if p == [] then []
    else (if w(p[0]) == k then [p[0]] else []) + Level(p[1..], w, k)
  }

  function Insert<T>(x: T, p: seq<T>, w: T -> int): seq<T> {
    if p == [] || w(x) <= w(p[0]) then [x] + p else [p[0]] + Insert(x, p[1..], w)
  }

  function StableSort<T>(p: seq<T>, w: T -> int): (r: seq<T>)
    ensures |r| == |p|
  {
    if p == [] then [] else
      InsertLength(p[0], StableSort(p[1..], w), w);
      Insert(p[0], StableSort(p[1..], w), w)
  }

  lemma InsertLength<T>(x: T, p: seq<T>, w: T -> int)
    ensures |Insert(x, p, w)| == |p| + 1
  {}

  function CountBelow<T>(p: seq<T>, w: T -> int, k: int): nat {
    if p == [] then 0 else (if w(p[0]) < k then 1 else 0) + CountBelow(p[1..], w, k)
  }

  /** Pairs that stand in the wrong order. */
  function Inversions<T>(p: seq<T>, w: T -> int): nat {
    if p == [] then 0 else CountBelow(p[1..], w, w(p[0])) + Inversions(p[1..], w)
  }

  function SwapNext<T>(p: seq<T>, i: nat): seq<T>
    requires i + 1 < |p|
  {
    p[i := p[i + 1]][i + 1 := p[i]]
  }

  lemma {:induction false} SwapCountBelow<T>(p: seq<T>, i: nat, w: T -> int, k: int)
    requires i + 1 < |p|
    ensures CountBelow(SwapNext(p, i), w, k) == CountBelow(p, w, k)
  {
    var q := SwapNext(p, i);
    if i == 0 {
      assert p == [p[0], p[1]] + p[2..] && q == [p[1], p[0]] + p[2..];
      assert p[1..][1..] == p[2..] == q[1..][1..];
    } else {
      SwapCountBelow(p[1..], i - 1, w, k);
      assert q[1..] == SwapNext(p[1..], i - 1);
    }
  }

  lemma {:induction false} SwapLevel<T>(p: seq<T>, i: nat, w: T -> int, k: int)
    requires i + 1 < |p| && w(p[i]) != w(p[i + 1])
    ensures Level(SwapNext(p, i), w, k) == Level(p, w, k)
  {
    var q := SwapNext(p, i);
    if i == 0 {
      assert p[1..][1..] == p[2..] == q[1..][1..];
    } else {
      SwapLevel(p[1..], i - 1, w, k);
      assert q[1..] == SwapNext(p[1..], i - 1);
    }
  }

  /** Swapping an adjacent pair that is out of order removes exactly one inversion. */
  lemma {:induction false} SwapInversions<T>(p: seq<T>, i: nat, w: T -> int)
    requires i + 1 < |p| && w(p[i]) > w(p[i + 1])
    ensures Inversions(SwapNext(p, i), w) == Inversions(p, w) - 1
  {
    var q := SwapNext(p, i);
    if i == 0 {
      assert p[1..][1..] == p[2..] == q[1..][1..];
      assert p[1..][0] == p[1] && q[1..][0] == p[0];
    } else {
      SwapInversions(p[1..], i - 1, w);
      SwapCountBelow(p[1..], i - 1, w, w(p[0]));
      assert q[1..] == SwapNext(p[1..], i - 1);
    }
  }

  lemma {:induction false} LevelMember<T>(p: seq<T>, w: T -> int, k: int, x: T)
    ensures x in Level(p, w, k) <==> x in p && w(x) == k
  {
    if p != [] {
      LevelMember(p[1..], w, k, x);
      assert p == [p[0]] + p[1..];
    }
  }

  lemma {:induction false} AdjacentAscending<T>(p: seq<T>, w: T -> int)
    requires forall i :: 0 <= i < |p| - 1 ==> w(p[i]) <= w(p[i + 1])
    ensures Ascending(p, w)
  {
    forall i, j | 0 <= i < j < |p| ensures w(p[i]) <= w(p[j]) { AdjacentChain(p, w, i, j); }
  }

  lemma {:induction false} AdjacentChain<T>(p: seq<T>, w: T -> int, i: nat, j: nat)
    requires forall k :: 0 <= k < |p| - 1 ==> w(p[k]) <= w(p[k + 1])
    requires i <= j < |p|
    ensures w(p[i]) <= w(p[j])
  {
    if i < j { AdjacentChain(p, w, i, j - 1); }
  }

  lemma FrontLevel<T>(p: seq<T>, w: T -> int)
    ensures p != [] ==> Level(p, w, w(p[0])) != []
  {}

  /** Only one ascending sequence has given levels: the levels and the order pin the sort down. */
  lemma {:induction false} SortUnique<T>(a: seq<T>, b: seq<T>, w: T -> int)
    requires Ascending(a, w) && Ascending(b, w)
    requires forall k :: Level(a, w, k) == Level(b, w, k)
    ensures a == b
  {
    if a == [] {
      FrontLevel(b, w);
    } else {
      var ka := w(a[0]);
      assert Level(a, w, ka)[0] == a[0];
      LevelMember(b, w, ka, a[0]);
      assert a[0] in Level(b, w, ka);
      var j :| 0 <= j < |b| && b[j] == a[0];
      var kb := w(b[0]);
      assert Level(b, w, kb)[0] == b[0];
      LevelMember(a, w, kb, b[0]);
      assert b[0] in Level(a, w, kb);
      var i :| 0 <= i < |a| && a[i] == b[0];
      forall k ensures Level(a[1..], w, k) == Level(b[1..], w, k) {
        assert Level(a, w, k) == Level(b, w, k);
        var h := if ka == k then [a[0]] else [];
        assert Level(a, w, k) == h + Level(a[1..], w, k);
        assert Level(b, w, k) == h + Level(b[1..], w, k);
        assert Level(a, w, k)[|h|..] == Level(a[1..], w, k);
        assert Level(b, w, k)[|h|..] == Level(b[1..], w, k);
      }
      SortUnique(a[1..], b[1..], w);
      assert a == [a[0]] + a[1..] && b == [b[0]] + b[1..];
    }
  }

  lemma {:induction false} InsertMultiset<T>(x: T, p: seq<T>, w: T -> int)
    ensures multiset(Insert(x, p, w)) == multiset(p) + multiset{x}
  {
    if p != [] && w(x) > w(p[0]) {
      InsertMultiset(x, p[1..], w);
      assert p == [p[0]] + p[1..];
    }
  }

  lemma {:induction false} InsertAscending<T>(x: T, p: seq<T>, w: T -> int)
    requires Ascending(p, w)
    ensures Ascending(Insert(x, p, w), w)
  {
    if p != [] && w(x) > w(p[0]) {
      var t := Insert(x, p[1..], w);
      assert Ascending(p[1..], w);
      InsertAscending(x, p[1..], w);
      forall j | 0 <= j < |t| ensures w(p[0]) <= w(t[j]) {
        InsertMultiset(x, p[1..], w);
        assert t[j] in multiset(t);
        if t[j] != x { assert t[j] in p[1..]; }
      }
    }
  }

  lemma LevelCons<T>(h: T, t: seq<T>, w: T -> int, k: int)
    ensures Level([h] + t, w, k) == if w(h) == k then [h] + Level(t, w, k) else Level(t, w, k)
  {
    assert ([h] + t)[1..] == t;
  }

  lemma {:induction false} InsertLevel<T>(x: T, p: seq<T>, w: T -> int, k: int)
    ensures Level(Insert(x, p, w), w, k) == (if w(x) == k then [x] else []) + Level(p, w, k)
  {
    if p == [] || w(x) <= w(p[0]) {
      LevelCons(x, p, w, k);
    } else {
      InsertLevel(x, p[1..], w, k);
      LevelCons(p[0], Insert(x, p[1..], w), w, k);
    }
  }

  /** A stable permutation in nondecreasing weight. */
  lemma {:induction false} StableSortFacts<T>(p: seq<T>, w: T -> int)
    ensures Ascending(StableSort(p, w), w)
    ensures forall k :: Level(StableSort(p, w), w, k) == Level(p, w, k)
    ensures multiset(StableSort(p, w)) == multiset(p)
  {
    if p != [] {
      StableSortFacts(p[1..], w);
      var t := StableSort(p[1..], w);
      InsertAscending(p[0], t, w);
      InsertMultiset(p[0], t, w);
      assert p == [p[0]] + p[1..];
      forall k ensures Level(StableSort(p, w), w, k) == Level(p, w, k) {
        InsertLevel(p[0], t, w, k);
        assert Level(t, w, k) == Level(p[1..], w, k);
      }
    }
  }

  ghost predicate Before<T(!new)>(p: seq<T>, x: T, y: T) {
    exists i, j :: 0 <= i < j < |p| && p[i] == x && p[j] == y
  }

  /** The order inside a level is the order of the whole sequence, both ways. */
  lemma {:induction false} LevelOrder<T(!new)>(p: seq<T>, w: T -> int, x: T, y: T)
    requires w(x) == w(y)
    ensures Before(Level(p, w, w(x)), x, y) <==> Before(p, x, y)
  {
    if p != [] {
      var k := w(x);
      var l := Level(p[1..], w, k);
      LevelOrder(p[1..], w, x, y);
      LevelMember(p[1..], w, k, y);
      assert p == [p[0]] + p[1..];
      BeforeCons(p[0], p[1..], x, y);
      if w(p[0]) == k {
        BeforeCons(p[0], l, x, y);
        assert Level(p, w, k) == [p[0]] + l;
      } else {
        assert Level(p, w, k) == [] + l == l;
      }
    }
  }

  lemma BeforeCons<T(!new)>(h: T, t: seq<T>, x: T, y: T)
    ensures Before([h] + t, x, y) <==> (h == x && y in t) || Before(t, x, y)
  {
    var p := [h] + t;
    if h == x && y in t {
      var j :| 0 <= j < |t| && t[j] == y;
      assert p[0] == x && p[j + 1] == y;
    }
    if Before(t, x, y) {
      var i, j :| 0 <= i < j < |t| && t[i] == x && t[j] == y;
      assert p[i + 1] == x && p[j + 1] == y;
    }
    if Before(p, x, y) {
      var i, j :| 0 <= i < j < |p| && p[i] == x && p[j] == y;
      assert t[j - 1] == y;
      if i > 0 { assert t[i - 1] == x; }
    }
  }

  /** What a scan in sorted order relies on: whoever stands first has the smaller weight,
      or the same weight and stood first before the sort too. */
  lemma SortedOrder<T(!new)>(p: seq<T>, w: T -> int, i: nat, j: nat)
    requires i < j < |p|
    ensures var q := StableSort(p, w); w(q[i]) < w(q[j]) || (w(q[i]) == w(q[j]) && Before(p, q[i], q[j]))
  {
    StableSortFacts(p, w);
    var q := StableSort(p, w);
    if w(q[i]) == w(q[j]) {
      var k := w(q[i]);
      assert Before(q, q[i], q[j]);
      LevelOrder(q, w, q[i], q[j]);
      assert Level(q, w, k) == Level(p, w, k);
      LevelOrder(p, w, q[i], q[j]);
    }
  }
}
