/** The Merkle root of a run's tool receipts. The hash of two concatenated hashes
    is any function `pair`; where it matters it is assumed injective. Hash texts of
    one length and case sort like the numbers they spell, so a hash is a number. */
module ToolReceiptRoot {
  import opened Wrappers

  // ---------------------------------------------------------------- sorting

  type Hash = nat

  predicate IsSorted(s: seq<Hash>) {
    forall i, j :: 0 <= i < j < |s| ==> s[i] <= s[j]
  }

  function Inserted(s: seq<Hash>, x: Hash): seq<Hash> {
    if s == [] || x <= s[0] then [x] + s else [s[0]] + Inserted(s[1..], x)
  }

  function Sorted(s: seq<Hash>): seq<Hash> {
    if s == [] then [] else Inserted(Sorted(s[1..]), s[0])
  }

  lemma {:induction false} InsertedKeepsElements(s: seq<Hash>, x: Hash)
    ensures multiset(Inserted(s, x)) == multiset(s) + multiset{x}
  {
    if s != [] && x > s[0] {
      InsertedKeepsElements(s[1..], x);
      assert s == [s[0]] + s[1..];
    }
  }

  lemma {:induction false} InsertedSorts(s: seq<Hash>, x: Hash)
    requires IsSorted(s)
    ensures IsSorted(Inserted(s, x))
  {
    if s == [] {
    } else if x <= s[0] {
      forall j | 0 <= j < |s| ensures x <= s[j] {
        assert j == 0 || s[0] <= s[j];
      }
    } else {
      var rest := Inserted(s[1..], x);
      InsertedSorts(s[1..], x);
      InsertedKeepsElements(s[1..], x);
      assert s[0] <= x;
      forall j | 0 <= j < |rest| ensures s[0] <= rest[j] {
        assert rest[j] in multiset(s[1..]) + multiset{x};
      }
      SortedCons(s[0], rest);
    }
  }

  lemma SortedCons(x: Hash, rest: seq<Hash>)
    requires IsSorted(rest) && forall j :: 0 <= j < |rest| ==> x <= rest[j]
    ensures IsSorted([x] + rest)
  {
  }

  lemma {:induction false} SortedSorts(s: seq<Hash>)
    ensures IsSorted(Sorted(s)) && multiset(Sorted(s)) == multiset(s)
    ensures |Sorted(s)| == |s|
  {
    if s != [] {
      SortedSorts(s[1..]);
      var rest := Sorted(s[1..]);
      hide IsSorted;
      InsertedSorts(rest, s[0]);
      InsertedKeepsElements(rest, s[0]);
      assert Sorted(s) == Inserted(rest, s[0]);
      hide Sorted, Inserted;
      assert s == [s[0]] + s[1..];
      assert multiset(s) == multiset(s[1..]) + multiset{s[0]};
    }
    assert |multiset(Sorted(s))| == |Sorted(s)| && |multiset(s)| == |s|;
  }

  lemma LeastComesFirst(a: seq<Hash>, b: seq<Hash>)
    requires IsSorted(a) && IsSorted(b) && multiset(a) == multiset(b)
    requires a != [] && b != []
    ensures a[0] == b[0]
  {
    assert a[0] in multiset(b) && b[0] in multiset(a);
    var i :| 0 <= i < |b| && b[i] == a[0];
    var j :| 0 <= j < |a| && a[j] == b[0];
    assert b[0] <= b[i] && a[0] <= a[j];
  }

  /** There is one sorted arrangement of given elements, so it does not matter which
      sorting algorithm finds it. */
  lemma {:induction false} SortedIsUnique(a: seq<Hash>, b: seq<Hash>)
    requires IsSorted(a) && IsSorted(b) && multiset(a) == multiset(b)
    ensures a == b
  {
    assert |multiset(a)| == |a| && |multiset(b)| == |b|;
    if a != [] {
      LeastComesFirst(a, b);
      assert a == [a[0]] + a[1..] && b == [b[0]] + b[1..];
      assert multiset(a[1..]) == multiset(a) - multiset{a[0]} == multiset(b[1..]);
      SortedIsUnique(a[1..], b[1..]);
    }
  }

  // ---------------------------------------------------------------- the tree

  /** Neighbours are hashed together; an odd one out with itself. */
  function NextLevel(level: seq<Hash>, pair: (Hash, Hash) -> Hash): (next: seq<Hash>)
    ensures |next| == (|level| + 1) / 2
  {
    if level == [] then []
    else if |level| == 1 then [pair(level[0], level[0])]
    else [pair(level[0], level[1])] + NextLevel(level[2..], pair)
  }

  function Root(level: seq<Hash>, pair: (Hash, Hash) -> Hash): Hash
    requires level != []
    decreases |level|
  {
    if |level| == 1 then level[0] else Root(NextLevel(level, pair), pair)
  }

  function Left(level: seq<Hash>, k: nat): Hash
    requires 2 * k < |level|
  {
    level[2 * k]
  }

  function Right(level: seq<Hash>, k: nat): Hash
    requires 2 * k < |level|
  {
    if 2 * k + 1 < |level| then level[2 * k + 1] else level[2 * k]
  }

  lemma {:induction false} NextLevelAt(level: seq<Hash>, pair: (Hash, Hash) -> Hash, k: nat)
    requires 2 * k < |level|
    ensures NextLevel(level, pair)[k] == pair(Left(level, k), Right(level, k))
  {
    if k > 0 {
      NextLevelAt(level[2..], pair, k - 1);
    }
  }

  method BuildToolReceiptRoot(receiptHashes: seq<Hash>, pair: (Hash, Hash) -> Hash) returns (root: Option<Hash>)
    ensures root.None? <==> receiptHashes == []
    ensures root.Some? ==> Sorted(receiptHashes) != [] && root.value == Root(Sorted(receiptHashes), pair)
  {
    if |receiptHashes| == 0 { return None; }
    var level := Sorted(receiptHashes);
    ghost var leaves := level;
    SortedLength(receiptHashes);
    while |level| > 1
      invariant level != [] && Root(level, pair) == Root(leaves, pair)
      decreases |level|
    {
      level := HashNeighbours(level, pair);
    }
    return Some(level[0]);
  }

  method HashNeighbours(level: seq<Hash>, pair: (Hash, Hash) -> Hash) returns (next: seq<Hash>)
    ensures next == NextLevel(level, pair)
  {
    next := [];
    var index := 0;
    while index < |level|
      invariant index == 2 * |next| <= |level| + 1
      invariant forall k :: 0 <= k < |next| ==> next[k] == NextLevel(level, pair)[k]
    {
      var left := level[index];
      var right := if index + 1 < |level| then level[index + 1] else left;
      NextLevelAt(level, pair, |next|);
      next := next + [pair(left, right)];
      index := index + 2;
    }
  }

  lemma {:induction false} SortedLength(s: seq<Hash>)
    ensures |Sorted(s)| == |s|
  {
    if s != [] {
      SortedLength(s[1..]);
      InsertedLength(Sorted(s[1..]), s[0]);
    }
  }

  lemma {:induction false} InsertedLength(s: seq<Hash>, x: Hash)
    ensures |Inserted(s, x)| == |s| + 1
  {
    if s != [] && x > s[0] {
      InsertedLength(s[1..], x);
    }
  }

  // ---------------------------------------------------------------- what a root commits to

  ghost predicate IsInjective(pair: (Hash, Hash) -> Hash) {
    forall a, b, c, d :: pair(a, b) == pair(c, d) ==> a == c && b == d
  }

  /** The order in which receipts were recorded does not show in the root. */
  lemma RootIgnoresOrder(a: seq<Hash>, b: seq<Hash>, pair: (Hash, Hash) -> Hash)
    requires a != [] && multiset(a) == multiset(b)
    ensures |Sorted(a)| > 0 && |Sorted(b)| > 0
    ensures Root(Sorted(a), pair) == Root(Sorted(b), pair)
  {
    SortedSorts(a);
    SortedSorts(b);
    SortedIsUnique(Sorted(a), Sorted(b));
  }

  lemma {:induction false} RootIsInjective(a: seq<Hash>, b: seq<Hash>, pair: (Hash, Hash) -> Hash)
    requires IsInjective(pair) && a != [] && |a| == |b| && Root(a, pair) == Root(b, pair)
    ensures a == b
    decreases |a|
  {
    if |a| > 1 {
      RootIsInjective(NextLevel(a, pair), NextLevel(b, pair), pair);
      forall i | 0 <= i < |a| ensures a[i] == b[i] {
        NextLevelAt(a, pair, i / 2);
        NextLevelAt(b, pair, i / 2);
        assert Left(a, i / 2) == Left(b, i / 2) && Right(a, i / 2) == Right(b, i / 2);
      }
    }
  }

  /** Among runs with equally many receipts, the root determines exactly which
      receipts there were, and how often. */
  lemma RootCommitsToReceipts(a: seq<Hash>, b: seq<Hash>, pair: (Hash, Hash) -> Hash)
    requires IsInjective(pair) && a != [] && |a| == |b|
    ensures |Sorted(a)| > 0 && |Sorted(b)| > 0
    ensures Root(Sorted(a), pair) == Root(Sorted(b), pair) <==> multiset(a) == multiset(b)
  {
    SortedSorts(a);
    SortedSorts(b);
    if Root(Sorted(a), pair) == Root(Sorted(b), pair) {
      RootIsInjective(Sorted(a), Sorted(b), pair);
    }
    if multiset(a) == multiset(b) {
      RootIgnoresOrder(a, b, pair);
    }
  }

  // ---------------------------------------------------------------- different numbers of receipts

  /** Without the number of receipts the root does not commit: repeating the last of
      three receipts changes nothing. */
  lemma RepeatedLastReceiptCollides(a: Hash, b: Hash, c: Hash, pair: (Hash, Hash) -> Hash)
    requires a <= b <= c
    ensures Sorted([a, b, c]) == [a, b, c] && Sorted([a, b, c, c]) == [a, b, c, c]
    ensures Root([a, b, c], pair) == Root([a, b, c, c], pair)
  {
    assert [a, b, c][1..] == [b, c] && [b, c][1..] == [c] && [c][1..] == [];
    assert [a, b, c, c][1..] == [b, c, c] && [b, c, c][1..] == [c, c] && [c, c][1..] == [c];
    assert Sorted([c]) == [c] && Sorted([c, c]) == [c, c];
    assert Sorted([b, c]) == [b, c] && Sorted([b, c, c]) == [b, c, c];
    assert [a, b, c][2..] == [c] && [a, b, c, c][2..] == [c, c];
    assert NextLevel([a, b, c], pair) == [pair(a, b), pair(c, c)];
    assert NextLevel([c, c], pair) == [pair(c, c)] + NextLevel([c, c][2..], pair);
    assert NextLevel([a, b, c, c], pair) == [pair(a, b), pair(c, c)];
  }

  function Depth(n: nat): nat
    requires n > 0
  {
    if n == 1 then 0 else 1 + Depth((n + 1) / 2)
  }

  function Pow2(d: nat): nat { if d == 0 then 1 else 2 * Pow2(d - 1) }

  /** The leaf, among `n`, that stands at position `j` of the full tree of depth `d`
      once every odd one out is repeated. */
  function LeafAt(n: nat, d: nat, j: nat): (i: nat)
    requires n > 0
    ensures i < n
  {
    if d == 0 then 0
    else
      var i := 2 * LeafAt((n + 1) / 2, d - 1, j / 2) + j % 2;
      if i < n then i else n - 1
  }

  predicate SameLeaf(a: seq<Hash>, b: seq<Hash>, d: nat, j: nat)
    requires a != [] && b != []
  {
    a[LeafAt(|a|, d, j)] == b[LeafAt(|b|, d, j)]
  }

  predicate SameFullTree(a: seq<Hash>, b: seq<Hash>, d: nat)
    requires a != [] && b != []
  {
    forall j :: 0 <= j < Pow2(d) ==> SameLeaf(a, b, d, j)
  }

  /** Trees of the same depth collide exactly when they are equal once filled up. */
  lemma {:induction false} RootsCollideExactlyWhenFullTreesAgree(a: seq<Hash>, b: seq<Hash>, pair: (Hash, Hash) -> Hash)
    requires IsInjective(pair) && a != [] && b != [] && Depth(|a|) == Depth(|b|)
    ensures Root(a, pair) == Root(b, pair) <==> SameFullTree(a, b, Depth(|a|))
    decreases |a|
  {
    if |a| == 1 {
      assert Pow2(0) == 1;
      assert SameLeaf(a, b, 0, 0) <==> a[0] == b[0];
    } else {
      RootsCollideExactlyWhenFullTreesAgree(NextLevel(a, pair), NextLevel(b, pair), pair);
      FullTreesAgreeLevelByLevel(a, b, Depth(|a|), pair);
    }
  }

  lemma FullTreesAgreeLevelByLevel(a: seq<Hash>, b: seq<Hash>, d: nat, pair: (Hash, Hash) -> Hash)
    requires IsInjective(pair) && |a| > 1 && |b| > 1 && d > 0
    ensures SameFullTree(a, b, d) <==> SameFullTree(NextLevel(a, pair), NextLevel(b, pair), d - 1)
  {
    hide SameLeaf, IsInjective, NextLevel;
    var an, bn, e := NextLevel(a, pair), NextLevel(b, pair), d - 1;
    if SameFullTree(a, b, d) {
      forall j: nat | j < Pow2(e) ensures SameLeaf(an, bn, e, j) {
        assert SameLeaf(a, b, d, 2 * j) && SameLeaf(a, b, d, 2 * j + 1);
        NodesAgreeWhenLeavesDo(a, b, d, j, pair);
      }
    }
    if SameFullTree(an, bn, e) {
      forall j: nat | j < Pow2(d) ensures SameLeaf(a, b, d, j) {
        assert SameLeaf(an, bn, e, j / 2);
        NodesAgreeWhenLeavesDo(a, b, d, j / 2, pair);
        assert j == 2 * (j / 2) || j == 2 * (j / 2) + 1;
      }
    }
  }

  lemma NodesAgreeWhenLeavesDo(a: seq<Hash>, b: seq<Hash>, d: nat, j: nat, pair: (Hash, Hash) -> Hash)
    requires IsInjective(pair) && |a| > 1 && |b| > 1 && d > 0
    ensures SameLeaf(NextLevel(a, pair), NextLevel(b, pair), d - 1, j)
            <==> SameLeaf(a, b, d, 2 * j) && SameLeaf(a, b, d, 2 * j + 1)
  {
    NodeFromLeaves(a, pair, d, j);
    NodeFromLeaves(b, pair, d, j);
  }

  lemma NodeFromLeaves(a: seq<Hash>, pair: (Hash, Hash) -> Hash, d: nat, j: nat)
    requires |a| > 1 && d > 0
    ensures NextLevel(a, pair)[LeafAt((|a| + 1) / 2, d - 1, j)]
            == pair(a[LeafAt(|a|, d, 2 * j)], a[LeafAt(|a|, d, 2 * j + 1)])
  {
    var k := LeafAt((|a| + 1) / 2, d - 1, j);
    NextLevelAt(a, pair, k);
    assert (2 * j) / 2 == j && (2 * j + 1) / 2 == j && (2 * j) % 2 == 0 && (2 * j + 1) % 2 == 1;
    assert LeafAt(|a|, d, 2 * j) == 2 * k;
  }

  /** The level that stands `n` levels above the leaves. */
  function LevelUp(level: seq<Hash>, n: nat, pair: (Hash, Hash) -> Hash): seq<Hash>
    decreases n
  {
    if n == 0 then level else LevelUp(NextLevel(level, pair), n - 1, pair)
  }

  lemma {:induction false} LevelUpHasSameRoot(level: seq<Hash>, n: nat, pair: (Hash, Hash) -> Hash)
    requires level != [] && n <= Depth(|level|)
    ensures LevelUp(level, n, pair) != [] && Depth(|LevelUp(level, n, pair)|) == Depth(|level|) - n
    ensures Root(LevelUp(level, n, pair), pair) == Root(level, pair)
    decreases n
  {
    if n > 0 {
      LevelUpHasSameRoot(NextLevel(level, pair), n - 1, pair);
    }
  }

  /** Taken at the depth of the shallower, the two trees have the same nodes, once
      every odd one out is repeated. */
  predicate SameNodes(a: seq<Hash>, b: seq<Hash>, pair: (Hash, Hash) -> Hash)
    requires a != [] && b != []
  {
    var d, e := Depth(|a|), Depth(|b|);
    if d <= e then
      var top := LevelUp(b, e - d, pair);
      top != [] && SameFullTree(a, top, d)
    else
      var top := LevelUp(a, d - e, pair);
      top != [] && SameFullTree(top, b, e)
  }

  /** Any two trees, of whatever sizes, collide exactly when the shallower one is the
      top of the deeper one. */
  lemma RootsCollideExactlyWhenNodesAgree(a: seq<Hash>, b: seq<Hash>, pair: (Hash, Hash) -> Hash)
    requires IsInjective(pair) && a != [] && b != []
    ensures Root(a, pair) == Root(b, pair) <==> SameNodes(a, b, pair)
  {
    hide IsInjective, SameFullTree, Root, LevelUp, Depth;
    var d, e := Depth(|a|), Depth(|b|);
    if d <= e {
      LevelUpHasSameRoot(b, e - d, pair);
      RootsCollideExactlyWhenFullTreesAgree(a, LevelUp(b, e - d, pair), pair);
    } else {
      LevelUpHasSameRoot(a, d - e, pair);
      RootsCollideExactlyWhenFullTreesAgree(LevelUp(a, d - e, pair), b, pair);
    }
  }

  /** Different depths collide too: two receipts, and one whose hash is their node. */
  lemma NodeAsReceiptCollides(x: Hash, y: Hash, pair: (Hash, Hash) -> Hash)
    requires x <= y
    ensures Sorted([pair(x, y)]) == [pair(x, y)] && Sorted([x, y]) == [x, y]
    ensures Root([pair(x, y)], pair) == Root([x, y], pair)
  {
    assert [x, y][1..] == [y] && [y][1..] == [] && [pair(x, y)][1..] == [];
    assert Sorted([y]) == [y];
    assert NextLevel([x, y], pair) == [pair(x, y)];
  }
}
