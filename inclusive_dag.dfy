/** The blocks of inclusive_ghost.py: each names up to two parents, so the
    blocks form a directed acyclic graph, and `get_ancestors` collects the
    numbers of everything reachable through `parents` with a depth-first
    walk that threads a visited dictionary. */
module InclusiveDag {

  /** `Block(num, parents)`: the parents are the blocks themselves. */
  datatype Block = Block(num: int, parents: seq<Block>)

  /** The number of block occurrences in the tree that unfolds `b`. */
  function Size(b: Block): nat
    decreases b, 1
  {
    1 + SizeAll(b.parents)
  }

  function SizeAll(ps: seq<Block>): nat
    decreases ps, 0
  {
    if ps == [] then 0 else SizeAll(ps[..|ps| - 1]) + Size(ps[|ps| - 1])
  }

  /** `b` and every block reachable from it through `parents`. */
  ghost function Sub(b: Block): set<Block>
    decreases b, 1
  {
    {b} + SubAll(b.parents)
  }

  ghost function SubAll(ps: seq<Block>): set<Block>
    decreases ps, 0
  {
    if ps == [] then {} else SubAll(ps[..|ps| - 1]) + Sub(ps[|ps| - 1])
  }

  ghost function Nums(s: set<Block>): set<int> {
    set x | x in s :: x.num
  }

  /** The numbers of `b` and of all its ancestors. */
  ghost function Reach(b: Block): set<int> {
    Nums(Sub(b))
  }

  ghost function ReachAll(ps: seq<Block>): set<int> {
    Nums(SubAll(ps))
  }

  /** Numbers identify blocks among `b` and its ancestors. */
  ghost predicate Unique(b: Block) {
    forall x, y {:trigger x in Sub(b), y in Sub(b)} :: x in Sub(b) && y in Sub(b) && x.num == y.num ==> x == y
  }

  /** Every ancestor of `b` already in `out` has all its ancestors in `out`. */
  ghost predicate Closed(out: set<int>, b: Block) {
    forall x :: x in Sub(b) && x.num in out ==> Reach(x) <= out
  }

  /** A set of numbers that is not empty has an element. */
  lemma Inhabited(s: set<int>)
    requires s != {}
    ensures exists x :: x in s
  {
    var none: set<int> := {};
    assert (forall x :: x !in s) ==> s == none;
  }

  /** Inclusion of sets of numbers, element by element. */
  lemma SubsetInts(a: set<int>, b: set<int>)
    requires forall x :: x in a ==> x in b
    ensures a <= b
  {
    var both := a * b;
    assert forall x :: x in both <==> x in a;
  }

  lemma SameInts(a: set<int>, b: set<int>)
    requires forall x :: x in a <==> x in b
    ensures a == b
  {
    SubsetInts(a, b);
    SubsetInts(b, a);
  }

  lemma NumsUnion(a: set<Block>, b: set<Block>)
    ensures Nums(a + b) == Nums(a) + Nums(b)
  {
  }

  lemma NumsSubset(a: set<Block>, b: set<Block>)
    requires a <= b
    ensures Nums(a) <= Nums(b)
  {
  }

  /** A parent's ancestry lies inside that of the list it belongs to, and
      it is no larger. */
  lemma {:induction false} SubAllHas(ps: seq<Block>, i: nat)
    requires i < |ps|
    ensures Sub(ps[i]) <= SubAll(ps) && Size(ps[i]) <= SizeAll(ps)
    decreases |ps|
  {
    if i < |ps| - 1 {
      SubAllHas(ps[..|ps| - 1], i);
    }
  }

  /** A block in the ancestry of a list lies in the ancestry of one of its
      entries. */
  lemma {:induction false} SubAllWitness(ps: seq<Block>, x: Block) returns (i: nat)
    requires x in SubAll(ps)
    ensures i < |ps| && x in Sub(ps[i])
    decreases |ps|
  {
    if x in Sub(ps[|ps| - 1]) {
      i := |ps| - 1;
    } else {
      i := SubAllWitness(ps[..|ps| - 1], x);
    }
  }

  /** Ancestry is transitive, and an ancestor other than `b` is strictly
      smaller than `b`. */
  lemma {:induction false} SubTrans(b: Block, x: Block)
    requires x in Sub(b)
    ensures Sub(x) <= Sub(b) && Size(x) <= Size(b) && (x == b || Size(x) < Size(b))
    decreases Size(b)
  {
    if x != b {
      var i := SubAllWitness(b.parents, x);
      SubAllHas(b.parents, i);
      SubTrans(b.parents[i], x);
    }
  }

  /** The same, for the ancestry of a list. */
  lemma SubAllTrans(ps: seq<Block>, x: Block)
    requires x in SubAll(ps)
    ensures Sub(x) <= SubAll(ps)
  {
    var i := SubAllWitness(ps, x);
    SubTrans(ps[i], x);
    SubAllHas(ps, i);
  }

  /** No block is among the ancestors of its own parents. */
  lemma NotBelowParent(b: Block, i: nat)
    requires i < |b.parents|
    ensures b !in Sub(b.parents[i])
  {
    SubAllHas(b.parents, i);
    if b in Sub(b.parents[i]) {
      SubTrans(b.parents[i], b);
    }
  }

  /** Reaching a block and then its ancestors reaches nothing new. */
  lemma ReachTrans(b: Block, x: Block)
    requires x in Sub(b)
    ensures Reach(x) <= Reach(b)
  {
    SubTrans(b, x);
    NumsSubset(Sub(x), Sub(b));
  }

  lemma ReachUnfold(b: Block)
    ensures Reach(b) == {b.num} + ReachAll(b.parents)
  {
    NumsUnion({b}, SubAll(b.parents));
  }

  lemma ReachAllSnoc(ps: seq<Block>, i: nat)
    requires i < |ps|
    ensures ReachAll(ps[..i + 1]) == ReachAll(ps[..i]) + Reach(ps[i])
  {
    assert ps[..i + 1][..i] == ps[..i];
    NumsUnion(SubAll(ps[..i]), Sub(ps[i]));
  }

  /** What the walk has visited before it turns to the `i`-th parent of `b`
      leaves that parent closed, as long as what it started with was. */
  lemma {:induction false} ClosedAtParent(b: Block, out: set<int>, i: nat)
    requires Unique(b) && Closed(out, b) && i < |b.parents|
    ensures Closed(out + {b.num} + ReachAll(b.parents[..i]), b.parents[i])
    ensures Unique(b.parents[i])
  {
    var p := b.parents[i];
    var cur := out + {b.num} + ReachAll(b.parents[..i]);
    SubAllHas(b.parents, i);
    assert Sub(p) <= Sub(b);
    forall x | x in Sub(p) && x.num in cur
      ensures Reach(x) <= cur
    {
      assert x in Sub(b);
      if x.num in out {
      } else if x.num == b.num {
        NotBelowParent(b, i);
        assert false;
      } else {
        var y :| y in SubAll(b.parents[..i]) && y.num == x.num;
        SubAllHas(b.parents, 0);
        assert b.parents[..i] <= b.parents;
        SubPrefix(b.parents, i);
        assert y == x;
        SubAllTrans(b.parents[..i], x);
        NumsSubset(Sub(x), SubAll(b.parents[..i]));
      }
    }
  }

  /** The ancestry of a prefix of a list lies inside that of the list. */
  lemma {:induction false} SubPrefix(ps: seq<Block>, i: nat)
    requires i <= |ps|
    ensures SubAll(ps[..i]) <= SubAll(ps)
    decreases |ps|
  {
    if i < |ps| {
      assert ps[..|ps| - 1][..i] == ps[..i];
      SubPrefix(ps[..|ps| - 1], i);
    } else {
      assert ps[..i] == ps;
    }
  }

  /** A parent already visited has all its ancestors visited. */
  lemma VisitedParent(b: Block, out: set<int>, i: nat)
    requires Unique(b) && Closed(out, b) && i < |b.parents|
    requires b.parents[i].num in out + {b.num} + ReachAll(b.parents[..i])
    ensures Reach(b.parents[i]) <= out + {b.num} + ReachAll(b.parents[..i])
  {
    ClosedAtParent(b, out, i);
  }

  /** `get_ancestors(block, out)`: `out` gains the number of `block` and of
      every ancestor of it; a visited number is not walked again. */
  method GetAncestors(b: Block, out: set<int>) returns (r: set<int>)
    requires Unique(b) && Closed(out, b)
    ensures r == out + Reach(b)
    decreases b
  {
    r := out + {b.num};
    for i := 0 to |b.parents|
      invariant r == out + {b.num} + ReachAll(b.parents[..i])
    {
      var p := b.parents[i];
      ClosedAtParent(b, out, i);
      if p.num !in r {
        r := GetAncestors(p, r);
      } else {
        VisitedParent(b, out, i);
      }
      ReachAllSnoc(b.parents, i);
    }
    assert b.parents[..|b.parents|] == b.parents;
    ReachUnfold(b);
  }

  /** Called as `get_ancestors(block)`, the walk returns exactly the
      numbers of `block` and its ancestors. */
  method Ancestors(b: Block) returns (r: set<int>)
    requires Unique(b)
    ensures r == Reach(b)
    ensures b.num in r && forall i :: 0 <= i < |b.parents| ==> Reach(b.parents[i]) <= r
  {
    r := GetAncestors(b, {});
    ReachUnfold(b);
    forall i | 0 <= i < |b.parents|
      ensures Reach(b.parents[i]) <= r
    {
      SubAllHas(b.parents, i);
      NumsSubset(Sub(b.parents[i]), SubAll(b.parents));
    }
  }
}
