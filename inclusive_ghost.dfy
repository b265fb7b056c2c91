/** The miners of inclusive_ghost.py. Each new block names the miner's
    (at most two) heads as parents; a miner stores a block once all its
    parents are held, credits one point to the block and to every ancestor,
    and then walks from the genesis to the heaviest child at each step to
    find its head. The second head is the highest-numbered held block that
    is not an ancestor of the first. */
module InclusiveGhost {
  import opened Wrappers
  import opened StateMaps
  import opened InclusiveDag

  /** `BLKTIME`: a miner whose turn it is mines with probability
      `1.0 / BLKTIME`. */
  const BlkTime := 10

  /** `Block(-1, [])`, which every miner starts from. */
  const Genesis := Block(-1, [])

  predicate Distinct(s: seq<int>) {
    forall i, j :: 0 <= i < j < |s| ==> s[i] != s[j]
  }

  ghost function Elems(s: seq<int>): set<int> {
    set x | x in s
  }

  /** The numbers of a list of blocks. */
  ghost function NumsOf(ps: seq<Block>): set<int> {
    set i | 0 <= i < |ps| :: ps[i].num
  }

  // ---------------------------------------------------------------------
  // all_blocks
  // ---------------------------------------------------------------------

  /** Constructing a `Block` appends its number to `all_blocks` unless it
      is already there. */
  function Register(all: seq<int>, num: int): (r: seq<int>)
    ensures Elems(r) == Elems(all) + {num}
    ensures Distinct(all) ==> Distinct(r)
    ensures all <= r && |r| <= |all| + 1
  {
    if num in all then all else all + [num]
  }

  /** The global list `all_blocks`. */
  class Registry {
    var nums: seq<int>

    ghost predicate Valid()
      reads this
    {
      Distinct(nums)
    }

    constructor()
      ensures Valid() && nums == []
    {
      nums := [];
    }

    method Add(num: int)
      requires Valid()
      modifies this`nums
      ensures Valid() && nums == Register(old(nums), num)
    {
      if num !in nums {
        nums := nums + [num];
      }
    }
  }

  // ---------------------------------------------------------------------
  // What a miner holds
  // ---------------------------------------------------------------------

  /** The genesis has no parents; every other block has a non-negative
      number, at least one parent, and a larger number than each parent,
      which is what the assertion in `mine` enforces. */
  predicate Shaped(b: Block) {
    if b.num == -1 then b.parents == []
    else b.num >= 0 && |b.parents| > 0 && forall i :: 0 <= i < |b.parents| ==> b.parents[i].num < b.num
  }

  /** `blocks` holds the genesis, holds each block under its own number,
      and holds the parents of every block it holds. */
  ghost predicate Stored(blocks: map<int, Block>) {
    && -1 in blocks && blocks[-1] == Genesis
    && (forall n :: n in blocks ==> blocks[n].num == n && Shaped(blocks[n]))
    && (forall n, i :: n in blocks && 0 <= i < |blocks[n].parents| ==>
          blocks[n].parents[i].num in blocks && blocks[blocks[n].parents[i].num] == blocks[n].parents[i])
  }

  /** `children[p]` holds exactly the held blocks that name `p` as a parent. */
  ghost predicate Linked(children: map<int, set<int>>, blocks: map<int, Block>) {
    forall p, c :: c in Lookup(children, p, {}) <==> c in blocks && p in NumsOf(blocks[c].parents)
  }

  /** Every held block but the genesis carries a positive score. */
  ghost predicate Scored(blocks: map<int, Block>, scores: map<int, int>) {
    forall n :: n in blocks && n != -1 ==> n in scores && scores[n] >= 1
  }

  /** How many of the stored blocks in `acc` have `n` among their own
      number and their ancestors' numbers. */
  ghost function Weight(acc: seq<Block>, n: int): (w: nat)
    ensures w <= |acc|
    ensures w > 0 <==> exists i :: 0 <= i < |acc| && n in Reach(acc[i])
  {
    if acc == [] then 0
    else
      var w0 := Weight(acc[..|acc| - 1], n);
      assert forall i :: 0 <= i < |acc| - 1 ==> acc[..|acc| - 1][i] == acc[i];
      w0 + if n in Reach(acc[|acc| - 1]) then 1 else 0
  }

  /** A score counts the stored blocks that are the block itself or one of
      its descendants, each storing counted once. */
  ghost predicate Tallied(scores: map<int, int>, acc: seq<Block>) {
    forall n :: Lookup(scores, n, 0) == Weight(acc, n)
  }

  /** One or two heads, all of them held. */
  ghost predicate HeadsHeld(heads: seq<Block>, blocks: map<int, Block>) {
    && 1 <= |heads| <= 2
    && forall i :: 0 <= i < |heads| ==> heads[i].num in blocks && blocks[heads[i].num] == heads[i]
  }

  /** A walk `get_head` may take: from the genesis, each step to a child
      whose score no sibling exceeds. */
  ghost predicate HeaviestPath(children: map<int, set<int>>, scores: map<int, int>, path: seq<int>) {
    && |path| > 0 && path[0] == -1
    && forall i :: 0 <= i < |path| - 1 ==>
         && path[i + 1] in Lookup(children, path[i], {})
         && forall c :: c in Lookup(children, path[i], {}) ==> Lookup(scores, c, 0) <= Lookup(scores, path[i + 1], 0)
  }

  /** The heads `listen` sets: first the end of a walk `get_head` may take,
      which has no children; then, when there is one, the highest-numbered
      held block that is not an ancestor of the first head. */
  ghost predicate Targeted(heads: seq<Block>, blocks: map<int, Block>, children: map<int, set<int>>, scores: map<int, int>) {
    && HeadsHeld(heads, blocks)
    && (exists path :: HeaviestPath(children, scores, path) && path[|path| - 1] == heads[0].num)
    && Lookup(children, heads[0].num, {}) == {}
    && (|heads| == 2 <==> !(blocks.Keys <= Reach(heads[0])))
    && (|heads| == 2 ==>
          && heads[1].num !in Reach(heads[0])
          && forall n :: n in blocks && n !in Reach(heads[0]) ==> n <= heads[1].num)
  }

  /** Storing a block and crediting it and its ancestors keeps every held
      block scored. */
  lemma CreditKeepsScored(blocks: map<int, Block>, b: Block, scores0: map<int, int>, scores: map<int, int>, acc: seq<Block>)
    requires Scored(blocks, scores0) && Tallied(scores0, acc) && b.num in Reach(b)
    requires forall n :: Lookup(scores, n, 0) == Lookup(scores0, n, 0) + if n in Reach(b) then 1 else 0
    ensures Scored(blocks[b.num := b], scores)
  {
    forall n | n in blocks[b.num := b] && n != -1
      ensures n in scores && scores[n] >= 1
    {
      assert Lookup(scores0, n, 0) == Weight(acc, n);
    }
  }

  /** Blocks from a queue agree, number by number, with what is held, and
      each has the shape `mine` gives it. */
  ghost predicate Coherent(blocks: map<int, Block>, q: seq<Block>) {
    && (forall i :: 0 <= i < |q| ==> Shaped(q[i]))
    && (forall i :: 0 <= i < |q| && q[i].num in blocks ==> blocks[q[i].num] == q[i])
    && (forall i, j :: 0 <= i < |q| && 0 <= j < |q[i].parents| && q[i].parents[j].num in blocks ==>
          blocks[q[i].parents[j].num] == q[i].parents[j])
    && (forall i, k, j :: 0 <= i < |q| && 0 <= k < |q| && 0 <= j < |q[k].parents| && q[i].num == q[k].parents[j].num ==>
          q[i] == q[k].parents[j])
    && (forall i, k :: 0 <= i < |q| && 0 <= k < |q| && q[i].num == q[k].num ==> q[i] == q[k])
  }

  /** Storing an entry of a coherent queue keeps the queue coherent. */
  lemma CoherentAfterStore(blocks: map<int, Block>, q: seq<Block>, i: nat)
    requires Coherent(blocks, q) && i < |q|
    ensures Coherent(blocks[q[i].num := q[i]], q)
  {
  }

  /** The numbers of the parents in `ps` that `blocks` does not hold, in
      order: the blocks `listen` requests. */
  function Missing(ps: seq<Block>, blocks: map<int, Block>): (r: seq<int>)
    ensures r == [] <==> forall i :: 0 <= i < |ps| ==> ps[i].num in blocks
    ensures forall i :: 0 <= i < |ps| && ps[i].num !in blocks ==> ps[i].num in r
    ensures forall j :: 0 <= j < |r| ==> r[j] !in blocks
  {
    if ps == [] then []
    else
      var r0 := Missing(ps[..|ps| - 1], blocks);
      assert forall i :: 0 <= i < |ps| - 1 ==> ps[..|ps| - 1][i] == ps[i];
      var last := ps[|ps| - 1];
      if last.num in blocks then r0 else r0 + [last.num]
  }

  /** `[x for x in xs if x not in h]` */
  function Unseen(xs: seq<int>, h: seq<int>): (r: seq<int>)
    ensures forall x :: x in r <==> x in xs && x !in h
    ensures |r| <= |xs|
  {
    if xs == [] then []
    else
      var r0 := Unseen(xs[..|xs| - 1], h);
      assert forall x :: x in xs <==> x in xs[..|xs| - 1] || x == xs[|xs| - 1];
      if xs[|xs| - 1] in h then r0 else r0 + [xs[|xs| - 1]]
  }

  /** When nothing of `xs` is in `h`, the filter keeps all of `xs`. */
  lemma {:induction false} UnseenDisjoint(xs: seq<int>, h: seq<int>)
    requires forall x :: x in xs ==> x !in h
    ensures Unseen(xs, h) == xs
  {
    if xs != [] {
      var last := xs[|xs| - 1];
      assert last in xs;
      assert forall x :: x in xs[..|xs| - 1] ==> x in xs;
      UnseenDisjoint(xs[..|xs| - 1], h);
      assert last !in h;
      assert Unseen(xs, h) == Unseen(xs[..|xs| - 1], h) + [last];
      assert xs[..|xs| - 1] + [last] == xs;
    }
  }

  /** Every ancestor of a held block is held under its own number, and has
      no larger number. */
  lemma {:induction false} StoredSub(blocks: map<int, Block>, n: int)
    requires Stored(blocks) && n in blocks
    ensures forall x :: x in Sub(blocks[n]) ==> x.num in blocks && blocks[x.num] == x && x.num <= n
    decreases n + 1
  {
    forall x | x in Sub(blocks[n])
      ensures x.num in blocks && blocks[x.num] == x && x.num <= n
    {
      if x != blocks[n] {
        var i := SubAllWitness(blocks[n].parents, x);
        var p := blocks[n].parents[i];
        assert Shaped(blocks[n]);
        StoredSub(blocks, p.num);
      }
    }
  }

  /** So the numbers reachable from a held block are all held, and numbers
      identify the blocks among its ancestors. */
  lemma StoredReach(blocks: map<int, Block>, n: int)
    requires Stored(blocks) && n in blocks
    ensures Unique(blocks[n])
    ensures forall m :: m in Reach(blocks[n]) ==> m in blocks && m <= n
  {
    StoredSub(blocks, n);
  }

  /** Storing a block whose parents are held keeps `Stored`. */
  lemma StoreKeepsStored(blocks: map<int, Block>, b: Block)
    requires Stored(blocks) && Shaped(b)
    requires b.num in blocks ==> blocks[b.num] == b
    requires forall i :: 0 <= i < |b.parents| ==> b.parents[i].num in blocks && blocks[b.parents[i].num] == b.parents[i]
    ensures Stored(blocks[b.num := b])
  {
  }

  /** Each storing counts once more for every number it reaches. */
  lemma WeightSnoc(acc: seq<Block>, b: Block, n: int)
    ensures Weight(acc + [b], n) == Weight(acc, n) + if n in Reach(b) then 1 else 0
  {
    assert (acc + [b])[..|acc|] == acc;
  }

  /** A finite set of numbers has an upper bound. */
  lemma {:induction false} UpperBound(s: set<int>) returns (top: int)
    ensures forall x :: x in s ==> x <= top
    decreases |s|
  {
    top := 0;
    if s != {} {
      Inhabited(s);
      var x :| x in s;
      var t := UpperBound(s - {x});
      top := if x < t then t else x;
      forall y | y in s
        ensures y <= top
      {
        if y != x {
          assert y in s - {x};
        }
      }
    }
  }

  /** A child is held, numbered above its parent, and not the genesis. */
  lemma ChildAbove(children: map<int, set<int>>, blocks: map<int, Block>, p: int, c: int)
    requires Stored(blocks) && Linked(children, blocks) && c in Lookup(children, p, {})
    ensures c in blocks && p in blocks && p < c && c >= 0
  {
    var i :| 0 <= i < |blocks[c].parents| && blocks[c].parents[i].num == p;
    assert Shaped(blocks[c]);
  }

  /** A walk that takes a child of maximal score one step further is still
      a walk `get_head` may take. */
  lemma HeaviestStep(children: map<int, set<int>>, scores: map<int, int>, path: seq<int>, c: int)
    requires HeaviestPath(children, scores, path)
    requires c in Lookup(children, path[|path| - 1], {})
    requires forall k :: k in Lookup(children, path[|path| - 1], {}) ==> Lookup(scores, k, 0) <= Lookup(scores, c, 0)
    ensures HeaviestPath(children, scores, path + [c])
  {
    var path' := path + [c];
    forall i | 0 <= i < |path'| - 1
      ensures path'[i + 1] in Lookup(children, path'[i], {})
      ensures forall k :: k in Lookup(children, path'[i], {}) ==> Lookup(scores, k, 0) <= Lookup(scores, path'[i + 1], 0)
    {
      if i < |path| - 1 {
        assert path'[i] == path[i] && path'[i + 1] == path[i + 1];
      }
    }
  }

  // ---------------------------------------------------------------------
  // get_totchain
  // ---------------------------------------------------------------------

  /** Every entry of `h` is held and numbered below `bound`. */
  ghost predicate Below(blocks: map<int, Block>, h: seq<int>, bound: int) {
    forall k :: 0 <= k < |h| ==> h[k] in blocks && h[k] < bound
  }

  /** Each parent of an entry of `h` is in `done` or earlier in `h`. */
  ghost predicate Topo(blocks: map<int, Block>, done: set<int>, h: seq<int>) {
    forall k, j :: 0 <= k < |h| && h[k] in blocks && 0 <= j < |blocks[h[k]].parents| ==>
      blocks[h[k]].parents[j].num in done || blocks[h[k]].parents[j].num in h[..k]
  }

  lemma BelowAppend(blocks: map<int, Block>, h: seq<int>, sub: seq<int>, b1: int, bound: int)
    requires Below(blocks, h, bound) && Below(blocks, sub, b1) && b1 <= bound
    ensures Below(blocks, h + sub, bound)
  {
  }

  lemma ElemsAppend(a: seq<int>, b: seq<int>)
    ensures Elems(a + b) == Elems(a) + Elems(b)
  {
    SameInts(Elems(a + b), Elems(a) + Elems(b));
  }

  lemma DistinctAppend(a: seq<int>, b: seq<int>)
    requires Distinct(a) && Distinct(b) && forall x :: x in b ==> x !in a
    ensures Distinct(a + b)
  {
    forall i, j | 0 <= i < j < |a + b|
      ensures (a + b)[i] != (a + b)[j]
    {
      if i < |a| <= j {
        assert (a + b)[j] in b;
      }
    }
  }

  /** A chain walked from a parent, after the chain walked so far, keeps
      every parent ahead of its child, as long as whatever the inner walk
      took as scanned, apart from a number no entry of it reaches, was
      scanned or walked before. */
  lemma TopoAppend(blocks: map<int, Block>, done: set<int>, h: seq<int>, done2: set<int>, sub: seq<int>, bound: int, excluded: int)
    requires Stored(blocks) && Topo(blocks, done, h) && Topo(blocks, done2, sub) && Below(blocks, sub, bound)
    requires bound <= excluded && done2 - {excluded} <= done + Elems(h)
    ensures Topo(blocks, done, h + sub)
  {
    var hs := h + sub;
    forall k, j | 0 <= k < |hs| && hs[k] in blocks && 0 <= j < |blocks[hs[k]].parents|
      ensures blocks[hs[k]].parents[j].num in done || blocks[hs[k]].parents[j].num in hs[..k]
    {
      var q := blocks[hs[k]].parents[j].num;
      if k < |h| {
        assert hs[..k] == h[..k];
      } else {
        var m := k - |h|;
        assert hs[k] == sub[m] && hs[..k] == h + sub[..m];
        assert Shaped(blocks[sub[m]]);
        if q in done2 {
          assert q in done2 - {excluded};
        }
      }
    }
  }

  /** The set algebra of one step of the walk over the parents of `head`:
      `S` was scanned before the walk, `P` is what the parents so far
      reach, `E` what the walk listed, `R` what the next parent reaches. */
  lemma ChainSets(S: set<int>, head: int, P: set<int>, R: set<int>, E: set<int>)
    requires head !in R && E == P - S
    ensures E + (R - (S + {head} + P)) == (P + R) - S
    ensures E * (R - (S + {head} + P)) == {}
    ensures R <= S + {head} + P ==> E == (P + R) - S
    ensures (S + {head} + P) + R == S + {head} + (P + R)
    ensures (S + {head} + P) - {head} <= S + E
  {
  }

  lemma Apart(a: seq<int>, b: seq<int>)
    requires Elems(a) * Elems(b) == {}
    ensures forall x :: x in a ==> x !in b
  {
    forall x | x in a
      ensures x !in b
    {
      assert x in Elems(a);
      assert x !in Elems(a) * Elems(b);
      assert x !in Elems(b);
    }
  }

  /** `get_totchain(head, scanned)`, on the miner's `blocks`: the numbers
      reachable from `head` that were not yet scanned, each after its
      parents, ending with `head`; `scanned` gains all of them. The filter
      `if x not in h` never drops anything. */
  method TotChain(blocks: map<int, Block>, head: int, scanned: set<int>) returns (h: seq<int>, scanned': set<int>)
    requires Stored(blocks) && head in blocks && head !in scanned && Closed(scanned, blocks[head])
    ensures scanned' == scanned + Reach(blocks[head])
    ensures Distinct(h) && Elems(h) == Reach(blocks[head]) - scanned
    ensures |h| > 0 && h[|h| - 1] == head
    ensures Below(blocks, h, head + 1) && Topo(blocks, scanned, h)
    decreases head + 1
  {
    StoredReach(blocks, head);
    var b := blocks[head];
    assert Shaped(b);
    h := [];
    scanned' := scanned + {head};
    for i := 0 to |b.parents|
      invariant scanned' == scanned + {head} + ReachAll(b.parents[..i])
      invariant Distinct(h) && Elems(h) == ReachAll(b.parents[..i]) - scanned
      invariant Below(blocks, h, head) && Topo(blocks, scanned, h)
    {
      var p := b.parents[i];
      ghost var P := ReachAll(b.parents[..i]);
      ClosedAtParent(b, scanned, i);
      StoredReach(blocks, p.num);
      ChainSets(scanned, head, P, Reach(p), Elems(h));
      if p.num !in scanned' {
        var sub, next := TotChain(blocks, p.num, scanned');
        Apart(sub, h);
        TopoAppend(blocks, scanned, h, scanned', sub, head, head);
        BelowAppend(blocks, h, sub, p.num + 1, head);
        UnseenDisjoint(sub, h);
        DistinctAppend(h, sub);
        ElemsAppend(h, sub);
        h := h + Unseen(sub, h);
        scanned' := next;
      } else {
        VisitedParent(b, scanned, i);
      }
      ReachAllSnoc(b.parents, i);
    }
    assert b.parents[..|b.parents|] == b.parents;
    TotChainEnd(blocks, head, scanned, h, scanned');
    h := h + [head];
  }

  /** The last step of `get_totchain`: once every parent is walked,
      `head` itself goes last. */
  lemma TotChainEnd(blocks: map<int, Block>, head: int, scanned: set<int>, h: seq<int>, scanned': set<int>)
    requires Stored(blocks) && head in blocks && head !in scanned
    requires scanned' == scanned + {head} + ReachAll(blocks[head].parents)
    requires Distinct(h) && Elems(h) == ReachAll(blocks[head].parents) - scanned
    requires Below(blocks, h, head) && Topo(blocks, scanned, h)
    ensures scanned' == scanned + Reach(blocks[head])
    ensures Distinct(h + [head]) && Elems(h + [head]) == Reach(blocks[head]) - scanned
    ensures Below(blocks, h + [head], head + 1) && Topo(blocks, scanned, h + [head])
  {
    var b := blocks[head];
    ReachUnfold(b);
    forall j | 0 <= j < |b.parents|
      ensures b.parents[j].num in ReachAll(b.parents)
    {
      SubAllHas(b.parents, j);
    }
    TopoAppend(blocks, scanned, h, scanned + ReachAll(b.parents), [head], head + 1, head + 1);
    BelowAppend(blocks, h, [head], head + 1, head + 1);
    DistinctAppend(h, [head]);
    ElemsAppend(h, [head]);
  }

  /** What `mine` did at one tick. */
  datatype Mined = NotMyTurn | OutOfOrder(b: Block) | Made(b: Block)

  class Miner {
    const id: nat
    const timeOffset: int

    var heads: seq<Block>
    var listenQueue: map<int, seq<Block>>
    var blocks: map<int, Block>
    var scores: map<int, int>
    var children: map<int, set<int>>
    /** The blocks broadcast by `mine`; the delivery to each miner after a
        random latency is not modelled. */
    var outbox: seq<Block>
    /** The numbers passed to `request_block`, in order. */
    var requests: seq<int>
    /** Every block stored, in order, each time it was stored. */
    ghost var accepted: seq<Block>

    ghost predicate Valid()
      reads this
    {
      && Stored(blocks)
      && Linked(children, blocks)
      && Scored(blocks, scores)
      && Tallied(scores, accepted)
      && HeadsHeld(heads, blocks)
    }

    /** `Miner()`, with its identifier and its draw from
        `random.randrange(CLOCKOFFSET) - CLOCKOFFSET // 2` supplied, and
        `Block(-1, [])` registered in `all_blocks`. */
    constructor(id: nat, timeOffset: int, registry: Registry)
      requires -12 <= timeOffset <= 12 && registry.Valid()
      modifies registry`nums
      ensures Valid() && registry.Valid()
      ensures this.id == id && this.timeOffset == timeOffset
      ensures heads == [Genesis] && blocks == map[-1 := Genesis]
      ensures scores == map[] && children == map[] && listenQueue == map[]
      ensures outbox == [] && requests == []
      ensures registry.nums == Register(old(registry.nums), -1)
    {
      this.id := id;
      this.timeOffset := timeOffset;
      heads := [Genesis];
      listenQueue := map[];
      blocks := map[-1 := Genesis];
      scores := map[];
      children := map[];
      outbox := [];
      requests := [];
      accepted := [];
      registry.Add(-1);
    }

    /** `get_time()` */
    function LocalTime(time: int): int
      reads this
    {
      time + timeOffset
    }

    /** `mine()`: at its turn (`t % len(miners) == id`) and when the draw
        falls under `1.0 / BLKTIME`, the miner builds a block numbered by
        its local time on its first two heads, registers the number, and
        broadcasts the block, unless some head is not numbered below it,
        which fails the assertion. */
    method Mine(time: int, nMiners: nat, draw: real, registry: Registry) returns (m: Mined)
      requires Valid() && registry.Valid() && nMiners >= 1
      modifies this`outbox, registry`nums
      ensures registry.Valid()
      ensures var t := time + timeOffset;
        && (m.NotMyTurn? <==> !(t % nMiners == id && draw < 1.0 / (BlkTime as real)))
        && (m.NotMyTurn? ==> outbox == old(outbox) && registry.nums == old(registry.nums))
        && (!m.NotMyTurn? ==>
              && m.b == Block(t, heads[..if |heads| < 2 then |heads| else 2])
              && registry.nums == Register(old(registry.nums), t)
              && (m.OutOfOrder? <==> exists i :: 0 <= i < |heads| && heads[i].num >= t))
        && (m.OutOfOrder? ==> outbox == old(outbox))
        && (m.Made? ==>
              && outbox == old(outbox) + [m.b] && Shaped(m.b)
              && forall i :: 0 <= i < |m.b.parents| ==> m.b.parents[i].num in blocks)
    {
      var t := LocalTime(time);
      if !(t % nMiners == id && draw < 1.0 / (BlkTime as real)) {
        return NotMyTurn;
      }
      var b := Block(t, heads[..if |heads| < 2 then |heads| else 2]);
      registry.Add(t);
      for i := 0 to |heads|
        invariant forall k :: 0 <= k < i ==> heads[k].num < t
      {
        if heads[i].num >= t {
          return OutOfOrder(b);
        }
      }
      assert Shaped(blocks[heads[0].num]) && heads[0].num < t;
      assert t >= 0 && |b.parents| > 0;
      outbox := outbox + [b];
      m := Made(b);
    }

    /** The enqueueing `mine` and `request_block` do on the receiving
        miner: `blk` joins the list of blocks due at local time `at`. */
    method Deliver(at: int, blk: Block)
      modifies this`listenQueue
      ensures listenQueue == old(listenQueue)[at := Lookup(old(listenQueue), at, []) + [blk]]
    {
      if at !in listenQueue {
        listenQueue := listenQueue[at := []];
      }
      listenQueue := listenQueue[at := listenQueue[at] + [blk]];
    }

    /** The loop over `blk.parents` that asks for every parent not held. */
    method RequestMissing(blk: Block) returns (ok: bool)
      modifies this`requests
      ensures ok <==> forall i :: 0 <= i < |blk.parents| ==> blk.parents[i].num in blocks
      ensures requests == old(requests) + Missing(blk.parents, blocks)
    {
      ok := true;
      for i := 0 to |blk.parents|
        invariant ok <==> forall k :: 0 <= k < i ==> blk.parents[k].num in blocks
        invariant requests == old(requests) + Missing(blk.parents[..i], blocks)
      {
        assert blk.parents[..i + 1][..i] == blk.parents[..i];
        if blk.parents[i].num !in blocks {
          requests := requests + [blk.parents[i].num];
          ok := false;
        }
      }
      assert blk.parents[..|blk.parents|] == blk.parents;
    }

    /** `blocks[blk.num] = blk`, then `blk.num` joins `children[p]` for
        each parent `p`. */
    method Store(blk: Block)
      requires Stored(blocks) && Linked(children, blocks) && Shaped(blk)
      requires blk.num in blocks ==> blocks[blk.num] == blk
      requires forall i :: 0 <= i < |blk.parents| ==> blk.parents[i].num in blocks && blocks[blk.parents[i].num] == blk.parents[i]
      modifies this`blocks, this`children
      ensures blocks == old(blocks)[blk.num := blk]
      ensures Stored(blocks) && Linked(children, blocks)
    {
      StoreKeepsStored(blocks, blk);
      ghost var c0 := children;
      ghost var b0 := blocks;
      blocks := blocks[blk.num := blk];
      for i := 0 to |blk.parents|
        invariant blocks == b0[blk.num := blk]
        invariant forall p :: Lookup(children, p, {}) == Lookup(c0, p, {}) + if p in NumsOf(blk.parents[..i]) then {blk.num} else {}
      {
        assert NumsOf(blk.parents[..i + 1]) == NumsOf(blk.parents[..i]) + {blk.parents[i].num};
        var p := blk.parents[i].num;
        if p !in children {
          children := children[p := {}];
        }
        children := children[p := children[p] + {blk.num}];
      }
      assert blk.parents[..|blk.parents|] == blk.parents;
      forall p, c
        ensures c in Lookup(children, p, {}) <==> c in blocks && p in NumsOf(blocks[c].parents)
      {
        if c != blk.num {
          assert c in Lookup(children, p, {}) <==> c in Lookup(c0, p, {});
        } else if blk.num in b0 {
          assert b0[c] == blk;
        }
      }
    }

    /** `for num in anc: scores[num] = scores.get(num, 0) + 1` */
    method Tally(anc: set<int>)
      modifies this`scores
      ensures forall n :: Lookup(scores, n, 0) == Lookup(old(scores), n, 0) + if n in anc then 1 else 0
    {
      var rest := anc;
      while rest != {}
        invariant rest <= anc
        invariant forall n :: Lookup(scores, n, 0) == Lookup(old(scores), n, 0) + if n in anc - rest then 1 else 0
        decreases rest
      {
        Inhabited(rest);
        var num :| num in rest;
        scores := scores[num := Lookup(scores, num, 0) + 1];
        rest := rest - {num};
      }
    }

    /** The inner loop of `get_head`: a child of maximal score, starting
        from the sentinel score `-9999`, which every score exceeds. */
    method BestChild(kids: set<int>) returns (best: int)
      requires kids != {}
      requires forall c :: c in kids ==> c in scores && scores[c] > -9999
      ensures best in kids && forall c :: c in kids ==> scores[c] <= scores[best]
    {
      var bestChild: Option<int> := None;
      var bestScore := -9999;
      var rest := kids;
      while rest != {}
        invariant rest <= kids
        invariant bestChild.None? ==> rest == kids && bestScore == -9999
        invariant bestChild.Some? ==> bestChild.value in kids && bestChild.value in scores && scores[bestChild.value] == bestScore
        invariant forall c :: c in kids - rest ==> scores[c] <= bestScore
        decreases rest
      {
        Inhabited(rest);
        var c :| c in rest;
        if scores[c] > bestScore {
          bestChild := Some(c);
          bestScore := scores[c];
        }
        rest := rest - {c};
      }
      best := bestChild.value;
    }

    /** `get_head()`: from the genesis, step to a child of maximal score
        until the block reached has no children. */
    method GetHead() returns (h: int, ghost path: seq<int>)
      requires Stored(blocks) && Linked(children, blocks) && Scored(blocks, scores)
      ensures h in blocks && Lookup(children, h, {}) == {}
      ensures HeaviestPath(children, scores, path) && path[|path| - 1] == h
    {
      ghost var top := UpperBound(blocks.Keys);
      h := -1;
      path := [-1];
      while h in children && children[h] != {}
        invariant h in blocks && HeaviestPath(children, scores, path) && path[|path| - 1] == h
        decreases top - h
      {
        forall c | c in children[h]
          ensures c in scores && scores[c] > -9999 && h < c
        {
          ChildAbove(children, blocks, h, c);
        }
        var c := BestChild(children[h]);
        HeaviestStep(children, scores, path, c);
        path := path + [c];
        h := c;
      }
    }

    /** `max(head2_candidates)`: the largest held number outside `anc`. */
    method MaxOutside(anc: set<int>) returns (r: Option<int>)
      ensures r.Some? ==> r.value in blocks && r.value !in anc
      ensures r.Some? ==> forall n :: n in blocks && n !in anc ==> n <= r.value
      ensures r.None? <==> blocks.Keys <= anc
    {
      r := None;
      var rest := blocks.Keys;
      while rest != {}
        invariant rest <= blocks.Keys
        invariant r.Some? ==> r.value in blocks && r.value !in anc
        invariant forall n :: n in blocks && n !in anc && n !in rest ==> r.Some? && n <= r.value
        decreases rest
      {
        Inhabited(rest);
        var n :| n in rest;
        if n !in anc && (r.None? || n > r.value) {
          r := Some(n);
        }
        rest := rest - {n};
      }
      if r.None? {
        SubsetInts(blocks.Keys, anc);
      }
    }

    /** The end of `listen`'s storing branch: the head, and as second head
        the highest-numbered held block that is not its ancestor. */
    method Retarget()
      requires Stored(blocks) && Linked(children, blocks) && Scored(blocks, scores)
      modifies this`heads
      ensures Targeted(heads, blocks, children, scores)
    {
      var head, path := GetHead();
      StoredReach(blocks, head);
      var anc := Ancestors(blocks[head]);
      var head2 := MaxOutside(anc);
      heads := [blocks[head]];
      if head2.Some? {
        heads := heads + [blocks[head2.value]];
        assert heads[1].num == head2.value;
      }
      assert heads[0] == blocks[head];
      assert HeadsHeld(heads, blocks);
      assert HeaviestPath(children, scores, path) && path[|path| - 1] == heads[0].num;
    }

    /** `anc = get_ancestors(blk)` and the tally over it, for a block just
        stored. */
    method Credit(blk: Block)
      requires Stored(blocks) && blk.num in blocks && blocks[blk.num] == blk && Tallied(scores, accepted)
      modifies this`scores, this`accepted
      ensures accepted == old(accepted) + [blk] && Tallied(scores, accepted)
      ensures forall n :: Lookup(scores, n, 0) == Lookup(old(scores), n, 0) + if n in Reach(blk) then 1 else 0
    {
      StoredReach(blocks, blk.num);
      var anc := Ancestors(blk);
      Tally(anc);
      accepted := accepted + [blk];
      forall n
        ensures Lookup(scores, n, 0) == Weight(accepted, n)
      {
        WeightSnoc(old(accepted), blk, n);
      }
    }

    /** The storing branch of `listen` for a block whose parents are all
        held. */
    method Accept(blk: Block)
      requires Valid() && Shaped(blk)
      requires blk.num in blocks ==> blocks[blk.num] == blk
      requires forall i :: 0 <= i < |blk.parents| ==> blk.parents[i].num in blocks && blocks[blk.parents[i].num] == blk.parents[i]
      modifies this`blocks, this`children, this`scores, this`heads, this`accepted
      ensures Valid() && Targeted(heads, blocks, children, scores)
      ensures blocks == old(blocks)[blk.num := blk] && accepted == old(accepted) + [blk]
      ensures forall n :: Lookup(scores, n, 0) == Lookup(old(scores), n, 0) + if n in Reach(blk) then 1 else 0
    {
      ghost var b0 := blocks;
      Store(blk);
      Credit(blk);
      ReachUnfold(blk);
      CreditKeepsScored(b0, blk, old(scores), scores, old(accepted));
      Retarget();
    }

    /** One block of `listen`'s queue: without all its parents it is
        skipped after the missing ones are requested; otherwise it is
        stored, it and its ancestors gain a point each, and the heads are
        recomputed. */
    method Receive(blk: Block) returns (ok: bool)
      requires Valid() && Shaped(blk)
      requires blk.num in blocks ==> blocks[blk.num] == blk
      requires forall i :: 0 <= i < |blk.parents| && blk.parents[i].num in blocks ==> blocks[blk.parents[i].num] == blk.parents[i]
      modifies this`requests, this`blocks, this`children, this`scores, this`heads, this`accepted
      ensures Valid()
      ensures ok <==> forall i :: 0 <= i < |blk.parents| ==> blk.parents[i].num in old(blocks)
      ensures requests == old(requests) + Missing(blk.parents, old(blocks))
      ensures !ok ==> unchanged(this`blocks, this`children, this`scores, this`heads, this`accepted)
      ensures ok ==> Targeted(heads, blocks, children, scores)
      ensures ok ==> blocks == old(blocks)[blk.num := blk] && accepted == old(accepted) + [blk]
      ensures ok ==> forall n :: Lookup(scores, n, 0) == Lookup(old(scores), n, 0) + if n in Reach(blk) then 1 else 0
    {
      ok := RequestMissing(blk);
      if ok {
        Accept(blk);
      }
    }

    /** The `i`-th block of a coherent queue handed to `Receive`. */
    method ReceiveQueued(q: seq<Block>, i: nat)
      requires Valid() && Coherent(blocks, q) && i < |q|
      modifies this`requests, this`blocks, this`children, this`scores, this`heads, this`accepted
      ensures Valid() && Coherent(blocks, q)
      ensures old(blocks).Keys <= blocks.Keys
      ensures accepted == old(accepted) || accepted == old(accepted) + [q[i]]
      ensures (forall j :: 0 <= j < |q[i].parents| ==> q[i].parents[j].num in old(blocks)) ==>
        accepted == old(accepted) + [q[i]]
    {
      CoherentAfterStore(blocks, q, i);
      var ok := Receive(q[i]);
    }

    /** `listen()`: the blocks due at the local time are received in order
        and the entry is removed. */
    method Listen(time: int)
      requires Valid()
      requires LocalTime(time) in listenQueue ==> Coherent(blocks, listenQueue[LocalTime(time)])
      modifies this`requests, this`blocks, this`children, this`scores, this`heads, this`accepted, this`listenQueue
      ensures Valid()
      ensures LocalTime(time) !in old(listenQueue) ==>
        && listenQueue == old(listenQueue) && blocks == old(blocks) && scores == old(scores)
        && heads == old(heads) && requests == old(requests)
      ensures LocalTime(time) in old(listenQueue) ==> listenQueue == old(listenQueue) - {LocalTime(time)}
      ensures old(blocks).Keys <= blocks.Keys && old(accepted) <= accepted
      ensures LocalTime(time) in old(listenQueue) ==>
        forall i ::
          (&& 0 <= i < |old(listenQueue)[LocalTime(time)]|
           && forall j :: 0 <= j < |old(listenQueue)[LocalTime(time)][i].parents| ==>
                old(listenQueue)[LocalTime(time)][i].parents[j].num in old(blocks))
          ==> old(listenQueue)[LocalTime(time)][i] in accepted[|old(accepted)|..]
    {
      var t := LocalTime(time);
      if t !in listenQueue {
        return;
      }
      var q := listenQueue[t];
      ghost var b0 := blocks;
      ghost var a0 := accepted;
      for i := 0 to |q|
        invariant Valid() && listenQueue == old(listenQueue)
        invariant Coherent(blocks, q)
        invariant b0.Keys <= blocks.Keys && a0 <= accepted
        invariant forall k :: 0 <= k < i && (forall j :: 0 <= j < |q[k].parents| ==> q[k].parents[j].num in b0) ==>
          q[k] in accepted[|a0|..]
      {
        ghost var a1 := accepted;
        ReceiveQueued(q, i);
        assert a0 <= a1 <= accepted;
        assert accepted[|a0|..] == a1[|a0|..] + accepted[|a1|..];
      }
      listenQueue := listenQueue - {t};
    }

    /** `get_chain()`: from `head`, each next entry is the first parent of
        the one before, down to the genesis. */
    method ChainFrom(head: int) returns (r: seq<int>)
      requires Stored(blocks) && head in blocks
      ensures |r| > 0 && r[0] == head && r[|r| - 1] == -1
      ensures forall i :: 0 <= i < |r| - 1 ==> r[i] in blocks && r[i] >= 0 && r[i + 1] == blocks[r[i]].parents[0].num
      ensures forall i :: 0 <= i < |r| - 1 ==> r[i + 1] < r[i]
    {
      r := [head];
      while r[|r| - 1] >= 0
        invariant |r| > 0 && r[0] == head && r[|r| - 1] in blocks
        invariant forall i :: 0 <= i < |r| - 1 ==> r[i] in blocks && r[i] >= 0 && r[i + 1] == blocks[r[i]].parents[0].num
        invariant forall i :: 0 <= i < |r| - 1 ==> r[i + 1] < r[i]
        decreases r[|r| - 1] + 1
      {
        var last := r[|r| - 1];
        assert Shaped(blocks[last]);
        r := r + [blocks[last].parents[0].num];
      }
      assert Shaped(blocks[r[|r| - 1]]);
    }

    method GetChain() returns (r: seq<int>)
      requires Stored(blocks) && Linked(children, blocks) && Scored(blocks, scores)
      ensures |r| > 0 && r[0] in blocks && Lookup(children, r[0], {}) == {} && r[|r| - 1] == -1
      ensures forall i :: 0 <= i < |r| - 1 ==> r[i] in blocks && r[i] >= 0 && r[i + 1] == blocks[r[i]].parents[0].num
      ensures forall i :: 0 <= i < |r| - 1 ==> r[i + 1] < r[i]
    {
      var head, path := GetHead();
      r := ChainFrom(head);
    }

    /** `get_totchain()`: every block reachable from the head once, each
        after all of its parents, the head last. */
    method GetTotChain() returns (h: seq<int>)
      requires Stored(blocks) && Linked(children, blocks) && Scored(blocks, scores)
      ensures |h| > 0 && Lookup(children, h[|h| - 1], {}) == {}
      ensures h[|h| - 1] in blocks && Distinct(h) && Elems(h) == Reach(blocks[h[|h| - 1]])
      ensures Below(blocks, h, h[|h| - 1] + 1) && Topo(blocks, {}, h)
    {
      var head, path := GetHead();
      var scanned;
      h, scanned := TotChain(blocks, head, {});
    }
  }
}
