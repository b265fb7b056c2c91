/** The validator of ghost_timing_strats.py: blocks that carry reward
    states, a per-block schedule of slots (`get_validator`) with skips, the
    earliest times a block may be produced or accepted, and a validator
    that queues incoming blocks by tick, parks orphans until their parent
    arrives, delays blocks that come too early and keeps the heads of the
    longest chain (the `USING_GHOST = 0` scoring rule). */
module GhostTiming {
  import opened Wrappers
  import opened StateMaps

  /** Score contribution of a block that was first received too early. */
  const TooEarlyScore: int := 1
  const BlockNonceBound: nat := 100_000_000_000_000_000_000
  const HeightStride: nat := 100_000_000_000_000_000_000_000

  type Positive = n: nat | 0 < n witness 1

  /** The keys of a block's state: `'transactions'`, and per validator
      `'blockrewards:<id>'`, `'skiprewards:<id>'` and `'txfees:<id>'`. */
  datatype Key = Transactions | BlockRewards(id: nat) | SkipRewards(id: nat) | TxFees(id: nat)

  type State = map<Key, int>

  const BlankState: State := map[Transactions := 0]

  /** `get_state(s, k)`: the value stored at `k`, zero when absent. */
  function GetState(s: State, k: Key): int {
    Lookup(s, k, 0)
  }

  /** `get_txreward(ticks)` */
  function TxReward(ticks: int): int {
    1 * ticks
  }

  datatype Block = Block(prevhash: nat, state: State, number: int, height: nat, hash: nat, randao: nat, totskips: int)

  /** `Block(parent, state, maker, number, skips)`, with the draw of
      `random.randrange(10**20)` supplied as `nonce` and `sha256_as_int`
      supplied as `sha`. */
  function NewBlock(parent: Option<Block>, state: State, maker: nat, number: int, skips: int, nonce: nat, sha: int -> nat): (b: Block)
    ensures b.state == state && b.number == number
    ensures parent.Some? ==> b.prevhash == parent.value.hash && b.height == parent.value.height + 1
    ensures parent.None? ==> b.prevhash == 0 && b.height == 0
    ensures b.totskips == (if parent.Some? then parent.value.totskips else 0) + skips
    ensures b.randao == sha((if parent.Some? then parent.value.randao else 0) + maker)
  {
    var height := if parent.Some? then parent.value.height + 1 else 0;
    Block(if parent.Some? then parent.value.hash else 0,
          state, number, height, nonce % BlockNonceBound + HeightStride * height,
          sha((if parent.Some? then parent.value.randao else 0) + maker),
          (if parent.Some? then parent.value.totskips else 0) + skips)
  }

  /** A block's hash encodes its height: `hash // 10**23 == height`. */
  lemma HashEncodesHeight(parent: Option<Block>, state: State, maker: nat, number: int, skips: int, nonce: nat, sha: int -> nat)
    ensures var b := NewBlock(parent, state, maker, number, skips, nonce, sha);
      b.hash / HeightStride == b.height
  {
    var b := NewBlock(parent, state, maker, number, skips, nonce, sha);
    var r := nonce % BlockNonceBound;
    assert b.hash == r + HeightStride * b.height;
    assert (r + HeightStride * b.height) / HeightStride == b.height;
  }

  /** `GENESIS = Block(None, BLANK_STATE, 0)`, with its random hash part
      supplied as `nonce`. */
  function Genesis(nonce: nat, sha: int -> nat): (g: Block)
    ensures g.height == 0 && g.totskips == 0 && g.number == 0 && g.prevhash == 0
    ensures g.state == BlankState
  {
    NewBlock(None, BlankState, 0, 0, 0, nonce, sha)
  }

  /** A validator's four delays: `(non_skip_produce_delay,
      non_skip_accept_delay, with_skip_produce_delay, with_skip_accept_delay)`. */
  datatype Strategy = Strategy(nonSkipProduce: int, nonSkipAccept: int, withSkipProduce: int, withSkipAccept: int)

  /** `earliest_produce_time(parent, skips)`, with `BLKTIME = 15` and
      `SKIPTIME = 40` written in place. */
  function EarliestProduceTime(st: Strategy, parent: Block, skips: int): int {
    15 + (if skips == 0 then st.nonSkipProduce else 0)
      + parent.height * 15 + (parent.totskips + skips) * 40
      + (if skips != 0 then st.withSkipProduce else 0)
  }

  /** `earliest_accept_time(parent, skips)`, with the same constants. */
  function EarliestAcceptTime(st: Strategy, parent: Block, skips: int): int {
    15 + (if skips == 0 then st.nonSkipAccept else 0)
      + parent.height * 15 + (parent.totskips + skips) * 40
      + (if skips != 0 then st.withSkipAccept else 0)
  }

  /** The schedule is global: a block's slot lies `BLKTIME` per height and
      `SKIPTIME` per skip (its own and its ancestors') after genesis, and the
      strategy only adds its delay, which depends on whether there are skips. */
  lemma {:induction false} ScheduleIsGlobal(st: Strategy, parent: Block, child: Block, skips: int, skips': int)
    requires child.height == parent.height + 1 && child.totskips == parent.totskips + skips
    ensures EarliestProduceTime(st, child, skips') - EarliestProduceTime(st, parent, skips)
      == 15 + 40 * skips'
        + (if skips' == 0 then st.nonSkipProduce else st.withSkipProduce)
        - (if skips == 0 then st.nonSkipProduce else st.withSkipProduce)
    ensures EarliestAcceptTime(st, child, skips') - EarliestAcceptTime(st, parent, skips)
      == 15 + 40 * skips'
        + (if skips' == 0 then st.nonSkipAccept else st.withSkipAccept)
        - (if skips == 0 then st.nonSkipAccept else st.withSkipAccept)
  {
    var base := 15 + parent.height * 15 + (parent.totskips + skips) * 40;
    assert child.height * 15 + (child.totskips + skips') * 40 == base + 40 * skips';
  }

  /** Producing and accepting at the same parent and skip count differ only
      by the strategy's delays, and each further skip beyond the first costs
      exactly `SKIPTIME`. */
  lemma ProduceAcceptGap(st: Strategy, parent: Block, skips: int)
    ensures EarliestProduceTime(st, parent, skips) - EarliestAcceptTime(st, parent, skips)
      == if skips == 0 then st.nonSkipProduce - st.nonSkipAccept else st.withSkipProduce - st.withSkipAccept
    ensures skips != 0 && skips + 1 != 0 ==>
      EarliestProduceTime(st, parent, skips + 1) == EarliestProduceTime(st, parent, skips) + 40
  {
  }

  /** The state of a block built on a parent whose state is `s`, by
      validator `id` with `skips` skips at simulation time `time`: the
      transactions counter moves to `time` and the maker is credited one
      block reward, its skips, and the transaction fees of the ticks since
      the parent. */
  function Rewarded(s: State, id: nat, skips: int, time: int): (r: State)
    requires Transactions in s
    ensures r.Keys == s.Keys + {Transactions, BlockRewards(id), SkipRewards(id), TxFees(id)}
    ensures r[Transactions] == time
    ensures GetState(r, BlockRewards(id)) == GetState(s, BlockRewards(id)) + 1
    ensures GetState(r, SkipRewards(id)) == GetState(s, SkipRewards(id)) + skips
    ensures GetState(r, TxFees(id)) == GetState(s, TxFees(id)) + (time - s[Transactions])
    ensures forall k :: k in s && k !in {Transactions, BlockRewards(id), SkipRewards(id), TxFees(id)} ==> r[k] == s[k]
  {
    var s1 := UpdateState(s, Transactions, time);
    var s2 := UpdateState(s1, BlockRewards(id), GetState(s1, BlockRewards(id)) + 1);
    var s3 := UpdateState(s2, SkipRewards(id), GetState(s2, SkipRewards(id)) + skips);
    UpdateState(s3, TxFees(id), GetState(s3, TxFees(id)) + TxReward(time - s[Transactions]))
  }

  /** `Simulation.get_validator(randao, skips)`: the holder of a slot is
      drawn from the hash of the parent's randao shifted left by 32 bits
      plus the skip count, so it is one of the `n` validators. The memo
      `gvcache` changes nothing about the value. */
  function GetValidator(sha: int -> nat, n: Positive, randao: nat, skips: nat): (v: nat)
    ensures v < n
  {
    sha(randao * 0x1_0000_0000 + skips) % n
  }

  /** What one call of `mine` did. */
  datatype Mined =
    | Idle                   // no head was due, or the first undue head has no slot within `max_skips`
    | Offline                // the parent was used up, but the validator was offline
    | TransactionsMissing    // `head.state['transactions']` raised `KeyError`
    | Made(b: Block)         // a block was created and broadcast

  /** Which head `mine` builds on, scanning `heads` from position `i`. */
  datatype Choice = NoParent | Parent(index: nat, skips: nat)

  /** Orphans are filed under the hash of their missing parent: no file is
      empty, and every hash filed under a parent that is still unknown names
      a distinct orphan whose parent is that hash. */
  ghost predicate OrphansFiled(files: map<nat, seq<nat>>, orphans: map<nat, Block>, blocks: map<nat, Block>) {
    (forall p :: p in files ==> files[p] != [])
    && (forall p :: p in files && p !in blocks ==> Filed(files[p], p, orphans))
  }

  ghost predicate Filed(hs: seq<nat>, p: nat, orphans: map<nat, Block>) {
    (forall j :: 0 <= j < |hs| ==> hs[j] in orphans && orphans[hs[j]].prevhash == p)
    && (forall j, k :: 0 <= j < k < |hs| ==> hs[j] != hs[k])
  }

  /** The heads are known blocks that share one score, and no known block
      scores higher. */
  ghost predicate HeadsLead(heads: seq<Block>, scores: map<nat, int>, blocks: map<nat, Block>) {
    |heads| > 0 && heads[0].hash in scores
    && (forall i :: 0 <= i < |heads| ==>
          heads[i].hash in blocks && heads[i].hash in scores && scores[heads[i].hash] == scores[heads[0].hash])
    && (forall k :: k in scores ==> scores[k] <= scores[heads[0].hash])
  }

  /** `m` still holds every entry of `m0`. */
  ghost predicate Kept<K, V>(m0: map<K, V>, m: map<K, V>) {
    forall k :: k in m0 ==> k in m && m[k] == m0[k]
  }

  /** Every orphan of `o0` whose parent is in `b0` is still an orphan. */
  ghost predicate KeptOrphans(o0: map<nat, Block>, b0: map<nat, Block>, orphans: map<nat, Block>) {
    forall c :: c in o0 && o0[c].prevhash in b0 ==> c in orphans && orphans[c] == o0[c]
  }

  /** Every file of `w0` kept under a parent in `b0` is still there. */
  ghost predicate KeptFiles(w0: map<nat, seq<nat>>, b0: map<nat, Block>, files: map<nat, seq<nat>>) {
    forall p :: p in w0 && p in b0 ==> p in files && files[p] == w0[p]
  }

  class Validator {
    const strategy: Strategy
    const id: nat
    /** `len(simulation.validators)` */
    const numValidators: Positive
    /** `sha256_as_int` */
    const sha: int -> nat
    /** `self.time_offset`: how far this validator's clock is off. */
    const timeOffset: int
    /** `self.max_skips`: how many slots past a head `mine` looks for its own. */
    const maxSkips: nat

    var listenQueue: map<int, seq<Block>>
    var blocks: map<nat, Block>
    var children: map<nat, seq<nat>>
    var scores: map<nat, int>
    var timeReceived: map<nat, int>
    var receivedTooEarly: map<nat, int>
    var orphansByParent: map<nat, seq<nat>>
    var orphans: map<nat, Block>
    var heads: seq<Block>
    var usedParents: set<nat>
    var created: nat
    /** Blocks made by `mine`, for the simulation to deliver to every
        validator's listen queue. */
    var outbox: seq<Block>
    /** Hashes passed to `request_block`. */
    var requests: seq<nat>
    /** Every block `listen` handed to `accept_block`, in order. */
    ghost var arrivals: seq<Block>

    ghost predicate Valid()
      reads this`orphansByParent, this`orphans, this`blocks, this`heads, this`scores
    {
      OrphansFiled(orphansByParent, orphans, blocks) && HeadsLead(heads, scores, blocks)
    }

    /** `Validator(strategy)` once the simulation has set its `id`. */
    constructor (strategy: Strategy, id: nat, numValidators: Positive, sha: int -> nat, timeOffset: int, genesis: Block)
      ensures this.strategy == strategy && this.id == id && this.numValidators == numValidators
      ensures this.sha == sha && this.timeOffset == timeOffset && maxSkips == 22
      ensures blocks == map[genesis.hash := genesis] && scores == map[genesis.hash := 0]
      ensures timeReceived == map[genesis.hash := 0] && heads == [genesis]
      ensures listenQueue == map[] && children == map[] && orphans == map[] && orphansByParent == map[]
      ensures receivedTooEarly == map[] && usedParents == {} && created == 0
      ensures outbox == [] && requests == [] && arrivals == []
      ensures Valid()
    {
      this.strategy, this.id, this.numValidators, this.sha, this.timeOffset := strategy, id, numValidators, sha, timeOffset;
      maxSkips := 22;
      listenQueue, blocks, children := map[], map[genesis.hash := genesis], map[];
      scores, timeReceived, receivedTooEarly := map[genesis.hash := 0], map[genesis.hash := 0], map[];
      orphansByParent, orphans, heads := map[], map[], [genesis];
      usedParents, created, outbox, requests, arrivals := {}, 0, [], [], [];
    }

    /** `get_time()`, the validator's clock when the simulation is at `time`. */
    function LocalTime(time: int): (t: int)
      ensures t >= 0 && t >= time + timeOffset
      ensures t == time + timeOffset || t == 0
    {
      if time + timeOffset > 0 then time + timeOffset else 0
    }

    /** `simulation.get_validator(randao, skips)`: who holds the slot
        `skips` places after a block with the given randao. */
    function Proposer(randao: nat, skips: nat): nat {
      GetValidator(sha, numValidators, randao, skips)
    }

    /** The skip count `mine` settles on, searching from `from`: the first
        slot of this validator, or `max_skips` when there is none before it. */
    function FirstSlot(randao: nat, from: nat): (k: nat)
      requires from <= maxSkips
      ensures from <= k <= maxSkips
      ensures k < maxSkips ==> Proposer(randao, k) == id
      ensures forall j :: from <= j < k ==> Proposer(randao, j) != id
      decreases maxSkips - from
    {
      if Proposer(randao, from) == id || from == maxSkips then from else FirstSlot(randao, from + 1)
    }

    /** `mine` goes past `head`: the validator has a slot on it, but it is
        not due at local time `t` or has been built on already. */
    predicate Passed(head: Block, used: set<nat>, t: int) {
      var skips := FirstSlot(head.randao, 0);
      skips < maxSkips && (t < EarliestProduceTime(strategy, head, skips) || head.hash in used)
    }

    /** The head `mine` builds on: the first head, from position `i` on,
        that is due at local time `t` and has not been built on yet, unless
        a head before it has no slot for this validator. */
    function ChooseParent(hs: seq<Block>, used: set<nat>, t: int, i: nat): (c: Choice)
      requires i <= |hs|
      ensures c.Parent? ==>
        i <= c.index < |hs| && c.skips == FirstSlot(hs[c.index].randao, 0) < maxSkips
        && t >= EarliestProduceTime(strategy, hs[c.index], c.skips) && hs[c.index].hash !in used
      decreases |hs| - i
    {
      if i == |hs| then NoParent
      else
        var skips := FirstSlot(hs[i].randao, 0);
        if skips == maxSkips then NoParent
        else if t >= EarliestProduceTime(strategy, hs[i], skips) && hs[i].hash !in used then Parent(i, skips)
        else ChooseParent(hs, used, t, i + 1)
    }

    /** Every head `mine` passes over before the one it builds on has a
        slot for this validator but is not due yet or was built on already. */
    lemma {:induction false} ChooseParentIsFirst(hs: seq<Block>, used: set<nat>, t: int, i: nat)
      requires i <= |hs|
      ensures var c := ChooseParent(hs, used, t, i);
        c.Parent? ==> forall j :: i <= j < c.index ==> Passed(hs[j], used, t)
      decreases |hs| - i
    {
      if i < |hs| && Passed(hs[i], used, t) {
        ChooseParentIsFirst(hs, used, t, i + 1);
      }
    }

    /** The `while` loop of `mine` that counts skips. */
    method FindSkips(randao: nat) returns (skips: nat)
      ensures skips == FirstSlot(randao, 0)
    {
      skips := 0;
      while Proposer(randao, skips) != id && skips < maxSkips
        invariant skips <= maxSkips
        invariant FirstSlot(randao, skips) == FirstSlot(randao, 0)
        decreases maxSkips - skips
      {
        skips := skips + 1;
      }
    }

    /** The `for head in self.heads` loop of `mine`, up to the head it
        builds on: it stops at the first head without a slot or at the first
        one that is due and unused. */
    method PickParent(t: int) returns (c: Choice)
      ensures c == ChooseParent(heads, usedParents, t, 0)
    {
      var i := 0;
      while i < |heads|
        invariant i <= |heads|
        invariant ChooseParent(heads, usedParents, t, i) == ChooseParent(heads, usedParents, t, 0)
      {
        var head := heads[i];
        var skips := FindSkips(head.randao);
        if skips == maxSkips {
          return NoParent;
        }
        if t >= EarliestProduceTime(strategy, head, skips) && head.hash !in usedParents {
          return Parent(i, skips);
        }
        i := i + 1;
      }
      return NoParent;
    }

    /** What `mine` does once it has settled on `head` and `skips`: nothing
        when offline, a `KeyError` when the head's state has no
        transactions counter, and otherwise a block on `head` that credits
        this validator (`Rewarded`) and lies `skips` numbers past the head. */
    function Outcome(head: Block, skips: nat, time: int, offline: bool, nonce: nat): (m: Mined)
      ensures m.Made? <==> !offline && Transactions in head.state
      ensures m.Idle? ==> false
      ensures m.TransactionsMissing? <==> !offline && Transactions !in head.state
      ensures m.Made? ==>
        m.b.prevhash == head.hash && m.b.height == head.height + 1
        && m.b.number == head.number + 1 + skips && m.b.totskips == head.totskips + skips
        && m.b.state == Rewarded(head.state, id, skips, time)
        && m.b.randao == sha(head.randao + id)
    {
      if offline then Offline
      else if Transactions !in head.state then TransactionsMissing
      else Made(NewBlock(Some(head), Rewarded(head.state, id, skips, time), id, head.number + 1 + skips, skips, nonce, sha))
    }

    /** `mine()` at simulation time `time`; `offline` is the outcome of
        `random.random() < OFFLINE_RATE` and `nonce` the new block's random
        hash part. Broadcasting is left to the simulation, which delivers
        the block in `outbox`. */
    method Mine(time: int, offline: bool, nonce: nat) returns (m: Mined)
      modifies this`usedParents, this`created, this`outbox
      ensures var c := ChooseParent(heads, old(usedParents), LocalTime(time), 0);
        if c.NoParent? then
          m == Idle && usedParents == old(usedParents) && created == old(created) && outbox == old(outbox)
        else
          usedParents == old(usedParents) + {heads[c.index].hash}
          && m == Outcome(heads[c.index], c.skips, time, offline, nonce)
          && created == old(created) + (if m.Made? then 1 else 0)
          && outbox == old(outbox) + (if m.Made? then [m.b] else [])
    {
      var c := PickParent(LocalTime(time));
      if c.NoParent? {
        return Idle;
      }
      var head := heads[c.index];
      usedParents := usedParents + {head.hash};
      m := Outcome(head, c.skips, time, offline, nonce);
      if m.Made? {
        created := created + 1;
        outbox := outbox + [m.b];
      }
    }

    /** `add_to_listen_queue(time, obj)` */
    method AddToListenQueue(time: int, b: Block)
      modifies this`listenQueue
      ensures listenQueue == old(listenQueue)[time := Lookup(old(listenQueue), time, []) + [b]]
    {
      if time !in listenQueue {
        listenQueue := listenQueue[time := []];
      }
      listenQueue := listenQueue[time := listenQueue[time] + [b]];
    }

    /** `get_score_addition(blk)`: the parent lookup and the skip count it
        computes are not used, and with `TOO_EARLY_SCORE = 1` a block
        received too early adds as much as any other. */
    function ScoreAddition(blk: Block): (s: int)
      reads this`blocks, this`receivedTooEarly
      requires blk.prevhash in blocks
      ensures s == 1
    {
      var parent := blocks[blk.prevhash];
      var skips := blk.number - parent.number - 1;
      if blk.hash in receivedTooEarly then TooEarlyScore else 1
    }

    /** `process_lchain_scores(blk)`: a block scores one more than its
        parent; it joins the heads when it ties them and replaces them when
        it beats them. */
    method ProcessLchainScores(blk: Block)
      requires HeadsLead(heads, scores, blocks) && blk.prevhash in blocks && blk.hash in blocks
      requires forall i :: 0 <= i < |heads| ==> heads[i].hash != blk.hash
      modifies this`scores, this`heads
      ensures HeadsLead(heads, scores, blocks)
      ensures scores == old(scores)[blk.hash := Lookup(old(scores), blk.prevhash, 0) + 1]
      ensures var s := scores[blk.hash]; var top := old(scores)[old(heads)[0].hash];
        heads == if s == top then old(heads) + [blk] else if s > top then [blk] else old(heads)
    {
      var s := ScoreAddition(blk);
      scores := scores[blk.hash := Lookup(scores, blk.prevhash, 0) + s];
      if scores[blk.hash] == scores[heads[0].hash] && blk !in heads {
        heads := heads + [blk];
      } else if scores[blk.hash] > scores[heads[0].hash] {
        heads := [blk];
      }
    }

    /** The parent-missing branch of `accept_block`: ask the network for the
        parent and file the block as its orphan. */
    method Orphan(blk: Block)
      requires Valid() && blk.prevhash !in blocks && blk.hash !in orphans
      modifies this`requests, this`orphansByParent, this`orphans
      ensures Valid()
      ensures requests == old(requests) + [blk.prevhash]
      ensures orphansByParent == old(orphansByParent)[blk.prevhash := Lookup(old(orphansByParent), blk.prevhash, []) + [blk.hash]]
      ensures orphans == old(orphans)[blk.hash := blk]
    {
      requests := requests + [blk.prevhash];
      var filed := if blk.prevhash in orphansByParent then orphansByParent[blk.prevhash] else [];
      orphansByParent := orphansByParent[blk.prevhash := filed + [blk.hash]];
      orphans := orphans[blk.hash := blk];
    }

    /** The acceptance branch of `accept_block`: record the block, its
        arrival time and its place among its parent's children, then score
        it. The block is never an orphan here, so lines 311-312 of the
        source never remove anything. */
    method Admit(blk: Block, t: int)
      requires Valid() && blk.prevhash in blocks && blk.hash !in blocks && blk.hash !in orphans
      modifies this`blocks, this`timeReceived, this`children, this`scores, this`heads
      ensures Valid()
      ensures blocks == old(blocks)[blk.hash := blk]
      ensures timeReceived == old(timeReceived)[blk.hash := t]
      ensures var p := old(blocks)[blk.prevhash].hash;
        children == old(children)[p := Lookup(old(children), p, []) + [blk.hash]]
      ensures scores == old(scores)[blk.hash := Lookup(old(scores), blk.prevhash, 0) + 1]
      ensures var s := scores[blk.hash]; var top := old(scores)[old(heads)[0].hash];
        heads == if s == top then old(heads) + [blk] else if s > top then [blk] else old(heads)
    {
      var parent := blocks[blk.prevhash];
      blocks := blocks[blk.hash := blk];
      timeReceived := timeReceived[blk.hash := t];
      var siblings := if parent.hash in children then children[parent.hash] else [];
      children := children[parent.hash := siblings + [blk.hash]];
      ProcessLchainScores(blk);
    }

    /** `accept_block(blk)` at simulation time `time`. */
    method AcceptBlock(blk: Block, time: int)
      requires Valid()
      modifies this`listenQueue, this`blocks, this`children, this`scores, this`timeReceived,
        this`receivedTooEarly, this`orphansByParent, this`orphans, this`heads, this`requests
      ensures Valid()
      ensures Kept(old(blocks), blocks) && KeptOrphans(old(orphans), old(blocks), orphans) && KeptFiles(old(orphansByParent), old(blocks), orphansByParent)
      ensures time in old(listenQueue) ==> time in listenQueue && listenQueue[time] == old(listenQueue)[time]
      ensures old(blk.prevhash in blocks) ==>
        orphans.Keys <= old(orphans.Keys) && orphansByParent.Keys <= old(orphansByParent.Keys)
      // parent unknown: the block becomes an orphan
      ensures old(blk.prevhash !in blocks && blk.hash !in orphans) ==>
        orphans == old(orphans)[blk.hash := blk] && blocks == old(blocks)
        && orphansByParent == old(orphansByParent)[blk.prevhash := Lookup(old(orphansByParent), blk.prevhash, []) + [blk.hash]]
        && requests == old(requests) + [blk.prevhash]
        && unchanged(this`listenQueue, this`children, this`scores, this`timeReceived, this`receivedTooEarly, this`heads)
      // already processed: nothing changes
      ensures old(blk.prevhash in blocks || blk.hash in orphans) && old(blk.hash in blocks || blk.hash in orphans) ==>
        unchanged(this)
      // too early: delayed by twice the shortfall; otherwise accepted
      ensures old(blk.prevhash in blocks && blk.hash !in blocks && blk.hash !in orphans) ==>
        var parent := old(blocks)[blk.prevhash];
        var wait := EarliestAcceptTime(strategy, parent, blk.number - parent.number - 1) - LocalTime(time);
        if wait > 0 then
          receivedTooEarly == old(receivedTooEarly)[blk.hash := wait]
          && listenQueue == old(listenQueue)[wait * 2 + time := Lookup(old(listenQueue), wait * 2 + time, []) + [blk]]
          && blocks == old(blocks)
          && unchanged(this`children, this`scores, this`timeReceived, this`heads, this`orphans, this`orphansByParent, this`requests)
        else
          blk.hash in blocks && blocks[blk.hash] == blk && blk.hash !in orphansByParent
      decreases |orphans.Keys|, 2
    {
      var t := LocalTime(time);
      if blk.prevhash !in blocks && blk.hash !in orphans {
        Orphan(blk);
        return;
      }
      if blk.hash in blocks || blk.hash in orphans {
        return;
      }
      var parent := blocks[blk.prevhash];
      var skips := blk.number - parent.number - 1;
      var alotted := EarliestAcceptTime(strategy, parent, skips);
      if t < alotted {
        receivedTooEarly := receivedTooEarly[blk.hash := alotted - t];
        AddToListenQueue((alotted - t) * 2 + time, blk);
        return;
      }
      Admit(blk, t);
      ghost var b1 := blocks;
      assert b1 - {blk.hash} == old(blocks);
      AdoptOrphans(blk.hash, time);
      KeptTrans(old(blocks), b1, blocks);
    }

    /** The end of `accept_block` once `h` has been accepted: every orphan
        filed under `h` leaves the orphans and goes through `accept_block`
        in the order it was filed, then the file is dropped. */
    method AdoptOrphans(h: nat, time: int)
      requires Valid() && h in blocks
      requires h in orphansByParent ==> Filed(orphansByParent[h], h, orphans)
      modifies this`listenQueue, this`blocks, this`children, this`scores, this`timeReceived,
        this`receivedTooEarly, this`orphansByParent, this`orphans, this`heads, this`requests
      ensures Valid()
      ensures old(h !in orphansByParent) ==> unchanged(this)
      ensures h !in orphansByParent
      ensures h in old(orphansByParent) ==> forall c :: c in old(orphansByParent[h]) ==> c !in orphans
      ensures Kept(old(blocks), blocks) && KeptOrphans(old(orphans), old(blocks) - {h}, orphans) && KeptFiles(old(orphansByParent), old(blocks) - {h}, orphansByParent)
      ensures time in old(listenQueue) ==> time in listenQueue && listenQueue[time] == old(listenQueue)[time]
      ensures orphans.Keys <= old(orphans.Keys) && orphansByParent.Keys <= old(orphansByParent.Keys)
      decreases |orphans.Keys|, 1
    {
      if h in orphansByParent && orphansByParent[h] != [] {  // `if self.orphans_by_parent.get(blk.hash, [])`
        var waiting := orphansByParent[h];
        for i := 0 to |waiting|
          invariant Valid() && h in blocks
          invariant h in orphansByParent && orphansByParent[h] == waiting
          invariant Filed(waiting[i..], h, orphans)
          invariant forall j :: 0 <= j < i ==> waiting[j] !in orphans
          invariant orphans.Keys <= old(orphans.Keys) && orphansByParent.Keys <= old(orphansByParent.Keys)
          invariant Kept(old(blocks), blocks) && KeptOrphans(old(orphans), old(blocks) - {h}, orphans) && KeptFiles(old(orphansByParent), old(blocks), orphansByParent)
          invariant time in old(listenQueue) ==> time in listenQueue && listenQueue[time] == old(listenQueue)[time]
        {
          SubsetCard(orphans.Keys, old(orphans.Keys));
          ghost var (b0, o0, w0, q0) := (blocks, orphans, orphansByParent, listenQueue);
          AdoptOne(waiting[i..], h, time);
          assert waiting[i..][1..] == waiting[i + 1..];
          KeptTrans(old(blocks), b0, blocks);
          KeptOrphansTrans(old(orphans), old(blocks), o0, b0, orphans, waiting[i], h);
          KeptFilesTrans(old(orphansByParent), old(blocks), w0, b0, orphansByParent);
        }
        orphansByParent := orphansByParent - {h};
      }
    }

    /** One turn of the loop at the end of `accept_block`: the first orphan
        still filed under `h` leaves the orphans and goes through
        `accept_block`, and the rest stay filed. */
    method AdoptOne(rest: seq<nat>, h: nat, time: int)
      requires Valid() && h in blocks && rest != [] && Filed(rest, h, orphans)
      modifies this`listenQueue, this`blocks, this`children, this`scores, this`timeReceived,
        this`receivedTooEarly, this`orphansByParent, this`orphans, this`heads, this`requests
      ensures Valid()
      ensures rest[0] !in orphans && Filed(rest[1..], h, orphans)
      ensures orphans.Keys <= old(orphans.Keys) && orphansByParent.Keys <= old(orphansByParent.Keys)
      ensures Kept(old(blocks), blocks) && KeptOrphans(old(orphans) - {rest[0]}, old(blocks), orphans) && KeptFiles(old(orphansByParent), old(blocks), orphansByParent)
      ensures time in old(listenQueue) ==> time in listenQueue && listenQueue[time] == old(listenQueue)[time]
      decreases |orphans.Keys|, 0
    {
      var c := rest[0];
      var b := orphans[c];
      Unfile(c, h);
      SubsetCard(orphans.Keys, old(orphans.Keys));
      AcceptBlock(b, time);
    }

    /** `del self.orphans[c]` for an orphan whose parent `h` is now known. */
    method Unfile(c: nat, h: nat)
      requires Valid() && h in blocks && c in orphans && orphans[c].prevhash == h
      modifies this`orphans
      ensures Valid()
      ensures orphans == old(orphans) - {c}
    {
      orphans := orphans - {c};
    }

    /** `listen()` at simulation time `time`: every block queued for this
        tick goes through `accept_block` in the order it was queued, and the
        tick's queue is dropped. Blocks are never forgotten. */
    method Listen(time: int)
      requires Valid()
      modifies this`listenQueue, this`blocks, this`children, this`scores, this`timeReceived,
        this`receivedTooEarly, this`orphansByParent, this`orphans, this`heads, this`requests, this`arrivals
      ensures Valid()
      ensures time !in listenQueue
      ensures arrivals == old(arrivals) + Lookup(old(listenQueue), time, [])
      ensures Kept(old(blocks), blocks)
    {
      if time in listenQueue {
        var batch := listenQueue[time];
        for i := 0 to |batch|
          invariant Valid()
          invariant time in listenQueue && listenQueue[time] == batch
          invariant arrivals == old(arrivals) + batch[..i]
          invariant Kept(old(blocks), blocks)
        {
          arrivals := arrivals + [batch[i]];
          AcceptBlock(batch[i], time);
        }
        listenQueue := listenQueue - {time};
      }
    }
  }

  lemma KeptTrans<K, V>(m0: map<K, V>, m1: map<K, V>, m2: map<K, V>)
    requires Kept(m0, m1) && Kept(m1, m2)
    ensures Kept(m0, m2)
  {
  }

  lemma KeptOrphansTrans(o0: map<nat, Block>, b0: map<nat, Block>, o1: map<nat, Block>, b1: map<nat, Block>, o2: map<nat, Block>, c: nat, h: nat)
    requires c in o1 && o1[c].prevhash == h
    requires Kept(b0, b1) && KeptOrphans(o0, b0 - {h}, o1) && KeptOrphans(o1 - {c}, b1, o2)
    ensures KeptOrphans(o0, b0 - {h}, o2)
  {
  }

  lemma KeptFilesTrans(w0: map<nat, seq<nat>>, b0: map<nat, Block>, w1: map<nat, seq<nat>>, b1: map<nat, Block>, w2: map<nat, seq<nat>>)
    requires Kept(b0, b1) && KeptFiles(w0, b0, w1) && KeptFiles(w1, b1, w2)
    ensures KeptFiles(w0, b0, w2)
  {
  }

  /** A set inside another has no more elements, and strictly fewer when
      it misses one of them. */
  lemma {:induction false} SubsetCard<T>(a: set<T>, b: set<T>)
    requires a <= b
    ensures |a| <= |b|
    ensures a != b ==> |a| < |b|
    decreases |b|
  {
    if a != b {
      var x :| x in b && x !in a;
      SubsetCard(a, b - {x});
    }
  }
}
