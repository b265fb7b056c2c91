/** The validator of timing_strats.py, the earlier of the two timing
    simulators: one head per validator, a global list of time slots that
    decides who may extend a block number, production at most once per
    number, and the `alotted` bookkeeping of blocks whose acceptance is
    postponed because they, or their parent, came too early. */
module TimingStrats {
  import opened Wrappers
  import opened StateMaps

  /** The keys of a block's state: `'transactions'` and, per validator, its
      integer id. */
  datatype Key = Transactions | Balance(id: nat)

  type State = map<Key, real>

  const BlankState: State := map[Transactions := 0.0]

  /** `get_state(s, k)`: the value stored at `k`, zero when absent. */
  function GetState(s: State, k: Key): real {
    Lookup(s, k, 0.0)
  }

  /** `get_txreward(ticks)` */
  function TxReward(ticks: real): real {
    0.00001 * ticks
  }

  /** `get_score_addition(skips)`: each skipped slot costs a hundred-thousandth
      of a block's weight. */
  function ScoreAddition(skips: int): (w: real)
    ensures skips >= 0 ==> w <= 1.0
    ensures skips <= 0 ==> w >= 1.0
  {
    1.0 - 0.00001 * skips as real
  }

  /** `Block.number` counts slots, `height` counts ancestors. */
  datatype Block = Block(hash: nat, prevhash: nat, state: State, number: nat, height: nat)

  /** `Block(parent, state, number)`, with the draw of
      `random.randrange(10**20)` supplied as `hash`. */
  function NewBlock(parent: Option<Block>, state: State, number: nat, hash: nat): (b: Block)
    ensures b.hash == hash && b.state == state && b.number == number
    ensures parent.Some? ==> b.prevhash == parent.value.hash && b.height == parent.value.height + 1
    ensures parent.None? ==> b.prevhash == 0 && b.height == 0
  {
    match parent
    case Some(p) => Block(hash, p.hash, state, number, p.height + 1)
    case None => Block(hash, 0, state, number, 0)
  }

  /** `GENESIS = Block(None, BLANK_STATE, 0)` */
  function Genesis(hash: nat): (g: Block)
    ensures g.hash == hash && g.prevhash == 0 && g.number == 0 && g.height == 0
    ensures g.state == BlankState
  {
    NewBlock(None, BlankState, 0, hash)
  }

  /** The state of a block built on a parent whose state is `s`, by
      validator `id` at simulation time `time`: the transactions counter
      moves to `time`, and the maker is credited `BLKREWARD` plus the fees
      of the ticks since the parent. */
  function Rewarded(s: State, id: nat, time: int): (r: State)
    requires Transactions in s
    ensures r.Keys == s.Keys + {Transactions, Balance(id)}
    ensures r[Transactions] == time as real
    ensures r[Balance(id)] == GetState(s, Balance(id)) + 1.0 + TxReward(time as real - s[Transactions])
    ensures forall k :: k in s && k != Transactions && k != Balance(id) ==> r[k] == s[k]
  {
    var reward := 1.0 + TxReward(time as real - s[Transactions]);
    var s1 := UpdateState(s, Transactions, time as real);
    UpdateState(s1, Balance(id), GetState(s1, Balance(id)) + reward)
  }

  /** The number of slots `mine` skips after block number `n`, counting
      from `from`: the least `skips` with `timeslots[n + 1 + skips] == id`,
      or `None` when the list runs out first (an `IndexError`). */
  function SlotSkips(timeslots: seq<nat>, id: nat, n: nat, from: nat): (r: Option<nat>)
    ensures r.Some? ==>
      from <= r.value && n + 1 + r.value < |timeslots| && timeslots[n + 1 + r.value] == id
      && forall k :: n + 1 + from <= k < n + 1 + r.value ==> timeslots[k] != id
    ensures r.None? ==> forall k :: n + 1 + from <= k < |timeslots| ==> timeslots[k] != id
    decreases |timeslots| - (n + 1 + from)
  {
    if n + 1 + from >= |timeslots| then None
    else if timeslots[n + 1 + from] == id then Some(from)
    else SlotSkips(timeslots, id, n, from + 1)
  }

  /** What one call of `mine` did. */
  datatype Mined =
    | Waiting               // not yet due, or this number was already produced at
    | SlotsExhausted        // `timeslots[...]` raised `IndexError`
    | TransactionsMissing   // `self.head.state['transactions']` raised `KeyError`
    | Made(b: Block)        // a block was created and broadcast

  /** What one call of `listen` did. */
  datatype Tick = Completed | AssertionFailed

  /** Every known block is filed under its own hash and has a score and an
      arrival time, and nothing else does. */
  ghost predicate Tracked(blocks: map<nat, Block>, scores: map<nat, real>, timeReceived: map<nat, int>) {
    scores.Keys == blocks.Keys && timeReceived.Keys == blocks.Keys
    && forall k :: k in blocks ==> blocks[k].hash == k
  }

  /** The head is a known block and no known block scores higher. */
  ghost predicate Heaviest(head: Block, blocks: map<nat, Block>, scores: map<nat, real>) {
    head.hash in blocks && blocks[head.hash] == head && head.hash in scores
    && forall k :: k in scores ==> scores[k] <= scores[head.hash]
  }

  /** The numbers a validator produced at rise strictly, and the last one is
      `min_number`. */
  ghost predicate Ascending(produced: seq<nat>, minNumber: nat) {
    (forall i, j :: 0 <= i < j < |produced| ==> produced[i] < produced[j])
    && (produced != [] ==> produced[|produced| - 1] == minNumber)
  }

  /** `m` still holds every entry of `m0`. */
  ghost predicate Kept<K, V>(m0: map<K, V>, m: map<K, V>) {
    forall k :: k in m0 ==> k in m && m[k] == m0[k]
  }

  /** Every allotted time that `a` holds and `a0` did not is after `time`. */
  ghost predicate WrittenAfter(a0: map<nat, int>, a: map<nat, int>, time: int) {
    forall x :: x in a && (x !in a0 || a[x] != a0[x]) ==> a[x] > time
  }

  lemma KeptTrans<K, V>(m0: map<K, V>, m1: map<K, V>, m2: map<K, V>)
    requires Kept(m0, m1) && Kept(m1, m2)
    ensures Kept(m0, m2)
  {
  }

  lemma WrittenAfterTrans(a0: map<nat, int>, a1: map<nat, int>, a2: map<nat, int>, time: int)
    requires WrittenAfter(a0, a1, time) && WrittenAfter(a1, a2, time)
    ensures WrittenAfter(a0, a2, time)
  {
  }

  /** Storing a new block keeps every block tracked, and the head stays
      the heaviest block unless the new one outscores it. */
  lemma AdmitKeepsHeaviest(head: Block, blocks: map<nat, Block>, scores: map<nat, real>, timeReceived: map<nat, int>,
                           blk: Block, score: real, t: int)
    requires Tracked(blocks, scores, timeReceived) && Heaviest(head, blocks, scores) && blk.hash !in blocks
    ensures Tracked(blocks[blk.hash := blk], scores[blk.hash := score], timeReceived[blk.hash := t])
    ensures var head' := if score > scores[head.hash] then blk else head;
      Heaviest(head', blocks[blk.hash := blk], scores[blk.hash := score])
  {
  }

  /** Producing at a number above `min_number` keeps the produced numbers
      rising. */
  lemma AscendingExtend(produced: seq<nat>, minNumber: nat, n: nat)
    requires Ascending(produced, minNumber) && n > minNumber
    ensures Ascending(produced + [n], n)
  {
  }

  class Validator {
    const id: nat
    /** `self.produce_delay` */
    const produceDelay: int
    /** `self.per_block_produce_delay`, per skipped slot */
    const perBlockProduceDelay: int
    /** `self.per_block_accept_delay`, per skipped slot */
    const perBlockAcceptDelay: int
    /** `self.time_offset`: how far this validator's clock is off. */
    const timeOffset: int

    var head: Block
    var listenQueue: map<int, seq<Block>>
    var blocks: map<nat, Block>
    var scores: map<nat, real>
    var timeReceived: map<nat, int>
    /** Blocks received too early, with the tick they are due again. */
    var alotted: map<nat, int>
    /** The highest block number this validator has produced at. */
    var minNumber: nat
    /** Blocks made by `mine`, for the simulation to deliver to every
        validator's listen queue. */
    var outbox: seq<Block>
    /** Hashes passed to `request_block`. */
    var requests: seq<nat>
    /** Every block number this validator produced at, in order. */
    ghost var produced: seq<nat>

    ghost predicate Valid()
      reads this`head, this`blocks, this`scores, this`timeReceived, this`produced, this`minNumber
    {
      Tracked(blocks, scores, timeReceived) && Heaviest(head, blocks, scores) && Ascending(produced, minNumber)
    }

    /** `Validator(strategy)` with the id it draws from `next_id`, and the
        clock offset it draws supplied as `timeOffset`. */
    constructor (id: nat, strategy: (int, int, int), timeOffset: int, genesis: Block)
      ensures this.id == id && produceDelay == strategy.0 && perBlockProduceDelay == strategy.1
      ensures perBlockAcceptDelay == strategy.2 && this.timeOffset == timeOffset
      ensures head == genesis && blocks == map[genesis.hash := genesis]
      ensures scores == map[genesis.hash := 0.0] && timeReceived == map[genesis.hash := 0]
      ensures listenQueue == map[] && alotted == map[] && minNumber == 0
      ensures outbox == [] && requests == [] && produced == []
      ensures Valid()
    {
      this.id, this.timeOffset := id, timeOffset;
      produceDelay, perBlockProduceDelay, perBlockAcceptDelay := strategy.0, strategy.1, strategy.2;
      head, blocks, scores, timeReceived := genesis, map[genesis.hash := genesis], map[genesis.hash := 0.0], map[genesis.hash := 0];
      listenQueue, alotted, minNumber := map[], map[], 0;
      outbox, requests, produced := [], [], [];
    }

    /** `get_time()`, the validator's clock when the simulation is at `time`. */
    function LocalTime(time: int): (t: int)
      ensures t >= 0 && t >= time + timeOffset
      ensures t == time + timeOffset || t == 0
    {
      if time + timeOffset > 0 then time + timeOffset else 0
    }

    /** `add_to_listen_queue(time, obj)` */
    method AddToListenQueue(time: int, b: Block)
      modifies this`listenQueue
      ensures listenQueue == old(listenQueue)[time := Lookup(old(listenQueue), time, []) + [b]]
    {
      if time !in listenQueue {
        listenQueue := listenQueue[time := []];
      }
      listenQueue := listenQueue[time := listenQueue[time] + [b]];
    }

    /** The `while` loop of `mine` that counts skips; `None` is the
        `IndexError` it raises when the slots run out. */
    method FindSkips(timeslots: seq<nat>, n: nat) returns (r: Option<nat>)
      ensures r == SlotSkips(timeslots, id, n, 0)
    {
      var skips := 0;
      while true
        invariant SlotSkips(timeslots, id, n, skips) == SlotSkips(timeslots, id, n, 0)
        decreases |timeslots| - (n + 1 + skips)
      {
        if n + 1 + skips >= |timeslots| {
          return None;
        }
        if timeslots[n + 1 + skips] == id {
          return Some(skips);
        }
        skips := skips + 1;
      }
    }

    /** Whether `mine` produces on the head it has, with `skips` slots
        skipped, when its clock reads `t`. */
    predicate Due(t: int, skips: nat)
      reads this`head, this`timeReceived, this`minNumber
    {
      head.hash in timeReceived
      && t >= timeReceived[head.hash] + produceDelay + perBlockProduceDelay * skips
      && head.number >= minNumber
    }

    /** `mine()` at simulation time `time`, with the global `timeslots`
        list and the new block's random hash supplied. Broadcasting is left
        to the simulation, which delivers the block in `outbox`. */
    method Mine(time: int, timeslots: seq<nat>, hash: nat) returns (m: Mined)
      requires Valid()
      modifies this`minNumber, this`outbox, this`produced
      ensures Valid()
      ensures var r := SlotSkips(timeslots, id, head.number, 0);
        if r.None? then m == SlotsExhausted
        else if !old(Due(LocalTime(time), r.value)) then m == Waiting
        else if Transactions !in head.state then m == TransactionsMissing
        else m == Made(NewBlock(Some(head), Rewarded(head.state, id, time), head.number + 1 + r.value, hash))
      ensures m.Made? ==>
        m.b.number > old(minNumber) && minNumber == m.b.number
        && outbox == old(outbox) + [m.b] && produced == old(produced) + [m.b.number]
      ensures !m.Made? ==> minNumber == old(minNumber) && outbox == old(outbox) && produced == old(produced)
    {
      var r := FindSkips(timeslots, head.number);
      if r.None? {
        return SlotsExhausted;
      }
      var skips := r.value;
      if !Due(LocalTime(time), skips) {
        return Waiting;
      }
      if Transactions !in head.state {
        return TransactionsMissing;
      }
      var b := NewBlock(Some(head), Rewarded(head.state, id, time), head.number + 1 + skips, hash);
      AscendingExtend(produced, minNumber, b.number);
      outbox, minNumber, produced := outbox + [b], b.number, produced + [b.number];
      return Made(b);
    }

    /** The acceptance branch of `listen`: the block leaves `alotted`, is
        stored and scored, and becomes the head if it outscores it. */
    method Admit(blk: Block, t: int, skips: int)
      requires Valid() && blk.prevhash in blocks && blk.hash !in blocks
      modifies this`alotted, this`blocks, this`scores, this`timeReceived, this`head
      ensures Valid()
      ensures alotted == old(alotted) - {blk.hash}
      ensures blocks == old(blocks)[blk.hash := blk] && timeReceived == old(timeReceived)[blk.hash := t]
      ensures scores == old(scores)[blk.hash := old(scores)[blk.prevhash] + ScoreAddition(skips)]
      ensures head == if scores[blk.hash] > old(scores)[old(head).hash] then blk else old(head)
    {
      var score := scores[blk.prevhash] + ScoreAddition(skips);
      var top := scores[head.hash];
      AdmitKeepsHeaviest(head, blocks, scores, timeReceived, blk, score, t);
      alotted, blocks, scores, timeReceived := alotted - {blk.hash}, blocks[blk.hash := blk], scores[blk.hash := score], timeReceived[blk.hash := t];
      if score > top {
        head := blk;
      }
    }

    /** Put `blk` back in the listen queue for tick `at` and record `at` in
        `alotted`. */
    method Defer(blk: Block, at: int)
      modifies this`listenQueue, this`alotted
      ensures listenQueue == old(listenQueue)[at := Lookup(old(listenQueue), at, []) + [blk]]
      ensures alotted == old(alotted)[blk.hash := at]
    {
      AddToListenQueue(at, blk);
      alotted := alotted[blk.hash := at];
    }

    /** The body of the loop of `listen` for one block `blk` at simulation
        time `time`; `false` when the assertion on the parent's allotted
        time fails. */
    method Receive(blk: Block, time: int) returns (ok: bool)
      requires Valid()
      modifies this`listenQueue, this`alotted, this`blocks, this`scores, this`timeReceived, this`head, this`requests
      ensures Valid() && Kept(old(blocks), blocks) && WrittenAfter(old(alotted), alotted, time)
      ensures time in old(listenQueue) ==> time in listenQueue && listenQueue[time] == old(listenQueue)[time]
      // parent neither known nor allotted: ask for it and skip the block
      ensures old(blk.prevhash !in blocks && blk.prevhash !in alotted) ==>
        ok && requests == old(requests) + [blk.prevhash]
        && unchanged(this`listenQueue, this`alotted, this`blocks, this`scores, this`timeReceived, this`head)
      // parent allotted but not received: the child follows two ticks after it
      ensures old(blk.prevhash !in blocks && blk.prevhash in alotted) ==>
        var at := old(alotted)[blk.prevhash];
        if at < time then
          !ok && unchanged(this`listenQueue, this`alotted, this`blocks, this`scores, this`timeReceived, this`head, this`requests)
        else
          ok && alotted == old(alotted)[blk.hash := at + 2]
          && listenQueue == old(listenQueue)[at + 2 := Lookup(old(listenQueue), at + 2, []) + [blk]]
          && unchanged(this`blocks, this`scores, this`timeReceived, this`head, this`requests)
      // already processed, or allotted to a later tick: skip it
      ensures old(blk.prevhash in blocks && (blk.hash in blocks || (blk.hash in alotted && alotted[blk.hash] > time))) ==>
        ok && unchanged(this`listenQueue, this`alotted, this`blocks, this`scores, this`timeReceived, this`head, this`requests)
      // too early: postponed until the parent's arrival plus the per-skip delay
      ensures old(blk.prevhash in blocks && blk.hash !in blocks && !(blk.hash in alotted && alotted[blk.hash] > time)) ==>
        ok && requests == old(requests) &&
        var skips := blk.number - old(blocks)[blk.prevhash].number - 1;
        var due := old(timeReceived)[blk.prevhash] + skips * perBlockAcceptDelay;
        var t := LocalTime(time);
        if t < due then
          alotted == old(alotted)[blk.hash := due - t + time]
          && listenQueue == old(listenQueue)[due - t + time := Lookup(old(listenQueue), due - t + time, []) + [blk]]
          && blocks == old(blocks) && unchanged(this`scores, this`timeReceived, this`head)
        else
          blocks == old(blocks)[blk.hash := blk] && timeReceived == old(timeReceived)[blk.hash := t]
          && alotted == old(alotted) - {blk.hash} && listenQueue == old(listenQueue)
          && scores == old(scores)[blk.hash := old(scores)[blk.prevhash] + ScoreAddition(skips)]
          && head == if scores[blk.hash] > old(scores)[old(head).hash] then blk else old(head)
    {
      var t := LocalTime(time);
      if blk.prevhash !in blocks && blk.prevhash !in alotted {
        requests := requests + [blk.prevhash];
        return true;
      }
      if blk.prevhash !in blocks {
        var at := alotted[blk.prevhash];
        if at < time {
          return false;
        }
        Defer(blk, at + 2);
        return true;
      }
      if blk.hash in blocks || (blk.hash in alotted && alotted[blk.hash] > time) {
        return true;
      }
      var parent := blocks[blk.prevhash];
      var skips := blk.number - parent.number - 1;
      var due := timeReceived[parent.hash] + skips * perBlockAcceptDelay;
      if t < due {
        Defer(blk, due - t + time);
        return true;
      }
      Admit(blk, t, skips);
      return true;
    }

    /** `listen()` at simulation time `time`: every block queued for this
        tick is looked at in the order it was queued, the tick's queue is
        dropped, and every allotted time left must lie in the future. */
    method Listen(time: int) returns (r: Tick)
      requires Valid()
      modifies this`listenQueue, this`alotted, this`blocks, this`scores, this`timeReceived, this`head,
        this`requests
      ensures Valid() && Kept(old(blocks), blocks)
      ensures WrittenAfter(old(alotted), alotted, time)
      ensures time !in old(listenQueue) ==> r == Completed && unchanged(this)
      ensures time in old(listenQueue) && r == Completed ==>
        time !in listenQueue && forall x :: x in alotted ==> alotted[x] > time
    {
      if time !in listenQueue {
        return Completed;
      }
      var batch := listenQueue[time];
      for i := 0 to |batch|
        invariant Valid() && Kept(old(blocks), blocks) && WrittenAfter(old(alotted), alotted, time)
        invariant time in listenQueue && listenQueue[time] == batch
      {
        ghost var (b0, a0) := (blocks, alotted);
        var ok := Receive(batch[i], time);
        KeptTrans(old(blocks), b0, blocks);
        WrittenAfterTrans(old(alotted), a0, alotted, time);
        if !ok {
          return AssertionFailed;
        }
      }
      listenQueue := listenQueue - {time};
      r := CheckAlotted(time);
    }

    /** `for x in self.alotted: assert self.alotted[x] > time[0]` */
    method CheckAlotted(time: int) returns (r: Tick)
      ensures r == Completed <==> forall x :: x in alotted ==> alotted[x] > time
    {
      var pending := alotted.Keys;
      while pending != {}
        invariant pending <= alotted.Keys
        invariant forall x :: x in alotted && x !in pending ==> alotted[x] > time
        decreases pending
      {
        var x :| x in pending;
        if alotted[x] <= time {
          return AssertionFailed;
        }
        pending := pending - {x};
      }
      return Completed;
    }
  }
}
