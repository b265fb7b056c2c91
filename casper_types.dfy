/** The values the Casper validator of casper/casper.py exchanges and keeps:
    blocks, signatures (a per-signer linked log of probability bets),
    finality decisions, network messages, and the pure pieces of the
    validator's algorithms (state transition, window start, bet merging,
    the reply to a gap request, and the simulation's integrity check). */
module CasperTypes {
  import opened Wrappers
  import opened Dicts
  import opened Sorting

  const NumValidators: nat := 20
  const BlkTime: nat := 40
  const GenesisState: int := 0
  const BroadcastSuccessRate: real := 0.9
  /** ε: bets at or below it finalize absence, at or above 1 - ε presence. */
  const FinalityThreshold: real := 0.000001
  const StateModulus: int := 10_000_000_000_000_000_000_000_000_000_000_000_000_000

  /** Bounds of the random parts of object hashes: a signature or request
      hash is below 10^14, a block hash is 10^21 + 10^23 * height plus a
      nonce below 10^20. */
  const ObjectHashBound: nat := 100_000_000_000_000
  const BlockNonceBound: nat := 100_000_000_000_000_000_000
  const BlockHashBase: nat := 1_000_000_000_000_000_000_000
  const HeightStride: nat := 100_000_000_000_000_000_000_000

  /** `random.randrange(10**14)`, with the random draw supplied as `nonce`:
      the hash of a signature or a request. */
  function ObjectHash(nonce: nat): (h: nat)
    ensures h < ObjectHashBound
  {
    nonce % ObjectHashBound
  }

  datatype RawBlock = Block(maker: nat, height: nat, hash: nat)

  predicate WellHashed(b: RawBlock) {
    BlockHashBase + HeightStride * b.height <= b.hash < BlockHashBase + HeightStride * b.height + BlockNonceBound
  }

  /** Every block the program constructs carries a hash of this shape. */
  type Block = b: RawBlock | WellHashed(b) witness Block(0, 0, 1_000_000_000_000_000_000_000)

  /** `Block(maker, height)`, with `random.randrange(10**20)` supplied as
      `nonce`. */
  function MakeBlock(maker: nat, height: nat, nonce: nat): (b: Block)
    ensures b.maker == maker && b.height == height
  {
    Block(maker, height, BlockHashBase + HeightStride * height + nonce % BlockNonceBound)
  }

  /** A block hash determines the block's height, and is never the hash of
      a signature or request. */
  lemma BlockHashDeterminesHeight(a: Block, b: Block)
    ensures a.hash == b.hash ==> a.height == b.height
    ensures ObjectHashBound <= a.hash
  {
    if a.height < b.height {
      assert HeightStride * (a.height + 1) <= HeightStride * b.height;
    } else if b.height < a.height {
      assert HeightStride * (b.height + 1) <= HeightStride * a.height;
    }
  }

  datatype RawSignature = Signature(
    signer: nat,
    probs: seq<real>,
    stateRoots: seq<Option<int>>,
    maxHeight: nat,
    prev: Option<nat>,
    seqNo: nat,
    hash: nat)

  predicate WellFormedSig(s: RawSignature) {
    |s.probs| <= s.maxHeight && s.hash < ObjectHashBound
  }

  /** Signatures as the program builds them: bets for heights
      `sign_from .. max_height - 1` and a hash below 10^14. */
  type Sig = s: RawSignature | WellFormedSig(s) witness Signature(0, [], [], 0, None, 0, 0)

  /** `Signature.sign_from` */
  function SignFrom(s: Sig): nat {
    s.maxHeight - |s.probs|
  }

  /** The `Signature` constructor: linked to the signer's previous
      signature, with `random.randrange(10**14)` supplied as `nonce`. */
  function NextSignature(signer: nat, probs: seq<real>, stateRoots: seq<Option<int>>, maxHeight: nat, prev: Option<Sig>, nonce: nat): (s: Sig)
    requires |probs| <= maxHeight
    ensures s.signer == signer && s.probs == probs && s.stateRoots == stateRoots && s.maxHeight == maxHeight
  {
    Signature(signer, probs, stateRoots, maxHeight,
      if prev.Some? then Some(prev.value.hash) else None,
      if prev.Some? then prev.value.seqNo + 1 else 0,
      ObjectHash(nonce))
  }

  /** A signer's log: the first signature has no predecessor and every later
      one names the hash of the one before it. */
  ghost predicate Linked(log: seq<Sig>) {
    && (|log| > 0 ==> log[0].prev == None)
    && forall k :: 0 < k < |log| ==> log[k].prev == Some(log[k - 1].hash)
  }

  /** Sequence numbers count predecessors. */
  ghost predicate Numbered(log: seq<Sig>) {
    forall k :: 0 <= k < |log| ==> log[k].seqNo == k
  }

  /** Signing onto the end of a log keeps it linked and numbered, and the new
      signature's `sign_from` is `max_height - len(probs)`. */
  lemma NextSignatureExtendsLog(log: seq<Sig>, signer: nat, probs: seq<real>, stateRoots: seq<Option<int>>, maxHeight: nat, nonce: nat)
    requires |probs| <= maxHeight
    requires Linked(log) && Numbered(log)
    ensures var s := NextSignature(signer, probs, stateRoots, maxHeight, if log == [] then None else Some(log[|log| - 1]), nonce);
      && Linked(log + [s]) && Numbered(log + [s])
      && SignFrom(s) == maxHeight - |probs|
  {
  }

  /** `state_transition`: an absent block leaves the state alone; otherwise
      the new state is reduced modulo 10^40. */
  function StateTransition(state: int, block: Option<Block>): (r: int)
    ensures block.None? ==> r == state
    ensures block.Some? ==> 0 <= r < StateModulus
  {
    if block.None? then state
    else
      var h := block.value.hash;
      (state * state * state + h * h * h * h * h) % StateModulus
  }

  /** An entry of `finalized_hashes`: None, False, or the hash of the
      finalized block. */
  datatype Decision = Undecided | Absent | Present(hash: nat)

  /** `min(1 - ε, max(ε, x))`: the bet a signature publishes. */
  function Clamp(x: real): (r: real)
    ensures FinalityThreshold <= r <= 1.0 - FinalityThreshold
    ensures FinalityThreshold <= x <= 1.0 - FinalityThreshold ==> r == x
    ensures x < FinalityThreshold ==> r == FinalityThreshold
    ensures 1.0 - FinalityThreshold < x ==> r == 1.0 - FinalityThreshold
  {
    Min(1.0 - FinalityThreshold, Max(FinalityThreshold, x))
  }

  datatype Message =
    | MBlock(block: Block)
    | MSig(sig: Sig)
    /** `BlockRequest(sender, height)` */
    | MBlockRequest(sender: nat, askHeight: nat, hash: nat)
    /** `SignatureChildRequest(sender, sighash, signer, ht)`; `ht` is the
        requester's `[seq, prev]` of its latest signature from `signer`. */
    | MChildRequest(sender: nat, sighash: Option<nat>, signer: nat, ht: Option<(nat, Option<nat>)>, hash: nat)
    /** A list of signatures, as a reply to a gap request sends them. */
    | MBatch(sigs: seq<Sig>)
  {
    function Hash(): nat
      requires !MBatch?
    {
      match this
      case MBlock(b) => b.hash
      case MSig(s) => s.hash
      case MBlockRequest(_, _, h) => h
      case MChildRequest(_, _, _, _, h) => h
    }
  }

  /** `network.broadcast` and `network.direct_send` */
  datatype Envelope = Broadcast(msg: Message) | Direct(recipient: nat, msg: Message)

  /** `while len(fh) <= i: fh.append(None)`, for `n = i + 1`. */
  function Pad(fh: seq<Decision>, n: nat): (r: seq<Decision>)
    ensures |r| == if n <= |fh| then |fh| else n
  {
    if n <= |fh| then fh else fh + Repeat(Undecided, n - |fh|)
  }

  /** Padding keeps the list and appends undecided entries. */
  lemma PadKeeps(fh: seq<Decision>, n: nat)
    ensures var r := Pad(fh, n);
      forall j :: 0 <= j < |r| ==> r[j] == if j < |fh| then fh[j] else Undecided
  {
    var r := Pad(fh, n);
    forall j | |fh| <= j < |r| ensures r[j] == Undecided {
      RepeatAt(Undecided, n - |fh|, j - |fh|);
    }
  }

  /** The first window height: `max(0, max_finalized_height - 3)`, lowered
      to a height whose block is held, or to 0. */
  function WindowStart(rb: seq<Option<Block>>, mfh: int): (sf: nat)
    requires mfh - 3 < |rb| && 0 < |rb|
    ensures sf <= if mfh - 3 < 0 then 0 else mfh - 3
    ensures sf == 0 || rb[sf].Some?
    ensures forall j :: sf < j <= mfh - 3 ==> rb[j].None?
  {
    Lowered(rb, if mfh - 3 < 0 then 0 else mfh - 3)
  }

  function Lowered(rb: seq<Option<Block>>, i: nat): (r: nat)
    requires i < |rb|
    ensures r <= i
    ensures r == 0 || rb[r].Some?
    ensures forall j :: r < j <= i ==> rb[j].None?
  {
    if rb[i].Some? || i == 0 then i else Lowered(rb, i - 1)
  }

  /** Where `max_finalized_height` stops: past every decided entry that
      directly follows it, at the first undecided one. */
  function Advanced(fh: seq<Decision>, m: int): (r: int)
    requires -1 <= m < |fh|
    ensures m <= r < |fh|
    ensures forall h :: m < h <= r ==> fh[h] != Undecided
    ensures r == |fh| - 1 || fh[r + 1] == Undecided
    decreases |fh| - m
  {
    if m < |fh| - 1 && fh[m + 1] != Undecided then Advanced(fh, m + 1) else m
  }

  /** Height `h` holds the transition of the state below it (genesis below
      height 0) by the block at `h`. */
  predicate Transitioned(states: seq<Option<int>>, rb: seq<Option<Block>>, h: nat)
    requires h < |states| == |rb|
  {
    (h == 0 || states[h - 1].Some?) &&
    states[h] == Some(StateTransition(if h == 0 then GenesisState else states[h - 1].value, rb[h]))
  }

  /** `states` after `max_finalized_height` moved from `m` to `t`: every
      newly covered height is the transition of the one below it, and
      nothing else changes. */
  function FoldStates(states: seq<Option<int>>, rb: seq<Option<Block>>, m: int, t: int): (r: seq<Option<int>>)
    requires |states| == |rb| && -1 <= m <= t < |rb|
    requires forall h :: 0 <= h <= m ==> states[h].Some?
    ensures |r| == |states|
    ensures forall h :: 0 <= h <= t ==> r[h].Some?
    ensures forall h :: 0 <= h < |r| && !(m < h <= t) ==> r[h] == states[h]
    ensures forall h :: m < h <= t ==> Transitioned(r, rb, h)
    decreases t - m
  {
    if t == m then states
    else
      var p := FoldStates(states, rb, m, t - 1);
      var r := p[t := Some(StateTransition(if t == 0 then GenesisState else p[t - 1].value, rb[t]))];
      forall h | m < h <= t ensures Transitioned(r, rb, h) {
        if h < t {
          assert Transitioned(p, rb, h);
          assert r[h] == p[h] && (h == 0 || r[h - 1] == p[h - 1]);
        }
      }
      r
  }

  /** The state-root comparison at the end of `sign`. Only the last entry of
      `states` is compared with the latest finalized state (genesis when
      nothing is finalized), and overwritten when it differs. The signature
      carries that one root when it changed and the whole list otherwise;
      either way its last root is the latest finalized state. */
  function SyncLast(states: seq<Option<int>>, mfh: int): (r: (seq<Option<int>>, seq<Option<int>>))
    requires 0 < |states| && -1 <= mfh < |states|
    ensures var latest := if mfh >= 0 then states[mfh] else Some(GenesisState);
      && |r.0| == |states|
      && r.0[|states| - 1] == latest
      && (forall h :: 0 <= h < |states| - 1 ==> r.0[h] == states[h])
      && (r.1 == [latest] || r.1 == r.0)
  {
    var last := |states| - 1;
    var latest := if mfh >= 0 then states[mfh] else Some(GenesisState);
    if latest != states[last] then (states[last := latest], [latest])
    else (states, states)
  }

  /** The bets a signature publishes: each clamped into [ε, 1 - ε]. */
  function ClampAll(bets: seq<real>): (r: seq<real>)
    ensures |r| == |bets|
    ensures forall k :: 0 <= k < |r| ==> FinalityThreshold <= r[k] <= 1.0 - FinalityThreshold
    ensures forall k :: 0 <= k < |r| && FinalityThreshold <= bets[k] <= 1.0 - FinalityThreshold ==> r[k] == bets[k]
  {
    seq(|bets|, k requires 0 <= k < |bets| => Clamp(bets[k]))
  }

  /** `[x for x in votes if x != 0]` */
  function NonZero(votes: seq<real>): seq<real> {
    if votes == [] then []
    else if votes[0] == 0.0 then NonZero(votes[1..])
    else [votes[0]] + NonZero(votes[1..])
  }

  /** The filter keeps exactly the non-zero bets. */
  lemma {:induction false} NonZeroKeepsExactlyNonZero(votes: seq<real>)
    ensures |NonZero(votes)| <= |votes|
    ensures forall k :: 0 <= k < |NonZero(votes)| ==> NonZero(votes)[k] != 0.0 && NonZero(votes)[k] in votes
    ensures forall k :: 0 <= k < |votes| && votes[k] != 0.0 ==> votes[k] in NonZero(votes)
  {
    if votes != [] {
      NonZeroKeepsExactlyNonZero(votes[1..]);
      assert votes == [votes[0]] + votes[1..];
    }
  }

  /** The list `sign` hands to `vote` for one height: the non-zero bets
      received for it, filled up to `NUM_VALIDATORS` entries with the
      validator's own opinion. */
  function Ballot(received: seq<real>, opinion: real): seq<real> {
    var known := NonZero(received);
    known + Repeat(opinion, if |known| < NumValidators then NumValidators - |known| else 0)
  }

  /** A ballot holds every non-zero bet received, and at least
      `NUM_VALIDATORS` entries, the missing ones being the own opinion. */
  lemma BallotFillsWithOpinion(received: seq<real>, opinion: real)
    ensures var b := Ballot(received, opinion); var known := NonZero(received);
      && NumValidators <= |b|
      && |b| == (if |known| < NumValidators then NumValidators else |known|)
      && b[..|known|] == known
      && forall k :: |known| <= k < |b| ==> b[k] == opinion
  {
    var known := NonZero(received);
    var fill := Repeat(opinion, if |known| < NumValidators then NumValidators - |known| else 0);
    var b := known + fill;
    assert b == Ballot(received, opinion);
    assert b[..|known|] == known;
    forall k | |known| <= k < |b| ensures b[k] == opinion {
      assert b[k] == fill[k - |known|];
      RepeatAt(opinion, |fill|, k - |known|);
    }
  }

  /** What the block requests of the bet loop of `sign` thread through its
      iterations: the messages sent, and how far the two random streams
      (object hashes, coin flips) have been read. */
  datatype Sweep = Sweep(outbox: seq<Envelope>, mints: nat, draws: nat)

  /** `received_signatures[]` grown to at least `n` per-height maps. */
  function Extend(rs: seq<Dict<nat, real>>, n: nat): (r: seq<Dict<nat, real>>)
    ensures |r| == if n <= |rs| then |rs| else n
    ensures forall h :: 0 <= h < |r| ==> r[h] == if h < |rs| then rs[h] else []
  {
    if n <= |rs| then rs else rs + seq(n - |rs|, _ => [])
  }

  /** The effect of accepting a signature on `received_signatures`: grown to
      one past the last height the signature covers, then the signer's bet
      for each covered height written into that height's map. */
  function MergeBets(rs: seq<Dict<nat, real>>, s: Sig): (r: seq<Dict<nat, real>>)
    ensures |r| == if |s.probs| + SignFrom(s) + 1 <= |rs| then |rs| else |s.probs| + SignFrom(s) + 1
  {
    PutBets(Extend(rs, |s.probs| + SignFrom(s) + 1), SignFrom(s), s.signer, s.probs)
  }

  /** `e` with `signer`'s bet `probs[i]` written into the map at height
      `sf + i`, for each `i`. */
  function PutBets(e: seq<Dict<nat, real>>, sf: nat, signer: nat, probs: seq<real>): (r: seq<Dict<nat, real>>)
    requires sf + |probs| <= |e|
    ensures |r| == |e|
    decreases |probs|
  {
    if probs == [] then e
    else PutBets(e[sf := Set(e[sf], signer, probs[0])], sf + 1, signer, probs[1..])
  }

  /** Each covered height holds its map with the signer's bet written in;
      every other height is as it was. */
  lemma {:induction false} PutBetsAt(e: seq<Dict<nat, real>>, sf: nat, signer: nat, probs: seq<real>, h: nat)
    requires sf + |probs| <= |e| && h < |e|
    ensures PutBets(e, sf, signer, probs)[h] == if sf <= h < sf + |probs| then Set(e[h], signer, probs[h - sf]) else e[h]
    decreases |probs|
  {
    if probs != [] {
      var e' := e[sf := Set(e[sf], signer, probs[0])];
      PutBetsAt(e', sf + 1, signer, probs[1..], h);
      if sf < h < sf + |probs| {
        assert e'[h] == e[h] && probs[1..][h - (sf + 1)] == probs[h - sf];
      }
    }
  }

  /** Accepting a signature replaces the signer's bet on each height it
      covers, and leaves every other (height, signer) entry as it was. */
  lemma MergeBetsReplacesOnlySigner(rs: seq<Dict<nat, real>>, s: Sig, h: nat, k: nat)
    requires h < |MergeBets(rs, s)|
    ensures Get(MergeBets(rs, s)[h], k) ==
      if k == s.signer && SignFrom(s) <= h < SignFrom(s) + |s.probs| then Some(s.probs[h - SignFrom(s)])
      else if h < |rs| then Get(rs[h], k)
      else None
  {
    var sf := SignFrom(s);
    var e := Extend(rs, |s.probs| + sf + 1);
    PutBetsAt(e, sf, s.signer, s.probs, h);
    if sf <= h < sf + |s.probs| {
      GetSet(e[h], s.signer, s.probs[h - sf], k);
    }
  }

  /** Where the walk back from the latest signature of `log[..n]` stops:
      the last signature whose `prev` is the requested hash. */
  function ReplyStart(log: seq<Sig>, sighash: Option<nat>, n: nat): (k: Option<nat>)
    requires n <= |log|
    ensures k.Some? ==> k.value < n && log[k.value].prev == sighash
    ensures k.Some? ==> forall j :: k.value < j < n ==> log[j].prev != sighash
    ensures k.None? ==> forall j :: 0 <= j < n ==> log[j].prev != sighash
  {
    if n == 0 then None
    else if log[n - 1].prev == sighash then Some(n - 1)
    else ReplyStart(log, sighash, n - 1)
  }

  /** The answer to a `SignatureChildRequest`: the signatures from where the
      walk stops to the latest one, oldest first; nothing when the walk runs
      off the start of the log. */
  function ChildReply(log: seq<Sig>, sighash: Option<nat>): (r: Option<seq<Sig>>)
    ensures r.None? <==> forall j :: 0 <= j < |log| ==> log[j].prev != sighash
  {
    match ReplyStart(log, sighash, |log|)
    case None => None
    case Some(k) => Some(log[k..])
  }

  /** The reply is in order: it starts at the requested hash, each
      signature names the one before it, it ends at the signer's latest
      signature, and no later signature also starts at the requested hash. */
  lemma ChildReplyIsChain(log: seq<Sig>, sighash: Option<nat>)
    requires Linked(log)
    requires ChildReply(log, sighash).Some?
    ensures var r := ChildReply(log, sighash).value;
      && 0 < |r| && r[0].prev == sighash && r[|r| - 1] == log[|log| - 1]
      && (forall i :: 0 < i < |r| ==> r[i].prev == Some(r[i - 1].hash) && r[i].prev != sighash)
  {
    var k := ReplyStart(log, sighash, |log|).value;
    var r := log[k..];
    forall i | 0 < i < |r| ensures r[i].prev == Some(r[i - 1].hash) && r[i].prev != sighash {
      assert r[i] == log[k + i] && r[i - 1] == log[k + i - 1];
    }
  }

  /** Stable insertion of one validator's `finalized_hashes` by length. */
  /** Putting a list no longer than the head in front of a list ordered by
      length keeps it ordered. */
  lemma ByLengthCons(x: seq<Decision>, views: seq<seq<Decision>>)
    requires forall i, j :: 0 <= i < j < |views| ==> |views[i]| <= |views[j]|
    requires views == [] || |x| <= |views[0]|
    ensures var r := [x] + views; forall i, j :: 0 <= i < j < |r| ==> |r[i]| <= |r[j]|
  {
    var r := [x] + views;
    forall i, j | 0 <= i < j < |r| ensures |r[i]| <= |r[j]| {
      if 0 < i {
        assert r[i] == views[i - 1];
      }
    }
  }

  function InsertByLength(x: seq<Decision>, views: seq<seq<Decision>>): (r: seq<seq<Decision>>)
    requires forall i, j :: 0 <= i < j < |views| ==> |views[i]| <= |views[j]|
    ensures forall i, j :: 0 <= i < j < |r| ==> |r[i]| <= |r[j]|
    ensures multiset(r) == multiset(views) + multiset{x}
    ensures |r| == |views| + 1 && (r[0] == x || (views != [] && r[0] == views[0]))
  {
    if views == [] || |x| <= |views[0]| then
      ByLengthCons(x, views);
      [x] + views
    else
      var t := InsertByLength(x, views[1..]);
      assert views == [views[0]] + views[1..];
      ByLengthCons(views[0], t);
      [views[0]] + t
  }

  /** `sorted(finalized0, key=lambda x: len(x[1]))`, on the hash lists. */
  function SortByLength(views: seq<seq<Decision>>): (r: seq<seq<Decision>>)
    ensures forall i, j :: 0 <= i < j < |r| ==> |r[i]| <= |r[j]|
    ensures multiset(r) == multiset(views)
  {
    if views == [] then []
    else
      assert views == [views[0]] + views[1..];
      InsertByLength(views[0], SortByLength(views[1..]))
  }

  /** Sorting a list already ordered by length changes nothing (the sort is
      stable). */
  lemma {:induction false} SortByLengthKeepsSorted(views: seq<seq<Decision>>)
    requires forall i, j :: 0 <= i < j < |views| ==> |views[i]| <= |views[j]|
    ensures SortByLength(views) == views
  {
    if views != [] {
      SortByLengthKeepsSorted(views[1..]);
      assert views == [views[0]] + views[1..];
    }
  }

  /** On a list already ordered by length the check compares exactly the
      neighbours of that list. */
  lemma SortedViewsPassWhenNeighboursAgree(views: seq<seq<Decision>>)
    requires forall i, j :: 0 <= i < j < |views| ==> |views[i]| <= |views[j]|
    requires forall j :: 0 <= j < |views| - 1 ==> AgreesWithNext(views, j)
    ensures IntegrityCheckPasses(views)
  {
    SortByLengthKeepsSorted(views);
  }

  /** Two decided entries for one height disagree. */
  predicate Clash(a: Decision, b: Decision) {
    a != Undecided && b != Undecided && a != b
  }

  /** Two validators' lists agree on every height both have decided. */
  predicate Agree(a: seq<Decision>, b: seq<Decision>) {
    forall k :: 0 <= k < |a| && k < |b| ==> !Clash(a[k], b[k])
  }

  predicate AgreesWithNext(views: seq<seq<Decision>>, j: nat)
    requires j + 1 < |views|
  {
    Agree(views[j], views[j + 1])
  }

  /** The simulation's integrity check as written: after sorting by length,
      each validator is compared with the next one only. */
  predicate IntegrityCheckPasses(views: seq<seq<Decision>>) {
    var sorted := SortByLength(views);
    forall j :: 0 <= j < |sorted| - 1 ==> AgreesWithNext(sorted, j)
  }

  /** What the check is for: no two validators have finalized different
      outcomes for the same height. */
  predicate Consistent(views: seq<seq<Decision>>) {
    forall a, b :: 0 <= a < |views| && 0 <= b < |views| ==> Agree(views[a], views[b])
  }

  /** A consistent network always passes the check. */
  lemma ConsistentPassesIntegrityCheck(views: seq<seq<Decision>>)
    requires Consistent(views)
    ensures IntegrityCheckPasses(views)
  {
    var sorted := SortByLength(views);
    forall j | 0 <= j < |sorted| - 1 ensures AgreesWithNext(sorted, j) {
      assert sorted[j] in multiset(views) && sorted[j + 1] in multiset(views);
      var a :| 0 <= a < |views| && views[a] == sorted[j];
      var b :| 0 <= b < |views| && views[b] == sorted[j + 1];
      assert Agree(views[a], views[b]);
    }
  }

  /** The check as written misses a clash between two validators whenever the
      validator sorted between them has not decided that height: here the
      first and third views finalize different blocks x and y at height 0
      (for instance z = Absent). */
  lemma IntegrityCheckMissesClash(x: nat, y: nat, z: Decision)
    requires x != y
    ensures var views := [[Present(x)], [Undecided, z], [Present(y), z, z]];
      IntegrityCheckPasses(views) && !Consistent(views)
  {
    var v0: seq<Decision> := [Present(x)];
    var v1: seq<Decision> := [Undecided, z];
    var v2: seq<Decision> := [Present(y), z, z];
    var views := [v0, v1, v2];
    assert AgreesWithNext(views, 0);
    assert AgreesWithNext(views, 1);
    SortedViewsPassWhenNeighboursAgree(views);
    assert !Agree(views[0], views[2]) by {
      assert Clash(v0[0], v2[0]);
    }
  }

  /** The outcome the first validator to decide height `k` reached, or
      Undecided. */
  function FirstDecided(views: seq<seq<Decision>>, k: nat): (d: Decision)
    ensures d == Undecided <==> forall a :: 0 <= a < |views| && k < |views[a]| ==> views[a][k] == Undecided
    ensures d != Undecided ==> exists a :: 0 <= a < |views| && k < |views[a]| && views[a][k] == d
  {
    if views == [] then Undecided
    else if k < |views[0]| && views[0][k] != Undecided then views[0][k]
    else
      var d := FirstDecided(views[1..], k);
      assert forall a :: 1 <= a < |views| ==> views[a] == views[1..][a - 1];
      d
  }

  /** The integrity check compared against a reference: every decided entry
      must equal the first decision any validator reached for that height. */
  predicate IntegrityCheckAgainstFirst(views: seq<seq<Decision>>) {
    forall a, k :: 0 <= a < |views| && 0 <= k < |views[a]| && views[a][k] != Undecided ==> views[a][k] == FirstDecided(views, k)
  }

  /** The reference check raises exactly when two validators disagree. */
  lemma IntegrityCheckAgainstFirstIsExact(views: seq<seq<Decision>>)
    ensures IntegrityCheckAgainstFirst(views) <==> Consistent(views)
  {
    if IntegrityCheckAgainstFirst(views) {
      forall a, b | 0 <= a < |views| && 0 <= b < |views| ensures Agree(views[a], views[b]) {
        forall k | 0 <= k < |views[a]| && k < |views[b]| ensures !Clash(views[a][k], views[b][k]) {
          if views[a][k] != Undecided && views[b][k] != Undecided {
            assert views[a][k] == FirstDecided(views, k) == views[b][k];
          }
        }
      }
    }
    if Consistent(views) {
      forall a, k | 0 <= a < |views| && 0 <= k < |views[a]| && views[a][k] != Undecided
        ensures views[a][k] == FirstDecided(views, k)
      {
        var b :| 0 <= b < |views| && k < |views[b]| && views[b][k] == FirstDecided(views, k);
        assert Agree(views[a], views[b]);
        assert !Clash(views[a][k], views[b][k]);
      }
    }
  }
}
