/** `Validator` of casper/casper.py: one participant of the Casper
    simulation. It stores blocks by height, merges other validators'
    signatures (chains of probability bets), signs its own bets over a
    window of recent heights, answers requests, and produces blocks in its
    round-robin slots.

    The network is an outbox: `broadcast` and `direct_send` append to it.
    The clock is the `now` argument of each operation. The single random
    stream of the program is split into two supplied streams: `mint` gives
    the random part of every new object hash and `draw` every coin flip;
    `mints` and `draws` count how much of each has been read. */
module CasperValidator {
  import opened Wrappers
  import opened Dicts
  import opened CasperTypes
  import opened CasperBets
  import opened CasperSign

  /** `s` is stored under its hash. */
  ghost predicate Stored(objects: map<nat, Message>, s: Sig) {
    s.hash in objects && objects[s.hash] == MSig(s)
  }

  /** One signer's log: non-empty, ending at its latest signature, linked,
      and every signature in it stored. */
  ghost predicate LogKept(log: seq<Sig>, last: Sig, objects: map<nat, Message>) {
    && |log| > 0
    && log[|log| - 1] == last
    && Linked(log)
    && forall k :: 0 <= k < |log| ==> Stored(objects, log[k])
  }

  /** The logs of accepted signatures: one per signer with a latest
      signature, each kept. */
  ghost predicate LogsKept(logs: map<nat, seq<Sig>>, latest: map<nat, Sig>, objects: map<nat, Message>) {
    && logs.Keys == latest.Keys
    && forall signer {:trigger LogKept(logs[signer], latest[signer], objects)} :: signer in logs ==> LogKept(logs[signer], latest[signer], objects)
  }

  /** The hash of the latest accepted signature of `signer`, if any. */
  function LatestHash(latest: map<nat, Sig>, signer: nat): Option<nat> {
    if signer in latest then Some(latest[signer].hash) else None
  }

  /** The logs after accepting `s`: it joins the end of its signer's log. */
  ghost function Accept(logs: map<nat, seq<Sig>>, s: Sig): map<nat, seq<Sig>> {
    logs[s.signer := if s.signer in logs then logs[s.signer] + [s] else [s]]
  }

  /** Storing an object under a hash that is new, or that is a block hash
      (never the hash of a signature), keeps every logged signature stored. */
  lemma StoreKeepsLogs(logs: map<nat, seq<Sig>>, latest: map<nat, Sig>, objects: map<nat, Message>, h: nat, m: Message)
    requires LogsKept(logs, latest, objects)
    requires h !in objects || ObjectHashBound <= h
    ensures LogsKept(logs, latest, objects[h := m])
  {
    forall signer | signer in logs ensures LogKept(logs[signer], latest[signer], objects[h := m]) {
      assert LogKept(logs[signer], latest[signer], objects);
      forall k | 0 <= k < |logs[signer]| ensures Stored(objects[h := m], logs[signer][k]) {
        assert Stored(objects, logs[signer][k]);
      }
    }
  }

  /** Accepting a signature that names its signer's latest one (or none,
      for a first signature) and storing it extends that signer's log and
      keeps every log linked, ending at the latest signature, and stored. */
  lemma AcceptKeepsLogs(logs: map<nat, seq<Sig>>, latest: map<nat, Sig>, objects: map<nat, Message>, s: Sig)
    requires LogsKept(logs, latest, objects)
    requires s.hash !in objects && LatestHash(latest, s.signer) == s.prev
    ensures LogsKept(Accept(logs, s), latest[s.signer := s], objects[s.hash := MSig(s)])
  {
    var objects' := objects[s.hash := MSig(s)];
    var logs' := Accept(logs, s);
    var latest' := latest[s.signer := s];
    StoreKeepsLogs(logs, latest, objects, s.hash, MSig(s));
    var log := logs'[s.signer];
    if s.signer in logs {
      assert LogKept(logs[s.signer], latest[s.signer], objects');
    }
    forall k | 0 <= k < |log| ensures Stored(objects', log[k]) {
      if k < |log| - 1 {
        assert log[k] == logs[s.signer][k];
      }
    }
    forall k | 0 < k < |log| ensures log[k].prev == Some(log[k - 1].hash) {
      assert log[k - 1] == logs[s.signer][k - 1];
      if k < |log| - 1 {
        assert log[k] == logs[s.signer][k];
      }
    }
    assert LogKept(log, latest'[s.signer], objects');
    forall signer | signer in logs' ensures LogKept(logs'[signer], latest'[signer], objects') {
      if signer != s.signer {
        assert LogKept(logs[signer], latest[signer], objects');
      }
    }
  }

  /** The walk that answers a `SignatureChildRequest`: from the signer's
      latest signature back along `prev` links through `received_objects`
      until a signature whose `prev` is the requested hash, collecting the
      signatures walked over; nothing when the walk runs off the start of
      the chain. It finds exactly the reply `ChildReply` describes on the
      signer's log. */
  method WalkBack(objects: map<nat, Message>, latest: Option<Sig>, sighash: Option<nat>, ghost log: seq<Sig>) returns (r: Option<seq<Sig>>)
    requires latest.None? ==> log == []
    requires latest.Some? ==> LogKept(log, latest.value, objects)
    ensures r == ChildReply(log, sighash)
  {
    ghost var n: nat := |log|;
    var cur := latest;
    var walked: seq<Sig> := [];
    while cur.Some?
      invariant n <= |log|
      invariant cur.Some? <==> 0 < n
      invariant cur.Some? ==> cur.value == log[n - 1]
      invariant walked == log[n..]
      invariant ReplyStart(log, sighash, |log|) == ReplyStart(log, sighash, n)
      decreases n
    {
      var c := cur.value;
      if c.prev == sighash {
        assert [c] + walked == log[n - 1..];
        return Some([c] + walked);
      }
      walked := [c] + walked;
      if c.prev.Some? {
        assert 1 < n && c.prev == Some(log[n - 2].hash);
        assert Stored(objects, log[n - 2]);
        cur := Some(objects[c.prev.value].sig);
      } else {
        cur := None;
      }
      n := n - 1;
    }
    return None;
  }

  /** `while len(received_signatures) < n: received_signatures.append({})` */
  method Grow(rs: seq<Dict<nat, real>>, n: nat) returns (r: seq<Dict<nat, real>>)
    ensures r == Extend(rs, n)
  {
    ghost var e := Extend(rs, n);
    r := rs;
    while |r| < n
      invariant |rs| <= |r| <= |e|
      invariant forall h :: 0 <= h < |r| ==> r[h] == e[h]
    {
      r := r + [[]];
    }
  }

  /** `received_signatures` after accepting `s`: grown with empty maps to
      one past the signature's last height, then the signer's bet written
      at each height the signature covers. */
  method MergeInto(rs: seq<Dict<nat, real>>, s: Sig) returns (r: seq<Dict<nat, real>>)
    ensures r == MergeBets(rs, s)
  {
    var e := Grow(rs, |s.probs| + SignFrom(s) + 1);
    r := WriteBets(e, SignFrom(s), s.signer, s.probs);
  }

  /** `for i, p in enumerate(probs): rs[i + sf][signer] = p` */
  method WriteBets(e: seq<Dict<nat, real>>, sf: nat, signer: nat, probs: seq<real>) returns (r: seq<Dict<nat, real>>)
    requires sf + |probs| <= |e|
    ensures r == PutBets(e, sf, signer, probs)
  {
    r := e;
    for i := 0 to |probs|
      invariant |r| == |e|
      invariant PutBets(r, sf + i, signer, probs[i..]) == PutBets(e, sf, signer, probs)
    {
      assert probs[i..][1..] == probs[i + 1..];
      r := r[i + sf := Set(r[i + sf], signer, probs[i])];
    }
  }

  class Validator {
    /** `received_signatures`: per height, signer -> latest bet. */
    var receivedSignatures: seq<Dict<nat, real>>
    /** `received_blocks`, indexed by height, None where no block is held. */
    var receivedBlocks: seq<Option<Block>>
    /** Own bets by height. */
    var probs: seq<real>
    /** `received_objects`: every object seen, by hash. */
    var receivedObjects: map<nat, Message>
    var timeReceived: map<nat, real>
    const pos: nat
    var finalizedHashes: seq<Decision>
    /** Finalized states by height; None above the finalized prefix. */
    var states: seq<Option<int>>
    var maxFinalizedHeight: int
    var nextHeight: nat
    var mostRecentSig: Option<Sig>
    /** Latest accepted signature of each signer. */
    var mostRecentSigs: map<nat, Sig>
    /** `default_vote(expected_time, received_time, now)` and `vote(votes)`. */
    const defaultVote: (int, Option<real>, real) -> real
    const vote: seq<real> -> real
    const mint: nat -> nat
    const draw: nat -> real
    var mints: nat
    var draws: nat
    var outbox: seq<Envelope>
    /** Every signature accepted from each signer, oldest first. */
    ghost var logs: map<nat, seq<Sig>>

    /** The validator's fixed parts, as the bet loop uses them. */
    function Strat(): Strategy {
      Strategy(pos, defaultVote, vote, mint, draw)
    }

    /** What the bet loop reads. */
    function Viewed(): View
      reads this
    {
      View(receivedBlocks, timeReceived, receivedSignatures)
    }

    /** What `sign` reads and writes besides the view. */
    function Signing(): Signer
      reads this
    {
      Signer(finalizedHashes, maxFinalizedHeight, states, probs, Sweep(outbox, mints, draws), mostRecentSig)
    }

    /** The bookkeeping `sign` relies on (see `Ready`). */
    ghost predicate SignReady()
      reads this`receivedBlocks, this`finalizedHashes, this`maxFinalizedHeight, this`states, this`probs
    {
      ReadyParts(receivedBlocks, finalizedHashes, maxFinalizedHeight, states, probs)
    }

    /** Every held block has a receive time. */
    ghost predicate BlocksTimed()
      reads this`receivedBlocks, this`timeReceived
    {
      HeldTimed(receivedBlocks, timeReceived)
    }

    /** `next_height` stays in this validator's round-robin slot. */
    ghost predicate InSlot()
      reads this`nextHeight
    {
      nextHeight % NumValidators == pos % NumValidators
    }

    /** Each signer's accepted signatures form a linked log ending at its
        latest signature, each stored under its hash, so that walking
        `prev` links through `received_objects` always finds the
        signatures. */
    ghost predicate LogsValid()
      reads this`logs, this`mostRecentSigs, this`receivedObjects
    {
      LogsKept(logs, mostRecentSigs, receivedObjects)
    }

    ghost predicate Valid()
      reads this
    {
      SignReady() && BlocksTimed() && InSlot() && LogsValid()
    }

    constructor(pos: nat, defaultVote: (int, Option<real>, real) -> real, vote: seq<real> -> real, mint: nat -> nat, draw: nat -> real)
      ensures Valid()
      ensures this.pos == pos && this.defaultVote == defaultVote && this.vote == vote && this.mint == mint && this.draw == draw
      ensures receivedSignatures == [] && receivedBlocks == [] && probs == [] && states == [] && finalizedHashes == []
      ensures receivedObjects == map[] && timeReceived == map[] && mostRecentSigs == map[] && mostRecentSig == None
      ensures maxFinalizedHeight == -1 && nextHeight == pos && outbox == [] && mints == 0 && draws == 0
    {
      this.pos := pos;
      this.defaultVote := defaultVote;
      this.vote := vote;
      this.mint := mint;
      this.draw := draw;
      receivedSignatures := [];
      receivedBlocks := [];
      probs := [];
      receivedObjects := map[];
      timeReceived := map[];
      finalizedHashes := [];
      states := [];
      maxFinalizedHeight := -1;
      nextHeight := pos;
      mostRecentSig := None;
      mostRecentSigs := map[];
      mints := 0;
      draws := 0;
      outbox := [];
      logs := map[];
    }

    /** `sign`: the new signature, or `Failure(h)` where the source raises
        at height `h`; the new state is the one `Signed` describes. */
    method Sign(now: real) returns (r: Result<Sig, nat>)
      requires Valid() && 0 < |receivedBlocks|
      modifies this`finalizedHashes, this`maxFinalizedHeight, this`states, this`probs, this`outbox, this`mints, this`draws, this`mostRecentSig
      ensures Valid()
      ensures (r, Signing()) == Signed(Strat(), old(Viewed()), old(Signing()), now)
    {
      var st;
      r, st := SignStep(Strat(), Viewed(), Signing(), now);
      Commit(st);
    }

    /** Writes the state `sign` computed back into the fields. */
    method Commit(st: Signer)
      requires Valid() && Ready(receivedBlocks, st)
      modifies this`finalizedHashes, this`maxFinalizedHeight, this`states, this`probs, this`outbox, this`mints, this`draws, this`mostRecentSig
      ensures Valid() && Signing() == st
    {
      Finalize(st.fh, st.mfh, st.states, st.probs);
      outbox, mints, draws, mostRecentSig := st.out.outbox, st.out.mints, st.out.draws, st.latest;
    }

    /** Writes the finality bookkeeping and own bets `sign` computed. */
    method Finalize(fh: seq<Decision>, mfh: int, states: seq<Option<int>>, probs: seq<real>)
      requires ReadyParts(receivedBlocks, fh, mfh, states, probs)
      modifies this`finalizedHashes, this`maxFinalizedHeight, this`states, this`probs
      ensures SignReady()
      ensures finalizedHashes == fh && maxFinalizedHeight == mfh && this.states == states && this.probs == probs
    {
      finalizedHashes, maxFinalizedHeight, this.states, this.probs := fh, mfh, states, probs;
    }

    /** `while len(received_blocks) <= height: received_blocks.append(None);
        states.append(None)`, then the block stored at its height. */
    method StoreBlock(b: Block, now: real)
      requires Valid()
      modifies this`receivedBlocks, this`states, this`timeReceived
      ensures Valid()
      ensures |receivedBlocks| == if b.height < old(|receivedBlocks|) then old(|receivedBlocks|) else b.height + 1
      ensures receivedBlocks[b.height] == Some(b)
      ensures forall h :: 0 <= h < |receivedBlocks| && h != b.height ==>
        receivedBlocks[h] == if h < old(|receivedBlocks|) then old(receivedBlocks[h]) else None
      ensures |states| == |receivedBlocks|
      ensures forall h :: 0 <= h < |states| ==> states[h] == if h < old(|states|) then old(states[h]) else None
      ensures timeReceived == old(timeReceived)[b.hash := now]
    {
      while |receivedBlocks| <= b.height
        invariant SignReady() && BlocksTimed()
        invariant old(|receivedBlocks|) <= |receivedBlocks| <= if b.height < old(|receivedBlocks|) then old(|receivedBlocks|) else b.height + 1
        invariant forall h :: 0 <= h < |receivedBlocks| ==> receivedBlocks[h] == if h < old(|receivedBlocks|) then old(receivedBlocks[h]) else None
        invariant forall h :: 0 <= h < |states| ==> states[h] == if h < old(|states|) then old(states[h]) else None
        invariant timeReceived == old(timeReceived)
      {
        receivedBlocks := receivedBlocks + [None];
        states := states + [None];
      }
      receivedBlocks := receivedBlocks[b.height := Some(b)];
      timeReceived := timeReceived[b.hash := now];
    }

    /** `on_receive` of a signature not seen before: accepted exactly when
        its `prev` is the hash of the signer's latest accepted signature;
        then its bets are merged, it is rebroadcast and becomes the signer's
        latest, and it is stored. Otherwise nothing is merged or stored and
        a `SignatureChildRequest` for the gap is broadcast. */
    method ReceiveSignature(s: Sig, now: real)
      requires Valid() && s.hash !in receivedObjects
      modifies this`receivedSignatures, this`outbox, this`mostRecentSigs, this`receivedObjects, this`timeReceived, this`mints, this`logs
      ensures Valid()
      ensures var latest := LatestHash(old(mostRecentSigs), s.signer);
        if latest == s.prev then
          && receivedSignatures == MergeBets(old(receivedSignatures), s)
          && outbox == old(outbox) + [Broadcast(MSig(s))]
          && mostRecentSigs == old(mostRecentSigs)[s.signer := s]
          && receivedObjects == old(receivedObjects)[s.hash := MSig(s)]
          && timeReceived == old(timeReceived)[s.hash := now]
          && mints == old(mints)
        else
          var ht := if s.signer in old(mostRecentSigs) then Some((old(mostRecentSigs)[s.signer].seqNo, old(mostRecentSigs)[s.signer].prev)) else None;
          && receivedSignatures == old(receivedSignatures)
          && outbox == old(outbox) + [Broadcast(MChildRequest(pos, latest, s.signer, ht, ObjectHash(mint(old(mints)))))]
          && mostRecentSigs == old(mostRecentSigs)
          && receivedObjects == old(receivedObjects)
          && timeReceived == old(timeReceived)
          && mints == old(mints) + 1
    {
      if LatestHash(mostRecentSigs, s.signer) == s.prev {
        AcceptSignature(s, now);
      } else {
        RequestGap(s);
      }
    }

    /** A signature that continues its signer's chain: merge its bets,
        rebroadcast it, make it the signer's latest, and store it. */
    method AcceptSignature(s: Sig, now: real)
      requires BlocksTimed() && LogsValid() && s.hash !in receivedObjects && LatestHash(mostRecentSigs, s.signer) == s.prev
      modifies this`receivedSignatures, this`outbox, this`mostRecentSigs, this`receivedObjects, this`timeReceived, this`logs
      ensures BlocksTimed() && LogsValid()
      ensures receivedSignatures == MergeBets(old(receivedSignatures), s)
      ensures outbox == old(outbox) + [Broadcast(MSig(s))]
      ensures mostRecentSigs == old(mostRecentSigs)[s.signer := s]
      ensures receivedObjects == old(receivedObjects)[s.hash := MSig(s)]
      ensures timeReceived == old(timeReceived)[s.hash := now]
    {
      var merged := MergeInto(receivedSignatures, s);
      Chain(s);
      Stamp(s.hash, now);
      receivedSignatures, outbox := merged, outbox + [Broadcast(MSig(s))];
    }

    /** Makes an accepted signature its signer's latest and stores it. */
    method Chain(s: Sig)
      requires LogsValid() && s.hash !in receivedObjects && LatestHash(mostRecentSigs, s.signer) == s.prev
      modifies this`mostRecentSigs, this`receivedObjects, this`logs
      ensures LogsValid()
      ensures mostRecentSigs == old(mostRecentSigs)[s.signer := s]
      ensures receivedObjects == old(receivedObjects)[s.hash := MSig(s)]
    {
      AcceptKeepsLogs(logs, mostRecentSigs, receivedObjects, s);
      logs, mostRecentSigs, receivedObjects := Accept(logs, s), mostRecentSigs[s.signer := s], receivedObjects[s.hash := MSig(s)];
    }

    /** `time_received[h] = now` */
    method Stamp(h: nat, now: real)
      requires BlocksTimed()
      modifies this`timeReceived
      ensures BlocksTimed()
      ensures timeReceived == old(timeReceived)[h := now]
    {
      timeReceived := timeReceived[h := now];
    }

    /** A signature that does not continue its signer's chain: broadcast a
        `SignatureChildRequest` naming the signer's latest hash (and its
        sequence number and predecessor, if any), and change nothing else. */
    method RequestGap(s: Sig)
      modifies this`outbox, this`mints
      ensures var latest := LatestHash(mostRecentSigs, s.signer);
        var ht := if s.signer in mostRecentSigs then Some((mostRecentSigs[s.signer].seqNo, mostRecentSigs[s.signer].prev)) else None;
        outbox == old(outbox) + [Broadcast(MChildRequest(pos, latest, s.signer, ht, ObjectHash(mint(old(mints)))))]
      ensures mints == old(mints) + 1
    {
      var ht := if s.signer in mostRecentSigs then Some((mostRecentSigs[s.signer].seqNo, mostRecentSigs[s.signer].prev)) else None;
      outbox, mints := outbox + [Broadcast(MChildRequest(pos, LatestHash(mostRecentSigs, s.signer), s.signer, ht, ObjectHash(mint(mints))))], mints + 1;
    }

    /** `on_receive` of a `SignatureChildRequest`: walk back from the
        signer's latest signature along `prev` links through
        `received_objects` until a signature whose `prev` is the requested
        hash, and send the signatures walked over, oldest first; send
        nothing when the walk runs off the start of the chain. */
    method AnswerChildRequest(sender: nat, sighash: Option<nat>, signer: nat)
      requires LogsValid()
      modifies this`outbox
      ensures var log := if signer in logs then logs[signer] else [];
        outbox == old(outbox) + match ChildReply(log, sighash) case Some(r) => [Direct(sender, MBatch(r))] case None => []
    {
      ghost var log := if signer in logs then logs[signer] else [];
      if signer in logs {
        assert LogKept(logs[signer], mostRecentSigs[signer], receivedObjects);
      }
      var latest := if signer in mostRecentSigs then Some(mostRecentSigs[signer]) else None;
      var r := WalkBack(receivedObjects, latest, sighash, log);
      if r.Some? {
        outbox := outbox + [Direct(sender, MBatch(r.value))];
      }
    }

    /** `on_receive` of a `BlockRequest`: send the block held at the asked
        height back to the sender, and nothing when no block is held there. */
    method AnswerBlockRequest(sender: nat, height: nat)
      modifies this`outbox
      ensures outbox == old(outbox) +
        if height < |receivedBlocks| && receivedBlocks[height].Some? then [Direct(sender, MBlock(receivedBlocks[height].value))] else []
    {
      if height < |receivedBlocks| && receivedBlocks[height].Some? {
        outbox := outbox + [Direct(sender, MBlock(receivedBlocks[height].value))];
      }
    }

    /** `on_receive` of a block not seen before: store it at its height
        with its receive time, sign, and on success announce the new
        signature and the block. `Some(h)` when `sign` raises at height
        `h`. */
    method ReceiveBlock(b: Block, now: real) returns (crash: Option<nat>)
      requires Valid() && b.hash !in receivedObjects
      modifies this
      ensures Valid()
      ensures b.height < |receivedBlocks| && receivedBlocks[b.height] == Some(b)
      ensures crash.None? ==> b.hash in receivedObjects && receivedObjects[b.hash] == MBlock(b)
    {
      StoreBlock(b, now);
      var r := Sign(now);
      if r.Failure? {
        return Some(r.error);
      }
      Announce(r.value, b, now);
      crash := None;
    }

    /** The rest of `on_receive` of a block once `sign` succeeded: broadcast
        the new signature and receive it as any other, then rebroadcast the
        block and store it. */
    method Announce(s: Sig, b: Block, now: real)
      requires Valid()
      modifies this`receivedSignatures, this`outbox, this`mostRecentSigs, this`receivedObjects, this`timeReceived, this`mints, this`logs
      ensures Valid()
      ensures b.hash in receivedObjects && receivedObjects[b.hash] == MBlock(b)
      ensures 0 < |outbox| && outbox[|outbox| - 1] == Broadcast(MBlock(b))
    {
      outbox := outbox + [Broadcast(MSig(s))];
      if s.hash !in receivedObjects {
        ReceiveSignature(s, now);
      }
      Relay(b, now);
    }

    /** Rebroadcasts a block and stores it with its receive time. */
    method Relay(b: Block, now: real)
      requires BlocksTimed() && LogsValid()
      modifies this`outbox, this`receivedObjects, this`timeReceived
      ensures BlocksTimed() && LogsValid()
      ensures receivedObjects == old(receivedObjects)[b.hash := MBlock(b)]
      ensures outbox == old(outbox) + [Broadcast(MBlock(b))]
    {
      outbox := outbox + [Broadcast(MBlock(b))];
      BlockHashDeterminesHeight(b, b);
      Keep(b.hash, MBlock(b), now);
    }

    /** `received_objects[h] = m; time_received[h] = now` for an object
        that is not a signature. */
    method Keep(h: nat, m: Message, now: real)
      requires BlocksTimed() && LogsValid() && (h !in receivedObjects || ObjectHashBound <= h)
      modifies this`receivedObjects, this`timeReceived
      ensures BlocksTimed() && LogsValid()
      ensures receivedObjects == old(receivedObjects)[h := m]
      ensures timeReceived == old(timeReceived)[h := now]
    {
      Remember(h, m);
      Stamp(h, now);
    }

    /** `on_receive`: a list is received element by element; an object
        whose hash is known changes nothing; otherwise the object is handled
        by kind, and stored with its receive time unless it is a signature
        that does not continue its signer's chain. */
    method OnReceive(m: Message, now: real) returns (crash: Option<nat>)
      requires Valid()
      modifies this
      ensures Valid()
      ensures !m.MBatch? && old(m.Hash() in receivedObjects) ==> unchanged(this) && crash.None?
    {
      crash := None;
      match m {
        case MBatch(sigs) =>
          for i := 0 to |sigs|
            invariant Valid()
          {
            if sigs[i].hash !in receivedObjects {
              ReceiveSignature(sigs[i], now);
            }
          }
        case MBlock(b) =>
          if b.hash !in receivedObjects {
            crash := ReceiveBlock(b, now);
          }
        case MSig(s) =>
          if s.hash !in receivedObjects {
            ReceiveSignature(s, now);
          }
        case MChildRequest(sender, sighash, signer, _, h) =>
          if h !in receivedObjects {
            AnswerChildRequest(sender, sighash, signer);
            Keep(h, m, now);
          }
        case MBlockRequest(sender, height, h) =>
          if h !in receivedObjects {
            AnswerBlockRequest(sender, height);
            Keep(h, m, now);
          }
      }
    }

    /** `tick`: once local time reaches `BLKTIME * next_height`, make the
        block for that height, move `next_height` on by `NUM_VALIDATORS`,
        broadcast the block with probability 0.9, and store it locally
        whether or not it was broadcast. */
    method Tick(now: real) returns (o: Option<Block>)
      requires Valid()
      modifies this`nextHeight, this`mints, this`draws, this`outbox, this`receivedBlocks, this`states, this`receivedObjects, this`timeReceived
      ensures Valid()
      ensures o.Some? <==> (BlkTime * old(nextHeight)) as real <= now
      ensures o.None? ==> unchanged(this)
      ensures o.Some? ==>
        && o.value == MakeBlock(pos, old(nextHeight), mint(old(mints)))
        && o.value.height % NumValidators == pos % NumValidators
        && nextHeight == old(nextHeight) + NumValidators
        && |receivedBlocks| == (if o.value.height < old(|receivedBlocks|) then old(|receivedBlocks|) else o.value.height + 1)
        && receivedBlocks[o.value.height] == Some(o.value)
        && (forall h :: 0 <= h < |receivedBlocks| && h != o.value.height ==>
              receivedBlocks[h] == if h < old(|receivedBlocks|) then old(receivedBlocks[h]) else None)
        && |states| == |receivedBlocks|
        && (forall h :: 0 <= h < |states| ==> states[h] == if h < old(|states|) then old(states[h]) else None)
        && receivedObjects == old(receivedObjects)[o.value.hash := MBlock(o.value)]
        && timeReceived == old(timeReceived)[o.value.hash := now]
        && mints == old(mints) + 1 && draws == old(draws) + 1
        && outbox == old(outbox) + (if draw(old(draws)) < BroadcastSuccessRate then [Broadcast(MBlock(o.value))] else [])
    {
      if now < (BlkTime * nextHeight) as real {
        return None;
      }
      var b := MakeNext();
      StoreBlock(b, now);
      BlockHashDeterminesHeight(b, b);
      Remember(b.hash, MBlock(b));
      o := Some(b);
    }

    /** The block for `next_height`, made and broadcast with probability
        0.9; `next_height` moves on by `NUM_VALIDATORS`. */
    method MakeNext() returns (b: Block)
      requires InSlot()
      modifies this`nextHeight, this`mints, this`draws, this`outbox
      ensures InSlot()
      ensures b == MakeBlock(pos, old(nextHeight), mint(old(mints)))
      ensures nextHeight == old(nextHeight) + NumValidators
      ensures mints == old(mints) + 1 && draws == old(draws) + 1
      ensures outbox == old(outbox) + (if draw(old(draws)) < BroadcastSuccessRate then [Broadcast(MBlock(b))] else [])
    {
      b := MakeBlock(pos, nextHeight, mint(mints));
      var coin := draw(draws);
      nextHeight, mints, draws := nextHeight + NumValidators, mints + 1, draws + 1;
      if coin < BroadcastSuccessRate {
        outbox := outbox + [Broadcast(MBlock(b))];
      }
    }

    /** `received_objects[h] = m` for an object that is not a signature. */
    method Remember(h: nat, m: Message)
      requires LogsValid() && (h !in receivedObjects || ObjectHashBound <= h)
      modifies this`receivedObjects
      ensures LogsValid()
      ensures receivedObjects == old(receivedObjects)[h := m]
    {
      StoreKeepsLogs(logs, mostRecentSigs, receivedObjects, h, m);
      receivedObjects := receivedObjects[h := m];
    }
  }
}
