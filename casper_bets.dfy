/** The bet loop of `Validator.sign` in casper/casper.py, as functions of
    what the loop reads: the validator's blocks, their receive times and the
    bets received from the others. What one height contributes (its bet,
    verdict and whether `sign` raises there) depends on the view alone and
    is its `Tally`; what the loop writes is the folds `BetsOf`, `Decisions`
    and `Requests` over the tallies of the heights it covers. The loop itself
    computes the window's tallies (`ComputeTallies`) and
    then writes them out up to the first crash (`ApplyTallies`). */
module CasperBets {
  import opened Wrappers
  import opened Dicts
  import opened Sorting
  import opened CasperTypes

  /** A validator's fixed parts: its position, its two voting strategies
      (`default_vote(expected_time, received_time, now)` and `vote(votes)`),
      and the two random streams (object hashes and coin flips). */
  datatype Strategy = Strategy(
    pos: nat,
    defaultVote: (int, Option<real>, real) -> real,
    vote: seq<real> -> real,
    mint: nat -> nat,
    draw: nat -> real)

  /** What the bet loop reads: `received_blocks`, `time_received` and
      `received_signatures`. */
  datatype View = View(blocks: seq<Option<Block>>, timeReceived: map<nat, real>, signatures: seq<Dict<nat, real>>)

  /** Held blocks have a receive time. */
  predicate Timed(v: View) {
    HeldTimed(v.blocks, v.timeReceived)
  }

  predicate HeldTimed(blocks: seq<Option<Block>>, timeReceived: map<nat, real>) {
    forall h :: 0 <= h < |blocks| && blocks[h].Some? ==> blocks[h].value.hash in timeReceived
  }

  type TimedView = v: View | Timed(v) witness View([], map[], [])

  /** When the block at height `i` was received, if it is held. */
  function ReceivedTime(v: TimedView, i: nat): (t: Option<real>)
    requires i < |v.blocks|
    ensures t.Some? <==> v.blocks[i].Some?
    ensures t.Some? ==> t.value == v.timeReceived[v.blocks[i].value.hash]
  {
    if v.blocks[i].Some? then Some(v.timeReceived[v.blocks[i].value.hash]) else None
  }

  /** `my_opinion`: the validator's own initial vote on height `i`, from when
      the block should have come (`BLKTIME * i`) and when it did. */
  function Opinion(s: Strategy, v: TimedView, i: nat, now: real): real
    requires i < |v.blocks|
  {
    s.defaultVote(BlkTime * i, ReceivedTime(v, i), now)
  }

  /** The bets received for height `i`. */
  function Received(v: View, i: nat): seq<real> {
    if i < |v.signatures| then Values(v.signatures[i]) else []
  }

  /** `vote_from_signatures`: the strategy applied to the others' non-zero
      bets, filled up with the own opinion. */
  function Aggregate(s: Strategy, v: TimedView, i: nat, now: real): real
    requires i < |v.blocks|
  {
    s.vote(Ballot(Received(v, i), Opinion(s, v, i, now)))
  }

  /** `best_guesses[i]`: the aggregate, capped at 1 when the block is held
      and at the own opinion while it is not. */
  function Bet(s: Strategy, v: TimedView, i: nat, now: real): real
    requires i < |v.blocks|
  {
    Min(Aggregate(s, v, i, now), if v.blocks[i].Some? then 1.0 else Opinion(s, v, i, now))
  }

  /** The bet is the aggregate, capped at 1 when the block is held and at
      the own opinion while it is not. */
  lemma BetCap(s: Strategy, v: TimedView, i: nat, now: real)
    requires i < |v.blocks|
    ensures var bg := Bet(s, v, i, now);
      && bg <= Aggregate(s, v, i, now)
      && (v.blocks[i].Some? ==> bg <= 1.0 && (bg == Aggregate(s, v, i, now) || bg == 1.0))
      && (v.blocks[i].None? ==> bg <= Opinion(s, v, i, now) && (bg == Aggregate(s, v, i, now) || bg == Opinion(s, v, i, now)))
  {
  }

  /** The decision written for height `i`, if any: the block's hash at a bet
      of at least 1 - ε, absence at a bet of at most ε. */
  function Verdict(s: Strategy, v: TimedView, i: nat, now: real): Option<Decision>
    requires i < |v.blocks|
  {
    var bg := Bet(s, v, i, now);
    if 1.0 - FinalityThreshold <= bg then
      if v.blocks[i].Some? then Some(Present(v.blocks[i].value.hash)) else None
    else if bg <= FinalityThreshold then Some(Absent)
    else None
  }

  /** A height is decided absent exactly at a bet of at most ε, and decided
      for its block exactly when that block is held and the bet is at least
      1 - ε; a verdict is never "undecided". */
  lemma VerdictThresholds(s: Strategy, v: TimedView, i: nat, now: real)
    requires i < |v.blocks|
    ensures var d := Verdict(s, v, i, now);
      && (d == Some(Absent) <==> Bet(s, v, i, now) <= FinalityThreshold)
      && (d.Some? && d.value.Present? <==> 1.0 - FinalityThreshold <= Bet(s, v, i, now) && v.blocks[i].Some?)
      && (d.Some? && d.value.Present? ==> d.value.hash == v.blocks[i].value.hash)
      && d != Some(Undecided)
  {
  }

  /** Where `sign` raises: finality of a block that is not held. */
  predicate Crashes(s: Strategy, v: TimedView, i: nat, now: real)
    requires i < |v.blocks|
  {
    1.0 - FinalityThreshold <= Bet(s, v, i, now) && v.blocks[i].None?
  }

  /** What height `i` contributes to the bet loop: its bet, whether its
      block is held, whether the others bet on it above 0.9, whether it lies
      more than 50 heights below the top, the verdict reached on it, and
      whether `sign` raises there. */
  datatype Tally = Tally(bet: real, held: bool, urgent: bool, far: bool, verdict: Option<Decision>, crash: bool)

  function TallyOf(s: Strategy, v: TimedView, i: nat, now: real): Tally
    requires i < |v.blocks|
  {
    Tally(Bet(s, v, i, now), v.blocks[i].Some?, 0.9 < Aggregate(s, v, i, now), i + 50 < |v.blocks|,
          Verdict(s, v, i, now), Crashes(s, v, i, now))
  }

  /** The tallies of heights `sf .. stop - 1`, in order. */
  function Tallies(s: Strategy, v: TimedView, sf: nat, stop: nat, now: real): (ts: seq<Tally>)
    requires sf <= stop <= |v.blocks|
    ensures |ts| == stop - sf
    decreases stop - sf
  {
    if stop == sf then [] else Tallies(s, v, sf, stop - 1, now) + [TallyOf(s, v, stop - 1, now)]
  }

  /** Entry `k` of the tallies from `sf` is the tally of height `sf + k`. */
  lemma {:induction false} TallyAt(s: Strategy, v: TimedView, sf: nat, stop: nat, now: real, k: nat)
    requires sf <= stop <= |v.blocks| && k < stop - sf
    ensures Tallies(s, v, sf, stop, now)[k] == TallyOf(s, v, sf + k, now)
    decreases stop - sf
  {
    if k < stop - sf - 1 {
      TallyAt(s, v, sf, stop - 1, now, k);
    }
  }

  /** The first position whose height makes `sign` raise, or `|ts|` when
      none does: the bet loop covers the tallies up to and including it. */
  function FirstCrash(ts: seq<Tally>): (k: nat)
    ensures k <= |ts|
  {
    if ts == [] then 0
    else if ts[0].crash then 0
    else 1 + FirstCrash(ts[1..])
  }

  /** The first crash is where `sign` raises: no earlier position crashes. */
  lemma {:induction false} FirstCrashFirst(ts: seq<Tally>)
    ensures var k := FirstCrash(ts);
      && (k < |ts| ==> ts[k].crash)
      && forall j :: 0 <= j < k ==> !ts[j].crash
  {
    if ts != [] && !ts[0].crash {
      FirstCrashFirst(ts[1..]);
      forall j | 0 <= j < FirstCrash(ts) ensures !ts[j].crash {
        if 0 < j {
          assert ts[j] == ts[1..][j - 1];
        }
      }
    }
  }

  /** The first crash is at `j` exactly when no position before `j`
      crashes and `j` does (or `j` is the end). */
  lemma {:induction false} FirstCrashIs(ts: seq<Tally>, j: nat)
    requires j <= |ts|
    requires forall m :: 0 <= m < j ==> !ts[m].crash
    requires j < |ts| ==> ts[j].crash
    ensures FirstCrash(ts) == j
  {
    if j > 0 {
      FirstCrashIs(ts[1..], j - 1);
    }
  }

  /** A `BlockRequest` for height `i` broadcast. */
  function Request(s: Strategy, i: nat, st: Sweep): Sweep {
    Sweep(st.outbox + [Broadcast(MBlockRequest(s.pos, i, ObjectHash(s.mint(st.mints))))], st.mints + 1, st.draws)
  }

  /** The block-request part of one iteration: a missing block is requested
      when the others bet on it above 0.9, and, more than 50 heights below
      the top, with probability 0.05. */
  function Requested(s: Strategy, i: nat, t: Tally, st: Sweep): Sweep {
    if t.held then st
    else if t.urgent then Request(s, i, st)
    else if t.far then
      (if s.draw(st.draws) < 0.05 then Request(s, i, st.(draws := st.draws + 1)) else st.(draws := st.draws + 1))
    else st
  }

  /** One iteration appends at most one message, a request for its own
      height when the block is missing, and appends it whenever the others
      bet on the missing block above 0.9. */
  lemma RequestedAppends(s: Strategy, i: nat, t: Tally, st: Sweep)
    ensures var r := Requested(s, i, t, st);
      && |st.outbox| <= |r.outbox| <= |st.outbox| + 1
      && (forall k :: 0 <= k < |st.outbox| ==> r.outbox[k] == st.outbox[k])
      && (|r.outbox| == |st.outbox| + 1 ==>
        && !t.held
        && r.outbox[|st.outbox|] == Broadcast(MBlockRequest(s.pos, i, ObjectHash(s.mint(st.mints)))))
      && (!t.held && t.urgent ==> |r.outbox| == |st.outbox| + 1)
  {
  }

  /** The block requests of the bet loop over the heights from `sf` on
      whose tallies are `ts`. */
  function Requests(s: Strategy, sf: nat, ts: seq<Tally>, st: Sweep): Sweep
    decreases |ts|
  {
    if ts == [] then st
    else Requested(s, sf + |ts| - 1, ts[|ts| - 1], Requests(s, sf, ts[..|ts| - 1], st))
  }

  /** The finality part of one iteration: when a verdict is reached, the
      list is padded up to height `i` and the verdict written there; where
      the bet says final but the block is missing, the list is padded before
      `sign` raises. */
  function Decided(fh: seq<Decision>, i: nat, t: Tally): seq<Decision> {
    if t.verdict.Some? then Pad(fh, i + 1)[i := t.verdict.value]
    else if t.crash then Pad(fh, i + 1)
    else fh
  }

  /** One iteration writes the verdict at its own height, padding the list
      with undecided entries up to there, and changes nothing else. */
  lemma DecidedWrites(fh: seq<Decision>, i: nat, t: Tally)
    ensures var r := Decided(fh, i, t);
      && |fh| <= |r| && (|r| == |fh| || |r| == i + 1)
      && (t.verdict.Some? ==> i < |r|)
      && forall j :: 0 <= j < |r| ==>
        r[j] == if j == i && t.verdict.Some? then t.verdict.value
                else if j < |fh| then fh[j]
                else Undecided
  {
    PadKeeps(fh, i + 1);
  }

  /** `finalized_hashes` after the bet loop over the heights from `sf` on
      whose tallies are `ts`. */
  function Decisions(sf: nat, ts: seq<Tally>, fh: seq<Decision>): (r: seq<Decision>)
    ensures |fh| <= |r| && (|r| == |fh| || |r| <= sf + |ts|)
    decreases |ts|
  {
    if ts == [] then fh
    else Decided(Decisions(sf, ts[..|ts| - 1], fh), sf + |ts| - 1, ts[|ts| - 1])
  }

  /** What the bet loop over the heights from `sf` on, whose tallies are
      `ts`, leaves at height `j`: the verdict of that height if it got one,
      else the old entry, else an undecided padding entry. */
  function WrittenAt(sf: nat, ts: seq<Tally>, fh: seq<Decision>, j: nat): Decision {
    if sf <= j < sf + |ts| && ts[j - sf].verdict.Some? then ts[j - sf].verdict.value
    else if j < |fh| then fh[j]
    else Undecided
  }

  /** The bet loop writes the verdict of each height it covers and leaves
      every other entry of `finalized_hashes` as it was (padding with
      undecided entries where the list grows). */
  lemma {:induction false} DecisionsWriteVerdicts(sf: nat, ts: seq<Tally>, fh: seq<Decision>)
    ensures forall j :: 0 <= j < |Decisions(sf, ts, fh)| ==> Decisions(sf, ts, fh)[j] == WrittenAt(sf, ts, fh, j)
    decreases |ts|
  {
    if ts != [] {
      var ts' := ts[..|ts| - 1];
      DecisionsWriteVerdicts(sf, ts', fh);
      DecisionsCoverVerdicts(sf, ts', fh);
      var p := Decisions(sf, ts', fh);
      var r := Decided(p, sf + |ts'|, ts[|ts'|]);
      assert r == Decisions(sf, ts, fh);
      DecidedWrites(p, sf + |ts'|, ts[|ts'|]);
      forall j | 0 <= j < |r| ensures r[j] == WrittenAt(sf, ts, fh, j) {
        if j < |p| {
          assert p[j] == WrittenAt(sf, ts', fh, j);
        }
        if sf <= j < sf + |ts'| {
          assert ts[j - sf] == ts'[j - sf];
        }
      }
    }
  }

  /** Every height of the window that got a verdict is inside the list. */
  lemma {:induction false} DecisionsCoverVerdicts(sf: nat, ts: seq<Tally>, fh: seq<Decision>)
    ensures forall k :: 0 <= k < |ts| && ts[k].verdict.Some? ==> sf + k < |Decisions(sf, ts, fh)|
    decreases |ts|
  {
    if ts != [] {
      var ts' := ts[..|ts| - 1];
      DecisionsCoverVerdicts(sf, ts', fh);
      forall k | 0 <= k < |ts| && ts[k].verdict.Some? ensures sf + k < |Decisions(sf, ts, fh)| {
        if k < |ts'| {
          assert ts[k] == ts'[k];
        }
      }
    }
  }

  /** `e` is a request, by validator `pos`, for a height in `sf .. sf + |ts| - 1`
      whose block is not held. */
  predicate RequestsMissing(s: Strategy, sf: nat, ts: seq<Tally>, e: Envelope) {
    && e.Broadcast? && e.msg.MBlockRequest? && e.msg.sender == s.pos
    && sf <= e.msg.askHeight < sf + |ts| && !ts[e.msg.askHeight - sf].held
  }

  /** Some message from position `from` of `outbox` on asks for height `j`. */
  predicate Asked(outbox: seq<Envelope>, from: nat, j: nat) {
    exists k :: from <= k < |outbox| && outbox[k].msg.MBlockRequest? && outbox[k].msg.askHeight == j
  }

  /** The bet loop only appends to the outbox, and only requests blocks
      that are not held, in the window. */
  lemma {:induction false} RequestsOnlyMissing(s: Strategy, sf: nat, ts: seq<Tally>, st: Sweep)
    ensures var r := Requests(s, sf, ts, st);
      && |st.outbox| <= |r.outbox|
      && (forall k :: 0 <= k < |st.outbox| ==> r.outbox[k] == st.outbox[k])
      && (forall k :: |st.outbox| <= k < |r.outbox| ==> RequestsMissing(s, sf, ts, r.outbox[k]))
    decreases |ts|
  {
    if ts != [] {
      var ts' := ts[..|ts| - 1];
      RequestsOnlyMissing(s, sf, ts', st);
      var p := Requests(s, sf, ts', st);
      var r := Requested(s, sf + |ts'|, ts[|ts'|], p);
      forall k | |st.outbox| <= k < |r.outbox|
        ensures RequestsMissing(s, sf, ts, r.outbox[k])
      {
        if k < |p.outbox| {
          assert r.outbox[k] == p.outbox[k];
          assert RequestsMissing(s, sf, ts', p.outbox[k]);
          assert ts[p.outbox[k].msg.askHeight - sf] == ts'[p.outbox[k].msg.askHeight - sf];
        }
      }
    }
  }

  /** The bet loop requests every missing block of the window that the
      others bet on above 0.9. */
  lemma {:induction false} RequestsAskForMissing(s: Strategy, sf: nat, ts: seq<Tally>, st: Sweep)
    ensures var r := Requests(s, sf, ts, st);
      forall k :: 0 <= k < |ts| && !ts[k].held && ts[k].urgent ==> Asked(r.outbox, |st.outbox|, sf + k)
    decreases |ts|
  {
    if ts != [] {
      var ts' := ts[..|ts| - 1];
      RequestsAskForMissing(s, sf, ts', st);
      RequestsOnlyMissing(s, sf, ts', st);
      var p := Requests(s, sf, ts', st);
      var r := Requested(s, sf + |ts'|, ts[|ts'|], p);
      forall k | 0 <= k < |ts| && !ts[k].held && ts[k].urgent
        ensures Asked(r.outbox, |st.outbox|, sf + k)
      {
        if k < |ts'| {
          assert ts[k] == ts'[k];
          var m :| |st.outbox| <= m < |p.outbox| && p.outbox[m].msg.MBlockRequest? && p.outbox[m].msg.askHeight == sf + k;
          assert r.outbox[m] == p.outbox[m];
        } else {
          assert r.outbox[|p.outbox|].msg.askHeight == sf + k;
        }
      }
    }
  }

  // ---------------------------------------------------------------
  // The bet loop of `sign`, step by step

  /** `while len(finalized_hashes) <= i: finalized_hashes.append(None)` */
  method PadFinalized(fh: seq<Decision>, n: nat) returns (r: seq<Decision>)
    ensures r == Pad(fh, n)
  {
    r := fh;
    while |r| < n
      invariant r == Pad(fh, |r|)
      invariant |fh| <= |r|
      invariant |r| <= n || r == fh
    {
      r := r + [Undecided];
    }
  }

  /** The bet part of one iteration: the own opinion from the receive time,
      the others' non-zero bets filled up with it, the strategy's vote on
      those, and the bet capped by the opinion while the block is missing;
      then the verdict the bet reaches. */
  method TallyFor(s: Strategy, v: TimedView, i: nat, now: real) returns (t: Tally)
    requires i < |v.blocks|
    ensures t == TallyOf(s, v, i, now)
  {
    var received := if v.blocks[i].Some? then Some(v.timeReceived[v.blocks[i].value.hash]) else None;
    var myOpinion := s.defaultVote(BlkTime * i, received, now);
    var votes := if i < |v.signatures| then Values(v.signatures[i]) else [];
    var fromSignatures := s.vote(Ballot(votes, myOpinion));
    var bg := Min(fromSignatures, if v.blocks[i].Some? then 1.0 else myOpinion);
    var verdict := None;
    var crash := false;
    if 1.0 - FinalityThreshold <= bg {
      if v.blocks[i].Some? {
        verdict := Some(Present(v.blocks[i].value.hash));
      } else {
        crash := true;
      }
    } else if bg <= FinalityThreshold {
      verdict := Some(Absent);
    }
    t := Tally(bg, v.blocks[i].Some?, 0.9 < fromSignatures, i + 50 < |v.blocks|, verdict, crash);
  }

  /** The tallies of every height from `sf` to the top. */
  method ComputeTallies(s: Strategy, v: TimedView, sf: nat, now: real) returns (ts: seq<Tally>)
    requires sf <= |v.blocks|
    ensures ts == Tallies(s, v, sf, |v.blocks|, now)
  {
    ts := [];
    var i := sf;
    while i < |v.blocks|
      invariant sf <= i <= |v.blocks|
      invariant ts == Tallies(s, v, sf, i, now)
    {
      var t := TallyFor(s, v, i, now);
      ts := ts + [t];
      i := i + 1;
    }
  }

  /** The request part of one iteration. */
  method RequestBlock(s: Strategy, i: nat, t: Tally, st: Sweep) returns (r: Sweep)
    ensures r == Requested(s, i, t, st)
  {
    r := st;
    if t.urgent && !t.held {
      r := Sweep(r.outbox + [Broadcast(MBlockRequest(s.pos, i, ObjectHash(s.mint(r.mints))))], r.mints + 1, r.draws);
    } else if t.far && !t.held {
      var coin := s.draw(r.draws);
      r := r.(draws := r.draws + 1);
      if coin < 0.05 {
        r := Sweep(r.outbox + [Broadcast(MBlockRequest(s.pos, i, ObjectHash(s.mint(r.mints))))], r.mints + 1, r.draws);
      }
    }
  }

  /** The finality part of one iteration. */
  method Finalize(i: nat, t: Tally, fh: seq<Decision>) returns (r: seq<Decision>)
    ensures r == Decided(fh, i, t)
  {
    r := fh;
    if t.verdict.Some? {
      r := PadFinalized(r, i + 1);
      r := r[i := t.verdict.value];
    } else if t.crash {
      r := PadFinalized(r, i + 1);
    }
  }

  /** The bet loop's running results: the bets so far, `finalized_hashes`
      and the outgoing messages. */
  datatype Pass = Pass(bets: seq<real>, fh: seq<Decision>, out: Sweep)

  /** What one iteration of the bet loop does for height `i`, whose tally is `t`. */
  function Step(s: Strategy, i: nat, t: Tally, p: Pass): Pass {
    Pass(p.bets + [t.bet], Decided(p.fh, i, t), Requested(s, i, t, p.out))
  }

  /** The bets of the tallies `ts`, in order. */
  function BetsOf(ts: seq<Tally>): (r: seq<real>)
    ensures |r| == |ts|
    decreases |ts|
  {
    if ts == [] then [] else BetsOf(ts[..|ts| - 1]) + [ts[|ts| - 1].bet]
  }

  /** Entry `k` of the bets is the bet of tally `k`. */
  lemma {:induction false} BetsOfAt(ts: seq<Tally>, k: nat)
    requires k < |ts|
    ensures BetsOf(ts)[k] == ts[k].bet
    decreases |ts|
  {
    if k < |ts| - 1 {
      BetsOfAt(ts[..|ts| - 1], k);
    }
  }

  /** The bet loop's results after the heights from `sf` on whose tallies
      are `ts`: their bets, and the two folds over the tallies. */
  function Swept(s: Strategy, sf: nat, ts: seq<Tally>, fh0: seq<Decision>, out0: Sweep): (p: Pass)
    ensures |p.bets| == |ts|
    ensures |fh0| <= |p.fh| && (|p.fh| == |fh0| || |p.fh| <= sf + |ts|)
  {
    Pass(BetsOf(ts), Decisions(sf, ts, fh0), Requests(s, sf, ts, out0))
  }

  /** One more iteration of the loop, for the height whose tally is
      `ts[k]`, extends each of the three folds by that tally. */
  lemma SweptGrows(s: Strategy, sf: nat, ts: seq<Tally>, k: nat, fh0: seq<Decision>, out0: Sweep)
    requires k < |ts|
    ensures Step(s, sf + k, ts[k], Swept(s, sf, ts[..k], fh0, out0)) == Swept(s, sf, ts[..k + 1], fh0, out0)
  {
    assert ts[..k + 1][..k] == ts[..k];
  }

  /** The writing part of the bet loop, over the tallies `ts` of the
      heights from `sf` on, with the `finalized_hashes` and outgoing messages
      it starts from. It stops right after the first height where it would
      finalize a block it does not hold, where the source raises. */
  method ApplyTallies(s: Strategy, sf: nat, ts: seq<Tally>, fh0: seq<Decision>, out0: Sweep)
    returns (crash: Option<nat>, p: Pass)
    ensures var k := FirstCrash(ts);
      && (crash.Some? <==> k < |ts|)
      && (crash.Some? ==> crash.value == sf + k && p == Swept(s, sf, ts[..k + 1], fh0, out0))
      && (crash.None? ==> p == Swept(s, sf, ts, fh0, out0))
  {
    p := Pass([], fh0, out0);
    var j := 0;
    while j < |ts|
      invariant j <= |ts|
      invariant p == Swept(s, sf, ts[..j], fh0, out0)
      invariant forall m :: 0 <= m < j ==> !ts[m].crash
    {
      var out := RequestBlock(s, sf + j, ts[j], p.out);
      var fh := Finalize(sf + j, ts[j], p.fh);
      p := Pass(p.bets + [ts[j].bet], fh, out);
      SweptGrows(s, sf, ts, j, fh0, out0);
      if ts[j].crash {
        FirstCrashIs(ts, j);
        crash := Some(sf + j);
        return;
      }
      j := j + 1;
    }
    assert ts[..j] == ts;
    FirstCrashIs(ts, j);
    crash := None;
  }
}
