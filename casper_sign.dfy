/** `Validator.sign` of casper/casper.py as a function of the validator's
    state: the bet loop over the window, the advance of the finalized
    prefix, the state-root comparison and the new signature. `SignStep`
    is the method that carries it out, proved to compute `Signed`; the
    lemmas below state what a signature and the new state are. */
module CasperSign {
  import opened Wrappers
  import opened CasperTypes
  import opened CasperBets

  /** What `sign` reads and writes besides the blocks, their receive times
      and the received bets: `finalized_hashes`, `max_finalized_height`,
      `states`, `probs`, the outgoing messages with the two random streams'
      counters, and `most_recent_sig`. */
  datatype Signer = Signer(
    fh: seq<Decision>,
    mfh: int,
    states: seq<Option<int>>,
    probs: seq<real>,
    out: Sweep,
    latest: Option<Sig>)

  /** The bookkeeping `sign` relies on: one state slot per height, the
      finalized prefix inside `finalized_hashes` and `probs`, and a state
      for every finalized height. */
  predicate Ready(blocks: seq<Option<Block>>, st: Signer) {
    ReadyParts(blocks, st.fh, st.mfh, st.states, st.probs)
  }

  predicate ReadyParts(blocks: seq<Option<Block>>, fh: seq<Decision>, mfh: int, states: seq<Option<int>>, probs: seq<real>) {
    && |states| == |blocks|
    && |fh| <= |blocks|
    && -1 <= mfh < |fh|
    && mfh < |probs| <= |blocks|
    && forall h :: 0 <= h <= mfh ==> states[h].Some?
  }

  /** `sign`: the window starts at `WindowStart`, and the rest is
      `SignedOver` on the tallies of the window's heights. */
  function Signed(s: Strategy, v: TimedView, st: Signer, now: real): (Result<Sig, nat>, Signer)
    requires Ready(v.blocks, st) && 0 < |v.blocks|
  {
    var sf := WindowStart(v.blocks, st.mfh);
    SignedOver(s, v.blocks, st, sf, Tallies(s, v, sf, |v.blocks|, now))
  }

  /** `sign` once the window from `sf` is fixed and its heights' tallies
      are `ts`. The bet loop runs to the first height where the source
      raises (finality of a block that is not held), or to the top; on a
      raise, what the loop already did to `finalized_hashes` and the outbox
      stays and the rest is untouched. */
  function SignedOver(s: Strategy, blocks: seq<Option<Block>>, st: Signer, sf: nat, ts: seq<Tally>): (Result<Sig, nat>, Signer)
    requires Ready(blocks, st) && 0 < |blocks|
    requires sf <= |st.probs| && sf + |ts| == |blocks|
  {
    var k := FirstCrash(ts);
    if k < |ts| then
      var p := Swept(s, sf, ts[..k + 1], st.fh, st.out);
      (Failure(sf + k), st.(fh := p.fh, out := p.out))
    else Published(s, blocks, st, sf, Swept(s, sf, ts, st.fh, st.out))
  }

  /** The end of `sign` once every bet `p.bets` of the window from `sf` is
      cast: advance the finalized prefix, store the bets, sync the last
      state root and build the signature of the clamped bets, chained onto
      the previous own signature. */
  function Published(s: Strategy, blocks: seq<Option<Block>>, st: Signer, sf: nat, p: Pass): (Result<Sig, nat>, Signer)
    requires Ready(blocks, st) && 0 < |blocks|
    requires sf <= |st.probs| && sf + |p.bets| <= |blocks|
    requires |st.fh| <= |p.fh| <= |blocks|
  {
    var m := Advanced(p.fh, st.mfh);
    var synced := SyncLast(FoldStates(st.states, blocks, st.mfh, m), m);
    var sig := NextSignature(s.pos, ClampAll(p.bets), synced.1, |blocks|, st.latest, s.mint(p.out.mints));
    (Success(sig), Signer(p.fh, m, synced.0, st.probs[..sf] + p.bets, p.out.(mints := p.out.mints + 1), Some(sig)))
  }

  // ---------------------------------------------------------------
  // The steps of `sign`

  /** `sign_from`: start at `max(0, max_finalized_height - 3)` and step down
      while no block is held there. */
  method FindWindowStart(rb: seq<Option<Block>>, mfh: int) returns (sf: nat)
    requires mfh - 3 < |rb| && 0 < |rb|
    ensures sf == WindowStart(rb, mfh)
  {
    sf := if mfh - 3 < 0 then 0 else mfh - 3;
    while rb[sf].None? && sf != 0
      invariant sf < |rb|
      invariant Lowered(rb, sf) == WindowStart(rb, mfh)
    {
      sf := sf - 1;
    }
  }

  /** Advance `max_finalized_height` over every decided entry that directly
      follows it, folding the state over each newly finalized block. */
  method AdvanceFinalized(fh: seq<Decision>, rb: seq<Option<Block>>, mfh: int, states: seq<Option<int>>)
    returns (m: int, states': seq<Option<int>>)
    requires |states| == |rb| && -1 <= mfh < |fh| <= |rb|
    requires forall h :: 0 <= h <= mfh ==> states[h].Some?
    ensures m == Advanced(fh, mfh)
    ensures states' == FoldStates(states, rb, mfh, m)
  {
    m, states' := mfh, states;
    while m < |fh| - 1 && fh[m + 1] != Undecided
      invariant mfh <= m < |fh|
      invariant Advanced(fh, m) == Advanced(fh, mfh)
      invariant states' == FoldStates(states, rb, mfh, m)
      decreases |fh| - m
    {
      m := m + 1;
      var lastState := if m != 0 then states'[m - 1] else Some(GenesisState);
      states' := states'[m := Some(StateTransition(lastState.value, rb[m]))];
    }
  }

  /** The state-root comparison: the last entry of `states` against the
      latest finalized state, and the roots the signature carries. */
  method SyncLastState(states: seq<Option<int>>, mfh: int) returns (states': seq<Option<int>>, roots: seq<Option<int>>)
    requires 0 < |states| && -1 <= mfh < |states|
    ensures (states', roots) == SyncLast(states, mfh)
  {
    var latest := if mfh >= 0 then states[mfh] else Some(GenesisState);
    states', roots := states, states;
    if latest != states[|states| - 1] {
      states' := states[|states| - 1 := latest];
      roots := [latest];
    }
  }

  /** `sign`, step by step: find the window, compute its tallies, and
      carry out the rest. */
  method SignStep(s: Strategy, v: TimedView, st: Signer, now: real) returns (r: Result<Sig, nat>, st': Signer)
    requires Ready(v.blocks, st) && 0 < |v.blocks|
    ensures (r, st') == Signed(s, v, st, now)
    ensures Ready(v.blocks, st')
  {
    var sf := FindWindowStart(v.blocks, st.mfh);
    var ts := ComputeTallies(s, v, sf, now);
    r, st' := SignOver(s, v.blocks, st, sf, ts);
  }

  /** `sign` after the window is fixed, step by step: the bet loop's
      writes, then the end of `sign` unless the loop raised. */
  method SignOver(s: Strategy, blocks: seq<Option<Block>>, st: Signer, sf: nat, ts: seq<Tally>) returns (r: Result<Sig, nat>, st': Signer)
    requires Ready(blocks, st) && 0 < |blocks|
    requires sf <= |st.probs| && sf + |ts| == |blocks|
    ensures (r, st') == SignedOver(s, blocks, st, sf, ts)
    ensures Ready(blocks, st')
  {
    var crash, p := ApplyTallies(s, sf, ts, st.fh, st.out);
    if crash.Some? {
      return Failure(crash.value), st.(fh := p.fh, out := p.out);
    }
    r, st' := Publish(s, blocks, st, sf, p);
  }

  /** The end of `sign`, step by step. */
  method Publish(s: Strategy, blocks: seq<Option<Block>>, st: Signer, sf: nat, p: Pass) returns (r: Result<Sig, nat>, st': Signer)
    requires Ready(blocks, st) && 0 < |blocks|
    requires sf <= |st.probs| && sf + |p.bets| <= |blocks|
    requires |st.fh| <= |p.fh| <= |blocks|
    ensures (r, st') == Published(s, blocks, st, sf, p)
    ensures sf + |p.bets| == |blocks| ==> Ready(blocks, st')
  {
    var m, states := AdvanceFinalized(p.fh, blocks, st.mfh, st.states);
    var states', roots := SyncLastState(states, m);
    var sig := NextSignature(s.pos, ClampAll(p.bets), roots, |blocks|, st.latest, s.mint(p.out.mints));
    r := Success(sig);
    st' := Signer(p.fh, m, states', st.probs[..sf] + p.bets, p.out.(mints := p.out.mints + 1), Some(sig));
  }

  // ---------------------------------------------------------------
  // What `sign` does

  /** Once the window is fixed, `sign` raises exactly when some height of
      it crashes, and then at the lowest such height; when it raises, only
      `finalized_hashes` and the outbox have changed. */
  lemma SignedOverFailsAtFirstCrash(s: Strategy, blocks: seq<Option<Block>>, st: Signer, sf: nat, ts: seq<Tally>)
    requires Ready(blocks, st) && 0 < |blocks|
    requires sf <= |st.probs| && sf + |ts| == |blocks|
    ensures var (r, st') := SignedOver(s, blocks, st, sf, ts);
      && (r.Failure? <==> exists k :: 0 <= k < |ts| && ts[k].crash)
      && (r.Failure? ==>
        && sf <= r.error < |blocks| && ts[r.error - sf].crash
        && (forall k :: 0 <= k < r.error - sf ==> !ts[k].crash)
        && st'.mfh == st.mfh && st'.states == st.states && st'.probs == st.probs && st'.latest == st.latest)
  {
    FirstCrashFirst(ts);
  }

  /** Entry `h - sf` of the window's tallies carries the bet on height
      `h`, its verdict, and whether `sign` raises there. */
  lemma TallyOfHeight(s: Strategy, v: TimedView, sf: nat, now: real, h: nat)
    requires sf <= h < |v.blocks|
    ensures var t := Tallies(s, v, sf, |v.blocks|, now)[h - sf];
      t.bet == Bet(s, v, h, now) && t.verdict == Verdict(s, v, h, now) && t.crash == Crashes(s, v, h, now)
  {
    TallyAt(s, v, sf, |v.blocks|, now, h - sf);
  }

  /** `sign` raises only at a height from `sign_from` up that would be
      finalized without its block, and at the lowest such height. */
  lemma SignedFailsAtFirstCrash(s: Strategy, v: TimedView, st: Signer, now: real)
    requires Ready(v.blocks, st) && 0 < |v.blocks|
    ensures var sf := WindowStart(v.blocks, st.mfh);
      var r := Signed(s, v, st, now).0;
      r.Failure? ==>
        && sf <= r.error < |v.blocks| && Crashes(s, v, r.error, now)
        && forall h :: sf <= h < r.error ==> !Crashes(s, v, h, now)
  {
    var sf := WindowStart(v.blocks, st.mfh);
    var ts := Tallies(s, v, sf, |v.blocks|, now);
    SignedOverFailsAtFirstCrash(s, v.blocks, st, sf, ts);
    var r := SignedOver(s, v.blocks, st, sf, ts).0;
    if r.Failure? {
      FirstCrashOfWindow(s, v, sf, now, r.error);
    }
  }

  /** A height whose tally is the window's first crash crashes, and no
      height of the window below it does. */
  lemma FirstCrashOfWindow(s: Strategy, v: TimedView, sf: nat, now: real, e: nat)
    requires sf <= e < |v.blocks|
    requires Tallies(s, v, sf, |v.blocks|, now)[e - sf].crash
    requires forall k :: 0 <= k < e - sf ==> !Tallies(s, v, sf, |v.blocks|, now)[k].crash
    ensures Crashes(s, v, e, now)
    ensures forall h :: sf <= h < e ==> !Crashes(s, v, h, now)
  {
    TallyOfHeight(s, v, sf, now, e);
    forall h | sf <= h < e ensures !Crashes(s, v, h, now) {
      TallyOfHeight(s, v, sf, now, h);
    }
  }

  /** `sign` returns a signature when no height from `sign_from` up would be
      finalized without its block. */
  lemma SignedSucceedsWithoutCrash(s: Strategy, v: TimedView, st: Signer, now: real)
    requires Ready(v.blocks, st) && 0 < |v.blocks|
    requires forall h :: WindowStart(v.blocks, st.mfh) <= h < |v.blocks| ==> !Crashes(s, v, h, now)
    ensures Signed(s, v, st, now).0.Success?
  {
    SignedFailsAtFirstCrash(s, v, st, now);
  }

  /** Once the window is fixed, a `sign` that returns stores the window's
      bets in `probs`, keeping the entries below it, and writes the verdict
      of every window height that reached one into `finalized_hashes`;
      every other entry is as before, or undecided where the list grew. */
  lemma SignedOverRecords(s: Strategy, blocks: seq<Option<Block>>, st: Signer, sf: nat, ts: seq<Tally>)
    requires Ready(blocks, st) && 0 < |blocks|
    requires sf <= |st.probs| && sf + |ts| == |blocks|
    ensures var (r, st') := SignedOver(s, blocks, st, sf, ts);
      r.Success? ==>
        && |st'.probs| == |blocks|
        && (forall h :: 0 <= h < sf ==> st'.probs[h] == st.probs[h])
        && (forall k :: 0 <= k < |ts| ==> st'.probs[sf + k] == ts[k].bet)
        && |st.fh| <= |st'.fh| <= |blocks|
        && (forall k :: 0 <= k < |ts| && ts[k].verdict.Some? ==> sf + k < |st'.fh| && st'.fh[sf + k] == ts[k].verdict.value)
        && (forall h :: 0 <= h < |st'.fh| && !(sf <= h && ts[h - sf].verdict.Some?) ==>
              st'.fh[h] == if h < |st.fh| then st.fh[h] else Undecided)
  {
    if FirstCrash(ts) == |ts| {
      var p := Swept(s, sf, ts, st.fh, st.out);
      var st' := SignedOver(s, blocks, st, sf, ts).1;
      assert st'.probs == st.probs[..sf] + p.bets && st'.fh == p.fh;
      DecisionsWriteVerdicts(sf, ts, st.fh);
      DecisionsCoverVerdicts(sf, ts, st.fh);
      forall k | 0 <= k < |ts| ensures st'.probs[sf + k] == ts[k].bet {
        BetsOfAt(ts, k);
      }
    }
  }

  /** After a `sign` that returns, `probs` holds the bet of every height
      of the window and keeps the entries below it, and `finalized_hashes`
      holds the verdict of every window height that reached one. */
  lemma SignedRecordsBetsAndVerdicts(s: Strategy, v: TimedView, st: Signer, now: real)
    requires Ready(v.blocks, st) && 0 < |v.blocks|
    ensures var sf := WindowStart(v.blocks, st.mfh);
      var (r, st') := Signed(s, v, st, now);
      r.Success? ==>
        && |st'.probs| == |v.blocks|
        && (forall h :: 0 <= h < sf ==> st'.probs[h] == st.probs[h])
        && (forall h :: sf <= h < |v.blocks| ==> st'.probs[h] == Bet(s, v, h, now))
        && (forall h :: sf <= h < |v.blocks| && Verdict(s, v, h, now).Some? ==>
              h < |st'.fh| && st'.fh[h] == Verdict(s, v, h, now).value)
  {
    var sf := WindowStart(v.blocks, st.mfh);
    var ts := Tallies(s, v, sf, |v.blocks|, now);
    SignedOverRecords(s, v.blocks, st, sf, ts);
    var (r, st') := Signed(s, v, st, now);
    if r.Success? {
      forall h | sf <= h < |v.blocks| ensures st'.probs[h] == Bet(s, v, h, now) {
        TallyOfHeight(s, v, sf, now, h);
        assert st'.probs[sf + (h - sf)] == ts[h - sf].bet;
      }
      forall h | sf <= h < |v.blocks| && Verdict(s, v, h, now).Some?
        ensures h < |st'.fh| && st'.fh[h] == Verdict(s, v, h, now).value
      {
        TallyOfHeight(s, v, sf, now, h);
        assert ts[h - sf].verdict.Some?;
      }
    }
  }

  /** The signature `sign` returns: by this validator, up to the top
      height, from `sign_from`, carrying the clamped stored bets, chained
      onto the previous own signature, and kept as `most_recent_sig`. */
  lemma PublishedSignature(s: Strategy, blocks: seq<Option<Block>>, st: Signer, sf: nat, p: Pass)
    requires Ready(blocks, st) && 0 < |blocks|
    requires sf <= |st.probs| && sf + |p.bets| == |blocks|
    requires |st.fh| <= |p.fh| <= |blocks|
    ensures var (r, st') := Published(s, blocks, st, sf, p);
      && r.Success? && st'.latest == Some(r.value)
      && r.value.signer == s.pos && r.value.maxHeight == |blocks| && SignFrom(r.value) == sf
      && |st'.probs| == |blocks| && st'.probs[..sf] == st.probs[..sf] && st'.probs[sf..] == p.bets
      && r.value.probs == ClampAll(st'.probs[sf..])
      && r.value.prev == (if st.latest.Some? then Some(st.latest.value.hash) else None)
      && r.value.seqNo == (if st.latest.Some? then st.latest.value.seqNo + 1 else 0)
  {
    var st' := Published(s, blocks, st, sf, p).1;
    assert st'.probs == st.probs[..sf] + p.bets;
    assert st'.probs[sf..] == p.bets;
  }
}
