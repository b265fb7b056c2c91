/** The percentile voting strategy of casper/voting_strategy.py: a robust
    order statistic over the other validators' votes, and the normalisation
    that turns per-block percentiles into one opinion per candidate block. */
module VotingStrategy {
  import opened Dicts
  import opened Sorting

  /** `[0] * n` */
  function Zeros(n: nat): (z: seq<real>)
    ensures |z| == n && forall i :: 0 <= i < n ==> z[i] == 0.0
  {
    seq(n, _ => 0.0)
  }

  /** How many zeros `get_vote_from_scores` puts in front; a negative
      repetition count gives the empty list in Python. */
  function PadLength(probs: seq<real>, n: nat): nat {
    if |probs| < n then n - |probs| else 0
  }

  /** `[0] * (n - len(probs)) + sorted(probs)` */
  function Padded(probs: seq<real>, n: nat): (e: seq<real>)
    ensures |e| == PadLength(probs, n) + |probs|
    ensures n <= |e| && |probs| <= |e|
  {
    Zeros(PadLength(probs, n)) + Sort(probs)
  }

  /** The padded list before sorting: the votes the statistic is taken over. */
  function Ballot(probs: seq<real>, n: nat): seq<real> {
    Zeros(PadLength(probs, n)) + probs
  }

  /** The source indexes an empty list (IndexError) exactly when there are
      no validators and no votes. */
  predicate Scorable(probs: seq<real>, n: nat) {
    0 < n || 0 < |probs|
  }

  /** `get_vote_from_scores`: entry `n // 3` of the zero-padded sorted votes,
      so either a padding zero or one of the supplied votes. */
  function GetVoteFromScores(probs: seq<real>, n: nat): (r: real)
    requires Scorable(probs, n)
    ensures r == 0.0 || r in probs
  {
    var e := Padded(probs, n);
    var k := n / 3;
    assert k < |e|;
    if k < PadLength(probs, n) then e[k]
    else
      var sorted := Sort(probs);
      assert e[k] == sorted[k - PadLength(probs, n)];
      assert e[k] in multiset(sorted);
      e[k]
  }

  /** With non-negative votes (the source's votes are probabilities in (0, 1))
      the padded list is sorted, and it holds the same votes as the ballot. */
  lemma PaddedSorted(probs: seq<real>, n: nat)
    requires forall i :: 0 <= i < |probs| ==> 0.0 <= probs[i]
    ensures Sorted(Padded(probs, n))
    ensures multiset(Padded(probs, n)) == multiset(Ballot(probs, n))
  {
    var z := Zeros(PadLength(probs, n));
    var s := Sort(probs);
    forall j | 0 <= j < |s| ensures 0.0 <= s[j] {
      assert s[j] in multiset(probs);
    }
  }

  function AtMost(t: real): real -> bool {
    x => x <= t
  }

  function AtLeast(t: real): real -> bool {
    x => t <= x
  }

  function Below(t: real): real -> bool {
    x => x < t
  }

  function Above(t: real): real -> bool {
    x => t < x
  }

  /** At least `n // 3 + 1` votes of the ballot are at most the result and at
      least `n - n // 3` are at least the result: the result is the
      33rd percentile. */
  lemma VoteIsPercentile(probs: seq<real>, n: nat)
    requires Scorable(probs, n)
    requires forall i :: 0 <= i < |probs| ==> 0.0 <= probs[i]
    ensures var r := GetVoteFromScores(probs, n);
      && Count(Ballot(probs, n), AtMost(r)) >= n / 3 + 1
      && Count(Ballot(probs, n), AtLeast(r)) >= n - n / 3
  {
    var r := GetVoteFromScores(probs, n);
    var e := Padded(probs, n);
    var k := n / 3;
    PaddedSorted(probs, n);
    assert r == e[k];
    CountPrefix(e, k + 1, AtMost(r));
    CountPermutation(e, Ballot(probs, n), AtMost(r));
    CountSuffix(e, k, AtLeast(r));
    CountPermutation(e, Ballot(probs, n), AtLeast(r));
  }

  /** More than `n // 3` votes of the ballot lie below any bound above the
      result. */
  lemma CountBelowAboveResult(probs: seq<real>, n: nat, t: real)
    requires Scorable(probs, n)
    requires forall i :: 0 <= i < |probs| ==> 0.0 <= probs[i]
    requires GetVoteFromScores(probs, n) < t
    ensures Count(Ballot(probs, n), Below(t)) >= n / 3 + 1
  {
    var e := Padded(probs, n);
    PaddedSorted(probs, n);
    assert e[n / 3] < t;
    CountPrefix(e, n / 3 + 1, Below(t));
    CountPermutation(e, Ballot(probs, n), Below(t));
  }

  /** At most `n // 3` votes of the ballot lie below any bound up to the
      result. */
  lemma CountBelowUpToResult(probs: seq<real>, n: nat, t: real)
    requires Scorable(probs, n)
    requires forall i :: 0 <= i < |probs| ==> 0.0 <= probs[i]
    requires t <= GetVoteFromScores(probs, n)
    ensures Count(Ballot(probs, n), Below(t)) <= n / 3
  {
    var e := Padded(probs, n);
    PaddedSorted(probs, n);
    assert t <= e[n / 3];
    CountOnlyPrefix(e, n / 3, Below(t));
    CountPermutation(e, Ballot(probs, n), Below(t));
  }

  /** All but at most `n // 3` votes of the ballot lie above any bound below
      the result. */
  lemma CountAboveBelowResult(probs: seq<real>, n: nat, t: real)
    requires Scorable(probs, n)
    requires forall i :: 0 <= i < |probs| ==> 0.0 <= probs[i]
    requires t < GetVoteFromScores(probs, n)
    ensures Count(Ballot(probs, n), Above(t)) >= |Ballot(probs, n)| - n / 3
  {
    var e := Padded(probs, n);
    PaddedSorted(probs, n);
    assert t < e[n / 3];
    CountSuffix(e, n / 3, Above(t));
    CountPermutation(e, Ballot(probs, n), Above(t));
  }

  /** Byzantine robustness: split the ballot into at most `n // 3` adversarial
      votes and the honest rest; if every honest vote lies in `[lo, hi]`, so
      does the result, whatever the adversarial votes are. */
  lemma VoteIsRobust(probs: seq<real>, n: nat, adversarial: seq<real>, honest: seq<real>, lo: real, hi: real)
    requires Scorable(probs, n)
    requires forall i :: 0 <= i < |probs| ==> 0.0 <= probs[i]
    requires multiset(Ballot(probs, n)) == multiset(adversarial + honest)
    requires |adversarial| <= n / 3
    requires forall i :: 0 <= i < |honest| ==> lo <= honest[i] <= hi
    ensures lo <= GetVoteFromScores(probs, n) <= hi
  {
    var r := GetVoteFromScores(probs, n);
    var b := Ballot(probs, n);
    if r < lo {
      CountBelowAboveResult(probs, n, lo);
      CountPermutation(b, adversarial + honest, Below(lo));
      CountAppend(adversarial, honest, Below(lo));
      CountNone(honest, Below(lo));
    }
    if hi < r {
      CountAboveBelowResult(probs, n, hi);
      CountPermutation(b, adversarial + honest, Above(hi));
      CountAppend(adversarial, honest, Above(hi));
      CountNone(honest, Above(hi));
    }
  }

  /** Too few votes: when fewer than `n - n // 3` votes are supplied, entry
      `n // 3` is a padding zero. */
  lemma VoteIsZeroWhenFewVotes(probs: seq<real>, n: nat)
    requires |probs| < n - n / 3
    ensures GetVoteFromScores(probs, n) == 0.0
  {
    assert n / 3 < PadLength(probs, n);
  }

  /** Raising vote `i` raises the same entry of the ballot. */
  lemma BallotRaised(probs: seq<real>, n: nat, i: nat, x: real)
    requires i < |probs|
    ensures Ballot(probs[i := x], n) == Ballot(probs, n)[PadLength(probs, n) + i := x]
  {
    assert PadLength(probs[i := x], n) == PadLength(probs, n);
  }

  /** Raising one vote never lowers the result. */
  lemma VoteIsMonotone(probs: seq<real>, n: nat, i: nat, x: real)
    requires Scorable(probs, n)
    requires forall j :: 0 <= j < |probs| ==> 0.0 <= probs[j]
    requires i < |probs| && probs[i] <= x
    ensures GetVoteFromScores(probs, n) <= GetVoteFromScores(probs[i := x], n)
  {
    var raised := probs[i := x];
    var r := GetVoteFromScores(probs, n);
    if GetVoteFromScores(raised, n) < r {
      CountBelowAboveResult(raised, n, r);
      CountBelowUpToResult(probs, n, r);
      BallotRaised(probs, n, i, x);
      var b := Ballot(probs, n);
      var m := PadLength(probs, n) + i;
      assert b[m] == probs[i];
      CountDominated(b, b[m := x], Below(r));
    }
  }

  function Sum(s: seq<real>): real {
    if s == [] then 0.0 else s[0] + Sum(s[1..])
  }

  /** Python's `sum` over integer dictionary keys. */
  function SumKeys(ks: seq<int>): int {
    if ks == [] then 0 else ks[0] + SumKeys(ks[1..])
  }

  /** Index `max(range(len(s)), key=s.__getitem__)` picks: the first
      position of the largest value. */
  function MaxIndex(s: seq<real>): (m: nat)
    requires |s| > 0
    ensures m < |s|
    ensures forall j :: 0 <= j < |s| ==> s[j] <= s[m]
    ensures forall j :: 0 <= j < m ==> s[j] < s[m]
  {
    if |s| == 1 then 0
    else
      var m := MaxIndex(s[..|s| - 1]);
      if s[m] < s[|s| - 1] then |s| - 1 else m
  }

  /** `{k: block_results.get(k, 0) for k in default_judgements}`, listed in
      the order of `default_judgements`. */
  function Scores(blockResults: map<int, real>, dj: Dict<int, real>): (s: seq<real>)
    ensures |s| == |dj|
  {
    seq(|dj|, i requires 0 <= i < |dj| => if dj[i].0 in blockResults then blockResults[dj[i].0] else 0.0)
  }

  /** First pass: `0.8 + 0.2 * v` for the top-scoring key, 0 for the others. */
  function FirstPass(s: seq<real>): (a1: seq<real>)
    requires |s| > 0
    ensures |a1| == |s|
  {
    var m := MaxIndex(s);
    seq(|s|, i requires 0 <= i < |s| => if i == m then 0.8 + s[i] * 0.2 else 0.0)
  }

  /** `v * factor`, kept as a function so that the sequence comprehensions
      below see one term rather than a product of two variables. */
  function Scaled(v: real, factor: real): real {
    v * factor
  }

  /** Second pass: every key gets the larger of its first-pass value and its
      default judgement scaled by `1 - claimed`. */
  function SecondPass(dj: Dict<int, real>, a1: seq<real>, claimed: real): (o: Dict<int, real>)
    requires |a1| == |dj|
    ensures |o| == |dj| && Keys(o) == Keys(dj)
    ensures forall i :: 0 <= i < |o| ==>
      && o[i].0 == dj[i].0
      && a1[i] <= o[i].1
      && Scaled(dj[i].1, 1.0 - claimed) <= o[i].1
      && (o[i].1 == a1[i] || o[i].1 == Scaled(dj[i].1, 1.0 - claimed))
  {
    var o := seq(|dj|, i requires 0 <= i < |dj| => (dj[i].0, Max(a1[i], Scaled(dj[i].1, 1.0 - claimed))));
    assert Keys(o) == Keys(dj);
    o
  }

  /** `normalize` as written: `sum(a1)` iterates the dictionary, so it adds
      up the KEYS (block hashes) of the first pass, not its values. The
      top-scoring key still gets at least `0.8 + 0.2 *` its score and no
      key gets less than its first-pass value. */
  function NormalizeAsWritten(blockResults: map<int, real>, n: nat, dj: Dict<int, real>): (o: Dict<int, real>)
    ensures |dj| == 0 ==> o == []
    ensures Keys(o) == Keys(dj)
    ensures |dj| > 0 ==>
      var s := Scores(blockResults, dj);
      var top := MaxIndex(s);
      && (forall j :: 0 <= j < |s| ==> s[j] <= s[top])
      && 0.8 + 0.2 * s[top] <= o[top].1
      && forall i :: 0 <= i < |o| ==> FirstPass(s)[i] <= o[i].1
  {
    if |dj| == 0 then []
    else
      var s := Scores(blockResults, dj);
      var a1 := FirstPass(s);
      var o := SecondPass(dj, a1, SumKeys(Keys(dj)) as real);
      assert a1[MaxIndex(s)] == 0.8 + s[MaxIndex(s)] * 0.2;
      o
  }

  /** Positive keys (block hashes are at least `10**21`) sum to at least
      their number. */
  lemma {:induction false} SumKeysAtLeastCount(ks: seq<int>)
    requires forall i :: 0 <= i < |ks| ==> 1 <= ks[i]
    ensures |ks| <= SumKeys(ks)
  {
    if ks != [] {
      SumKeysAtLeastCount(ks[1..]);
    }
  }

  lemma ScaledNonPositive(v: real, c: real)
    requires 0.0 <= v && c <= 0.0
    ensures Scaled(v, c) <= 0.0
  {
    assert 0.0 <= v * -c;
  }

  /** The promise of the comment on `normalize` holds for the code as
      written too, but only because the whole unclaimed mass is lost: with
      positive keys, scores in [0, 1] and non-negative judgements, the key
      sum is at least 1, every scaled judgement is at most 0, and each
      opinion is exactly its first-pass value, so the opinions sum to at
      most 1 and every key but the top one gets 0. */
  lemma NormalizeAsWrittenKeepsOnlyFirstPass(blockResults: map<int, real>, n: nat, dj: Dict<int, real>)
    requires forall k :: k in blockResults ==> 0.0 <= blockResults[k] <= 1.0
    requires forall i :: 0 <= i < |dj| ==> 1 <= dj[i].0 && 0.0 <= dj[i].1
    ensures var o := NormalizeAsWritten(blockResults, n, dj);
      && Sum(Values(o)) <= 1.0
      && (|dj| > 0 ==> Values(o) == FirstPass(Scores(blockResults, dj)))
  {
    if |dj| > 0 {
      var s := Scores(blockResults, dj);
      var m := MaxIndex(s);
      var a1 := FirstPass(s);
      var c := 1.0 - SumKeys(Keys(dj)) as real;
      var o := NormalizeAsWritten(blockResults, n, dj);
      assert o == SecondPass(dj, a1, SumKeys(Keys(dj)) as real);
      SumKeysAtLeastCount(Keys(dj));
      assert c <= 0.0;
      forall i | 0 <= i < |o| ensures Values(o)[i] == a1[i] {
        ScaledNonPositive(dj[i].1, c);
      }
      assert Values(o) == a1;
      SumSingle(a1, m);
      assert 0.0 <= s[m] <= 1.0;
    }
  }

  /** `normalize` with the second pass scaled by what the first pass claimed,
      `1 - sum(a1.values())`. */
  function Normalize(blockResults: map<int, real>, n: nat, dj: Dict<int, real>): (o: Dict<int, real>)
    ensures |dj| == 0 ==> o == []
    ensures Keys(o) == Keys(dj)
    ensures |dj| > 0 ==>
      var s := Scores(blockResults, dj);
      var top := MaxIndex(s);
      && (forall j :: 0 <= j < |s| ==> s[j] <= s[top])
      && 0.8 + 0.2 * s[top] <= o[top].1
      && forall i :: 0 <= i < |o| ==> FirstPass(s)[i] <= o[i].1
  {
    if |dj| == 0 then []
    else
      var s := Scores(blockResults, dj);
      var a1 := FirstPass(s);
      var o := SecondPass(dj, a1, Sum(a1));
      assert forall i :: 0 <= i < |o| ==> a1[i] <= o[i].1;
      assert a1[MaxIndex(s)] == 0.8 + s[MaxIndex(s)] * 0.2;
      o
  }

  lemma {:induction false} SumSingle(s: seq<real>, m: nat)
    requires m < |s|
    requires forall i :: 0 <= i < |s| && i != m ==> s[i] == 0.0
    ensures Sum(s) == s[m]
  {
    if m == 0 {
      SumZero(s[1..]);
    } else {
      SumSingle(s[1..], m - 1);
    }
  }

  lemma {:induction false} SumZero(s: seq<real>)
    requires forall i :: 0 <= i < |s| ==> s[i] == 0.0
    ensures Sum(s) == 0.0
  {
    if s != [] {
      SumZero(s[1..]);
    }
  }

  /** A list bounded pointwise by the sum of two lists has at most their
      combined sum. */
  lemma {:induction false} SumBound(a: seq<real>, b: seq<real>, o: seq<real>)
    requires |a| == |b| == |o|
    requires forall i :: 0 <= i < |o| ==> o[i] <= a[i] + b[i]
    ensures Sum(o) <= Sum(a) + Sum(b)
  {
    if o != [] {
      SumBound(a[1..], b[1..], o[1..]);
    }
  }

  lemma {:induction false} SumScaled(v: seq<real>, c: real, w: seq<real>)
    requires |v| == |w|
    requires forall i :: 0 <= i < |w| ==> w[i] == Scaled(v[i], c)
    ensures Sum(w) == Scaled(Sum(v), c)
  {
    if w != [] {
      SumScaled(v[1..], c, w[1..]);
    }
  }

  /** The property the source's comment promises of `normalize`: with scores
      and default judgements in [0, 1] and default judgements summing to at
      most 1, the normalised opinions sum to at most 1, and every key keeps
      at least its share `dj[k] * (1 - claimed)` of the unclaimed mass. */
  lemma NormalizeSumsToAtMostOne(blockResults: map<int, real>, n: nat, dj: Dict<int, real>)
    requires forall k :: k in blockResults ==> 0.0 <= blockResults[k] <= 1.0
    requires forall i :: 0 <= i < |dj| ==> 0.0 <= dj[i].1
    requires Sum(Values(dj)) <= 1.0
    ensures Sum(Values(Normalize(blockResults, n, dj))) <= 1.0
    ensures |dj| > 0 ==>
      var a1 := FirstPass(Scores(blockResults, dj));
      forall i :: 0 <= i < |dj| ==> Scaled(dj[i].1, 1.0 - Sum(a1)) <= Normalize(blockResults, n, dj)[i].1
  {
    if |dj| > 0 {
      var s := Scores(blockResults, dj);
      var m := MaxIndex(s);
      var a1 := FirstPass(s);
      var c := 1.0 - Sum(a1);
      var o := SecondPass(dj, a1, Sum(a1));
      assert o == Normalize(blockResults, n, dj);
      SumSingle(a1, m);
      assert 0.0 <= s[m] <= 1.0;
      assert 0.0 <= c;
      var a2 := seq(|dj|, i requires 0 <= i < |dj| => Scaled(dj[i].1, c));
      SumScaled(Values(dj), c, a2);
      ScaledAtMost(Sum(Values(dj)), c);
      var vo := Values(o);
      forall i | 0 <= i < |o| ensures vo[i] <= a1[i] + a2[i] {
        ScaledNonNegative(dj[i].1, c);
        assert 0.0 <= a1[i];
      }
      SumBound(a1, a2, vo);
      assert Sum(vo) <= 1.0;
    }
  }

  lemma ScaledNonNegative(v: real, c: real)
    requires 0.0 <= v && 0.0 <= c
    ensures 0.0 <= Scaled(v, c)
  {
  }

  lemma ScaledAtMost(v: real, c: real)
    requires v <= 1.0 && 0.0 <= c
    ensures Scaled(v, c) <= c
  {
    assert 0.0 <= (1.0 - v) * c;
  }

  /** The discrepancy: two candidate blocks 7 and 9, block 7 with
      percentile 0.9 and default judgements 0.5 and 0.9. As written, block 9
      gets 0 because the "unclaimed" mass is computed as 1 - (7 + 9); the
      corrected normalisation gives it 0.9 * (1 - 0.98) = 0.018. */
  lemma NormalizeAsWrittenLosesUnclaimedMass()
    ensures NormalizeAsWritten(map[7 := 0.9], 20, [(7, 0.5), (9, 0.9)]) == [(7, 0.98), (9, 0.0)]
    ensures Normalize(map[7 := 0.9], 20, [(7, 0.5), (9, 0.9)]) == [(7, 0.98), (9, 0.018)]
  {
    var dj := [(7, 0.5), (9, 0.9)];
    var s := Scores(map[7 := 0.9], dj);
    assert s == [0.9, 0.0];
    assert MaxIndex(s) == 0 by {
      assert MaxIndex(s[..1]) == 0;
    }
    var a1 := FirstPass(s);
    assert a1 == [0.98, 0.0];
    assert Keys(dj) == [7, 9];
    assert SumKeys([7, 9]) == 16;
    assert a1[1..] == [0.0];
    assert Sum([0.0]) == 0.0;
    assert Sum(a1) == 0.98;
  }

  /** `pass1`: the percentile of each key that has votes and a default
      judgement; keys with only one of the two are not scored. */
  function PercentilesOfKnownBlocks(probs: Dict<int, seq<real>>, dj: Dict<int, real>, n: nat): (pass1: map<int, real>)
    requires forall k :: HasKey(probs, k) && HasKey(dj, k) ==> Scorable(Get(probs, k).value, n)
    ensures forall k :: k in pass1 <==> HasKey(probs, k) && HasKey(dj, k)
    ensures forall k :: k in pass1 ==> pass1[k] == 0.0 || pass1[k] in Get(probs, k).value
  {
    assert forall k :: k in Keys(probs) <==> HasKey(probs, k) by {
      forall k ensures HasKey(probs, k) ==> k in Keys(probs) {
        if HasKey(probs, k) {
          var i :| 0 <= i < |probs| && probs[i].0 == k;
          assert Keys(probs)[i] == k;
        }
      }
    }
    map k | k in Keys(probs) && HasKey(dj, k) :: GetVoteFromScores(Get(probs, k).value, n)
  }

  /** `vote` as written: one opinion per default-judged block, through the
      key-summing `normalize`; the top-scoring block gets at least
      `0.8 + 0.2 *` its percentile. */
  function Vote(probs: Dict<int, seq<real>>, dj: Dict<int, real>, n: nat): (o: Dict<int, real>)
    requires forall k :: HasKey(probs, k) && HasKey(dj, k) ==> Scorable(Get(probs, k).value, n)
    ensures Keys(o) == Keys(dj)
    ensures |dj| > 0 ==>
      var s := Scores(PercentilesOfKnownBlocks(probs, dj, n), dj);
      exists top :: 0 <= top < |s| && (forall j :: 0 <= j < |s| ==> s[j] <= s[top]) && 0.8 + 0.2 * s[top] <= o[top].1
  {
    NormalizeAsWritten(PercentilesOfKnownBlocks(probs, dj, n), n, dj)
  }

  /** `vote` through the corrected normalisation `Normalize`: the same
      bound on the top-scoring block; `NormalizeSumsToAtMostOne` shows its
      opinions sum to at most 1 while every block keeps its share of the
      unclaimed mass. */
  function VoteIntended(probs: Dict<int, seq<real>>, dj: Dict<int, real>, n: nat): (o: Dict<int, real>)
    requires forall k :: HasKey(probs, k) && HasKey(dj, k) ==> Scorable(Get(probs, k).value, n)
    ensures Keys(o) == Keys(dj)
    ensures |dj| > 0 ==>
      var s := Scores(PercentilesOfKnownBlocks(probs, dj, n), dj);
      exists top :: 0 <= top < |s| && (forall j :: 0 <= j < |s| ==> s[j] <= s[top]) && 0.8 + 0.2 * s[top] <= o[top].1
  {
    Normalize(PercentilesOfKnownBlocks(probs, dj, n), n, dj)
  }
}
