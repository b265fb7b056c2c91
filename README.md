# Casper signature protocol and block-timing simulators, modelled in Dafny

This project models the consensus core of the `economic-modeling`
repository: the Casper validator agent of `casper/casper.py` and its
percentile vote aggregator `casper/voting_strategy.py`, together with the
three block-production simulators `timing_strats.py`,
`ghost_timing_strats.py` and `inclusive_ghost.py`.

**Casper.**
- A `Validator` stores blocks by height.
- It merges other validators' signatures into per-height bet maps. A
  signature is a chain-linked list of probability bets.
- Over a window of recent heights it bets whether each block will be final,
  finalizes heights whose bet crosses `FINALITY_THRESHOLD`, and folds the
  toy state transition over the finalized prefix.
- It emits its own signature. It answers block requests and
  signature-child requests, and produces a block in every round-robin slot.
- The cross-validator integrity check is modelled as a predicate over all
  validators' finalized lists.
- The aggregator takes the 33rd percentile of the votes, padded with zeros,
  and normalizes its results so that they sum to at most one.

**The simulators.** Each simulator's validator (miner) class is a Dafny
`class`:
- `timing_strats.py` is a longest-chain simulation with a shuffled global
  `timeslots` list (every validator 20 times per batch); the model takes
  `timeslots` as any sequence of validator ids.
- `ghost_timing_strats.py` adds orphan handling, a randao-based proposer
  choice and several heads.
- `inclusive_ghost.py` builds blocks with two parents and scores them by the
  number of blocks that include them (`get_ancestors`, `get_head`,
  `get_totchain`).

**State and randomness.**
- The fields the source updates in place are class fields. Methods carry
  `modifies` clauses and state each field's new value, except for the
  methods named under "## Left out" with a weaker contract.
- Pure helpers are functions, and each is paired with lemmas.
- Randomness, clocks and the network are parameters:
  - `mint` and `draw` streams in Casper;
  - `nonce`, `sha` and `offline` in the simulators;
  - a `now` or `time` argument stands for the clock;
  - an `outbox`, `requests` log or `Deliver` method stands for the network.

Two facts about the code that the model follows:
- `finalized[h]` is not monotone in the code: `sign`
  (casper/casper.py:178-186) rewrites every height of its window on every
  call, so a decided height can be decided again, and differently. The model
  writes exactly what the code writes (`CasperBets.DecisionsWriteVerdicts`)
  and claims no monotonicity.
- casper/casper.py:165 calls `self.vote(votes)` with one argument, while
  `voting_strategy.vote` takes three. The Casper validator therefore takes
  its `vote` and `default_vote` as parameters, and `VotingStrategy` models
  `voting_strategy.vote` on its own. `VotingStrategy.Vote` is the function
  as written, including the key sum of casper/voting_strategy.py:50 (see
  Findings); `VotingStrategy.VoteIntended` is the corrected one.

## Model

| member | source | states |
|---|---|---|
| StateMaps.Lookup | ghost_timing_strats.py:93-94 | `get_state`/`dict.get`: the stored value for a present key, the default for a missing one |
| StateMaps.UpdateState | ghost_timing_strats.py:87-90 | the copy has the old keys plus `k`, maps `k` to `v`, and keeps every other key's value |
| StateMaps.LookupUpdate | timing_strats.py:42-49 | reading back after `update_state` gives the written value at `k` and the previous reading (present or default) at every other key |
| Dicts.IndexOf | casper/casper.py:240 | the position of the first entry with key `k`, if any |
| Dicts.Get | casper/casper.py:240 | a value is found exactly when the dictionary has the key, and it is the value of the first entry with that key |
| Dicts.Set | casper/casper.py:240 | assigning an existing key keeps the length and replaces that entry in place; a new key is appended at the end (insertion order) |
| Dicts.SetAt | casper/casper.py:240 | after assignment the key is present and maps to the new value |
| Dicts.IndexOfFirst | casper/casper.py:240 | no entry before the found index has the key |
| Dicts.GetSet | casper/casper.py:240 | reading after `d[k] = v` gives `v` at `k` and the old reading at every other key |
| Dicts.SetKeys | casper/casper.py:240 | assignment keeps keys distinct, keeps the key order, and adds a key only when it was new |
| Sorting.Insert | casper/voting_strategy.py:31 | inserting into a sorted list keeps it sorted and adds exactly one occurrence of the element |
| Sorting.Sort | casper/voting_strategy.py:31 | `sorted(probs)` is sorted and a permutation of its input |
| Sorting.Repeat | casper/casper.py:164 | `[my_opinion] * k` has length `k` |
| Sorting.RepeatAt | casper/casper.py:164 | every entry of `[x] * k` is `x` |
| Sorting.Min | casper/casper.py:167 | `min(a, b)` is at most both and is one of them |
| Sorting.Max | casper/voting_strategy.py:51 | `max(a, b)` is at least both and is one of them |
| VotingStrategy.Zeros | casper/voting_strategy.py:31 | `[0] * k` has `k` zero entries |
| VotingStrategy.Padded | casper/voting_strategy.py:31 | the padded list has the `n - len(probs)` zeros (none when negative) plus every vote, so at least `n` entries and the index `n // 3` is in range |
| VotingStrategy.PaddedSorted | casper/voting_strategy.py:31 | with non-negative votes (probabilities), the padded list is sorted and is a permutation of the votes plus the zeros |
| VotingStrategy.GetVoteFromScores | casper/voting_strategy.py:30-32 | the result is a padding 0 or one of the supplied votes |
| VotingStrategy.VoteIsPercentile | casper/voting_strategy.py:30-32 | at least `n/3 + 1` ballot entries are at most the result and at least `n - n/3` are at least it (the 33rd percentile of the zero-padded ballot) |
| VotingStrategy.CountBelowAboveResult | casper/voting_strategy.py:30-32 | for any threshold above the result, at least `n/3 + 1` ballot entries lie below it |
| VotingStrategy.CountBelowUpToResult | casper/voting_strategy.py:30-32 | for any threshold up to the result, at most `n/3` ballot entries lie below it |
| VotingStrategy.CountAboveBelowResult | casper/voting_strategy.py:30-32 | for any threshold below the result, all but at most `n/3` ballot entries lie above it |
| VotingStrategy.VoteIsRobust | casper/voting_strategy.py:30-32 | if at most `n/3` voters are adversarial and all honest votes lie in `[lo, hi]`, then the result lies in `[lo, hi]`: a minority cannot move it outside the honest range |
| VotingStrategy.VoteIsZeroWhenFewVotes | casper/voting_strategy.py:31-32 | with fewer than `n - n/3` votes, the zero padding decides and the result is 0 |
| VotingStrategy.BallotRaised | casper/voting_strategy.py:31 | changing one vote changes exactly the matching ballot entry behind the padding |
| VotingStrategy.VoteIsMonotone | casper/voting_strategy.py:30-32 | raising a single vote never lowers the aggregated result |
| VotingStrategy.MaxIndex | casper/voting_strategy.py:46 | `maxkey`: the first index whose score is maximal |
| VotingStrategy.SecondPass | casper/voting_strategy.py:50-51 | `o` keeps the keys in order and each value is at least, and one of, the first-pass value and the judgement scaled by the unclaimed mass |
| VotingStrategy.NormalizeAsWritten | casper/voting_strategy.py:39-51 | normalization with `sum(a1)` taken over the dictionary's keys, as the code iterates it: empty judgements give `{}`; otherwise the keys are those of the judgements, the top-scoring key gets at least `0.8 + 0.2 * score`, and every value is at least its first-pass value |
| VotingStrategy.NormalizeAsWrittenKeepsOnlyFirstPass | casper/voting_strategy.py:35-51 | as written, with positive keys (block hashes), scores in [0,1] and non-negative judgements, the opinions sum to at most 1 (the promise of the comment at lines 35-38), but only because every opinion equals its first-pass value: every key except the top one gets 0 |
| VotingStrategy.Normalize | casper/voting_strategy.py:39-51 | empty judgements give `{}`; otherwise the same keys, the top-scoring key gets at least `0.8 + 0.2 * score`, and every value is at least its first-pass value |
| VotingStrategy.NormalizeSumsToAtMostOne | casper/voting_strategy.py:35-38 | with scores in [0,1] and judgements in [0,1] summing to at most 1, the normalized values sum to at most 1 (the promise of the comment at lines 35-38) |
| VotingStrategy.ScaledNonNegative | casper/voting_strategy.py:50 | scaling a judgement by the unclaimed mass is non-negative when both are |
| VotingStrategy.ScaledAtMost | casper/voting_strategy.py:50 | a scaled judgement is at most the judgement when the factor is at most 1 |
| VotingStrategy.NormalizeAsWrittenLosesUnclaimedMass | casper/voting_strategy.py:50 | on a concrete input the as-written normalization gives the non-top block 0 where the corrected one gives it its share of the unclaimed mass |
| VotingStrategy.PercentilesOfKnownBlocks | casper/voting_strategy.py:23-24 | `pass1` has exactly the keys present in both `probs` and `default_judgements`, each value 0 or one of that block's votes |
| VotingStrategy.Vote | casper/voting_strategy.py:22-26 | `vote` as written, through the key-summing normalization: the result covers exactly the judged blocks, and some top-percentile key gets at least `0.8 + 0.2` times its percentile |
| VotingStrategy.VoteIntended | casper/voting_strategy.py:22-26 | `vote` through the corrected normalization: the same keys and the same bound on a top-percentile key |
| CasperTypes.ObjectHash | casper/casper.py:48 | object hashes lie below `10**14` |
| CasperTypes.MakeBlock | casper/casper.py:64-71 | a block keeps maker and height; its result type `Block` places the hash in `[10**21 + 10**23 * height, 10**21 + 10**23 * height + 10**20)`, the range of `randrange(10**20) + 10**21 + 10**23 * height` |
| CasperTypes.BlockHashDeterminesHeight | casper/casper.py:71 | equal block hashes mean equal heights, and a block hash never collides with an object hash below `10**14` |
| CasperTypes.NextSignature | casper/casper.py:42-57 | a signature keeps signer, bets, roots and max height; `prev` is the previous signature's hash (None for the first) and `seq` is its successor (0 for the first) |
| CasperTypes.NextSignatureExtendsLog | casper/casper.py:54-60 | appending the next signature keeps a signer's log linked by `prev` and numbered 0,1,2,…, and `sign_from == max_height - len(probs)` |
| CasperTypes.StateTransition | casper/casper.py:93-94 | no block leaves the state; a block gives a state in `[0, 10**40)` |
| CasperTypes.Clamp | casper/casper.py:203 | a bet is clamped into `[FINALITY_THRESHOLD, 1 - FINALITY_THRESHOLD]` and unchanged inside it |
| CasperTypes.ClampAll | casper/casper.py:203 | every bet of the emitted signature is clamped, in place and in order |
| CasperTypes.Pad | casper/casper.py:179-180 | `finalized_hashes` grows with None to length `i + 1` when shorter |
| CasperTypes.PadKeeps | casper/casper.py:179-186 | padding keeps every entry and adds only Undecided ones |
| CasperTypes.WindowStart | casper/casper.py:149-151 | `sign_from` is at most `max(0, max_finalized_height - 3)`, is 0 or a height with a block, and no block lies between it and that bound |
| CasperTypes.Lowered | casper/casper.py:150-151 | the descent stops at the nearest held block at or below the start, or at 0 |
| CasperTypes.Advanced | casper/casper.py:188-190 | `max_finalized_height` never decreases, every height it crosses is decided, and it stops before the first undecided height |
| CasperTypes.FoldStates | casper/casper.py:188-193 | each newly finalized height holds the transition of the previous state (genesis for height 0) under its block; no other entry changes |
| CasperTypes.SyncLast | casper/casper.py:195-200 | only the last entry of `states` is compared with the latest finalized state and overwritten; the roots sent are that entry or the whole list |
| CasperTypes.NonZeroKeepsExactlyNonZero | casper/casper.py:162 | filtering keeps exactly the non-zero votes |
| CasperTypes.BallotFillsWithOpinion | casper/casper.py:161-164 | the ballot is the non-zero votes followed by `NUM_VALIDATORS - len` copies of the own opinion |
| CasperTypes.Extend | casper/casper.py:237-238 | `received_signatures` is grown with empty maps to the needed length, with earlier heights kept |
| CasperTypes.MergeBets | casper/casper.py:236-240 | the merged bet list reaches one past the signature's last height |
| CasperTypes.PutBets | casper/casper.py:239-240 | writing a signature's bets keeps the list length |
| CasperTypes.PutBetsAt | casper/casper.py:239-240 | each covered height gets the signer's bet for that height, and every other height is unchanged |
| CasperTypes.MergeBetsReplacesOnlySigner | casper/casper.py:231-243 | after accepting a signature, only the signer's entries at heights the signature covers change, to its bets; other signers' bets are untouched |
| CasperTypes.ReplyStart | casper/casper.py:250-260 | the walk back finds the latest log entry whose `prev` is the requested hash, or reports that none has it |
| CasperTypes.ChildReply | casper/casper.py:250-260 | no reply exactly when no signature of the signer's log names the requested hash as `prev` |
| CasperTypes.ChildReplyIsChain | casper/casper.py:256-257 | a reply starts at the child of the requested signature, is linked by `prev`, and ends at the signer's latest signature |
| CasperTypes.InsertByLength | casper/casper.py:426 | insertion keeps the views ordered by length and adds exactly one view |
| CasperTypes.SortByLength | casper/casper.py:426 | `sorted(..., key=len)` orders the views by length and is a permutation of them |
| CasperTypes.SortByLengthKeepsSorted | casper/casper.py:426 | views already ordered by length are left as they are |
| CasperTypes.ByLengthCons | casper/casper.py:426 | a view no longer than the first keeps the list ordered when put in front |
| CasperTypes.SortedViewsPassWhenNeighboursAgree | casper/casper.py:427-433 | on views ordered by length, the check passes when each neighbouring pair agrees |
| CasperTypes.ConsistentPassesIntegrityCheck | casper/casper.py:426-433 | validators that agree on every height all have decided pass the integrity check (no false alarm) |
| CasperTypes.IntegrityCheckMissesClash | casper/casper.py:426-433 | three views exist where two validators finalized different blocks at one height and the neighbours-only check passes |
| CasperTypes.FirstDecided | casper/casper.py:429 | the first decided entry at a height, Undecided exactly when no view has decided it |
| CasperTypes.IntegrityCheckAgainstFirstIsExact | casper/casper.py:426-433 | the corrected check, comparing each view with the first decision at each height, passes exactly when all views agree wherever both decided |
| CasperBets.ReceivedTime | casper/casper.py:156 | a receive time exists exactly for heights with a block, and it is that block's recorded time |
| CasperBets.BetCap | casper/casper.py:159-167 | the bet never exceeds the aggregate; with the block held it is at most 1; without it, it is at most the own opinion; it is always one of those bounds or the aggregate |
| CasperBets.VerdictThresholds | casper/casper.py:178-186 | a height is decided absent exactly when the bet is at most the threshold, and present (with the block's hash) when the bet is at least `1 - threshold` and the block is held; otherwise no verdict |
| CasperBets.Tallies | casper/casper.py:152-176 | one tally per height of the window |
| CasperBets.TallyAt | casper/casper.py:152-176 | the k-th tally is that of height `sign_from + k` |
| CasperBets.FirstCrash | casper/casper.py:181 | the position of the first tally that raises, or the number of tallies |
| CasperBets.FirstCrashFirst | casper/casper.py:181 | no tally before the first crash raises, and the tally at it does |
| CasperBets.FirstCrashIs | casper/casper.py:181 | any position with no crash before it and a crash at it is the first crash |
| CasperBets.RequestedAppends | casper/casper.py:172-176 | a height adds at most one `BlockRequest`, only when its block is missing, and always when the aggregate exceeds 0.9 |
| CasperBets.DecidedWrites | casper/casper.py:178-186 | a verdict is written at its height, the list padded with Undecided; without a verdict the list is unchanged |
| CasperBets.Decisions | casper/casper.py:178-186 | the finalized list only grows, and never past the window |
| CasperBets.DecisionsWriteVerdicts | casper/casper.py:178-186 | after the loop each height with a verdict holds it, every other old entry is kept, and new entries are Undecided |
| CasperBets.DecisionsCoverVerdicts | casper/casper.py:178-186 | every height with a verdict lies within the new list |
| CasperBets.RequestsOnlyMissing | casper/casper.py:170-176 | the loop only appends to the outbox, and only `BlockRequest`s for missing heights of the window |
| CasperBets.RequestsAskForMissing | casper/casper.py:172-173 | every missing height whose aggregate exceeds 0.9 is requested |
| CasperBets.PadFinalized | casper/casper.py:179-180 | the padding loop computes `Pad` |
| CasperBets.TallyFor | casper/casper.py:156-167 | computes the opinion, aggregate, bet and verdict of one height |
| CasperBets.ComputeTallies | casper/casper.py:152-167 | computes the tallies of the whole window |
| CasperBets.RequestBlock | casper/casper.py:172-176 | appends the block request of one height, drawing the backoff coin when due |
| CasperBets.Finalize | casper/casper.py:178-186 | writes one height's verdict |
| CasperBets.BetsOf | casper/casper.py:169 | `best_guesses` has one bet per tally |
| CasperBets.BetsOfAt | casper/casper.py:169 | the k-th guess is the k-th tally's bet |
| CasperBets.Swept | casper/casper.py:152-186 | the loop's bets cover the window; the finalized list only grows, and never past the window |
| CasperBets.SweptGrows | casper/casper.py:152-186 | one more height is one more step of the loop |
| CasperBets.ApplyTallies | casper/casper.py:152-186 | the loop raises exactly when some height crashes, at the first such height; up to that point its effects are those of the sweep |
| CasperSign.FindWindowStart | casper/casper.py:149-151 | the loop computes the window start |
| CasperSign.AdvanceFinalized | casper/casper.py:188-193 | the loop advances `max_finalized_height` and folds the states as specified |
| CasperSign.SyncLastState | casper/casper.py:195-200 | the loop over the last state computes `SyncLast` |
| CasperSign.SignStep | casper/casper.py:146-206 | `sign` yields the signature (or the crash) and the new state the specification gives, keeping the bookkeeping invariant |
| CasperSign.SignOver | casper/casper.py:152-206 | the same, over computed tallies |
| CasperSign.Publish | casper/casper.py:188-206 | the tail of `sign` after the bet loop |
| CasperSign.SignedOverFailsAtFirstCrash | casper/casper.py:178-186 | signing fails exactly when some tally crashes, reporting the first such height, and then only the finalized list and the outbox have changed |
| CasperSign.TallyOfHeight | casper/casper.py:152-167 | the tally for a height is computed from that height's data |
| CasperSign.SignedFailsAtFirstCrash | casper/casper.py:178-181 | `sign` raises exactly when some window height has a bet of at least `1 - threshold` and no block, at the first such height |
| CasperSign.FirstCrashOfWindow | casper/casper.py:181 | the first crash of the tallies is the first crashing height of the window |
| CasperSign.SignedSucceedsWithoutCrash | casper/casper.py:146-206 | without a crashing height, `sign` returns a signature |
| CasperSign.SignedOverRecords | casper/casper.py:194 | `probs` keeps the prefix before the window and holds the window's bets after it |
| CasperSign.SignedRecordsBetsAndVerdicts | casper/casper.py:178-194 | on success the own bets are the old prefix plus the window's bets, and every verdict is written at its height |
| CasperSign.PublishedSignature | casper/casper.py:194-204 | the signature is signed by `pos`, has `max_height = len(received_blocks)`, `sign_from` equal to the window start, and the clamped window bets; it chains onto the previous own signature and becomes the latest |
| CasperValidator.StoreKeepsLogs | casper/casper.py:266 | storing a non-signature object keeps every signer's log stored |
| CasperValidator.AcceptKeepsLogs | casper/casper.py:235-242 | accepting a signature whose `prev` is the signer's latest extends that signer's log and keeps every log linked and stored |
| CasperValidator.WalkBack | casper/casper.py:250-260 | the walk through `received_objects` returns exactly the reply `ChildReply` describes on the signer's log |
| CasperValidator.Grow | casper/casper.py:237-238 | the growth loop computes `Extend` |
| CasperValidator.MergeInto | casper/casper.py:236-240 | grows and writes the signature's bets as `MergeBets` describes |
| CasperValidator.WriteBets | casper/casper.py:239-240 | the write loop computes `PutBets` |
| CasperValidator.Validator.constructor | casper/casper.py:99-134 | a validator starts with empty stores, `max_finalized_height = -1`, `next_height = pos` and no signatures |
| CasperValidator.Validator.Sign | casper/casper.py:146-206 | `sign` changes exactly the finality bookkeeping, own bets, outbox, random streams and latest own signature, as `Signed` describes |
| CasperValidator.Validator.Commit | casper/casper.py:146-206 | writes back the state `sign` computed |
| CasperValidator.Validator.Finalize | casper/casper.py:188-194 | writes back the finalized list, height, states and bets |
| CasperValidator.Validator.StoreBlock | casper/casper.py:219-223 | `received_blocks` and `states` grow together with None, the block sits at its height, other heights are unchanged, and its time is recorded |
| CasperValidator.Validator.ReceiveSignature | casper/casper.py:230-247 | a new signature is accepted exactly when its `prev` is the signer's latest hash: then its bets are merged, it is rebroadcast, becomes the latest and is stored; otherwise only a `SignatureChildRequest` naming the latest hash is broadcast |
| CasperValidator.Validator.AcceptSignature | casper/casper.py:235-267 | the accepting branch merges the bets, rebroadcasts, makes the signature the latest and stores it with its time |
| CasperValidator.Validator.Chain | casper/casper.py:242 | the signature becomes the signer's latest and is stored |
| CasperValidator.Validator.Stamp | casper/casper.py:267 | records the receive time |
| CasperValidator.Validator.RequestGap | casper/casper.py:244-247 | the rejecting branch broadcasts one child request with the latest hash and its `[seq, prev]` |
| CasperValidator.Validator.AnswerChildRequest | casper/casper.py:248-260 | the reply sent directly to the requester is the chain from the requested signature's child to the latest, oldest first; nothing when the chain does not reach it |
| CasperValidator.Validator.ReceiveBlock | casper/casper.py:217-228 | a new block is stored at its height; on success it is also stored as an object |
| CasperValidator.Validator.Announce | casper/casper.py:225-228 | the new signature is broadcast and received, then the block rebroadcast and stored |
| CasperValidator.Validator.Relay | casper/casper.py:228 | the block is rebroadcast and stored with its time |
| CasperValidator.Validator.Keep | casper/casper.py:266-267 | stores a non-signature object with its time |
| CasperValidator.Validator.AnswerBlockRequest | casper/casper.py:262-265 | the block held at the asked height is sent back directly to the requester; nothing is sent when no block is held there, and nothing else changes |
| CasperValidator.Validator.OnReceive | casper/casper.py:208-267 | an object whose hash is already known changes nothing; every kind keeps the validator's invariants |
| CasperValidator.Validator.Tick | casper/casper.py:270-285 | a block is made exactly when local time reaches `BLKTIME * next_height`; its height is in the validator's slot, `next_height` moves on by 20, the block is stored even when not broadcast, and broadcast exactly when the draw is below 0.9; `received_blocks` and `states` are padded with `None` up to the height and keep every other entry, `received_objects` and `time_received` gain exactly the new block's hash, and no signature, bet or finality field changes |
| CasperValidator.Validator.MakeNext | casper/casper.py:274-278 | the slot's block, with the broadcast coin |
| CasperValidator.Validator.Remember | casper/casper.py:283 | stores a non-signature object |
| GhostTiming.NewBlock | ghost_timing_strats.py:64-72 | a block's parent hash, height, total skips and randao follow from its parent (zero for genesis) |
| GhostTiming.HashEncodesHeight | ghost_timing_strats.py:70 | `hash // 10**23` is the block's height |
| GhostTiming.Genesis | ghost_timing_strats.py:81 | genesis has height, number and skips 0 and the blank state |
| GhostTiming.ScheduleIsGlobal | ghost_timing_strats.py:163-171 | between a parent and its child, the earliest produce and accept times differ by `BLKTIME + SKIPTIME * skips'` plus the change in delay terms: the schedule depends only on height and total skips |
| GhostTiming.ProduceAcceptGap | ghost_timing_strats.py:163-171 | produce and accept times differ only by the strategy's delays |
| GhostTiming.Rewarded | ghost_timing_strats.py:194-199 | the new state records the time and credits one block reward, the skips and the fees since the parent; other keys are kept |
| GhostTiming.GetValidator | ghost_timing_strats.py:57-61 | the proposer index is below the number of validators |
| GhostTiming.Validator.constructor | ghost_timing_strats.py:97-137 | a validator starts at genesis with `max_skips = 22` and empty queues |
| GhostTiming.Validator.LocalTime | ghost_timing_strats.py:154-155 | local time is the offset time, floored at 0 |
| GhostTiming.Validator.FirstSlot | ghost_timing_strats.py:177-179 | the least skip count at which this validator is proposer, or `max_skips` |
| GhostTiming.Validator.ChooseParent | ghost_timing_strats.py:176-183 | a chosen head has a slot for this validator below `max_skips`, is due at local time `t`, and was not built on yet |
| GhostTiming.Validator.ChooseParentIsFirst | ghost_timing_strats.py:176-183 | every head passed over before the chosen one has a slot but is not due or was built on already |
| GhostTiming.Validator.FindSkips | ghost_timing_strats.py:177-179 | the skip loop computes `FirstSlot` |
| GhostTiming.Validator.PickParent | ghost_timing_strats.py:176-183 | the head loop computes `ChooseParent` |
| GhostTiming.Validator.Outcome | ghost_timing_strats.py:186-201 | offline, missing transactions, or a block on the head crediting this validator |
| GhostTiming.Validator.Mine | ghost_timing_strats.py:173-209 | with no eligible head nothing changes; otherwise the head is marked used and a block is made and broadcast (when online) |
| GhostTiming.Validator.AddToListenQueue | ghost_timing_strats.py:158-161 | the object is appended to the list due at `time` |
| GhostTiming.Validator.ScoreAddition | ghost_timing_strats.py:227-230 | with `TOO_EARLY_SCORE = 1` every block adds 1 |
| GhostTiming.Validator.ProcessLchainScores | ghost_timing_strats.py:232-238 | score is parent + 1; a tie joins the heads, a win replaces them; heads stay top-scoring |
| GhostTiming.Validator.Orphan | ghost_timing_strats.py:283-290 | an orphan is filed under its parent and its parent requested |
| GhostTiming.Validator.Admit | ghost_timing_strats.py:306-317 | an accepted block is stored, timed, listed as a child and scored |
| GhostTiming.Validator.AcceptBlock | ghost_timing_strats.py:280-326 | parent unknown: orphaned and its parent requested, nothing else changes; known: nothing; too early: re-queued at twice the shortfall, nothing else changes; else accepted and stored, with known blocks never lost |
| GhostTiming.Validator.AdoptOrphans | ghost_timing_strats.py:320-326 | every orphan filed under the block leaves the orphan pool, and its file is removed |
| GhostTiming.Validator.AdoptOne | ghost_timing_strats.py:321-325 | one filed orphan is removed from the pool and accepted |
| GhostTiming.Validator.Unfile | ghost_timing_strats.py:324 | removes one orphan |
| GhostTiming.Validator.Listen | ghost_timing_strats.py:220-225 | every block due now is handled in order, the tick's queue is dropped, and no known block is lost |
| TimingStrats.ScoreAddition | timing_strats.py:15 | a block with skips adds at most 1, one without at least 1 |
| TimingStrats.NewBlock | timing_strats.py:28-34 | parent hash and height follow from the parent |
| TimingStrats.Genesis | timing_strats.py:36 | genesis has height and number 0 and the blank state |
| TimingStrats.Rewarded | timing_strats.py:110-114 | the new state records the time and credits the block reward plus the transaction reward |
| TimingStrats.SlotSkips | timing_strats.py:103-105 | the least skip count whose slot is this validator's, or none when the slot list runs out (the `IndexError`) |
| TimingStrats.AdmitKeepsHeaviest | timing_strats.py:166-172 | accepting a block keeps the head at a top-scoring block |
| TimingStrats.AscendingExtend | timing_strats.py:124 | produced block numbers keep ascending |
| TimingStrats.Validator.constructor | timing_strats.py:52-87 | a validator starts at genesis with empty queues |
| TimingStrats.Validator.LocalTime | timing_strats.py:91-92 | local time is the offset time, floored at 0 |
| TimingStrats.Validator.AddToListenQueue | timing_strats.py:95-98 | the object is appended to the list due at `time` |
| TimingStrats.Validator.FindSkips | timing_strats.py:103-105 | the skip loop computes `SlotSkips` |
| TimingStrats.Validator.Mine | timing_strats.py:100-124 | slots exhausted, not due, transactions missing, or a block past the head; a block raises `min_number` to its number |
| TimingStrats.Validator.Admit | timing_strats.py:166-172 | the block is stored, scored and may become the head |
| TimingStrats.Validator.Defer | timing_strats.py:148-149 | re-queues a block and allots its time |
| TimingStrats.Validator.Receive | timing_strats.py:138-172 | every branch of the loop body, including the failing assertion at line 147, each with the fields it changes and every other field unchanged |
| TimingStrats.Validator.Listen | timing_strats.py:135-175 | the tick's blocks are handled in order, the queue entry dropped, and allotted times checked |
| TimingStrats.Validator.CheckAlotted | timing_strats.py:174-175 | the check passes exactly when every allotted time is in the future |
| InclusiveDag.GetAncestors | inclusive_ghost.py:22-29 | the walk adds exactly `block` and its ancestors to `out` |
| InclusiveDag.Ancestors | inclusive_ghost.py:22-29 | `get_ancestors(block)` is exactly the block and its ancestors, and includes each parent's ancestors |
| InclusiveDag.SubTrans | inclusive_ghost.py:22-29 | ancestry is transitive and ancestors are strictly smaller |
| InclusiveDag.NotBelowParent | inclusive_ghost.py:15-18 | no block is an ancestor of its own parent |
| InclusiveDag.ClosedAtParent | inclusive_ghost.py:26-28 | what the walk has visited leaves each next parent closed |
| InclusiveGhost.Register | inclusive_ghost.py:19-20 | `all_blocks` gains the number once and stays duplicate-free |
| InclusiveGhost.Registry.constructor | inclusive_ghost.py:13 | `all_blocks` starts empty |
| InclusiveGhost.Registry.Add | inclusive_ghost.py:19-20 | registers one number |
| InclusiveGhost.Weight | inclusive_ghost.py:84-87 | a block's score counts accepted blocks that include it; it is positive exactly when some accepted block does |
| InclusiveGhost.CreditKeepsScored | inclusive_ghost.py:84-87 | crediting keeps every stored block scored |
| InclusiveGhost.Missing | inclusive_ghost.py:70-74 | the missing parents are requested, and none are missing exactly when all are held |
| InclusiveGhost.Unseen | inclusive_ghost.py:127 | keeps exactly the entries not yet in `h` |
| InclusiveGhost.StoredReach | inclusive_ghost.py:78 | ancestors of stored blocks are stored and numbered lower |
| InclusiveGhost.StoreKeepsStored | inclusive_ghost.py:78 | storing a block whose parents are held keeps the store closed |
| InclusiveGhost.WeightSnoc | inclusive_ghost.py:86-87 | accepting a block adds one to exactly its ancestors' scores |
| InclusiveGhost.ChildAbove | inclusive_ghost.py:79-82 | a child is numbered above its parent |
| InclusiveGhost.HeaviestStep | inclusive_ghost.py:103-110 | taking the highest-scoring child extends a heaviest path |
| InclusiveGhost.TotChain | inclusive_ghost.py:119-129 | the chain lists each unscanned ancestor once, parents before children, ending at the head |
| InclusiveGhost.TotChainEnd | inclusive_ghost.py:128 | appending the head completes the chain |
| InclusiveGhost.Miner.constructor | inclusive_ghost.py:32-40 | a miner starts with the `-1` genesis as its only head and block |
| InclusiveGhost.Miner.Mine | inclusive_ghost.py:45-56 | mines exactly at its turn with the draw below `1/BLKTIME`; the block's parents are the first two heads; a head not below it fails the assertion |
| InclusiveGhost.Miner.Deliver | inclusive_ghost.py:54-56 | the block is appended to the list due at `at` |
| InclusiveGhost.Miner.RequestMissing | inclusive_ghost.py:70-77 | every missing parent is requested, and the block is kept exactly when none is |
| InclusiveGhost.Miner.Store | inclusive_ghost.py:78-82 | stores the block and lists it as its parents' child |
| InclusiveGhost.Miner.Tally | inclusive_ghost.py:86-87 | each ancestor's score rises by one, all others kept |
| InclusiveGhost.Miner.BestChild | inclusive_ghost.py:104-109 | a highest-scoring child |
| InclusiveGhost.Miner.GetHead | inclusive_ghost.py:101-111 | the head is a childless block reached by following highest-scoring children |
| InclusiveGhost.Miner.MaxOutside | inclusive_ghost.py:92-95 | the largest block number outside the head's ancestry, or none |
| InclusiveGhost.Miner.Retarget | inclusive_ghost.py:88-96 | heads become the head and the largest block not in its ancestry |
| InclusiveGhost.Miner.Credit | inclusive_ghost.py:84-87 | scores rise by one on the block's ancestry |
| InclusiveGhost.Miner.Accept | inclusive_ghost.py:78-96 | the block is stored, credited and the heads retargeted |
| InclusiveGhost.Miner.Receive | inclusive_ghost.py:69-98 | with all parents held the block is accepted; otherwise only requests are made |
| InclusiveGhost.Miner.ReceiveQueued | inclusive_ghost.py:69-98 | one queued block is received |
| InclusiveGhost.Miner.Listen | inclusive_ghost.py:66-99 | every due block whose parents were held is accepted, and the tick's queue is dropped |
| InclusiveGhost.Miner.ChainFrom | inclusive_ghost.py:113-117 | follows first parents down to `-1`, strictly decreasing |
| InclusiveGhost.Miner.GetChain | inclusive_ghost.py:113-117 | the same, from the head |
| InclusiveGhost.Miner.GetTotChain | inclusive_ghost.py:119-129 | the total chain lists each ancestor of the head once, parents first, ending at the head |

## Left out

- The network: `networksim` and `distributions` are not part of this model. Latencies are not modelled, and broadcasts and direct sends become outbox entries.
- Randomness: random draws are supplied values.
  - `random.randrange` hash parts are `mint`/`nonce`.
  - `random.random()` coins are `draw`/`offline`.
  - `sha256_as_int` is the `sha` parameter.
- Casper's clock: the clock offset drawn from a normal distribution becomes the `now` argument.
- `get_opinions`, `calibrate`, `calc_rewards`, `run`, the module-level simulation loops, `Simulation.run`, `simple_test` and `evo_test`: reporting and drivers outside the core.
- The casper3 directory, `compute_scoring_rule_constants.py` and `selfish_mining_strats.py`: outside the core.
- `default_vote`, `vote`, `aggressive_vote` and `craycray_vote` in casper.py: the Casper validator takes them as uninterpreted parameters.
- Finalization monotonicity: the code does not keep it.
- `all_signatures`: the global log of casper.py:205, which only reporting reads.
- `log` and every `print` call.
- `process_ghost_scores`: unused while `USING_GHOST = 0`.
- `gvcache`: a memo table with no effect on results.
- `request_block` in all three simulators: it scans other validators, so it is recorded as a `requests` log entry.
- The `0.05` backoff: modelled through `draw`.
- InclusiveGhost.Miner.GetHead: the source's tie-break among equal children depends on set iteration order. The model picks any maximal child.
- InclusiveGhost.Miner.Listen: does not model the `heads = []` branch (inclusive_ghost.py:97-98), which is unreachable once a block was stored. It states acceptance only for blocks whose parents were held before the tick; a block whose parent arrives earlier in the same batch is received but not summarized.
- InclusiveGhost.Miner.Receive: requires block numbers to identify blocks (the source keys everything by number). Duplicate deliveries of a held block are credited again, as in the source.
- InclusiveGhost.Miner.Mine: a negative local time can fire the assertion; the model returns `OutOfOrder` there.
- CasperValidator.Validator.ReceiveBlock: states storage and the success case. The full new state is stated piecewise by StoreBlock, Sign and Announce.
- CasperValidator.Validator.OnReceive: states only the duplicate case and the invariants. Each kind's effect is stated by the method it dispatches to (ReceiveSignature, ReceiveBlock, AnswerChildRequest, AnswerBlockRequest, Keep), and a batch is received element by element.
- VotingStrategy.MaxIndex, VotingStrategy.Normalize, VotingStrategy.NormalizeAsWritten, VotingStrategy.Vote and VotingStrategy.VoteIntended: `max(block_results.keys(), ...)` breaks ties among equal scores by the Python 2 interpreter's hash-table iteration order; the model breaks them by the order of `default_judgements` as listed, so on a tie it may pick a different top block than the interpreter. The contracts hold for the top block the model picks, which is one of the maximal ones.
- CasperValidator.Validator.Announce: states only the last outbox entry and the stored block. ReceiveSignature states the rest.
- GhostTiming.Validator.Listen: states the arrivals, the queue and kept blocks. AcceptBlock states each block's handling.
- GhostTiming.Validator.AdoptOrphans: states that the filed orphans leave the pool, not which of them were accepted.
- GhostTiming.Validator.AcceptBlock: the `del self.orphans[blk.hash]` at lines 311-312 never finds the block, because orphans are removed before they are accepted again. The model keeps the pool as is. The accepted branch states only that the block is stored and no orphan file is left under it: Admit states its score, arrival time, place among its parent's children and the head update, and AdoptOrphans the orphans accepted after it, but the chain of the two is not summarized.
- TimingStrats.Validator.Listen: states the outcome for the tick and the invariants. Receive states each block's handling.
- TimingStrats.Rewarded: floating-point rewards (`0.00001 * ticks`) are exact reals.
- TimingStrats.ScoreAddition: floating-point scores (`1.0 - 0.00001 * skips`) are exact reals.

## Findings

| source | as written | input that shows it | evidently intended | confidence | as-written member | corrected member |
|---|---|---|---|---|---|---|
| casper/voting_strategy.py:50 | `1 - sum(a1)` iterates the dictionary `a1`, so it sums block keys, not first-pass values | `block_results = {7: 0.9}`, `default_judgements = {7: 0.5, 9: 0.9}`: the key sum 16 makes block 9 get 0 instead of `0.9 * 0.02 = 0.018` | `1 - sum(a1.values())`: unclaimed mass goes to the other blocks and the result still sums to at most 1 | not executed | VotingStrategy.NormalizeAsWrittenLosesUnclaimedMass | VotingStrategy.NormalizeSumsToAtMostOne |
| casper/casper.py:426-433 | after sorting by length, only neighbouring validators are compared, and heights where either is undecided are skipped | finalized lists `[x]`, `[None, z]`, `[y, z, z]` with `x != y`: every neighbouring pair agrees, but the first and third validator finalized different blocks at height 0 | every pair of validators agrees on every height both decided | not executed | CasperTypes.IntegrityCheckMissesClash | CasperTypes.IntegrityCheckAgainstFirstIsExact |
