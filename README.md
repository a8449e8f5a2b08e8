# Shroudnode eligibility core, modelled in Dafny

This project models the per-node logic of the ShroudX shroudnode tier
(`src/shroudnode.cpp`): the record of one collateral-staked node
(`CShroudnode`), its eight-state reconciliation `Check` with the PoSe
(proof-of-service) ban, the merge of a newer announcement (`CShroudnodeBroadcast`),
the heartbeat pipeline (`CShroudnodePing`), the collateral-outpoint
validation, the ranking score and the backward scan for the node's last payout.

Everything the code obtains from elsewhere is an explicit input: the clock,
the chain tip and block index, the UTXO lookup, the sync state, the watchdog
flag, the minimum payment protocol and the locally running node are fields
of `Env`; signature checks, script derivation and address validity are the
functions in `Oracles`; the hash of `CalculateScore` is a pair of function
parameters; the constants of `shroudnode.h` are the uninterpreted `Consts`.

Modules:

- `ShroudTypes` (types.dfy): identifiers, the ping and broadcast messages,
  `NodeState`, `Consts`, `Env`, `Oracles`, `IsPingedWithin`, `StateToString`.
- `Score` (score.dfy): `CalculateScore`.
- `NodeCheck` (nodecheck.dfy): `Check` as the function `Reconcile` on the
  four fields it writes, its state ladder, and lemmas over runs of checks.
- `Messages` (messages.dfy): the ordered acceptance tests of pings and
  broadcasts and of `CheckOutpoint`, each returning the verdict and nDos.
- `Payout` (payout.dfy): the backward payout scan as the function `FindPaidBlock`.
- `Node` (node.dfy): the class `NodeRecord`, whose methods update the record
  in place and are proved against the functions above.

`shroudnode.h` is not part of this model. Its predicates are given the
definitions of the code base this file descends from: `IsPingedWithin(s, t)`
holds when a (non-default) ping exists and `t - lastPing.sigTime < s`, where
a `t` of -1 (also the default argument) stands for the current time, so the
spacing test of a ping signed at time -1 measures from now (`SpacingTime`);
`IsBroadcastedWithin(s)` is `now - sigTime < s`; `DecreasePoSeBanScore`
lowers the score by one unless it is already at `-SHROUDNODE_POSE_BAN_MAX_SCORE`;
`IsPoSeBanned`, `IsExpired`, `IsUpdateRequired` and friends compare `nActiveState`;
and the `==`/`!=` of `CShroudnodePing` (used at lines 123, 382 and 660, and
inside `IsPingedWithin`) compares only the input and the anchor block hash,
not the signature time or the signature (`SamePing`, `IsNullPing`).

## Behaviour of the code worth noting

- The ban score is not confined to `[0, MAX]`: `UpdateFromNewBroadcast` sets it to `-SHROUDNODE_POSE_BAN_MAX_SCORE` for
  our own node (src/shroudnode.cpp:128-129), and the decrement allows
  negative scores.
- The merge guard rejects `mnb.sigTime <= sigTime` without recovery, so an
  equal signature time is also refused (src/shroudnode.cpp:112).
- `CShroudnodeBroadcast::SimpleCheck` does not always reject with nDos 0 for
  an outdated protocol, a bad port, or on success: the embedded ping's own
  check may have left nDos at 1 (a ping signed more than an hour ahead), and
  the later plain `return false` / `return true` keep it
  (src/shroudnode.cpp:660, 665-667, 694-699). `BroadcastSimpleCheck` returns that value.
- In the payout scan a voted block that cannot be read from disk is retried
  by `continue` without moving to its predecessor, so the remaining
  iterations never reach earlier blocks (src/shroudnode.cpp:529-533);
  `StuckOnUnreadableBlock` states this.
- Under the ping equality above, `SetLastPing` (src/shroudnode.cpp:381-387)
  does not store an accepted ping anchored at the same block as the held
  one, so the record keeps the older signature time (`StoredPing`).
- `CalculateScore` does not separate every pair of collateral references:
  aux = txid + index gives `(h, n + 1)` and `(h + 1, n)` the same score for
  every block (`AdjacentOutpointsShareScore`).

## Model

| member | source | states |
|---|---|---|
| ShroudTypes.StateToString | src/shroudnode.cpp:341-362 | every state has one of the eight names, never "UNKNOWN" |
| ShroudTypes.StateToStringInjective | src/shroudnode.cpp:341-362 | distinct states print differently |
| Score.Aux | src/shroudnode.cpp:149 | aux is txid + index, wrapping modulo 2^256 |
| Score.CalculateScore | src/shroudnode.cpp:148-161 | the score is the absolute difference of the two hashes: 256-bit, zero iff they agree, smaller hash + score = larger |
| Score.ScoreDependsOnlyOnAux | src/shroudnode.cpp:148-161 | the collateral reference influences the score only through aux |
| Score.AdjacentOutpointsShareScore | src/shroudnode.cpp:149 | two distinct outpoints (h, n+1) and (h+1, n) always get the same score |
| NodeCheck.DecreasedBanScore | src/shroudnode.cpp:199 | the decay lowers the score by exactly one, and only while above -MAX |
| NodeCheck.Ladder | src/shroudnode.cpp:208-285 | UPDATE_REQUIRED iff the protocol test fails; a foreign node waiting for a ping keeps a dead state; for a node judged on its pings the first failing test decides: no ping within the new-start window gives NEW_START_REQUIRED, then an expired watchdog WATCHDOG_EXPIRED, then no ping within the expiration window EXPIRED; a node past (or exempt from) these is PRE_ENABLED or ENABLED by the ping-to-broadcast delay; NEW_START_REQUIRED only from a missing ping or the state it already had; never OUTPOINT_SPENT or POSE_BAN |
| NodeCheck.Reconcile | src/shroudnode.cpp:163-286 | throttled or shut down: nothing changes; OUTPOINT_SPENT is kept and only its check time moves; busy lock: only the check time moves; missing coin: OUTPOINT_SPENT; full score: POSE_BAN until height + list size; banned below that height: unchanged; from that height on: the score decays by one and the ladder decides the state from POSE_BAN; a ban needs a full score |
| NodeCheck.RecheckIsIdempotent | src/shroudnode.cpp:168-169 | a second unforced check at the same time changes nothing |
| NodeCheck.SpentIsTerminal | src/shroudnode.cpp:173-174 | no sequence of checks leaves OUTPOINT_SPENT |
| NodeCheck.BanHoldsUntilHeight | src/shroudnode.cpp:193-194 | with the coin unspent, every run of checks below the ban height keeps POSE_BAN, score and ban height |
| Messages.PingDos | src/shroudnode.cpp:913-928 | a ping verdict costs 1 for a future time, 33 for a bad signature, else 0 |
| Messages.PingSimpleCheck | src/shroudnode.cpp:921-944 | accepted iff signed at most an hour ahead and anchored at a known block |
| Messages.PingVerdictFor | src/shroudnode.cpp:946-992 | a ping is stored iff it passes, in order, the simple check, the record exists, the record is not UPDATE_REQUIRED/NEW_START_REQUIRED (unless from a new broadcast), the anchor is at most 24 blocks old, it is not within MIN_MNP - 60 s of the stored ping, and its signature verifies with the operator key; the BadSignature refusal (nDos 33) happens exactly when every earlier test passes and the signature fails |
| Messages.PingSpacing | src/shroudnode.cpp:984-990 | a second ping less than MIN_MNP - 60 s after the stored one (measured from now when its time is -1) is refused with no penalty beyond a future-time 1; one at least that late passes the spacing test |
| Messages.NoBroadcastOnBothNetworks | src/shroudnode.cpp:694-697 | no broadcast passes SimpleCheck both on mainnet and on another network with the same mainnet default port |
| Messages.BroadcastSimpleCheck | src/shroudnode.cpp:642-700 | accepted iff address valid, at most an hour ahead, protocol met, both scripts 25 bytes, empty scriptSig and the port rule; invalid address: nDos 0; future time: nDos 1; nDos 100 exactly for a malformed script or scriptSig; otherwise nDos is 1 exactly when the embedded ping is signed more than an hour ahead, else 0; a bad or empty ping only marks the broadcast EXPIRED |
| Messages.BadPingOnlyExpires | src/shroudnode.cpp:659-663 | a well-formed broadcast with a bad ping is accepted and marked EXPIRED |
| Messages.SigTimeGate | src/shroudnode.cpp:705-717 | passes iff the broadcast is strictly newer, or equal with recovery; refusals cost 0 |
| Messages.SigTimeGateAdmitsMerge | src/shroudnode.cpp:111-112 | a broadcast past Update's gate is never refused by the merge guard and never moves the signature time back |
| Messages.AdmissionGate | src/shroudnode.cpp:719-737 | passes iff not banned after the check, same collateral key, and a valid signature; costs 0, 33 and 100 respectively |
| Messages.CheckOutpoint | src/shroudnode.cpp:754-827 | accepted iff not our own active node, signature valid, lock free, coin present with exactly the required value and enough confirmations, key associated, and the signature not older than the confirming block; our own node: the caller's nDos; bad signature: 100; unassociated key after every earlier test: exactly the nDos 33 refusal; missing coin, wrong value or backdated signature: 0; the busy lock and too few confirmations are exactly the retryable refusals, with 0 |
| Payout.FindPaidBlock | src/shroudnode.cpp:508-555 | a found block lies within the budget, above the last paid height like every block before it, is a confirmed payment, and is the first confirmed one scanned |
| Payout.NoPaymentMissed | src/shroudnode.cpp:522-542 | with every block readable, a confirmed payment within the budget above the last paid height is always found |
| Payout.StuckOnUnreadableBlock | src/shroudnode.cpp:525-533 | a voted block that cannot be read ends the scan with nothing found |
| Node.ClampRank | src/shroudnode.cpp:405-412 | the stored rank is the requested one when within [0, list size], else 0 |
| Node.NodeRecord.constructor | src/shroudnode.cpp:44-63 | a new record is ENABLED, signed now, with no ping, zero ban score, ban height and payout history |
| Node.NodeRecord.FromBroadcast | src/shroudnode.cpp:86-105 | a record from a broadcast takes its identity, ping and state; watchdog time = signature time; counters zero |
| Node.NodeRecord.SetStatus | src/shroudnode.cpp:373-379 | sets the state; notifies once exactly when the state changed and the node is ours |
| Node.NodeRecord.SetLastPing | src/shroudnode.cpp:381-387 | the held ping becomes the new one unless the two are equal under the ping's equality; notifies only on such a change of our node |
| Node.NodeRecord.SetTimeLastPaid | src/shroudnode.cpp:389-395 | sets the paid time; notifies only on an actual change of our node |
| Node.NodeRecord.SetBlockLastPaid | src/shroudnode.cpp:397-403 | sets the paid height; notifies only on an actual change of our node |
| Node.NodeRecord.SetRank | src/shroudnode.cpp:405-412 | a different rank is stored clamped; a repeated one is left alone; notifies when the request differed |
| Node.NodeRecord.DecreasePoSeBanScore | src/shroudnode.cpp:199 | the score becomes DecreasedBanScore of the old one |
| Node.NodeRecord.UpdateWatchdogVoteTime | src/shroudnode.cpp:1048-1051 | the watchdog vote time becomes now |
| Node.NodeRecord.Check | src/shroudnode.cpp:163-286 | the state, check time, ban score and ban height become Reconcile of the old ones; nothing else changes; a notification iff our node's state changed |
| Node.NodeRecord.ApplyLadder | src/shroudnode.cpp:208-285 | the state becomes Ladder of the old state |
| Node.NodeRecord.GetCollateralAge | src/shroudnode.cpp:488-506 | -1 when the chain is busy or empty; the collateral height is cached once from a positive input age and later ages are computed from the cache |
| Node.NodeRecord.UpdateLastPaid | src/shroudnode.cpp:508-555 | paid height and time become those of FindPaidBlock's block, or stay; the paid height never decreases; our node is notified for the new height and, if it differs, the new time |
| Node.NodeRecord.CheckAndUpdatePing | src/shroudnode.cpp:946-1023 | nDos is that of PingVerdictFor; a refused ping leaves the record and its notifications untouched; an accepted one is stored as SetLastPing stores it, a forced Reconcile follows, the result is whether the record is ENABLED, and the notifications are the sync bump plus our node's ping and state changes |
| Node.CheckAndUpdate | src/shroudnode.cpp:946-957 | with no record the ping is refused with the simple check's nDos; otherwise as CheckAndUpdatePing: identity, payout, watchdog, cache and rank fields untouched, a refused ping changes nothing, an accepted one is stored, followed by a forced Reconcile, with the same notification count |
| Node.NodeRecord.StoreAcceptedPing | src/shroudnode.cpp:994-1018 | the accepted ping is stored, a forced Reconcile follows, and the sync bump and our node's changes are notified |
| Node.NodeRecord.AdoptEmbeddedPing | src/shroudnode.cpp:122-126 | an empty embedded ping is stored as SetLastPing stores it; another is stored and the record re-checked exactly when the ping pipeline accepts it, else nothing changes; notifications as in SetLastPing and CheckAndUpdatePing |
| Node.NodeRecord.TakeIdentity | src/shroudnode.cpp:114-121 | operator key, signature time, signature, protocol and address become the broadcast's; ban score, ban height and check time become 0 |
| Node.NodeRecord.UpdateFromNewBroadcast | src/shroudnode.cpp:111-141 | an older-or-equal broadcast without recovery changes nothing; otherwise the identity is copied, ban score, ban height and check time reset before the embedded ping is processed (empty, refused and accepted cases spelled out, with their notifications), our own node gets score -MAX and is refused under a foreign protocol version |
| Node.Update | src/shroudnode.cpp:702-752 | the signature-time gate leaves the record untouched; then one Check; ok iff the admission gate passes, with its nDos; without a merge only the Check's effect remains; with a merge the identity fields are the broadcast's |

## Left out

- Cryptography: `Sign`, `CheckSignature`, `SignMessage`/`VerifyMessage`, `CHashWriter` and `GetHash` are the oracle functions `verifyPing`, `verifyBroadcast` and the two hash parameters of `CalculateScore`.
- Locks (`LOCK`, `TRY_LOCK` on `cs`, `cs_main`, `cs_mapShroudnodeBlocks`): only the "busy" outcome of a try-lock is an input; concurrency is not modelled.
- Chain and disk access (`pcoinsTip->GetCoins`, `chainActive`, `mapBlockIndex`, `GetTransaction`, `ReadBlockFromDisk`, `GetInputAge`) are replaced by `Env`, `CoinView` and the abstract block sequence of `Payout`.
- Relaying (`RelayShroudNode`, `CShroudnodePing::Relay`) and the seen-message maps of the node manager (the insert at line 125, the erase at lines 771 and 792, the broadcast patch at lines 1009-1014) belong to external collaborators; `CheckOutpoint`'s `retry` flag stands for the erase.
- `activeShroudnode.ManageState()` (line 132) and `shroudnodeSync.AddedShroudnodeList()` are external; the latter only appears as the change notification it accompanies.
- `CShroudnodeBroadcast::Create` (lines 557-640) and the `CShroudnodePing` constructor (lines 878-886) depend on the wallet, key parsing and the reindex flags; only their port rule is modelled, as `PortAllowed`.
- `IsValidNetAddr` (lines 288-290 and 304-309) is the oracle `validNetAddr`; `IsMyShroudnode` (lines 311-321) is the constant `isMine` of a record.
- `IsValidForPayment` (lines 292-302), `GetStateString`, `GetStatus`, `ToString`, `ToJSON`, `GetInfo` and logging are presentation or one-line state tests and are not modelled.
- The default constructor (lines 23-42) and the copy constructor (lines 65-84) only initialise or copy fields; the model has the two constructors that take values.
- `CShroudnodeBroadcast::CheckSignature` (lines 852-870) and `CShroudnodePing::CheckSignature` (lines 908-919) are the oracles; only their nDos (100 and 33) appear, in `AdmissionGate` and `PingDos`.
- The legacy fields `nLastDsq` and `fAllowMixingTx`, and the test-only `fUnitTest` (false in every constructor), carry no logic here and are not modelled.
- `GetTime()` and `GetAdjustedTime()` are one clock, `Env.now`.
- `StateToString` takes a `NodeState` rather than an `int`, so its "UNKNOWN" fallback cannot arise.
- `nRank` is not initialised by the source's constructors; the model starts it at 0.
- Integer widths: times are `int64_t` and heights, ban score, nDos and rank are `int` in the source, while the model's `int` is unbounded, so overflows such as in `lastPing.sigTime - sigTime` (line 274) or `nHeight + mnodeman.size()` (line 203) cannot happen in the model.
- The change notification that `SetStatus(SHROUDNODE_EXPIRED)` raises on the broadcast object inside `SimpleCheck` (lines 662 and 373-378) is not modelled; `BroadcastSimpleCheck` only returns the broadcast marked EXPIRED.
- The commented-out governance code (lines 1030-1046 and 1053-1071) is dead and not modelled.
- Node.Update: after a merge, the contract gives the copied identity fields but not the record's standing after the second Check nor the outcome of the embedded ping; its change notifications are not stated.
