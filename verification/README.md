# LimitMark defense mechanisms: a verified model

A Dafny model of the mechanisms under `defense/` (and the parts of `lab/defense` and `operator` that judge or feed them), with proofs of what
they promise. `dafny verify dfyconfig.toml` checks all of it. Objects whose methods update their fields are classes proved against a
specification on values; the laws are lemmas about that specification, over every run or every input.

- **L2 journey lanes** (`TokenBuckets`, `CreditFilters`, `UseLedgers`, `Requests`, `JourneyLanes`, `LaneRuns`, `CreditWindows`,
  `LaneObservation`): exact-integer buckets, the two-generation Bloom filter, the use ledger, and the lanes that combine them. The clock is an
  arbitrary non-decreasing sequence of real readings; every call has three, so it may move within a call. Statements that begin at a state `r`
  with `Inv(cfg, r)` cover every reachable one: `LaneRuns.BeginsWell` and `LaneRuns.RunKeeps`.
- **Bulkhead and stage** (`Composers`, `L2Stages`, `Tallies`): the composer as interleaved steps with per-run flags, the stage on top of it, and
  the accounting of discarded verdicts.
- **Two-hop proofs** (`Base64`, `Decimals`, `Utf8`, `SemanticRequests`, `WireScans`, `HopProofs`, `HopEnvelopes`, `HopSizes`, `HopIssuing`,
  `ReplayGuards`, `HopAdmissions`, `HopRuns`, `HopRestarts`, `HopReopenings`, `HopLimits`, `ShapeGates`, `HopChains`): Plane to Boundary to App. Signatures are symbolic: one
  verifies exactly when its key's owner signed those octets for that role. The Boundary may be compromised: it signs whatever it likes with its own key,
  and anybody presents any headers in any order. The base64url codec (section 5 of RFC 4648), the claims' JSON text and the sizes are concrete.
- **Lifecycle** (`LifecycleEvents`, `Automata`, `Lifecycles`, `CleanRecords`, `Accounts`, `Identities`, `Lineages`, `EventChannels`): event
  automata over arbitrary streams, both validators, the accounting derived from records, and the flow-controlled event channel.
- **Hand-written parsers** (`StrictJson`, `JsonGrammar`, `JsonPrinter`, `Forms`): the strict JSON reader against the grammar of RFC 8259, and
  the two independent readers of the submission token.

What did not hold as promised, with the exact condition under which it does:

- The unverified discard counter (`defense/core/lanes.ts:346-350`) is the number of discarded unverified decisions plus the number of open requests
  whose evaluation errored; it is exact if and only if there was none (`L2Stages.UnverifiedDiscardsAreExactIff`), and any open request whose verdict
  comes late is one (`L2Stages.OpenDiscardIsMisfiled`). Per-lane claims are counted on decisions.
- "Every protected-origin receipt resolves" does not follow from clean records: it holds if and only if no failed attempt with a receipt lacks its
  finish event (`Identities.ReceiptsResolveIff`, `Identities.FinishCanBeLost`).
- "No reject has a reason outside the closed list" does not follow either: it holds if and only if no protected record of four events has a rejection
  without a listed reason as its third (`Identities.ReasonsKnownIff`, `Identities.ReasonCanBeMissing`). An unlisted reason gets past validation only if
  the plane answered without a status or not at all (`Identities.UnlistedIsCaught`).
- Single use survives any number of restarts for proofs first presented no earlier than their issue time and before each later fence
  (`HopRestarts.OncePerProofAcrossRestarts`). Otherwise a reserved proof can be reserved again after a restart if and only if neither it nor the Plane
  proof it commits to was issued before the new fence and the new guard has room (`HopReopenings.RestartReopensIff`); the Plane proof alone, if and
  only if it was not issued before the new fence (`HopReopenings.PlaneProofReopensIff`). A proof accepted within the skew *before* its issue time is
  such a proof (`HopLimits.EarlyProofReopens`, `HopLimits.RestartReservesTwice`).
- The retention arithmetic needs wall and monotonic clock to drift apart by strictly less than 1000 ms: at exactly 1000 ms one proof is reserved twice
  by a guard that was never restarted (`HopLimits.DriftBoundIsTight`).

## Model

| member | source | states |
|---|---|---|
| TokenBuckets.TokenBucket.TakeOne | defense/core/lanes.ts:126-132 | refills, then either takes exactly one unit or sheds; the new level, clock and three counters are those of the specified take, and a failed take consumes nothing |
| TokenBuckets.TokenBucket.Refill | defense/core/lanes.ts:119-123 | adds the elapsed floored milliseconds times the rate, capped at capacity; a clock that does not advance changes nothing |
| TokenBuckets.WindowBound | defense/core/lanes.ts:97-137 | a sorted and spaced log of takes, as a bucket's own log is, has at most capacity plus the refill of the window in any window of milliseconds |
| TokenBuckets.ThroughputBound | defense/core/lanes.ts:97-137 | whatever is asked of a new bucket and whenever, its successful takes in any window of milliseconds number at most capacity plus the refill of that window |
| TokenBuckets.RefillsCompose | defense/core/lanes.ts:119-123 | refilling at an earlier moment and again later gives the level of the later refill alone |
| CreditFilters.AdvancesCompose | defense/core/credit-filter.ts:77-92 | two lazy advances equal one advance to the later reading: observing clears nothing early |
| CreditFilters.MembershipMeaning | defense/core/credit-filter.ts:104-121 | after any history, a digest tests positive at t exactly when within the current or within the previous epoch insertions of that epoch alone set every one of its bits; nothing is said in terms of cleared arrays |
| CreditFilters.NoFalseNegative | defense/core/credit-filter.ts:114-140 | an inserted digest stays a member until the epoch is two past its insertion, hence for at least epochMs |
| CreditFilters.NothingSurvives | defense/core/credit-filter.ts:77-121 | every bit that supports a positive answer was set less than two epoch lengths before |
| CreditFilters.Generation.Raise | defense/core/credit-filter.ts:129-140 | one bit of the byte array is set in place: the mark it stands for is added and no other bit moves |
| CreditFilters.CreditFilter.AdvanceTo | defense/core/credit-filter.ts:77-92 | the loop over elapsed epochs clears at most the two slots that are re-entered and zeroes their counts; the state is the specified advance |
| CreditFilters.CreditFilter.Lookup | defense/core/credit-filter.ts:104-121 | the answer is membership in either generation after advancing |
| CreditFilters.CreditFilter.LookupActive | defense/core/credit-filter.ts:123-127 | the answer is membership in the active generation alone |
| CreditFilters.CreditFilter.InsertDigest | defense/core/credit-filter.ts:129-140 | exactly the bits of the digest are added to the active generation |
| CreditFilters.CreditFilter.Popcounts | defense/core/credit-filter.ts:142-152 | the running counts are the popcounts of the two bit arrays |
| CreditFilters.DoubleHashing | defense/core/credit-filter.ts:97-102 | the k indexes computed from the digest lie in [0, bits), so the stated family of digests is inhabited |
| UseLedgers.AllocationNeedsLiveRoom | defense/core/lanes.ts:175-182 | after the purge it does, allocation is possible exactly when the records of the current and previous epoch number less than the capacity |
| UseLedgers.UseLedger.PurgeAt | defense/core/lanes.ts:167-171 | the loop deletes exactly the records whose epoch is two or more behind |
| UseLedgers.UseLedger.Allocatable | defense/core/lanes.ts:175-182 | answers whether a slot is free after the purge it may need, counting a refusal otherwise |
| UseLedgers.UseLedger.CommitUse | defense/core/lanes.ts:184-195 | adds one use to the record under its own epoch, or counts a state violation and changes nothing else |
| UseLedgers.UseLedger.CommittedUses | defense/core/lanes.ts:159-165 | the uses of a live record; an aged-out record reads as absent |
| Requests.ExtractSubmissionToken | defense/core/lanes.ts:217-235 | the scanning loop returns the value of the one field named submissionToken of a mutation POST when it is 43 alphabet characters, and nothing otherwise |
| JourneyLanes.JourneyLanes.ClassifyToken | defense/core/lanes.ts:292-310 | filter and ledger decide the lane, with three separate clock readings; the result and the new state are the specified classification |
| JourneyLanes.JourneyLanes.DecideOn | defense/core/lanes.ts:292-324 | one decision: classification first, then exactly one lane's bucket, a ledger commit only for an admitted credited request |
| JourneyLanes.JourneyLanes.EnrollToken | defense/core/lanes.ts:336-344 | inserts into the active generation unless the digest is already there, in which case nothing changes but the advance |
| JourneyLanes.JourneyLanes.TakeSnapshot | defense/core/lanes.ts:352-366 | reports levels, popcounts and ledger size after the advances and the purge it causes |
| JourneyLanes.JourneyLanes.ReadFill | defense/core/credit-filter.ts:142-152 | reports the filter's two popcounts after the advance that reading them causes, and touches nothing else |
| LaneRuns.LedgerNeverFull | defense/core/lanes.ts:101-207 | for every run of decide, enroll, fill reading and snapshot under a non-decreasing clock that may move within a call: with ledgerCapacity at least the constructor's bound, no decision is ledger_full, fullRefusals and stateViolations stay 0 |
| LaneRuns.AllowanceFits | defense/core/lanes.ts:205-211 | the grants of two epochs of floored milliseconds fit requiredLedgerCapacity with one slot to spare |
| LaneRuns.LiveRecordsFit | defense/core/lanes.ts:144-195 | at every decision the live records number less than the capacity, because each is an admission of the last two epochs |
| CreditWindows.UsesAreBounded | defense/core/lanes.ts:292-343 | from a successful enrollment in epoch L, whatever follows (false positives and re-enrollment included), the credited admissions of that digest before epoch L+2 number at most maxUses |
| CreditWindows.GenuineCreditHolds | defense/core/lanes.ts:292-310 | an enrolled token with uses left is never classified into the unverified lane inside its window: it is credited, admitted or shed by the credited bucket |
| CreditWindows.EnrolledIsCredited | defense/core/lanes.ts:292-310 | classification of such a token finds it in the filter with its uses below the limit |
| LaneObservation.ObservationIsNeutral | defense/core/lanes.ts:352-366 | inserting any number of snapshots and fill readings anywhere in a run leaves the list of decision and enrollment results unchanged |
| LaneObservation.SnapshotIsAlike | defense/core/lanes.ts:119-172 | a snapshot leaves a state that no later operation can tell from the one it observed |
| LaneObservation.FillIsAlike | defense/plane/l2-stage.ts:55 | so does the reading of the filter's fill that the stage takes after an enrollment |
| LaneObservation.Recovery | defense/core/lanes.ts:119-135 | after any run, two idle epochs and the refill time of both buckets bring back the quiescence state of a fresh instance |
| Composers.BulkheadAccounting | defense/core/composer.ts:72-140 | over every interleaving of start, settle, resume by verdict or deadline, and reclaim: occupancy stays in 0..maxConcurrent, every evaluation started has one outcome or is in flight, and each abandoned slot is held or was freed by exactly one of settle and reclaim |
| Composers.NextIsFinal | defense/core/composer.ts:103-139 | an outcome once given never changes, whatever step comes next |
| Composers.LayerComposer.StartRun | defense/core/composer.ts:78-82 | sheds exactly at full occupancy, otherwise takes a slot |
| Composers.LayerComposer.ResumeRun | defense/core/composer.ts:105-139 | maps the winner of the race to its outcome, frees the in-flight slot, and abandons it exactly when the deadline won over a running layer |
| Composers.LayerComposer.SettleRun | defense/core/composer.ts:93-97 | a late settlement frees an abandoned slot once |
| Composers.LayerComposer.ReclaimRun | defense/core/composer.ts:129-131 | the reclaim timer frees an abandoned slot once and counts it |
| L2Stages.L2Stage.Begin | defense/plane/l2-stage.ts:77-84 | the synchronous half of decide: into the composer and, unless shed, through the layer, which keeps its decision |
| L2Stages.L2Stage.Evaluate | defense/layers/a7-journey-lanes.ts:19-27 | the layer decides, stores the decision under the request, and hands the composer pass for a decision that proceeds and reject for any other |
| L2Stages.L2Stage.Conclude | defense/plane/l2-stage.ts:84-100 | takes the decision back from the layer, turns failures into failure decisions that name what was spent or touched, and records it |
| L2Stages.ConclusionClaims | defense/core/lanes.ts:86-90 | whatever the composer reports, the final decision is a valid one and answers for exactly what the layer's own decision had taken |
| L2Stages.TakesAreClaimedOnce | defense/plane/l2-stage.ts:77-101 | in every run, each successful take of each bucket belongs to exactly one request, whose decision, final or in flight, says so; and each such decision has its take |
| L2Stages.ThroughputIsBounded | defense/plane/l2-stage.ts:77-101 | the non-open requests that proceed on grants of any window number at most the two capacities plus the two refills of that window, whatever tokens, timeouts or saturation occur |
| L2Stages.ProceedingIsOnALane | defense/core/lanes.ts:70-84 | every request that proceeds without being open stands on one of the two lanes |
| L2Stages.UnverifiedDiscardsAreExactIff | defense/core/lanes.ts:346-350 | after every run the unverified discard counter is the number of discarded unverified decisions plus the number of open requests whose evaluation errored; so it is exact exactly when there was none |
| L2Stages.OpenDiscardIsMisfiled | defense/core/lanes.ts:346-350 | a run of two acts, for whatever open request: it arrives, its verdict comes late, it is degraded and proceeds, no bucket was touched, and the unverified discard counter reads one |
| ReplayGuards.TicketsAreExclusive | defense/core/replay-guard.ts:39-113 | over any interleaving of tickets: unsettled ones hold disjoint keys that are present and RESERVED, reserved = committed + burned + open, size = reserved - purged, size never exceeds capacity, violations are exactly the repeated settlements |
| ReplayGuards.ReserveKeeps | defense/core/replay-guard.ts:62-75 | a refused reservation leaves the entries as they were but for the purge; a granted one adds all keys |
| ReplayGuards.RetainedIsReplayed | defense/core/replay-guard.ts:62-113 | a key whose retention has not elapsed is refused as replayed, before capacity is looked at |
| ReplayGuards.ReplayGuard.ReserveAll | defense/core/replay-guard.ts:62-75 | all of the keys or none; the reason, the counters and the entries are the specified ones |
| ReplayGuards.ReplayGuard.PurgeAt | defense/core/replay-guard.ts:106-113 | deletes exactly the entries whose retention elapsed and that are not RESERVED, and counts them |
| ReplayGuards.ReplayGuard.Transition | defense/core/replay-guard.ts:78-87 | moves RESERVED keys on and counts anything else as a violation |
| ReplayGuards.ReplayTicket.Settle | defense/core/replay-guard.ts:45-49 | the first settlement transitions the keys; any later one counts one violation and turns those of its keys that are COMMITTED into BURNED, leaving the rest |
| Base64.CanonicalIsEncoding | defense/core/hop-proof.ts:64-69 | a text decodes to octets under the canonical reader exactly when it is the unpadded base64url encoding of those octets, and they are not empty |
| Base64.CanonicalOfIsEncoding | defense/core/hop-proof.ts:64-69 | with the wanted length: a text is accepted exactly when it is the encoding of that many octets, and then it denotes those octets |
| Base64.LooseUndoes | defense/core/hop-proof.ts:64-69 | decoding undoes encoding |
| Base64.EncodeUndoes | defense/core/hop-proof.ts:64-69 | encoding undoes decoding when the spare bits are zero |
| HopProofs.ArrayIsEncoded | defense/core/hop-proof.ts:146-160 | an array is read as claims of a role exactly when it is the encoding of well-shaped claims of that role |
| HopProofs.RequestIsEncoded | defense/core/hop-proof.ts:108-127 | the five request fields are read back exactly from their own encoding |
| HopProofs.ParseRequest | defense/core/hop-proof.ts:108-127 | the reader of the request fields, with its pair loop, equals its specification |
| HopProofs.ParsePairs | defense/core/hop-proof.ts:113-120 | the loop accepts a pair list exactly when its names are bound, strictly ascending, and its values canonical |
| HopEnvelopes.DecodeIsEnvelope | defense/core/hop-proof.ts:133-161 | a header decodes to claims exactly when it is the canonical envelope of well-shaped claims of that role within the header bound |
| HopEnvelopes.PayloadInjective | defense/core/hop-proof.ts:86-96 | different claims have different signed payloads |
| HopEnvelopes.RolesAreDisjoint | defense/core/hop-proof.ts:147-150 | a proof of one hop never decodes as the other's |
| HopSizes.PayloadLength | defense/core/hop-proof.ts:86-96 | the exact length of the signed payload from the claims, escapes included |
| HopSizes.FitsExactly | defense/core/hop-proof.ts:34-35 | the envelope fits the header bound exactly when the payload fits the corresponding octet count |
| HopIssuing.ApprovedShape | defense/core/hop-proof.ts:209-219 | the request of an approved approval has the shape the decoders demand |
| HopIssuing.EmptyBodyIsDigest | defense/core/semantic-request.ts:27 | the empty-body constant is a canonical digest text |
| SemanticRequests.BuildApprovedRequest | defense/core/semantic-request.ts:90-135 | the approval, with its header loop and first refusal, equals its specification |
| SemanticRequests.ScanHopHeaders | defense/core/semantic-request.ts:165-202 | the scan of raw headers, its lists and its one violation by precedence, equals its specification |
| WireScans.ApprovedIsSemantic | defense/core/semantic-request.ts:90-135 | what is approved is closed, canonical, sorted, and its body length and digest are those of the request's body |
| WireScans.ScansClean | defense/core/semantic-request.ts:138-202 | in any order, with or without a connection header, the headers a hop emits scan without a violation and give back the same pairs |
| HopAdmissions.ClearedMeans | defense/core/hop-admission.ts:103-165 | a request cleared for reservation has wire fields equal to its claims, verifying signatures, an open window and, at the App, a Plane proof with the same request, itself verified and in window, whose jti, header digest, hop and correlation id the Boundary proof carries |
| HopAdmissions.HopVerifier.ScreenRequest | defense/core/hop-admission.ts:103-149 | the ordered checks 1 to 6 with their refusal reasons equal the specified screening |
| HopAdmissions.HopVerifier.BeginAdmission | defense/core/hop-admission.ts:103-172 | screening, then the all-or-nothing reservation; the guard and the waiting ticket are the specified ones |
| HopAdmissions.HopVerifier.FinishAdmission | defense/core/hop-admission.ts:173-197 | body, digest and cross-check; the ticket is committed exactly on admission and burned otherwise |
| HopRuns.AdmittedWasApproved | defense/core/hop-admission.ts:103-198 | with a Boundary that may sign anything under its own key and present any headers in any order, every admitted request, at either hop, has the method, target, pairs, length and body digest of a proof the Plane issued for an approved request |
| HopRuns.AdmittedBodyIsApproved | defense/core/hop-admission.ts:174-189 | where the digest does not collide on the two bodies at hand, the admitted body is the approved body |
| HopRuns.OncePerProof | defense/core/hop-admission.ts:36-37 | while wall and monotonic clock drift apart by less than 1000 ms over the run, no proof is reserved twice by one verifier, purging included, and one Plane proof yields at most one App admission however many Boundary proofs commit to it |
| HopRuns.ForgetsAtExpiry | defense/core/replay-guard.ts:106-113 | an entry is forgotten at the instant its retention ends |
| HopRestarts.RestartKeepsSingleUse | defense/core/replay-guard.ts:117-127 | no proof reserved before a restart with an empty guard is reserved after it, when each was first presented no earlier than its iat and strictly before the new fence |
| HopRestarts.OncePerProofAcrossRestarts | defense/core/hop-admission.ts:36-37 | over any number of restarts, each with an empty guard, no proof is reserved twice in all, before or after, and one Plane proof yields at most one App admission, when every proof was first presented no earlier than its iat and strictly before each later fence, with clock drift below 1000 ms within each run |
| HopReopenings.RestartReopensIff | defense/core/hop-proof.ts:177-185 | after any run and a restart, some continuation at or after the new fence reserves a receipt's proofs again exactly when neither the receipt's own proof nor its Plane proof was issued before the new fence and the new guard can hold the keys |
| HopReopenings.PlaneProofReopensIff | defense/core/hop-admission.ts:151-165 | for the Plane proof alone, at either hop, the condition is its own issue time: at the App a Boundary can sign a fresh proof over it |
| HopLimits.EarlyProofReopens | defense/core/hop-proof.ts:181-183 | for every honest delivery accepted up to the skew ahead of its issue time there is a run that reserves its proof and, after a restart with its fence in between, can reserve it again |
| HopLimits.RestartReservesTwice | defense/core/hop-proof.ts:181-183 | one such run with concrete times: accepted at 9.5 s, restarted at 9.7 s, issued at 10 s |
| HopLimits.DriftBoundIsTight | defense/core/hop-proof.ts:177-185 | for every honest delivery of the longest lifetime there is a run whose readings drift apart by exactly 1000 ms and in which one verifier reserves the same proof twice |
| ShapeGates.ShapeGate.EvaluateRequest | defense/layers/a7-shape-gate.ts:73-129 | the staged checks in order, with the two counters; the verdict is the specified one |
| ShapeGates.ShapeGate.ParseForm | defense/layers/a7-shape-gate.ts:131-157 | the form loop with its seen set equals its specification |
| ShapeGates.DecodeComponent | defense/layers/a7-shape-gate.ts:48-61 | the in-place percent decoder equals its specification |
| ShapeGates.GrammarIsBounded | defense/layers/a7-shape-gate.ts:73-129 | the grammar stage sees only a complete POST body of its declared length, within the body bound |
| ShapeGates.PassedBodyIsAscii | defense/layers/a7-shape-gate.ts:131-157 | a POST body that passed is ASCII |
| ShapeGates.PassedTargetIsShort | defense/layers/a7-shape-gate.ts:79-105 | a target that passed has between 1 and 32 characters |
| ShapeGates.PassedIsClassified | defense/layers/a7-shape-gate.ts:79-92 | gate and lanes agree on what they see: a request that passed is classified Open when it is a GET and Mutation when it is a POST, never anything else |
| HopChains.HonestChainIsAdmitted | defense/core/hop-admission.ts:103-198 | every request that passes the gate and the approval is admitted by Boundary and then App when its proofs are fresh, unreplayed and in window and its body intact, with emitted headers in any order; both proofs fit their header bounds |
| HopChains.ShortTargetFits | defense/core/hop-proof.ts:34-35 | after JSON escaping and base64url both proofs of such a request fit 2048 and 2304 characters |
| EventChannels.ChannelIsFaithful | defense/core/ledger.ts:473-554 | for every sequence of steps: frames plus queue are the emitted events minus the dropped ones in order, emitted = dropped + sent + queued, queue and window keep their caps |
| EventChannels.BogusAckIsFlush | defense/core/ledger.ts:510-514 | an acknowledgement that is not a credible larger total is a flush and nothing more |
| EventChannels.DrainedIsComplete | defense/core/ledger.ts:538-546 | when a drain resolves true everything emitted and not dropped was sent and acknowledged; with nothing dropped that is exactly seq 1..lastSeq |
| EventChannels.DrainResolvesIff | defense/core/ledger.ts:533-546 | a drain resolves true at a step exactly when that step leaves the channel drained |
| EventChannels.BoundedEventChannel.Emit | defense/core/ledger.ts:499-507 | consumes a sequence number always, queues or drops, and flushes when a frame is full |
| EventChannels.BoundedEventChannel.FlushQueue | defense/core/ledger.ts:516-525 | the loop sends frames until the queue or the window is exhausted |
| EventChannels.BoundedEventChannel.Acknowledge | defense/core/ledger.ts:510-514 | moves the received total on a credible acknowledgement only, flushes and wakes drains |
| EventChannels.BoundedEventChannel.DrainAll | defense/core/ledger.ts:538-546 | resolves at once when drained, otherwise registers the waiter |
| Automata.RunAutomaton | defense/core/lineage.ts:36-52 | the loop with previous, seen and lastSeq reports exactly the specified list |
| Automata.SilentIff | defense/core/ledger.ts:380-387 | nothing is reported exactly when the stream is a legal word of the table with strictly increasing, non-negative sequence numbers |
| Automata.WordIsShort | defense/core/ledger.ts:233-237 | under ranks that climb along the table no kind comes twice in a legal word and its length is at most the highest rank |
| Lifecycles.ValidateLifecycle | defense/core/ledger.ts:356-442 | the validator pushes exactly the specified anomalies, in order |
| Lifecycles.ValidatePlane | defense/core/ledger.ts:373-399 | the plane rules: the automaton of the composition, loss and disappearance at finalization, correlation, one verdict |
| Lifecycles.ValidateOrigin | defense/core/ledger.ts:401-410 | the origin rules, with the loop that reports one misplaced instance and stops |
| Lifecycles.ValidateReceipts | defense/core/ledger.ts:414-424 | receipts against the plane's attempt and against the lane |
| Lifecycles.ValidateResponse | defense/core/ledger.ts:425-440 | origin, plane and client statuses and the outcome header reconciled |
| CleanRecords.TwoWays | defense/core/ledger.ts:240-260 | a legal plane stream that ended either was refused at L1 in four events or went out through one attempt in six or seven |
| CleanRecords.ThreeWays | defense/core/ledger.ts:262-282 | with L2 a legal plane stream that ended was refused at L1 in four events, was refused at L2 in six, or went out through L1, L2 and one attempt |
| CleanRecords.UnreportedThroughL2 | defense/core/ledger.ts:356-442 | a finalized protected record with L2 about which nothing is reported took one of those three ways |
| CleanRecords.CleanProtected | defense/core/ledger.ts:356-442 | a finalized protected record about which nothing is reported balances, and the origin's observations agree with it: at most one receipt, behind an attempt; one receipt and one finish behind a response |
| CleanRecords.CleanElsewhere | defense/core/ledger.ts:401-424 | a clean control record has one receipt and one finish at the control origin and no plane event; a clean pre-ingress record has neither |
| CleanRecords.RefusedNeverReachesOrigin | defense/core/ledger.ts:414-419 | fail closed, with or without L2: a request about which nothing is reported and that L1 did not pass, or that the plane did not attempt, reached no origin |
| CleanRecords.ClientSawTheOutcome | defense/core/ledger.ts:432-439 | a clean client response carries the status the plane owes by its decisions, and an outcome header names the terminal outcome |
| Accounts.DeriveAccounting | lab/defense/accounting.ts:35-84 | the loop over records with its counters computes the specified totals |
| Accounts.CountEvents | lab/defense/accounting.ts:61-68 | the inner loop counts rejections, errors and failed attempts with their labels |
| Accounts.CountObservations | lab/defense/accounting.ts:78-83 | the inner loop counts observations per instance and the spoofed headers |
| Identities.CleanRecordsReconcile | lab/defense/accounting.ts:88-107 | for any number of clean protected, control and pre-ingress records without L2, fifteen identities hold |
| Identities.ReceiptsResolveIff | lab/defense/accounting.ts:100 | received = completed + aborted holds exactly when no failed attempt that reached the origin is left without a finish event |
| Identities.FinishCanBeLost | defense/core/ledger.ts:425-431 | a clean record can lack that finish: validation asks for one only behind a response |
| Identities.ReasonsKnownIff | lab/defense/accounting.ts:98 | the unknown-reason identity holds of clean records exactly when no protected record of four events has, as its third, a rejection whose reason is missing or outside the closed list |
| Identities.ReasonCanBeMissing | defense/core/ledger.ts:310-314 | a clean record can hold a rejection without a reason |
| Identities.UnlistedIsCaught | defense/core/ledger.ts:432-434 | an unlisted reason stays unreported only if the plane answered without a status, or did not answer |
| Lineages.ValidateOriginLineage | defense/core/lineage.ts:73-149 | the validator pushes exactly the specified anomalies, in order, for every lane |
| Lineages.CleanMeansLineage | defense/core/lineage.ts:61-149 | on the protected lane, silence and an admission, execution or mutation imply the complete lineage and legal, strictly increasing boundary and app words |
| Lineages.ReportedIffIncomplete | defense/core/lineage.ts:115-131 | an admission, an execution, or a mutation without lineage is reported exactly when the chain behind it is incomplete |
| Lineages.DirectMeansRefused | defense/core/lineage.ts:97-104 | a direct attempt about which nothing is reported left an empty app stream or one refusal, and no boundary admission |
| Lineages.PositiveControlsAreDisjoint | defense/core/lineage.ts:108-118 | the same streams with an admission are never clean both for a protected request and for a positive control |
| Lineages.CleanIsResolved | defense/core/lineage.ts:139-148 | streams that stay silent at finalization ended in a terminal event |
| Lineages.BoundaryIsShort | defense/core/ledger.ts:154-167 | a legal boundary stream has at most six events, each kind once |
| Lineages.AppIsShort | defense/core/ledger.ts:169-177 | a legal application stream has at most four events, each kind once |
| StrictJson.ParseStrictJson | operator/lifecycle-submitter.ts:34-82 | the reader over a shared index, with its closures as methods, equals its specification; it terminates on the remaining input |
| StrictJson.Reader.Members | operator/lifecycle-submitter.ts:52-66 | the member loop fails on a repeated key before its value is read |
| StrictJson.Reader.Items | operator/lifecycle-submitter.ts:45-51 | the loop over array values equals its specification |
| JsonGrammar.ParseIsGrammar | operator/lifecycle-submitter.ts:34-82 | a document is accepted exactly when it is, to its last character, a document of the grammar of sections 2 to 7 of RFC 8259 whose objects repeat no name at any depth, and the value is the grammar's |
| JsonPrinter.PrintThenParse | operator/lifecycle-submitter.ts:34-82 | the reader undoes the compact printer on every value without repeated names |
| JsonPrinter.ParseThenPrint | operator/lifecycle-submitter.ts:34-82 | printing what was accepted and reading it again changes nothing |
| JsonPrinter.PrintInjective | operator/lifecycle-submitter.ts:34-82 | different values print differently |
| Forms.ParseStrictForm | defense/origin/synthetic-origin.ts:100-118 | the loop over pairs with its early exits equals its specification |
| Forms.ScanToken | defense/core/lanes.ts:217-235 | the linear scan that builds no pieces finds what a search of the pieces finds |
| Forms.TokenAgreement | defense/origin/synthetic-origin.ts:100-118 | for every body the application accepts, in any encoding: the lanes' scan returns t exactly when some raw pair is the token field with well-formed value t, and then the application's submissionToken is exactly t |

## Left out

- Cryptography: Ed25519, SHA-256 and HMAC are symbolic. A digest is any function with canonical results; that it does not collide is assumed only
  where a lemma says so, and only of the bodies at hand. Key custody and key import are not part of this model.
- HopRuns.AdmittedWasApproved: equality of the body is stated through its digest; `AdmittedBodyIsApproved` adds the body itself where the digest
  does not collide.
- HopIssuing.ApprovedShape: key ids, audiences and correlation ids are taken in the formats that the verifiers demand, as the configuration gives them.
- HopProofs.ArrayIsEncoded: `JSON.parse` is modelled by the strict reader. An object with a repeated member is refused by both, in the source because
  it does not re-serialise to itself; for arrays that no issuer writes, the precedence between a version or role refusal and a malformed one can differ.
- HopAdmissions.HopVerifier.FinishAdmission: streaming a body is one nondeterministic result (complete, incomplete, overflow); the read counters and
  the step detector of `ClockFence` are not part of this model.
- SemanticRequests.ScanHopHeaders: `samePairs` compares serialised pairs in the source and the pairs themselves here.
- JsonPrinter.PrintThenParse: numbers keep their spelling instead of becoming doubles, and object members keep the order of insertion, which
  JavaScript changes for names that look like array indexes.
- CreditFilters.MembershipMeaning: the k indexes are any functions of the digest into `[0, bits)`; `CreditFilters.DoubleHashing` shows the source's are.
  Fill ratio and false-positive estimates are floating-point statistics and are not part of this model.
- CreditFilters.CreditFilter.AdvanceTo: the statistics counter of rotations is left out; nothing reads it but reports.
- CreditFilters.CreditFilter.Lookup: the statistics counters of lookups and hits are left out, likewise.
- CreditFilters.CreditFilter.InsertDigest: the statistics counter of inserts is left out, likewise.
- UseLedgers.UseLedger.PurgeAt: the statistics counter of purged records is left out, likewise.
- UseLedgers.UseLedger.CommitUse: the statistics counters of allocated records and the high-water mark are left out, likewise.
- JourneyLanes.JourneyLanes.TakeSnapshot: of the snapshot, levels, popcounts and ledger size are modelled; its statistics counters are left out.
- Composers.LayerComposer.StartRun: the high-water mark of occupancy is left out.
- L2Stages.L2Stage.Conclude: the per-key decision counts of the report are left out; every decision itself is kept under its request.
- ReplayGuards.ReplayGuard.ReserveAll: the high-water mark of entries is left out.
- Identities.UnlistedIsCaught: an unlisted reason that happens to name a property every JavaScript object inherits would find that property in the
  source's status table; here an unlisted name has no status.
- TokenBuckets.TokenBucket.TakeOne: integers are unbounded; the constructor keeps capacities and rates far inside the exact range of a double.
- Timers (deadline, reclaim, flush, drain timeout) are steps that may happen at any moment at which the source could take them.
- Composers.LayerComposer.ResumeRun: that a layer's verdict is well formed is a flag of the step, since layers are arbitrary code.
- Lifecycles.ValidateLifecycle: anomalies are codes without their detail strings, and a record's stream holds no parser rejection, which has no request.
- Identities.CleanRecordsReconcile: the parser identity compares with a count from outside the records and is left out; records of the external and
  positive-control lanes go through other reducers.
- EventChannels.ChannelIsFaithful: a frame handed to the transport counts as sent; the transport itself is not part of this model.
- Enrollment, penetration, L2 lifecycle, telemetry and ingress-class code: case tables and observation that would add only easy members.
- HTTP servers, sockets, IPC, processes, deployment, scripts, workers, and the lab drivers over databases and files.
- The verdict override used by the lab harness, and percentiles and latencies of the reports.
