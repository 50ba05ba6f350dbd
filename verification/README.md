# Verified model of an agent-run orchestrator

The repository drives a hub-and-spoke run: an orchestrator role dispatches
workers, workers return, and an append-only log of records and checkpoint
snapshots is all that survives a crash. This project models that machine and
the pieces around it that are easy to get wrong, and proves what holds of every
run, every log and every input.

The host, the language model and the file system are inputs. A run reads a
*tape*: each entry answers the next question the loop asks of its host (did the
spawn succeed, what did the session capture, what did it cost, why did it stop)
or is a crash that cuts the log at any record. Theorems are about every tape, or,
where they say so, every crash-free one.

## What is proved, in short

* **The protocol** (`Machine`, `Protocol`, `Trail`, `Invariants`, `Bounds`,
  `Guarantees`, `Loop`). `Protocol` is a small-step machine; the class
  `Loop.Orchestrator` has the source's loops and fields, and each of its methods
  is proved to end in the machine's state. An auditor in `Trail` reads the
  records alone and replays them; crash-free logs always pass it. Runs are
  bounded, without crashes the cost cap is a hard stop, ends are requested, and
  the loop's own invariant errors cannot happen.
* **What one answer does** (`Verdicts`, `Sessions`, `Attempts`). Told without the
  machine's own branches, of every history: when an event is accepted, rejected,
  failed or put off; what each verdict of the end guard comes to; what an
  accepted event writes; which model entry and retry the n-th attempt runs, and
  how many there are.
* **Crash and resume** (`Ledger`, `Guarantees`, `Histories`, `VisitIndex`).
  Recovery from any cut restores the latest snapshot without its session, every
  session a snapshot ever named ends exactly once, and recovery may itself be
  interrupted. `Histories` says what is left of the cost cap and of end requests
  over histories with crashes.
* **Session history** (`Canonical`, `JsonReader`, `Branch`, `Pairing`,
  `Projection`, `Capture`). The hashed text determines the value up to infinities
  and reads back as it by RFC 8259, the parent walk is total and exact, the tool
  matcher accepts exactly the settled histories, and projecting away exactly the
  retried failures gives a valid branch again.
* **Cost** (`Usage`, `Compaction`, `Rollup`, `Settlement`, `RunFilter`,
  `SessionCost`, `Metering`). Tables conserve the total. `Metering` is the
  host's side: whatever sessions meter, end, drop or lose in a crash, the
  roll-up accepts the log, and every charge counts once exactly when no terminal
  was written without a charge its session had metered.
* **Codecs and the lease** (`Envelope`, `Utf8`, `Encoder`, `JsonGraph`, `Handoff`,
  `TornLog`, `DiskCrash`, `Lease`).

## Where the code does less than its documentation suggests

Each of these is proved, with the exact condition or a concrete input.

* A worker name with a line break is never counted, so its visit cap does not
  bind (`Machine.DispatchCountsIffPlain`, `Exhaustion.CapBindsIffPlain`).
* A role without a `models` list never runs out of models: model errors are
  retried for ever. Runs are bounded exactly when there is neither such a role
  nor such a name (`Exhaustion.BoundedIffListedAndCounted`).
* A run cost cap of zero still starts one session
  (`Guarantees.CapHoldsIffPositive`). Over histories with crashes no cap, however
  large, keeps sessions from starting once it is reached
  (`Exhaustion.NoStartAtCapIffUncapped`): each process may start one, its first
  (`Histories.OneStartAtCap`), and none dispatches (`Histories.DispatchesUnderCap`).
* A session entry whose number overflows (`1e400`) is read as an infinity and has
  the canonical text, and so the hash, of the one that holds null
  (`Canonical.OverflowReadsAsNull`); texts are equal exactly when the values are
  with infinities read as null (`Canonical.CanonicalTextIsFaithful`), and a text
  determines its value exactly when that holds neither null nor an infinity
  (`Canonical.TextDeterminesIffNullFree`).
* Two processes can hold the lease of one run: one process at a time is
  guaranteed exactly when all three conditions hold or no two processes share a
  run (`Lease.OneLeasePerRun`). The sharpest breach needs no timeout: the holder
  leaves between a rival's failed bind and its probe
  (`Lease.ReleaseBeforeProbeBreaksIt`).
* A compaction charge handled after a session's usage was captured and before
  its terminal was written counts nowhere: the terminal settles it but does not
  hold it (`Metering.LateChargeIsLost`, exactly `Metering.EveryChargeCountsOnce`).

A definition is assumed well formed: the orchestrator is no worker, workers are
distinct, each has a cap. `done` is a place of its own, never a role. Worker
names are arbitrary; only the session bound asks that they can be counted.

## Model

| member | source | states |
|---|---|---|
| Machine.ParseInvertsPrint | src/core/reduce.ts:176-199 | the effect text of a dispatch is parsed back to exactly the role it was printed from, and only when that name is non-empty and on one line |
| Machine.CopyCounts | src/core/reduce.ts:260-271 | the two loops of `accept` yield the normalised counts with every effect applied |
| Machine.CollectUnderCap | src/core/targets.ts:45-81 | the pushed list holds exactly the workers still under their cap |
| Machine.InitialSound | src/core/reduce.ts:86-113 | the initial checkpoint is one a run can reach: counts for exactly the workers, no session, no end request |
| Machine.ReduceMoves | src/core/reduce.ts:115-234 | acceptance is one of three moves (dispatch under the cap, return to the hub, end at the hub); it keeps reachability, its record carries the effects whose replay gives the new counts, rejection changes nothing, and only a foreign role is an invariant error |
| Machine.ReasonsAreExact | src/core/reduce.ts:142-234 | each rejection names its own reason: off the declared table, over the cap, without a request, or without authority; its record carries event, reason and available targets |
| Machine.LifecycleRoundTrip | src/core/reduce-lifecycle.ts:86-215 | a session starts exactly at its role with none live; ending it restores the checkpoint, and no other identity can end it |
| Machine.DispatchCountsIffPlain | src/core/reduce.ts:176-199 | an accepted dispatch raises its target's count if and only if the name is non-empty and free of line terminators |
| Machine.TwoLineNameEvadesItsCap | src/core/reduce.ts:264-270 | concrete run: a worker whose name has a line break is dispatched without ever being counted, so its cap never binds |
| Machine.GuidanceIsExact | src/core/targets.ts:45-81 | the available targets are exactly the plain handoffs and the role end that `reduce` accepts, both ways |
| Machine.CandidatesAgree | src/core/run-memory.ts:375-410 | the run-memory candidates are exactly the workers under their cap, none once the budget is spent, each once; at the orchestrator they are the available targets |
| Machine.GuidanceInOrder | src/core/targets.ts:45-81 | the targets are listed in the order of the definition |
| Protocol.PlaySplit | src/host/loop.ts:162-380 | playing two answer tapes in a row is playing their concatenation |
| Ledger.ScanFindsStart | src/host/api-resume-state.ts:270-288 | in a sound log the backward scan finds the one start of the session the checkpoint names |
| Ledger.ScanFindsTerminal | src/host/api-resume-state.ts:290-302 | the forward scan answers whether that session ended |
| Ledger.BookCounts | src/core/reduce-lifecycle.ts:86-215 | in a sound log no session has two starts or two terminals, and a terminal has its start |
| Ledger.ReconciliationSettles | src/host/api-resume-state.ts:251-352 | after recovery every session that any snapshot named has ended, and the latest snapshot is the old one without its session |
| Trail.Contiguous | src/host/loop-session-accepted.ts:92-144 | in an audited log each accepted transition leaves from where the one before arrived |
| Trail.EndFollowsRequest | src/core/reduce.ts:142-234 | under gating a role's end directly follows a request by an authorised worker and names that worker |
| Trail.SnapshotIsReplay | src/host/loop-session-accepted.ts:140-215 | every snapshot is the replay of the records before it |
| Trail.CountIsDispatches | src/core/reduce.ts:176-199 | the replayed count of a worker is the number of its accepted dispatches, if its name can be counted |
| Trail.StartsDoNotOverlap | src/core/reduce-lifecycle.ts:86-215 | between two starts stands one terminal with the first start's identity |
| Invariants.AdvanceKeeps | src/host/loop-session-accepted.ts:92-144 | an accepted record with its snapshot keeps the log sound, the live session live, and becomes the last transition of the trail |
| Invariants.CloseKeeps | src/core/reduce-lifecycle.ts:142-215 | closing the live session always succeeds, writes its one terminal and leaves the machine idle |
| Invariants.ResumeHolds | src/host/api-resume-state.ts:251-352 | recovery of any cut of the log of a sound state gives a sound state |
| Invariants.RunKeeps | src/host/loop.ts:162-380 | every history, with crashes anywhere, keeps the invariant; crash-free ones also keep the audit and the cap |
| Bounds.ProcessBound | src/host/loop-fallback.ts:97-261 | with countable names a process, whatever history and crashes went before, starts at most K x (R + 1) sessions for each visit its first checkpoint has left, whatever the host answers |
| Bounds.SessionBound | src/host/loop-fallback.ts:97-261 | a fresh crash-free run starts at most (2 x total visit caps + 1) x K x (R + 1) sessions |
| Bounds.MoveUsesAVisit | src/core/reduce.ts:168-199 | every accepted move uses up a remaining visit |
| Exhaustion.BoundedIffListedAndCounted | src/host/production-host-resolve.ts:45-56 | the number of sessions has a bound if and only if every reachable role lists a model and every dispatchable worker has a countable name, or the cost cap is zero; without a list the lookup never runs out and model errors are retried for ever |
| Exhaustion.ZeroCapOneSession | src/host/loop-session-turn.ts:314-357 | with a cost cap of zero a crash-free run starts at most the orchestrator's one session and dispatches nobody |
| Exhaustion.NoStartAtCapIffUncapped | src/host/loop.ts:162-216 | over all histories with crashes no session starts once persisted cost has reached the cap, if and only if there is no cap: a resumed process spawns before it looks |
| Exhaustion.CapBindsIffPlain | src/core/reduce.ts:176-199 | over every crash-free run a worker's dispatches stay within its cap if and only if its name is non-empty and on one line, or its cap or the cost cap is zero |
| Exhaustion.UncountedForEver | src/core/reduce.ts:260-271 | a worker that is never counted is dispatched n times in a run of n free round trips, for every n |
| Exhaustion.ErrorsForEver | src/host/loop-fallback.ts:196-243 | a role on the system default model starts n sessions in a run of n free model errors, for every n |
| Guarantees.LogRefinesReducers | src/host/loop-session.ts:188-206 | in a crash-free run the log passes the audit and the live checkpoint is the fold of its records |
| Guarantees.TransitionsAreContiguous | src/host/loop-session-accepted.ts:92-144 | accepted records of a crash-free run form one path |
| Guarantees.SessionsDoNotOverlap | src/host/loop-session.ts:188-206 | a start that another follows has its terminal, exactly one, before the next start |
| Guarantees.OpenStartIsLive | src/host/loop-session.ts:188-206 | a start without a terminal is the last lifecycle record, and the checkpoint names its session as live |
| Guarantees.EndsAreRequested | src/core/reduce.ts:142-166 | under gating every role end of a crash-free run directly follows the authorised request it names |
| Guarantees.EndIsLast | src/core/reduce.ts:142-166 | after an accepted end nothing is accepted, so no request is used twice |
| Guarantees.VisitCountsAreDispatches | src/core/reduce.ts:176-199 | in a crash-free run a worker's count is its number of accepted dispatches (none, for a name the effect text cannot carry) and is at most its cap |
| Guarantees.RequestIsFresh | src/core/reduce.ts:208-234 | a pending end request exists only at the orchestrator and was made by the last accepted transition |
| Guarantees.CapHoldsIffPositive | src/host/loop-session-turn.ts:314-369 | no session of a crash-free run starts once persisted cost has reached the cap, if and only if the cap is not zero |
| Guarantees.DoneMeansEnded | src/host/loop.ts:190-205 | a finished run ended by an accepted end, and with a deferred close by the cost cap's own end |
| Guarantees.CapClosesTheRun | src/host/loop-session-turn.ts:320-357 | at the cap an orchestrator's capture is superseded: terminal with its usage, then one accepted cost-cap end, and the run is done |
| Guarantees.InvariantErrorsUnreachable | src/host/loop.ts:190-216 | with crashes anywhere the loop's own invariant errors never arise |
| Guarantees.SessionsEndAtMostOnce | src/core/reduce-lifecycle.ts:142-215 | with crashes anywhere a session starts once and ends at most once |
| Guarantees.RecoveryRestores | src/host/api-resume-state.ts:251-352 | recovery after a crash at any record boundary of any history resumes from the latest snapshot without its session, with its role, counts and end request, appends at most two records, and leaves every session a snapshot named with exactly one terminal |
| Guarantees.RecoveryWrites | src/host/api-resume-state.ts:251-352 | recovery appends the reconciliation and nothing else |
| Guarantees.RecoveryRecordsLoss | src/host/api-resume-state.ts:303-352 | after any history and cut recovery records nothing if no session was live; else the cleared checkpoint, and before it, exactly if that session had no terminal, one that failed as lost in the crash, at no cost, with the role, visit, identity and parent of its start and the place of the snapshot; the persisted cost is that of the cut |
| Guarantees.PrefixRecovers | src/host/api-resume-state.ts:303-352 | any prefix of what recovery appends recovers to the same log |
| Guarantees.RecoveryIsAtomic | src/host/api-resume-state.ts:251-352 | a crash inside recovery, repaired by another recovery, gives the same log and state |
| Histories.RunLawful | src/host/loop-session-accepted.ts:92-144 | every record of every history, crashes anywhere, answers to the records before it: dispatches to the cost cap, end requests and role ends to the requests made |
| Histories.DispatchesUnderCap | src/host/loop-session-turn.ts:314-357 | in every history a dispatch is recorded only while persisted cost is below the cap |
| Histories.OneStartAtCap | src/host/loop-fallback.ts:196-215 | after any history, of the sessions a process starts until its next crash only the first may find the cap reached |
| Histories.PendingIsRequested | src/core/reduce.ts:208-234 | in every history a pending end request is at the orchestrator and was made by an accepted transition of the authorised worker it names |
| Histories.EndsAnswerRequests | src/core/reduce.ts:142-166 | under gating every role end of every history names an authorised worker whose accepted request is earlier in the log |
| Verdicts.CapturesDecide | src/seam/validate-emission.ts:78-153 | an event is emitted if and only if it is what the one well-formed capture means for the role and the protocol; each breach has its own condition |
| Verdicts.PromptVerdict | src/host/loop-session-turn.ts:198-602 | in any history, by the host's answer alone: when a prompt accepts which event, when the machine rejects it, when the session closes at the cap, for which cause it fails, and when nothing is written, each if and only if |
| Verdicts.GuardRules | src/host/loop-session-turn.ts:503-585 | an end that reaches the guard finishes the run if the guard passed without abort or guidance; a retry or guidance changes nothing; every other verdict stops the run with its own cause and exit |
| Verdicts.EndsPassTheGuard | src/host/loop-session-turn.ts:503-602 | in every history each accepted end of a role comes from an answer that captured it, with nothing against it, and with an end guard from one the guard let through |
| Verdicts.EndedAnswersMove | src/host/loop-session-accepted.ts:140-215 | in every history a terminal that reports a normal end directly follows an accepted transition of its role and the snapshot, or is the orchestrator's at the cost cap |
| Verdicts.SilentPrompts | src/host/loop-session-turn.ts:198-300 | an abort stops the run as aborted, a thrown prompt stops it writing nothing, an empty capture counts one recovery prompt, and an event that waits leaves all but a close falling due as it was |
| Verdicts.DeferralIsExact | src/host/loop-session-turn.ts:358-369 | the close at the cap falls due if and only if a worker's handoff is captured there and delegation did not fail |
| Sessions.SpawnVerdict | src/host/loop-fallback.ts:103-160 | in any history a spawn writes the start and the checkpoint that name the new session; a failed one throws for the first model and records a failed fallback for a later one |
| Sessions.AcceptedIsCommitted | src/host/loop-session-accepted.ts:92-215 | in any history an accepted event writes transition, checkpoint, the session's end with its cost at the new place, and checkpoint; then the run is done, closes at the cap, or enters the target's next visit |
| Sessions.SilentSessionFails | src/host/loop-session-turn.ts:252-312 | a session that captures nothing is asked again exactly three times and fails for want of an emission on the fourth silent prompt |
| Sessions.ParentsFollowStarts | src/host/loop-fallback.ts:165-190 | after any history each session a process starts names the one it started before as its parent, and its first session none |
| Attempts.AttemptsFollowTheList | src/host/loop-fallback.ts:196-243 | in any history, while the sessions of a visit fail with model errors below the cap, the attempt after the sum of (retries + 1) over the entries before m, plus j, is retry j of entry m; each failed attempt is on record with a retry note before a repeat and a fallback note before the next entry |
| Attempts.ListIsUsedUp | src/host/loop-fallback.ts:196-261 | a list of models is used up after exactly one session per entry and one per retry; then the orchestrator has failed the run and a worker has handed control back |
| Attempts.OtherFailuresStop | src/host/loop-fallback.ts:196-207 | in any history a prompt that fails its session for another reason, or at the cap, stops the process: nothing further starts in it |
| VisitIndex.FreshVisitIndex | src/host/api-resume-state.ts:207-220 | with crashes anywhere a visit about to begin is numbered one past the highest index its role ever persisted, the first one 1 |
| Loop.Orchestrator.constructor | src/core/reduce.ts:86-113 | a fresh run holds the initial checkpoint and its snapshot, as the machine does |
| Loop.Orchestrator.CloseSession | src/core/reduce-lifecycle.ts:142-215 | checkpoint and log become those of the machine's close, or nothing changes |
| Loop.Orchestrator.ForceRunCostCapEnd | src/host/loop-run-cost-cap.ts:19-57 | the fields become the machine's synthesized end, after the live session's terminal if there is one |
| Loop.Orchestrator.PersistAcceptedTransition | src/host/loop-session-accepted.ts:62-215 | transition, snapshot, terminal, snapshot, in that order: the machine's commit |
| Loop.Orchestrator.FailSession | src/host/loop-session-turn.ts:284-312 | a failed session leaves the state from which the visit may retry |
| Loop.Orchestrator.StopSession | src/host/loop-session.ts:222-274 | an abort or a spent guard ends session and run with one terminal |
| Loop.Orchestrator.DecideEvent | src/host/loop-session-turn.ts:453-602 | reduction, guard and persistence follow the machine's decision |
| Loop.Orchestrator.HandleEmission | src/host/loop-session-turn.ts:314-451 | cap, host reason and re-prompts take precedence in the machine's order |
| Loop.Orchestrator.RunSessionTurn | src/host/loop-session-turn.ts:66-605 | the prompt loop settles where the machine does, with at most three recovery prompts |
| Loop.Orchestrator.RunSession | src/host/loop-session.ts:187-298 | start record, then its snapshot, then the prompt loop |
| Loop.Orchestrator.PlanAttempt | src/host/loop-fallback.ts:196-243 | after a failure: the same model again, the next one, or the end of the visit, as the machine chooses |
| Loop.Orchestrator.RunRoleVisit | src/host/loop-fallback.ts:70-277 | the visit ends in the state the machine reaches by spawns, retries and fallbacks |
| Loop.Orchestrator.HandBack | src/host/loop.ts:317-379 | an exhausted worker hands control back, an exhausted orchestrator fails the run |
| Loop.Orchestrator.RunLoop | src/host/loop.ts:162-380 | the outer loop stops exactly where the machine stops |
| Loop.Orchestrator.LatestCheckpoint | src/host/log-file.ts:197-206 | the backward scan returns the latest snapshot's checkpoint |
| Loop.Orchestrator.ReconcileCrash | src/host/api-resume-state.ts:251-352 | the two scans append exactly the reconciliation and return the cleared checkpoint |
| Loop.Orchestrator.ReadVisitIndexes | src/host/api-resume-state.ts:207-220 | the forward scan yields one past the highest started index of each role |
| Loop.Orchestrator.Recover | src/host/api-resume-state.ts:251-352 | a new process continues where the machine's crash step leads |
| Loop.Orchestrator.RunHistory | src/host/loop.ts:162-380 | over a whole tape of answers and crashes the fields are those of the machine's run |
| Canonical.QuoteIsPrefixFree | src/host/orchestrator-context-files.ts:183-192 | two quoted strings that start equal texts are quotes of the same string |
| Canonical.PrintIsPrefixFree | src/host/orchestrator-context-files.ts:183-192 | unique decodability: equal texts with delimited rests were printed from equal values |
| Canonical.CanonicalPrintsNormal | src/host/orchestrator-context-files.ts:183-192 | the canonical text is the plain text of the value with keys sorted at every level |
| Canonical.NormalDecides | src/host/orchestrator-context-files.ts:183-192 | two parsed values have the same sorted form if and only if they are equal with objects read as maps |
| Canonical.FiniteTextIsFaithful | src/host/orchestrator-context-files.ts:183-192 | two parsed values without infinite numbers have the same canonical text if and only if they are equal with objects read as maps |
| Canonical.CanonicalTextIsFaithful | src/host/orchestrator-context-files.ts:183-192 | two parsed values, overflowing numbers included, have the same canonical text if and only if they are equal with objects read as maps and infinities as null |
| Canonical.TextDeterminesIffNullFree | src/host/orchestrator-context-files.ts:183-192 | the text of a parsed value is no other parsed value's if and only if it holds neither null nor an infinity |
| Canonical.OverflowReadsAsNull | src/host/orchestrator-context-files.ts:183-192 | for every key: the object whose member overflows and the one whose member is null are parsed, different, and have one text |
| JsonReader.QuoteReadsBack | src/host/orchestrator-context-files.ts:183-192 | a reader with the escape table of section 7 of RFC 8259 reads a quoted string back, whatever follows |
| JsonReader.QuoteIsShortest | src/host/orchestrator-context-files.ts:183-192 | no literal without a lone surrogate that reads as the string is shorter than the printed one |
| JsonReader.EscapesAreLowerCase | src/host/orchestrator-context-files.ts:183-192 | hexadecimal escapes are printed in lower case |
| JsonReader.LessMeans | src/host/orchestrator-context-files.ts:185-188 | the sort compares keys by the first code unit in which they differ, a proper prefix first |
| JsonReader.CanonicalReadsBack | src/host/orchestrator-context-files.ts:183-192 | a JSON reader takes the canonical text of any parsed value whole and gives a value equal as a map, infinities as null, its keys rising at every level |
| Branch.BranchIsUnique | src/host/orchestrator-context-files.ts:194-239 | a leaf has at most one chain to a root |
| Branch.BranchExcludesCycle | src/host/orchestrator-context-files.ts:212-236 | a leaf with a chain to a root reaches no cycle |
| Branch.SelectedBranch | src/host/orchestrator-context-files.ts:194-239 | returns the chain from a root to the leaf, or fails exactly on a duplicate id, a missing parent, an absent leaf or a cycle reached from the leaf, in that order |
| Pairing.AddToolCalls | src/host/orchestrator-context-files.ts:250-262 | adds the calls of one message, failing on a repeated id |
| Pairing.PairingDecides | src/host/orchestrator-context-files.ts:241-285 | the fold ends with nothing pending if and only if every call has exactly one result of its id and name before any other message, and every result its call |
| Pairing.PendingMeans | src/host/orchestrator-context-files.ts:241-285 | the pending map holds exactly the open calls of an orderly history |
| Pairing.AssertToolPairing | src/host/orchestrator-context-files.ts:241-285 | the loop accepts exactly the settled histories |
| Projection.ProjectContext | src/host/orchestrator-context-retry-projection.ts:32-46 | omits exactly the superseded failures and keeps the rest in order |
| Projection.ProjectionIsExact | src/host/orchestrator-context-retry-projection.ts:15-47 | in a context without repeats a message is gone if and only if it is an assistant's with stop reason error, the next one is an assistant's, and none of its tool calls has evidence |
| Projection.OthersAreKept | src/host/orchestrator-context-retry-projection.ts:15-47 | no projection takes a message that is not an assistant's failure, nor an assistant's last one before anyone else's |
| Projection.KeptInOrder | src/host/orchestrator-context-retry-projection.ts:43-46 | what is left keeps its order |
| Projection.ProjectionIsIdempotent | src/host/orchestrator-context-retry-projection.ts:15-46 | projecting a projected context omits nothing |
| Projection.ProjectionKeepsEvidence | src/host/orchestrator-context-retry-projection.ts:15-46 | a message with an executed call is never omitted, nor is the newest one |
| Projection.ProjectEntries | src/host/orchestrator-context-retry-projection.ts:71-103 | yields the kept entries reparented and repaired, or fails exactly when some kept compaction cannot be repaired |
| Projection.RepairFindsFirstKept | src/host/orchestrator-context-retry-projection.ts:82-99 | a repaired pointer names the first entry kept from the old target on, before the compaction |
| Projection.StuckMeansAllOmitted | src/host/orchestrator-context-retry-projection.ts:93-98 | a valid branch cannot be projected if and only if everything from a kept compaction's target up to it is omitted |
| Projection.ProjectionIsChain | src/host/orchestrator-context-retry-projection.ts:75-102 | the projection is again one parent chain from null with distinct ids in the old order |
| Projection.ProjectionKeepsTheRest | src/host/orchestrator-context-retry-projection.ts:71-103 | an entry is gone if and only if it holds an omitted message; the others keep their bodies, pointers of compactions aside |
| Projection.ProjectionPointsBack | src/host/orchestrator-context-retry-projection.ts:82-99 | every compaction of the projection points to an entry of it strictly before |
| Projection.EmptyProjectionIsIdentity | src/host/orchestrator-context-retry-projection.ts:71-103 | omitting nothing returns the branch |
| Projection.ChainSelectsItself | src/host/orchestrator-context-files.ts:194-239 | a chain of distinct entries, selected by its last one, is returned unchanged |
| Capture.ExecutedToolCallIds | src/host/orchestrator-context-retry-projection.ts:49-68 | the collected ids are exactly the started calls of the session and the admitted ones of the role |
| Capture.CheckPointers | src/host/orchestrator-context-files.ts:315-333 | accepts exactly branches whose compactions point to earlier entries |
| Capture.CaptureBoundary | src/host/orchestrator-context-files.ts:351-399 | a captured boundary has the valid branch of the leaf, a settled projected history and the projected entries; every refusal is justified |
| Capture.CapturedBranchIsStable | src/host/orchestrator-context-files.ts:385-397 | the effective entries are a valid branch that selecting by its tip returns unchanged |
| Capture.EvidenceIsAnswered | src/host/orchestrator-context-files.ts:378-382 | every call with execution evidence is still present in the captured history and answered under its name |
| Capture.ProjectionsAgree | src/host/orchestrator-context-files.ts:378-397 | if the context shows the branch from some entry on after a head of its own, the projected context is that head and exactly the messages the restored entries carry from the same place on |
| Envelope.FourRoundsSuffice | src/host/accepted-control-v2.ts:105-114 | the fourth round of the length equals the third for every size |
| Envelope.FourRoundsNeeded | src/host/accepted-control-v2.ts:105-114 | concrete size for which the third round still moves |
| Envelope.Measure | src/host/accepted-control-v2.ts:105-114 | always leaves by its equality test; the declared length is the encoder's length of the text that declares it, and the least such |
| Envelope.FitEnvelope | src/host/accepted-control-v2.ts:76-103 | returns the first form that fits in 16 KiB with the encoder's length of its text, and nothing exactly when the poorest does not fit; the context goes first, then the hints but the reason, then the diagnostics, and nothing else |
| Envelope.FormShrinks | src/host/accepted-control-v2.ts:76-100 | each form takes no more than the richer one before it |
| Envelope.PoorerFormsFit | src/host/accepted-control-v2.ts:76-103 | a form fits whenever a richer one does |
| Envelope.EnvelopeSays | src/host/accepted-control-v2.ts:61-71 | each member of the printed envelope under its own name, the declared length included |
| Envelope.DecimalMeans | src/host/accepted-control-v2.ts:105-114 | the numeral printed for a length stands for it |
| Encoder.DeclaredIsDecoded | src/host/accepted-control-v2.ts:108 | the length is the number of bytes of the encoding (RFC 3629), which a decoder that takes only shortest forms reads back as the same characters |
| Utf8.PrintedLengthIsTrue | src/host/accepted-control-v2.ts:108-109 | surrogates standing alone are escaped, so summing the bytes of single code units gives the encoder's length of every printed value |
| Lease.CandidatesDiffer | src/host/log-file.ts:334-343 | candidates are in range and pairwise distinct up to 8192 of them |
| Lease.SequenceCoversRange | src/host/log-file.ts:334-343 | the first 8192 candidates are exactly the ports of the range |
| Lease.SequenceFollowsDigest | src/host/log-file.ts:334-343 | the sequence starts at the first word of the digest and moves by the least odd number not below the second |
| Lease.OneLeasePerRun | src/host/log-file.ts:169-195 | for all processes and all interleavings of acquire, listen, probe, release, exit and strangers: at most one process ever holds a run's lease if and only if none of the three conditions is waived or no two processes share a run |
| Lease.UnavailableMeansAllTaken | src/host/log-file.ts:169-195 | in every interleaving giving up means 64 different ports were in use when tried; under the three conditions, for a process with a rival, all of them still belong to others |
| Lease.NeverPastTheLimit | src/host/log-file.ts:330-343 | in every interleaving a process tries candidates 0 to 63 and no further |
| Lease.InProgressMeansHeld | src/host/log-file.ts:169-195 | in every interleaving a probe finds the run in progress if and only if another process of the run holds its lease on that port and answers |
| Lease.UnansweredProbeBreaksIt | src/host/log-file.ts:383-409 | for any two processes of any run: two leases, when a live holder's answer misses the time limit and the other conditions hold |
| Lease.LeavingStrangerBreaksIt | src/host/log-file.ts:169-195 | for any two processes of any run: two leases, when a stranger leaves a port already passed over and the other conditions hold |
| Lease.ReleaseBeforeProbeBreaksIt | src/host/log-file.ts:174-189 | for any two processes of any run: two leases, every probe answered and no passed port left, when the holder leaves between the failed bind and the probe |
| TornLog.LogFile.Append | src/host/log-file.ts:126-159 | the file becomes the lines of the records written so far and the new one |
| TornLog.SplitJoins | src/host/log-file.ts:219-231 | the lines of any bytes hold no newline and give the bytes back when joined by newlines |
| TornLog.FindLastNonEmpty | src/host/log-file.ts:231-238 | the backward scan finds the last line that is not blank |
| TornLog.ReadRecords | src/host/log-file.ts:219-274 | all records if damage is confined to a torn last line, else the first damaged line |
| TornLog.ReadCut | src/host/log-file.ts:219-274 | reading any byte prefix of a log never fails and gives a prefix of the records: all whole lines, and the last if only its newline is missing |
| TornLog.CutReads | src/host/log-file.ts:219-274 | the same, as a fact about lines |
| DiskCrash.AnyByteCutIsARecordCut | src/host/log-file.ts:219-274 | reading the log of any history cut at any byte gives one of the record cuts recovery is proved for, once the first record is there |
| Compaction.BuildIndex | src/cost/context-compaction.ts:62-91 | fails exactly on a request started twice or an invocation with two models; else indexes starts, models and settled invocations |
| Compaction.Collect | src/cost/context-compaction.ts:93-145 | the tables hold every unsettled charge once by role and by model, summing to the total |
| Compaction.CollectMissing | src/cost/context-compaction.ts:147-160 | lists the requests that never had an outcome, in order |
| Compaction.AggregateUnsettled | src/cost/context-compaction.ts:46-168 | accepts exactly the consistent logs and then accounts for every unsettled charge once and every unknown one by name |
| Rollup.RollTerminals | src/cost/rollup.ts:128-180 | every row is the sum of its own terminals, one session each, and the tables conserve the total |
| Rollup.AddByRole | src/cost/rollup.ts:197-200 | adds the charges row by row and conserves their sum |
| Rollup.AddByModel | src/cost/rollup.ts:201-205 | the same by model, the system default under its sentinel |
| Rollup.RollUp | src/cost/rollup.ts:122-229 | fails exactly on inconsistent compaction records; else every row means its own records, run total = sum over models = sum over roles + sum over subagents, protocols = subagents |
| Rollup.RunSessionsAreTerminals | src/cost/rollup.ts:231-245 | the run's session count is its number of usage-bearing terminals; charges add none |
| RunFilter.OtherRunsChangeNothing | src/cost/rollup.ts:135-142 | logs with the same records of the run have the same amounts, unknown charges and context flag, fail together, and have the same correct reports |
| Metering.EveryChargeCountsOnce | src/host/isolated-context-retention.ts:139-176 | after every history of sessions, messages, charges, captures, ends and crashes: the run total and what the live host holds are the own usage that terminals on record captured (own usage of live and crashed sessions is on neither side) and every known charge exactly once, if and only if no terminal was written without a charge its session had metered; so whenever nothing is metered between capture and terminal |
| Metering.ChargesBalance | src/cost/context-compaction.ts:46-168 | after every history and for every set of live sessions the roll-up accepts the log, and total, live charges and missed charges balance with all that was metered |
| Metering.LiveMetersHold | src/host/cost.ts:152-169 | a session in memory holds its own deduplicated usage and exactly its recorded charges |
| Metering.MeterSplits | src/host/cost.ts:152-169 | what a session metered, each key once, is its own usage plus the parts of its recorded charges: no key of a charge meets any other |
| Metering.TerminalFits | src/host/loop-session-turn.ts:166-312 | a terminal holds the captured usage: the session's own and its charges, less those metered since |
| Metering.LateChargeIsLost | src/host/isolated-context-retention.ts:139-176 | concrete history: a charge metered between capture and terminal is in no total |
| Settlement.HonestLogsBalance | src/cost/context-compaction.ts:88-145 | where terminals hold what their sessions spent, total and live charges are the own usage and every known charge once |
| Settlement.TerminalsHold | src/cost/rollup.ts:158-180 | in such a log terminals hold their own usage and exactly the charges they settle |
| Settlement.ChargesSplit | src/cost/context-compaction.ts:126-131 | a known charge is settled, with the live host, or open: exactly one of the three |
| SessionCost.SessionState.AddMessageUsage | src/host/cost.ts:152-157 | usage is the sum over distinct keys; a repeated message id adds nothing, and a session cap once reached stays reached |
| SessionCost.SessionState.AddCompactionUsage | src/host/cost.ts:163-169 | the same for charge ids under their prefix |
| SessionCost.SessionState.SetTerminalReason | src/host/cost.ts:201-231 | the reason follows the priorities and the detail belongs to it |
| SessionCost.SessionState.ClearRetryableModelError | src/host/cost.ts:245-249 | clears only a provider error |
| SessionCost.ToolReasonsWin | src/host/cost.ts:201-212 | over every event sequence an unconfirmed cleanup wins wherever it comes, and a tool timeout over all but that |
| SessionCost.ModelErrorNeverReplaces | src/host/cost.ts:214-249 | over any sequence of provider errors, retries and usage a cause the host set stays, and without one the reason is the provider's exactly while its last error is not retried |
| SessionCost.LatestReasonStands | src/host/cost.ts:201-249 | without tool reasons the latest report stands, unless it is a provider error after another cause or one that is retried |
| SessionCost.KeysApart | src/host/cost.ts:152-168 | messages share a key exactly with messages of their id, charges with charges of theirs, and a message meets a charge exactly by carrying its id under the prefix |
| JsonGraph.JsonIffTree | src/core/accepted-handoff.ts:269-318 | the check passes if and only if the value stands for a finite JSON tree, sharing allowed |
| JsonGraph.JsonIffAcyclicPlain | src/core/accepted-handoff.ts:279-318 | the check passes if and only if everything reachable is plain JSON data and no path repeats an object |
| JsonGraph.CyclesFail | src/core/accepted-handoff.ts:279-290 | nothing that reaches a cycle passes |
| JsonGraph.DenotesOne | src/core/accepted-handoff.ts:269-277 | a value stands for at most one tree |
| JsonGraph.DenotedIsFinite | src/core/accepted-handoff.ts:269-277 | the tree is one a JSON parser can return, with finite numbers only |
| JsonGraph.TreeOf | src/core/accepted-handoff.ts:269-277 | the tree that printing a passing value would read |
| JsonGraph.Checker.IsJsonValue | src/core/accepted-handoff.ts:279-290 | the recursive check with one shared ancestor set terminates on every graph, decides the predicate and puts the set back |
| JsonGraph.Checker.IsJsonArray | src/core/accepted-handoff.ts:292-304 | the same for arrays, holes and extra names included |
| JsonGraph.Checker.IsJsonObject | src/core/accepted-handoff.ts:306-318 | the same for objects |
| Handoff.MadeIffObjectFits | src/core/accepted-handoff.ts:66-99 | an envelope is made if and only if the payload stands for a JSON object whose text the encoder gives at most 64 KiB |
| Handoff.MadeReadsBack | src/core/accepted-handoff.ts:66-216 | what was made reads back, from any heap, as the same envelope with its siblings if and only if the payload targets the recipient and the siblings measure its own packet |
| Handoff.AcceptedReadsBack | src/host/accepted-handoff-validation.ts:208-262 | every envelope the host makes of an emission, for the role the emission itself names and with the siblings it derives, reads back as the same envelope |
| Handoff.AcceptIsExact | src/host/accepted-handoff-validation.ts:208-262 | an emission is accepted if and only if its payload is a JSON object within the limit that names its target and meets the continuity rules; the envelope goes to that target and carries what the packet resolves to |
| Handoff.ReadIsGenuine | src/core/accepted-handoff.ts:107-216 | an envelope is read if and only if version, recipient, encoded length, limit and target hold and the siblings are both absent or both in order; what is read is the stored payload and evidence, with the packet's own size |
| Handoff.RejectionNamesFirstFault | src/core/accepted-handoff.ts:107-216 | a rejection names the first of the thirteen checks, in their order, that does not pass |

## Left out

- Review gates, controller mode (with its host-terminated sessions), trajectory transport, artifacts, evidence, enrichment and advisory hooks: the loop is modelled with them absent, and `finalizeSession` without a lifecycle effect.
- Delegated children beyond the questions the loop asks about them; a settlement that throws is a crash at that point.
- A cap changed while the run goes on: the cap is fixed, so the second cap check around the end guard cannot differ from the first and is not modelled; end-guard records are not written to the modelled log.
- Negative caps: a cap is a natural amount.
- Run ids, timestamps, `suggests_next`, payload summaries, seeds and prompt texts; the modelled log holds one run (the cost modules do filter by run).
- The workspace and execution visit-index maps, which move with the visit index.
- A crash before the first snapshot is durable.
- `pendingForcedEnd` does not survive a crash; what the cap still gives then is `Histories.OneStartAtCap` and `Histories.DispatchesUnderCap`.
- Termination of one session's prompt loop: rejections and pending children re-prompt without limit; a tape that ends stands for a host that never answers again.
- Session ids are minted by a counter, standing for identifiers that never repeat; a legacy session without an id owns its file.
- JavaScript objects used as tables are maps: names that collide with inherited properties are not modelled.
- Number printing in the canonical text: a finite number is known by the text its printer gives it, so the two zeros, which are equal, are one.
- Validation of single session entries and headers, the `branch_summary` reference check, and the SDK's rebuilding of a context from a branch, which is an input of `Capture`.
- Two objects with equal content are told apart by a handle; that a context lists each object once is a condition of `Projection.ProjectionIsExact` and of the newest-message clause of `Projection.ProjectionKeepsEvidence`.
- Field by field validation of compaction records, and floating point: amounts are integers and cost a real.
- The construction of an accepted control from reported arguments (only measuring and fitting), and the schema and meaning of a continuity packet, which is a verdict given to `Handoff.Accept`.
- Lengths above 10^21, where a number would print with an exponent.
- Appending after a torn tail.
- Binding errors other than a busy port end an acquire at once; sockets and their time limits are steps of the lease machine.
- Context epochs, deliveries and boundaries in `Metering`: of the checks on context records it keeps that request ids are new and that charges come from a live, retained session.
- Loop.Orchestrator.PersistAcceptedTransition: evidence, artifact and enrichment records between the four writes are not modelled, because those families are left out.
- Loop.Orchestrator.DecideEvent: the second cap check around the end guard, which with a fixed cap cannot differ, and the guard's own records are not modelled.
- Loop.Orchestrator.RunSessionTurn: review completion and controller termination inside the loop are not modelled.
- Loop.Orchestrator.RunSession: artifact routing before the start record is not modelled.
- Loop.Orchestrator.RunLoop: pending review routes at the loop head are not modelled.
- Loop.Orchestrator.ReconcileCrash: reconciliation of lost children before the scans is not modelled.
- Capture.CheckPointers: the check of a `branch_summary` reference in the same loop is not modelled.
- Capture.CaptureBoundary: header checks, the hash and a failing context rebuild are not modelled; the rebuilt context is an input.
- TornLog.LogFile.Append: the history checks of single record families before an append, and controller mode, are not modelled.
- TornLog.ReadRecords: the history checks of single record families after the line loop are not modelled.
- Compaction.BuildIndex: the field by field assertion on each record, which can also fail, is not modelled.
- Compaction.Collect: the field by field assertion on each outcome, which can also fail, is not modelled.
- Compaction.AggregateUnsettled: acceptance ignores those assertions.
- Rollup.RollUp: failure ignores those assertions.
