# Society: a verified model

A Dafny model of five parts of the society repository, with proofs about every run of them.

**The boundary peer** (`Peer*.dfy`, `BoundaryPeer.dfy`) validates two interleaved, numbered frame streams
between the daemon and one child process. `PeerSpec` gives one step as a function, `PeerRuns` a run with its
history of accepted frames, and the class `BoundaryPeer.Peer` does the same by updating its fields. The
theorems say what the history must contain for a turn to be settled, a session to be disposed, a charge to be
reported; `PeerCharges` says when a charge is not, and `PeerWitnesses` builds the runs in which that happens.

**Exact cost** (`Binary64.dfy`, `Usage.dfy`): the two integer computations of ceil(binary64 * 10^6), the
comparisons of raw bits and bytes, and the tracker of cumulative usage. The format is that of IEEE 754-2019,
section 3.4.

**The study control plane** (`Study*.dfy`, `ControlPlane.dfy`, `Fingerprint.dfy`, `RowCodec.dfy`): tables as
finite maps, 33 commands, one invariant over all tables. `StudySpec` gives each command as an all-or-nothing
step; the class `ControlPlane.Kernel` rewrites the tables statement by statement and rolls back to a
savepoint. Identity columns come in as fresh values; a value that is already taken fails the INSERT. The
UNIQUE constraints the steps use are explicit rejections: one forum per episode, one thread per forum, one
treatment, frozen head and successor population per episode, one exposure and one decision per obligation,
one row per (episode, slot), per (run, ordinal) and per run and pair, an episode in one pair per side, one
binding per child and per spawn admission, one role per episode and phase. `StudyHistories` builds concrete
histories for `StudyCitations` and `RunGaps`.

**Crash-retry sealing** (`Sealing*.dfy`, `ContentAuthority.dfy`): bytes are linked into the physical store,
then the ledger gets a receipt and an object, and the daemon may die between any two of these. Runs interleave
sealing calls with other commands, changes of grants, and arbitrary changes of the physical store.

**The run client** (`RunClient.dfy`, `RunGaps.dfy`) fetches a run ordinal by ordinal while the kernel goes on.

BLAKE3, the forum rendering, the pinned-policy checks and the path checks are parameters; no property takes a
digest to be injective.

## Where the code does less than one would expect

- `cost.rs` says values too large are refused. From shift 56 on bits can be lost and the result is too small;
  `CeilingExactness` gives the exact condition, `KeepsAllBitsIsARange` the same as a bound on the bits,
  `LostBitsWitness` a value of 2^122 charged as nothing. Beyond that bound a rising cost can be refused as a
  regression (`SpuriousRegression`); `CeilingAloneRange` says for which snapshots.
- `content.rs` says that reusing a label with different bytes reaches the kernel as an idempotency conflict.
  It does exactly when the next command the call still needs has its identity held by another request
  (`ConflictsExactly`); `ReusedLabel` gives runs in which the reuse succeeds.
- A decision may cite a message the actor was shown. The code wants exactly one covering receipt
  (`CitableExactly`), so a message shown is refused exactly when it was read twice (`ShownButRefused`);
  `ReadTwiceRefused` is a reachable history of that.
- The run client promises every registered pair. For a run still pairing it succeeds exactly when the ordinals
  are 1..counter (`AtOnce`); `PairingRunMayBeUnreadable` is a reachable run where they are not.
- Usage is final at the Disposed frame, not after it: the Dispose command can always be charged once more
  (`DisposedStillCharges`, `DisposedIsCharged`).
- Every charge is reported, except that of a second terminal snapshot: the reports fall short of the tracker
  exactly in the runs with such a snapshot (`ShortfallExactly`, `ChargeIsLost`).

## Model

| member | source | states |
|---|---|---|
| `Binary64.CeilingExactness` | crates/society-pi/src/cost.rs:42-74 | the boundary returns the ceiling of value * 10^6 if and only if no bit is shifted out of the 128-bit word; it refuses exactly at shifts of 128 or more; otherwise it returns less than the ceiling |
| `Binary64.ExactUpToShift55` | crates/society-pi/src/cost.rs:42-74 | up to binary exponent 55, subnormals and huge denominators included, the result is the unique ceiling |
| `Binary64.LostBitsWitness` | crates/society-pi/src/cost.rs:39-74 | bits 0x4790000000000000 (2^122) give `Ok(0)`: the comment that values too large are refused does not hold there |
| `Binary64.KernelAgreesWithBoundary` | crates/society-kernel/src/domain.rs:707-747 | for every eight stored bytes the kernel returns n exactly when the boundary does and n fits an i64 |
| `Binary64.KernelExactness` | crates/society-kernel/src/domain.rs:707-747 | the kernel returns the true charge exactly when that fits an i64, and a wrong number exactly when bits are lost and the wrapped result fits |
| `Binary64.KernelLostBits` | crates/society-kernel/src/domain.rs:707-747 | the stored bytes 47 90 00 00 00 00 00 00 give `Ok(0)` in the kernel too |
| `Binary64.KeepsAllBitsIsARange` | crates/society-pi/src/cost.rs:39-74 | no bit is lost exactly up to the bit pattern 0x46B0C6F7A0B5ED8D |
| `Binary64.BitOrderIsValueOrder` | crates/society-pi/src/cost.rs:158-169 | comparing raw bit patterns is comparing the numbers, across the subnormal and normal boundary |
| `Binary64.ByteOrderIsBitOrder` | crates/society-kernel/src/domain.rs:692-702 | comparing big-endian bytes lexicographically is comparing the bit patterns, equality included |
| `Binary64.CeilingIsMonotone` | crates/society-pi/src/cost.rs:42-74 | where no bit is lost, a larger cost never has a smaller ceiling |
| `Usage.FromTotals` | crates/society-pi/src/cost.rs:104-129 | a normalised snapshot always has consistent totals and the ceiling of its own cost |
| `Usage.UsageTracker.Observe` | crates/society-pi/src/cost.rs:150-184 | an observation moves the latest snapshot and reports the difference, or is refused and leaves it as it was |
| `Usage.TrackConserves` | crates/society-pi/src/cost.rs:150-184 | latest charge plus delta is the new charge, in micro-USD and in all five token counts, and nothing decreases |
| `Usage.IdempotentDeltaIsZero` | crates/society-pi/src/cost.rs:150-184 | a delta flagged idempotent is zero everywhere and changes nothing |
| `Usage.TotalOverchargeBelowOneMicro` | crates/society-pi/src/cost.rs:145-188 | over any sequence of observations the deltas add up to the last snapshot, so the total charge is the exact ceiling of its cost: below one micro-USD over, however many snapshots |
| `Usage.SeparateChecksNeverDecide` | crates/society-pi/src/cost.rs:158-169 | on the exact range the checks on total tokens and on the ceiling never decide alone |
| `Usage.CeilingAloneExactly` | crates/society-pi/src/cost.rs:158-169 | for consistent snapshots: the regression test fires although no count and no cost fell if and only if the ceiling fell while they did not |
| `Usage.CeilingAloneRange` | crates/society-pi/src/cost.rs:158-169 | some earlier snapshot makes that happen to a snapshot exactly when its cost lies beyond the exact range and its ceiling below the one at the edge of it |
| `Usage.SpuriousRegression` | crates/society-pi/src/cost.rs:158-169 | 2^121 is accepted and 2^122 after it is answered `RegressedUsage`, by the ceiling check alone |
| `Usage.KernelAcceptsBoundaryUsage` | crates/society-kernel/src/domain.rs:765-773 | the kernel finds a boundary-normalised snapshot consistent exactly when total and ceiling fit an i64 |
| `PeerAdmissions.InvariantHolds` | crates/society-pi/src/peer.rs:277-1226 | phases, slots, correlation table, sequences, counts, charges, turn and disposal evidence agree with the whole frame history in every run |
| `PeerTheorems.TerminalCertificate` | crates/society-pi/src/peer.rs:1016-1125 | each settled receipt with an observed outcome is backed by the accepted frames of its own prompt, in order: result, start, retrying ends and restarts, one final end with the receipt's stop reason, agent settled, known usage, and Settled one sequence after that usage |
| `PeerTheorems.SettlementGuardsImplied` | crates/society-pi/src/peer.rs:1084-1108 | in every run the guards on usage adjacency and order hold exactly when the evidence waits for this frame and its usage is the frame before |
| `PeerTheorems.AbortInterleaving` | crates/society-pi/src/peer.rs:1058-1065 | an Aborted receipt with an observed Stop exists only if an Abort was admitted after its prompt and before its final end |
| `PeerTheorems.DisposeChain` | crates/society-pi/src/peer.rs:1127-1217 | entering Disposed, the last three accepted outbound frames are Dispose result k, known usage k+1, Disposed k+2; nothing was admitted after the Dispose; no prompt is outstanding; the transcript verifies the first accepted prompt or none |
| `PeerTheorems.RankNeverFalls` | crates/society-pi/src/peer.rs:27-35 | no event takes the phase backwards |
| `PeerTheorems.RefusalFences` | crates/society-pi/src/peer.rs:1219-1225 | every refused frame, and a premature end of output, leaves Fatal with no execution slot taken |
| `PeerTheorems.FatalIsFinal` | crates/society-pi/src/peer.rs:491-504 | once Fatal, the history gains at most one frame, and that is a Fatal frame |
| `PeerTheorems.Exclusivity` | crates/society-pi/src/peer.rs:184-245 | at most one of pending prompt, active turn, pending dispose, active dispose is set, none in Fatal; accepted prompts = settled turns + active turn; completed = results seen; a task attempt admits one prompt |
| `PeerTheorems.UsageConservation` | crates/society-pi/src/peer.rs:914-1014 | reported deltas sum to the latest snapshot outside Fatal and to at most it in Fatal |
| `PeerCharges.ResultsHold` | crates/society-pi/src/peer.rs:711-809 | in every run each command result of the history stands in the command table with its answer, and no later frame changes it |
| `PeerCharges.DisposedStillCharges` | crates/society-pi/src/peer.rs:932-1014 | in every reachable Disposed state the snapshots still charged are exactly the trackable ones of an accepted control command, and the Dispose always is one |
| `PeerWitnesses.DisposedIsCharged` | crates/society-pi/src/peer.rs:932-1014 | every admitted session has a run that ends in Disposed with nothing charged and one more frame that charges a micro-USD |
| `PeerCharges.SecondTerminalSnapshot` | crates/society-pi/src/peer.rs:973-1002 | in every run the tracker advances without a report exactly at a trackable, not repeated snapshot of the running prompt that comes while its Settled frame is awaited; each such snapshot fences |
| `PeerCharges.ShortfallExactly` | crates/society-pi/src/peer.rs:914-1014 | over every run the reported charges fall short of the latest snapshot if and only if the run contains such a snapshot with a delta that is not zero; the run is then in Fatal |
| `PeerWitnesses.ChargeIsLost` | crates/society-pi/src/peer.rs:973-1002 | every admitted session has a run in which a token and a micro-USD reach the tracker and are never reported |
| `PeerProtocol.FinalAssistantStopReason` | crates/society-pi/src/peer.rs:1314-1342 | the loop from the back returns the stop reason of the last assistant message, or none |
| `PeerProtocol.FinalStopAtLastAssistant` | crates/society-pi/src/peer.rs:1314-1342 | the stop reason is that of the last assistant message, whatever follows it |
| `PeerProtocol.NoAssistantNoStop` | crates/society-pi/src/peer.rs:1314-1342 | without an assistant message there is none |
| `BoundaryPeer.Peer.constructor` | crates/society-pi/src/peer.rs:278-313 | the empty history, awaiting the adapter, with the invariant; only for a pinned runtime |
| `BoundaryPeer.Peer.Open` | crates/society-pi/src/peer.rs:278-313 | a peer is made exactly when the expected runtime is the pinned one, otherwise a protocol error |
| `BoundaryPeer.Peer.FencePeer` | crates/society-pi/src/peer.rs:1219-1225 | Fatal and no slot; everything else as before |
| `BoundaryPeer.Peer.AdmitInbound` | crates/society-pi/src/peer.rs:367-373 | one admission step of the run, invariant kept, and its refusal |
| `BoundaryPeer.Peer.AdmitInboundInner` | crates/society-pi/src/peer.rs:375-444 | the admission before the caller fences |
| `BoundaryPeer.Peer.RecordCommand` | crates/society-pi/src/peer.rs:399-444 | the table entry and what the command starts |
| `BoundaryPeer.Peer.AttachAbort` | crates/society-pi/src/peer.rs:414-427 | an abort marks the running turn while its outcome is open, or the pending prompt |
| `BoundaryPeer.Peer.ValidateSession` | crates/society-pi/src/peer.rs:613-643 | a session is created once, from Inert, with a pinned profile |
| `BoundaryPeer.Peer.ValidateCommandAdmission` | crates/society-pi/src/peer.rs:608-709 | the refusal of each command in each state, and what validation itself consumes |
| `BoundaryPeer.Peer.ObserveOutboundFrame` | crates/society-pi/src/peer.rs:480-489 | one observation step of the run, invariant kept, and its reply |
| `BoundaryPeer.Peer.ObserveOutboundInner` | crates/society-pi/src/peer.rs:491-597 | fatal, identity and sequence guards before the event |
| `BoundaryPeer.Peer.Dispatch` | crates/society-pi/src/peer.rs:509-597 | each event reaches its own transition |
| `BoundaryPeer.Peer.ObserveAdapterReadyFrame` | crates/society-pi/src/peer.rs:510-528 | the runtime identity is accepted once, if it is the expected and the pinned one |
| `BoundaryPeer.Peer.ObserveSessionReadyFrame` | crates/society-pi/src/peer.rs:812-857 | readiness must repeat the accepted configuration |
| `BoundaryPeer.Peer.ObserveCommandResult` | crates/society-pi/src/peer.rs:711-809 | a result is matched to its command once |
| `BoundaryPeer.Peer.Reject` | crates/society-pi/src/peer.rs:790-809 | a rejected prompt is no longer pending; a rejected Dispose is an error |
| `BoundaryPeer.Peer.BeginSession` | crates/society-pi/src/peer.rs:744-756 | the accepted candidate becomes the session being created |
| `BoundaryPeer.Peer.BeginTurn` | crates/society-pi/src/peer.rs:757-774 | an accepted prompt becomes the one active turn |
| `BoundaryPeer.Peer.BeginDisposal` | crates/society-pi/src/peer.rs:775-805 | an accepted Dispose closes the session |
| `BoundaryPeer.Peer.ObserveAgentEvent` | crates/society-pi/src/peer.rs:859-880 | agent events belong to the active turn |
| `BoundaryPeer.Peer.ObserveTurnEvidence` | crates/society-pi/src/peer.rs:1241-1300 | the evidence machine rewritten in place |
| `BoundaryPeer.Peer.ObserveForumToolCall` | crates/society-pi/src/peer.rs:882-912 | a forum call is recorded once under the active turn |
| `BoundaryPeer.Peer.ObserveUsageSnapshot` | crates/society-pi/src/peer.rs:914-1014 | tracking, evidence and delta of one snapshot, with its refusals |
| `BoundaryPeer.Peer.RefuseUsage` | crates/society-pi/src/peer.rs:914-971 | who may be charged, and when a Dispose must be |
| `BoundaryPeer.Peer.RecordUsage` | crates/society-pi/src/peer.rs:973-1012 | where the snapshot counts as evidence |
| `BoundaryPeer.Peer.ObserveSettledFrame` | crates/society-pi/src/peer.rs:1016-1125 | a turn is settled with its disposition, or refused |
| `BoundaryPeer.Peer.ObserveDisposedFrame` | crates/society-pi/src/peer.rs:1127-1217 | the session ends only with its usage and transcript evidence |
| `BoundaryPeer.Peer.CheckTranscript` | crates/society-pi/src/peer.rs:1170-1213 | the transcript receipt matches session and first prompt |
| `BoundaryPeer.Peer.ObserveFatalFrame` | crates/society-pi/src/peer.rs:586-594 | the first Fatal frame fences and is reported |
| `BoundaryPeer.Peer.RefuseMalformedLine` | crates/society-pi/src/peer.rs:345-362 | an undecodable line fences |
| `BoundaryPeer.Peer.ObserveStdoutEof` | crates/society-pi/src/peer.rs:600-606 | end of output is abnormal before Disposed |
| `StudyOutcomeFrames.InvariantHolds` | crates/society-kernel/src/study.rs:2731-4113 | every group of the study invariant holds after any history of commands, rejections and changes elsewhere |
| `StudyOutcomeFrames.StepKeeps` | crates/society-kernel/src/study.rs:2731-4113 | one command, accepted or rejected, keeps the whole invariant |
| `StudyDesignFrames.EpisodeAdmittedKeeps` | crates/society-kernel/src/study.rs:2838-2864 | admitting an episode keeps the whole invariant |
| `StudyDesignFrames.TreatmentAssignedKeeps` | crates/society-kernel/src/study.rs:2865-2879 | assigning the one treatment keeps it |
| `StudyDesignFrames.PairKeeps` | crates/society-kernel/src/study.rs:2880-2908 | admitting a matched pair keeps it: arms agree in all but treatment and are in no other pair |
| `StudyDesignFrames.RunAdmittedKeeps` | crates/society-kernel/src/study.rs:2909-2960 | admitting a run keeps it |
| `StudyDesignFrames.RegistrationKeeps` | crates/society-kernel/src/study.rs:2961-3058 | registering a pair at an ordinal keeps it: ordinals stay distinct and counted |
| `StudyDesignFrames.RunStartKeeps` | crates/society-kernel/src/study.rs:3059-3091 | starting a run keeps it |
| `StudyDesignFrames.RunCompletionKeeps` | crates/society-kernel/src/study.rs:3092-3149 | completing a run keeps it: every pair is closed in both arms |
| `StudyForumFrames.ForumCreated` | crates/society-kernel/src/study.rs:3150-3163 | creating the one forum keeps it |
| `StudyForumFrames.ThreadOpened` | crates/society-kernel/src/study.rs:3164-3192 | opening the one thread keeps it |
| `StudyActorFrames.HasAdmittedObligation` | crates/society-kernel/src/study.rs:3193-3284 | admitting an obligation keeps it |
| `StudyActorFrames.HasCompleted` | crates/society-kernel/src/study.rs:3285-3314 | completing an obligation keeps it |
| `StudyActorFrames.HasFailed` | crates/society-kernel/src/study.rs:3315-3350 | failing an obligation keeps it |
| `StudyActorFrames.HasBoundRuntime` | crates/society-kernel/src/study.rs:3351-3552 | binding a runtime keeps it |
| `StudyActorFrames.HasReconciled` | crates/society-kernel/src/study.rs:3553-3596 | reconciling a runtime keeps it |
| `StudyActorFrames.HasSettled` | crates/society-kernel/src/study.rs:3597-3778 | settling an attempt after recovery keeps it |
| `StudyOutcomeFrames.HasFrozen` | crates/society-kernel/src/study.rs:3779-3799 | freezing the head keeps it |
| `StudyDesignFrames.ReplacementKeeps` | crates/society-kernel/src/study.rs:3800-3872 | replacing the population keeps it |
| `StudyMessageFrames.Exposed` | crates/society-kernel/src/study.rs:3873-3906 | admitting a window keeps it: windows end at the head, start at 1 for sources and Retained, past the frozen head for Reset successors |
| `StudyAppend.HasPublished` | crates/society-kernel/src/study.rs:4191-4295 | publishing keeps it: ordinal, window, budget and relations move together |
| `StudyMessageFrames.HasRetracted` | crates/society-kernel/src/study.rs:4297-4364 | a retraction keeps it |
| `StudyAppend.HasReleased` | crates/society-kernel/src/study.rs:4366-4462 | the matched release keeps it, both arms at once |
| `StudyMessageFrames.HasRead` | crates/society-kernel/src/study.rs:4534-4618 | a read keeps it |
| `StudyOutcomeFrames.HasDecided` | crates/society-kernel/src/study.rs:3952-4001 | a decision keeps it: the cited message was read or is the actor's own |
| `StudyOutcomeFrames.HasRevealed` | crates/society-kernel/src/study.rs:4002-4048 | revealing the truth keeps it |
| `StudyOutcomeFrames.HasMeasured` | crates/society-kernel/src/study.rs:4049-4099 | a measurement result keeps it |
| `StudyOutcomeFrames.HasClosed` | crates/society-kernel/src/study.rs:4620-4669 | closing keeps it, although it checks only a row count |
| `StudyDesignFrames.ForkKeeps` | crates/society-kernel/src/study.rs:4671-4705 | a fork keeps it |
| `StudyTheorems.ResetIsolation` | crates/society-kernel/src/study.rs:3873-4001 | in every reachable state no successor of a Reset episode has read, replied to, superseded or cited a message of the source phase |
| `StudyTheorems.RetainedSeesAll` | crates/society-kernel/src/study.rs:3873-3906 | a Retained successor's window is 1..head |
| `StudyTheorems.ThreadLayout` | crates/society-kernel/src/study.rs:4191-4295 | ordinals are exactly 1..head, one message each: sources up to the frozen head, the service right after it, successors beyond |
| `StudyTheorems.HeadCounts` | crates/society-kernel/src/study.rs:4423-4462 | the head stands still from freeze to correction and equals all posts used plus one after the correction |
| `StudyTheorems.BudgetsHold` | crates/society-kernel/src/study.rs:4577-4618 | receipts of an obligation = reads used, within the read budget; posts used within the post budget |
| `StudyTheorems.RelationsGoDown` | crates/society-kernel/src/study.rs:4145-4189 | any chain of reply and supersede relations stays in a thread, goes strictly down, and never returns |
| `StudyCitations.CitableExactly` | crates/society-kernel/src/study.rs:3952-4001 | in every reachable state an undecided obligation may cite a message exactly when it is its own and published, or it is active and exactly one of its receipts returned the message |
| `StudyCitations.ShownButRefused` | crates/society-kernel/src/study.rs:3952-4001 | so an active actor that was shown a message it did not write is refused exactly when two of its receipts returned it |
| `StudyCitations.ReadTwiceRefused` | crates/society-kernel/src/study.rs:3952-4001 | a history with two accepted reads of one message: the citation is accepted after the first and rejected after the second |
| `StudyCitations.ReadAgainUncitable` | crates/society-kernel/src/study.rs:3952-4001 | whatever the tables, reading a covered message again makes it uncitable for an actor that did not write it |
| `StudyTheorems.ClosureComplete` | crates/society-kernel/src/study.rs:4620-4669 | a closed episode has only terminal obligations, the committed truth revealed, exactly one well-shaped result per slot 1..count, and charges within budget |
| `StudyTheorems.RunIsWhole` | crates/society-kernel/src/study.rs:2961-3149 | past pairing the registered ordinals are exactly 1..count; a completed run has both arms of every pair closed |
| `StudyTheorems.MatchedCorrection` | crates/society-kernel/src/study.rs:4366-4462 | the arms of a pair are past the release together, with the same correction, which has the digest of the reset arm's protocol too |
| `StudyTheorems.OneCorrection` | crates/society-kernel/src/study.rs:4423-4462 | an episode has a correction exactly when it is past the release, and never two |
| `StudyTheorems.ReleaseMovesBoth` | crates/society-kernel/src/study.rs:4366-4462 | an accepted release moves exactly these two episodes, from SuccessorAdmitted, and appends the same body to both threads |
| `StudyTheorems.RuntimeCustody` | crates/society-kernel/src/study.rs:3351-3778 | no terminal obligation has a Bound runtime; a completed one is Reconciled if bound; recovery settlement excludes completion, and has its settlement row exactly then |
| `StudyProgress.NothingReopens` | crates/society-kernel/src/study.rs:2731-4113 | whatever follows, episode and run states only advance, terminal obligations and settled runtimes are final, registrations and bindings never change |
| `ControlPlane.Kernel.constructor` | crates/society-kernel/src/study.rs:2731-2736 | empty tables satisfy the invariant |
| `ControlPlane.Kernel.Execute` | crates/society-kernel/src/store.rs:1860-1895 | one command, all or nothing: a rejection restores the savepoint even after partial writes |
| `ControlPlane.Kernel.ApplyCommand` | crates/society-kernel/src/study.rs:2731-4113 | accepted: the step's tables and event; rejected: the step's reason, whatever was written |
| `ControlPlane.Kernel.AdmitProtocolRevisionRow` | crates/society-kernel/src/study.rs:2737-2769 | the protocol row, if the application is known and prompt and tool contracts are the pinned ones |
| `ControlPlane.Kernel.AdmitWorldRow` | crates/society-kernel/src/study.rs:2770-2785 | the world row of a known protocol |
| `ControlPlane.Kernel.AdmitMeasurementRow` | crates/society-kernel/src/study.rs:2786-2802 | the measurement row and its slot count |
| `ControlPlane.Kernel.AdmitInstitutionRow` | crates/society-kernel/src/study.rs:2803-2818 | the institution row |
| `ControlPlane.Kernel.AdmitPopulationRow` | crates/society-kernel/src/study.rs:2819-2837 | the population row and its size |
| `ControlPlane.Kernel.AdmitStudyEpisode` | crates/society-kernel/src/study.rs:2838-2864 | the episode row, its references and its first state |
| `ControlPlane.Kernel.AssignEpisodeTreatment` | crates/society-kernel/src/study.rs:2865-2879 | the one treatment row of an episode |
| `ControlPlane.Kernel.AdmitPairOfArms` | crates/society-kernel/src/study.rs:2880-2908 | the pair row, each arm in one pair per side |
| `ControlPlane.Kernel.AdmitRunRow` | crates/society-kernel/src/study.rs:2909-2960 | the run row, its counter and its first state |
| `ControlPlane.Kernel.StartStudyRunNow` | crates/society-kernel/src/study.rs:3059-3091 | Ready to Running, every pair registered |
| `ControlPlane.Kernel.CompleteStudyRunNow` | crates/society-kernel/src/study.rs:3092-3149 | Running to Completed, unless a registered pair is still open |
| `ControlPlane.Kernel.CreateForumRow` | crates/society-kernel/src/study.rs:3150-3163 | the forum row and its state |
| `ControlPlane.Kernel.OpenThreadRow` | crates/society-kernel/src/study.rs:3164-3192 | the thread row and its head at 0 |
| `ControlPlane.Kernel.AdmitActor` | crates/society-kernel/src/study.rs:3193-3284 | the obligation, its occurrence and the episode state, statement by statement |
| `ControlPlane.Kernel.CompleteActor` | crates/society-kernel/src/study.rs:3285-3314 | the charge within budget and the final state; a bound runtime must be reconciled |
| `ControlPlane.Kernel.FailActor` | crates/society-kernel/src/study.rs:3315-3350 | the final state; a bound runtime must be reconciled or settled by recovery |
| `ControlPlane.Kernel.BindToOffice` | crates/society-kernel/src/study.rs:3351-3443 | the checks of an office binding, then its row |
| `ControlPlane.Kernel.BindToAttempt` | crates/society-kernel/src/study.rs:3444-3552 | the checks of an attempt binding, then its row |
| `ControlPlane.Kernel.InsertBinding` | crates/society-kernel/src/study.rs:3418-3431 | the binding row under its unique keys |
| `ControlPlane.Kernel.ReconcileBinding` | crates/society-kernel/src/study.rs:3553-3596 | Bound to Reconciled |
| `ControlPlane.Kernel.FreezeHead` | crates/society-kernel/src/study.rs:3779-3799 | the frozen head, the head as it is now |
| `ControlPlane.Kernel.ExposeWindow` | crates/society-kernel/src/study.rs:3873-3906 | the window row, from the computed start to the head |
| `ControlPlane.Kernel.RecordDecisionRow` | crates/society-kernel/src/study.rs:3952-4001 | the decision row, after the citation checks |
| `ControlPlane.Kernel.RevealTruthRow` | crates/society-kernel/src/study.rs:4002-4048 | the reveal against its commitment |
| `ControlPlane.Kernel.RecordResult` | crates/society-kernel/src/study.rs:4049-4099 | one result row per slot |
| `ControlPlane.Kernel.RetractMessage` | crates/society-kernel/src/study.rs:4297-4364 | the publication state of one message |
| `ControlPlane.Kernel.RegisterRunPair` | crates/society-kernel/src/study.rs:2961-3058 | registration row, counter and Ready transition |
| `ControlPlane.Kernel.SettleAfterRecovery` | crates/society-kernel/src/study.rs:3597-3778 | settlement over four tables |
| `ControlPlane.Kernel.ReplaceSources` | crates/society-kernel/src/study.rs:3800-3872 | successor row and episode state |
| `ControlPlane.Kernel.AppendMessage` | crates/society-kernel/src/study.rs:4255-4280 | message, publication and head together |
| `ControlPlane.Kernel.CheckRelations` | crates/society-kernel/src/study.rs:4245-4254 | the loop over reply and supersede targets accepts exactly allowed targets |
| `ControlPlane.Kernel.RecordPost` | crates/society-kernel/src/study.rs:4255-4295 | message, post counter and episode state |
| `ControlPlane.Kernel.PublishActorMessage` | crates/society-kernel/src/study.rs:4191-4295 | publication, statement by statement |
| `ControlPlane.Kernel.ReleaseBothArms` | crates/society-kernel/src/study.rs:4366-4421 | retained arm first, then reset; a refused second arm leaves the first written for the rollback |
| `ControlPlane.Kernel.ReleaseOneArm` | crates/society-kernel/src/study.rs:4423-4462 | one arm's checks, message and state |
| `ControlPlane.Kernel.ReadMessages` | crates/society-kernel/src/study.rs:4577-4618 | receipt and read counter |
| `ControlPlane.Kernel.CloseStudyEpisode` | crates/society-kernel/src/study.rs:4620-4669 | forum shut and episode closed |
| `ControlPlane.Kernel.Fork` | crates/society-kernel/src/study.rs:4671-4705 | forked episode and treatment |
| `Fingerprint.CommandsDecodeUniquely` | crates/society-kernel/src/study.rs:1477-1788 | enc(c) + x = enc(d) + y implies c = d and x = y, for all 33 commands |
| `Fingerprint.EventsDecodeUniquely` | crates/society-kernel/src/study.rs:4745-4991 | the same for all 33 events |
| `Fingerprint.BigEndianInjective` | crates/society-kernel/src/study.rs:1440-1442 | two's-complement big-endian i64 values are told apart by their eight bytes |
| `Fingerprint.FieldFirst` | crates/society-kernel/src/study.rs:1440-1474 | a field of known sort is determined by any buffer that starts with it, and so is the rest |
| `Fingerprint.Commitment.PutI64` | crates/society-kernel/src/study.rs:1440-1442 | appends eight big-endian bytes |
| `Fingerprint.Commitment.PutBytes` | crates/society-kernel/src/study.rs:1444-1450 | appends length and content |
| `Fingerprint.Commitment.PutOptionalI64` | crates/society-kernel/src/study.rs:1452-1460 | appends a 0/1 tag and the value |
| `Fingerprint.Commitment.PutOptionalDigest` | crates/society-kernel/src/study.rs:1462-1470 | appends a 0/1 tag and the digest |
| `Fingerprint.Commitment.AppendCommand` | crates/society-kernel/src/study.rs:1477-1788 | the buffer grows by the command's encoding |
| `Fingerprint.Commitment.AppendEvent` | crates/society-kernel/src/study.rs:4745-4991 | the buffer grows by the event's encoding |
| `RowCodec.CommandReturns` | crates/society-kernel/src/study.rs:5201-5602 | every command decodes from its own sparse row as itself |
| `RowCodec.EventReturns` | crates/society-kernel/src/study.rs:5604-5842 | an event decodes as itself exactly when the profile it names is the one stored on its spawn admission |
| `RowCodec.BindingNamesProfile` | crates/society-kernel/src/study.rs:3351-3552 | both ways of binding emit the admission's profile |
| `RowCodec.EventOfItsKind` | crates/society-kernel/src/study.rs:1132-1438 | an accepted command emits the event of its own kind |
| `RowCodec.EmittedEventReturns` | crates/society-kernel/src/study.rs:4993-5033 | every event a transition emits reads back as itself in the state it was emitted in |
| `RowCodec.EventStaysReadable` | crates/society-kernel/src/study.rs:5604-5842 | however the run continues, an emitted event reads back as itself exactly while the admission it names carries the profile it carried then |
| `SealingNames.ParseAccepts` | crates/societyd/src/content.rs:99-147 | a label is accepted exactly when it has 1 to 80 lower-case letters, digits and hyphens, none at the ends a hyphen; the derived command identities never fail |
| `SealingNames.OperationsAreTheirLabels` | crates/societyd/src/content.rs:99-120 | operations are equal exactly when label and digest are; different labels share no command identity |
| `SealingNames.DerivedLabelsParse` | crates/societyd/src/content.rs:47-94 | the three derived label families are always valid, whatever their numbers |
| `SealingNames.LabelsNameSubjects` | crates/societyd/src/content.rs:47-94 | different subjects have different labels, within and across the families |
| `SealingNames.MissionSourceLabel` | crates/societyd/src/content.rs:69-79 | the loop builds the hexadecimal label |
| `SealingTheorems.OneIdentity` | crates/society-kernel/src/store.rs:10987-11077 | in every run at most one receipt per digest and one object per receipt |
| `SealingTheorems.IdentityIsForever` | crates/society-kernel/src/store.rs:2138-2169 | a registered digest keeps its receipt and object whatever follows |
| `SealingTheorems.SealedFirst` | crates/societyd/src/content.rs:185-250 | every recorded digest was, at the step that recorded it, in the physical store with bytes of that digest |
| `SealingTheorems.CallSucceeds` | crates/societyd/src/content.rs:231-341 | a call succeeds exactly when the bytes can be stored, the commands still needed have free identities and grants, and no seam is reached; it adds at most its two commands |
| `SealingTheorems.RetryReturnsTheSame` | crates/societyd/src/content.rs:231-341 | after a success, every later success for the digest returns the same object and runs no command |
| `SealingTheorems.CrashesConverge` | crates/societyd/src/content.rs:231-341 | while each label is used for one digest, a healthy call succeeds after any crashes |
| `SealingTheorems.ConflictsExactly` | crates/societyd/src/content.rs:231-341 | over every run a call is answered with an idempotency conflict if and only if its bytes are stored, the physical seam is not hit, the next command it needs (the register command, once a fresh receipt is made) is granted, and another request holds that command's identity |
| `SealingTheorems.ReusedLabel` | crates/societyd/src/content.rs:29-35 | a reused label need not conflict: it can register the other digest's object, and then its own digest is blocked, by the conflict if the two requests differ in fingerprint and as not materialised if they do not |
| `ContentAuthority.KernelStore.Execute` | crates/society-kernel/src/store.rs:1774-1895 | once per command identity: replay, conflict, or transition with rollback |
| `ContentAuthority.KernelStore.Transition` | crates/society-kernel/src/store.rs:10987-11077 | the two transitions and their rejections, with the capability and generation checks before them |
| `ContentAuthority.ContentSealingAuthority.Write` | crates/society-content/src/lib.rs:261-325 | link once, or verify what is there |
| `ContentAuthority.ContentSealingAuthority.SealAndRegister` | crates/societyd/src/content.rs:231-307 | the whole call with its seams and error order |
| `ContentAuthority.ContentSealingAuthority.RegisterAfterReceipt` | crates/societyd/src/content.rs:309-341 | the second half |
| `ContentAuthority.ContentSealingAuthority.ExecuteServiceCommand` | crates/societyd/src/content.rs:359-383 | grant look-up, execution and its rejection |
| `RunClient.RunObservation` | crates/society-kernel/src/study.rs:2368-2444 | the ordered rows, or not found, or corruption when the counter disagrees |
| `RunClient.StudyRunObservation` | crates/societyctl/src/lib.rs:128-175 | stops at the first reply that does not carry its ordinal, with that reply's error; otherwise the summary and the carried registrations in order |
| `RunClient.CounterMatches` | crates/society-kernel/src/study.rs:2425-2431 | in every reachable state the counter matches the rows, so corruption is never reported |
| `RunClient.ClientSucceeds` | crates/societyctl/src/lib.rs:153-164 | success exactly when each ordinal up to the counter is registered by the time it is asked for |
| `RunClient.AtOnce` | crates/societyctl/src/lib.rs:153-164 | asked in one state: success exactly when the ordinals are 1..counter, and then the kernel's own list |
| `RunClient.ClientRebuilds` | crates/societyctl/src/lib.rs:128-175 | a run past pairing is always read whole, equal to the kernel's ordered list, whatever commands run between the requests |
| `RunGaps.PairingRunMayBeUnreadable` | crates/societyctl/src/lib.rs:153-164 | a history whose run has only ordinal 2, where the client reports a missing registration |

## Left out

- Decoding and sealing of JSON lines, their byte limits and their seals: the peer takes decoded frames, and an undecodable line is one event.
- Validation of a forum call's arguments, which the peer delegates, and the contents of agent events other than their kind and messages.
- PostgreSQL, pooling, locks and SQL text: tables are maps, a transaction is all or nothing; errors of the connection itself are not modelled.
- Foreign keys and CHECK constraints that no study command can violate.
- The shared request ledger around a study command (command identity, capability grant, stored rejection) is modelled in `ContentAuthority` for the two sealing commands only.
- 64-bit overflow of table counters other than the message ordinal; identity columns never run out.
- UTF-8 validity of stored texts: texts are byte sequences with the length, NUL and white-space rules of their types.
- The read path apart from the run observation: pair and episode observations, post-actor forum projection, lifetime obligations.
- File modes, symbolic links, fsync and locks of the physical store: any of them is a fault before or after the link, or an arbitrary change of the store.
- ContentAuthority.KernelStore.Transition: does not model the checks on who holds the grant and on the qualification fence, because the sealing daemon is always the holder and the fence does not apply to these two commands; the other command kinds change no receipt and no object.
- RunClient.StudyRunObservation: does not model the socket; a reply is a function of the request's number, with a broken connection as one reply.
- RowCodec.EventReturns: does not model a reader that finds the spawn admission changed between two of its own queries.
- The root study provisioner, qualification runner, launch profiles and process start-up.
