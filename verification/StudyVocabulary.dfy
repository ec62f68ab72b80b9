/**
 * The closed vocabulary of the study control plane: bounded values, the 33 commands and the 33 events.
 */
module StudyVocabulary {
  import opened Wrappers

  const MAX_I64: int := 0x7FFF_FFFF_FFFF_FFFF

  type I64 = n: int | -MAX_I64 - 1 <= n <= MAX_I64

  /** Row identifiers are positive. */
  type Id = n: int | 1 <= n <= MAX_I64 witness 1

  /** A message ordinal or thread head. */
  type Ordinal = n: int | 0 <= n <= MAX_I64

  type Byte = n: int | 0 <= n < 256

  type Digest = d: seq<Byte> | |d| == 32 witness seq(32, _ => 0)

  predicate BoundedText(t: seq<Byte>, limit: nat) {
    0 < |t| <= limit && 0 !in t
  }

  type MessageBody = t: seq<Byte> | BoundedText(t, 8192) witness [65]
  type DecisionBody = t: seq<Byte> | BoundedText(t, 2048) witness [65]
  type Reveal = t: seq<Byte> | BoundedText(t, 2048) witness [65]

  /** The byte length of the Unicode white space character a UTF-8 text starts with, or 0. */
  function LeadingSpace(t: seq<Byte>): (n: nat)
    ensures n <= |t|
  {
    if |t| >= 1 && (9 <= t[0] <= 13 || t[0] == 32) then 1
    else if |t| >= 2 && t[0] == 0xC2 && (t[1] == 0x85 || t[1] == 0xA0) then 2
    else if |t| >= 3 && t[0] == 0xE1 && t[1] == 0x9A && t[2] == 0x80 then 3
    else if |t| >= 3 && t[0] == 0xE2 && t[1] == 0x80 && (0x80 <= t[2] <= 0x8A || t[2] in {0xA8, 0xA9, 0xAF}) then 3
    else if |t| >= 3 && t[0] == 0xE2 && t[1] == 0x81 && t[2] == 0x9F then 3
    else if |t| >= 3 && t[0] == 0xE3 && t[1] == 0x80 && t[2] == 0x80 then 3
    else 0
  }

  predicate Blank(t: seq<Byte>)
    decreases |t|
  {
    t == [] || (LeadingSpace(t) > 0 && Blank(t[LeadingSpace(t)..]))
  }

  predicate ValidTitle(t: seq<Byte>) {
    BoundedText(t, 160) && !Blank(t)
  }

  type Title = t: seq<Byte> | ValidTitle(t) witness [65]

  type BudgetUnits = n: int | 0 <= n <= MAX_I64
  type ForumBudget = n: int | 1 <= n <= MAX_I64 witness 1
  type PairCount = n: int | 1 <= n <= 10_000 witness 1
  type PairOrdinal = n: int | 1 <= n <= 10_000 witness 1
  type RoleOrdinal = n: int | 1 <= n <= 64 witness 1
  type Slot = n: int | 1 <= n <= 64 witness 1
  type SlotCount = n: int | 1 <= n <= 64 witness 1

  datatype PopulationPhase = Source | Successor
  datatype Treatment = Retained | Reset
  datatype EpisodeState = Admitted | SourceActive | SourceReconciled | SuccessorAdmitted | CorrectionReleased | SuccessorActive | Closed
  datatype RunState = Pairing | Ready | Running | Completed
  datatype ForumState = Open | ReadOnly | Shut
  datatype MessageKind = Finding | Question | Challenge | Correction | Synthesis
  datatype Publication = Published | Retracted
  datatype MeasurementStatus = Observed | Unavailable | Invalidated
  datatype ObligationState = Active | Done | Failed
  datatype BindingState = Bound | Reconciled | RecoverySettled
  datatype RecoveryAccounting = Unknown

  datatype StudyCommand =
    | AdmitProtocolRevision(
        application: Id, protocolDigest: Digest, actorPolicyDigest: Digest, promptDigest: Digest, toolDigest: Digest,
        evidenceDigest: Digest, commitment: Digest, correctionDigest: Digest, topologyDigest: Digest, episodeBudget: BudgetUnits)
    | AdmitWorldRevision(protocol: Id, worldDigest: Digest)
    | AdmitMeasurementRevision(protocol: Id, analysisDigest: Digest, slotCount: SlotCount)
    | AdmitInstitutionRevision(protocol: Id, institutionDigest: Digest)
    | AdmitPopulationSnapshot(protocol: Id, populationDigest: Digest, populationSize: I64)
    | AdmitEpisode(protocol: Id, world: Id, measurement: Id, institution: Id, population: Id, randomization: Digest)
    | AssignTreatment(episode: Id, treatment: Treatment)
    | AdmitMatchedPair(retained: Id, reset: Id)
    | AdmitStudyRun(protocol: Id, planObject: Id, planDigest: Digest, pairCount: PairCount)
    | RegisterStudyRunPair(run: Id, ordinal: PairOrdinal, pair: Id, randomization: Digest)
    | StartStudyRun(run: Id)
    | CompleteStudyRun(run: Id)
    | CreateEpisodeForum(episode: Id, charter: Digest)
    | OpenForumThread(forum: Id, title: Title)
    | AdmitActorObligation(
        episode: Id, phase: PopulationPhase, role: RoleOrdinal, viewDigest: Digest, promptDigest: Digest, toolDigest: Digest,
        budget: BudgetUnits, readBudget: ForumBudget, postBudget: ForumBudget)
    | CompleteActorObligation(obligation: Id, chargedBudget: BudgetUnits)
    | FailActorObligation(obligation: Id, reason: Digest)
    | BindActorRuntime(obligation: Id, office: Id, child: Id, admission: Id)
    | BindActorTaskAttemptRuntime(obligation: Id, attempt: Id, child: Id, admission: Id)
    | ReconcileActorRuntime(obligation: Id, child: Id)
    | SettleActorTaskAttemptAfterRecovery(obligation: Id, attempt: Id, child: Id, recoveryReceipt: Id)
    | FreezeForumHead(episode: Id, thread: Id)
    | ReplacePopulation(episode: Id, successorPopulation: Id)
    | AdmitForumExposure(obligation: Id, forum: Id, visibleFrom: I64)
    | PublishForumMessage(obligation: Id, kind: MessageKind, body: MessageBody, inReplyTo: Option<Id>, supersedes: Option<Id>)
    | RetractForumMessage(obligation: Id, message: Id)
    | ReleaseMatchedCorrection(pair: Id, retainedThread: Id, resetThread: Id, correction: MessageBody)
    | ReadForum(obligation: Id, first: I64, through: I64, renderedObject: Id)
    | RecordDecision(obligation: Id, decision: DecisionBody, cited: Option<Id>)
    | RevealGroundTruth(episode: Id, revealed: Reveal)
    | RecordMeasurementResult(
        episode: Id, slot: Slot, status: MeasurementStatus, observed: Option<I64>, valueDigest: Option<Digest>, reasonDigest: Option<Digest>)
    | CloseEpisode(episode: Id)
    | ForkEpisode(sourceEpisode: Id, treatmentDelta: Treatment)

  datatype StudyEvent =
    | ProtocolRevisionAdmitted(protocol: Id)
    | WorldRevisionAdmitted(world: Id)
    | MeasurementRevisionAdmitted(measurement: Id)
    | InstitutionRevisionAdmitted(institution: Id)
    | PopulationSnapshotAdmitted(population: Id)
    | EpisodeAdmitted(episode: Id)
    | TreatmentAssigned(assignment: Id, episode: Id, treatment: Treatment)
    | MatchedPairAdmitted(pair: Id)
    | StudyRunAdmitted(run: Id, protocol: Id, planObject: Id, planDigest: Digest, pairCount: PairCount)
    | StudyRunPairRegistered(run: Id, pair: Id, ordinal: PairOrdinal, randomization: Digest, state: RunState)
    | StudyRunStarted(run: Id)
    | StudyRunCompleted(run: Id)
    | EpisodeForumCreated(forum: Id, episode: Id)
    | ForumThreadOpened(thread: Id, forum: Id)
    | ActorObligationAdmitted(obligation: Id, occurrence: Id, episode: Id, population: Id, phase: PopulationPhase)
    | ActorObligationCompleted(obligation: Id)
    | ActorObligationFailed(obligation: Id, reason: Digest)
    | ActorRuntimeBound(obligation: Id, office: Id, child: Id, admission: Id, profile: Id)
    | ActorTaskAttemptRuntimeBound(obligation: Id, attempt: Id, child: Id, admission: Id, profile: Id)
    | ActorRuntimeReconciled(obligation: Id, child: Id)
    | ActorTaskAttemptRecoverySettled(obligation: Id, attempt: Id, child: Id, recoveryReceipt: Id, accounting: RecoveryAccounting)
    | GroundTruthRevealed(episode: Id, revealDigest: Digest)
    | ForumHeadFrozen(episode: Id, thread: Id, head: I64)
    | PopulationReplaced(episode: Id, successorPopulation: Id)
    | ForumExposureAdmitted(exposure: Id, obligation: Id, visibleFrom: I64, visibleThrough: I64)
    | ForumMessagePublished(message: Id, thread: Id, messageOrdinal: I64, author: Id, kind: MessageKind, bodyDigest: Digest)
    | MatchedCorrectionReleased(pair: Id, retainedMessage: Id, resetMessage: Id, bodyDigest: Digest)
    | ForumMessagesRead(receipt: Id, obligation: Id, thread: Id, first: I64, through: I64, renderedDigest: Digest, renderedObject: Id)
    | DecisionRecorded(obligation: Id)
    | MeasurementResultRecorded(result: Id, episode: Id, status: MeasurementStatus)
    | EpisodeClosed(episode: Id)
    | ExperimentalForkCreated(fork: Id, episode: Id, sourceEpisode: Id, treatmentDelta: Treatment)
    | ForumMessageRetracted(message: Id, obligation: Id)

  /** The durable refusals a study command can end in. */
  datatype Rejection =
    | SubjectNotFound
    | InvalidLifecycleTransition
    | BudgetPolicyViolation
    | BudgetCeilingExceeded
    | CapabilityNoLongerActive
    | ChildLifecycleReceiptMissing
    | ContentObjectNotSealed
}
