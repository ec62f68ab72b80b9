/**
 * The shared ledger row of a study command or event: a kind and whatever columns that kind uses, and the
 * decoders that read a value back from the columns of its kind.
 */
module RowCodec {
  import opened Wrappers
  import opened StudyVocabulary
  import opened StudyTables
  import opened StudySpec
  import opened Fingerprint

  datatype Column =
    | ApplicationRevision | ProtocolRevision | WorldRevision | MeasurementRevision | InstitutionRevision | PopulationSnapshot
    | StudyEpisode | RelatedEpisode | StudyPair | StudyRun | ForumColumn | ThreadColumn | RelatedThread | ObligationColumn
    | ActorAttempt | OfficeSessionColumn | NativeChild | SpawnAdmissionColumn | RecoveryReceipt | MessageColumn | RelatedMessage
    | TreatmentColumn | PhaseColumn | Role | SlotColumn | SlotCountColumn | StatusColumn | FirstOrdinal | ThroughOrdinal
    | PopulationSize | PairCountColumn | PairOrdinalColumn | BudgetColumn | ChargedBudget | ReadBudget | PostBudget
    | ObservedValue | MessageKindColumn | RenderedObject | PlanObject
    | Primary | Secondary | Tertiary | RecoveryAccountingColumn | Occurrence | RunStateColumn
    | ProtocolDigest | ActorPolicyDigest | ForumPromptDigest | ForumToolDigest | EvidenceDigest | CommitmentDigest
    | CorrectionDigest | TopologyDigest | WorldDigest | AnalysisDigest | InstitutionDigest | PopulationDigest | RandomizationDigest
    | PlanDigest | CharterDigest | PrivateViewDigest | BodyDigest | DecisionDigest | ValueDigest | ReasonDigest | RenderedDigest

  /** A NULL column is an absent one. */
  datatype Row = Row(kind: I64, integers: map<Column, I64>, blobs: map<Column, seq<Byte>>, text: Option<seq<Byte>>)

  function Put(m: map<Column, I64>, c: Column, o: Option<I64>): map<Column, I64> {
    if o.Some? then m[c := o.value] else m
  }

  function PutDigest(m: map<Column, seq<Byte>>, c: Column, o: Option<Digest>): map<Column, seq<Byte>> {
    if o.Some? then m[c := o.value] else m
  }

  // ---------- reading columns ----------

  function Number(r: Row, c: Column): Option<I64> {
    if c in r.integers then Some(r.integers[c]) else None
  }

  /** `stored`: a present, positive identifier. */
  function Stored(r: Row, c: Column): Option<Id> {
    if c in r.integers && r.integers[c] > 0 then Some(r.integers[c]) else None
  }

  function StoredIfAny(r: Row, c: Column): Option<Option<Id>> {
    if c !in r.integers then Some(None)
    else if r.integers[c] > 0 then Some(Some(r.integers[c]))
    else None
  }

  function Bounded(r: Row, c: Column, lo: int, hi: int): (o: Option<int>)
    ensures o.Some? ==> lo <= o.value <= hi
  {
    if c in r.integers && lo <= r.integers[c] <= hi then Some(r.integers[c]) else None
  }

  function StoredDigest(r: Row, c: Column): Option<Digest> {
    if c in r.blobs && |r.blobs[c]| == 32 then Some(r.blobs[c]) else None
  }

  function DigestIfAny(r: Row, c: Column): Option<Option<Digest>> {
    if c !in r.blobs then Some(None)
    else if |r.blobs[c]| == 32 then Some(Some(r.blobs[c]))
    else None
  }

  function StoredText(r: Row, limit: nat): (o: Option<seq<Byte>>)
    ensures o.Some? ==> BoundedText(o.value, limit)
  {
    if r.text.Some? && BoundedText(r.text.value, limit) then r.text else None
  }

  function StoredTitle(r: Row): Option<Title> {
    if r.text.Some? && ValidTitle(r.text.value) then Some(r.text.value) else None
  }

  function TreatmentFrom(r: Row): Option<Treatment> {
    match Number(r, TreatmentColumn)
    case Some(1) => Some(Retained)
    case Some(2) => Some(Reset)
    case _ => None
  }

  function PhaseFrom(r: Row): Option<PopulationPhase> {
    match Number(r, PhaseColumn)
    case Some(1) => Some(Source)
    case Some(2) => Some(Successor)
    case _ => None
  }

  function KindFrom(r: Row): Option<MessageKind> {
    match Number(r, MessageKindColumn)
    case Some(1) => Some(Finding)
    case Some(2) => Some(Question)
    case Some(3) => Some(Challenge)
    case Some(4) => Some(Correction)
    case Some(5) => Some(Synthesis)
    case _ => None
  }

  function StatusFrom(r: Row): Option<MeasurementStatus> {
    match Number(r, StatusColumn)
    case Some(1) => Some(Observed)
    case Some(2) => Some(Unavailable)
    case Some(3) => Some(Invalidated)
    case _ => None
  }

  function RunStateFrom(r: Row): Option<RunState> {
    match Number(r, RunStateColumn)
    case Some(1) => Some(Pairing)
    case Some(2) => Some(Ready)
    case Some(3) => Some(Running)
    case Some(4) => Some(Completed)
    case _ => None
  }

  // ---------- commands ----------

  /** `insert_command_body`. */
  function CommandRow(digest: seq<Byte> -> Digest, c: StudyCommand): Row {
    var k := CommandKind(c);
    match c
    case AdmitProtocolRevision(application, protocol, policy, prompt, tool, evidence, commitment, correction, topology, budget) =>
      Row(k, map[ApplicationRevision := application, BudgetColumn := budget],
          map[ProtocolDigest := protocol, ActorPolicyDigest := policy, ForumPromptDigest := prompt, ForumToolDigest := tool,
              EvidenceDigest := evidence, CommitmentDigest := commitment, CorrectionDigest := correction, TopologyDigest := topology], None)
    case AdmitWorldRevision(protocol, world) => Row(k, map[ProtocolRevision := protocol], map[WorldDigest := world], None)
    case AdmitMeasurementRevision(protocol, analysis, slots) =>
      Row(k, map[ProtocolRevision := protocol, SlotCountColumn := slots], map[AnalysisDigest := analysis], None)
    case AdmitInstitutionRevision(protocol, institution) => Row(k, map[ProtocolRevision := protocol], map[InstitutionDigest := institution], None)
    case AdmitPopulationSnapshot(protocol, population, size) =>
      Row(k, map[ProtocolRevision := protocol, PopulationSize := size], map[PopulationDigest := population], None)
    case AdmitEpisode(protocol, world, measurement, institution, population, randomization) =>
      Row(k, map[ProtocolRevision := protocol, WorldRevision := world, MeasurementRevision := measurement,
                 InstitutionRevision := institution, PopulationSnapshot := population], map[RandomizationDigest := randomization], None)
    case AssignTreatment(e, treatment) => Row(k, map[StudyEpisode := e, TreatmentColumn := TreatmentCode(treatment)], map[], None)
    case AdmitMatchedPair(retained, reset) => Row(k, map[StudyEpisode := retained, RelatedEpisode := reset], map[], None)
    case AdmitStudyRun(protocol, plan, planDigest, pairs) =>
      Row(k, map[ProtocolRevision := protocol, PlanObject := plan, PairCountColumn := pairs], map[PlanDigest := planDigest], None)
    case RegisterStudyRunPair(run, ordinal, pair, randomization) =>
      Row(k, map[StudyRun := run, PairOrdinalColumn := ordinal, StudyPair := pair], map[RandomizationDigest := randomization], None)
    case StartStudyRun(run) => Row(k, map[StudyRun := run], map[], None)
    case CompleteStudyRun(run) => Row(k, map[StudyRun := run], map[], None)
    case CreateEpisodeForum(e, charter) => Row(k, map[StudyEpisode := e], map[CharterDigest := charter], None)
    case OpenForumThread(forum, title) => Row(k, map[ForumColumn := forum], map[], Some(title))
    case AdmitActorObligation(e, phase, role, view, prompt, tool, budget, readBudget, postBudget) =>
      Row(k, map[StudyEpisode := e, PhaseColumn := PhaseCode(phase), Role := role, BudgetColumn := budget, ReadBudget := readBudget, PostBudget := postBudget],
          map[PrivateViewDigest := view, ForumPromptDigest := prompt, ForumToolDigest := tool], None)
    case CompleteActorObligation(o, charge) => Row(k, map[ObligationColumn := o, ChargedBudget := charge], map[], None)
    case FailActorObligation(o, reason) => Row(k, map[ObligationColumn := o], map[ReasonDigest := reason], None)
    case BindActorRuntime(o, office, child, admission) =>
      Row(k, map[ObligationColumn := o, OfficeSessionColumn := office, NativeChild := child, SpawnAdmissionColumn := admission], map[], None)
    case BindActorTaskAttemptRuntime(o, attempt, child, admission) =>
      Row(k, map[ObligationColumn := o, ActorAttempt := attempt, NativeChild := child, SpawnAdmissionColumn := admission], map[], None)
    case ReconcileActorRuntime(o, child) => Row(k, map[ObligationColumn := o, NativeChild := child], map[], None)
    case SettleActorTaskAttemptAfterRecovery(o, attempt, child, receipt) =>
      Row(k, map[ObligationColumn := o, ActorAttempt := attempt, NativeChild := child, RecoveryReceipt := receipt], map[], None)
    case FreezeForumHead(e, thread) => Row(k, map[StudyEpisode := e, ThreadColumn := thread], map[], None)
    case ReplacePopulation(e, successor) => Row(k, map[StudyEpisode := e, PopulationSnapshot := successor], map[], None)
    case CloseEpisode(e) => Row(k, map[StudyEpisode := e], map[], None)
    case AdmitForumExposure(o, forum, visibleFrom) => Row(k, map[ObligationColumn := o, ForumColumn := forum, FirstOrdinal := visibleFrom], map[], None)
    case PublishForumMessage(o, kind, body, reply, supersedes) =>
      Row(k, Put(Put(map[ObligationColumn := o, MessageKindColumn := KindCode(kind)], MessageColumn, Widen(reply)), RelatedMessage, Widen(supersedes)),
          map[], Some(body))
    case RetractForumMessage(o, message) => Row(k, map[ObligationColumn := o, MessageColumn := message], map[], None)
    case ReleaseMatchedCorrection(pair, retained, reset, correction) =>
      Row(k, map[StudyPair := pair, ThreadColumn := retained, RelatedThread := reset], map[], Some(correction))
    case ReadForum(o, first, through, rendered) =>
      Row(k, map[ObligationColumn := o, FirstOrdinal := first, ThroughOrdinal := through, RenderedObject := rendered], map[], None)
    case RecordDecision(o, decision, cited) =>
      Row(k, Put(map[ObligationColumn := o], MessageColumn, Widen(cited)), map[DecisionDigest := digest(decision)], Some(decision))
    case RevealGroundTruth(e, truth) => Row(k, map[StudyEpisode := e], map[BodyDigest := digest(truth)], Some(truth))
    case RecordMeasurementResult(e, slot, status, observed, value, reason) =>
      Row(k, Put(map[StudyEpisode := e, SlotColumn := slot, StatusColumn := StatusCode(status)], ObservedValue, observed),
          PutDigest(PutDigest(map[], ValueDigest, value), ReasonDigest, reason), None)
    case ForkEpisode(source, delta) => Row(k, map[StudyEpisode := source, TreatmentColumn := TreatmentCode(delta)], map[], None)
  }

  /** `decode_command_body` for the kinds 1 to 11. */
  function DecodeSetUp(r: Row): Option<StudyCommand> {
    match r.kind
    case 1 =>
      var application :- Stored(r, ApplicationRevision);
      var protocol :- StoredDigest(r, ProtocolDigest);
      var policy :- StoredDigest(r, ActorPolicyDigest);
      var prompt :- StoredDigest(r, ForumPromptDigest);
      var tool :- StoredDigest(r, ForumToolDigest);
      var evidence :- StoredDigest(r, EvidenceDigest);
      var commitment :- StoredDigest(r, CommitmentDigest);
      var correction :- StoredDigest(r, CorrectionDigest);
      var topology :- StoredDigest(r, TopologyDigest);
      var budget :- Bounded(r, BudgetColumn, 0, MAX_I64);
      Some(AdmitProtocolRevision(application, protocol, policy, prompt, tool, evidence, commitment, correction, topology, budget))
    case 2 =>
      var protocol :- Stored(r, ProtocolRevision);
      var world :- StoredDigest(r, WorldDigest);
      Some(AdmitWorldRevision(protocol, world))
    case 3 =>
      var protocol :- Stored(r, ProtocolRevision);
      var analysis :- StoredDigest(r, AnalysisDigest);
      var slots :- Bounded(r, SlotCountColumn, 1, 64);
      Some(AdmitMeasurementRevision(protocol, analysis, slots))
    case 4 =>
      var protocol :- Stored(r, ProtocolRevision);
      var institution :- StoredDigest(r, InstitutionDigest);
      Some(AdmitInstitutionRevision(protocol, institution))
    case 5 =>
      var protocol :- Stored(r, ProtocolRevision);
      var population :- StoredDigest(r, PopulationDigest);
      var size :- Number(r, PopulationSize);
      Some(AdmitPopulationSnapshot(protocol, population, size))
    case 6 =>
      var protocol :- Stored(r, ProtocolRevision);
      var world :- Stored(r, WorldRevision);
      var measurement :- Stored(r, MeasurementRevision);
      var institution :- Stored(r, InstitutionRevision);
      var population :- Stored(r, PopulationSnapshot);
      var randomization :- StoredDigest(r, RandomizationDigest);
      Some(AdmitEpisode(protocol, world, measurement, institution, population, randomization))
    case 7 =>
      var e :- Stored(r, StudyEpisode);
      var treatment :- TreatmentFrom(r);
      Some(AssignTreatment(e, treatment))
    case 8 =>
      var retained :- Stored(r, StudyEpisode);
      var reset :- Stored(r, RelatedEpisode);
      Some(AdmitMatchedPair(retained, reset))
    case 9 =>
      var e :- Stored(r, StudyEpisode);
      var charter :- StoredDigest(r, CharterDigest);
      Some(CreateEpisodeForum(e, charter))
    case 10 =>
      var forum :- Stored(r, ForumColumn);
      var title :- StoredTitle(r);
      Some(OpenForumThread(forum, title))
    case 11 =>
      var e :- Stored(r, StudyEpisode);
      var phase :- PhaseFrom(r);
      var role :- Bounded(r, Role, 1, 64);
      var view :- StoredDigest(r, PrivateViewDigest);
      var prompt :- StoredDigest(r, ForumPromptDigest);
      var tool :- StoredDigest(r, ForumToolDigest);
      var budget :- Bounded(r, BudgetColumn, 0, MAX_I64);
      var readBudget :- Bounded(r, ReadBudget, 1, MAX_I64);
      var postBudget :- Bounded(r, PostBudget, 1, MAX_I64);
      Some(AdmitActorObligation(e, phase, role, view, prompt, tool, budget, readBudget, postBudget))
    case _ => None
  }

  /** The kinds 12 to 22. */
  function DecodeEpisodeWork(digest: seq<Byte> -> Digest, r: Row): Option<StudyCommand> {
    match r.kind
    case 12 =>
      var o :- Stored(r, ObligationColumn);
      var charge :- Bounded(r, ChargedBudget, 0, MAX_I64);
      Some(CompleteActorObligation(o, charge))
    case 13 =>
      var e :- Stored(r, StudyEpisode);
      var thread :- Stored(r, ThreadColumn);
      Some(FreezeForumHead(e, thread))
    case 14 =>
      var e :- Stored(r, StudyEpisode);
      var successor :- Stored(r, PopulationSnapshot);
      Some(ReplacePopulation(e, successor))
    case 15 =>
      var o :- Stored(r, ObligationColumn);
      var forum :- Stored(r, ForumColumn);
      var visibleFrom :- Number(r, FirstOrdinal);
      Some(AdmitForumExposure(o, forum, visibleFrom))
    case 16 =>
      var o :- Stored(r, ObligationColumn);
      var kind :- KindFrom(r);
      var body :- StoredText(r, 8192);
      var reply :- StoredIfAny(r, MessageColumn);
      var supersedes :- StoredIfAny(r, RelatedMessage);
      Some(PublishForumMessage(o, kind, body, reply, supersedes))
    case 17 =>
      var pair :- Stored(r, StudyPair);
      var retained :- Stored(r, ThreadColumn);
      var reset :- Stored(r, RelatedThread);
      var correction :- StoredText(r, 8192);
      Some(ReleaseMatchedCorrection(pair, retained, reset, correction))
    case 18 =>
      var o :- Stored(r, ObligationColumn);
      var first :- Number(r, FirstOrdinal);
      var through :- Number(r, ThroughOrdinal);
      var rendered :- Stored(r, RenderedObject);
      Some(ReadForum(o, first, through, rendered))
    case 19 =>
      var decision :- StoredText(r, 2048);
      var sealed :- StoredDigest(r, DecisionDigest);
      if digest(decision) != sealed then None
      else
        var o :- Stored(r, ObligationColumn);
        var cited :- StoredIfAny(r, MessageColumn);
        Some(RecordDecision(o, decision, cited))
    case 20 =>
      var e :- Stored(r, StudyEpisode);
      var slot :- Bounded(r, SlotColumn, 1, 64);
      var status :- StatusFrom(r);
      var value :- DigestIfAny(r, ValueDigest);
      var reason :- DigestIfAny(r, ReasonDigest);
      Some(RecordMeasurementResult(e, slot, status, Number(r, ObservedValue), value, reason))
    case 21 =>
      var e :- Stored(r, StudyEpisode);
      Some(CloseEpisode(e))
    case 22 =>
      var source :- Stored(r, StudyEpisode);
      var delta :- TreatmentFrom(r);
      Some(ForkEpisode(source, delta))
    case _ => None
  }

  /** The kinds 23 to 33. */
  function DecodeLaterKinds(digest: seq<Byte> -> Digest, r: Row): Option<StudyCommand> {
    match r.kind
    case 23 =>
      var o :- Stored(r, ObligationColumn);
      var message :- Stored(r, MessageColumn);
      Some(RetractForumMessage(o, message))
    case 24 =>
      var o :- Stored(r, ObligationColumn);
      var reason :- StoredDigest(r, ReasonDigest);
      Some(FailActorObligation(o, reason))
    case 25 =>
      var truth :- StoredText(r, 2048);
      var sealed :- StoredDigest(r, BodyDigest);
      if digest(truth) != sealed then None
      else
        var e :- Stored(r, StudyEpisode);
        Some(RevealGroundTruth(e, truth))
    case 26 =>
      var o :- Stored(r, ObligationColumn);
      var child :- Stored(r, NativeChild);
      var admission :- Stored(r, SpawnAdmissionColumn);
      var office :- Stored(r, OfficeSessionColumn);
      Some(BindActorRuntime(o, office, child, admission))
    case 27 =>
      var o :- Stored(r, ObligationColumn);
      var child :- Stored(r, NativeChild);
      Some(ReconcileActorRuntime(o, child))
    case 28 =>
      var o :- Stored(r, ObligationColumn);
      var attempt :- Stored(r, ActorAttempt);
      var child :- Stored(r, NativeChild);
      var admission :- Stored(r, SpawnAdmissionColumn);
      Some(BindActorTaskAttemptRuntime(o, attempt, child, admission))
    case 29 =>
      var protocol :- Stored(r, ProtocolRevision);
      var plan :- Stored(r, PlanObject);
      var planDigest :- StoredDigest(r, PlanDigest);
      var pairs :- Bounded(r, PairCountColumn, 1, 10_000);
      Some(AdmitStudyRun(protocol, plan, planDigest, pairs))
    case 30 =>
      var run :- Stored(r, StudyRun);
      var ordinal :- Bounded(r, PairOrdinalColumn, 1, 10_000);
      var pair :- Stored(r, StudyPair);
      var randomization :- StoredDigest(r, RandomizationDigest);
      Some(RegisterStudyRunPair(run, ordinal, pair, randomization))
    case 31 =>
      var run :- Stored(r, StudyRun);
      Some(StartStudyRun(run))
    case 32 =>
      var o :- Stored(r, ObligationColumn);
      var attempt :- Stored(r, ActorAttempt);
      var child :- Stored(r, NativeChild);
      var receipt :- Stored(r, RecoveryReceipt);
      Some(SettleActorTaskAttemptAfterRecovery(o, attempt, child, receipt))
    case 33 =>
      var run :- Stored(r, StudyRun);
      Some(CompleteStudyRun(run))
    case _ => None
  }

  function DecodeCommand(digest: seq<Byte> -> Digest, r: Row): Option<StudyCommand> {
    if r.kind <= 11 then DecodeSetUp(r)
    else if r.kind <= 22 then DecodeEpisodeWork(digest, r)
    else DecodeLaterKinds(digest, r)
  }

  lemma ProtocolReturns(digest: seq<Byte> -> Digest, c: StudyCommand)
    requires CommandKind(c) == 1
    ensures DecodeSetUp(CommandRow(digest, c)) == Some(c)
  {
  }

  lemma RevisionsReturn(digest: seq<Byte> -> Digest, c: StudyCommand)
    requires 2 <= CommandKind(c) <= 5
    ensures DecodeSetUp(CommandRow(digest, c)) == Some(c)
  {
  }

  lemma EpisodesReturn(digest: seq<Byte> -> Digest, c: StudyCommand)
    requires 6 <= CommandKind(c) <= 9
    ensures DecodeSetUp(CommandRow(digest, c)) == Some(c)
  {
  }

  lemma ThreadReturns(digest: seq<Byte> -> Digest, c: StudyCommand)
    requires CommandKind(c) == 10
    ensures DecodeSetUp(CommandRow(digest, c)) == Some(c)
  {
  }

  lemma ObligationReturns(digest: seq<Byte> -> Digest, c: StudyCommand)
    requires CommandKind(c) == 11
    ensures DecodeSetUp(CommandRow(digest, c)) == Some(c)
  {
  }

  lemma SetUpReturns(digest: seq<Byte> -> Digest, c: StudyCommand)
    requires 1 <= CommandKind(c) <= 11
    ensures DecodeSetUp(CommandRow(digest, c)) == Some(c)
  {
    hide DecodeSetUp, CommandRow, CommandKind;
    if CommandKind(c) == 1 { ProtocolReturns(digest, c); }
    else if CommandKind(c) <= 5 { RevisionsReturn(digest, c); }
    else if CommandKind(c) <= 9 { EpisodesReturn(digest, c); }
    else if CommandKind(c) == 10 { ThreadReturns(digest, c); }
    else { ObligationReturns(digest, c); }
  }

  lemma ProgressReturns(digest: seq<Byte> -> Digest, c: StudyCommand)
    requires 12 <= CommandKind(c) <= 15
    ensures DecodeEpisodeWork(digest, CommandRow(digest, c)) == Some(c)
  {
  }

  lemma PublicationReturns(digest: seq<Byte> -> Digest, c: StudyCommand)
    requires CommandKind(c) == 16
    ensures DecodeEpisodeWork(digest, CommandRow(digest, c)) == Some(c)
  {
  }

  lemma ReleaseReturns(digest: seq<Byte> -> Digest, c: StudyCommand)
    requires 17 <= CommandKind(c) <= 18
    ensures DecodeEpisodeWork(digest, CommandRow(digest, c)) == Some(c)
  {
  }

  lemma DecisionReturns(digest: seq<Byte> -> Digest, c: StudyCommand)
    requires CommandKind(c) == 19
    ensures DecodeEpisodeWork(digest, CommandRow(digest, c)) == Some(c)
  {
  }

  lemma MeasurementReturns(digest: seq<Byte> -> Digest, c: StudyCommand)
    requires CommandKind(c) == 20
    ensures DecodeEpisodeWork(digest, CommandRow(digest, c)) == Some(c)
  {
  }

  lemma ClosingReturns(digest: seq<Byte> -> Digest, c: StudyCommand)
    requires 21 <= CommandKind(c) <= 22
    ensures DecodeEpisodeWork(digest, CommandRow(digest, c)) == Some(c)
  {
  }

  lemma EpisodeWorkReturns(digest: seq<Byte> -> Digest, c: StudyCommand)
    requires 12 <= CommandKind(c) <= 22
    ensures DecodeEpisodeWork(digest, CommandRow(digest, c)) == Some(c)
  {
    hide DecodeEpisodeWork, CommandRow, CommandKind;
    if CommandKind(c) <= 15 { ProgressReturns(digest, c); }
    else if CommandKind(c) == 16 { PublicationReturns(digest, c); }
    else if CommandKind(c) <= 18 { ReleaseReturns(digest, c); }
    else if CommandKind(c) == 19 { DecisionReturns(digest, c); }
    else if CommandKind(c) == 20 { MeasurementReturns(digest, c); }
    else { ClosingReturns(digest, c); }
  }

  lemma LaterKindsReturn(digest: seq<Byte> -> Digest, c: StudyCommand)
    requires 23 <= CommandKind(c)
    ensures DecodeLaterKinds(digest, CommandRow(digest, c)) == Some(c)
  {
  }

  /** Every stored command reads back as itself. */
  lemma CommandReturns(digest: seq<Byte> -> Digest, c: StudyCommand)
    ensures DecodeCommand(digest, CommandRow(digest, c)) == Some(c)
  {
    hide DecodeSetUp, DecodeEpisodeWork, DecodeLaterKinds;
    RowKind(digest, c);
    CommandKindRange(c);
    if CommandKind(c) <= 11 {
      SetUpReturns(digest, c);
    } else if CommandKind(c) <= 22 {
      EpisodeWorkReturns(digest, c);
    } else {
      LaterKindsReturn(digest, c);
    }
  }

  lemma RowKind(digest: seq<Byte> -> Digest, c: StudyCommand)
    ensures CommandRow(digest, c).kind == CommandKind(c)
  {
  }

  // ---------- events ----------

  /** `insert_event_body`. The profile of a runtime binding is not stored with the event. */
  function EventRow(e: StudyEvent): Row {
    var k := EventKind(e);
    match e
    case ProtocolRevisionAdmitted(id) => Row(k, map[Primary := id], map[], None)
    case WorldRevisionAdmitted(id) => Row(k, map[Primary := id], map[], None)
    case MeasurementRevisionAdmitted(id) => Row(k, map[Primary := id], map[], None)
    case InstitutionRevisionAdmitted(id) => Row(k, map[Primary := id], map[], None)
    case PopulationSnapshotAdmitted(id) => Row(k, map[Primary := id], map[], None)
    case EpisodeAdmitted(id) => Row(k, map[StudyEpisode := id], map[], None)
    case EpisodeClosed(id) => Row(k, map[StudyEpisode := id], map[], None)
    case PopulationReplaced(episode, successor) => Row(k, map[Primary := successor, StudyEpisode := episode], map[], None)
    case TreatmentAssigned(id, episode, treatment) =>
      Row(k, map[Primary := id, StudyEpisode := episode, TreatmentColumn := TreatmentCode(treatment)], map[], None)
    case MatchedPairAdmitted(id) => Row(k, map[Primary := id], map[], None)
    case StudyRunAdmitted(run, protocol, plan, digest, pairs) =>
      Row(k, map[StudyRun := run, ProtocolRevision := protocol, PlanObject := plan, PairCountColumn := pairs], map[PlanDigest := digest], None)
    case StudyRunPairRegistered(run, pair, ordinal, randomization, state) =>
      Row(k, map[StudyRun := run, StudyPair := pair, PairOrdinalColumn := ordinal, RunStateColumn := RunCode(state)],
          map[RandomizationDigest := randomization], None)
    case StudyRunStarted(run) => Row(k, map[StudyRun := run], map[], None)
    case StudyRunCompleted(run) => Row(k, map[StudyRun := run], map[], None)
    case EpisodeForumCreated(forum, episode) => Row(k, map[ForumColumn := forum, StudyEpisode := episode], map[], None)
    case ForumThreadOpened(thread, forum) => Row(k, map[ThreadColumn := thread, ForumColumn := forum], map[], None)
    case ActorObligationAdmitted(o, occurrence, episode, population, phase) =>
      Row(k, map[Primary := population, ObligationColumn := o, Occurrence := occurrence, StudyEpisode := episode, PhaseColumn := PhaseCode(phase)],
          map[], None)
    case ActorObligationCompleted(o) => Row(k, map[ObligationColumn := o], map[], None)
    case DecisionRecorded(o) => Row(k, map[ObligationColumn := o], map[], None)
    case ActorObligationFailed(o, reason) => Row(k, map[ObligationColumn := o], map[BodyDigest := reason], None)
    case ActorRuntimeBound(o, office, child, admission, _) =>
      Row(k, map[ObligationColumn := o, Primary := child, Secondary := admission, Tertiary := office], map[], None)
    case ActorTaskAttemptRuntimeBound(o, attempt, child, admission, _) =>
      Row(k, map[ObligationColumn := o, Primary := child, Secondary := admission, Tertiary := attempt], map[], None)
    case ActorRuntimeReconciled(o, child) => Row(k, map[ObligationColumn := o, Primary := child], map[], None)
    case ActorTaskAttemptRecoverySettled(o, attempt, child, receipt, _) =>
      Row(k, map[ObligationColumn := o, Primary := child, Secondary := attempt, Tertiary := receipt, RecoveryAccountingColumn := 1], map[], None)
    case GroundTruthRevealed(episode, digest) => Row(k, map[StudyEpisode := episode], map[BodyDigest := digest], None)
    case ForumHeadFrozen(episode, thread, head) => Row(k, map[StudyEpisode := episode, ThreadColumn := thread, ThroughOrdinal := head], map[], None)
    case ForumExposureAdmitted(exposure, o, visibleFrom, visibleThrough) =>
      Row(k, map[Primary := exposure, ObligationColumn := o, FirstOrdinal := visibleFrom, ThroughOrdinal := visibleThrough], map[], None)
    case ForumMessagePublished(message, thread, ordinal, author, kind, digest) =>
      Row(k, map[MessageColumn := message, ThreadColumn := thread, Occurrence := author, ThroughOrdinal := ordinal, MessageKindColumn := KindCode(kind)],
          map[BodyDigest := digest], None)
    case MatchedCorrectionReleased(pair, retained, reset, digest) =>
      Row(k, map[Primary := pair, Secondary := retained, Tertiary := reset], map[BodyDigest := digest], None)
    case ForumMessagesRead(receipt, o, thread, first, through, digest, rendered) =>
      Row(k, map[Primary := receipt, ObligationColumn := o, ThreadColumn := thread, FirstOrdinal := first, ThroughOrdinal := through,
                 RenderedObject := rendered], map[RenderedDigest := digest], None)
    case MeasurementResultRecorded(result, episode, status) =>
      Row(k, map[Primary := result, StudyEpisode := episode, StatusColumn := StatusCode(status)], map[], None)
    case ExperimentalForkCreated(fork, episode, source, delta) =>
      Row(k, map[Primary := fork, Secondary := episode, Tertiary := source, TreatmentColumn := TreatmentCode(delta)], map[], None)
    case ForumMessageRetracted(message, o) => Row(k, map[MessageColumn := message, ObligationColumn := o], map[], None)
  }

  /** The profile stored on a spawn admission. */
  function ProfileOf(admissions: map<Id, SpawnAdmission>, admission: Id): Option<Id> {
    if admission in admissions then admissions[admission].profile else None
  }

  function DecodeFirstEvents(r: Row): Option<StudyEvent> {
    match r.kind
    case 1 => var id :- Stored(r, Primary); Some(ProtocolRevisionAdmitted(id))
    case 2 => var id :- Stored(r, Primary); Some(WorldRevisionAdmitted(id))
    case 3 => var id :- Stored(r, Primary); Some(MeasurementRevisionAdmitted(id))
    case 4 => var id :- Stored(r, Primary); Some(InstitutionRevisionAdmitted(id))
    case 5 => var id :- Stored(r, Primary); Some(PopulationSnapshotAdmitted(id))
    case 6 => var id :- Stored(r, StudyEpisode); Some(EpisodeAdmitted(id))
    case 7 =>
      var id :- Stored(r, Primary);
      var episode :- Stored(r, StudyEpisode);
      var treatment :- TreatmentFrom(r);
      Some(TreatmentAssigned(id, episode, treatment))
    case 8 => var id :- Stored(r, Primary); Some(MatchedPairAdmitted(id))
    case 9 =>
      var forum :- Stored(r, ForumColumn);
      var episode :- Stored(r, StudyEpisode);
      Some(EpisodeForumCreated(forum, episode))
    case 10 =>
      var thread :- Stored(r, ThreadColumn);
      var forum :- Stored(r, ForumColumn);
      Some(ForumThreadOpened(thread, forum))
    case 11 =>
      var population :- Stored(r, Primary);
      var o :- Stored(r, ObligationColumn);
      var occurrence :- Stored(r, Occurrence);
      var episode :- Stored(r, StudyEpisode);
      var phase :- PhaseFrom(r);
      Some(ActorObligationAdmitted(o, occurrence, episode, population, phase))
    case _ => None
  }

  function DecodeForumEvents(r: Row): Option<StudyEvent> {
    match r.kind
    case 12 => var o :- Stored(r, ObligationColumn); Some(ActorObligationCompleted(o))
    case 13 =>
      var episode :- Stored(r, StudyEpisode);
      var thread :- Stored(r, ThreadColumn);
      var head :- Number(r, ThroughOrdinal);
      Some(ForumHeadFrozen(episode, thread, head))
    case 14 =>
      var episode :- Stored(r, StudyEpisode);
      var successor :- Stored(r, Primary);
      Some(PopulationReplaced(episode, successor))
    case 15 =>
      var exposure :- Stored(r, Primary);
      var o :- Stored(r, ObligationColumn);
      var visibleFrom :- Number(r, FirstOrdinal);
      var visibleThrough :- Number(r, ThroughOrdinal);
      Some(ForumExposureAdmitted(exposure, o, visibleFrom, visibleThrough))
    case 16 =>
      var message :- Stored(r, MessageColumn);
      var thread :- Stored(r, ThreadColumn);
      var ordinal :- Number(r, ThroughOrdinal);
      var author :- Stored(r, Occurrence);
      var kind :- KindFrom(r);
      var digest :- StoredDigest(r, BodyDigest);
      Some(ForumMessagePublished(message, thread, ordinal, author, kind, digest))
    case 17 =>
      var pair :- Stored(r, Primary);
      var retained :- Stored(r, Secondary);
      var reset :- Stored(r, Tertiary);
      var digest :- StoredDigest(r, BodyDigest);
      Some(MatchedCorrectionReleased(pair, retained, reset, digest))
    case 18 =>
      var receipt :- Stored(r, Primary);
      var o :- Stored(r, ObligationColumn);
      var thread :- Stored(r, ThreadColumn);
      var first :- Number(r, FirstOrdinal);
      var through :- Number(r, ThroughOrdinal);
      var digest :- StoredDigest(r, RenderedDigest);
      var rendered :- Stored(r, RenderedObject);
      Some(ForumMessagesRead(receipt, o, thread, first, through, digest, rendered))
    case 19 => var o :- Stored(r, ObligationColumn); Some(DecisionRecorded(o))
    case 20 =>
      var result :- Stored(r, Primary);
      var episode :- Stored(r, StudyEpisode);
      var status :- StatusFrom(r);
      Some(MeasurementResultRecorded(result, episode, status))
    case 21 => var id :- Stored(r, StudyEpisode); Some(EpisodeClosed(id))
    case 22 =>
      var fork :- Stored(r, Primary);
      var episode :- Stored(r, Secondary);
      var source :- Stored(r, Tertiary);
      var delta :- TreatmentFrom(r);
      Some(ExperimentalForkCreated(fork, episode, source, delta))
    case _ => None
  }

  function DecodeLaterEvents(admissions: map<Id, SpawnAdmission>, r: Row): Option<StudyEvent> {
    match r.kind
    case 23 =>
      var message :- Stored(r, MessageColumn);
      var o :- Stored(r, ObligationColumn);
      Some(ForumMessageRetracted(message, o))
    case 24 =>
      var o :- Stored(r, ObligationColumn);
      var reason :- StoredDigest(r, BodyDigest);
      Some(ActorObligationFailed(o, reason))
    case 25 =>
      var episode :- Stored(r, StudyEpisode);
      var digest :- StoredDigest(r, BodyDigest);
      Some(GroundTruthRevealed(episode, digest))
    case 26 =>
      var admission :- Stored(r, Secondary);
      var profile :- ProfileOf(admissions, admission);
      var o :- Stored(r, ObligationColumn);
      var child :- Stored(r, Primary);
      var office :- Stored(r, Tertiary);
      Some(ActorRuntimeBound(o, office, child, admission, profile))
    case 27 =>
      var o :- Stored(r, ObligationColumn);
      var child :- Stored(r, Primary);
      Some(ActorRuntimeReconciled(o, child))
    case 28 =>
      var admission :- Stored(r, Secondary);
      var profile :- ProfileOf(admissions, admission);
      var o :- Stored(r, ObligationColumn);
      var attempt :- Stored(r, Tertiary);
      var child :- Stored(r, Primary);
      Some(ActorTaskAttemptRuntimeBound(o, attempt, child, admission, profile))
    case 29 =>
      var run :- Stored(r, StudyRun);
      var protocol :- Stored(r, ProtocolRevision);
      var plan :- Stored(r, PlanObject);
      var digest :- StoredDigest(r, PlanDigest);
      var pairs :- Bounded(r, PairCountColumn, 1, 10_000);
      Some(StudyRunAdmitted(run, protocol, plan, digest, pairs))
    case 30 =>
      var run :- Stored(r, StudyRun);
      var pair :- Stored(r, StudyPair);
      var ordinal :- Bounded(r, PairOrdinalColumn, 1, 10_000);
      var randomization :- StoredDigest(r, RandomizationDigest);
      var state :- RunStateFrom(r);
      Some(StudyRunPairRegistered(run, pair, ordinal, randomization, state))
    case 31 => var run :- Stored(r, StudyRun); Some(StudyRunStarted(run))
    case 32 =>
      var o :- Stored(r, ObligationColumn);
      var attempt :- Stored(r, Secondary);
      var child :- Stored(r, Primary);
      var receipt :- Stored(r, Tertiary);
      var accounting :- Bounded(r, RecoveryAccountingColumn, 1, 1);
      Some(ActorTaskAttemptRecoverySettled(o, attempt, child, receipt, Unknown))
    case 33 => var run :- Stored(r, StudyRun); Some(StudyRunCompleted(run))
    case _ => None
  }

  /** `decode_event_body`. */
  function DecodeEvent(admissions: map<Id, SpawnAdmission>, r: Row): Option<StudyEvent> {
    if r.kind <= 11 then DecodeFirstEvents(r)
    else if r.kind <= 22 then DecodeForumEvents(r)
    else DecodeLaterEvents(admissions, r)
  }

  /** A binding event names the profile its spawn admission still carries. */
  predicate ProfileStands(admissions: map<Id, SpawnAdmission>, e: StudyEvent) {
    e.ActorRuntimeBound? || e.ActorTaskAttemptRuntimeBound? ==> ProfileOf(admissions, e.admission) == Some(e.profile)
  }

  lemma FirstEventsReturn(e: StudyEvent)
    requires EventKind(e) <= 11
    ensures DecodeFirstEvents(EventRow(e)) == Some(e)
  {
  }

  lemma ForumEventsReturn(e: StudyEvent)
    requires 12 <= EventKind(e) <= 17
    ensures DecodeForumEvents(EventRow(e)) == Some(e)
  {
  }

  lemma ReadingEventsReturn(e: StudyEvent)
    requires 18 <= EventKind(e) <= 22
    ensures DecodeForumEvents(EventRow(e)) == Some(e)
  {
  }

  lemma CustodyEventsReturn(admissions: map<Id, SpawnAdmission>, e: StudyEvent)
    requires 23 <= EventKind(e) <= 28
    ensures DecodeLaterEvents(admissions, EventRow(e)) == Some(e) <==> ProfileStands(admissions, e)
  {
  }

  lemma RunEventsReturn(admissions: map<Id, SpawnAdmission>, e: StudyEvent)
    requires 29 <= EventKind(e)
    ensures DecodeLaterEvents(admissions, EventRow(e)) == Some(e)
  {
    if e.ActorTaskAttemptRecoverySettled? { assert e.accounting.Unknown?; }
  }

  /** A stored event reads back as itself exactly when the profile it named still stands. */
  lemma EventReturns(admissions: map<Id, SpawnAdmission>, e: StudyEvent)
    ensures DecodeEvent(admissions, EventRow(e)) == Some(e) <==> ProfileStands(admissions, e)
  {
    hide DecodeFirstEvents, DecodeForumEvents, DecodeLaterEvents;
    EventRowKind(e);
    if EventKind(e) <= 11 {
      FirstEventsReturn(e);
    } else if EventKind(e) <= 17 {
      ForumEventsReturn(e);
    } else if EventKind(e) <= 22 {
      ReadingEventsReturn(e);
    } else if EventKind(e) <= 28 {
      CustodyEventsReturn(admissions, e);
    } else {
      RunEventsReturn(admissions, e);
    }
  }

  lemma EventRowKind(e: StudyEvent)
    ensures EventRow(e).kind == EventKind(e)
    ensures EventKind(e) <= 22 || EventKind(e) >= 29 ==> !e.ActorRuntimeBound? && !e.ActorTaskAttemptRuntimeBound?
  {
  }

  // ---------- what the control plane writes ----------

  lemma BindingNamesProfile(outside: Outside, db: Tables, o: Id, office: Id, attempt: Id, child: Id, admission: Id, u: Tables, e: StudyEvent)
    requires BindOffice(outside, db, o, office, child, admission) == Ok((u, e)) || BindAttempt(outside, db, o, attempt, child, admission) == Ok((u, e))
    ensures ProfileStands(outside.admissions, e)
  {
    hide Bind, RosterAligned, PlacesAligned, ForumsAligned, PairsAligned, EpisodesAligned, RunsAligned, CustodyAligned;
  }

  lemma RevisionEventKind(hashes: Hashes, outside: Outside, db: Tables, c: StudyCommand, ids: Fresh, u: Tables, e: StudyEvent)
    requires CommandKind(c) <= 5
    requires Transition(hashes, outside, db, c, ids) == Ok((u, e))
    ensures EventKind(e) == CommandKind(c)
  {
    hide PlacesAligned, ForumsAligned, PairsAligned, RosterAligned, ActorsAligned, EpisodesAligned, RunsAligned, CustodyAligned;
  }

  lemma EpisodeEventKind(hashes: Hashes, outside: Outside, db: Tables, c: StudyCommand, ids: Fresh, u: Tables, e: StudyEvent)
    requires CommandKind(c) in {6, 7, 8, 22}
    requires Transition(hashes, outside, db, c, ids) == Ok((u, e))
    ensures EventKind(e) == CommandKind(c)
  {
    hide InsertEpisode, InsertPair, Matched, Assigned, ForkSeed, PlacesAligned, ForumsAligned, PairsAligned, RosterAligned, ActorsAligned, EpisodesAligned, RunsAligned, CustodyAligned;
  }

  lemma PlaceEventKind(hashes: Hashes, outside: Outside, db: Tables, c: StudyCommand, ids: Fresh, u: Tables, e: StudyEvent)
    requires CommandKind(c) in {9, 10, 13, 14}
    requires Transition(hashes, outside, db, c, ids) == Ok((u, e))
    ensures EventKind(e) == CommandKind(c)
  {
    hide InsertForum, InsertThread, SourcesTerminal, ThreadOfEpisode, SetState, AddThread, PlacesAligned, ForumsAligned, PairsAligned, RosterAligned, ActorsAligned, EpisodesAligned, RunsAligned, CustodyAligned;
  }

  lemma ObligationEventKind(hashes: Hashes, outside: Outside, db: Tables, c: StudyCommand, ids: Fresh, u: Tables, e: StudyEvent)
    requires CommandKind(c) in {11, 12, 21, 24}
    requires Transition(hashes, outside, db, c, ids) == Ok((u, e))
    ensures EventKind(e) == CommandKind(c)
  {
    hide InsertObligation, SetObligation, SetState, RoleTaken, PopulationFor, AllTerminal, RecordedSlots, ColumnOf, ShutForum, PlacesAligned, ForumsAligned, PairsAligned, RosterAligned, ActorsAligned, EpisodesAligned, RunsAligned, CustodyAligned;
  }

  lemma WindowEventKind(hashes: Hashes, outside: Outside, db: Tables, c: StudyCommand, ids: Fresh, u: Tables, e: StudyEvent)
    requires CommandKind(c) in {15, 23}
    requires Transition(hashes, outside, db, c, ids) == Ok((u, e))
    ensures EventKind(e) == CommandKind(c)
  {
    hide OpenWindow, WindowStart, ExposureTaken, Withdraw, PlacesAligned, ForumsAligned, PairsAligned, RosterAligned, ActorsAligned, EpisodesAligned, RunsAligned, CustodyAligned;
  }

  lemma ReadEventKind(hashes: Hashes, outside: Outside, db: Tables, c: StudyCommand, ids: Fresh, u: Tables, e: StudyEvent)
    requires CommandKind(c) == 18
    requires Transition(hashes, outside, db, c, ids) == Ok((u, e))
    ensures EventKind(e) == CommandKind(c)
  {
    hide ReadableThread, Slice, Deliver, PlacesAligned, ForumsAligned, PairsAligned, RosterAligned, ActorsAligned, EpisodesAligned, RunsAligned, CustodyAligned;
  }

  lemma MessageEventKind(hashes: Hashes, outside: Outside, db: Tables, c: StudyCommand, ids: Fresh, u: Tables, e: StudyEvent)
    requires CommandKind(c) in {16, 17}
    requires Transition(hashes, outside, db, c, ids) == Ok((u, e))
    ensures EventKind(e) == CommandKind(c)
  {
    hide PostRefusal, RelationsAllowed, Append, CountPost, AfterPost, ReleaseArm, PlacesAligned, ForumsAligned, PairsAligned, RosterAligned, ActorsAligned, EpisodesAligned, RunsAligned, CustodyAligned;
  }

  lemma OutcomeEventKind(hashes: Hashes, outside: Outside, db: Tables, c: StudyCommand, ids: Fresh, u: Tables, e: StudyEvent)
    requires CommandKind(c) in {19, 20, 25}
    requires Transition(hashes, outside, db, c, ids) == Ok((u, e))
    ensures EventKind(e) == CommandKind(c)
  {
    hide OwnPublished, CoveringReads, AfterCorrection, WellShaped, ResultTaken, PlacesAligned, ForumsAligned, PairsAligned, RosterAligned, ActorsAligned, EpisodesAligned, RunsAligned, CustodyAligned;
  }

  lemma CustodyEventKind(hashes: Hashes, outside: Outside, db: Tables, c: StudyCommand, ids: Fresh, u: Tables, e: StudyEvent)
    requires CommandKind(c) in {26, 27, 28}
    requires Transition(hashes, outside, db, c, ids) == Ok((u, e))
    ensures EventKind(e) == CommandKind(c)
  {
    hide Bind, BindRefusal, PlacesAligned, ForumsAligned, PairsAligned, RosterAligned, ActorsAligned, EpisodesAligned, RunsAligned, CustodyAligned;
  }

  lemma RunEventKind(hashes: Hashes, outside: Outside, db: Tables, c: StudyCommand, ids: Fresh, u: Tables, e: StudyEvent)
    requires CommandKind(c) >= 29 && CommandKind(c) != 32
    requires Transition(hashes, outside, db, c, ids) == Ok((u, e))
    ensures EventKind(e) == CommandKind(c)
  {
    hide Registrable, HasOpenPair, PlacesAligned, ForumsAligned, PairsAligned, RosterAligned, ActorsAligned, EpisodesAligned, RunsAligned, CustodyAligned;
  }

  lemma SettlementEventKind(outside: Outside, db: Tables, o: Id, attempt: Id, child: Id, receipt: Id, s: Store, e: StudyEvent)
    requires SettleRecovery(outside, db, o, attempt, child, receipt) == Ok((s, e))
    ensures EventKind(e) == 32
  {
    hide PlacesAligned, ForumsAligned, PairsAligned, RosterAligned, ActorsAligned, EpisodesAligned, RunsAligned, CustodyAligned;
  }

  /** Command and event kinds run in parallel: an accepted command emits the event of its own kind. */
  lemma EventOfItsKind(hashes: Hashes, s: Store, c: StudyCommand, ids: Fresh, t: Store, e: StudyEvent)
    requires Apply(hashes, s, c, ids) == Ok((t, e))
    ensures EventKind(e) == CommandKind(c)
  {
    hide Transition, SettleRecovery, CommandKind, EventKind;
    CommandKindRange(c);
    SettlementKind(c);
    if c.SettleActorTaskAttemptAfterRecovery? {
      SettlementEventKind(s.outside, s.tables, c.obligation, c.attempt, c.child, c.recoveryReceipt, t, e);
    } else if CommandKind(c) <= 5 {
      RevisionEventKind(hashes, s.outside, s.tables, c, ids, t.tables, e);
    } else if CommandKind(c) in {6, 7, 8, 22} {
      EpisodeEventKind(hashes, s.outside, s.tables, c, ids, t.tables, e);
    } else if CommandKind(c) in {9, 10, 13, 14} {
      PlaceEventKind(hashes, s.outside, s.tables, c, ids, t.tables, e);
    } else if CommandKind(c) in {11, 12, 21, 24} {
      ObligationEventKind(hashes, s.outside, s.tables, c, ids, t.tables, e);
    } else if CommandKind(c) in {15, 23} {
      WindowEventKind(hashes, s.outside, s.tables, c, ids, t.tables, e);
    } else if CommandKind(c) == 18 {
      ReadEventKind(hashes, s.outside, s.tables, c, ids, t.tables, e);
    } else if CommandKind(c) in {16, 17} {
      MessageEventKind(hashes, s.outside, s.tables, c, ids, t.tables, e);
    } else if CommandKind(c) in {19, 20, 25} {
      OutcomeEventKind(hashes, s.outside, s.tables, c, ids, t.tables, e);
    } else if CommandKind(c) in {26, 27, 28} {
      CustodyEventKind(hashes, s.outside, s.tables, c, ids, t.tables, e);
    } else {
      RunEventKind(hashes, s.outside, s.tables, c, ids, t.tables, e);
    }
  }

  lemma SettlementKind(c: StudyCommand)
    ensures CommandKind(c) == 32 <==> c.SettleActorTaskAttemptAfterRecovery?
    ensures CommandKind(c) in {26, 28} <==> c.BindActorRuntime? || c.BindActorTaskAttemptRuntime?
  {
  }

  lemma OnlyBindingsNameProfiles(e: StudyEvent, admissions: map<Id, SpawnAdmission>)
    ensures EventKind(e) !in {26, 28} ==> ProfileStands(admissions, e)
  {
  }

  /** Every event a transition emits reads back from its row as itself, while the spawn admissions stand. */
  lemma EmittedEventReturns(hashes: Hashes, s: Store, c: StudyCommand, ids: Fresh, t: Store, e: StudyEvent)
    requires Apply(hashes, s, c, ids) == Ok((t, e))
    ensures DecodeEvent(s.outside.admissions, EventRow(e)) == Some(e)
  {
    hide BindOffice, BindAttempt, DecodeEvent, EventRow, ProfileStands, SettleRecovery, CommandKind, EventKind, PlacesAligned, ForumsAligned, PairsAligned, RosterAligned, ActorsAligned, EpisodesAligned, RunsAligned, CustodyAligned;
    EventOfItsKind(hashes, s, c, ids, t, e);
    SettlementKind(c);
    OnlyBindingsNameProfiles(e, s.outside.admissions);
    if c.BindActorRuntime? {
      BindingNamesProfile(s.outside, s.tables, c.obligation, c.office, 1, c.child, c.admission, t.tables, e);
    } else if c.BindActorTaskAttemptRuntime? {
      BindingNamesProfile(s.outside, s.tables, c.obligation, 1, c.attempt, c.child, c.admission, t.tables, e);
    }
    EventReturns(s.outside.admissions, e);
  }

  predicate Binds(e: StudyEvent) {
    e.ActorRuntimeBound? || e.ActorTaskAttemptRuntimeBound?
  }

  /**
   * However the run goes on, and whatever other parts of the kernel do to their tables: an emitted event
   * reads back as itself exactly while the spawn admission it names, if any, carries the profile it carried then.
   */
  lemma EventStaysReadable(hashes: Hashes, outside: Outside, steps: seq<Step>, c: StudyCommand, ids: Fresh, t: Store, e: StudyEvent, more: seq<Step>)
    requires Apply(hashes, Execute(hashes, outside, steps), c, ids) == Ok((t, e))
    ensures var stored := Execute(hashes, outside, steps).outside.admissions;
      var later := Execute(hashes, outside, steps + [Command(c, ids)] + more).outside.admissions;
      DecodeEvent(later, EventRow(e)) == Some(e) <==> (Binds(e) ==> ProfileOf(later, e.admission) == ProfileOf(stored, e.admission))
  {
    hide Execute, Apply, DecodeEvent, EventRow, ProfileOf;
    EmittedEventReturns(hashes, Execute(hashes, outside, steps), c, ids, t, e);
    EventReturns(Execute(hashes, outside, steps).outside.admissions, e);
    EventReturns(Execute(hashes, outside, steps + [Command(c, ids)] + more).outside.admissions, e);
  }
}
