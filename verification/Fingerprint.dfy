/**
 * The byte commitments to study commands and events: a kind, then the fields of that kind in order, as
 * big-endian two's-complement integers, length-prefixed bytes and 0/1-tagged options.
 */
module Fingerprint {
  import opened Wrappers
  import opened StudyVocabulary

  // ---------- integers ----------

  function Pow256(k: nat): (p: nat)
    ensures p > 0
  {
    if k == 0 then 1 else 256 * Pow256(k - 1)
  }

  function BytesOf(u: nat, k: nat): (b: seq<Byte>)
    ensures |b| == k
  {
    if k == 0 then [] else BytesOf(u / 256, k - 1) + [u % 256]
  }

  const TWO_64: int := 0x1_0000_0000_0000_0000

  /** `i64::to_be_bytes`. */
  function BigEndian(n: I64): (b: seq<Byte>)
    ensures |b| == 8
  {
    BytesOf(if n < 0 then n + TWO_64 else n, 8)
  }

  lemma {:induction false} BytesInjective(u: nat, v: nat, k: nat)
    requires u < Pow256(k) && v < Pow256(k) && BytesOf(u, k) == BytesOf(v, k)
    ensures u == v
  {
    if k > 0 {
      var a, b := BytesOf(u, k), BytesOf(v, k);
      assert a[k - 1] == u % 256 && b[k - 1] == v % 256;
      assert a[..k - 1] == BytesOf(u / 256, k - 1) && b[..k - 1] == BytesOf(v / 256, k - 1);
      BytesInjective(u / 256, v / 256, k - 1);
    }
  }

  lemma BigEndianInjective(m: I64, n: I64)
    requires BigEndian(m) == BigEndian(n)
    ensures m == n
  {
    assert Pow256(8) == TWO_64;
    BytesInjective(if m < 0 then m + TWO_64 else m, if n < 0 then n + TWO_64 else n, 8);
  }

  // ---------- fields ----------

  /** Bytes short enough for an i64 length. */
  type Bytes = b: seq<Byte> | |b| <= MAX_I64

  datatype Field = Integer(n: I64) | Content(bytes: Bytes) | MaybeInteger(option: Option<I64>) | MaybeDigest(digest: Option<Digest>)

  type Fields = seq<Field>

  function Encode(f: Field): seq<Byte> {
    match f
    case Integer(n) => BigEndian(n)
    case Content(bytes) => BigEndian(|bytes|) + bytes
    case MaybeInteger(None) => BigEndian(0)
    case MaybeInteger(Some(n)) => BigEndian(1) + BigEndian(n)
    case MaybeDigest(None) => BigEndian(0)
    case MaybeDigest(Some(d)) => BigEndian(1) + (BigEndian(|d|) + d)
  }

  function EncodeAll(fs: Fields): seq<Byte> {
    if fs == [] then [] else Encode(fs[0]) + EncodeAll(fs[1..])
  }

  predicate SameSort(f: Field, g: Field) {
    (f.Integer? && g.Integer?) || (f.Content? && g.Content?) || (f.MaybeInteger? && g.MaybeInteger?) || (f.MaybeDigest? && g.MaybeDigest?)
  }

  predicate SameShape(fs: Fields, gs: Fields) {
    |fs| == |gs| && forall i :: 0 <= i < |fs| ==> SameSort(fs[i], gs[i])
  }

  /** Equal concatenations with equally long heads split in the same place. */
  lemma SplitAt(a: seq<Byte>, b: seq<Byte>, x: seq<Byte>, y: seq<Byte>)
    requires |a| == |b| && a + x == b + y
    ensures a == b && x == y
  {
    assert (a + x)[..|a|] == a && (b + y)[..|b|] == b;
    assert (a + x)[|a|..] == x && (b + y)[|b|..] == y;
  }

  lemma IntegerFirst(m: I64, n: I64, x: seq<Byte>, y: seq<Byte>)
    requires BigEndian(m) + x == BigEndian(n) + y
    ensures m == n && x == y
  {
    SplitAt(BigEndian(m), BigEndian(n), x, y);
    BigEndianInjective(m, n);
  }

  lemma ContentFirst(a: Bytes, b: Bytes, x: seq<Byte>, y: seq<Byte>)
    requires BigEndian(|a|) + a + x == BigEndian(|b|) + b + y
    ensures a == b && x == y
  {
    assert BigEndian(|a|) + a + x == BigEndian(|a|) + (a + x);
    assert BigEndian(|b|) + b + y == BigEndian(|b|) + (b + y);
    IntegerFirst(|a|, |b|, a + x, b + y);
    SplitAt(a, b, x, y);
  }

  function Tag<T>(o: Option<T>): I64 {
    if o.Some? then 1 else 0
  }

  function Payload(f: Field): seq<Byte>
    requires f.MaybeInteger? || f.MaybeDigest?
  {
    match f
    case MaybeInteger(Some(n)) => BigEndian(n)
    case MaybeDigest(Some(d)) => BigEndian(|d|) + d
    case _ => []
  }

  lemma OptionFirst(f: Field, g: Field, x: seq<Byte>, y: seq<Byte>)
    requires (f.MaybeInteger? && g.MaybeInteger?) || (f.MaybeDigest? && g.MaybeDigest?)
    requires Encode(f) + x == Encode(g) + y
    ensures f == g && x == y
  {
    hide BigEndian;
    var t := if f.MaybeInteger? then Tag(f.option) else Tag(f.digest);
    var u := if g.MaybeInteger? then Tag(g.option) else Tag(g.digest);
    assert Encode(f) + x == BigEndian(t) + (Payload(f) + x);
    assert Encode(g) + y == BigEndian(u) + (Payload(g) + y);
    IntegerFirst(t, u, Payload(f) + x, Payload(g) + y);
    if t == 1 {
      if f.MaybeInteger? {
        IntegerFirst(f.option.value, g.option.value, x, y);
      } else {
        ContentFirst(f.digest.value, g.digest.value, x, y);
      }
    } else {
      assert Payload(f) + x == x && Payload(g) + y == y;
    }
  }

  lemma FieldFirst(f: Field, g: Field, x: seq<Byte>, y: seq<Byte>)
    requires SameSort(f, g) && Encode(f) + x == Encode(g) + y
    ensures f == g && x == y
  {
    hide BigEndian;
    if f.Integer? {
      IntegerFirst(f.n, g.n, x, y);
    } else if f.Content? {
      ContentFirst(f.bytes, g.bytes, x, y);
    } else {
      OptionFirst(f, g, x, y);
    }
  }

  /** Field lists of one shape are uniquely decodable. */
  lemma {:induction false} FieldsFirst(fs: Fields, gs: Fields, x: seq<Byte>, y: seq<Byte>)
    requires SameShape(fs, gs) && EncodeAll(fs) + x == EncodeAll(gs) + y
    ensures fs == gs && x == y
  {
    hide Encode, SameSort;
    if fs == [] {
      assert EncodeAll(fs) + x == x && EncodeAll(gs) + y == y;
    } else {
      var a, b := EncodeAll(fs[1..]), EncodeAll(gs[1..]);
      assert EncodeAll(fs) + x == Encode(fs[0]) + (a + x);
      assert EncodeAll(gs) + y == Encode(gs[0]) + (b + y);
      FieldFirst(fs[0], gs[0], a + x, b + y);
      FieldsFirst(fs[1..], gs[1..], x, y);
      assert fs == [fs[0]] + fs[1..] && gs == [gs[0]] + gs[1..];
    }
  }

  /** `SameShape` for up to ten fields, spelled out. */
  predicate SameShapeOfTen(fs: Fields, gs: Fields) {
    && |fs| == |gs| <= 10
    && (|fs| > 0 ==> SameSort(fs[0], gs[0])) && (|fs| > 1 ==> SameSort(fs[1], gs[1]))
    && (|fs| > 2 ==> SameSort(fs[2], gs[2])) && (|fs| > 3 ==> SameSort(fs[3], gs[3]))
    && (|fs| > 4 ==> SameSort(fs[4], gs[4])) && (|fs| > 5 ==> SameSort(fs[5], gs[5]))
    && (|fs| > 6 ==> SameSort(fs[6], gs[6])) && (|fs| > 7 ==> SameSort(fs[7], gs[7]))
    && (|fs| > 8 ==> SameSort(fs[8], gs[8])) && (|fs| > 9 ==> SameSort(fs[9], gs[9]))
  }

  lemma TenSuffice(fs: Fields, gs: Fields)
    requires SameShapeOfTen(fs, gs)
    ensures SameShape(fs, gs)
  {
    hide SameSort;
  }

  /** Equal lists agree item by item. */
  lemma Items(fs: Fields, gs: Fields)
    requires fs == gs && |fs| <= 10
    ensures |fs| > 0 ==> fs[0] == gs[0]
    ensures |fs| > 1 ==> fs[1] == gs[1]
    ensures |fs| > 2 ==> fs[2] == gs[2]
    ensures |fs| > 3 ==> fs[3] == gs[3]
    ensures |fs| > 4 ==> fs[4] == gs[4]
    ensures |fs| > 5 ==> fs[5] == gs[5]
    ensures |fs| > 6 ==> fs[6] == gs[6]
    ensures |fs| > 7 ==> fs[7] == gs[7]
    ensures |fs| > 8 ==> fs[8] == gs[8]
    ensures |fs| > 9 ==> fs[9] == gs[9]
  {
  }

  // ---------- commands ----------

  function TreatmentCode(t: Treatment): I64 { if t == Retained then 1 else 2 }
  function PhaseCode(p: PopulationPhase): I64 { if p == Source then 1 else 2 }

  function KindCode(k: MessageKind): I64 {
    match k
    case Finding => 1
    case Question => 2
    case Challenge => 3
    case Correction => 4
    case Synthesis => 5
  }

  function StatusCode(s: MeasurementStatus): I64 {
    match s
    case Observed => 1
    case Unavailable => 2
    case Invalidated => 3
  }

  function RunCode(s: RunState): I64 {
    match s
    case Pairing => 1
    case Ready => 2
    case Running => 3
    case Completed => 4
  }

  function Widen(o: Option<Id>): Option<I64> {
    match o
    case None => None
    case Some(id) => Some(id)
  }

  function CommandKind(c: StudyCommand): I64 {
    match c
    case AdmitProtocolRevision(_, _, _, _, _, _, _, _, _, _) => 1
    case AdmitWorldRevision(_, _) => 2
    case AdmitMeasurementRevision(_, _, _) => 3
    case AdmitInstitutionRevision(_, _) => 4
    case AdmitPopulationSnapshot(_, _, _) => 5
    case AdmitEpisode(_, _, _, _, _, _) => 6
    case AssignTreatment(_, _) => 7
    case AdmitMatchedPair(_, _) => 8
    case CreateEpisodeForum(_, _) => 9
    case OpenForumThread(_, _) => 10
    case AdmitActorObligation(_, _, _, _, _, _, _, _, _) => 11
    case CompleteActorObligation(_, _) => 12
    case FreezeForumHead(_, _) => 13
    case ReplacePopulation(_, _) => 14
    case AdmitForumExposure(_, _, _) => 15
    case PublishForumMessage(_, _, _, _, _) => 16
    case ReleaseMatchedCorrection(_, _, _, _) => 17
    case ReadForum(_, _, _, _) => 18
    case RecordDecision(_, _, _) => 19
    case RecordMeasurementResult(_, _, _, _, _, _) => 20
    case CloseEpisode(_) => 21
    case ForkEpisode(_, _) => 22
    case RetractForumMessage(_, _) => 23
    case FailActorObligation(_, _) => 24
    case RevealGroundTruth(_, _) => 25
    case BindActorRuntime(_, _, _, _) => 26
    case ReconcileActorRuntime(_, _) => 27
    case BindActorTaskAttemptRuntime(_, _, _, _) => 28
    case AdmitStudyRun(_, _, _, _) => 29
    case RegisterStudyRunPair(_, _, _, _) => 30
    case StartStudyRun(_) => 31
    case SettleActorTaskAttemptAfterRecovery(_, _, _, _) => 32
    case CompleteStudyRun(_) => 33
  }

  function CommandFields(c: StudyCommand): Fields {
    match c
    case AdmitProtocolRevision(application, protocol, policy, prompt, tool, evidence, commitment, correction, topology, budget) =>
      [Integer(application), Content(protocol), Content(policy), Content(prompt), Content(tool),
       Content(evidence), Content(commitment), Content(correction), Content(topology), Integer(budget)]
    case AdmitWorldRevision(protocol, digest) => [Integer(protocol), Content(digest)]
    case AdmitMeasurementRevision(protocol, analysis, slots) => [Integer(protocol), Content(analysis), Integer(slots)]
    case AdmitInstitutionRevision(protocol, digest) => [Integer(protocol), Content(digest)]
    case AdmitPopulationSnapshot(protocol, digest, size) => [Integer(protocol), Content(digest), Integer(size)]
    case AdmitEpisode(protocol, world, measurement, institution, population, randomization) =>
      [Integer(protocol), Integer(world), Integer(measurement), Integer(institution), Integer(population), Content(randomization)]
    case AssignTreatment(e, treatment) => [Integer(e), Integer(TreatmentCode(treatment))]
    case AdmitMatchedPair(retained, reset) => [Integer(retained), Integer(reset)]
    case AdmitStudyRun(protocol, plan, digest, pairs) => [Integer(protocol), Integer(plan), Content(digest), Integer(pairs)]
    case RegisterStudyRunPair(run, ordinal, pair, randomization) => [Integer(run), Integer(ordinal), Integer(pair), Content(randomization)]
    case StartStudyRun(run) => [Integer(run)]
    case CompleteStudyRun(run) => [Integer(run)]
    case CreateEpisodeForum(e, charter) => [Integer(e), Content(charter)]
    case OpenForumThread(forum, title) => [Integer(forum), Content(title)]
    case AdmitActorObligation(e, phase, role, view, prompt, tool, budget, readBudget, postBudget) =>
      [Integer(e), Integer(PhaseCode(phase)), Integer(role), Content(view), Content(prompt), Content(tool),
       Integer(budget), Integer(readBudget), Integer(postBudget)]
    case CompleteActorObligation(o, charge) => [Integer(o), Integer(charge)]
    case FailActorObligation(o, reason) => [Integer(o), Content(reason)]
    case BindActorRuntime(o, office, child, admission) => [Integer(o), Integer(office), Integer(child), Integer(admission)]
    case BindActorTaskAttemptRuntime(o, attempt, child, admission) => [Integer(o), Integer(attempt), Integer(child), Integer(admission)]
    case ReconcileActorRuntime(o, child) => [Integer(o), Integer(child)]
    case SettleActorTaskAttemptAfterRecovery(o, attempt, child, receipt) => [Integer(o), Integer(attempt), Integer(child), Integer(receipt)]
    case FreezeForumHead(e, thread) => [Integer(e), Integer(thread)]
    case ReplacePopulation(e, successor) => [Integer(e), Integer(successor)]
    case AdmitForumExposure(o, forum, visibleFrom) => [Integer(o), Integer(forum), Integer(visibleFrom)]
    case PublishForumMessage(o, kind, body, reply, supersedes) =>
      [Integer(o), Integer(KindCode(kind)), Content(body), MaybeInteger(Widen(reply)), MaybeInteger(Widen(supersedes))]
    case RetractForumMessage(o, message) => [Integer(o), Integer(message)]
    case ReleaseMatchedCorrection(pair, retained, reset, correction) =>
      [Integer(pair), Integer(retained), Integer(reset), Content(correction)]
    case ReadForum(o, first, through, rendered) => [Integer(o), Integer(first), Integer(through), Integer(rendered)]
    case RecordDecision(o, decision, cited) => [Integer(o), Content(decision), MaybeInteger(Widen(cited))]
    case RevealGroundTruth(e, truth) => [Integer(e), Content(truth)]
    case RecordMeasurementResult(e, slot, status, observed, value, reason) =>
      [Integer(e), Integer(slot), Integer(StatusCode(status)), MaybeInteger(observed), MaybeDigest(value), MaybeDigest(reason)]
    case CloseEpisode(e) => [Integer(e)]
    case ForkEpisode(source, delta) => [Integer(source), Integer(TreatmentCode(delta))]
  }

  lemma CommandKindRange(c: StudyCommand)
    ensures 1 <= CommandKind(c) <= 33
  {
  }

  function CommandBytes(c: StudyCommand): seq<Byte> {
    BigEndian(CommandKind(c)) + EncodeAll(CommandFields(c))
  }

  lemma CommandShape1To5(c: StudyCommand, d: StudyCommand)
    requires CommandKind(c) == CommandKind(d)
    requires 1 <= CommandKind(c) <= 5
    ensures SameShapeOfTen(CommandFields(c), CommandFields(d))
  {
  }

  lemma CommandShape6To11(c: StudyCommand, d: StudyCommand)
    requires CommandKind(c) == CommandKind(d)
    requires 6 <= CommandKind(c) <= 11
    ensures SameShapeOfTen(CommandFields(c), CommandFields(d))
  {
  }

  lemma CommandShape12To22(c: StudyCommand, d: StudyCommand)
    requires CommandKind(c) == CommandKind(d)
    requires 12 <= CommandKind(c) <= 22
    ensures SameShapeOfTen(CommandFields(c), CommandFields(d))
  {
  }

  lemma CommandShape23To33(c: StudyCommand, d: StudyCommand)
    requires CommandKind(c) == CommandKind(d)
    requires 23 <= CommandKind(c) <= 33
    ensures SameShapeOfTen(CommandFields(c), CommandFields(d))
  {
  }

  /** The kind fixes the number and the sorts of the fields. */
  lemma CommandShape(c: StudyCommand, d: StudyCommand)
    requires CommandKind(c) == CommandKind(d)
    ensures SameShape(CommandFields(c), CommandFields(d)) && |CommandFields(c)| <= 10
  {
    hide CommandKind, CommandFields, SameSort;
    CommandKindRange(c);
    if CommandKind(c) <= 5 { CommandShape1To5(c, d); } else if CommandKind(c) <= 11 { CommandShape6To11(c, d); } else if CommandKind(c) <= 22 { CommandShape12To22(c, d); } else { CommandShape23To33(c, d); }
    TenSuffice(CommandFields(c), CommandFields(d));
  }

  lemma CommandDetermined1To11(c: StudyCommand, d: StudyCommand)
    requires CommandKind(c) == CommandKind(d) && CommandFields(c) == CommandFields(d)
    requires 1 <= CommandKind(c) <= 11
    ensures c == d
  {
    if CommandKind(c) <= 5 { CommandShape1To5(c, d); } else { CommandShape6To11(c, d); }
    Items(CommandFields(c), CommandFields(d));
  }

  lemma CommandDetermined12To22(c: StudyCommand, d: StudyCommand)
    requires CommandKind(c) == CommandKind(d) && CommandFields(c) == CommandFields(d)
    requires 12 <= CommandKind(c) <= 22
    ensures c == d
  {
    CommandShape12To22(c, d);
    Items(CommandFields(c), CommandFields(d));
  }

  lemma CommandDetermined23To33(c: StudyCommand, d: StudyCommand)
    requires CommandKind(c) == CommandKind(d) && CommandFields(c) == CommandFields(d)
    requires 23 <= CommandKind(c) <= 33
    ensures c == d
  {
    CommandShape23To33(c, d);
    Items(CommandFields(c), CommandFields(d));
  }

  /** The kind and the fields fix the command. */
  lemma CommandDetermined(c: StudyCommand, d: StudyCommand)
    requires CommandKind(c) == CommandKind(d) && CommandFields(c) == CommandFields(d)
    ensures c == d
  {
    hide CommandKind, CommandFields;
    CommandKindRange(c);
    if CommandKind(c) <= 11 { CommandDetermined1To11(c, d); } else if CommandKind(c) <= 22 { CommandDetermined12To22(c, d); } else { CommandDetermined23To33(c, d); }
  }

  /** No command's encoding is the start of another's. */
  lemma CommandsDecodeUniquely(c: StudyCommand, d: StudyCommand, x: seq<Byte>, y: seq<Byte>)
    requires CommandBytes(c) + x == CommandBytes(d) + y
    ensures c == d && x == y
  {
    hide CommandKind, CommandFields, EncodeAll, BigEndian;
    var a, b := EncodeAll(CommandFields(c)), EncodeAll(CommandFields(d));
    assert CommandBytes(c) + x == BigEndian(CommandKind(c)) + (a + x);
    assert CommandBytes(d) + y == BigEndian(CommandKind(d)) + (b + y);
    IntegerFirst(CommandKind(c), CommandKind(d), a + x, b + y);
    CommandShape(c, d);
    FieldsFirst(CommandFields(c), CommandFields(d), x, y);
    CommandDetermined(c, d);
  }

  // ---------- events ----------

  function EventKind(e: StudyEvent): I64 {
    match e
    case ProtocolRevisionAdmitted(_) => 1
    case WorldRevisionAdmitted(_) => 2
    case MeasurementRevisionAdmitted(_) => 3
    case InstitutionRevisionAdmitted(_) => 4
    case PopulationSnapshotAdmitted(_) => 5
    case EpisodeAdmitted(_) => 6
    case TreatmentAssigned(_, _, _) => 7
    case MatchedPairAdmitted(_) => 8
    case EpisodeForumCreated(_, _) => 9
    case ForumThreadOpened(_, _) => 10
    case ActorObligationAdmitted(_, _, _, _, _) => 11
    case ActorObligationCompleted(_) => 12
    case ForumHeadFrozen(_, _, _) => 13
    case PopulationReplaced(_, _) => 14
    case ForumExposureAdmitted(_, _, _, _) => 15
    case ForumMessagePublished(_, _, _, _, _, _) => 16
    case MatchedCorrectionReleased(_, _, _, _) => 17
    case ForumMessagesRead(_, _, _, _, _, _, _) => 18
    case DecisionRecorded(_) => 19
    case MeasurementResultRecorded(_, _, _) => 20
    case EpisodeClosed(_) => 21
    case ExperimentalForkCreated(_, _, _, _) => 22
    case ForumMessageRetracted(_, _) => 23
    case ActorObligationFailed(_, _) => 24
    case GroundTruthRevealed(_, _) => 25
    case ActorRuntimeBound(_, _, _, _, _) => 26
    case ActorRuntimeReconciled(_, _) => 27
    case ActorTaskAttemptRuntimeBound(_, _, _, _, _) => 28
    case StudyRunAdmitted(_, _, _, _, _) => 29
    case StudyRunPairRegistered(_, _, _, _, _) => 30
    case StudyRunStarted(_) => 31
    case ActorTaskAttemptRecoverySettled(_, _, _, _, _) => 32
    case StudyRunCompleted(_) => 33
  }

  function EventFields(e: StudyEvent): Fields {
    match e
    case ProtocolRevisionAdmitted(id) => [Integer(id)]
    case WorldRevisionAdmitted(id) => [Integer(id)]
    case MeasurementRevisionAdmitted(id) => [Integer(id)]
    case InstitutionRevisionAdmitted(id) => [Integer(id)]
    case PopulationSnapshotAdmitted(id) => [Integer(id)]
    case EpisodeAdmitted(id) => [Integer(id)]
    case EpisodeClosed(id) => [Integer(id)]
    case PopulationReplaced(episode, successor) => [Integer(episode), Integer(successor)]
    case TreatmentAssigned(id, episode, treatment) => [Integer(id), Integer(episode), Integer(TreatmentCode(treatment))]
    case MatchedPairAdmitted(id) => [Integer(id)]
    case StudyRunAdmitted(run, protocol, plan, digest, pairs) => [Integer(run), Integer(protocol), Integer(plan), Content(digest), Integer(pairs)]
    case StudyRunPairRegistered(run, pair, ordinal, randomization, state) =>
      [Integer(run), Integer(pair), Integer(ordinal), Content(randomization), Integer(RunCode(state))]
    case StudyRunStarted(run) => [Integer(run)]
    case StudyRunCompleted(run) => [Integer(run)]
    case EpisodeForumCreated(forum, episode) => [Integer(forum), Integer(episode)]
    case ForumThreadOpened(thread, forum) => [Integer(thread), Integer(forum)]
    case ActorObligationAdmitted(o, occurrence, episode, population, phase) =>
      [Integer(o), Integer(occurrence), Integer(episode), Integer(population), Integer(PhaseCode(phase))]
    case ActorObligationCompleted(o) => [Integer(o)]
    case DecisionRecorded(o) => [Integer(o)]
    case ActorObligationFailed(o, reason) => [Integer(o), Content(reason)]
    case ActorRuntimeBound(o, office, child, admission, profile) =>
      [Integer(o), Integer(office), Integer(child), Integer(admission), Integer(profile)]
    case ActorTaskAttemptRuntimeBound(o, attempt, child, admission, profile) =>
      [Integer(o), Integer(attempt), Integer(child), Integer(admission), Integer(profile)]
    case ActorRuntimeReconciled(o, child) => [Integer(o), Integer(child)]
    case ActorTaskAttemptRecoverySettled(o, attempt, child, receipt, _) =>
      [Integer(o), Integer(attempt), Integer(child), Integer(receipt), Integer(1)]
    case GroundTruthRevealed(episode, digest) => [Integer(episode), Content(digest)]
    case ForumHeadFrozen(episode, thread, head) => [Integer(episode), Integer(thread), Integer(head)]
    case ForumExposureAdmitted(exposure, o, visibleFrom, visibleThrough) =>
      [Integer(exposure), Integer(o), Integer(visibleFrom), Integer(visibleThrough)]
    case ForumMessagePublished(message, thread, ordinal, author, kind, digest) =>
      [Integer(message), Integer(thread), Integer(ordinal), Integer(author), Integer(KindCode(kind)), Content(digest)]
    case MatchedCorrectionReleased(pair, retained, reset, digest) => [Integer(pair), Integer(retained), Integer(reset), Content(digest)]
    case ForumMessagesRead(receipt, o, thread, first, through, digest, rendered) =>
      [Integer(receipt), Integer(o), Integer(thread), Integer(first), Integer(through), Content(digest), Integer(rendered)]
    case MeasurementResultRecorded(result, episode, status) => [Integer(result), Integer(episode), Integer(StatusCode(status))]
    case ExperimentalForkCreated(fork, episode, source, delta) =>
      [Integer(fork), Integer(episode), Integer(source), Integer(TreatmentCode(delta))]
    case ForumMessageRetracted(message, o) => [Integer(message), Integer(o)]
  }

  lemma EventKindRange(c: StudyEvent)
    ensures 1 <= EventKind(c) <= 33
  {
  }

  function EventBytes(e: StudyEvent): seq<Byte> {
    BigEndian(EventKind(e)) + EncodeAll(EventFields(e))
  }

  lemma EventShape1To11(c: StudyEvent, d: StudyEvent)
    requires EventKind(c) == EventKind(d)
    requires 1 <= EventKind(c) <= 11
    ensures SameShapeOfTen(EventFields(c), EventFields(d))
  {
  }

  lemma EventShape12To22(c: StudyEvent, d: StudyEvent)
    requires EventKind(c) == EventKind(d)
    requires 12 <= EventKind(c) <= 22
    ensures SameShapeOfTen(EventFields(c), EventFields(d))
  {
  }

  lemma EventShape23To33(c: StudyEvent, d: StudyEvent)
    requires EventKind(c) == EventKind(d)
    requires 23 <= EventKind(c) <= 33
    ensures SameShapeOfTen(EventFields(c), EventFields(d))
  {
  }

  lemma EventShape(c: StudyEvent, d: StudyEvent)
    requires EventKind(c) == EventKind(d)
    ensures SameShape(EventFields(c), EventFields(d)) && |EventFields(c)| <= 10
  {
    hide EventKind, EventFields, SameSort;
    EventKindRange(c);
    if EventKind(c) <= 11 { EventShape1To11(c, d); } else if EventKind(c) <= 22 { EventShape12To22(c, d); } else { EventShape23To33(c, d); }
    TenSuffice(EventFields(c), EventFields(d));
  }

  lemma EventDetermined1To11(c: StudyEvent, d: StudyEvent)
    requires EventKind(c) == EventKind(d) && EventFields(c) == EventFields(d)
    requires 1 <= EventKind(c) <= 11
    ensures c == d
  {
    EventShape1To11(c, d);
    Items(EventFields(c), EventFields(d));
  }

  lemma EventDetermined12To22(c: StudyEvent, d: StudyEvent)
    requires EventKind(c) == EventKind(d) && EventFields(c) == EventFields(d)
    requires 12 <= EventKind(c) <= 22
    ensures c == d
  {
    EventShape12To22(c, d);
    Items(EventFields(c), EventFields(d));
  }

  lemma EventDetermined23To33(c: StudyEvent, d: StudyEvent)
    requires EventKind(c) == EventKind(d) && EventFields(c) == EventFields(d)
    requires 23 <= EventKind(c) <= 33
    ensures c == d
  {
    EventShape23To33(c, d);
    Items(EventFields(c), EventFields(d));
  }

  lemma EventDetermined(c: StudyEvent, d: StudyEvent)
    requires EventKind(c) == EventKind(d) && EventFields(c) == EventFields(d)
    ensures c == d
  {
    hide EventKind, EventFields;
    EventKindRange(c);
    if EventKind(c) <= 11 { EventDetermined1To11(c, d); } else if EventKind(c) <= 22 { EventDetermined12To22(c, d); } else { EventDetermined23To33(c, d); }
  }

  /** No event's encoding is the start of another's. */
  lemma EventsDecodeUniquely(c: StudyEvent, d: StudyEvent, x: seq<Byte>, y: seq<Byte>)
    requires EventBytes(c) + x == EventBytes(d) + y
    ensures c == d && x == y
  {
    hide EventKind, EventFields, EncodeAll, BigEndian;
    var a, b := EncodeAll(EventFields(c)), EncodeAll(EventFields(d));
    assert EventBytes(c) + x == BigEndian(EventKind(c)) + (a + x);
    assert EventBytes(d) + y == BigEndian(EventKind(d)) + (b + y);
    IntegerFirst(EventKind(c), EventKind(d), a + x, b + y);
    EventShape(c, d);
    FieldsFirst(EventFields(c), EventFields(d), x, y);
    EventDetermined(c, d);
  }

  // ---------- the commitment being built ----------

  /** The byte vector both fingerprints are appended to. */
  class Commitment {
    var bytes: seq<Byte>

    constructor ()
      ensures bytes == []
    {
      bytes := [];
    }

    method PutI64(n: I64)
      modifies this
      ensures bytes == old(bytes) + BigEndian(n)
    {
      bytes := bytes + BigEndian(n);
    }

    method PutBytes(content: Bytes)
      modifies this
      ensures bytes == old(bytes) + (BigEndian(|content|) + content)
    {
      PutI64(|content|);
      bytes := bytes + content;
    }

    method PutOptionalI64(option: Option<I64>)
      modifies this
      ensures bytes == old(bytes) + Encode(MaybeInteger(option))
    {
      if option.Some? {
        PutI64(1);
        PutI64(option.value);
      } else {
        PutI64(0);
      }
    }

    method PutOptionalDigest(digest: Option<Digest>)
      modifies this
      ensures bytes == old(bytes) + Encode(MaybeDigest(digest))
    {
      hide BigEndian;
      if digest.Some? {
        ghost var before := bytes;
        PutI64(1);
        PutBytes(digest.value);
        assert bytes == before + (BigEndian(1) + (BigEndian(|digest.value|) + digest.value));
      } else {
        PutI64(0);
      }
    }

    method PutField(f: Field)
      modifies this
      ensures bytes == old(bytes) + Encode(f)
    {
      hide BigEndian;
      match f {
        case Integer(n) => PutI64(n);
        case Content(content) => PutBytes(content);
        case MaybeInteger(option) => PutOptionalI64(option);
        case MaybeDigest(digest) => PutOptionalDigest(digest);
      }
    }

    method PutFields(fs: Fields)
      modifies this
      ensures bytes == old(bytes) + EncodeAll(fs)
    {
      hide Encode;
      var i := 0;
      while i < |fs|
        invariant 0 <= i <= |fs|
        invariant bytes + EncodeAll(fs[i..]) == old(bytes) + EncodeAll(fs)
      {
        ghost var before := bytes;
        PutField(fs[i]);
        assert fs[i..][1..] == fs[i + 1..];
        assert before + (Encode(fs[i]) + EncodeAll(fs[i + 1..])) == bytes + EncodeAll(fs[i + 1..]);
        i := i + 1;
      }
    }

    /** `append_command_fingerprint`. */
    method AppendCommand(c: StudyCommand)
      modifies this
      ensures bytes == old(bytes) + CommandBytes(c)
    {
      PutI64(CommandKind(c));
      PutFields(CommandFields(c));
    }

    /** `append_event_fingerprint`. */
    method AppendEvent(e: StudyEvent)
      modifies this
      ensures bytes == old(bytes) + EventBytes(e)
    {
      PutI64(EventKind(e));
      PutFields(EventFields(e));
    }
  }
}
