/**
 * Every study command as one all-or-nothing step over the tables. A rejection carries no tables: the
 * caller's savepoint restores them. Identity columns come in as `Fresh`; a value that is already taken
 * makes the INSERT fail, like every other UNIQUE violation.
 */
module StudySpec {
  import opened Wrappers
  import opened StudyVocabulary
  import opened StudyTables
  import opened FiniteSums

  /** BLAKE3, the forum rendering grammar and the two sealed contract digests. */
  datatype Hashes = Hashes(
    digest: seq<Byte> -> Digest,
    render: (Id, int, int, map<Id, (Message, Publication)>) -> seq<Byte>,
    promptContract: Digest,
    toolContract: Digest)

  datatype Fresh = Fresh(first: Id, second: Id, third: Id)

  type Change = Result<(Tables, StudyEvent), Rejection>

  // ---------- design and episodes ----------

  function AdmitProtocol(hashes: Hashes, outside: Outside, db: Tables, c: StudyCommand, id: Id): (r: Change)
    requires c.AdmitProtocolRevision?
    ensures r.Ok? ==> r.value.0 == db.(design := r.value.0.design)
  {
    if c.application !in outside.applications then Err(SubjectNotFound)
    else if c.promptDigest != hashes.promptContract || c.toolDigest != hashes.toolContract then Err(InvalidLifecycleTransition)
    else if id in db.design.protocols then Err(InvalidLifecycleTransition)
    else
      var row := Protocol(c.promptDigest, c.toolDigest, c.commitment, c.correctionDigest, c.episodeBudget);
      Ok((db.(design := db.design.(protocols := db.design.protocols[id := row])), ProtocolRevisionAdmitted(id)))
  }

  function AdmitWorld(db: Tables, protocol: Id, digest: Digest, id: Id): (r: Change)
    ensures r.Ok? ==> r.value.0 == db.(design := r.value.0.design)
  {
    var d := db.design;
    if protocol !in d.protocols then Err(SubjectNotFound)
    else if id in d.worlds || World(protocol, digest) in d.worlds.Values then Err(InvalidLifecycleTransition)
    else Ok((db.(design := d.(worlds := d.worlds[id := World(protocol, digest)])), WorldRevisionAdmitted(id)))
  }

  function AdmitMeasurement(db: Tables, protocol: Id, analysis: Digest, slotCount: SlotCount, id: Id): (r: Change)
    ensures r.Ok? ==> r.value.0 == db.(design := r.value.0.design)
  {
    var d := db.design;
    if protocol !in d.protocols then Err(SubjectNotFound)
    else if id in d.measurements
         || exists k :: k in d.measurements && d.measurements[k].protocol == protocol && d.measurements[k].analysisDigest == analysis
    then Err(InvalidLifecycleTransition)
    else
      Ok((db.(design := d.(measurements := d.measurements[id := Measurement(protocol, analysis, slotCount)])),
          MeasurementRevisionAdmitted(id)))
  }

  function AdmitInstitution(db: Tables, protocol: Id, digest: Digest, id: Id): (r: Change)
    ensures r.Ok? ==> r.value.0 == db.(design := r.value.0.design)
  {
    var d := db.design;
    if protocol !in d.protocols then Err(SubjectNotFound)
    else if id in d.institutions || Institution(protocol, digest) in d.institutions.Values then Err(InvalidLifecycleTransition)
    else Ok((db.(design := d.(institutions := d.institutions[id := Institution(protocol, digest)])), InstitutionRevisionAdmitted(id)))
  }

  function AdmitPopulation(db: Tables, protocol: Id, digest: Digest, size: int, id: Id): (r: Change)
    ensures r.Ok? ==> r.value.0 == db.(design := r.value.0.design)
  {
    var d := db.design;
    if size <= 0 || protocol !in d.protocols then Err(SubjectNotFound)
    else if id in d.populations then Err(InvalidLifecycleTransition)
    else Ok((db.(design := d.(populations := d.populations[id := Population(protocol, digest, size)])), PopulationSnapshotAdmitted(id)))
  }

  function InsertEpisode(t: Episodes, id: Id, row: Episode): (r: Episodes)
    requires id !in t.rows
  {
    t.(rows := t.rows[id := row], state := t.state[id := Admitted])
  }

  function AdmitEpisodeRow(db: Tables, row: Episode, id: Id): Change {
    var d := db.design;
    if row.world !in d.worlds || row.measurement !in d.measurements || row.institution !in d.institutions
       || row.population !in d.populations || row.protocol != d.worlds[row.world].protocol
       || d.measurements[row.measurement].protocol != row.protocol
       || d.institutions[row.institution].protocol != row.protocol
       || d.populations[row.population].protocol != row.protocol
    then Err(SubjectNotFound)
    else if id in db.episodes.rows then Err(InvalidLifecycleTransition)
    else Ok((db.(episodes := InsertEpisode(db.episodes, id, row)), EpisodeAdmitted(id)))
  }

  predicate InState(db: Tables, e: Id, states: set<EpisodeState>) {
    e in db.episodes.rows && db.episodes.state[e] in states
  }

  function AssignTreatmentTo(db: Tables, e: Id, treatment: Treatment, id: Id): Change {
    if e !in db.episodes.rows then Err(SubjectNotFound)
    else if db.episodes.state[e] != Admitted then Err(InvalidLifecycleTransition)
    else if e in db.episodes.treatments || Assigned(db, id) then Err(InvalidLifecycleTransition)
    else
      Ok((db.(episodes := db.episodes.(treatments := db.episodes.treatments[e := Assignment(id, treatment)])),
          TreatmentAssigned(id, e, treatment)))
  }

  predicate Assigned(db: Tables, id: Id) {
    exists e :: e in db.episodes.treatments && db.episodes.treatments[e].id == id
  }

  predicate HasTreatment(t: Episodes, e: Id, treatment: Treatment) {
    e in t.treatments && t.treatments[e].treatment == treatment
  }

  /** Two arms match when everything but their treatments agrees. */
  predicate Matched(d: Design, t: Episodes, retained: Id, reset: Id) {
    && HasTreatment(t, retained, Retained) && HasTreatment(t, reset, Reset)
    && var a := t.rows[retained];
       var b := t.rows[reset];
       && a.protocol == b.protocol && a.world == b.world && a.measurement == b.measurement
       && a.institution == b.institution && a.randomization == b.randomization
       && a.population in d.populations && b.population in d.populations
       && d.populations[a.population].digest == d.populations[b.population].digest
       && d.populations[a.population].size == d.populations[b.population].size
  }

  function InsertPair(t: Pairs, p: Pair, id: Id): (r: Pairs)
    requires id !in t.rows && p.retained !in t.retainedIn && p.reset !in t.resetIn
  {
    t.(rows := t.rows[id := p], retainedIn := t.retainedIn[p.retained := id], resetIn := t.resetIn[p.reset := id])
  }

  function AdmitPair(db: Tables, retained: Id, reset: Id, id: Id): (r: Change)
    ensures r.Ok? ==> r.value.0 == db.(pairs := r.value.0.pairs)
  {
    if !Matched(db.design, db.episodes, retained, reset) then Err(InvalidLifecycleTransition)
    else if id in db.pairs.rows || retained in db.pairs.retainedIn || reset in db.pairs.resetIn then Err(InvalidLifecycleTransition)
    else Ok((db.(pairs := InsertPair(db.pairs, Pair(retained, reset), id)), MatchedPairAdmitted(id)))
  }

  // ---------- runs ----------

  function AdmitRun(outside: Outside, db: Tables, row: RunRow, id: Id): (r: Change)
    ensures r.Ok? ==> r.value.0 == db.(runs := r.value.0.runs)
  {
    var t := db.runs;
    if row.protocol !in db.design.protocols || row.planObject !in outside.sealed || outside.sealed[row.planObject] != row.planDigest
    then Err(InvalidLifecycleTransition)
    else if id in t.rows || exists r :: r in t.rows && (t.rows[r].planObject == row.planObject || t.rows[r].planDigest == row.planDigest)
    then Err(InvalidLifecycleTransition)
    else
      Ok((db.(runs := t.(rows := t.rows[id := row], registered := t.registered[id := 0], state := t.state[id := Pairing])),
          StudyRunAdmitted(id, row.protocol, row.planObject, row.planDigest, row.pairCount)))
  }

  /** Both arms of the pair belong to the run's protocol and draw, and have not started. */
  predicate Registrable(db: Tables, protocol: Id, pair: Id, randomization: Digest) {
    && pair in db.pairs.rows
    && var p := db.pairs.rows[pair];
       && p.retained in db.episodes.rows && p.reset in db.episodes.rows
       && db.episodes.rows[p.retained].protocol == protocol && db.episodes.rows[p.reset].protocol == protocol
       && db.episodes.rows[p.retained].randomization == randomization && db.episodes.rows[p.reset].randomization == randomization
       && db.episodes.state[p.retained] == Admitted && db.episodes.state[p.reset] == Admitted
  }

  function RegisterPair(db: Tables, run: Id, ordinal: PairOrdinal, pair: Id, randomization: Digest): (r: Change)
    ensures r.Ok? ==> r.value.0 == db.(runs := r.value.0.runs)
  {
    var t := db.runs;
    if run !in t.rows then Err(SubjectNotFound)
    else
      var row := t.rows[run];
      if t.state[run] != Pairing || ordinal > row.pairCount then Err(InvalidLifecycleTransition)
      else if !Registrable(db, row.protocol, pair, randomization) then Err(InvalidLifecycleTransition)
      else if (run, ordinal) in t.pairs || exists k :: k in t.pairs && t.pairs[k].pair == pair then Err(InvalidLifecycleTransition)
      else
        var next := t.registered[run] + 1;
        if next > row.pairCount then Err(InvalidLifecycleTransition)
        else
          var state := if next == row.pairCount then Ready else Pairing;
          Ok((db.(runs := t.(pairs := t.pairs[(run, ordinal) := RunPair(pair, randomization)],
                             registered := t.registered[run := next], state := t.state[run := state])),
              StudyRunPairRegistered(run, pair, ordinal, randomization, state)))
  }

  function StartRun(db: Tables, run: Id): (r: Change)
    ensures r.Ok? ==> r.value.0 == db.(runs := r.value.0.runs)
  {
    var t := db.runs;
    if run !in t.rows then Err(SubjectNotFound)
    else if t.state[run] != Ready || t.registered[run] != t.rows[run].pairCount then Err(InvalidLifecycleTransition)
    else Ok((db.(runs := t.(state := t.state[run := Running])), StudyRunStarted(run)))
  }

  /** An inner join: a registration whose pair or arms are missing would not count as open. */
  predicate HasOpenPair(db: Tables, run: Id) {
    exists k :: k in db.runs.pairs && k.0 == run && db.runs.pairs[k].pair in db.pairs.rows
      && var p := db.pairs.rows[db.runs.pairs[k].pair];
         p.retained in db.episodes.rows && p.reset in db.episodes.rows
         && (db.episodes.state[p.retained] != Closed || db.episodes.state[p.reset] != Closed)
  }

  function CompleteRun(db: Tables, run: Id): (r: Change)
    ensures r.Ok? ==> r.value.0 == db.(runs := r.value.0.runs)
  {
    var t := db.runs;
    if run !in t.rows then Err(SubjectNotFound)
    else if t.state[run] != Running || t.registered[run] != t.rows[run].pairCount then Err(InvalidLifecycleTransition)
    else if HasOpenPair(db, run) then Err(InvalidLifecycleTransition)
    else Ok((db.(runs := t.(state := t.state[run := Completed])), StudyRunCompleted(run)))
  }

  // ---------- forum set-up ----------

  function InsertForum(t: Places, e: Id, charter: Digest, id: Id): (r: Places)
    requires id !in t.forums && e !in t.forumOf
  {
    t.(forums := t.forums[id := ForumRow(e, charter)], forumOf := t.forumOf[e := id])
  }

  function CreateForum(db: Tables, e: Id, charter: Digest, id: Id): (r: Change)
    ensures r.Ok? ==> r.value.0 == db.(forum := r.value.0.forum)
  {
    var f := db.forum;
    if e !in db.episodes.rows then Err(SubjectNotFound)
    else if db.episodes.state[e] != Admitted then Err(InvalidLifecycleTransition)
    else if id in f.places.forums || e in f.places.forumOf then Err(InvalidLifecycleTransition)
    else
      Ok((db.(forum := f.(places := InsertForum(f.places, e, charter, id), state := f.state[id := Open])), EpisodeForumCreated(id, e)))
  }

  function InsertThread(t: Places, forum: Id, title: Title, id: Id): (r: Places)
    requires forum in t.forums && forum !in t.threadOf && id !in t.threads
    ensures r.threads.Keys == t.threads.Keys + {id} && r.threadOf.Keys == t.threadOf.Keys + {forum} && r.forums == t.forums
  {
    t.(threads := t.threads[id := Thread(forum, title)], threadOf := t.threadOf[forum := id])
  }

  lemma StillPlaced(f: Forums, places: Places)
    requires f.places.threads.Keys <= places.threads.Keys && f.places.threadOf.Keys <= places.threadOf.Keys
    ensures ExposuresPlaced(f.exposures, places.threadOf) && MessagesPlaced(f.messages, places.threads)
  {
  }

  function AddThread(f: Forums, places: Places, id: Id): Forums
    requires places.threads.Keys == f.places.threads.Keys + {id} && places.forums == f.places.forums
    requires ExposuresPlaced(f.exposures, places.threadOf) && MessagesPlaced(f.messages, places.threads)
  {
    f.(places := places, heads := f.heads[id := 0])
  }

  function OpenThread(db: Tables, forum: Id, title: Title, id: Id): (r: Change)
    ensures r.Ok? ==> r.value.0 == db.(forum := r.value.0.forum)
  {
    var f := db.forum;
    if forum !in f.places.forums then Err(SubjectNotFound)
    else if f.state[forum] != Open then Err(InvalidLifecycleTransition)
    else if forum in f.places.threadOf then Err(InvalidLifecycleTransition)
    else if id in f.places.threads then Err(InvalidLifecycleTransition)
    else
      var places := InsertThread(f.places, forum, title, id);
      StillPlaced(f, places);
      Ok((db.(forum := AddThread(f, places, id)), ForumThreadOpened(id, forum)))
  }

  // ---------- obligations ----------

  predicate PhaseOpen(state: EpisodeState, phase: PopulationPhase) {
    match phase
    case Source => state == Admitted || state == SourceActive
    case Successor => state == SourceReconciled || state == SuccessorAdmitted
  }

  predicate RoleTaken(t: Actors, e: Id, phase: PopulationPhase, role: RoleOrdinal) {
    exists o :: o in t.roster.rows && t.roster.rows[o].episode == e && t.roster.rows[o].phase == phase && t.roster.rows[o].role == role
  }

  function PopulationFor(t: Episodes, e: Id, phase: PopulationPhase): Option<Id>
    requires e in t.rows
  {
    match phase
    case Source => Some(t.rows[e].population)
    case Successor => if e in t.successors then Some(t.successors[e]) else None
  }

  function Enrol(t: Roster, row: Obligation, id: Id, occurrence: Id): (r: Roster)
    requires id !in t.rows && occurrence !in t.occurrences
  {
    t.(rows := t.rows[id := row], occurrences := t.occurrences[occurrence := id], occurrenceOf := t.occurrenceOf[id := occurrence])
  }

  function InsertObligation(t: Actors, row: Obligation, id: Id, occurrence: Id): (r: Actors)
    requires id !in t.roster.rows && occurrence !in t.roster.occurrences
  {
    t.(roster := Enrol(t.roster, row, id, occurrence), state := t.state[id := Active], charged := t.charged[id := 0],
       readsUsed := t.readsUsed[id := 0], postsUsed := t.postsUsed[id := 0])
  }

  function SetState(t: Episodes, e: Id, s: EpisodeState): (r: Episodes)
    requires e in t.rows
  {
    t.(state := t.state[e := s])
  }

  function AdmitObligation(db: Tables, c: StudyCommand, ids: Fresh): Change
    requires c.AdmitActorObligation?
  {
    var e := c.episode;
    var t := db.episodes;
    if e !in t.rows then Err(SubjectNotFound)
    else if e !in t.treatments then Err(InvalidLifecycleTransition)
    else if !PhaseOpen(t.state[e], c.phase) then Err(InvalidLifecycleTransition)
    else if c.phase == Source && e in t.frozen then Err(InvalidLifecycleTransition)
    else match PopulationFor(t, e, c.phase)
      case None => Err(InvalidLifecycleTransition)
      case Some(population) =>
        if t.rows[e].protocol !in db.design.protocols then Err(SubjectNotFound)
        else
          var protocol := db.design.protocols[t.rows[e].protocol];
          if protocol.promptDigest != c.promptDigest || protocol.toolDigest != c.toolDigest then Err(InvalidLifecycleTransition)
          else if ids.first in db.actors.roster.rows || RoleTaken(db.actors, e, c.phase, c.role) then Err(InvalidLifecycleTransition)
          else if ids.second in db.actors.roster.occurrences then Err(InvalidLifecycleTransition)
          else
            var row := Obligation(e, population, c.phase, c.role, c.budget, c.readBudget, c.postBudget);
            Ok((db.(actors := InsertObligation(db.actors, row, ids.first, ids.second),
                    episodes := SetState(t, e, if c.phase == Source then SourceActive else SuccessorAdmitted)),
                ActorObligationAdmitted(ids.first, ids.second, e, population, c.phase)))
  }

  function SetObligation(t: Actors, o: Id, state: ObligationState): Actors
    requires o in t.roster.rows
  {
    t.(state := t.state[o := state])
  }

  function CompleteObligation(db: Tables, o: Id, charge: BudgetUnits): (r: Change)
    ensures r.Ok? ==> r.value.0 == db.(actors := r.value.0.actors)
  {
    var t := db.actors;
    if o !in t.roster.rows then Err(SubjectNotFound)
    else if t.state[o] != Active || charge > t.roster.rows[o].budget || t.charged[o] != 0 then Err(BudgetPolicyViolation)
    else if o in db.custody.bindings && db.custody.state[o] != Reconciled then Err(InvalidLifecycleTransition)
    else
      Ok((db.(actors := SetObligation(t.(charged := t.charged[o := charge]), o, Done)), ActorObligationCompleted(o)))
  }

  function FailObligation(db: Tables, o: Id, reason: Digest): (r: Change)
    ensures r.Ok? ==> r.value.0 == db.(actors := r.value.0.actors)
  {
    var t := db.actors;
    if o !in t.roster.rows || t.state[o] != Active then Err(CapabilityNoLongerActive)
    else if o in db.custody.bindings && db.custody.state[o] != Reconciled && db.custody.state[o] != RecoverySettled
    then Err(InvalidLifecycleTransition)
    else Ok((db.(actors := SetObligation(t, o, Failed)), ActorObligationFailed(o, reason)))
  }

  // ---------- runtime custody ----------

  /** The child and its spawn admission are one per binding. */
  predicate RuntimeTaken(t: Custody, child: Id, admission: Id) {
    exists o :: o in t.bindings && (t.bindings[o].child == child || t.bindings[o].admission == admission)
  }

  function Bind(db: Tables, o: Id, b: Binding): Result<Tables, Rejection> {
    var t := db.custody;
    if o in t.bindings || RuntimeTaken(t, b.child, b.admission) then Err(InvalidLifecycleTransition)
    else Ok(db.(custody := t.(bindings := t.bindings[o := b], state := t.state[o := Bound])))
  }

  /** The checks both ways of binding share, in their order. */
  function BindRefusal(outside: Outside, db: Tables, o: Id, child: Id, admission: Id): (r: Option<Rejection>)
    ensures r.None? ==> admission in outside.admissions
  {
    if o in db.custody.bindings then Some(InvalidLifecycleTransition)
    else if child !in outside.children then Some(SubjectNotFound)
    else if outside.children[child].admission != admission || outside.children[child].state == Finalized then Some(InvalidLifecycleTransition)
    else if admission !in outside.admissions then Some(SubjectNotFound)
    else None
  }

  function BindOffice(outside: Outside, db: Tables, o: Id, office: Id, child: Id, admission: Id): (r: Change)
    ensures r.Ok? ==> r.value.0 == db.(custody := r.value.0.custody)
  {
    if o !in db.actors.roster.rows then Err(SubjectNotFound)
    else if db.actors.state[o] != Active then Err(InvalidLifecycleTransition)
    else
      var refusal := BindRefusal(outside, db, o, child, admission);
      if refusal.Some? then Err(refusal.value)
      else
        var a := outside.admissions[admission];
        if a.office != Some(office) || a.profile.None? then Err(InvalidLifecycleTransition)
        else match Bind(db, o, Binding(OfficeSession(office), child, admission, a.profile.value))
          case Err(r) => Err(r)
          case Ok(bound) => Ok((bound, ActorRuntimeBound(o, office, child, admission, a.profile.value)))
  }

  function BindAttempt(outside: Outside, db: Tables, o: Id, attempt: Id, child: Id, admission: Id): (r: Change)
    ensures r.Ok? ==> r.value.0 == db.(custody := r.value.0.custody)
  {
    if o !in db.actors.roster.rows || db.actors.state[o] != Active then Err(InvalidLifecycleTransition)
    else
      var refusal := BindRefusal(outside, db, o, child, admission);
      if refusal.Some? then Err(refusal.value)
      else
        var a := outside.admissions[admission];
        if a.attempt != Some(attempt) || a.office.Some? then Err(InvalidLifecycleTransition)
        else if a.profile.None? then Err(InvalidLifecycleTransition)
        else if attempt !in outside.attempts then Err(SubjectNotFound)
        else if outside.attempts[attempt].state != AttemptRunning || outside.attempts[attempt].profile != a.profile.value
        then Err(InvalidLifecycleTransition)
        else match Bind(db, o, Binding(TaskAttempt(attempt), child, admission, a.profile.value))
          case Err(r) => Err(r)
          case Ok(bound) => Ok((bound, ActorTaskAttemptRuntimeBound(o, attempt, child, admission, a.profile.value)))
  }

  function ReconcileRuntime(outside: Outside, db: Tables, o: Id, child: Id): (r: Change)
    ensures r.Ok? ==> r.value.0 == db.(custody := r.value.0.custody)
  {
    var t := db.custody;
    if o !in t.bindings then Err(SubjectNotFound)
    else if t.bindings[o].child != child || t.state[o] != Bound || child !in outside.children || outside.children[child].state != Finalized
    then Err(ChildLifecycleReceiptMissing)
    else Ok((db.(custody := t.(state := t.state[o := Reconciled])), ActorRuntimeReconciled(o, child)))
  }

  /** The child's recovery receipt proves its whole process group absent after the restart. */
  predicate ProvenAbsent(outside: Outside, receipt: Id, child: Id) {
    && receipt in outside.recoveries && outside.recoveries[receipt].child == child && child in outside.children
    && outside.recoveries[receipt].parentageLost && outside.recoveries[receipt].groupAbsent
    && outside.children[child].state == LostParentage
  }

  predicate AttemptSettled(t: Custody, attempt: Id) {
    exists o :: o in t.settlements && t.settlements[o].attempt == attempt
  }

  predicate RecoveryUsed(t: Custody, child: Id, receipt: Id) {
    exists o :: o in t.settlements && (t.settlements[o].child == child || t.settlements[o].recoveryReceipt == receipt)
  }

  /** The one command that also writes outside the study tables: the attempt and its terminal fact. */
  function SettleRecovery(outside: Outside, db: Tables, o: Id, attempt: Id, child: Id, receipt: Id)
    : Result<(Store, StudyEvent), Rejection>
  {
    var t := db.custody;
    if o !in db.actors.roster.rows || db.actors.state[o] != Active then Err(InvalidLifecycleTransition)
    else if o !in t.bindings then Err(SubjectNotFound)
    else if t.bindings[o].owner != TaskAttempt(attempt) || t.bindings[o].child != child || t.state[o] != Bound then Err(InvalidLifecycleTransition)
    else if !ProvenAbsent(outside, receipt, child) then Err(ChildLifecycleReceiptMissing)
    else if attempt !in outside.attempts then Err(InvalidLifecycleTransition)
    else if outside.attempts[attempt].state != AttemptRunning && outside.attempts[attempt].state != CancellationRequested
    then Err(InvalidLifecycleTransition)
    else if attempt in outside.terminalReceipts || AttemptSettled(t, attempt) then Err(InvalidLifecycleTransition)
    else if o in t.settlements || RecoveryUsed(t, child, receipt) || attempt in outside.terminalFacts then Err(InvalidLifecycleTransition)
    else
      Ok((Store(
            db.(custody := t.(settlements := t.settlements[o := Settlement(attempt, child, receipt)], state := t.state[o := RecoverySettled])),
            outside.(attempts := outside.attempts[attempt := outside.attempts[attempt].(state := SupervisorFailed)],
                     terminalFacts := outside.terminalFacts + {attempt})),
          ActorTaskAttemptRecoverySettled(o, attempt, child, receipt, Unknown)))
  }

  // ---------- freeze, replacement, exposure ----------

  predicate AllTerminal(r: Roster, state: map<Id, ObligationState>, e: Id)
    requires state.Keys == r.rows.Keys
  {
    forall o :: o in r.rows && r.rows[o].episode == e ==> state[o] != Active
  }

  predicate SourcesTerminal(r: Roster, state: map<Id, ObligationState>, e: Id)
    requires state.Keys == r.rows.Keys
  {
    forall o :: o in r.rows && r.rows[o].episode == e && r.rows[o].phase == Source ==> state[o] != Active
  }

  /** The thread belongs to the episode's forum. */
  predicate ThreadOfEpisode(t: Places, thread: Id, e: Id) {
    thread in t.threads && t.forums[t.threads[thread].forum].episode == e
  }

  function Freeze(db: Tables, e: Id, thread: Id): Change {
    var t := db.episodes;
    if e !in t.rows then Err(SubjectNotFound)
    else if t.state[e] != SourceActive then Err(InvalidLifecycleTransition)
    else if !SourcesTerminal(db.actors.roster, db.actors.state, e) then Err(InvalidLifecycleTransition)
    else if !ThreadOfEpisode(db.forum.places, thread, e) then Err(SubjectNotFound)
    else
      var head := db.forum.heads[thread];
      if e in t.frozen then Err(InvalidLifecycleTransition)
      else
        Ok((db.(episodes := t.(frozen := t.frozen[e := FrozenHead(thread, head)])), ForumHeadFrozen(e, thread, head)))
  }

  function Replace(db: Tables, e: Id, successor: Id): Change {
    var t := db.episodes;
    var d := db.design;
    if e !in t.rows then Err(SubjectNotFound)
    else if t.state[e] != SourceActive || e !in t.frozen then Err(InvalidLifecycleTransition)
    else if !SourcesTerminal(db.actors.roster, db.actors.state, e) then Err(InvalidLifecycleTransition)
    else if t.rows[e].population !in d.populations || successor !in d.populations then Err(SubjectNotFound)
    else if successor == t.rows[e].population || d.populations[successor] != d.populations[t.rows[e].population]
    then Err(InvalidLifecycleTransition)
    else if e in t.successors then Err(InvalidLifecycleTransition)
    else
      Ok((db.(episodes := SetState(t.(successors := t.successors[e := successor]), e, SourceReconciled)),
          PopulationReplaced(e, successor)))
  }

  /** Where an obligation's window must start: everything, or only what follows the frozen head. */
  function WindowStart(t: Episodes, e: Id, phase: PopulationPhase): Option<int> {
    match phase
    case Source => Some(1)
    case Successor =>
      if e !in t.frozen || e !in t.treatments then None
      else if t.treatments[e].treatment == Retained then Some(1)
      else Some(t.frozen[e].head + 1)
  }

  /** A new window ends at the current head. */
  function OpenWindow(f: Forums, o: Id, x: Exposure): Forums
    requires x.forum in f.places.threadOf
  {
    f.(exposures := f.exposures[o := x], through := f.through[o := f.heads[f.places.threadOf[x.forum]]])
  }

  function Expose(db: Tables, o: Id, forum: Id, visibleFrom: I64, id: Id): (r: Change)
    ensures r.Ok? ==> r.value.0 == db.(forum := r.value.0.forum)
  {
    var f := db.forum;
    if o !in db.actors.roster.rows then Err(SubjectNotFound)
    else if db.actors.state[o] != Active || visibleFrom <= 0 then Err(InvalidLifecycleTransition)
    else if forum !in f.places.threadOf then Err(SubjectNotFound)
    else
      var row := db.actors.roster.rows[o];
      var head := f.heads[f.places.threadOf[forum]];
      if f.places.forums[forum].episode != row.episode then Err(SubjectNotFound)
      else if WindowStart(db.episodes, row.episode, row.phase) != Some(visibleFrom) then Err(InvalidLifecycleTransition)
      else if o in f.exposures || ExposureTaken(f, id) then Err(InvalidLifecycleTransition)
      else
        Ok((db.(forum := OpenWindow(f, o, Exposure(id, forum, visibleFrom))),
            ForumExposureAdmitted(id, o, visibleFrom, head)))
  }

  predicate ExposureTaken(f: Forums, id: Id) {
    exists o :: o in f.exposures && f.exposures[o].id == id
  }

  // ---------- messages ----------

  /** A relation may only name an earlier message of the same thread, inside the actor's own window. */
  predicate TargetAllowed(f: Forums, o: Id, target: Id, thread: Id, ordinal: int) {
    && target in f.messages && f.messages[target].thread == thread && f.messages[target].ordinal < ordinal
    && o in f.exposures
    && f.places.threads[thread].forum == f.exposures[o].forum
    && f.exposures[o].from <= f.messages[target].ordinal <= f.through[o]
  }

  /** The ends of all windows once a forum has a message of this ordinal. */
  function Advance(exposures: map<Id, Exposure>, through: map<Id, Ordinal>, forum: Id, ordinal: Ordinal): (r: map<Id, Ordinal>)
    requires through.Keys == exposures.Keys
    ensures r.Keys == through.Keys
  {
    map o | o in through ::
      if exposures[o].forum == forum && exposures[o].from <= ordinal then ordinal else through[o]
  }

  /** Appending moves the head and the end of every window of the forum that has begun. */
  function Append(f: Forums, id: Id, m: Message): (r: Forums)
    requires id !in f.messages && m.thread in f.places.threads
  {
    f.(messages := f.messages[id := m],
       publication := f.publication[id := Published],
       heads := f.heads[m.thread := m.ordinal],
       through := Advance(f.exposures, f.through, f.places.threads[m.thread].forum, m.ordinal))
  }

  predicate MayPost(state: EpisodeState, phase: PopulationPhase) {
    match phase
    case Source => state == SourceActive
    case Successor => state == CorrectionReleased || state == SuccessorActive
  }

  function CountPost(a: Actors, o: Id): Actors
    requires o in a.roster.rows
  {
    a.(postsUsed := a.postsUsed[o := a.postsUsed[o] + 1])
  }

  /** Why an actor may not post at all, in the order of the checks. */
  function PostRefusal(db: Tables, o: Id): (r: Option<Rejection>)
    ensures r.None? ==> o in db.actors.roster.rows && db.actors.roster.rows[o].episode in db.episodes.rows && o in db.forum.exposures
    ensures r.None? ==> db.forum.heads[db.forum.places.threadOf[db.forum.exposures[o].forum]] < MAX_I64
  {
    var a := db.actors;
    var f := db.forum;
    if o !in a.roster.rows then Some(SubjectNotFound)
    else if a.state[o] != Active then Some(CapabilityNoLongerActive)
    else if a.postsUsed[o] >= a.roster.rows[o].postBudget then Some(BudgetPolicyViolation)
    else
      var e := a.roster.rows[o].episode;
      var phase := a.roster.rows[o].phase;
      if e !in db.episodes.rows then Some(SubjectNotFound)
      else if !MayPost(db.episodes.state[e], phase) || (phase == Source && e in db.episodes.frozen) then Some(InvalidLifecycleTransition)
      else if o !in f.exposures then Some(SubjectNotFound)
      else if f.heads[f.places.threadOf[f.exposures[o].forum]] == MAX_I64 then Some(InvalidLifecycleTransition)
      else None
  }

  predicate RelationsAllowed(f: Forums, o: Id, targets: seq<Option<Id>>, thread: Id, ordinal: int) {
    forall t :: t in targets && t.Some? ==> TargetAllowed(f, o, t.value, thread, ordinal)
  }

  /** The first message a successor publishes starts the successor phase. */
  function AfterPost(t: Episodes, e: Id, phase: PopulationPhase): Episodes
    requires e in t.rows
  {
    if phase == Successor && t.state[e] == CorrectionReleased then SetState(t, e, SuccessorActive) else t
  }

  function Publish(hashes: Hashes, db: Tables, c: StudyCommand, id: Id): Change
    requires c.PublishForumMessage?
  {
    var o := c.obligation;
    var f := db.forum;
    var refusal := PostRefusal(db, o);
    if refusal.Some? then Err(refusal.value)
    else
      var thread := f.places.threadOf[f.exposures[o].forum];
      var ordinal := f.heads[thread] + 1;
      if !RelationsAllowed(f, o, [c.inReplyTo, c.supersedes], thread, ordinal) then Err(SubjectNotFound)
      else if id in f.messages then Err(InvalidLifecycleTransition)
      else
        var row := db.actors.roster.rows[o];
        var occurrence := db.actors.roster.occurrenceOf[o];
        var m := Message(thread, ordinal, Some(occurrence), c.kind, c.inReplyTo, c.supersedes, c.body);
        Ok((db.(forum := Append(f, id, m), actors := CountPost(db.actors, o), episodes := AfterPost(db.episodes, row.episode, row.phase)),
            ForumMessagePublished(id, thread, ordinal, occurrence, c.kind, hashes.digest(c.body))))
  }

  function Withdraw(f: Forums, message: Id): (r: Forums)
    requires message in f.messages
  {
    f.(publication := f.publication[message := Retracted])
  }

  function Retract(db: Tables, o: Id, message: Id): (r: Change)
    ensures r.Ok? ==> r.value.0 == db.(forum := r.value.0.forum)
  {
    var a := db.actors;
    var f := db.forum;
    if o !in a.roster.rows then Err(SubjectNotFound)
    else if a.state[o] != Active then Err(CapabilityNoLongerActive)
    else if message !in f.messages then Err(SubjectNotFound)
    else
      var e := a.roster.rows[o].episode;
      var m := f.messages[message];
      if m.author != Some(a.roster.occurrenceOf[o]) || !ThreadOfEpisode(f.places, m.thread, e) || f.publication[message] != Published
      then Err(InvalidLifecycleTransition)
      else if e !in db.episodes.rows then Err(SubjectNotFound)
      else if !MayPost(db.episodes.state[e], a.roster.rows[o].phase) then Err(CapabilityNoLongerActive)
      else
        Ok((db.(forum := Withdraw(f, message)), ForumMessageRetracted(message, o)))
  }

  /** The active successors of an episode that have been exposed to its forum. */
  function ReadySuccessors(db: Tables, e: Id): set<Id> {
    set o | o in db.actors.roster.rows && db.actors.roster.rows[o].episode == e && db.actors.roster.rows[o].phase == Successor
            && db.actors.state[o] == Active && o in db.forum.exposures
  }

  /** One arm of a matched release. */
  function ReleaseArm(db: Tables, e: Id, thread: Id, body: MessageBody, id: Id): Result<Tables, Rejection> {
    var t := db.episodes;
    var f := db.forum;
    if e !in t.rows then Err(SubjectNotFound)
    else if t.state[e] != SuccessorAdmitted then Err(InvalidLifecycleTransition)
    else if !ThreadOfEpisode(f.places, thread, e) then Err(SubjectNotFound)
    else if e !in t.successors || t.successors[e] !in db.design.populations then Err(SubjectNotFound)
    else if |ReadySuccessors(db, e)| != db.design.populations[t.successors[e]].size then Err(InvalidLifecycleTransition)
    else
      if f.heads[thread] == MAX_I64 || id in f.messages then Err(InvalidLifecycleTransition)
      else
        var ordinal := f.heads[thread] + 1;
        Ok(db.(forum := Append(f, id, Message(thread, ordinal, None, Correction, None, None, body)),
               episodes := SetState(t, e, CorrectionReleased)))
  }

  function Release(hashes: Hashes, db: Tables, c: StudyCommand, ids: Fresh): Change
    requires c.ReleaseMatchedCorrection?
  {
    var t := db.episodes;
    if c.pair !in db.pairs.rows then Err(SubjectNotFound)
    else
      var p := db.pairs.rows[c.pair];
      if p.retained !in t.rows || t.rows[p.retained].protocol !in db.design.protocols then Err(SubjectNotFound)
      else if db.design.protocols[t.rows[p.retained].protocol].correctionDigest != hashes.digest(c.correction)
      then Err(InvalidLifecycleTransition)
      else match ReleaseArm(db, p.retained, c.retainedThread, c.correction, ids.first)
        case Err(r) => Err(r)
        case Ok(half) =>
          match ReleaseArm(half, p.reset, c.resetThread, c.correction, ids.second)
          case Err(r) => Err(r)
          case Ok(both) =>
            Ok((both, MatchedCorrectionReleased(c.pair, ids.first, ids.second, hashes.digest(c.correction))))
  }

  // ---------- reads and decisions ----------

  const FORUM_READ_MAX_MESSAGES: int := 64

  /** The thread an actor may read this range of, or why not. */
  function ReadableThread(db: Tables, o: Id, first: int, through: int): (r: Result<Id, Rejection>)
    ensures r.Ok? ==> o in db.actors.roster.rows
  {
    var a := db.actors;
    var f := db.forum;
    if o !in a.roster.rows then Err(SubjectNotFound)
    else if a.state[o] != Active || first <= 0 || through < first || through - first >= FORUM_READ_MAX_MESSAGES
         || a.readsUsed[o] >= a.roster.rows[o].readBudget
    then Err(InvalidLifecycleTransition)
    else if a.roster.rows[o].episode !in db.episodes.rows then Err(SubjectNotFound)
    else if a.roster.rows[o].phase == Successor && !MayPost(db.episodes.state[a.roster.rows[o].episode], Successor) then Err(InvalidLifecycleTransition)
    else if o !in f.exposures then Err(SubjectNotFound)
    else
      var x := f.exposures[o];
      if f.state[x.forum] == Shut || first < x.from || through > f.through[o] then Err(SubjectNotFound)
      else Ok(f.places.threadOf[x.forum])
  }

  function Slice(f: Forums, thread: Id, first: int, through: int): map<Id, (Message, Publication)> {
    map m | m in f.messages && f.messages[m].thread == thread && first <= f.messages[m].ordinal <= through
      :: (f.messages[m], f.publication[m])
  }

  function Deliver(f: Forums, id: Id, r: Receipt): Forums {
    f.(receipts := f.receipts[id := r])
  }

  function CountRead(a: Actors, o: Id): Actors
    requires o in a.roster.rows
  {
    a.(readsUsed := a.readsUsed[o := a.readsUsed[o] + 1])
  }

  function Read(hashes: Hashes, outside: Outside, db: Tables, c: StudyCommand, id: Id): (r: Change)
    requires c.ReadForum?
    ensures r.Ok? ==> r.value.0 == db.(forum := r.value.0.forum, actors := r.value.0.actors)
  {
    var a := db.actors;
    var f := db.forum;
    match ReadableThread(db, c.obligation, c.first, c.through)
    case Err(r) => Err(r)
    case Ok(thread) =>
      var digest := hashes.digest(hashes.render(thread, c.first, c.through, Slice(f, thread, c.first, c.through)));
      if c.renderedObject !in outside.sealed || outside.sealed[c.renderedObject] != digest then Err(ContentObjectNotSealed)
      else if id in f.receipts then Err(InvalidLifecycleTransition)
      else
        Ok((db.(forum := Deliver(f, id, Receipt(c.obligation, thread, c.first, c.through, c.renderedObject)),
                actors := CountRead(a, c.obligation)),
            ForumMessagesRead(id, c.obligation, thread, c.first, c.through, digest, c.renderedObject)))
  }

  /** The message is this obligation's own and still published. */
  predicate OwnPublished(db: Tables, o: Id, message: Id)
    requires o in db.actors.roster.rows
  {
    && message in db.forum.messages && db.forum.messages[message].author == Some(db.actors.roster.occurrenceOf[o])
    && db.forum.publication[message] == Published
  }

  /** The reads of this obligation that returned the message. */
  function CoveringReads(f: Forums, o: Id, message: Id): set<Id>
    requires message in f.messages
  {
    set r | r in f.receipts && f.receipts[r].obligation == o && f.receipts[r].thread == f.messages[message].thread
            && f.receipts[r].first <= f.messages[message].ordinal <= f.receipts[r].through
  }

  function Decide(db: Tables, o: Id, decision: DecisionBody, cited: Option<Id>): (r: Change)
    ensures r.Ok? ==> r.value.0 == db.(outcomes := r.value.0.outcomes)
  {
    if o !in db.actors.roster.rows then Err(SubjectNotFound)
    else if db.actors.state[o] == Failed then Err(InvalidLifecycleTransition)
    else
      var own := cited.Some? && OwnPublished(db, o, cited.value);
      if db.actors.state[o] == Done && !own then Err(InvalidLifecycleTransition)
      else if cited.Some? && !own && (cited.value !in db.forum.messages || |CoveringReads(db.forum, o, cited.value)| != 1)
      then Err(SubjectNotFound)
      else if o in db.outcomes.decisions then Err(InvalidLifecycleTransition)
      else
        Ok((db.(outcomes := db.outcomes.(decisions := db.outcomes.decisions[o := DecisionRow(decision, cited)])), DecisionRecorded(o)))
  }

  // ---------- closing ----------

  predicate AfterCorrection(state: EpisodeState) {
    state == CorrectionReleased || state == SuccessorActive
  }

  function RevealTruth(hashes: Hashes, db: Tables, e: Id, truth: Reveal): (r: Change)
    ensures r.Ok? ==> r.value.0 == db.(outcomes := r.value.0.outcomes)
  {
    var t := db.episodes;
    if e !in t.rows then Err(SubjectNotFound)
    else if !AfterCorrection(t.state[e]) || !AllTerminal(db.actors.roster, db.actors.state, e) then Err(InvalidLifecycleTransition)
    else if t.rows[e].protocol !in db.design.protocols then Err(SubjectNotFound)
    else if db.design.protocols[t.rows[e].protocol].commitment != hashes.digest(truth) then Err(InvalidLifecycleTransition)
    else if e in db.outcomes.revealed then Err(InvalidLifecycleTransition)
    else
      Ok((db.(outcomes := db.outcomes.(revealed := db.outcomes.revealed[e := truth])), GroundTruthRevealed(e, hashes.digest(truth))))
  }

  /** `measurement_result_shape_valid`. */
  predicate WellShaped(r: ResultRow) {
    if r.status == Observed then r.observed.Some? && r.valueDigest.Some? && r.reasonDigest.None?
    else r.observed.None? && r.valueDigest.None? && r.reasonDigest.Some?
  }

  function Measure(db: Tables, e: Id, slot: Slot, x: ResultRow): (r: Change)
    ensures r.Ok? ==> r.value.0 == db.(outcomes := r.value.0.outcomes)
  {
    var t := db.episodes;
    if e !in t.rows || t.rows[e].measurement !in db.design.measurements then Err(SubjectNotFound)
    else if !AfterCorrection(t.state[e]) || !AllTerminal(db.actors.roster, db.actors.state, e) || e !in db.outcomes.revealed
         || slot > db.design.measurements[t.rows[e].measurement].slotCount || !WellShaped(x)
    then Err(InvalidLifecycleTransition)
    else if (e, slot) in db.outcomes.results || ResultTaken(db.outcomes, x.id) then Err(InvalidLifecycleTransition)
    else
      Ok((db.(outcomes := db.outcomes.(results := db.outcomes.results[(e, slot) := x])), MeasurementResultRecorded(x.id, e, x.status)))
  }

  predicate ResultTaken(t: Outcomes, id: Id) {
    exists k :: k in t.results && t.results[k].id == id
  }

  /** The slots of an episode that hold a result. */
  function RecordedSlots(t: Outcomes, e: Id): set<int> {
    set k | k in t.results && k.0 == e :: k.1
  }

  /** A column of the obligations of one episode. */
  function ColumnOf(t: Roster, column: map<Id, nat>, e: Id): map<int, nat>
    requires column.Keys == t.rows.Keys
  {
    map o: int | o in t.rows && t.rows[o].episode == e :: column[o]
  }

  function ShutForum(f: Forums, e: Id): Forums {
    if e in f.places.forumOf then f.(state := f.state[f.places.forumOf[e] := Shut]) else f
  }

  function Close(db: Tables, e: Id): Change {
    var t := db.episodes;
    if e !in t.rows then Err(SubjectNotFound)
    else if !AfterCorrection(t.state[e]) then Err(InvalidLifecycleTransition)
    else if !AllTerminal(db.actors.roster, db.actors.state, e) then Err(InvalidLifecycleTransition)
    else if t.rows[e].measurement !in db.design.measurements then Err(SubjectNotFound)
    else if |RecordedSlots(db.outcomes, e)| != db.design.measurements[t.rows[e].measurement].slotCount then Err(InvalidLifecycleTransition)
    else
      var charges := ColumnOf(db.actors.roster, db.actors.charged, e);
      if charges == map[] || t.rows[e].protocol !in db.design.protocols then Err(SubjectNotFound)
      else if Sum(charges) > db.design.protocols[t.rows[e].protocol].episodeBudget then Err(BudgetCeilingExceeded)
      else
        var f := db.forum;
        Ok((db.(forum := ShutForum(f, e),
                episodes := SetState(t, e, Closed)),
            EpisodeClosed(e)))
  }

  /** "study-fork-v1" in ASCII. */
  const FORK_TAG: seq<Byte> := [115, 116, 117, 100, 121, 45, 102, 111, 114, 107, 45, 118, 49]

  function ForkSeed(randomization: Digest, treatment: Treatment): seq<Byte> {
    randomization + FORK_TAG + [0, 0, 0, 0, 0, 0, 0, if treatment == Retained then 1 else 2]
  }

  function ForkOf(hashes: Hashes, db: Tables, source: Id, delta: Treatment, ids: Fresh): Change {
    var t := db.episodes;
    if source !in t.rows then Err(SubjectNotFound)
    else if t.state[source] != Closed then Err(InvalidLifecycleTransition)
    else if source !in t.treatments then Err(SubjectNotFound)
    else if t.treatments[source].treatment == delta then Err(InvalidLifecycleTransition)
    else if ids.first in t.rows || Assigned(db, ids.second) || ids.third in t.forks then Err(InvalidLifecycleTransition)
    else
      var row := t.rows[source].(randomization := hashes.digest(ForkSeed(t.rows[source].randomization, delta)));
      var u := InsertEpisode(t, ids.first, row);
      Ok((db.(episodes := u.(treatments := u.treatments[ids.first := Assignment(ids.second, delta)],
                             forks := u.forks[ids.third := Fork(source, ids.first, delta)])),
          ExperimentalForkCreated(ids.third, ids.first, source, delta)))
  }

  // ---------- dispatch ----------

  /** `apply` for every command that leaves the other kernel tables alone. */
  function Transition(hashes: Hashes, outside: Outside, db: Tables, c: StudyCommand, ids: Fresh): Change
    requires !c.SettleActorTaskAttemptAfterRecovery?
  {
    match c
    case AdmitProtocolRevision(_, _, _, _, _, _, _, _, _, _) => AdmitProtocol(hashes, outside, db, c, ids.first)
    case AdmitWorldRevision(protocol, digest) => AdmitWorld(db, protocol, digest, ids.first)
    case AdmitMeasurementRevision(protocol, analysis, slots) => AdmitMeasurement(db, protocol, analysis, slots, ids.first)
    case AdmitInstitutionRevision(protocol, digest) => AdmitInstitution(db, protocol, digest, ids.first)
    case AdmitPopulationSnapshot(protocol, digest, size) => AdmitPopulation(db, protocol, digest, size, ids.first)
    case AdmitEpisode(protocol, world, measurement, institution, population, randomization) =>
      AdmitEpisodeRow(db, Episode(protocol, world, measurement, institution, population, randomization), ids.first)
    case AssignTreatment(e, treatment) => AssignTreatmentTo(db, e, treatment, ids.first)
    case AdmitMatchedPair(retained, reset) => AdmitPair(db, retained, reset, ids.first)
    case AdmitStudyRun(protocol, plan, digest, pairs) => AdmitRun(outside, db, RunRow(protocol, plan, digest, pairs), ids.first)
    case RegisterStudyRunPair(run, ordinal, pair, randomization) => RegisterPair(db, run, ordinal, pair, randomization)
    case StartStudyRun(run) => StartRun(db, run)
    case CompleteStudyRun(run) => CompleteRun(db, run)
    case CreateEpisodeForum(e, charter) => CreateForum(db, e, charter, ids.first)
    case OpenForumThread(forum, title) => OpenThread(db, forum, title, ids.first)
    case AdmitActorObligation(_, _, _, _, _, _, _, _, _) => AdmitObligation(db, c, ids)
    case CompleteActorObligation(o, charge) => CompleteObligation(db, o, charge)
    case FailActorObligation(o, reason) => FailObligation(db, o, reason)
    case BindActorRuntime(o, office, child, admission) => BindOffice(outside, db, o, office, child, admission)
    case BindActorTaskAttemptRuntime(o, attempt, child, admission) => BindAttempt(outside, db, o, attempt, child, admission)
    case ReconcileActorRuntime(o, child) => ReconcileRuntime(outside, db, o, child)
    case FreezeForumHead(e, thread) => Freeze(db, e, thread)
    case ReplacePopulation(e, successor) => Replace(db, e, successor)
    case AdmitForumExposure(o, forum, visibleFrom) => Expose(db, o, forum, visibleFrom, ids.first)
    case PublishForumMessage(_, _, _, _, _) => Publish(hashes, db, c, ids.first)
    case RetractForumMessage(o, message) => Retract(db, o, message)
    case ReleaseMatchedCorrection(_, _, _, _) => Release(hashes, db, c, ids)
    case ReadForum(_, _, _, _) => Read(hashes, outside, db, c, ids.first)
    case RecordDecision(o, decision, cited) => Decide(db, o, decision, cited)
    case RevealGroundTruth(e, truth) => RevealTruth(hashes, db, e, truth)
    case RecordMeasurementResult(e, slot, status, observed, value, reason) =>
      Measure(db, e, slot, ResultRow(ids.first, status, observed, value, reason))
    case CloseEpisode(e) => Close(db, e)
    case ForkEpisode(source, delta) => ForkOf(hashes, db, source, delta, ids)
  }

  function Apply(hashes: Hashes, s: Store, c: StudyCommand, ids: Fresh): Result<(Store, StudyEvent), Rejection> {
    if c.SettleActorTaskAttemptAfterRecovery? then
      SettleRecovery(s.outside, s.tables, c.obligation, c.attempt, c.child, c.recoveryReceipt)
    else match Transition(hashes, s.outside, s.tables, c, ids)
      case Err(r) => Err(r)
      case Ok((tables, event)) => Ok((Store(tables, s.outside), event))
  }

  // ---------- runs of the control plane ----------

  /** A study command, or any change other parts of the kernel make to their own tables. */
  datatype Step = Command(command: StudyCommand, ids: Fresh) | Elsewhere(outside: Outside)

  function Next(hashes: Hashes, s: Store, step: Step): Store {
    match step
    case Command(c, ids) =>
      (match Apply(hashes, s, c, ids)
       case Ok((t, _)) => t
       case Err(_) => s)
    case Elsewhere(outside) => s.(outside := outside)
  }

  ghost function Execute(hashes: Hashes, outside: Outside, steps: seq<Step>): Store {
    if steps == [] then Store(EMPTY, outside)
    else Next(hashes, Execute(hashes, outside, steps[..|steps| - 1]), steps[|steps| - 1])
  }
}
