/**
 * The tables of the study control plane as finite maps. A row's immutable columns are one record; each
 * column a transition rewrites is a map of its own, so what a command leaves alone is plain to see.
 * A UNIQUE constraint that is also used for look-ups is an index map next to its table.
 */
module StudyTables {
  import opened Wrappers
  import opened StudyVocabulary

  // ---------- study design: insert-only ----------

  datatype Protocol = Protocol(promptDigest: Digest, toolDigest: Digest, commitment: Digest, correctionDigest: Digest, episodeBudget: BudgetUnits)
  datatype World = World(protocol: Id, digest: Digest)
  datatype Measurement = Measurement(protocol: Id, analysisDigest: Digest, slotCount: SlotCount)
  datatype Institution = Institution(protocol: Id, digest: Digest)
  datatype Population = Population(protocol: Id, digest: Digest, size: int)

  datatype Design = Design(
    protocols: map<Id, Protocol>,
    worlds: map<Id, World>,
    measurements: map<Id, Measurement>,
    institutions: map<Id, Institution>,
    populations: map<Id, Population>)

  // ---------- episodes ----------

  datatype Episode = Episode(protocol: Id, world: Id, measurement: Id, institution: Id, population: Id, randomization: Digest)
  datatype Assignment = Assignment(id: Id, treatment: Treatment)
  datatype Pair = Pair(retained: Id, reset: Id)
  datatype FrozenHead = FrozenHead(thread: Id, head: Ordinal)
  datatype Fork = Fork(source: Id, forked: Id, treatmentDelta: Treatment)

  /** Treatments, successor populations and frozen heads are unique per episode. */
  datatype EpisodeTable = EpisodeTable(
    rows: map<Id, Episode>,
    state: map<Id, EpisodeState>,
    treatments: map<Id, Assignment>,
    successors: map<Id, Id>,
    frozen: map<Id, FrozenHead>,
    forks: map<Id, Fork>)

  predicate EpisodesAligned(t: EpisodeTable) {
    && t.state.Keys == t.rows.Keys
    && t.treatments.Keys <= t.rows.Keys && t.successors.Keys <= t.rows.Keys && t.frozen.Keys <= t.rows.Keys
  }

  const NO_EPISODES := EpisodeTable(map[], map[], map[], map[], map[], map[])
  type Episodes = t: EpisodeTable | EpisodesAligned(t) witness NO_EPISODES

  /** An episode is the retained arm of at most one pair and the reset arm of at most one. */
  datatype PairTable = PairTable(rows: map<Id, Pair>, retainedIn: map<Id, Id>, resetIn: map<Id, Id>)

  predicate PairsAligned(t: PairTable) {
    && (forall p :: p in t.rows ==>
          && t.rows[p].retained in t.retainedIn && t.retainedIn[t.rows[p].retained] == p
          && t.rows[p].reset in t.resetIn && t.resetIn[t.rows[p].reset] == p)
    && (forall e :: e in t.retainedIn ==> t.retainedIn[e] in t.rows && t.rows[t.retainedIn[e]].retained == e)
    && (forall e :: e in t.resetIn ==> t.resetIn[e] in t.rows && t.rows[t.resetIn[e]].reset == e)
  }

  const NO_PAIRS := PairTable(map[], map[], map[])
  type Pairs = t: PairTable | PairsAligned(t) witness NO_PAIRS

  // ---------- actors ----------

  datatype Obligation = Obligation(
    episode: Id, population: Id, phase: PopulationPhase, role: RoleOrdinal, budget: BudgetUnits, readBudget: ForumBudget, postBudget: ForumBudget)

  /** Every occurrence belongs to one obligation and the other way round. */
  datatype RosterTable = RosterTable(rows: map<Id, Obligation>, occurrences: map<Id, Id>, occurrenceOf: map<Id, Id>)

  predicate RosterAligned(t: RosterTable) {
    && t.occurrenceOf.Keys == t.rows.Keys
    && (forall o :: o in t.occurrenceOf ==> t.occurrenceOf[o] in t.occurrences && t.occurrences[t.occurrenceOf[o]] == o)
    && (forall c :: c in t.occurrences ==> t.occurrences[c] in t.occurrenceOf && t.occurrenceOf[t.occurrences[c]] == c)
  }

  const NO_ROSTER := RosterTable(map[], map[], map[])
  type Roster = t: RosterTable | RosterAligned(t) witness NO_ROSTER

  datatype ActorTable = ActorTable(
    roster: Roster,
    state: map<Id, ObligationState>,
    charged: map<Id, nat>,
    readsUsed: map<Id, nat>,
    postsUsed: map<Id, nat>)

  predicate ActorsAligned(t: ActorTable) {
    && t.state.Keys == t.roster.rows.Keys && t.charged.Keys == t.roster.rows.Keys
    && t.readsUsed.Keys == t.roster.rows.Keys && t.postsUsed.Keys == t.roster.rows.Keys
  }

  const NO_ACTORS := ActorTable(NO_ROSTER, map[], map[], map[], map[])
  type Actors = t: ActorTable | ActorsAligned(t) witness NO_ACTORS

  // ---------- the forum ----------

  datatype ForumRow = ForumRow(episode: Id, charter: Digest)
  datatype Thread = Thread(forum: Id, title: Title)
  datatype Exposure = Exposure(id: Id, forum: Id, from: int)
  datatype Message = Message(
    thread: Id, ordinal: Ordinal, author: Option<Id>, kind: MessageKind, inReplyTo: Option<Id>, supersedes: Option<Id>, body: MessageBody)
  datatype Receipt = Receipt(obligation: Id, thread: Id, first: int, through: int, renderedObject: Id)

  /** One forum per episode, one thread per forum. */
  datatype PlaceTable = PlaceTable(
    forums: map<Id, ForumRow>, forumOf: map<Id, Id>, threads: map<Id, Thread>, threadOf: map<Id, Id>)

  predicate ForumsIndexed(forums: map<Id, ForumRow>, forumOf: map<Id, Id>) {
    && (forall f :: f in forums ==> forums[f].episode in forumOf && forumOf[forums[f].episode] == f)
    && (forall e :: e in forumOf ==> forumOf[e] in forums && forums[forumOf[e]].episode == e)
  }

  predicate ThreadsIndexed(threads: map<Id, Thread>, threadOf: map<Id, Id>) {
    && (forall d :: d in threads ==> threads[d].forum in threadOf && threadOf[threads[d].forum] == d)
    && (forall f :: f in threadOf ==> threadOf[f] in threads && threads[threadOf[f]].forum == f)
  }

  predicate PlacesAligned(t: PlaceTable) {
    ForumsIndexed(t.forums, t.forumOf) && ThreadsIndexed(t.threads, t.threadOf) && t.threadOf.Keys <= t.forums.Keys
  }

  const NO_PLACES := PlaceTable(map[], map[], map[], map[])
  type Places = t: PlaceTable | PlacesAligned(t) witness NO_PLACES

  /** One exposure per obligation. A message without an author occurrence is of service origin. */
  datatype ForumTable = ForumTable(
    places: Places,
    state: map<Id, ForumState>,
    heads: map<Id, Ordinal>,
    exposures: map<Id, Exposure>,
    through: map<Id, Ordinal>,
    messages: map<Id, Message>,
    publication: map<Id, Publication>,
    receipts: map<Id, Receipt>)

  predicate ExposuresPlaced(exposures: map<Id, Exposure>, threadOf: map<Id, Id>) {
    forall o :: o in exposures ==> exposures[o].forum in threadOf
  }

  predicate MessagesPlaced(messages: map<Id, Message>, threads: map<Id, Thread>) {
    forall m :: m in messages ==> messages[m].thread in threads
  }

  predicate ForumsAligned(t: ForumTable) {
    && t.state.Keys == t.places.forums.Keys && t.heads.Keys == t.places.threads.Keys
    && t.through.Keys == t.exposures.Keys && t.publication.Keys == t.messages.Keys
    && ExposuresPlaced(t.exposures, t.places.threadOf) && MessagesPlaced(t.messages, t.places.threads)
  }

  const NO_FORUMS := ForumTable(NO_PLACES, map[], map[], map[], map[], map[], map[], map[])
  type Forums = t: ForumTable | ForumsAligned(t) witness NO_FORUMS

  // ---------- outcomes, runs, runtime custody ----------

  datatype DecisionRow = DecisionRow(decision: DecisionBody, cited: Option<Id>)
  datatype ResultRow = ResultRow(id: Id, status: MeasurementStatus, observed: Option<I64>, valueDigest: Option<Digest>, reasonDigest: Option<Digest>)

  datatype Outcomes = Outcomes(
    decisions: map<Id, DecisionRow>,
    revealed: map<Id, Reveal>,
    results: map<(Id, int), ResultRow>)

  datatype RunRow = RunRow(protocol: Id, planObject: Id, planDigest: Digest, pairCount: PairCount)
  datatype RunPair = RunPair(pair: Id, randomization: Digest)

  datatype RunTable = RunTable(
    rows: map<Id, RunRow>,
    registered: map<Id, nat>,
    state: map<Id, RunState>,
    pairs: map<(Id, int), RunPair>)

  predicate RunsAligned(t: RunTable) {
    && t.registered.Keys == t.rows.Keys && t.state.Keys == t.rows.Keys
    && forall k :: k in t.pairs ==> k.0 in t.rows
  }

  const NO_RUNS := RunTable(map[], map[], map[], map[])
  type Runs = t: RunTable | RunsAligned(t) witness NO_RUNS

  datatype Owner = TaskAttempt(attempt: Id) | OfficeSession(office: Id)
  datatype Binding = Binding(owner: Owner, child: Id, admission: Id, profile: Id)
  datatype Settlement = Settlement(attempt: Id, child: Id, recoveryReceipt: Id)

  datatype CustodyTable = CustodyTable(
    bindings: map<Id, Binding>,
    state: map<Id, BindingState>,
    settlements: map<Id, Settlement>)

  predicate CustodyAligned(t: CustodyTable) {
    t.state.Keys == t.bindings.Keys
  }

  const NO_CUSTODY := CustodyTable(map[], map[], map[])
  type Custody = t: CustodyTable | CustodyAligned(t) witness NO_CUSTODY

  datatype Tables = Tables(
    design: Design, episodes: Episodes, pairs: Pairs, actors: Actors, forum: Forums, outcomes: Outcomes, runs: Runs, custody: Custody)

  const EMPTY := Tables(
    Design(map[], map[], map[], map[], map[]), NO_EPISODES, NO_PAIRS, NO_ACTORS, NO_FORUMS,
    Outcomes(map[], map[], map[]), NO_RUNS, NO_CUSTODY)

  // ---------- tables other parts of the kernel own ----------

  datatype ChildState = Finalized | LostParentage | OtherChildState
  datatype AttemptState = AttemptRunning | CancellationRequested | SupervisorFailed | OtherAttemptState
  datatype Child = Child(admission: Id, state: ChildState)
  datatype SpawnAdmission = SpawnAdmission(attempt: Option<Id>, office: Option<Id>, profile: Option<Id>)
  datatype Attempt = Attempt(state: AttemptState, profile: Id)
  datatype Recovery = Recovery(child: Id, parentageLost: bool, groupAbsent: bool)

  datatype Outside = Outside(
    applications: set<Id>,
    children: map<Id, Child>,
    admissions: map<Id, SpawnAdmission>,
    attempts: map<Id, Attempt>,
    recoveries: map<Id, Recovery>,
    terminalReceipts: set<Id>,
    terminalFacts: set<Id>,
    sealed: map<Id, Digest>)

  datatype Store = Store(tables: Tables, outside: Outside)
}
