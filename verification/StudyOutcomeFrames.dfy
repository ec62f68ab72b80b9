/** Freezing, deciding, revealing, measuring, closing; then every step and every run. */
module StudyOutcomeFrames {
  import opened Wrappers
  import opened StudyVocabulary
  import opened StudyTables
  import opened StudySpec
  import opened StudyInvariants
  import opened StudyEpisodeFrames
  import opened StudyForumFrames
  import opened StudyMessageFrames
  import opened StudyAppend
  import opened StudyActorFrames
  import opened StudyDesignFrames
  import opened FiniteSums

  // ---------- freezing ----------

  ghost predicate Freezes(t: Episodes, u: Episodes, e: Id, x: FrozenHead) {
    e in t.rows && e !in t.frozen && t.state[e] == SourceActive && u == t.(frozen := t.frozen[e := x])
  }

  lemma FreezeSides(t: Episodes, u: Episodes, e: Id, x: FrozenHead)
    requires Freezes(t, u, e, x)
    ensures Sides(t, u) && NoneCloses(t, u) && !Past(u, e)
  {
  }

  lemma FreezeLifecycle(t: Episodes, u: Episodes, e: Id, x: FrozenHead)
    requires Freezes(t, u, e, x) && Lifecycle(t)
    ensures Lifecycle(u)
  {
  }

  lemma FreezePhases(r: Roster, state: map<Id, ObligationState>, t: Episodes, u: Episodes, e: Id, x: FrozenHead)
    requires Freezes(t, u, e, x) && ActorPhases(r, state, t) && SourcesTerminal(r, state, e)
    ensures ActorPhases(r, state, u)
  {
    hide RosterAligned;
  }

  lemma FreezeRooms(p: Places, t: Episodes, u: Episodes, e: Id, x: FrozenHead)
    requires Freezes(t, u, e, x) && Rooms(p, t) && ThreadOfEpisode(p, x.thread, e)
    ensures Rooms(p, u)
  {
    hide PlacesAligned;
  }

  /** Before the freeze only sources have written, so all of it lies up to the head. */
  lemma FreezeAuthors(t: Episodes, u: Episodes, r: Roster, p: Places, heads: map<Id, Ordinal>, messages: map<Id, Message>, e: Id, x: FrozenHead)
    requires Freezes(t, u, e, x) && Authors(t, r, p, messages) && Ordinals(heads, messages)
    requires ThreadOfEpisode(p, x.thread, e) && x.thread in heads && x.head == heads[x.thread]
    ensures Authors(u, r, p, messages)
  {
    hide RosterAligned, PlacesAligned, EpisodesAligned, HasOrdinal, EpisodeOf;
    forall m | m in messages ensures InPlace(u, r, EpisodeOf(p, messages[m].thread), messages[m]) {
      var k := EpisodeOf(p, messages[m].thread);
      assert InPlace(t, r, k, messages[m]);
      if k == e { SameThread(p, messages[m].thread, x.thread, e); }
    }
  }

  lemma SameThread(p: Places, c: Id, d: Id, e: Id)
    requires c in p.threads && EpisodeOf(p, c) == e && ThreadOfEpisode(p, d, e)
    ensures c == d
  {
    hide PlacesAligned;
    OneThread(p, c, d);
  }

  lemma FreezeHeads(t: Episodes, u: Episodes, p: Places, heads: map<Id, Ordinal>, e: Id, x: FrozenHead)
    requires Freezes(t, u, e, x) && Heads(t, p, heads) && ThreadOfEpisode(p, x.thread, e) && x.head == heads[x.thread]
    ensures Heads(u, p, heads)
  {
    hide PlacesAligned, EpisodeOf;
    forall d | d in p.threads ensures HeadFollows(u, EpisodeOf(p, d), heads[d]) {
      assert HeadFollows(t, EpisodeOf(p, d), heads[d]);
      if EpisodeOf(p, d) == e { SameThread(p, d, x.thread, e); }
    }
  }

  lemma FreezeWindows(t: Episodes, u: Episodes, r: Roster, p: Places, heads: map<Id, Ordinal>, exposures: map<Id, Exposure>, through: map<Id, Ordinal>, e: Id, x: FrozenHead)
    requires Freezes(t, u, e, x) && Windows(t, r, p, heads, exposures, through)
    ensures Windows(u, r, p, heads, exposures, through)
  {
    hide WindowStart, RosterAligned, PlacesAligned, EpisodesAligned;
    forall o | o in exposures
      ensures WindowStart(u, r.rows[o].episode, r.rows[o].phase) == WindowStart(t, r.rows[o].episode, r.rows[o].phase)
    {
      FreezeWindow(t, u, r.rows[o].episode, r.rows[o].phase, e, x);
    }
  }

  lemma FreezeWindow(t: Episodes, u: Episodes, k: Id, phase: PopulationPhase, e: Id, x: FrozenHead)
    requires Freezes(t, u, e, x) && WindowStart(t, k, phase).Some?
    ensures WindowStart(u, k, phase) == WindowStart(t, k, phase)
  {
  }

  lemma HasFrozen(hashes: Hashes, db: Tables, e: Id, thread: Id, u: Tables, ev: StudyEvent)
    requires Invariant(hashes, db) && Freeze(db, e, thread) == Ok((u, ev))
    ensures Invariant(hashes, u)
  {
    hide Lifecycle, ActorPhases, Rooms, Ordinals, Authors, Heads, Windows, Relations, ReadsCounted, ReadsInside, PostsBudgeted, PostsCounted,
         Citations, Revealed, Results, ClosedEpisodes, PairsMatched, Corrections, RunsCounted, RunsClosed, CustodyHolds,
         EpisodesAligned, PairsAligned, RosterAligned, ActorsAligned, PlacesAligned, ForumsAligned, RunsAligned, CustodyAligned, Freezes, Freeze, Sides, Keeps, NoneCloses, Past, SourcesTerminal, ThreadOfEpisode;
    var x := FreezeEffect(db, e, thread, u, ev);
    var t, r, f := db.episodes, db.actors.roster, db.forum;
    FreezeSides(t, u.episodes, e, x);
    SidesKeeps(t, u.episodes);
    FreezeLifecycle(t, u.episodes, e, x);
    FreezePhases(r, db.actors.state, t, u.episodes, e, x);
    FreezeRooms(f.places, t, u.episodes, e, x);
    FreezeAuthors(t, u.episodes, r, f.places, f.heads, f.messages, e, x);
    FreezeHeads(t, u.episodes, f.places, f.heads, e, x);
    FreezeWindows(t, u.episodes, r, f.places, f.heads, f.exposures, f.through, e, x);
    PostsExtend(t, u.episodes, r, db.actors.postsUsed, f.places, f.heads);
    RevealedExtends(hashes, db.design, t, u.episodes, r, db.actors.state, db.outcomes.revealed);
    ResultsExtend(db.design, t, u.episodes, db.outcomes);
    ClosedExtends(db.design, t, u.episodes, r, db.actors.state, db.actors.charged, db.outcomes);
    PairsExtend(t, u.episodes, db.pairs);
    CorrectionsExtend(hashes, db.design, t, u.episodes, db.pairs, f.places, f.messages);
    RunsExtend(db.runs, db.pairs, t, u.episodes);
  }

  lemma FreezeEffect(db: Tables, e: Id, thread: Id, u: Tables, ev: StudyEvent) returns (x: FrozenHead)
    requires Freeze(db, e, thread) == Ok((u, ev))
    ensures Freezes(db.episodes, u.episodes, e, x) && u == db.(episodes := u.episodes)
    ensures SourcesTerminal(db.actors.roster, db.actors.state, e)
    ensures ThreadOfEpisode(db.forum.places, x.thread, e) && x.thread in db.forum.heads && x.head == db.forum.heads[x.thread]
  {
    hide RosterAligned, ActorsAligned, PairsAligned, PlacesAligned, SourcesTerminal;
    x := FrozenHead(thread, db.forum.heads[thread]);
  }

  // ---------- decisions ----------

  lemma CitationRecorded(r: Roster, f: Forums, decisions: map<Id, DecisionRow>, o: Id, x: DecisionRow)
    requires Citations(r, f.messages, f.receipts, decisions)
    requires x.cited.Some? ==> CitationHolds(r, f.messages, f.receipts, o, x.cited.value)
    ensures Citations(r, f.messages, f.receipts, decisions[o := x])
  {
    hide RosterAligned, ForumsAligned, PlacesAligned, CitationHolds;
  }

  lemma CitationAllowed(db: Tables, o: Id, decision: DecisionBody, cited: Id, u: Tables, ev: StudyEvent)
    requires Decide(db, o, decision, Some(cited)) == Ok((u, ev))
    ensures CitationHolds(db.actors.roster, db.forum.messages, db.forum.receipts, o, cited)
  {
    hide ForumsAligned, PlacesAligned, ActorsAligned, EpisodesAligned, PairsAligned;
    if !OwnPublished(db, o, cited) {
      var covering := CoveringReads(db.forum, o, cited);
      EmptyOrCovered(covering);
      var k :| k in covering;
    }
  }

  lemma EmptyOrCovered(s: set<Id>)
    ensures s == {} || exists k: Id :: k in s
  {
    if forall k: Id :: k !in s { assert s <= {}; }
  }

  lemma OutcomesChange(hashes: Hashes, db: Tables, o: Outcomes, u: Tables)
    requires Invariant(hashes, db) && u == db.(outcomes := o)
    requires Citations(db.actors.roster, db.forum.messages, db.forum.receipts, o.decisions)
    requires OutcomesHold(hashes, db.design, db.episodes, db.actors, o)
    ensures Invariant(hashes, u)
  {
    hide Lifecycle, ActorPhases, Rooms, Ordinals, Authors, Heads, Windows, Relations, ReadsCounted, ReadsInside, PostsBudgeted, PostsCounted,
         Citations, Revealed, Results, ClosedEpisodes, PairsMatched, Corrections, RunsCounted, RunsClosed, CustodyHolds,
         EpisodesAligned, PairsAligned, RosterAligned, ActorsAligned, PlacesAligned, ForumsAligned, RunsAligned, CustodyAligned;
  }

  /** Decisions concern neither reveals nor results. */
  lemma DecisionsAside(hashes: Hashes, db: Tables, o: Outcomes)
    requires OutcomesHold(hashes, db.design, db.episodes, db.actors, db.outcomes)
    requires o.revealed == db.outcomes.revealed && o.results == db.outcomes.results
    ensures OutcomesHold(hashes, db.design, db.episodes, db.actors, o)
  {
    hide Revealed, AllTerminal, Sum, ColumnOf, WellShaped;
    forall e ensures RecordedSlots(o, e) == RecordedSlots(db.outcomes, e) {}
  }

  lemma HasDecided(hashes: Hashes, db: Tables, o: Id, decision: DecisionBody, cited: Option<Id>, u: Tables, ev: StudyEvent)
    requires Invariant(hashes, db) && Decide(db, o, decision, cited) == Ok((u, ev))
    ensures Invariant(hashes, u)
  {
    hide ActorsHold, ThreadsHold, Windows, Relations, ReadsCounted, ReadsInside, Citations, CitationHolds, OutcomesHold, RunsHold, PairsMatched, Corrections, Lifecycle,
         RosterAligned, ForumsAligned, PlacesAligned, ActorsAligned, EpisodesAligned, PairsAligned, OwnPublished, CoveringReads;
    if cited.Some? { CitationAllowed(db, o, decision, cited.value, u, ev); }
    CitationRecorded(db.actors.roster, db.forum, db.outcomes.decisions, o, DecisionRow(decision, cited));
    DecisionsAside(hashes, db, u.outcomes);
    OutcomesChange(hashes, db, u.outcomes, u);
  }

  // ---------- reveals and results ----------

  /** Revealing leaves the slots of every episode as they were. */
  lemma RevealRecorded(hashes: Hashes, d: Design, t: Episodes, r: Roster, state: map<Id, ObligationState>, revealed: map<Id, Reveal>, e: Id, truth: Reveal)
    requires Revealed(hashes, d, t, r, state, revealed) && RevealHolds(hashes, d, t, r, state, e, truth)
    ensures Revealed(hashes, d, t, r, state, revealed[e := truth])
  {
    hide RevealHolds, RosterAligned, EpisodesAligned;
  }

  lemma ResultsRevealed(d: Design, t: Episodes, o: Outcomes, x: Outcomes)
    requires Results(d, t, o) && x.results == o.results && forall e :: e in o.revealed ==> e in x.revealed
    ensures Results(d, t, x)
  {
    hide WellShaped, EpisodesAligned;
    forall k | k in x.results ensures ResultHolds(d, t, x.revealed, k.0, k.1, x.results[k]) {
      assert ResultHolds(d, t, o.revealed, k.0, k.1, o.results[k]);
    }
  }

  lemma ClosedSlots(d: Design, t: Episodes, r: Roster, state: map<Id, ObligationState>, charged: map<Id, nat>, o: Outcomes, x: Outcomes)
    requires ClosedEpisodes(d, t, r, state, charged, o)
    requires forall e :: e in t.rows && t.state[e] == Closed ==> RecordedSlots(x, e) == RecordedSlots(o, e)
    ensures ClosedEpisodes(d, t, r, state, charged, x)
  {
    hide AllTerminal, Sum, ColumnOf, RecordedSlots, RosterAligned;
    forall e | e in t.rows && t.state[e] == Closed ensures ClosedHolds(d, t, r, state, charged, x, e) {
      assert ClosedHolds(d, t, r, state, charged, o, e);
    }
  }

  lemma HasRevealed(hashes: Hashes, db: Tables, e: Id, truth: Reveal, u: Tables, ev: StudyEvent)
    requires Invariant(hashes, db) && RevealTruth(hashes, db, e, truth) == Ok((u, ev))
    ensures Invariant(hashes, u)
  {
    hide ActorsHold, ThreadsHold, Windows, Relations, ReadsCounted, ReadsInside, Citations, Revealed, Results, ClosedEpisodes, RunsHold, PairsMatched, Corrections, Lifecycle,
         RosterAligned, ForumsAligned, PlacesAligned, ActorsAligned, PairsAligned, AllTerminal;
    var d, t, a := db.design, db.episodes, db.actors;
    RevealRecorded(hashes, d, t, a.roster, a.state, db.outcomes.revealed, e, truth);
    ResultsRevealed(d, t, db.outcomes, u.outcomes);
    forall k ensures RecordedSlots(u.outcomes, k) == RecordedSlots(db.outcomes, k) {}
    ClosedSlots(d, t, a.roster, a.state, a.charged, db.outcomes, u.outcomes);
    OutcomesChange(hashes, db, u.outcomes, u);
  }

  lemma ResultRecorded(d: Design, t: Episodes, o: Outcomes, x: Outcomes, e: Id, slot: Slot, row: ResultRow)
    requires Results(d, t, o) && ResultHolds(d, t, o.revealed, e, slot, row)
    requires x.revealed == o.revealed && x.results == o.results[(e, slot) := row]
    ensures Results(d, t, x)
  {
    hide ResultHolds, EpisodesAligned;
  }

  lemma SlotsElsewhere(o: Outcomes, x: Outcomes, e: Id, slot: int, row: ResultRow, k: Id)
    requires x.results == o.results[(e, slot) := row] && k != e
    ensures RecordedSlots(x, k) == RecordedSlots(o, k)
  {
    forall i ensures i in RecordedSlots(x, k) <==> i in RecordedSlots(o, k) {
      assert i in RecordedSlots(x, k) <==> (k, i) in x.results;
      assert i in RecordedSlots(o, k) <==> (k, i) in o.results;
    }
  }

  lemma HasMeasured(hashes: Hashes, db: Tables, e: Id, slot: Slot, row: ResultRow, u: Tables, ev: StudyEvent)
    requires Invariant(hashes, db) && Measure(db, e, slot, row) == Ok((u, ev))
    ensures Invariant(hashes, u)
  {
    hide ActorsHold, ThreadsHold, Windows, Relations, ReadsCounted, ReadsInside, Citations, Revealed, Results, ClosedEpisodes, RunsHold, PairsMatched, Corrections, Lifecycle,
         RosterAligned, ForumsAligned, PlacesAligned, ActorsAligned, PairsAligned, AllTerminal, WellShaped, RecordedSlots, ResultTaken;
    var d, t, a := db.design, db.episodes, db.actors;
    ResultRecorded(d, t, db.outcomes, u.outcomes, e, slot, row);
    forall k: Id | k != e ensures RecordedSlots(u.outcomes, k) == RecordedSlots(db.outcomes, k) {
      SlotsElsewhere(db.outcomes, u.outcomes, e, slot, row, k);
    }
    ClosedSlots(d, t, a.roster, a.state, a.charged, db.outcomes, u.outcomes);
    OutcomesChange(hashes, db, u.outcomes, u);
  }

  // ---------- closing ----------

  lemma ClosingSides(t: Episodes, e: Id)
    requires e in t.rows && AfterCorrection(t.state[e])
    ensures Extends(t, SetState(t, e, Closed))
  {
    MovedExtends(t, e, Closed);
  }

  lemma ClosingHolds(d: Design, t: Episodes, r: Roster, state: map<Id, ObligationState>, charged: map<Id, nat>, o: Outcomes, e: Id)
    requires ClosedEpisodes(d, t, r, state, charged, o) && e in t.rows && ClosedHolds(d, t, r, state, charged, o, e)
    ensures ClosedEpisodes(d, SetState(t, e, Closed), r, state, charged, o)
  {
    hide AllTerminal, Sum, ColumnOf, RecordedSlots, RosterAligned;
    var u := SetState(t, e, Closed);
    forall k | k in u.rows && u.state[k] == Closed ensures ClosedHolds(d, u, r, state, charged, o, k) {
      assert ClosedHolds(d, t, r, state, charged, o, k);
    }
  }

  lemma HasClosed(hashes: Hashes, db: Tables, e: Id, u: Tables, ev: StudyEvent)
    requires Invariant(hashes, db) && Close(db, e) == Ok((u, ev))
    ensures Invariant(hashes, u)
  {
    hide Lifecycle, ActorPhases, Rooms, Ordinals, Authors, Heads, Windows, Relations, ReadsCounted, ReadsInside, PostsBudgeted, PostsCounted,
         Citations, Revealed, Results, ClosedEpisodes, PairsMatched, Corrections, RunsCounted, RunsClosed, CustodyHolds,
         EpisodesAligned, PairsAligned, RosterAligned, ActorsAligned, PlacesAligned, ForumsAligned, RunsAligned, CustodyAligned, Sides, Extends, Keeps, NoneCloses, SetState, Close, AllTerminal, ClosedHolds;
    var t, a, r, f := db.episodes, db.actors, db.actors.roster, db.forum;
    CloseEffect(db, e, u, ev);
    ClosingSides(t, e);
    ClosingMoves(t, a, e);
    ExtendsFrozen(t, u.episodes);
    SidesKeeps(t, u.episodes);
    RoomsExtend(f.places, t, u.episodes);
    AuthorsExtend(t, u.episodes, r, f.places, f.messages);
    HeadsExtend(t, u.episodes, f.places, f.heads);
    WindowsExtend(t, u.episodes, r, f.places, f.heads, f.exposures, f.through);
    PostsExtend(t, u.episodes, r, a.postsUsed, f.places, f.heads);
    RevealedExtends(hashes, db.design, t, u.episodes, r, a.state, db.outcomes.revealed);
    ResultsExtend(db.design, t, u.episodes, db.outcomes);
    ClosingHolds(db.design, t, r, a.state, a.charged, db.outcomes, e);
    PairsExtend(t, u.episodes, db.pairs);
    CorrectionsExtend(hashes, db.design, t, u.episodes, db.pairs, f.places, f.messages);
    RunsExtend(db.runs, db.pairs, t, u.episodes);
  }

  lemma ClosingMoves(t: Episodes, a: Actors, e: Id)
    requires e in t.rows && AfterCorrection(t.state[e]) && Lifecycle(t) && ActorPhases(a.roster, a.state, t)
    ensures Lifecycle(SetState(t, e, Closed)) && ActorPhases(a.roster, a.state, SetState(t, e, Closed))
  {
    hide Lifecycle, ActorPhases, RosterAligned, ActorsAligned;
    StartedHasTreatment(t, e);
    MovedLifecycle(t, e, Closed);
    MovedPhases(a.roster, a.state, t, e, Closed);
  }

  /** What the checks of `close_episode` establish, and that only forum and episode states change. */
  lemma CloseEffect(db: Tables, e: Id, u: Tables, ev: StudyEvent)
    requires Close(db, e) == Ok((u, ev))
    ensures e in db.episodes.rows && AfterCorrection(db.episodes.state[e])
    ensures ClosedHolds(db.design, db.episodes, db.actors.roster, db.actors.state, db.actors.charged, db.outcomes, e)
    ensures u == db.(forum := u.forum, episodes := SetState(db.episodes, e, Closed))
    ensures var f, g := db.forum, u.forum;
      && g.places == f.places && g.heads == f.heads && g.exposures == f.exposures && g.through == f.through
      && g.messages == f.messages && g.receipts == f.receipts
  {
    hide AllTerminal, Sum, ColumnOf, RecordedSlots, RosterAligned, PlacesAligned, PairsAligned;
  }

  // ---------- every step, every run ----------

  /** The commands that set a study up: revisions, episodes, pairs, runs, forums. */
  predicate SetsUp(c: StudyCommand) {
    || c.AdmitProtocolRevision? || c.AdmitWorldRevision? || c.AdmitMeasurementRevision? || c.AdmitInstitutionRevision? || c.AdmitPopulationSnapshot?
    || c.AdmitEpisode? || c.AssignTreatment? || c.CreateEpisodeForum? || c.OpenForumThread? || c.ForkEpisode?
  }

  predicate ConcernsActors(c: StudyCommand) {
    || c.AdmitActorObligation? || c.CompleteActorObligation? || c.FailActorObligation? || c.BindActorRuntime? || c.BindActorTaskAttemptRuntime?
    || c.ReconcileActorRuntime?
  }

  predicate ConcernsRuns(c: StudyCommand) {
    c.AdmitMatchedPair? || c.AdmitStudyRun? || c.RegisterStudyRunPair? || c.StartStudyRun? || c.CompleteStudyRun?
  }

  lemma RunsKeep(hashes: Hashes, outside: Outside, db: Tables, c: StudyCommand, ids: Fresh, u: Tables, ev: StudyEvent)
    requires Invariant(hashes, db) && ConcernsRuns(c) && Transition(hashes, outside, db, c, ids) == Ok((u, ev))
    ensures Invariant(hashes, u)
  {
    hide Invariant, AdmitProtocol, AdmitWorld, AdmitMeasurement, AdmitInstitution, AdmitPopulation, AdmitEpisodeRow, AssignTreatmentTo, AdmitPair,
         AdmitRun, RegisterPair, StartRun, CompleteRun, CreateForum, OpenThread, AdmitObligation, CompleteObligation, FailObligation, BindOffice,
         BindAttempt, ReconcileRuntime, Freeze, Replace, Expose, Publish, Retract, Release, Read, Decide, RevealTruth, Measure, Close, ForkOf, DesignGrows,
         EpisodesAligned, PairsAligned, RosterAligned, ActorsAligned, PlacesAligned, ForumsAligned, RunsAligned, CustodyAligned;
    match c
    case AdmitMatchedPair(retained, reset) => PairKeeps(hashes, db, retained, reset, ids.first, u, ev);
    case AdmitStudyRun(protocol, plan, digest, pairs) => RunAdmittedKeeps(hashes, outside, db, RunRow(protocol, plan, digest, pairs), ids.first, u, ev);
    case RegisterStudyRunPair(run, ordinal, pair, randomization) => RegistrationKeeps(hashes, db, run, ordinal, pair, randomization, u, ev);
    case StartStudyRun(run) => RunStartKeeps(hashes, db, run, u, ev);
    case CompleteStudyRun(run) => RunCompletionKeeps(hashes, db, run, u, ev);
  }

  lemma SetUpKeeps(hashes: Hashes, outside: Outside, db: Tables, c: StudyCommand, ids: Fresh, u: Tables, ev: StudyEvent)
    requires Invariant(hashes, db) && SetsUp(c) && Transition(hashes, outside, db, c, ids) == Ok((u, ev))
    ensures Invariant(hashes, u)
  {
    hide Invariant, AdmitProtocol, AdmitWorld, AdmitMeasurement, AdmitInstitution, AdmitPopulation, AdmitEpisodeRow, AssignTreatmentTo, AdmitPair,
         AdmitRun, RegisterPair, StartRun, CompleteRun, CreateForum, OpenThread, AdmitObligation, CompleteObligation, FailObligation, BindOffice,
         BindAttempt, ReconcileRuntime, Freeze, Replace, Expose, Publish, Retract, Release, Read, Decide, RevealTruth, Measure, Close, ForkOf, DesignGrows,
         EpisodesAligned, PairsAligned, RosterAligned, ActorsAligned, PlacesAligned, ForumsAligned, RunsAligned, CustodyAligned;
    match c
    case AdmitEpisode(protocol, world, measurement, institution, population, randomization) =>
      EpisodeAdmittedKeeps(hashes, db, Episode(protocol, world, measurement, institution, population, randomization), ids.first, u, ev);
    case AssignTreatment(e, treatment) => TreatmentAssignedKeeps(hashes, db, e, treatment, ids.first, u, ev);
    case CreateEpisodeForum(e, charter) => ForumCreated(hashes, db, e, charter, ids.first, u, ev);
    case OpenForumThread(forum, title) => ThreadOpened(hashes, db, forum, title, ids.first, u, ev);
    case ForkEpisode(source, delta) => ForkKeeps(hashes, db, source, delta, ids, u, ev);
    case _ =>
      RevisionAdds(hashes, outside, db, c, ids, u, ev);
      DesignExtends(hashes, db, u.design, u);
  }

  lemma ActorsKeep(hashes: Hashes, outside: Outside, db: Tables, c: StudyCommand, ids: Fresh, u: Tables, ev: StudyEvent)
    requires Invariant(hashes, db) && ConcernsActors(c) && Transition(hashes, outside, db, c, ids) == Ok((u, ev))
    ensures Invariant(hashes, u)
  {
    hide Invariant, AdmitProtocol, AdmitWorld, AdmitMeasurement, AdmitInstitution, AdmitPopulation, AdmitEpisodeRow, AssignTreatmentTo, AdmitPair,
         AdmitRun, RegisterPair, StartRun, CompleteRun, CreateForum, OpenThread, AdmitObligation, CompleteObligation, FailObligation, BindOffice,
         BindAttempt, ReconcileRuntime, Freeze, Replace, Expose, Publish, Retract, Release, Read, Decide, RevealTruth, Measure, Close, ForkOf, DesignGrows,
         EpisodesAligned, PairsAligned, RosterAligned, ActorsAligned, PlacesAligned, ForumsAligned, RunsAligned, CustodyAligned;
    match c
    case AdmitActorObligation(_, _, _, _, _, _, _, _, _) => HasAdmittedObligation(hashes, db, c, ids, u, ev);
    case CompleteActorObligation(o, charge) => HasCompleted(hashes, db, o, charge, u, ev);
    case FailActorObligation(o, reason) => HasFailed(hashes, db, o, reason, u, ev);
    case ReconcileActorRuntime(o, child) => HasReconciled(hashes, outside, db, o, child, u, ev);
    case _ => HasBoundRuntime(hashes, outside, db, c, u, ev);
  }

  lemma HandoverKeeps(hashes: Hashes, outside: Outside, db: Tables, c: StudyCommand, ids: Fresh, u: Tables, ev: StudyEvent)
    requires Invariant(hashes, db) && (c.FreezeForumHead? || c.ReplacePopulation?) && Transition(hashes, outside, db, c, ids) == Ok((u, ev))
    ensures Invariant(hashes, u)
  {
    hide Invariant, AdmitProtocol, AdmitWorld, AdmitMeasurement, AdmitInstitution, AdmitPopulation, AdmitEpisodeRow, AssignTreatmentTo, AdmitPair,
         AdmitRun, RegisterPair, StartRun, CompleteRun, CreateForum, OpenThread, AdmitObligation, CompleteObligation, FailObligation, BindOffice,
         BindAttempt, ReconcileRuntime, Freeze, Replace, Expose, Publish, Retract, Release, Read, Decide, RevealTruth, Measure, Close, ForkOf, DesignGrows,
         EpisodesAligned, PairsAligned, RosterAligned, ActorsAligned, PlacesAligned, ForumsAligned, RunsAligned, CustodyAligned;
    match c
    case FreezeForumHead(e, thread) => HasFrozen(hashes, db, e, thread, u, ev);
    case ReplacePopulation(e, successor) => ReplacementKeeps(hashes, db, e, successor, u, ev);
  }

  lemma OthersKeep(hashes: Hashes, outside: Outside, db: Tables, c: StudyCommand, ids: Fresh, u: Tables, ev: StudyEvent)
    requires Invariant(hashes, db) && !c.SettleActorTaskAttemptAfterRecovery? && !SetsUp(c) && !ConcernsRuns(c) && !ConcernsActors(c)
    requires !c.FreezeForumHead? && !c.ReplacePopulation?
    requires Transition(hashes, outside, db, c, ids) == Ok((u, ev))
    ensures Invariant(hashes, u)
  {
    hide Invariant, AdmitProtocol, AdmitWorld, AdmitMeasurement, AdmitInstitution, AdmitPopulation, AdmitEpisodeRow, AssignTreatmentTo, AdmitPair,
         AdmitRun, RegisterPair, StartRun, CompleteRun, CreateForum, OpenThread, AdmitObligation, CompleteObligation, FailObligation, BindOffice,
         BindAttempt, ReconcileRuntime, Freeze, Replace, Expose, Publish, Retract, Release, Read, Decide, RevealTruth, Measure, Close, ForkOf, DesignGrows,
         EpisodesAligned, PairsAligned, RosterAligned, ActorsAligned, PlacesAligned, ForumsAligned, RunsAligned, CustodyAligned;
    match c
    case AdmitForumExposure(o, forum, visibleFrom) => Exposed(hashes, db, o, forum, visibleFrom, ids.first, u, ev);
    case PublishForumMessage(_, _, _, _, _) => HasPublished(hashes, db, c, ids.first, u, ev);
    case RetractForumMessage(o, message) => HasRetracted(hashes, db, o, message, u, ev);
    case ReleaseMatchedCorrection(_, _, _, _) => HasReleased(hashes, db, c, ids, u, ev);
    case ReadForum(_, _, _, _) => HasRead(hashes, outside, db, c, ids.first, u, ev);
    case RecordDecision(o, decision, cited) => HasDecided(hashes, db, o, decision, cited, u, ev);
    case RevealGroundTruth(e, truth) => HasRevealed(hashes, db, e, truth, u, ev);
    case RecordMeasurementResult(e, slot, status, observed, value, reason) =>
      HasMeasured(hashes, db, e, slot, ResultRow(ids.first, status, observed, value, reason), u, ev);
    case CloseEpisode(e) => HasClosed(hashes, db, e, u, ev);
  }

  lemma TransitionKeeps(hashes: Hashes, outside: Outside, db: Tables, c: StudyCommand, ids: Fresh, u: Tables, ev: StudyEvent)
    requires Invariant(hashes, db) && !c.SettleActorTaskAttemptAfterRecovery? && Transition(hashes, outside, db, c, ids) == Ok((u, ev))
    ensures Invariant(hashes, u)
  {
    hide Invariant, Transition;
    if SetsUp(c) {
      SetUpKeeps(hashes, outside, db, c, ids, u, ev);
    } else if ConcernsRuns(c) {
      RunsKeep(hashes, outside, db, c, ids, u, ev);
    } else if c.FreezeForumHead? || c.ReplacePopulation? {
      HandoverKeeps(hashes, outside, db, c, ids, u, ev);
    } else if ConcernsActors(c) {
      ActorsKeep(hashes, outside, db, c, ids, u, ev);
    } else {
      OthersKeep(hashes, outside, db, c, ids, u, ev);
    }
  }

  lemma StepKeeps(hashes: Hashes, s: Store, step: Step)
    requires Invariant(hashes, s.tables)
    ensures Invariant(hashes, Next(hashes, s, step).tables)
  {
    hide Invariant, Transition, SettleRecovery;
    if step.Command? {
      var c := step.command;
      var r := Apply(hashes, s, c, step.ids);
      if r.Ok? {
        if c.SettleActorTaskAttemptAfterRecovery? {
          HasSettled(hashes, s.outside, s.tables, c.obligation, c.attempt, c.child, c.recoveryReceipt, r.value.0, r.value.1);
        } else {
          TransitionKeeps(hashes, s.outside, s.tables, c, step.ids, r.value.0.tables, r.value.1);
        }
      }
    }
  }

  lemma EmptyActors()
    ensures Lifecycle(NO_EPISODES) && ActorsHold(NO_ACTORS, NO_EPISODES, NO_CUSTODY) && RunsHold(NO_RUNS, NO_PAIRS, NO_EPISODES)
    ensures PairsMatched(NO_EPISODES, NO_PAIRS)
  {
    hide OrdinalsOf, BothClosed;
  }

  lemma EmptyOrdinals()
    ensures Ordinals(NO_FORUMS.heads, NO_FORUMS.messages)
  {
    hide HasOrdinal;
  }

  lemma EmptyMessages()
    ensures Rooms(NO_PLACES, NO_EPISODES) && Authors(NO_EPISODES, NO_ROSTER, NO_PLACES, NO_FORUMS.messages)
    ensures Heads(NO_EPISODES, NO_PLACES, NO_FORUMS.heads)
  {
    hide InPlace, HeadFollows, EpisodeOf, ThreadOfEpisode;
  }

  lemma EmptyPosts(hashes: Hashes)
    ensures PostsBudgeted(NO_ROSTER, map[], map[]) && PostsCounted(NO_EPISODES, NO_ROSTER, map[], NO_PLACES, map[])
    ensures Sealed(hashes, EMPTY.design, NO_EPISODES, NO_PLACES, map[]) && Twins(NO_PAIRS, NO_PLACES, map[])
  {
    hide Sum, ColumnOf, EpisodeOf, Past;
  }

  lemma EmptyThreads(hashes: Hashes)
    ensures ThreadsHold(NO_EPISODES, NO_ACTORS, NO_FORUMS) && Corrections(hashes, EMPTY.design, NO_EPISODES, NO_PAIRS, NO_PLACES, map[])
  {
    hide Rooms, Ordinals, Authors, Heads, PostsBudgeted, PostsCounted, Sealed, Twins;
    EmptyOrdinals();
    EmptyMessages();
    EmptyPosts(hashes);
  }

  lemma EmptyWindows()
    ensures WindowsHold(NO_EPISODES, NO_ACTORS, NO_FORUMS, map[])
  {
    hide WindowStart, RelationHolds, ReceiptsOf, CitationHolds;
  }

  lemma EmptyOutcomes(hashes: Hashes)
    ensures OutcomesHold(hashes, EMPTY.design, NO_EPISODES, NO_ACTORS, EMPTY.outcomes)
  {
    hide RevealHolds, ResultHolds, ClosedHolds;
  }

  lemma EmptyHolds(hashes: Hashes)
    ensures Invariant(hashes, EMPTY)
  {
    hide Lifecycle, ActorsHold, ThreadsHold, WindowsHold, OutcomesHold, RunsHold, PairsMatched, Corrections;
    EmptyActors();
    EmptyThreads(hashes);
    EmptyWindows();
    EmptyOutcomes(hashes);
  }

  /** Every state of every run, whatever the rest of the kernel does in between. */
  lemma {:induction false} InvariantHolds(hashes: Hashes, outside: Outside, steps: seq<Step>)
    ensures Invariant(hashes, Execute(hashes, outside, steps).tables)
  {
    hide Invariant, Next;
    if steps == [] {
      EmptyHolds(hashes);
    } else {
      InvariantHolds(hashes, outside, steps[..|steps| - 1]);
      StepKeeps(hashes, Execute(hashes, outside, steps[..|steps| - 1]), steps[|steps| - 1]);
    }
  }
}
