/** Obligations: admission, completion, failure, and the custody of their runtimes. */
module StudyActorFrames {
  import opened Wrappers
  import opened StudyVocabulary
  import opened StudyTables
  import opened StudySpec
  import opened StudyInvariants
  import opened StudyEpisodeFrames
  import opened FiniteSums

  // ---------- a new obligation ----------

  /** `s` is `r` with one more obligation `o` and its occurrence. */
  ghost predicate Enrolled(r: Roster, s: Roster, o: Id, row: Obligation) {
    && o !in r.rows && s.rows == r.rows[o := row]
    && (forall k :: k in r.rows ==> s.occurrenceOf[k] == r.occurrenceOf[k])
    && (forall c :: c in r.occurrences ==> c in s.occurrences && s.occurrences[c] == r.occurrences[c])
  }

  lemma EnrolGrows(r: Roster, row: Obligation, o: Id, c: Id)
    requires o !in r.rows && c !in r.occurrences
    ensures Enrolled(r, Enrol(r, row, o, c), o, row)
  {
  }

  lemma PhasesEnrol(r: Roster, s: Roster, o: Id, row: Obligation, state: map<Id, ObligationState>, t: Episodes)
    requires ActorPhases(r, state, t) && Enrolled(r, s, o, row)
    requires row.episode in t.rows && t.state[row.episode] != Admitted
    requires if row.phase == Successor then Rank(t.state[row.episode]) >= 4 else row.episode !in t.frozen
    ensures ActorPhases(s, state[o := Active], t)
  {
    hide RosterAligned, EpisodesAligned;
  }

  lemma CustodyEnrols(c: Custody, r: Roster, s: Roster, o: Id, row: Obligation, state: map<Id, ObligationState>)
    requires CustodyHolds(c, r, state) && Enrolled(r, s, o, row)
    ensures CustodyHolds(c, s, state[o := Active])
  {
    hide RosterAligned;
  }

  lemma AuthorsEnrol(t: Episodes, r: Roster, s: Roster, o: Id, row: Obligation, p: Places, messages: map<Id, Message>)
    requires Authors(t, r, p, messages) && Enrolled(r, s, o, row)
    ensures Authors(t, s, p, messages)
  {
    hide RosterAligned, PlacesAligned, EpisodesAligned;
    forall m | m in messages ensures InPlace(t, s, EpisodeOf(p, messages[m].thread), messages[m]) {
      assert InPlace(t, r, EpisodeOf(p, messages[m].thread), messages[m]);
    }
  }

  lemma WindowsEnrol(t: Episodes, r: Roster, s: Roster, o: Id, row: Obligation, p: Places, heads: map<Id, Ordinal>, exposures: map<Id, Exposure>, through: map<Id, Ordinal>)
    requires Windows(t, r, p, heads, exposures, through) && Enrolled(r, s, o, row)
    ensures Windows(t, s, p, heads, exposures, through)
    ensures o !in exposures
  {
    hide RosterAligned, PlacesAligned, EpisodesAligned, WindowStart;
  }

  lemma RelationsEnrol(r: Roster, s: Roster, o: Id, row: Obligation, exposures: map<Id, Exposure>, messages: map<Id, Message>)
    requires Relations(r, exposures, messages) && Enrolled(r, s, o, row)
    ensures Relations(s, exposures, messages)
  {
    hide RosterAligned;
  }

  lemma ReadsEnrol(r: Roster, s: Roster, o: Id, row: Obligation, readsUsed: map<Id, nat>, p: Places, heads: map<Id, Ordinal>, exposures: map<Id, Exposure>, receipts: map<Id, Receipt>)
    requires ReadsCounted(r, readsUsed, receipts) && ReadsInside(p, heads, exposures, receipts) && Enrolled(r, s, o, row) && o !in exposures
    ensures ReadsCounted(s, readsUsed[o := 0], receipts)
  {
    hide RosterAligned, PlacesAligned;
    assert ReceiptsOf(receipts, o) == {};
  }

  lemma PostsEnrol(r: Roster, s: Roster, o: Id, row: Obligation, posts: map<Id, nat>, exposures: map<Id, Exposure>)
    requires PostsBudgeted(r, posts, exposures) && Enrolled(r, s, o, row)
    ensures PostsBudgeted(s, posts[o := 0], exposures)
  {
    hide RosterAligned;
  }

  lemma ColumnEnrols(r: Roster, s: Roster, o: Id, row: Obligation, column: map<Id, nat>, e: Id)
    requires Enrolled(r, s, o, row) && column.Keys == r.rows.Keys
    ensures Sum(ColumnOf(s, column[o := 0], e)) == Sum(ColumnOf(r, column, e))
  {
    hide RosterAligned, Sum;
    var before, after := ColumnOf(r, column, e), ColumnOf(s, column[o := 0], e);
    if row.episode == e {
      assert after == before[o := 0];
      SumUpdate(before, o, 0);
    } else {
      assert after == before;
    }
  }

  lemma CountsEnrol(t: Episodes, r: Roster, s: Roster, o: Id, row: Obligation, posts: map<Id, nat>, p: Places, heads: map<Id, Ordinal>)
    requires PostsCounted(t, r, posts, p, heads) && Enrolled(r, s, o, row)
    ensures PostsCounted(t, s, posts[o := 0], p, heads)
  {
    hide RosterAligned, PlacesAligned, EpisodesAligned, Sum, ColumnOf, Past, EpisodeOf;
    forall e ensures Sum(ColumnOf(s, posts[o := 0], e)) == Sum(ColumnOf(r, posts, e)) { ColumnEnrols(r, s, o, row, posts, e); }
  }

  lemma CitationsEnrol(r: Roster, s: Roster, o: Id, row: Obligation, messages: map<Id, Message>, receipts: map<Id, Receipt>, decisions: map<Id, DecisionRow>)
    requires Citations(r, messages, receipts, decisions) && Enrolled(r, s, o, row)
    ensures Citations(s, messages, receipts, decisions)
  {
    hide RosterAligned;
    forall k | k in decisions && decisions[k].cited.Some? ensures CitationHolds(s, messages, receipts, k, decisions[k].cited.value) {
      assert CitationHolds(r, messages, receipts, k, decisions[k].cited.value);
    }
  }

  lemma RevealedEnrol(hashes: Hashes, d: Design, t: Episodes, r: Roster, s: Roster, o: Id, row: Obligation, state: map<Id, ObligationState>, revealed: map<Id, Reveal>)
    requires Revealed(hashes, d, t, r, state, revealed) && Enrolled(r, s, o, row) && !Past(t, row.episode)
    ensures Revealed(hashes, d, t, s, state[o := Active], revealed)
  {
    hide RosterAligned, EpisodesAligned, Past;
    forall e | e in revealed ensures RevealHolds(hashes, d, t, s, state[o := Active], e, revealed[e]) {
      assert RevealHolds(hashes, d, t, r, state, e, revealed[e]);
    }
  }

  lemma ClosedEnrol(d: Design, t: Episodes, r: Roster, s: Roster, o: Id, row: Obligation, state: map<Id, ObligationState>, charged: map<Id, nat>, x: Outcomes)
    requires ClosedEpisodes(d, t, r, state, charged, x) && Enrolled(r, s, o, row) && !Past(t, row.episode)
    ensures ClosedEpisodes(d, t, s, state[o := Active], charged[o := 0], x)
  {
    hide RosterAligned, Sum, ColumnOf, RecordedSlots;
    forall e | e in t.rows && t.state[e] == Closed ensures ClosedHolds(d, t, s, state[o := Active], charged[o := 0], x, e) {
      assert ClosedHolds(d, t, r, state, charged, x, e);
      ColumnEnrols(r, s, o, row, charged, e);
    }
  }

  lemma ObligationEnrolled(hashes: Hashes, db: Tables, row: Obligation, o: Id, c: Id, u: Tables)
    requires Invariant(hashes, db) && o !in db.actors.roster.rows && c !in db.actors.roster.occurrences
    requires u == db.(actors := InsertObligation(db.actors, row, o, c))
    requires row.episode in db.episodes.rows && db.episodes.state[row.episode] != Admitted && !Past(db.episodes, row.episode)
    requires if row.phase == Successor then Rank(db.episodes.state[row.episode]) >= 4 else row.episode !in db.episodes.frozen
    ensures Invariant(hashes, u)
  {
    hide Lifecycle, ActorPhases, Rooms, Ordinals, Authors, Heads, Windows, Relations, ReadsCounted, ReadsInside, PostsBudgeted, PostsCounted,
         Citations, Revealed, Results, ClosedEpisodes, PairsMatched, Corrections, RunsCounted, RunsClosed, CustodyHolds,
         EpisodesAligned, PairsAligned, RosterAligned, ActorsAligned, PlacesAligned, ForumsAligned, RunsAligned, CustodyAligned, Enrol, Enrolled, Past;
    var a, t, f := db.actors, db.episodes, db.forum;
    var r, s := a.roster, u.actors.roster;
    EnrolGrows(r, row, o, c);
    PhasesEnrol(r, s, o, row, a.state, t);
    CustodyEnrols(db.custody, r, s, o, row, a.state);
    AuthorsEnrol(t, r, s, o, row, f.places, f.messages);
    WindowsEnrol(t, r, s, o, row, f.places, f.heads, f.exposures, f.through);
    RelationsEnrol(r, s, o, row, f.exposures, f.messages);
    ReadsEnrol(r, s, o, row, a.readsUsed, f.places, f.heads, f.exposures, f.receipts);
    PostsEnrol(r, s, o, row, a.postsUsed, f.exposures);
    CountsEnrol(t, r, s, o, row, a.postsUsed, f.places, f.heads);
    CitationsEnrol(r, s, o, row, f.messages, f.receipts, db.outcomes.decisions);
    RevealedEnrol(hashes, db.design, t, r, s, o, row, a.state, db.outcomes.revealed);
    ClosedEnrol(db.design, t, r, s, o, row, a.state, a.charged, db.outcomes);
  }

  /** The phase an episode is in once an obligation of this phase has been admitted. */
  function PhaseState(phase: PopulationPhase): EpisodeState {
    if phase == Source then SourceActive else SuccessorAdmitted
  }

  lemma PhaseOpens(t: Episodes, a: Actors, e: Id, phase: PopulationPhase)
    requires e in t.rows && e in t.treatments && PhaseOpen(t.state[e], phase) && Lifecycle(t) && ActorPhases(a.roster, a.state, t)
    ensures var u := SetState(t, e, PhaseState(phase)); Extends(t, u) && NoneCloses(t, u) && Lifecycle(u) && ActorPhases(a.roster, a.state, u)
  {
    hide Lifecycle, ActorPhases, Extends, NoneCloses, RosterAligned, ActorsAligned;
    MovedLifecycle(t, e, PhaseState(phase));
    MovedPhases(a.roster, a.state, t, e, PhaseState(phase));
    MovedExtends(t, e, PhaseState(phase));
  }

  lemma HasAdmittedObligation(hashes: Hashes, db: Tables, c: StudyCommand, ids: Fresh, u: Tables, ev: StudyEvent)
    requires Invariant(hashes, db) && c.AdmitActorObligation? && AdmitObligation(db, c, ids) == Ok((u, ev))
    ensures Invariant(hashes, u)
  {
    hide Lifecycle, ActorPhases, Rooms, Ordinals, Authors, Heads, Windows, Relations, ReadsCounted, ReadsInside, PostsBudgeted, PostsCounted,
         Citations, Revealed, Results, ClosedEpisodes, PairsMatched, Corrections, RunsCounted, RunsClosed, CustodyHolds,
         EpisodesAligned, PairsAligned, RosterAligned, ActorsAligned, PlacesAligned, ForumsAligned, RunsAligned, CustodyAligned, RoleTaken, InsertObligation, Extends, NoneCloses;
    var t := SetState(db.episodes, c.episode, PhaseState(c.phase));
    PhaseOpens(db.episodes, db.actors, c.episode, c.phase);
    EpisodesExtend(hashes, db, t, db.(episodes := t));
    var row := AdmittedRow(db, c, ids, u, ev);
    ObligationEnrolled(hashes, db.(episodes := t), row, ids.first, ids.second, u);
  }

  lemma AdmittedRow(db: Tables, c: StudyCommand, ids: Fresh, u: Tables, ev: StudyEvent) returns (row: Obligation)
    requires c.AdmitActorObligation? && AdmitObligation(db, c, ids) == Ok((u, ev))
    ensures ids.first !in db.actors.roster.rows && ids.second !in db.actors.roster.occurrences
    ensures row.episode == c.episode && row.phase == c.phase && c.episode in db.episodes.rows
    ensures var t := SetState(db.episodes, c.episode, PhaseState(c.phase));
      && u == db.(episodes := t, actors := InsertObligation(db.actors, row, ids.first, ids.second))
      && t.state[c.episode] == PhaseState(c.phase) && !Past(t, c.episode)
    ensures c.phase == Source ==> c.episode !in db.episodes.frozen
  {
    hide RoleTaken, InsertObligation, PhaseOpen, RosterAligned, ActorsAligned;
    row := Obligation(c.episode, PopulationFor(db.episodes, c.episode, c.phase).value, c.phase, c.role, c.budget, c.readBudget, c.postBudget);
  }

  // ---------- an obligation ends ----------

  lemma PhasesEnd(r: Roster, state: map<Id, ObligationState>, t: Episodes, o: Id, end: ObligationState)
    requires ActorPhases(r, state, t) && o in r.rows && end != Active
    ensures ActorPhases(r, state[o := end], t)
  {
    hide RosterAligned, EpisodesAligned;
  }

  lemma CustodyEnds(c: Custody, r: Roster, state: map<Id, ObligationState>, o: Id, end: ObligationState)
    requires CustodyHolds(c, r, state) && o in r.rows && end != Active
    requires o in c.bindings ==> c.state[o] == Reconciled || (c.state[o] == RecoverySettled && end == Failed)
    ensures CustodyHolds(c, r, state[o := end])
  {
    hide RosterAligned;
  }

  lemma RevealedEnds(hashes: Hashes, d: Design, t: Episodes, r: Roster, state: map<Id, ObligationState>, revealed: map<Id, Reveal>, o: Id, end: ObligationState)
    requires Revealed(hashes, d, t, r, state, revealed) && o in r.rows && end != Active
    ensures Revealed(hashes, d, t, r, state[o := end], revealed)
  {
    hide RosterAligned, EpisodesAligned, Past;
    forall e | e in revealed ensures RevealHolds(hashes, d, t, r, state[o := end], e, revealed[e]) {
      assert RevealHolds(hashes, d, t, r, state, e, revealed[e]);
    }
  }

  /** The episode of an active obligation is not closed, so its charge may still change. */
  lemma ClosedEnds(d: Design, t: Episodes, r: Roster, state: map<Id, ObligationState>, charged: map<Id, nat>, x: Outcomes, o: Id, end: ObligationState, charge: nat)
    requires ClosedEpisodes(d, t, r, state, charged, x) && o in r.rows && state[o] == Active && end != Active
    ensures ClosedEpisodes(d, t, r, state[o := end], charged[o := charge], x)
  {
    hide RosterAligned, Sum, RecordedSlots;
    forall e | e in t.rows && t.state[e] == Closed ensures ClosedHolds(d, t, r, state[o := end], charged[o := charge], x, e) {
      assert ClosedHolds(d, t, r, state, charged, x, e);
      assert ColumnOf(r, charged[o := charge], e) == ColumnOf(r, charged, e);
    }
  }

  lemma ObligationEnds(hashes: Hashes, db: Tables, o: Id, end: ObligationState, charge: nat, u: Tables)
    requires Invariant(hashes, db) && o in db.actors.roster.rows && db.actors.state[o] == Active && end != Active
    requires o in db.custody.bindings ==> db.custody.state[o] == Reconciled || (db.custody.state[o] == RecoverySettled && end == Failed)
    requires u == db.(actors := u.actors) && u.actors.roster == db.actors.roster
    requires u.actors.state == db.actors.state[o := end] && u.actors.charged == db.actors.charged[o := charge]
    requires u.actors.readsUsed == db.actors.readsUsed && u.actors.postsUsed == db.actors.postsUsed
    ensures Invariant(hashes, u)
  {
    hide Lifecycle, ActorPhases, Rooms, Ordinals, Authors, Heads, Windows, Relations, ReadsCounted, ReadsInside, PostsBudgeted, PostsCounted,
         Citations, Revealed, Results, ClosedEpisodes, PairsMatched, Corrections, RunsCounted, RunsClosed, CustodyHolds,
         EpisodesAligned, PairsAligned, RosterAligned, ActorsAligned, PlacesAligned, ForumsAligned, RunsAligned, CustodyAligned;
    var a, t := db.actors, db.episodes;
    PhasesEnd(a.roster, a.state, t, o, end);
    CustodyEnds(db.custody, a.roster, a.state, o, end);
    RevealedEnds(hashes, db.design, t, a.roster, a.state, db.outcomes.revealed, o, end);
    ClosedEnds(db.design, t, a.roster, a.state, a.charged, db.outcomes, o, end, charge);
  }

  lemma HasCompleted(hashes: Hashes, db: Tables, o: Id, charge: BudgetUnits, u: Tables, ev: StudyEvent)
    requires Invariant(hashes, db) && CompleteObligation(db, o, charge) == Ok((u, ev))
    ensures Invariant(hashes, u)
  {
    hide Invariant, RosterAligned;
    ObligationEnds(hashes, db, o, Done, charge, u);
  }

  lemma HasFailed(hashes: Hashes, db: Tables, o: Id, reason: Digest, u: Tables, ev: StudyEvent)
    requires Invariant(hashes, db) && FailObligation(db, o, reason) == Ok((u, ev))
    ensures Invariant(hashes, u)
  {
    hide Invariant, RosterAligned;
    assert db.actors.charged == db.actors.charged[o := db.actors.charged[o]];
    ObligationEnds(hashes, db, o, Failed, db.actors.charged[o], u);
  }

  // ---------- custody of runtimes ----------

  lemma CustodyChanges(hashes: Hashes, db: Tables, c: Custody, u: Tables)
    requires Invariant(hashes, db) && CustodyHolds(c, db.actors.roster, db.actors.state) && u == db.(custody := c)
    ensures Invariant(hashes, u)
  {
    hide Lifecycle, ActorPhases, Rooms, Ordinals, Authors, Heads, Windows, Relations, ReadsCounted, ReadsInside, PostsBudgeted, PostsCounted,
         Citations, Revealed, Results, ClosedEpisodes, PairsMatched, Corrections, RunsCounted, RunsClosed, CustodyHolds,
         EpisodesAligned, PairsAligned, RosterAligned, ActorsAligned, PlacesAligned, ForumsAligned, RunsAligned, CustodyAligned;
  }

  lemma BoundHolds(c: Custody, r: Roster, state: map<Id, ObligationState>, o: Id, b: Binding)
    requires CustodyHolds(c, r, state) && o in r.rows && state[o] == Active && o !in c.bindings
    ensures CustodyHolds(c.(bindings := c.bindings[o := b], state := c.state[o := Bound]), r, state)
  {
    hide RosterAligned;
  }

  lemma HasBound(hashes: Hashes, db: Tables, o: Id, b: Binding, u: Tables)
    requires Invariant(hashes, db) && o in db.actors.roster.rows && db.actors.state[o] == Active && Bind(db, o, b) == Ok(u)
    ensures Invariant(hashes, u)
  {
    hide RuntimeTaken, RosterAligned, CustodyHolds, ThreadsHold, WindowsHold, OutcomesHold, RunsHold, PairsMatched, Corrections, ActorPhases;
    BoundHolds(db.custody, db.actors.roster, db.actors.state, o, b);
    CustodyChanges(hashes, db, u.custody, u);
  }

  /** A bound runtime may be reconciled, or settled with the proof on record. */
  lemma ReconciledHolds(c: Custody, d: Custody, r: Roster, state: map<Id, ObligationState>, o: Id)
    requires CustodyHolds(c, r, state) && o in c.bindings && c.state[o] == Bound
    requires d.bindings == c.bindings && d.settlements == c.settlements && d.state == c.state[o := Reconciled]
    ensures CustodyHolds(d, r, state)
  {
    hide RosterAligned;
  }

  lemma SettledHolds(c: Custody, d: Custody, r: Roster, state: map<Id, ObligationState>, o: Id, x: Settlement)
    requires CustodyHolds(c, r, state) && o in c.bindings && c.state[o] == Bound && o in r.rows && state[o] == Active
    requires d.bindings == c.bindings && d.settlements == c.settlements[o := x] && d.state == c.state[o := RecoverySettled]
    ensures CustodyHolds(d, r, state)
  {
    hide RosterAligned;
  }

  lemma HasReconciled(hashes: Hashes, outside: Outside, db: Tables, o: Id, child: Id, u: Tables, ev: StudyEvent)
    requires Invariant(hashes, db) && ReconcileRuntime(outside, db, o, child) == Ok((u, ev))
    ensures Invariant(hashes, u)
  {
    hide RosterAligned, CustodyHolds, ThreadsHold, WindowsHold, OutcomesHold, RunsHold, PairsMatched, Corrections, ActorPhases;
    ReconciledHolds(db.custody, u.custody, db.actors.roster, db.actors.state, o);
    CustodyChanges(hashes, db, u.custody, u);
  }

  lemma HasSettled(hashes: Hashes, outside: Outside, db: Tables, o: Id, attempt: Id, child: Id, receipt: Id, s: Store, ev: StudyEvent)
    requires Invariant(hashes, db) && SettleRecovery(outside, db, o, attempt, child, receipt) == Ok((s, ev))
    ensures Invariant(hashes, s.tables)
  {
    hide RosterAligned, CustodyHolds, ThreadsHold, WindowsHold, OutcomesHold, RunsHold, PairsMatched, Corrections, ActorPhases, ProvenAbsent, AttemptSettled, RecoveryUsed;
    SettledHolds(db.custody, s.tables.custody, db.actors.roster, db.actors.state, o, Settlement(attempt, child, receipt));
    CustodyChanges(hashes, db, s.tables.custody, s.tables);
  }

  lemma HasBoundRuntime(hashes: Hashes, outside: Outside, db: Tables, c: StudyCommand, u: Tables, ev: StudyEvent)
    requires Invariant(hashes, db)
    requires (c.BindActorRuntime? && BindOffice(outside, db, c.obligation, c.office, c.child, c.admission) == Ok((u, ev)))
          || (c.BindActorTaskAttemptRuntime? && BindAttempt(outside, db, c.obligation, c.attempt, c.child, c.admission) == Ok((u, ev)))
    ensures Invariant(hashes, u)
  {
    hide Invariant, RosterAligned, BindRefusal, Bind;
    var a := outside.admissions[c.admission];
    var owner := if c.BindActorRuntime? then OfficeSession(c.office) else TaskAttempt(c.attempt);
    HasBound(hashes, db, c.obligation, Binding(owner, c.child, c.admission, a.profile.value), u);
  }
}
