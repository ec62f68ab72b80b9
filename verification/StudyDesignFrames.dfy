/** The study design, episodes, pairs and runs. */
module StudyDesignFrames {
  import opened Wrappers
  import opened StudyVocabulary
  import opened StudyTables
  import opened StudySpec
  import opened StudyInvariants
  import opened StudyEpisodeFrames
  import opened FiniteSums

  // ---------- revisions are only ever added ----------

  ghost predicate DesignGrows(c: Design, d: Design) {
    && (forall k :: k in c.protocols ==> k in d.protocols && d.protocols[k] == c.protocols[k])
    && (forall k :: k in c.measurements ==> k in d.measurements && d.measurements[k] == c.measurements[k])
  }

  lemma RevealedDesign(hashes: Hashes, c: Design, d: Design, t: Episodes, r: Roster, state: map<Id, ObligationState>, revealed: map<Id, Reveal>)
    requires Revealed(hashes, c, t, r, state, revealed) && DesignGrows(c, d)
    ensures Revealed(hashes, d, t, r, state, revealed)
  {
    hide AllTerminal, Past, EpisodesAligned, RosterAligned;
    forall e | e in revealed ensures RevealHolds(hashes, d, t, r, state, e, revealed[e]) {
      assert RevealHolds(hashes, c, t, r, state, e, revealed[e]);
    }
  }

  lemma ResultsDesign(c: Design, d: Design, t: Episodes, o: Outcomes)
    requires Results(c, t, o) && DesignGrows(c, d)
    ensures Results(d, t, o)
  {
    hide WellShaped, EpisodesAligned;
    forall k | k in o.results ensures ResultHolds(d, t, o.revealed, k.0, k.1, o.results[k]) {
      assert ResultHolds(c, t, o.revealed, k.0, k.1, o.results[k]);
    }
  }

  lemma ClosedDesign(c: Design, d: Design, t: Episodes, r: Roster, state: map<Id, ObligationState>, charged: map<Id, nat>, o: Outcomes)
    requires ClosedEpisodes(c, t, r, state, charged, o) && DesignGrows(c, d)
    ensures ClosedEpisodes(d, t, r, state, charged, o)
  {
    hide AllTerminal, Sum, ColumnOf, RecordedSlots, RosterAligned;
    forall e | e in t.rows && t.state[e] == Closed ensures ClosedHolds(d, t, r, state, charged, o, e) {
      assert ClosedHolds(c, t, r, state, charged, o, e);
    }
  }

  lemma SealedDesign(hashes: Hashes, c: Design, d: Design, t: Episodes, p: Places, messages: map<Id, Message>)
    requires Sealed(hashes, c, t, p, messages) && DesignGrows(c, d)
    ensures Sealed(hashes, d, t, p, messages)
  {
    hide CorrectionOf, Past, PlacesAligned;
  }

  lemma DesignExtends(hashes: Hashes, db: Tables, d: Design, u: Tables)
    requires Invariant(hashes, db) && DesignGrows(db.design, d) && u == db.(design := d)
    ensures Invariant(hashes, u)
  {
    hide Lifecycle, ActorPhases, Rooms, Ordinals, Authors, Heads, Windows, Relations, ReadsCounted, ReadsInside, PostsBudgeted, PostsCounted,
         Citations, Revealed, Results, ClosedEpisodes, PairsMatched, RunsCounted, RunsClosed, CustodyHolds,
         EpisodesAligned, PairsAligned, RosterAligned, ActorsAligned, PlacesAligned, ForumsAligned, RunsAligned, CustodyAligned, Sealed, Twins, DesignGrows;
    RevealedDesign(hashes, db.design, d, db.episodes, db.actors.roster, db.actors.state, db.outcomes.revealed);
    ResultsDesign(db.design, d, db.episodes, db.outcomes);
    ClosedDesign(db.design, d, db.episodes, db.actors.roster, db.actors.state, db.actors.charged, db.outcomes);
    SealedDesign(hashes, db.design, d, db.episodes, db.forum.places, db.forum.messages);
  }

  /** A revision command changes the design alone, by adding to it. */
  lemma RevisionAdds(hashes: Hashes, outside: Outside, db: Tables, c: StudyCommand, ids: Fresh, u: Tables, ev: StudyEvent)
    requires c.AdmitProtocolRevision? || c.AdmitWorldRevision? || c.AdmitMeasurementRevision? || c.AdmitInstitutionRevision? || c.AdmitPopulationSnapshot?
    requires Transition(hashes, outside, db, c, ids) == Ok((u, ev))
    ensures DesignGrows(db.design, u.design) && u == db.(design := u.design)
  {
  }

  // ---------- episodes ----------

  lemma NewEpisodeExtends(t: Episodes, id: Id, row: Episode)
    requires id !in t.rows
    ensures var u := InsertEpisode(t, id, row); Extends(t, u) && NoneCloses(t, u)
  {
  }

  lemma NewEpisodeLifecycle(t: Episodes, id: Id, row: Episode)
    requires id !in t.rows && Lifecycle(t)
    ensures Lifecycle(InsertEpisode(t, id, row))
  {
  }

  lemma NewEpisodePhases(r: Roster, state: map<Id, ObligationState>, t: Episodes, id: Id, row: Episode)
    requires id !in t.rows && ActorPhases(r, state, t)
    ensures ActorPhases(r, state, InsertEpisode(t, id, row))
  {
    hide RosterAligned;
  }

  lemma NewEpisode(t: Episodes, a: Actors, id: Id, row: Episode)
    requires id !in t.rows && Lifecycle(t) && ActorPhases(a.roster, a.state, t)
    ensures var u := InsertEpisode(t, id, row); Extends(t, u) && NoneCloses(t, u) && Lifecycle(u) && ActorPhases(a.roster, a.state, u)
  {
    hide *;
    NewEpisodeExtends(t, id, row);
    NewEpisodeLifecycle(t, id, row);
    NewEpisodePhases(a.roster, a.state, t, id, row);
  }

  lemma EpisodeAdmittedKeeps(hashes: Hashes, db: Tables, row: Episode, id: Id, u: Tables, ev: StudyEvent)
    requires Invariant(hashes, db) && AdmitEpisodeRow(db, row, id) == Ok((u, ev))
    ensures Invariant(hashes, u)
  {
    hide Lifecycle, ActorPhases, Rooms, Ordinals, Authors, Heads, Windows, Relations, ReadsCounted, ReadsInside, PostsBudgeted, PostsCounted,
         Citations, Revealed, Results, ClosedEpisodes, PairsMatched, Corrections, RunsCounted, RunsClosed, CustodyHolds,
         EpisodesAligned, PairsAligned, RosterAligned, ActorsAligned, PlacesAligned, ForumsAligned, RunsAligned, CustodyAligned, Extends, NoneCloses, InsertEpisode;
    NewEpisode(db.episodes, db.actors, id, row);
    EpisodesExtend(hashes, db, InsertEpisode(db.episodes, id, row), u);
  }

  /** Assignments and forks are noted without anybody moving. */
  ghost predicate SameCourse(t: Episodes, u: Episodes) {
    u.rows == t.rows && u.state == t.state && u.frozen == t.frozen && u.successors == t.successors
    && forall e :: e in t.treatments ==> e in u.treatments && u.treatments[e] == t.treatments[e]
  }

  lemma CourseExtends(t: Episodes, u: Episodes)
    requires SameCourse(t, u)
    ensures Extends(t, u) && NoneCloses(t, u)
  {
  }

  lemma CourseLifecycle(t: Episodes, u: Episodes)
    requires SameCourse(t, u) && Lifecycle(t)
    ensures Lifecycle(u)
  {
  }

  lemma CoursePhases(r: Roster, state: map<Id, ObligationState>, t: Episodes, u: Episodes)
    requires SameCourse(t, u) && ActorPhases(r, state, t)
    ensures ActorPhases(r, state, u)
  {
    hide RosterAligned;
  }

  lemma CourseKeeps(hashes: Hashes, db: Tables, t: Episodes, u: Tables)
    requires Invariant(hashes, db) && SameCourse(db.episodes, t) && u == db.(episodes := t)
    ensures Invariant(hashes, u)
  {
    hide Lifecycle, ActorPhases, CustodyHolds, ThreadsHold, WindowsHold, OutcomesHold, RunsHold, PairsMatched, Corrections, Extends, NoneCloses, SameCourse;
    CourseExtends(db.episodes, t);
    CourseLifecycle(db.episodes, t);
    CoursePhases(db.actors.roster, db.actors.state, db.episodes, t);
    EpisodesExtend(hashes, db, t, u);
  }

  lemma TreatmentAssignedKeeps(hashes: Hashes, db: Tables, e: Id, treatment: Treatment, id: Id, u: Tables, ev: StudyEvent)
    requires Invariant(hashes, db) && AssignTreatmentTo(db, e, treatment, id) == Ok((u, ev))
    ensures Invariant(hashes, u)
  {
    hide Lifecycle, ActorPhases, Rooms, Ordinals, Authors, Heads, Windows, Relations, ReadsCounted, ReadsInside, PostsBudgeted, PostsCounted,
         Citations, Revealed, Results, ClosedEpisodes, PairsMatched, Corrections, RunsCounted, RunsClosed, CustodyHolds,
         EpisodesAligned, PairsAligned, RosterAligned, ActorsAligned, PlacesAligned, ForumsAligned, RunsAligned, CustodyAligned, Extends, NoneCloses, Assigned;
    CourseKeeps(hashes, db, u.episodes, u);
  }

  /** A fork is a new episode with the other treatment. */
  lemma ForkKeeps(hashes: Hashes, db: Tables, source: Id, delta: Treatment, ids: Fresh, u: Tables, ev: StudyEvent)
    requires Invariant(hashes, db) && ForkOf(hashes, db, source, delta, ids) == Ok((u, ev))
    ensures Invariant(hashes, u)
  {
    hide Lifecycle, ActorPhases, Rooms, Ordinals, Authors, Heads, Windows, Relations, ReadsCounted, ReadsInside, PostsBudgeted, PostsCounted,
         Citations, Revealed, Results, ClosedEpisodes, PairsMatched, Corrections, RunsCounted, RunsClosed, CustodyHolds,
         EpisodesAligned, PairsAligned, RosterAligned, ActorsAligned, PlacesAligned, ForumsAligned, RunsAligned, CustodyAligned, Extends, NoneCloses, Assigned, InsertEpisode, ForkOf;
    var row, t1, t2 := ForkParts(hashes, db, source, delta, ids, u, ev);
    NewEpisode(db.episodes, db.actors, ids.first, row);
    EpisodesExtend(hashes, db, t1, db.(episodes := t1));
    CourseKeeps(hashes, db.(episodes := t1), t2, db.(episodes := t2));
    CourseKeeps(hashes, db.(episodes := t2), u.episodes, u);
  }

  lemma ForkParts(hashes: Hashes, db: Tables, source: Id, delta: Treatment, ids: Fresh, u: Tables, ev: StudyEvent)
    returns (row: Episode, t1: Episodes, t2: Episodes)
    requires ForkOf(hashes, db, source, delta, ids) == Ok((u, ev))
    ensures ids.first !in db.episodes.rows && t1 == InsertEpisode(db.episodes, ids.first, row)
    ensures ids.first in t1.rows && ids.first !in t1.treatments && t2 == t1.(treatments := t1.treatments[ids.first := Assignment(ids.second, delta)])
    ensures u == db.(episodes := t2.(forks := t2.forks[ids.third := Fork(source, ids.first, delta)]))
  {
    hide RosterAligned, ActorsAligned, Assigned, PlacesAligned, ForumsAligned, PairsAligned;
    row := db.episodes.rows[source].(randomization := hashes.digest(ForkSeed(db.episodes.rows[source].randomization, delta)));
    t1 := InsertEpisode(db.episodes, ids.first, row);
    t2 := t1.(treatments := t1.treatments[ids.first := Assignment(ids.second, delta)]);
  }

  lemma ReplacementLifecycle(t: Episodes, u: Episodes, e: Id, successor: Id)
    requires Lifecycle(t) && e in t.frozen && t.state[e] == SourceActive
    requires u == SetState(t.(successors := t.successors[e := successor]), e, SourceReconciled)
    ensures Lifecycle(u)
  {
  }

  lemma ReplacementExtends(t: Episodes, u: Episodes, e: Id, successor: Id)
    requires e in t.rows && t.state[e] == SourceActive
    requires u == SetState(t.(successors := t.successors[e := successor]), e, SourceReconciled)
    ensures Extends(t, u) && NoneCloses(t, u)
  {
  }

  lemma ReplacementPhases(r: Roster, state: map<Id, ObligationState>, t: Episodes, u: Episodes, e: Id, successor: Id)
    requires ActorPhases(r, state, t) && e in t.rows && t.state[e] == SourceActive
    requires u == SetState(t.(successors := t.successors[e := successor]), e, SourceReconciled)
    ensures ActorPhases(r, state, u)
  {
    hide RosterAligned;
  }

  lemma ReplacementKeeps(hashes: Hashes, db: Tables, e: Id, successor: Id, u: Tables, ev: StudyEvent)
    requires Invariant(hashes, db) && Replace(db, e, successor) == Ok((u, ev))
    ensures Invariant(hashes, u)
  {
    hide Lifecycle, ActorPhases, Rooms, Ordinals, Authors, Heads, Windows, Relations, ReadsCounted, ReadsInside, PostsBudgeted, PostsCounted,
         Citations, Revealed, Results, ClosedEpisodes, PairsMatched, Corrections, RunsCounted, RunsClosed, CustodyHolds,
         EpisodesAligned, PairsAligned, RosterAligned, ActorsAligned, PlacesAligned, ForumsAligned, RunsAligned, CustodyAligned, Extends, NoneCloses, SourcesTerminal;
    ReplacementExtends(db.episodes, u.episodes, e, successor);
    ReplacementPhases(db.actors.roster, db.actors.state, db.episodes, u.episodes, e, successor);
    ReplacementLifecycle(db.episodes, u.episodes, e, successor);
    EpisodesExtend(hashes, db, u.episodes, u);
  }

  // ---------- pairs ----------

  lemma PairAdds(d: Design, t: Episodes, p: Pairs, k: Id, x: Pair)
    requires PairsMatched(t, p) && Matched(d, t, x.retained, x.reset)
    requires k !in p.rows && x.retained !in p.retainedIn && x.reset !in p.resetIn
    ensures PairsMatched(t, InsertPair(p, x, k))
    ensures !Past(t, x.retained) && !Past(t, x.reset)
  {
    hide EpisodesAligned;
  }

  lemma TwinsAdd(pairs: Pairs, p: Places, messages: map<Id, Message>, k: Id, x: Pair)
    requires Twins(pairs, p, messages) && k !in pairs.rows && x.retained !in pairs.retainedIn && x.reset !in pairs.resetIn
    requires forall m :: !CorrectionOf(p, messages, x.retained, m)
    ensures Twins(InsertPair(pairs, x, k), p, messages)
  {
    hide CorrectionOf, PlacesAligned;
  }

  lemma NoCorrectionYet(hashes: Hashes, d: Design, t: Episodes, p: Places, messages: map<Id, Message>, e: Id)
    requires Sealed(hashes, d, t, p, messages) && !Past(t, e)
    ensures forall m :: !CorrectionOf(p, messages, e, m)
  {
    hide CorrectionOf, Past;
  }

  lemma RunsWithPair(r: Runs, pairs: Pairs, t: Episodes, k: Id, x: Pair)
    requires RunsClosed(r, pairs, t) && k !in pairs.rows && x.retained !in pairs.retainedIn && x.reset !in pairs.resetIn
    ensures RunsClosed(r, InsertPair(pairs, x, k), t)
  {
    hide EpisodesAligned;
  }

  lemma PairKeeps(hashes: Hashes, db: Tables, retained: Id, reset: Id, id: Id, u: Tables, ev: StudyEvent)
    requires Invariant(hashes, db) && AdmitPair(db, retained, reset, id) == Ok((u, ev))
    ensures Invariant(hashes, u)
  {
    hide Lifecycle, ActorPhases, Rooms, Ordinals, Authors, Heads, Windows, Relations, ReadsCounted, ReadsInside, PostsBudgeted, PostsCounted,
         Citations, Revealed, Results, ClosedEpisodes, PairsMatched, RunsCounted, RunsClosed, CustodyHolds,
         EpisodesAligned, PairsAligned, RosterAligned, ActorsAligned, PlacesAligned, ForumsAligned, RunsAligned, CustodyAligned, Sealed, Twins, CorrectionOf, Past, Matched, InsertPair;
    var x := Pair(retained, reset);
    PairAdds(db.design, db.episodes, db.pairs, id, x);
    NoCorrectionYet(hashes, db.design, db.episodes, db.forum.places, db.forum.messages, retained);
    TwinsAdd(db.pairs, db.forum.places, db.forum.messages, id, x);
    RunsWithPair(db.runs, db.pairs, db.episodes, id, x);
  }

  // ---------- runs ----------

  lemma RunsChange(hashes: Hashes, db: Tables, r: Runs, u: Tables)
    requires Invariant(hashes, db) && RunsCounted(r) && RunsClosed(r, db.pairs, db.episodes) && u == db.(runs := r)
    ensures Invariant(hashes, u)
  {
    hide Lifecycle, ActorPhases, Rooms, Ordinals, Authors, Heads, Windows, Relations, ReadsCounted, ReadsInside, PostsBudgeted, PostsCounted,
         Citations, Revealed, Results, ClosedEpisodes, PairsMatched, Corrections, RunsCounted, RunsClosed, CustodyHolds,
         EpisodesAligned, PairsAligned, RosterAligned, ActorsAligned, PlacesAligned, ForumsAligned, RunsAligned, CustodyAligned;
  }

  lemma OrdinalsRegister(pairs: map<(Id, int), RunPair>, run: Id, ordinal: int, x: RunPair, k: Id)
    requires (run, ordinal) !in pairs
    ensures OrdinalsOf(pairs[(run, ordinal) := x], k) == OrdinalsOf(pairs, k) + (if k == run then {ordinal} else {})
    ensures ordinal !in OrdinalsOf(pairs, run)
  {
    var after := pairs[(run, ordinal) := x];
    forall i ensures i in OrdinalsOf(after, k) <==> i in OrdinalsOf(pairs, k) || (k == run && i == ordinal) {
      assert i in OrdinalsOf(after, k) <==> (k, i) in after;
      assert i in OrdinalsOf(pairs, k) <==> (k, i) in pairs;
    }
  }

  lemma RegistrationCounts(r: Runs, s: Runs, run: Id, ordinal: PairOrdinal, x: RunPair, next: nat)
    requires RunsCounted(r) && run in r.rows && r.state[run] == Pairing && ordinal <= r.rows[run].pairCount
    requires (run, ordinal) !in r.pairs && next == r.registered[run] + 1 && next <= r.rows[run].pairCount
    requires s.rows == r.rows && s.pairs == r.pairs[(run, ordinal) := x] && s.registered == r.registered[run := next]
    requires s.state == r.state[run := if next == r.rows[run].pairCount then Ready else Pairing]
    ensures RunsCounted(s)
  {
    hide OrdinalsOf;
    forall k | k in s.rows ensures |OrdinalsOf(s.pairs, k)| == |OrdinalsOf(r.pairs, k)| + (if k == run then 1 else 0) {
      OrdinalsRegister(r.pairs, run, ordinal, x, k);
    }
  }

  lemma RegistrationKeeps(hashes: Hashes, db: Tables, run: Id, ordinal: PairOrdinal, pair: Id, randomization: Digest, u: Tables, ev: StudyEvent)
    requires Invariant(hashes, db) && RegisterPair(db, run, ordinal, pair, randomization) == Ok((u, ev))
    ensures Invariant(hashes, u)
  {
    hide Lifecycle, ActorPhases, Rooms, Ordinals, Authors, Heads, Windows, Relations, ReadsCounted, ReadsInside, PostsBudgeted, PostsCounted,
         Citations, Revealed, Results, ClosedEpisodes, PairsMatched, Corrections, RunsCounted, RunsClosed, CustodyHolds,
         EpisodesAligned, PairsAligned, RosterAligned, ActorsAligned, PlacesAligned, ForumsAligned, CustodyAligned, OrdinalsOf;
    RegisteredPairs(db, run, ordinal, pair, randomization, u, ev);
    RunsChange(hashes, db, u.runs, u);
  }

  lemma RegisteredPairs(db: Tables, run: Id, ordinal: PairOrdinal, pair: Id, randomization: Digest, u: Tables, ev: StudyEvent)
    requires RunsCounted(db.runs) && RunsClosed(db.runs, db.pairs, db.episodes)
    requires RegisterPair(db, run, ordinal, pair, randomization) == Ok((u, ev))
    ensures RunsCounted(u.runs) && RunsClosed(u.runs, db.pairs, db.episodes) && u == db.(runs := u.runs)
  {
    hide OrdinalsOf, PairsAligned, EpisodesAligned, BothClosed, RunsCounted;
    RegistrationCounts(db.runs, u.runs, run, ordinal, RunPair(pair, randomization), db.runs.registered[run] + 1);
  }

  lemma RunAdmittedKeeps(hashes: Hashes, outside: Outside, db: Tables, row: RunRow, id: Id, u: Tables, ev: StudyEvent)
    requires Invariant(hashes, db) && AdmitRun(outside, db, row, id) == Ok((u, ev))
    ensures Invariant(hashes, u)
  {
    hide Lifecycle, ActorPhases, Rooms, Ordinals, Authors, Heads, Windows, Relations, ReadsCounted, ReadsInside, PostsBudgeted, PostsCounted,
         Citations, Revealed, Results, ClosedEpisodes, PairsMatched, Corrections, RunsCounted, RunsClosed, CustodyHolds,
         EpisodesAligned, PairsAligned, RosterAligned, ActorsAligned, PlacesAligned, ForumsAligned, CustodyAligned;
    NewRun(db.runs, u.runs, db.pairs, db.episodes, id, row);
    RunsChange(hashes, db, u.runs, u);
  }

  lemma NewRun(r: Runs, s: Runs, pairs: Pairs, t: Episodes, id: Id, row: RunRow)
    requires RunsCounted(r) && RunsClosed(r, pairs, t) && id !in r.rows
    requires s == r.(rows := r.rows[id := row], registered := r.registered[id := 0], state := r.state[id := Pairing])
    ensures RunsCounted(s) && RunsClosed(s, pairs, t)
  {
    hide PairsAligned, EpisodesAligned, BothClosed, OrdinalsOf;
    NoOrdinals(r, id);
  }

  lemma NoOrdinals(r: Runs, id: Id)
    requires id !in r.rows
    ensures OrdinalsOf(r.pairs, id) == {}
  {
  }

  lemma RunMoves(r: Runs, s: Runs, pairs: Pairs, t: Episodes, run: Id, state: RunState)
    requires RunsCounted(r) && RunsClosed(r, pairs, t) && run in r.rows && r.state[run] != Pairing && state != Pairing
    requires s == r.(state := r.state[run := state])
    requires state == Completed ==> forall k :: k in r.pairs && k.0 == run ==> r.pairs[k].pair in pairs.rows && BothClosed(t, pairs.rows[r.pairs[k].pair])
    ensures RunsCounted(s) && RunsClosed(s, pairs, t)
  {
    hide PairsAligned, EpisodesAligned, BothClosed, OrdinalsOf;
  }

  lemma RunStartKeeps(hashes: Hashes, db: Tables, run: Id, u: Tables, ev: StudyEvent)
    requires Invariant(hashes, db) && StartRun(db, run) == Ok((u, ev))
    ensures Invariant(hashes, u)
  {
    hide Lifecycle, ActorPhases, Rooms, Ordinals, Authors, Heads, Windows, Relations, ReadsCounted, ReadsInside, PostsBudgeted, PostsCounted,
         Citations, Revealed, Results, ClosedEpisodes, PairsMatched, Corrections, RunsCounted, RunsClosed, CustodyHolds,
         EpisodesAligned, PairsAligned, RosterAligned, ActorsAligned, PlacesAligned, ForumsAligned, CustodyAligned;
    RunMoves(db.runs, u.runs, db.pairs, db.episodes, run, Running);
    RunsChange(hashes, db, u.runs, u);
  }

  /** No open pair means every registered pair is closed: pairs and their arms exist. */
  lemma NoneOpen(db: Tables, run: Id)
    requires RunsClosed(db.runs, db.pairs, db.episodes) && PairsMatched(db.episodes, db.pairs) && !HasOpenPair(db, run)
    ensures forall k :: k in db.runs.pairs && k.0 == run ==>
      db.runs.pairs[k].pair in db.pairs.rows && BothClosed(db.episodes, db.pairs.rows[db.runs.pairs[k].pair])
  {
    hide PairsAligned, RunsAligned, Past;
  }

  lemma RunCompletionKeeps(hashes: Hashes, db: Tables, run: Id, u: Tables, ev: StudyEvent)
    requires Invariant(hashes, db) && CompleteRun(db, run) == Ok((u, ev))
    ensures Invariant(hashes, u)
  {
    hide Lifecycle, ActorPhases, Rooms, Ordinals, Authors, Heads, Windows, Relations, ReadsCounted, ReadsInside, PostsBudgeted, PostsCounted,
         Citations, Revealed, Results, ClosedEpisodes, PairsMatched, Corrections, RunsCounted, RunsClosed, CustodyHolds,
         EpisodesAligned, PairsAligned, RosterAligned, ActorsAligned, PlacesAligned, ForumsAligned, CustodyAligned, HasOpenPair, BothClosed;
    NoneOpen(db, run);
    RunMoves(db.runs, u.runs, db.pairs, db.episodes, run, Completed);
    RunsChange(hashes, db, u.runs, u);
  }
}
