/** Changes to the episodes alone: admission, treatments and state moves on one side of the release. */
module StudyEpisodeFrames {
  import opened Wrappers
  import opened StudyVocabulary
  import opened StudyTables
  import opened StudySpec
  import opened StudyInvariants
  import opened FiniteSums

  /** Old episodes keep what they are, and closed ones stay closed; nobody passes the release. */
  ghost predicate Sides(a: Episodes, b: Episodes) {
    && (forall e :: e in a.rows ==>
          && e in b.rows && b.rows[e] == a.rows[e]
          && (Past(a, e) <==> Past(b, e)) && (a.state[e] == Closed ==> b.state[e] == Closed))
    && (forall e :: e in a.treatments ==> e in b.treatments && b.treatments[e] == a.treatments[e])
    && (forall e :: e in b.rows && e !in a.rows ==> b.state[e] == Admitted)
  }

  /** And nothing is frozen. */
  ghost predicate Extends(a: Episodes, b: Episodes) {
    Sides(a, b) && b.frozen == a.frozen
  }

  /** What outcomes and runs depend on: identities, having passed the release, and being closed. */
  ghost predicate Keeps(a: Episodes, b: Episodes) {
    forall e :: e in a.rows ==>
      && e in b.rows && b.rows[e] == a.rows[e]
      && (Past(a, e) ==> Past(b, e)) && (a.state[e] == Closed ==> b.state[e] == Closed)
  }

  ghost predicate NoneCloses(a: Episodes, b: Episodes) {
    forall e :: e in b.rows && b.state[e] == Closed ==> e in a.rows && a.state[e] == Closed
  }

  lemma SidesKeeps(a: Episodes, b: Episodes)
    requires Sides(a, b)
    ensures Keeps(a, b)
  {
  }

  lemma RoomsExtend(p: Places, a: Episodes, b: Episodes)
    requires Rooms(p, a) && Extends(a, b)
    ensures Rooms(p, b)
  {
  }

  lemma InPlaceExtends(a: Episodes, b: Episodes, r: Roster, e: Id, m: Message)
    requires InPlace(a, r, e, m) && b.frozen == a.frozen
    ensures InPlace(b, r, e, m)
  {
  }

  lemma AuthorsExtend(a: Episodes, b: Episodes, r: Roster, p: Places, messages: map<Id, Message>)
    requires Authors(a, r, p, messages) && b.frozen == a.frozen
    ensures Authors(b, r, p, messages)
  {
    hide InPlace;
    forall m | m in messages
      ensures messages[m].thread in p.threads && InPlace(b, r, EpisodeOf(p, messages[m].thread), messages[m])
    {
      InPlaceExtends(a, b, r, EpisodeOf(p, messages[m].thread), messages[m]);
    }
  }

  lemma HeadsExtend(a: Episodes, b: Episodes, p: Places, heads: map<Id, Ordinal>)
    requires Heads(a, p, heads) && Rooms(p, a) && Extends(a, b)
    ensures Heads(b, p, heads)
  {
    forall d | d in p.threads ensures HeadFollows(b, EpisodeOf(p, d), heads[d]) {
      assert HeadFollows(a, EpisodeOf(p, d), heads[d]);
    }
  }

  lemma WindowStartExtends(a: Episodes, b: Episodes, e: Id, phase: PopulationPhase)
    requires Extends(a, b) && WindowStart(a, e, phase).Some?
    ensures WindowStart(b, e, phase) == WindowStart(a, e, phase)
  {
    hide EpisodesAligned, Past;
  }

  lemma WindowsExtend(a: Episodes, b: Episodes, r: Roster, p: Places, heads: map<Id, Ordinal>, exposures: map<Id, Exposure>, through: map<Id, Ordinal>)
    requires Windows(a, r, p, heads, exposures, through) && Extends(a, b)
    ensures Windows(b, r, p, heads, exposures, through)
  {
    hide Extends, WindowStart;
    forall o | o in exposures
      ensures WindowStart(b, r.rows[o].episode, r.rows[o].phase) == WindowStart(a, r.rows[o].episode, r.rows[o].phase)
    {
      WindowStartExtends(a, b, r.rows[o].episode, r.rows[o].phase);
    }
  }

  lemma PostsExtend(a: Episodes, b: Episodes, r: Roster, posts: map<Id, nat>, p: Places, heads: map<Id, Ordinal>)
    requires PostsCounted(a, r, posts, p, heads) && Rooms(p, a) && Sides(a, b)
    ensures PostsCounted(b, r, posts, p, heads)
  {
    hide Sum, ColumnOf;
  }

  lemma RevealedExtends(hashes: Hashes, d: Design, a: Episodes, b: Episodes, r: Roster, state: map<Id, ObligationState>, revealed: map<Id, Reveal>)
    requires Revealed(hashes, d, a, r, state, revealed) && Keeps(a, b)
    ensures Revealed(hashes, d, b, r, state, revealed)
  {
    hide AllTerminal;
    forall e | e in revealed ensures RevealHolds(hashes, d, b, r, state, e, revealed[e]) {
      assert RevealHolds(hashes, d, a, r, state, e, revealed[e]);
    }
  }

  lemma ResultsExtend(d: Design, a: Episodes, b: Episodes, o: Outcomes)
    requires Results(d, a, o) && Keeps(a, b)
    ensures Results(d, b, o)
  {
    hide WellShaped;
    forall k | k in o.results ensures ResultHolds(d, b, o.revealed, k.0, k.1, o.results[k]) {
      assert ResultHolds(d, a, o.revealed, k.0, k.1, o.results[k]);
    }
  }

  lemma ClosedExtends(d: Design, a: Episodes, b: Episodes, r: Roster, state: map<Id, ObligationState>, charged: map<Id, nat>, o: Outcomes)
    requires ClosedEpisodes(d, a, r, state, charged, o) && Keeps(a, b) && NoneCloses(a, b)
    ensures ClosedEpisodes(d, b, r, state, charged, o)
  {
    hide AllTerminal, Sum, ColumnOf, RecordedSlots;
    forall e | e in b.rows && b.state[e] == Closed ensures ClosedHolds(d, b, r, state, charged, o, e) {
      assert ClosedHolds(d, a, r, state, charged, o, e);
    }
  }

  lemma PairsExtend(a: Episodes, b: Episodes, pairs: Pairs)
    requires PairsMatched(a, pairs) && Sides(a, b)
    ensures PairsMatched(b, pairs)
  {
  }

  lemma CorrectionsExtend(hashes: Hashes, d: Design, a: Episodes, b: Episodes, pairs: Pairs, p: Places, messages: map<Id, Message>)
    requires Corrections(hashes, d, a, pairs, p, messages) && Sides(a, b)
    ensures Corrections(hashes, d, b, pairs, p, messages)
  {
  }

  lemma RunsExtend(r: Runs, pairs: Pairs, a: Episodes, b: Episodes)
    requires RunsClosed(r, pairs, a) && Keeps(a, b)
    ensures RunsClosed(r, pairs, b)
  {
  }

  lemma ExtendsFrozen(a: Episodes, b: Episodes)
    requires Extends(a, b)
    ensures b.frozen == a.frozen && Sides(a, b)
  {
  }

  lemma EpisodesExtend(hashes: Hashes, db: Tables, t: Episodes, u: Tables)
    requires Invariant(hashes, db) && Extends(db.episodes, t) && NoneCloses(db.episodes, t) && Lifecycle(t) && ActorPhases(db.actors.roster, db.actors.state, t)
    requires u == db.(episodes := t)
    ensures Invariant(hashes, u)
  {
    hide Lifecycle, ActorPhases, Rooms, Ordinals, Authors, Heads, Windows, Relations, ReadsCounted, ReadsInside, PostsBudgeted, PostsCounted,
         Citations, Revealed, Results, ClosedEpisodes, PairsMatched, Corrections, RunsCounted, RunsClosed, CustodyHolds,
         EpisodesAligned, PairsAligned, RosterAligned, ActorsAligned, PlacesAligned, ForumsAligned, RunsAligned, CustodyAligned, Extends, Sides, Keeps, NoneCloses;
    var a := db.episodes;
    var f := db.forum;
    var r := db.actors.roster;
    RoomsExtend(f.places, a, t);
    ExtendsFrozen(a, t);
    SidesKeeps(a, t);
    AuthorsExtend(a, t, r, f.places, f.messages);
    HeadsExtend(a, t, f.places, f.heads);
    WindowsExtend(a, t, r, f.places, f.heads, f.exposures, f.through);
    PostsExtend(a, t, r, db.actors.postsUsed, f.places, f.heads);
    RevealedExtends(hashes, db.design, a, t, r, db.actors.state, db.outcomes.revealed);
    ResultsExtend(db.design, a, t, db.outcomes);
    ClosedExtends(db.design, a, t, r, db.actors.state, db.actors.charged, db.outcomes);
    PairsExtend(a, t, db.pairs);
    CorrectionsExtend(hashes, db.design, a, t, db.pairs, f.places, f.messages);
    RunsExtend(db.runs, db.pairs, a, t);
  }

  // ---------- one episode moves on ----------

  lemma MovedLifecycle(t: Episodes, e: Id, s: EpisodeState)
    requires Lifecycle(t) && e in t.rows && e in t.treatments && s != Admitted && (Rank(s) >= 3 <==> Rank(t.state[e]) >= 3)
    ensures Lifecycle(SetState(t, e, s))
  {
  }

  lemma MovedPhases(r: Roster, state: map<Id, ObligationState>, t: Episodes, e: Id, s: EpisodeState)
    requires ActorPhases(r, state, t) && e in t.rows && Rank(t.state[e]) <= Rank(s)
    ensures ActorPhases(r, state, SetState(t, e, s))
  {
    hide RosterAligned;
  }

  lemma MovedExtends(t: Episodes, e: Id, s: EpisodeState)
    requires e in t.rows && (Rank(t.state[e]) >= 5 <==> Rank(s) >= 5) && (t.state[e] == Closed ==> s == Closed)
    ensures Extends(t, SetState(t, e, s)) && (s != Closed ==> NoneCloses(t, SetState(t, e, s)))
  {
  }

  lemma ExtendsSame(t: Episodes)
    ensures Extends(t, t) && NoneCloses(t, t)
  {
  }
}
