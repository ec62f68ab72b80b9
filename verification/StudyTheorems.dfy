/** What holds in every reachable state of the control plane, and of every step. */
module StudyTheorems {
  import opened Wrappers
  import opened StudyVocabulary
  import opened StudyTables
  import opened StudySpec
  import opened StudyInvariants
  import opened StudyForumFrames
  import opened StudyEpisodeFrames
  import opened StudyAppend
  import opened StudyOutcomeFrames
  import opened FiniteSums

  // ---------- reset isolation ----------

  /** The message was written by an actor of the source phase. */
  predicate SourceAuthored(db: Tables, m: Id) {
    var r := db.actors.roster;
    m in db.forum.messages && db.forum.messages[m].author.Some?
    && db.forum.messages[m].author.value in r.occurrences && r.occurrences[db.forum.messages[m].author.value] in r.rows
    && r.rows[r.occurrences[db.forum.messages[m].author.value]].phase == Source
  }

  predicate SuccessorUnder(db: Tables, o: Id, treatment: Treatment) {
    var r := db.actors.roster;
    o in r.rows && r.rows[o].phase == Successor && HasTreatment(db.episodes, r.rows[o].episode, treatment)
  }

  predicate Authored(db: Tables, m: Id, o: Id) {
    m in db.forum.messages && o in db.actors.roster.rows && db.forum.messages[m].author == Some(db.actors.roster.occurrenceOf[o])
  }

  /** The read returned the message. */
  predicate Returned(f: Forums, r: Id, m: Id) {
    r in f.receipts && m in f.messages && f.receipts[r].thread == f.messages[m].thread
    && f.receipts[r].first <= f.messages[m].ordinal <= f.receipts[r].through
  }

  /** A reset successor's window lies beyond everything the sources wrote in that thread. */
  lemma WindowBeyondSources(db: Tables, o: Id, m: Id)
    requires Windows(db.episodes, db.actors.roster, db.forum.places, db.forum.heads, db.forum.exposures, db.forum.through)
    requires Authors(db.episodes, db.actors.roster, db.forum.places, db.forum.messages)
    requires SuccessorUnder(db, o, Reset) && o in db.forum.exposures && SourceAuthored(db, m)
    requires db.forum.messages[m].thread == db.forum.places.threadOf[db.forum.exposures[o].forum]
    ensures db.forum.messages[m].ordinal < db.forum.exposures[o].from
  {
    hide RosterAligned, PairsAligned;
    var row := db.forum.messages[m];
    assert InPlace(db.episodes, db.actors.roster, EpisodeOf(db.forum.places, row.thread), row);
  }

  lemma NeverReads(db: Tables, o: Id, m: Id, r: Id)
    requires ThreadsHold(db.episodes, db.actors, db.forum) && WindowsHold(db.episodes, db.actors, db.forum, db.outcomes.decisions)
    requires SuccessorUnder(db, o, Reset) && SourceAuthored(db, m) && r in db.forum.receipts && db.forum.receipts[r].obligation == o
    ensures !Returned(db.forum, r, m)
  {
    hide Windows, Authors, Rooms, Ordinals, Heads, PostsBudgeted, PostsCounted, Relations, ReadsCounted, Citations, SuccessorUnder, SourceAuthored,
         RosterAligned, ActorsAligned, PlacesAligned, ForumsAligned, PairsAligned, EpisodesAligned;
    if Returned(db.forum, r, m) { WindowBeyondSources(db, o, m); }
  }

  lemma NeverRelates(db: Tables, o: Id, m: Id, n: Id)
    requires ThreadsHold(db.episodes, db.actors, db.forum) && WindowsHold(db.episodes, db.actors, db.forum, db.outcomes.decisions)
    requires SuccessorUnder(db, o, Reset) && SourceAuthored(db, m) && Authored(db, n, o)
    ensures db.forum.messages[n].inReplyTo != Some(m) && db.forum.messages[n].supersedes != Some(m)
  {
    hide Windows, Authors, Rooms, Ordinals, Heads, PostsBudgeted, PostsCounted, ReadsCounted, ReadsInside, Citations, SuccessorUnder, SourceAuthored,
         ActorsAligned, PlacesAligned, ForumsAligned, PairsAligned, EpisodesAligned;
    if db.forum.messages[n].inReplyTo == Some(m) || db.forum.messages[n].supersedes == Some(m) {
      OwnThread(db, o, n);
      WindowBeyondSources(db, o, m);
    }
  }

  /** An actor writes in the thread of its own window. */
  lemma OwnThread(db: Tables, o: Id, n: Id)
    requires Windows(db.episodes, db.actors.roster, db.forum.places, db.forum.heads, db.forum.exposures, db.forum.through)
    requires Authors(db.episodes, db.actors.roster, db.forum.places, db.forum.messages)
    requires Authored(db, n, o) && o in db.forum.exposures
    ensures db.forum.messages[n].thread == db.forum.places.threadOf[db.forum.exposures[o].forum]
  {
    hide WindowStart, EpisodesAligned, PairsAligned;
    assert InPlace(db.episodes, db.actors.roster, EpisodeOf(db.forum.places, db.forum.messages[n].thread), db.forum.messages[n]);
    OneThread(db.forum.places, db.forum.messages[n].thread, db.forum.places.threadOf[db.forum.exposures[o].forum]);
  }

  lemma NeverCites(db: Tables, o: Id, m: Id)
    requires ThreadsHold(db.episodes, db.actors, db.forum) && WindowsHold(db.episodes, db.actors, db.forum, db.outcomes.decisions)
    requires SuccessorUnder(db, o, Reset) && SourceAuthored(db, m) && o in db.outcomes.decisions
    ensures db.outcomes.decisions[o].cited != Some(m)
  {
    hide Windows, Authors, Rooms, Ordinals, Heads, PostsBudgeted, PostsCounted, ReadsCounted, ReadsInside, Relations, WindowsHold, ThreadsHold,
         ActorsAligned, PlacesAligned, ForumsAligned, PairsAligned, EpisodesAligned;
    if db.outcomes.decisions[o].cited == Some(m) {
      CitedWasRead(db, o, m);
      assert db.actors.roster.occurrences[db.actors.roster.occurrenceOf[o]] == o;
      var k :| k in db.forum.receipts && db.forum.receipts[k].obligation == o && Returned(db.forum, k, m);
      NeverReads(db, o, m, k);
    }
  }

  lemma CitedWasRead(db: Tables, o: Id, m: Id)
    requires WindowsHold(db.episodes, db.actors, db.forum, db.outcomes.decisions)
    requires o in db.outcomes.decisions && db.outcomes.decisions[o].cited == Some(m)
    ensures Authored(db, m, o) || exists k :: k in db.forum.receipts && db.forum.receipts[k].obligation == o && Returned(db.forum, k, m)
  {
    hide Windows, Relations, ReadsCounted, ReadsInside, ActorsAligned, PlacesAligned, ForumsAligned, PairsAligned, EpisodesAligned, RosterAligned;
    assert CitationHolds(db.actors.roster, db.forum.messages, db.forum.receipts, o, m);
    if !Authored(db, m, o) {
      var k :| k in db.forum.receipts && db.forum.receipts[k].obligation == o && db.forum.receipts[k].thread == db.forum.messages[m].thread
               && db.forum.receipts[k].first <= db.forum.messages[m].ordinal <= db.forum.receipts[k].through;
      assert Returned(db.forum, k, m);
    }
  }

  /** No successor of a reset episode ever reads, replies to, supersedes or cites a source-phase message. */
  lemma ResetIsolation(hashes: Hashes, outside: Outside, steps: seq<Step>, o: Id, m: Id)
    requires SuccessorUnder(Execute(hashes, outside, steps).tables, o, Reset)
    requires SourceAuthored(Execute(hashes, outside, steps).tables, m)
    ensures var db := Execute(hashes, outside, steps).tables;
      && (forall r :: r in db.forum.receipts && db.forum.receipts[r].obligation == o ==> !Returned(db.forum, r, m))
      && (forall n :: Authored(db, n, o) ==> db.forum.messages[n].inReplyTo != Some(m) && db.forum.messages[n].supersedes != Some(m))
      && (o in db.outcomes.decisions ==> db.outcomes.decisions[o].cited != Some(m))
  {
    hide Execute, ThreadsHold, WindowsHold, ActorsHold, OutcomesHold, RunsHold, PairsMatched, Corrections, Lifecycle, Returned, SuccessorUnder, SourceAuthored,
         ActorsAligned, PlacesAligned, ForumsAligned, PairsAligned, EpisodesAligned, RosterAligned;
    InvariantHolds(hashes, outside, steps);
    var db := Execute(hashes, outside, steps).tables;
    forall r | r in db.forum.receipts && db.forum.receipts[r].obligation == o ensures !Returned(db.forum, r, m) { NeverReads(db, o, m, r); }
    forall n | Authored(db, n, o) ensures db.forum.messages[n].inReplyTo != Some(m) && db.forum.messages[n].supersedes != Some(m) {
      NeverRelates(db, o, m, n);
    }
    if o in db.outcomes.decisions { NeverCites(db, o, m); }
  }

  /** A retained successor's window is the whole thread. */
  lemma RetainedSeesAll(hashes: Hashes, outside: Outside, steps: seq<Step>, o: Id)
    requires var db := Execute(hashes, outside, steps).tables; SuccessorUnder(db, o, Retained) && o in db.forum.exposures
    ensures var f := Execute(hashes, outside, steps).tables.forum;
      f.exposures[o].from == 1 && f.through[o] == f.heads[f.places.threadOf[f.exposures[o].forum]]
  {
    hide Execute, ThreadsHold, Relations, ReadsCounted, ReadsInside, Citations, ActorsHold, OutcomesHold, RunsHold, PairsMatched, Corrections, Lifecycle,
         PlacesAligned, ForumsAligned, PairsAligned, EpisodesAligned;
    InvariantHolds(hashes, outside, steps);
  }

  // ---------- thread layout ----------

  /** The one message of the thread at this ordinal. */
  predicate Stands(f: Forums, d: Id, k: int, m: Id) {
    m in f.messages && f.messages[m].thread == d && f.messages[m].ordinal == k
  }

  predicate SuccessorAuthored(db: Tables, m: Id) {
    var r := db.actors.roster;
    m in db.forum.messages && db.forum.messages[m].author.Some?
    && db.forum.messages[m].author.value in r.occurrences && r.occurrences[db.forum.messages[m].author.value] in r.rows
    && r.rows[r.occurrences[db.forum.messages[m].author.value]].phase == Successor
  }

  /** Sources up to the frozen head, the service right after it, successors beyond. */
  predicate StandsInOrder(db: Tables, e: Id, m: Id)
    requires m in db.forum.messages
  {
    var k := db.forum.messages[m].ordinal;
    if e !in db.episodes.frozen || k <= db.episodes.frozen[e].head then SourceAuthored(db, m)
    else if k == db.episodes.frozen[e].head + 1 then db.forum.messages[m].author.None?
    else SuccessorAuthored(db, m)
  }

  lemma InOrder(db: Tables, m: Id)
    requires m in db.forum.messages && Authors(db.episodes, db.actors.roster, db.forum.places, db.forum.messages)
    ensures StandsInOrder(db, EpisodeOf(db.forum.places, db.forum.messages[m].thread), m)
  {
    hide RosterAligned, PlacesAligned, EpisodesAligned, PairsAligned, ActorsAligned;
    assert InPlace(db.episodes, db.actors.roster, EpisodeOf(db.forum.places, db.forum.messages[m].thread), db.forum.messages[m]);
  }

  lemma ThreadLayout(hashes: Hashes, outside: Outside, steps: seq<Step>, d: Id, k: int)
    requires d in Execute(hashes, outside, steps).tables.forum.places.threads
    ensures var db := Execute(hashes, outside, steps).tables;
      && (1 <= k <= db.forum.heads[d] <==> exists m :: Stands(db.forum, d, k, m))
      && (forall m, n :: Stands(db.forum, d, k, m) && Stands(db.forum, d, k, n) ==> m == n)
      && (forall m :: Stands(db.forum, d, k, m) ==> StandsInOrder(db, EpisodeOf(db.forum.places, d), m))
  {
    hide Execute, Heads, PostsBudgeted, PostsCounted, WindowsHold, ActorsHold, OutcomesHold, RunsHold, PairsMatched, Corrections, Lifecycle, Authors, Rooms,
         StandsInOrder, PlacesAligned, PairsAligned, EpisodesAligned, RosterAligned, ActorsAligned;
    InvariantHolds(hashes, outside, steps);
    var db := Execute(hashes, outside, steps).tables;
    forall m | Stands(db.forum, d, k, m) ensures StandsInOrder(db, EpisodeOf(db.forum.places, d), m) { InOrder(db, m); }
    if 1 <= k <= db.forum.heads[d] {
      assert HasOrdinal(db.forum.messages, d, k);
      var m :| m in db.forum.messages && db.forum.messages[m].thread == d && db.forum.messages[m].ordinal == k;
      assert Stands(db.forum, d, k, m);
    }
  }

  /** The head stands at the frozen head until the correction, and counts every post and the correction. */
  lemma HeadCounts(hashes: Hashes, outside: Outside, steps: seq<Step>, d: Id)
    requires d in Execute(hashes, outside, steps).tables.forum.places.threads
    ensures var db := Execute(hashes, outside, steps).tables;
      var e := EpisodeOf(db.forum.places, d);
      && (e in db.episodes.frozen ==> (if Past(db.episodes, e) then db.forum.heads[d] > db.episodes.frozen[e].head
                                       else db.forum.heads[d] == db.episodes.frozen[e].head))
      && db.forum.heads[d] == Sum(ColumnOf(db.actors.roster, db.actors.postsUsed, e)) + (if Past(db.episodes, e) then 1 else 0)
  {
    hide Execute, Sum, ColumnOf, Past, EpisodeOf, WindowsHold, ActorsHold, OutcomesHold, RunsHold, PairsMatched, Corrections, Lifecycle, Authors, Rooms, Ordinals,
         PostsBudgeted, PlacesAligned, PairsAligned, RosterAligned;
    InvariantHolds(hashes, outside, steps);
    var db := Execute(hashes, outside, steps).tables;
    assert HeadFollows(db.episodes, EpisodeOf(db.forum.places, d), db.forum.heads[d]);
  }

  lemma BudgetsHold(hashes: Hashes, outside: Outside, steps: seq<Step>, o: Id)
    requires o in Execute(hashes, outside, steps).tables.actors.roster.rows
    ensures var db := Execute(hashes, outside, steps).tables;
      && |ReceiptsOf(db.forum.receipts, o)| == db.actors.readsUsed[o] <= db.actors.roster.rows[o].readBudget
      && db.actors.postsUsed[o] <= db.actors.roster.rows[o].postBudget
  {
    hide Execute, ReceiptsOf, ActorsHold, OutcomesHold, RunsHold, PairsMatched, Corrections, Lifecycle, Authors, Rooms, Ordinals, Heads,
         PostsCounted, Windows, Relations, ReadsInside, Citations, PlacesAligned, PairsAligned, RosterAligned, ForumsAligned, EpisodesAligned;
    InvariantHolds(hashes, outside, steps);
  }

  /** `n` replies to or supersedes `m`. */
  predicate Relates(f: Forums, n: Id, m: Id) {
    n in f.messages && (f.messages[n].inReplyTo == Some(m) || f.messages[n].supersedes == Some(m))
  }

  /** Relations stay in one thread and go strictly down, so a chain of them never returns. */
  lemma {:induction false} RelationsGoDown(hashes: Hashes, outside: Outside, steps: seq<Step>, chain: seq<Id>)
    requires |chain| >= 2 && forall i, j :: 0 <= i < j < |chain| && j == i + 1 ==>
      Relates(Execute(hashes, outside, steps).tables.forum, chain[i], chain[j])
    ensures var f := Execute(hashes, outside, steps).tables.forum;
      var first, last := chain[0], chain[|chain| - 1];
      && first in f.messages && last in f.messages && f.messages[last].thread == f.messages[first].thread
      && f.messages[last].ordinal < f.messages[first].ordinal && first != last
    decreases |chain|
  {
    hide Execute, Invariant, ForumsAligned, PlacesAligned;
    var f := Execute(hashes, outside, steps).tables.forum;
    assert Relates(f, chain[0], chain[1]);
    RelationDown(hashes, outside, steps, chain[0], chain[1]);
    if |chain| > 2 { RelationsGoDown(hashes, outside, steps, chain[1..]); }
  }

  lemma RelationDown(hashes: Hashes, outside: Outside, steps: seq<Step>, n: Id, m: Id)
    requires Relates(Execute(hashes, outside, steps).tables.forum, n, m)
    ensures var f := Execute(hashes, outside, steps).tables.forum;
      n in f.messages && m in f.messages && f.messages[m].thread == f.messages[n].thread && f.messages[m].ordinal < f.messages[n].ordinal
  {
    hide Execute, ThreadsHold, Windows, ReadsCounted, ReadsInside, Citations, ActorsHold, OutcomesHold, RunsHold, PairsMatched, Corrections, Lifecycle,
         PlacesAligned, ForumsAligned, PairsAligned, EpisodesAligned, RosterAligned, ActorsAligned;
    InvariantHolds(hashes, outside, steps);
  }

  // ---------- closure ----------

  /** A closed episode is complete: nobody active, the committed truth revealed, exactly one
      well-shaped result for every slot, and the charges within the budget. */
  lemma ClosureComplete(hashes: Hashes, outside: Outside, steps: seq<Step>, e: Id)
    requires var t := Execute(hashes, outside, steps).tables.episodes; e in t.rows && t.state[e] == Closed
    ensures var db := Execute(hashes, outside, steps).tables;
      var row := db.episodes.rows[e];
      && AllTerminal(db.actors.roster, db.actors.state, e)
      && row.protocol in db.design.protocols && row.measurement in db.design.measurements
      && e in db.outcomes.revealed && hashes.digest(db.outcomes.revealed[e]) == db.design.protocols[row.protocol].commitment
      && (forall slot :: (e, slot) in db.outcomes.results <==> 1 <= slot <= db.design.measurements[row.measurement].slotCount)
      && (forall slot :: (e, slot) in db.outcomes.results ==> WellShaped(db.outcomes.results[(e, slot)]))
      && Sum(ColumnOf(db.actors.roster, db.actors.charged, e)) <= db.design.protocols[row.protocol].episodeBudget
  {
    hide Execute, ThreadsHold, WindowsHold, ActorsHold, RunsHold, PairsMatched, Corrections, Lifecycle, Sum, ColumnOf, AllTerminal, WellShaped, RecordedSlots,
         PlacesAligned, ForumsAligned, PairsAligned, RosterAligned;
    InvariantHolds(hashes, outside, steps);
    var db := Execute(hashes, outside, steps).tables;
    assert ClosedHolds(db.design, db.episodes, db.actors.roster, db.actors.state, db.actors.charged, db.outcomes, e);
    var count := db.design.measurements[db.episodes.rows[e].measurement].slotCount;
    SlotsAreResults(db.outcomes, e);
    forall slot | slot in RecordedSlots(db.outcomes, e) ensures 1 <= slot <= count {
      assert ResultHolds(db.design, db.episodes, db.outcomes.revealed, e, slot, db.outcomes.results[(e, slot)]);
    }
    Pigeonhole(RecordedSlots(db.outcomes, e), count);
    assert (e, 1) in db.outcomes.results;
    assert RevealHolds(hashes, db.design, db.episodes, db.actors.roster, db.actors.state, e, db.outcomes.revealed[e]);
  }

  lemma SlotsAreResults(o: Outcomes, e: Id)
    ensures forall slot :: slot in RecordedSlots(o, e) <==> (e, slot) in o.results
  {
  }

  // ---------- runs ----------

  /** Past pairing, the registered ordinals are exactly 1..pair count; a completed run has closed arms. */
  lemma RunIsWhole(hashes: Hashes, outside: Outside, steps: seq<Step>, run: Id)
    requires run in Execute(hashes, outside, steps).tables.runs.rows
    ensures var db := Execute(hashes, outside, steps).tables;
      var r := db.runs;
      && (r.state[run] != Pairing ==> forall i :: (run, i) in r.pairs <==> 1 <= i <= r.rows[run].pairCount)
      && (r.state[run] == Pairing ==> |OrdinalsOf(r.pairs, run)| == r.registered[run] < r.rows[run].pairCount)
      && (r.state[run] == Completed ==> forall i :: (run, i) in r.pairs ==>
            r.pairs[(run, i)].pair in db.pairs.rows && BothClosed(db.episodes, db.pairs.rows[r.pairs[(run, i)].pair]))
  {
    hide Execute, ThreadsHold, WindowsHold, ActorsHold, OutcomesHold, PairsMatched, Corrections, Lifecycle, BothClosed, OrdinalsOf,
         PlacesAligned, ForumsAligned, PairsAligned, RosterAligned, EpisodesAligned, ActorsAligned;
    InvariantHolds(hashes, outside, steps);
    var r := Execute(hashes, outside, steps).tables.runs;
    OrdinalsAreKeys(r.pairs, run);
    if r.state[run] != Pairing { Pigeonhole(OrdinalsOf(r.pairs, run), r.rows[run].pairCount); }
  }

  lemma OrdinalsAreKeys(pairs: map<(Id, int), RunPair>, run: Id)
    ensures forall i :: i in OrdinalsOf(pairs, run) <==> (run, i) in pairs
  {
  }

  // ---------- pairs and corrections ----------

  lemma TwinBodies(pairs: Pairs, p: Places, messages: map<Id, Message>, k: Id, m: Id, n: Id)
    requires Twins(pairs, p, messages) && k in pairs.rows
    requires CorrectionOf(p, messages, pairs.rows[k].retained, m) && CorrectionOf(p, messages, pairs.rows[k].reset, n)
    ensures m in messages && n in messages && messages[m].body == messages[n].body
  {
    hide PairsAligned, PlacesAligned;
  }

  lemma SealedDigest(hashes: Hashes, d: Design, t: Episodes, p: Places, messages: map<Id, Message>, e: Id, m: Id)
    requires Sealed(hashes, d, t, p, messages) && CorrectionOf(p, messages, e, m)
    ensures e in t.rows && t.rows[e].protocol in d.protocols && m in messages
    ensures hashes.digest(messages[m].body) == d.protocols[t.rows[e].protocol].correctionDigest
  {
    hide PlacesAligned, EpisodesAligned;
  }

  /** The corrections of the two arms of a pair agree with each other and with the protocol. */
  ghost predicate ArmsAgree(hashes: Hashes, db: Tables, p: Pair, m: Id, n: Id) {
    && (Past(db.episodes, p.retained) <==> Past(db.episodes, p.reset))
    && (CorrectionOf(db.forum.places, db.forum.messages, p.retained, m) && CorrectionOf(db.forum.places, db.forum.messages, p.reset, n) ==>
          && db.forum.messages[m].body == db.forum.messages[n].body
          && p.reset in db.episodes.rows && db.episodes.rows[p.reset].protocol in db.design.protocols
          && hashes.digest(db.forum.messages[n].body) == db.design.protocols[db.episodes.rows[p.reset].protocol].correctionDigest)
  }

  lemma PairAgrees(hashes: Hashes, db: Tables, k: Id, m: Id, n: Id)
    requires PairsMatched(db.episodes, db.pairs) && k in db.pairs.rows
    requires Sealed(hashes, db.design, db.episodes, db.forum.places, db.forum.messages) && Twins(db.pairs, db.forum.places, db.forum.messages)
    ensures ArmsAgree(hashes, db, db.pairs.rows[k], m, n)
  {
    hide Past, CorrectionOf, PairsMatched, Sealed, Twins, PlacesAligned, ForumsAligned, RosterAligned, ActorsAligned, EpisodesAligned, PairsAligned;
    var p := db.pairs.rows[k];
    PastTogether(db.episodes, db.pairs, k);
    if CorrectionOf(db.forum.places, db.forum.messages, p.retained, m) && CorrectionOf(db.forum.places, db.forum.messages, p.reset, n) {
      TwinBodies(db.pairs, db.forum.places, db.forum.messages, k, m, n);
      SealedDigest(hashes, db.design, db.episodes, db.forum.places, db.forum.messages, p.reset, n);
    }
  }

  /** Matched arms are past the release together, with the protocol's correction and the same bytes. */
  lemma MatchedCorrection(hashes: Hashes, outside: Outside, steps: seq<Step>, k: Id, m: Id, n: Id)
    requires k in Execute(hashes, outside, steps).tables.pairs.rows
    ensures var db := Execute(hashes, outside, steps).tables; ArmsAgree(hashes, db, db.pairs.rows[k], m, n)
  {
    hide Execute, ArmsHold, ArmsAgree, PairsMatched, Sealed, Twins, PlacesAligned, ForumsAligned, RosterAligned, ActorsAligned, EpisodesAligned, PairsAligned;
    InvariantHolds(hashes, outside, steps);
    PairAgrees(hashes, Execute(hashes, outside, steps).tables, k, m, n);
  }

  /** An episode carries one correction exactly when it is past the release, and never two. */
  lemma OneCorrection(hashes: Hashes, outside: Outside, steps: seq<Step>, e: Id)
    requires e in Execute(hashes, outside, steps).tables.episodes.rows
    ensures var db := Execute(hashes, outside, steps).tables;
      && (Past(db.episodes, e) <==> exists m :: CorrectionOf(db.forum.places, db.forum.messages, e, m))
      && (forall m, n :: CorrectionOf(db.forum.places, db.forum.messages, e, m) && CorrectionOf(db.forum.places, db.forum.messages, e, n) ==> m == n)
  {
    hide Execute, WindowsHold, ActorsHold, OutcomesHold, RunsHold, PairsMatched, Twins, PostsBudgeted, PostsCounted, Authors, Rooms, Ordinals, Heads, Lifecycle,
         Past, CorrectionOf, PlacesAligned, ForumsAligned, RosterAligned, ActorsAligned, EpisodesAligned, PairsAligned;
    InvariantHolds(hashes, outside, steps);
    var db := Execute(hashes, outside, steps).tables;
    if Past(db.episodes, e) { var m := CorrectionFound(db, e); }
    forall m, n | CorrectionOf(db.forum.places, db.forum.messages, e, m) && CorrectionOf(db.forum.places, db.forum.messages, e, n) ensures m == n {
      CorrectionUnique(db, e, m, n);
    }
  }

  lemma CorrectionFound(db: Tables, e: Id) returns (m: Id)
    requires ThreadsHold(db.episodes, db.actors, db.forum) && Lifecycle(db.episodes) && Past(db.episodes, e)
    ensures CorrectionOf(db.forum.places, db.forum.messages, e, m)
  {
    hide PostsBudgeted, PostsCounted, PlacesAligned, RosterAligned, ActorsAligned, PairsAligned, StandsInOrder, Authors;
    var d := db.episodes.frozen[e].thread;
    var k := db.episodes.frozen[e].head + 1;
    assert HeadFollows(db.episodes, EpisodeOf(db.forum.places, d), db.forum.heads[d]);
    assert HasOrdinal(db.forum.messages, d, k);
    m :| m in db.forum.messages && db.forum.messages[m].thread == d && db.forum.messages[m].ordinal == k;
    InOrder(db, m);
    AtCorrection(db, e, m);
  }

  lemma AtCorrection(db: Tables, e: Id, m: Id)
    requires m in db.forum.messages && StandsInOrder(db, e, m) && e in db.episodes.frozen
    requires db.forum.messages[m].ordinal == db.episodes.frozen[e].head + 1
    ensures db.forum.messages[m].author.None?
  {
    hide SourceAuthored, SuccessorAuthored, PlacesAligned, RosterAligned, ActorsAligned, PairsAligned, ForumsAligned, EpisodesAligned;
  }

  lemma CorrectionUnique(db: Tables, e: Id, m: Id, n: Id)
    requires ThreadsHold(db.episodes, db.actors, db.forum)
    requires CorrectionOf(db.forum.places, db.forum.messages, e, m) && CorrectionOf(db.forum.places, db.forum.messages, e, n)
    ensures m == n
  {
    hide PostsBudgeted, PostsCounted, Heads, PlacesAligned, RosterAligned, ActorsAligned, PairsAligned, HasOrdinal;
    OneThread(db.forum.places, db.forum.messages[m].thread, db.forum.messages[n].thread);
    assert InPlace(db.episodes, db.actors.roster, e, db.forum.messages[m]);
    assert InPlace(db.episodes, db.actors.roster, e, db.forum.messages[n]);
  }

  /** An accepted release appends the same correction to both threads and moves both arms from
      SuccessorAdmitted to CorrectionReleased; no other episode moves. */
  lemma ReleaseMovesBoth(hashes: Hashes, db: Tables, c: StudyCommand, ids: Fresh, u: Tables, ev: StudyEvent)
    requires Invariant(hashes, db) && c.ReleaseMatchedCorrection? && Release(hashes, db, c, ids) == Ok((u, ev))
    ensures c.pair in db.pairs.rows
    ensures var a, b := db.pairs.rows[c.pair].retained, db.pairs.rows[c.pair].reset;
      && a in db.episodes.rows && b in db.episodes.rows && a != b
      && db.episodes.state[a] == db.episodes.state[b] == SuccessorAdmitted
      && u.episodes.state == db.episodes.state[a := CorrectionReleased][b := CorrectionReleased]
      && ids.first !in db.forum.messages && ids.second !in db.forum.messages && ids.first != ids.second
      && u.forum.messages.Keys == db.forum.messages.Keys + {ids.first, ids.second}
      && (forall m :: m in db.forum.messages ==> u.forum.messages[m] == db.forum.messages[m])
      && CorrectionOf(u.forum.places, u.forum.messages, a, ids.first) && u.forum.messages[ids.first].body == c.correction
      && CorrectionOf(u.forum.places, u.forum.messages, b, ids.second) && u.forum.messages[ids.second].body == c.correction
  {
    hide ArmsHold, PairsMatched, Corrections, Release, PlacesAligned, ForumsAligned, PairsAligned, RosterAligned, ActorsAligned, Advance, IsNext;
    var half, a, b := ReleaseTwins(hashes, db, c, ids, u, ev);
    ArmsDiffer(db.episodes, db.pairs, c.pair);
  }

  // ---------- custody ----------

  lemma RuntimeCustody(hashes: Hashes, outside: Outside, steps: seq<Step>, o: Id)
    requires o in Execute(hashes, outside, steps).tables.custody.bindings
    ensures var db := Execute(hashes, outside, steps).tables;
      && o in db.actors.roster.rows
      && (db.actors.state[o] != Active ==> db.custody.state[o] != Bound)
      && (db.actors.state[o] == Done ==> db.custody.state[o] == Reconciled)
      && (db.custody.state[o] == RecoverySettled ==> db.actors.state[o] != Done && o in db.custody.settlements)
      && (db.custody.state[o] != RecoverySettled ==> o !in db.custody.settlements)
  {
    hide Execute, ThreadsHold, WindowsHold, OutcomesHold, RunsHold, PairsMatched, Corrections, Lifecycle, ActorPhases,
         PlacesAligned, ForumsAligned, PairsAligned, EpisodesAligned, RosterAligned;
    InvariantHolds(hashes, outside, steps);
  }
}
