/** New windows, reads and messages. */
module StudyMessageFrames {
  import opened Wrappers
  import opened StudyVocabulary
  import opened StudyTables
  import opened StudySpec
  import opened StudyInvariants
  import opened StudyForumFrames
  import opened StudyEpisodeFrames
  import opened FiniteSums

  // ---------- windows ----------

  /** The window a new exposure opens is already at the head. */
  lemma WindowFits(t: Episodes, r: Roster, f: Forums, o: Id, x: Exposure)
    requires Heads(t, f.places, f.heads) && Lifecycle(t)
    requires o in r.rows && x.forum in f.places.threadOf && f.places.forums[x.forum].episode == r.rows[o].episode
    requires WindowStart(t, r.rows[o].episode, r.rows[o].phase) == Some(x.from)
    ensures 0 <= x.from - 1 <= f.heads[f.places.threadOf[x.forum]]
  {
    var d := f.places.threadOf[x.forum];
    assert HeadFollows(t, EpisodeOf(f.places, d), f.heads[d]);
  }

  lemma WindowsWith(t: Episodes, r: Roster, f: Forums, o: Id, x: Exposure)
    requires Windows(t, r, f.places, f.heads, f.exposures, f.through) && Heads(t, f.places, f.heads) && Lifecycle(t)
    requires o in r.rows && x.forum in f.places.threadOf && f.places.forums[x.forum].episode == r.rows[o].episode
    requires WindowStart(t, r.rows[o].episode, r.rows[o].phase) == Some(x.from)
    ensures Windows(t, r, f.places, f.heads, f.exposures[o := x], f.through[o := f.heads[f.places.threadOf[x.forum]]])
  {
    hide WindowStart, HeadFollows, Heads, Lifecycle;
    WindowFits(t, r, f, o, x);
  }

  lemma RelationsExposed(r: Roster, exposures: map<Id, Exposure>, messages: map<Id, Message>, o: Id, x: Exposure)
    requires Relations(r, exposures, messages) && o !in exposures
    ensures Relations(r, exposures[o := x], messages)
  {
  }

  lemma ReadsExposed(p: Places, heads: map<Id, Ordinal>, exposures: map<Id, Exposure>, receipts: map<Id, Receipt>, o: Id, x: Exposure)
    requires ReadsInside(p, heads, exposures, receipts) && o !in exposures
    ensures ReadsInside(p, heads, exposures[o := x], receipts)
  {
  }

  lemma PostsExposed(r: Roster, posts: map<Id, nat>, exposures: map<Id, Exposure>, o: Id, x: Exposure)
    requires PostsBudgeted(r, posts, exposures)
    ensures PostsBudgeted(r, posts, exposures[o := x])
  {
  }

  lemma Exposed(hashes: Hashes, db: Tables, o: Id, forum: Id, visibleFrom: I64, id: Id, u: Tables, e: StudyEvent)
    requires Invariant(hashes, db) && Expose(db, o, forum, visibleFrom, id) == Ok((u, e))
    ensures Invariant(hashes, u)
  {
    hide Lifecycle, ActorPhases, Rooms, Ordinals, Authors, Heads, Windows, Relations, ReadsCounted, ReadsInside, PostsBudgeted, PostsCounted,
         Citations, Revealed, Results, ClosedEpisodes, PairsMatched, Corrections, RunsCounted, RunsClosed, CustodyHolds,
         EpisodesAligned, PairsAligned, RosterAligned, ActorsAligned, PlacesAligned, ForumsAligned, RunsAligned, CustodyAligned, WindowStart;
    var f := db.forum;
    var x := Exposure(id, forum, visibleFrom);
    WindowsWith(db.episodes, db.actors.roster, f, o, x);
    RelationsExposed(db.actors.roster, f.exposures, f.messages, o, x);
    ReadsExposed(f.places, f.heads, f.exposures, f.receipts, o, x);
    PostsExposed(db.actors.roster, db.actors.postsUsed, f.exposures, o, x);
  }

  // ---------- reads ----------

  lemma ReceiptCount(receipts: map<Id, Receipt>, id: Id, x: Receipt, o: Id)
    requires id !in receipts
    ensures |ReceiptsOf(receipts[id := x], o)| == |ReceiptsOf(receipts, o)| + (if o == x.obligation then 1 else 0)
  {
    if o == x.obligation {
      assert ReceiptsOf(receipts[id := x], o) == ReceiptsOf(receipts, o) + {id};
    } else {
      assert ReceiptsOf(receipts[id := x], o) == ReceiptsOf(receipts, o);
    }
  }

  lemma ReadCounted(a: Roster, readsUsed: map<Id, nat>, receipts: map<Id, Receipt>, id: Id, x: Receipt)
    requires ReadsCounted(a, readsUsed, receipts) && id !in receipts
    requires x.obligation in a.rows && readsUsed[x.obligation] < a.rows[x.obligation].readBudget
    ensures ReadsCounted(a, readsUsed[x.obligation := readsUsed[x.obligation] + 1], receipts[id := x])
  {
    hide ReceiptsOf, RosterAligned;
    forall o ensures |ReceiptsOf(receipts[id := x], o)| == |ReceiptsOf(receipts, o)| + (if o == x.obligation then 1 else 0) {
      ReceiptCount(receipts, id, x, o);
    }
  }

  lemma ReadInside(p: Places, heads: map<Id, Ordinal>, exposures: map<Id, Exposure>, receipts: map<Id, Receipt>, id: Id, x: Receipt)
    requires ReadsInside(p, heads, exposures, receipts)
    requires x.obligation in exposures && exposures[x.obligation].forum in p.threadOf
    requires x.thread == p.threadOf[exposures[x.obligation].forum] && x.thread in heads
    requires exposures[x.obligation].from <= x.first <= x.through <= heads[x.thread]
    ensures ReadsInside(p, heads, exposures, receipts[id := x])
  {
  }

  lemma CitationsGrow(r: Roster, messages: map<Id, Message>, receipts: map<Id, Receipt>, decisions: map<Id, DecisionRow>, id: Id, x: Receipt)
    requires Citations(r, messages, receipts, decisions) && id !in receipts
    ensures Citations(r, messages, receipts[id := x], decisions)
  {
    forall o | o in decisions && decisions[o].cited.Some?
      ensures CitationHolds(r, messages, receipts[id := x], o, decisions[o].cited.value)
    {
      var cited := decisions[o].cited.value;
      assert CitationHolds(r, messages, receipts, o, cited);
      if messages[cited].author != Some(r.occurrenceOf[o]) {
        var k :| k in receipts && receipts[k].obligation == o && receipts[k].thread == messages[cited].thread
                 && receipts[k].first <= messages[cited].ordinal <= receipts[k].through;
        assert receipts[id := x][k] == receipts[k];
      }
    }
  }

  lemma ReadableFits(db: Tables, o: Id, first: int, through: int, thread: Id)
    requires Windows(db.episodes, db.actors.roster, db.forum.places, db.forum.heads, db.forum.exposures, db.forum.through)
    requires ReadableThread(db, o, first, through) == Ok(thread)
    ensures var f := db.forum;
      && o in db.actors.roster.rows && o in f.exposures && db.actors.readsUsed[o] < db.actors.roster.rows[o].readBudget
      && f.exposures[o].forum in f.places.threadOf && thread == f.places.threadOf[f.exposures[o].forum] && thread in f.heads
      && f.exposures[o].from <= first <= through <= f.heads[thread]
  {
    hide WindowStart, MayPost;
  }

  lemma HasRead(hashes: Hashes, outside: Outside, db: Tables, c: StudyCommand, id: Id, u: Tables, e: StudyEvent)
    requires Invariant(hashes, db) && c.ReadForum? && Read(hashes, outside, db, c, id) == Ok((u, e))
    ensures Invariant(hashes, u)
  {
    hide Lifecycle, ActorPhases, Rooms, Ordinals, Authors, Heads, Windows, Relations, ReadsCounted, ReadsInside, PostsBudgeted, PostsCounted,
         Citations, Revealed, Results, ClosedEpisodes, PairsMatched, Corrections, RunsCounted, RunsClosed, CustodyHolds,
         EpisodesAligned, PairsAligned, RosterAligned, ActorsAligned, PlacesAligned, ForumsAligned, RunsAligned, CustodyAligned, ReadableThread, Slice;
    var f := db.forum;
    var thread := ReadableThread(db, c.obligation, c.first, c.through).value;
    var x := Receipt(c.obligation, thread, c.first, c.through, c.renderedObject);
    ReadableFits(db, c.obligation, c.first, c.through, thread);
    ReadCounted(db.actors.roster, db.actors.readsUsed, f.receipts, id, x);
    ReadInside(f.places, f.heads, f.exposures, f.receipts, id, x);
    CitationsGrow(db.actors.roster, f.messages, f.receipts, db.outcomes.decisions, id, x);
  }

  // ---------- retraction ----------

  /** Nothing proved here depends on whether a message is still published. */
  lemma HasRetracted(hashes: Hashes, db: Tables, o: Id, message: Id, u: Tables, e: StudyEvent)
    requires Invariant(hashes, db) && Retract(db, o, message) == Ok((u, e))
    ensures Invariant(hashes, u)
  {
    hide Lifecycle, ActorPhases, Rooms, Ordinals, Authors, Heads, Windows, Relations, ReadsCounted, ReadsInside, PostsBudgeted, PostsCounted,
         Citations, Revealed, Results, ClosedEpisodes, PairsMatched, Corrections, RunsCounted, RunsClosed, CustodyHolds,
         EpisodesAligned, PairsAligned, RosterAligned, ActorsAligned, PlacesAligned, ForumsAligned, RunsAligned, CustodyAligned, MayPost;
  }
}
