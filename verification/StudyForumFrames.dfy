/** New forums, threads, windows and receipts. */
module StudyForumFrames {
  import opened Wrappers
  import opened StudyVocabulary
  import opened StudyTables
  import opened StudySpec
  import opened StudyInvariants
  import opened FiniteSums

  ghost predicate Grow(p: Places, q: Places) {
    && (forall f :: f in p.forums ==> f in q.forums && q.forums[f] == p.forums[f])
    && (forall d :: d in p.threads ==> d in q.threads && q.threads[d] == p.threads[d])
    && (forall f :: f in p.threadOf ==> f in q.threadOf && q.threadOf[f] == p.threadOf[f])
  }

  ghost predicate HeadsGrow(p: Places, heads: map<Id, Ordinal>, after: map<Id, Ordinal>) {
    forall d :: d in p.threads ==> d in heads && d in after && after[d] == heads[d]
  }

  lemma HeadKeys(f: Forums)
    ensures f.heads.Keys == f.places.threads.Keys
  {
  }

  lemma SameEpisode(p: Places, q: Places, d: Id)
    requires Grow(p, q) && d in p.threads
    ensures d in q.threads && EpisodeOf(q, d) == EpisodeOf(p, d)
  {
  }

  /** An episode has at most one thread. */
  lemma OneThread(p: Places, c: Id, d: Id)
    requires c in p.threads && d in p.threads && EpisodeOf(p, c) == EpisodeOf(p, d)
    ensures c == d
  {
    assert p.forumOf[EpisodeOf(p, c)] == p.threads[c].forum;
  }

  lemma RoomsGrow(p: Places, q: Places, t: Episodes)
    requires Rooms(p, t) && Grow(p, q) && forall f :: f in q.forums ==> q.forums[f].episode in t.rows
    ensures Rooms(q, t)
  {
  }

  lemma AuthorsGrow(t: Episodes, r: Roster, p: Places, q: Places, messages: map<Id, Message>)
    requires Authors(t, r, p, messages) && Grow(p, q)
    ensures Authors(t, r, q, messages)
  {
    hide InPlace, Grow;
    forall m | m in messages
      ensures messages[m].thread in q.threads && InPlace(t, r, EpisodeOf(q, messages[m].thread), messages[m])
    {
      SameEpisode(p, q, messages[m].thread);
    }
  }

  lemma WindowsGrow(t: Episodes, r: Roster, p: Places, q: Places, heads: map<Id, Ordinal>, after: map<Id, Ordinal>,
                    exposures: map<Id, Exposure>, through: map<Id, Ordinal>)
    requires Windows(t, r, p, heads, exposures, through) && Grow(p, q) && HeadsGrow(p, heads, after) && after.Keys == q.threads.Keys
    ensures Windows(t, r, q, after, exposures, through)
  {
    hide WindowStart;
  }

  lemma ReadsGrow(p: Places, q: Places, heads: map<Id, Ordinal>, after: map<Id, Ordinal>, exposures: map<Id, Exposure>, receipts: map<Id, Receipt>)
    requires ReadsInside(p, heads, exposures, receipts) && Grow(p, q) && HeadsGrow(p, heads, after)
    ensures ReadsInside(q, after, exposures, receipts)
  {
  }

  lemma CorrectionsGrow(hashes: Hashes, d: Design, t: Episodes, pairs: Pairs, r: Roster, p: Places, q: Places, messages: map<Id, Message>)
    requires Corrections(hashes, d, t, pairs, p, messages) && Grow(p, q) && Authors(t, r, p, messages)
    ensures Corrections(hashes, d, t, pairs, q, messages)
  {
    hide InPlace, Past, Grow;
    forall e, m | CorrectionOf(q, messages, e, m) ensures CorrectionOf(p, messages, e, m) {
      SameEpisode(p, q, messages[m].thread);
    }
  }

  // ---------- a new forum ----------

  lemma ForumCreated(hashes: Hashes, db: Tables, e: Id, charter: Digest, id: Id, u: Tables, ev: StudyEvent)
    requires Invariant(hashes, db) && CreateForum(db, e, charter, id) == Ok((u, ev))
    ensures Invariant(hashes, u)
  {
    hide Lifecycle, ActorPhases, Ordinals, Authors, Heads, Windows, Relations, ReadsCounted, ReadsInside, PostsBudgeted, PostsCounted,
         Citations, Revealed, Results, ClosedEpisodes, PairsMatched, Corrections, RunsCounted, RunsClosed, CustodyHolds,
         EpisodesAligned, PairsAligned, RosterAligned, ActorsAligned, PlacesAligned, ForumsAligned, RunsAligned, CustodyAligned;
    var f := db.forum;
    var p, q := f.places, u.forum.places;
    HeadKeys(f);
    HeadKeys(u.forum);
    NewForumGrows(p, e, charter, id);
    RoomsGrow(p, q, db.episodes);
    AuthorsGrow(db.episodes, db.actors.roster, p, q, f.messages);
    NewForumHeads(db.episodes, p, q, f.heads, db.actors.roster, db.actors.postsUsed);
    WindowsGrow(db.episodes, db.actors.roster, p, q, f.heads, f.heads, f.exposures, f.through);
    ReadsGrow(p, q, f.heads, f.heads, f.exposures, f.receipts);
    CorrectionsGrow(hashes, db.design, db.episodes, db.pairs, db.actors.roster, p, q, f.messages);
  }

  lemma NewForumGrows(p: Places, e: Id, charter: Digest, id: Id)
    requires id !in p.forums && e !in p.forumOf
    ensures Grow(p, InsertForum(p, e, charter, id)) && InsertForum(p, e, charter, id).threads == p.threads
  {
  }

  lemma NewForumHeads(t: Episodes, p: Places, q: Places, heads: map<Id, Ordinal>, r: Roster, posts: map<Id, nat>)
    requires Grow(p, q) && q.threads == p.threads
    ensures Heads(t, p, heads) ==> Heads(t, q, heads)
    ensures PostsCounted(t, r, posts, p, heads) ==> PostsCounted(t, r, posts, q, heads)
    ensures heads.Keys == p.threads.Keys ==> HeadsGrow(p, heads, heads)
  {
    hide HeadFollows, Grow;
    forall d | d in p.threads ensures EpisodeOf(q, d) == EpisodeOf(p, d) { SameEpisode(p, q, d); }
  }

  // ---------- a new thread ----------

  lemma ForumIsUnique(p: Places, f: Id, g: Id)
    requires f in p.forums && g in p.forums && p.forums[f].episode == p.forums[g].episode
    ensures f == g
  {
    assert p.forumOf[p.forums[f].episode] == f;
  }

  lemma FrozenHasThread(t: Episodes, p: Places, e: Id, forum: Id)
    requires Rooms(p, t) && e in t.frozen && forum in p.forums && p.forums[forum].episode == e
    ensures forum in p.threadOf
  {
    ForumIsUnique(p, p.threads[t.frozen[e].thread].forum, forum);
  }

  lemma ExposedHasThread(t: Episodes, r: Roster, f: Forums, o: Id, forum: Id)
    requires Windows(t, r, f.places, f.heads, f.exposures, f.through) && o in f.exposures && o in r.rows
    requires forum in f.places.forums && f.places.forums[forum].episode == r.rows[o].episode
    ensures forum in f.places.threadOf
  {
    hide WindowStart;
    ForumIsUnique(f.places, f.exposures[o].forum, forum);
  }

  /** An episode that gets its thread now is not frozen and not past the release. */
  lemma ThreadlessNotFrozen(t: Episodes, p: Places, forum: Id)
    requires Lifecycle(t) && Rooms(p, t) && forum in p.forums && forum !in p.threadOf
    ensures p.forums[forum].episode !in t.frozen && !Past(t, p.forums[forum].episode)
  {
    var e := p.forums[forum].episode;
    assert p.forumOf[e] == forum;
    if e in t.frozen { FrozenHasThread(t, p, e, forum); }
  }

  /** And nobody has posted in it. */
  lemma ThreadlessSilent(t: Episodes, r: Roster, posts: map<Id, nat>, f: Forums, forum: Id)
    requires forum in f.places.forums && forum !in f.places.threadOf
    requires Windows(t, r, f.places, f.heads, f.exposures, f.through) && PostsBudgeted(r, posts, f.exposures)
    ensures Sum(ColumnOf(r, posts, f.places.forums[forum].episode)) == 0
  {
    hide WindowStart, Sum, Past;
    var e := f.places.forums[forum].episode;
    forall o | o in r.rows && r.rows[o].episode == e ensures posts[o] == 0 {
      if o in f.exposures { ExposedHasThread(t, r, f, o, forum); }
    }
    SumOfZeros(ColumnOf(r, posts, e));
  }

  lemma {:induction false} SumOfZeros(m: map<int, nat>)
    requires forall k :: k in m ==> m[k] == 0
    ensures Sum(m) == 0
    decreases |m|
  {
    if m.Keys != {} {
      var k := Least(m.Keys);
      SumOfZeros(m - {k});
    }
  }

  lemma HeadsWithThread(t: Episodes, p: Places, q: Places, heads: map<Id, Ordinal>, id: Id)
    requires Heads(t, p, heads) && Grow(p, q) && q.threads.Keys == p.threads.Keys + {id} && id !in p.threads
    requires EpisodeOf(q, id) !in t.frozen && !Past(t, EpisodeOf(q, id))
    ensures Heads(t, q, heads[id := 0])
  {
    hide Past, Grow;
    forall d | d in q.threads ensures HeadFollows(t, EpisodeOf(q, d), heads[id := 0][d]) {
      if d != id {
        SameEpisode(p, q, d);
        assert HeadFollows(t, EpisodeOf(p, d), heads[d]);
      }
    }
  }

  lemma PostsWithThread(t: Episodes, r: Roster, posts: map<Id, nat>, p: Places, q: Places, heads: map<Id, Ordinal>, id: Id)
    requires PostsCounted(t, r, posts, p, heads) && Grow(p, q) && q.threads.Keys == p.threads.Keys + {id} && id !in p.threads
    requires !Past(t, EpisodeOf(q, id)) && Sum(ColumnOf(r, posts, EpisodeOf(q, id))) == 0
    ensures PostsCounted(t, r, posts, q, heads[id := 0])
  {
    hide Past, Grow, Sum, ColumnOf;
    forall d | d in q.threads && d != id ensures d in p.threads && EpisodeOf(q, d) == EpisodeOf(p, d) { SameEpisode(p, q, d); }
  }

  lemma OrdinalsWithThread(heads: map<Id, Ordinal>, messages: map<Id, Message>, id: Id)
    requires Ordinals(heads, messages) && id !in heads
    ensures Ordinals(heads[id := 0], messages)
  {
    hide HasOrdinal;
  }

  lemma NewThreadGrows(p: Places, forum: Id, title: Title, id: Id)
    requires forum in p.forums && forum !in p.threadOf && id !in p.threads
    ensures Grow(p, InsertThread(p, forum, title, id))
    ensures forall heads: map<Id, Ordinal> :: heads.Keys == p.threads.Keys ==> HeadsGrow(p, heads, heads[id := 0])
    ensures EpisodeOf(InsertThread(p, forum, title, id), id) == p.forums[forum].episode
  {
  }

  lemma NewThreadEpisodes(t: Episodes, p: Places, forum: Id, title: Title, id: Id)
    requires Rooms(p, t) && forum in p.forums && forum !in p.threadOf && id !in p.threads
    ensures var q := InsertThread(p, forum, title, id); forall f :: f in q.forums ==> q.forums[f].episode in t.rows
  {
  }

  lemma ThreadOpened(hashes: Hashes, db: Tables, forum: Id, title: Title, id: Id, u: Tables, ev: StudyEvent)
    requires Invariant(hashes, db) && OpenThread(db, forum, title, id) == Ok((u, ev))
    ensures Invariant(hashes, u)
  {
    hide Lifecycle, ActorPhases, Ordinals, Authors, Heads, Windows, Relations, ReadsCounted, ReadsInside, PostsBudgeted, PostsCounted,
         Citations, Revealed, Results, ClosedEpisodes, PairsMatched, Corrections, RunsCounted, RunsClosed, CustodyHolds,
         EpisodesAligned, PairsAligned, RosterAligned, ActorsAligned, PlacesAligned, ForumsAligned, RunsAligned, CustodyAligned, Sum, Past, InsertThread, Grow, HeadsGrow, ColumnOf, Rooms;
    var f := db.forum;
    var t, r, p, q := db.episodes, db.actors.roster, f.places, u.forum.places;
    HeadKeys(f);
    HeadKeys(u.forum);
    NewThreadGrows(p, forum, title, id);
    NewThreadEpisodes(t, p, forum, title, id);
    ThreadlessNotFrozen(t, p, forum);
    ThreadlessSilent(t, r, db.actors.postsUsed, f, forum);
    RoomsGrow(p, q, t);
    AuthorsGrow(t, r, p, q, f.messages);
    HeadsWithThread(t, p, q, f.heads, id);
    OrdinalsWithThread(f.heads, f.messages, id);
    PostsWithThread(t, r, db.actors.postsUsed, p, q, f.heads, id);
    WindowsGrow(t, r, p, q, f.heads, f.heads[id := 0], f.exposures, f.through);
    ReadsGrow(p, q, f.heads, f.heads[id := 0], f.exposures, f.receipts);
    CorrectionsGrow(hashes, db.design, t, db.pairs, r, p, q, f.messages);
  }
}
