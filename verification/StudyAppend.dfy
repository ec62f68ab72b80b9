/** Appending a message to a thread: publication by an actor, and the matched correction. */
module StudyAppend {
  import opened Wrappers
  import opened StudyVocabulary
  import opened StudyTables
  import opened StudySpec
  import opened StudyInvariants
  import opened StudyForumFrames
  import opened StudyEpisodeFrames
  import opened FiniteSums

  /** Apart from one episode, nobody changes sides of the release. */
  ghost predicate Moves(t: Episodes, u: Episodes, e: Id) {
    && u.rows == t.rows && u.frozen == t.frozen && u.treatments == t.treatments
    && forall k :: k != e ==> (Past(t, k) <==> Past(u, k))
  }

  /** The message follows the head of its thread. */
  ghost predicate IsNext(heads: map<Id, Ordinal>, m: Message) {
    m.thread in heads && m.ordinal as int == heads[m.thread] as int + 1
  }

  lemma AppendOrdinals(heads: map<Id, Ordinal>, messages: map<Id, Message>, id: Id, m: Message)
    requires Ordinals(heads, messages) && id !in messages && IsNext(heads, m)
    ensures Ordinals(heads[m.thread := m.ordinal], messages[id := m])
  {
    hide HasOrdinal;
    var after, headsAfter := messages[id := m], heads[m.thread := m.ordinal];
    forall d, k: int | d in heads && 1 <= k <= headsAfter[d] ensures HasOrdinal(after, d, k) {
      assert HasOrdinal(messages, d, k) || (m.thread == d && m.ordinal == k);
      OrdinalStays(messages, id, m, d, k);
    }
  }

  lemma OrdinalStays(messages: map<Id, Message>, id: Id, m: Message, d: Id, k: int)
    requires id !in messages && (HasOrdinal(messages, d, k) || (m.thread == d && m.ordinal == k))
    ensures HasOrdinal(messages[id := m], d, k)
  {
    if HasOrdinal(messages, d, k) {
      var n :| n in messages && messages[n].thread == d && messages[n].ordinal == k;
      assert messages[id := m][n] == messages[n];
    } else {
      assert messages[id := m][id] == m;
    }
  }

  lemma AppendAuthors(t: Episodes, u: Episodes, r: Roster, p: Places, messages: map<Id, Message>, id: Id, m: Message)
    requires Authors(t, r, p, messages) && u.frozen == t.frozen
    requires m.thread in p.threads && InPlace(u, r, EpisodeOf(p, m.thread), m)
    ensures Authors(u, r, p, messages[id := m])
  {
    hide InPlace, RosterAligned, PlacesAligned, EpisodesAligned;
    forall n | n in messages ensures InPlace(u, r, EpisodeOf(p, messages[n].thread), messages[n]) {
      InPlaceExtends(t, u, r, EpisodeOf(p, messages[n].thread), messages[n]);
    }
  }

  lemma AppendHeads(t: Episodes, u: Episodes, p: Places, heads: map<Id, Ordinal>, m: Message)
    requires Heads(t, p, heads) && m.thread in p.threads
    requires Moves(t, u, EpisodeOf(p, m.thread)) && HeadFollows(u, EpisodeOf(p, m.thread), m.ordinal)
    ensures Heads(u, p, heads[m.thread := m.ordinal])
  {
    hide Past;
    forall d | d in p.threads ensures HeadFollows(u, EpisodeOf(p, d), heads[m.thread := m.ordinal][d]) {
      if d != m.thread {
        if EpisodeOf(p, d) == EpisodeOf(p, m.thread) { OneThread(p, d, m.thread); }
        assert HeadFollows(t, EpisodeOf(p, d), heads[d]);
      }
    }
  }

  lemma WindowStartMoves(t: Episodes, u: Episodes, e: Id, phase: PopulationPhase)
    requires u.frozen == t.frozen && u.treatments == t.treatments
    ensures WindowStart(u, e, phase) == WindowStart(t, e, phase)
  {
  }

  lemma AppendWindows(t: Episodes, u: Episodes, r: Roster, p: Places, heads: map<Id, Ordinal>, exposures: map<Id, Exposure>, through: map<Id, Ordinal>, m: Message)
    requires Windows(t, r, p, heads, exposures, through) && u.frozen == t.frozen && u.treatments == t.treatments
    requires m.thread in p.threads && IsNext(heads, m)
    ensures Windows(u, r, p, heads[m.thread := m.ordinal], exposures, Advance(exposures, through, p.threads[m.thread].forum, m.ordinal))
  {
    hide WindowStart, RosterAligned, EpisodesAligned;
    forall o | o in exposures
      ensures WindowStart(u, r.rows[o].episode, r.rows[o].phase) == WindowStart(t, r.rows[o].episode, r.rows[o].phase)
    {
      WindowStartMoves(t, u, r.rows[o].episode, r.rows[o].phase);
    }
  }

  lemma AppendRelations(r: Roster, exposures: map<Id, Exposure>, messages: map<Id, Message>, id: Id, m: Message)
    requires Relations(r, exposures, messages) && id !in messages
    requires m.inReplyTo.Some? ==> RelationHolds(r, exposures, messages, m, m.inReplyTo.value)
    requires m.supersedes.Some? ==> RelationHolds(r, exposures, messages, m, m.supersedes.value)
    ensures Relations(r, exposures, messages[id := m])
  {
    hide RosterAligned;
  }

  lemma AppendReads(p: Places, heads: map<Id, Ordinal>, exposures: map<Id, Exposure>, receipts: map<Id, Receipt>, d: Id, n: Ordinal)
    requires ReadsInside(p, heads, exposures, receipts) && d in heads && heads[d] <= n
    ensures ReadsInside(p, heads[d := n], exposures, receipts)
  {
  }

  lemma AppendCitations(r: Roster, messages: map<Id, Message>, receipts: map<Id, Receipt>, decisions: map<Id, DecisionRow>, id: Id, m: Message)
    requires Citations(r, messages, receipts, decisions) && id !in messages
    ensures Citations(r, messages[id := m], receipts, decisions)
  {
    hide RosterAligned;
    forall o | o in decisions && decisions[o].cited.Some?
      ensures CitationHolds(r, messages[id := m], receipts, o, decisions[o].cited.value)
    {
      assert CitationHolds(r, messages, receipts, o, decisions[o].cited.value);
    }
  }

  // ---------- publication ----------

  /** A posting actor's message stands where its phase may write. */
  lemma PostInPlace(t: Episodes, r: Roster, p: Places, heads: map<Id, Ordinal>, o: Id, m: Message)
    requires Heads(t, p, heads) && m.thread in p.threads && IsNext(heads, m)
    requires o in r.rows && m.author == Some(r.occurrenceOf[o]) && EpisodeOf(p, m.thread) == r.rows[o].episode
    requires r.rows[o].episode in t.rows && MayPost(t.state[r.rows[o].episode], r.rows[o].phase)
    requires r.rows[o].phase == Source ==> r.rows[o].episode !in t.frozen
    ensures InPlace(t, r, r.rows[o].episode, m) && HeadFollows(t, r.rows[o].episode, m.ordinal)
  {
    assert HeadFollows(t, r.rows[o].episode, heads[m.thread]);
  }

  lemma PostBudgeted(r: Roster, posts: map<Id, nat>, exposures: map<Id, Exposure>, o: Id)
    requires PostsBudgeted(r, posts, exposures) && o in r.rows && o in exposures && posts[o] < r.rows[o].postBudget
    ensures PostsBudgeted(r, posts[o := posts[o] + 1], exposures)
  {
    hide RosterAligned;
  }

  lemma ColumnGrows(r: Roster, posts: map<Id, nat>, o: Id, e: Id)
    requires posts.Keys == r.rows.Keys && o in r.rows
    ensures Sum(ColumnOf(r, posts[o := posts[o] + 1], e)) == Sum(ColumnOf(r, posts, e)) + (if r.rows[o].episode == e then 1 else 0)
  {
    hide RosterAligned, Sum;
    var before, after := ColumnOf(r, posts, e), ColumnOf(r, posts[o := posts[o] + 1], e);
    if r.rows[o].episode == e {
      assert after == before[o := posts[o] + 1];
      SumUpdate(before, o, posts[o] + 1);
    } else {
      assert after == before;
    }
  }

  lemma PostCounted(t: Episodes, r: Roster, posts: map<Id, nat>, p: Places, heads: map<Id, Ordinal>, o: Id, m: Message)
    requires PostsCounted(t, r, posts, p, heads) && m.thread in p.threads && IsNext(heads, m)
    requires o in r.rows && EpisodeOf(p, m.thread) == r.rows[o].episode
    ensures PostsCounted(t, r, posts[o := posts[o] + 1], p, heads[m.thread := m.ordinal])
  {
    hide Sum, ColumnOf, Past, RosterAligned;
    forall d | d in p.threads
      ensures heads[m.thread := m.ordinal][d]
           == Sum(ColumnOf(r, posts[o := posts[o] + 1], EpisodeOf(p, d))) + (if Past(t, EpisodeOf(p, d)) then 1 else 0)
    {
      ColumnGrows(r, posts, o, EpisodeOf(p, d));
      if d != m.thread && EpisodeOf(p, d) == EpisodeOf(p, m.thread) { OneThread(p, d, m.thread); }
    }
  }

  lemma ActorMessageNoCorrection(hashes: Hashes, d: Design, t: Episodes, pairs: Pairs, p: Places, messages: map<Id, Message>, id: Id, m: Message)
    requires Corrections(hashes, d, t, pairs, p, messages) && id !in messages && m.author.Some?
    ensures Corrections(hashes, d, t, pairs, p, messages[id := m])
  {
    hide EpisodesAligned, PairsAligned, PlacesAligned, Past;
    forall e, n | CorrectionOf(p, messages[id := m], e, n) ensures CorrectionOf(p, messages, e, n) && messages[id := m][n] == messages[n] {
    }
  }

  /** An allowed relation stays inside the actor's window. */
  lemma AllowedHolds(f: Forums, r: Roster, o: Id, m: Message, target: Id)
    requires TargetAllowed(f, o, target, m.thread, m.ordinal) && o in r.rows && m.author == Some(r.occurrenceOf[o])
    ensures RelationHolds(r, f.exposures, f.messages, m, target)
  {
    hide ForumsAligned, PlacesAligned;
  }

  ghost predicate PostsAs(db: Tables, o: Id, m: Message) {
    && PostRefusal(db, o).None? && m.author == Some(db.actors.roster.occurrenceOf[o])
    && m.thread == db.forum.places.threadOf[db.forum.exposures[o].forum]
    && IsNext(db.forum.heads, m)
    && RelationsAllowed(db.forum, o, [m.inReplyTo, m.supersedes], m.thread, m.ordinal)
  }

  /** What the checks in front of a publication establish. */
  lemma PostFits(db: Tables, o: Id, m: Message)
    requires PostsAs(db, o, m)
    requires Windows(db.episodes, db.actors.roster, db.forum.places, db.forum.heads, db.forum.exposures, db.forum.through)
    ensures var r, t := db.actors.roster, db.episodes;
      && o in r.rows && r.rows[o].episode in t.rows && MayPost(t.state[r.rows[o].episode], r.rows[o].phase)
      && (r.rows[o].phase == Source ==> r.rows[o].episode !in t.frozen)
      && o in db.forum.exposures && db.actors.postsUsed[o] < r.rows[o].postBudget
      && m.thread in db.forum.places.threads && EpisodeOf(db.forum.places, m.thread) == r.rows[o].episode
  {
    hide MayPost, WindowStart, RelationsAllowed;
  }

  lemma PostRelations(db: Tables, o: Id, m: Message)
    requires PostsAs(db, o, m)
    ensures m.inReplyTo.Some? ==> RelationHolds(db.actors.roster, db.forum.exposures, db.forum.messages, m, m.inReplyTo.value)
    ensures m.supersedes.Some? ==> RelationHolds(db.actors.roster, db.forum.exposures, db.forum.messages, m, m.supersedes.value)
  {
    hide MayPost, TargetAllowed, RelationHolds, PlacesAligned, ForumsAligned, RosterAligned;
    var targets := [m.inReplyTo, m.supersedes];
    assert targets[0] == m.inReplyTo && targets[1] == m.supersedes;
    if m.inReplyTo.Some? { AllowedHolds(db.forum, db.actors.roster, o, m, m.inReplyTo.value); }
    if m.supersedes.Some? { AllowedHolds(db.forum, db.actors.roster, o, m, m.supersedes.value); }
  }

  /** A published message, before the episode may move on to the successor phase. */
  lemma MessagePosted(hashes: Hashes, db: Tables, o: Id, m: Message, id: Id, u: Tables)
    requires Invariant(hashes, db) && PostsAs(db, o, m) && id !in db.forum.messages && m.thread in db.forum.places.threads && o in db.actors.roster.rows
    requires u == db.(forum := Append(db.forum, id, m), actors := CountPost(db.actors, o))
    ensures Invariant(hashes, u)
  {
    hide Lifecycle, ActorPhases, Rooms, Ordinals, Authors, Heads, Windows, Relations, ReadsCounted, ReadsInside, PostsBudgeted, PostsCounted,
         Citations, Revealed, Results, ClosedEpisodes, PairsMatched, Corrections, RunsCounted, RunsClosed, CustodyHolds,
         EpisodesAligned, PairsAligned, RosterAligned, ActorsAligned, PlacesAligned, ForumsAligned, RunsAligned, CustodyAligned, PostsAs, PostRefusal, RelationHolds, InPlace, MayPost, HeadFollows, Advance, Moves, EpisodeOf;
    var f := db.forum;
    var t, r := db.episodes, db.actors.roster;
    PostFits(db, o, m);
    PostRelations(db, o, m);
    AppendsNext(db, o, m);
    PostInPlace(t, r, f.places, f.heads, o, m);
    MovesNowhere(t, EpisodeOf(f.places, m.thread));
    AppendOrdinals(f.heads, f.messages, id, m);
    AppendAuthors(t, t, r, f.places, f.messages, id, m);
    AppendHeads(t, t, f.places, f.heads, m);
    AppendWindows(t, t, r, f.places, f.heads, f.exposures, f.through, m);
    AppendRelations(r, f.exposures, f.messages, id, m);
    AppendReads(f.places, f.heads, f.exposures, f.receipts, m.thread, m.ordinal);
    AppendCitations(r, f.messages, f.receipts, db.outcomes.decisions, id, m);
    PostBudgeted(r, db.actors.postsUsed, f.exposures, o);
    PostCounted(t, r, db.actors.postsUsed, f.places, f.heads, o, m);
    ActorMessageNoCorrection(hashes, db.design, t, db.pairs, f.places, f.messages, id, m);
  }

  lemma AppendsNext(db: Tables, o: Id, m: Message)
    requires PostsAs(db, o, m)
    ensures IsNext(db.forum.heads, m) && m.author == Some(db.actors.roster.occurrenceOf[o])
  {
  }

  lemma MovesNowhere(t: Episodes, e: Id)
    ensures Moves(t, t, e)
  {
  }

  lemma StartedHasTreatment(t: Episodes, e: Id)
    requires Lifecycle(t) && e in t.rows && t.state[e] != Admitted
    ensures e in t.treatments
  {
  }

  lemma PostMovesOn(a: Actors, t: Episodes, e: Id, phase: PopulationPhase)
    requires e in t.rows && MayPost(t.state[e], phase) && Lifecycle(t) && ActorPhases(a.roster, a.state, t)
    ensures Extends(t, AfterPost(t, e, phase)) && NoneCloses(t, AfterPost(t, e, phase)) && Lifecycle(AfterPost(t, e, phase)) && ActorPhases(a.roster, a.state, AfterPost(t, e, phase))
  {
    hide Lifecycle, ActorPhases, Extends, NoneCloses, RosterAligned, ActorsAligned;
    ExtendsSame(t);
    if t.state[e] == CorrectionReleased && phase == Successor {
      StartedHasTreatment(t, e);
      MovedLifecycle(t, e, SuccessorActive);
      MovedPhases(a.roster, a.state, t, e, SuccessorActive);
      MovedExtends(t, e, SuccessorActive);
    }
  }

  lemma HasPublished(hashes: Hashes, db: Tables, c: StudyCommand, id: Id, u: Tables, ev: StudyEvent)
    requires Invariant(hashes, db) && c.PublishForumMessage? && Publish(hashes, db, c, id) == Ok((u, ev))
    ensures Invariant(hashes, u)
  {
    hide Lifecycle, ActorPhases, Rooms, Ordinals, Authors, Heads, Windows, Relations, ReadsCounted, ReadsInside, PostsBudgeted, PostsCounted,
         Citations, Revealed, Results, ClosedEpisodes, PairsMatched, Corrections, RunsCounted, RunsClosed, CustodyHolds,
         EpisodesAligned, PairsAligned, RosterAligned, ActorsAligned, PlacesAligned, ForumsAligned, RunsAligned, CustodyAligned, PostRefusal, MayPost, Append, CountPost, AfterPost, RelationsAllowed, Extends, NoneCloses;
    var m := PublishedMessage(hashes, db, c, id, u, ev);
    var o := c.obligation;
    PostFits(db, o, m);
    var posted := db.(forum := Append(db.forum, id, m), actors := CountPost(db.actors, o));
    MessagePosted(hashes, db, o, m, id, posted);
    CountPostAside(db.actors, o);
    var row := db.actors.roster.rows[o];
    PostMovesOn(posted.actors, db.episodes, row.episode, row.phase);
    EpisodesExtend(hashes, posted, AfterPost(db.episodes, row.episode, row.phase), u);
  }

  lemma CountPostAside(a: Actors, o: Id)
    requires o in a.roster.rows
    ensures CountPost(a, o).roster == a.roster && CountPost(a, o).state == a.state
  {
  }

  lemma PublishedMessage(hashes: Hashes, db: Tables, c: StudyCommand, id: Id, u: Tables, ev: StudyEvent) returns (m: Message)
    requires c.PublishForumMessage? && Publish(hashes, db, c, id) == Ok((u, ev))
    ensures PostsAs(db, c.obligation, m) && id !in db.forum.messages && m.thread in db.forum.places.threads && c.obligation in db.actors.roster.rows
    ensures db.actors.roster.rows[c.obligation].episode in db.episodes.rows
    ensures var row := db.actors.roster.rows[c.obligation];
      u == db.(forum := Append(db.forum, id, m), actors := CountPost(db.actors, c.obligation),
               episodes := AfterPost(db.episodes, row.episode, row.phase))
  {
    hide RelationsAllowed, Append, CountPost, AfterPost, MayPost, PostRefusal, ActorsAligned, EpisodesAligned, PairsAligned, RunsAligned, CustodyAligned;
    var o := c.obligation;
    var thread := db.forum.places.threadOf[db.forum.exposures[o].forum];
    m := Message(thread, db.forum.heads[thread] + 1, Some(db.actors.roster.occurrenceOf[o]), c.kind, c.inReplyTo, c.supersedes, c.body);
  }

  // ---------- the matched correction ----------

  lemma ReleaseInPlace(t: Episodes, u: Episodes, r: Roster, p: Places, heads: map<Id, Ordinal>, e: Id, m: Message)
    requires Heads(t, p, heads) && Lifecycle(t) && m.thread in p.threads && IsNext(heads, m) && m.author.None?
    requires e in t.rows && t.state[e] == SuccessorAdmitted && EpisodeOf(p, m.thread) == e && u == SetState(t, e, CorrectionReleased)
    ensures InPlace(u, r, e, m) && HeadFollows(u, e, m.ordinal)
  {
    assert HeadFollows(t, e, heads[m.thread]);
  }

  lemma ReleasedKeeps(t: Episodes, e: Id)
    requires e in t.rows && t.state[e] == SuccessorAdmitted
    ensures Keeps(t, SetState(t, e, CorrectionReleased)) && NoneCloses(t, SetState(t, e, CorrectionReleased))
  {
  }

  lemma RoomsStay(p: Places, t: Episodes, u: Episodes)
    requires Rooms(p, t) && u.rows == t.rows && u.frozen == t.frozen
    ensures Rooms(p, u)
  {
  }

  lemma ReleaseMoves(t: Episodes, r: Roster, state: map<Id, ObligationState>, p: Places, e: Id, u: Episodes)
    requires e in t.rows && t.state[e] == SuccessorAdmitted && u == SetState(t, e, CorrectionReleased)
    requires Lifecycle(t) && ActorPhases(r, state, t) && Rooms(p, t)
    ensures Moves(t, u, e) && Keeps(t, u) && NoneCloses(t, u) && !Past(t, e) && Past(u, e)
    ensures Lifecycle(u) && ActorPhases(r, state, u) && Rooms(p, u)
  {
    hide Lifecycle, ActorPhases, Rooms, Keeps, NoneCloses, RosterAligned, PlacesAligned;
    StartedHasTreatment(t, e);
    MovedLifecycle(t, e, CorrectionReleased);
    MovedPhases(r, state, t, e, CorrectionReleased);
    ReleasedKeeps(t, e);
    RoomsStay(p, t, u);
  }

  lemma ReleaseCounted(t: Episodes, u: Episodes, r: Roster, posts: map<Id, nat>, p: Places, heads: map<Id, Ordinal>, m: Message)
    requires PostsCounted(t, r, posts, p, heads) && m.thread in p.threads && IsNext(heads, m)
    requires Moves(t, u, EpisodeOf(p, m.thread)) && !Past(t, EpisodeOf(p, m.thread)) && Past(u, EpisodeOf(p, m.thread))
    ensures PostsCounted(u, r, posts, p, heads[m.thread := m.ordinal])
  {
    hide Sum, ColumnOf, Past, RosterAligned;
    forall d | d in p.threads
      ensures heads[m.thread := m.ordinal][d] == Sum(ColumnOf(r, posts, EpisodeOf(p, d))) + (if Past(u, EpisodeOf(p, d)) then 1 else 0)
    {
      if d != m.thread && EpisodeOf(p, d) == EpisodeOf(p, m.thread) { OneThread(p, d, m.thread); }
    }
  }

  /** What one released arm looks like. */
  ghost predicate ArmReleased(db: Tables, e: Id, thread: Id, body: MessageBody, id: Id, half: Tables, m: Message) {
    && e in db.episodes.rows && db.episodes.state[e] == SuccessorAdmitted
    && id !in db.forum.messages && IsNext(db.forum.heads, m)
    && m == Message(thread, m.ordinal, None, Correction, None, None, body)
    && thread in db.forum.places.threads && EpisodeOf(db.forum.places, thread) == e
    && half == db.(forum := Append(db.forum, id, m), episodes := SetState(db.episodes, e, CorrectionReleased))
  }

  lemma ReleaseShape(db: Tables, e: Id, thread: Id, body: MessageBody, id: Id, half: Tables) returns (m: Message)
    requires ReleaseArm(db, e, thread, body, id) == Ok(half)
    ensures ArmReleased(db, e, thread, body, id, half, m)
  {
    hide ReadySuccessors, Append, RosterAligned, ActorsAligned;
    m := Message(thread, db.forum.heads[thread] + 1, None, Correction, None, None, body);
  }

  lemma ArmKeeps(hashes: Hashes, db: Tables, e: Id, thread: Id, body: MessageBody, id: Id, half: Tables, m: Message)
    requires ArmsHold(hashes, db) && ArmReleased(db, e, thread, body, id, half, m)
    ensures ArmsHold(hashes, half)
  {
    hide Lifecycle, ActorPhases, Rooms, Ordinals, Authors, Heads, Windows, Relations, ReadsCounted, ReadsInside, PostsBudgeted, PostsCounted,
         Citations, Revealed, Results, ClosedEpisodes, PairsMatched, Corrections, RunsCounted, RunsClosed, CustodyHolds,
         EpisodesAligned, PairsAligned, RosterAligned, ActorsAligned, PlacesAligned, ForumsAligned, RunsAligned, CustodyAligned, IsNext, InPlace, HeadFollows, Advance, Moves, Keeps, NoneCloses, SetState, Past;
    var f := db.forum;
    var t, u, r := db.episodes, half.episodes, db.actors.roster;
    ReleaseMoves(t, r, db.actors.state, f.places, e, u);
    ReleaseInPlace(t, u, r, f.places, f.heads, e, m);
    SameDesign(t, e);
    NextInHeads(f.heads, m);
    AppendOrdinals(f.heads, f.messages, id, m);
    AppendAuthors(t, u, r, f.places, f.messages, id, m);
    AppendHeads(t, u, f.places, f.heads, m);
    AppendWindows(t, u, r, f.places, f.heads, f.exposures, f.through, m);
    AppendRelations(r, f.exposures, f.messages, id, m);
    AppendReads(f.places, f.heads, f.exposures, f.receipts, m.thread, m.ordinal);
    AppendCitations(r, f.messages, f.receipts, db.outcomes.decisions, id, m);
    ReleaseCounted(t, u, r, db.actors.postsUsed, f.places, f.heads, m);
    RevealedExtends(hashes, db.design, t, u, r, db.actors.state, db.outcomes.revealed);
    ResultsExtend(db.design, t, u, db.outcomes);
    ClosedExtends(db.design, t, u, r, db.actors.state, db.actors.charged, db.outcomes);
    RunsExtend(db.runs, db.pairs, t, u);
  }

  lemma SameDesign(t: Episodes, e: Id)
    requires e in t.rows
    ensures SetState(t, e, CorrectionReleased).frozen == t.frozen && SetState(t, e, CorrectionReleased).treatments == t.treatments
  {
  }

  lemma NextInHeads(heads: map<Id, Ordinal>, m: Message)
    requires IsNext(heads, m)
    ensures m.thread in heads && heads[m.thread] <= m.ordinal
  {
  }

  /** No correction stands in an episode that has not passed the release. */
  lemma NoneBefore(hashes: Hashes, d: Design, t: Episodes, pairs: Pairs, p: Places, messages: map<Id, Message>, e: Id)
    requires Corrections(hashes, d, t, pairs, p, messages) && !Past(t, e)
    ensures forall m :: !CorrectionOf(p, messages, e, m)
  {
  }

  /** The service messages of an appended table: the new one, and those that were there. */
  lemma CorrectionAppended(p: Places, messages: map<Id, Message>, id: Id, m: Message, e: Id, n: Id)
    requires id !in messages && m.thread in p.threads && m.author.None?
    ensures CorrectionOf(p, messages[id := m], e, n) <==> (if n == id then e == EpisodeOf(p, m.thread) else CorrectionOf(p, messages, e, n))
  {
  }

  lemma PairsRelease(t: Episodes, u: Episodes, w: Episodes, pairs: Pairs, k: Id)
    requires PairsMatched(t, pairs) && k in pairs.rows
    requires Moves(t, u, pairs.rows[k].retained) && Moves(u, w, pairs.rows[k].reset)
    requires Past(u, pairs.rows[k].retained) && Past(w, pairs.rows[k].reset) && pairs.rows[k].retained != pairs.rows[k].reset
    ensures PairsMatched(w, pairs)
  {
    hide EpisodesAligned;
    forall e | Past(w, e) ensures e in pairs.retainedIn || e in pairs.resetIn {
      if e != pairs.rows[k].retained && e != pairs.rows[k].reset { assert Past(t, e); }
    }
    forall j | j in pairs.rows ensures Past(w, pairs.rows[j].retained) <==> Past(w, pairs.rows[j].reset) {
      OtherPair(t, pairs, j, k);
    }
  }

  /** Two different pairs share no arm. */
  lemma OtherPair(t: Episodes, pairs: Pairs, j: Id, k: Id)
    requires PairsMatched(t, pairs) && j in pairs.rows && k in pairs.rows
    ensures j != k ==> {pairs.rows[j].retained, pairs.rows[j].reset} !! {pairs.rows[k].retained, pairs.rows[k].reset}
  {
    hide EpisodesAligned, Past;
  }

  ghost predicate Twin(db: Tables, c: StudyCommand, ids: Fresh, half: Tables, u: Tables, a: Message, b: Message)
    requires c.ReleaseMatchedCorrection?
  {
    && c.pair in db.pairs.rows
    && ArmReleased(db, db.pairs.rows[c.pair].retained, c.retainedThread, c.correction, ids.first, half, a)
    && ArmReleased(half, db.pairs.rows[c.pair].reset, c.resetThread, c.correction, ids.second, u, b)
  }

  lemma SealedAppended(hashes: Hashes, d: Design, t: Episodes, u: Episodes, p: Places, messages: map<Id, Message>, id: Id, m: Message, e: Id)
    requires Sealed(hashes, d, t, p, messages) && id !in messages && m.author.None? && m.thread in p.threads && EpisodeOf(p, m.thread) == e
    requires u.rows == t.rows && Moves(t, u, e) && Past(u, e)
    requires t.rows[e].protocol in d.protocols && d.protocols[t.rows[e].protocol].correctionDigest == hashes.digest(m.body)
    ensures Sealed(hashes, d, u, p, messages[id := m])
  {
    hide PlacesAligned, EpisodesAligned;
    var after := messages[id := m];
    forall k: Id, n: Id | CorrectionOf(p, after, k, n)
      ensures Past(u, k) && u.rows[k].protocol in d.protocols && d.protocols[u.rows[k].protocol].correctionDigest == hashes.digest(after[n].body)
    {
      CorrectionAppended(p, messages, id, m, k, n);
    }
  }

  lemma TwinsAppended(pairs: Pairs, p: Places, messages: map<Id, Message>, k: Id, i: Id, a: Message, j: Id, b: Message)
    requires Twins(pairs, p, messages) && k in pairs.rows && a.body == b.body && a.author.None? && b.author.None?
    requires i !in messages && j !in messages && i != j && a.thread in p.threads && b.thread in p.threads
    requires EpisodeOf(p, a.thread) == pairs.rows[k].retained && EpisodeOf(p, b.thread) == pairs.rows[k].reset
    requires forall m :: !CorrectionOf(p, messages, pairs.rows[k].retained, m) && !CorrectionOf(p, messages, pairs.rows[k].reset, m)
    requires forall l :: l in pairs.rows && l != k ==> {pairs.rows[l].retained, pairs.rows[l].reset} !! {pairs.rows[k].retained, pairs.rows[k].reset}
    requires pairs.rows[k].retained != pairs.rows[k].reset
    ensures Twins(pairs, p, messages[i := a][j := b])
  {
    hide PlacesAligned, PairsAligned;
    var after := messages[i := a][j := b];
    forall l: Id, m: Id, n: Id | l in pairs.rows && CorrectionOf(p, after, pairs.rows[l].retained, m) && CorrectionOf(p, after, pairs.rows[l].reset, n)
      ensures after[m].body == after[n].body
    {
      CorrectionAppended(p, messages[i := a], j, b, pairs.rows[l].retained, m);
      CorrectionAppended(p, messages[i := a], j, b, pairs.rows[l].reset, n);
      CorrectionAppended(p, messages, i, a, pairs.rows[l].retained, m);
      CorrectionAppended(p, messages, i, a, pairs.rows[l].reset, n);
    }
  }

  lemma ArmSealed(hashes: Hashes, db: Tables, e: Id, thread: Id, body: MessageBody, id: Id, half: Tables, m: Message)
    requires ArmReleased(db, e, thread, body, id, half, m) && Sealed(hashes, db.design, db.episodes, db.forum.places, db.forum.messages)
    requires db.episodes.rows[e].protocol in db.design.protocols
    requires db.design.protocols[db.episodes.rows[e].protocol].correctionDigest == hashes.digest(body)
    ensures Sealed(hashes, half.design, half.episodes, half.forum.places, half.forum.messages)
    ensures Moves(db.episodes, half.episodes, e) && !Past(db.episodes, e) && Past(half.episodes, e)
  {
    hide PlacesAligned, ForumsAligned, Advance, Sealed;
    SealedAppended(hashes, db.design, db.episodes, half.episodes, db.forum.places, db.forum.messages, id, m, e);
  }

  lemma CorrectionsRelease(hashes: Hashes, db: Tables, c: StudyCommand, ids: Fresh, half: Tables, u: Tables, a: Message, b: Message)
    requires Invariant(hashes, db) && c.ReleaseMatchedCorrection? && Twin(db, c, ids, half, u, a, b)
    requires db.episodes.rows[db.pairs.rows[c.pair].retained].protocol in db.design.protocols
    requires db.design.protocols[db.episodes.rows[db.pairs.rows[c.pair].retained].protocol].correctionDigest == hashes.digest(c.correction)
    ensures Corrections(hashes, u.design, u.episodes, u.pairs, u.forum.places, u.forum.messages)
    ensures PairsMatched(u.episodes, u.pairs)
  {
    hide ArmsHold, PairsAligned, PlacesAligned, ForumsAligned, EpisodesAligned, Advance, IsNext, Sealed, Twins, CorrectionOf, Past, Moves;
    var p := db.pairs.rows[c.pair];
    ArmSealed(hashes, db, p.retained, c.retainedThread, c.correction, ids.first, half, a);
    ArmSealed(hashes, half, p.reset, c.resetThread, c.correction, ids.second, u, b);
    ArmsDiffer(db.episodes, db.pairs, c.pair);
    PastTogether(db.episodes, db.pairs, c.pair);
    NoneBefore(hashes, db.design, db.episodes, db.pairs, db.forum.places, db.forum.messages, p.retained);
    NoneBefore(hashes, db.design, db.episodes, db.pairs, db.forum.places, db.forum.messages, p.reset);
    forall l | l in db.pairs.rows && l != c.pair ensures {db.pairs.rows[l].retained, db.pairs.rows[l].reset} !! {p.retained, p.reset} {
      OtherPair(db.episodes, db.pairs, l, c.pair);
    }
    TwinsAppended(db.pairs, db.forum.places, db.forum.messages, c.pair, ids.first, a, ids.second, b);
    PairsRelease(db.episodes, half.episodes, u.episodes, db.pairs, c.pair);
  }

  lemma ArmsDiffer(t: Episodes, pairs: Pairs, k: Id)
    requires PairsMatched(t, pairs) && k in pairs.rows
    ensures pairs.rows[k].retained != pairs.rows[k].reset
    ensures pairs.rows[k].retained in t.rows && pairs.rows[k].reset in t.rows
    ensures t.rows[pairs.rows[k].retained].protocol == t.rows[pairs.rows[k].reset].protocol
  {
  }

  lemma PastTogether(t: Episodes, pairs: Pairs, k: Id)
    requires PairsMatched(t, pairs) && k in pairs.rows
    ensures Past(t, pairs.rows[k].retained) <==> Past(t, pairs.rows[k].reset)
  {
  }

  lemma ReleaseTwins(hashes: Hashes, db: Tables, c: StudyCommand, ids: Fresh, u: Tables, ev: StudyEvent)
    returns (half: Tables, a: Message, b: Message)
    requires c.ReleaseMatchedCorrection? && Release(hashes, db, c, ids) == Ok((u, ev))
    ensures Twin(db, c, ids, half, u, a, b)
    ensures db.episodes.rows[db.pairs.rows[c.pair].retained].protocol in db.design.protocols
    ensures db.design.protocols[db.episodes.rows[db.pairs.rows[c.pair].retained].protocol].correctionDigest == hashes.digest(c.correction)
  {
    hide ReleaseArm, ArmReleased, PlacesAligned, ForumsAligned, PairsAligned, RosterAligned, ActorsAligned;
    var p := db.pairs.rows[c.pair];
    half := ReleaseArm(db, p.retained, c.retainedThread, c.correction, ids.first).value;
    a := ReleaseShape(db, p.retained, c.retainedThread, c.correction, ids.first, half);
    b := ReleaseShape(half, p.reset, c.resetThread, c.correction, ids.second, u);
  }

  lemma HasReleased(hashes: Hashes, db: Tables, c: StudyCommand, ids: Fresh, u: Tables, ev: StudyEvent)
    requires Invariant(hashes, db) && c.ReleaseMatchedCorrection? && Release(hashes, db, c, ids) == Ok((u, ev))
    ensures Invariant(hashes, u)
  {
    hide ArmsHold, ArmReleased, PairsMatched, Corrections, Release, PlacesAligned, ForumsAligned, PairsAligned, RosterAligned, ActorsAligned;
    var half, a, b := ReleaseTwins(hashes, db, c, ids, u, ev);
    CorrectionsRelease(hashes, db, c, ids, half, u, a, b);
    ArmKeeps(hashes, db, db.pairs.rows[c.pair].retained, c.retainedThread, c.correction, ids.first, half, a);
    ArmKeeps(hashes, half, db.pairs.rows[c.pair].reset, c.resetThread, c.correction, ids.second, u, b);
  }
}
