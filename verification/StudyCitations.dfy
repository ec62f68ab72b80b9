/** Which messages an actor may cite in its decision. */
module StudyCitations {
  import opened Wrappers
  import opened StudyVocabulary
  import opened StudyTables
  import opened StudySpec
  import opened StudyInvariants
  import opened StudyTheorems
  import opened StudyHistories

  lemma SubsetSize(a: set<Id>, b: set<Id>)
    requires a <= b
    ensures |a| <= |b|
  {
    assert a + (b - a) == b;
    assert |a + (b - a)| == |a| + |b - a|;
  }

  lemma TwoOfThem(s: set<Id>, a: Id, b: Id)
    requires a in s && b in s && a != b
    ensures |s| != 1
  {
    assert |{a, b}| == 2;
    SubsetSize({a, b}, s);
  }

  lemma ReadCovers(hashes: Hashes, outside: Outside, db: Tables, c: StudyCommand, id: Id, u: Tables, ev: StudyEvent, m: Id, earlier: Id)
    requires c.ReadForum? && Read(hashes, outside, db, c, id) == Ok((u, ev))
    requires m in db.forum.messages && ev.ForumMessagesRead? && db.forum.messages[m].thread == ev.thread
    requires c.first <= db.forum.messages[m].ordinal <= c.through
    requires earlier in CoveringReads(db.forum, c.obligation, m)
    ensures u.forum.messages == db.forum.messages && id != earlier
    ensures {id, earlier} <= CoveringReads(u.forum, c.obligation, m)
  {
    hide ReadableThread, Slice, CountRead, ActorsAligned, PlacesAligned, PairsAligned, EpisodesAligned, RosterAligned, RunsAligned, CustodyAligned, ForumsAligned;
  }

  /** A citation counts the covering reads instead of asking for one: reading a message again makes it uncitable. */
  lemma ReadAgainUncitable(
      hashes: Hashes, outside: Outside, db: Tables, c: StudyCommand, id: Id, u: Tables, ev: StudyEvent, decision: DecisionBody, m: Id, earlier: Id)
    requires c.ReadForum? && Read(hashes, outside, db, c, id) == Ok((u, ev))
    requires m in db.forum.messages && ev.ForumMessagesRead? && db.forum.messages[m].thread == ev.thread
    requires c.first <= db.forum.messages[m].ordinal <= c.through
    requires earlier in CoveringReads(db.forum, c.obligation, m)
    requires !Authored(u, m, c.obligation)
    ensures Decide(u, c.obligation, decision, Some(m)).Err?
  {
    hide Read, CoveringReads, ActorsAligned, PlacesAligned, PairsAligned, EpisodesAligned, RosterAligned, RunsAligned, CustodyAligned, ForumsAligned;
    ReadCovers(hashes, outside, db, c, id, u, ev, m, earlier);
    TwoOfThem(CoveringReads(u.forum, c.obligation, m), earlier, id);
  }

  // ---------- the exact condition ----------

  /** The obligation may still record a decision. */
  predicate Undecided(db: Tables, o: Id) {
    o in db.actors.roster.rows && db.actors.state[o] != Failed && o !in db.outcomes.decisions
  }

  /** One of the actor's receipts returned the message. */
  ghost predicate Shown(db: Tables, o: Id, m: Id) {
    exists r :: ShownBy(db, o, m, r)
  }

  predicate ShownBy(db: Tables, o: Id, m: Id, r: Id) {
    r in db.forum.receipts && db.forum.receipts[r].obligation == o && Returned(db.forum, r, m)
  }

  /** Exactly one of the actor's receipts returned the message. */
  ghost predicate ShownOnce(db: Tables, o: Id, m: Id) {
    exists r :: ShownBy(db, o, m, r) && forall q :: ShownBy(db, o, m, q) ==> q == r
  }

  lemma Singleton(s: set<Id>)
    ensures |s| == 1 <==> exists x :: x in s && forall y :: y in s ==> y == x
  {
    if |s| == 1 {
      var x :| x in s;
      assert |s - {x}| == 0;
      forall y | y in s ensures y == x { assert y != x ==> y in s - {x}; }
    }
    if exists x :: x in s && forall y :: y in s ==> y == x {
      var x :| x in s && forall y :: y in s ==> y == x;
      assert s == {x};
    }
  }

  lemma OnceIsOne(db: Tables, o: Id, m: Id)
    requires m in db.forum.messages
    ensures ShownOnce(db, o, m) <==> |CoveringReads(db.forum, o, m)| == 1
  {
    var s := CoveringReads(db.forum, o, m);
    Singleton(s);
    assert forall r :: r in s <==> ShownBy(db, o, m, r);
  }

  lemma DecideExactly(db: Tables, o: Id, decision: DecisionBody, m: Id)
    requires Undecided(db, o)
    ensures Decide(db, o, decision, Some(m)).Ok? <==>
      OwnPublished(db, o, m) || (db.actors.state[o] == Active && m in db.forum.messages && |CoveringReads(db.forum, o, m)| == 1)
  {
    hide OwnPublished, CoveringReads, EpisodesAligned, PairsAligned, PlacesAligned, RunsAligned, CustodyAligned;
  }

  /**
   * In every reachable state, for an obligation that may still decide: the citation is taken exactly when the
   * message is the actor's own and published, or the actor is still active and exactly one of its receipts returned it.
   */
  lemma CitableExactly(hashes: Hashes, outside: Outside, steps: seq<Step>, o: Id, decision: DecisionBody, m: Id)
    requires Undecided(Execute(hashes, outside, steps).tables, o)
    ensures var db := Execute(hashes, outside, steps).tables;
      && (Decide(db, o, decision, Some(m)).Ok? <==> OwnPublished(db, o, m) || (db.actors.state[o] == Active && ShownOnce(db, o, m)))
      && (db.actors.state[o] == Active && !Authored(db, m, o) ==> (Decide(db, o, decision, Some(m)).Ok? <==> ShownOnce(db, o, m)))
  {
    hide Execute, Decide, ShownOnce, CoveringReads;
    var db := Execute(hashes, outside, steps).tables;
    DecideExactly(db, o, decision, m);
    if m in db.forum.messages { OnceIsOne(db, o, m); } else { NeverShown(db, o, m); }
  }

  lemma NeverShown(db: Tables, o: Id, m: Id)
    requires m !in db.forum.messages
    ensures !ShownOnce(db, o, m)
  {
  }

  lemma TwiceOrOnce(db: Tables, o: Id, m: Id)
    requires Shown(db, o, m)
    ensures !ShownOnce(db, o, m) <==> exists q, r :: q != r && ShownBy(db, o, m, q) && ShownBy(db, o, m, r)
  {
    hide ShownBy;
    var r :| ShownBy(db, o, m, r);
    if !ShownOnce(db, o, m) {
      var q :| ShownBy(db, o, m, q) && q != r;
    }
  }

  /** So a message an active actor was shown, and did not write, is refused exactly when two receipts returned it. */
  lemma ShownButRefused(hashes: Hashes, outside: Outside, steps: seq<Step>, o: Id, decision: DecisionBody, m: Id)
    requires var db := Execute(hashes, outside, steps).tables;
      Undecided(db, o) && db.actors.state[o] == Active && !Authored(db, m, o) && Shown(db, o, m)
    ensures var db := Execute(hashes, outside, steps).tables;
      Decide(db, o, decision, Some(m)).Err? <==> exists q, r :: q != r && ShownBy(db, o, m, q) && ShownBy(db, o, m, r)
  {
    hide Execute, Decide, ShownBy, ShownOnce, Shown, Authored, Undecided;
    CitableExactly(hashes, outside, steps, o, decision, m);
    TwiceOrOnce(Execute(hashes, outside, steps).tables, o, m);
  }

  // ---------- a message read twice ----------

  const BODY: MessageBody := [65]
  const POST := Message(1, 1, Some(2), Finding, None, None, BODY)

  /** A source obligation of episode 1: it may read twice and post once. */
  function Seat(role: RoleOrdinal): Obligation {
    Obligation(1, 1, Source, role, 0, 2, 1)
  }

  /** Episode 1 has its protocol and treatment, and its sources may work. */
  ghost predicate Scene(hashes: Hashes, db: Tables, state: EpisodeState) {
    && 1 in db.design.protocols && db.design.protocols[1].promptDigest == hashes.promptContract && db.design.protocols[1].toolDigest == hashes.toolContract
    && 1 in db.episodes.rows && db.episodes.rows[1].protocol == 1 && db.episodes.rows[1].population == 1
    && 1 in db.episodes.treatments && 1 !in db.episodes.frozen && db.episodes.state[1] == state
    && db.outcomes.decisions == map[]
  }

  ghost predicate Seated(a: Actors, o: RoleOrdinal) {
    o in a.roster.rows && a.roster.rows[o] == Seat(o) && a.roster.occurrenceOf[o] == o && a.state[o] == Active
  }

  /** The first `n` obligations, with what the first has read and the second has posted. */
  ghost predicate Crew(a: Actors, n: nat, readsUsed: nat, postsUsed: nat) {
    && (forall o :: o in a.roster.rows <==> 1 <= o <= n) && (forall c :: c in a.roster.occurrences <==> 1 <= c <= n)
    && (n >= 1 ==> Seated(a, 1) && a.readsUsed[1] == readsUsed) && (n >= 2 ==> Seated(a, 2) && a.postsUsed[2] == postsUsed)
  }

  /** The open forum with its one thread and the windows of the first `n` obligations. */
  ghost predicate Hall(f: Forums, n: nat, head: Ordinal) {
    && 1 in f.places.forums && f.places.forums[1].episode == 1 && f.state[1] == Open
    && 1 in f.places.threads && f.places.threads[1].forum == 1 && 1 in f.places.threadOf && f.places.threadOf[1] == 1 && f.heads[1] == head
    && (forall o :: o in f.exposures <==> 1 <= o <= n)
    && (forall o: Id :: 1 <= o <= n ==> f.exposures[o] == Exposure(o, 1, 1) && f.through[o] == head)
  }

  ghost predicate Posted(f: Forums) {
    f.messages == map[1 := POST] && f.publication == map[1 := Published]
  }

  ghost predicate ReadTimes(f: Forums, n: nat) {
    && (forall r :: r in f.receipts <==> 1 <= r <= n)
    && (forall r: Id :: 1 <= r <= n ==> f.receipts[r] == Receipt(1, 1, 1, 1, 1))
  }

  ghost predicate NoForum(f: Forums) {
    f == NO_FORUMS
  }

  ghost predicate BareForum(f: Forums) {
    && 1 in f.places.forums && f.places.forums[1].episode == 1 && f.state[1] == Open
    && f.places.threads == map[] && f.places.threadOf == map[] && f.exposures == map[] && f.messages == map[] && f.receipts == map[]
  }

  lemma BodyIsTitle()
    ensures ValidTitle(BODY)
  {
    assert LeadingSpace(BODY) == 0;
  }

  lemma ForumAdded(hashes: Hashes, d: Digest, db: Tables)
    requires Scene(hashes, db, Admitted) && NoForum(db.forum)
    ensures var r := CreateForum(db, 1, d, 1); r.Ok? && r.value.0 == db.(forum := r.value.0.forum) && BareForum(r.value.0.forum)
  {
    hide PairsAligned, RosterAligned, ActorsAligned, RunsAligned, CustodyAligned, EpisodesAligned;
  }

  ghost predicate Silence(f: Forums) {
    f.messages == map[] && f.receipts == map[]
  }

  lemma ThreadOpens(f: Forums, places: Places)
    requires BareForum(f) && ValidTitle(BODY) && places.forums == f.places.forums
    requires places.threads == map[1 := Thread(1, BODY)] && places.threadOf == map[1 := 1]
    requires ExposuresPlaced(f.exposures, places.threadOf) && MessagesPlaced(f.messages, places.threads)
    ensures Hall(AddThread(f, places, 1), 0, 0) && Silence(AddThread(f, places, 1))
  {
    hide ValidTitle, PlacesAligned;
  }

  lemma ThreadInserted(f: Forums)
    requires BareForum(f) && ValidTitle(BODY)
    ensures var places := InsertThread(f.places, 1, BODY, 1);
      places.forums == f.places.forums && places.threads == map[1 := Thread(1, BODY)] && places.threadOf == map[1 := 1]
  {
    hide ValidTitle, PlacesAligned, ForumsAligned;
  }

  lemma ThreadAdded(db: Tables)
    requires BareForum(db.forum) && ValidTitle(BODY)
    ensures var r := OpenThread(db, 1, BODY, 1);
      r.Ok? && r.value.0 == db.(forum := r.value.0.forum) && Hall(r.value.0.forum, 0, 0) && Silence(r.value.0.forum)
  {
    hide PairsAligned, RosterAligned, ActorsAligned, RunsAligned, CustodyAligned, EpisodesAligned, ValidTitle, Hall, Silence, InsertThread, AddThread,
         ExposuresPlaced, MessagesPlaced;
    var places := InsertThread(db.forum.places, 1, BODY, 1);
    ThreadInserted(db.forum);
    StillPlaced(db.forum, places);
    ThreadOpens(db.forum, places);
  }

  function AdmitSeat(hashes: Hashes, d: Digest, role: RoleOrdinal): StudyCommand {
    AdmitActorObligation(1, Source, role, d, hashes.promptContract, hashes.toolContract, 0, 2, 1)
  }

  lemma SeatEnrolled(a: Actors, n: nat)
    requires n < 2 && Crew(a, n, 0, 0) && n + 1 !in a.roster.rows && n + 1 !in a.roster.occurrences
    ensures Crew(InsertObligation(a, Seat(n + 1), n + 1, n + 1), n + 1, 0, 0)
  {
    hide RosterAligned, ActorsAligned;
  }

  lemma RoleFree(a: Actors, n: nat)
    requires n < 2 && Crew(a, n, 0, 0)
    ensures !RoleTaken(a, 1, Source, n + 1)
  {
    hide RosterAligned, ActorsAligned;
  }

  lemma SeatAdded(hashes: Hashes, d: Digest, db: Tables, n: nat)
    requires n < 2 && Scene(hashes, db, if n == 0 then Admitted else SourceActive) && Crew(db.actors, n, 0, 0)
    ensures var r := AdmitObligation(db, AdmitSeat(hashes, d, n + 1), Fresh(n + 1, n + 1, n + 1));
      && r.Ok? && Scene(hashes, r.value.0, SourceActive) && Crew(r.value.0.actors, n + 1, 0, 0) && r.value.0.forum == db.forum
  {
    hide InsertObligation, RoleTaken, PairsAligned, PlacesAligned, ForumsAligned, RunsAligned, CustodyAligned, RosterAligned, ActorsAligned;
    SeatsFree(db.actors, n);
    RoleFree(db.actors, n);
    SeatEnrolled(db.actors, n);
  }

  lemma SeatsFree(a: Actors, n: nat)
    requires n < 2 && Crew(a, n, 0, 0)
    ensures n + 1 !in a.roster.rows && n + 1 !in a.roster.occurrences
  {
  }

  lemma WindowOpened(f: Forums, n: nat)
    requires n < 2 && Hall(f, n, 0)
    ensures n + 1 !in f.exposures && !ExposureTaken(f, n + 1) && Hall(OpenWindow(f, n + 1, Exposure(n + 1, 1, 1)), n + 1, 0)
  {
    hide PlacesAligned;
  }

  lemma WindowAdded(db: Tables, n: nat)
    requires n < 2 && Crew(db.actors, 2, 0, 0) && Hall(db.forum, n, 0) && 1 in db.episodes.rows
    ensures var r := Expose(db, n + 1, 1, 1, n + 1);
      && r.Ok? && r.value.0 == db.(forum := r.value.0.forum) && Hall(r.value.0.forum, n + 1, 0)
      && r.value.0.forum.messages == db.forum.messages && r.value.0.forum.receipts == db.forum.receipts
  {
    hide ExposureTaken, PairsAligned, EpisodesAligned, RosterAligned, RunsAligned, CustodyAligned, PlacesAligned;
    WindowOpened(db.forum, n);
  }

  lemma PostAppended(f: Forums)
    requires Hall(f, 2, 0) && Silence(f)
    ensures Hall(Append(f, 1, POST), 2, 1) && Posted(Append(f, 1, POST)) && ReadTimes(Append(f, 1, POST), 0)
  {
    hide PlacesAligned;
    assert f.publication == map[];
  }

  lemma PostAdded(hashes: Hashes, db: Tables)
    requires Scene(hashes, db, SourceActive) && Crew(db.actors, 2, 0, 0) && Hall(db.forum, 2, 0) && Silence(db.forum)
    ensures var r := Publish(hashes, db, PublishForumMessage(2, Finding, BODY, None, None), 1);
      && r.Ok? && Scene(hashes, r.value.0, SourceActive) && Crew(r.value.0.actors, 2, 0, 1)
      && Hall(r.value.0.forum, 2, 1) && Posted(r.value.0.forum) && ReadTimes(r.value.0.forum, 0)
  {
    hide Append, Posted, ReadTimes, PairsAligned, RunsAligned, CustodyAligned, EpisodesAligned, RosterAligned, PlacesAligned;
    PostAppended(db.forum);
  }

  /** The sealed object 1 holds the rendering of the one message. */
  predicate Rendered(hashes: Hashes, outside: Outside) {
    1 in outside.sealed && outside.sealed[1] == hashes.digest(hashes.render(1, 1, 1, map[1 := (POST, Published)]))
  }

  lemma OneSlice(f: Forums)
    requires Posted(f)
    ensures Slice(f, 1, 1, 1) == map[1 := (POST, Published)]
  {
    hide PlacesAligned;
  }

  lemma RoomReadable(hashes: Hashes, db: Tables, n: nat)
    requires n < 2 && Scene(hashes, db, SourceActive) && Crew(db.actors, 2, n, 1) && Hall(db.forum, 2, 1)
    ensures ReadableThread(db, 1, 1, 1) == Ok(1)
  {
    hide PairsAligned, RunsAligned, CustodyAligned, EpisodesAligned, RosterAligned, PlacesAligned;
  }

  lemma ReadDelivered(f: Forums, a: Actors, n: nat)
    requires n < 2 && Hall(f, 2, 1) && Posted(f) && ReadTimes(f, n) && Crew(a, 2, n, 1)
    ensures var g := Deliver(f, n + 1, Receipt(1, 1, 1, 1, 1)); Hall(g, 2, 1) && Posted(g) && ReadTimes(g, n + 1)
    ensures Crew(CountRead(a, 1), 2, n + 1, 1) && n + 1 !in f.receipts
  {
    hide RosterAligned, PlacesAligned;
  }

  lemma ReadAdded(hashes: Hashes, outside: Outside, db: Tables, n: nat)
    requires n < 2 && Scene(hashes, db, SourceActive) && Crew(db.actors, 2, n, 1) && Hall(db.forum, 2, 1) && Posted(db.forum)
    requires ReadTimes(db.forum, n) && Rendered(hashes, outside)
    ensures var r := Read(hashes, outside, db, ReadForum(1, 1, 1, 1), n + 1);
      && r.Ok? && Scene(hashes, r.value.0, SourceActive) && Crew(r.value.0.actors, 2, n + 1, 1)
      && Hall(r.value.0.forum, 2, 1) && Posted(r.value.0.forum) && ReadTimes(r.value.0.forum, n + 1)
  {
    hide PairsAligned, RunsAligned, CustodyAligned, EpisodesAligned, RosterAligned, PlacesAligned, ForumsAligned, ActorsAligned,
         Slice, ReadableThread, Deliver, CountRead, Crew, Hall, Posted, ReadTimes;
    OneSlice(db.forum);
    RoomReadable(hashes, db, n);
    ReadDelivered(db.forum, db.actors, n);
  }

  lemma Citing(db: Tables, n: nat, decision: DecisionBody)
    requires Crew(db.actors, 2, n, 1) && Posted(db.forum) && ReadTimes(db.forum, n) && db.outcomes.decisions == map[] && 1 <= n <= 2
    ensures Decide(db, 1, decision, Some(1)).Ok? <==> n == 1
    ensures n == 2 ==> Decide(db, 1, decision, Some(1)) == Err(SubjectNotFound)
  {
    hide PairsAligned, RunsAligned, CustodyAligned, EpisodesAligned, RosterAligned, PlacesAligned;
    var s := CoveringReads(db.forum, 1, 1);
    if n == 1 { assert s == {1}; } else { assert s == {1, 2}; }
  }

  lemma SeatsReached(hashes: Hashes, outside: Outside, d: Digest) returns (db: Tables)
    requires 1 in outside.applications
    ensures Reaches(hashes, outside, db) && Scene(hashes, db, SourceActive) && Crew(db.actors, 2, 0, 0) && Hall(db.forum, 0, 0) && Silence(db.forum)
  {
    hide Reaches, CreateForum, OpenThread, AdmitObligation, Crew, Hall, Silence, BareForum, Scene, Setting, Arms, ValidTitle,
         PlacesAligned, ForumsAligned, PairsAligned, RosterAligned, ActorsAligned, EpisodesAligned, RunsAligned, CustodyAligned;
    var a := Armed(hashes, d);
    ArmsReached(hashes, outside, d);
    ArmedScene(hashes, d);
    BodyIsTitle();
    ForumAdded(hashes, d, a);
    var b := CreateForum(a, 1, d, 1).value.0;
    Goes(hashes, outside, a, CreateEpisodeForum(1, d), 1, b);
    ThreadAdded(b);
    var c := OpenThread(b, 1, BODY, 1).value.0;
    Goes(hashes, outside, b, OpenForumThread(1, BODY), 1, c);
    SameScene(hashes, a, c, Admitted);
    SeatAdded(hashes, d, c, 0);
    var e := AdmitObligation(c, AdmitSeat(hashes, d, 1), Fresh(1, 1, 1)).value.0;
    Goes(hashes, outside, c, AdmitSeat(hashes, d, 1), 1, e);
    SeatAdded(hashes, d, e, 1);
    db := AdmitObligation(e, AdmitSeat(hashes, d, 2), Fresh(2, 2, 2)).value.0;
    Goes(hashes, outside, e, AdmitSeat(hashes, d, 2), 2, db);
  }

  lemma ArmedScene(hashes: Hashes, d: Digest)
    ensures Scene(hashes, Armed(hashes, d), Admitted) && Crew(Armed(hashes, d).actors, 0, 0, 0) && NoForum(Armed(hashes, d).forum)
  {
  }

  lemma SameScene(hashes: Hashes, a: Tables, b: Tables, state: EpisodeState)
    requires Scene(hashes, a, state) && b.design == a.design && b.episodes == a.episodes && b.outcomes == a.outcomes
    ensures Scene(hashes, b, state)
  {
  }

  lemma PostReached(hashes: Hashes, outside: Outside, d: Digest) returns (db: Tables)
    requires 1 in outside.applications
    ensures Reaches(hashes, outside, db) && Scene(hashes, db, SourceActive) && Crew(db.actors, 2, 0, 1)
    ensures Hall(db.forum, 2, 1) && Posted(db.forum) && ReadTimes(db.forum, 0)
  {
    hide Reaches, Expose, Publish, Crew, Hall, Silence, Posted, ReadTimes, Scene,
         PlacesAligned, ForumsAligned, PairsAligned, RosterAligned, ActorsAligned, EpisodesAligned, RunsAligned, CustodyAligned;
    var a := SeatsReached(hashes, outside, d);
    EpisodeThere(hashes, a);
    WindowAdded(a, 0);
    var b := Expose(a, 1, 1, 1, 1).value.0;
    Goes(hashes, outside, a, AdmitForumExposure(1, 1, 1), 1, b);
    WindowAdded(b, 1);
    var c := Expose(b, 2, 1, 1, 2).value.0;
    Goes(hashes, outside, b, AdmitForumExposure(2, 1, 1), 2, c);
    SameScene(hashes, a, c, SourceActive);
    StillSilent(a.forum, c.forum);
    PostAdded(hashes, c);
    db := Publish(hashes, c, PublishForumMessage(2, Finding, BODY, None, None), 1).value.0;
    Goes(hashes, outside, c, PublishForumMessage(2, Finding, BODY, None, None), 1, db);
  }

  lemma EpisodeThere(hashes: Hashes, db: Tables)
    requires Scene(hashes, db, SourceActive)
    ensures 1 in db.episodes.rows
  {
  }

  lemma StillSilent(f: Forums, g: Forums)
    requires Silence(f) && g.messages == f.messages && g.receipts == f.receipts
    ensures Silence(g)
  {
  }

  function ReadIt(n: nat): Step
    requires n < 2
  {
    Command(ReadForum(1, 1, 1, 1), Fresh(n + 1, n + 1, n + 1))
  }

  /** One accepted read in a run that has come this far. */
  lemma ReadOnward(hashes: Hashes, outside: Outside, steps: seq<Step>, db: Tables, n: nat) returns (u: Tables)
    requires Execute(hashes, outside, steps) == Store(db, outside)
    requires n < 2 && Scene(hashes, db, SourceActive) && Crew(db.actors, 2, n, 1) && Hall(db.forum, 2, 1) && Posted(db.forum)
    requires ReadTimes(db.forum, n) && Rendered(hashes, outside)
    ensures Apply(hashes, Store(db, outside), ReadIt(n).command, ReadIt(n).ids).Ok?
    ensures Execute(hashes, outside, steps + [ReadIt(n)]) == Store(u, outside)
    ensures Scene(hashes, u, SourceActive) && Crew(u.actors, 2, n + 1, 1) && Hall(u.forum, 2, 1) && Posted(u.forum) && ReadTimes(u.forum, n + 1)
  {
    hide Read, Crew, Hall, Posted, ReadTimes, Scene, Rendered,
         PlacesAligned, ForumsAligned, PairsAligned, RosterAligned, ActorsAligned, EpisodesAligned, RunsAligned, CustodyAligned;
    ReadAdded(hashes, outside, db, n);
    u := Read(hashes, outside, db, ReadForum(1, 1, 1, 1), n + 1).value.0;
    assert (steps + [ReadIt(n)])[..|steps|] == steps;
  }

  lemma Decides(hashes: Hashes, outside: Outside, db: Tables, decision: DecisionBody, ids: Fresh)
    ensures var r := Decide(db, 1, decision, Some(1)); var a := Apply(hashes, Store(db, outside), RecordDecision(1, decision, Some(1)), ids);
      (r.Ok? ==> a.Ok?) && (r.Err? ==> a == Err(r.error))
  {
    hide Decide, PlacesAligned, ForumsAligned, PairsAligned, RosterAligned, ActorsAligned, EpisodesAligned, RunsAligned, CustodyAligned;
  }

  /**
   * A history in which an actor reads a message of another actor twice: after the first read it may cite the
   * message, after the second its decision is rejected.
   */
  lemma ReadTwiceRefused(hashes: Hashes, outside: Outside, d: Digest, decision: DecisionBody, ids: Fresh) returns (before: seq<Step>)
    requires 1 in outside.applications && Rendered(hashes, outside)
    ensures var decide := RecordDecision(1, decision, Some(1));
      var once := before + [ReadIt(0)]; var twice := once + [ReadIt(1)];
      && Apply(hashes, Execute(hashes, outside, before), ReadIt(0).command, ReadIt(0).ids).Ok?
      && Apply(hashes, Execute(hashes, outside, once), ReadIt(1).command, ReadIt(1).ids).Ok?
      && Apply(hashes, Execute(hashes, outside, once), decide, ids).Ok?
      && Apply(hashes, Execute(hashes, outside, twice), decide, ids) == Err(SubjectNotFound)
  {
    hide Execute, Apply, Decide, Crew, Hall, Posted, ReadTimes, Scene, Rendered,
         PlacesAligned, ForumsAligned, PairsAligned, RosterAligned, ActorsAligned, EpisodesAligned, RunsAligned, CustodyAligned;
    var db := PostReached(hashes, outside, d);
    before :| Execute(hashes, outside, before) == Store(db, outside);
    var once := ReadOnward(hashes, outside, before, db, 0);
    var twice := ReadOnward(hashes, outside, before + [ReadIt(0)], once, 1);
    Undecided1(hashes, once);
    Undecided1(hashes, twice);
    Citing(once, 1, decision);
    Citing(twice, 2, decision);
    Decides(hashes, outside, once, decision, ids);
    Decides(hashes, outside, twice, decision, ids);
  }

  lemma Undecided1(hashes: Hashes, db: Tables)
    requires Scene(hashes, db, SourceActive)
    ensures db.outcomes.decisions == map[]
  {
  }
}
