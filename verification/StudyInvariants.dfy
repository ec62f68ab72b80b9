/**
 * What every reachable state of the control plane satisfies. Each part names just the tables it is about,
 * so a command that leaves those alone keeps it.
 */
module StudyInvariants {
  import opened Wrappers
  import opened StudyVocabulary
  import opened StudyTables
  import opened StudySpec
  import opened FiniteSums

  function Rank(s: EpisodeState): nat {
    match s
    case Admitted => 1
    case SourceActive => 2
    case SourceReconciled => 3
    case SuccessorAdmitted => 4
    case CorrectionReleased => 5
    case SuccessorActive => 6
    case Closed => 7
  }

  /** The correction has been released into the episode. */
  predicate Past(t: Episodes, e: Id) {
    e in t.rows && Rank(t.state[e]) >= 5
  }

  /** Started episodes have a treatment; replaced ones are frozen and have a successor population. */
  ghost predicate Lifecycle(t: Episodes) {
    forall e :: e in t.rows ==>
      && (t.state[e] != Admitted ==> e in t.treatments)
      && (e in t.frozen ==> t.state[e] != Admitted)
      && (e in t.successors <==> Rank(t.state[e]) >= 3)
      && (e in t.successors ==> e in t.frozen)
  }

  ghost predicate ActorPhases(r: Roster, state: map<Id, ObligationState>, t: Episodes) {
    && state.Keys == r.rows.Keys
    && forall o :: o in r.rows ==>
         var row := r.rows[o];
         && row.episode in t.rows && t.state[row.episode] != Admitted
         && (row.phase == Successor ==> Rank(t.state[row.episode]) >= 4)
         && (row.phase == Source && row.episode in t.frozen ==> state[o] != Active)
  }

  /** Forums belong to admitted episodes, and a frozen head names the episode's thread. */
  ghost predicate Rooms(p: Places, t: Episodes) {
    && (forall f :: f in p.forums ==> p.forums[f].episode in t.rows)
    && (forall e :: e in t.frozen ==> ThreadOfEpisode(p, t.frozen[e].thread, e))
  }

  function EpisodeOf(p: Places, thread: Id): Id
    requires thread in p.threads
  {
    p.forums[p.threads[thread].forum].episode
  }

  // ---------- threads ----------

  ghost predicate HasOrdinal(messages: map<Id, Message>, thread: Id, k: int) {
    exists m :: m in messages && messages[m].thread == thread && messages[m].ordinal == k
  }

  /** The ordinals of a thread are exactly 1..head, each once. */
  ghost predicate Ordinals(heads: map<Id, Ordinal>, messages: map<Id, Message>) {
    && (forall m :: m in messages ==> messages[m].thread in heads && 1 <= messages[m].ordinal <= heads[messages[m].thread])
    && (forall m, n | m in messages && n in messages && messages[m].thread == messages[n].thread :: m == n || messages[m].ordinal != messages[n].ordinal)
    && (forall d, k :: d in heads && 1 <= k <= heads[d] ==> HasOrdinal(messages, d, k))
  }

  /** Who may stand where: sources up to the frozen head, the service right after it, successors beyond. */
  ghost predicate InPlace(t: Episodes, r: Roster, e: Id, m: Message) {
    match m.author
    case None => e in t.frozen && m.ordinal == t.frozen[e].head + 1
    case Some(c) =>
      && c in r.occurrences && r.occurrences[c] in r.rows
      && r.rows[r.occurrences[c]].episode == e
      && match r.rows[r.occurrences[c]].phase
         case Source => e in t.frozen ==> m.ordinal <= t.frozen[e].head
         case Successor => e in t.frozen && m.ordinal > t.frozen[e].head + 1
  }

  ghost predicate Authors(t: Episodes, r: Roster, p: Places, messages: map<Id, Message>) {
    forall m :: m in messages ==> messages[m].thread in p.threads && InPlace(t, r, EpisodeOf(p, messages[m].thread), messages[m])
  }

  /** The head stands still from the freeze until the correction and is past it afterwards. */
  ghost predicate HeadFollows(t: Episodes, e: Id, head: int) {
    && (e in t.frozen && !Past(t, e) ==> head == t.frozen[e].head)
    && (Past(t, e) ==> e in t.frozen && head > t.frozen[e].head)
  }

  ghost predicate Heads(t: Episodes, p: Places, heads: map<Id, Ordinal>) {
    heads.Keys == p.threads.Keys && forall d :: d in p.threads ==> HeadFollows(t, EpisodeOf(p, d), heads[d])
  }

  /** Every window starts where its phase and treatment say and ends at the head. */
  ghost predicate Windows(t: Episodes, r: Roster, p: Places, heads: map<Id, Ordinal>, exposures: map<Id, Exposure>, through: map<Id, Ordinal>) {
    && heads.Keys == p.threads.Keys && through.Keys == exposures.Keys
    && forall o :: o in exposures ==>
         var x := exposures[o];
         && o in r.rows && x.forum in p.threadOf
         && p.forums[x.forum].episode == r.rows[o].episode
         && WindowStart(t, r.rows[o].episode, r.rows[o].phase) == Some(x.from)
         && through[o] == heads[p.threadOf[x.forum]]
         && 0 <= x.from - 1 <= through[o]
  }

  /** A relation goes strictly down in its own thread and stays inside its author's window. */
  ghost predicate RelationHolds(r: Roster, exposures: map<Id, Exposure>, messages: map<Id, Message>, m: Message, target: Id) {
    && target in messages && messages[target].thread == m.thread && messages[target].ordinal < m.ordinal
    && m.author.Some? && m.author.value in r.occurrences
    && r.occurrences[m.author.value] in exposures
    && exposures[r.occurrences[m.author.value]].from <= messages[target].ordinal
  }

  ghost predicate Relations(r: Roster, exposures: map<Id, Exposure>, messages: map<Id, Message>) {
    forall m :: m in messages ==>
      && (messages[m].inReplyTo.Some? ==> RelationHolds(r, exposures, messages, messages[m], messages[m].inReplyTo.value))
      && (messages[m].supersedes.Some? ==> RelationHolds(r, exposures, messages, messages[m], messages[m].supersedes.value))
  }

  /** The reads of an obligation. */
  function ReceiptsOf(receipts: map<Id, Receipt>, o: Id): set<Id> {
    set r | r in receipts && receipts[r].obligation == o
  }

  ghost predicate ReadsCounted(r: Roster, readsUsed: map<Id, nat>, receipts: map<Id, Receipt>) {
    && readsUsed.Keys == r.rows.Keys
    && forall o :: o in r.rows ==> readsUsed[o] == |ReceiptsOf(receipts, o)| && readsUsed[o] <= r.rows[o].readBudget
  }

  /** Reads stay inside the reader's window. */
  ghost predicate ReadsInside(p: Places, heads: map<Id, Ordinal>, exposures: map<Id, Exposure>, receipts: map<Id, Receipt>) {
    forall r :: r in receipts ==>
      var x := receipts[r];
      && x.obligation in exposures && exposures[x.obligation].forum in p.threadOf
      && x.thread == p.threadOf[exposures[x.obligation].forum] && x.thread in heads
      && exposures[x.obligation].from <= x.first <= x.through <= heads[x.thread]
  }

  ghost predicate PostsBudgeted(r: Roster, postsUsed: map<Id, nat>, exposures: map<Id, Exposure>) {
    && postsUsed.Keys == r.rows.Keys
    && forall o :: o in r.rows ==> postsUsed[o] <= r.rows[o].postBudget && (postsUsed[o] > 0 ==> o in exposures)
  }

  /** Every message is one actor's post, except the one correction. */
  ghost predicate PostsCounted(t: Episodes, r: Roster, postsUsed: map<Id, nat>, p: Places, heads: map<Id, Ordinal>) {
    && postsUsed.Keys == r.rows.Keys && heads.Keys == p.threads.Keys
    && forall d :: d in p.threads ==>
         heads[d] == Sum(ColumnOf(r, postsUsed, EpisodeOf(p, d))) + (if Past(t, EpisodeOf(p, d)) then 1 else 0)
  }

  // ---------- outcomes ----------

  /** A cited message is the actor's own or was returned by one of its reads. */
  ghost predicate CitationHolds(r: Roster, messages: map<Id, Message>, receipts: map<Id, Receipt>, o: Id, cited: Id) {
    && cited in messages && o in r.rows
    && (|| messages[cited].author == Some(r.occurrenceOf[o])
        || exists k :: k in receipts && receipts[k].obligation == o && receipts[k].thread == messages[cited].thread
                       && receipts[k].first <= messages[cited].ordinal <= receipts[k].through)
  }

  ghost predicate Citations(r: Roster, messages: map<Id, Message>, receipts: map<Id, Receipt>, decisions: map<Id, DecisionRow>) {
    forall o :: o in decisions && decisions[o].cited.Some? ==> CitationHolds(r, messages, receipts, o, decisions[o].cited.value)
  }

  ghost predicate RevealHolds(hashes: Hashes, d: Design, t: Episodes, r: Roster, state: map<Id, ObligationState>, e: Id, truth: Reveal)
    requires state.Keys == r.rows.Keys
  {
    && Past(t, e) && AllTerminal(r, state, e)
    && t.rows[e].protocol in d.protocols && d.protocols[t.rows[e].protocol].commitment == hashes.digest(truth)
  }

  ghost predicate Revealed(hashes: Hashes, d: Design, t: Episodes, r: Roster, state: map<Id, ObligationState>, revealed: map<Id, Reveal>) {
    state.Keys == r.rows.Keys && forall e :: e in revealed ==> RevealHolds(hashes, d, t, r, state, e, revealed[e])
  }

  ghost predicate ResultHolds(d: Design, t: Episodes, revealed: map<Id, Reveal>, e: Id, slot: int, x: ResultRow) {
    && e in t.rows && e in revealed
    && t.rows[e].measurement in d.measurements && 1 <= slot <= d.measurements[t.rows[e].measurement].slotCount
    && WellShaped(x)
  }

  ghost predicate Results(d: Design, t: Episodes, o: Outcomes) {
    forall k :: k in o.results ==> ResultHolds(d, t, o.revealed, k.0, k.1, o.results[k])
  }

  ghost predicate ClosedHolds(d: Design, t: Episodes, r: Roster, state: map<Id, ObligationState>, charged: map<Id, nat>, o: Outcomes, e: Id)
    requires e in t.rows && state.Keys == r.rows.Keys && charged.Keys == r.rows.Keys
  {
    && AllTerminal(r, state, e)
    && t.rows[e].measurement in d.measurements && |RecordedSlots(o, e)| == d.measurements[t.rows[e].measurement].slotCount
    && t.rows[e].protocol in d.protocols && Sum(ColumnOf(r, charged, e)) <= d.protocols[t.rows[e].protocol].episodeBudget
  }

  ghost predicate ClosedEpisodes(d: Design, t: Episodes, r: Roster, state: map<Id, ObligationState>, charged: map<Id, nat>, o: Outcomes) {
    && state.Keys == r.rows.Keys && charged.Keys == r.rows.Keys
    && forall e :: e in t.rows && t.state[e] == Closed ==> ClosedHolds(d, t, r, state, charged, o, e)
  }

  // ---------- pairs, corrections, runs, custody ----------

  /** Matched arms share a protocol and are past the release together; only paired episodes get there. */
  ghost predicate PairsMatched(t: Episodes, p: Pairs) {
    && (forall k :: k in p.rows ==>
          var a, b := p.rows[k].retained, p.rows[k].reset;
          && HasTreatment(t, a, Retained) && HasTreatment(t, b, Reset)
          && t.rows[a].protocol == t.rows[b].protocol
          && (Past(t, a) <==> Past(t, b)))
    && (forall e :: Past(t, e) ==> e in p.retainedIn || e in p.resetIn)
  }

  /** A service message in the thread of the episode. */
  predicate CorrectionOf(p: Places, messages: map<Id, Message>, e: Id, m: Id) {
    m in messages && messages[m].author.None? && messages[m].thread in p.threads && EpisodeOf(p, messages[m].thread) == e
  }

  /** Corrections stand only in episodes past the release, and are the protocol's. */
  ghost predicate Sealed(hashes: Hashes, d: Design, t: Episodes, p: Places, messages: map<Id, Message>) {
    forall e, m :: CorrectionOf(p, messages, e, m) ==>
      && Past(t, e) && t.rows[e].protocol in d.protocols
      && d.protocols[t.rows[e].protocol].correctionDigest == hashes.digest(messages[m].body)
  }

  /** Both arms of a pair received the same correction. */
  ghost predicate Twins(pairs: Pairs, p: Places, messages: map<Id, Message>) {
    forall k, m, n | k in pairs.rows && CorrectionOf(p, messages, pairs.rows[k].retained, m)
                     && CorrectionOf(p, messages, pairs.rows[k].reset, n)
      :: messages[m].body == messages[n].body
  }

  ghost predicate Corrections(hashes: Hashes, d: Design, t: Episodes, pairs: Pairs, p: Places, messages: map<Id, Message>) {
    Sealed(hashes, d, t, p, messages) && Twins(pairs, p, messages)
  }

  function OrdinalsOf(pairs: map<(Id, int), RunPair>, run: Id): set<int> {
    set k | k in pairs && k.0 == run :: k.1
  }

  ghost predicate RunsCounted(r: Runs) {
    && (forall k :: k in r.pairs ==> 1 <= k.1 <= r.rows[k.0].pairCount)
    && (forall run :: run in r.rows ==>
          && r.registered[run] == |OrdinalsOf(r.pairs, run)|
          && (if r.state[run] == Pairing then r.registered[run] < r.rows[run].pairCount
              else r.registered[run] == r.rows[run].pairCount))
  }

  predicate BothClosed(t: Episodes, p: Pair) {
    p.retained in t.rows && p.reset in t.rows && t.state[p.retained] == Closed && t.state[p.reset] == Closed
  }

  /** Registered pairs exist; those of a completed run are closed in both arms. */
  ghost predicate RunsClosed(r: Runs, pairs: Pairs, t: Episodes) {
    forall k :: k in r.pairs ==>
      && r.pairs[k].pair in pairs.rows
      && (r.state[k.0] == Completed ==> BothClosed(t, pairs.rows[r.pairs[k].pair]))
  }

  ghost predicate CustodyHolds(c: Custody, r: Roster, state: map<Id, ObligationState>) {
    && state.Keys == r.rows.Keys
    && (forall o :: o in c.bindings ==>
          && o in r.rows
          && (state[o] != Active ==> c.state[o] != Bound)
          && (state[o] == Done ==> c.state[o] == Reconciled))
    && (forall o :: o in c.settlements <==> o in c.bindings && c.state[o] == RecoverySettled)
  }

  // ---------- the whole ----------

  ghost predicate ActorsHold(a: Actors, t: Episodes, c: Custody) {
    ActorPhases(a.roster, a.state, t) && CustodyHolds(c, a.roster, a.state)
  }

  ghost predicate ThreadsHold(t: Episodes, a: Actors, f: Forums) {
    && Rooms(f.places, t)
    && Ordinals(f.heads, f.messages)
    && Authors(t, a.roster, f.places, f.messages)
    && Heads(t, f.places, f.heads)
    && PostsBudgeted(a.roster, a.postsUsed, f.exposures)
    && PostsCounted(t, a.roster, a.postsUsed, f.places, f.heads)
  }

  ghost predicate WindowsHold(t: Episodes, a: Actors, f: Forums, decisions: map<Id, DecisionRow>) {
    && Windows(t, a.roster, f.places, f.heads, f.exposures, f.through)
    && Relations(a.roster, f.exposures, f.messages)
    && ReadsCounted(a.roster, a.readsUsed, f.receipts)
    && ReadsInside(f.places, f.heads, f.exposures, f.receipts)
    && Citations(a.roster, f.messages, f.receipts, decisions)
  }

  ghost predicate OutcomesHold(hashes: Hashes, d: Design, t: Episodes, a: Actors, o: Outcomes) {
    && Revealed(hashes, d, t, a.roster, a.state, o.revealed)
    && Results(d, t, o)
    && ClosedEpisodes(d, t, a.roster, a.state, a.charged, o)
  }

  ghost predicate RunsHold(r: Runs, pairs: Pairs, t: Episodes) {
    RunsCounted(r) && RunsClosed(r, pairs, t)
  }

  /** All but what ties the two arms of a pair together. */
  ghost predicate ArmsHold(hashes: Hashes, db: Tables) {
    && Lifecycle(db.episodes)
    && ActorsHold(db.actors, db.episodes, db.custody)
    && ThreadsHold(db.episodes, db.actors, db.forum)
    && WindowsHold(db.episodes, db.actors, db.forum, db.outcomes.decisions)
    && OutcomesHold(hashes, db.design, db.episodes, db.actors, db.outcomes)
    && RunsHold(db.runs, db.pairs, db.episodes)
  }

  ghost predicate Invariant(hashes: Hashes, db: Tables) {
    && ArmsHold(hashes, db)
    && PairsMatched(db.episodes, db.pairs)
    && Corrections(hashes, db.design, db.episodes, db.pairs, db.forum.places, db.forum.messages)
  }
}
