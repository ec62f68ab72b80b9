/** Study rows only move forward: nothing reopens, whatever commands follow. */
module StudyProgress {
  import opened Wrappers
  import opened StudyVocabulary
  import opened StudyTables
  import opened StudySpec
  import opened StudyInvariants

  ghost predicate EpisodesForward(a: Episodes, b: Episodes) {
    forall e :: e in a.rows ==> e in b.rows && b.rows[e] == a.rows[e] && Rank(a.state[e]) <= Rank(b.state[e])
  }

  function RunRank(s: RunState): nat {
    match s
    case Pairing => 1
    case Ready => 2
    case Running => 3
    case Completed => 4
  }

  ghost predicate RunsForward(a: Runs, b: Runs) {
    && (forall r :: r in a.rows ==> r in b.rows && b.rows[r] == a.rows[r] && RunRank(a.state[r]) <= RunRank(b.state[r]))
    && (forall k :: k in a.pairs ==> k in b.pairs && b.pairs[k] == a.pairs[k])
  }

  /** Terminal obligations are final. */
  ghost predicate ActorsForward(a: Actors, b: Actors) {
    forall o :: o in a.roster.rows ==>
      && o in b.roster.rows && b.roster.rows[o] == a.roster.rows[o]
      && (a.state[o] != Active ==> b.state[o] == a.state[o] && b.charged[o] == a.charged[o])
  }

  /** A reconciled or recovery-settled runtime is final, and a binding is never changed. */
  ghost predicate CustodyForward(a: Custody, b: Custody) {
    forall o :: o in a.bindings ==>
      && o in b.bindings && b.bindings[o] == a.bindings[o]
      && (a.state[o] != Bound ==> b.state[o] == a.state[o])
  }

  ghost predicate Forward(a: Tables, b: Tables) {
    EpisodesForward(a.episodes, b.episodes) && RunsForward(a.runs, b.runs)
    && ActorsForward(a.actors, b.actors) && CustodyForward(a.custody, b.custody)
  }

  lemma Stays(a: Tables)
    ensures Forward(a, a)
  {
  }

  lemma EpisodesOnward(a: Episodes, b: Episodes, c: Episodes)
    requires EpisodesForward(a, b) && EpisodesForward(b, c)
    ensures EpisodesForward(a, c)
  {
  }

  lemma RunsOnward(a: Runs, b: Runs, c: Runs)
    requires RunsForward(a, b) && RunsForward(b, c)
    ensures RunsForward(a, c)
  {
  }

  lemma ActorsOnward(a: Actors, b: Actors, c: Actors)
    requires ActorsForward(a, b) && ActorsForward(b, c)
    ensures ActorsForward(a, c)
  {
    hide RosterAligned;
  }

  lemma CustodyOnward(a: Custody, b: Custody, c: Custody)
    requires CustodyForward(a, b) && CustodyForward(b, c)
    ensures CustodyForward(a, c)
  {
  }

  lemma Onward(a: Tables, b: Tables, c: Tables)
    requires Forward(a, b) && Forward(b, c)
    ensures Forward(a, c)
  {
    hide EpisodesForward, RunsForward, ActorsForward, CustodyForward;
    EpisodesOnward(a.episodes, b.episodes, c.episodes);
    RunsOnward(a.runs, b.runs, c.runs);
    ActorsOnward(a.actors, b.actors, c.actors);
    CustodyOnward(a.custody, b.custody, c.custody);
  }

  /** What a command leaves alone has not moved. */
  lemma Unmoved(a: Tables, b: Tables)
    ensures b.episodes == a.episodes ==> EpisodesForward(a.episodes, b.episodes)
    ensures b.runs == a.runs ==> RunsForward(a.runs, b.runs)
    ensures b.actors == a.actors ==> ActorsForward(a.actors, b.actors)
    ensures b.custody == a.custody ==> CustodyForward(a.custody, b.custody)
  {
    hide PlacesAligned, ForumsAligned, PairsAligned, RosterAligned;
  }

  lemma MovedForward(t: Episodes, e: Id, s: EpisodeState)
    requires e in t.rows && Rank(t.state[e]) <= Rank(s)
    ensures EpisodesForward(t, SetState(t, e, s))
  {
  }

  ghost predicate OnlyEpisodes(db: Tables, u: Tables) {
    EpisodesForward(db.episodes, u.episodes) && u.actors == db.actors && u.runs == db.runs && u.custody == db.custody
  }

  lemma InsertForward(t: Episodes, id: Id, row: Episode)
    requires id !in t.rows
    ensures EpisodesForward(t, InsertEpisode(t, id, row))
  {
  }

  lemma SameForward(t: Episodes, u: Episodes, v: Episodes)
    requires EpisodesForward(t, u) && v.rows == u.rows && v.state == u.state
    ensures EpisodesForward(t, v)
  {
  }

  lemma InsertionMoves(hashes: Hashes, db: Tables, row: Episode, source: Id, delta: Treatment, ids: Fresh, u: Tables, ev: StudyEvent)
    requires AdmitEpisodeRow(db, row, ids.first) == Ok((u, ev)) || ForkOf(hashes, db, source, delta, ids) == Ok((u, ev))
    ensures OnlyEpisodes(db, u)
  {
    hide EpisodesForward, InsertEpisode, Assigned, PlacesAligned, ForumsAligned, PairsAligned, RosterAligned, ActorsAligned, RunsAligned, CustodyAligned;
    if AdmitEpisodeRow(db, row, ids.first) == Ok((u, ev)) {
      InsertForward(db.episodes, ids.first, row);
    } else {
      var fork := db.episodes.rows[source].(randomization := hashes.digest(ForkSeed(db.episodes.rows[source].randomization, delta)));
      InsertForward(db.episodes, ids.first, fork);
      SameForward(db.episodes, InsertEpisode(db.episodes, ids.first, fork), u.episodes);
    }
  }

  lemma NotesMove(db: Tables, e: Id, treatment: Treatment, thread: Id, id: Id, u: Tables, ev: StudyEvent)
    requires AssignTreatmentTo(db, e, treatment, id) == Ok((u, ev)) || Freeze(db, e, thread) == Ok((u, ev))
    ensures OnlyEpisodes(db, u)
  {
    hide Assigned, SourcesTerminal, ThreadOfEpisode, PlacesAligned, ForumsAligned, PairsAligned, RosterAligned, ActorsAligned, RunsAligned, CustodyAligned;
  }

  lemma ReplacementMoves(db: Tables, e: Id, successor: Id, u: Tables, ev: StudyEvent)
    requires Replace(db, e, successor) == Ok((u, ev))
    ensures OnlyEpisodes(db, u)
  {
    hide SourcesTerminal, PlacesAligned, ForumsAligned, PairsAligned, RosterAligned, ActorsAligned, RunsAligned, CustodyAligned;
  }

  lemma ClosingMoves(db: Tables, e: Id, u: Tables, ev: StudyEvent)
    requires Close(db, e) == Ok((u, ev))
    ensures OnlyEpisodes(db, u)
  {
    hide AllTerminal, RecordedSlots, ColumnOf, PlacesAligned, ForumsAligned, PairsAligned, RosterAligned, ActorsAligned, RunsAligned, CustodyAligned;
    MovedForward(db.episodes, e, Closed);
  }

  lemma EpisodesMove(hashes: Hashes, outside: Outside, db: Tables, c: StudyCommand, ids: Fresh, u: Tables, ev: StudyEvent)
    requires c.AdmitEpisode? || c.AssignTreatment? || c.ForkEpisode? || c.FreezeForumHead? || c.ReplacePopulation? || c.CloseEpisode?
    requires Transition(hashes, outside, db, c, ids) == Ok((u, ev))
    ensures EpisodesForward(db.episodes, u.episodes) && u.actors == db.actors && u.runs == db.runs && u.custody == db.custody
  {
    hide EpisodesForward, AdmitEpisodeRow, AssignTreatmentTo, ForkOf, Freeze, Replace, Close, EpisodesAligned, PlacesAligned, ForumsAligned, PairsAligned, RosterAligned, ActorsAligned, RunsAligned, CustodyAligned;
    match c
    case AdmitEpisode(protocol, world, measurement, institution, population, randomization) =>
      InsertionMoves(hashes, db, Episode(protocol, world, measurement, institution, population, randomization), 1, Reset, ids, u, ev);
    case ForkEpisode(source, delta) =>
      InsertionMoves(hashes, db, Episode(1, 1, 1, 1, 1, seq(32, _ => 0)), source, delta, ids, u, ev);
    case AssignTreatment(e, treatment) => NotesMove(db, e, treatment, 1, ids.first, u, ev);
    case FreezeForumHead(e, thread) => NotesMove(db, e, Reset, thread, 1, u, ev);
    case ReplacePopulation(e, successor) => ReplacementMoves(db, e, successor, u, ev);
    case CloseEpisode(e) => ClosingMoves(db, e, u, ev);
  }

  lemma NewRunMoves(outside: Outside, db: Tables, row: RunRow, id: Id, u: Tables, ev: StudyEvent)
    requires AdmitRun(outside, db, row, id) == Ok((u, ev))
    ensures RunsForward(db.runs, u.runs)
  {
    hide HasOpenPair, PlacesAligned, ForumsAligned, PairsAligned, RosterAligned, ActorsAligned, EpisodesAligned, CustodyAligned;
  }

  lemma StartMoves(db: Tables, run: Id, u: Tables, ev: StudyEvent)
    requires StartRun(db, run) == Ok((u, ev))
    ensures RunsForward(db.runs, u.runs)
  {
    hide HasOpenPair, PlacesAligned, ForumsAligned, PairsAligned, RosterAligned, ActorsAligned, EpisodesAligned, CustodyAligned;
  }

  lemma CompletionMoves(db: Tables, run: Id, u: Tables, ev: StudyEvent)
    requires CompleteRun(db, run) == Ok((u, ev))
    ensures RunsForward(db.runs, u.runs)
  {
    hide HasOpenPair, PlacesAligned, ForumsAligned, PairsAligned, RosterAligned, ActorsAligned, EpisodesAligned, CustodyAligned;
  }

  lemma RegistrationMoves(db: Tables, run: Id, ordinal: PairOrdinal, pair: Id, randomization: Digest, u: Tables, ev: StudyEvent)
    requires RegisterPair(db, run, ordinal, pair, randomization) == Ok((u, ev))
    ensures RunsForward(db.runs, u.runs)
  {
    hide Registrable, PlacesAligned, ForumsAligned, PairsAligned, RosterAligned, ActorsAligned, EpisodesAligned, CustodyAligned;
  }

  lemma RunsMove(hashes: Hashes, outside: Outside, db: Tables, c: StudyCommand, ids: Fresh, u: Tables, ev: StudyEvent)
    requires c.AdmitStudyRun? || c.RegisterStudyRunPair? || c.StartStudyRun? || c.CompleteStudyRun?
    requires Transition(hashes, outside, db, c, ids) == Ok((u, ev))
    ensures RunsForward(db.runs, u.runs) && u.episodes == db.episodes && u.actors == db.actors && u.custody == db.custody
  {
    hide RunsForward, AdmitRun, RegisterPair, StartRun, CompleteRun, PlacesAligned, ForumsAligned, PairsAligned, RosterAligned, ActorsAligned, EpisodesAligned, RunsAligned, CustodyAligned;
    match c
    case AdmitStudyRun(protocol, plan, digest, pairs) => NewRunMoves(outside, db, RunRow(protocol, plan, digest, pairs), ids.first, u, ev);
    case RegisterStudyRunPair(run, ordinal, pair, randomization) => RegistrationMoves(db, run, ordinal, pair, randomization, u, ev);
    case StartStudyRun(run) => StartMoves(db, run, u, ev);
    case CompleteStudyRun(run) => CompletionMoves(db, run, u, ev);
  }

  lemma EndMoves(db: Tables, o: Id, charge: BudgetUnits, reason: Digest, u: Tables, ev: StudyEvent)
    requires CompleteObligation(db, o, charge) == Ok((u, ev)) || FailObligation(db, o, reason) == Ok((u, ev))
    ensures ActorsForward(db.actors, u.actors)
  {
    hide RosterAligned, PlacesAligned, ForumsAligned, PairsAligned, EpisodesAligned, RunsAligned, CustodyAligned;
  }

  lemma ReadMoves(hashes: Hashes, outside: Outside, db: Tables, c: StudyCommand, id: Id, u: Tables, ev: StudyEvent)
    requires c.ReadForum? && Read(hashes, outside, db, c, id) == Ok((u, ev))
    ensures ActorsForward(db.actors, u.actors)
  {
    hide ReadableThread, Slice, Deliver, RosterAligned, PlacesAligned, ForumsAligned, PairsAligned, EpisodesAligned, RunsAligned, CustodyAligned;
  }

  lemma ObligationsMove(hashes: Hashes, outside: Outside, db: Tables, c: StudyCommand, ids: Fresh, u: Tables, ev: StudyEvent)
    requires c.CompleteActorObligation? || c.FailActorObligation? || c.ReadForum?
    requires Transition(hashes, outside, db, c, ids) == Ok((u, ev))
    ensures ActorsForward(db.actors, u.actors) && u.episodes == db.episodes && u.runs == db.runs && u.custody == db.custody
  {
    hide ActorsForward, CompleteObligation, FailObligation, Read, PlacesAligned, ForumsAligned, PairsAligned, RosterAligned, ActorsAligned, EpisodesAligned, RunsAligned, CustodyAligned;
    match c
    case CompleteActorObligation(o, charge) => EndMoves(db, o, charge, seq(32, _ => 0), u, ev);
    case FailActorObligation(o, reason) => EndMoves(db, o, 0, reason, u, ev);
    case ReadForum(_, _, _, _) => ReadMoves(hashes, outside, db, c, ids.first, u, ev);
  }

  lemma BoundMoves(db: Tables, o: Id, b: Binding, u: Tables)
    requires Bind(db, o, b) == Ok(u)
    ensures CustodyForward(db.custody, u.custody)
  {
    hide PlacesAligned, ForumsAligned, PairsAligned, RosterAligned, ActorsAligned, EpisodesAligned, RunsAligned, RuntimeTaken;
  }

  lemma BindingMoves(outside: Outside, db: Tables, o: Id, office: Id, attempt: Id, child: Id, admission: Id, u: Tables, ev: StudyEvent)
    requires BindOffice(outside, db, o, office, child, admission) == Ok((u, ev)) || BindAttempt(outside, db, o, attempt, child, admission) == Ok((u, ev))
    ensures CustodyForward(db.custody, u.custody)
  {
    hide Bind, CustodyForward, PlacesAligned, ForumsAligned, PairsAligned, RosterAligned, ActorsAligned, EpisodesAligned, RunsAligned;
    var profile := outside.admissions[admission].profile.value;
    if Bind(db, o, Binding(OfficeSession(office), child, admission, profile)) == Ok(u) {
      BoundMoves(db, o, Binding(OfficeSession(office), child, admission, profile), u);
    } else {
      BoundMoves(db, o, Binding(TaskAttempt(attempt), child, admission, profile), u);
    }
  }

  lemma ReconciliationMoves(outside: Outside, db: Tables, o: Id, child: Id, u: Tables, ev: StudyEvent)
    requires ReconcileRuntime(outside, db, o, child) == Ok((u, ev))
    ensures CustodyForward(db.custody, u.custody)
  {
    hide PlacesAligned, ForumsAligned, PairsAligned, RosterAligned, ActorsAligned, EpisodesAligned, RunsAligned;
  }

  lemma BindingsMove(hashes: Hashes, outside: Outside, db: Tables, c: StudyCommand, ids: Fresh, u: Tables, ev: StudyEvent)
    requires c.BindActorRuntime? || c.BindActorTaskAttemptRuntime? || c.ReconcileActorRuntime?
    requires Transition(hashes, outside, db, c, ids) == Ok((u, ev))
    ensures CustodyForward(db.custody, u.custody) && u.episodes == db.episodes && u.runs == db.runs && u.actors == db.actors
  {
    hide CustodyForward, BindOffice, BindAttempt, ReconcileRuntime, PlacesAligned, ForumsAligned, PairsAligned, RosterAligned, ActorsAligned, EpisodesAligned,
         RunsAligned, CustodyAligned;
    match c
    case BindActorRuntime(o, office, child, admission) => BindingMoves(outside, db, o, office, 1, child, admission, u, ev);
    case BindActorTaskAttemptRuntime(o, attempt, child, admission) => BindingMoves(outside, db, o, 1, attempt, child, admission, u, ev);
    case ReconcileActorRuntime(o, child) => ReconciliationMoves(outside, db, o, child, u, ev);
  }

  lemma EnrolmentMoves(a: Actors, row: Obligation, o: Id, occurrence: Id)
    requires o !in a.roster.rows && occurrence !in a.roster.occurrences
    ensures ActorsForward(a, InsertObligation(a, row, o, occurrence))
  {
  }

  lemma AdmissionMoves(db: Tables, c: StudyCommand, ids: Fresh, u: Tables, ev: StudyEvent)
    requires c.AdmitActorObligation? && AdmitObligation(db, c, ids) == Ok((u, ev))
    ensures EpisodesForward(db.episodes, u.episodes) && ActorsForward(db.actors, u.actors) && u.runs == db.runs && u.custody == db.custody
  {
    hide PlacesAligned, ForumsAligned, PairsAligned, RosterAligned, RunsAligned, CustodyAligned, RoleTaken, ActorsForward, EpisodesForward, InsertObligation, SetState;
    var row := Obligation(c.episode, PopulationFor(db.episodes, c.episode, c.phase).value, c.phase, c.role, c.budget, c.readBudget, c.postBudget);
    EnrolmentMoves(db.actors, row, ids.first, ids.second);
    MovedForward(db.episodes, c.episode, if c.phase == Source then SourceActive else SuccessorAdmitted);
  }

  lemma PublicationMoves(hashes: Hashes, db: Tables, c: StudyCommand, id: Id, u: Tables, ev: StudyEvent)
    requires c.PublishForumMessage? && Publish(hashes, db, c, id) == Ok((u, ev))
    ensures EpisodesForward(db.episodes, u.episodes) && ActorsForward(db.actors, u.actors) && u.runs == db.runs && u.custody == db.custody
  {
    hide PlacesAligned, ForumsAligned, PairsAligned, RosterAligned, RunsAligned, CustodyAligned, PostRefusal, RelationsAllowed, Append;
  }

  lemma ArmMoves(db: Tables, e: Id, thread: Id, body: MessageBody, id: Id, half: Tables)
    requires ReleaseArm(db, e, thread, body, id) == Ok(half)
    ensures EpisodesForward(db.episodes, half.episodes) && half.actors == db.actors && half.runs == db.runs && half.custody == db.custody && half.pairs == db.pairs
  {
    hide PlacesAligned, ForumsAligned, PairsAligned, RosterAligned, RunsAligned, CustodyAligned, ReadySuccessors, Append;
  }

  lemma ReleaseMoves(hashes: Hashes, db: Tables, c: StudyCommand, ids: Fresh, u: Tables, ev: StudyEvent)
    requires c.ReleaseMatchedCorrection? && Release(hashes, db, c, ids) == Ok((u, ev))
    ensures EpisodesForward(db.episodes, u.episodes) && u.actors == db.actors && u.runs == db.runs && u.custody == db.custody
  {
    hide PlacesAligned, ForumsAligned, PairsAligned, RosterAligned, RunsAligned, CustodyAligned, ReleaseArm;
    var p := db.pairs.rows[c.pair];
    var half := ReleaseArm(db, p.retained, c.retainedThread, c.correction, ids.first).value;
    ArmMoves(db, p.retained, c.retainedThread, c.correction, ids.first, half);
    ArmMoves(half, p.reset, c.resetThread, c.correction, ids.second, u);
  }

  predicate Designs(c: StudyCommand) {
    c.AdmitProtocolRevision? || c.AdmitWorldRevision? || c.AdmitMeasurementRevision? || c.AdmitInstitutionRevision? || c.AdmitPopulationSnapshot? || c.AdmitMatchedPair?
  }

  lemma DesignsStay(hashes: Hashes, outside: Outside, db: Tables, c: StudyCommand, ids: Fresh, u: Tables, ev: StudyEvent)
    requires Designs(c) && Transition(hashes, outside, db, c, ids) == Ok((u, ev))
    ensures u.episodes == db.episodes && u.actors == db.actors && u.runs == db.runs && u.custody == db.custody
  {
    hide AdmitProtocol, AdmitWorld, AdmitMeasurement, AdmitInstitution, AdmitPopulation, AdmitPair, PlacesAligned, ForumsAligned, PairsAligned,
         RosterAligned, ActorsAligned, EpisodesAligned, RunsAligned, CustodyAligned;
  }

  lemma ForumsStay(hashes: Hashes, outside: Outside, db: Tables, c: StudyCommand, ids: Fresh, u: Tables, ev: StudyEvent)
    requires c.CreateEpisodeForum? || c.OpenForumThread? || c.AdmitForumExposure? || c.RetractForumMessage?
    requires Transition(hashes, outside, db, c, ids) == Ok((u, ev))
    ensures u.episodes == db.episodes && u.actors == db.actors && u.runs == db.runs && u.custody == db.custody
  {
    hide CreateForum, OpenThread, Expose, Retract, PlacesAligned, ForumsAligned, PairsAligned, RosterAligned, ActorsAligned, EpisodesAligned, RunsAligned,
         CustodyAligned;
  }

  lemma OutcomesStay(hashes: Hashes, outside: Outside, db: Tables, c: StudyCommand, ids: Fresh, u: Tables, ev: StudyEvent)
    requires c.RecordDecision? || c.RevealGroundTruth? || c.RecordMeasurementResult?
    requires Transition(hashes, outside, db, c, ids) == Ok((u, ev))
    ensures u.episodes == db.episodes && u.actors == db.actors && u.runs == db.runs && u.custody == db.custody
  {
    hide Decide, RevealTruth, Measure, PlacesAligned, ForumsAligned, PairsAligned, RosterAligned, ActorsAligned, EpisodesAligned, RunsAligned,
         CustodyAligned;
  }

  lemma TransitionMoves(hashes: Hashes, outside: Outside, db: Tables, c: StudyCommand, ids: Fresh, u: Tables, ev: StudyEvent)
    requires !c.SettleActorTaskAttemptAfterRecovery? && Transition(hashes, outside, db, c, ids) == Ok((u, ev))
    ensures Forward(db, u)
  {
    hide Transition, EpisodesForward, RunsForward, ActorsForward, CustodyForward, AdmitObligation, Publish, Release, EpisodesAligned, PlacesAligned, ForumsAligned, PairsAligned, RosterAligned, ActorsAligned, RunsAligned, CustodyAligned;
    Unmoved(db, u);
    if c.AdmitEpisode? || c.AssignTreatment? || c.ForkEpisode? || c.FreezeForumHead? || c.ReplacePopulation? || c.CloseEpisode? {
      EpisodesMove(hashes, outside, db, c, ids, u, ev);
    } else if c.AdmitStudyRun? || c.RegisterStudyRunPair? || c.StartStudyRun? || c.CompleteStudyRun? {
      RunsMove(hashes, outside, db, c, ids, u, ev);
    } else if c.CompleteActorObligation? || c.FailActorObligation? || c.ReadForum? {
      ObligationsMove(hashes, outside, db, c, ids, u, ev);
    } else if c.BindActorRuntime? || c.BindActorTaskAttemptRuntime? || c.ReconcileActorRuntime? {
      BindingsMove(hashes, outside, db, c, ids, u, ev);
    } else if c.AdmitActorObligation? {
      ThreeOfThem(hashes, outside, db, c, ids, u, ev);
      AdmissionMoves(db, c, ids, u, ev);
    } else if c.PublishForumMessage? {
      ThreeOfThem(hashes, outside, db, c, ids, u, ev);
      PublicationMoves(hashes, db, c, ids.first, u, ev);
    } else if c.ReleaseMatchedCorrection? {
      ThreeOfThem(hashes, outside, db, c, ids, u, ev);
      ReleaseMoves(hashes, db, c, ids, u, ev);
    } else if Designs(c) {
      DesignsStay(hashes, outside, db, c, ids, u, ev);
    } else if c.RecordDecision? || c.RevealGroundTruth? || c.RecordMeasurementResult? {
      OutcomesStay(hashes, outside, db, c, ids, u, ev);
    } else {
      ForumsStay(hashes, outside, db, c, ids, u, ev);
    }
  }

  lemma ThreeOfThem(hashes: Hashes, outside: Outside, db: Tables, c: StudyCommand, ids: Fresh, u: Tables, ev: StudyEvent)
    requires c.AdmitActorObligation? || c.PublishForumMessage? || c.ReleaseMatchedCorrection?
    ensures c.AdmitActorObligation? ==> Transition(hashes, outside, db, c, ids) == AdmitObligation(db, c, ids)
    ensures c.PublishForumMessage? ==> Transition(hashes, outside, db, c, ids) == Publish(hashes, db, c, ids.first)
    ensures c.ReleaseMatchedCorrection? ==> Transition(hashes, outside, db, c, ids) == Release(hashes, db, c, ids)
  {
    hide AdmitObligation, Publish, Release, PlacesAligned, ForumsAligned, PairsAligned, RosterAligned, ActorsAligned, EpisodesAligned, RunsAligned, CustodyAligned;
  }

  lemma SettlementMoves(outside: Outside, db: Tables, o: Id, attempt: Id, child: Id, receipt: Id, s: Store, ev: StudyEvent)
    requires SettleRecovery(outside, db, o, attempt, child, receipt) == Ok((s, ev))
    ensures Forward(db, s.tables)
  {
    hide EpisodesForward, RunsForward, ActorsForward, PlacesAligned, ForumsAligned, PairsAligned, RosterAligned, ActorsAligned, EpisodesAligned, RunsAligned,
         ProvenAbsent, AttemptSettled, RecoveryUsed;
    Unmoved(db, s.tables);
  }

  lemma StepMoves(hashes: Hashes, s: Store, step: Step)
    ensures Forward(s.tables, Next(hashes, s, step).tables)
  {
    hide Forward, Transition, SettleRecovery;
    Stays(s.tables);
    if step.Command? {
      var c := step.command;
      var r := Apply(hashes, s, c, step.ids);
      if r.Ok? {
        if c.SettleActorTaskAttemptAfterRecovery? {
          SettlementMoves(s.outside, s.tables, c.obligation, c.attempt, c.child, c.recoveryReceipt, r.value.0, r.value.1);
        } else {
          TransitionMoves(hashes, s.outside, s.tables, c, step.ids, r.value.0.tables, r.value.1);
        }
      }
    }
  }

  /** A closed episode stays closed, a completed run completed, a terminal obligation and a settled
      runtime what they are, however the run goes on. */
  lemma {:induction false} NothingReopens(hashes: Hashes, outside: Outside, before: seq<Step>, after: seq<Step>)
    ensures Forward(Execute(hashes, outside, before).tables, Execute(hashes, outside, before + after).tables)
  {
    hide Forward, Next;
    if after == [] {
      assert before + after == before;
      Stays(Execute(hashes, outside, before).tables);
    } else {
      var most, last := after[..|after| - 1], after[|after| - 1];
      NothingReopens(hashes, outside, before, most);
      assert (before + after)[..|before + after| - 1] == before + most;
      var s := Execute(hashes, outside, before + most);
      StepMoves(hashes, s, last);
      Onward(Execute(hashes, outside, before).tables, s.tables, Next(hashes, s, last).tables);
    }
  }
}
