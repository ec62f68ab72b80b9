/**
 * The control plane as the kernel runs it: a command rewrites the tables statement by statement inside a
 * savepoint, and a rejection restores what the savepoint holds.
 */
module ControlPlane {
  import opened Wrappers
  import opened StudyVocabulary
  import opened StudyTables
  import opened StudySpec
  import opened StudyInvariants
  import opened StudyOutcomeFrames
  import opened FiniteSums

  /** The method ended like the step: same event and state, or the same rejection (and any state). */
  ghost predicate Did(step: Result<(Store, StudyEvent), Rejection>, s: Store, r: Result<StudyEvent, Rejection>) {
    match step
    case Ok((t, event)) => s == t && r == Ok(event)
    case Err(rejection) => r == Err(rejection)
  }

  function Lift(change: Change, outside: Outside): Result<(Store, StudyEvent), Rejection> {
    match change
    case Ok((tables, event)) => Ok((Store(tables, outside), event))
    case Err(rejection) => Err(rejection)
  }

  class Kernel {
    const hashes: Hashes
    var design: Design
    var episodes: Episodes
    var pairs: Pairs
    var actors: Actors
    var forum: Forums
    var outcomes: Outcomes
    var runs: Runs
    var custody: Custody
    var outside: Outside

    function Rows(): Tables
      reads this
    {
      Tables(design, episodes, pairs, actors, forum, outcomes, runs, custody)
    }

    function State(): Store
      reads this
    {
      Store(Rows(), outside)
    }

    ghost predicate Valid()
      reads this
    {
      Invariant(hashes, Rows())
    }

    constructor (hashes: Hashes, outside: Outside)
      ensures this.hashes == hashes && State() == Store(EMPTY, outside) && Valid()
    {
      this.hashes := hashes;
      this.outside := outside;
      design := EMPTY.design;
      episodes, pairs, actors, forum := NO_EPISODES, NO_PAIRS, NO_ACTORS, NO_FORUMS;
      outcomes, runs, custody := EMPTY.outcomes, NO_RUNS, NO_CUSTODY;
      new;
      hide Invariant;
      EmptyHolds(hashes);
    }

    // ---------- the transaction ----------

    /** One command, all or nothing. */
    method Execute(c: StudyCommand, ids: Fresh) returns (r: Result<StudyEvent, Rejection>)
      requires Valid()
      modifies this
      ensures Valid() && State() == Next(hashes, old(State()), Command(c, ids))
      ensures r == match Apply(hashes, old(State()), c, ids)
                   case Ok((_, event)) => Ok(event)
                   case Err(rejection) => Err(rejection)
    {
      hide Invariant, Apply;
      StepKeeps(hashes, State(), Command(c, ids));
      var savepoint := State();
      r := ApplyCommand(c, ids);
      if r.Err? { Restore(savepoint); }
    }

    method Restore(savepoint: Store)
      modifies this
      ensures State() == savepoint
    {
      Install(savepoint.tables);
      outside := savepoint.outside;
    }

    method Install(t: Tables)
      modifies `design, `episodes, `pairs, `actors, `forum, `outcomes, `runs, `custody
      ensures Rows() == t
    {
      design, episodes, pairs, actors := t.design, t.episodes, t.pairs, t.actors;
      forum, outcomes, runs, custody := t.forum, t.outcomes, t.runs, t.custody;
    }

    method ApplyCommand(c: StudyCommand, ids: Fresh) returns (r: Result<StudyEvent, Rejection>)
      requires Valid()
      modifies this
      ensures Did(Apply(hashes, old(State()), c, ids), State(), r)
    {
      hide Invariant, Transition, SettleRecovery;
      if c.SettleActorTaskAttemptAfterRecovery? {
        r := SettleAfterRecovery(c.obligation, c.attempt, c.child, c.recoveryReceipt);
      } else {
        r := ApplyStudyOnly(c, ids);
      }
    }

    method ApplyStudyOnly(c: StudyCommand, ids: Fresh) returns (r: Result<StudyEvent, Rejection>)
      requires !c.SettleActorTaskAttemptAfterRecovery?
      modifies this
      ensures Did(Lift(Transition(hashes, old(outside), old(Rows()), c, ids), old(outside)), State(), r)
    {
      hide Transition;
      if c.AdmitProtocolRevision? || c.AdmitWorldRevision? || c.AdmitMeasurementRevision? || c.AdmitInstitutionRevision? || c.AdmitPopulationSnapshot? {
        r := ApplyDesign(c, ids);
      } else if c.AdmitEpisode? || c.AssignTreatment? || c.AdmitMatchedPair? || c.AdmitStudyRun? || c.StartStudyRun? || c.CompleteStudyRun? {
        r := ApplyEpisodes(c, ids);
      } else if c.CreateEpisodeForum? || c.OpenForumThread? || c.AdmitForumExposure? || c.RetractForumMessage? || c.FreezeForumHead? {
        r := ApplyForum(c, ids);
      } else if c.CompleteActorObligation? || c.FailActorObligation? || c.BindActorRuntime? || c.BindActorTaskAttemptRuntime? || c.ReconcileActorRuntime? {
        r := ApplyActors(c, ids);
      } else if c.RecordDecision? || c.RevealGroundTruth? || c.RecordMeasurementResult? {
        r := ApplyOutcomes(c, ids);
      } else {
        r := ApplyAcrossTables(c, ids);
      }
    }

    /** Commands whose rows go to several tables, or to several columns under one counter. */
    method ApplyAcrossTables(c: StudyCommand, ids: Fresh) returns (r: Result<StudyEvent, Rejection>)
      requires c.AdmitActorObligation? || c.RegisterStudyRunPair? || c.ReplacePopulation? || c.PublishForumMessage? || c.ReleaseMatchedCorrection?
            || c.ReadForum? || c.CloseEpisode? || c.ForkEpisode?
      modifies this
      ensures Did(Lift(Transition(hashes, old(outside), old(Rows()), c, ids), old(outside)), State(), r)
    {
      hide AdmitObligation, RegisterPair, Replace, Publish, Release, Read, Close, ForkOf,
           EpisodesAligned, PairsAligned, RosterAligned, ActorsAligned, PlacesAligned, ForumsAligned, RunsAligned, CustodyAligned;
      if c.AdmitActorObligation? {
        r := AdmitActor(c, ids);
      } else if c.RegisterStudyRunPair? {
        r := RegisterRunPair(c.run, c.ordinal, c.pair, c.randomization);
      } else if c.ReplacePopulation? {
        r := ReplaceSources(c.episode, c.successorPopulation);
      } else if c.PublishForumMessage? {
        r := PublishActorMessage(c, ids.first);
      } else if c.ReleaseMatchedCorrection? {
        r := ReleaseBothArms(c, ids);
      } else if c.ReadForum? {
        r := ReadMessages(c, ids.first);
      } else if c.CloseEpisode? {
        r := CloseStudyEpisode(c.episode);
      } else {
        r := Fork(c.sourceEpisode, c.treatmentDelta, ids);
      }
    }

    /** Revisions and populations. */
    method ApplyDesign(c: StudyCommand, ids: Fresh) returns (r: Result<StudyEvent, Rejection>)
      requires c.AdmitProtocolRevision? || c.AdmitWorldRevision? || c.AdmitMeasurementRevision? || c.AdmitInstitutionRevision? || c.AdmitPopulationSnapshot?
      modifies this
      ensures Did(Lift(Transition(hashes, old(outside), old(Rows()), c, ids), old(outside)), State(), r)
    {
      hide AdmitProtocol, AdmitWorld, AdmitMeasurement, AdmitInstitution, AdmitPopulation, PairsAligned, RosterAligned, ActorsAligned, PlacesAligned, ForumsAligned, RunsAligned, CustodyAligned, EpisodesAligned;
      if c.AdmitProtocolRevision? {
        r := AdmitProtocolRevisionRow(c, ids.first);
      } else if c.AdmitWorldRevision? {
        r := AdmitWorldRow(c.protocol, c.worldDigest, ids.first);
      } else if c.AdmitMeasurementRevision? {
        r := AdmitMeasurementRow(c.protocol, c.analysisDigest, c.slotCount, ids.first);
      } else if c.AdmitInstitutionRevision? {
        r := AdmitInstitutionRow(c.protocol, c.institutionDigest, ids.first);
      } else {
        r := AdmitPopulationRow(c.protocol, c.populationDigest, c.populationSize, ids.first);
      }
    }

    /** Episodes, pairs and runs. */
    method ApplyEpisodes(c: StudyCommand, ids: Fresh) returns (r: Result<StudyEvent, Rejection>)
      requires c.AdmitEpisode? || c.AssignTreatment? || c.AdmitMatchedPair? || c.AdmitStudyRun? || c.StartStudyRun? || c.CompleteStudyRun?
      modifies this
      ensures Did(Lift(Transition(hashes, old(outside), old(Rows()), c, ids), old(outside)), State(), r)
    {
      hide AdmitEpisodeRow, AssignTreatmentTo, AdmitPair, AdmitRun, StartRun, CompleteRun, PairsAligned, RosterAligned, ActorsAligned, PlacesAligned, ForumsAligned, RunsAligned, CustodyAligned, EpisodesAligned;
      if c.AdmitEpisode? {
        r := AdmitStudyEpisode(Episode(c.protocol, c.world, c.measurement, c.institution, c.population, c.randomization), ids.first);
      } else if c.AssignTreatment? {
        r := AssignEpisodeTreatment(c.episode, c.treatment, ids.first);
      } else if c.AdmitMatchedPair? {
        r := AdmitPairOfArms(c.retained, c.reset, ids.first);
      } else if c.AdmitStudyRun? {
        r := AdmitRunRow(RunRow(c.protocol, c.planObject, c.planDigest, c.pairCount), ids.first);
      } else if c.StartStudyRun? {
        r := StartStudyRunNow(c.run);
      } else {
        r := CompleteStudyRunNow(c.run);
      }
    }

    /** Forums, windows, retractions and the frozen head. */
    method ApplyForum(c: StudyCommand, ids: Fresh) returns (r: Result<StudyEvent, Rejection>)
      requires c.CreateEpisodeForum? || c.OpenForumThread? || c.AdmitForumExposure? || c.RetractForumMessage? || c.FreezeForumHead?
      modifies this
      ensures Did(Lift(Transition(hashes, old(outside), old(Rows()), c, ids), old(outside)), State(), r)
    {
      hide CreateForum, OpenThread, Expose, Retract, Freeze, PairsAligned, RosterAligned, ActorsAligned, PlacesAligned, ForumsAligned, RunsAligned, CustodyAligned, EpisodesAligned;
      if c.CreateEpisodeForum? {
        r := CreateForumRow(c.episode, c.charter, ids.first);
      } else if c.OpenForumThread? {
        r := OpenThreadRow(c.forum, c.title, ids.first);
      } else if c.AdmitForumExposure? {
        r := ExposeWindow(c.obligation, c.forum, c.visibleFrom, ids.first);
      } else if c.RetractForumMessage? {
        r := RetractMessage(c.obligation, c.message);
      } else {
        r := FreezeHead(c.episode, c.thread);
      }
    }

    /** The ends of obligations and their runtimes. */
    method ApplyActors(c: StudyCommand, ids: Fresh) returns (r: Result<StudyEvent, Rejection>)
      requires c.CompleteActorObligation? || c.FailActorObligation? || c.BindActorRuntime? || c.BindActorTaskAttemptRuntime? || c.ReconcileActorRuntime?
      modifies this
      ensures Did(Lift(Transition(hashes, old(outside), old(Rows()), c, ids), old(outside)), State(), r)
    {
      hide CompleteObligation, FailObligation, BindOffice, BindAttempt, ReconcileRuntime, PairsAligned, RosterAligned, ActorsAligned, PlacesAligned, ForumsAligned, RunsAligned, CustodyAligned, EpisodesAligned;
      if c.CompleteActorObligation? {
        r := CompleteActor(c.obligation, c.chargedBudget);
      } else if c.FailActorObligation? {
        r := FailActor(c.obligation, c.reason);
      } else if c.BindActorRuntime? {
        r := BindToOffice(c.obligation, c.office, c.child, c.admission);
      } else if c.BindActorTaskAttemptRuntime? {
        r := BindToAttempt(c.obligation, c.attempt, c.child, c.admission);
      } else {
        r := ReconcileBinding(c.obligation, c.child);
      }
    }

    /** Decisions, the ground truth and results. */
    method ApplyOutcomes(c: StudyCommand, ids: Fresh) returns (r: Result<StudyEvent, Rejection>)
      requires c.RecordDecision? || c.RevealGroundTruth? || c.RecordMeasurementResult?
      modifies this
      ensures Did(Lift(Transition(hashes, old(outside), old(Rows()), c, ids), old(outside)), State(), r)
    {
      hide Decide, RevealTruth, Measure, PairsAligned, RosterAligned, ActorsAligned, PlacesAligned, ForumsAligned, RunsAligned, CustodyAligned, EpisodesAligned;
      if c.RecordDecision? {
        r := RecordDecisionRow(c.obligation, c.decision, c.cited);
      } else if c.RevealGroundTruth? {
        r := RevealTruthRow(c.episode, c.revealed);
      } else {
        r := RecordResult(c.episode, c.slot, ResultRow(ids.first, c.status, c.observed, c.valueDigest, c.reasonDigest));
      }
    }

    // ---------- the design ----------

    method AdmitProtocolRevisionRow(c: StudyCommand, id: Id) returns (r: Result<StudyEvent, Rejection>)
      requires c.AdmitProtocolRevision?
      modifies `design
      ensures Did(Lift(AdmitProtocol(hashes, outside, old(Rows()), c, id), old(outside)), State(), r)
    {
      if c.application !in outside.applications { return Err(SubjectNotFound); }
      if c.promptDigest != hashes.promptContract || c.toolDigest != hashes.toolContract { return Err(InvalidLifecycleTransition); }
      if id in design.protocols { return Err(InvalidLifecycleTransition); }
      var row := Protocol(c.promptDigest, c.toolDigest, c.commitment, c.correctionDigest, c.episodeBudget);
      design := design.(protocols := design.protocols[id := row]);
      return Ok(ProtocolRevisionAdmitted(id));
    }

    method AdmitWorldRow(protocol: Id, digest: Digest, id: Id) returns (r: Result<StudyEvent, Rejection>)
      modifies `design
      ensures Did(Lift(AdmitWorld(old(Rows()), protocol, digest, id), old(outside)), State(), r)
    {
      if protocol !in design.protocols { return Err(SubjectNotFound); }
      if id in design.worlds || World(protocol, digest) in design.worlds.Values { return Err(InvalidLifecycleTransition); }
      design := design.(worlds := design.worlds[id := World(protocol, digest)]);
      return Ok(WorldRevisionAdmitted(id));
    }

    method AdmitMeasurementRow(protocol: Id, analysis: Digest, slotCount: SlotCount, id: Id) returns (r: Result<StudyEvent, Rejection>)
      modifies `design
      ensures Did(Lift(AdmitMeasurement(old(Rows()), protocol, analysis, slotCount, id), old(outside)), State(), r)
    {
      if protocol !in design.protocols { return Err(SubjectNotFound); }
      if id in design.measurements
         || exists k :: k in design.measurements && design.measurements[k].protocol == protocol && design.measurements[k].analysisDigest == analysis {
        return Err(InvalidLifecycleTransition);
      }
      design := design.(measurements := design.measurements[id := Measurement(protocol, analysis, slotCount)]);
      return Ok(MeasurementRevisionAdmitted(id));
    }

    method AdmitInstitutionRow(protocol: Id, digest: Digest, id: Id) returns (r: Result<StudyEvent, Rejection>)
      modifies `design
      ensures Did(Lift(AdmitInstitution(old(Rows()), protocol, digest, id), old(outside)), State(), r)
    {
      if protocol !in design.protocols { return Err(SubjectNotFound); }
      if id in design.institutions || Institution(protocol, digest) in design.institutions.Values { return Err(InvalidLifecycleTransition); }
      design := design.(institutions := design.institutions[id := Institution(protocol, digest)]);
      return Ok(InstitutionRevisionAdmitted(id));
    }

    method AdmitPopulationRow(protocol: Id, digest: Digest, size: int, id: Id) returns (r: Result<StudyEvent, Rejection>)
      modifies `design
      ensures Did(Lift(AdmitPopulation(old(Rows()), protocol, digest, size, id), old(outside)), State(), r)
    {
      if size <= 0 || protocol !in design.protocols { return Err(SubjectNotFound); }
      if id in design.populations { return Err(InvalidLifecycleTransition); }
      design := design.(populations := design.populations[id := Population(protocol, digest, size)]);
      return Ok(PopulationSnapshotAdmitted(id));
    }

    // ---------- episodes, pairs and runs ----------

    method AdmitStudyEpisode(row: Episode, id: Id) returns (r: Result<StudyEvent, Rejection>)
      modifies `episodes
      ensures Did(Lift(AdmitEpisodeRow(old(Rows()), row, id), old(outside)), State(), r)
    {
      if row.world !in design.worlds || row.measurement !in design.measurements || row.institution !in design.institutions
         || row.population !in design.populations || row.protocol != design.worlds[row.world].protocol
         || design.measurements[row.measurement].protocol != row.protocol || design.institutions[row.institution].protocol != row.protocol
         || design.populations[row.population].protocol != row.protocol {
        return Err(SubjectNotFound);
      }
      if id in episodes.rows { return Err(InvalidLifecycleTransition); }
      episodes := episodes.(rows := episodes.rows[id := row], state := episodes.state[id := Admitted]);
      return Ok(EpisodeAdmitted(id));
    }

    method AssignEpisodeTreatment(e: Id, treatment: Treatment, id: Id) returns (r: Result<StudyEvent, Rejection>)
      modifies `episodes
      ensures Did(Lift(AssignTreatmentTo(old(Rows()), e, treatment, id), old(outside)), State(), r)
    {
      if e !in episodes.rows { return Err(SubjectNotFound); }
      if episodes.state[e] != Admitted { return Err(InvalidLifecycleTransition); }
      if e in episodes.treatments || Assigned(Rows(), id) { return Err(InvalidLifecycleTransition); }
      episodes := episodes.(treatments := episodes.treatments[e := Assignment(id, treatment)]);
      return Ok(TreatmentAssigned(id, e, treatment));
    }

    method AdmitPairOfArms(retained: Id, reset: Id, id: Id) returns (r: Result<StudyEvent, Rejection>)
      modifies `pairs
      ensures Did(Lift(AdmitPair(old(Rows()), retained, reset, id), old(outside)), State(), r)
    {
      if !Matched(design, episodes, retained, reset) { return Err(InvalidLifecycleTransition); }
      if id in pairs.rows || retained in pairs.retainedIn || reset in pairs.resetIn { return Err(InvalidLifecycleTransition); }
      pairs := pairs.(rows := pairs.rows[id := Pair(retained, reset)], retainedIn := pairs.retainedIn[retained := id], resetIn := pairs.resetIn[reset := id]);
      return Ok(MatchedPairAdmitted(id));
    }

    method AdmitRunRow(row: RunRow, id: Id) returns (r: Result<StudyEvent, Rejection>)
      modifies `runs
      ensures Did(Lift(AdmitRun(outside, old(Rows()), row, id), old(outside)), State(), r)
    {
      hide EpisodesAligned, PairsAligned, RosterAligned, ActorsAligned, PlacesAligned, ForumsAligned, CustodyAligned;
      if row.protocol !in design.protocols || row.planObject !in outside.sealed || outside.sealed[row.planObject] != row.planDigest {
        return Err(InvalidLifecycleTransition);
      }
      if id in runs.rows || exists k :: k in runs.rows && (runs.rows[k].planObject == row.planObject || runs.rows[k].planDigest == row.planDigest) {
        return Err(InvalidLifecycleTransition);
      }
      runs := runs.(rows := runs.rows[id := row], registered := runs.registered[id := 0], state := runs.state[id := Pairing]);
      return Ok(StudyRunAdmitted(id, row.protocol, row.planObject, row.planDigest, row.pairCount));
    }

    method StartStudyRunNow(run: Id) returns (r: Result<StudyEvent, Rejection>)
      modifies `runs
      ensures Did(Lift(StartRun(old(Rows()), run), old(outside)), State(), r)
    {
      if run !in runs.rows { return Err(SubjectNotFound); }
      if runs.state[run] != Ready || runs.registered[run] != runs.rows[run].pairCount { return Err(InvalidLifecycleTransition); }
      runs := runs.(state := runs.state[run := Running]);
      return Ok(StudyRunStarted(run));
    }

    method CompleteStudyRunNow(run: Id) returns (r: Result<StudyEvent, Rejection>)
      modifies `runs
      ensures Did(Lift(CompleteRun(old(Rows()), run), old(outside)), State(), r)
    {
      if run !in runs.rows { return Err(SubjectNotFound); }
      if runs.state[run] != Running || runs.registered[run] != runs.rows[run].pairCount { return Err(InvalidLifecycleTransition); }
      if HasOpenPair(Rows(), run) { return Err(InvalidLifecycleTransition); }
      runs := runs.(state := runs.state[run := Completed]);
      return Ok(StudyRunCompleted(run));
    }

    // ---------- forum set-up and windows ----------

    method CreateForumRow(e: Id, charter: Digest, id: Id) returns (r: Result<StudyEvent, Rejection>)
      modifies `forum
      ensures Did(Lift(CreateForum(old(Rows()), e, charter, id), old(outside)), State(), r)
    {
      hide PairsAligned, RosterAligned, ActorsAligned, RunsAligned, CustodyAligned;
      if e !in episodes.rows { return Err(SubjectNotFound); }
      if episodes.state[e] != Admitted { return Err(InvalidLifecycleTransition); }
      if id in forum.places.forums || e in forum.places.forumOf { return Err(InvalidLifecycleTransition); }
      var places := InsertForum(forum.places, e, charter, id);
      forum := forum.(places := places, state := forum.state[id := Open]);
      return Ok(EpisodeForumCreated(id, e));
    }

    method OpenThreadRow(room: Id, title: Title, id: Id) returns (r: Result<StudyEvent, Rejection>)
      modifies `forum
      ensures Did(Lift(OpenThread(old(Rows()), room, title, id), old(outside)), State(), r)
    {
      hide EpisodesAligned, PairsAligned, RosterAligned, ActorsAligned, RunsAligned, CustodyAligned, ValidTitle, AddThread;
      if room !in forum.places.forums { return Err(SubjectNotFound); }
      if forum.state[room] != Open || room in forum.places.threadOf || id in forum.places.threads { return Err(InvalidLifecycleTransition); }
      var places := InsertThread(forum.places, room, title, id);
      StillPlaced(forum, places);
      forum := AddThread(forum, places, id);
      return Ok(ForumThreadOpened(id, room));
    }

    method ExposeWindow(o: Id, room: Id, visibleFrom: I64, id: Id) returns (r: Result<StudyEvent, Rejection>)
      modifies `forum
      ensures Did(Lift(Expose(old(Rows()), o, room, visibleFrom, id), old(outside)), State(), r)
    {
      hide PairsAligned, RunsAligned, CustodyAligned, WindowStart, ExposureTaken;
      if o !in actors.roster.rows { return Err(SubjectNotFound); }
      if actors.state[o] != Active || visibleFrom <= 0 { return Err(InvalidLifecycleTransition); }
      if room !in forum.places.threadOf { return Err(SubjectNotFound); }
      var row := actors.roster.rows[o];
      var head := forum.heads[forum.places.threadOf[room]];
      if forum.places.forums[room].episode != row.episode { return Err(SubjectNotFound); }
      if WindowStart(episodes, row.episode, row.phase) != Some(visibleFrom) { return Err(InvalidLifecycleTransition); }
      if o in forum.exposures || ExposureTaken(forum, id) { return Err(InvalidLifecycleTransition); }
      forum := forum.(exposures := forum.exposures[o := Exposure(id, room, visibleFrom)], through := forum.through[o := head]);
      return Ok(ForumExposureAdmitted(id, o, visibleFrom, head));
    }

    method RetractMessage(o: Id, message: Id) returns (r: Result<StudyEvent, Rejection>)
      modifies `forum
      ensures Did(Lift(Retract(old(Rows()), o, message), old(outside)), State(), r)
    {
      hide PairsAligned, RunsAligned, CustodyAligned, PlacesAligned, MayPost;
      if o !in actors.roster.rows { return Err(SubjectNotFound); }
      if actors.state[o] != Active { return Err(CapabilityNoLongerActive); }
      if message !in forum.messages { return Err(SubjectNotFound); }
      var e := actors.roster.rows[o].episode;
      var m := forum.messages[message];
      if m.author != Some(actors.roster.occurrenceOf[o]) || !ThreadOfEpisode(forum.places, m.thread, e) || forum.publication[message] != Published {
        return Err(InvalidLifecycleTransition);
      }
      if e !in episodes.rows { return Err(SubjectNotFound); }
      if !MayPost(episodes.state[e], actors.roster.rows[o].phase) { return Err(CapabilityNoLongerActive); }
      forum := forum.(publication := forum.publication[message := Retracted]);
      return Ok(ForumMessageRetracted(message, o));
    }

    method FreezeHead(e: Id, thread: Id) returns (r: Result<StudyEvent, Rejection>)
      modifies `episodes
      ensures Did(Lift(Freeze(old(Rows()), e, thread), old(outside)), State(), r)
    {
      hide PairsAligned, RosterAligned, RunsAligned, CustodyAligned, SourcesTerminal;
      if e !in episodes.rows { return Err(SubjectNotFound); }
      if episodes.state[e] != SourceActive || !SourcesTerminal(actors.roster, actors.state, e) { return Err(InvalidLifecycleTransition); }
      if !ThreadOfEpisode(forum.places, thread, e) { return Err(SubjectNotFound); }
      var head := forum.heads[thread];
      if e in episodes.frozen { return Err(InvalidLifecycleTransition); }
      episodes := episodes.(frozen := episodes.frozen[e := FrozenHead(thread, head)]);
      return Ok(ForumHeadFrozen(e, thread, head));
    }

    // ---------- the ends of obligations and their runtimes ----------

    method CompleteActor(o: Id, charge: BudgetUnits) returns (r: Result<StudyEvent, Rejection>)
      modifies `actors
      ensures Did(Lift(CompleteObligation(old(Rows()), o, charge), old(outside)), State(), r)
    {
      if o !in actors.roster.rows { return Err(SubjectNotFound); }
      if actors.state[o] != Active || charge > actors.roster.rows[o].budget || actors.charged[o] != 0 { return Err(BudgetPolicyViolation); }
      if o in custody.bindings && custody.state[o] != Reconciled { return Err(InvalidLifecycleTransition); }
      actors := actors.(state := actors.state[o := Done], charged := actors.charged[o := charge]);
      return Ok(ActorObligationCompleted(o));
    }

    method FailActor(o: Id, reason: Digest) returns (r: Result<StudyEvent, Rejection>)
      modifies `actors
      ensures Did(Lift(FailObligation(old(Rows()), o, reason), old(outside)), State(), r)
    {
      if o !in actors.roster.rows || actors.state[o] != Active { return Err(CapabilityNoLongerActive); }
      if o in custody.bindings && custody.state[o] != Reconciled && custody.state[o] != RecoverySettled { return Err(InvalidLifecycleTransition); }
      actors := actors.(state := actors.state[o := Failed]);
      return Ok(ActorObligationFailed(o, reason));
    }

    /** The binding row, refused when the obligation, the child or the admission is already bound. */
    method InsertBinding(o: Id, b: Binding) returns (refusal: Option<Rejection>)
      modifies `custody
      ensures match Bind(old(Rows()), o, b)
              case Ok(t) => refusal.None? && Rows() == t
              case Err(rejection) => refusal == Some(rejection)
    {
      if o in custody.bindings || RuntimeTaken(custody, b.child, b.admission) { return Some(InvalidLifecycleTransition); }
      custody := custody.(bindings := custody.bindings[o := b], state := custody.state[o := Bound]);
      return None;
    }

    method BindToOffice(o: Id, office: Id, child: Id, admission: Id) returns (r: Result<StudyEvent, Rejection>)
      modifies `custody
      ensures Did(Lift(BindOffice(outside, old(Rows()), o, office, child, admission), old(outside)), State(), r)
    {
      if o !in actors.roster.rows { return Err(SubjectNotFound); }
      if actors.state[o] != Active { return Err(InvalidLifecycleTransition); }
      var refusal := BindRefusal(outside, Rows(), o, child, admission);
      if refusal.Some? { return Err(refusal.value); }
      var a := outside.admissions[admission];
      if a.office != Some(office) || a.profile.None? { return Err(InvalidLifecycleTransition); }
      var taken := InsertBinding(o, Binding(OfficeSession(office), child, admission, a.profile.value));
      if taken.Some? { return Err(taken.value); }
      return Ok(ActorRuntimeBound(o, office, child, admission, a.profile.value));
    }

    method BindToAttempt(o: Id, attempt: Id, child: Id, admission: Id) returns (r: Result<StudyEvent, Rejection>)
      modifies `custody
      ensures Did(Lift(BindAttempt(outside, old(Rows()), o, attempt, child, admission), old(outside)), State(), r)
    {
      if o !in actors.roster.rows || actors.state[o] != Active { return Err(InvalidLifecycleTransition); }
      var refusal := BindRefusal(outside, Rows(), o, child, admission);
      if refusal.Some? { return Err(refusal.value); }
      var a := outside.admissions[admission];
      if a.attempt != Some(attempt) || a.office.Some? || a.profile.None? { return Err(InvalidLifecycleTransition); }
      if attempt !in outside.attempts { return Err(SubjectNotFound); }
      if outside.attempts[attempt].state != AttemptRunning || outside.attempts[attempt].profile != a.profile.value { return Err(InvalidLifecycleTransition); }
      var taken := InsertBinding(o, Binding(TaskAttempt(attempt), child, admission, a.profile.value));
      if taken.Some? { return Err(taken.value); }
      return Ok(ActorTaskAttemptRuntimeBound(o, attempt, child, admission, a.profile.value));
    }

    method ReconcileBinding(o: Id, child: Id) returns (r: Result<StudyEvent, Rejection>)
      modifies `custody
      ensures Did(Lift(ReconcileRuntime(outside, old(Rows()), o, child), old(outside)), State(), r)
    {
      if o !in custody.bindings { return Err(SubjectNotFound); }
      if custody.bindings[o].child != child || custody.state[o] != Bound || child !in outside.children || outside.children[child].state != Finalized {
        return Err(ChildLifecycleReceiptMissing);
      }
      custody := custody.(state := custody.state[o := Reconciled]);
      return Ok(ActorRuntimeReconciled(o, child));
    }

    // ---------- outcomes ----------

    method RecordDecisionRow(o: Id, decision: DecisionBody, cited: Option<Id>) returns (r: Result<StudyEvent, Rejection>)
      modifies `outcomes
      ensures Did(Lift(Decide(old(Rows()), o, decision, cited), old(outside)), State(), r)
    {
      hide EpisodesAligned, PairsAligned, PlacesAligned, RunsAligned, CustodyAligned, OwnPublished, CoveringReads;
      if o !in actors.roster.rows { return Err(SubjectNotFound); }
      if actors.state[o] == Failed { return Err(InvalidLifecycleTransition); }
      var own := cited.Some? && OwnPublished(Rows(), o, cited.value);
      if actors.state[o] == Done && !own { return Err(InvalidLifecycleTransition); }
      if cited.Some? && !own {
        if cited.value !in forum.messages || |CoveringReads(forum, o, cited.value)| != 1 { return Err(SubjectNotFound); }
      }
      if o in outcomes.decisions { return Err(InvalidLifecycleTransition); }
      outcomes := outcomes.(decisions := outcomes.decisions[o := DecisionRow(decision, cited)]);
      return Ok(DecisionRecorded(o));
    }

    method RevealTruthRow(e: Id, truth: Reveal) returns (r: Result<StudyEvent, Rejection>)
      modifies `outcomes
      ensures Did(Lift(RevealTruth(hashes, old(Rows()), e, truth), old(outside)), State(), r)
    {
      if e !in episodes.rows { return Err(SubjectNotFound); }
      if !AfterCorrection(episodes.state[e]) || !AllTerminal(actors.roster, actors.state, e) { return Err(InvalidLifecycleTransition); }
      if episodes.rows[e].protocol !in design.protocols { return Err(SubjectNotFound); }
      if design.protocols[episodes.rows[e].protocol].commitment != hashes.digest(truth) { return Err(InvalidLifecycleTransition); }
      if e in outcomes.revealed { return Err(InvalidLifecycleTransition); }
      outcomes := outcomes.(revealed := outcomes.revealed[e := truth]);
      return Ok(GroundTruthRevealed(e, hashes.digest(truth)));
    }

    method RecordResult(e: Id, slot: Slot, x: ResultRow) returns (r: Result<StudyEvent, Rejection>)
      modifies `outcomes
      ensures Did(Lift(Measure(old(Rows()), e, slot, x), old(outside)), State(), r)
    {
      if e !in episodes.rows || episodes.rows[e].measurement !in design.measurements { return Err(SubjectNotFound); }
      if !AfterCorrection(episodes.state[e]) || !AllTerminal(actors.roster, actors.state, e) || e !in outcomes.revealed
         || slot > design.measurements[episodes.rows[e].measurement].slotCount || !WellShaped(x) {
        return Err(InvalidLifecycleTransition);
      }
      if (e, slot) in outcomes.results || ResultTaken(outcomes, x.id) { return Err(InvalidLifecycleTransition); }
      outcomes := outcomes.(results := outcomes.results[(e, slot) := x]);
      return Ok(MeasurementResultRecorded(x.id, e, x.status));
    }

    method SetEpisodeState(e: Id, s: EpisodeState)
      requires e in episodes.rows
      modifies `episodes
      ensures episodes == SetState(old(episodes), e, s)
    {
      episodes := episodes.(state := episodes.state[e := s]);
    }

    // ---------- obligations and runs ----------

    method AdmitActor(c: StudyCommand, ids: Fresh) returns (r: Result<StudyEvent, Rejection>)
      requires c.AdmitActorObligation?
      modifies `actors, `episodes
      ensures Did(Lift(AdmitObligation(old(Rows()), c, ids), old(outside)), State(), r)
    {
      hide RoleTaken, InsertObligation, SetState, Enrol, PopulationFor, PairsAligned, PlacesAligned, ForumsAligned, RunsAligned, CustodyAligned;
      var e := c.episode;
      if e !in episodes.rows { return Err(SubjectNotFound); }
      if e !in episodes.treatments { return Err(InvalidLifecycleTransition); }
      if !PhaseOpen(episodes.state[e], c.phase) { return Err(InvalidLifecycleTransition); }
      if c.phase == Source && e in episodes.frozen { return Err(InvalidLifecycleTransition); }
      var population := PopulationFor(episodes, e, c.phase);
      if population.None? { return Err(InvalidLifecycleTransition); }
      if episodes.rows[e].protocol !in design.protocols { return Err(SubjectNotFound); }
      var protocol := design.protocols[episodes.rows[e].protocol];
      if protocol.promptDigest != c.promptDigest || protocol.toolDigest != c.toolDigest { return Err(InvalidLifecycleTransition); }
      if ids.first in actors.roster.rows || RoleTaken(actors, e, c.phase, c.role) { return Err(InvalidLifecycleTransition); }
      if ids.second in actors.roster.occurrences { return Err(InvalidLifecycleTransition); }
      var row := Obligation(e, population.value, c.phase, c.role, c.budget, c.readBudget, c.postBudget);
      actors := InsertObligation(actors, row, ids.first, ids.second);
      SetEpisodeState(e, if c.phase == Source then SourceActive else SuccessorAdmitted);
      return Ok(ActorObligationAdmitted(ids.first, ids.second, e, population.value, c.phase));
    }

    method RegisterRunPair(run: Id, ordinal: PairOrdinal, pair: Id, randomization: Digest) returns (r: Result<StudyEvent, Rejection>)
      modifies `runs
      ensures Did(Lift(RegisterPair(old(Rows()), run, ordinal, pair, randomization), old(outside)), State(), r)
    {
      hide Registrable, EpisodesAligned, PairsAligned, RosterAligned, ActorsAligned, PlacesAligned, ForumsAligned, CustodyAligned;
      if run !in runs.rows { return Err(SubjectNotFound); }
      var row := runs.rows[run];
      if runs.state[run] != Pairing || ordinal > row.pairCount { return Err(InvalidLifecycleTransition); }
      if !Registrable(Rows(), row.protocol, pair, randomization) { return Err(InvalidLifecycleTransition); }
      if (run, ordinal) in runs.pairs || exists k :: k in runs.pairs && runs.pairs[k].pair == pair { return Err(InvalidLifecycleTransition); }
      var registered := runs.registered[run];
      runs := runs.(pairs := runs.pairs[(run, ordinal) := RunPair(pair, randomization)]);
      var next := registered + 1;
      if next > row.pairCount { return Err(InvalidLifecycleTransition); }
      var state := if next == row.pairCount then Ready else Pairing;
      runs := runs.(registered := runs.registered[run := next], state := runs.state[run := state]);
      return Ok(StudyRunPairRegistered(run, pair, ordinal, randomization, state));
    }

    method SettleAfterRecovery(o: Id, attempt: Id, child: Id, receipt: Id) returns (r: Result<StudyEvent, Rejection>)
      modifies this
      ensures Did(SettleRecovery(old(outside), old(Rows()), o, attempt, child, receipt), State(), r)
    {
      hide EpisodesAligned, PairsAligned, RosterAligned, PlacesAligned, ForumsAligned, RunsAligned, ProvenAbsent, AttemptSettled, RecoveryUsed;
      if o !in actors.roster.rows || actors.state[o] != Active { return Err(InvalidLifecycleTransition); }
      if o !in custody.bindings { return Err(SubjectNotFound); }
      var b := custody.bindings[o];
      if b.owner != TaskAttempt(attempt) || b.child != child || custody.state[o] != Bound { return Err(InvalidLifecycleTransition); }
      if !ProvenAbsent(outside, receipt, child) { return Err(ChildLifecycleReceiptMissing); }
      if attempt !in outside.attempts { return Err(InvalidLifecycleTransition); }
      if outside.attempts[attempt].state != AttemptRunning && outside.attempts[attempt].state != CancellationRequested {
        return Err(InvalidLifecycleTransition);
      }
      if attempt in outside.terminalReceipts || AttemptSettled(custody, attempt) { return Err(InvalidLifecycleTransition); }
      if o in custody.settlements || RecoveryUsed(custody, child, receipt) || attempt in outside.terminalFacts {
        return Err(InvalidLifecycleTransition);
      }
      custody := custody.(settlements := custody.settlements[o := Settlement(attempt, child, receipt)]);
      custody := custody.(state := custody.state[o := RecoverySettled]);
      outside := outside.(attempts := outside.attempts[attempt := outside.attempts[attempt].(state := SupervisorFailed)]);
      outside := outside.(terminalFacts := outside.terminalFacts + {attempt});
      return Ok(ActorTaskAttemptRecoverySettled(o, attempt, child, receipt, Unknown));
    }

    method ReplaceSources(e: Id, successor: Id) returns (r: Result<StudyEvent, Rejection>)
      modifies this
      ensures Did(Lift(Replace(old(Rows()), e, successor), old(outside)), State(), r)
    {
      hide PairsAligned, RosterAligned, PlacesAligned, ForumsAligned, RunsAligned, CustodyAligned, SourcesTerminal;
      if e !in episodes.rows { return Err(SubjectNotFound); }
      if episodes.state[e] != SourceActive || e !in episodes.frozen { return Err(InvalidLifecycleTransition); }
      if !SourcesTerminal(actors.roster, actors.state, e) { return Err(InvalidLifecycleTransition); }
      var source := episodes.rows[e].population;
      if source !in design.populations || successor !in design.populations { return Err(SubjectNotFound); }
      if successor == source || design.populations[successor] != design.populations[source] { return Err(InvalidLifecycleTransition); }
      if e in episodes.successors { return Err(InvalidLifecycleTransition); }
      episodes := episodes.(successors := episodes.successors[e := successor]);
      SetEpisodeState(e, SourceReconciled);
      return Ok(PopulationReplaced(e, successor));
    }

    // ---------- messages ----------

    /** The INSERT and the two UPDATEs that follow every new message. */
    method AppendMessage(id: Id, m: Message)
      requires id !in forum.messages && m.thread in forum.places.threads
      modifies `forum
      ensures forum == Append(old(forum), id, m)
    {
      hide PlacesAligned;
      forum := forum.(messages := forum.messages[id := m], publication := forum.publication[id := Published]);
      forum := forum.(heads := forum.heads[m.thread := m.ordinal]);
      forum := forum.(through := Advance(forum.exposures, forum.through, forum.places.threads[m.thread].forum, m.ordinal));
    }

    /** Every named relation must be allowed; the loop stops at the first that is not. */
    method CheckRelations(o: Id, targets: seq<Option<Id>>, thread: Id, ordinal: int) returns (allowed: bool)
      ensures allowed == RelationsAllowed(forum, o, targets, thread, ordinal)
    {
      hide TargetAllowed;
      var i := 0;
      while i < |targets|
        invariant 0 <= i <= |targets|
        invariant forall j :: 0 <= j < i && targets[j].Some? ==> TargetAllowed(forum, o, targets[j].value, thread, ordinal)
      {
        if targets[i].Some? && !TargetAllowed(forum, o, targets[i].value, thread, ordinal) {
          assert targets[i] in targets;
          return false;
        }
        i := i + 1;
      }
      return true;
    }

    /** Insert the message, then count the post, then let the first successor message start its phase. */
    method RecordPost(o: Id, id: Id, m: Message)
      requires o in actors.roster.rows && actors.roster.rows[o].episode in episodes.rows
      requires id !in forum.messages && m.thread in forum.places.threads
      modifies `forum, `actors, `episodes
      ensures forum == Append(old(forum), id, m) && actors == CountPost(old(actors), o)
      ensures episodes == AfterPost(old(episodes), old(actors).roster.rows[o].episode, old(actors).roster.rows[o].phase)
    {
      hide Append, RosterAligned, PlacesAligned;
      var row := actors.roster.rows[o];
      var state := episodes.state[row.episode];
      AppendMessage(id, m);
      actors := actors.(postsUsed := actors.postsUsed[o := actors.postsUsed[o] + 1]);
      if row.phase == Successor && state == CorrectionReleased { SetEpisodeState(row.episode, SuccessorActive); }
    }

    method PublishActorMessage(c: StudyCommand, id: Id) returns (r: Result<StudyEvent, Rejection>)
      requires c.PublishForumMessage?
      modifies `forum, `actors, `episodes
      ensures Did(Lift(Publish(hashes, old(Rows()), c, id), old(outside)), State(), r)
    {
      hide PostRefusal, RelationsAllowed, Append, CountPost, AfterPost, MayPost, EpisodesAligned, PairsAligned, RunsAligned, CustodyAligned, ActorsAligned;
      var o := c.obligation;
      var refusal := PostRefusal(Rows(), o);
      if refusal.Some? { return Err(refusal.value); }
      var thread := forum.places.threadOf[forum.exposures[o].forum];
      var ordinal := forum.heads[thread] + 1;
      var allowed := CheckRelations(o, [c.inReplyTo, c.supersedes], thread, ordinal);
      if !allowed { return Err(SubjectNotFound); }
      if id in forum.messages { return Err(InvalidLifecycleTransition); }
      var occurrence := actors.roster.occurrenceOf[o];
      RecordPost(o, id, Message(thread, ordinal, Some(occurrence), c.kind, c.inReplyTo, c.supersedes, c.body));
      return Ok(ForumMessagePublished(id, thread, ordinal, occurrence, c.kind, hashes.digest(c.body)));
    }

    /** One arm after the other; a rejected second arm leaves the first one written for the savepoint to undo. */
    method ReleaseBothArms(c: StudyCommand, ids: Fresh) returns (r: Result<StudyEvent, Rejection>)
      requires c.ReleaseMatchedCorrection?
      modifies this
      ensures Did(Lift(Release(hashes, old(Rows()), c, ids), old(outside)), State(), r)
    {
      hide ReleaseArm, PairsAligned, RosterAligned, ActorsAligned, PlacesAligned, ForumsAligned, RunsAligned, CustodyAligned;
      if c.pair !in pairs.rows { return Err(SubjectNotFound); }
      var p := pairs.rows[c.pair];
      if p.retained !in episodes.rows || episodes.rows[p.retained].protocol !in design.protocols { return Err(SubjectNotFound); }
      var digest := hashes.digest(c.correction);
      if design.protocols[episodes.rows[p.retained].protocol].correctionDigest != digest { return Err(InvalidLifecycleTransition); }
      var retained := ReleaseOneArm(p.retained, c.retainedThread, c.correction, ids.first);
      if retained.Some? { return Err(retained.value); }
      var reset := ReleaseOneArm(p.reset, c.resetThread, c.correction, ids.second);
      if reset.Some? { return Err(reset.value); }
      return Ok(MatchedCorrectionReleased(c.pair, ids.first, ids.second, digest));
    }

    method ReleaseOneArm(e: Id, thread: Id, body: MessageBody, id: Id) returns (refusal: Option<Rejection>)
      modifies `forum, `episodes
      ensures match ReleaseArm(old(Rows()), e, thread, body, id)
              case Ok(t) => refusal.None? && Rows() == t
              case Err(rejection) => refusal == Some(rejection)
    {
      hide ReadySuccessors, Append, PairsAligned, RosterAligned, ActorsAligned, RunsAligned, CustodyAligned, PlacesAligned;
      if e !in episodes.rows { return Some(SubjectNotFound); }
      if episodes.state[e] != SuccessorAdmitted { return Some(InvalidLifecycleTransition); }
      if !ThreadOfEpisode(forum.places, thread, e) { return Some(SubjectNotFound); }
      if e !in episodes.successors || episodes.successors[e] !in design.populations { return Some(SubjectNotFound); }
      var ready := ReadySuccessors(Rows(), e);
      if |ready| != design.populations[episodes.successors[e]].size { return Some(InvalidLifecycleTransition); }
      if forum.heads[thread] == MAX_I64 || id in forum.messages { return Some(InvalidLifecycleTransition); }
      AppendMessage(id, Message(thread, forum.heads[thread] + 1, None, Correction, None, None, body));
      SetEpisodeState(e, CorrectionReleased);
      return None;
    }

    method ReadMessages(c: StudyCommand, id: Id) returns (r: Result<StudyEvent, Rejection>)
      requires c.ReadForum?
      modifies this
      ensures Did(Lift(Read(hashes, old(outside), old(Rows()), c, id), old(outside)), State(), r)
    {
      hide ReadableThread, Slice, EpisodesAligned, PairsAligned, RosterAligned, PlacesAligned, RunsAligned, CustodyAligned;
      var readable := ReadableThread(Rows(), c.obligation, c.first, c.through);
      if readable.Err? { return Err(readable.error); }
      var thread := readable.value;
      var digest := hashes.digest(hashes.render(thread, c.first, c.through, Slice(forum, thread, c.first, c.through)));
      if c.renderedObject !in outside.sealed || outside.sealed[c.renderedObject] != digest { return Err(ContentObjectNotSealed); }
      if id in forum.receipts { return Err(InvalidLifecycleTransition); }
      forum := forum.(receipts := forum.receipts[id := Receipt(c.obligation, thread, c.first, c.through, c.renderedObject)]);
      actors := CountRead(actors, c.obligation);
      return Ok(ForumMessagesRead(id, c.obligation, thread, c.first, c.through, digest, c.renderedObject));
    }

    // ---------- closing and forking ----------

    method CloseStudyEpisode(e: Id) returns (r: Result<StudyEvent, Rejection>)
      modifies this
      ensures Did(Lift(Close(old(Rows()), e), old(outside)), State(), r)
    {
      hide AllTerminal, RecordedSlots, ColumnOf, Sum, PairsAligned, RosterAligned, PlacesAligned, RunsAligned, CustodyAligned;
      if e !in episodes.rows { return Err(SubjectNotFound); }
      if !AfterCorrection(episodes.state[e]) { return Err(InvalidLifecycleTransition); }
      if !AllTerminal(actors.roster, actors.state, e) { return Err(InvalidLifecycleTransition); }
      var row := episodes.rows[e];
      if row.measurement !in design.measurements { return Err(SubjectNotFound); }
      if |RecordedSlots(outcomes, e)| != design.measurements[row.measurement].slotCount { return Err(InvalidLifecycleTransition); }
      var charges := ColumnOf(actors.roster, actors.charged, e);
      if charges == map[] || row.protocol !in design.protocols { return Err(SubjectNotFound); }
      if Sum(charges) > design.protocols[row.protocol].episodeBudget { return Err(BudgetCeilingExceeded); }
      forum := ShutForum(forum, e);
      SetEpisodeState(e, Closed);
      return Ok(EpisodeClosed(e));
    }

    method Fork(source: Id, delta: Treatment, ids: Fresh) returns (r: Result<StudyEvent, Rejection>)
      modifies this
      ensures Did(Lift(ForkOf(hashes, old(Rows()), source, delta, ids), old(outside)), State(), r)
    {
      hide Assigned, PairsAligned, RosterAligned, ActorsAligned, PlacesAligned, ForumsAligned, RunsAligned, CustodyAligned;
      if source !in episodes.rows { return Err(SubjectNotFound); }
      if episodes.state[source] != Closed { return Err(InvalidLifecycleTransition); }
      if source !in episodes.treatments { return Err(SubjectNotFound); }
      if episodes.treatments[source].treatment == delta { return Err(InvalidLifecycleTransition); }
      if ids.first in episodes.rows || Assigned(Rows(), ids.second) || ids.third in episodes.forks { return Err(InvalidLifecycleTransition); }
      var seed := ForkSeed(episodes.rows[source].randomization, delta);
      episodes := InsertEpisode(episodes, ids.first, episodes.rows[source].(randomization := hashes.digest(seed)));
      episodes := episodes.(treatments := episodes.treatments[ids.first := Assignment(ids.second, delta)]);
      episodes := episodes.(forks := episodes.forks[ids.third := StudyTables.Fork(source, ids.first, delta)]);
      return Ok(ExperimentalForkCreated(ids.third, ids.first, source, delta));
    }
  }
}
