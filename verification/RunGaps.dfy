/** A run that is still pairing need not be readable: a reachable state whose only registered ordinal is 2. */
module RunGaps {
  import opened Wrappers
  import opened StudyVocabulary
  import opened StudyTables
  import opened StudySpec
  import opened StudyInvariants
  import opened StudyTheorems
  import opened StudyHistories
  import opened FiniteSums
  import opened RunClient

  // ---------- a run with a gap ----------

  function Twins(): Pairs {
    var t := PairTable(map[1 := Pair(1, 2)], map[1 := 1], map[2 := 1]);
    assert PairsAligned(t);
    t
  }

  /** The run before and after its one registration, at ordinal 2. */
  function Registered(d: Digest, registered: bool): Runs {
    var t := RunTable(map[1 := RunRow(1, 1, d, 2)], map[1 := if registered then 1 else 0], map[1 := Pairing],
                      if registered then map[(1, 2) := RunPair(1, d)] else map[]);
    assert RunsAligned(t);
    t
  }

  lemma TwinsPaired(hashes: Hashes, outside: Outside, d: Digest)
    ensures Transition(hashes, outside, Armed(hashes, d), AdmitMatchedPair(1, 2), Fresh(1, 1, 1))
      == Ok((Armed(hashes, d).(pairs := Twins()), MatchedPairAdmitted(1)))
  {
    hide RosterAligned, ActorsAligned, PlacesAligned, ForumsAligned, RunsAligned, CustodyAligned;
    assert InsertPair(NO_PAIRS, Pair(1, 2), 1) == Twins();
  }

  lemma RunInserted(hashes: Hashes, outside: Outside, d: Digest, db: Tables)
    requires 1 in outside.sealed && outside.sealed[1] == d && 1 in db.design.protocols && db.runs == NO_RUNS
    ensures var r := Transition(hashes, outside, db, AdmitStudyRun(1, 1, d, 2), Fresh(1, 1, 1));
      r.Ok? && r.value.0 == db.(runs := Registered(d, false))
  {
    hide EpisodesAligned, PairsAligned, RosterAligned, ActorsAligned, PlacesAligned, ForumsAligned, CustodyAligned;
  }

  lemma SecondRegistered(hashes: Hashes, outside: Outside, d: Digest, db: Tables)
    requires db.runs == Registered(d, false) && Registrable(db, 1, 1, d)
    ensures var r := Transition(hashes, outside, db, RegisterStudyRunPair(1, 2, 1, d), Fresh(1, 1, 1));
      r.Ok? && r.value.0 == db.(runs := Registered(d, true))
  {
    hide EpisodesAligned, PairsAligned, RosterAligned, ActorsAligned, PlacesAligned, ForumsAligned, CustodyAligned, Registrable;
  }

  lemma ArmsRegistrable(hashes: Hashes, d: Digest)
    ensures Registrable(Armed(hashes, d).(pairs := Twins(), runs := Registered(d, false)), 1, 1, d)
  {
  }

  lemma GapReached(hashes: Hashes, outside: Outside, d: Digest)
    requires 1 in outside.applications && 1 in outside.sealed && outside.sealed[1] == d
    ensures Reaches(hashes, outside, Armed(hashes, d).(pairs := Twins(), runs := Registered(d, true)))
  {
    hide Reaches, Transition, Arms, Twins, Registered, Registrable;
    var db := Armed(hashes, d);
    var paired := db.(pairs := Twins());
    var run := paired.(runs := Registered(d, false));
    ArmsReached(hashes, outside, d);
    TwinsPaired(hashes, outside, d);
    Goes(hashes, outside, db, AdmitMatchedPair(1, 2), 1, paired);
    RunInserted(hashes, outside, d, paired);
    Goes(hashes, outside, paired, AdmitStudyRun(1, 1, d, 2), 1, run);
    ArmsRegistrable(hashes, d);
    SecondRegistered(hashes, outside, d, run);
    Goes(hashes, outside, run, RegisterStudyRunPair(1, 2, 1, d), 1, run.(runs := Registered(d, true)));
  }

  /** Reading a pairing run may fail: there is a history after which a client asking at once is told a registration is missing. */
  lemma PairingRunMayBeUnreadable(
      hashes: Hashes, outside: Outside, d: Digest, correlation: nat, o: Result<Option<Observation>, ClientError>)
    returns (history: seq<Step>, reply: nat -> Reply)
    requires 1 in outside.applications && 1 in outside.sealed && outside.sealed[1] == d
    ensures Answers(hashes, outside, history, _ => |history|, correlation, 1, reply)
    ensures SummaryOf(RunsAt(hashes, outside, history, |history|), 1).Some?
    ensures ClientSaw(correlation, reply, o) ==> o == Err(StudyRunRegistrationMissing)
  {
    GapReached(hashes, outside, d);
    var r := Registered(d, true);
    var steps :| Execute(hashes, outside, steps) == Store(Armed(hashes, d).(pairs := Twins(), runs := r), outside);
    history := steps;
    reply := k => if k == 0 then StudyRunSummary(correlation, SummaryOf(r, 1)) else StudyRunPairRegistration(correlation, RegistrationOf(r, 1, k));
    Unreadable(hashes, outside, d, correlation, history, reply, o);
  }

  lemma Unreadable(
      hashes: Hashes, outside: Outside, d: Digest, correlation: nat, history: seq<Step>, reply: nat -> Reply,
      o: Result<Option<Observation>, ClientError>)
    requires Execute(hashes, outside, history).tables.runs == Registered(d, true)
    requires forall k: nat :: reply(k) == if k == 0 then StudyRunSummary(correlation, SummaryOf(Registered(d, true), 1))
                                   else StudyRunPairRegistration(correlation, RegistrationOf(Registered(d, true), 1, k))
    ensures Answers(hashes, outside, history, _ => |history|, correlation, 1, reply)
    ensures SummaryOf(RunsAt(hashes, outside, history, |history|), 1).Some?
    ensures ClientSaw(correlation, reply, o) ==> o == Err(StudyRunRegistrationMissing)
  {
    hide Execute, ClientSaw, Registered, SummaryOf, RegistrationOf;
    assert history[..|history|] == history;
    assert RunsAt(hashes, outside, history, |history|) == Registered(d, true);
    RegisteredSummary(d);
    if ClientSaw(correlation, reply, o) {
      var at: nat -> nat := _ => |history|;
      ClientSucceeds(hashes, outside, history, at, correlation, 1, reply, o);
      assert RunsAt(hashes, outside, history, at(1)) == Registered(d, true);
    }
  }

  lemma RegisteredSummary(d: Digest)
    ensures SummaryOf(Registered(d, true), 1).Some? && SummaryOf(Registered(d, true), 1).value.registered == 1
    ensures !Present(Registered(d, true), 1, 1)
  {
  }
}
