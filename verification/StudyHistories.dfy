/** Histories that reach a given state of the control plane: a design with two matched arms. */
module StudyHistories {
  import opened Wrappers
  import opened StudyVocabulary
  import opened StudyTables
  import opened StudySpec

  /** Some history of accepted commands leads to these tables, other parts of the kernel standing still. */
  ghost predicate Reaches(hashes: Hashes, outside: Outside, db: Tables) {
    exists steps :: Execute(hashes, outside, steps) == Store(db, outside)
  }

  lemma Starts(hashes: Hashes, outside: Outside)
    ensures Reaches(hashes, outside, EMPTY)
  {
    assert Execute(hashes, outside, []) == Store(EMPTY, outside);
  }

  lemma Goes(hashes: Hashes, outside: Outside, a: Tables, c: StudyCommand, id: Id, b: Tables)
    requires Reaches(hashes, outside, a) && !c.SettleActorTaskAttemptAfterRecovery?
    requires Transition(hashes, outside, a, c, Fresh(id, id, id)).Ok? && Transition(hashes, outside, a, c, Fresh(id, id, id)).value.0 == b
    ensures Reaches(hashes, outside, b)
  {
    hide Transition;
    var steps :| Execute(hashes, outside, steps) == Store(a, outside);
    var step := Command(c, Fresh(id, id, id));
    assert (steps + [step])[..|steps|] == steps;
    assert Execute(hashes, outside, steps + [step]) == Store(b, outside);
  }

  // ---------- two matched arms ----------

  function Setting(hashes: Hashes, d: Digest): Design {
    Design(map[1 := Protocol(hashes.promptContract, hashes.toolContract, d, d, 0)], map[1 := World(1, d)], map[1 := Measurement(1, d, 1)],
           map[1 := Institution(1, d)], map[1 := Population(1, d, 1)])
  }

  lemma SettingReached(hashes: Hashes, outside: Outside, d: Digest)
    requires 1 in outside.applications
    ensures Reaches(hashes, outside, EMPTY.(design := Setting(hashes, d)))
  {
    hide Reaches;
    var e, s := EMPTY.design, Setting(hashes, d);
    var e1 := e.(protocols := s.protocols);
    var e2 := e1.(worlds := s.worlds);
    var e3 := e2.(measurements := s.measurements);
    var e4 := e3.(institutions := s.institutions);
    Starts(hashes, outside);
    Goes(hashes, outside, EMPTY, AdmitProtocolRevision(1, d, d, hashes.promptContract, hashes.toolContract, d, d, d, d, 0), 1, EMPTY.(design := e1));
    Goes(hashes, outside, EMPTY.(design := e1), AdmitWorldRevision(1, d), 1, EMPTY.(design := e2));
    Goes(hashes, outside, EMPTY.(design := e2), AdmitMeasurementRevision(1, d, 1), 1, EMPTY.(design := e3));
    Goes(hashes, outside, EMPTY.(design := e3), AdmitInstitutionRevision(1, d), 1, EMPTY.(design := e4));
    Goes(hashes, outside, EMPTY.(design := e4), AdmitPopulationSnapshot(1, d, 1), 1, EMPTY.(design := s));
  }

  /** Two episodes alike, the first retained and the second reset. */
  function Arms(d: Digest, n: nat): Episodes {
    var row := Episode(1, 1, 1, 1, 1, d);
    var rows: map<Id, Episode> := if n == 0 then map[] else if n == 1 then map[1 := row] else map[1 := row, 2 := row];
    var state: map<Id, EpisodeState> := if n == 0 then map[] else if n == 1 then map[1 := Admitted] else map[1 := Admitted, 2 := Admitted];
    var treatments: map<Id, Assignment> :=
      if n <= 2 then map[] else if n == 3 then map[1 := Assignment(1, Retained)] else map[1 := Assignment(1, Retained), 2 := Assignment(2, Reset)];
    var t := EpisodeTable(rows, state, treatments, map[], map[], map[]);
    assert EpisodesAligned(t);
    t
  }

  lemma EpisodeInserted(hashes: Hashes, outside: Outside, d: Digest, n: nat)
    requires n < 2
    ensures var db := EMPTY.(design := Setting(hashes, d), episodes := Arms(d, n));
      Transition(hashes, outside, db, AdmitEpisode(1, 1, 1, 1, 1, d), Fresh(n + 1, n + 1, n + 1))
        == Ok((db.(episodes := Arms(d, n + 1)), EpisodeAdmitted(n + 1)))
  {
    assert InsertEpisode(Arms(d, n), n + 1, Episode(1, 1, 1, 1, 1, d)) == Arms(d, n + 1);
  }

  lemma TreatmentInserted(hashes: Hashes, outside: Outside, d: Digest, n: nat)
    requires n < 2
    ensures var db := EMPTY.(design := Setting(hashes, d), episodes := Arms(d, n + 2)); var t := if n == 0 then Retained else Reset;
      Transition(hashes, outside, db, AssignTreatment(n + 1, t), Fresh(n + 1, n + 1, n + 1))
        == Ok((db.(episodes := Arms(d, n + 3)), TreatmentAssigned(n + 1, n + 1, t)))
  {
    hide PairsAligned, RosterAligned, ActorsAligned, PlacesAligned, ForumsAligned, RunsAligned, CustodyAligned;
  }

  lemma ArmsReached(hashes: Hashes, outside: Outside, d: Digest)
    requires 1 in outside.applications
    ensures Reaches(hashes, outside, EMPTY.(design := Setting(hashes, d), episodes := Arms(d, 4)))
  {
    hide Reaches, Transition, Setting, Arms;
    var db := EMPTY.(design := Setting(hashes, d));
    SettingReached(hashes, outside, d);
    assert db == db.(episodes := Arms(d, 0)) by { NoArms(d); }
    EpisodeInserted(hashes, outside, d, 0);
    Goes(hashes, outside, db.(episodes := Arms(d, 0)), AdmitEpisode(1, 1, 1, 1, 1, d), 1, db.(episodes := Arms(d, 1)));
    EpisodeInserted(hashes, outside, d, 1);
    Goes(hashes, outside, db.(episodes := Arms(d, 1)), AdmitEpisode(1, 1, 1, 1, 1, d), 2, db.(episodes := Arms(d, 2)));
    TreatmentInserted(hashes, outside, d, 0);
    Goes(hashes, outside, db.(episodes := Arms(d, 2)), AssignTreatment(1, Retained), 1, db.(episodes := Arms(d, 3)));
    TreatmentInserted(hashes, outside, d, 1);
    Goes(hashes, outside, db.(episodes := Arms(d, 3)), AssignTreatment(2, Reset), 2, db.(episodes := Arms(d, 4)));
  }

  lemma NoArms(d: Digest)
    ensures Arms(d, 0) == NO_EPISODES
  {
  }

  function Armed(hashes: Hashes, d: Digest): Tables {
    EMPTY.(design := Setting(hashes, d), episodes := Arms(d, 4))
  }
}
