/**
 * Reading a run: the kernel lists the registered pairs in one ordered query, a client fetches them one by
 * one, ordinal after ordinal, while the kernel may go on executing commands in between.
 */
module RunClient {
  import opened Wrappers
  import opened StudyVocabulary
  import opened StudyTables
  import opened StudySpec
  import opened StudyInvariants
  import opened StudyOutcomeFrames
  import opened StudyTheorems
  import opened StudyProgress
  import opened FiniteSums

  datatype Registration = Registration(ordinal: int, pair: Id, randomization: Digest)

  datatype Summary = Summary(run: Id, row: RunRow, registered: nat, state: RunState)

  datatype Observation = Observation(summary: Summary, pairs: seq<Registration>)

  // ---------- the kernel's answers ----------

  function SummaryOf(r: Runs, run: Id): Option<Summary> {
    if run in r.rows then Some(Summary(run, r.rows[run], r.registered[run], r.state[run])) else None
  }

  function RegistrationOf(r: Runs, run: Id, ordinal: int): Option<Registration> {
    if (run, ordinal) in r.pairs then Some(Registration(ordinal, r.pairs[(run, ordinal)].pair, r.pairs[(run, ordinal)].randomization)) else None
  }

  function Ascending(s: set<int>): (q: seq<int>)
    ensures |q| == |s| && forall i :: i in q <==> i in s
    ensures forall i, j :: 0 <= i < j < |q| ==> q[i] < q[j]
  {
    if s == {} then []
    else
      var k := Least(s);
      [k] + Ascending(s - {k})
  }

  /** The rows of one run, ordered by ordinal. */
  function RowsOf(r: Runs, run: Id): (rows: seq<(int, RunPair)>) {
    var ordinals := Ascending(OrdinalsOf(r.pairs, run));
    assert forall i :: i in ordinals ==> (run, i) in r.pairs;
    seq(|ordinals|, i requires 0 <= i < |ordinals| => assert ordinals[i] in ordinals; (ordinals[i], r.pairs[(run, ordinals[i])]))
  }

  datatype QueryError = StudyRunNotFound(run: Id) | LedgerCorruption

  function Listed(rows: seq<(int, RunPair)>): (q: seq<Registration>)
    ensures |q| == |rows| && forall i :: 0 <= i < |q| ==> q[i] == Registration(rows[i].0, rows[i].1.pair, rows[i].1.randomization)
  {
    seq(|rows|, i requires 0 <= i < |rows| => Registration(rows[i].0, rows[i].1.pair, rows[i].1.randomization))
  }

  /** The kernel's observation of a run, refused when the row count disagrees with the counter. */
  method RunObservation(r: Runs, run: Id) returns (o: Result<Observation, QueryError>)
    ensures o == (if run !in r.rows then Err(StudyRunNotFound(run))
                  else if |RowsOf(r, run)| != r.registered[run] then Err(LedgerCorruption)
                  else Ok(Observation(SummaryOf(r, run).value, Listed(RowsOf(r, run)))))
  {
    var summary := SummaryOf(r, run);
    if summary.None? { return Err(StudyRunNotFound(run)); }
    var rows := RowsOf(r, run);
    var pairs := [];
    for i := 0 to |rows|
      invariant pairs == Listed(rows)[..i]
    {
      pairs := pairs + [Registration(rows[i].0, rows[i].1.pair, rows[i].1.randomization)];
    }
    assert Listed(rows)[..|rows|] == Listed(rows);
    if |pairs| != summary.value.registered { return Err(LedgerCorruption); }
    o := Ok(Observation(summary.value, pairs));
  }

  // ---------- the client ----------

  /** What comes back for one request; the connection may also fail. */
  datatype Reply =
    | StudyRunSummary(correlation: nat, summary: Option<Summary>)
    | StudyRunPairRegistration(correlation: nat, registration: Option<Registration>)
    | ErrorReply(correlation: nat, code: nat)
    | OtherReply
    | Broken

  datatype ClientError = Transport | Daemon(code: nat) | CorrelationMismatch | UnexpectedResponse | StudyRunRegistrationMissing

  function ReadSummary(correlation: nat, reply: Reply): Result<Option<Summary>, ClientError> {
    match reply
    case StudyRunSummary(c, s) => if c == correlation then Ok(s) else Err(CorrelationMismatch)
    case ErrorReply(c, code) => if c == correlation then Err(Daemon(code)) else Err(CorrelationMismatch)
    case Broken => Err(Transport)
    case _ => Err(UnexpectedResponse)
  }

  function ReadRegistration(correlation: nat, reply: Reply): Result<Option<Registration>, ClientError> {
    match reply
    case StudyRunPairRegistration(c, g) => if c == correlation then Ok(g) else Err(CorrelationMismatch)
    case ErrorReply(c, code) => if c == correlation then Err(Daemon(code)) else Err(CorrelationMismatch)
    case Broken => Err(Transport)
    case _ => Err(UnexpectedResponse)
  }

  /** The reply carries the registration of that very ordinal. */
  predicate Carries(correlation: nat, reply: Reply, ordinal: nat) {
    reply.StudyRunPairRegistration? && reply.correlation == correlation && reply.registration.Some? && reply.registration.value.ordinal == ordinal
  }

  function Fault(correlation: nat, reply: Reply): ClientError {
    match ReadRegistration(correlation, reply)
    case Err(e) => e
    case Ok(None) => StudyRunRegistrationMissing
    case Ok(Some(_)) => UnexpectedResponse
  }

  /**
   * The k-th request gets `reply(k)`: the summary first, then the ordinals 1, 2, and so on. The first reply
   * that does not carry its ordinal ends it; otherwise the list is what the replies carried, in order.
   */
  ghost predicate ClientSaw(correlation: nat, reply: nat -> Reply, o: Result<Option<Observation>, ClientError>) {
    match ReadSummary(correlation, reply(0))
    case Err(e) => o == Err(e)
    case Ok(None) => o == Ok(None)
    case Ok(Some(s)) =>
      && (o.Ok? <==> forall i :: 1 <= i <= s.registered ==> Carries(correlation, reply(i), i))
      && (o.Ok? ==> o.value.Some? && o.value.value.summary == s && |o.value.value.pairs| == s.registered
                    && forall i :: 0 <= i < s.registered ==> o.value.value.pairs[i] == reply(i + 1).registration.value)
      && (o.Err? ==> exists i :: 1 <= i <= s.registered && !Carries(correlation, reply(i), i) && o.error == Fault(correlation, reply(i))
                                 && forall j :: 1 <= j < i ==> Carries(correlation, reply(j), j))
  }

  /** Fetches the summary, then one registration per ordinal. */
  method StudyRunObservation(correlation: nat, reply: nat -> Reply) returns (o: Result<Option<Observation>, ClientError>)
    ensures ClientSaw(correlation, reply, o)
  {
    var summary := ReadSummary(correlation, reply(0));
    if summary.Err? { return Err(summary.error); }
    if summary.value.None? { return Ok(None); }
    var s := summary.value.value;
    var pairs := [];
    for ordinal := 1 to s.registered + 1
      invariant |pairs| == ordinal - 1
      invariant forall i :: 1 <= i < ordinal ==> Carries(correlation, reply(i), i)
      invariant forall i :: 0 <= i < ordinal - 1 ==> pairs[i] == reply(i + 1).registration.value
    {
      var fetched := ReadRegistration(correlation, reply(ordinal));
      if fetched.Err? { return Err(fetched.error); }
      if fetched.value.None? { return Err(StudyRunRegistrationMissing); }
      var registration := fetched.value.value;
      if registration.ordinal != ordinal { return Err(UnexpectedResponse); }
      pairs := pairs + [registration];
    }
    o := Ok(Some(Observation(s, pairs)));
  }

  // ---------- the client against the kernel ----------

  /** In a reachable state the kernel's list always matches its counter. */
  lemma CounterMatches(hashes: Hashes, outside: Outside, steps: seq<Step>, run: Id)
    requires run in Execute(hashes, outside, steps).tables.runs.rows
    ensures var r := Execute(hashes, outside, steps).tables.runs;
      |RowsOf(r, run)| == r.registered[run] == |OrdinalsOf(r.pairs, run)|
  {
    hide Execute, ThreadsHold, WindowsHold, ActorsHold, OutcomesHold, PairsMatched, Corrections, Lifecycle, BothClosed, OrdinalsOf,
         PlacesAligned, ForumsAligned, PairsAligned, RosterAligned, EpisodesAligned, ActorsAligned;
    InvariantHolds(hashes, outside, steps);
  }

  lemma {:induction false} AtLeast(q: seq<int>, i: nat)
    requires (forall a, b :: 0 <= a < b < |q| ==> q[a] < q[b]) && i < |q| && q[0] >= 1
    ensures q[i] >= i + 1
  {
    if i > 0 { AtLeast(q, i - 1); }
  }

  lemma {:induction false} AtMost(q: seq<int>, i: nat)
    requires (forall a, b :: 0 <= a < b < |q| ==> q[a] < q[b]) && i < |q| && q[|q| - 1] <= |q|
    ensures q[i] <= i + 1
    decreases |q| - i
  {
    if i < |q| - 1 { AtMost(q, i + 1); }
  }

  /** The set 1..n in ascending order. */
  lemma AscendingRange(n: nat)
    ensures |Ascending(Range(n))| == n && forall i :: 0 <= i < n ==> Ascending(Range(n))[i] == i + 1
  {
    hide Range;
    var q := Ascending(Range(n));
    if n > 0 { assert q[0] in q && q[n - 1] in q; }
    forall i | 0 <= i < n ensures q[i] == i + 1 {
      AtLeast(q, i);
      AtMost(q, i);
    }
  }

  lemma RowCount(r: Runs, run: Id)
    ensures |Listed(RowsOf(r, run))| == |RowsOf(r, run)| == |OrdinalsOf(r.pairs, run)|
  {
    hide RunsAligned, OrdinalsOf;
  }

  lemma RowAt(r: Runs, run: Id, i: nat)
    requires i < |Ascending(OrdinalsOf(r.pairs, run))|
    ensures var o := Ascending(OrdinalsOf(r.pairs, run))[i];
      && |RowsOf(r, run)| == |Ascending(OrdinalsOf(r.pairs, run))|
      && RegistrationOf(r, run, o) == Some(Listed(RowsOf(r, run))[i])
  {
    hide RunsAligned, Ascending;
    assert Ascending(OrdinalsOf(r.pairs, run))[i] in OrdinalsOf(r.pairs, run);
    OrdinalsAreKeys(r.pairs, run);
  }

  /** With ordinals 1..n the kernel's list is, position by position, the registration of each ordinal. */
  lemma ListInOrder(r: Runs, run: Id, n: nat)
    requires OrdinalsOf(r.pairs, run) == Range(n)
    ensures |Listed(RowsOf(r, run))| == n
    ensures forall i :: 0 <= i < n ==> RegistrationOf(r, run, i + 1) == Some(Listed(RowsOf(r, run))[i])
  {
    hide RunsAligned, RowsOf, Listed, RegistrationOf, OrdinalsOf, Ascending, Range;
    AscendingRange(n);
    RowCount(r, run);
    var list := Listed(RowsOf(r, run));
    forall i | 0 <= i < n ensures RegistrationOf(r, run, i + 1) == Some(list[i]) {
      RowAt(r, run, i);
    }
  }

  /** Request k is answered from the state after `at(k)` steps of one history, later requests never from earlier states. */
  ghost predicate Answers(hashes: Hashes, outside: Outside, history: seq<Step>, at: nat -> nat, correlation: nat, run: Id, reply: nat -> Reply) {
    && (forall k :: at(0) <= at(k) <= |history|)
    && reply(0) == StudyRunSummary(correlation, SummaryOf(RunsAt(hashes, outside, history, at(0)), run))
    && forall k :: k > 0 ==> reply(k) == StudyRunPairRegistration(correlation, RegistrationOf(RunsAt(hashes, outside, history, at(k)), run, k))
  }

  ghost function RunsAt(hashes: Hashes, outside: Outside, history: seq<Step>, n: nat): Runs {
    if n <= |history| then Execute(hashes, outside, history[..n]).tables.runs else NO_RUNS
  }

  lemma RegistrationsStay(hashes: Hashes, outside: Outside, history: seq<Step>, m: nat, n: nat, run: Id, ordinal: int)
    requires m <= n <= |history|
    ensures RegistrationOf(RunsAt(hashes, outside, history, m), run, ordinal).Some? ==>
      RegistrationOf(RunsAt(hashes, outside, history, n), run, ordinal) == RegistrationOf(RunsAt(hashes, outside, history, m), run, ordinal)
  {
    hide Execute, EpisodesForward, ActorsForward, CustodyForward, RunsAligned;
    NothingReopens(hashes, outside, history[..m], history[m..n]);
    assert history[..m] + history[m..n] == history[..n];
  }

  lemma AnsweredWith(r: Runs, correlation: nat, run: Id, ordinal: nat)
    ensures var reply := StudyRunPairRegistration(correlation, RegistrationOf(r, run, ordinal));
      && (Carries(correlation, reply, ordinal) <==> (run, ordinal as int) in r.pairs)
      && ((run, ordinal as int) in r.pairs ==> RegistrationOf(r, run, ordinal) == Some(reply.registration.value))
      && ((run, ordinal as int) !in r.pairs ==> Fault(correlation, reply) == StudyRunRegistrationMissing)
  {
    hide RunsAligned;
  }

  ghost predicate Present(r: Runs, run: Id, ordinal: nat) {
    (run, ordinal as int) in r.pairs
  }

  /** A registration in the kernel is a reply that carries its ordinal; none is a reply that misses it. */
  lemma AnsweredAt(hashes: Hashes, outside: Outside, history: seq<Step>, at: nat -> nat, correlation: nat, run: Id, reply: nat -> Reply, i: nat)
    requires Answers(hashes, outside, history, at, correlation, run, reply) && i > 0
    ensures var r := RunsAt(hashes, outside, history, at(i));
      && (Carries(correlation, reply(i), i) <==> Present(r, run, i))
      && (Present(r, run, i) ==> reply(i).StudyRunPairRegistration? && reply(i).registration.Some? && RegistrationOf(r, run, i) == reply(i).registration)
      && (!Present(r, run, i) ==> Fault(correlation, reply(i)) == StudyRunRegistrationMissing)
  {
    hide RunsAt, RunsAligned, Carries, Fault, RegistrationOf;
    AnsweredWith(RunsAt(hashes, outside, history, at(i)), correlation, run, i);
  }

  lemma SummaryAnswered(hashes: Hashes, outside: Outside, history: seq<Step>, at: nat -> nat, correlation: nat, run: Id, reply: nat -> Reply)
    requires Answers(hashes, outside, history, at, correlation, run, reply)
    ensures ReadSummary(correlation, reply(0)) == Ok(SummaryOf(RunsAt(hashes, outside, history, at(0)), run))
  {
    hide RunsAt, RunsAligned, SummaryOf;
  }

  /** The observation holds the summary, and at each position the registration the kernel had when asked. */
  ghost predicate Collected(
      hashes: Hashes, outside: Outside, history: seq<Step>, at: nat -> nat, run: Id, summary: Summary, o: Observation) {
    && o.summary == summary && |o.pairs| == summary.registered
    && forall i :: 0 <= i < summary.registered ==> RegistrationOf(RunsAt(hashes, outside, history, at(i + 1)), run, i + 1) == Some(o.pairs[i])
  }

  /** The client succeeds exactly when each ordinal up to the counter is registered by the time it is asked for. */
  lemma ClientSucceeds(
      hashes: Hashes, outside: Outside, history: seq<Step>, at: nat -> nat, correlation: nat, run: Id, reply: nat -> Reply,
      o: Result<Option<Observation>, ClientError>)
    requires Answers(hashes, outside, history, at, correlation, run, reply) && ClientSaw(correlation, reply, o)
    requires SummaryOf(RunsAt(hashes, outside, history, at(0)), run).Some?
    ensures var s := SummaryOf(RunsAt(hashes, outside, history, at(0)), run).value;
      && (o.Ok? <==> forall i: nat :: 1 <= i <= s.registered ==> Present(RunsAt(hashes, outside, history, at(i)), run, i))
      && (o.Ok? ==> o.value.Some? && Collected(hashes, outside, history, at, run, s, o.value.value))
      && (o.Err? ==> o.error == StudyRunRegistrationMissing)
  {
    hide Answers, RunsAt, RunsAligned, RegistrationOf, Carries, Present, SummaryOf, ReadSummary, Fault;
    SummaryAnswered(hashes, outside, history, at, correlation, run, reply);
    var s := SummaryOf(RunsAt(hashes, outside, history, at(0)), run).value;
    forall i: nat | 1 <= i <= s.registered
      ensures Carries(correlation, reply(i), i) <==> Present(RunsAt(hashes, outside, history, at(i)), run, i)
      ensures !Present(RunsAt(hashes, outside, history, at(i)), run, i) ==> Fault(correlation, reply(i)) == StudyRunRegistrationMissing
    {
      AnsweredAt(hashes, outside, history, at, correlation, run, reply, i);
    }
    if o.Ok? {
      forall i | 0 <= i < s.registered
        ensures RegistrationOf(RunsAt(hashes, outside, history, at(i + 1)), run, i + 1) == Some(o.value.value.pairs[i])
      {
        assert Carries(correlation, reply(i + 1), i + 1);
        AnsweredAt(hashes, outside, history, at, correlation, run, reply, i + 1);
      }
    }
  }

  /** Asked in one and the same state, the client succeeds exactly when the ordinals are 1..counter, and lists what the kernel lists. */
  lemma AtOnce(
      hashes: Hashes, outside: Outside, history: seq<Step>, at: nat -> nat, correlation: nat, run: Id, reply: nat -> Reply,
      o: Result<Option<Observation>, ClientError>)
    requires Answers(hashes, outside, history, at, correlation, run, reply) && ClientSaw(correlation, reply, o)
    requires SummaryOf(RunsAt(hashes, outside, history, at(0)), run).Some? && forall k :: at(k) == at(0)
    ensures var r := RunsAt(hashes, outside, history, at(0)); var s := SummaryOf(r, run).value;
      && (o.Ok? <==> OrdinalsOf(r.pairs, run) == Range(s.registered))
      && (o.Ok? ==> o.value == Some(Observation(s, Listed(RowsOf(r, run)))))
  {
    hide Answers, ClientSaw, RunsAt, RunsAligned, RegistrationOf, SummaryOf, RowsOf, Listed, OrdinalsOf, Ascending;
    var r := RunsAt(hashes, outside, history, at(0));
    var s := SummaryOf(r, run).value;
    ClientSucceeds(hashes, outside, history, at, correlation, run, reply, o);
    CountedAt(hashes, outside, history, at(0), run);
    CoversRange(r, run, s.registered);
    forall i: nat ensures Present(RunsAt(hashes, outside, history, at(i)), run, i) <==> Present(r, run, i) { assert at(i) == at(0); }
    if o.Ok? {
      ListInOrder(r, run, s.registered);
      SameList(r, run, o.value.value.pairs, Listed(RowsOf(r, run)));
    }
  }

  lemma CountedAt(hashes: Hashes, outside: Outside, history: seq<Step>, n: nat, run: Id)
    requires SummaryOf(RunsAt(hashes, outside, history, n), run).Some?
    ensures var r := RunsAt(hashes, outside, history, n); var s := SummaryOf(r, run).value;
      && s.registered == |OrdinalsOf(r.pairs, run)|
      && (s.state != Pairing ==> OrdinalsOf(r.pairs, run) == Range(s.registered))
  {
    hide Execute, RunsAligned, OrdinalsOf, RowsOf, BothClosed;
    if n <= |history| {
      CounterMatches(hashes, outside, history[..n], run);
      RunIsWhole(hashes, outside, history[..n], run);
      var r := RunsAt(hashes, outside, history, n);
      OrdinalsAreKeys(r.pairs, run);
      var s := SummaryOf(r, run).value;
      if s.state != Pairing { assert OrdinalsOf(r.pairs, run) == Range(s.row.pairCount); }
    }
  }

  /** As many ordinals as the counter says: having each of 1..n is being 1..n. */
  lemma CoversRange(r: Runs, run: Id, n: nat)
    requires |OrdinalsOf(r.pairs, run)| == n
    ensures (forall i: nat :: 1 <= i <= n ==> Present(r, run, i)) <==> OrdinalsOf(r.pairs, run) == Range(n)
  {
    hide RunsAligned, OrdinalsOf;
    OrdinalsAreKeys(r.pairs, run);
    if forall i: nat :: 1 <= i <= n ==> Present(r, run, i) {
      forall i | i in Range(n) ensures i in OrdinalsOf(r.pairs, run) { assert Present(r, run, i); }
      SubsetOfSameSize(Range(n), OrdinalsOf(r.pairs, run));
    }
    if OrdinalsOf(r.pairs, run) == Range(n) {
      forall i: nat | 1 <= i <= n ensures Present(r, run, i) { assert (i as int) in Range(n); }
    }
  }

  lemma SameList(r: Runs, run: Id, p: seq<Registration>, q: seq<Registration>)
    requires |p| == |q| && forall i :: 0 <= i < |p| ==> RegistrationOf(r, run, i + 1) == Some(p[i])
    requires forall i :: 0 <= i < |q| ==> RegistrationOf(r, run, i + 1) == Some(q[i])
    ensures p == q
  {
    hide RegistrationOf;
    forall i | 0 <= i < |p| ensures p[i] == q[i] {
      assert RegistrationOf(r, run, i + 1) == Some(p[i]);
    }
  }

  lemma PresentIfFound(r: Runs, run: Id, ordinal: nat)
    requires RegistrationOf(r, run, ordinal).Some?
    ensures Present(r, run, ordinal)
  {
    hide RunsAligned;
  }

  /** What the kernel lists for an ordinal is what the client finds there, then and later. */
  lemma RebuiltAt(hashes: Hashes, outside: Outside, history: seq<Step>, m: nat, n: nat, run: Id, ordinal: nat, listed: Registration)
    requires m <= n <= |history| && RegistrationOf(RunsAt(hashes, outside, history, m), run, ordinal) == Some(listed)
    ensures Present(RunsAt(hashes, outside, history, n), run, ordinal)
    ensures RegistrationOf(RunsAt(hashes, outside, history, n), run, ordinal) == Some(listed)
  {
    hide RunsAt, RunsAligned, RegistrationOf, Present;
    RegistrationsStay(hashes, outside, history, m, n, run, ordinal);
    PresentIfFound(RunsAt(hashes, outside, history, n), run, ordinal);
  }

  /**
   * A run past pairing is read whole although nothing ties the requests together: whatever the kernel does
   * in between, the client returns the summary it saw first and the kernel's ordered list at that time.
   */
  lemma ClientRebuilds(
      hashes: Hashes, outside: Outside, history: seq<Step>, at: nat -> nat, correlation: nat, run: Id, reply: nat -> Reply,
      o: Result<Option<Observation>, ClientError>)
    requires Answers(hashes, outside, history, at, correlation, run, reply) && ClientSaw(correlation, reply, o)
    requires SummaryOf(RunsAt(hashes, outside, history, at(0)), run).Some?
    requires SummaryOf(RunsAt(hashes, outside, history, at(0)), run).value.state != Pairing
    ensures var r := RunsAt(hashes, outside, history, at(0));
      o == Ok(Some(Observation(SummaryOf(r, run).value, Listed(RowsOf(r, run)))))
  {
    hide ClientSaw, RunsAt, RunsAligned, RegistrationOf, SummaryOf, RowsOf, Listed, OrdinalsOf, Ascending, Present;
    var r := RunsAt(hashes, outside, history, at(0));
    var s := SummaryOf(r, run).value;
    var list := Listed(RowsOf(r, run));
    ClientSucceeds(hashes, outside, history, at, correlation, run, reply, o);
    CountedAt(hashes, outside, history, at(0), run);
    ListInOrder(r, run, s.registered);
    forall i: nat | 1 <= i <= s.registered
      ensures Present(RunsAt(hashes, outside, history, at(i)), run, i)
      ensures RegistrationOf(RunsAt(hashes, outside, history, at(i)), run, i) == Some(list[i - 1])
    {
      assert RegistrationOf(r, run, (i - 1) + 1) == Some(list[i - 1]);
      RebuiltAt(hashes, outside, history, at(0), at(i), run, i, list[i - 1]);
    }
    var pairs := o.value.value.pairs;
    assert pairs == list by {
      forall i | 0 <= i < |list| ensures pairs[i] == list[i] {
        assert RegistrationOf(RunsAt(hashes, outside, history, at(i + 1)), run, i + 1) == Some(list[i + 1 - 1]);
      }
    }
  }
}
