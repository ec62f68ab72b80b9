/** Two runs any admitted session can take: one that loses a charge, and one that charges after Disposed. */
module PeerWitnesses {
  import opened Wrappers
  import opened Binary64
  import opened Usage
  import opened PeerProtocol
  import opened PeerSpec
  import opened PeerRuns
  import opened PeerAdmissions
  import opened PeerTheorems
  import opened PeerCharges

  // ---------- two snapshots ----------

  const ZERO := UsageTotals(0, 0, 0, 0, 0, ZeroDigits(16))
  const ONE := UsageTotals(1, 0, 0, 0, 1, ZeroDigits(15) + ['1'])
  const ZERO_USAGE := NormalizedUsage(0, 0, 0, 0, 0, 0, 0)
  const ONE_USAGE := NormalizedUsage(1, 0, 0, 0, 1, 1, 1)

  lemma NoDigits(n: nat)
    ensures HexValue(ZeroDigits(n)) == Some(0)
  {
    hide ZeroDigits, Pow2;
    ZeroDigitsShift("", n);
    assert "" + ZeroDigits(n) == ZeroDigits(n);
  }

  lemma OneIsOne()
    ensures HexValue(ZeroDigits(15) + ['1']) == Some(1)
  {
    hide ZeroDigits, Pow2;
    NoDigits(15);
    var s := ZeroDigits(15) + ['1'];
    assert s[..|s| - 1] == ZeroDigits(15);
  }

  lemma SmallCosts()
    ensures CostFromHex(ZeroDigits(16)) == Ok(0) && CostFromHex(ZeroDigits(15) + ['1']) == Ok(1)
    ensures CeilToMicroUsd(0) == Ok(0) && CeilToMicroUsd(1) == Ok(1)
  {
    hide HexValue, ZeroDigits, Pow2;
    NoDigits(16);
    OneIsOne();
  }

  /** The smallest positive cost is charged one micro-USD. */
  lemma SnapshotsNormalise()
    ensures FromTotals(ZERO) == Ok(ZERO_USAGE) && FromTotals(ONE) == Ok(ONE_USAGE)
  {
    hide CostFromHex, CeilToMicroUsd, ZeroDigits;
    SmallCosts();
  }

  lemma FirstTracked(totals: UsageTotals, current: NormalizedUsage)
    requires FromTotals(totals) == Ok(current)
    ensures Track(None, Known(totals)) ==
      Ok((current, UsageDelta(current.input, current.output, current.cacheRead, current.cacheWrite, current.total, current.ceiling, false)))
  {
    hide FromTotals;
  }

  lemma NextTracked(totals: UsageTotals, current: NormalizedUsage)
    requires FromTotals(totals) == Ok(current) && current != ZERO_USAGE
    ensures Track(Some(ZERO_USAGE), Known(totals)) ==
      Ok((current, UsageDelta(current.input, current.output, current.cacheRead, current.cacheWrite, current.total, current.ceiling, false)))
  {
    hide FromTotals;
  }

  lemma SnapshotsTrack()
    ensures Track(None, Known(ZERO)) == Ok((ZERO_USAGE, UsageDelta(0, 0, 0, 0, 0, 0, false)))
    ensures Track(Some(ZERO_USAGE), Known(ONE)) == Ok((ONE_USAGE, UsageDelta(1, 0, 0, 0, 1, 1, false)))
  {
    hide FromTotals, Track, WellFormed, ZeroDigits;
    SnapshotsNormalise();
    FirstTracked(ZERO, ZERO_USAGE);
    NextTracked(ONE, ONE_USAGE);
  }

  // ---------- a session that is ready ----------

  predicate Admissible(id: Identity, checks: Checks, payload: CreateSession, configuration: Configuration) {
    && checks.runtimePinned(id.runtime) && ProfileRefusal(checks, payload).None? && payload.profile.kind.TaskAttempt?
    && checks.configurationPinned(configuration) && configuration.profile == payload.profile
    && checks.descends(configuration.sessionFile, payload.profile.sessionDirectory)
  }

  function Sends(id: Identity, sequence: Sequence, c: Correlation, command: Command): Event {
    Inbound(InboundFrame(sequence, id.session, c, command))
  }

  function Says(id: Identity, sequence: Sequence, c: Option<Correlation>, event: OutboundEvent): Event {
    Outbound(OutboundFrame(sequence, id.session, c, event))
  }

  /** The run reaches this state. */
  ghost predicate Leads(id: Identity, checks: Checks, events: seq<Event>, s: PeerState) {
    Execute(id, checks, events).s == s
  }

  lemma ThenSends(id: Identity, checks: Checks, events: seq<Event>, s: PeerState, f: InboundFrame, t: PeerState)
    requires Leads(id, checks, events, s) && Admit(id, checks, s, f).0 == t
    ensures Leads(id, checks, events + [Inbound(f)], t)
  {
    hide Admit;
    assert (events + [Inbound(f)])[..|events|] == events;
  }

  lemma ThenSays(id: Identity, checks: Checks, events: seq<Event>, s: PeerState, f: OutboundFrame, t: PeerState)
    requires Leads(id, checks, events, s) && ObserveOutbound(id, checks, s, f).0 == t
    ensures Leads(id, checks, events + [Outbound(f)], t)
  {
    hide ObserveOutbound;
    assert (events + [Outbound(f)])[..|events|] == events;
  }

  function Made(name: CommandName): PendingCommand {
    PendingCommand(name, true, true)
  }

  function AwaitingReady(payload: CreateSession): PeerState {
    NEW_PEER.(phase := Creating, expectedIn := 2, expectedOut := 3, adapterReadySeen := true,
              commands := map["create" := Made(CreateSessionName)], completed := {"create"}, create := Some(payload))
  }

  function ReadySession(payload: CreateSession, configuration: Configuration): PeerState {
    AwaitingReady(payload).(phase := Ready, expectedOut := 4, configuration := Some(configuration))
  }

  lemma SessionCreated(id: Identity, checks: Checks, payload: CreateSession, configuration: Configuration)
    returns (events: seq<Event>)
    requires Admissible(id, checks, payload, configuration)
    ensures Leads(id, checks, events, AwaitingReady(payload))
  {
    hide ProfileRefusal;
    var inert := NEW_PEER.(phase := Inert, expectedOut := 2, adapterReadySeen := true);
    var asked := inert.(expectedIn := 2, createCandidate := Some(("create", payload)), commands := map["create" := PendingCommand(CreateSessionName, false, false)]);
    events := [];
    assert Leads(id, checks, events, NEW_PEER);
    var a := Says(id, 1, None, AdapterReady(id.pid, id.spawnNonce, id.runtime));
    ThenSays(id, checks, events, NEW_PEER, a.outbound, inert);
    events := events + [a];
    var b := Sends(id, 1, "create", Create(payload));
    ThenSends(id, checks, events, inert, b.inbound, asked);
    events := events + [b];
    var c := Says(id, 2, Some("create"), CommandResult(CreateSessionName, true));
    ThenSays(id, checks, events, asked, c.outbound, AwaitingReady(payload));
    events := events + [c];
  }

  lemma SessionIsReady(id: Identity, checks: Checks, payload: CreateSession, configuration: Configuration)
    returns (events: seq<Event>)
    requires Admissible(id, checks, payload, configuration)
    ensures Leads(id, checks, events, ReadySession(payload, configuration))
  {
    hide ProfileRefusal, Leads;
    events := SessionCreated(id, checks, payload, configuration);
    var a := Says(id, 3, Some("create"), SessionReady(configuration));
    ThenSays(id, checks, events, AwaitingReady(payload), a.outbound, ReadySession(payload, configuration));
    events := events + [a];
  }

  // ---------- a turn that loses a charge ----------

  function Prompting(payload: CreateSession, configuration: Configuration, digest: Digest): PeerState {
    ReadySession(payload, configuration).(
      expectedIn := 3, expectedOut := 5, taskPromptAdmitted := true,
      commands := map["create" := Made(CreateSessionName), "prompt" := Made(PromptName)], completed := {"create", "prompt"},
      promptDigests := map["prompt" := digest], firstPrompt := Some(digest), activeTurn := Some(ActiveTurn("prompt", AwaitingAgentStart, None, false)))
  }

  lemma PromptAccepted(id: Identity, checks: Checks, payload: CreateSession, configuration: Configuration, text: string)
    returns (events: seq<Event>)
    requires Admissible(id, checks, payload, configuration)
    ensures Leads(id, checks, events, Prompting(payload, configuration, checks.digest(text)))
  {
    hide ProfileRefusal, Leads;
    events := SessionIsReady(id, checks, payload, configuration);
    var ready := ReadySession(payload, configuration);
    var asked := ready.(expectedIn := 3, taskPromptAdmitted := true, promptDigests := map["prompt" := checks.digest(text)],
                        commands := map["create" := Made(CreateSessionName), "prompt" := PendingCommand(PromptName, false, false)],
                        pendingPrompt := Some(PendingPrompt("prompt", false)));
    var a := Sends(id, 2, "prompt", Prompt(TaskAssignment, text));
    ThenSends(id, checks, events, ready, a.inbound, asked);
    events := events + [a];
    var b := Says(id, 4, Some("prompt"), CommandResult(PromptName, true));
    ThenSays(id, checks, events, asked, b.outbound, Prompting(payload, configuration, checks.digest(text)));
    events := events + [b];
  }

  /** The turn of the running prompt, `n` frames on, with this evidence and latest snapshot. */
  function InTurn(s: PeerState, n: nat, evidence: Evidence, usage: Option<nat>, latest: Option<NormalizedUsage>): PeerState {
    s.(expectedOut := s.expectedOut + n, latest := latest, activeTurn := Some(ActiveTurn("prompt", evidence, usage, false)))
  }

  const STOPPED: AgentEvent := AgentEnd([Object(Some("assistant"), Some("stop"))], false)

  lemma AgentSays(id: Identity, checks: Checks, events: seq<Event>, s: PeerState, n: nat, e: Evidence, event: AgentEvent, f: Evidence)
    returns (more: seq<Event>)
    requires s.phase == Ready && s.expectedOut + n <= 100 && 1 <= s.expectedOut
    requires Leads(id, checks, events, InTurn(s, n, e, None, None))
    requires Observe(e, event, s.expectedOut + n) == Some(f)
    ensures Leads(id, checks, more, InTurn(s, n + 1, f, None, None))
  {
    hide Leads, Observe;
    var a := Says(id, s.expectedOut + n, Some("prompt"), Agent(event));
    ThenSays(id, checks, events, InTurn(s, n, e, None, None), a.outbound, InTurn(s, n + 1, f, None, None));
    more := events + [a];
  }

  lemma TurnSettles(id: Identity, checks: Checks, payload: CreateSession, configuration: Configuration, text: string)
    returns (events: seq<Event>)
    requires Admissible(id, checks, payload, configuration)
    ensures Leads(id, checks, events, InTurn(Prompting(payload, configuration, checks.digest(text)), 3, AwaitingFinalPromptUsage(Stop, 7), None, None))
  {
    hide Leads;
    var s := Prompting(payload, configuration, checks.digest(text));
    events := PromptAccepted(id, checks, payload, configuration, text);
    assert s == InTurn(s, 0, AwaitingAgentStart, None, None);
    events := AgentSays(id, checks, events, s, 0, AwaitingAgentStart, AgentStart, ActiveAttempt);
    events := AgentSays(id, checks, events, s, 1, ActiveAttempt, STOPPED, AwaitingAgentSettled(Stop));
    events := AgentSays(id, checks, events, s, 2, AwaitingAgentSettled(Stop), AgentSettled, AwaitingFinalPromptUsage(Stop, 7));
  }

  lemma TurnIsCharged(id: Identity, checks: Checks, payload: CreateSession, configuration: Configuration, text: string)
    returns (events: seq<Event>)
    requires Admissible(id, checks, payload, configuration)
    ensures Leads(id, checks, events,
      InTurn(Prompting(payload, configuration, checks.digest(text)), 4, AwaitingSettledFrame(Stop, 7, 8), Some(8), Some(ZERO_USAGE)))
  {
    hide Leads, Track, ZeroDigits, WellFormed;
    SnapshotsTrack();
    var s := Prompting(payload, configuration, checks.digest(text));
    events := TurnSettles(id, checks, payload, configuration, text);
    var a := Says(id, 8, Some("prompt"), UsageSnapshot(Known(ZERO)));
    ThenSays(id, checks, events, InTurn(s, 3, AwaitingFinalPromptUsage(Stop, 7), None, None), a.outbound,
             InTurn(s, 4, AwaitingSettledFrame(Stop, 7, 8), Some(8), Some(ZERO_USAGE)));
    events := events + [a];
  }

  /**
   * Any admitted session has a run that loses a charge: after the terminal snapshot of its prompt a second
   * one adds a token and a micro-USD to the tracker, and nothing of it is ever reported.
   */
  lemma ChargeIsLost(id: Identity, checks: Checks, payload: CreateSession, configuration: Configuration, text: string)
    returns (events: seq<Event>)
    requires Admissible(id, checks, payload, configuration)
    ensures var r := Execute(id, checks, events);
      && HasLoss(id, checks, events) && r.s.phase == Fatal
      && Charged(r.h) == NO_CHARGE && ChargeOf(r.s.latest) == Charge(1, 0, 0, 0, 1, 1)
  {
    hide Track, ZeroDigits, WellFormed, Execute, Invariant, ResultsRecorded, Charged, Next, HasLoss;
    SnapshotsTrack();
    var before := TurnIsCharged(id, checks, payload, configuration, text);
    var r := Execute(id, checks, before);
    var e := Says(id, 9, Some("prompt"), UsageSnapshot(Known(ONE)));
    UsageConservation(id, checks, before);
    InvariantHolds(id, checks, before);
    ResultsHold(id, checks, before);
    assert Silent(id, r.s, e);
    SilentStep(id, checks, r, e);
    events := before + [e];
    LastEvent(id, checks, before, e);
    ShortfallExactly(id, checks, events);
  }

  lemma LastEvent(id: Identity, checks: Checks, events: seq<Event>, e: Event)
    ensures Execute(id, checks, events + [e]) == Next(id, checks, Execute(id, checks, events), e)
  {
    assert (events + [e])[..|events|] == events;
  }

  // ---------- a session that charges after it has ended ----------

  function Ending(payload: CreateSession, configuration: Configuration): PeerState {
    ReadySession(payload, configuration).(
      phase := Closing, expectedIn := 3, expectedOut := 5,
      commands := map["create" := Made(CreateSessionName), "dispose" := Made(DisposeName)], completed := {"create", "dispose"},
      activeDispose := Some(ActiveDispose("dispose", 4, None)))
  }

  function Ended(payload: CreateSession, configuration: Configuration): PeerState {
    Ending(payload, configuration).(phase := Disposed, expectedOut := 7, activeDispose := None, latest := Some(ZERO_USAGE))
  }

  lemma DisposeIsAccepted(id: Identity, checks: Checks, payload: CreateSession, configuration: Configuration)
    returns (events: seq<Event>)
    requires Admissible(id, checks, payload, configuration)
    ensures Leads(id, checks, events, Ending(payload, configuration))
  {
    hide ProfileRefusal, Leads;
    events := SessionIsReady(id, checks, payload, configuration);
    var ready := ReadySession(payload, configuration);
    var asked := ready.(expectedIn := 3, pendingDispose := Some("dispose"),
                        commands := map["create" := Made(CreateSessionName), "dispose" := PendingCommand(DisposeName, false, false)]);
    var a := Sends(id, 2, "dispose", Dispose);
    ThenSends(id, checks, events, ready, a.inbound, asked);
    events := events + [a];
    var b := Says(id, 4, Some("dispose"), CommandResult(DisposeName, true));
    ThenSays(id, checks, events, asked, b.outbound, Ending(payload, configuration));
    events := events + [b];
  }

  lemma SessionEnds(id: Identity, checks: Checks, payload: CreateSession, configuration: Configuration)
    returns (events: seq<Event>)
    requires Admissible(id, checks, payload, configuration)
    ensures Leads(id, checks, events, Ended(payload, configuration))
  {
    hide ProfileRefusal, Leads, Track, ZeroDigits, WellFormed;
    SnapshotsTrack();
    events := DisposeIsAccepted(id, checks, payload, configuration);
    var s := Ending(payload, configuration);
    var charged := s.(expectedOut := 6, activeDispose := Some(ActiveDispose("dispose", 4, Some(5))), latest := Some(ZERO_USAGE));
    var a := Says(id, 5, Some("dispose"), UsageSnapshot(Known(ZERO)));
    ThenSays(id, checks, events, s, a.outbound, charged);
    events := events + [a];
    var b := Says(id, 6, Some("dispose"), DisposedFrame(UnmaterializedNoPrompt(id.session, configuration.sessionFile)));
    ThenSays(id, checks, events, charged, b.outbound, Ended(payload, configuration));
    events := events + [b];
  }

  lemma ChargedSoFar(id: Identity, checks: Checks, events: seq<Event>)
    requires Execute(id, checks, events).s.phase == Disposed
    ensures Charged(Execute(id, checks, events).h) == ChargeOf(Execute(id, checks, events).s.latest)
  {
    hide Execute, Charged, ChargeOf;
    UsageConservation(id, checks, events);
  }

  /** Any admitted session has a run that ends in Disposed and is charged a micro-USD afterwards. */
  lemma DisposedIsCharged(id: Identity, checks: Checks, payload: CreateSession, configuration: Configuration)
    returns (events: seq<Event>, e: Event)
    requires Admissible(id, checks, payload, configuration)
    ensures var r := Execute(id, checks, events); var t := Execute(id, checks, events + [e]);
      && r.s.phase == Disposed && t.s.phase == Disposed
      && Charged(r.h) == NO_CHARGE && Charged(t.h) == Charge(1, 0, 0, 0, 1, 1)
  {
    hide ProfileRefusal, Track, ZeroDigits, WellFormed, Execute, Charged, Next;
    SnapshotsTrack();
    events := SessionEnds(id, checks, payload, configuration);
    e := Says(id, 7, Some("dispose"), UsageSnapshot(Known(ONE)));
    var s := Execute(id, checks, events).s;
    ChargedSoFar(id, checks, events);
    ThenSays(id, checks, events, s, e.outbound, s.(expectedOut := 8, latest := Some(ONE_USAGE)));
    ChargedSoFar(id, checks, events + [e]);
  }
}
