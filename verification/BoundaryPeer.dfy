/**
 * The boundary peer itself: an object whose methods update its fields frame by frame. Every method is
 * tied to the step function of `PeerSpec`, and the object keeps the invariant over its whole history.
 */
module BoundaryPeer {
  import opened Wrappers
  import opened Binary64
  import opened Usage
  import opened PeerProtocol
  import opened PeerSpec
  import opened PeerRuns
  import opened PeerInvariants
  import opened PeerAdmissions

  /** What an inner method returned, against the step it implements; the caller fences on an error. */
  ghost predicate Returns(s: PeerState, r: Result<Option<Observation>, PeerError>, step: (PeerState, Reply)) {
    match r
    case Ok(observation) => step == (s, Accepted(observation))
    case Err(error) => step == (Fence(s), Refused(error))
  }

  class Peer {
    const identity: Identity
    const checks: Checks
    var phase: Phase
    var expectedIn: nat
    var expectedOut: nat
    var adapterReadySeen: bool
    var fatalFrameSeen: bool
    var commands: map<Correlation, PendingCommand>
    var completed: set<Correlation>
    var create: Option<CreateSession>
    var createCandidate: Option<(Correlation, CreateSession)>
    var configuration: Option<Configuration>
    var pendingPrompt: Option<PendingPrompt>
    var forumCalls: set<ToolCall>
    var pendingDispose: Option<Correlation>
    var activeDispose: Option<ActiveDispose>
    var activeTurn: Option<ActiveTurn>
    var taskPromptAdmitted: bool
    var promptDigests: map<Correlation, Digest>
    var firstPrompt: Option<Digest>
    var settled: seq<TurnReceipt>
    const usage: UsageTracker
    ghost var history: History

    ghost function State(): PeerState
      reads this, usage
    {
      PeerState(
        phase, expectedIn, expectedOut, adapterReadySeen, fatalFrameSeen, commands, completed, create,
        createCandidate, configuration, pendingPrompt, forumCalls, pendingDispose, activeDispose, activeTurn,
        taskPromptAdmitted, promptDigests, firstPrompt, settled, usage.latest)
    }

    ghost function AsRun(): Run
      reads this, usage
    {
      Run(State(), history)
    }

    ghost predicate Valid()
      reads this, usage
    {
      Invariant(checks, AsRun())
    }

    constructor (identity: Identity, checks: Checks)
      requires checks.runtimePinned(identity.runtime)
      ensures this.identity == identity && this.checks == checks && fresh(usage)
      ensures AsRun() == NEW_RUN && Valid()
    {
      this.identity, this.checks := identity, checks;
      phase, expectedIn, expectedOut := AwaitingAdapterReady, 1, 1;
      adapterReadySeen, fatalFrameSeen := false, false;
      commands, completed := map[], {};
      create, createCandidate, configuration := None, None, None;
      pendingPrompt, forumCalls, pendingDispose, activeDispose, activeTurn := None, {}, None, None, None;
      taskPromptAdmitted, promptDigests, firstPrompt, settled := false, map[], None, [];
      var tracker := new UsageTracker();
      usage := tracker;
      history := [];
      new;
      InvariantHolds(identity, checks, []);
    }

    /** A peer is only made for the pinned runtime. */
    static method Open(identity: Identity, checks: Checks) returns (r: Result<Peer, PeerError>)
      ensures r.Ok? <==> checks.runtimePinned(identity.runtime)
      ensures r.Err? ==> r.error == Protocol
      ensures r.Ok? ==> fresh(r.value) && fresh(r.value.usage) && r.value.identity == identity && r.value.checks == checks
      ensures r.Ok? ==> r.value.AsRun() == NEW_RUN && r.value.Valid()
    {
      if !checks.runtimePinned(identity.runtime) { return Err(Protocol); }
      var peer := new Peer(identity, checks);
      r := Ok(peer);
    }

    method FencePeer()
      modifies `phase, `pendingPrompt, `pendingDispose, `activeDispose, `activeTurn
      ensures State() == Fence(old(State())) && history == old(history)
    {
      assert State() == Fence(old(State())).(
        phase := old(phase), pendingPrompt := old(pendingPrompt), pendingDispose := old(pendingDispose),
        activeDispose := old(activeDispose), activeTurn := old(activeTurn));
      phase, pendingPrompt, pendingDispose, activeDispose, activeTurn := Fatal, None, None, None, None;
    }

    // ---------- commands towards the host ----------

    method AdmitInbound(frame: InboundFrame) returns (r: Result<Option<Observation>, PeerError>)
      requires Valid()
      modifies this
      ensures Valid() && AsRun() == Next(identity, checks, old(AsRun()), Inbound(frame))
      ensures Admit(identity, checks, old(State()), frame).1 == if r.Ok? then Accepted(None) else Refused(r.error)
    {
      StepKeeps(identity, checks, AsRun(), Inbound(frame));
      hide Invariant, Admit;
      r := AdmitInboundInner(frame);
      if r.Err? {
        FencePeer();
      } else {
        history := history + [In(frame)];
      }
    }

    method AdmitInboundInner(frame: InboundFrame) returns (r: Result<Option<Observation>, PeerError>)
      modifies this
      ensures Returns(State(), r, Admit(identity, checks, old(State()), frame)) && history == old(history)
      ensures r.Ok? ==> r.value.None?
    {
      hide AdmissionRefusal, Recorded, Validated;
      if phase == Fatal { return Err(PeerIsFatal); }
      if frame.session != identity.session {
        FencePeer();
        return Err(SessionIdentity);
      }
      if frame.sequence != expectedIn {
        FencePeer();
        return Err(InboundSequence);
      }
      expectedIn := expectedIn + 1;
      if frame.correlation in commands || frame.correlation in completed {
        FencePeer();
        return Err(DuplicateCommandResult);
      }
      var refusal := ValidateCommandAdmission(frame.command);
      if refusal.Some? { return Err(refusal.value); }
      RecordCommand(frame.correlation, frame.command);
      return Ok(None);
    }

    method RecordCommand(c: Correlation, command: Command)
      modifies this
      ensures State() == Recorded(checks, old(State()), c, command) && history == old(history)
    {
      hide Started;
      Start(c, command);
      commands := commands[c := PendingCommand(command.Name(), false, false)];
    }

    method Start(c: Correlation, command: Command)
      modifies `createCandidate, `promptDigests, `pendingPrompt, `pendingDispose, `activeTurn
      ensures State() == Started(checks, old(State()), c, command)
    {
      match command {
        case Create(payload) =>
          createCandidate := Some((c, payload));
        case Prompt(_, text) =>
          promptDigests := promptDigests[c := checks.digest(text)];
          pendingPrompt := Some(PendingPrompt(c, false));
        case Abort =>
          AttachAbort();
        case Dispose =>
          pendingDispose := Some(c);
        case _ =>
      }
    }

    method AttachAbort()
      modifies `activeTurn, `pendingPrompt
      ensures State() == NoteAbort(old(State()))
    {
      if activeTurn.Some? {
        var evidence := activeTurn.value.evidence;
        if evidence.AwaitingAgentStart? || evidence.ActiveAttempt? || evidence.RetryLifecycle? {
          activeTurn := Some(activeTurn.value.(abortAdmitted := true));
        }
      } else if pendingPrompt.Some? {
        pendingPrompt := Some(pendingPrompt.value.(abortAdmitted := true));
      }
    }

    /** A session may be created once, from Inert, and its profile must be the pinned one. */
    method ValidateSession(payload: CreateSession) returns (refusal: Option<PeerError>)
      modifies `phase, `pendingPrompt, `pendingDispose, `activeDispose, `activeTurn
      ensures refusal == if !adapterReadySeen || old(phase) != Inert || create.Some? || createCandidate.Some? then Some(InvalidTransition)
                         else ProfileRefusal(checks, payload)
      ensures refusal.Some? ==> Fence(State()) == Fence(old(State()))
      ensures refusal.None? ==> State() == old(State())
    {
      if !adapterReadySeen || phase != Inert || create.Some? || createCandidate.Some? {
        FencePeer();
        return Some(InvalidTransition);
      }
      if !checks.descends(payload.authPath, payload.agentDirectory)
         || !checks.descends(payload.modelsPath, payload.agentDirectory)
         || checks.digest(payload.systemPrompt) != payload.systemPromptDigest
         || !checks.modelAdmitted(payload.profile.model, payload.profile.modelCatalog) {
        FencePeer();
        return Some(ExecutionProfileDrift);
      }
      if !checks.pinned(payload.profile.modelCatalog) { return Some(Protocol); }
      if !checks.pinned(payload.profile.settings) { return Some(Protocol); }
      if !checks.pinned(payload.profile.forumContract) { return Some(Protocol); }
      return None;
    }

    method ValidateCommandAdmission(command: Command) returns (refusal: Option<PeerError>)
      modifies `phase, `pendingPrompt, `pendingDispose, `activeDispose, `activeTurn, `taskPromptAdmitted, `forumCalls
      ensures refusal == AdmissionRefusal(checks, old(State()), command) && history == old(history)
      ensures refusal.Some? ==> Fence(State()) == Fence(old(State()))
      ensures refusal.None? ==> State() == Validated(old(State()), command)
    {
      if pendingDispose.Some? { return Some(InvalidTransition); }
      var allowed;
      match command {
        case Create(payload) =>
          refusal := ValidateSession(payload);
          return;
        case Prompt(purpose, _) =>
          allowed := create.Some? && phase == Ready && activeTurn.None? && pendingPrompt.None?
            && PurposeFits(create.value.profile.kind, purpose) && !(create.value.profile.kind.TaskAttempt? && taskPromptAdmitted);
          if allowed && create.value.profile.kind.TaskAttempt? { taskPromptAdmitted := true; }
        case FollowUp | Steer =>
          allowed := phase == Ready && activeTurn.Some? && TakesInterjection(activeTurn.value.evidence)
            && create.Some? && create.value.profile.kind.RootAuthorityOffice?;
        case ForumToolResult(toolCall) =>
          allowed := phase == Ready && activeTurn.Some? && toolCall in forumCalls;
          if allowed { forumCalls := forumCalls - {toolCall}; }
        case Abort | GetState =>
          allowed := phase == Ready;
        case Dispose =>
          allowed := phase == Ready && pendingPrompt.None? && activeTurn.None?;
      }
      if !allowed {
        FencePeer();
        return Some(InvalidTransition);
      }
      return None;
    }

    // ---------- frames from the host ----------

    method ObserveOutboundFrame(frame: OutboundFrame) returns (r: Result<Option<Observation>, PeerError>)
      requires Valid()
      modifies this, usage
      ensures Valid() && AsRun() == Next(identity, checks, old(AsRun()), Outbound(frame))
      ensures ObserveOutbound(identity, checks, old(State()), frame).1 == if r.Ok? then Accepted(r.value) else Refused(r.error)
    {
      StepKeeps(identity, checks, AsRun(), Outbound(frame));
      hide Invariant, ObserveOutbound;
      r := ObserveOutboundInner(frame);
      if r.Err? {
        FencePeer();
      } else {
        history := history + [Out(frame, r.value)];
      }
    }

    method ObserveOutboundInner(frame: OutboundFrame) returns (r: Result<Option<Observation>, PeerError>)
      modifies this, usage
      ensures Returns(State(), r, ObserveOutbound(identity, checks, old(State()), frame)) && history == old(history)
    {
      hide ObserveEvent;
      if phase == Fatal && !frame.event.FatalFrame? { return Err(PeerIsFatal); }
      if frame.session != identity.session {
        FencePeer();
        return Err(SessionIdentity);
      }
      if frame.sequence != expectedOut {
        FencePeer();
        return Err(OutboundSequence);
      }
      expectedOut := expectedOut + 1;
      r := Dispatch(frame);
    }

    method Dispatch(frame: OutboundFrame) returns (r: Result<Option<Observation>, PeerError>)
      modifies this, usage
      ensures Returns(State(), r, ObserveEvent(identity, checks, old(State()), frame)) && history == old(history)
    {
      hide ObserveAdapterReady, ObserveSessionReady, ObserveResult, ObserveAgent, ObserveForumCall, ObserveUsage, ObserveSettled, ObserveDisposed, ObserveFatal;
      match frame.event {
        case AdapterReady(pid, nonce, runtime) => r := ObserveAdapterReadyFrame(pid, nonce, runtime);
        case SessionReady(reported) => r := ObserveSessionReadyFrame(frame.correlation, reported);
        case CommandResult(name, accepted) => r := ObserveCommandResult(frame.sequence, frame.correlation, name, accepted);
        case Agent(event) => r := ObserveAgentEvent(frame.sequence, frame.correlation, event);
        case ForumToolCall(toolCall, toolName) => r := ObserveForumToolCall(frame.correlation, toolCall, toolName);
        case UsageSnapshot(observed) => r := ObserveUsageSnapshot(frame.sequence, frame.correlation, observed);
        case Settled(classification, outcome) => r := ObserveSettledFrame(frame.sequence, frame.correlation, classification, outcome);
        case DisposedFrame(receipt) => r := ObserveDisposedFrame(frame.sequence, frame.correlation, receipt);
        case FatalFrame(code) => r := ObserveFatalFrame(code);
      }
    }

    method ObserveAdapterReadyFrame(pid: nat, nonce: string, runtime: string) returns (r: Result<Option<Observation>, PeerError>)
      modifies this
      ensures Returns(State(), r, ObserveAdapterReady(identity, checks, old(State()), pid, nonce, runtime)) && history == old(history)
    {
      if adapterReadySeen || phase != AwaitingAdapterReady || pid != identity.pid || nonce != identity.spawnNonce
         || runtime != identity.runtime {
        FencePeer();
        return Err(RuntimeIdentity);
      }
      if !checks.runtimePinned(runtime) { return Err(Protocol); }
      adapterReadySeen := true;
      phase := Inert;
      return Ok(None);
    }

    method ObserveSessionReadyFrame(c: Option<Correlation>, reported: Configuration) returns (r: Result<Option<Observation>, PeerError>)
      modifies this
      ensures Returns(State(), r, ObserveSessionReady(checks, old(State()), c, reported)) && history == old(history)
    {
      if c.None? {
        FencePeer();
        return Err(UnknownCorrelation);
      }
      if c.value !in commands { return Err(UnknownCorrelation); }
      var pending := commands[c.value];
      if pending.name != CreateSessionName || !pending.resultSeen || phase != Creating {
        FencePeer();
        return Err(InvalidTransition);
      }
      if create.None? {
        FencePeer();
        return Err(ExecutionProfileDrift);
      }
      if !checks.configurationPinned(reported) { return Err(Protocol); }
      if reported.profile != create.value.profile
         || !checks.descends(reported.sessionFile, create.value.profile.sessionDirectory) {
        FencePeer();
        return Err(ExecutionProfileDrift);
      }
      configuration := Some(reported);
      phase := Ready;
      return Ok(None);
    }

    method ObserveCommandResult(sequence: nat, c: Option<Correlation>, name: CommandName, accepted: bool)
      returns (r: Result<Option<Observation>, PeerError>)
      modifies this
      ensures Returns(State(), r, ObserveResult(old(State()), sequence, c, name, accepted)) && history == old(history)
    {
      hide BeginAccepted, RejectedResult;
      if c.None? || c.value !in commands {
        FencePeer();
        return Err(UnknownCorrelation);
      }
      var pending := commands[c.value];
      if pending.resultSeen {
        FencePeer();
        return Err(DuplicateCommandResult);
      }
      if pending.name != name {
        FencePeer();
        return Err(ResultCommandMismatch);
      }
      completed := completed + {c.value};
      commands := commands[c.value := pending.(resultSeen := true, accepted := accepted)];
      assert State() == MarkResult(old(State()), c.value, name, accepted);
      if accepted {
        r := Begin(sequence, c.value, name);
      } else {
        r := Reject(c.value, name);
      }
    }

    method Reject(c: Correlation, name: CommandName) returns (r: Result<Option<Observation>, PeerError>)
      modifies this
      ensures Returns(State(), r, RejectedResult(old(State()), c, name)) && history == old(history)
    {
      if name.PromptName? {
        var prompt := pendingPrompt;
        pendingPrompt := None;
        if prompt.None? || prompt.value.correlation != c { return Err(InvalidTransition); }
      }
      if name.DisposeName? { return Err(InvalidTransition); }
      return Ok(None);
    }

    method Begin(sequence: nat, c: Correlation, name: CommandName) returns (r: Result<Option<Observation>, PeerError>)
      modifies this
      ensures Returns(State(), r, BeginAccepted(old(State()), sequence, c, name)) && history == old(history)
    {
      if name.CreateSessionName? {
        r := BeginSession(c);
      } else if name.PromptName? {
        r := BeginTurn(c);
      } else if name.DisposeName? {
        r := BeginDisposal(sequence, c);
      } else {
        r := Ok(None);
      }
    }

    method BeginSession(c: Correlation) returns (r: Result<Option<Observation>, PeerError>)
      modifies `createCandidate, `create, `phase, `pendingPrompt, `pendingDispose, `activeDispose, `activeTurn
      ensures Returns(State(), r, BeginAccepted(old(State()), 0, c, CreateSessionName))
    {
      var candidate := createCandidate;
      createCandidate := None;
      if candidate.None? || candidate.value.0 != c { return Err(InvalidTransition); }
      create := Some(candidate.value.1);
      phase := Creating;
      return Ok(None);
    }

    method BeginTurn(c: Correlation) returns (r: Result<Option<Observation>, PeerError>)
      modifies `pendingPrompt, `firstPrompt, `activeTurn
      ensures Returns(State(), r, BeginAccepted(old(State()), 0, c, PromptName))
    {
      var prompt := pendingPrompt;
      pendingPrompt := None;
      if prompt.None? || prompt.value.correlation != c { return Err(InvalidTransition); }
      if firstPrompt.None? && c in promptDigests { firstPrompt := Some(promptDigests[c]); }
      activeTurn := Some(ActiveTurn(c, AwaitingAgentStart, None, prompt.value.abortAdmitted));
      return Ok(None);
    }

    method BeginDisposal(sequence: nat, c: Correlation) returns (r: Result<Option<Observation>, PeerError>)
      modifies `phase, `activeDispose, `pendingDispose
      ensures Returns(State(), r, BeginAccepted(old(State()), sequence, c, DisposeName))
    {
      phase := Closing;
      activeDispose := Some(ActiveDispose(c, sequence, None));
      var dispose := pendingDispose;
      pendingDispose := None;
      if dispose != Some(c) { return Err(InvalidTransition); }
      return Ok(None);
    }

    method ObserveAgentEvent(sequence: nat, c: Option<Correlation>, event: AgentEvent) returns (r: Result<Option<Observation>, PeerError>)
      modifies this
      ensures Returns(State(), r, ObserveAgent(old(State()), sequence, c, event)) && history == old(history)
    {
      if phase != Ready && phase != Closing {
        FencePeer();
        return Err(InvalidTransition);
      }
      if activeTurn.Some? {
        if c != Some(activeTurn.value.correlation) {
          FencePeer();
          return Err(UnknownCorrelation);
        }
        var ok := ObserveTurnEvidence(event, sequence);
        if !ok { return Err(MissingTerminalEvidence); }
      } else if c.Some? {
        FencePeer();
        return Err(UnknownCorrelation);
      }
      return Ok(None);
    }

    /** `observe_turn_evidence`: rewrites the running turn's evidence phase in place. */
    method ObserveTurnEvidence(event: AgentEvent, sequence: nat) returns (ok: bool)
      requires activeTurn.Some?
      modifies `activeTurn
      ensures match Observe(old(activeTurn).value.evidence, event, sequence)
              case Some(evidence) => ok && activeTurn == Some(old(activeTurn).value.(evidence := evidence))
              case None => !ok && activeTurn == old(activeTurn)
    {
      var evidence := activeTurn.value.evidence;
      match event {
        case AgentStart =>
          if !evidence.AwaitingAgentStart? && !evidence.RetryLifecycle? { return false; }
          evidence := ActiveAttempt;
        case AgentEnd(messages, willRetry) =>
          if !evidence.ActiveAttempt? && !evidence.RetryLifecycle? { return false; }
          if willRetry {
            evidence := RetryLifecycle;
          } else {
            var stop := FinalAssistantStopReason(messages);
            if stop.None? { return false; }
            evidence := AwaitingAgentSettled(stop.value);
          }
        case AgentSettled =>
          if !evidence.AwaitingAgentSettled? { return false; }
          evidence := AwaitingFinalPromptUsage(evidence.stop, sequence);
        case OtherProjected =>
          if evidence.AwaitingFinalPromptUsage? || evidence.AwaitingSettledFrame? { return false; }
      }
      activeTurn := Some(activeTurn.value.(evidence := evidence));
      return true;
    }

    method ObserveForumToolCall(c: Option<Correlation>, toolCall: ToolCall, toolName: ForumToolName)
      returns (r: Result<Option<Observation>, PeerError>)
      modifies this
      ensures Returns(State(), r, ObserveForumCall(old(State()), c, toolCall, toolName)) && history == old(history)
    {
      if c.None? {
        FencePeer();
        return Err(UnknownCorrelation);
      }
      if activeTurn.None? {
        FencePeer();
        return Err(InvalidTransition);
      }
      var isForum := configuration.Some? && configuration.value.profile.toolProfile.ForumIsolatedV1?
                     && configuration.value.tools == [SocietyForumRead, SocietyForumPost];
      if c != Some(activeTurn.value.correlation) || !isForum || toolCall in forumCalls {
        FencePeer();
        return Err(InvalidTransition);
      }
      forumCalls := forumCalls + {toolCall};
      return Ok(Some(ForumCalled(c.value, toolCall, toolName)));
    }

    method ObserveUsageSnapshot(sequence: nat, c: Option<Correlation>, observed: UsageObservation)
      returns (r: Result<Option<Observation>, PeerError>)
      modifies this, usage
      ensures Returns(State(), r, ObserveUsage(old(State()), sequence, c, observed)) && history == old(history)
    {
      hide FromTotals, Regressed;
      var refusal := RefuseUsage(sequence, c);
      if refusal.Some? { return Err(refusal.value); }
      if observed.Unavailable? {
        FencePeer();
        return Ok(Some(UsageUnavailable(observed.reason)));
      }
      var delta := usage.Observe(observed);
      if delta.Err? {
        FencePeer();
        return Err(CostRefused(delta.error));
      }
      var ok := RecordUsage(sequence, c.value);
      if !ok { return Err(MissingTerminalEvidence); }
      return Ok(Some(UsageCharged(delta.value)));
    }

    /** The guards in front of the tracker. */
    method RefuseUsage(sequence: nat, c: Option<Correlation>) returns (refusal: Option<PeerError>)
      modifies this
      ensures refusal == UsageRefusal(old(State()), sequence, c) && history == old(history)
      ensures State() == if refusal.Some? then Fence(old(State())) else old(State())
    {
      if c.None? || c.value !in commands {
        FencePeer();
        return Some(UnknownCorrelation);
      }
      var command := commands[c.value];
      if !command.resultSeen || !command.accepted {
        FencePeer();
        return Some(InvalidTransition);
      }
      if activeDispose.Some? {
        var dispose := activeDispose.value;
        if phase != Closing || c.value != dispose.correlation || command.name != DisposeName
           || dispose.usageSequence.Some? || dispose.acceptedSequence + 1 != sequence {
          FencePeer();
          return Some(MissingTerminalEvidence);
        }
      }
      if activeTurn.Some? {
        if !ChargesDuringTurn(command.name) {
          FencePeer();
          return Some(InvalidTransition);
        }
      } else if !ChargesOutsideTurn(command.name) {
        FencePeer();
        return Some(InvalidTransition);
      }
      return None;
    }

    /** The bookkeeping behind it; a second terminal snapshot of the running prompt is an error. */
    method RecordUsage(sequence: nat, c: Correlation) returns (ok: bool)
      modifies this
      ensures match NoteUsage(old(State()), sequence, c)
              case Some(t) => ok && State() == t
              case None => !ok && Fence(State()) == Fence(old(State()))
      ensures history == old(history)
    {
      if activeDispose.Some? {
        activeDispose := Some(activeDispose.value.(usageSequence := Some(sequence)));
      }
      if activeTurn.Some? && c == activeTurn.value.correlation {
        var evidence := activeTurn.value.evidence;
        match evidence {
          case AwaitingFinalPromptUsage(stop, settledSequence) =>
            activeTurn := Some(activeTurn.value.(evidence := AwaitingSettledFrame(stop, settledSequence, sequence)));
          case AwaitingSettledFrame(_, _, _) =>
            return false;
          case _ =>
        }
        activeTurn := Some(activeTurn.value.(latestUsage := Some(sequence)));
      }
      return true;
    }

    /** The second half: usage adjacency and closed evidence, then the receipt; a protocol failure also fences. */
    method SettleTurn(sequence: nat, disposition: Disposition, outcome: Outcome) returns (r: Result<Option<Observation>, PeerError>)
      requires activeTurn.Some?
      modifies `settled, `phase, `pendingPrompt, `pendingDispose, `activeDispose, `activeTurn
      ensures var s := old(State()); var turn := s.activeTurn.value; var receipt := TurnReceipt(turn.correlation, disposition, outcome);
        if !UsageAdjacent(turn, sequence) || (outcome.Observed? && !EvidenceClosed(turn, outcome.stop, sequence))
        then r == Err(MissingTerminalEvidence) && State() == s
        else
          var t := s.(settled := s.settled + [receipt], activeTurn := None);
          r == Ok(Some(TurnSettled(receipt))) && State() == (if disposition == ProtocolFailed then Fence(t) else t)
    {
      var turn := activeTurn.value;
      var usageIsAdjacent := UsageAdjacent(turn, sequence);
      var evidenceIsClosed := outcome.Observed? && EvidenceClosed(turn, outcome.stop, sequence);
      if (outcome.Observed? && (!evidenceIsClosed || !usageIsAdjacent)) || (!outcome.Observed? && !usageIsAdjacent) {
        return Err(MissingTerminalEvidence);
      }
      var receipt := TurnReceipt(turn.correlation, disposition, outcome);
      settled := settled + [receipt];
      activeTurn := None;
      if disposition == ProtocolFailed { FencePeer(); }
      return Ok(Some(TurnSettled(receipt)));
    }

    method ObserveSettledFrame(sequence: nat, c: Option<Correlation>, classification: Classification, outcome: Outcome)
      returns (r: Result<Option<Observation>, PeerError>)
      modifies this
      ensures Returns(State(), r, ObserveSettled(old(State()), sequence, c, classification, outcome)) && history == old(history)
    {
      hide DispositionOf, UsageAdjacent, EvidenceClosed;
      if c.None? {
        FencePeer();
        return Err(UnknownCorrelation);
      }
      if activeTurn.None? {
        FencePeer();
        return Err(InvalidTransition);
      }
      if c.value != activeTurn.value.correlation {
        FencePeer();
        return Err(UnknownCorrelation);
      }
      var disposition := DispositionOf(classification, outcome, activeTurn.value.abortAdmitted);
      if disposition.None? {
        FencePeer();
        return Err(MissingTerminalEvidence);
      }
      r := SettleTurn(sequence, disposition.value, outcome);
    }

    method ObserveDisposedFrame(sequence: nat, c: Option<Correlation>, receipt: TranscriptReceipt)
      returns (r: Result<Option<Observation>, PeerError>)
      modifies this
      ensures Returns(State(), r, ObserveDisposed(identity, checks, old(State()), sequence, c, receipt)) && history == old(history)
    {
      hide TranscriptMatches;
      if c.None? {
        FencePeer();
        return Err(UnknownCorrelation);
      }
      if c.value !in commands { return Err(UnknownCorrelation); }
      var pending := commands[c.value];
      if pending.name != DisposeName || !pending.resultSeen || !pending.accepted || phase != Closing || activeTurn.Some? {
        FencePeer();
        return Err(InvalidTransition);
      }
      if activeDispose.None? || activeDispose.value.correlation != c.value
         || activeDispose.value.usageSequence.None? || activeDispose.value.usageSequence.value + 1 != sequence {
        FencePeer();
        return Err(MissingTerminalEvidence);
      }
      var matches := CheckTranscript(receipt);
      if !matches {
        FencePeer();
        return Err(TranscriptReceiptMismatch);
      }
      activeDispose := None;
      phase := Disposed;
      return Ok(Some(SessionDisposed));
    }

    method CheckTranscript(receipt: TranscriptReceipt) returns (matches: bool)
      ensures matches == TranscriptMatches(identity, checks, State(), receipt)
    {
      if create.None? || configuration.None? { return false; }
      match receipt
      case Materialized(session, sessionFile, headerCwd, reported) =>
        if session != identity.session || sessionFile != configuration.value.sessionFile
           || !checks.descends(sessionFile, create.value.profile.sessionDirectory)
           || headerCwd != create.value.profile.cwd {
          return false;
        }
        if firstPrompt.Some? { return reported == Verified(firstPrompt.value); }
        return reported == Absent;
      case UnmaterializedNoPrompt(session, sessionFile) =>
        return !(firstPrompt.Some? || session != identity.session || sessionFile != configuration.value.sessionFile
                 || !checks.descends(sessionFile, create.value.profile.sessionDirectory));
    }

    method ObserveFatalFrame(code: string) returns (r: Result<Option<Observation>, PeerError>)
      modifies this
      ensures Returns(State(), r, ObserveFatal(old(State()), code)) && history == old(history)
    {
      if fatalFrameSeen { return Err(PeerIsFatal); }
      fatalFrameSeen := true;
      FencePeer();
      return Ok(Some(HostFatal(code)));
    }

    // ---------- lines that do not decode, end of output ----------

    method RefuseMalformedLine()
      requires Valid()
      modifies this
      ensures Valid() && AsRun() == Next(identity, checks, old(AsRun()), MalformedLine)
    {
      StepKeeps(identity, checks, AsRun(), MalformedLine);
      FencePeer();
      hide Invariant;
    }

    method ObserveStdoutEof() returns (r: Result<Option<Observation>, PeerError>)
      requires Valid()
      modifies this
      ensures Valid() && AsRun() == Next(identity, checks, old(AsRun()), EndOfOutput)
      ensures ObserveEof(old(State())).1 == if r.Ok? then Accepted(None) else Refused(r.error)
    {
      StepKeeps(identity, checks, AsRun(), EndOfOutput);
      hide Invariant;
      if phase != Disposed && phase != Fatal {
        FencePeer();
        return Err(MissingTerminalEvidence);
      }
      return Ok(None);
    }
  }
}
