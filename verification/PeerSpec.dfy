/**
 * One step of the boundary peer as a function: what an admitted command or an observed frame does to
 * the whole peer state. Any refusal leaves the fenced state.
 */
module PeerSpec {
  import opened Wrappers
  import opened Binary64
  import opened Usage
  import opened PeerProtocol

  datatype Phase = AwaitingAdapterReady | Inert | Creating | Ready | Closing | Disposed | Fatal

  datatype Observation =
    | UsageCharged(delta: UsageDelta)
    | UsageUnavailable(reason: UnavailableReason)
    | TurnSettled(receipt: TurnReceipt)
    | ForumCalled(correlation: Correlation, toolCall: ToolCall, toolName: ForumToolName)
    | SessionDisposed
    | HostFatal(failureCode: string)

  datatype Reply = Accepted(observation: Option<Observation>) | Refused(error: PeerError)

  /** Identity evidence from the supervisor, fixed for the life of the peer. */
  datatype Identity = Identity(session: string, pid: nat, spawnNonce: string, runtime: string)

  /** Checks the peer delegates: BLAKE3, strict path descent, the pinned policies and runtime version. */
  datatype Checks = Checks(
    runtimePinned: string -> bool,
    digest: string -> Digest,
    descends: (Path, Path) -> bool,
    modelAdmitted: (string, string) -> bool,
    pinned: string -> bool,
    configurationPinned: Configuration -> bool)

  datatype PendingCommand = PendingCommand(name: CommandName, resultSeen: bool, accepted: bool)
  datatype PendingPrompt = PendingPrompt(correlation: Correlation, abortAdmitted: bool)
  datatype ActiveDispose = ActiveDispose(correlation: Correlation, acceptedSequence: nat, usageSequence: Option<nat>)
  datatype ActiveTurn = ActiveTurn(
    correlation: Correlation, evidence: Evidence, latestUsage: Option<nat>, abortAdmitted: bool)

  datatype PeerState = PeerState(
    phase: Phase,
    expectedIn: nat,
    expectedOut: nat,
    adapterReadySeen: bool,
    fatalFrameSeen: bool,
    commands: map<Correlation, PendingCommand>,
    completed: set<Correlation>,
    create: Option<CreateSession>,
    createCandidate: Option<(Correlation, CreateSession)>,
    configuration: Option<Configuration>,
    pendingPrompt: Option<PendingPrompt>,
    forumCalls: set<ToolCall>,
    pendingDispose: Option<Correlation>,
    activeDispose: Option<ActiveDispose>,
    activeTurn: Option<ActiveTurn>,
    taskPromptAdmitted: bool,
    promptDigests: map<Correlation, Digest>,
    firstPrompt: Option<Digest>,
    settled: seq<TurnReceipt>,
    latest: Option<NormalizedUsage>)

  const NEW_PEER := PeerState(
    AwaitingAdapterReady, 1, 1, false, false, map[], {}, None, None, None, None, {}, None, None, None,
    false, map[], None, [], None)

  predicate Fenced(s: PeerState) {
    s.phase == Fatal && s.pendingPrompt.None? && s.activeTurn.None? && s.pendingDispose.None? && s.activeDispose.None?
  }

  function Fence(s: PeerState): (t: PeerState)
    ensures Fenced(t)
  {
    s.(phase := Fatal, pendingPrompt := None, pendingDispose := None, activeDispose := None, activeTurn := None)
  }

  function Refuse(s: PeerState, e: PeerError): (PeerState, Reply) {
    (Fence(s), Refused(e))
  }

  // ---------- inbound ----------

  function ProfileRefusal(checks: Checks, payload: CreateSession): Option<PeerError> {
    if !checks.descends(payload.authPath, payload.agentDirectory)
       || !checks.descends(payload.modelsPath, payload.agentDirectory)
       || checks.digest(payload.systemPrompt) != payload.systemPromptDigest
       || !checks.modelAdmitted(payload.profile.model, payload.profile.modelCatalog)
    then Some(ExecutionProfileDrift)
    else if !checks.pinned(payload.profile.modelCatalog) || !checks.pinned(payload.profile.settings)
       || !checks.pinned(payload.profile.forumContract)
    then Some(Protocol)
    else None
  }

  predicate PurposeFits(kind: SessionKind, purpose: PromptPurpose) {
    (kind.TaskAttempt? && purpose.TaskAssignment?) || (kind.RootAuthorityOffice? && purpose.OfficeTurn?)
  }

  predicate TakesInterjection(e: Evidence) {
    e.ActiveAttempt? || e.RetryLifecycle?
  }

  /** `validate_command_admission`: the reason a command is refused in this state, if it is. */
  function AdmissionRefusal(checks: Checks, s: PeerState, command: Command): Option<PeerError> {
    if s.pendingDispose.Some? then Some(InvalidTransition)
    else match command
      case Create(payload) =>
        if !s.adapterReadySeen || s.phase != Inert || s.create.Some? || s.createCandidate.Some? then Some(InvalidTransition)
        else ProfileRefusal(checks, payload)
      case Prompt(purpose, _) =>
        if s.create.None? || s.phase != Ready || s.activeTurn.Some? || s.pendingPrompt.Some?
           || !PurposeFits(s.create.value.profile.kind, purpose)
           || (s.create.value.profile.kind.TaskAttempt? && s.taskPromptAdmitted)
        then Some(InvalidTransition) else None
      case FollowUp | Steer =>
        if s.phase != Ready || s.activeTurn.None? || !TakesInterjection(s.activeTurn.value.evidence)
           || s.create.None? || !s.create.value.profile.kind.RootAuthorityOffice?
        then Some(InvalidTransition) else None
      case ForumToolResult(toolCall) =>
        if s.phase != Ready || s.activeTurn.None? || toolCall !in s.forumCalls then Some(InvalidTransition) else None
      case Abort | GetState =>
        if s.phase != Ready then Some(InvalidTransition) else None
      case Dispose =>
        if s.phase != Ready || s.pendingPrompt.Some? || s.activeTurn.Some? then Some(InvalidTransition) else None
  }

  /** An abort attaches to the running prompt while its outcome is still open. */
  predicate OutcomeOpen(e: Evidence) {
    e.AwaitingAgentStart? || e.ActiveAttempt? || e.RetryLifecycle?
  }

  function NoteTurnAbort(turn: ActiveTurn): ActiveTurn {
    if OutcomeOpen(turn.evidence) then turn.(abortAdmitted := true) else turn
  }

  function NoteAbort(s: PeerState): PeerState {
    if s.activeTurn.Some? then s.(activeTurn := Some(NoteTurnAbort(s.activeTurn.value)))
    else if s.pendingPrompt.Some? then s.(pendingPrompt := Some(s.pendingPrompt.value.(abortAdmitted := true)))
    else s
  }

  /** What validating a command already changes. */
  function Validated(s: PeerState, command: Command): PeerState {
    match command
    case Prompt(_, _) =>
      s.(taskPromptAdmitted := s.taskPromptAdmitted || (s.create.Some? && s.create.value.profile.kind.TaskAttempt?))
    case ForumToolResult(toolCall) => s.(forumCalls := s.forumCalls - {toolCall})
    case _ => s
  }

  /** What a command starts, once validated. */
  function Started(checks: Checks, s: PeerState, c: Correlation, command: Command): PeerState {
    match command
    case Create(payload) => s.(createCandidate := Some((c, payload)))
    case Prompt(_, text) =>
      s.(promptDigests := s.promptDigests[c := checks.digest(text)], pendingPrompt := Some(PendingPrompt(c, false)))
    case Abort => NoteAbort(s)
    case Dispose => s.(pendingDispose := Some(c))
    case _ => s
  }

  function Recorded(checks: Checks, s: PeerState, c: Correlation, command: Command): PeerState {
    var t := Started(checks, s, c, command);
    t.(commands := t.commands[c := PendingCommand(command.Name(), false, false)])
  }

  function RecordAdmission(checks: Checks, s: PeerState, c: Correlation, command: Command): PeerState {
    Recorded(checks, Validated(s, command), c, command)
  }

  function Admit(id: Identity, checks: Checks, s: PeerState, f: InboundFrame): (r: (PeerState, Reply))
    ensures r.1.Refused? ==> r.0 == Fence(s) || r.0 == Fence(s.(expectedIn := s.expectedIn + 1))
  {
    if s.phase == Fatal then Refuse(s, PeerIsFatal)
    else if f.session != id.session then Refuse(s, SessionIdentity)
    else if f.sequence != s.expectedIn then Refuse(s, InboundSequence)
    else
      var t := s.(expectedIn := s.expectedIn + 1);
      if f.correlation in s.commands || f.correlation in s.completed then Refuse(t, DuplicateCommandResult)
      else match AdmissionRefusal(checks, t, f.command)
        case Some(error) => Refuse(t, error)
        case None => (RecordAdmission(checks, t, f.correlation, f.command), Accepted(None))
  }

  // ---------- outbound ----------

  function ObserveAdapterReady(id: Identity, checks: Checks, s: PeerState, pid: nat, nonce: string, runtime: string): (r: (PeerState, Reply))
    ensures r.1.Refused? ==> r.0 == Fence(s)
  {
    if s.adapterReadySeen || s.phase != AwaitingAdapterReady
       || pid != id.pid || nonce != id.spawnNonce || runtime != id.runtime
    then Refuse(s, RuntimeIdentity)
    else if !checks.runtimePinned(runtime) then Refuse(s, Protocol)
    else (s.(adapterReadySeen := true, phase := Inert), Accepted(None))
  }

  function ObserveSessionReady(checks: Checks, s: PeerState, c: Option<Correlation>, configuration: Configuration): (r: (PeerState, Reply))
    ensures r.1.Refused? ==> r.0 == Fence(s)
  {
    if c.None? || c.value !in s.commands then Refuse(s, UnknownCorrelation)
    else
      var command := s.commands[c.value];
      if command.name != CreateSessionName || !command.resultSeen || s.phase != Creating then Refuse(s, InvalidTransition)
      else if s.create.None? then Refuse(s, ExecutionProfileDrift)
      else if !checks.configurationPinned(configuration) then Refuse(s, Protocol)
      else if configuration.profile != s.create.value.profile
           || !checks.descends(configuration.sessionFile, s.create.value.profile.sessionDirectory)
      then Refuse(s, ExecutionProfileDrift)
      else (s.(configuration := Some(configuration), phase := Ready), Accepted(None))
  }

  /** What an accepted result of an already matched command starts. */
  function BeginAccepted(s: PeerState, sequence: nat, c: Correlation, name: CommandName): (r: (PeerState, Reply))
    ensures r.1.Refused? ==> r.0 == Fence(s) || r.0 == Fence(s.(createCandidate := None))
    ensures r.1.Accepted? ==> r.1 == Accepted(None)
  {
    match name
    case CreateSessionName =>
      var t := s.(createCandidate := None);
      if s.createCandidate.None? || s.createCandidate.value.0 != c then Refuse(t, InvalidTransition)
      else (t.(create := Some(s.createCandidate.value.1), phase := Creating), Accepted(None))
    case PromptName =>
      if s.pendingPrompt.None? || s.pendingPrompt.value.correlation != c then Refuse(s, InvalidTransition)
      else
        var first :=
          if s.firstPrompt.Some? then s.firstPrompt
          else if c in s.promptDigests then Some(s.promptDigests[c])
          else None;
        (s.(pendingPrompt := None, firstPrompt := first,
            activeTurn := Some(ActiveTurn(c, AwaitingAgentStart, None, s.pendingPrompt.value.abortAdmitted))),
         Accepted(None))
    case DisposeName =>
      if s.pendingDispose != Some(c) then Refuse(s, InvalidTransition)
      else
        (s.(pendingDispose := None, phase := Closing, activeDispose := Some(ActiveDispose(c, sequence, None))),
         Accepted(None))
    case _ => (s, Accepted(None))
  }

  /** A rejected Dispose leaves the session without a way to close, so it is an error. */
  function RejectedResult(s: PeerState, c: Correlation, name: CommandName): (r: (PeerState, Reply))
    ensures r.1.Refused? ==> r.0 == Fence(s)
    ensures r.1.Accepted? ==> r.1 == Accepted(None)
  {
    if name == DisposeName then Refuse(s, InvalidTransition)
    else if name == PromptName then
      if s.pendingPrompt.None? || s.pendingPrompt.value.correlation != c then Refuse(s, InvalidTransition)
      else (s.(pendingPrompt := None), Accepted(None))
    else (s, Accepted(None))
  }

  function MarkResult(s: PeerState, c: Correlation, name: CommandName, accepted: bool): PeerState {
    s.(completed := s.completed + {c}, commands := s.commands[c := PendingCommand(name, true, accepted)])
  }

  function ObserveResult(s: PeerState, sequence: nat, c: Option<Correlation>, name: CommandName, accepted: bool): (r: (PeerState, Reply))
    ensures r.1.Refused? ==>
      || r.0 == Fence(s)
      || (c.Some? && c.value in s.commands && s.commands[c.value].name == name
          && (r.0 == Fence(MarkResult(s, c.value, name, accepted))
              || r.0 == Fence(MarkResult(s, c.value, name, accepted).(createCandidate := None))))
  {
    if c.None? || c.value !in s.commands then Refuse(s, UnknownCorrelation)
    else
      var command := s.commands[c.value];
      if command.resultSeen then Refuse(s, DuplicateCommandResult)
      else if command.name != name then Refuse(s, ResultCommandMismatch)
      else
        var t := MarkResult(s, c.value, name, accepted);
        if accepted then BeginAccepted(t, sequence, c.value, name) else RejectedResult(t, c.value, name)
  }

  function ObserveAgent(s: PeerState, sequence: nat, c: Option<Correlation>, event: AgentEvent): (r: (PeerState, Reply))
    ensures r.1.Refused? ==> r.0 == Fence(s)
  {
    if s.phase != Ready && s.phase != Closing then Refuse(s, InvalidTransition)
    else if s.activeTurn.None? then
      if c.Some? then Refuse(s, UnknownCorrelation) else (s, Accepted(None))
    else if c != Some(s.activeTurn.value.correlation) then Refuse(s, UnknownCorrelation)
    else match Observe(s.activeTurn.value.evidence, event, sequence)
      case Some(evidence) => (s.(activeTurn := Some(s.activeTurn.value.(evidence := evidence))), Accepted(None))
      case None => Refuse(s, MissingTerminalEvidence)
  }

  function ObserveForumCall(s: PeerState, c: Option<Correlation>, toolCall: ToolCall, toolName: ForumToolName): (r: (PeerState, Reply))
    ensures r.1.Refused? ==> r.0 == Fence(s)
  {
    if c.None? then Refuse(s, UnknownCorrelation)
    else if s.activeTurn.None? || c != Some(s.activeTurn.value.correlation)
         || s.configuration.None? || s.configuration.value.profile.toolProfile != ForumIsolatedV1
         || s.configuration.value.tools != [SocietyForumRead, SocietyForumPost]
         || toolCall in s.forumCalls
    then Refuse(s, InvalidTransition)
    else (s.(forumCalls := s.forumCalls + {toolCall}), Accepted(Some(ForumCalled(c.value, toolCall, toolName))))
  }

  predicate ChargesDuringTurn(name: CommandName) {
    name.PromptName? || name.FollowUpName? || name.SteerName? || name.AbortName? || name.GetStateName?
  }

  predicate ChargesOutsideTurn(name: CommandName) {
    name.AbortName? || name.GetStateName? || name.DisposeName?
  }

  /** The reason a usage snapshot is refused before it reaches the tracker. */
  function UsageRefusal(s: PeerState, sequence: nat, c: Option<Correlation>): Option<PeerError> {
    if c.None? || c.value !in s.commands then Some(UnknownCorrelation)
    else
      var command := s.commands[c.value];
      if !command.resultSeen || !command.accepted then Some(InvalidTransition)
      else if s.activeDispose.Some?
           && (s.phase != Closing || c.value != s.activeDispose.value.correlation || command.name != DisposeName
               || s.activeDispose.value.usageSequence.Some? || s.activeDispose.value.acceptedSequence + 1 != sequence)
      then Some(MissingTerminalEvidence)
      else if (if s.activeTurn.Some? then !ChargesDuringTurn(command.name) else !ChargesOutsideTurn(command.name))
      then Some(InvalidTransition)
      else None
  }

  /** A snapshot of the running prompt; a second terminal one is one too many. */
  function NoteTurnUsage(turn: ActiveTurn, sequence: nat, c: Correlation): Option<ActiveTurn> {
    if c != turn.correlation then Some(turn)
    else match turn.evidence
      case AwaitingSettledFrame(_, _, _) => None
      case AwaitingFinalPromptUsage(stop, settledSequence) =>
        Some(turn.(evidence := AwaitingSettledFrame(stop, settledSequence, sequence), latestUsage := Some(sequence)))
      case _ => Some(turn.(latestUsage := Some(sequence)))
  }

  /** The bookkeeping of a snapshot the tracker took. */
  function NoteUsage(s: PeerState, sequence: nat, c: Correlation): Option<PeerState> {
    var t :=
      if s.activeDispose.Some? then s.(activeDispose := Some(s.activeDispose.value.(usageSequence := Some(sequence))))
      else s;
    if t.activeTurn.None? then Some(t)
    else match NoteTurnUsage(t.activeTurn.value, sequence, c)
      case None => None
      case Some(turn) => Some(t.(activeTurn := Some(turn)))
  }

  function ObserveUsage(s: PeerState, sequence: nat, c: Option<Correlation>, usage: UsageObservation): (r: (PeerState, Reply))
    ensures r.1.Refused? ==>
      || r.0 == Fence(s)
      || (Track(s.latest, usage).Ok? && r.0 == Fence(s.(latest := Some(Track(s.latest, usage).value.0))))
  {
    match UsageRefusal(s, sequence, c)
    case Some(error) => Refuse(s, error)
    case None =>
      if usage.Unavailable? then (Fence(s), Accepted(Some(UsageUnavailable(usage.reason))))
      else match Track(s.latest, usage)
        case Err(error) => Refuse(s, CostRefused(error))
        case Ok((current, delta)) =>
          var t := s.(latest := Some(current));
          match NoteUsage(t, sequence, c.value)
          case None => Refuse(t, MissingTerminalEvidence)
          case Some(noted) => (noted, Accepted(Some(UsageCharged(delta))))
  }

  /** Terminal evidence for an observed outcome is closed: settled, then charged, then this frame. */
  predicate EvidenceClosed(turn: ActiveTurn, stop: StopReason, sequence: nat) {
    match turn.evidence
    case AwaitingSettledFrame(s, settledSequence, usageSequence) =>
      s == stop && settledSequence < usageSequence && usageSequence + 1 == sequence
    case _ => false
  }

  predicate UsageAdjacent(turn: ActiveTurn, sequence: nat) {
    turn.latestUsage.Some? && turn.latestUsage.value + 1 == sequence
  }

  function ObserveSettled(s: PeerState, sequence: nat, c: Option<Correlation>, classification: Classification, outcome: Outcome): (r: (PeerState, Reply))
    ensures r.1.Refused? ==> r.0 == Fence(s)
  {
    if c.None? then Refuse(s, UnknownCorrelation)
    else if s.activeTurn.None? then Refuse(s, InvalidTransition)
    else if c.value != s.activeTurn.value.correlation then Refuse(s, UnknownCorrelation)
    else
      var turn := s.activeTurn.value;
      match DispositionOf(classification, outcome, turn.abortAdmitted)
      case None => Refuse(s, MissingTerminalEvidence)
      case Some(disposition) =>
        if !UsageAdjacent(turn, sequence) || (outcome.Observed? && !EvidenceClosed(turn, outcome.stop, sequence))
        then Refuse(s, MissingTerminalEvidence)
        else
          var receipt := TurnReceipt(c.value, disposition, outcome);
          var t := s.(settled := s.settled + [receipt], activeTurn := None);
          (if disposition == ProtocolFailed then Fence(t) else t, Accepted(Some(TurnSettled(receipt))))
  }

  /** The transcript is the admitted session's, and its first prompt is the first accepted one. */
  predicate TranscriptMatches(id: Identity, checks: Checks, s: PeerState, r: TranscriptReceipt) {
    && s.create.Some? && s.configuration.Some?
    && r.session == id.session
    && r.sessionFile == s.configuration.value.sessionFile
    && checks.descends(r.sessionFile, s.create.value.profile.sessionDirectory)
    && match r
       case Materialized(_, _, headerCwd, firstPrompt) =>
         && headerCwd == s.create.value.profile.cwd
         && firstPrompt == (if s.firstPrompt.Some? then Verified(s.firstPrompt.value) else Absent)
       case UnmaterializedNoPrompt(_, _) => s.firstPrompt.None?
  }

  function ObserveDisposed(id: Identity, checks: Checks, s: PeerState, sequence: nat, c: Option<Correlation>, r: TranscriptReceipt): (out: (PeerState, Reply))
    ensures out.1.Refused? ==> out.0 == Fence(s)
  {
    if c.None? || c.value !in s.commands then Refuse(s, UnknownCorrelation)
    else
      var command := s.commands[c.value];
      if command.name != DisposeName || !command.resultSeen || !command.accepted || s.phase != Closing || s.activeTurn.Some?
      then Refuse(s, InvalidTransition)
      else if s.activeDispose.None? || s.activeDispose.value.correlation != c.value
           || s.activeDispose.value.usageSequence.None? || s.activeDispose.value.usageSequence.value + 1 != sequence
      then Refuse(s, MissingTerminalEvidence)
      else if !TranscriptMatches(id, checks, s, r) then Refuse(s, TranscriptReceiptMismatch)
      else (s.(activeDispose := None, phase := Disposed), Accepted(Some(SessionDisposed)))
  }

  function ObserveFatal(s: PeerState, failureCode: string): (r: (PeerState, Reply))
    ensures r.1.Refused? ==> r.0 == Fence(s)
  {
    if s.fatalFrameSeen then Refuse(s, PeerIsFatal)
    else (Fence(s.(fatalFrameSeen := true)), Accepted(Some(HostFatal(failureCode))))
  }

  /** A frame whose sequence number has just been consumed. */
  function ObserveEvent(id: Identity, checks: Checks, s: PeerState, f: OutboundFrame): (PeerState, Reply) {
    match f.event
    case AdapterReady(pid, nonce, runtime) => ObserveAdapterReady(id, checks, s, pid, nonce, runtime)
    case SessionReady(configuration) => ObserveSessionReady(checks, s, f.correlation, configuration)
    case CommandResult(name, accepted) => ObserveResult(s, f.sequence, f.correlation, name, accepted)
    case Agent(event) => ObserveAgent(s, f.sequence, f.correlation, event)
    case ForumToolCall(toolCall, toolName) => ObserveForumCall(s, f.correlation, toolCall, toolName)
    case UsageSnapshot(usage) => ObserveUsage(s, f.sequence, f.correlation, usage)
    case Settled(classification, outcome) => ObserveSettled(s, f.sequence, f.correlation, classification, outcome)
    case DisposedFrame(receipt) => ObserveDisposed(id, checks, s, f.sequence, f.correlation, receipt)
    case FatalFrame(code) => ObserveFatal(s, code)
  }

  function ObserveOutbound(id: Identity, checks: Checks, s: PeerState, f: OutboundFrame): (PeerState, Reply) {
    if s.phase == Fatal && !f.event.FatalFrame? then Refuse(s, PeerIsFatal)
    else if f.session != id.session then Refuse(s, SessionIdentity)
    else if f.sequence != s.expectedOut then Refuse(s, OutboundSequence)
    else ObserveEvent(id, checks, s.(expectedOut := s.expectedOut + 1), f)
  }

  /** Loss of the host's output is abnormal until it has disposed. */
  function ObserveEof(s: PeerState): (PeerState, Reply) {
    if s.phase == Disposed || s.phase == Fatal then (s, Accepted(None)) else Refuse(s, MissingTerminalEvidence)
  }
}
