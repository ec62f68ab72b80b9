/**
 * The decoded frames the boundary peer exchanges with one host process, and the turn-evidence
 * machine that certifies a prompt's outcome. Values that the peer only compares are strings.
 */
module PeerProtocol {
  import opened Wrappers
  import opened Binary64
  import opened Usage

  type Correlation = string
  type Digest = string
  type Path = string
  type ToolCall = string

  /** `BoundarySequence`: positive and at most 2^53 - 1. */
  type Sequence = n: int | 1 <= n <= 9_007_199_254_740_991 witness 1

  datatype SessionKind = TaskAttempt | RootAuthorityOffice
  datatype PromptPurpose = TaskAssignment | OfficeTurn
  datatype ToolProfile = ReadExecuteV1 | ReadWriteV1 | WorkspaceMutationV1 | WorkspaceIsolatedV1 | ForumIsolatedV1
  datatype ToolName = Read | Bash | Edit | Write | Grep | Find | Ls | SocietyForumRead | SocietyForumPost
  datatype ForumToolName = ForumRead | ForumPost

  /** The part of a session's configuration that its readiness report must repeat exactly. */
  datatype SessionProfile = SessionProfile(
    kind: SessionKind, cwd: Path, sessionDirectory: Path, model: string, modelCatalog: string,
    toolProfile: ToolProfile, settings: string, forumContract: string)

  datatype CreateSession = CreateSession(
    profile: SessionProfile, agentDirectory: Path, authPath: Path, modelsPath: Path,
    systemPrompt: string, systemPromptDigest: Digest)

  datatype Configuration = Configuration(profile: SessionProfile, sessionFile: Path, tools: seq<ToolName>)

  datatype CommandName = CreateSessionName | PromptName | FollowUpName | SteerName | AbortName | GetStateName | DisposeName | ForumToolResultName

  datatype Command =
    | Create(payload: CreateSession)
    | Prompt(purpose: PromptPurpose, text: string)
    | FollowUp
    | Steer
    | Abort
    | GetState
    | Dispose
    | ForumToolResult(toolCall: ToolCall)
  {
    function Name(): CommandName {
      match this
      case Create(_) => CreateSessionName
      case Prompt(_, _) => PromptName
      case FollowUp => FollowUpName
      case Steer => SteerName
      case Abort => AbortName
      case GetState => GetStateName
      case Dispose => DisposeName
      case ForumToolResult(_) => ForumToolResultName
    }
  }

  datatype InboundFrame = InboundFrame(
    sequence: Sequence, session: string, correlation: Correlation, command: Command)

  datatype StopReason = Stop | Length | Error | Aborted

  /** A message of an `agent_end` record, as far as the peer looks into it. */
  datatype Message = NotAnObject | Object(role: Option<string>, stopReason: Option<string>)

  datatype AgentEvent =
    | AgentStart
    | AgentEnd(messages: seq<Message>, willRetry: bool)
    | AgentSettled
    | OtherProjected

  datatype Classification = ClassCompleted | ClassLength | ClassError | ClassAborted | ClassFailed | ClassProtocolFailed
  datatype OutcomeUnavailable = SdkPromiseRejected | MissingFinalAssistantOutcome
  datatype Outcome = Observed(stop: StopReason) | Unobserved(why: OutcomeUnavailable)
  datatype Disposition = Completed | LengthLimited | Errored | AbortedTurn | Failed | ProtocolFailed

  datatype TurnReceipt = TurnReceipt(correlation: Correlation, disposition: Disposition, outcome: Outcome)

  datatype FirstPrompt = Absent | Verified(digest: Digest)

  datatype TranscriptReceipt =
    | Materialized(session: string, sessionFile: Path, headerCwd: Path, firstPrompt: FirstPrompt)
    | UnmaterializedNoPrompt(session: string, sessionFile: Path)

  datatype OutboundEvent =
    | AdapterReady(pid: nat, spawnNonce: string, runtime: string)
    | SessionReady(configuration: Configuration)
    | CommandResult(command: CommandName, accepted: bool)
    | Agent(event: AgentEvent)
    | ForumToolCall(toolCall: ToolCall, toolName: ForumToolName)
    | UsageSnapshot(usage: UsageObservation)
    | Settled(classification: Classification, outcome: Outcome)
    | DisposedFrame(receipt: TranscriptReceipt)
    | FatalFrame(failureCode: string)

  datatype OutboundFrame = OutboundFrame(
    sequence: Sequence, session: string, correlation: Option<Correlation>, event: OutboundEvent)

  datatype PeerError =
    | Protocol
    | CostRefused(error: CostError)
    | InboundSequence
    | OutboundSequence
    | SessionIdentity
    | RuntimeIdentity
    | UnknownCorrelation
    | DuplicateCommandResult
    | ResultCommandMismatch
    | InvalidTransition
    | ExecutionProfileDrift
    | TranscriptReceiptMismatch
    | MissingTerminalEvidence
    | PeerIsFatal

  // ---------- the final assistant stop reason ----------

  function StopReasonOf(text: Option<string>): Option<StopReason> {
    match text
    case Some("stop") => Some(Stop)
    case Some("length") => Some(Length)
    case Some("error") => Some(Error)
    case Some("aborted") => Some(Aborted)
    case _ => None
  }

  predicate IsAssistant(m: Message) {
    m.Object? && m.role == Some("assistant")
  }

  /** Index `i` holds the last assistant message. */
  predicate LastAssistant(messages: seq<Message>, i: int) {
    0 <= i < |messages| && IsAssistant(messages[i])
    && forall j :: i < j < |messages| ==> !IsAssistant(messages[j])
  }

  /** `final_assistant_stop_reason`: the reverse scan stops at the last assistant message, whatever
      its stop reason says. */
  method FinalAssistantStopReason(messages: seq<Message>) returns (r: Option<StopReason>)
    ensures r == FinalStop(messages)
  {
    var i := |messages|;
    while i > 0
      invariant 0 <= i <= |messages|
      invariant forall j :: i <= j < |messages| ==> !IsAssistant(messages[j])
    {
      i := i - 1;
      if IsAssistant(messages[i]) {
        FinalStopAtLastAssistant(messages, i);
        return StopReasonOf(messages[i].stopReason);
      }
    }
    NoAssistantNoStop(messages);
    return None;
  }

  function FinalStop(messages: seq<Message>): Option<StopReason> {
    if messages == [] then None
    else
      var last := messages[|messages| - 1];
      if IsAssistant(last) then StopReasonOf(last.stopReason) else FinalStop(messages[..|messages| - 1])
  }

  lemma {:induction false} FinalStopAtLastAssistant(messages: seq<Message>, i: int)
    requires LastAssistant(messages, i)
    ensures FinalStop(messages) == StopReasonOf(messages[i].stopReason)
  {
    if i < |messages| - 1 { FinalStopAtLastAssistant(messages[..|messages| - 1], i); }
  }

  lemma {:induction false} NoAssistantNoStop(messages: seq<Message>)
    requires forall j :: 0 <= j < |messages| ==> !IsAssistant(messages[j])
    ensures FinalStop(messages) == None
  {
    if messages != [] { NoAssistantNoStop(messages[..|messages| - 1]); }
  }

  // ---------- turn evidence ----------

  datatype Evidence =
    | AwaitingAgentStart
    | ActiveAttempt
    | RetryLifecycle
    | AwaitingAgentSettled(stop: StopReason)
    | AwaitingFinalPromptUsage(stop: StopReason, settledSequence: nat)
    | AwaitingSettledFrame(stop: StopReason, settledSequence: nat, usageSequence: nat)

  /** `observe_turn_evidence`: the next evidence phase, or missing terminal evidence. */
  function Observe(e: Evidence, event: AgentEvent, sequence: nat): Option<Evidence> {
    match event
    case AgentStart =>
      if e.AwaitingAgentStart? || e.RetryLifecycle? then Some(ActiveAttempt) else None
    case AgentEnd(messages, willRetry) =>
      if !e.ActiveAttempt? && !e.RetryLifecycle? then None
      else if willRetry then Some(RetryLifecycle)
      else if FinalStop(messages).Some? then Some(AwaitingAgentSettled(FinalStop(messages).value))
      else None
    case AgentSettled =>
      if e.AwaitingAgentSettled? then Some(AwaitingFinalPromptUsage(e.stop, sequence)) else None
    case OtherProjected =>
      if e.AwaitingFinalPromptUsage? || e.AwaitingSettledFrame? then None else Some(e)
  }

  /** The disposition a settlement classification and outcome agree on, if they do. */
  function DispositionOf(classification: Classification, outcome: Outcome, abortAdmitted: bool): Option<Disposition> {
    match (classification, outcome)
    case (ClassCompleted, Observed(Stop)) => Some(Completed)
    case (ClassLength, Observed(Length)) => Some(LengthLimited)
    case (ClassError, Observed(Error)) => Some(Errored)
    case (ClassAborted, Observed(Aborted)) => Some(AbortedTurn)
    case (ClassAborted, Observed(Stop)) => if abortAdmitted then Some(AbortedTurn) else None
    case (ClassFailed, Unobserved(SdkPromiseRejected)) => Some(Failed)
    case (ClassProtocolFailed, Unobserved(MissingFinalAssistantOutcome)) => Some(ProtocolFailed)
    case _ => None
  }
}
