/**
 * Whole runs of the boundary peer: the history of accepted frames in both directions, what one step
 * does to it, and the predicates that tie the peer's state to that history.
 */
module PeerRuns {
  import opened Wrappers
  import opened Binary64
  import opened Usage
  import opened PeerProtocol
  import opened PeerSpec

  /** One accepted frame, with what the peer reported of it. */
  datatype Entry =
    | In(inbound: InboundFrame)
    | Out(outbound: OutboundFrame, observation: Option<Observation>)

  type History = seq<Entry>

  /** Everything that can reach the peer; a line that does not decode fences it. */
  datatype Event = Inbound(inbound: InboundFrame) | Outbound(outbound: OutboundFrame) | MalformedLine | EndOfOutput

  datatype Run = Run(s: PeerState, h: History)

  function Next(id: Identity, checks: Checks, r: Run, e: Event): Run {
    match e
    case Inbound(f) =>
      var (s, reply) := Admit(id, checks, r.s, f);
      Run(s, if reply.Accepted? then r.h + [In(f)] else r.h)
    case Outbound(f) =>
      var (s, reply) := ObserveOutbound(id, checks, r.s, f);
      Run(s, if reply.Accepted? then r.h + [Out(f, reply.observation)] else r.h)
    case MalformedLine => Run(Fence(r.s), r.h)
    case EndOfOutput => Run(ObserveEof(r.s).0, r.h)
  }

  const NEW_RUN := Run(NEW_PEER, [])

  ghost function Execute(id: Identity, checks: Checks, events: seq<Event>): Run {
    if events == [] then NEW_RUN
    else Next(id, checks, Execute(id, checks, events[..|events| - 1]), events[|events| - 1])
  }

  // ---------- reading the history ----------

  ghost predicate AdmitsPrompt(e: Entry, c: Correlation) {
    e.In? && e.inbound.correlation == c && e.inbound.command.Prompt?
  }

  ghost predicate AdmitsAbort(e: Entry) {
    e.In? && e.inbound.command.Abort?
  }

  ghost predicate AdmitsDispose(e: Entry, c: Correlation) {
    e.In? && e.inbound.correlation == c && e.inbound.command.Dispose?
  }

  ghost predicate IsResult(e: Entry, c: Correlation, name: CommandName, accepted: bool) {
    e.Out? && e.outbound.correlation == Some(c) && e.outbound.event == CommandResult(name, accepted)
  }

  ghost predicate AcceptsPrompt(e: Entry) {
    e.Out? && e.outbound.event == CommandResult(PromptName, true)
  }

  ghost predicate IsAgent(e: Entry) {
    e.Out? && e.outbound.event.Agent?
  }

  ghost predicate IsKnownUsage(e: Entry, c: Correlation) {
    e.Out? && e.outbound.correlation == Some(c) && e.outbound.event.UsageSnapshot? && e.outbound.event.usage.Known?
  }

  /** The lifecycle facts among the agent events; the rest is sealed evidence only. */
  datatype Mark = Start | RetryingEnd | FinalEnd(stop: StopReason) | AllSettled

  ghost function MarksOf(e: Entry): seq<Mark> {
    if !IsAgent(e) then []
    else match e.outbound.event.event
      case AgentStart => [Start]
      case AgentEnd(messages, willRetry) =>
        if willRetry then [RetryingEnd]
        else if FinalStop(messages).Some? then [FinalEnd(FinalStop(messages).value)]
        else []
      case AgentSettled => [AllSettled]
      case OtherProjected => []
  }

  /** The lifecycle word of the entries from `lo` up to `hi`. */
  ghost function Word(h: History, lo: nat, hi: nat): seq<Mark>
    requires hi <= |h|
  {
    if hi <= lo then [] else Word(h, lo, hi - 1) + MarksOf(h[hi - 1])
  }

  /** A start, then any number of retrying ends, each of which may announce a restart. */
  ghost predicate AttemptWord(w: seq<Mark>) {
    && w != []
    && (if |w| == 1 then w[0] == Start
        else
          var before := w[..|w| - 1];
          && AttemptWord(before)
          && (w[|w| - 1] == RetryingEnd || (w[|w| - 1] == Start && before[|before| - 1] == RetryingEnd)))
  }

  // ---------- the certificate of one turn ----------

  /** Positions in the history of the frames that back a turn. */
  datatype Positions = Positions(admitted: nat, accepted: nat, ended: nat, settled: nat, charged: nat, abort: nat)

  /** The prompt was admitted, then accepted, and no other prompt was accepted before `hi`. */
  ghost predicate Opened(h: History, c: Correlation, p: Positions, hi: nat)
    requires hi <= |h|
  {
    && p.admitted < p.accepted < hi
    && AdmitsPrompt(h[p.admitted], c)
    && IsResult(h[p.accepted], c, PromptName, true)
    && (forall i :: p.accepted < i < hi ==> !AcceptsPrompt(h[i]))
    && (forall i :: p.accepted < i < hi && IsAgent(h[i]) ==> h[i].outbound.correlation == Some(c))
  }

  /** One non-retrying end, after a well-formed series of attempts. */
  ghost predicate EndedWith(h: History, p: Positions, stop: StopReason, hi: nat)
    requires hi <= |h|
  {
    && p.accepted < p.ended < hi
    && MarksOf(h[p.ended]) == [FinalEnd(stop)]
    && AttemptWord(Word(h, p.accepted + 1, p.ended))
  }

  /** Then `agent_settled`, with no lifecycle fact in between and no agent event of any kind after. */
  ghost predicate SettledAfterEnd(h: History, p: Positions, hi: nat)
    requires hi <= |h|
  {
    && p.ended < p.settled < hi
    && MarksOf(h[p.settled]) == [AllSettled]
    && Word(h, p.ended + 1, p.settled) == []
    && forall i :: p.settled < i < hi ==> !IsAgent(h[i])
  }

  ghost predicate ChargedAfterSettled(h: History, c: Correlation, p: Positions, hi: nat)
    requires hi <= |h|
  {
    p.settled < p.charged < hi && IsKnownUsage(h[p.charged], c)
  }

  ghost predicate AbortedBefore(h: History, p: Positions, limit: nat)
    requires limit <= |h|
  {
    p.admitted < p.abort < limit && AdmitsAbort(h[p.abort])
  }

  /** An abort attached to the turn was admitted before its outcome was fixed. */
  ghost predicate AbortBacked(h: History, t: ActiveTurn, p: Positions) {
    t.abortAdmitted ==>
      if OutcomeOpen(t.evidence) then AbortedBefore(h, p, |h|) else p.ended <= |h| && AbortedBefore(h, p, p.ended)
  }

  /** The lifecycle so far is the one the evidence phase stands for. */
  ghost predicate EvidenceBacked(h: History, t: ActiveTurn, p: Positions) {
    match t.evidence
    case AwaitingAgentStart => Word(h, p.accepted + 1, |h|) == []
    case ActiveAttempt =>
      var w := Word(h, p.accepted + 1, |h|);
      AttemptWord(w) && w[|w| - 1] == Start
    case RetryLifecycle =>
      var w := Word(h, p.accepted + 1, |h|);
      AttemptWord(w) && w[|w| - 1] == RetryingEnd
    case AwaitingAgentSettled(stop) =>
      EndedWith(h, p, stop, |h|) && Word(h, p.ended + 1, |h|) == []
    case AwaitingFinalPromptUsage(stop, q) =>
      EndedWith(h, p, stop, |h|) && SettledAfterEnd(h, p, |h|) && h[p.settled].outbound.sequence == q
    case AwaitingSettledFrame(stop, q, u) =>
      && EndedWith(h, p, stop, |h|) && SettledAfterEnd(h, p, |h|) && h[p.settled].outbound.sequence == q
      && ChargedAfterSettled(h, t.correlation, p, |h|) && h[p.charged].outbound.sequence == u
      && t.latestUsage == Some(u)
  }

  /** The history backs the running turn exactly as far as its evidence phase says. */
  ghost predicate Backed(h: History, t: ActiveTurn, p: Positions) {
    Opened(h, t.correlation, p, |h|) && AbortBacked(h, t, p) && EvidenceBacked(h, t, p)
  }

  /** Everything a settled receipt with an observed outcome vouches for, with `l` its Settled frame. */
  ghost predicate Certifies(h: History, r: TurnReceipt, p: Positions, l: nat) {
    && l < |h|
    && r.outcome.Observed?
    && h[l].Out? && h[l].outbound.correlation == Some(r.correlation)
    && h[l].outbound.event.Settled? && h[l].outbound.event.outcome == r.outcome
    && Opened(h, r.correlation, p, l)
    && EndedWith(h, p, r.outcome.stop, l)
    && SettledAfterEnd(h, p, l)
    && ChargedAfterSettled(h, r.correlation, p, l)
    && h[p.charged].outbound.sequence + 1 == h[l].outbound.sequence
    && (forall i :: p.charged < i < l ==> h[i].In?)
    && (r.disposition.AbortedTurn? && r.outcome.stop.Stop? ==> AbortedBefore(h, p, p.ended))
  }

  // ---------- the certificate of a disposal ----------

  datatype DisposePositions = DisposePositions(admitted: nat, accepted: nat, charged: nat)

  /** The Dispose is the last inbound frame ever admitted. */
  ghost predicate DisposeAdmitted(h: History, c: Correlation, d: DisposePositions) {
    && d.admitted < |h| && AdmitsDispose(h[d.admitted], c)
    && forall i :: d.admitted < i < |h| ==> !h[i].In?
  }

  ghost predicate DisposeAccepted(h: History, c: Correlation, d: DisposePositions, sequence: int) {
    && DisposeAdmitted(h, c, d)
    && d.admitted < d.accepted < |h|
    && IsResult(h[d.accepted], c, DisposeName, true)
    && h[d.accepted].outbound.sequence == sequence
  }

  ghost predicate DisposeCharged(h: History, c: Correlation, d: DisposePositions, sequence: int) {
    && DisposeAccepted(h, c, d, sequence)
    && d.accepted < d.charged < |h|
    && IsKnownUsage(h[d.charged], c)
    && h[d.charged].outbound.sequence == sequence + 1
  }

  ghost predicate DisposeBacked(h: History, a: ActiveDispose, d: DisposePositions) {
    if a.usageSequence.None? then DisposeAccepted(h, a.correlation, d, a.acceptedSequence)
    else a.usageSequence.value == a.acceptedSequence + 1 && DisposeCharged(h, a.correlation, d, a.acceptedSequence)
  }

  /** `a` admits and `p` accepts the first prompt accepted before `hi`. */
  ghost predicate FirstAccepted(h: History, a: nat, p: nat, hi: nat)
    requires hi <= |h|
  {
    && a < p < hi && AcceptsPrompt(h[p]) && h[p].outbound.correlation.Some?
    && AdmitsPrompt(h[a], h[p].outbound.correlation.value)
    && forall i :: 0 <= i < p ==> !AcceptsPrompt(h[i])
  }

  ghost predicate NoneAccepted(h: History, hi: nat)
    requires hi <= |h|
  {
    forall i :: 0 <= i < hi ==> !AcceptsPrompt(h[i])
  }

  ghost predicate FirstPromptIs(checks: Checks, h: History, first: Option<Digest>, hi: nat)
    requires hi <= |h|
  {
    match first
    case None => NoneAccepted(h, hi)
    case Some(d) => exists a: nat, p: nat :: FirstAccepted(h, a, p, hi) && d == checks.digest(h[a].inbound.command.text)
  }

  /** The last three accepted outbound frames up to `l` are the accepted Dispose result, a known usage
      and the Disposed frame, consecutive and under one correlation; the transcript verifies the
      first accepted prompt, or nothing when none was accepted. */
  ghost predicate CertifiesDisposal(checks: Checks, h: History, d: DisposePositions, l: nat) {
    && l < |h| && h[l].Out? && h[l].outbound.event.DisposedFrame? && h[l].outbound.correlation.Some?
    && DisposeCharged(h, h[l].outbound.correlation.value, d, h[l].outbound.sequence - 2)
    && d.charged < l
    && (forall i :: d.accepted < i < l && i != d.charged ==> !h[i].Out?)
    && match h[l].outbound.event.receipt
       case Materialized(_, _, _, Absent) => FirstPromptIs(checks, h, None, l)
       case Materialized(_, _, _, Verified(digest)) => FirstPromptIs(checks, h, Some(digest), l)
       case UnmaterializedNoPrompt(_, _) => FirstPromptIs(checks, h, None, l)
  }

  // ---------- counting ----------

  ghost function CountAccepted(h: History): nat {
    if h == [] then 0 else CountAccepted(h[..|h| - 1]) + (if AcceptsPrompt(h[|h| - 1]) then 1 else 0)
  }

  ghost function CountPrompts(h: History): nat {
    if h == [] then 0
    else
      var last := h[|h| - 1];
      CountPrompts(h[..|h| - 1]) + (if last.In? && last.inbound.command.Prompt? then 1 else 0)
  }

  /** All usage deltas the peer has reported. */
  ghost function Charged(h: History): Charge {
    if h == [] then NO_CHARGE
    else
      var last := h[|h| - 1];
      var before := Charged(h[..|h| - 1]);
      if last.Out? && last.observation.Some? && last.observation.value.UsageCharged?
      then AddDelta(before, last.observation.value.delta)
      else before
  }

  // ---------- the invariant ----------

  /** Phases and slots: at most one of the four execution slots is taken, none once fatal. */
  ghost predicate SlotsMatchPhase(s: PeerState) {
    && (s.phase == Fatal ==> s.pendingPrompt.None? && s.activeTurn.None? && s.pendingDispose.None? && s.activeDispose.None?)
    && (s.pendingPrompt.Some? ==> s.phase == Ready && s.activeTurn.None? && s.pendingDispose.None?)
    && (s.activeTurn.Some? ==> s.phase == Ready && s.pendingDispose.None?)
    && (s.pendingDispose.Some? ==> s.phase == Ready)
    && (s.activeDispose.Some? <==> s.phase == Closing)
    && (s.create.Some? ==> s.createCandidate.None?)
    && (s.phase == AwaitingAdapterReady || s.phase == Inert ==> s.create.None?)
    && (s.phase == Creating || s.phase == Ready || s.phase == Closing || s.phase == Disposed ==> s.create.Some?)
    && (s.taskPromptAdmitted ==> s.create.Some? && s.create.value.profile.kind.TaskAttempt?)
  }

  ghost predicate IsPending(s: PeerState, c: Correlation, name: CommandName) {
    c in s.commands && s.commands[c] == PendingCommand(name, false, false)
  }

  /** The correlation table, the completed set and the slots agree. */
  ghost predicate TableMatchesSlots(s: PeerState) {
    && (forall c :: c in s.completed <==> c in s.commands && s.commands[c].resultSeen)
    && (s.pendingPrompt.Some? ==>
          IsPending(s, s.pendingPrompt.value.correlation, PromptName)
          && s.pendingPrompt.value.correlation in s.promptDigests)
    && (s.pendingDispose.Some? ==> IsPending(s, s.pendingDispose.value, DisposeName))
    && (s.activeTurn.Some? ==> s.activeTurn.value.correlation in s.completed)
    && (forall r :: r in s.settled ==> r.correlation in s.completed)
    && (s.activeTurn.Some? ==> forall r :: r in s.settled ==> r.correlation != s.activeTurn.value.correlation)
    && (forall i, j :: 0 <= i < j < |s.settled| ==> s.settled[i].correlation != s.settled[j].correlation)
  }

  /** Accepted outbound frames carry strictly increasing sequence numbers below the expected one. */
  ghost predicate SequencesIncrease(s: PeerState, h: History) {
    && (forall i :: 0 <= i < |h| && h[i].Out? ==> h[i].outbound.sequence < s.expectedOut)
    && (forall i, j :: 0 <= i < j < |h| && h[i].Out? && h[j].Out? ==> h[i].outbound.sequence < h[j].outbound.sequence)
  }

  /** Every command in the table was admitted, under its own correlation, and prompts keep their text. */
  ghost predicate CommandsAdmitted(checks: Checks, s: PeerState, h: History) {
    && (forall c :: c in s.commands ==>
          exists i :: 0 <= i < |h| && h[i].In? && h[i].inbound.correlation == c
                      && h[i].inbound.command.Name() == s.commands[c].name)
    && (forall i :: 0 <= i < |h| && h[i].In? ==> h[i].inbound.correlation in s.commands)
    && (forall i :: 0 <= i < |h| && h[i].In? && h[i].inbound.command.Prompt? ==>
          h[i].inbound.correlation in s.promptDigests
          && s.promptDigests[h[i].inbound.correlation] == checks.digest(h[i].inbound.command.text))
  }

  ghost predicate PromptsCounted(s: PeerState, h: History) {
    && (s.phase != Fatal ==> CountAccepted(h) == |s.settled| + (if s.activeTurn.Some? then 1 else 0))
    && CountAccepted(h) >= |s.settled|
    && (s.create.None? ==> CountPrompts(h) == 0)
    && (s.create.Some? && s.create.value.profile.kind.TaskAttempt? ==> CountPrompts(h) == if s.taskPromptAdmitted then 1 else 0)
  }

  ghost predicate ChargesConserved(s: PeerState, h: History) {
    && AtMost(Charged(h), ChargeOf(s.latest))
    && (s.phase != Fatal ==> Charged(h) == ChargeOf(s.latest))
    && (s.latest.Some? ==> WellFormed(s.latest.value))
  }

  ghost predicate TurnsCertified(s: PeerState, h: History) {
    && (s.pendingPrompt.Some? && s.pendingPrompt.value.abortAdmitted ==>
          exists a, b :: 0 <= a < b < |h| && AdmitsPrompt(h[a], s.pendingPrompt.value.correlation) && AdmitsAbort(h[b]))
    && (s.activeTurn.Some? ==> exists p :: Backed(h, s.activeTurn.value, p))
    && (forall k :: 0 <= k < |s.settled| && s.settled[k].outcome.Observed? ==> exists p, l :: Certifies(h, s.settled[k], p, l))
  }

  ghost predicate DisposalCertified(checks: Checks, s: PeerState, h: History) {
    && FirstPromptIs(checks, h, s.firstPrompt, |h|)
    && (s.pendingDispose.Some? ==> exists d :: DisposeAdmitted(h, s.pendingDispose.value, d))
    && (s.activeDispose.Some? ==> exists d :: DisposeBacked(h, s.activeDispose.value, d))
    && (s.phase == Disposed ==> exists d, l :: CertifiesDisposal(checks, h, d, l))
  }

  ghost predicate Invariant(checks: Checks, r: Run) {
    && SlotsMatchPhase(r.s)
    && TableMatchesSlots(r.s)
    && SequencesIncrease(r.s, r.h)
    && CommandsAdmitted(checks, r.s, r.h)
    && PromptsCounted(r.s, r.h)
    && ChargesConserved(r.s, r.h)
    && TurnsCertified(r.s, r.h)
    && DisposalCertified(checks, r.s, r.h)
  }
}
