/** What holds of every run of the boundary peer. */
module PeerTheorems {
  import opened Wrappers
  import opened Binary64
  import opened Usage
  import opened PeerProtocol
  import opened PeerSpec
  import opened PeerRuns
  import opened PeerInvariants
  import opened PeerSteps
  import opened PeerAdmissions

  // ---------- terminal evidence ----------

  /** Every settled receipt with an observed outcome is backed by the frames of its own prompt. */
  lemma TerminalCertificate(id: Identity, checks: Checks, events: seq<Event>, k: nat)
    requires k < |Execute(id, checks, events).s.settled|
    requires Execute(id, checks, events).s.settled[k].outcome.Observed?
    ensures var r := Execute(id, checks, events);
      exists p, l :: Certifies(r.h, r.s.settled[k], p, l)
  {
    InvariantHolds(id, checks, events);
  }

  lemma BackedGuards(s: PeerState, h: History, turn: ActiveTurn, p: Positions, stop: StopReason, sequence: nat)
    requires SequencesIncrease(s, h) && Backed(h, turn, p)
    ensures EvidenceClosed(turn, stop, sequence) && UsageAdjacent(turn, sequence)
       <==> turn.evidence.AwaitingSettledFrame? && turn.evidence.stop == stop && turn.evidence.usageSequence + 1 == sequence
  {
    hide AttemptWord, Word, AbortedBefore, Opened, EndedWith;
  }

  /** In every run the usage-adjacency guard and the order guard of a settlement are already implied:
      an observed outcome is settled exactly when the evidence awaits this frame with that stop reason
      and the final usage is the frame before. */
  lemma SettlementGuardsImplied(id: Identity, checks: Checks, events: seq<Event>, stop: StopReason, sequence: nat)
    requires Execute(id, checks, events).s.activeTurn.Some?
    ensures var turn := Execute(id, checks, events).s.activeTurn.value;
      (EvidenceClosed(turn, stop, sequence) && UsageAdjacent(turn, sequence)
       <==> turn.evidence.AwaitingSettledFrame? && turn.evidence.stop == stop && turn.evidence.usageSequence + 1 == sequence)
  {
    hide SlotsMatchPhase, TableMatchesSlots, CommandsAdmitted, PromptsCounted, ChargesConserved, DisposalCertified, SequencesIncrease,
         Certifies, Backed, Execute, EvidenceClosed, UsageAdjacent;
    var r := Execute(id, checks, events);
    InvariantHolds(id, checks, events);
    var p :| Backed(r.h, r.s.activeTurn.value, p);
    BackedGuards(r.s, r.h, r.s.activeTurn.value, p, stop, sequence);
  }

  /** A turn that stopped normally is called aborted only if an Abort was admitted after its prompt
      and before its one non-retrying end. */
  lemma AbortInterleaving(id: Identity, checks: Checks, events: seq<Event>, k: nat)
    requires k < |Execute(id, checks, events).s.settled|
    requires Execute(id, checks, events).s.settled[k].disposition == AbortedTurn
    requires Execute(id, checks, events).s.settled[k].outcome == Observed(Stop)
    ensures var r := Execute(id, checks, events);
      exists a, b, e :: 0 <= a < b < e < |r.h| && AdmitsPrompt(r.h[a], r.s.settled[k].correlation)
        && AdmitsAbort(r.h[b]) && MarksOf(r.h[e]) == [FinalEnd(Stop)]
        && r.h[e].outbound.correlation == Some(r.s.settled[k].correlation)
  {
    hide Execute, Certifies, MarksOf, AdmitsPrompt, AdmitsAbort;
    TerminalCertificate(id, checks, events, k);
    var r := Execute(id, checks, events);
    var p, l :| Certifies(r.h, r.s.settled[k], p, l);
    FinalEndOfTurn(r.h, r.s.settled[k], p, l);
  }

  lemma FinalEndOfTurn(h: History, r: TurnReceipt, p: Positions, l: nat)
    requires Certifies(h, r, p, l) && r.disposition == AbortedTurn && r.outcome == Observed(Stop)
    ensures p.admitted < p.abort < p.ended < |h|
    ensures AdmitsPrompt(h[p.admitted], r.correlation) && AdmitsAbort(h[p.abort])
    ensures MarksOf(h[p.ended]) == [FinalEnd(Stop)] && h[p.ended].outbound.correlation == Some(r.correlation)
  {
    hide AttemptWord, Word;
    assert IsAgent(h[p.ended]);
  }

  // ---------- disposal ----------

  /** The history ends in a certified disposal, and nothing was admitted after its Dispose. */
  ghost predicate EndsDisposed(checks: Checks, h: History) {
    |h| > 0 && exists d :: CertifiesDisposal(checks, h, d, |h| - 1) && forall i :: d.admitted < i < |h| ==> !h[i].In?
  }

  /** The step that enters Disposed closes the chain of `CertifiesDisposal` with no prompt outstanding. */
  lemma DisposeChain(id: Identity, checks: Checks, events: seq<Event>, e: Event)
    requires Execute(id, checks, events).s.phase != Disposed
    requires Next(id, checks, Execute(id, checks, events), e).s.phase == Disposed
    ensures var r := Next(id, checks, Execute(id, checks, events), e);
      EndsDisposed(checks, r.h) && r.s.pendingPrompt.None? && r.s.activeTurn.None?
  {
    hide Execute, Invariant, EndsDisposed, Next;
    InvariantHolds(id, checks, events);
    EntersDisposed(id, checks, Execute(id, checks, events), e);
  }

  lemma EntersDisposed(id: Identity, checks: Checks, r: Run, e: Event)
    requires Invariant(checks, r) && r.s.phase != Disposed && Next(id, checks, r, e).s.phase == Disposed
    ensures var t := Next(id, checks, r, e);
      EndsDisposed(checks, t.h) && t.s.pendingPrompt.None? && t.s.activeTurn.None?
  {
    hide CommandsAdmitted, TableMatchesSlots, PromptsCounted, ChargesConserved, TurnsCertified, DisposalCertified, EndsDisposed, SequencesIncrease,
         ObserveEvent, AdmissionRefusal, RecordAdmission;
    match e
    case Inbound(f) =>
      AdmissionPhaseKept(id, checks, r.s, f);
    case Outbound(f) =>
      var s := r.s.(expectedOut := r.s.expectedOut + 1);
      CountersKeep(checks, r.s, r.h, r.s.expectedIn, s.expectedOut);
      ArrivesNext(r.s, r.h, f);
      EventPhase(id, checks, s, f);
      DisposedFrameCloses(id, checks, s, r.h, f);
    case _ =>
  }

  lemma AdmissionPhaseKept(id: Identity, checks: Checks, s: PeerState, f: InboundFrame)
    ensures Admit(id, checks, s, f).0.phase in {s.phase, Fatal}
  {
    hide AdmissionRefusal, ProfileRefusal;
  }

  lemma ArrivesNext(s: PeerState, h: History, f: OutboundFrame)
    requires SequencesIncrease(s, h) && f.sequence == s.expectedOut
    ensures Arrived(s.(expectedOut := s.expectedOut + 1), h, f)
  {
  }

  lemma DisposedFrameCloses(id: Identity, checks: Checks, s: PeerState, h: History, f: OutboundFrame)
    requires SequencesIncrease(s, h) && DisposalCertified(checks, s, h) && SlotsMatchPhase(s)
    requires Arrived(s, h, f)
    requires f.event.DisposedFrame? && ObserveEvent(id, checks, s, f).1.Accepted?
    ensures var (t, reply) := ObserveEvent(id, checks, s, f);
      EndsDisposed(checks, h + [Out(f, reply.observation)]) && t.pendingPrompt.None? && t.activeTurn.None?
  {
    hide CertifiesDisposal, FirstPromptIs, TranscriptMatches;
    var d :| DisposeBacked(h, s.activeDispose.value, d);
    var x := Out(f, Some(SessionDisposed));
    DisposedCertified(id, checks, s, h, x, d);
    assert CertifiesDisposal(checks, h + [x], d, |h + [x]| - 1);
  }

  // ---------- fencing and exclusivity ----------

  function Rank(p: Phase): nat {
    match p
    case AwaitingAdapterReady => 0
    case Inert => 1
    case Creating => 2
    case Ready => 3
    case Closing => 4
    case Disposed => 5
    case Fatal => 6
  }

  /** Where one observed event can take the phase. */
  lemma EventPhase(id: Identity, checks: Checks, s: PeerState, f: OutboundFrame)
    requires SlotsMatchPhase(s) && (s.phase != Fatal || f.event.FatalFrame?)
    ensures var (t, reply) := ObserveEvent(id, checks, s, f);
      && Rank(s.phase) <= Rank(t.phase)
      && (t.phase == Disposed ==> s.phase == Disposed || (f.event.DisposedFrame? && reply.Accepted?))
      && (reply.Refused? ==> t.phase == Fatal)
  {
    hide SlotsMatchPhase, ObserveAdapterReady, ObserveSessionReady, ObserveResult, ObserveAgent, ObserveForumCall,
         ObserveUsage, ObserveSettled, ObserveDisposed, ObserveFatal, Track, MarkResult;
    match f.event
    case CommandResult(name, accepted) => ResultPhase(s, f.sequence, f.correlation, name, accepted);
    case UsageSnapshot(usage) => UsagePhase(s, f.sequence, f.correlation, usage);
    case Settled(classification, outcome) => SettledPhase(s, f.sequence, f.correlation, classification, outcome);
    case AdapterReady(pid, nonce, runtime) => ReadyPhase(id, checks, s, f);
    case SessionReady(_) => ReadyPhase(id, checks, s, f);
    case Agent(event) => AgentPhase(s, f.sequence, f.correlation, event);
    case ForumToolCall(toolCall, toolName) => ForumPhase(s, f.correlation, toolCall, toolName);
    case DisposedFrame(receipt) => DisposedPhase(id, checks, s, f.sequence, f.correlation, receipt);
    case FatalFrame(code) => FatalPhase(s, code);
  }

  lemma ReadyPhase(id: Identity, checks: Checks, s: PeerState, f: OutboundFrame)
    requires f.event.AdapterReady? || f.event.SessionReady?
    ensures var (t, reply) := ObserveEvent(id, checks, s, f);
      Rank(s.phase) <= Rank(t.phase) && t.phase != Disposed && (reply.Refused? ==> t.phase == Fatal)
  {
  }

  lemma AgentPhase(s: PeerState, sequence: nat, c: Option<Correlation>, event: AgentEvent)
    ensures ObserveAgent(s, sequence, c, event).0.phase in {s.phase, Fatal}
  {
    hide Observe;
  }

  lemma ForumPhase(s: PeerState, c: Option<Correlation>, toolCall: ToolCall, toolName: ForumToolName)
    ensures ObserveForumCall(s, c, toolCall, toolName).0.phase in {s.phase, Fatal}
  {
  }

  lemma DisposedPhase(id: Identity, checks: Checks, s: PeerState, sequence: nat, c: Option<Correlation>, receipt: TranscriptReceipt)
    ensures var (t, reply) := ObserveDisposed(id, checks, s, sequence, c, receipt);
      Rank(s.phase) <= Rank(t.phase) && (reply.Accepted? ==> t.phase == Disposed)
  {
    hide TranscriptMatches;
  }

  lemma FatalPhase(s: PeerState, code: string)
    ensures ObserveFatal(s, code).0.phase == Fatal
  {
  }

  lemma BeginPhase(s: PeerState, sequence: nat, c: Correlation, name: CommandName)
    requires SlotsMatchPhase(s) && s.phase != Fatal
    ensures var (t, reply) := BeginAccepted(s, sequence, c, name);
      Rank(s.phase) <= Rank(t.phase) && (t.phase == Disposed ==> s.phase == Disposed) && (reply.Refused? ==> t.phase == Fatal)
  {
  }

  lemma RejectPhase(s: PeerState, c: Correlation, name: CommandName)
    ensures var (t, reply) := RejectedResult(s, c, name);
      t.phase in {s.phase, Fatal} && (reply.Refused? ==> t.phase == Fatal)
  {
  }

  lemma ResultPhase(s: PeerState, sequence: nat, c: Option<Correlation>, name: CommandName, accepted: bool)
    requires SlotsMatchPhase(s) && s.phase != Fatal
    ensures var (t, reply) := ObserveResult(s, sequence, c, name, accepted);
      Rank(s.phase) <= Rank(t.phase) && (t.phase == Disposed ==> s.phase == Disposed) && (reply.Refused? ==> t.phase == Fatal)
  {
    hide BeginAccepted, RejectedResult;
    if c.Some? {
      var marked := MarkResult(s, c.value, name, accepted);
      BeginPhase(marked, sequence, c.value, name);
      RejectPhase(marked, c.value, name);
    }
  }

  lemma UsagePhase(s: PeerState, sequence: nat, c: Option<Correlation>, usage: UsageObservation)
    ensures var (t, reply) := ObserveUsage(s, sequence, c, usage);
      t.phase in {s.phase, Fatal} && (reply.Refused? ==> t.phase == Fatal)
  {
    hide Track, UsageRefusal, NoteTurnUsage;
  }

  lemma SettledPhase(s: PeerState, sequence: nat, c: Option<Correlation>, classification: Classification, outcome: Outcome)
    ensures var (t, reply) := ObserveSettled(s, sequence, c, classification, outcome);
      t.phase in {s.phase, Fatal} && (reply.Refused? ==> t.phase == Fatal)
  {
    hide EvidenceClosed, UsageAdjacent, DispositionOf;
  }

  lemma RankNeverFalls(id: Identity, checks: Checks, events: seq<Event>, e: Event)
    ensures var r := Execute(id, checks, events);
      Rank(r.s.phase) <= Rank(Next(id, checks, r, e).s.phase)
  {
    hide Execute, TableMatchesSlots, SequencesIncrease, CommandsAdmitted, PromptsCounted, ChargesConserved, TurnsCertified, DisposalCertified,
         Admit, ObserveEvent;
    InvariantHolds(id, checks, events);
    var s := Execute(id, checks, events).s;
    match e
    case Inbound(f) => AdmissionPhaseKept(id, checks, s, f);
    case Outbound(f) =>
      var t := s.(expectedOut := s.expectedOut + 1);
      if s.phase != Fatal || f.event.FatalFrame? { EventPhase(id, checks, t, f); }
    case _ =>
  }

  /** Every refusal leaves the peer fenced, with no execution slot taken. */
  lemma RefusalFences(id: Identity, checks: Checks, s: PeerState, i: InboundFrame, o: OutboundFrame)
    ensures Admit(id, checks, s, i).1.Refused? ==> Fenced(Admit(id, checks, s, i).0)
    ensures ObserveOutbound(id, checks, s, o).1.Refused? ==> Fenced(ObserveOutbound(id, checks, s, o).0)
    ensures ObserveEof(s).1.Refused? ==> Fenced(ObserveEof(s).0)
  {
    hide Admit, ObserveEvent;
    EventRefusalFences(id, checks, s.(expectedOut := s.expectedOut + 1), o);
  }

  lemma EventRefusalFences(id: Identity, checks: Checks, s: PeerState, o: OutboundFrame)
    ensures ObserveEvent(id, checks, s, o).1.Refused? ==> Fenced(ObserveEvent(id, checks, s, o).0)
  {
    hide Fence, Track, MarkResult, ObserveAdapterReady, ObserveSessionReady, ObserveResult, ObserveAgent, ObserveForumCall, ObserveUsage, ObserveSettled, ObserveDisposed, ObserveFatal;
  }

  ghost function ExecuteFrom(id: Identity, checks: Checks, r: Run, events: seq<Event>): Run {
    if events == [] then r
    else Next(id, checks, ExecuteFrom(id, checks, r, events[..|events| - 1]), events[|events| - 1])
  }

  /** Fatal is absorbing: whatever arrives afterwards, the history gains at most one Fatal frame. */
  lemma {:induction false} FatalIsFinal(id: Identity, checks: Checks, r: Run, events: seq<Event>)
    requires r.s.phase == Fatal
    ensures var t := ExecuteFrom(id, checks, r, events);
      && t.s.phase == Fatal
      && (t.s.fatalFrameSeen ==> r.s.fatalFrameSeen || (|t.h| == |r.h| + 1 && t.h[..|r.h|] == r.h && IsFatalFrame(t.h[|r.h|])))
      && (t.s.fatalFrameSeen == r.s.fatalFrameSeen ==> t.h == r.h)
      && (r.s.fatalFrameSeen ==> t.s.fatalFrameSeen)
  {
    if events != [] {
      FatalIsFinal(id, checks, r, events[..|events| - 1]);
      FatalStep(id, checks, ExecuteFrom(id, checks, r, events[..|events| - 1]), events[|events| - 1]);
    }
  }

  ghost predicate IsFatalFrame(e: Entry) {
    e.Out? && e.outbound.event.FatalFrame?
  }

  lemma FatalEvent(id: Identity, checks: Checks, s: PeerState, f: OutboundFrame)
    requires f.event.FatalFrame?
    ensures ObserveEvent(id, checks, s, f) == ObserveFatal(s, f.event.failureCode)
  {
    hide ObserveFatal;
  }

  lemma FatalStep(id: Identity, checks: Checks, r: Run, e: Event)
    requires r.s.phase == Fatal
    ensures var t := Next(id, checks, r, e);
      && t.s.phase == Fatal
      && (if t.s.fatalFrameSeen == r.s.fatalFrameSeen then t.h == r.h
          else t.s.fatalFrameSeen && |t.h| == |r.h| + 1 && t.h[..|r.h|] == r.h && IsFatalFrame(t.h[|r.h|]))
  {
    hide ObserveEvent, AdmissionRefusal, RecordAdmission;
    if e.Outbound? && e.outbound.event.FatalFrame? {
      FatalEvent(id, checks, r.s.(expectedOut := r.s.expectedOut + 1), e.outbound);
    }
  }

  function Slots(s: PeerState): nat {
    (if s.pendingPrompt.Some? then 1 else 0) + (if s.activeTurn.Some? then 1 else 0)
    + (if s.pendingDispose.Some? then 1 else 0) + (if s.activeDispose.Some? then 1 else 0)
  }

  /** At most one execution slot is taken, none in a fenced peer; accepted prompts are the settled
      turns and the running one; a correlation is completed exactly when its result was seen. */
  lemma Exclusivity(id: Identity, checks: Checks, events: seq<Event>)
    ensures var r := Execute(id, checks, events);
      && Slots(r.s) <= (if r.s.phase == Fatal then 0 else 1)
      && (r.s.phase != Fatal ==> CountAccepted(r.h) == |r.s.settled| + (if r.s.activeTurn.Some? then 1 else 0))
      && (forall c :: c in r.s.completed <==> c in r.s.commands && r.s.commands[c].resultSeen)
      && (r.s.create.Some? && r.s.create.value.profile.kind.TaskAttempt? ==> CountPrompts(r.h) <= 1)
  {
    hide CommandsAdmitted, ChargesConserved, TurnsCertified, DisposalCertified, SequencesIncrease;
    InvariantHolds(id, checks, events);
  }

  /** The reported deltas add up to the latest snapshot, and to no more than it once fenced. */
  lemma UsageConservation(id: Identity, checks: Checks, events: seq<Event>)
    ensures var r := Execute(id, checks, events);
      && AtMost(Charged(r.h), ChargeOf(r.s.latest))
      && (r.s.phase != Fatal ==> Charged(r.h) == ChargeOf(r.s.latest))
      && (r.s.phase != Fatal && r.s.latest.Some? && KeepsAllBits(r.s.latest.value.cost) ==>
            Charged(r.h).microUsd >= 0 && IsMicroCeiling(r.s.latest.value.cost, Charged(r.h).microUsd))
  {
    hide SlotsMatchPhase, TableMatchesSlots, CommandsAdmitted, PromptsCounted, TurnsCertified, DisposalCertified, SequencesIncrease;
    InvariantHolds(id, checks, events);
    var r := Execute(id, checks, events);
    if r.s.latest.Some? { CeilingExactness(r.s.latest.value.cost); }
  }
}
