/** Which snapshots are charged, which are only tracked, and what a run loses by that. */
module PeerCharges {
  import opened Wrappers
  import opened Binary64
  import opened Usage
  import opened PeerProtocol
  import opened PeerSpec
  import opened PeerRuns
  import opened PeerAdmissions
  import opened PeerTheorems

  // ---------- results are final ----------

  /** The table says what every accepted result frame said. */
  ghost predicate ResultsRecorded(s: PeerState, h: History) {
    forall i :: 0 <= i < |h| && h[i].Out? && h[i].outbound.event.CommandResult? ==> Records(s, h[i].outbound)
  }

  ghost predicate Records(s: PeerState, f: OutboundFrame)
    requires f.event.CommandResult?
  {
    && f.correlation.Some? && f.correlation.value in s.commands
    && s.commands[f.correlation.value] == PendingCommand(f.event.command, true, f.event.accepted)
  }

  /** A command whose result was seen is never touched again. */
  ghost predicate ResultsStay(s: PeerState, t: PeerState) {
    forall c :: c in s.commands && s.commands[c].resultSeen ==> c in t.commands && t.commands[c] == s.commands[c]
  }

  predicate Reports(reply: Reply) {
    reply.Accepted? && reply.observation.Some? && reply.observation.value.UsageCharged?
  }

  lemma SessionEventStays(id: Identity, checks: Checks, s: PeerState, f: OutboundFrame)
    requires f.event.AdapterReady? || f.event.SessionReady? || f.event.DisposedFrame? || f.event.FatalFrame?
    ensures var (t, reply) := ObserveEvent(id, checks, s, f); t.commands == s.commands && t.latest == s.latest && !Reports(reply)
  {
    hide TranscriptMatches, ObserveResult, ObserveAgent, ObserveForumCall, ObserveUsage, ObserveSettled;
  }

  lemma AgentEventStays(s: PeerState, sequence: nat, c: Option<Correlation>, event: AgentEvent)
    ensures var (t, reply) := ObserveAgent(s, sequence, c, event); t.commands == s.commands && t.latest == s.latest && !Reports(reply)
  {
    hide Observe;
  }

  lemma ForumEventStays(s: PeerState, c: Option<Correlation>, toolCall: ToolCall, toolName: ForumToolName)
    ensures var (t, reply) := ObserveForumCall(s, c, toolCall, toolName); t.commands == s.commands && t.latest == s.latest && !Reports(reply)
  {
  }

  lemma SettledEventStays(s: PeerState, sequence: nat, c: Option<Correlation>, classification: Classification, outcome: Outcome)
    ensures var (t, reply) := ObserveSettled(s, sequence, c, classification, outcome);
      t.commands == s.commands && t.latest == s.latest && !Reports(reply)
  {
    hide DispositionOf, EvidenceClosed, UsageAdjacent;
  }

  lemma UsageEventStays(s: PeerState, sequence: nat, c: Option<Correlation>, usage: UsageObservation)
    ensures ObserveUsage(s, sequence, c, usage).0.commands == s.commands
  {
    hide Track, UsageRefusal, NoteTurnUsage;
  }

  lemma QuietEventStays(id: Identity, checks: Checks, s: PeerState, f: OutboundFrame)
    requires !f.event.CommandResult?
    ensures var (t, reply) := ObserveEvent(id, checks, s, f);
      t.commands == s.commands && (!f.event.UsageSnapshot? ==> t.latest == s.latest && !Reports(reply))
  {
    hide ObserveAdapterReady, ObserveSessionReady, ObserveResult, ObserveAgent, ObserveForumCall, ObserveUsage, ObserveSettled, ObserveDisposed, ObserveFatal;
    if f.event.UsageSnapshot? {
      UsageEventStays(s, f.sequence, f.correlation, f.event.usage);
    } else if f.event.Agent? {
      AgentEventStays(s, f.sequence, f.correlation, f.event.event);
    } else if f.event.ForumToolCall? {
      ForumEventStays(s, f.correlation, f.event.toolCall, f.event.toolName);
    } else if f.event.Settled? {
      SettledEventStays(s, f.sequence, f.correlation, f.event.classification, f.event.outcome);
    } else {
      SessionEventStays(id, checks, s, f);
    }
  }

  lemma ResultStays(s: PeerState, sequence: nat, c: Option<Correlation>, name: CommandName, accepted: bool)
    ensures var (t, reply) := ObserveResult(s, sequence, c, name, accepted);
      && ResultsStay(s, t) && t.latest == s.latest && !Reports(reply)
      && (reply.Accepted? ==> c.Some? && c.value in t.commands && t.commands[c.value] == PendingCommand(name, true, accepted))
  {
  }

  lemma RecordedCommands(checks: Checks, s: PeerState, c: Correlation, command: Command)
    ensures RecordAdmission(checks, s, c, command).commands == s.commands[c := PendingCommand(command.Name(), false, false)]
    ensures RecordAdmission(checks, s, c, command).latest == s.latest
  {
    hide NoteAbort;
    AbortAside(Validated(s, command));
  }

  lemma AbortAside(s: PeerState)
    ensures NoteAbort(s).commands == s.commands && NoteAbort(s).latest == s.latest
  {
  }

  lemma AdmissionStays(id: Identity, checks: Checks, s: PeerState, f: InboundFrame)
    ensures ResultsStay(s, Admit(id, checks, s, f).0) && Admit(id, checks, s, f).0.latest == s.latest
  {
    hide AdmissionRefusal, RecordAdmission;
    RecordedCommands(checks, s.(expectedIn := s.expectedIn + 1), f.correlation, f.command);
  }

  lemma OutboundStays(id: Identity, checks: Checks, s: PeerState, f: OutboundFrame)
    ensures var (t, reply) := ObserveOutbound(id, checks, s, f);
      && ResultsStay(s, t) && (reply.Accepted? && f.event.CommandResult? ==> Records(t, f))
      && (!f.event.UsageSnapshot? ==> t.latest == s.latest && !Reports(reply))
  {
    hide ObserveAdapterReady, ObserveSessionReady, ObserveResult, ObserveAgent, ObserveForumCall, ObserveUsage, ObserveSettled, ObserveDisposed, ObserveFatal;
    var u := s.(expectedOut := s.expectedOut + 1);
    if f.event.CommandResult? {
      ResultStays(u, f.sequence, f.correlation, f.event.command, f.event.accepted);
    } else {
      QuietEventStays(id, checks, u, f);
    }
  }

  lemma RecordsKept(id: Identity, checks: Checks, r: Run, e: Event)
    requires ResultsRecorded(r.s, r.h)
    ensures ResultsRecorded(Next(id, checks, r, e).s, Next(id, checks, r, e).h)
  {
    hide Admit, ObserveOutbound;
    match e
    case Inbound(f) => AdmissionStays(id, checks, r.s, f);
    case Outbound(f) => OutboundStays(id, checks, r.s, f);
    case _ =>
  }

  lemma {:induction false} ResultsHold(id: Identity, checks: Checks, events: seq<Event>)
    ensures ResultsRecorded(Execute(id, checks, events).s, Execute(id, checks, events).h)
  {
    if events != [] {
      ResultsHold(id, checks, events[..|events| - 1]);
      RecordsKept(id, checks, Execute(id, checks, events[..|events| - 1]), events[|events| - 1]);
    }
  }

  // ---------- after Disposed ----------

  /** The frame is the next one of this session, and the peer still looks at it. */
  predicate Timely(id: Identity, s: PeerState, f: OutboundFrame) {
    s.phase != Fatal && f.session == id.session && f.sequence == s.expectedOut
  }

  /** The snapshot reaches the tracker and its delta is reported. */
  predicate Charges(id: Identity, checks: Checks, s: PeerState, f: OutboundFrame) {
    var (t, reply) := ObserveOutbound(id, checks, s, f);
    && f.event.UsageSnapshot? && Track(s.latest, f.event.usage).Ok?
    && reply == Accepted(Some(UsageCharged(Track(s.latest, f.event.usage).value.1)))
    && t.latest == Some(Track(s.latest, f.event.usage).value.0)
  }

  predicate AcceptedControl(s: PeerState, c: Correlation) {
    c in s.commands && s.commands[c].resultSeen && s.commands[c].accepted && ChargesOutsideTurn(s.commands[c].name)
  }

  lemma DisposedCharges(id: Identity, checks: Checks, s: PeerState, f: OutboundFrame)
    requires SlotsMatchPhase(s) && s.phase == Disposed && Timely(id, s, f) && f.event.UsageSnapshot?
    ensures Charges(id, checks, s, f) <==>
      f.correlation.Some? && AcceptedControl(s, f.correlation.value) && Track(s.latest, f.event.usage).Ok?
    ensures Charges(id, checks, s, f) ==> ObserveOutbound(id, checks, s, f).0.phase == Disposed
  {
    hide FromTotals, Regressed;
  }

  /**
   * Accounting is final at the Disposed frame only. In every reachable Disposed state the snapshots still
   * charged are exactly the trackable ones of an accepted control command, and there always is one: the Dispose.
   */
  lemma DisposedStillCharges(id: Identity, checks: Checks, events: seq<Event>)
    requires Execute(id, checks, events).s.phase == Disposed
    ensures var s := Execute(id, checks, events).s;
      && (forall f :: Timely(id, s, f) && f.event.UsageSnapshot? ==>
            (Charges(id, checks, s, f) <==> f.correlation.Some? && AcceptedControl(s, f.correlation.value) && Track(s.latest, f.event.usage).Ok?))
      && exists c :: c in s.commands && s.commands[c] == PendingCommand(DisposeName, true, true) && AcceptedControl(s, c)
  {
    hide Execute, Charges, Timely, CommandsAdmitted, SequencesIncrease, PromptsCounted, ChargesConserved, TurnsCertified;
    var r := Execute(id, checks, events);
    InvariantHolds(id, checks, events);
    ResultsHold(id, checks, events);
    forall f | Timely(id, r.s, f) && f.event.UsageSnapshot?
      ensures Charges(id, checks, r.s, f) <==> f.correlation.Some? && AcceptedControl(r.s, f.correlation.value) && Track(r.s.latest, f.event.usage).Ok?
    {
      DisposedCharges(id, checks, r.s, f);
    }
    var c := DisposeOf(checks, r.s, r.h);
  }

  lemma DisposeOf(checks: Checks, s: PeerState, h: History) returns (c: Correlation)
    requires DisposalCertified(checks, s, h) && ResultsRecorded(s, h) && s.phase == Disposed
    ensures c in s.commands && s.commands[c] == PendingCommand(DisposeName, true, true)
  {
    hide FirstPromptIs;
    var d: DisposePositions, l: nat :| CertifiesDisposal(checks, h, d, l);
    c := h[l].outbound.correlation.value;
    assert Records(s, h[d.accepted].outbound);
  }

  // ---------- tracked but not reported ----------

  /** A trackable snapshot of the running prompt whose terminal snapshot is already in. */
  predicate Silent(id: Identity, s: PeerState, e: Event) {
    && e.Outbound? && Timely(id, s, e.outbound) && e.outbound.event.UsageSnapshot?
    && s.activeTurn.Some? && s.activeTurn.value.evidence.AwaitingSettledFrame?
    && e.outbound.correlation == Some(s.activeTurn.value.correlation)
    && Track(s.latest, e.outbound.event.usage).Ok?
  }

  function DeltaOf(s: PeerState, e: Event): UsageDelta
    requires e.Outbound? && e.outbound.event.UsageSnapshot? && Track(s.latest, e.outbound.event.usage).Ok?
  {
    Track(s.latest, e.outbound.event.usage).value.1
  }

  /** The snapshot the tracker takes moves the latest one exactly when it is not a repetition. */
  lemma MovesUnlessIdempotent(latest: Option<NormalizedUsage>, usage: UsageObservation)
    requires Track(latest, usage).Ok?
    ensures latest == Some(Track(latest, usage).value.0) <==> Track(latest, usage).value.1.idempotent
  {
    hide FromTotals, Regressed;
  }

  lemma TurnCommand(checks: Checks, r: Run)
    requires TurnsCertified(r.s, r.h) && ResultsRecorded(r.s, r.h) && r.s.activeTurn.Some?
    ensures var c := r.s.activeTurn.value.correlation;
      c in r.s.commands && r.s.commands[c] == PendingCommand(PromptName, true, true)
  {
    hide AbortBacked, EvidenceBacked, Certifies;
    var p :| Backed(r.h, r.s.activeTurn.value, p);
    assert Records(r.s, r.h[p.accepted].outbound);
  }

  /** A silent snapshot is refused, moves the latest one, reports nothing and fences. */
  lemma SilentStep(id: Identity, checks: Checks, r: Run, e: Event)
    requires Invariant(checks, r) && ResultsRecorded(r.s, r.h) && Silent(id, r.s, e)
    ensures r.s.phase != Fatal
    ensures ObserveOutbound(id, checks, r.s, e.outbound).1 == Refused(MissingTerminalEvidence)
    ensures Next(id, checks, r, e).h == r.h && Fenced(Next(id, checks, r, e).s)
    ensures Next(id, checks, r, e).s.latest == Some(Track(r.s.latest, e.outbound.event.usage).value.0)
  {
    hide FromTotals, Regressed, TableMatchesSlots, SequencesIncrease, CommandsAdmitted, PromptsCounted, ChargesConserved, TurnsCertified, DisposalCertified, ResultsRecorded;
    TurnCommand(checks, r);
  }

  /** Nothing moves, in the tracker or in the report. */
  ghost predicate Still(r: Run, t: Run) {
    t.s.latest == r.s.latest && Charged(t.h) == Charged(r.h)
  }

  /** The tracker moves and reports how. */
  ghost predicate Told(r: Run, e: Event, t: Run) {
    && r.s.phase != Fatal && e.Outbound? && e.outbound.event.UsageSnapshot? && Track(r.s.latest, e.outbound.event.usage).Ok?
    && t.s.latest == Some(Track(r.s.latest, e.outbound.event.usage).value.0)
    && t.h == r.h + [Out(e.outbound, Some(UsageCharged(DeltaOf(r.s, e))))]
  }

  /** What becomes of a snapshot: told, left alone, or taken by the tracker only. */
  lemma SnapshotCases(s: PeerState, sequence: nat, c: Option<Correlation>, usage: UsageObservation)
    ensures var (t, reply) := ObserveUsage(s, sequence, c, usage);
      || (t.latest == s.latest && !Reports(reply))
      || (Track(s.latest, usage).Ok? && t.latest == Some(Track(s.latest, usage).value.0)
          && (reply == Accepted(Some(UsageCharged(Track(s.latest, usage).value.1)))
              || (s.activeTurn.Some? && s.activeTurn.value.evidence.AwaitingSettledFrame? && c == Some(s.activeTurn.value.correlation))))
  {
    hide Track, UsageRefusal;
    NeedsCorrelation(s, sequence, c);
  }

  lemma NeedsCorrelation(s: PeerState, sequence: nat, c: Option<Correlation>)
    ensures UsageRefusal(s, sequence, c).None? ==> c.Some?
  {
  }

  lemma SnapshotToldOrStill(id: Identity, checks: Checks, r: Run, f: OutboundFrame)
    requires f.event.UsageSnapshot? && !Silent(id, r.s, Outbound(f))
    ensures var t := Next(id, checks, r, Outbound(f));
      || Told(r, Outbound(f), t)
      || (t.s.latest == r.s.latest && (t.h == r.h || exists o :: !Reports(Accepted(o)) && t.h == r.h + [Out(f, o)]))
  {
    hide Track, ObserveUsage;
    SnapshotCases(r.s.(expectedOut := r.s.expectedOut + 1), f.sequence, f.correlation, f.event.usage);
    var (t, reply) := ObserveOutbound(id, checks, r.s, f);
    if reply.Accepted? && !Reports(reply) { assert Next(id, checks, r, Outbound(f)).h == r.h + [Out(f, reply.observation)]; }
  }

  lemma ChargedNothing(h: History, x: Entry)
    requires x.Out? ==> !Reports(Accepted(x.observation))
    ensures Charged(h + [x]) == Charged(h)
  {
    assert (h + [x])[..|h|] == h;
  }

  /** Every other event is told or changes nothing. */
  lemma ToldOrStill(id: Identity, checks: Checks, r: Run, e: Event)
    requires !Silent(id, r.s, e)
    ensures Told(r, e, Next(id, checks, r, e)) || Still(r, Next(id, checks, r, e))
  {
    hide Admit, ObserveOutbound, Told, Silent, Charged;
    var t := Next(id, checks, r, e);
    match e
    case Inbound(f) =>
      AdmissionStays(id, checks, r.s, f);
      ChargedNothing(r.h, In(f));
    case Outbound(f) =>
      if f.event.UsageSnapshot? {
        SnapshotToldOrStill(id, checks, r, f);
        if !Told(r, e, t) && t.h != r.h {
          var o :| !Reports(Accepted(o)) && t.h == r.h + [Out(f, o)];
          ChargedNothing(r.h, Out(f, o));
        }
      } else {
        OutboundStays(id, checks, r.s, f);
        var reply := ObserveOutbound(id, checks, r.s, f).1;
        if reply.Accepted? { ChargedNothing(r.h, Out(f, reply.observation)); }
      }
    case _ =>
  }

  /**
   * In every run: the latest snapshot moves while nothing is reported exactly at a second terminal snapshot
   * of the running prompt that is not a repetition; any second terminal snapshot is refused and fences.
   */
  lemma SecondTerminalSnapshot(id: Identity, checks: Checks, events: seq<Event>, e: Event)
    ensures var r := Execute(id, checks, events); var t := Next(id, checks, r, e);
      && (t.s.latest != r.s.latest && t.h == r.h <==> Silent(id, r.s, e) && !DeltaOf(r.s, e).idempotent)
      && (Silent(id, r.s, e) ==> Fenced(t.s) && ObserveOutbound(id, checks, r.s, e.outbound).1 == Refused(MissingTerminalEvidence))
  {
    hide Execute, Next, ObserveOutbound, Silent, Track, Invariant, ResultsRecorded, Charged;
    var r := Execute(id, checks, events);
    InvariantHolds(id, checks, events);
    ResultsHold(id, checks, events);
    if Silent(id, r.s, e) {
      SilentParts(id, r.s, e);
      SilentStep(id, checks, r, e);
      MovesUnlessIdempotent(r.s.latest, e.outbound.event.usage);
    } else {
      ToldOrStill(id, checks, r, e);
    }
  }

  lemma SilentParts(id: Identity, s: PeerState, e: Event)
    requires Silent(id, s, e)
    ensures e.Outbound? && e.outbound.event.UsageSnapshot? && Track(s.latest, e.outbound.event.usage).Ok?
  {
    hide Track;
  }

  // ---------- what a run loses ----------

  /** Event `i` of the run is a silent snapshot that adds something to the charge. */
  ghost predicate Loses(id: Identity, checks: Checks, events: seq<Event>, i: nat)
    requires i < |events|
  {
    var s := Execute(id, checks, events[..i]).s;
    Silent(id, s, events[i]) && AddDelta(NO_CHARGE, DeltaOf(s, events[i])) != NO_CHARGE
  }

  ghost predicate HasLoss(id: Identity, checks: Checks, events: seq<Event>) {
    exists i :: 0 <= i < |events| && Loses(id, checks, events, i)
  }

  lemma LossSplits(id: Identity, checks: Checks, events: seq<Event>)
    requires events != []
    ensures HasLoss(id, checks, events) <==> HasLoss(id, checks, events[..|events| - 1]) || Loses(id, checks, events, |events| - 1)
  {
    hide Execute, Silent;
    var n := |events| - 1;
    var before := events[..n];
    forall i: nat | i < n ensures Loses(id, checks, events, i) <==> Loses(id, checks, before, i) { assert before[..i] == events[..i]; }
    if HasLoss(id, checks, before) {
      var i :| 0 <= i < n && Loses(id, checks, before, i);
      assert Loses(id, checks, events, i);
    }
    if HasLoss(id, checks, events) {
      var i :| 0 <= i <= n && Loses(id, checks, events, i);
      assert i < n ==> Loses(id, checks, before, i);
    }
  }

  lemma DeltaMatters(latest: Option<NormalizedUsage>, usage: UsageObservation)
    requires Track(latest, usage).Ok?
    ensures var (current, delta) := Track(latest, usage).value;
      && ChargeOf(Some(current)) == AddDelta(ChargeOf(latest), delta)
      && (ChargeOf(Some(current)) != ChargeOf(latest) <==> AddDelta(NO_CHARGE, delta) != NO_CHARGE)
  {
    hide FromTotals, Regressed;
  }

  lemma ChargedDelta(h: History, f: OutboundFrame, delta: UsageDelta)
    ensures Charged(h + [Out(f, Some(UsageCharged(delta)))]) == AddDelta(Charged(h), delta)
  {
    assert (h + [Out(f, Some(UsageCharged(delta)))])[..|h|] == h;
  }

  /** The reported charges fall short of the latest snapshot exactly in the runs with a silent snapshot that adds something. */
  lemma {:induction false} ShortfallExactly(id: Identity, checks: Checks, events: seq<Event>)
    ensures var r := Execute(id, checks, events);
      && (Charged(r.h) != ChargeOf(r.s.latest) <==> HasLoss(id, checks, events))
      && (HasLoss(id, checks, events) ==> r.s.phase == Fatal && AtMost(Charged(r.h), ChargeOf(r.s.latest)))
  {
    hide Next, Silent, Track, Invariant, ResultsRecorded, Charged, HasLoss, Loses;
    UsageConservation(id, checks, events);
    if events == [] {
      NothingYet(id, checks);
    } else {
      var before := events[..|events| - 1];
      ShortfallExactly(id, checks, before);
      LossSplits(id, checks, events);
      LossStep(id, checks, events);
    }
  }

  lemma NothingYet(id: Identity, checks: Checks)
    ensures !HasLoss(id, checks, []) && Charged(NEW_RUN.h) == ChargeOf(NEW_RUN.s.latest)
  {
  }

  /** The last event adds to the shortfall exactly when it loses something. */
  lemma LossStep(id: Identity, checks: Checks, events: seq<Event>)
    requires events != []
    ensures var r := Execute(id, checks, events[..|events| - 1]); var t := Execute(id, checks, events);
      Charged(t.h) != ChargeOf(t.s.latest) <==> Charged(r.h) != ChargeOf(r.s.latest) || Loses(id, checks, events, |events| - 1)
  {
    hide Next, Silent, Track, Invariant, ResultsRecorded, Charged;
    var r, e := Execute(id, checks, events[..|events| - 1]), events[|events| - 1];
    InvariantHolds(id, checks, events[..|events| - 1]);
    ResultsHold(id, checks, events[..|events| - 1]);
    UsageConservation(id, checks, events[..|events| - 1]);
    if Silent(id, r.s, e) {
      SilentParts(id, r.s, e);
      SilentStep(id, checks, r, e);
      DeltaMatters(r.s.latest, e.outbound.event.usage);
    } else {
      ToldOrStill(id, checks, r, e);
      if !Still(r, Next(id, checks, r, e)) {
        DeltaMatters(r.s.latest, e.outbound.event.usage);
        ChargedDelta(r.h, e.outbound, DeltaOf(r.s, e));
      }
    }
  }
}
