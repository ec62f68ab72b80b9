/** Admitted commands and refusals keep the invariant; so do whole runs. */
module PeerAdmissions {
  import opened Wrappers
  import opened Binary64
  import opened Usage
  import opened PeerProtocol
  import opened PeerSpec
  import opened PeerRuns
  import opened PeerInvariants
  import opened PeerSteps

  // ---------- admitted commands ----------

  ghost predicate Enters(s: PeerState, t: PeerState, x: Entry) {
    && x.In? && x.inbound.correlation !in s.commands
    && t.commands == s.commands[x.inbound.correlation := PendingCommand(x.inbound.command.Name(), false, false)]
  }

  lemma CommandsIn(checks: Checks, s: PeerState, h: History, t: PeerState, x: Entry)
    requires CommandsAdmitted(checks, s, h) && Enters(s, t, x)
    requires if x.inbound.command.Prompt?
             then t.promptDigests == s.promptDigests[x.inbound.correlation := checks.digest(x.inbound.command.text)]
             else t.promptDigests == s.promptDigests
    ensures CommandsAdmitted(checks, t, h + [x])
  {
    forall c | c in t.commands
      ensures exists i :: 0 <= i < |h + [x]| && (h + [x])[i].In? && (h + [x])[i].inbound.correlation == c
                          && (h + [x])[i].inbound.command.Name() == t.commands[c].name
    {
      if c == x.inbound.correlation {
        assert (h + [x])[|h|] == x;
      } else {
        var i :| 0 <= i < |h| && h[i].In? && h[i].inbound.correlation == c && h[i].inbound.command.Name() == s.commands[c].name;
        assert (h + [x])[i] == h[i];
      }
    }
  }

  lemma TableIn(s: PeerState, t: PeerState, x: Entry)
    requires TableMatchesSlots(s) && Enters(s, t, x)
    requires t.completed == s.completed && t.settled == s.settled
    requires t.pendingPrompt.Some? ==>
      if s.pendingPrompt.Some? then t.pendingPrompt.value.correlation == s.pendingPrompt.value.correlation
      else t.pendingPrompt.value.correlation == x.inbound.correlation && x.inbound.command.Prompt? && x.inbound.correlation in t.promptDigests
    requires t.pendingDispose.Some? ==> t.pendingDispose == Some(x.inbound.correlation) && x.inbound.command.Dispose?
    requires t.activeTurn.Some? ==> s.activeTurn.Some? && t.activeTurn.value.correlation == s.activeTurn.value.correlation
    requires s.promptDigests.Keys <= t.promptDigests.Keys
    ensures TableMatchesSlots(t)
  {
  }

  lemma SequencesIn(s: PeerState, h: History, t: PeerState, x: Entry)
    requires SequencesIncrease(s, h) && x.In? && t.expectedOut == s.expectedOut
    ensures SequencesIncrease(t, h + [x])
  {
  }

  lemma DisposalIn(checks: Checks, s: PeerState, h: History, t: PeerState, x: Entry)
    requires DisposalCertified(checks, s, h) && x.In? && t.firstPrompt == s.firstPrompt
    requires t.phase != Disposed && t.activeDispose.None?
    requires t.pendingDispose.Some? ==> t.pendingDispose == Some(x.inbound.correlation) && x.inbound.command.Dispose?
    ensures DisposalCertified(checks, t, h + [x])
  {
    FirstPromptExtends(checks, h, x, s.firstPrompt, |h|);
    if t.pendingDispose.Some? { assert DisposeAdmitted(h + [x], t.pendingDispose.value, DisposePositions(|h|, 0, 0)); }
  }

  /** The groups every admission keeps the same way. */
  lemma AdmissionKeeps(checks: Checks, s: PeerState, h: History, t: PeerState, x: Entry)
    requires Invariant(checks, Run(s, h)) && Enters(s, t, x) && s.phase != Fatal
    requires SlotsMatchPhase(t) && TableMatchesSlots(t) && CommandsAdmitted(checks, t, h + [x])
    requires PromptsCounted(t, h + [x]) && TurnsCertified(t, h + [x])
    requires t.expectedOut == s.expectedOut && t.latest == s.latest && t.firstPrompt == s.firstPrompt
    requires t.phase != Disposed && t.activeDispose.None?
    requires t.pendingDispose.Some? ==> t.pendingDispose == Some(x.inbound.correlation) && x.inbound.command.Dispose?
    ensures Invariant(checks, Run(t, h + [x]))
  {
    hide SlotsMatchPhase, TableMatchesSlots, CommandsAdmitted, SequencesIncrease, PromptsCounted, ChargesConserved, TurnsCertified, DisposalCertified;
    SequencesIn(s, h, t, x);
    ChargesQuiet(s, h, t, x);
    DisposalIn(checks, s, h, t, x);
  }

  ghost predicate Admits(checks: Checks, s: PeerState, h: History, t: PeerState, x: Entry) {
    && Invariant(checks, Run(s, h)) && x.In? && x.inbound.correlation !in s.commands
    && s.phase != Fatal && AdmissionRefusal(checks, s, x.inbound.command).None?
    && t == RecordAdmission(checks, s, x.inbound.correlation, x.inbound.command)
  }

  lemma PromptAdmitted(checks: Checks, s: PeerState, h: History, t: PeerState, x: Entry)
    requires Admits(checks, s, h, t, x) && x.inbound.command.Prompt?
    ensures Invariant(checks, Run(t, h + [x]))
  {
    hide CommandsAdmitted, SequencesIncrease, ChargesConserved, TurnsCertified, DisposalCertified;
    CommandsIn(checks, s, h, t, x);
    TableIn(s, t, x);
    hide TableMatchesSlots;
    TurnsQuiet(s, h, t.(pendingPrompt := None), x);
    PromptEnters(t, h + [x]);
    assert (h + [x])[..|h|] == h;
    AdmissionKeeps(checks, s, h, t, x);
  }

  /** A prompt just admitted carries no abort yet. */
  lemma PromptEnters(t: PeerState, h: History)
    requires TurnsCertified(t.(pendingPrompt := None), h)
    requires t.pendingPrompt.Some? ==> !t.pendingPrompt.value.abortAdmitted
    ensures TurnsCertified(t, h)
  {
  }

  lemma AbortMeetsTurn(h: History, x: Entry, t: ActiveTurn, u: ActiveTurn)
    requires AdmitsAbort(x) && u == NoteTurnAbort(t)
    requires exists p :: Backed(h, t, p)
    ensures exists p :: Backed(h + [x], u, p)
  {
    hide Backed;
    var p :| Backed(h, t, p);
    BackedExtends(h, x, t, p);
    if OutcomeOpen(t.evidence) { AbortAttaches(h, x, t, p); }
  }

  lemma AbortMeetsPending(checks: Checks, s: PeerState, h: History, x: Entry)
    requires CommandsAdmitted(checks, s, h) && TableMatchesSlots(s) && s.pendingPrompt.Some? && AdmitsAbort(x)
    ensures exists a, b :: 0 <= a < b < |h + [x]| && AdmitsPrompt((h + [x])[a], s.pendingPrompt.value.correlation) && AdmitsAbort((h + [x])[b])
  {
    var a := PromptAdmission(checks, s, h);
    assert AdmitsPrompt((h + [x])[a], s.pendingPrompt.value.correlation) && AdmitsAbort((h + [x])[|h|]);
  }

  lemma AbortTurns(checks: Checks, s: PeerState, h: History, t: PeerState, x: Entry)
    requires TurnsCertified(s, h) && CommandsAdmitted(checks, s, h) && TableMatchesSlots(s) && AdmitsAbort(x)
    requires t.settled == s.settled && t.pendingPrompt == NoteAbort(s).pendingPrompt && t.activeTurn == NoteAbort(s).activeTurn
    ensures TurnsCertified(t, h + [x])
  {
    hide Backed, Certifies, CommandsAdmitted, TableMatchesSlots, AdmitsPrompt, NoteTurnAbort;
    SettledKeep(s, h, x);
    if s.activeTurn.Some? {
      AbortMeetsTurn(h, x, s.activeTurn.value, t.activeTurn.value);
      PendingAbortKeeps(s, h, x);
    } else if s.pendingPrompt.Some? {
      AbortMeetsPending(checks, s, h, x);
    }
  }

  lemma AdmittedInside(h: History, c: Correlation, p: Positions)
    requires Opened(h, c, p, |h|)
    ensures p.admitted < |h|
  {
  }

  lemma AbortAttaches(h: History, x: Entry, t: ActiveTurn, p: Positions)
    requires Backed(h, t, p) && OutcomeOpen(t.evidence) && AdmitsAbort(x)
    ensures Backed(h + [x], t.(abortAdmitted := true), p.(abort := |h|))
  {
    hide Word, AttemptWord, Opened, EndedWith, SettledAfterEnd;
    BackedExtends(h, x, t, p);
    OpenedElsewhere(h + [x], t.correlation, p, p.(abort := |h|));
    AdmittedInside(h, t.correlation, p);
  }

  lemma AbortAdmitted(checks: Checks, s: PeerState, h: History, t: PeerState, x: Entry)
    requires Admits(checks, s, h, t, x) && x.inbound.command.Abort?
    ensures Invariant(checks, Run(t, h + [x]))
  {
    hide CommandsAdmitted, SequencesIncrease, PromptsCounted, ChargesConserved, TurnsCertified, DisposalCertified;
    CommandsIn(checks, s, h, t, x);
    TableIn(s, t, x);
    CountsQuiet(s, h, t, x);
    AbortTurns(checks, s, h, t, x);
    hide TableMatchesSlots;
    AdmissionKeeps(checks, s, h, t, x);
  }

  /** What admitting any other command changes. */
  lemma OtherEffects(checks: Checks, s: PeerState, t: PeerState, c: Correlation, command: Command)
    requires !command.Prompt? && !command.Abort? && t == RecordAdmission(checks, s, c, command)
    ensures t.commands == s.commands[c := PendingCommand(command.Name(), false, false)]
    ensures t.promptDigests == s.promptDigests && t.completed == s.completed && t.settled == s.settled
    ensures t.pendingPrompt == s.pendingPrompt && t.activeTurn == s.activeTurn && t.activeDispose == s.activeDispose
    ensures t.pendingDispose == if command.Dispose? then Some(c) else s.pendingDispose
    ensures t.create == s.create && t.taskPromptAdmitted == s.taskPromptAdmitted && t.phase == s.phase
    ensures t.expectedOut == s.expectedOut && t.latest == s.latest && t.firstPrompt == s.firstPrompt
    ensures t.createCandidate == if command.Create? then Some((c, command.payload)) else s.createCandidate
  {
  }

  /** Every command is admitted in a phase before disposal, with no disposal pending. */
  lemma AdmissionPhase(checks: Checks, s: PeerState, command: Command)
    requires AdmissionRefusal(checks, s, command).None?
    ensures s.pendingDispose.None? && (s.phase == Inert || s.phase == Ready)
    ensures command.Create? ==> s.phase == Inert && s.create.None?
    ensures command.Dispose? ==> s.phase == Ready && s.pendingPrompt.None? && s.activeTurn.None?
  {
  }

  lemma OtherAdmitted(checks: Checks, s: PeerState, h: History, t: PeerState, x: Entry)
    requires Admits(checks, s, h, t, x) && !x.inbound.command.Prompt? && !x.inbound.command.Abort?
    ensures Invariant(checks, Run(t, h + [x]))
  {
    hide TableMatchesSlots, CommandsAdmitted, SequencesIncrease, PromptsCounted, ChargesConserved, TurnsCertified, DisposalCertified, AdmissionRefusal, RecordAdmission;
    OtherEffects(checks, s, t, x.inbound.correlation, x.inbound.command);
    AdmissionPhase(checks, s, x.inbound.command);
    CommandsIn(checks, s, h, t, x);
    TableIn(s, t, x);
    CountsQuiet(s, h, t, x);
    TurnsQuiet(s, h, t, x);
    AdmissionKeeps(checks, s, h, t, x);
  }

  lemma AdmittedKeeps(checks: Checks, s: PeerState, h: History, t: PeerState, x: Entry)
    requires Admits(checks, s, h, t, x)
    ensures Invariant(checks, Run(t, h + [x]))
  {
    hide Invariant, AdmissionRefusal, RecordAdmission;
    if x.inbound.command.Prompt? {
      PromptAdmitted(checks, s, h, t, x);
    } else if x.inbound.command.Abort? {
      AbortAdmitted(checks, s, h, t, x);
    } else {
      OtherAdmitted(checks, s, h, t, x);
    }
  }

  /** Every admitted command, and every refused one. */
  lemma InboundKeeps(id: Identity, checks: Checks, s: PeerState, h: History, f: InboundFrame, t: PeerState, reply: Reply)
    requires Invariant(checks, Run(s, h)) && (t, reply) == Admit(id, checks, s, f)
    ensures Invariant(checks, Run(t, if reply.Accepted? then h + [In(f)] else h))
  {
    hide Invariant, AdmissionRefusal, RecordAdmission;
    var u := s.(expectedIn := s.expectedIn + 1);
    CountersKeep(checks, s, h, u.expectedIn, s.expectedOut);
    if reply.Accepted? {
      AdmittedKeeps(checks, u, h, t, In(f));
    } else {
      FenceKeeps(checks, s, h);
      FenceKeeps(checks, u, h);
    }
  }

  // ---------- refused frames ----------

  lemma RefusedResultKeeps(checks: Checks, s: PeerState, h: History, f: OutboundFrame, t: PeerState, reply: Reply)
    requires Invariant(checks, Run(s, h)) && f.event.CommandResult? && reply.Refused?
    requires (t, reply) == ObserveResult(s, f.sequence, f.correlation, f.event.command, f.event.accepted)
    ensures Invariant(checks, Run(t, h))
  {
    hide Invariant, ObserveResult;
    FenceKeeps(checks, s, h);
    if t != Fence(s) {
      var m := MarkResult(s, f.correlation.value, f.event.command, f.event.accepted);
      FencedMarkKeeps(checks, s, h, m, f.correlation.value, f.event.accepted);
      CandidateDropKeeps(checks, Fence(m), h);
    }
  }

  lemma RefusedUsageKeeps(checks: Checks, s: PeerState, h: History, f: OutboundFrame, t: PeerState, reply: Reply)
    requires Invariant(checks, Run(s, h)) && f.event.UsageSnapshot? && reply.Refused?
    requires (t, reply) == ObserveUsage(s, f.sequence, f.correlation, f.event.usage)
    ensures Invariant(checks, Run(t, h))
  {
    hide Invariant, ObserveUsage, Track;
    FenceKeeps(checks, s, h);
    if t != Fence(s) { FencedUsageKeeps(checks, s, h, f.event.usage); }
  }

  lemma RefusedEventKeeps(id: Identity, checks: Checks, s: PeerState, h: History, f: OutboundFrame, t: PeerState, reply: Reply)
    requires Invariant(checks, Run(s, h)) && (t, reply) == ObserveEvent(id, checks, s, f) && reply.Refused?
    ensures Invariant(checks, Run(t, h))
  {
    hide Invariant, ObserveAdapterReady, ObserveSessionReady, ObserveResult, ObserveAgent, ObserveForumCall, ObserveUsage, ObserveSettled, ObserveDisposed, ObserveFatal;
    FenceKeeps(checks, s, h);
    if f.event.CommandResult? {
      RefusedResultKeeps(checks, s, h, f, t, reply);
    } else if f.event.UsageSnapshot? {
      RefusedUsageKeeps(checks, s, h, f, t, reply);
    }
  }

  lemma RefusedOutboundKeeps(id: Identity, checks: Checks, s: PeerState, h: History, f: OutboundFrame, t: PeerState, reply: Reply)
    requires Invariant(checks, Run(s, h)) && (t, reply) == ObserveOutbound(id, checks, s, f) && reply.Refused?
    ensures Invariant(checks, Run(t, h))
  {
    hide Invariant, ObserveEvent;
    var u := s.(expectedOut := s.expectedOut + 1);
    CountersKeep(checks, s, h, s.expectedIn, u.expectedOut);
    FenceKeeps(checks, s, h);
    if t != Fence(s) { RefusedEventKeeps(id, checks, u, h, f, t, reply); }
  }

  // ---------- whole runs ----------

  lemma StepKeeps(id: Identity, checks: Checks, r: Run, e: Event)
    requires Invariant(checks, r)
    ensures Invariant(checks, Next(id, checks, r, e))
  {
    hide Invariant, Admit, ObserveOutbound;
    assert r == Run(r.s, r.h);
    match e
    case Inbound(f) =>
      var (t, reply) := Admit(id, checks, r.s, f);
      InboundKeeps(id, checks, r.s, r.h, f, t, reply);
    case Outbound(f) =>
      var (t, reply) := ObserveOutbound(id, checks, r.s, f);
      if reply.Accepted? {
        OutboundKeeps(id, checks, r.s, r.h, f, t, reply);
      } else {
        RefusedOutboundKeeps(id, checks, r.s, r.h, f, t, reply);
      }
    case MalformedLine => FenceKeeps(checks, r.s, r.h);
    case EndOfOutput => FenceKeeps(checks, r.s, r.h);
  }

  /** Every state of every run answers for its whole history. */
  lemma {:induction false} InvariantHolds(id: Identity, checks: Checks, events: seq<Event>)
    ensures Invariant(checks, Execute(id, checks, events))
  {
    if events != [] {
      InvariantHolds(id, checks, events[..|events| - 1]);
      StepKeeps(id, checks, Execute(id, checks, events[..|events| - 1]), events[|events| - 1]);
    }
  }
}
