/** An accepted outbound frame extends the history and keeps the invariant, event by event. */
module PeerSteps {
  import opened Wrappers
  import opened Binary64
  import opened Usage
  import opened PeerProtocol
  import opened PeerSpec
  import opened PeerRuns
  import opened PeerInvariants

  // ---------- what an uneventful entry keeps ----------

  /** The frame's sequence number has just been consumed. */
  ghost predicate Arrived(s: PeerState, h: History, f: OutboundFrame) {
    f.sequence + 1 == s.expectedOut
    && forall i :: 0 <= i < |h| && h[i].Out? ==> h[i].outbound.sequence < f.sequence
  }

  lemma SequencesOut(s: PeerState, h: History, t: PeerState, x: Entry)
    requires SequencesIncrease(s, h) && x.Out? && Arrived(s, h, x.outbound) && t.expectedOut == s.expectedOut
    ensures SequencesIncrease(t, h + [x])
  {
  }

  lemma CommandsOut(checks: Checks, t: PeerState, h: History, x: Entry)
    requires CommandsAdmitted(checks, t, h) && x.Out?
    ensures CommandsAdmitted(checks, t, h + [x])
  {
    forall c | c in t.commands
      ensures exists i :: 0 <= i < |h + [x]| && (h + [x])[i].In? && (h + [x])[i].inbound.correlation == c
                          && (h + [x])[i].inbound.command.Name() == t.commands[c].name
    {
      var i :| 0 <= i < |h| && h[i].In? && h[i].inbound.correlation == c && h[i].inbound.command.Name() == t.commands[c].name;
      assert (h + [x])[i] == h[i];
    }
  }

  ghost predicate SameOrCleared<T>(t: Option<T>, s: Option<T>) {
    t == s || t == None
  }

  lemma CountsQuiet(s: PeerState, h: History, t: PeerState, x: Entry)
    requires PromptsCounted(s, h) && !AcceptsPrompt(x) && !(x.In? && x.inbound.command.Prompt?)
    requires t.settled == s.settled && t.taskPromptAdmitted == s.taskPromptAdmitted
    requires t.create == s.create || (s.create.None? && !s.taskPromptAdmitted)
    requires t.phase != Fatal ==> s.phase != Fatal && t.activeTurn.Some? == s.activeTurn.Some?
    ensures PromptsCounted(t, h + [x])
  {
    assert (h + [x])[..|h|] == h;
  }

  lemma ChargesQuiet(s: PeerState, h: History, t: PeerState, x: Entry)
    requires ChargesConserved(s, h) && t.latest == s.latest && (t.phase != Fatal ==> s.phase != Fatal)
    requires x.Out? && x.observation.Some? ==> !x.observation.value.UsageCharged?
    ensures ChargesConserved(t, h + [x])
  {
    assert (h + [x])[..|h|] == h;
  }

  lemma SettledKeep(s: PeerState, h: History, x: Entry)
    requires TurnsCertified(s, h)
    ensures forall k :: 0 <= k < |s.settled| && s.settled[k].outcome.Observed? ==> exists p, l :: Certifies(h + [x], s.settled[k], p, l)
  {
    forall k | 0 <= k < |s.settled| && s.settled[k].outcome.Observed?
      ensures exists p, l :: Certifies(h + [x], s.settled[k], p, l)
    {
      var p, l :| Certifies(h, s.settled[k], p, l);
      CertifiesExtends(h, x, s.settled[k], p, l);
    }
  }

  lemma PendingAbortKeeps(s: PeerState, h: History, x: Entry)
    requires TurnsCertified(s, h)
    ensures s.pendingPrompt.Some? && s.pendingPrompt.value.abortAdmitted ==>
      exists a, b :: 0 <= a < b < |h + [x]| && AdmitsPrompt((h + [x])[a], s.pendingPrompt.value.correlation) && AdmitsAbort((h + [x])[b])
  {
    if s.pendingPrompt.Some? && s.pendingPrompt.value.abortAdmitted {
      var a, b :| 0 <= a < b < |h| && AdmitsPrompt(h[a], s.pendingPrompt.value.correlation) && AdmitsAbort(h[b]);
      assert (h + [x])[a] == h[a] && (h + [x])[b] == h[b];
    }
  }

  lemma TurnsQuiet(s: PeerState, h: History, t: PeerState, x: Entry)
    requires TurnsCertified(s, h) && t.settled == s.settled
    requires SameOrCleared(t.pendingPrompt, s.pendingPrompt) && SameOrCleared(t.activeTurn, s.activeTurn)
    requires t.activeTurn.Some? ==> LeavesTurnAlone(x)
    ensures TurnsCertified(t, h + [x])
  {
    SettledKeep(s, h, x);
    PendingAbortKeeps(s, h, x);
    if t.activeTurn.Some? {
      var p :| Backed(h, s.activeTurn.value, p);
      BackedExtends(h, x, s.activeTurn.value, p);
    }
  }

  lemma DisposalQuiet(checks: Checks, s: PeerState, h: History, t: PeerState, x: Entry)
    requires DisposalCertified(checks, s, h) && x.Out? && !AcceptsPrompt(x) && t.firstPrompt == s.firstPrompt
    requires SameOrCleared(t.pendingDispose, s.pendingDispose) && SameOrCleared(t.activeDispose, s.activeDispose)
    requires t.phase == Disposed ==> s.phase == Disposed
    ensures DisposalCertified(checks, t, h + [x])
  {
    FirstPromptExtends(checks, h, x, s.firstPrompt, |h|);
    if t.pendingDispose.Some? {
      var d :| DisposeAdmitted(h, t.pendingDispose.value, d);
      assert DisposeAdmitted(h + [x], t.pendingDispose.value, d);
    }
    if t.activeDispose.Some? {
      var d :| DisposeBacked(h, t.activeDispose.value, d);
      assert DisposeBacked(h + [x], t.activeDispose.value, d);
    }
    if t.phase == Disposed {
      var d, l :| CertifiesDisposal(checks, h, d, l);
      DisposalExtends(checks, h, x, d, l);
    }
  }

  /** An accepted outbound frame that neither advances a turn nor charges. */
  lemma QuietOut(checks: Checks, s: PeerState, h: History, t: PeerState, x: Entry)
    requires Invariant(checks, Run(s, h))
    requires x.Out? && Arrived(s, h, x.outbound) && !AcceptsPrompt(x) && (IsAgent(x) ==> s.activeTurn.None?)
    requires x.observation.Some? ==> !x.observation.value.UsageCharged?
    requires SlotsMatchPhase(t) && TableMatchesSlots(t) && CommandsAdmitted(checks, t, h)
    requires t.expectedOut == s.expectedOut && t.settled == s.settled && t.latest == s.latest
    requires t.firstPrompt == s.firstPrompt && t.taskPromptAdmitted == s.taskPromptAdmitted
    requires t.create == s.create || (s.create.None? && !s.taskPromptAdmitted)
    requires SameOrCleared(t.pendingPrompt, s.pendingPrompt) && SameOrCleared(t.activeTurn, s.activeTurn)
    requires SameOrCleared(t.pendingDispose, s.pendingDispose) && SameOrCleared(t.activeDispose, s.activeDispose)
    requires t.phase != Fatal ==> s.phase != Fatal && t.activeTurn == s.activeTurn
    requires t.phase == Disposed ==> s.phase == Disposed
    ensures Invariant(checks, Run(t, h + [x]))
  {
    hide SlotsMatchPhase, TableMatchesSlots, CommandsAdmitted, SequencesIncrease, PromptsCounted, ChargesConserved, TurnsCertified, DisposalCertified;
    SequencesOut(s, h, t, x);
    CommandsOut(checks, t, h, x);
    CountsQuiet(s, h, t, x);
    ChargesQuiet(s, h, t, x);
    TurnsQuiet(s, h, t, x);
    DisposalQuiet(checks, s, h, t, x);
  }

  // ---------- one lemma per event ----------

  ghost predicate Expecting(checks: Checks, s: PeerState, h: History, f: OutboundFrame) {
    Invariant(checks, Run(s, h)) && Arrived(s, h, f)
  }

  lemma AdapterReadyKeeps(id: Identity, checks: Checks, s: PeerState, h: History, f: OutboundFrame, t: PeerState, reply: Reply)
    requires Expecting(checks, s, h, f) && f.event.AdapterReady? && reply.Accepted?
    requires (t, reply) == ObserveAdapterReady(id, checks, s, f.event.pid, f.event.spawnNonce, f.event.runtime)
    ensures Invariant(checks, Run(t, h + [Out(f, reply.observation)]))
  {
    QuietOut(checks, s, h, t, Out(f, reply.observation));
  }

  lemma SessionReadyKeeps(checks: Checks, s: PeerState, h: History, f: OutboundFrame, t: PeerState, reply: Reply)
    requires Expecting(checks, s, h, f) && f.event.SessionReady? && reply.Accepted?
    requires (t, reply) == ObserveSessionReady(checks, s, f.correlation, f.event.configuration)
    ensures Invariant(checks, Run(t, h + [Out(f, reply.observation)]))
  {
    QuietOut(checks, s, h, t, Out(f, reply.observation));
  }

  lemma ForumCallKeeps(checks: Checks, s: PeerState, h: History, f: OutboundFrame, t: PeerState, reply: Reply)
    requires Expecting(checks, s, h, f) && f.event.ForumToolCall? && reply.Accepted?
    requires (t, reply) == ObserveForumCall(s, f.correlation, f.event.toolCall, f.event.toolName)
    ensures Invariant(checks, Run(t, h + [Out(f, reply.observation)]))
  {
    QuietOut(checks, s, h, t, Out(f, reply.observation));
  }

  lemma FatalKeeps(checks: Checks, s: PeerState, h: History, f: OutboundFrame, t: PeerState, reply: Reply)
    requires Expecting(checks, s, h, f) && f.event.FatalFrame? && reply.Accepted?
    requires (t, reply) == ObserveFatal(s, f.event.failureCode)
    ensures Invariant(checks, Run(t, h + [Out(f, reply.observation)]))
  {
    QuietOut(checks, s, h, t, Out(f, reply.observation));
  }

  // ---------- command results ----------

  /** `m` is `s` with the result of the still open command `c` marked. */
  ghost predicate Marks(s: PeerState, m: PeerState, f: OutboundFrame, c: Correlation) {
    && f.event.CommandResult? && f.correlation == Some(c)
    && c in s.commands && !s.commands[c].resultSeen && s.commands[c].name == f.event.command
    && m == MarkResult(s, c, f.event.command, f.event.accepted)
  }

  /** The slots `t` still has are not waiting for the command just answered. */
  lemma MarkedTable(s: PeerState, m: PeerState, t: PeerState, f: OutboundFrame, c: Correlation)
    requires TableMatchesSlots(s) && Marks(s, m, f, c)
    requires t.commands == m.commands && t.completed == m.completed && t.promptDigests == s.promptDigests && t.settled == s.settled
    requires SameOrCleared(t.pendingPrompt, s.pendingPrompt) && SameOrCleared(t.pendingDispose, s.pendingDispose)
    requires t.pendingPrompt.Some? ==> !f.event.command.PromptName?
    requires t.pendingDispose.Some? ==> !f.event.command.DisposeName?
    requires t.activeTurn == s.activeTurn || (t.activeTurn.Some? && t.activeTurn.value.correlation == c)
    ensures TableMatchesSlots(t)
  {
  }

  lemma MarkedCommands(checks: Checks, s: PeerState, m: PeerState, t: PeerState, h: History, f: OutboundFrame, c: Correlation)
    requires CommandsAdmitted(checks, s, h) && Marks(s, m, f, c)
    requires t.commands == m.commands && t.promptDigests == s.promptDigests
    ensures CommandsAdmitted(checks, t, h)
  {
    assert forall k :: k in t.commands ==> k in s.commands && t.commands[k].name == s.commands[k].name;
  }

  lemma OtherResultKeeps(checks: Checks, s: PeerState, m: PeerState, t: PeerState, h: History, f: OutboundFrame, c: Correlation)
    requires Expecting(checks, s, h, f) && Marks(s, m, f, c) && s.phase != Fatal
    requires !f.event.command.PromptName? && !f.event.command.DisposeName?
    requires t == m || (s.createCandidate.Some? && f.event.accepted
                        && t == m.(createCandidate := None, create := Some(s.createCandidate.value.1), phase := Creating))
    ensures Invariant(checks, Run(t, h + [Out(f, None)]))
  {
    hide TableMatchesSlots, CommandsAdmitted, SequencesIncrease, PromptsCounted, ChargesConserved, TurnsCertified, DisposalCertified;
    MarkedTable(s, m, t, f, c);
    MarkedCommands(checks, s, m, t, h, f, c);
    QuietOut(checks, s, h, t, Out(f, None));
  }

  lemma PromptRejectedKeeps(checks: Checks, s: PeerState, m: PeerState, t: PeerState, h: History, f: OutboundFrame, c: Correlation)
    requires Expecting(checks, s, h, f) && Marks(s, m, f, c) && s.phase != Fatal && f.event == CommandResult(PromptName, false)
    requires t == m.(pendingPrompt := None)
    ensures Invariant(checks, Run(t, h + [Out(f, None)]))
  {
    hide TableMatchesSlots, CommandsAdmitted, SequencesIncrease, PromptsCounted, ChargesConserved, TurnsCertified, DisposalCertified;
    MarkedTable(s, m, t, f, c);
    MarkedCommands(checks, s, m, t, h, f, c);
    QuietOut(checks, s, h, t, Out(f, None));
  }

  /** An accepted prompt opens a turn. */
  ghost predicate OpensTurn(s: PeerState, m: PeerState, t: PeerState, c: Correlation) {
    && s.pendingPrompt.Some? && s.pendingPrompt.value.correlation == c && c in s.promptDigests
    && t == m.(pendingPrompt := None,
               firstPrompt := if s.firstPrompt.Some? then s.firstPrompt else Some(s.promptDigests[c]),
               activeTurn := Some(ActiveTurn(c, AwaitingAgentStart, None, s.pendingPrompt.value.abortAdmitted)))
  }

  lemma PromptAdmission(checks: Checks, s: PeerState, h: History) returns (a: nat)
    requires CommandsAdmitted(checks, s, h) && TableMatchesSlots(s) && s.pendingPrompt.Some?
    ensures a < |h| && AdmitsPrompt(h[a], s.pendingPrompt.value.correlation)
    ensures s.promptDigests[s.pendingPrompt.value.correlation] == checks.digest(h[a].inbound.command.text)
  {
    var c := s.pendingPrompt.value.correlation;
    var i :| 0 <= i < |h| && h[i].In? && h[i].inbound.correlation == c && h[i].inbound.command.Name() == s.commands[c].name;
    a := i;
  }

  lemma OpenedTurnCertified(checks: Checks, s: PeerState, m: PeerState, t: PeerState, h: History, x: Entry, c: Correlation)
    requires CommandsAdmitted(checks, s, h) && TableMatchesSlots(s) && TurnsCertified(s, h)
    requires IsResult(x, c, PromptName, true) && OpensTurn(s, m, t, c) && t.settled == s.settled
    ensures TurnsCertified(t, h + [x])
  {
    SettledKeep(s, h, x);
    var a := PromptAdmission(checks, s, h);
    var b: nat := 0;
    if s.pendingPrompt.value.abortAdmitted {
      var i, j :| 0 <= i < j < |h| && AdmitsPrompt(h[i], c) && AdmitsAbort(h[j]);
      a, b := i, j;
    }
    assert Backed(h + [x], t.activeTurn.value, Positions(a, |h|, 0, 0, 0, b));
  }

  lemma OpenedTurnDisposal(checks: Checks, s: PeerState, m: PeerState, t: PeerState, h: History, x: Entry, c: Correlation)
    requires CommandsAdmitted(checks, s, h) && TableMatchesSlots(s) && DisposalCertified(checks, s, h) && SlotsMatchPhase(s)
    requires IsResult(x, c, PromptName, true) && OpensTurn(s, m, t, c)
    requires t.pendingDispose == s.pendingDispose && t.activeDispose == s.activeDispose && t.phase == s.phase
    ensures DisposalCertified(checks, t, h + [x])
  {
    var a := PromptAdmission(checks, s, h);
    if s.firstPrompt.None? {
      assert FirstAccepted(h + [x], a, |h|, |h| + 1);
    } else {
      var i: nat, j: nat :| FirstAccepted(h, i, j, |h|) && s.firstPrompt.value == checks.digest(h[i].inbound.command.text);
      assert FirstAccepted(h + [x], i, j, |h| + 1);
    }
  }

  lemma PromptAcceptedKeeps(checks: Checks, s: PeerState, m: PeerState, t: PeerState, h: History, f: OutboundFrame, c: Correlation)
    requires Expecting(checks, s, h, f) && Marks(s, m, f, c) && s.phase != Fatal && f.event == CommandResult(PromptName, true)
    requires OpensTurn(s, m, t, c)
    ensures Invariant(checks, Run(t, h + [Out(f, None)]))
  {
    hide TableMatchesSlots, CommandsAdmitted, SequencesIncrease, ChargesConserved, TurnsCertified, DisposalCertified;
    var x := Out(f, None);
    MarkedTable(s, m, t, f, c);
    MarkedCommands(checks, s, m, t, h, f, c);
    OpenedTurnCertified(checks, s, m, t, h, x, c);
    OpenedTurnDisposal(checks, s, m, t, h, x, c);
    SequencesOut(s, h, t, x);
    CommandsOut(checks, t, h, x);
    ChargesQuiet(s, h, t, x);
    assert (h + [x])[..|h|] == h;
  }

  lemma BeginsDisposal(checks: Checks, s: PeerState, h: History, q: PeerState, t: PeerState, x: Entry, c: Correlation)
    requires DisposalCertified(checks, s, h) && s.pendingDispose == Some(c)
    requires IsResult(x, c, DisposeName, true) && Invariant(checks, Run(q, h + [x])) && q.phase == Ready
    requires q.pendingPrompt.None? && q.activeTurn.None? && q.pendingDispose.None?
    requires t == q.(phase := Closing, activeDispose := Some(ActiveDispose(c, x.outbound.sequence, None)))
    ensures Invariant(checks, Run(t, h + [x]))
  {
    var d :| DisposeAdmitted(h, c, d);
    assert DisposeBacked(h + [x], t.activeDispose.value, d.(accepted := |h|));
    hide CommandsAdmitted, Certifies, Backed, FirstPromptIs, SequencesIncrease, CertifiesDisposal, DisposeBacked;
  }

  lemma DisposeAcceptedKeeps(checks: Checks, s: PeerState, m: PeerState, t: PeerState, h: History, f: OutboundFrame, c: Correlation)
    requires Expecting(checks, s, h, f) && Marks(s, m, f, c) && f.event == CommandResult(DisposeName, true)
    requires s.pendingDispose == Some(c)
    requires t == m.(pendingDispose := None, phase := Closing, activeDispose := Some(ActiveDispose(c, f.sequence, None)))
    ensures Invariant(checks, Run(t, h + [Out(f, None)]))
  {
    hide TableMatchesSlots, CommandsAdmitted, SequencesIncrease, PromptsCounted, ChargesConserved, TurnsCertified, DisposalCertified;
    var x := Out(f, None);
    var q := t.(phase := Ready, activeDispose := None);
    MarkedTable(s, m, q, f, c);
    MarkedCommands(checks, s, m, q, h, f, c);
    QuietOut(checks, s, h, q, x);
    BeginsDisposal(checks, s, h, q, t, x, c);
  }

  lemma AcceptedResultKeeps(checks: Checks, s: PeerState, m: PeerState, t: PeerState, h: History, f: OutboundFrame, c: Correlation)
    requires Expecting(checks, s, h, f) && Marks(s, m, f, c) && s.phase != Fatal && f.event.accepted
    requires BeginAccepted(m, f.sequence, c, f.event.command) == (t, Accepted(None))
    ensures Invariant(checks, Run(t, h + [Out(f, None)]))
  {
    assert s.pendingPrompt.Some? ==> s.pendingPrompt.value.correlation in s.promptDigests;
    hide Invariant, Arrived;
    match f.event.command
    case PromptName => PromptAcceptedKeeps(checks, s, m, t, h, f, c);
    case DisposeName => DisposeAcceptedKeeps(checks, s, m, t, h, f, c);
    case _ => OtherResultKeeps(checks, s, m, t, h, f, c);
  }

  lemma ResultKeeps(checks: Checks, s: PeerState, h: History, f: OutboundFrame, t: PeerState, reply: Reply)
    requires Expecting(checks, s, h, f) && f.event.CommandResult? && s.phase != Fatal && reply.Accepted?
    requires (t, reply) == ObserveResult(s, f.sequence, f.correlation, f.event.command, f.event.accepted)
    ensures Invariant(checks, Run(t, h + [Out(f, reply.observation)]))
  {
    hide Invariant, Arrived, BeginAccepted;
    var c := f.correlation.value;
    var m := MarkResult(s, c, f.event.command, f.event.accepted);
    if f.event.accepted {
      AcceptedResultKeeps(checks, s, m, t, h, f, c);
    } else if f.event.command.PromptName? {
      PromptRejectedKeeps(checks, s, m, t, h, f, c);
    } else {
      OtherResultKeeps(checks, s, m, t, h, f, c);
    }
  }

  // ---------- agent events ----------

  lemma AttemptGrows(w: seq<Mark>, m: Mark)
    requires AttemptWord(w) && (m == RetryingEnd || (m == Start && w[|w| - 1] == RetryingEnd))
    ensures AttemptWord(w + [m]) && (w + [m])[|w|] == m
  {
    assert (w + [m])[..|w|] == w;
  }

  lemma AttemptStarts(h: History, x: Entry, t: ActiveTurn, p: Positions)
    requires EvidenceBacked(h, t, p) && p.accepted < |h| && MarksOf(x) == [Start]
    requires t.evidence.AwaitingAgentStart? || t.evidence.RetryLifecycle?
    ensures EvidenceBacked(h + [x], t.(evidence := ActiveAttempt), p)
  {
    hide Word, MarksOf, EndedWith, SettledAfterEnd;
    WordAppends(h, x, p.accepted + 1);
    if t.evidence.RetryLifecycle? {
      AttemptGrows(Word(h, p.accepted + 1, |h|), Start);
    } else {
      assert Word(h + [x], p.accepted + 1, |h| + 1) == [Start];
    }
  }

  lemma AttemptRetries(h: History, x: Entry, t: ActiveTurn, p: Positions)
    requires EvidenceBacked(h, t, p) && p.accepted < |h| && MarksOf(x) == [RetryingEnd]
    requires t.evidence.ActiveAttempt? || t.evidence.RetryLifecycle?
    ensures EvidenceBacked(h + [x], t.(evidence := RetryLifecycle), p)
  {
    hide Word, MarksOf, AttemptWord, EndedWith, SettledAfterEnd;
    WordAppends(h, x, p.accepted + 1);
    AttemptGrows(Word(h, p.accepted + 1, |h|), RetryingEnd);
  }

  lemma AttemptEnds(h: History, x: Entry, t: ActiveTurn, p: Positions, stop: StopReason)
    requires EvidenceBacked(h, t, p) && p.accepted < |h| && MarksOf(x) == [FinalEnd(stop)]
    requires t.evidence.ActiveAttempt? || t.evidence.RetryLifecycle?
    ensures EvidenceBacked(h + [x], t.(evidence := AwaitingAgentSettled(stop)), p.(ended := |h|))
  {
    hide MarksOf, AttemptWord, SettledAfterEnd;
    WordExtends(h, x, p.accepted + 1, |h|);
  }

  lemma AgentSettles(h: History, x: Entry, t: ActiveTurn, p: Positions)
    requires EvidenceBacked(h, t, p) && MarksOf(x) == [AllSettled] && IsAgent(x) && t.evidence.AwaitingAgentSettled?
    ensures EvidenceBacked(h + [x], t.(evidence := AwaitingFinalPromptUsage(t.evidence.stop, x.outbound.sequence)), p.(settled := |h|))
  {
    hide MarksOf, AttemptWord, Word, EndedWith;
    var q := p.(settled := |h|);
    EndedInside(h, p, t.evidence.stop);
    EndedExtends(h, x, p, t.evidence.stop, |h|);
    EndedElsewhere(h + [x], p, q, t.evidence.stop);
    WordExtends(h, x, p.ended + 1, |h|);
  }

  /** Where a turn ended does not depend on what was recorded of it afterwards. */
  lemma EndedElsewhere(h: History, p: Positions, q: Positions, stop: StopReason)
    requires EndedWith(h, p, stop, |h|) && q.accepted == p.accepted && q.ended == p.ended
    ensures EndedWith(h, q, stop, |h|)
  {
  }

  /** The history that backed a turn, extended by an agent event, backs its next evidence phase. */
  lemma EvidenceAdvances(h: History, x: Entry, t: ActiveTurn, p: Positions, e: Evidence) returns (q: Positions)
    requires EvidenceBacked(h, t, p) && p.accepted < |h|
    requires x.Out? && x.outbound.correlation == Some(t.correlation) && x.outbound.event.Agent?
    requires Observe(t.evidence, x.outbound.event.event, x.outbound.sequence) == Some(e)
    ensures EvidenceBacked(h + [x], t.(evidence := e), q)
    ensures q.admitted == p.admitted && q.accepted == p.accepted && q.abort == p.abort
    ensures if OutcomeOpen(t.evidence) && !OutcomeOpen(e) then q.ended == |h| else q.ended == p.ended && OutcomeOpen(t.evidence) == OutcomeOpen(e)
  {
    hide EvidenceBacked;
    q := p;
    match x.outbound.event.event
    case AgentStart => AttemptStarts(h, x, t, p);
    case AgentEnd(messages, willRetry) =>
      if willRetry {
        AttemptRetries(h, x, t, p);
      } else {
        AttemptEnds(h, x, t, p, FinalStop(messages).value);
        q := p.(ended := |h|);
      }
    case AgentSettled =>
      AgentSettles(h, x, t, p);
      q := p.(settled := |h|);
    case OtherProjected => EvidenceExtends(h, x, t, p);
  }

  lemma AbortAdvances(h: History, x: Entry, t: ActiveTurn, p: Positions, e: Evidence, q: Positions)
    requires AbortBacked(h, t, p) && q.admitted == p.admitted && q.abort == p.abort
    requires if OutcomeOpen(t.evidence) && !OutcomeOpen(e) then q.ended == |h| else q.ended == p.ended && OutcomeOpen(t.evidence) == OutcomeOpen(e)
    ensures AbortBacked(h + [x], t.(evidence := e), q)
  {
  }

  lemma OpenedElsewhere(h: History, c: Correlation, p: Positions, q: Positions)
    requires Opened(h, c, p, |h|) && q.admitted == p.admitted && q.accepted == p.accepted
    ensures Opened(h, c, q, |h|) && p.accepted < |h|
  {
  }

  lemma TurnAdvances(h: History, x: Entry, t: ActiveTurn, p: Positions, e: Evidence) returns (q: Positions)
    requires Backed(h, t, p) && x.Out? && x.outbound.correlation == Some(t.correlation) && x.outbound.event.Agent?
    requires Observe(t.evidence, x.outbound.event.event, x.outbound.sequence) == Some(e)
    ensures Backed(h + [x], t.(evidence := e), q)
  {
    hide EvidenceBacked, AbortBacked, Opened, Observe;
    OpenedElsewhere(h, t.correlation, p, p);
    q := EvidenceAdvances(h, x, t, p, e);
    AbortAdvances(h, x, t, p, e, q);
    OpenedExtends(h, x, t.correlation, p, |h|);
    OpenedElsewhere(h + [x], t.correlation, p, q);
  }

  lemma EvidenceKeeps(checks: Checks, s: PeerState, h: History, t: PeerState, x: Entry, e: Evidence)
    requires Invariant(checks, Run(s, h)) && x.Out? && Arrived(s, h, x.outbound) && s.activeTurn.Some?
    requires x.outbound.correlation == Some(s.activeTurn.value.correlation) && x.outbound.event.Agent? && x.observation.None?
    requires Observe(s.activeTurn.value.evidence, x.outbound.event.event, x.outbound.sequence) == Some(e)
    requires t == s.(activeTurn := Some(s.activeTurn.value.(evidence := e)))
    ensures Invariant(checks, Run(t, h + [x]))
  {
    hide CommandsAdmitted, SequencesIncrease, PromptsCounted, ChargesConserved, Observe, Backed, DisposalCertified;
    SequencesOut(s, h, t, x);
    CommandsOutSame(checks, s, h, t, x);
    CountsQuiet(s, h, t, x);
    ChargesQuiet(s, h, t, x);
    DisposalQuiet(checks, s, h, t, x);
    SettledKeep(s, h, x);
    var p :| Backed(h, s.activeTurn.value, p);
    var q := TurnAdvances(h, x, s.activeTurn.value, p, e);
  }

  lemma CommandsOutSame(checks: Checks, s: PeerState, h: History, t: PeerState, x: Entry)
    requires CommandsAdmitted(checks, s, h) && x.Out? && t.commands == s.commands && t.promptDigests == s.promptDigests
    ensures CommandsAdmitted(checks, t, h + [x])
  {
    CommandsOut(checks, s, h, x);
  }

  lemma AgentKeeps(checks: Checks, s: PeerState, h: History, f: OutboundFrame, t: PeerState, reply: Reply)
    requires Expecting(checks, s, h, f) && f.event.Agent? && reply.Accepted?
    requires (t, reply) == ObserveAgent(s, f.sequence, f.correlation, f.event.event)
    ensures Invariant(checks, Run(t, h + [Out(f, reply.observation)]))
  {
    var x := Out(f, None);
    if s.activeTurn.None? {
      QuietOut(checks, s, h, s, x);
    } else {
      hide Invariant;
      EvidenceKeeps(checks, s, h, t, x, t.activeTurn.value.evidence);
    }
  }

  // ---------- usage, settlement, disposal ----------

  /** The turn after a known snapshot: a prompt-correlated one closes the evidence it was waiting for. */
  lemma TurnCharged(h: History, x: Entry, t: ActiveTurn, p: Positions) returns (q: Positions)
    requires Backed(h, t, p) && IsKnownUsage(x, t.correlation) && t.evidence.AwaitingFinalPromptUsage?
    ensures var u := x.outbound.sequence;
      Backed(h + [x], t.(evidence := AwaitingSettledFrame(t.evidence.stop, t.evidence.settledSequence, u), latestUsage := Some(u)), q)
  {
    hide Opened, AttemptWord, Word, EndedWith;
    q := p.(charged := |h|);
    OpenedExtends(h, x, t.correlation, p, |h|);
    OpenedElsewhere(h + [x], t.correlation, p, q);
    EndedExtends(h, x, p, t.evidence.stop, |h|);
    EndedElsewhere(h + [x], p, q, t.evidence.stop);
    SettledExtends(h, x, p, |h|);
  }

  /** Elsewhere a prompt-correlated snapshot only moves the latest usage. */
  lemma TurnRecharged(h: History, x: Entry, t: ActiveTurn, p: Positions, u: nat)
    requires Backed(h, t, p) && LeavesTurnAlone(x)
    requires !t.evidence.AwaitingSettledFrame?
    ensures Backed(h + [x], t.(latestUsage := Some(u)), p)
  {
    hide Opened, EndedWith, SettledAfterEnd, AttemptWord, Word, LeavesTurnAlone;
    BackedExtends(h, x, t, p);
  }

  lemma TurnAfterUsage(h: History, x: Entry, c: Correlation, t: ActiveTurn, u: ActiveTurn, p: Positions) returns (q: Positions)
    requires Backed(h, t, p) && IsKnownUsage(x, c) && NoteTurnUsage(t, x.outbound.sequence, c) == Some(u)
    ensures Backed(h + [x], u, q)
  {
    hide Backed;
    q := p;
    BackedExtends(h, x, t, p);
    if c == t.correlation {
      if t.evidence.AwaitingFinalPromptUsage? {
        q := TurnCharged(h, x, t, p);
      } else {
        TurnRecharged(h, x, t, p, x.outbound.sequence);
      }
    }
  }

  lemma TurnsAfterUsage(s: PeerState, h: History, t: PeerState, x: Entry, c: Correlation)
    requires TurnsCertified(s, h) && IsKnownUsage(x, c) && NoteUsage(s, x.outbound.sequence, c) == Some(t)
    ensures TurnsCertified(t, h + [x])
  {
    hide Backed, NoteTurnUsage, Certifies;
    SettledKeep(s, h, x);
    PendingAbortKeeps(s, h, x);
    if s.activeTurn.Some? {
      var p :| Backed(h, s.activeTurn.value, p);
      var q := TurnAfterUsage(h, x, c, s.activeTurn.value, t.activeTurn.value, p);
    }
  }

  lemma DisposeCharges(h: History, x: Entry, a: ActiveDispose, d: DisposePositions)
    requires DisposeBacked(h, a, d) && a.usageSequence.None?
    requires IsKnownUsage(x, a.correlation) && x.outbound.sequence == a.acceptedSequence + 1
    ensures DisposeBacked(h + [x], a.(usageSequence := Some(x.outbound.sequence)), d.(charged := |h|))
  {
  }

  lemma DisposalAfterUsage(checks: Checks, s: PeerState, h: History, t: PeerState, x: Entry, c: Correlation)
    requires DisposalCertified(checks, s, h) && IsKnownUsage(x, c)
    requires UsageRefusal(s, x.outbound.sequence, Some(c)).None?
    requires NoteUsage(s, x.outbound.sequence, c) == Some(t)
    ensures DisposalCertified(checks, t, h + [x])
  {
    hide DisposeBacked, FirstPromptIs, CertifiesDisposal, DisposeAdmitted, NoteTurnUsage;
    DisposalQuiet(checks, s, h, t.(activeDispose := None), x);
    if s.activeDispose.Some? {
      var d :| DisposeBacked(h, s.activeDispose.value, d);
      DisposeCharges(h, x, s.activeDispose.value, d);
    }
  }

  lemma ChargesAfterUsage(s: PeerState, h: History, t: PeerState, x: Entry, usage: UsageObservation)
    requires ChargesConserved(s, h) && s.phase != Fatal && Track(s.latest, usage).Ok?
    requires t.latest == Some(Track(s.latest, usage).value.0)
    requires x.Out? && x.observation == Some(UsageCharged(Track(s.latest, usage).value.1))
    ensures ChargesConserved(t, h + [x])
  {
    assert (h + [x])[..|h|] == h;
    TrackConserves(s.latest, usage);
    hide Track;
  }

  /** Only the charges look at the latest snapshot. */
  lemma LatestIsApart(checks: Checks, s: PeerState, h: History, current: NormalizedUsage)
    requires Invariant(checks, Run(s, h))
    ensures var r := s.(latest := Some(current));
      SlotsMatchPhase(r) && TableMatchesSlots(r) && SequencesIncrease(r, h) && CommandsAdmitted(checks, r, h)
      && PromptsCounted(r, h) && TurnsCertified(r, h) && DisposalCertified(checks, r, h)
  {
  }

  lemma SlotsAfterUsage(r: PeerState, sequence: nat, c: Correlation, t: PeerState)
    requires SlotsMatchPhase(r) && TableMatchesSlots(r) && NoteUsage(r, sequence, c) == Some(t)
    ensures SlotsMatchPhase(t) && TableMatchesSlots(t)
  {
  }

  lemma KnownUsageKeeps(checks: Checks, s: PeerState, h: History, t: PeerState, x: Entry, c: Correlation)
    requires Invariant(checks, Run(s, h)) && s.phase != Fatal && IsKnownUsage(x, c) && Arrived(s, h, x.outbound)
    requires UsageRefusal(s, x.outbound.sequence, Some(c)).None?
    requires Track(s.latest, x.outbound.event.usage).Ok?
    requires x.observation == Some(UsageCharged(Track(s.latest, x.outbound.event.usage).value.1))
    requires NoteUsage(s.(latest := Some(Track(s.latest, x.outbound.event.usage).value.0)), x.outbound.sequence, c) == Some(t)
    ensures Invariant(checks, Run(t, h + [x]))
  {
    hide SlotsMatchPhase, TableMatchesSlots, CommandsAdmitted, SequencesIncrease, PromptsCounted, ChargesConserved, TurnsCertified, DisposalCertified, NoteTurnUsage, Track;
    var r := s.(latest := Some(Track(s.latest, x.outbound.event.usage).value.0));
    LatestIsApart(checks, s, h, r.latest.value);
    SlotsAfterUsage(r, x.outbound.sequence, c, t);
    SequencesOut(r, h, t, x);
    CommandsOutSame(checks, r, h, t, x);
    CountsQuiet(r, h, t, x);
    ChargesAfterUsage(s, h, t, x, x.outbound.event.usage);
    TurnsAfterUsage(r, h, t, x, c);
    DisposalAfterUsage(checks, r, h, t, x, c);
  }

  lemma UsageKeeps(checks: Checks, s: PeerState, h: History, f: OutboundFrame, t: PeerState, reply: Reply)
    requires Expecting(checks, s, h, f) && f.event.UsageSnapshot? && s.phase != Fatal && reply.Accepted?
    requires (t, reply) == ObserveUsage(s, f.sequence, f.correlation, f.event.usage)
    ensures Invariant(checks, Run(t, h + [Out(f, reply.observation)]))
  {
    hide CommandsAdmitted, SequencesIncrease, PromptsCounted, ChargesConserved, TurnsCertified, DisposalCertified, Track, NoteUsage;
    var x := Out(f, reply.observation);
    if f.event.usage.Unavailable? {
      FenceKeeps(checks, s, h);
      QuietOut(checks, s, h, t, x);
    } else {
      assert IsKnownUsage(x, f.correlation.value);
      KnownUsageKeeps(checks, s, h, t, x, f.correlation.value);
    }
  }

  /** The turn's evidence, once closed, certifies the receipt its Settled frame produces. */
  lemma SettlementCertified(s: PeerState, h: History, x: Entry, classification: Classification, outcome: Outcome, r: TurnReceipt, p: Positions)
    requires SequencesIncrease(s, h) && x.Out? && Arrived(s, h, x.outbound) && s.activeTurn.Some?
    requires Backed(h, s.activeTurn.value, p) && outcome.Observed?
    requires x.outbound.correlation == Some(s.activeTurn.value.correlation)
    requires x.outbound.event == Settled(classification, outcome)
    requires DispositionOf(classification, outcome, s.activeTurn.value.abortAdmitted) == Some(r.disposition)
    requires r.correlation == s.activeTurn.value.correlation && r.outcome == outcome
    requires EvidenceClosed(s.activeTurn.value, outcome.stop, x.outbound.sequence)
    ensures Certifies(h + [x], r, p, |h|)
  {
    OpenedExtends(h, x, r.correlation, p, |h|);
    EndedExtends(h, x, p, outcome.stop, |h|);
    SettledExtends(h, x, p, |h|);
    hide Opened, EndedWith, SettledAfterEnd;
  }

  lemma SettledKeeps(checks: Checks, s: PeerState, h: History, f: OutboundFrame, t: PeerState, reply: Reply)
    requires Expecting(checks, s, h, f) && f.event.Settled? && s.phase != Fatal && reply.Accepted?
    requires (t, reply) == ObserveSettled(s, f.sequence, f.correlation, f.event.classification, f.event.outcome)
    ensures Invariant(checks, Run(t, h + [Out(f, reply.observation)]))
  {
    var x := Out(f, reply.observation);
    var receipt := reply.observation.value.receipt;
    var u := s.(settled := s.settled + [receipt], activeTurn := None);
    SettledTurns(checks, s, h, u, x, f.event.classification, f.event.outcome, receipt);
    if receipt.disposition == ProtocolFailed { FenceKeeps(checks, u, h + [x]); }
    hide Invariant;
  }

  lemma SettledTurns(checks: Checks, s: PeerState, h: History, u: PeerState, x: Entry, classification: Classification, outcome: Outcome, r: TurnReceipt)
    requires Invariant(checks, Run(s, h)) && s.phase != Fatal && x.Out? && Arrived(s, h, x.outbound) && s.activeTurn.Some?
    requires x.outbound.correlation == Some(s.activeTurn.value.correlation)
    requires x.outbound.event == Settled(classification, outcome) && x.observation == Some(TurnSettled(r))
    requires DispositionOf(classification, outcome, s.activeTurn.value.abortAdmitted) == Some(r.disposition)
    requires r.correlation == s.activeTurn.value.correlation && r.outcome == outcome
    requires outcome.Observed? ==> EvidenceClosed(s.activeTurn.value, outcome.stop, x.outbound.sequence)
    requires u == s.(settled := s.settled + [r], activeTurn := None)
    ensures Invariant(checks, Run(u, h + [x]))
  {
    hide CommandsAdmitted, SequencesIncrease, ChargesConserved, DisposalCertified, DispositionOf, EvidenceClosed, Backed, Certifies;
    SequencesOut(s, h, u, x);
    CommandsOutSame(checks, s, h, u, x);
    ChargesQuiet(s, h, u, x);
    DisposalQuiet(checks, s, h, u, x);
    SettledKeep(s, h, x);
    assert (h + [x])[..|h|] == h;
    var p :| Backed(h, s.activeTurn.value, p);
    if outcome.Observed? { SettlementCertified(s, h, x, classification, outcome, r, p); }
  }

  /** The closed chain certifies the disposal its Disposed frame completes. */
  lemma DisposedCertified(id: Identity, checks: Checks, s: PeerState, h: History, x: Entry, d: DisposePositions)
    requires SequencesIncrease(s, h) && x.Out? && Arrived(s, h, x.outbound) && x.outbound.event.DisposedFrame?
    requires s.activeDispose.Some? && s.activeDispose.value.usageSequence == Some(x.outbound.sequence - 1)
    requires DisposeBacked(h, s.activeDispose.value, d)
    requires x.outbound.correlation == Some(s.activeDispose.value.correlation)
    requires FirstPromptIs(checks, h, s.firstPrompt, |h|) && TranscriptMatches(id, checks, s, x.outbound.event.receipt)
    ensures CertifiesDisposal(checks, h + [x], d, |h|)
  {
    FirstPromptExtends(checks, h, x, s.firstPrompt, |h|);
    hide FirstPromptIs;
  }

  lemma DisposedKeeps(id: Identity, checks: Checks, s: PeerState, h: History, f: OutboundFrame, t: PeerState, reply: Reply)
    requires Expecting(checks, s, h, f) && f.event.DisposedFrame? && reply.Accepted?
    requires (t, reply) == ObserveDisposed(id, checks, s, f.sequence, f.correlation, f.event.receipt)
    ensures Invariant(checks, Run(t, h + [Out(f, reply.observation)]))
  {
    hide CommandsAdmitted, SequencesIncrease, PromptsCounted, ChargesConserved, TurnsCertified, TranscriptMatches, FirstPromptIs, DisposeBacked, CertifiesDisposal;
    var x := Out(f, reply.observation);
    var d :| DisposeBacked(h, s.activeDispose.value, d);
    DisposedCertified(id, checks, s, h, x, d);
    SequencesOut(s, h, t, x);
    CommandsOutSame(checks, s, h, t, x);
    CountsQuiet(s, h, t, x);
    ChargesQuiet(s, h, t, x);
    TurnsQuiet(s, h, t, x);
    FirstPromptExtends(checks, h, x, s.firstPrompt, |h|);
  }

  lemma EventKeeps(id: Identity, checks: Checks, s: PeerState, h: History, f: OutboundFrame, t: PeerState, reply: Reply)
    requires Expecting(checks, s, h, f) && (s.phase != Fatal || f.event.FatalFrame?) && reply.Accepted?
    requires (t, reply) == ObserveEvent(id, checks, s, f)
    ensures Invariant(checks, Run(t, h + [Out(f, reply.observation)]))
  {
    hide Invariant, Expecting, ObserveAdapterReady, ObserveSessionReady, ObserveResult, ObserveAgent, ObserveForumCall, ObserveUsage, ObserveSettled, ObserveDisposed, ObserveFatal;
    match f.event
    case AdapterReady(_, _, _) => AdapterReadyKeeps(id, checks, s, h, f, t, reply);
    case SessionReady(_) => SessionReadyKeeps(checks, s, h, f, t, reply);
    case CommandResult(_, _) => ResultKeeps(checks, s, h, f, t, reply);
    case Agent(_) => AgentKeeps(checks, s, h, f, t, reply);
    case ForumToolCall(_, _) => ForumCallKeeps(checks, s, h, f, t, reply);
    case UsageSnapshot(_) => UsageKeeps(checks, s, h, f, t, reply);
    case Settled(_, _) => SettledKeeps(checks, s, h, f, t, reply);
    case DisposedFrame(_) => DisposedKeeps(id, checks, s, h, f, t, reply);
    case FatalFrame(_) => FatalKeeps(checks, s, h, f, t, reply);
  }

  /** Every accepted outbound frame. */
  lemma OutboundKeeps(id: Identity, checks: Checks, s: PeerState, h: History, f: OutboundFrame, t: PeerState, reply: Reply)
    requires Invariant(checks, Run(s, h)) && reply.Accepted?
    requires (t, reply) == ObserveOutbound(id, checks, s, f)
    ensures Invariant(checks, Run(t, h + [Out(f, reply.observation)]))
  {
    hide ObserveEvent;
    var u := s.(expectedOut := s.expectedOut + 1);
    CountersKeep(checks, s, h, s.expectedIn, u.expectedOut);
    assert Arrived(u, h, f);
    hide Invariant, Arrived;
    EventKeeps(id, checks, u, h, f, t, reply);
  }
}
