/** What every step of the boundary peer keeps. */
module PeerInvariants {
  import opened Wrappers
  import opened Binary64
  import opened Usage
  import opened PeerProtocol
  import opened PeerSpec
  import opened PeerRuns

  // ---------- extending the history ----------

  lemma {:induction false} WordExtends(h: History, x: Entry, lo: nat, hi: nat)
    requires hi <= |h|
    ensures Word(h + [x], lo, hi) == Word(h, lo, hi)
  {
    if lo < hi { WordExtends(h, x, lo, hi - 1); }
  }

  lemma WordAppends(h: History, x: Entry, lo: nat)
    requires lo <= |h|
    ensures Word(h + [x], lo, |h| + 1) == Word(h, lo, |h|) + MarksOf(x)
    ensures MarksOf(x) == [] ==> Word(h + [x], lo, |h| + 1) == Word(h, lo, |h|)
  {
    WordExtends(h, x, lo, |h|);
  }

  lemma OpenedExtends(h: History, x: Entry, c: Correlation, p: Positions, hi: nat)
    requires hi <= |h| && Opened(h, c, p, hi)
    ensures Opened(h + [x], c, p, hi)
    ensures hi == |h| && !AcceptsPrompt(x) && (IsAgent(x) ==> x.outbound.correlation == Some(c))
      ==> Opened(h + [x], c, p, |h| + 1)
  {
  }

  lemma EndedExtends(h: History, x: Entry, p: Positions, stop: StopReason, hi: nat)
    requires hi <= |h| && EndedWith(h, p, stop, hi)
    ensures EndedWith(h + [x], p, stop, hi) && EndedWith(h + [x], p, stop, |h| + 1)
  {
    WordExtends(h, x, p.accepted + 1, p.ended);
  }

  lemma SettledExtends(h: History, x: Entry, p: Positions, hi: nat)
    requires hi <= |h| && SettledAfterEnd(h, p, hi)
    ensures SettledAfterEnd(h + [x], p, hi)
    ensures hi == |h| && !IsAgent(x) ==> SettledAfterEnd(h + [x], p, |h| + 1)
  {
    WordExtends(h, x, p.ended + 1, p.settled);
  }

  lemma SettledInside(h: History, p: Positions)
    requires SettledAfterEnd(h, p, |h|)
    ensures p.settled < |h| && h[p.settled].Out?
  {
  }

  lemma CertifiesExtends(h: History, x: Entry, r: TurnReceipt, p: Positions, l: nat)
    requires Certifies(h, r, p, l)
    ensures Certifies(h + [x], r, p, l)
  {
    OpenedExtends(h, x, r.correlation, p, l);
    EndedExtends(h, x, p, r.outcome.stop, l);
    SettledExtends(h, x, p, l);
  }

  /** Neither an agent event nor an accepted prompt: it leaves the running turn's evidence alone. */
  ghost predicate LeavesTurnAlone(x: Entry) {
    !IsAgent(x) && !AcceptsPrompt(x)
  }

  /** So does a projected event of the turn's own prompt that is no lifecycle fact. */
  ghost predicate PassesTurn(x: Entry, t: ActiveTurn) {
    || LeavesTurnAlone(x)
    || (x.Out? && x.outbound.correlation == Some(t.correlation) && x.outbound.event == Agent(OtherProjected)
        && !t.evidence.AwaitingFinalPromptUsage? && !t.evidence.AwaitingSettledFrame?)
  }

  lemma EndedInside(h: History, p: Positions, stop: StopReason)
    requires EndedWith(h, p, stop, |h|)
    ensures p.ended < |h|
  {
  }

  lemma PassingHasNoMarks(x: Entry, t: ActiveTurn)
    requires PassesTurn(x, t)
    ensures MarksOf(x) == []
    ensures t.evidence.AwaitingFinalPromptUsage? || t.evidence.AwaitingSettledFrame? ==> !IsAgent(x)
  {
  }

  lemma EvidenceExtends(h: History, x: Entry, t: ActiveTurn, p: Positions)
    requires p.accepted < |h| && EvidenceBacked(h, t, p) && PassesTurn(x, t)
    ensures EvidenceBacked(h + [x], t, p)
  {
    hide Word, AttemptWord, EndedWith, SettledAfterEnd, MarksOf, PassesTurn, IsAgent;
    PassingHasNoMarks(x, t);
    match t.evidence
    case AwaitingAgentStart | ActiveAttempt | RetryLifecycle =>
      WordAppends(h, x, p.accepted + 1);
    case AwaitingAgentSettled(stop) =>
      EndedInside(h, p, stop);
      EndedExtends(h, x, p, stop, |h|);
      WordAppends(h, x, p.ended + 1);
    case AwaitingFinalPromptUsage(stop, _) =>
      SettledInside(h, p);
      EndedExtends(h, x, p, stop, |h|);
      SettledExtends(h, x, p, |h|);
    case AwaitingSettledFrame(stop, _, _) =>
      SettledInside(h, p);
      EndedExtends(h, x, p, stop, |h|);
      SettledExtends(h, x, p, |h|);
  }

  lemma AbortExtends(h: History, x: Entry, t: ActiveTurn, p: Positions)
    requires AbortBacked(h, t, p)
    ensures AbortBacked(h + [x], t, p)
  {
  }

  lemma BackedExtends(h: History, x: Entry, t: ActiveTurn, p: Positions)
    requires Backed(h, t, p) && PassesTurn(x, t)
    ensures Backed(h + [x], t, p)
  {
    hide AbortBacked, EvidenceBacked;
    OpenedExtends(h, x, t.correlation, p, |h|);
    AbortExtends(h, x, t, p);
    EvidenceExtends(h, x, t, p);
  }

  lemma FirstPromptExtends(checks: Checks, h: History, x: Entry, first: Option<Digest>, hi: nat)
    requires hi <= |h| && FirstPromptIs(checks, h, first, hi)
    ensures FirstPromptIs(checks, h + [x], first, hi)
    ensures !AcceptsPrompt(x) && hi == |h| ==> FirstPromptIs(checks, h + [x], first, |h| + 1)
  {
    if first.Some? {
      var a: nat, p: nat :| FirstAccepted(h, a, p, hi) && first.value == checks.digest(h[a].inbound.command.text);
      assert FirstAccepted(h + [x], a, p, hi);
      if hi == |h| { assert FirstAccepted(h + [x], a, p, |h| + 1); }
    }
  }

  lemma DisposalExtends(checks: Checks, h: History, x: Entry, d: DisposePositions, l: nat)
    requires CertifiesDisposal(checks, h, d, l) && x.Out?
    ensures CertifiesDisposal(checks, h + [x], d, l)
  {
    var receipt := h[l].outbound.event.receipt;
    var first :=
      match receipt
      case Materialized(_, _, _, Verified(digest)) => Some(digest)
      case _ => None;
    FirstPromptExtends(checks, h, x, first, l);
  }

  // ---------- fencing ----------

  /** A fenced state answers for the same history as the state it came from. */
  lemma FencedFromKeeps(checks: Checks, s: PeerState, h: History, t: PeerState)
    requires Invariant(checks, Run(s, h))
    requires t.phase == Fatal && t.pendingPrompt.None? && t.activeTurn.None? && t.pendingDispose.None? && t.activeDispose.None?
    requires t.expectedOut >= s.expectedOut
    requires t.create == s.create && t.taskPromptAdmitted == s.taskPromptAdmitted
    requires t.createCandidate == s.createCandidate || t.createCandidate.None?
    requires t.firstPrompt == s.firstPrompt && t.settled == s.settled
    requires AtMost(ChargeOf(s.latest), ChargeOf(t.latest)) && (t.latest.Some? ==> WellFormed(t.latest.value))
    requires TableMatchesSlots(t) && CommandsAdmitted(checks, t, h)
    ensures Invariant(checks, Run(t, h))
  {
    hide CommandsAdmitted, TableMatchesSlots, FirstPromptIs, Certifies;
  }

  lemma FenceKeeps(checks: Checks, s: PeerState, h: History)
    requires Invariant(checks, Run(s, h))
    ensures Invariant(checks, Run(Fence(s), h))
  {
    FencedFromKeeps(checks, s, h, Fence(s));
  }

  lemma CountersKeep(checks: Checks, s: PeerState, h: History, i: nat, o: nat)
    requires Invariant(checks, Run(s, h)) && o >= s.expectedOut
    ensures Invariant(checks, Run(s.(expectedIn := i, expectedOut := o), h))
  {
  }

  /** Marking a result touches the correlation table alone. */
  lemma MarkKeepsTable(checks: Checks, s: PeerState, h: History, m: PeerState, c: Correlation, accepted: bool)
    requires TableMatchesSlots(s) && CommandsAdmitted(checks, s, h) && c in s.commands
    requires m == MarkResult(s, c, s.commands[c].name, accepted)
    ensures TableMatchesSlots(Fence(m)) && CommandsAdmitted(checks, Fence(m), h)
  {
    assert forall k :: k in m.commands ==> k in s.commands && m.commands[k].name == s.commands[k].name;
  }

  lemma FencedMarkKeeps(checks: Checks, s: PeerState, h: History, m: PeerState, c: Correlation, accepted: bool)
    requires Invariant(checks, Run(s, h)) && c in s.commands
    requires m == MarkResult(s, c, s.commands[c].name, accepted)
    ensures Invariant(checks, Run(Fence(m), h))
  {
    MarkKeepsTable(checks, s, h, m, c, accepted);
    hide CommandsAdmitted, TableMatchesSlots, TurnsCertified, DisposalCertified, SequencesIncrease, PromptsCounted;
    FencedFromKeeps(checks, s, h, Fence(m));
  }

  lemma CandidateDropKeeps(checks: Checks, s: PeerState, h: History)
    requires Invariant(checks, Run(s, h))
    ensures Invariant(checks, Run(s.(createCandidate := None), h))
  {
  }

  lemma FencedUsageKeeps(checks: Checks, s: PeerState, h: History, usage: UsageObservation)
    requires Invariant(checks, Run(s, h)) && Track(s.latest, usage).Ok?
    ensures Invariant(checks, Run(Fence(s.(latest := Some(Track(s.latest, usage).value.0))), h))
  {
    TrackConserves(s.latest, usage);
    hide Track;
    FencedFromKeeps(checks, s, h, Fence(s.(latest := Some(Track(s.latest, usage).value.0))));
  }
}
