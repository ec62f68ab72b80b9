/**
 * Cumulative usage: normalisation of one reported snapshot, the tracker that turns snapshots into
 * charge deltas, and the kernel's independent consistency check.
 */
module Usage {
  import opened Wrappers
  import opened Binary64

  datatype UsageTotals = UsageTotals(
    input: Word64, output: Word64, cacheRead: Word64, cacheWrite: Word64, total: Word64, costHex: string)

  datatype UnavailableReason = InvalidSdkUsage | UsageRegressed | UsageInconsistent

  datatype UsageObservation = Known(totals: UsageTotals) | Unavailable(reason: UnavailableReason)

  datatype NormalizedUsage = NormalizedUsage(
    input: Word64, output: Word64, cacheRead: Word64, cacheWrite: Word64, total: Word64,
    cost: Cost, ceiling: nat)

  datatype UsageDelta = UsageDelta(
    input: Word64, output: Word64, cacheRead: Word64, cacheWrite: Word64, total: Word64,
    microUsd: nat, idempotent: bool)

  /** `NormalizedUsage::from_totals`. */
  function FromTotals(t: UsageTotals): (r: Result<NormalizedUsage, CostError>)
    ensures r.Ok? ==> WellFormed(r.value)
  {
    var sum := t.input + t.output + t.cacheRead + t.cacheWrite;
    if sum >= TWO_64 || sum != t.total then Err(InconsistentUsage)
    else
      var cost := CostFromHex(t.costHex);
      if cost.Err? then Err(cost.error)
      else
        var ceiling := CeilToMicroUsd(cost.value);
        if ceiling.Err? then Err(ceiling.error)
        else Ok(NormalizedUsage(t.input, t.output, t.cacheRead, t.cacheWrite, sum, cost.value, ceiling.value))
  }

  /** What normalisation establishes of every snapshot the tracker ever holds. */
  predicate WellFormed(u: NormalizedUsage) {
    && u.total == u.input + u.output + u.cacheRead + u.cacheWrite
    && CeilToMicroUsd(u.cost) == Ok(u.ceiling)
  }

  const NO_USAGE := NormalizedUsage(0, 0, 0, 0, 0, 0, 0)

  function Baseline(latest: Option<NormalizedUsage>): NormalizedUsage {
    if latest.Some? then latest.value else NO_USAGE
  }

  /** The seven comparisons the tracker makes. */
  predicate Regressed(current: NormalizedUsage, previous: NormalizedUsage) {
    || current.input < previous.input
    || current.output < previous.output
    || current.cacheRead < previous.cacheRead
    || current.cacheWrite < previous.cacheWrite
    || current.total < previous.total
    || current.cost < previous.cost
    || current.ceiling < previous.ceiling
  }

  /** One observation against the latest snapshot: the new snapshot and its delta, or a refusal. */
  function Track(latest: Option<NormalizedUsage>, observation: UsageObservation)
    : Result<(NormalizedUsage, UsageDelta), CostError>
  {
    match observation
    case Unavailable(_) => Err(UnavailableUsage)
    case Known(totals) =>
      match FromTotals(totals)
      case Err(e) => Err(e)
      case Ok(current) =>
        var previous := Baseline(latest);
        if latest.Some? && Regressed(current, previous) then Err(RegressedUsage)
        else
          Ok((current, UsageDelta(
            current.input - previous.input, current.output - previous.output,
            current.cacheRead - previous.cacheRead, current.cacheWrite - previous.cacheWrite,
            current.total - previous.total, current.ceiling - previous.ceiling,
            latest == Some(current))))
  }

  class UsageTracker {
    var latest: Option<NormalizedUsage>

    constructor ()
      ensures latest == None
    {
      latest := None;
    }

    /** A refusal leaves the latest snapshot as it was. */
    method Observe(observation: UsageObservation) returns (r: Result<UsageDelta, CostError>)
      modifies this
      ensures match Track(old(latest), observation)
              case Ok((current, delta)) => latest == Some(current) && r == Ok(delta)
              case Err(e) => latest == old(latest) && r == Err(e)
    {
      if observation.Unavailable? { return Err(UnavailableUsage); }
      var normalized := FromTotals(observation.totals);
      if normalized.Err? { return Err(normalized.error); }
      var current := normalized.value;
      var previous := Baseline(latest);
      if latest.Some? && Regressed(current, previous) { return Err(RegressedUsage); }
      var delta := UsageDelta(
        current.input - previous.input, current.output - previous.output,
        current.cacheRead - previous.cacheRead, current.cacheWrite - previous.cacheWrite,
        current.total - previous.total, current.ceiling - previous.ceiling,
        latest == Some(current));
      latest := Some(current);
      return Ok(delta);
    }
  }

  // ---------- conservation ----------

  /** The charges and token counts a list of deltas adds up to. */
  datatype Charge = Charge(
    input: int, output: int, cacheRead: int, cacheWrite: int, total: int, microUsd: int)

  const NO_CHARGE := Charge(0, 0, 0, 0, 0, 0)

  function AddDelta(c: Charge, d: UsageDelta): Charge {
    Charge(c.input + d.input, c.output + d.output, c.cacheRead + d.cacheRead,
           c.cacheWrite + d.cacheWrite, c.total + d.total, c.microUsd + d.microUsd)
  }

  function ChargeOf(latest: Option<NormalizedUsage>): Charge {
    var u := Baseline(latest);
    Charge(u.input, u.output, u.cacheRead, u.cacheWrite, u.total, u.ceiling)
  }

  predicate AtMost(c: Charge, d: Charge) {
    && c.input <= d.input && c.output <= d.output && c.cacheRead <= d.cacheRead
    && c.cacheWrite <= d.cacheWrite && c.total <= d.total && c.microUsd <= d.microUsd
  }

  lemma TrackConserves(latest: Option<NormalizedUsage>, observation: UsageObservation)
    requires Track(latest, observation).Ok?
    ensures var (current, delta) := Track(latest, observation).value;
      AddDelta(ChargeOf(latest), delta) == ChargeOf(Some(current)) && AtMost(ChargeOf(latest), ChargeOf(Some(current)))
    ensures WellFormed(Track(latest, observation).value.0)
  {
  }

  /** A repeated snapshot charges nothing. */
  lemma IdempotentDeltaIsZero(latest: Option<NormalizedUsage>, observation: UsageObservation)
    requires Track(latest, observation).Ok? && Track(latest, observation).value.1.idempotent
    ensures Track(latest, observation).value.1 == UsageDelta(0, 0, 0, 0, 0, 0, true)
    ensures Track(latest, observation).value.0 == latest.value
  {
  }

  /** A tracker run: refused observations leave no trace. */
  function TrackAll(observations: seq<UsageObservation>): (r: (Option<NormalizedUsage>, Charge)) {
    if observations == [] then (None, NO_CHARGE)
    else
      var (latest, charged) := TrackAll(observations[..|observations| - 1]);
      match Track(latest, observations[|observations| - 1])
      case Ok((current, delta)) => (Some(current), AddDelta(charged, delta))
      case Err(_) => (latest, charged)
  }

  /** However many snapshots arrive, the micro-USD charged in total are the ceiling of the last
      accepted cost, so the overcharge against the true cost stays below one micro-USD. */
  lemma {:induction false} TotalOverchargeBelowOneMicro(observations: seq<UsageObservation>)
    ensures var (latest, charged) := TrackAll(observations);
      charged == ChargeOf(latest)
      && (latest.Some? ==> WellFormed(latest.value))
      && (latest.Some? && KeepsAllBits(latest.value.cost) ==> IsMicroCeiling(latest.value.cost, charged.microUsd))
  {
    if observations != [] {
      var (latest, charged) := TrackAll(observations[..|observations| - 1]);
      TotalOverchargeBelowOneMicro(observations[..|observations| - 1]);
      var last := observations[|observations| - 1];
      match Track(latest, last)
      case Ok((current, _)) =>
        TrackConserves(latest, last);
        CeilingExactness(current.cost);
      case Err(_) =>
    }
  }

  // ---------- which comparisons matter ----------

  predicate RegressedInCountsOrCost(current: NormalizedUsage, previous: NormalizedUsage) {
    || current.input < previous.input
    || current.output < previous.output
    || current.cacheRead < previous.cacheRead
    || current.cacheWrite < previous.cacheWrite
    || current.cost < previous.cost
  }

  /** On the exact range a regression always shows in a token count or in the raw cost bits. */
  lemma SeparateChecksNeverDecide(current: NormalizedUsage, previous: NormalizedUsage)
    requires WellFormed(current) && WellFormed(previous)
    requires KeepsAllBits(current.cost) && KeepsAllBits(previous.cost)
    ensures Regressed(current, previous) <==> RegressedInCountsOrCost(current, previous)
  {
    if previous.cost <= current.cost { CeilingIsMonotone(previous.cost, current.cost); }
  }

  /** The ceiling check decides alone: everything else would let the snapshot pass. */
  predicate CeilingAlone(current: NormalizedUsage, previous: NormalizedUsage) {
    Regressed(current, previous) && !RegressedInCountsOrCost(current, previous)
  }

  /** It does exactly when the ceiling fell under a cost that did not, and then the new cost has lost bits. */
  lemma CeilingAloneExactly(current: NormalizedUsage, previous: NormalizedUsage)
    requires WellFormed(current) && WellFormed(previous)
    ensures CeilingAlone(current, previous) <==> !RegressedInCountsOrCost(current, previous) && current.ceiling < previous.ceiling
    ensures CeilingAlone(current, previous) ==> current.cost > LARGEST_EXACT
  {
    hide CeilToMicroUsd, KeepsAllBits;
    if CeilingAlone(current, previous) {
      KeepsAllBitsIsARange(current.cost);
      KeepsAllBitsIsARange(previous.cost);
      if current.cost <= LARGEST_EXACT { SeparateChecksNeverDecide(current, previous); }
    }
  }

  /** Some honest snapshot, whose own cost lost nothing, makes the ceiling check decide alone. */
  ghost predicate Refusable(current: NormalizedUsage) {
    exists previous :: WellFormed(previous) && KeepsAllBits(previous.cost) && CeilingAlone(current, previous)
  }

  /** After an exactly charged snapshot it can happen exactly beyond the largest exact cost, where the ceiling has wrapped below the largest one. */
  lemma CeilingAloneRange(current: NormalizedUsage)
    requires WellFormed(current)
    ensures Refusable(current) <==> current.cost > LARGEST_EXACT && current.ceiling < LARGEST_CEILING
  {
    hide CeilToMicroUsd, KeepsAllBits, CeilingAlone, WellFormed;
    if Refusable(current) {
      var previous :| WellFormed(previous) && KeepsAllBits(previous.cost) && CeilingAlone(current, previous);
      CeilingAloneExactly(current, previous);
      CeilingAtMostLargest(previous);
    }
    if current.cost > LARGEST_EXACT && current.ceiling < LARGEST_CEILING {
      LargestPrecedes(current);
    }
  }

  lemma CeilingAtMostLargest(previous: NormalizedUsage)
    requires WellFormed(previous) && KeepsAllBits(previous.cost)
    ensures previous.ceiling <= LARGEST_CEILING
  {
    hide CeilToMicroUsd, KeepsAllBits;
    CeilingAtTheEdge();
    KeepsAllBitsIsARange(previous.cost);
    KeepsAllBitsIsARange(LARGEST_EXACT);
    CeilingIsMonotone(previous.cost, LARGEST_EXACT);
  }

  lemma LargestPrecedes(current: NormalizedUsage)
    requires WellFormed(current) && current.cost > LARGEST_EXACT && current.ceiling < LARGEST_CEILING
    ensures Refusable(current)
  {
    hide CeilToMicroUsd, KeepsAllBits;
    CeilingAtTheEdge();
    KeepsAllBitsIsARange(LARGEST_EXACT);
    var previous := NormalizedUsage(0, 0, 0, 0, 0, LARGEST_EXACT, LARGEST_CEILING);
    assert WellFormed(previous) && CeilingAlone(current, previous);
  }

  // ---------- from 2^121 to 2^122 dollars ----------

  const TWO_121: UsageTotals := UsageTotals(0, 0, 0, 0, 0, "478" + ZeroDigits(13))
  const TWO_122: UsageTotals := UsageTotals(0, 0, 0, 0, 0, "479" + ZeroDigits(13))

  function ZeroDigits(n: nat): (s: string)
    ensures |s| == n
  {
    if n == 0 then "" else ZeroDigits(n - 1) + ['0']
  }

  lemma HexAppendZero(s: string)
    requires HexValue(s).Some?
    ensures HexValue(s + ['0']) == Some(16 * HexValue(s).value)
  {
    hide Pow2;
    assert (s + ['0'])[..|s|] == s;
  }

  lemma TimesSixteen(v: nat, n: nat)
    ensures v * Pow2(4 * (n + 1)) == 16 * (v * Pow2(4 * n))
  {
    Pow2Add(4 * n, 4);
    assert Pow2(4) == 16;
    var p := Pow2(4 * n);
    assert v * (p * 16) == 16 * (v * p);
  }

  lemma {:induction false} ZeroDigitsShift(head: string, n: nat)
    requires HexValue(head).Some?
    ensures HexValue(head + ZeroDigits(n)) == Some(HexValue(head).value * Pow2(4 * n))
  {
    hide HexValue;
    if n == 0 {
      assert head + ZeroDigits(0) == head && Pow2(0) == 1;
    } else {
      ZeroDigitsShift(head, n - 1);
      HexAppendZero(head + ZeroDigits(n - 1));
      assert head + ZeroDigits(n) == (head + ZeroDigits(n - 1)) + ['0'];
      TimesSixteen(HexValue(head).value, n - 1);
    }
  }

  lemma HugeCosts()
    ensures CostFromHex("478" + ZeroDigits(13)) == Ok(0x4780_0000_0000_0000)
    ensures CostFromHex("479" + ZeroDigits(13)) == Ok(0x4790_0000_0000_0000)
    ensures CeilToMicroUsd(0x4780_0000_0000_0000) == Ok(TWO_64 * TWO_63)
    ensures CeilToMicroUsd(0x4790_0000_0000_0000) == Ok(0)
  {
    hide ZeroDigits, CeilToMicroUsd;
    Pow2At32();
    assert Pow2(10) == 1024;
    Pow2Add(10, 10);
    Pow2Add(32, 20);
    ThreeDigits();
    ZeroDigitsShift("478", 13);
    ZeroDigitsShift("479", 13);
    LostBitsWitness();
    Ceiling121();
  }

  lemma ThreeDigits()
    ensures HexValue("478") == Some(0x478) && HexValue("479") == Some(0x479)
  {
    assert "478"[..2] == "47" && "479"[..2] == "47" && "47"[..1] == "4" && "4"[..0] == "";
  }

  lemma Ceiling121()
    ensures Admitted(0x4780_0000_0000_0000) && CeilToMicroUsd(0x4780_0000_0000_0000) == Ok(TWO_64 * TWO_63)
  {
    var bits := 0x4780_0000_0000_0000;
    assert BiasedExponent(bits) == 1144 && Fraction(bits) == 0;
    Pow2At64();
    assert Pow2(5) == 32;
    Pow2Add(64, 5);
    assert TWO_52 * MICRO * Pow2(69) == 15625 * (TWO_64 * TWO_63);
  }

  /** A host that reports 2^121 and then 2^122 dollars is refused for a regression, by the ceiling check alone. */
  lemma SpuriousRegression()
    ensures FromTotals(TWO_121).Ok? && FromTotals(TWO_122).Ok?
    ensures Track(None, Known(TWO_121)).Ok? && Track(None, Known(TWO_121)).value.0 == FromTotals(TWO_121).value
    ensures Track(Some(FromTotals(TWO_121).value), Known(TWO_122)) == Err(RegressedUsage)
    ensures CeilingAlone(FromTotals(TWO_122).value, FromTotals(TWO_121).value)
  {
    hide CostFromHex, CeilToMicroUsd, ZeroDigits, HexValue;
    HugeCosts();
  }

  // ---------- the kernel's recheck (domain.rs) ----------

  datatype PiCumulativeUsage = PiCumulativeUsage(
    input: nat, output: nat, cacheRead: nat, cacheWrite: nat, total: nat,
    cost: BigEndian64, ceiling: nat)

  /** `PiCumulativeUsage::is_internally_consistent`, i64 overflow included. */
  predicate IsInternallyConsistent(u: PiCumulativeUsage)
    requires FromBigEndian(u.cost) < TWO_64 && Admitted(FromBigEndian(u.cost))
  {
    var sum := u.input + u.output + u.cacheRead + u.cacheWrite;
    && sum < TWO_63
    && sum == u.total
    && KernelCeilMicroUsd(u.cost) == Ok(u.ceiling)
  }

  /** The kernel accepts what the boundary normalised exactly when it fits the kernel's integers. */
  lemma KernelAcceptsBoundaryUsage(u: NormalizedUsage, stored: PiCumulativeUsage)
    requires WellFormed(u)
    requires FromBigEndian(stored.cost) == u.cost
    requires stored.input == u.input && stored.output == u.output && stored.cacheRead == u.cacheRead
    requires stored.cacheWrite == u.cacheWrite && stored.total == u.total && stored.ceiling == u.ceiling
    ensures IsInternallyConsistent(stored) <==> u.total < TWO_63 && u.ceiling < TWO_63
  {
    KernelAgreesWithBoundary(stored.cost, u.ceiling);
  }
}
