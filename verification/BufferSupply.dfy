/** Rules of the dynamic buffer supply: configuration, what counts, one client's target, the fleet budget. */
module BufferSupply {
  import opened Basics
  import opened Decimal

  const DAY_MS: int := 24 * 60 * 60 * 1000
  const HARD_CAP_MAX: int := 60

  // ---------------------------------------------------------------------------
  // Configuration
  // ---------------------------------------------------------------------------

  datatype Mode = Dynamic | Legacy

  datatype Key =
    | ConsumptionWindowDays | LeadTimeDays | SafetyMargin | MinTarget | MaxTarget
    | CapHeadroom | HardCap | FreeFreshDays | FleetWeeklyCeiling

  const KEYS: seq<Key> := [
    ConsumptionWindowDays, LeadTimeDays, SafetyMargin, MinTarget, MaxTarget,
    CapHeadroom, HardCap, FreeFreshDays, FleetWeeklyCeiling]

  /** Place of a key in the order in which the keys are read. */
  function Index(k: Key): (i: nat)
    ensures i < |KEYS| && KEYS[i] == k
  {
    match k
    case ConsumptionWindowDays => 0
    case LeadTimeDays => 1
    case SafetyMargin => 2
    case MinTarget => 3
    case MaxTarget => 4
    case CapHeadroom => 5
    case HardCap => 6
    case FreeFreshDays => 7
    case FleetWeeklyCeiling => 8
  }

  datatype Config = Config(mode: Mode, values: Key -> int) {
    function Get(k: Key): int { values(k) }

    function Set(k: Key, value: int): Config {
      var values' := values;
      this.(values := k' => if k' == k then value else values'(k'))
    }
  }

  function Default(k: Key, engineCeiling: int): int {
    match k
    case ConsumptionWindowDays => 14
    case LeadTimeDays => 30
    case SafetyMargin => 2
    case MinTarget => 10
    case MaxTarget => 40
    case CapHeadroom => 5
    case HardCap => 50
    case FreeFreshDays => 14
    case FleetWeeklyCeiling => engineCeiling
  }

  function DefaultConfig(mode: Mode, engineCeiling: int): Config {
    Config(mode, k => Default(k, engineCeiling))
  }

  function Range(k: Key, engineCeiling: int): (int, int) {
    match k
    case ConsumptionWindowDays => (3, 60)
    case LeadTimeDays => (7, 90)
    case SafetyMargin => (0, 20)
    case MinTarget => (0, 40)
    case MaxTarget => (1, HARD_CAP_MAX)
    case CapHeadroom => (0, 30)
    case HardCap => (1, HARD_CAP_MAX)
    case FreeFreshDays => (1, 60)
    case FleetWeeklyCeiling => (0, Max(0, engineCeiling))
  }

  /** An optional minus sign and digits; anything else is not a number. */
  function ParseInt(raw: string): Option<int> {
    if raw != [] && AllDigits(raw) then Some(Digits(raw))
    else if |raw| > 1 && raw[0] == '-' && AllDigits(raw[1..]) then Some(0 - Digits(raw[1..]))
    else None
  }

  /** Digits with or without a minus sign are read as the number they write; nothing else is read at all. */
  lemma ParseIntIs(n: nat, raw: string)
    ensures ParseInt(Numeral(n)) == Some(n) && ParseInt("-" + Numeral(n)).Some?
    ensures ParseInt("-" + Numeral(n)).value + n == 0
    ensures ParseInt(raw).Some? <==>
      exists digits :: digits != "" && AllDigits(digits) && (raw == digits || raw == "-" + digits)
  {
    NumeralReadsBack(n);
    var s := "-" + Numeral(n);
    assert s[1..] == Numeral(n) && !AllDigits(s) by { assert s[0] == '-'; }
    if ParseInt(raw).Some? && !AllDigits(raw) {
      assert raw == "-" + raw[1..];
    }
    if digits :| digits != "" && AllDigits(digits) && (raw == digits || raw == "-" + digits) {
      if raw == "-" + digits {
        assert raw[0] == '-' && raw[1..] == digits;
      }
    }
  }

  /** Blank means unset. The strings are taken after readBufferSupplyConfig has trimmed them. */
  predicate Unset(env: map<Key, string>, k: Key) {
    k !in env || env[k] == ""
  }

  predicate Acceptable(env: map<Key, string>, k: Key, engineCeiling: int) {
    Unset(env, k) ||
    (ParseInt(env[k]).Some? && Range(k, engineCeiling).0 <= ParseInt(env[k]).value <= Range(k, engineCeiling).1)
  }

  function Wanted(env: map<Key, string>, k: Key, engineCeiling: int): int
    requires Acceptable(env, k, engineCeiling)
  {
    if Unset(env, k) then Default(k, engineCeiling) else ParseInt(env[k]).value
  }

  /** Blank is the default, a number is taken within its range, bounds included, and anything else is refused. */
  lemma AcceptableIs(env: map<Key, string>, k: Key, engineCeiling: int, n: nat)
    ensures k !in env || env[k] == "" ==> Acceptable(env, k, engineCeiling) && Wanted(env, k, engineCeiling) == Default(k, engineCeiling)
    ensures k in env && env[k] == Numeral(n) ==>
      && (Acceptable(env, k, engineCeiling) <==> Range(k, engineCeiling).0 <= n <= Range(k, engineCeiling).1)
      && (Acceptable(env, k, engineCeiling) ==> Wanted(env, k, engineCeiling) == n)
    ensures k in env && env[k] == "-" + Numeral(n) ==>
      && (Acceptable(env, k, engineCeiling) <==> Range(k, engineCeiling).0 == 0 == n)
      && (Acceptable(env, k, engineCeiling) ==> Wanted(env, k, engineCeiling) == 0)
    ensures k in env && env[k] != "" && Acceptable(env, k, engineCeiling) ==>
      exists digits :: digits != "" && AllDigits(digits) && (env[k] == digits || env[k] == "-" + digits)
  {
    hide ParseInt, Default, Numeral, Digits, AllDigits;
    ParseIntIs(n, if k in env then env[k] else "");
    assert Range(k, engineCeiling).0 >= 0;
  }

  ghost predicate Sound(env: map<Key, string>, mode: string, engineCeiling: int) {
    && KnownMode(mode)
    && (forall k: Key :: Acceptable(env, k, engineCeiling))
    && Wanted(env, MinTarget, engineCeiling) <= Wanted(env, MaxTarget, engineCeiling)
  }

  predicate KnownMode(mode: string) { mode == "" || mode == "dynamic" || mode == "legacy" }

  /** What is reported as rejected. */
  datatype Problem = BadMode | BadValue(key: Key) | MinAboveMax

  function ReadSoFar(env: map<Key, string>, k: Key, read: nat, engineCeiling: int): int {
    if Index(k) < read && Acceptable(env, k, engineCeiling) then Wanted(env, k, engineCeiling)
    else Default(k, engineCeiling)
  }

  /** Every rejected value, and a minimum above the maximum, is reported and switches to legacy defaults. */
  method ReadBufferSupplyConfig(env: map<Key, string>, mode: string, engineCeiling: int)
    returns (config: Config, invalid: seq<Problem>)
    ensures invalid == [] <==> Sound(env, mode, engineCeiling)
    ensures BadMode in invalid <==> !KnownMode(mode)
    ensures forall k: Key :: BadValue(k) in invalid <==> !Acceptable(env, k, engineCeiling)
    ensures MinAboveMax in invalid <==>
      ReadSoFar(env, MinTarget, |KEYS|, engineCeiling) > ReadSoFar(env, MaxTarget, |KEYS|, engineCeiling)
    ensures config.mode == if invalid != [] || mode == "legacy" then Legacy else Dynamic
    ensures forall k: Key ::
      config.Get(k) == if invalid == [] then Wanted(env, k, engineCeiling) else Default(k, engineCeiling)
  {
    config := DefaultConfig(Dynamic, engineCeiling);
    invalid := [];
    if mode == "legacy" {
      config := config.(mode := Legacy);
    } else if mode != "" && mode != "dynamic" {
      invalid := invalid + [BadMode];
    }
    hide ParseInt, Default, Range;
    for i := 0 to |KEYS|
      invariant config.mode == if mode == "legacy" then Legacy else Dynamic
      invariant invalid == [] <==> KnownMode(mode) && forall k: Key | Index(k) < i :: Acceptable(env, k, engineCeiling)
      invariant MinAboveMax !in invalid && (BadMode in invalid <==> !KnownMode(mode))
      invariant forall k: Key :: BadValue(k) in invalid <==> Index(k) < i && !Acceptable(env, k, engineCeiling)
      invariant forall k: Key :: config.Get(k) == ReadSoFar(env, k, i, engineCeiling)
    {
      var key := KEYS[i];
      assert Index(key) == i && forall k: Key | Index(k) == i :: k == key;
      forall k: Key
        ensures ReadSoFar(env, k, i + 1, engineCeiling) ==
          if k == key && Acceptable(env, k, engineCeiling) then Wanted(env, k, engineCeiling)
          else ReadSoFar(env, k, i, engineCeiling)
      {
        assert Index(k) < i + 1 <==> Index(k) < i || k == key;
      }
      if Unset(env, key) {
        continue;
      }
      var value := ParseInt(env[key]);
      if value.None? || value.value < Range(key, engineCeiling).0 || value.value > Range(key, engineCeiling).1 {
        invalid := invalid + [BadValue(key)];
        assert !Acceptable(env, key, engineCeiling);
        continue;
      }
      assert Acceptable(env, key, engineCeiling) && Wanted(env, key, engineCeiling) == value.value;
      ghost var before := config;
      config := config.Set(key, value.value);
      assert forall k: Key :: config.Get(k) == if k == key then value.value else before.Get(k);
    }
    if config.Get(MinTarget) > config.Get(MaxTarget) {
      invalid := invalid + [MinAboveMax];
    }
    if invalid != [] {
      config := DefaultConfig(Legacy, engineCeiling);
    }
  }

  /** What every computation below may rely on. */
  predicate UsableConfig(config: Config) {
    && config.Get(ConsumptionWindowDays) > 0
    && config.Get(LeadTimeDays) > 0
    && config.Get(SafetyMargin) >= 0
    && config.Get(MinTarget) <= config.Get(MaxTarget) <= HARD_CAP_MAX
    && config.Get(CapHeadroom) >= 0
  }

  /** Whatever the environment says, what is read can be computed with. */
  lemma ReadConfigIsUsable(env: map<Key, string>, mode: string, engineCeiling: int, config: Config)
    requires forall k: Key ::
      config.Get(k) == if Sound(env, mode, engineCeiling) then Wanted(env, k, engineCeiling) else Default(k, engineCeiling)
    ensures UsableConfig(config)
    ensures engineCeiling >= 0 ==> 0 <= config.Get(FleetWeeklyCeiling) <= engineCeiling
  {
    hide Range;
    forall k: Key
      ensures k != FleetWeeklyCeiling || engineCeiling >= 0 ==>
        Range(k, engineCeiling).0 <= config.Get(k) <= Range(k, engineCeiling).1
    {
      DefaultInRange(k, engineCeiling);
      assert Sound(env, mode, engineCeiling) ==> Acceptable(env, k, engineCeiling);
    }
    RangesUsable(engineCeiling);
  }

  lemma DefaultInRange(k: Key, engineCeiling: int)
    ensures k != FleetWeeklyCeiling || engineCeiling >= 0 ==>
      Range(k, engineCeiling).0 <= Default(k, engineCeiling) <= Range(k, engineCeiling).1
  {
  }

  lemma RangesUsable(engineCeiling: int)
    ensures Range(ConsumptionWindowDays, engineCeiling).0 > 0 && Range(LeadTimeDays, engineCeiling).0 > 0
    ensures Range(SafetyMargin, engineCeiling).0 >= 0 && Range(CapHeadroom, engineCeiling).0 >= 0
    ensures Range(MaxTarget, engineCeiling).1 <= HARD_CAP_MAX
    ensures engineCeiling >= 0 ==> Range(FleetWeeklyCeiling, engineCeiling) == (0, engineCeiling)
  {
  }

  // ---------------------------------------------------------------------------
  // Which accounts count
  // ---------------------------------------------------------------------------

  datatype SpamStatus = Unchecked | Free | Limited | Harsh | Other

  /** Dates are epoch milliseconds; an absent or unreadable date is None. */
  datatype Account = Account(
    clientId: string,
    phase: Option<string>,
    channels: int,
    failedAttempts: int,
    inUse: bool,
    spam: SpamStatus,
    limitedUntil: Option<int>,
    checkedAt: Option<int>)

  datatype Options = Options(floor: int, maxFailed: int, freeFreshMs: int, limitedWindowMs: int)

  datatype Reason =
    | NoPhase | InUse | BelowFloor | FailedAttempts | IsHarsh | NeverChecked | StaleFree
    | LimitedOutsideWindow | LimitedNoDate | UnknownStatus

  datatype Verdict = Usable | LimitedSoon | Pipeline | Excluded(reason: Reason)

  predicate Terminal(phase: string) {
    phase == "ready" || phase == "session_rotated"
  }

  function OptionsFrom(config: Config, floor: int, maxFailed: int): Options {
    Options(floor, maxFailed, config.Get(FreeFreshDays) * DAY_MS, config.Get(LeadTimeDays) * DAY_MS)
  }

  function Classify(a: Account, now: int, o: Options): Verdict {
    if a.phase.None? || a.phase.value == "" then Excluded(NoPhase)
    else if !Terminal(a.phase.value) then
      if a.failedAttempts >= o.maxFailed then Excluded(FailedAttempts) else Pipeline
    else if a.inUse then Excluded(InUse)
    else if a.channels < o.floor then Excluded(BelowFloor)
    else
      match a.spam
      case Harsh => Excluded(IsHarsh)
      case Unchecked => Excluded(NeverChecked)
      case Free =>
        if a.checkedAt.None? || now - a.checkedAt.value > o.freeFreshMs then Excluded(StaleFree) else Usable
      case Limited =>
        if a.limitedUntil.None? then Excluded(LimitedNoDate)
        else if a.limitedUntil.value - now > o.limitedWindowMs then Excluded(LimitedOutsideWindow)
        else LimitedSoon
      case Other => Excluded(UnknownStatus)
  }

  predicate Counts(a: Account, now: int, o: Options) {
    !Classify(a, now, o).Excluded?
  }

  /** In warmup an account counts until it failed too often; after it, when it can be used now or within the window. */
  lemma CountsIff(a: Account, now: int, o: Options)
    ensures Counts(a, now, o) <==>
      && a.phase.Some? && a.phase.value != ""
      && (if Terminal(a.phase.value) then
            && !a.inUse && a.channels >= o.floor
            && ((a.spam == Free && a.checkedAt.Some? && now <= a.checkedAt.value + o.freeFreshMs)
                || (a.spam == Limited && a.limitedUntil.Some? && a.limitedUntil.value <= now + o.limitedWindowMs))
          else a.failedAttempts < o.maxFailed)
    ensures Counts(a, now, o) && !Terminal(a.phase.value) <==> Classify(a, now, o) == Pipeline
  {
  }

  /** Waiting can only turn a trusted free verdict stale and bring a limit into the window. */
  lemma ClassifyOverTime(a: Account, now: int, later: int, o: Options)
    requires now <= later
    ensures Classify(a, now, o) == Pipeline <==> Classify(a, later, o) == Pipeline
    ensures Classify(a, later, o) == Usable ==> Classify(a, now, o) == Usable
    ensures Classify(a, now, o) == LimitedSoon ==> Classify(a, later, o) == LimitedSoon
    ensures a.spam == Harsh && Counts(a, now, o) ==> Classify(a, now, o) == Pipeline
    ensures a.inUse && Counts(a, now, o) ==> Classify(a, now, o) == Pipeline
  {
  }

  // ---------------------------------------------------------------------------
  // One client's target
  // ---------------------------------------------------------------------------

  function CeilDiv(a: int, b: int): int
    requires b > 0
  {
    -((-a) / b)
  }

  lemma NoLess(n: nat, b: nat)
    ensures n * b >= 0
  {
  }

  lemma CeilDivIs(a: int, b: int, q: int)
    requires b > 0
    ensures CeilDiv(a, b) <= q <==> a <= q * b
  {
    var c := (-a) / b;
    assert -a == c * b + (-a) % b;
    if -c <= q {
      NoLess(q + c, b);
      assert q * b == (q + c) * b - c * b;
    } else {
      NoLess(-c - 1 - q, b);
      assert (-c - 1 - q) * b == -(c * b) - b - q * b;
    }
  }

  datatype Target = Target(raw: int, target: int, cap: int, need: int)

  function ComputeTarget(consumed: int, counted: int, config: Config): Target
    requires config.Get(ConsumptionWindowDays) > 0
  {
    var swaps := Max(0, consumed);
    var stock := Max(0, counted);
    var raw := CeilDiv(swaps * config.Get(LeadTimeDays), config.Get(ConsumptionWindowDays)) + config.Get(SafetyMargin);
    var target := Min(config.Get(MaxTarget), Max(config.Get(MinTarget), raw));
    var cap := Min(Min(config.Get(HardCap), HARD_CAP_MAX), target + config.Get(CapHeadroom));
    Target(raw, target, cap, Max(0, Min(target, cap) - stock))
  }

  /**
   * The raw target is the least stock that covers the swaps expected over the lead time plus the margin;
   * the target is the nearest stock in the configured range; the cap is the largest stock within the limits
   * and the headroom; and the need is what brings the stock to the lesser of target and cap.
   */
  lemma TargetCovers(consumed: nat, counted: nat, config: Config, stock: int)
    requires UsableConfig(config)
    ensures var t := ComputeTarget(consumed, counted, config);
      && (t.raw <= stock <==>
          consumed * config.Get(LeadTimeDays) <= (stock - config.Get(SafetyMargin)) * config.Get(ConsumptionWindowDays))
      && config.Get(MinTarget) <= t.target <= config.Get(MaxTarget)
      && (t.raw <= t.target || t.target == config.Get(MaxTarget))
      && (t.target <= t.raw || t.target == config.Get(MinTarget))
      && (stock <= t.cap <==> stock <= HARD_CAP_MAX && stock <= config.Get(HardCap) && stock <= t.target + config.Get(CapHeadroom))
      && t.need >= 0
      && (stock > counted ==> (counted + t.need >= stock <==> stock <= t.target && stock <= t.cap))
  {
    CeilDivIs(consumed * config.Get(LeadTimeDays), config.Get(ConsumptionWindowDays), stock - config.Get(SafetyMargin));
  }

  /** A client that swaps more never gets a smaller target or cap. */
  lemma TargetMonotone(consumed: nat, more: nat, counted: nat, config: Config)
    requires UsableConfig(config) && consumed <= more
    ensures ComputeTarget(consumed, counted, config).target <= ComputeTarget(more, counted, config).target
    ensures ComputeTarget(consumed, counted, config).cap <= ComputeTarget(more, counted, config).cap
    ensures ComputeTarget(consumed, counted, config).need <= ComputeTarget(more, counted, config).need
  {
    var (lead, window) := (config.Get(LeadTimeDays), config.Get(ConsumptionWindowDays));
    var q := CeilDiv(more * lead, window);
    CeilDivIs(more * lead, window, q);
    assert consumed * lead <= more * lead;
    CeilDivIs(consumed * lead, window, q);
  }

  // ---------------------------------------------------------------------------
  // The fleet budget
  // ---------------------------------------------------------------------------

  datatype FleetBudget = FleetBudget(budget: nat, weeklyRemaining: nat, pipelineCapacity: int, pipelineRemaining: nat)

  function ComputeBudget(maxNewPerRun: int, weeklyCeiling: int, enrolledLast7d: int, fleetWarming: int, leadTimeDays: int)
    : (b: FleetBudget)
  {
    var weeklyRemaining := Max(0, weeklyCeiling - Max(0, enrolledLast7d));
    var pipelineCapacity := CeilDiv(weeklyCeiling * leadTimeDays, 7);
    var pipelineRemaining := Max(0, pipelineCapacity - Max(0, fleetWarming));
    FleetBudget(Max(0, Min(Min(maxNewPerRun, weeklyRemaining), pipelineRemaining)),
                weeklyRemaining, pipelineCapacity, pipelineRemaining)
  }

  /**
   * The budget is the largest number of enrolments that the run, the week and the warmup pipeline all have room
   * for; what is reported besides are the room of the week, the size of the pipeline and its room.
   */
  lemma BudgetIsLargest(maxNewPerRun: int, weeklyCeiling: int, enrolledLast7d: nat, fleetWarming: nat, leadTimeDays: int, n: int)
    requires n > 0
    ensures var b := ComputeBudget(maxNewPerRun, weeklyCeiling, enrolledLast7d, fleetWarming, leadTimeDays);
      && (n <= b.budget <==>
            && n <= maxNewPerRun
            && enrolledLast7d + n <= weeklyCeiling
            && 7 * (fleetWarming + n) < weeklyCeiling * leadTimeDays + 7)
      && (n <= b.weeklyRemaining <==> enrolledLast7d + n <= weeklyCeiling)
      && (n <= b.pipelineRemaining <==> fleetWarming + n <= b.pipelineCapacity)
      && 7 * (b.pipelineCapacity - 1) < weeklyCeiling * leadTimeDays <= 7 * b.pipelineCapacity
  {
    var all := weeklyCeiling * leadTimeDays;
    CeilDivIs(all, 7, fleetWarming + n - 1);
    CeilDivIs(all, 7, CeilDiv(all, 7));
    CeilDivIs(all, 7, CeilDiv(all, 7) - 1);
  }
}
