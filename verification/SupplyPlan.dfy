/** The dynamic enrolment plan of one run, and what any sequence of runs keeps. */
module SupplyPlan {
  import opened Basics
  import opened BufferSupply
  import Allocation

  const WEEK_MS: int := 7 * DAY_MS

  /** `windowNeed` is what the availability windows ask for, computed elsewhere. */
  datatype Client = Client(clientId: string, windowNeed: int)

  datatype PlanEntry = PlanEntry(clientId: string, counted: nat, target: int, cap: int, need: int, slots: nat)

  // ---------------------------------------------------------------------------
  // What the plan counts
  // ---------------------------------------------------------------------------

  predicate CountsFor(a: Account, c: string, now: int, o: Options) { a.clientId == c && c != "" && Counts(a, now, o) }

  predicate Warms(a: Account, now: int, o: Options) { a.clientId != "" && Classify(a, now, o) == Pipeline }

  function CountFor(accounts: seq<Account>, c: string, now: int, o: Options): nat {
    if accounts == [] then 0
    else
      CountFor(accounts[..|accounts| - 1], c, now, o) + (if CountsFor(accounts[|accounts| - 1], c, now, o) then 1 else 0)
  }

  function Warming(accounts: seq<Account>, now: int, o: Options): nat {
    if accounts == [] then 0
    else
      Warming(accounts[..|accounts| - 1], now, o) + (if Warms(accounts[|accounts| - 1], now, o) then 1 else 0)
  }

  /** Enrolment times not before `from`. */
  function Since(history: seq<int>, from: int): nat {
    if history == [] then 0
    else Since(history[..|history| - 1], from) + (if history[|history| - 1] >= from then 1 else 0)
  }

  /** How many enrolments there were since then. */
  lemma {:induction false} SinceIs(history: seq<int>, from: int)
    ensures Since(history, from) == |set i | 0 <= i < |history| && history[i] >= from|
  {
    var all := set i | 0 <= i < |history| && history[i] >= from;
    if history == [] {
      assert all == {};
    } else {
      var n := |history| - 1;
      var init := history[..n];
      SinceIs(init, from);
      var before := set i | 0 <= i < |init| && init[i] >= from;
      assert forall i :: 0 <= i < n ==> init[i] == history[i];
      assert all == if history[n] >= from then before + {n} else before;
    }
  }

  lemma {:induction false} CountForIs(accounts: seq<Account>, c: string, now: int, o: Options)
    ensures CountFor(accounts, c, now, o) == |set i | 0 <= i < |accounts| && CountsFor(accounts[i], c, now, o)|
  {
    hide CountsFor;
    var all := set i | 0 <= i < |accounts| && CountsFor(accounts[i], c, now, o);
    if accounts == [] {
      assert all == {};
    } else {
      var n := |accounts| - 1;
      var init := accounts[..n];
      CountForIs(init, c, now, o);
      var before := set i | 0 <= i < |init| && CountsFor(init[i], c, now, o);
      assert forall i :: 0 <= i < n ==> init[i] == accounts[i];
      assert all == if CountsFor(accounts[n], c, now, o) then before + {n} else before;
    }
  }

  lemma {:induction false} WarmingIs(accounts: seq<Account>, now: int, o: Options)
    ensures Warming(accounts, now, o) == |set i | 0 <= i < |accounts| && Warms(accounts[i], now, o)|
  {
    hide Warms;
    var all := set i | 0 <= i < |accounts| && Warms(accounts[i], now, o);
    if accounts == [] {
      assert all == {};
    } else {
      var n := |accounts| - 1;
      var init := accounts[..n];
      WarmingIs(init, now, o);
      var before := set i | 0 <= i < |init| && Warms(init[i], now, o);
      assert forall i :: 0 <= i < n ==> init[i] == accounts[i];
      assert all == if Warms(accounts[n], now, o) then before + {n} else before;
    }
  }

  function EntryFor(client: Client, counted: nat, consumed: nat, config: Config): PlanEntry
    requires config.Get(ConsumptionWindowDays) > 0
  {
    var t := ComputeTarget(consumed, counted, config);
    var need := Min(Max(0, t.cap - counted), Max(t.need, client.windowNeed));
    PlanEntry(client.clientId, counted, t.target, t.cap, need, 0)
  }

  function NeedsOf(entries: seq<PlanEntry>): seq<Allocation.NeedEntry> {
    seq(|entries|, i requires 0 <= i < |entries| =>
      Allocation.NeedEntry(entries[i].clientId, entries[i].need, entries[i].target))
  }

  function CountIn(counts: map<string, nat>, c: string): nat {
    if c in counts then counts[c] else 0
  }

  /** The entries before any slot is shared out. */
  function Unshared(accounts: seq<Account>, consumed: map<string, nat>, clients: seq<Client>, config: Config,
                    o: Options, now: int): seq<PlanEntry>
    requires config.Get(ConsumptionWindowDays) > 0
  {
    seq(|clients|, i requires 0 <= i < |clients| =>
      EntryFor(clients[i], CountFor(accounts, clients[i].clientId, now, o), CountIn(consumed, clients[i].clientId), config))
  }

  /** A client's need is the most it can take under its cap while short of its target or of its windows' need. */
  lemma NeedIsLargest(client: Client, counted: nat, consumed: nat, config: Config, n: int)
    requires UsableConfig(config) && n > 0
    ensures var e := EntryFor(client, counted, consumed, config);
      e.need >= 0 && (n <= e.need <==> counted + n <= e.cap && (counted + n <= e.target || n <= client.windowNeed))
  {
    TargetCovers(consumed, counted, config, counted + n);
    hide ComputeTarget;
  }

  /** An entry from its client's accounts, swaps and windows. */
  lemma EntryIs(accounts: seq<Account>, consumed: map<string, nat>, client: Client, config: Config, o: Options, now: int)
    requires UsableConfig(config)
    ensures var e := EntryFor(client, CountFor(accounts, client.clientId, now, o), CountIn(consumed, client.clientId), config);
      var counted := |set k | 0 <= k < |accounts| && CountsFor(accounts[k], client.clientId, now, o)|;
      var t := ComputeTarget(if client.clientId in consumed then consumed[client.clientId] else 0, counted, config);
      e == PlanEntry(client.clientId, counted, t.target, t.cap, e.need, 0)
  {
    hide ComputeTarget, CountFor;
    CountForIs(accounts, client.clientId, now, o);
  }

  /** The pass over the assigned accounts. */
  method CountAccounts(accounts: seq<Account>, now: int, o: Options) returns (countedPerClient: map<string, nat>, fleetWarming: nat)
    ensures fleetWarming == Warming(accounts, now, o)
    ensures forall c :: CountIn(countedPerClient, c) == CountFor(accounts, c, now, o)
  {
    hide Classify;
    countedPerClient, fleetWarming := map[], 0;
    for i := 0 to |accounts|
      invariant fleetWarming == Warming(accounts[..i], now, o)
      invariant forall c | c != "" :: CountIn(countedPerClient, c) == CountFor(accounts[..i], c, now, o)
      invariant "" !in countedPerClient
    {
      var a := accounts[i];
      assert accounts[..i + 1][..i] == accounts[..i];
      if a.clientId == "" {
        continue;
      }
      var verdict := Classify(a, now, o);
      if !verdict.Excluded? {
        countedPerClient := countedPerClient[a.clientId := CountIn(countedPerClient, a.clientId) + 1];
        if verdict.Pipeline? {
          fleetWarming := fleetWarming + 1;
        }
      }
    }
    assert accounts[..|accounts|] == accounts;
    NobodyCounts(accounts, now, o);
  }

  /**
   * The plan on its inputs: what each client has counts its own accounts, target and cap follow from its own
   * swaps, the budget from the enrolments of the last seven days and the accounts in warmup. NeedIsLargest says
   * what the need is, TargetCovers and BudgetIsLargest what target, cap and budget are.
   */
  method BuildSupplyPlan(accounts: seq<Account>, consumed: map<string, nat>, history: seq<int>, clients: seq<Client>,
                         config: Config, floor: int, maxFailed: int, maxNewPerRun: int, now: int)
    returns (entries: seq<PlanEntry>, fleet: FleetBudget)
    requires UsableConfig(config)
    ensures var o := Options(floor, maxFailed, config.Get(FreeFreshDays) * 86_400_000, config.Get(LeadTimeDays) * 86_400_000);
      && fleet == ComputeBudget(maxNewPerRun, config.Get(FleetWeeklyCeiling),
                                |set k | 0 <= k < |history| && history[k] >= now - 604_800_000|,
                                |set k | 0 <= k < |accounts| && Warms(accounts[k], now, o)|, config.Get(LeadTimeDays))
      && |entries| == |clients|
      && forall i | 0 <= i < |clients| ::
           var c := clients[i].clientId;
           var counted := |set k | 0 <= k < |accounts| && CountsFor(accounts[k], c, now, o)|;
           var t := ComputeTarget(if c in consumed then consumed[c] else 0, counted, config);
           entries[i] == PlanEntry(c, counted, t.target, t.cap, entries[i].need, entries[i].slots)
    ensures var o := OptionsFrom(config, floor, maxFailed);
      var before := Unshared(accounts, consumed, clients, config, o, now);
      forall i | 0 <= i < |entries| ::
        entries[i] == before[i].(slots := Allocation.Allotted(NeedsOf(before), fleet.budget, before[i].clientId))
  {
    hide Classify, ComputeTarget, ComputeBudget, Allocation.Allotted, Allocation.Spends, Allocation.ServesByNeed;
    var o := OptionsFrom(config, floor, maxFailed);
    var countedPerClient, fleetWarming := CountAccounts(accounts, now, o);
    var enrolledLast7d := Since(history, now - WEEK_MS);
    SinceIs(history, now - WEEK_MS);
    WarmingIs(accounts, now, o);
    hide Warming, CountFor, Since;
    entries := [];
    ghost var before := Unshared(accounts, consumed, clients, config, o, now);
    for i := 0 to |clients|
      invariant entries == before[..i]
    {
      var c := clients[i];
      entries := entries + [EntryFor(c, CountIn(countedPerClient, c.clientId), CountIn(consumed, c.clientId), config)];
    }
    assert entries == before;
    fleet := ComputeBudget(maxNewPerRun, config.Get(FleetWeeklyCeiling), enrolledLast7d, fleetWarming, config.Get(LeadTimeDays));
    var allocation := Allocation.AllocateByNeed(NeedsOf(entries), fleet.budget);
    for i := 0 to |entries|
      invariant |entries| == |before|
      invariant forall j | 0 <= j < i ::
          entries[j] == before[j].(slots := Allocation.Allotted(NeedsOf(before), fleet.budget, before[j].clientId))
      invariant forall j | i <= j < |entries| :: entries[j] == before[j]
    {
      var c := entries[i].clientId;
      entries := entries[i := entries[i].(slots := if c in allocation then allocation[c] else 0)];
    }
    EntriesAre(accounts, consumed, clients, config, o, now);
  }

  lemma EntriesAre(accounts: seq<Account>, consumed: map<string, nat>, clients: seq<Client>, config: Config, o: Options, now: int)
    requires UsableConfig(config)
    ensures var before := Unshared(accounts, consumed, clients, config, o, now);
      forall i | 0 <= i < |clients| ::
        var c := clients[i].clientId;
        var counted := |set k | 0 <= k < |accounts| && CountsFor(accounts[k], c, now, o)|;
        var t := ComputeTarget(if c in consumed then consumed[c] else 0, counted, config);
        before[i] == PlanEntry(c, counted, t.target, t.cap, before[i].need, 0)
  {
    hide ComputeTarget, CountFor, Classify;
    var before := Unshared(accounts, consumed, clients, config, o, now);
    forall i | 0 <= i < |clients|
      ensures var c := clients[i].clientId;
        var counted := |set k | 0 <= k < |accounts| && CountsFor(accounts[k], c, now, o)|;
        var t := ComputeTarget(if c in consumed then consumed[c] else 0, counted, config);
        before[i] == PlanEntry(c, counted, t.target, t.cap, before[i].need, 0)
    {
      EntryIs(accounts, consumed, clients[i], config, o, now);
    }
  }

  lemma {:induction false} NobodyCounts(accounts: seq<Account>, now: int, o: Options)
    ensures CountFor(accounts, "", now, o) == 0
  {
    if accounts != [] {
      NobodyCounts(accounts[..|accounts| - 1], now, o);
    }
  }

  // ---------------------------------------------------------------------------
  // What one plan keeps
  // ---------------------------------------------------------------------------

  /** Entries as the plan shares them out, one per client. */
  ghost predicate Shared(entries: seq<PlanEntry>, budget: nat) {
    && (forall i, j | 0 <= i < j < |entries| :: entries[i].clientId != entries[j].clientId)
    && (forall i | 0 <= i < |entries| ::
          && entries[i].slots == Allocation.Allotted(NeedsOf(entries), budget, entries[i].clientId)
          && entries[i].need <= Max(0, entries[i].cap - entries[i].counted))
  }

  function TotalAllocated(entries: seq<PlanEntry>): nat {
    if entries == [] then 0 else entries[0].slots + TotalAllocated(entries[1..])
  }

  lemma PlanIsShared(before: seq<PlanEntry>, entries: seq<PlanEntry>, budget: nat, clients: seq<Client>,
                     accounts: seq<Account>, consumed: map<string, nat>, config: Config, o: Options, now: int)
    requires UsableConfig(config) && before == Unshared(accounts, consumed, clients, config, o, now)
    requires forall i, j | 0 <= i < j < |clients| :: clients[i].clientId != clients[j].clientId
    requires |entries| == |before| && forall i | 0 <= i < |entries| ::
      entries[i] == before[i].(slots := Allocation.Allotted(NeedsOf(before), budget, before[i].clientId))
    ensures Shared(entries, budget)
  {
    hide Allocation.Allotted;
    assert NeedsOf(entries) == NeedsOf(before);
  }

  /** No client at or under its cap is taken past it by what it is allocated. */
  lemma CapKept(entries: seq<PlanEntry>, budget: nat, i: nat)
    requires Shared(entries, budget) && i < |entries|
    ensures entries[i].counted + entries[i].slots <= Max(entries[i].counted, entries[i].cap)
  {
    var needs := NeedsOf(entries);
    assert Allocation.OnePerClient(needs);
    assert needs[i] in needs;
    Allocation.AllottedAtMostNeed(needs, budget, needs[i]);
  }

  lemma {:induction false} TotalIsAllotted(entries: seq<PlanEntry>, needs: seq<Allocation.NeedEntry>, budget: nat)
    requires forall i | 0 <= i < |entries| :: entries[i].slots == Allocation.Allotted(needs, budget, entries[i].clientId)
    ensures TotalAllocated(entries) == Allocation.AllottedTotal(needs, budget, Allocation.ClientIds(NeedsOf(entries)))
  {
    hide Allocation.Allotted;
    var ids := Allocation.ClientIds(NeedsOf(entries));
    if entries != [] {
      TotalIsAllotted(entries[1..], needs, budget);
      assert ids[1..] == Allocation.ClientIds(NeedsOf(entries[1..]));
    }
  }

  /** The run allocates its whole budget, or all that is needed. */
  lemma BudgetSpent(entries: seq<PlanEntry>, budget: nat)
    requires Shared(entries, budget)
    ensures TotalAllocated(entries) == Min(budget, Allocation.TotalNeed(NeedsOf(entries)))
  {
    TotalIsAllotted(entries, NeedsOf(entries), budget);
    Allocation.AllotmentIsConserved(NeedsOf(entries), budget);
  }

  // ---------------------------------------------------------------------------
  // What any sequence of runs keeps
  // ---------------------------------------------------------------------------

  /** Enrolments in the closed interval from `from` to `to`. */
  function Within(history: seq<int>, from: int, to: int): nat {
    if history == [] then 0
    else
      var t := history[|history| - 1];
      Within(history[..|history| - 1], from, to) + (if from <= t <= to then 1 else 0)
  }

  function InWeek(history: seq<int>, from: int): nat {
    Within(history, from, from + WEEK_MS)
  }

  ghost predicate UnderCeiling(history: seq<int>, ceiling: int) {
    forall from :: InWeek(history, from) <= ceiling
  }

  /** One run: its clock, its plan, and the moments of the enrolments it made. */
  datatype Run = Run(now: int, maxNewPerRun: int, warming: nat, leadTimeDays: int, entries: seq<PlanEntry>, enrolled: seq<int>)

  /** The run follows its plan: it enrols after planning, and no more than was allocated. */
  ghost predicate Follows(history: seq<int>, run: Run, ceiling: int) {
    var fleet := ComputeBudget(run.maxNewPerRun, ceiling, Since(history, run.now - WEEK_MS), run.warming, run.leadTimeDays);
    && Shared(run.entries, fleet.budget)
    && |run.enrolled| <= TotalAllocated(run.entries)
    && forall i | 0 <= i < |run.enrolled| :: run.now <= run.enrolled[i]
  }

  ghost predicate AllFollow(history: seq<int>, runs: seq<Run>, ceiling: int)
    decreases |runs|
  {
    runs == [] || (Follows(history, runs[0], ceiling) && AllFollow(history + runs[0].enrolled, runs[1..], ceiling))
  }

  function HistoryAfter(history: seq<int>, runs: seq<Run>): seq<int>
    decreases |runs|
  {
    if runs == [] then history else HistoryAfter(history + runs[0].enrolled, runs[1..])
  }

  lemma {:induction false} WithinJoin(a: seq<int>, b: seq<int>, from: int, to: int)
    ensures Within(a + b, from, to) == Within(a, from, to) + Within(b, from, to)
    decreases |b|
  {
    if b == [] {
      assert a + b == a;
    } else {
      assert (a + b)[..|a + b| - 1] == a + b[..|b| - 1];
      WithinJoin(a, b[..|b| - 1], from, to);
    }
  }

  lemma {:induction false} WithinBounds(s: seq<int>, from: int, to: int, late: int)
    ensures Within(s, from, to) <= |s|
    ensures late <= from ==> Within(s, from, to) <= Since(s, late)
    ensures (forall i | 0 <= i < |s| :: to < s[i]) ==> Within(s, from, to) == 0
  {
    if s != [] {
      WithinBounds(s[..|s| - 1], from, to, late);
    }
  }

  /** How many enrolments lie in the closed interval. */
  lemma {:induction false} WithinIs(history: seq<int>, from: int, to: int)
    ensures Within(history, from, to) == |set i | 0 <= i < |history| && from <= history[i] <= to|
  {
    var all := set i | 0 <= i < |history| && from <= history[i] <= to;
    if history == [] {
      assert all == {};
    } else {
      var n := |history| - 1;
      var init := history[..n];
      WithinIs(init, from, to);
      var before := set i | 0 <= i < |init| && from <= init[i] <= to;
      assert all == if from <= history[n] <= to then before + {n} else before;
    }
  }

  lemma EnrolsAtMost(history: seq<int>, run: Run, ceiling: int)
    requires Follows(history, run, ceiling)
    ensures |run.enrolled| <= Max(0, ceiling - Since(history, run.now - WEEK_MS))
    ensures |run.enrolled| <= Max(0, CeilDiv(ceiling * run.leadTimeDays, 7) - run.warming)
  {
    var fleet := ComputeBudget(run.maxNewPerRun, ceiling, Since(history, run.now - WEEK_MS), run.warming, run.leadTimeDays);
    BudgetSpent(run.entries, fleet.budget);
  }

  lemma RunUnderCeiling(history: seq<int>, run: Run, ceiling: int)
    requires UnderCeiling(history, ceiling) && Follows(history, run, ceiling)
    ensures UnderCeiling(history + run.enrolled, ceiling)
  {
    EnrolsAtMost(history, run, ceiling);
    assert forall i | 0 <= i < |run.enrolled| :: run.now <= run.enrolled[i];
    hide Follows, Since, Within;
    forall from
      ensures InWeek(history + run.enrolled, from) <= ceiling
    {
      WithinJoin(history, run.enrolled, from, from + WEEK_MS);
      assert InWeek(history, from) <= ceiling;
      WithinBounds(run.enrolled, from, from + WEEK_MS, from);
      WithinBounds(history, from, from + WEEK_MS, run.now - WEEK_MS);
    }
  }

  lemma {:induction false} NeverOverCeiling(history: seq<int>, runs: seq<Run>, ceiling: int)
    requires UnderCeiling(history, ceiling) && AllFollow(history, runs, ceiling)
    ensures UnderCeiling(HistoryAfter(history, runs), ceiling)
    decreases |runs|
  {
    if runs != [] {
      RunUnderCeiling(history, runs[0], ceiling);
      NeverOverCeiling(history + runs[0].enrolled, runs[1..], ceiling);
    }
  }

  /** However many runs there are, no closed 7-day window ever holds more enrolments than the ceiling. */
  lemma NoWeekOverCeiling(history: seq<int>, runs: seq<Run>, ceiling: int, from: int)
    requires UnderCeiling(history, ceiling) && AllFollow(history, runs, ceiling)
    ensures var all := HistoryAfter(history, runs);
      history <= all && |set i | 0 <= i < |all| && from <= all[i] <= from + 604_800_000| <= ceiling
  {
    hide Within, AllFollow;
    NeverOverCeiling(history, runs, ceiling);
    var all := HistoryAfter(history, runs);
    assert InWeek(all, from) <= ceiling;
    WithinIs(all, from, from + WEEK_MS);
    HistoryGrows(history, runs);
  }

  lemma {:induction false} HistoryGrows(history: seq<int>, runs: seq<Run>)
    ensures history <= HistoryAfter(history, runs)
    decreases |runs|
  {
    if runs != [] {
      HistoryGrows(history + runs[0].enrolled, runs[1..]);
    }
  }

  /** Nor does a run put more accounts in warmup than the engine can carry over the lead time. */
  lemma PipelineKept(history: seq<int>, run: Run, ceiling: int)
    requires Follows(history, run, ceiling)
    ensures run.warming + |run.enrolled| <= Max(run.warming, CeilDiv(ceiling * run.leadTimeDays, 7))
  {
    EnrolsAtMost(history, run, ceiling);
  }
}
