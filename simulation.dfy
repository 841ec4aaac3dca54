/**
 * The simulation: the entity lists, the metrics, and the daily tick that runs the era's
 * policies, the yield, the household and the person phases in that order.
 */
module Simulations {
  import opened Common
  import opened Farms
  import opened Persons
  import opened Households
  import opened Policies
  import Eras
  import Timekeeping

  datatype Metrics = Metrics(totalGrainToday: real, totalLivestockEst: real, avgMorale: real,
                             displacedCount: nat, grainRequisitioned: real, farmsCollectivized: nat)

  const INITIAL_METRICS: Metrics := Metrics(0.0, 0.0, 0.0, 0, 0.0, 0)

  /** The values of everything a tick changes. */
  datatype WorldV = WorldV(farms: seq<FarmV>, persons: seq<PersonV>, households: seq<HouseholdV>,
                           metrics: Metrics)

  // ---------------------------------------------------------------- policy phase

  /** What the policy phase works on. */
  datatype Stage = Stage(farms: seq<FarmV>, persons: seq<PersonV>, metrics: Metrics)

  /** One registered policy applied to a stage, its counter increments added to the metrics. */
  function PolicyStep(p: Policy, s: Stage, year: int): Stage {
    var e := ApplySpec(p, s.farms, s.persons, year);
    Stage(e.farms, e.persons,
          s.metrics.(grainRequisitioned := s.metrics.grainRequisitioned + e.grainTaken,
                     farmsCollectivized := s.metrics.farmsCollectivized + e.farmsConverted))
  }

  /** `const policy = Policies[pid]; if (policy) policy.applyDaily(this)`. */
  function PidStep(pid: string, s: Stage, year: int): (r: Stage)
    ensures |r.farms| == |s.farms| && |r.persons| == |s.persons|
  {
    match Lookup(pid)
    case None => s
    case Some(p) => PolicyStep(p, s, year)
  }

  /** `era.policies.forEach(...)`: each id in order; an id the registry lacks is skipped. */
  function RunPolicies(pids: seq<string>, s: Stage, year: int): (r: Stage)
    ensures |r.farms| == |s.farms| && |r.persons| == |s.persons|
    decreases |pids|
  {
    if |pids| == 0 then s
    else PidStep(pids[|pids| - 1], RunPolicies(pids[..|pids| - 1], s, year), year)
  }

  /** What no policy changes: a farm's id, land and history, and every displaced flag. */
  predicate PolicyFramed(a: Stage, b: Stage) {
    && |b.farms| == |a.farms| && |b.persons| == |a.persons|
    && (forall k :: 0 <= k < |a.farms| ==>
          b.farms[k].id == a.farms[k].id && b.farms[k].landArea == a.farms[k].landArea
          && b.farms[k].yieldHistory == a.farms[k].yieldHistory)
    && (forall k :: 0 <= k < |a.persons| ==> b.persons[k].(morale := a.persons[k].morale) == a.persons[k])
    && b.metrics.grainRequisitioned >= a.metrics.grainRequisitioned
    && b.metrics.farmsCollectivized >= a.metrics.farmsCollectivized
    && b.metrics.displacedCount == a.metrics.displacedCount
  }

  /**
   * The whole policy phase keeps each farm's risk in [0,1], keeps the policy frame and only
   * ever adds to the two counters.
   */
  lemma {:induction false} RunPoliciesProperties(pids: seq<string>, s: Stage, year: int)
    ensures PolicyFramed(s, RunPolicies(pids, s, year))
    ensures RiskInUnit(s.farms) ==> RiskInUnit(RunPolicies(pids, s, year).farms)
    decreases |pids|
  {
    if |pids| > 0 {
      var s1 := RunPolicies(pids[..|pids| - 1], s, year);
      RunPoliciesProperties(pids[..|pids| - 1], s, year);
      assert RunPolicies(pids, s, year) == PidStep(pids[|pids| - 1], s1, year);
      match Lookup(pids[|pids| - 1])
      case None =>
      case Some(p) =>
        PolicyFrame(p, s1.farms, s1.persons, year);
        if RiskInUnit(s.farms) {
          PolicyKeepsRiskInUnit(p, s1.farms, s1.persons, year);
        }
    }
  }

  // ---------------------------------------------------------------- yield phase

  /** A farm's realized yield given the persons working it. */
  function YieldOf(f: FarmV, ps: seq<PersonV>): real {
    var occ := Occupants(ps, f.id);
    Realized(f, LaborSum(occ), MoraleAvg(occ))
  }

  function Harvested(f: FarmV, ps: seq<PersonV>): FarmV {
    var occ := Occupants(ps, f.id);
    AfterYield(f, LaborSum(occ), MoraleAvg(occ))
  }

  function Harvest(fs: seq<FarmV>, ps: seq<PersonV>): (r: seq<FarmV>)
    ensures |r| == |fs|
    ensures forall k {:trigger Harvested(fs[k], ps)} :: 0 <= k < |fs| ==> r[k] == Harvested(fs[k], ps)
  {
    if |fs| == 0 then [] else Harvest(fs[..|fs| - 1], ps) + [Harvested(fs[|fs| - 1], ps)]
  }

  /** `totalYield`: the running sum of the farms' realized yields, in list order. */
  function TotalYield(fs: seq<FarmV>, ps: seq<PersonV>): real {
    if |fs| == 0 then 0.0 else TotalYield(fs[..|fs| - 1], ps) + YieldOf(fs[|fs| - 1], ps)
  }

  lemma TotalYieldStep(fs: seq<FarmV>, ps: seq<PersonV>, i: nat)
    requires i < |fs|
    ensures TotalYield(fs[..i + 1], ps) == TotalYield(fs[..i], ps) + YieldOf(fs[i], ps)
  {
    assert fs[..i + 1][..i] == fs[..i];
  }

  /** The sum of each farm's latest recorded yield. */
  function LatestYields(fs: seq<FarmV>): real {
    if |fs| == 0 then 0.0 else LatestYields(fs[..|fs| - 1]) + Last(fs[|fs| - 1].yieldHistory)
  }

  /** The day's total equals the sum of the yields the farms have just recorded. */
  lemma {:induction false} TotalIsLatestYields(fs: seq<FarmV>, ps: seq<PersonV>)
    ensures TotalYield(fs, ps) == LatestYields(Harvest(fs, ps))
  {
    if |fs| > 0 {
      var n := |fs|;
      assert Harvest(fs, ps)[..n - 1] == Harvest(fs[..n - 1], ps);
      TotalIsLatestYields(fs[..n - 1], ps);
      var occ := Occupants(ps, fs[n - 1].id);
      AfterYieldShape(fs[n - 1], LaborSum(occ), MoraleAvg(occ));
    }
  }

  /** `farms.reduce((a, f) => a + f.landArea * 0.05, 0)`. */
  function Livestock(fs: seq<FarmV>): real {
    if |fs| == 0 then 0.0 else Livestock(fs[..|fs| - 1]) + fs[|fs| - 1].landArea * 0.05
  }

  // ---------------------------------------------------------------- person phase

  /** `farms.find(f => f.id === id)` as an index: the first farm with that id, or -1. */
  function FindFarm(fs: seq<FarmV>, fid: Option<nat>): (r: int)
    ensures -1 <= r < |fs|
    ensures r >= 0 ==> Some(fs[r].id) == fid && forall k :: 0 <= k < r ==> Some(fs[k].id) != fid
    ensures r == -1 <==> forall k :: 0 <= k < |fs| ==> Some(fs[k].id) != fid
  {
    if |fs| == 0 then -1
    else if Some(fs[0].id) == fid then 0
    else
      var r := FindFarm(fs[1..], fid);
      if r < 0 then -1 else r + 1
  }

  /** `farm ? farm.riskFamine : 0`. */
  function RiskFor(fs: seq<FarmV>, fid: Option<nat>): real {
    var i := FindFarm(fs, fid);
    if i >= 0 then fs[i].riskFamine else 0.0
  }

  lemma RiskForInUnit(fs: seq<FarmV>, fid: Option<nat>)
    requires RiskInUnit(fs)
    ensures 0.0 <= RiskFor(fs, fid) <= 1.0
    ensures fid.None? ==> RiskFor(fs, fid) == 0.0
    ensures (forall k :: 0 <= k < |fs| ==> Some(fs[k].id) != fid) ==> RiskFor(fs, fid) == 0.0
  {
  }

  /** Every person after its daily update, each seeing its own farm's risk. */
  function UpdatedPersons(fs: seq<FarmV>, ps: seq<PersonV>, draws: seq<DayDraws>): (r: seq<PersonV>)
    requires |draws| == |ps|
    ensures |r| == |ps|
    ensures forall k {:trigger AfterDailyUpdate(ps[k], RiskFor(fs, ps[k].farmId), draws[k])} :: 0 <= k < |ps| ==>
              r[k] == AfterDailyUpdate(ps[k], RiskFor(fs, ps[k].farmId), draws[k])
  {
    if |ps| == 0 then []
    else
      var n := |ps| - 1;
      UpdatedPersons(fs, ps[..n], draws[..n]) + [AfterDailyUpdate(ps[n], RiskFor(fs, ps[n].farmId), draws[n])]
  }

  /**
   * The displaced count after the first i person updates: recounted over the list as it then
   * stands (the first i updated, the rest not yet) each time an updated person is displaced,
   * else left at `prev`.
   */
  function Recount(olds: seq<PersonV>, news: seq<PersonV>, i: nat, prev: nat): nat
    requires i <= |olds| == |news|
  {
    if i == 0 then prev
    else if news[i - 1].displaced then CountDisplaced(news[..i] + olds[i..])
    else Recount(olds, news, i - 1, prev)
  }

  predicate MonotoneDisplacement(olds: seq<PersonV>, news: seq<PersonV>) {
    |olds| == |news| && forall k :: 0 <= k < |olds| ==> olds[k].displaced ==> news[k].displaced
  }

  /**
   * Since updates never clear a displaced flag, the recount is the true count of the list as it
   * stands once any updated person is displaced; otherwise it never fired.
   */
  lemma {:induction false} RecountIsCount(olds: seq<PersonV>, news: seq<PersonV>, i: nat, prev: nat)
    requires MonotoneDisplacement(olds, news) && i <= |olds|
    ensures (exists k :: 0 <= k < i && news[k].displaced) ==> Recount(olds, news, i, prev) == CountDisplaced(news[..i] + olds[i..])
    ensures (forall k :: 0 <= k < i ==> !news[k].displaced) ==> Recount(olds, news, i, prev) == prev
  {
    if i > 0 && !news[i - 1].displaced {
      RecountIsCount(olds, news, i - 1, prev);
      var a, b := news[..i - 1] + olds[i - 1..], news[..i] + olds[i..];
      assert |a| == |b|;
      forall k | 0 <= k < |a|
        ensures a[k].displaced == b[k].displaced
      {
        if k == i - 1 {
          assert a[k] == olds[i - 1] && b[k] == news[i - 1];
        }
      }
      CountSameFlags(a, b);
    }
  }

  // ---------------------------------------------------------------- the tick

  /** The policy phase of a tick: every farm's modifier reset, then the era's policies in order. */
  function PolicyPhase(w: WorldV, pids: seq<string>, year: int): (s: Stage)
    ensures |s.farms| == |w.farms| && |s.persons| == |w.persons|
  {
    RunPolicies(pids, Stage(Map(Reset, w.farms), w.persons, w.metrics), year)
  }

  /**
   * The rest of a tick, from the stage the policy phase ends in: the yield, the households'
   * consumption, the person updates, and the metrics they feed.
   */
  function TickFrom(hs: seq<HouseholdV>, s: Stage, draws: seq<DayDraws>): WorldV
    requires |draws| == |s.persons|
  {
    var fs := Harvest(s.farms, s.persons);
    var ps := UpdatedPersons(fs, s.persons, draws);
    WorldV(fs, ps, Map(Consumed, hs),
           s.metrics.(totalGrainToday := TotalYield(s.farms, s.persons),
                      avgMorale := MoraleAvg(ps),
                      totalLivestockEst := Livestock(fs),
                      displacedCount := Recount(s.persons, ps, |ps|, s.metrics.displacedCount)))
  }

  /** `dailyTick(era)`: the new values of the lists and metrics, given the year and the day's draws. */
  function TickSpec(w: WorldV, pids: seq<string>, year: int, draws: seq<DayDraws>): (r: WorldV)
    requires |draws| == |w.persons|
    ensures |r.farms| == |w.farms| && |r.persons| == |w.persons| && |r.households| == |w.households|
  {
    TickFrom(w.households, PolicyPhase(w, pids, year), draws)
  }

  predicate HealthMoraleInUnit(ps: seq<PersonV>) {
    forall k :: 0 <= k < |ps| ==> 0.0 <= ps[k].health <= 1.0 && 0.0 <= ps[k].morale <= 1.0
  }

  predicate HistoriesCapped(fs: seq<FarmV>) {
    forall k :: 0 <= k < |fs| ==> |fs[k].yieldHistory| <= HISTORY_CAP
  }

  predicate FoodNonnegative(hs: seq<HouseholdV>) {
    forall k :: 0 <= k < |hs| ==> hs[k].storedFood >= 0.0
  }

  /**
   * The yield phase keeps each farm's id, land and famine risk, keeps every history within
   * its cap, and so leaves the livestock estimate as it was.
   */
  lemma HarvestFrame(fs: seq<FarmV>, ps: seq<PersonV>)
    ensures var r := Harvest(fs, ps);
      && (forall k :: 0 <= k < |fs| ==>
            r[k].id == fs[k].id && r[k].landArea == fs[k].landArea && r[k].riskFamine == fs[k].riskFamine)
      && (HistoriesCapped(fs) ==> HistoriesCapped(r))
      && Livestock(r) == Livestock(fs)
  {
    var r := Harvest(fs, ps);
    forall k | 0 <= k < |fs|
      ensures r[k].id == fs[k].id && r[k].landArea == fs[k].landArea && r[k].riskFamine == fs[k].riskFamine
      ensures |fs[k].yieldHistory| <= HISTORY_CAP ==> |r[k].yieldHistory| <= HISTORY_CAP
    {
      assert r[k] == Harvested(fs[k], ps);
      var occ := Occupants(ps, fs[k].id);
      AfterYieldShape(fs[k], LaborSum(occ), MoraleAvg(occ));
      if |fs[k].yieldHistory| <= HISTORY_CAP {
        HistoryStaysCapped(fs[k].yieldHistory, Realized(fs[k], LaborSum(occ), MoraleAvg(occ)));
      }
    }
    LivestockKept(fs, r);
  }

  /**
   * The person phase keeps every id, never clears a displaced flag, and leaves every health
   * and morale value in [0,1].
   */
  lemma UpdatedFacts(fs: seq<FarmV>, ps: seq<PersonV>, draws: seq<DayDraws>)
    requires |draws| == |ps|
    ensures var r := UpdatedPersons(fs, ps, draws);
      && MonotoneDisplacement(ps, r)
      && (forall k :: 0 <= k < |ps| ==> r[k].id == ps[k].id)
      && HealthMoraleInUnit(r)
  {
    var r := UpdatedPersons(fs, ps, draws);
    forall k | 0 <= k < |ps|
      ensures r[k].id == ps[k].id && (ps[k].displaced ==> r[k].displaced)
      ensures 0.0 <= r[k].health <= 1.0 && 0.0 <= r[k].morale <= 1.0
    {
      DailyUpdateProperties(ps[k], RiskFor(fs, ps[k].farmId), draws[k]);
    }
  }

  /**
   * When the count the person phase starts from is exact, the one it ends with is exact too,
   * although it recounts only when an updated person is displaced.
   */
  lemma PersonPhaseCount(fs: seq<FarmV>, ps: seq<PersonV>, draws: seq<DayDraws>, prev: nat)
    requires |draws| == |ps| && prev == CountDisplaced(ps)
    ensures Recount(ps, UpdatedPersons(fs, ps, draws), |ps|, prev) == CountDisplaced(UpdatedPersons(fs, ps, draws))
  {
    var r := UpdatedPersons(fs, ps, draws);
    UpdatedFacts(fs, ps, draws);
    RecountIsCount(ps, r, |ps|, prev);
    assert r[..|r|] + ps[|ps|..] == r;
    if forall k :: 0 <= k < |r| ==> !r[k].displaced {
      CountZero(ps);
      CountZero(r);
    }
  }

  /**
   * A tick keeps the list lengths, each farm's id and land and each household's members, and
   * so the livestock estimate is the one of the farms it started with.
   */
  lemma TickFrame(w: WorldV, pids: seq<string>, year: int, draws: seq<DayDraws>)
    requires |draws| == |w.persons|
    ensures var w' := TickSpec(w, pids, year, draws);
      && |w'.farms| == |w.farms| && |w'.persons| == |w.persons| && |w'.households| == |w.households|
      && (forall k :: 0 <= k < |w.farms| ==> w'.farms[k].id == w.farms[k].id && w'.farms[k].landArea == w.farms[k].landArea)
      && (forall k :: 0 <= k < |w.households| ==> w'.households[k].personIds == w.households[k].personIds)
      && w'.metrics.totalLivestockEst == Livestock(w.farms)
  {
    var s0 := Stage(Map(Reset, w.farms), w.persons, w.metrics);
    var s := PolicyPhase(w, pids, year);
    RunPoliciesProperties(pids, s0, year);
    forall k | 0 <= k < |w.farms|
      ensures s.farms[k].id == w.farms[k].id && s.farms[k].landArea == w.farms[k].landArea
    {
      assert s0.farms[k] == Reset(w.farms[k]);
    }
    TickFromFrame(w.households, s, draws);
    LivestockKept(w.farms, s.farms);
    assert TickSpec(w, pids, year, draws) == TickFrom(w.households, s, draws);
  }

  /** The production phases keep the farms' ids and land, the households' members and the herd. */
  lemma TickFromFrame(hs: seq<HouseholdV>, s: Stage, draws: seq<DayDraws>)
    requires |draws| == |s.persons|
    ensures var w' := TickFrom(hs, s, draws);
      && |w'.farms| == |s.farms| && |w'.persons| == |s.persons| && |w'.households| == |hs|
      && (forall k :: 0 <= k < |s.farms| ==> w'.farms[k].id == s.farms[k].id && w'.farms[k].landArea == s.farms[k].landArea)
      && (forall k :: 0 <= k < |hs| ==> w'.households[k].personIds == hs[k].personIds)
      && w'.metrics.totalLivestockEst == Livestock(s.farms)
  {
    HarvestFrame(s.farms, s.persons);
  }

  /**
   * A tick keeps each person's id, never clears a displaced flag, and only adds to the
   * requisition and collectivization counters.
   */
  lemma TickMonotone(w: WorldV, pids: seq<string>, year: int, draws: seq<DayDraws>)
    requires |draws| == |w.persons|
    ensures var w' := TickSpec(w, pids, year, draws);
      && (forall k :: 0 <= k < |w.persons| ==> w'.persons[k].id == w.persons[k].id && (w.persons[k].displaced ==> w'.persons[k].displaced))
      && w'.metrics.grainRequisitioned >= w.metrics.grainRequisitioned
      && w'.metrics.farmsCollectivized >= w.metrics.farmsCollectivized
  {
    var s0 := Stage(Map(Reset, w.farms), w.persons, w.metrics);
    var s := PolicyPhase(w, pids, year);
    RunPoliciesProperties(pids, s0, year);
    UpdatedFacts(Harvest(s.farms, s.persons), s.persons, draws);
    forall k | 0 <= k < |w.persons|
      ensures s.persons[k].id == w.persons[k].id && s.persons[k].displaced == w.persons[k].displaced
    {
      assert s.persons[k].(morale := w.persons[k].morale) == w.persons[k];
    }
  }

  /** After a tick every health and morale value, and the mean morale, is in [0,1]. */
  lemma TickPersonsInUnit(w: WorldV, pids: seq<string>, year: int, draws: seq<DayDraws>)
    requires |draws| == |w.persons|
    ensures HealthMoraleInUnit(TickSpec(w, pids, year, draws).persons)
    ensures 0.0 <= TickSpec(w, pids, year, draws).metrics.avgMorale <= 1.0
  {
    var s := PolicyPhase(w, pids, year);
    var fs := Harvest(s.farms, s.persons);
    UpdatedFacts(fs, s.persons, draws);
    MoraleAvgInUnit(UpdatedPersons(fs, s.persons, draws));
  }

  /** After a tick no household's food store is negative. */
  lemma TickFoodNonnegative(w: WorldV, pids: seq<string>, year: int, draws: seq<DayDraws>)
    requires |draws| == |w.persons|
    ensures FoodNonnegative(TickSpec(w, pids, year, draws).households)
  {
    forall k | 0 <= k < |w.households|
      ensures Map(Consumed, w.households)[k].storedFood >= 0.0
    {
      ConsumedProperties(w.households[k]);
    }
  }

  lemma {:induction false} LivestockKept(a: seq<FarmV>, b: seq<FarmV>)
    requires |a| == |b| && forall k :: 0 <= k < |a| ==> a[k].landArea == b[k].landArea
    ensures Livestock(a) == Livestock(b)
  {
    if |a| > 0 {
      LivestockKept(a[..|a| - 1], b[..|b| - 1]);
    }
  }

  /** A tick keeps every famine risk in [0,1] and every yield history within its cap. */
  lemma TickKeepsFarmBounds(w: WorldV, pids: seq<string>, year: int, draws: seq<DayDraws>)
    requires |draws| == |w.persons|
    requires RiskInUnit(w.farms) && HistoriesCapped(w.farms)
    ensures RiskInUnit(TickSpec(w, pids, year, draws).farms)
    ensures HistoriesCapped(TickSpec(w, pids, year, draws).farms)
  {
    var s0 := Stage(Map(Reset, w.farms), w.persons, w.metrics);
    var s := PolicyPhase(w, pids, year);
    RunPoliciesProperties(pids, s0, year);
    assert RiskInUnit(s0.farms);
    assert HistoriesCapped(s.farms);
    HarvestFrame(s.farms, s.persons);
  }

  /** The day's grain total is the sum of the yields the farms have just recorded. */
  lemma TickGrainTotal(w: WorldV, pids: seq<string>, year: int, draws: seq<DayDraws>)
    requires |draws| == |w.persons|
    ensures TickSpec(w, pids, year, draws).metrics.totalGrainToday == LatestYields(TickSpec(w, pids, year, draws).farms)
  {
    var s := PolicyPhase(w, pids, year);
    TotalIsLatestYields(s.farms, s.persons);
  }

  /**
   * When the displaced count was exact before a tick it is exact after it, although the tick
   * recounts only when an updated person is displaced.
   */
  lemma TickDisplacedCount(w: WorldV, pids: seq<string>, year: int, draws: seq<DayDraws>)
    requires |draws| == |w.persons|
    requires w.metrics.displacedCount == CountDisplaced(w.persons)
    ensures TickSpec(w, pids, year, draws).metrics.displacedCount == CountDisplaced(TickSpec(w, pids, year, draws).persons)
  {
    var s0 := Stage(Map(Reset, w.farms), w.persons, w.metrics);
    var s := PolicyPhase(w, pids, year);
    RunPoliciesProperties(pids, s0, year);
    forall k | 0 <= k < |w.persons|
      ensures w.persons[k].displaced == s.persons[k].displaced
    {
      assert s.persons[k].(morale := w.persons[k].morale) == w.persons[k];
    }
    CountSameFlags(w.persons, s.persons);
    PersonPhaseCount(Harvest(s.farms, s.persons), s.persons, draws, s.metrics.displacedCount);
  }

  // ---------------------------------------------------------------- the phases in place

  /** The reset loop; the persons and households are passed only to say they are left alone. */
  method ResetFarms(farms: seq<Farm>, ghost persons: seq<Person>, ghost households: seq<Household>)
    requires Distinct(farms)
    modifies farms
    ensures Farms.Values(farms) == Map(Reset, old(Farms.Values(farms)))
    ensures unchanged(persons) && unchanged(households)
  {
    ghost var fs0 := Farms.Values(farms);
    var i := 0;
    while i < |farms|
      invariant 0 <= i <= |farms|
      invariant forall k :: 0 <= k < i ==> farms[k].Value() == Reset(fs0[k])
      invariant forall k :: i <= k < |farms| ==> farms[k].Value() == fs0[k]
    {
      farms[i].DailyReset();
      i := i + 1;
    }
  }

  /** One policy id of the era: looked up, and applied when it names a registered policy. */
  method ApplyPolicyId(pid: string, farms: seq<Farm>, persons: seq<Person>, m: Metrics, year: int)
    returns (m': Metrics)
    requires Distinct(farms) && Distinct(persons)
    modifies farms, persons
    ensures Stage(Farms.Values(farms), Persons.Values(persons), m')
            == PidStep(pid, Stage(old(Farms.Values(farms)), old(Persons.Values(persons)), m), year)
  {
    m' := m;
    var policy := Lookup(pid);
    if policy.Some? {
      var taken, converted := ApplyDaily(policy.value, farms, persons, year);
      m' := m.(grainRequisitioned := m.grainRequisitioned + taken,
               farmsCollectivized := m.farmsCollectivized + converted);
    }
  }

  method ApplyPolicies(pids: seq<string>, farms: seq<Farm>, persons: seq<Person>, m: Metrics, year: int,
                       ghost households: seq<Household>)
    returns (m': Metrics)
    requires Distinct(farms) && Distinct(persons)
    modifies farms, persons
    ensures unchanged(households)
    ensures Stage(Farms.Values(farms), Persons.Values(persons), m')
            == RunPolicies(pids, Stage(old(Farms.Values(farms)), old(Persons.Values(persons)), m), year)
  {
    ghost var s0 := Stage(Farms.Values(farms), Persons.Values(persons), m);
    m' := m;
    var i := 0;
    while i < |pids|
      invariant 0 <= i <= |pids|
      invariant Stage(Farms.Values(farms), Persons.Values(persons), m') == RunPolicies(pids[..i], s0, year)
    {
      assert pids[..i + 1][..i] == pids[..i];
      assert RunPolicies(pids[..i + 1], s0, year) == PidStep(pids[i], RunPolicies(pids[..i], s0, year), year);
      m' := ApplyPolicyId(pids[i], farms, persons, m', year);
      i := i + 1;
    }
    assert pids[..|pids|] == pids;
  }

  /**
   * One turn of the yield loop: farm i's occupants, their labour and morale, its yield, and
   * the running total with that yield added.
   */
  method HarvestOne(farms: seq<Farm>, ghost fs0: seq<FarmV>, ps: seq<PersonV>, i: nat, total: real)
    returns (total': real)
    requires Distinct(farms) && |farms| == |fs0| && i < |farms|
    requires forall k :: 0 <= k < i ==> farms[k].Value() == Harvested(fs0[k], ps)
    requires forall k :: i <= k < |farms| ==> farms[k].Value() == fs0[k]
    requires total == TotalYield(fs0[..i], ps)
    modifies farms[i]
    ensures forall k :: 0 <= k < i + 1 ==> farms[k].Value() == Harvested(fs0[k], ps)
    ensures forall k :: i + 1 <= k < |farms| ==> farms[k].Value() == fs0[k]
    ensures total' == TotalYield(fs0[..i + 1], ps)
  {
    var farm := farms[i];
    var farmPersons := Occupants(ps, farm.id);
    var laborSum := LaborSum(farmPersons);
    var moraleAvg := MoraleAvg(farmPersons);
    var y := farm.ComputeDailyYield(laborSum, moraleAvg);
    TotalYieldStep(fs0, ps, i);
    total' := total + y;
  }

  lemma HarvestIs(now: seq<FarmV>, fs: seq<FarmV>, ps: seq<PersonV>)
    requires |now| == |fs| && forall k :: 0 <= k < |fs| ==> now[k] == Harvested(fs[k], ps)
    ensures now == Harvest(fs, ps)
  {
  }

  /** The yield loop, given the persons' values (the loop does not change them). */
  method HarvestFarms(farms: seq<Farm>, ps: seq<PersonV>, ghost persons: seq<Person>, ghost households: seq<Household>)
    returns (totalYield: real)
    requires Distinct(farms)
    modifies farms
    ensures unchanged(persons) && unchanged(households)
    ensures Farms.Values(farms) == Harvest(old(Farms.Values(farms)), ps)
    ensures totalYield == TotalYield(old(Farms.Values(farms)), ps)
  {
    ghost var fs0 := Farms.Values(farms);
    totalYield := 0.0;
    var i := 0;
    while i < |farms|
      invariant 0 <= i <= |farms|
      invariant forall k :: 0 <= k < i ==> farms[k].Value() == Harvested(fs0[k], ps)
      invariant forall k :: i <= k < |farms| ==> farms[k].Value() == fs0[k]
      invariant totalYield == TotalYield(fs0[..i], ps)
    {
      totalYield := HarvestOne(farms, fs0, ps, i, totalYield);
      i := i + 1;
    }
    assert fs0[..|farms|] == fs0;
    HarvestIs(Farms.Values(farms), fs0, ps);
  }

  method ConsumeAll(households: seq<Household>, ghost farms: seq<Farm>, ghost persons: seq<Person>)
    requires Distinct(households)
    modifies households
    ensures unchanged(farms) && unchanged(persons)
    ensures Households.Values(households) == Map(Consumed, old(Households.Values(households)))
  {
    ghost var hs0 := Households.Values(households);
    var i := 0;
    while i < |households|
      invariant 0 <= i <= |households|
      invariant forall k :: 0 <= k < i ==> households[k].Value() == Consumed(hs0[k])
      invariant forall k :: i <= k < |households| ==> households[k].Value() == hs0[k]
    {
      households[i].DailyUpdate();
      i := i + 1;
    }
  }

  /**
   * One turn of the person loop: person i updated with its farm's risk, and the displaced
   * count recounted over the whole list if that person is now displaced.
   */
  method UpdateOne(persons: seq<Person>, fs: seq<FarmV>, draws: seq<DayDraws>, i: nat,
                   ghost ps0: seq<PersonV>, ghost news: seq<PersonV>, prev: nat, count: nat)
    returns (count': nat)
    requires Distinct(persons) && |draws| == |persons| == |ps0| && i < |persons|
    requires UpdatesOf(fs, ps0, draws, news)
    requires forall k :: 0 <= k < i ==> persons[k].Value() == news[k]
    requires forall k :: i <= k < |persons| ==> persons[k].Value() == ps0[k]
    requires count == Recount(ps0, news, i, prev)
    modifies persons[i]
    ensures forall k :: 0 <= k <= i ==> persons[k].Value() == news[k]
    ensures forall k :: i < k < |persons| ==> persons[k].Value() == ps0[k]
    ensures count' == Recount(ps0, news, i + 1, prev)
  {
    var p := persons[i];
    var risk := RiskFor(fs, p.farmId);
    p.DailyUpdate(risk, draws[i]);
    count' := count;
    if p.displaced {
      ghost var now := Persons.Values(persons);
      assert now == news[..i + 1] + ps0[i + 1..] by {
        forall k | 0 <= k < |now|
          ensures now[k] == (news[..i + 1] + ps0[i + 1..])[k]
        {
        }
      }
      count' := CountDisplaced(Persons.Values(persons));
    }
  }

  lemma PersonsAre(now: seq<PersonV>, news: seq<PersonV>)
    requires |now| == |news| && forall k :: 0 <= k < |news| ==> now[k] == news[k]
    ensures now == news
  {
  }

  /**
   * news holds each person of ps after its daily update; the quantifier is left to fire only
   * where an update of that person is in view.
   */
  predicate UpdatesOf(fs: seq<FarmV>, ps: seq<PersonV>, draws: seq<DayDraws>, news: seq<PersonV>) {
    && |ps| == |draws| == |news|
    && forall k {:trigger AfterDailyUpdate(ps[k], RiskFor(fs, ps[k].farmId), draws[k])} :: 0 <= k < |ps| ==>
         news[k] == AfterDailyUpdate(ps[k], RiskFor(fs, ps[k].farmId), draws[k])
  }

  /** The person loop, given the farms' values; `prev` is the displaced count it starts from. */
  method UpdatePersons(persons: seq<Person>, fs: seq<FarmV>, draws: seq<DayDraws>, prev: nat,
                       ghost farms: seq<Farm>, ghost households: seq<Household>)
    returns (count: nat)
    requires Distinct(persons) && |draws| == |persons|
    modifies persons
    ensures unchanged(farms) && unchanged(households)
    ensures Persons.Values(persons) == UpdatedPersons(fs, old(Persons.Values(persons)), draws)
    ensures count == Recount(old(Persons.Values(persons)), Persons.Values(persons), |persons|, prev)
  {
    ghost var ps0 := Persons.Values(persons);
    ghost var news := UpdatedPersons(fs, ps0, draws);
    count := UpdateEach(persons, fs, draws, prev, ps0, news);
  }

  /** The loop itself: each person updated in list order, with the count recounted on displacement. */
  method UpdateEach(persons: seq<Person>, fs: seq<FarmV>, draws: seq<DayDraws>, prev: nat,
                    ghost ps0: seq<PersonV>, ghost news: seq<PersonV>)
    returns (count: nat)
    requires Distinct(persons) && ps0 == Persons.Values(persons) && UpdatesOf(fs, ps0, draws, news)
    modifies persons
    ensures Persons.Values(persons) == news
    ensures count == Recount(ps0, news, |persons|, prev)
  {
    count := prev;
    var i := 0;
    while i < |persons|
      invariant 0 <= i <= |persons|
      invariant forall k :: 0 <= k < i ==> persons[k].Value() == news[k]
      invariant forall k :: i <= k < |persons| ==> persons[k].Value() == ps0[k]
      invariant count == Recount(ps0, news, i, prev)
    {
      count := UpdateOne(persons, fs, draws, i, ps0, news, prev, count);
      i := i + 1;
    }
    PersonsAre(Persons.Values(persons), news);
  }

  /** The first part of a tick: every farm's daily reset, then the era's policies in order. */
  method PolicyStage(farms: seq<Farm>, persons: seq<Person>, m: Metrics, pids: seq<string>, year: int,
                     ghost households: seq<Household>)
    returns (m': Metrics)
    requires Distinct(farms) && Distinct(persons)
    modifies farms, persons
    ensures Stage(Farms.Values(farms), Persons.Values(persons), m')
            == PolicyPhase(old(WorldV(Farms.Values(farms), Persons.Values(persons), Households.Values(households), m)),
                           pids, year)
    ensures Households.Values(households) == old(Households.Values(households))
  {
    label L0:
    ResetFarms(farms, persons, households);
    Persons.ValuesKept@L0(persons);
    m' := ApplyPolicies(pids, farms, persons, m, year, households);
    Households.ValuesKept@L0(households);
  }

  /**
   * The rest of a tick: the harvest, the households' consumption, the person updates, and the
   * metrics they feed.
   */
  method ProductionStage(farms: seq<Farm>, persons: seq<Person>, households: seq<Household>, m: Metrics,
                         draws: seq<DayDraws>)
    returns (m': Metrics)
    requires Distinct(farms) && Distinct(persons) && Distinct(households) && |draws| == |persons|
    modifies farms, persons, households
    ensures WorldV(Farms.Values(farms), Persons.Values(persons), Households.Values(households), m')
            == TickFrom(old(Households.Values(households)),
                        old(Stage(Farms.Values(farms), Persons.Values(persons), m)), draws)
  {
    label L2:
    var totalYield := HarvestFarms(farms, Persons.Values(persons), persons, households);
    Persons.ValuesKept@L2(persons);
    Households.ValuesKept@L2(households);
    label L3:
    ConsumeAll(households, farms, persons);
    Farms.ValuesKept@L3(farms);
    Persons.ValuesKept@L3(persons);
    label L4:
    var count := UpdatePersons(persons, Farms.Values(farms), draws, m.displacedCount, farms, households);
    Farms.ValuesKept@L4(farms);
    Households.ValuesKept@L4(households);
    m' := m.(displacedCount := count,
             totalGrainToday := totalYield,
             avgMorale := MoraleAvg(Persons.Values(persons)),
             totalLivestockEst := Livestock(Farms.Values(farms)));
  }

  /** The tick's phases in order, on the entity lists in place; the new metrics are returned. */
  method Tick(farms: seq<Farm>, persons: seq<Person>, households: seq<Household>, m: Metrics,
              pids: seq<string>, year: int, draws: seq<DayDraws>)
    returns (m': Metrics)
    requires Distinct(farms) && Distinct(persons) && Distinct(households) && |draws| == |persons|
    modifies farms, persons, households
    ensures WorldV(Farms.Values(farms), Persons.Values(persons), Households.Values(households), m')
            == TickSpec(old(WorldV(Farms.Values(farms), Persons.Values(persons), Households.Values(households), m)),
                        pids, year, draws)
  {
    m' := PolicyStage(farms, persons, m, pids, year, households);
    m' := ProductionStage(farms, persons, households, m', draws);
  }

  /** The simulation object is none of its entities. */
  lemma SimulationApart(sim: Simulation, farms: seq<Farm>, persons: seq<Person>, households: seq<Household>)
    ensures Outside(sim, farms) && Outside(sim, persons) && Outside(sim, households)
  {
  }

  class Simulation {
    var persons: seq<Person>
    var households: seq<Household>
    var farms: seq<Farm>
    var metrics: Metrics
    var time: Timekeeping.TimeController?

    /** No entity appears twice in its list. */
    predicate Valid()
      reads this
    {
      Distinct(persons) && Distinct(households) && Distinct(farms)
    }

    function Value(): WorldV
      reads this, farms, persons, households
    {
      WorldV(Farms.Values(farms), Persons.Values(persons), Households.Values(households), metrics)
    }

    /** Empty lists, zero metrics; `time` is declared but not set. */
    constructor ()
      ensures Valid()
      ensures persons == [] && households == [] && farms == [] && metrics == INITIAL_METRICS && time == null
    {
      persons, households, farms := [], [], [];
      metrics := INITIAL_METRICS;
      time := null;
    }

    /** `init(data)`: the three lists replaced, `time` set only when one is given. */
    method Init(persons: seq<Person>, households: seq<Household>, farms: seq<Farm>,
                time: Timekeeping.TimeController?)
      modifies this
      ensures this.persons == persons && this.households == households && this.farms == farms
      ensures this.metrics == old(this.metrics)
      ensures this.time == if time != null then time else old(this.time)
    {
      this.persons := persons;
      this.households := households;
      this.farms := farms;
      if time != null {
        this.time := time;
      }
    }

    /**
     * `dailyTick(era)`, with the calendar year the collectivization policy tests and the
     * random draws of the person updates passed in.
     */
    method DailyTick(era: Eras.Era, year: int, draws: seq<DayDraws>)
      requires Valid() && |draws| == |persons|
      modifies this`metrics, farms, persons, households
      ensures Value() == TickSpec(old(Value()), era.policies, year, draws)
    {
      SimulationApart(this, farms, persons, households);
      var m := Tick(farms, persons, households, metrics, era.policies, year, draws);
      SetMetrics(m);
    }

    /** The end of a tick: the metrics replaced, every entity left as it is. */
    method SetMetrics(m: Metrics)
      modifies this`metrics
      ensures Value() == old(Value()).(metrics := m)
    {
      SimulationApart(this, farms, persons, households);
      label L0:
      metrics := m;
      Farms.ValuesKept@L0(farms);
      Persons.ValuesKept@L0(persons);
      Households.ValuesKept@L0(households);
    }

    /**
     * As written, `collectivize` reads `sim.time.currentDate.getFullYear()`; this is that read,
     * which fails when `time` was never set.
     */
    method CollectivizeYearAsWritten() returns (thrown: bool, year: int)
      ensures thrown <==> time == null
      ensures time != null ==> year == time.CurrentYear()
    {
      if time == null {
        thrown, year := true, 0;
      } else {
        thrown, year := false, time.CurrentYear();
      }
    }
  }
}
