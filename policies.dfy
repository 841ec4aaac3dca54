/**
 * The policy registry: seven named daily effects that update farms and persons in place. Each
 * effect is specified by a function on the values of the farm and person lists; the two metric
 * counters a policy touches are returned as increments (grain taken, farms converted).
 */
module Policies {
  import opened Common
  import opened Farms
  import opened Persons
  import Eras

  datatype Policy = BaselineAgrarian | Disruption | EarlyRequisition | NepIncentives
                  | Collectivize | QuotaPressure | MechanizationPush

  /** The registry key of each policy. */
  function Key(p: Policy): string {
    match p
    case BaselineAgrarian => "baselineAgrarian"
    case Disruption => "disruption"
    case EarlyRequisition => "earlyRequisition"
    case NepIncentives => "nepIncentives"
    case Collectivize => "collectivize"
    case QuotaPressure => "quotaPressure"
    case MechanizationPush => "mechanizationPush"
  }

  const REGISTRY_KEYS: set<string> := {"baselineAgrarian", "disruption", "earlyRequisition",
    "nepIncentives", "collectivize", "quotaPressure", "mechanizationPush"}

  /** `Policies[pid]`: the policy registered under an id, or nothing for an unknown id. */
  function Lookup(pid: string): (r: Option<Policy>)
    ensures r.Some? <==> pid in REGISTRY_KEYS
    ensures r.Some? ==> Key(r.value) == pid
  {
    if pid == "baselineAgrarian" then Some(BaselineAgrarian)
    else if pid == "disruption" then Some(Disruption)
    else if pid == "earlyRequisition" then Some(EarlyRequisition)
    else if pid == "nepIncentives" then Some(NepIncentives)
    else if pid == "collectivize" then Some(Collectivize)
    else if pid == "quotaPressure" then Some(QuotaPressure)
    else if pid == "mechanizationPush" then Some(MechanizationPush)
    else None
  }

  /** Every policy id that an era names is a key of the registry. */
  lemma EraPoliciesRegistered()
    ensures forall i, j :: 0 <= i < |Eras.ERAS| && 0 <= j < |Eras.ERAS[i].policies| ==>
              Lookup(Eras.ERAS[i].policies[j]).Some?
  {
    forall i, j | 0 <= i < |Eras.ERAS| && 0 <= j < |Eras.ERAS[i].policies|
      ensures Eras.ERAS[i].policies[j] in REGISTRY_KEYS
    {
      assert Eras.ERAS[0].policies == ["baselineAgrarian"];
      assert Eras.ERAS[1].policies == ["disruption", "earlyRequisition"];
      assert Eras.ERAS[2].policies == ["nepIncentives"];
      assert Eras.ERAS[3].policies == ["collectivize", "quotaPressure"];
      assert Eras.ERAS[4].policies == ["mechanizationPush"];
    }
  }

  // ---------------------------------------------------------------- per-entity effects

  function BaselineFarm(f: FarmV): FarmV {
    if f.ownership == Private then f.(productivityBase := f.productivityBase * (1.0 + 0.00005)) else f
  }

  function DisruptFarm(f: FarmV): FarmV {
    f.(dailyYieldModifier := f.dailyYieldModifier * 0.90, riskFamine := Min(1.0, f.riskFamine + 0.0002))
  }

  /** The share requisitioned from a farm that has grain. */
  function Taken(f: FarmV): real { if f.storedGrain > 0.0 then f.storedGrain * 0.02 else 0.0 }

  function RequisitionFarm(f: FarmV): FarmV {
    if f.storedGrain > 0.0 then f.(storedGrain := f.storedGrain - f.storedGrain * 0.02) else f
  }

  function NepFarm(f: FarmV): FarmV {
    f.(dailyYieldModifier := f.dailyYieldModifier * 1.08, riskFamine := f.riskFamine * 0.95)
  }

  function QuotaFarm(f: FarmV): FarmV {
    if f.ownership == Collective
    then f.(dailyYieldModifier := f.dailyYieldModifier * 1.05, riskFamine := Min(0.5, f.riskFamine + 0.0005))
    else f
  }

  function MechanizeFarm(f: FarmV): FarmV {
    if f.ownership == Collective
    then f.(mechanization := f.mechanization + 0.0003,
            productivityBase := f.productivityBase * (1.0 + 0.0001),
            riskFamine := f.riskFamine * 0.995)
    else f
  }

  function AddMorale(p: PersonV, delta: real): PersonV { p.(morale := p.morale + delta) }

  function AddMoraleAll(ps: seq<PersonV>, delta: real): seq<PersonV> {
    Map((p: PersonV) => AddMorale(p, delta), ps)
  }

  // ---------------------------------------------------------------- requisition totals

  function TakenTotal(fs: seq<FarmV>): real {
    if |fs| == 0 then 0.0 else TakenTotal(fs[..|fs| - 1]) + Taken(fs[|fs| - 1])
  }

  function TotalStoredGrain(fs: seq<FarmV>): real {
    if |fs| == 0 then 0.0 else TotalStoredGrain(fs[..|fs| - 1]) + fs[|fs| - 1].storedGrain
  }

  /** Requisition moves grain from the farms to the requisition counter and loses none. */
  lemma {:induction false} RequisitionConservesGrain(fs: seq<FarmV>)
    ensures TotalStoredGrain(Map(RequisitionFarm, fs)) + TakenTotal(fs) == TotalStoredGrain(fs)
  {
    if |fs| > 0 {
      var n := |fs|;
      assert Map(RequisitionFarm, fs)[..n - 1] == Map(RequisitionFarm, fs[..n - 1]);
      RequisitionConservesGrain(fs[..n - 1]);
    }
  }

  lemma {:induction false} TakenNonnegative(fs: seq<FarmV>)
    ensures TakenTotal(fs) >= 0.0
  {
    if |fs| > 0 {
      TakenNonnegative(fs[..|fs| - 1]);
    }
  }

  // ---------------------------------------------------------------- collectivization

  /** The positions of the private farms, in list order (the source's `filter`). */
  function PrivateIndices(fs: seq<FarmV>): (r: seq<nat>)
    ensures |r| <= |fs|
    ensures forall m :: 0 <= m < |r| ==> r[m] < |fs| && fs[r[m]].ownership == Private
    ensures forall m, m' :: 0 <= m < m' < |r| ==> r[m] < r[m']
  {
    if |fs| == 0 then []
    else PrivateIndices(fs[..|fs| - 1]) + (if fs[|fs| - 1].ownership == Private then [|fs| - 1] else [])
  }

  /** How many private farms come before position j. */
  function Rank(fs: seq<FarmV>, j: nat): nat
    requires j <= |fs|
  {
    |PrivateIndices(fs[..j])|
  }

  lemma {:induction false} PrivatePrefix(fs: seq<FarmV>, a: nat)
    requires a <= |fs|
    ensures |PrivateIndices(fs[..a])| <= |PrivateIndices(fs)|
    ensures PrivateIndices(fs[..a]) == PrivateIndices(fs)[..|PrivateIndices(fs[..a])|]
  {
    if a < |fs| {
      var n := |fs|;
      assert fs[..n - 1][..a] == fs[..a];
      PrivatePrefix(fs[..n - 1], a);
    } else {
      assert fs[..a] == fs;
    }
  }

  /** A private farm at position j is the Rank(fs, j)-th private farm. */
  lemma RankOfPrivate(fs: seq<FarmV>, j: nat)
    requires j < |fs| && fs[j].ownership == Private
    ensures Rank(fs, j) < |PrivateIndices(fs)| && PrivateIndices(fs)[Rank(fs, j)] == j
  {
    assert fs[..j + 1][..j] == fs[..j];
    assert PrivateIndices(fs[..j + 1]) == PrivateIndices(fs[..j]) + [j];
    PrivatePrefix(fs, j + 1);
  }

  /** The m-th private farm has exactly m private farms before it. */
  lemma RankOfIndex(fs: seq<FarmV>, m: nat)
    requires m < |PrivateIndices(fs)|
    ensures Rank(fs, PrivateIndices(fs)[m]) == m
  {
    RankOfPrivate(fs, PrivateIndices(fs)[m]);
  }

  /** `Math.ceil(remaining.length * 0.01)`. */
  function ConvertCount(n: nat): nat {
    var c := Ceil(n as real * 0.01);
    if c >= 0 then c else 0
  }

  /** The number of farms to convert is ⌈n/100⌉, never more than n. */
  lemma ConvertCountValue(n: nat)
    ensures ConvertCount(n) == (n + 99) / 100
    ensures ConvertCount(n) <= n
  {
    var q, r := n / 100, n % 100;
    assert n == 100 * q + r;
    var x := n as real * 0.01;
    assert x == q as real + r as real / 100.0;
    assert x.Floor == q;
    if r == 0 {
      assert x == q as real;
    } else {
      assert x.Floor as real != x;
    }
  }

  /** `reduce(+ laborSkill) / Math.max(1, persons.length)` over the farm's non-displaced persons. */
  function AvgSkill(ps: seq<PersonV>, farmId: nat): real {
    var occ := Occupants(ps, farmId);
    SkillSum(occ) / Max(1.0, |occ| as real)
  }

  /** Convert the private farms of rank below k, each boosted by its own occupants' mean skill. */
  function ConvertFirst(fs: seq<FarmV>, ps: seq<PersonV>, k: nat): (r: seq<FarmV>)
    ensures |r| == |fs|
  {
    seq(|fs|, j requires 0 <= j < |fs| =>
      if fs[j].ownership == Private && Rank(fs, j) < k then Converted(fs[j], AvgSkill(ps, fs[j].id)) else fs[j])
  }

  /** The number of farms converted on a day of year `year`: none before 1929. */
  function CollectivizeCount(fs: seq<FarmV>, year: int): nat {
    var n := |PrivateIndices(fs)|;
    var c := ConvertCount(n);
    if year >= 1929 then (if c <= n then c else n) else 0
  }

  function CountPrivate(fs: seq<FarmV>): nat { |PrivateIndices(fs)| }

  lemma {:induction false} ConvertFirstPrefix(fs: seq<FarmV>, ps: seq<PersonV>, k: nat, a: nat)
    requires a <= |fs|
    ensures ConvertFirst(fs, ps, k)[..a] == ConvertFirst(fs[..a], ps, k)
  {
    forall j | 0 <= j < a
      ensures ConvertFirst(fs, ps, k)[j] == ConvertFirst(fs[..a], ps, k)[j]
    {
      assert fs[..a][..j] == fs[..j];
    }
  }

  /** Conversion turns exactly min(k, n) of the n private farms collective. */
  lemma {:induction false} ConvertFirstCount(fs: seq<FarmV>, ps: seq<PersonV>, k: nat)
    ensures CountPrivate(ConvertFirst(fs, ps, k))
            == CountPrivate(fs) - (if k <= CountPrivate(fs) then k else CountPrivate(fs))
  {
    if |fs| > 0 {
      var n := |fs|;
      var cf := ConvertFirst(fs, ps, k);
      ConvertFirstPrefix(fs, ps, k, n - 1);
      ConvertFirstCount(fs[..n - 1], ps, k);
      assert cf[..n - 1] == ConvertFirst(fs[..n - 1], ps, k);
      assert PrivateIndices(cf) == PrivateIndices(cf[..n - 1]) + (if cf[n - 1].ownership == Private then [n - 1] else []);
    }
  }

  lemma ConvertNone(fs: seq<FarmV>, ps: seq<PersonV>)
    ensures ConvertFirst(fs, ps, 0) == fs
  {
  }

  /** Raising the bound from i to i + 1 converts exactly the i-th private farm. */
  lemma ConvertStep(fs: seq<FarmV>, ps: seq<PersonV>, i: nat)
    requires i < |PrivateIndices(fs)|
    ensures ConvertFirst(fs, ps, i)[PrivateIndices(fs)[i]] == fs[PrivateIndices(fs)[i]]
    ensures var j0 := PrivateIndices(fs)[i];
      forall j :: 0 <= j < |fs| ==>
        (ConvertFirst(fs, ps, i + 1)[j]
         == if j == j0 then Converted(fs[j], AvgSkill(ps, fs[j].id)) else ConvertFirst(fs, ps, i)[j])
  {
    RankOfIndex(fs, i);
    forall j | 0 <= j < |fs| && fs[j].ownership == Private
      ensures Rank(fs, j) == i ==> j == PrivateIndices(fs)[i]
    {
      RankOfPrivate(fs, j);
    }
  }

  // ---------------------------------------------------------------- the whole registry

  /** What one policy does to the farm and person lists, and the two counter increments. */
  datatype Effect = Effect(farms: seq<FarmV>, persons: seq<PersonV>, grainTaken: real, farmsConverted: nat)

  function ApplySpec(p: Policy, fs: seq<FarmV>, ps: seq<PersonV>, year: int): Effect {
    match p
    case BaselineAgrarian => Effect(Map(BaselineFarm, fs), ps, 0.0, 0)
    case Disruption => Effect(Map(DisruptFarm, fs), AddMoraleAll(ps, -0.001), 0.0, 0)
    case EarlyRequisition => Effect(Map(RequisitionFarm, fs), ps, TakenTotal(fs), 0)
    case NepIncentives => Effect(Map(NepFarm, fs), AddMoraleAll(ps, 0.002), 0.0, 0)
    case Collectivize =>
      var k := CollectivizeCount(fs, year);
      Effect(ConvertFirst(fs, ps, k), AddMoraleAll(ps, -0.0015), 0.0, k)
    case QuotaPressure => Effect(Map(QuotaFarm, fs), ps, 0.0, 0)
    case MechanizationPush => Effect(Map(MechanizeFarm, fs), ps, 0.0, 0)
  }

  predicate RiskInUnit(fs: seq<FarmV>) {
    forall k :: 0 <= k < |fs| ==> 0.0 <= fs[k].riskFamine <= 1.0
  }

  /** Every policy keeps each farm's famine risk in [0,1]. */
  lemma PolicyKeepsRiskInUnit(p: Policy, fs: seq<FarmV>, ps: seq<PersonV>, year: int)
    requires RiskInUnit(fs)
    ensures RiskInUnit(ApplySpec(p, fs, ps, year).farms)
  {
  }

  /**
   * What a policy never touches: the number and order of farms and persons, a farm's id,
   * position, land and yield history, and every field of a person except morale; displaced
   * flags in particular are left alone.
   */
  lemma PolicyFrame(p: Policy, fs: seq<FarmV>, ps: seq<PersonV>, year: int)
    ensures var e := ApplySpec(p, fs, ps, year);
      && |e.farms| == |fs| && |e.persons| == |ps|
      && (forall k :: 0 <= k < |fs| ==>
            e.farms[k].id == fs[k].id && e.farms[k].x == fs[k].x && e.farms[k].y == fs[k].y
            && e.farms[k].landArea == fs[k].landArea && e.farms[k].yieldHistory == fs[k].yieldHistory)
      && (forall k :: 0 <= k < |ps| ==> e.persons[k].(morale := ps[k].morale) == ps[k])
      && e.grainTaken >= 0.0
  {
    if p == EarlyRequisition {
      TakenNonnegative(fs);
    }
  }

  /** Baseline growth touches private farms only. */
  lemma BaselineLeavesCollectiveAlone(f: FarmV)
    ensures f.ownership == Collective ==> BaselineFarm(f) == f
    ensures f.ownership == Private ==> BaselineFarm(f) == f.(productivityBase := 1.00005 * f.productivityBase)
  {
  }

  /** Quota pressure caps a collective farm's risk at 0.5, lowering any higher risk to 0.5. */
  lemma QuotaCapsRisk(f: FarmV)
    requires f.ownership == Collective
    ensures QuotaFarm(f).riskFamine <= 0.5
    ensures f.riskFamine >= 0.5 ==> QuotaFarm(f).riskFamine == 0.5
    ensures f.riskFamine <= 0.4995 ==> QuotaFarm(f).riskFamine == f.riskFamine + 0.0005
    ensures QuotaFarm(f).dailyYieldModifier == 1.05 * f.dailyYieldModifier
  {
  }

  /**
   * Collectivization converts the first ⌈n/100⌉ of the n private farms (from 1929 on), counts
   * exactly those conversions, and lowers everyone's morale whatever the year.
   */
  lemma CollectivizeOutcome(fs: seq<FarmV>, ps: seq<PersonV>, year: int)
    ensures var e := ApplySpec(Collectivize, fs, ps, year);
      && e.farmsConverted == (if year >= 1929 then (CountPrivate(fs) + 99) / 100 else 0)
      && CountPrivate(e.farms) == CountPrivate(fs) - e.farmsConverted
      && (year < 1929 ==> e.farms == fs)
      && (forall k :: 0 <= k < |ps| ==> e.persons[k].morale == ps[k].morale - 0.0015)
  {
    ConvertCountValue(CountPrivate(fs));
    var e := ApplySpec(Collectivize, fs, ps, year);
    ConvertFirstCount(fs, ps, e.farmsConverted);
    if year < 1929 {
      assert e.farms == fs;
    }
  }

  // ---------------------------------------------------------------- the in-place effects

  method AddMoraleToAll(persons: seq<Person>, delta: real)
    requires Distinct(persons)
    modifies persons
    ensures Persons.Values(persons) == AddMoraleAll(old(Persons.Values(persons)), delta)
  {
    ghost var ps0 := Persons.Values(persons);
    var i := 0;
    while i < |persons|
      invariant 0 <= i <= |persons|
      invariant forall k :: 0 <= k < i ==> persons[k].Value() == AddMorale(ps0[k], delta)
      invariant forall k :: i <= k < |persons| ==> persons[k].Value() == ps0[k]
    {
      persons[i].morale := persons[i].morale + delta;
      i := i + 1;
    }
    Persons.ValuesAre(persons, AddMoraleAll(ps0, delta));
  }

  method ApplyBaselineAgrarian(farms: seq<Farm>)
    requires Distinct(farms)
    modifies farms
    ensures Farms.Values(farms) == Map(BaselineFarm, old(Farms.Values(farms)))
  {
    ghost var fs0 := Farms.Values(farms);
    var i := 0;
    while i < |farms|
      invariant 0 <= i <= |farms|
      invariant forall k :: 0 <= k < i ==> farms[k].Value() == BaselineFarm(fs0[k])
      invariant forall k :: i <= k < |farms| ==> farms[k].Value() == fs0[k]
    {
      var f := farms[i];
      if f.ownership == Private {
        f.productivityBase := f.productivityBase * (1.0 + 0.00005);
      }
      i := i + 1;
    }
    Farms.ValuesAre(farms, Map(BaselineFarm, fs0));
  }

  method ApplyDisruption(farms: seq<Farm>, persons: seq<Person>)
    requires Distinct(farms) && Distinct(persons)
    modifies farms, persons
    ensures Farms.Values(farms) == Map(DisruptFarm, old(Farms.Values(farms)))
    ensures Persons.Values(persons) == AddMoraleAll(old(Persons.Values(persons)), -0.001)
  {
    ghost var fs0 := Farms.Values(farms);
    label L0:
    var i := 0;
    while i < |farms|
      invariant 0 <= i <= |farms|
      invariant forall k :: 0 <= k < i ==> farms[k].Value() == DisruptFarm(fs0[k])
      invariant forall k :: i <= k < |farms| ==> farms[k].Value() == fs0[k]
      invariant unchanged(persons)
    {
      var f := farms[i];
      f.dailyYieldModifier := f.dailyYieldModifier * 0.90;
      f.riskFamine := Min(1.0, f.riskFamine + 0.0002);
      i := i + 1;
    }
    Farms.ValuesAre(farms, Map(DisruptFarm, fs0));
    Persons.ValuesKept@L0(persons);
    label L1:
    AddMoraleToAll(persons, -0.001);
    Farms.ValuesKept@L1(farms);
  }

  /** One turn of the requisition loop: farm i gives up its share, which joins the total. */
  method RequisitionAt(farms: seq<Farm>, ghost fs0: seq<FarmV>, i: nat, taken: real) returns (taken': real)
    requires Distinct(farms) && |farms| == |fs0| && i < |farms|
    requires forall k :: 0 <= k < i ==> farms[k].Value() == RequisitionFarm(fs0[k])
    requires forall k :: i <= k < |farms| ==> farms[k].Value() == fs0[k]
    requires taken == TakenTotal(fs0[..i])
    modifies farms[i]
    ensures forall k :: 0 <= k < i + 1 ==> farms[k].Value() == RequisitionFarm(fs0[k])
    ensures forall k :: i + 1 <= k < |farms| ==> farms[k].Value() == fs0[k]
    ensures taken' == TakenTotal(fs0[..i + 1])
  {
    var f := farms[i];
    taken' := taken;
    if f.storedGrain > 0.0 {
      var t := f.storedGrain * 0.02;
      f.storedGrain := f.storedGrain - t;
      taken' := taken' + t;
    }
    assert fs0[..i + 1][..i] == fs0[..i];
  }

  method ApplyEarlyRequisition(farms: seq<Farm>) returns (taken: real)
    requires Distinct(farms)
    modifies farms
    ensures Farms.Values(farms) == Map(RequisitionFarm, old(Farms.Values(farms)))
    ensures taken == TakenTotal(old(Farms.Values(farms)))
  {
    ghost var fs0 := Farms.Values(farms);
    taken := 0.0;
    var i := 0;
    while i < |farms|
      invariant 0 <= i <= |farms|
      invariant forall k :: 0 <= k < i ==> farms[k].Value() == RequisitionFarm(fs0[k])
      invariant forall k :: i <= k < |farms| ==> farms[k].Value() == fs0[k]
      invariant taken == TakenTotal(fs0[..i])
    {
      taken := RequisitionAt(farms, fs0, i, taken);
      i := i + 1;
    }
    assert fs0[..|farms|] == fs0;
    Farms.ValuesAre(farms, Map(RequisitionFarm, fs0));
  }

  method ApplyNepIncentives(farms: seq<Farm>, persons: seq<Person>)
    requires Distinct(farms) && Distinct(persons)
    modifies farms, persons
    ensures Farms.Values(farms) == Map(NepFarm, old(Farms.Values(farms)))
    ensures Persons.Values(persons) == AddMoraleAll(old(Persons.Values(persons)), 0.002)
  {
    ghost var fs0 := Farms.Values(farms);
    label L0:
    var i := 0;
    while i < |farms|
      invariant 0 <= i <= |farms|
      invariant forall k :: 0 <= k < i ==> farms[k].Value() == NepFarm(fs0[k])
      invariant forall k :: i <= k < |farms| ==> farms[k].Value() == fs0[k]
      invariant unchanged(persons)
    {
      var f := farms[i];
      f.dailyYieldModifier := f.dailyYieldModifier * 1.08;
      f.riskFamine := f.riskFamine * 0.95;
      i := i + 1;
    }
    Farms.ValuesAre(farms, Map(NepFarm, fs0));
    Persons.ValuesKept@L0(persons);
    label L1:
    AddMoraleToAll(persons, 0.002);
    Farms.ValuesKept@L1(farms);
  }

  /** `farm.convertToCollective(avgSkill)` on one farm of the list. */
  method ConvertAt(farms: seq<Farm>, j0: nat, avgSkill: real)
    requires Distinct(farms) && j0 < |farms|
    modifies farms[j0]
    ensures forall j :: 0 <= j < |farms| ==>
      farms[j].Value() == if j == j0 then Converted(old(farms[j].Value()), avgSkill) else old(farms[j].Value())
  {
    farms[j0].ConvertToCollective(avgSkill);
  }

  /** One turn of the conversion loop: the farm of rank i is converted in place. */
  method ConvertNext(farms: seq<Farm>, ghost fs0: seq<FarmV>, ps: seq<PersonV>, i: nat, j0: nat)
    requires Distinct(farms) && |farms| == |fs0|
    requires i < |PrivateIndices(fs0)| && j0 == PrivateIndices(fs0)[i]
    requires forall j :: 0 <= j < |farms| ==> farms[j].Value() == ConvertFirst(fs0, ps, i)[j]
    modifies farms
    ensures forall j :: 0 <= j < |farms| ==> farms[j].Value() == ConvertFirst(fs0, ps, i + 1)[j]
  {
    ConvertStep(fs0, ps, i);
    var avgSkill := AvgSkill(ps, farms[j0].id);
    assert farms[j0].Value() == fs0[j0];
    ConvertAt(farms, j0, avgSkill);
  }

  /** The conversion loop: the first ⌈n/100⌉ private farms, given the persons' values. */
  method ConvertPrivateFarms(farms: seq<Farm>, ps: seq<PersonV>) returns (converted: nat)
    requires Distinct(farms)
    modifies farms
    ensures converted == CollectivizeCount(old(Farms.Values(farms)), 1929)
    ensures Farms.Values(farms) == ConvertFirst(old(Farms.Values(farms)), ps, converted)
  {
    ghost var fs0 := Farms.Values(farms);
    var remaining := PrivateIndices(Farms.Values(farms));
    var convertCount := ConvertCount(|remaining|);
    converted := 0;
    ConvertNone(fs0, ps);
    while converted < convertCount
      invariant converted <= |remaining| && converted <= convertCount
      invariant forall j :: 0 <= j < |farms| ==> farms[j].Value() == ConvertFirst(fs0, ps, converted)[j]
    {
      if converted >= |remaining| {
        break;
      }
      ConvertNext(farms, fs0, ps, converted, remaining[converted]);
      converted := converted + 1;
    }
    Farms.ValuesAre(farms, ConvertFirst(fs0, ps, converted));
  }

  /** The year is a parameter here; the source reads it from the simulation's time controller. */
  method ApplyCollectivize(farms: seq<Farm>, persons: seq<Person>, year: int) returns (converted: nat)
    requires Distinct(farms) && Distinct(persons)
    modifies farms, persons
    ensures converted == CollectivizeCount(old(Farms.Values(farms)), year)
    ensures Farms.Values(farms) == ConvertFirst(old(Farms.Values(farms)), old(Persons.Values(persons)), converted)
    ensures Persons.Values(persons) == AddMoraleAll(old(Persons.Values(persons)), -0.0015)
  {
    ghost var fs0 := Farms.Values(farms);
    var ps0 := Persons.Values(persons);
    converted := 0;
    label L0:
    if year >= 1929 {
      converted := ConvertPrivateFarms(farms, ps0);
    } else {
      ConvertNone(fs0, ps0);
    }
    Persons.ValuesKept@L0(persons);
    label L1:
    AddMoraleToAll(persons, -0.0015);
    Farms.ValuesKept@L1(farms);
  }

  method ApplyQuotaPressure(farms: seq<Farm>)
    requires Distinct(farms)
    modifies farms
    ensures Farms.Values(farms) == Map(QuotaFarm, old(Farms.Values(farms)))
  {
    ghost var fs0 := Farms.Values(farms);
    var i := 0;
    while i < |farms|
      invariant 0 <= i <= |farms|
      invariant forall k :: 0 <= k < i ==> farms[k].Value() == QuotaFarm(fs0[k])
      invariant forall k :: i <= k < |farms| ==> farms[k].Value() == fs0[k]
    {
      var f := farms[i];
      if f.ownership == Collective {
        f.dailyYieldModifier := f.dailyYieldModifier * 1.05;
        f.riskFamine := Min(0.5, f.riskFamine + 0.0005);
      }
      i := i + 1;
    }
    Farms.ValuesAre(farms, Map(QuotaFarm, fs0));
  }

  method ApplyMechanizationPush(farms: seq<Farm>)
    requires Distinct(farms)
    modifies farms
    ensures Farms.Values(farms) == Map(MechanizeFarm, old(Farms.Values(farms)))
  {
    ghost var fs0 := Farms.Values(farms);
    var i := 0;
    while i < |farms|
      invariant 0 <= i <= |farms|
      invariant forall k :: 0 <= k < i ==> farms[k].Value() == MechanizeFarm(fs0[k])
      invariant forall k :: i <= k < |farms| ==> farms[k].Value() == fs0[k]
    {
      var f := farms[i];
      if f.ownership == Collective {
        f.mechanization := f.mechanization + 0.0003;
        f.productivityBase := f.productivityBase * (1.0 + 0.0001);
        f.riskFamine := f.riskFamine * 0.995;
      }
      i := i + 1;
    }
    Farms.ValuesAre(farms, Map(MechanizeFarm, fs0));
  }

  /** The policies that touch farms only. */
  predicate FarmsOnly(p: Policy) {
    p.BaselineAgrarian? || p.EarlyRequisition? || p.QuotaPressure? || p.MechanizationPush?
  }

  method ApplyFarmPolicy(p: Policy, farms: seq<Farm>) returns (grainTaken: real)
    requires FarmsOnly(p) && Distinct(farms)
    modifies farms
    ensures var e := ApplySpec(p, old(Farms.Values(farms)), [], 0);
      Farms.Values(farms) == e.farms && grainTaken == e.grainTaken
  {
    grainTaken := 0.0;
    match p
    case BaselineAgrarian => ApplyBaselineAgrarian(farms);
    case EarlyRequisition => grainTaken := ApplyEarlyRequisition(farms);
    case QuotaPressure => ApplyQuotaPressure(farms);
    case MechanizationPush => ApplyMechanizationPush(farms);
  }

  /** `Policies[pid].applyDaily(sim)` for a known policy. */
  method ApplyDaily(p: Policy, farms: seq<Farm>, persons: seq<Person>, year: int)
    returns (grainTaken: real, farmsConverted: nat)
    requires Distinct(farms) && Distinct(persons)
    modifies farms, persons
    ensures Effect(Farms.Values(farms), Persons.Values(persons), grainTaken, farmsConverted)
            == ApplySpec(p, old(Farms.Values(farms)), old(Persons.Values(persons)), year)
  {
    grainTaken, farmsConverted := 0.0, 0;
    if FarmsOnly(p) {
      grainTaken := ApplyFarmPolicy(p, farms);
    } else if p.Disruption? {
      ApplyDisruption(farms, persons);
    } else if p.NepIncentives? {
      ApplyNepIncentives(farms, persons);
    } else {
      farmsConverted := ApplyCollectivize(farms, persons, year);
    }
  }
}
