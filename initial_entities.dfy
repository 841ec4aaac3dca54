/** The starting population: 24 private farms, 150 persons, and households of at most five. */
module InitialEntities {
  import opened Common
  import opened Farms
  import opened Persons
  import opened Households

  const FARM_COUNT: nat := 24
  const PERSON_COUNT: nat := 150
  /** A new household is opened once the last one has this many members. */
  const HOUSEHOLD_SIZE: nat := 5

  /** The constructor arguments the builder gives the farm whose draws are d. */
  function BuilderInit(d: FarmDraws): FarmInit {
    FarmInit(Some((d.x - 0.5) * 1400.0), Some((d.y - 0.5) * 1000.0), Some(60.0 + d.landArea * 150.0),
             Some(Private), None, None, None, None)
  }

  /** The i-th farm; only the productivity draw reaches the constructor's own defaults. */
  function InitialFarm(id: nat, d: FarmDraws): FarmV {
    NewFarm(id, BuilderInit(d), d)
  }

  function InitialFarms(firstFarmId: nat, fd: seq<FarmDraws>): seq<FarmV> {
    seq(|fd|, k requires 0 <= k < |fd| => InitialFarm(firstFarmId + k, fd[k]))
  }

  /** `Math.floor(r * farms.length)` with 24 farms. */
  function FarmIndex(r: real): (i: int)
    ensures IsDraw(r) ==> 0 <= i < FARM_COUNT
  {
    (r * FARM_COUNT as real).Floor
  }

  /** The k-th person: a default person, linked to the drawn farm and to household k / 5. */
  function InitialPerson(firstFarmId: nat, firstPersonId: nat, firstHouseholdId: nat, k: nat,
                         d: PersonDraws, r: real): PersonV
    requires IsDraw(r)
  {
    NewPerson(firstPersonId + k, NO_INIT, d)
      .(farmId := Some(firstFarmId + FarmIndex(r)),
        householdId := Some(firstHouseholdId + k / HOUSEHOLD_SIZE))
  }

  function InitialPersons(firstFarmId: nat, firstPersonId: nat, firstHouseholdId: nat,
                          pd: seq<PersonDraws>, fr: seq<real>): seq<PersonV>
    requires |pd| == |fr| && forall k :: 0 <= k < |fr| ==> IsDraw(fr[k])
  {
    seq(|pd|, k requires 0 <= k < |pd| =>
      InitialPerson(firstFarmId, firstPersonId, firstHouseholdId, k, pd[k], fr[k]))
  }

  /** How many members household j has once n persons have been placed. */
  function MemberCount(j: nat, n: nat): int {
    if HOUSEHOLD_SIZE * j + HOUSEHOLD_SIZE <= n then HOUSEHOLD_SIZE else n - HOUSEHOLD_SIZE * j
  }

  /** Household j once n persons have been placed: its id follows the counter, it holds the
      default 40 units of food, and its members are the next ids in order. */
  predicate HouseholdDealt(hh: HouseholdV, firstPersonId: nat, firstHouseholdId: nat, j: nat, n: nat) {
    && hh.id == firstHouseholdId + j
    && hh.storedFood == 40.0
    && |hh.personIds| == MemberCount(j, n)
    && forall t :: 0 <= t < |hh.personIds| ==> hh.personIds[t] == firstPersonId + HOUSEHOLD_SIZE * j + t
  }

  /** The households once n persons have been placed: the persons dealt out five at a time. */
  predicate Dealt(hs: seq<HouseholdV>, firstPersonId: nat, firstHouseholdId: nat, n: nat) {
    && |hs| == (n + HOUSEHOLD_SIZE - 1) / HOUSEHOLD_SIZE
    && forall j :: 0 <= j < |hs| ==> HouseholdDealt(hs[j], firstPersonId, firstHouseholdId, j, n)
  }

  lemma HouseholdCount(q: nat, r: nat)
    requires r < HOUSEHOLD_SIZE
    ensures (HOUSEHOLD_SIZE * q + r + HOUSEHOLD_SIZE - 1) / HOUSEHOLD_SIZE == if r == 0 then q else q + 1
  {
    var n := HOUSEHOLD_SIZE * q + r;
    assert n + HOUSEHOLD_SIZE - 1 == HOUSEHOLD_SIZE * (if r == 0 then q else q + 1) + (if r == 0 then 4 else r - 1);
  }

  /** Placing person n: the builder opens a new household exactly when n is a multiple of five;
      either way its id goes to the last household, whose id is the first id plus n / 5, and
      the households are dealt out for n + 1 persons. */
  lemma HouseholdStep(hs: seq<HouseholdV>, firstPersonId: nat, firstHouseholdId: nat, n: nat)
    requires Dealt(hs, firstPersonId, firstHouseholdId, n)
    ensures (|hs| == 0 || |hs[|hs| - 1].personIds| >= HOUSEHOLD_SIZE) <==> n % HOUSEHOLD_SIZE == 0
    ensures n % HOUSEHOLD_SIZE == 0 ==>
              && |hs| == n / HOUSEHOLD_SIZE
              && Dealt(hs + [HouseholdV(firstHouseholdId + |hs|, [firstPersonId + n], 40.0)],
                       firstPersonId, firstHouseholdId, n + 1)
    ensures n % HOUSEHOLD_SIZE != 0 ==>
              && |hs| == n / HOUSEHOLD_SIZE + 1
              && Dealt(hs[..|hs| - 1] + [hs[|hs| - 1].(personIds := hs[|hs| - 1].personIds + [firstPersonId + n])],
                       firstPersonId, firstHouseholdId, n + 1)
  {
    var q, r := n / HOUSEHOLD_SIZE, n % HOUSEHOLD_SIZE;
    assert n == HOUSEHOLD_SIZE * q + r;
    HouseholdCount(q, r);
    if r == 0 {
      HouseholdCount(q, 1);
      var hs' := hs + [HouseholdV(firstHouseholdId + |hs|, [firstPersonId + n], 40.0)];
      if q > 0 {
        assert HouseholdDealt(hs[q - 1], firstPersonId, firstHouseholdId, q - 1, n);
      }
      forall j | 0 <= j < |hs'|
        ensures HouseholdDealt(hs'[j], firstPersonId, firstHouseholdId, j, n + 1)
      {
        if j < q {
          assert HouseholdDealt(hs[j], firstPersonId, firstHouseholdId, j, n);
        }
      }
    } else {
      if r + 1 < HOUSEHOLD_SIZE {
        HouseholdCount(q, r + 1);
      } else {
        HouseholdCount(q + 1, 0);
      }
      var last := hs[q];
      assert HouseholdDealt(last, firstPersonId, firstHouseholdId, q, n);
      var hs' := hs[..q] + [last.(personIds := last.personIds + [firstPersonId + n])];
      forall j | 0 <= j < |hs'|
        ensures HouseholdDealt(hs'[j], firstPersonId, firstHouseholdId, j, n + 1)
      {
        if j < q {
          assert HouseholdDealt(hs[j], firstPersonId, firstHouseholdId, j, n);
        } else {
          assert hs'[j].personIds == last.personIds + [firstPersonId + n];
        }
      }
    }
  }

  /** Persons with consecutive ids are distinct objects. */
  lemma PersonsApart(persons: seq<Person>, firstPersonId: nat)
    requires forall k :: 0 <= k < |persons| ==> persons[k].id == firstPersonId + k
    ensures Distinct(persons)
  {
  }

  /** Households dealt out for some number of persons are distinct objects, their ids being consecutive. */
  lemma HouseholdsApart(households: seq<Household>, firstPersonId: nat, firstHouseholdId: nat, n: nat)
    requires Dealt(Households.Values(households), firstPersonId, firstHouseholdId, n)
    ensures Distinct(households)
  {
    var hs := Households.Values(households);
    assert forall k :: 0 <= k < |households| ==> households[k].id == hs[k].id == firstHouseholdId + k;
  }

  /** The household step of the builder: the person joins the last household, or a new one
      (taking the next household id) when there is none or the last already has five members. */
  method JoinHousehold(households: seq<Household>, personId: nat,
                       ghost firstPersonId: nat, firstHouseholdId: nat, ghost n: nat)
    returns (households': seq<Household>, householdId: nat)
    requires personId == firstPersonId + n
    requires Dealt(Households.Values(households), firstPersonId, firstHouseholdId, n)
    modifies if |households| == 0 then {} else {households[|households| - 1]}
    ensures householdId == firstHouseholdId + n / HOUSEHOLD_SIZE
    ensures Dealt(Households.Values(households'), firstPersonId, firstHouseholdId, n + 1)
    ensures forall h :: h in households' ==> h in households || fresh(h)
  {
    HouseholdsApart(households, firstPersonId, firstHouseholdId, n);
    ghost var hs := Households.Values(households);
    HouseholdStep(hs, firstPersonId, firstHouseholdId, n);
    var hh: Household;
    if |households| == 0 || |households[|households| - 1].personIds| >= HOUSEHOLD_SIZE {
      hh := new Household(firstHouseholdId + |households|, None);
      households' := households + [hh];
    } else {
      hh := households[|households| - 1];
      households' := households;
    }
    hh.AddMember(personId);
    ghost var hs' := if n % HOUSEHOLD_SIZE == 0
      then hs + [HouseholdV(firstHouseholdId + |hs|, [firstPersonId + n], 40.0)]
      else hs[..|hs| - 1] + [hs[|hs| - 1].(personIds := hs[|hs| - 1].personIds + [firstPersonId + n])];
    Households.ValuesAre(households', hs');
    householdId := hh.id;
  }

  /** A household is not a person. */
  lemma HouseholdApart(hh: Household, persons: seq<Person>)
    ensures Outside(hh, persons)
  {
  }

  /** A person is not a household. */
  lemma PersonApart(p: Person, households: seq<Household>)
    ensures Outside(p, households)
  {
  }

  /** The values of the first |vs| persons of the builder, as their draws determine them. */
  predicate PersonsPlaced(vs: seq<PersonV>, firstFarmId: nat, firstPersonId: nat, firstHouseholdId: nat,
                          pd: seq<PersonDraws>, fr: seq<real>)
  {
    && |vs| <= |pd| == |fr|
    && forall k :: 0 <= k < |vs| ==>
         IsDraw(fr[k]) && vs[k] == InitialPerson(firstFarmId, firstPersonId, firstHouseholdId, k, pd[k], fr[k])
  }

  /** Appending the value of the next person keeps the persons placed. */
  lemma PlacedAppend(vs: seq<PersonV>, v: PersonV, firstFarmId: nat, firstPersonId: nat,
                     firstHouseholdId: nat, pd: seq<PersonDraws>, fr: seq<real>)
    requires PersonsPlaced(vs, firstFarmId, firstPersonId, firstHouseholdId, pd, fr)
    requires |vs| < |pd| && IsDraw(fr[|vs|])
    requires v == InitialPerson(firstFarmId, firstPersonId, firstHouseholdId, |vs|, pd[|vs|], fr[|vs|])
    ensures PersonsPlaced(vs + [v], firstFarmId, firstPersonId, firstHouseholdId, pd, fr)
  {
  }

  /** The values of a list with one more person. */
  lemma ValuesAppend(persons: seq<Person>, p: Person)
    ensures Persons.Values(persons + [p]) == Persons.Values(persons) + [p.Value()]
  {
    assert (persons + [p])[..|persons|] == persons;
  }

  /** The first half of a pass: a new person with default fields, working on the drawn farm. */
  method NewPersonOnFarm(farms: seq<Farm>, ghost firstFarmId: nat, id: nat, d: PersonDraws, r: real)
    returns (p: Person)
    requires |farms| == FARM_COUNT && forall k :: 0 <= k < |farms| ==> farms[k].id == firstFarmId + k
    requires IsDraw(r)
    ensures fresh(p) && p.Value() == NewPerson(id, NO_INIT, d).(farmId := Some(firstFarmId + FarmIndex(r)))
  {
    p := new Person(id, NO_INIT, d);
    var farm := farms[FarmIndex(r)];
    p.LinkFarm(farm.id);
  }

  /** One pass of the person loop: a new person, linked to the drawn farm and to its household. */
  method PlacePerson(farms: seq<Farm>, households: seq<Household>, ghost firstFarmId: nat,
                     firstPersonId: nat, firstHouseholdId: nat, n: nat, d: PersonDraws, r: real)
    returns (p: Person, households': seq<Household>)
    requires |farms| == FARM_COUNT && forall k :: 0 <= k < |farms| ==> farms[k].id == firstFarmId + k
    requires IsDraw(r)
    requires Dealt(Households.Values(households), firstPersonId, firstHouseholdId, n)
    modifies if |households| == 0 then {} else {households[|households| - 1]}
    ensures fresh(p) && p.Value() == InitialPerson(firstFarmId, firstPersonId, firstHouseholdId, n, d, r)
    ensures Dealt(Households.Values(households'), firstPersonId, firstHouseholdId, n + 1)
    ensures forall h :: h in households' ==> h in households || fresh(h)
  {
    p := NewPersonOnFarm(farms, firstFarmId, firstPersonId + n, d, r);
    var householdId;
    households', householdId := JoinHousehold(households, p.id, firstPersonId, firstHouseholdId, n);
    PersonApart(p, households');
    label L1:
    p.LinkHousehold(householdId);
    Households.ValuesKept@L1(households');
  }

  /** The farm loop of the builder: one private farm per draw, with consecutive ids. */
  method CreateFarms(firstFarmId: nat, fd: seq<FarmDraws>) returns (farms: seq<Farm>)
    ensures Distinct(farms) && forall k :: 0 <= k < |farms| ==> fresh(farms[k])
    ensures |farms| == |fd| && forall k :: 0 <= k < |farms| ==> farms[k].id == firstFarmId + k
    ensures Farms.Values(farms) == InitialFarms(firstFarmId, fd)
  {
    farms := [];
    var i := 0;
    while i < |fd|
      invariant 0 <= i <= |fd| && |farms| == i && Distinct(farms)
      invariant forall k :: 0 <= k < i ==> fresh(farms[k])
      invariant forall k :: 0 <= k < i ==> farms[k].Value() == InitialFarm(firstFarmId + k, fd[k])
    {
      var f := new Farm(firstFarmId + i, BuilderInit(fd[i]), fd[i]);
      farms := farms + [f];
      i := i + 1;
    }
    Farms.ValuesAre(farms, InitialFarms(firstFarmId, fd));
  }

  /** The person loop of the builder: 150 persons, each on a drawn farm and dealt into households. */
  method CreatePersons(farms: seq<Farm>, ghost firstFarmId: nat, firstPersonId: nat, firstHouseholdId: nat,
                       pd: seq<PersonDraws>, fr: seq<real>)
    returns (persons: seq<Person>, households: seq<Household>)
    requires |farms| == FARM_COUNT && forall k :: 0 <= k < |farms| ==> farms[k].id == firstFarmId + k
    requires |pd| == |fr| == PERSON_COUNT && forall k :: 0 <= k < |fr| ==> IsDraw(fr[k])
    ensures |persons| == PERSON_COUNT
    ensures PersonsPlaced(Persons.Values(persons), firstFarmId, firstPersonId, firstHouseholdId, pd, fr)
    ensures Dealt(Households.Values(households), firstPersonId, firstHouseholdId, PERSON_COUNT)
    ensures forall h :: h in households ==> fresh(h)
    ensures forall q :: q in persons ==> fresh(q)
  {
    persons := [];
    households := [];
    var n := 0;
    while n < PERSON_COUNT
      invariant 0 <= n <= PERSON_COUNT && |persons| == n
      invariant forall h :: h in households ==> fresh(h)
      invariant forall q :: q in persons ==> fresh(q)
      invariant PersonsPlaced(Persons.Values(persons), firstFarmId, firstPersonId, firstHouseholdId, pd, fr)
      invariant Dealt(Households.Values(households), firstPersonId, firstHouseholdId, n)
    {
      if |households| > 0 {
        assert households[|households| - 1] in households;
        HouseholdApart(households[|households| - 1], persons);
      }
      label L0:
      var p;
      p, households := PlacePerson(farms, households, firstFarmId, firstPersonId, firstHouseholdId, n, pd[n], fr[n]);
      Persons.ValuesKept@L0(persons);
      ValuesAppend(persons, p);
      PlacedAppend(Persons.Values(persons), p.Value(), firstFarmId, firstPersonId, firstHouseholdId, pd, fr);
      persons := persons + [p];
      n := n + 1;
    }
  }

  /** `createInitialEntities`: the three lists of new objects and the values they hold.
      The first ids are the values the id counters hold on entry. */
  method CreateInitialEntities(firstFarmId: nat, firstPersonId: nat, firstHouseholdId: nat,
                               fd: seq<FarmDraws>, pd: seq<PersonDraws>, fr: seq<real>)
    returns (persons: seq<Person>, households: seq<Household>, farms: seq<Farm>)
    requires |fd| == FARM_COUNT && |pd| == PERSON_COUNT && |fr| == PERSON_COUNT
    requires forall k :: 0 <= k < |fr| ==> IsDraw(fr[k])
    ensures Distinct(farms) && Distinct(persons) && Distinct(households)
    ensures forall k :: 0 <= k < |farms| ==> fresh(farms[k])
    ensures forall h :: h in households ==> fresh(h)
    ensures forall q :: q in persons ==> fresh(q)
    ensures Farms.Values(farms) == InitialFarms(firstFarmId, fd)
    ensures Persons.Values(persons) == InitialPersons(firstFarmId, firstPersonId, firstHouseholdId, pd, fr)
    ensures Dealt(Households.Values(households), firstPersonId, firstHouseholdId, PERSON_COUNT)
  {
    farms := CreateFarms(firstFarmId, fd);
    label Built:
    persons, households := CreatePersons(farms, firstFarmId, firstPersonId, firstHouseholdId, pd, fr);
    Farms.ValuesKept@Built(farms);
    Persons.ValuesAre(persons, InitialPersons(firstFarmId, firstPersonId, firstHouseholdId, pd, fr));
    PersonsApart(persons, firstPersonId);
    HouseholdsApart(households, firstPersonId, firstHouseholdId, PERSON_COUNT);
  }

  /** Every starting farm is private, has an empty history and default grain, mechanization and
      risk, and, for draws in [0,1), a land area in [60,210) and a position in [-700,700) x [-500,500). */
  lemma InitialFarmsProperties(firstFarmId: nat, fd: seq<FarmDraws>)
    ensures |InitialFarms(firstFarmId, fd)| == |fd|
    ensures forall k :: 0 <= k < |fd| ==>
      var f := InitialFarms(firstFarmId, fd)[k];
      && f.id == firstFarmId + k && f.ownership == Private && f.yieldHistory == []
      && f.storedGrain == 20.0 && f.mechanization == 0.05 && f.riskFamine == 0.05
      && (IsDraw(fd[k].landArea) ==> 60.0 <= f.landArea < 210.0)
      && (IsDraw(fd[k].x) ==> -700.0 <= f.x < 700.0)
      && (IsDraw(fd[k].y) ==> -500.0 <= f.y < 500.0)
      && (IsDraw(fd[k].productivity) ==> 0.8 <= f.productivityBase < 1.2)
  {
  }

  /** Every starting person works on one of the starting farms, is not displaced, is in full
      health and belongs to household k / 5. */
  lemma InitialPersonsProperties(firstFarmId: nat, firstPersonId: nat, firstHouseholdId: nat,
                                 fd: seq<FarmDraws>, pd: seq<PersonDraws>, fr: seq<real>)
    requires |fd| == FARM_COUNT && |pd| == |fr| && forall k :: 0 <= k < |fr| ==> IsDraw(fr[k])
    ensures forall k :: 0 <= k < |pd| ==>
      var p := InitialPersons(firstFarmId, firstPersonId, firstHouseholdId, pd, fr)[k];
      && p.id == firstPersonId + k && !p.displaced && p.health == 1.0
      && p.householdId == Some(firstHouseholdId + k / HOUSEHOLD_SIZE)
      && (exists m :: (0 <= m < FARM_COUNT && p.farmId == Some(InitialFarms(firstFarmId, fd)[m].id)))
  {
    forall k | 0 <= k < |pd|
      ensures exists m :: (0 <= m < FARM_COUNT &&
        InitialPersons(firstFarmId, firstPersonId, firstHouseholdId, pd, fr)[k].farmId == Some(InitialFarms(firstFarmId, fd)[m].id))
    {
      var m := FarmIndex(fr[k]);
      assert InitialFarms(firstFarmId, fd)[m].id == firstFarmId + m;
    }
  }

  /** However many persons have been placed, every household has between one and five members. */
  lemma {:induction false} HouseholdSizes(hs: seq<HouseholdV>, firstPersonId: nat, firstHouseholdId: nat, n: nat)
    requires Dealt(hs, firstPersonId, firstHouseholdId, n)
    ensures forall j :: 0 <= j < |hs| ==> 1 <= |hs[j].personIds| <= HOUSEHOLD_SIZE
  {
    forall j | 0 <= j < |hs|
      ensures 1 <= |hs[j].personIds| <= HOUSEHOLD_SIZE
    {
      assert HouseholdDealt(hs[j], firstPersonId, firstHouseholdId, j, n);
      var q, r := n / HOUSEHOLD_SIZE, n % HOUSEHOLD_SIZE;
      HouseholdCount(q, r);
      assert HOUSEHOLD_SIZE * j < n;
    }
  }

  /** With all 150 persons placed there are exactly 30 households of exactly five members. */
  lemma ThirtyHouseholdsOfFive(hs: seq<HouseholdV>, firstPersonId: nat, firstHouseholdId: nat)
    requires Dealt(hs, firstPersonId, firstHouseholdId, PERSON_COUNT)
    ensures |hs| == 30
    ensures forall j :: 0 <= j < |hs| ==> |hs[j].personIds| == HOUSEHOLD_SIZE
  {
    HouseholdCount(30, 0);
    forall j | 0 <= j < |hs|
      ensures |hs[j].personIds| == HOUSEHOLD_SIZE
    {
      assert HouseholdDealt(hs[j], firstPersonId, firstHouseholdId, j, PERSON_COUNT);
    }
  }

  /** Person k is a member of household k / 5, whose id its householdId holds, and of no other. */
  lemma {:induction false} OneHouseholdEach(hs: seq<HouseholdV>, firstPersonId: nat, firstHouseholdId: nat, n: nat, k: nat)
    requires Dealt(hs, firstPersonId, firstHouseholdId, n) && k < n
    ensures k / HOUSEHOLD_SIZE < |hs| && hs[k / HOUSEHOLD_SIZE].id == firstHouseholdId + k / HOUSEHOLD_SIZE
    ensures firstPersonId + k in hs[k / HOUSEHOLD_SIZE].personIds
    ensures forall j :: 0 <= j < |hs| && j != k / HOUSEHOLD_SIZE ==> firstPersonId + k !in hs[j].personIds
  {
    var q, r := k / HOUSEHOLD_SIZE, k % HOUSEHOLD_SIZE;
    assert k == HOUSEHOLD_SIZE * q + r;
    var nq, nr := n / HOUSEHOLD_SIZE, n % HOUSEHOLD_SIZE;
    HouseholdCount(nq, nr);
    assert q < |hs|;
    assert HouseholdDealt(hs[q], firstPersonId, firstHouseholdId, q, n);
    assert hs[q].personIds[r] == firstPersonId + k;
    forall j | 0 <= j < |hs| && j != q
      ensures firstPersonId + k !in hs[j].personIds
    {
      assert HouseholdDealt(hs[j], firstPersonId, firstHouseholdId, j, n);
      forall t | 0 <= t < |hs[j].personIds|
        ensures hs[j].personIds[t] != firstPersonId + k
      {
        assert t < HOUSEHOLD_SIZE && hs[j].personIds[t] == firstPersonId + HOUSEHOLD_SIZE * j + t;
      }
    }
  }
}
