/** A person: value view, the daily update, and the class that applies it in place. */
module Persons {
  import opened Common

  /** Every field of a person except the display name; the farm and household links are ids. */
  datatype PersonV = PersonV(id: nat, age: int, laborSkill: real, health: real, morale: real,
                             politicalDisposition: real, householdId: Option<nat>,
                             farmId: Option<nat>, displaced: bool)

  /** The optional constructor arguments that the constructor reads. */
  datatype PersonInit = PersonInit(age: Option<int>, laborSkill: Option<real>, health: Option<real>,
                                   morale: Option<real>, politicalDisposition: Option<real>)

  const NO_INIT: PersonInit := PersonInit(None, None, None, None, None)

  /** The `Math.random()` draws the constructor falls back on. */
  datatype PersonDraws = PersonDraws(age: real, laborSkill: real, morale: real, politicalDisposition: real)

  predicate ValidDraws(d: PersonDraws) {
    IsDraw(d.age) && IsDraw(d.laborSkill) && IsDraw(d.morale) && IsDraw(d.politicalDisposition)
  }

  /** The two draws one daily update may consume. */
  datatype DayDraws = DayDraws(aging: real, displacement: real)

  /** The person a constructor call builds: never displaced and not yet linked to a farm or household. */
  function NewPerson(id: nat, init: PersonInit, d: PersonDraws): (p: PersonV)
    ensures p.id == id && !p.displaced && p.farmId.None? && p.householdId.None?
    ensures p.health == init.health.GetOr(1.0)
    ensures init.age.None? && IsDraw(d.age) ==> 18 <= p.age <= 47
    ensures init.laborSkill.None? && IsDraw(d.laborSkill) ==> 0.4 <= p.laborSkill < 1.0
    ensures init.morale.None? && IsDraw(d.morale) ==> 0.6 <= p.morale < 0.9
  {
    PersonV(id,
            init.age.GetOr(18 + (d.age * 30.0).Floor),
            init.laborSkill.GetOr(0.4 + d.laborSkill * 0.6),
            init.health.GetOr(1.0),
            init.morale.GetOr(0.6 + d.morale * 0.3),
            init.politicalDisposition.GetOr(0.3 + d.politicalDisposition * 0.4),
            None, None, false)
  }

  /** One daily update given the local famine risk and the day's draws. */
  function AfterDailyUpdate(p: PersonV, riskFamineLocal: real, d: DayDraws): PersonV {
    var age := if d.aging < 0.0004 then p.age + 1 else p.age;
    var health := p.health - 0.002 * (0.5 - p.morale);
    var health' := Min(1.0, Max(0.0, health));
    var displaced := if !p.displaced && riskFamineLocal > 0.4 && d.displacement < riskFamineLocal * 0.004
                     then true else p.displaced;
    p.(age := age, health := health', displaced := displaced, morale := Max(0.0, Min(1.0, p.morale)))
  }

  lemma DailyUpdateProperties(p: PersonV, risk: real, d: DayDraws)
    ensures var q := AfterDailyUpdate(p, risk, d);
      && 0.0 <= q.health <= 1.0
      && 0.0 <= q.morale <= 1.0
      && (0.0 <= p.morale <= 1.0 ==> q.morale == p.morale)
      && (p.displaced ==> q.displaced)
      && (q.displaced && !p.displaced <==> !p.displaced && risk > 0.4 && d.displacement < 0.004 * risk)
      && (q.age == p.age || q.age == p.age + 1)
      && (q.age == p.age + 1 <==> d.aging < 0.0004)
      && q.health == Min(1.0, Max(0.0, p.health + 0.002 * (p.morale - 0.5)))
      && q.(age := p.age, health := p.health, displaced := p.displaced, morale := p.morale) == p
  {
  }

  class Person {
    const id: nat
    var age: int
    var laborSkill: real
    var health: real
    var morale: real
    var politicalDisposition: real
    var householdId: Option<nat>
    var farmId: Option<nat>
    var displaced: bool

    function Value(): PersonV
      reads this
    {
      PersonV(id, age, laborSkill, health, morale, politicalDisposition, householdId, farmId, displaced)
    }

    constructor (id: nat, init: PersonInit, draws: PersonDraws)
      ensures Value() == NewPerson(id, init, draws)
    {
      this.id := id;
      age := init.age.GetOr(18 + (draws.age * 30.0).Floor);
      laborSkill := init.laborSkill.GetOr(0.4 + draws.laborSkill * 0.6);
      health := init.health.GetOr(1.0);
      morale := init.morale.GetOr(0.6 + draws.morale * 0.3);
      politicalDisposition := init.politicalDisposition.GetOr(0.3 + draws.politicalDisposition * 0.4);
      householdId := None;
      farmId := None;
      displaced := false;
    }

    method DailyUpdate(riskFamineLocal: real, draws: DayDraws)
      modifies this
      ensures Value() == AfterDailyUpdate(old(Value()), riskFamineLocal, draws)
    {
      if draws.aging < 0.0004 {
        age := age + 1;
      }
      health := health - 0.002 * (0.5 - morale);
      health := Min(1.0, Max(0.0, health));
      if !displaced && riskFamineLocal > 0.4 && draws.displacement < riskFamineLocal * 0.004 {
        displaced := true;
      }
      morale := Max(0.0, Min(1.0, morale));
    }

    /** Assigning `farmId`: the person now works on that farm and nothing else changes. */
    method LinkFarm(farmId: nat)
      modifies this
      ensures Value() == old(Value()).(farmId := Some(farmId))
    {
      this.farmId := Some(farmId);
    }

    /** Assigning `householdId`: the person now belongs to that household and nothing else changes. */
    method LinkHousehold(householdId: nat)
      modifies this
      ensures Value() == old(Value()).(householdId := Some(householdId))
    {
      this.householdId := Some(householdId);
    }
  }

  function Values(ps: seq<Person>): (vs: seq<PersonV>)
    reads ps
    ensures |vs| == |ps| && forall k {:trigger vs[k]} :: 0 <= k < |ps| ==> vs[k] == ps[k].Value()
  {
    if |ps| == 0 then [] else Values(ps[..|ps| - 1]) + [ps[|ps| - 1].Value()]
  }

  /** The persons working a farm: `farmId === farm.id && !displaced`, in list order. */
  function Occupants(ps: seq<PersonV>, farmId: nat): (r: seq<PersonV>)
    ensures |r| <= |ps|
    ensures forall q :: q in r ==> q in ps && q.farmId == Some(farmId) && !q.displaced
    ensures (forall k :: 0 <= k < |ps| ==> ps[k].farmId == Some(farmId) && !ps[k].displaced) ==> r == ps
  {
    if |ps| == 0 then []
    else
      var last := ps[|ps| - 1];
      Occupants(ps[..|ps| - 1], farmId) + (if last.farmId == Some(farmId) && !last.displaced then [last] else [])
  }

  /** Nobody who works on the farm and is not displaced is left out. */
  lemma {:induction false} OccupantsComplete(ps: seq<PersonV>, farmId: nat)
    ensures forall q :: q in ps && q.farmId == Some(farmId) && !q.displaced ==> q in Occupants(ps, farmId)
  {
    if |ps| > 0 {
      var n := |ps| - 1;
      assert ps == ps[..n] + [ps[n]];
      OccupantsComplete(ps[..n], farmId);
    }
  }

  /** One more person at the end adds that person to the end of the occupants, when it matches. */
  lemma OccupantsSnoc(ps: seq<PersonV>, q: PersonV, farmId: nat)
    ensures Occupants(ps + [q], farmId)
            == Occupants(ps, farmId) + (if q.farmId == Some(farmId) && !q.displaced then [q] else [])
  {
    assert (ps + [q])[..|ps|] == ps;
  }

  /** The filter keeps list order: the occupants of a concatenation are the occupants of each part, in turn. */
  lemma {:induction false} OccupantsAppend(ps: seq<PersonV>, qs: seq<PersonV>, farmId: nat)
    ensures Occupants(ps + qs, farmId) == Occupants(ps, farmId) + Occupants(qs, farmId)
    decreases |qs|
  {
    if |qs| == 0 {
      assert ps + qs == ps;
    } else {
      var n := |qs| - 1;
      OccupantsAppend(ps, qs[..n], farmId);
      SplitLast(ps, qs);
      OccupantsSnoc(ps + qs[..n], qs[n], farmId);
      OccupantsSnoc(qs[..n], qs[n], farmId);
      var t := if qs[n].farmId == Some(farmId) && !qs[n].displaced then [qs[n]] else [];
      ConcatAssoc(Occupants(ps, farmId), Occupants(qs[..n], farmId), t);
      assert Occupants(ps + qs, farmId) == Occupants(ps + qs[..n], farmId) + t;
    }
  }

  function LaborSum(ps: seq<PersonV>): real {
    if |ps| == 0 then 0.0 else LaborSum(ps[..|ps| - 1]) + ps[|ps| - 1].laborSkill * ps[|ps| - 1].health
  }

  function SkillSum(ps: seq<PersonV>): real {
    if |ps| == 0 then 0.0 else SkillSum(ps[..|ps| - 1]) + ps[|ps| - 1].laborSkill
  }

  function MoraleSum(ps: seq<PersonV>): real {
    if |ps| == 0 then 0.0 else MoraleSum(ps[..|ps| - 1]) + ps[|ps| - 1].morale
  }

  /** `reduce(+ morale) / Math.max(1, length)`: the mean morale, or 0 for an empty list. */
  function MoraleAvg(ps: seq<PersonV>): real {
    MoraleSum(ps) / Max(1.0, |ps| as real)
  }

  lemma {:induction false} MoraleSumBounds(ps: seq<PersonV>)
    requires forall k :: 0 <= k < |ps| ==> 0.0 <= ps[k].morale <= 1.0
    ensures 0.0 <= MoraleSum(ps) <= |ps| as real
  {
    if |ps| > 0 {
      MoraleSumBounds(ps[..|ps| - 1]);
    }
  }

  /** The mean of morale values in [0,1] is in [0,1], and there are no persons it is 0. */
  lemma MoraleAvgInUnit(ps: seq<PersonV>)
    requires forall k :: 0 <= k < |ps| ==> 0.0 <= ps[k].morale <= 1.0
    ensures 0.0 <= MoraleAvg(ps) <= 1.0
    ensures |ps| == 0 ==> MoraleAvg(ps) == 0.0
  {
    MoraleSumBounds(ps);
    if |ps| > 0 {
      assert Max(1.0, |ps| as real) == |ps| as real;
      DivAtMostOne(MoraleSum(ps), |ps| as real);
    }
  }

  lemma DivAtMostOne(a: real, b: real)
    requires 0.0 <= a <= b && b > 0.0
    ensures 0.0 <= a / b <= 1.0
  {
  }

  function CountDisplaced(ps: seq<PersonV>): nat {
    if |ps| == 0 then 0
    else CountDisplaced(ps[..|ps| - 1]) + (if ps[|ps| - 1].displaced then 1 else 0)
  }

  /** Two lists whose displaced flags agree position by position have the same count. */
  lemma {:induction false} CountSameFlags(a: seq<PersonV>, b: seq<PersonV>)
    requires |a| == |b| && forall k :: 0 <= k < |a| ==> a[k].displaced == b[k].displaced
    ensures CountDisplaced(a) == CountDisplaced(b)
  {
    if |a| > 0 {
      CountSameFlags(a[..|a| - 1], b[..|b| - 1]);
    }
  }

  /** Nobody displaced means a count of zero. */
  lemma {:induction false} CountZero(a: seq<PersonV>)
    requires forall k :: 0 <= k < |a| ==> !a[k].displaced
    ensures CountDisplaced(a) == 0
  {
    if |a| > 0 {
      CountZero(a[..|a| - 1]);
    }
  }

  /** The values of a list, from the value of each of its objects. */
  lemma ValuesAre(persons: seq<Person>, vs: seq<PersonV>)
    requires |persons| == |vs| && forall k :: 0 <= k < |persons| ==> persons[k].Value() == vs[k]
    ensures Values(persons) == vs
  {
  }

  /** A list whose objects did not change has the values it had. */
  twostate lemma ValuesKept(persons: seq<Person>)
    requires unchanged(persons)
    ensures Values(persons) == old(Values(persons))
  {
  }
}
