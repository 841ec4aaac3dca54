/** A household: its members' ids and its food store, consumed daily. */
module Households {
  import opened Common

  datatype HouseholdV = HouseholdV(id: nat, personIds: seq<nat>, storedFood: real)

  /** Each member eats this much per day. */
  const RATION: real := 0.5

  /** The household after one day: consumption subtracted, then floored at 0. */
  function Consumed(h: HouseholdV): HouseholdV {
    var food := h.storedFood - |h.personIds| as real * RATION;
    h.(storedFood := if food < 0.0 then 0.0 else food)
  }

  lemma ConsumedProperties(h: HouseholdV)
    ensures Consumed(h).storedFood == Max(0.0, h.storedFood - 0.5 * |h.personIds| as real)
    ensures Consumed(h).storedFood >= 0.0
    ensures h.storedFood >= 0.0 ==> Consumed(h).storedFood <= h.storedFood
    ensures Consumed(h).personIds == h.personIds && Consumed(h).id == h.id
  {
  }

  class Household {
    const id: nat
    var personIds: seq<nat>
    var storedFood: real

    function Value(): HouseholdV
      reads this
    {
      HouseholdV(id, personIds, storedFood)
    }

    /** A new household has no members and, by default, 40 units of food. */
    constructor (id: nat, storedFood: Option<real>)
      ensures Value() == HouseholdV(id, [], storedFood.GetOr(40.0))
    {
      this.id := id;
      personIds := [];
      this.storedFood := storedFood.GetOr(40.0);
    }

    /** `personIds.push(id)`: the person's id is appended and nothing else changes. */
    method AddMember(personId: nat)
      modifies this
      ensures Value() == old(Value()).(personIds := old(Value()).personIds + [personId])
    {
      personIds := personIds + [personId];
    }

    method DailyUpdate()
      modifies this
      ensures Value() == Consumed(old(Value()))
    {
      var consumption := |personIds| as real * RATION;
      storedFood := storedFood - consumption;
      if storedFood < 0.0 {
        storedFood := 0.0;
      }
    }
  }

  function Values(hs: seq<Household>): (vs: seq<HouseholdV>)
    reads hs
    ensures |vs| == |hs| && forall k {:trigger vs[k]} :: 0 <= k < |hs| ==> vs[k] == hs[k].Value()
  {
    if |hs| == 0 then [] else Values(hs[..|hs| - 1]) + [hs[|hs| - 1].Value()]
  }

  /** The values of a list, from the value of each of its objects. */
  lemma ValuesAre(households: seq<Household>, vs: seq<HouseholdV>)
    requires |households| == |vs| && forall k :: 0 <= k < |households| ==> households[k].Value() == vs[k]
    ensures Values(households) == vs
  {
  }

  /** A list whose objects did not change has the values it had. */
  twostate lemma ValuesKept(households: seq<Household>)
    requires unchanged(households)
    ensures Values(households) == old(Values(households))
  {
  }
}
