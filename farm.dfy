/** A farm: its value view, the yield model, and the class whose methods update it in place. */
module Farms {
  import opened Common

  datatype Ownership = Private | Collective

  /** Every field of a farm except its display name. */
  datatype FarmV = FarmV(id: nat, x: real, y: real, landArea: real, ownership: Ownership,
                         productivityBase: real, mechanization: real, riskFamine: real,
                         dailyYieldModifier: real, yieldHistory: seq<real>, storedGrain: real)

  /** The yield history keeps at most this many entries. */
  const HISTORY_CAP: nat := 365

  /** The optional constructor arguments (`Partial<Farm>`); absent ones take defaults. */
  datatype FarmInit = FarmInit(x: Option<real>, y: Option<real>, landArea: Option<real>,
                               ownership: Option<Ownership>, productivityBase: Option<real>,
                               mechanization: Option<real>, riskFamine: Option<real>,
                               storedGrain: Option<real>)

  /** The `Math.random()` draws the constructor falls back on. */
  datatype FarmDraws = FarmDraws(x: real, y: real, landArea: real, productivity: real)

  predicate ValidDraws(d: FarmDraws) {
    IsDraw(d.x) && IsDraw(d.y) && IsDraw(d.landArea) && IsDraw(d.productivity)
  }

  /** The farm a constructor call builds. */
  function NewFarm(id: nat, init: FarmInit, d: FarmDraws): (f: FarmV)
    ensures f.id == id && f.dailyYieldModifier == 1.0 && f.yieldHistory == []
    ensures f.ownership == init.ownership.GetOr(Private)
    ensures f.mechanization == init.mechanization.GetOr(0.05)
    ensures f.riskFamine == init.riskFamine.GetOr(0.05)
    ensures f.storedGrain == init.storedGrain.GetOr(20.0)
    ensures init.landArea.None? && IsDraw(d.landArea) ==> 80.0 <= f.landArea < 200.0
    ensures init.productivityBase.None? && IsDraw(d.productivity) ==> 0.8 <= f.productivityBase < 1.2
  {
    FarmV(id,
          init.x.GetOr(d.x * 1200.0 - 600.0),
          init.y.GetOr(d.y * 900.0 - 450.0),
          init.landArea.GetOr(80.0 + d.landArea * 120.0),
          init.ownership.GetOr(Private),
          init.productivityBase.GetOr(0.8 + d.productivity * 0.4),
          init.mechanization.GetOr(0.05),
          init.riskFamine.GetOr(0.05),
          1.0, [],
          init.storedGrain.GetOr(20.0))
  }

  function Reset(f: FarmV): FarmV { f.(dailyYieldModifier := 1.0) }

  /** `dailyReset` sets the modifier to exactly 1 and leaves every other field alone. */
  lemma ResetOnlyModifier(f: FarmV)
    ensures Reset(f).dailyYieldModifier == 1.0
    ensures Reset(f).(dailyYieldModifier := f.dailyYieldModifier) == f
  {
  }

  function Converted(f: FarmV, avgSkill: real): FarmV {
    f.(ownership := Collective,
       productivityBase := f.productivityBase * (1.0 + avgSkill * 0.05),
       mechanization := Max(f.mechanization, 0.08))
  }

  lemma ConvertedShape(f: FarmV, avgSkill: real)
    ensures Converted(f, avgSkill).ownership == Collective
    ensures Converted(f, avgSkill).mechanization >= 0.08
    ensures Converted(f, avgSkill).mechanization >= f.mechanization
    ensures Converted(f, avgSkill).productivityBase == f.productivityBase * (1.0 + 0.05 * avgSkill)
    ensures Converted(f, avgSkill).(ownership := f.ownership, productivityBase := f.productivityBase,
                                    mechanization := f.mechanization) == f
  {
  }

  /** `0.5 + laborSum / (2 * max(1, laborSum))`. */
  function LaborFactor(laborSum: real): real {
    0.5 + laborSum / (2.0 * Max(1.0, laborSum))
  }

  lemma LaborFactorRange(laborSum: real)
    requires laborSum >= 0.0
    ensures 0.5 <= LaborFactor(laborSum) <= 1.0
    ensures laborSum <= 1.0 ==> LaborFactor(laborSum) == 0.5 + laborSum / 2.0
    ensures laborSum >= 1.0 ==> LaborFactor(laborSum) == 1.0
  {
  }

  /** The day's realized yield, built factor by factor as the source does. */
  function Realized(f: FarmV, laborSum: real, moraleAvg: real): real {
    var b0 := f.productivityBase * f.landArea;
    var b1 := b0 * (1.0 + f.mechanization * 0.5);
    var b2 := b1 * (0.7 + 0.3 * moraleAvg);
    var b3 := b2 * LaborFactor(laborSum);
    var b4 := b3 * f.dailyYieldModifier;
    b4 * (1.0 - f.riskFamine * 0.3)
  }

  /** The closed form of the yield formula. */
  lemma RealizedFormula(f: FarmV, laborSum: real, moraleAvg: real)
    ensures Realized(f, laborSum, moraleAvg)
         == f.productivityBase * f.landArea * (1.0 + 0.5 * f.mechanization)
            * (0.7 + 0.3 * moraleAvg) * LaborFactor(laborSum) * f.dailyYieldModifier
            * (1.0 - 0.3 * f.riskFamine)
  {
  }

  /** With nonnegative inputs and a famine risk of at most 1 no yield is negative. */
  lemma RealizedNonnegative(f: FarmV, laborSum: real, moraleAvg: real)
    requires f.productivityBase >= 0.0 && f.landArea >= 0.0 && f.mechanization >= 0.0
    requires f.dailyYieldModifier >= 0.0 && f.riskFamine <= 1.0
    requires laborSum >= 0.0 && moraleAvg >= 0.0
    ensures Realized(f, laborSum, moraleAvg) >= 0.0
  {
    var b0 := f.productivityBase * f.landArea;
    MulNonneg(f.productivityBase, f.landArea);
    var m := 1.0 + f.mechanization * 0.5;
    var b1 := b0 * m;
    MulNonneg(b0, m);
    var mo := 0.7 + 0.3 * moraleAvg;
    var b2 := b1 * mo;
    MulNonneg(b1, mo);
    LaborFactorRange(laborSum);
    var lf := LaborFactor(laborSum);
    var b3 := b2 * lf;
    MulNonneg(b2, lf);
    var b4 := b3 * f.dailyYieldModifier;
    MulNonneg(b3, f.dailyYieldModifier);
    var rf := 1.0 - f.riskFamine * 0.3;
    MulNonneg(b4, rf);
    assert Realized(f, laborSum, moraleAvg) == b4 * rf;
  }

  /** An example: land 100, base 1, no mechanization, morale 0.5, no labour, risk 0.05. */
  lemma YieldExample()
    ensures Realized(FarmV(1, 0.0, 0.0, 100.0, Private, 1.0, 0.0, 0.05, 1.0, [], 20.0), 0.0, 0.5)
            == 41.8625
  {
  }

  /** `push` then, if the history is now longer than the cap, `shift`. */
  function PushHistory(h: seq<real>, v: real): (r: seq<real>)
    ensures |r| == if |h| + 1 > HISTORY_CAP then |h| else |h| + 1
    ensures |r| > 0 && r[|r| - 1] == v
    ensures r[..|r| - 1] == if |h| + 1 > HISTORY_CAP then h[1..] else h
  {
    var pushed := h + [v];
    if |pushed| > HISTORY_CAP then pushed[1..] else pushed
  }

  /** The history never grows past 365 entries; below the cap it grows by exactly one. */
  lemma HistoryStaysCapped(h: seq<real>, v: real)
    requires |h| <= HISTORY_CAP
    ensures |PushHistory(h, v)| <= HISTORY_CAP
    ensures |PushHistory(h, v)| == if |h| < HISTORY_CAP then |h| + 1 else HISTORY_CAP
  {
  }

  /** The farm after `computeDailyYield`: a fifth of the yield is stored and the yield recorded. */
  function AfterYield(f: FarmV, laborSum: real, moraleAvg: real): FarmV {
    var realized := Realized(f, laborSum, moraleAvg);
    f.(storedGrain := f.storedGrain + realized * 0.2,
       yieldHistory := PushHistory(f.yieldHistory, realized))
  }

  lemma AfterYieldShape(f: FarmV, laborSum: real, moraleAvg: real)
    ensures AfterYield(f, laborSum, moraleAvg).storedGrain
            == f.storedGrain + 0.2 * Realized(f, laborSum, moraleAvg)
    ensures Last(AfterYield(f, laborSum, moraleAvg).yieldHistory) == Realized(f, laborSum, moraleAvg)
    ensures AfterYield(f, laborSum, moraleAvg).(storedGrain := f.storedGrain,
                                               yieldHistory := f.yieldHistory) == f
  {
  }

  function Last(h: seq<real>): real { if |h| == 0 then 0.0 else h[|h| - 1] }

  /** `slice(-30)` then `reduce(+)`: the SUM of the last (up to) 30 entries, despite the name. */
  function SumOfLast30(h: seq<real>): real {
    var n := if |h| < 30 then |h| else 30;
    Sum(h[|h| - n..])
  }

  lemma {:induction false} SumConstant(n: nat, c: real)
    ensures Sum(seq(n, _ => c)) == n as real * c
  {
    if n > 0 {
      assert seq(n, _ => c)[..n - 1] == seq(n - 1, _ => c);
      SumConstant(n - 1, c);
    }
  }

  /** It is a sum and not a mean: 30 equal entries c give 30·c; a short history gives its total. */
  lemma Last30IsASum(h: seq<real>, c: real)
    ensures |h| == 0 ==> SumOfLast30(h) == 0.0
    ensures |h| <= 30 ==> SumOfLast30(h) == Sum(h)
    ensures |h| >= 30 && (forall k :: 0 <= k < |h| ==> h[k] == c) ==> SumOfLast30(h) == 30.0 * c
  {
    assert h[|h| - (if |h| < 30 then |h| else 30)..] == if |h| < 30 then h else h[|h| - 30..];
    if |h| >= 30 && (forall k :: 0 <= k < |h| ==> h[k] == c) {
      assert h[|h| - 30..] == seq(30, _ => c);
      SumConstant(30, c);
    }
  }

  /** Once the history holds 30 entries, each new entry slides the window by one. */
  lemma Last30Slides(h: seq<real>, y: real)
    requires |h| >= 30
    ensures SumOfLast30(h + [y]) == SumOfLast30(h) + y - h[|h| - 30]
  {
    var w := h[|h| - 29..];
    assert (h + [y])[|h| + 1 - 30..] == w + [y];
    assert Sum(w + [y]) == Sum(w) + y by { assert (w + [y])[..|w|] == w; }
    assert h[|h| - 30..] == [h[|h| - 30]] + w;
    SumCons(h[|h| - 30], w);
  }

  class Farm {
    const id: nat
    var x: real
    var y: real
    var landArea: real
    var ownership: Ownership
    var productivityBase: real
    var mechanization: real
    var riskFamine: real
    var dailyYieldModifier: real
    var yieldHistory: seq<real>
    var storedGrain: real

    function Value(): FarmV
      reads this
    {
      FarmV(id, x, y, landArea, ownership, productivityBase, mechanization, riskFamine,
            dailyYieldModifier, yieldHistory, storedGrain)
    }

    /** The id counter becomes the `id` argument. */
    constructor (id: nat, init: FarmInit, draws: FarmDraws)
      ensures Value() == NewFarm(id, init, draws)
    {
      this.id := id;
      x := init.x.GetOr(draws.x * 1200.0 - 600.0);
      y := init.y.GetOr(draws.y * 900.0 - 450.0);
      landArea := init.landArea.GetOr(80.0 + draws.landArea * 120.0);
      ownership := init.ownership.GetOr(Private);
      productivityBase := init.productivityBase.GetOr(0.8 + draws.productivity * 0.4);
      mechanization := init.mechanization.GetOr(0.05);
      riskFamine := init.riskFamine.GetOr(0.05);
      dailyYieldModifier := 1.0;
      yieldHistory := [];
      storedGrain := init.storedGrain.GetOr(20.0);
    }

    method DailyReset()
      modifies this
      ensures Value() == Reset(old(Value()))
    {
      dailyYieldModifier := 1.0;
    }

    method ConvertToCollective(avgSkill: real)
      modifies this
      ensures Value() == Converted(old(Value()), avgSkill)
    {
      ownership := Collective;
      productivityBase := productivityBase * (1.0 + avgSkill * 0.05);
      mechanization := Max(mechanization, 0.08);
    }

    method ComputeDailyYield(laborSum: real, moraleAvg: real) returns (realized: real)
      modifies this
      ensures realized == Realized(old(Value()), laborSum, moraleAvg)
      ensures Value() == AfterYield(old(Value()), laborSum, moraleAvg)
    {
      var base := productivityBase * landArea;
      base := base * (1.0 + mechanization * 0.5);
      base := base * (0.7 + 0.3 * moraleAvg);
      base := base * (0.5 + laborSum / (2.0 * Max(1.0, laborSum)));
      base := base * dailyYieldModifier;
      realized := base * (1.0 - riskFamine * 0.3);
      storedGrain := storedGrain + realized * 0.2;
      yieldHistory := yieldHistory + [realized];
      if |yieldHistory| > HISTORY_CAP {
        yieldHistory := yieldHistory[1..];
      }
    }

    /** `avg30DayYield()`: despite its name, the total of the last 30 yields. */
    function Avg30DayYield(): (r: real)
      reads this
      ensures |yieldHistory| == 0 ==> r == 0.0
      ensures |yieldHistory| <= 30 ==> r == Sum(yieldHistory)
    {
      Last30IsASum(yieldHistory, 0.0);
      SumOfLast30(yieldHistory)
    }
  }

  /** The values of a list of farms, in list order. */
  function Values(fs: seq<Farm>): (vs: seq<FarmV>)
    reads fs
    ensures |vs| == |fs| && forall k {:trigger vs[k]} :: 0 <= k < |fs| ==> vs[k] == fs[k].Value()
  {
    if |fs| == 0 then [] else Values(fs[..|fs| - 1]) + [fs[|fs| - 1].Value()]
  }

  /** The values of a list, from the value of each of its objects. */
  lemma ValuesAre(farms: seq<Farm>, vs: seq<FarmV>)
    requires |farms| == |vs| && forall k :: 0 <= k < |farms| ==> farms[k].Value() == vs[k]
    ensures Values(farms) == vs
  {
  }

  /** A list whose objects did not change has the values it had. */
  twostate lemma ValuesKept(farms: seq<Farm>)
    requires unchanged(farms)
    ensures Values(farms) == old(Values(farms))
  {
  }
}
