# A verified model of the agrarian simulator and its zoomable views

The application simulates the countryside of one region from 1905 to 1940, one day at a time. It also draws that world at six zoom levels, from a single house up to the whole world. This project models its two engines in Dafny and proves what their code promises.

**The daily simulation.** Its parts:

- The era table, and a clock that steps one day and tracks the era. Dates are day numbers from 1905-01-01.
- Farms, persons and households. These are classes whose methods change the fields in place, as the TypeScript objects do.
- The seven registered policies each era applies.
- The daily tick, which runs in a fixed order: reset, policies, yields, household consumption, person updates, metrics.
- The builder of the starting world: 24 farms, 150 persons and households of five.

Each mutating method is proved against a specification function on the objects' values. The invariants are lemmas about those functions:

- famine risk stays in [0,1];
- health and morale stay in [0,1];
- a yield history holds at most 365 entries;
- requisition conserves grain;
- the displaced count is exact;
- the era index tracks the date.

**The view engine.** It has two separate stacks, and each is modelled with its own constants:

1. The stack the `LevelManager` drives:
   - the level state machine, with its cubic ease;
   - the camera hook;
   - nearest-entity picking and the keyboard bindings.
2. The store-driven stack:
   - the zustand store's actions, including `initialize` and `advanceDay` on the clock and the simulation objects;
   - the pixi stage's frame loop: a day accumulator and camera smoothing;
   - click picking and the overlay value.

**Modelling choices:**

- Numbers are `real`, so no claim is made about IEEE rounding.
- Each `Math.random()` draw is a parameter in [0,1).
- The module-level id counters become first-id arguments. Ids are `nat`; the `F`/`P`/`H` prefixes are dropped.
- `Math.sqrt(d) < r` is compared as `d < r²`.
- The year that `getFullYear()` would return is computed from the day number by a Gregorian calendar (module `Calendar`).

Modules follow the source files:

- `Eras`: `eras.ts`.
- `Levels`: `levels.ts`.
- `Calendar`, and `Timekeeping` (the clock): `TimeController.ts`.
- `Farms`, `Persons`, `Households`: the three entity files.
- `Policies`, `Simulations`, `InitialEntities`: their namesakes.
- `LevelManagement`: `LevelManager.ts`.
- `Cameras`: `useCamera.ts`.
- `ComponentStage`: `components/WorldStage.tsx`.
- `SimStores`: `simStore.ts`.
- `PixiStage`: `pixi/WorldStage.tsx`.
- `Common`: shared helpers (Option, min/max, lerp, sums).

Some facts about the code that the model makes explicit:

- With no labour the labour factor is 0.5, so a farm with land 100, base 1, morale 0.5 and risk 0.05 yields 41.8625 (`Farms.YieldExample`).
- 1917-01-01 is day 4383 from 1905-01-01 (`Calendar.EraBoundsAreNewYears`).
- The `LevelManager` scales are 1.0…0.01. The store's `LEVELS` scales are 1.2…0.08.
- The camera hook uses the zoom band [0.5, 2.5] and smoothing 8. The store and the pixi stage use [0.3, 4] and 4.

## Model

| member | source | states |
|---|---|---|
| Eras.ErasInOrder | src/simulation/eras.ts:10-51 | five eras in the order tsarist, revolution, nep, collectivization, postCollectivization; the first starts on 1905-01-01; each has start ≤ end; each starts the day after the previous ends |
| Eras.ExactlyOneEra | src/simulation/eras.ts:14-47 | every day from 1905-01-01 to 1940-12-31 lies in exactly one era |
| Eras.SpansPositive | src/simulation/eras.ts:14-47 | every era's span is positive, so the progress division is defined |
| Calendar.EraBoundsAreNewYears | src/simulation/eras.ts:14-47 | the era bounds are January 1 of 1905, 1917, 1922, 1928 and 1934; the last era ends the day before 1941-01-01 |
| Calendar.YearAtLeast | src/simulation/Policies.ts:44 | `getFullYear()` of a day is ≥ y exactly when the day is on or after January 1 of y |
| Calendar.From1929 | src/simulation/Policies.ts:44-45 | the `year >= 1929` test holds exactly from day 8766 (1929-01-01) on |
| Calendar.NewYearClosedForm | src/simulation/eras.ts:14-47 | January 1 of year y (1905..2001) is day 365·(y−1905) plus one per intervening leap year |
| Levels.LevelTableShape | src/simulation/levels.ts:1-12 | six distinct ids in `LEVEL_SEQUENCE`; `LEVELS` has exactly those keys; each level's order is its position in the sequence |
| Levels.ScaleDecreasesWithOrder | src/simulation/levels.ts:4-9 | scale strictly decreases as order increases, from house 1.2 to world 0.08; every scale is positive |
| Timekeeping.FindEra | src/simulation/TimeController.ts:19 | `findIndex` of the first era whose inclusive range contains the day, or −1 when none does |
| Timekeeping.FindEraOnTable | src/simulation/TimeController.ts:19 | on the era table every day of 1905–1940 finds its era, and every later day finds none |
| Timekeeping.NextDayTracks | src/simulation/TimeController.ts:12-23 | one-day steps with `updateEra` keep the index valid and naming the date's era; after 1940-12-31 it stays on the last era |
| Timekeeping.Progress | src/simulation/TimeController.ts:25-30 | era progress lies in [0,1]; it is 0 before the start and 1 after the end; in between it is the elapsed fraction |
| Timekeeping.ProgressMonotone | src/simulation/TimeController.ts:25-30 | a later day is never less far through an era |
| Timekeeping.TimeController.constructor | src/simulation/TimeController.ts:4-8 | starts on day 0 (1905-01-01), in era 0, with a step of one day |
| Timekeeping.TimeController.CurrentEra | src/simulation/TimeController.ts:10 | the current era is in the table and, up to 1940-12-31, contains the date |
| Timekeeping.TimeController.StepDay | src/simulation/TimeController.ts:12-15 | the date advances by `tickDays`; the era index is then what `updateEra` picks; the index keeps tracking the date |
| Timekeeping.TimeController.CurrentYear | src/simulation/Policies.ts:44 | `currentDate.getFullYear()` is the year whose January 1 is the last on or before the date, and is at least 1905 |
| Calendar.YearOfBounds | src/simulation/Policies.ts:44 | the year of a day number y satisfies NewYear(y) ≤ day < NewYear(y + 1) |
| Timekeeping.TimeController.UpdateEra | src/simulation/TimeController.ts:17-23 | the index moves to the first era containing the date, and is unchanged when no era does |
| Timekeeping.TimeController.EraProgress | src/simulation/TimeController.ts:25-30 | `getEraProgress()` is in [0,1] and, within the table, is the elapsed fraction of the current era |
| Farms.NewFarm | src/simulation/entities/Farm.ts:16-29 | a new farm has the given id, modifier 1, an empty history and the defaults private/0.05/0.05/20; drawn land lies in [80,200) and drawn productivity in [0.8,1.2) |
| Farms.Farm.constructor | src/simulation/entities/Farm.ts:16-29 | the constructed object holds `NewFarm` of its arguments |
| Farms.ResetOnlyModifier | src/simulation/entities/Farm.ts:31 | `dailyReset` sets the modifier to exactly 1 and changes nothing else |
| Farms.Farm.DailyReset | src/simulation/entities/Farm.ts:31 | the farm's new value is the reset of its old value |
| Farms.ConvertedShape | src/simulation/entities/Farm.ts:33-37 | conversion makes the farm collective, makes mechanization max(old, 0.08), multiplies productivity by 1 + 0.05·avgSkill, and touches nothing else |
| Farms.Farm.ConvertToCollective | src/simulation/entities/Farm.ts:33-37 | the farm's new value is the converted old value |
| Farms.LaborFactorRange | src/simulation/entities/Farm.ts:43 | for laborSum ≥ 0 the labour factor is in [0.5,1]: 0.5 + laborSum/2 up to 1, then exactly 1 |
| Farms.RealizedFormula | src/simulation/entities/Farm.ts:40-45 | the realized yield is base·land·(1+0.5·mech)·(0.7+0.3·morale)·labour·modifier·(1−0.3·risk) |
| Farms.RealizedNonnegative | src/simulation/entities/Farm.ts:40-45 | with nonnegative inputs and risk ≤ 1 the yield is never negative |
| Farms.YieldExample | src/simulation/entities/Farm.ts:40-45 | land 100, base 1, no mechanization, morale 0.5, no labour and risk 0.05 give 41.8625 |
| Farms.PushHistory | src/simulation/entities/Farm.ts:47-48 | push then shift: the last entry is the new yield; the length is min(old+1, 365); older entries keep their order, and only the oldest is dropped at the cap |
| Farms.HistoryStaysCapped | src/simulation/entities/Farm.ts:47-48 | a history of at most 365 entries stays within 365, growing by one below the cap |
| Farms.AfterYieldShape | src/simulation/entities/Farm.ts:46-47 | stored grain grows by exactly 0.2 × the yield; the yield is the history's last entry; nothing else changes |
| Farms.Farm.ComputeDailyYield | src/simulation/entities/Farm.ts:39-50 | returns the realized yield, and the farm's new value is `AfterYield` of its old value |
| Farms.Farm.Avg30DayYield | src/simulation/entities/Farm.ts:52-55 | `avg30DayYield()` is 0 for an empty history and the plain total of a history of at most 30 entries |
| Farms.Last30IsASum | src/simulation/entities/Farm.ts:52-55 | `avg30DayYield` is the sum, not the mean, of the last min(30, length) entries: 0 for an empty history, and 30·c for 30 or more equal entries c |
| Farms.Last30Slides | src/simulation/entities/Farm.ts:52-55 | once the history holds 30 or more entries, appending y changes the window total by y minus the entry that drops out |
| Persons.NewPerson | src/simulation/entities/Person.ts:14-23 | a new person has the given id, is not displaced, is unlinked and has health 1 by default; drawn age is in [18,47], skill in [0.4,1) and morale in [0.6,0.9) |
| Persons.Person.constructor | src/simulation/entities/Person.ts:14-23 | the constructed object holds `NewPerson` of its arguments |
| Persons.DailyUpdateProperties | src/simulation/entities/Person.ts:25-37 | after the update health and morale are in [0,1], and morale already in range is kept; displacement is one-way, and starts only when risk > 0.4 and the draw < 0.004·risk; age grows by 1 exactly when the draw < 0.0004; health moves by 0.002·(morale−0.5) using the unclamped morale, then is clamped; no other field changes |
| Persons.Person.DailyUpdate | src/simulation/entities/Person.ts:25-37 | the person's new value is `AfterDailyUpdate` of its old value |
| Persons.Person.LinkFarm | src/simulation/initialEntities.ts:21 | assigning `farmId` changes only that field |
| Persons.Person.LinkHousehold | src/simulation/initialEntities.ts:28 | assigning `householdId` changes only that field |
| Persons.Occupants | src/simulation/Simulation.ts:47 | every person of the result is in the list, works on that farm and is not displaced; when every person matches, the result is the whole list |
| Persons.OccupantsComplete | src/simulation/Simulation.ts:47 | every person of the list who works on that farm and is not displaced is in the result |
| Persons.OccupantsAppend | src/simulation/Simulation.ts:47 | the filter keeps list order: the occupants of a concatenation are those of the first part followed by those of the second |
| Persons.MoraleAvgInUnit | src/simulation/Simulation.ts:49 | the mean morale (over max(1, n)) of values in [0,1] is in [0,1], and 0 for nobody |
| Households.ConsumedProperties | src/simulation/entities/Household.ts:12-16 | food becomes max(0, old − 0.5·members); it is never negative and never increases; the member list and id are kept |
| Households.Household.constructor | src/simulation/entities/Household.ts:4-10 | a new household has the given id, no members and 40 food by default |
| Households.Household.AddMember | src/simulation/initialEntities.ts:27 | `personIds.push(id)` appends the id and changes nothing else |
| Households.Household.DailyUpdate | src/simulation/entities/Household.ts:12-16 | the household's new value is `Consumed` of its old value |
| Policies.Lookup | src/simulation/Policies.ts:3-81 | `Policies[pid]` finds a policy exactly for the seven registered own keys, and the policy found carries that key |
| Policies.EraPoliciesRegistered | src/simulation/eras.ts:17-49 | every policy id an era names is a key of the registry |
| Policies.RequisitionConservesGrain | src/simulation/Policies.ts:22-31 | stored grain after requisition plus the total taken equals the stored grain before |
| Policies.TakenNonnegative | src/simulation/Policies.ts:25-28 | requisition never takes a negative amount |
| Policies.PrivateIndices | src/simulation/Policies.ts:46 | the filter of private farms, as increasing positions in the list |
| Policies.ConvertCountValue | src/simulation/Policies.ts:47 | `Math.ceil(n·0.01)` is ⌈n/100⌉ and never more than n |
| Policies.ConvertFirstCount | src/simulation/Policies.ts:48-55 | converting the private farms of rank below k leaves n − min(k, n) private farms |
| Policies.ConvertStep | src/simulation/Policies.ts:48-55 | each turn of the conversion loop converts exactly the next private farm, with its own occupants' mean skill |
| Policies.PolicyKeepsRiskInUnit | src/simulation/Policies.ts:13-79 | every policy keeps each farm's famine risk in [0,1] |
| Policies.PolicyFrame | src/simulation/Policies.ts:6-80 | no policy changes the number or order of farms and persons, a farm's id, position, land or history, or any person field except morale |
| Policies.BaselineLeavesCollectiveAlone | src/simulation/Policies.ts:6-11 | baseline growth multiplies a private farm's productivity by 1.00005 and leaves a collective farm as it is |
| Policies.QuotaCapsRisk | src/simulation/Policies.ts:60-69 | on a collective farm quota pressure multiplies the modifier by 1.05 and sets risk to min(0.5, r+0.0005), lowering a higher risk to 0.5 |
| Policies.CollectivizeOutcome | src/simulation/Policies.ts:42-59 | from 1929 on, the first ⌈n/100⌉ private farms are converted and counted; everyone's morale drops by 0.0015 in any year |
| Policies.ApplyBaselineAgrarian | src/simulation/Policies.ts:6-11 | the farms' new values are the baseline map of their old values |
| Policies.ApplyDisruption | src/simulation/Policies.ts:13-20 | every modifier × 0.9, risk min(1, r+0.0002), every morale −0.001 with no clamp |
| Policies.ApplyEarlyRequisition | src/simulation/Policies.ts:22-31 | each farm with grain gives up 2%, and the amount returned is exactly the total taken |
| Policies.ApplyNepIncentives | src/simulation/Policies.ts:33-41 | every modifier × 1.08, risk × 0.95, every morale +0.002 |
| Policies.AddMoraleToAll | src/simulation/Policies.ts:13-58 | `sim.persons.forEach(p => p.morale += delta)`: every person's morale moves by delta and nothing else changes |
| Policies.RequisitionAt | src/simulation/Policies.ts:25-29 | one turn of the requisition loop: farm i gives up its share, the earlier farms stay requisitioned, the later ones untouched, and the total grows by that share |
| Policies.ConvertAt | src/simulation/Policies.ts:53 | `convertToCollective` on one farm of the list leaves every other farm as it was |
| Policies.ConvertNext | src/simulation/Policies.ts:48-54 | one turn of the conversion loop: the farm of rank i among the private ones is converted with its occupants' mean skill |
| Policies.ConvertPrivateFarms | src/simulation/Policies.ts:45-55 | the loop converts the first ⌈n/100⌉ private farms in list order, and returns that count |
| Policies.ApplyCollectivize | src/simulation/Policies.ts:42-59 | the conversion for the given year, the count of farms converted, and the morale drop |
| Policies.ApplyQuotaPressure | src/simulation/Policies.ts:60-69 | the farms' new values are the quota map of their old values |
| Policies.ApplyMechanizationPush | src/simulation/Policies.ts:70-80 | collective farms only: mechanization +0.0003, productivity × 1.0001, risk × 0.995 |
| Policies.ApplyFarmPolicy | src/simulation/Policies.ts:6-80 | the four policies that touch only farms: the farms' new values and the grain taken are that policy's effect |
| Policies.ApplyDaily | src/simulation/Policies.ts:3-81 | `applyDaily` of a registered policy: the new lists and counter increments are that policy's effect |
| Simulations.PidStep | src/simulation/Simulation.ts:41-42 | an id that is not an own key of the registry is skipped; lengths are kept |
| Simulations.RunPoliciesProperties | src/simulation/Simulation.ts:40-43 | the policy phase, run in listed order, keeps the policy frame and risk in [0,1], and only adds to the two counters |
| Simulations.TotalIsLatestYields | src/simulation/Simulation.ts:45-51 | the running total equals the sum of the yields the farms have just recorded |
| Simulations.FindFarm | src/simulation/Simulation.ts:56 | `farms.find` by id: the first farm with that id, or −1 |
| Simulations.RiskForInUnit | src/simulation/Simulation.ts:56-57 | the risk a person sees is in [0,1], and is 0 when the person has no farm or when no farm in the list has the person's farm id |
| Simulations.RecountIsCount | src/simulation/Simulation.ts:55-59 | because displacement is one-way, the count recomputed on each displacement is the true count of the list as it then stands |
| Simulations.PersonPhaseCount | src/simulation/Simulation.ts:55-59 | starting from an exact displaced count, the person phase ends with an exact count |
| Simulations.TickSpec | src/simulation/Simulation.ts:38-64 | `dailyTick` on the lists' values keeps the number of farms, persons and households |
| Simulations.TickFrame | src/simulation/Simulation.ts:38-64 | a tick keeps the list lengths, each farm's id and land, and each household's members; the livestock estimate is 0.05·Σ land |
| Simulations.TickMonotone | src/simulation/Simulation.ts:38-64 | a tick keeps person ids, never clears a displaced flag, and never lowers the requisition or collectivization counters |
| Simulations.TickPersonsInUnit | src/simulation/Simulation.ts:55-62 | after a tick every health and morale is in [0,1], and so is the mean morale |
| Simulations.TickFoodNonnegative | src/simulation/Simulation.ts:54 | after a tick no household's food is negative |
| Simulations.TickKeepsFarmBounds | src/simulation/Simulation.ts:38-52 | a tick keeps every famine risk in [0,1] and every yield history within 365 |
| Simulations.TickGrainTotal | src/simulation/Simulation.ts:45-61 | `totalGrainToday` is the sum of that tick's realized farm yields |
| Simulations.TickDisplacedCount | src/simulation/Simulation.ts:55-59 | an exact `displacedCount` before a tick is exact after it |
| Simulations.ResetFarms | src/simulation/Simulation.ts:39 | every farm is reset, and the persons and households are left alone |
| Simulations.ApplyPolicyId | src/simulation/Simulation.ts:41-42 | one id of the era: looked up in the registry and applied when registered, skipped otherwise |
| Simulations.PolicyStage | src/simulation/Simulation.ts:39-43 | the reset and policy phases on the lists in place; the households are untouched |
| Simulations.ApplyPolicies | src/simulation/Simulation.ts:40-43 | the era's ids are applied in order, as `RunPolicies` specifies |
| Simulations.HarvestFarms | src/simulation/Simulation.ts:45-52 | each farm records the yield from its non-displaced persons' labour and morale; the returned total is their sum |
| Simulations.Harvest | src/simulation/Simulation.ts:45-52 | farm k's new value is its yield step with its own non-displaced occupants, for every k |
| Simulations.HarvestOne | src/simulation/Simulation.ts:46-51 | one turn of the yield loop: farm i records its yield, the others are untouched, and the total grows by that yield |
| Simulations.ConsumeAll | src/simulation/Simulation.ts:54 | every household consumes its day's food |
| Simulations.UpdatePersons | src/simulation/Simulation.ts:55-59 | each person is updated with its farm's risk, and the count is recomputed on each displacement |
| Simulations.UpdatedPersons | src/simulation/Simulation.ts:55-58 | person k's new value is its daily update with the risk of its own farm, for every k |
| Simulations.UpdateOne | src/simulation/Simulation.ts:55-59 | one turn of the person loop: person i updated, and the count recounted over the whole list when it is now displaced |
| Simulations.UpdateEach | src/simulation/Simulation.ts:55-59 | the whole person loop: every person updated in list order, with the count the recounts give |
| Simulations.ProductionStage | src/simulation/Simulation.ts:45-63 | the harvest, consumption, person and metric phases on the lists in place, as `TickFrom` specifies |
| Simulations.TickFromFrame | src/simulation/Simulation.ts:45-63 | the production phases keep list lengths, farm ids and land, household members, and set the livestock estimate to 0.05·Σ land |
| Simulations.Tick | src/simulation/Simulation.ts:38-64 | the phases in order on the lists in place; the new values and metrics are the tick's specification |
| Simulations.Simulation.constructor | src/simulation/Simulation.ts:17-29 | empty lists, zero metrics, and `time` unset |
| Simulations.Simulation.Init | src/simulation/Simulation.ts:31-36 | the three lists are replaced; `time` is set only when one is passed; the metrics are kept |
| Simulations.Simulation.SetMetrics | src/simulation/Simulation.ts:61-63 | the metrics are replaced and every entity is left as it is |
| Simulations.Simulation.DailyTick | src/simulation/Simulation.ts:38-64 | the simulation's new value is `TickSpec` of its old value for the era's policies, the year and the draws |
| Simulations.Simulation.CollectivizeYearAsWritten | src/simulation/Policies.ts:44 | reading the year through `sim.time` throws exactly when `time` was never set |
| InitialEntities.FarmIndex | src/simulation/initialEntities.ts:20 | `Math.floor(r·24)` of a draw in [0,1) is a valid farm index |
| InitialEntities.CreateFarms | src/simulation/initialEntities.ts:6-14 | one new farm per draw, with consecutive ids, each holding the builder's arguments |
| InitialEntities.JoinHousehold | src/simulation/initialEntities.ts:22-28 | a person joins the last household, or a new one when the last is full; it returns household n/5 |
| InitialEntities.HouseholdStep | src/simulation/initialEntities.ts:22-27 | a new household is opened exactly when the number placed so far is a multiple of five |
| InitialEntities.PlacePerson | src/simulation/initialEntities.ts:19-29 | one pass of the person loop: a new default person on the drawn farm, in its household |
| InitialEntities.NewPersonOnFarm | src/simulation/initialEntities.ts:19-21 | a fresh default person whose `farmId` is the id of the drawn farm |
| InitialEntities.CreatePersons | src/simulation/initialEntities.ts:16-30 | 150 new persons, each on a drawn farm, dealt five at a time into new households |
| InitialEntities.CreateInitialEntities | src/simulation/initialEntities.ts:5-33 | three lists of new, distinct objects (every farm, person and household is fresh), holding the farms, persons and households the draws determine |
| InitialEntities.InitialFarmsProperties | src/simulation/initialEntities.ts:7-14 | every starting farm is private, has an empty history and default grain, mechanization and risk; draws give land in [60,210) and a position in [−700,700)×[−500,500) |
| InitialEntities.InitialPersonsProperties | src/simulation/initialEntities.ts:18-28 | every starting person works on one of the starting farms, is not displaced, has health 1, and belongs to household k/5 |
| InitialEntities.HouseholdSizes | src/simulation/initialEntities.ts:22-27 | after any number of placements every household has between one and five members |
| InitialEntities.ThirtyHouseholdsOfFive | src/simulation/initialEntities.ts:18-27 | 150 persons make exactly 30 households of exactly five |
| InitialEntities.OneHouseholdEach | src/simulation/initialEntities.ts:27-28 | person k is in household k/5, whose id its `householdId` holds, and in no other |
| Common.Lerp | src/LevelManager.ts:74-76 | `lerp(a, b, t)` is a at t = 0 and b at t = 1 |
| Common.LerpBetween | src/LevelManager.ts:74-76 | for t in [0,1] the interpolated value lies between the two ends |
| Common.SumCons | src/simulation/entities/Farm.ts:52-55 | the left-fold sum also peels its first element: Sum([a] + s) = a + Sum(s) |
| LevelManagement.FindLevel | src/LevelManager.ts:40 | `findIndex` by id: the first level with that id, or −1 |
| LevelManagement.Request | src/LevelManager.ts:36-45 | a request is accepted exactly when 0 ≤ idx < length and idx ≠ target; it then sets the target and zeroes progress; the current index is kept and coherence is preserved |
| LevelManagement.Advance | src/LevelManager.ts:47-55 | a finished transition is left alone; otherwise progress grows by 4·delta and commits the target at 1 |
| LevelManagement.AdvanceCoherent | src/LevelManager.ts:50-53 | a step keeps both indices valid and progress ≤ 1, and progress 1 means current = target |
| LevelManagement.AdvanceMonotone | src/LevelManager.ts:47-55 | for delta ≥ 0 progress stays in [0,1] and never decreases |
| LevelManagement.Ease | src/LevelManager.ts:77-79 | the ease is ≤ 0 for t ≤ 0 and ≥ 1 for t ≥ 1 |
| LevelManagement.EaseFixedPoints | src/LevelManager.ts:77-79 | the ease takes 0 at 0, 0.5 at 0.5 and 1 at 1 |
| LevelManagement.EaseInUnit | src/LevelManager.ts:77-79 | the ease maps [0,1] into [0,1] |
| LevelManagement.EaseMonotone | src/LevelManager.ts:77-79 | the ease is monotone on [0,1] |
| LevelManagement.EaseBelowHalf | src/LevelManager.ts:77-79 | eased progress is below 0.5 exactly when progress is |
| LevelManagement.EaseSymmetric | src/LevelManager.ts:77-79 | ease(1 − t) = 1 − ease(t) |
| LevelManagement.Scale | src/LevelManager.ts:57-63 | the interpolated scale is the target's once progress reaches 1, and the current level's at progress 0 |
| LevelManagement.ScaleBetween | src/LevelManager.ts:57-63 | the interpolated scale is the current scale at progress 0 and exactly the target's at progress ≥ 1; in between it lies between the two |
| LevelManagement.Name | src/LevelManager.ts:65-71 | the label is the target name once progress reaches 1, and "current → target" at progress 0 |
| LevelManagement.NameShowsTarget | src/LevelManager.ts:65-71 | the label is the bare target name exactly when progress ≥ 0.5, and "current → target" before that |
| LevelManagement.LevelManager.constructor | src/LevelManager.ts:14-27 | six levels, current = target = 0, progress 1, ease speed 4 |
| LevelManagement.LevelManager.TargetLevel | src/LevelManager.ts:32-34 | the target level is the table's entry at the target index |
| LevelManagement.LevelManager.InterpolatedScale | src/LevelManager.ts:57-63 | `getInterpolatedScale()` is the target's scale once finished and, for nonnegative progress, lies between the current and target scales |
| LevelManagement.LevelManager.InterpolatedName | src/LevelManager.ts:65-71 | `getInterpolatedName()` is the bare target name exactly when progress ≥ 0.5, and "current → target" before that |
| LevelManagement.LevelManager.RequestLevel | src/LevelManager.ts:36-45 | the new state is `Request` with the index resolved from the number or the id |
| LevelManagement.LevelManager.Step | src/LevelManager.ts:47-55 | the new state is `Advance` of the old one, and it stays coherent |
| Cameras.PixelRatio | src/hooks/useCamera.ts:25-29 | screen pixels per world unit are positive for a positive level scale, zoom and width; `Pan` and `screenToWorld` then never divide by zero |
| Cameras.WorldToScreen | src/hooks/useCamera.ts:65-73 | the camera position is drawn at the viewport centre, coordinate by coordinate |
| Cameras.ScreenToWorld | src/hooks/useCamera.ts:75-83 | the viewport centre maps back to the camera position, coordinate by coordinate |
| Cameras.Step | src/hooks/useCamera.ts:31-37 | the target and zoom are kept; the target is reached exactly when dt·8 ≥ 1; dt = 0 changes nothing |
| Cameras.StepNoOvershoot | src/hooks/useCamera.ts:31-37 | for dt ≥ 0 each coordinate lands between its old position and its target |
| Cameras.Center | src/hooks/useCamera.ts:39-41 | the target becomes (0,0); position and zoom are kept |
| Cameras.Pan | src/hooks/useCamera.ts:25-53 | only the target moves, by −(dx, dy) divided by levelScale·zoom·width/5000 |
| Cameras.PanUndone | src/hooks/useCamera.ts:43-53 | a drag and the opposite drag restore the camera |
| Cameras.ApplyWheel | src/hooks/useCamera.ts:55-63 | the zoom is always in [0.5, 2.5]; within the band it is the old zoom × (0.9 if deltaY > 0 else 1.1); nothing else changes |
| Cameras.WheelDirection | src/hooks/useCamera.ts:57 | scrolling down never zooms in, and scrolling up or zero never zooms out |
| Cameras.CameraAtViewportCentre | src/hooks/useCamera.ts:65-73 | the camera's position is drawn at the centre of the viewport |
| Cameras.WorldScreenWorld | src/hooks/useCamera.ts:65-83 | `screenToWorld(worldToScreen(p)) = p` whenever the ratio is nonzero |
| Cameras.ScreenWorldScreen | src/hooks/useCamera.ts:65-83 | `worldToScreen(screenToWorld(s)) = s` whenever the ratio is nonzero |
| ComponentStage.KeyActionOf | src/components/WorldStage.tsx:89-101 | the selection is cleared exactly for Escape; z, Z, x and X always act |
| ComponentStage.KeyRequestsInRange | src/components/WorldStage.tsx:89-101 | keys '1'..'6' request index key−1; every request a one-character key makes is a valid index |
| ComponentStage.LongKeyNonnegative | src/components/WorldStage.tsx:90-91 | a longer key in the string range "1".."6" requests its leading number − 1, which is never negative |
| ComponentStage.OnKey | src/components/WorldStage.tsx:89-101 | the keys request '1'..'6' → key−1, 'z' → max(0, target−1) and 'x' → min(len−1, target+1); Escape clears the selection |
| ComponentStage.PickUnique | src/components/WorldStage.tsx:371-379 | at most one entity is the pick |
| ComponentStage.PickIsNearest | src/components/WorldStage.tsx:371-379 | the pick is as near as any entity of the list |
| ComponentStage.PickEntity | src/components/WorldStage.tsx:344-381 | none exactly when no entity of the level lies within 25; otherwise the nearest such entity, with ties going to the first |
| ComponentStage.PickOnEntity | src/components/WorldStage.tsx:344-381 | clicking on the only entity of a level picks it |
| SimStores.InitialViewValid | src/store/simStore.ts:38-44 | the initial view is at 'house', playing, not fast, with the camera at 0 and zoom 1, inside the zoom band |
| SimStores.SetLevel | src/store/simStore.ts:58-63 | an id outside the sequence changes nothing; otherwise target and current both become the id; nothing else changes |
| SimStores.CenterCamera | src/store/simStore.ts:67-68 | only targetX and targetY change, to 0 |
| SimStores.NudgeCamera | src/store/simStore.ts:70-80 | the target moves by −(dx, dy)/userZoom with no level scale; nothing else changes |
| SimStores.AdjustZoom | src/store/simStore.ts:82-88 | the zoom is always in [0.3, 4]: the product inside the band, the nearer bound outside it; nothing else changes |
| SimStores.TogglePlay | src/store/simStore.ts:90 | flips `playing` and nothing else |
| SimStores.ToggleFast | src/store/simStore.ts:92 | flips `fastForward` and nothing else |
| SimStores.TogglesInvolutive | src/store/simStore.ts:90-92 | either toggle applied twice is the identity |
| SimStores.ActionsKeepViewValid | src/store/simStore.ts:58-92 | every view action keeps target = current level and the zoom in the band |
| SimStores.SimStore.constructor | src/store/simStore.ts:34-44 | a fresh clock on day 0 in era 0, an empty simulation with no clock, not initialized, the initial view |
| SimStores.SimStore.Initialize | src/store/simStore.ts:46-52 | a second call changes nothing; the first hands the builder's lists to the simulation without a clock |
| SimStores.Populate | src/store/simStore.ts:48-50 | `sim.init(createInitialEntities())`: the simulation holds the starting lists, with its clock and metrics unchanged |
| SimStores.SimStore.SetCamera | src/pixi/WorldStage.tsx:62 | `setState({ camera })` replaces the camera and nothing else |
| SimStores.SimStore.AdvanceDay | src/store/simStore.ts:94-98 | the date steps first; the tick then runs with the era of the new date, and the year of that date |
| SimStores.StepClock | src/store/simStore.ts:96 | the clock's step leaves the simulation's values unchanged |
| SimStores.TickInEra | src/store/simStore.ts:97 | the simulation's tick in a given era; the clock is untouched |
| SimStores.InitializedStoreCollectivizeAsWritten | src/store/simStore.ts:46-52 | once the store is initialized, the collectivization policy's read of `sim.time` throws |
| PixiStage.Accumulate | src/pixi/WorldStage.tsx:41-50 | paused, nothing changes; playing, the accumulator grows by delta·(10 if fast else 1); a day runs exactly when that reaches 0.6, and the accumulator is then reset to 0 |
| PixiStage.AccumulateBounds | src/pixi/WorldStage.tsx:43-50 | the accumulator stays below 0.6, and with delta ≥ 0 it stays nonnegative |
| PixiStage.FastForwardRunsSooner | src/pixi/WorldStage.tsx:44 | from a reset accumulator, a frame of 0.06 s or more completes a day under fast-forward, while one under 0.6 s at normal speed does not |
| PixiStage.SmoothCamera | src/pixi/WorldStage.tsx:52-61 | the target and zoom are kept; the target is reached when 4·delta ≥ 1; delta 0 changes nothing |
| PixiStage.SmoothNoOvershoot | src/pixi/WorldStage.tsx:55-61 | for delta ≥ 0 the smoothed position lies between the old position and the target |
| PixiStage.WorldStage.constructor | src/pixi/WorldStage.tsx:34 | the accumulator starts at 0 |
| PixiStage.WorldStage.Tally | src/pixi/WorldStage.tsx:41-46 | the accumulator and the day decision are those of `Accumulate` |
| PixiStage.WorldStage.Frame | src/pixi/WorldStage.tsx:37-65 | at most one day per frame, as `Accumulate` decides: when it runs, the date steps and the simulation ticks in the new era; otherwise date and simulation are unchanged; the camera is smoothed; the `initialized` flag is kept |
| PixiStage.StoreFrame | src/pixi/WorldStage.tsx:45-62 | the store's part of a frame: the day when one is due, then the smoothed camera; the `initialized` flag is kept |
| PixiStage.DayIf | src/pixi/WorldStage.tsx:45-49 | a due day steps the date and ticks the simulation; otherwise both are unchanged |
| PixiStage.SmoothStoreCamera | src/pixi/WorldStage.tsx:52-62 | the store's camera becomes the smoothed camera; clock, simulation and the `initialized` flag are untouched |
| PixiStage.StageScalePositive | src/pixi/WorldStage.tsx:117 | in a valid view the stage scale `LEVELS[currentLevel].scale × userZoom` is positive |
| PixiStage.ClickToWorld | src/pixi/WorldStage.tsx:135-136 | a click at the viewport centre lands on the camera position |
| PixiStage.ClickRoundTrip | src/pixi/WorldStage.tsx:117-136 | drawing the world point of a click lands exactly on the click |
| PixiStage.DrawnPointRoundTrip | src/pixi/WorldStage.tsx:117-136 | the click conversion of a drawn point gives the point back |
| PixiStage.FirstFarmWithin | src/pixi/WorldStage.tsx:139-143 | the first farm in list order within 30, not the nearest; −1 when none is |
| PixiStage.FirstPersonNear | src/pixi/WorldStage.tsx:153-159 | the first person whose own farm exists and lies within 18; −1 when none does |
| PixiStage.StageClick | src/pixi/WorldStage.tsx:129-166 | a farm within 30 is selected and becomes the camera target; with no selection the camera is kept |
| PixiStage.NoPersonSelection | src/pixi/WorldStage.tsx:138-165 | no click selects a person: a farm within 18 is also within 30, so the farm branch answers first |
| PixiStage.NothingWithoutNearbyFarm | src/pixi/WorldStage.tsx:138-165 | with no farm within 30 the click clears the selection and keeps the camera |
| PixiStage.Clamp01 | src/pixi/WorldStage.tsx:206 | the value is clamped into [0,1], and one already in range is kept |
| PixiStage.RawOverlay | src/pixi/WorldStage.tsx:195-205 | there is a reading exactly when an overlay is shown; the grain reading of a farm with no history is 0 |
| PixiStage.OverlayValue | src/pixi/WorldStage.tsx:195-206 | no heat without an overlay; otherwise a value in [0,1] which equals the raw grain, morale or risk reading when that is already in range |
| PixiStage.OverlayUnclamped | src/pixi/WorldStage.tsx:199-205 | under the simulation's invariants the morale and famine overlays need no clamping |

## Left out

- Rendering and markup: the Pixi graphics, React components, panels and HUDs. They only display state.
- Event wiring: listeners, resize handling and `requestAnimationFrame` scheduling. Frame deltas and key, wheel and click inputs are parameters.
- The zustand and React state machinery. The store is a class with the view as a record; the camera hook is a record with functions.
- The JavaScript `Date`. Dates are day numbers, and `getFullYear` is the Gregorian year in module `Calendar`. Time zones and daylight saving are not modelled.
- IEEE-754 behaviour. Numbers are `real`.
- `Math.random()`. Each draw is a parameter in [0,1).
- Display names and the `F`/`P`/`H` id prefixes. Ids are `nat`, taken from first-id arguments in place of the module counters.
- `setOverlay` and `setSelection` in `src/store/simStore.ts:54,65`. Each only stores its argument.
- In `src/pixi/WorldStage.tsx`:
  - the level-sync effect at lines 26-29;
  - the wheel, key and drag handlers at lines 75-114;
  - the per-farm `pointertap` handler at lines 177-182, which does what the farm branch of `StageClick` does.
- `handleStageClick` in `src/components/WorldStage.tsx:108-114`. It composes `Cameras.ScreenToWorld` with `ComponentStage.PickEntity`.
- The React `camera` the pixi click handler closes over. It is stale until the next render. `StageClick` takes the camera it is given.
- Cameras.Pan: requires a nonzero pixel ratio. With a zero ratio the source divides by zero and stores an infinite or NaN target.
- Cameras.ScreenToWorld: requires a nonzero ratio, for the same reason.
- SimStores.NudgeCamera: requires a nonzero zoom. The store's zoom band guarantees that.
- Policies.Lookup: models `Policies` as a map of its seven own keys. In the source it is a plain object, so an id naming an inherited member such as "toString" or "constructor" finds a truthy value and `applyDaily` then throws. No era lists such an id (`EraPoliciesRegistered`), so the program never reaches that case.
- Simulations.PidStep: skips every id that is not an own key. For an inherited member name the source throws instead, as the line above says.
- ComponentStage.KeyRequestsInRange: is stated for one-character keys, which are what the digit bindings produce. For longer keys in the range, `LongKeyNonnegative` shows the request is never negative. Such a request may still be out of range, and `RequestLevel` then ignores it.

## Findings

| source | as written | input that shows it | evidently intended | confidence | as-written member | corrected member |
|---|---|---|---|---|---|---|
| src/simulation/Policies.ts:44 | `collectivize` reads `sim.time.currentDate.getFullYear()`. `Simulation.init` sets `time` only when one is passed (src/simulation/Simulation.ts:35). `initialize` never passes one (src/store/simStore.ts:48-50, src/simulation/initialEntities.ts:32). | initialize the store, then tick in the collectivization era: `sim.time` is undefined, so the read throws | the policy tests the year of the store's clock, which is what `advanceDay` just stepped | not executed | SimStores.InitializedStoreCollectivizeAsWritten | SimStores.SimStore.AdvanceDay |

The as-written half:

- `Simulations.Simulation.CollectivizeYearAsWritten` models the read through `sim.time`. It throws exactly when `time` is unset.
- `SimStores.InitializedStoreCollectivizeAsWritten` proves that an initialized store leaves it unset.

The corrected model passes the year explicitly:

- `Policies.ApplyCollectivize` and `Simulations.Simulation.DailyTick` take it as a parameter.
- `SimStores.SimStore.AdvanceDay` supplies the year of the clock's new date.
- With that year, `Calendar.From1929` shows the policy's test switches on at 1929-01-01 (day 8766).
