# simpleserver in Dafny

A model of the executable parts of `simpleserver/Program.cs`, a one-file C#
language tour, with proofs of what its code and comments promise:

- **Generics** (`generics.dfy`): `SetDefault`, which gives an `IDictionary`
  Python's `setdefault` behaviour, and the phone book calls that use it.
- **Iterators** (`iterators.dfy`): `YieldCounter`, `ManyYieldCounter` and
  `YieldCounterWithBreak`, each modelled by the sequence one full enumeration
  yields. The two counting iterators are methods whose `for` loop is a
  `while` loop with invariants.
- **Delegates and events** (`delegates.dfy`): the static counter behind
  `DelegateTest.Increment`, delegates composed with `+`, the event `MyEvent`,
  and the printed values 1, 4 and 6 of `NotMain`.
- **Bicycles** (`bikes.dfy`):
  - `Bicycle`, `PennyFarthing` and `MountainBike` are one Dafny class. A
    constant `runtimeClass` records which class the object was created as.
  - The virtual members dispatch on `runtimeClass`. This is the `Gear`
    property, whose PennyFarthing override reads 0 and ignores writes, and
    `Info`. Dispatch happens even inside the base constructor, as in C#.
  - The static `BicyclesCreated` is a field of a `BicycleStatics` object that
    the counting constructors update.
  - Also modelled: the constructors and their chaining, `SpeedUp` and
    `SlowDown`, the passenger indexer over an `array`, `Info`, `LongName`,
    the `BikeBrand` and `BikeAccessories` enums, and `MountainBike.Jump` and
    `Broken`.
- **Queries** (`queries.dfy`): `List.Sort` with the brand comparison, the
  chained `Where`/`Select` query, and the anonymous-type summaries.
  - The list of bikes is a sequence of value snapshots (`BikeView`) of the
    bikes.
  - The demonstration builds three bikes with the three-argument constructor
    and proves the sorted order BMC, Electra, Gitane.
  - It also proves that the query returns `["simpleserver.Bicycle"]` and
    that no bike is awesome.
- **Numbers** (`numbers.dfy`): C# `int` is `int32`, with the silent
  two's-complement wrap-around of `+=`, `-=` and `++` written out (`Wrap`).
  The file also models C#'s truncating `/` and `int.ToString()`. That text
  form is proved to read back to the same integer, so the `Info` and
  `LongName` texts can be read back into the fields they report.

Two places where the program's comments and its code disagree; the model
follows the code:

- The comment beside `PennyFarthing.CreateWithGears(6)` says the call throws.
  The `throw` inside the `Gear` setter is commented out, so the setter does
  nothing and `CreateWithGears` returns an ordinary penny-farthing with gear 0
  (`Bikes.Bicycle.CreateWithGears`).
- The comment above `YieldCounterWithBreak` says it returns "half of the
  values from 0 to limit". For a positive limit it yields `0 .. limit / 2`,
  which is `limit / 2 + 1` values (`Iterators.BreakYieldsLowerHalf`).

## Model

| member | source | states |
|---|---|---|
| Numbers.Wrap | simpleserver/Program.cs:519-527 | C# `int` arithmetic: the result equals the exact value when that fits in 32 bits, and always differs from it by a multiple of 2^32 |
| Numbers.HalfTruncated | simpleserver/Program.cs:144 | `limit / 2` rounds toward zero: for a ≥ 0, 2h ≤ a < 2h + 2; for a < 0, 2h - 2 < a ≤ 2h ≤ 0 |
| Numbers.IntToString | simpleserver/Program.cs:576-578 | `int.ToString()` is nonempty, has no space, and starts with '-' exactly for negative numbers |
| Numbers.IntToStringRoundTrip | simpleserver/Program.cs:576-578 | reading the decimal text of an integer gives back that integer |
| Numbers.IntToStringInjective | simpleserver/Program.cs:576-578 | different integers have different decimal texts |
| Generics.SetDefaultOnMap | simpleserver/Program.cs:84-93 | afterwards the key is present, every old entry is unchanged, and the answer is what is stored under the key; a missing key is answered with the default |
| Generics.SetDefaultPresent | simpleserver/Program.cs:90-92 | a present key leaves the dictionary unchanged and answers its stored value |
| Generics.SetDefaultAbsent | simpleserver/Program.cs:90-91 | a missing key adds exactly key ↦ default and answers the default |
| Generics.SetDefaultIdempotent | simpleserver/Program.cs:84-93 | a second SetDefault on the same key, with any default, changes nothing and answers the same |
| Generics.Dictionary.constructor | simpleserver/Program.cs:183-185 | the dictionary holds exactly the initial entries |
| Generics.Dictionary.TryGetValue | simpleserver/Program.cs:90 | finds a value exactly when the key is present, and that value is the stored one |
| Generics.Dictionary.SetItem | simpleserver/Program.cs:91 | the indexer setter adds or replaces exactly one entry |
| Generics.SetDefault | simpleserver/Program.cs:84-93 | the in-place method has exactly the effect and answer that SetDefaultOnMap describes |
| Generics.PhonebookDemo | simpleserver/Program.cs:183-191 | the two calls print "No Phone" and then "212 555 5555" |
| Iterators.Naturals | simpleserver/Program.cs:114-120 | the sequence 0, 1, …, n-1 in increasing order; empty for n ≤ 0 |
| Iterators.NaturalsPrefix | simpleserver/Program.cs:114-120 | counting to a smaller limit yields a prefix of counting to a larger one |
| Iterators.YieldCounter | simpleserver/Program.cs:114-120 | yields exactly 0 .. limit-1 in order, and nothing for limit ≤ 0; default limit 10 |
| Iterators.ManyYieldCounter | simpleserver/Program.cs:130-136 | the four yield statements produce what YieldCounter(4) produces |
| Iterators.YieldCounterWithBreak | simpleserver/Program.cs:140-147 | yields exactly 0 .. min(limit-1, limit/2) in order, stopping at the first i above limit / 2 |
| Iterators.BreakYieldsLowerHalf | simpleserver/Program.cs:138-147 | for a positive limit it yields limit/2 + 1 values, nothing for limit ≤ 0, and always a prefix of YieldCounter(limit) |
| Iterators.BreakWithDefaultLimit | simpleserver/Program.cs:140-147 | with the default limit 10 it yields 0, 1, 2, 3, 4, 5 |
| Delegates.Combine | simpleserver/Program.cs:374-377 | `+` on delegates concatenates invocation lists, and a null operand is the identity |
| Delegates.CombineAssociative | simpleserver/Program.cs:375-377 | a chain of `+=` is one flat invocation list whatever the grouping |
| Delegates.DelegateTest.constructor | simpleserver/Program.cs:350-365 | at start count is 0 and MyEvent has no subscriber |
| Delegates.DelegateTest.Increment | simpleserver/Program.cs:351-355 | `++count` raises the counter by one, with int wrap-around, and returns the new value |
| Delegates.DelegateTest.Invoke | simpleserver/Program.cs:371-380 | invoking a delegate of k copies of Increment raises count by k and returns the last call's result; a null delegate returns nothing and changes nothing |
| Delegates.DelegateTest.Subscribe | simpleserver/Program.cs:384-385 | `MyEvent +=` appends the delegate to the event's invocation list |
| Delegates.DelegateTest.RaiseMyEvent | simpleserver/Program.cs:387-389 | raising the event runs every subscriber once, in order |
| Delegates.DelegateTest.NotMain | simpleserver/Program.cs:367-390 | from the initial state, the three printed results are 1, 4 and 6 |
| Bikes.BrandOf | simpleserver/Program.cs:440-446 | maps an integer back to the brand with that underlying value, when there is one |
| Bikes.BrandValues | simpleserver/Program.cs:440-446 | AIST=0, BMC=1, Electra=42, Gitane=43: distinct values, increasing in declaration order |
| Bikes.FullPackageIsEveryAccessory | simpleserver/Program.cs:456-468 | FullPackage is 15, and HasFlag(FullPackage) holds exactly when all four single accessories are set |
| Bikes.BaseInfoRoundTrip | simpleserver/Program.cs:574-583 | Bicycle.Info() reports exactly Gear, Cadence, speed, Name and the cards flag, and they can be read back from it |
| Bikes.PennyFarthingInfoFixed | simpleserver/Program.cs:626-631 | PennyFarthing.Info() is "PennyFarthing bicycle simpleserver.PennyFarthing" for every penny-farthing, which is not a Bicycle.Info() text |
| Bikes.LongNameRoundTrip | simpleserver/Program.cs:434 | LongName reports exactly the Name and the speed |
| Bikes.BicycleStatics.constructor | simpleserver/Program.cs:474 | BicyclesCreated starts at 0 |
| Bikes.Bicycle.Gear | simpleserver/Program.cs:607-612 | a PennyFarthing's Gear always reads 0 |
| Bikes.Bicycle.SetGear | simpleserver/Program.cs:613-617 | assigning Gear sets it, except on a PennyFarthing, where it silently changes nothing |
| Bikes.Bicycle.constructor | simpleserver/Program.cs:482-490 | Bicycle() gives Gear 1, Cadence 50, speed 5, "Bontrager", AIST and no cards, plus the four initial passengers, and raises BicyclesCreated by one |
| Bikes.Bicycle.MountainBike | simpleserver/Program.cs:647-649 | a new MountainBike is a default bike with no damage, and is counted in BicyclesCreated |
| Bikes.Bicycle.Specified | simpleserver/Program.cs:493-503 | the six-argument constructor sets exactly the given values and, chaining to object's constructor, does not touch BicyclesCreated |
| Bikes.Bicycle.WithBrand | simpleserver/Program.cs:506-509 | the three-argument constructor is the six-argument one with gear 0, "big wheels" and cards in the spokes |
| Bikes.Bicycle.PennyFarthing | simpleserver/Program.cs:602-605 | a new penny-farthing has gear 0 (the base constructor's Gear assignment goes to the override), "PennyFarthing", Electra and cards in the spokes |
| Bikes.Bicycle.CreateWithGears | simpleserver/Program.cs:619-624 | returns a penny-farthing(1, 1) whose Gear is 0 whatever gear was requested, without throwing |
| Bikes.Bicycle.SpeedUp | simpleserver/Program.cs:519-522 | adds the increment (default 1) to the speed, with int wrap-around and no bounds check; nothing else changes |
| Bikes.Bicycle.SlowDown | simpleserver/Program.cs:524-527 | subtracts the decrement (default 1) from the speed, with int wrap-around and no bounds check; nothing else changes |
| Bikes.SlowDownUndoesSpeedUp | simpleserver/Program.cs:519-527 | SpeedUp(n) followed by SlowDown(n) restores the original speed, overflow included |
| Bikes.Bicycle.Passenger | simpleserver/Program.cs:560-565 | `this[i]` reads passenger slot i, and reads nothing for an index outside the array |
| Bikes.Bicycle.SetPassenger | simpleserver/Program.cs:567-570 | `this[i] = value` replaces slot i and no other; an index outside the array changes nothing |
| Bikes.Bicycle.Info | simpleserver/Program.cs:574-583 | the virtual Info(): from a Bicycle's text its Gear, Cadence, speed, Name and cards read back; a PennyFarthing gives the fixed text |
| Bikes.Bicycle.LongName | simpleserver/Program.cs:434 | the text reads back as the current Name and speed |
| Bikes.Bicycle.Jump | simpleserver/Program.cs:651-654 | adds the height to the damage, with int wrap-around, and the bike is Broken afterwards exactly when the new damage exceeds 100 |
| Bikes.Classes | simpleserver/Program.cs:29-45 | trek's Info reports gear 1, cadence 100, speed 8, "Bontrager" and no cards; funbike's is the fixed PennyFarthing text; one bicycle is counted |
| Queries.Where | simpleserver/Program.cs:282-283 | keeps only elements satisfying the filter, never more than the input |
| Queries.WhereCounts | simpleserver/Program.cs:282-283 | every element satisfying the filter keeps all its occurrences, and every other element is dropped |
| Queries.WhereAppend | simpleserver/Program.cs:282-283 | filtering keeps the list order |
| Queries.Select | simpleserver/Program.cs:284 | maps each element in place: same length, element i is f of input element i |
| Queries.InsertPermutes | simpleserver/Program.cs:279 | inserting adds exactly one occurrence of the element |
| Queries.InsertSorted | simpleserver/Program.cs:279 | inserting into a sorted list keeps it sorted |
| Queries.SortBy | simpleserver/Program.cs:279 | List.Sort with a key comparison returns a sorted permutation of the list |
| Queries.SortByBrand | simpleserver/Program.cs:279 | sorting by brand orders the bikes by the brands' underlying integers and is a permutation |
| Queries.SortedPermutationUnique | simpleserver/Program.cs:279 | with pairwise distinct keys the sorted order is unique, so the unstable sort is deterministic here |
| Queries.WhereWhere | simpleserver/Program.cs:281-283 | chained Where filters equal one filter by the conjunction |
| Queries.WhereSelect | simpleserver/Program.cs:294-297 | filtering the projected summaries equals projecting the filtered bikes |
| Queries.SelectCompose | simpleserver/Program.cs:294-298 | two Selects in a row equal one Select of the composition |
| Queries.PlainBmcNames | simpleserver/Program.cs:281-284 | the query gives the type names of the BMC bikes that are neither broken nor tassled, in list order |
| Queries.AwesomeNames | simpleserver/Program.cs:294-298 | the printed names are those of the unbroken tassled bikes, in list order |
| Queries.DemoOrdered | simpleserver/Program.cs:272-279 | BMC, Electra, Gitane is strictly increasing by brand value |
| Queries.SortedDemo | simpleserver/Program.cs:272-279 | any sorted permutation of the Electra, Gitane and BMC bikes is BMC, Electra, Gitane |
| Queries.QueriesDemo | simpleserver/Program.cs:272-298 | on the sorted demo list the BMC query gives "simpleserver.Bicycle" and no bike is awesome |
| Queries.BikeQueries | simpleserver/Program.cs:262-298 | the demonstration sorts to BMC, Electra, Gitane, finds one plain BMC bike, and prints no awesome name |

## Left out

- Console output (`Console.WriteLine`, the `Print` extension,
  `IterateAndPrint`, `PrintYieldCounterToConsole`, `Main`, partial class `A`,
  `Rectangle` and the string interpolation lines). These are I/O only; the
  printed values are the results of the modelled members.
- The `StreamWriter` log file: file I/O.
- `Parallel.ForEach` and the `AsParallel` query: their point is concurrency,
  and their output order is nondeterministic.
- `ExpandoObject` and `dynamic`: runtime dynamic dispatch, with no static model.
- `BikeRepository : DbContext`: a foreign Entity Framework class.
- The try/catch demonstration around `CreateWithGears` and the null string.
  It only shows exception syntax. What `CreateWithGears` does is modelled.
- `MethodSignatures`, the nullable-type lines and the `square` lambda. These
  are stubs and constants with nothing to verify.
- The code inside block comments: `GlassBall`, `MagicService`, tuples,
  pattern matching and ref locals are not compiled code.
- The list of bikes is a sequence of value snapshots. The model therefore
  does not capture that `List<Bicycle>` holds references that later writes
  through other aliases would show.
- `List.Sort` is unstable. The model uses one particular sort (insertion) and
  states only sortedness and permutation. The demonstration's result follows
  from uniqueness, because the three brands are distinct.
- C# `int.ToString()` is modelled as plain decimal digits with a leading '-'.
  Culture-specific formatting is not modelled.
- Exceptions become absent results:
  - an indexer access outside the passenger array gives `None` or `false`,
    not an `IndexOutOfRangeException`;
  - invoking a null delegate gives `None`, not a `NullReferenceException`.
- Null keys and null strings are not modelled; every name is a string.
- `IsBroken` has a private setter that nothing calls, so it is always false.
  `Wheels` and `FrameSize` likewise stay 0, and `Accessories` stays
  `BikeAccessories.None`. The model keeps them as fields that no member
  changes.
- Bikes.BicycleStatics.DidWeCreateEnoughBicycles: has no contract beyond its
  body (`BicyclesCreated > 9000`).
- Bikes.HasFlag: has no contract beyond its body. What it answers for
  FullPackage is stated by `Bikes.FullPackageIsEveryAccessory`.
- Bikes.Bicycle.ToString: `object.ToString()` is modelled as the full type
  name, with no contract beyond that.
