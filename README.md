# Coffee order builder, modelled in Dafny

The modelled repository is a small fluent builder for coffee orders. A
`CoffeeOrderBuilder` collects a drink's options. These are a base drink, a
size, a milk type, up to four distinct syrups, 0 to 5 teaspoons of sugar and
an iced flag. `build()` checks the two required fields, prices the drink from
fixed lookup tables and writes a human-readable description. It returns an
immutable `CoffeeOrder` snapshot.

The Dafny project follows the program's structure:

- `order.dfy` (module `Order`): the `CoffeeOrder` record and its `__str__`.
  It also holds `BuilderState`, the six builder fields as one value, with the
  builder invariant `ValidState`, the two limits, and the error values.
- `syrups.dfy` (module `Syrups`): the rule `add_syrup` applies (`WithSyrup`).
  `AddAll` replays a run of such calls on a fresh builder, and a lemma says
  what any such run yields.
- `pricing.dfy` (module `Pricing`): the three price tables with their
  defaults on a miss, and the specification function `Price`.
- `description.dfy` (module `Descriptions`): the ordered description parts and
  the specification function `Description`.
- `text.dfy` (module `Text`): the Python built-ins the description relies on,
  `str.join` and the decimal rendering of an integer, with their properties.
- `builder.dfy` (module `Builder`): the class `CoffeeOrderBuilder`. It has the
  six fields, a mutator method per setter, and the imperative
  `CalculatePrice`, `BuildDescription` and `Build`, each proved against the
  specification functions.
- `scenarios.dfy` (module `Scenarios`): the repository's own usage scenarios,
  written as client code. Each postcondition gives the exact values the
  rules produce.

Modelling choices:

- Prices are exact `real`s. The tables' decimal constants become exact
  rationals, so `300.0 * 1.2` is exactly `360.0`.
- The three raise sites of `ValueError` become values. `SetSugar` returns an
  `Outcome` whose only failure is `SugarOutOfRange`. `Build` returns a
  `Result` whose error is `BaseRequired` or `SizeRequired`.
- `set_iced()` with no argument uses a Dafny default parameter value, `true`.
- Mutators do not return `self`. Dafny methods change `this` in place and
  nothing is chained.
- `CoffeeOrder` is a datatype, so its `syrups` is an immutable sequence value.
  Changing the builder after `build()` cannot reach an order already built.
  This is what `tuple(self.syrups)` ensures in the source.

`set_sugar` and `build` all raise `ValueError` (main.py:108, 173, 175). The
model tells the three failures apart by the field each one names.

## Model

| member | source | states |
|---|---|---|
| Order.CoffeeOrder.ToString | main.py:24-27 | the description when it is non-empty; otherwise "Coffee order - " followed by the price text, which is a parameter; never empty |
| Syrups.WithSyrup | main.py:101-104 | the old list is kept as a prefix and at most one name is added; a name already present, or a full list, leaves it unchanged; distinctness and the cap of 4 are preserved; afterwards the name is present unless the list was full |
| Syrups.WithSyrupIdempotent | main.py:101-104 | adding the same syrup twice gives the same list as adding it once |
| Syrups.AddAllSpec | main.py:101-104 | any run of add_syrup calls from a fresh builder gives a duplicate-free list of at most 4 names, all from the calls, in first-insertion order; a name is missing only when the list is full, and never while a name first offered after it was kept; so the list is the first 4 distinct names offered |
| Pricing.UnknownBaseIsFree | main.py:123-125 | a base outside the table prices at 0, whatever the other fields are |
| Pricing.Price | main.py:123-143 | the table rule: 0 for a base outside the table, otherwise base price times the size multiplier (1.0 on a miss) plus the milk surcharge (0.0 on a miss), 40 per syrup and 0.2 if iced; a price is never negative, and a recognised base costs at least 200 |
| Pricing.PriceIgnoresSugarAndSyrupNames | main.py:127-143 | the price depends only on the number of syrups, not on their names, and not on sugar |
| Pricing.IcedSurcharge | main.py:139-141 | with a recognised base, iced costs exactly 0.2 more than not iced; with an unknown base, nothing |
| Pricing.SyrupSurcharge | main.py:136-137 | add_syrup raises the price by 40 exactly when it appends (recognised base); a repeated syrup leaves the price unchanged |
| Pricing.ClearedPrice | main.py:127-134 | with the extras cleared, the price is the base price times the size multiplier (1.0 when the size is unknown) |
| Descriptions.Parts | main.py:146-167 | the applicable parts in order; at most five, none empty, and "size base" first when both are set |
| Descriptions.Description | main.py:145-169 | the space-join of the applicable parts; empty exactly when no part applies, and otherwise starting with the first part |
| Descriptions.DescriptionEmptyIff | main.py:145-169 | the description is empty exactly when no part applies (both directions) |
| Descriptions.DescriptionStartsWithSizeBase | main.py:148-150 | with base and size set, the description is non-empty and starts with "size base" |
| Descriptions.DescriptionLayout | main.py:145-169 | with base and size set, the space-join equals "size base" followed by each applicable part with one leading space, in the order milk, syrups, iced, sugar |
| Descriptions.DescriptionMentionsOptions | main.py:145-169 | size, base, a milk other than "none", every syrup, "(iced)" and "N tsp sugar" each occur in the description when chosen |
| Descriptions.ClearedDescription | main.py:145-169 | with the extras cleared, the description is "size base", or empty when either field is unset |
| Text.JoinContainsPart | main.py:158 | every part occurs in `sep.join(parts)` |
| Text.JoinEmpty | main.py:169 | with a non-empty separator, a join is empty only for no parts or one empty part |
| Text.NatToStringRoundTrip | main.py:167 | the decimal rendering of a count is a non-empty digit string, has no leading zero and reads back as the count |
| Builder.CoffeeOrderBuilder.constructor | main.py:81-87 | a fresh builder has base "", size "", milk "none", no syrups, sugar 0, not iced, and satisfies the invariant |
| Builder.CoffeeOrderBuilder.SetBase | main.py:89-91 | base becomes the argument; every other field is unchanged |
| Builder.CoffeeOrderBuilder.SetSize | main.py:93-95 | size becomes the argument; every other field is unchanged |
| Builder.CoffeeOrderBuilder.SetMilk | main.py:97-99 | milk becomes the argument; every other field is unchanged |
| Builder.CoffeeOrderBuilder.AddSyrup | main.py:101-104 | appends the name when it is new and fewer than 4 are chosen, and otherwise changes nothing; the invariant is kept |
| Builder.CoffeeOrderBuilder.SetSugar | main.py:106-110 | fails, changing nothing, when the value is below 0 or above 5; otherwise sugar becomes the value; the invariant 0 <= sugar <= 5 is kept |
| Builder.CoffeeOrderBuilder.SetIced | main.py:112-114 | iced becomes the argument, true when it is omitted; every other field is unchanged |
| Builder.CoffeeOrderBuilder.ClearExtras | main.py:116-121 | milk becomes "none", syrups empty, sugar 0 and iced false; base and size are unchanged |
| Builder.CoffeeOrderBuilder.CalculatePrice | main.py:123-143 | the accumulated price equals Price of the current state; it is 0 for an unknown base and at least 200 otherwise |
| Builder.CoffeeOrderBuilder.BuildDescription | main.py:145-169 | the joined parts equal Description of the current state, which starts with "size base" when both are set |
| Builder.CoffeeOrderBuilder.Build | main.py:171-189 | an empty base fails with the base error even when size is also empty; a set base with an empty size fails with the size error; otherwise the order copies every field and carries Price and Description; the price is positive exactly for a recognised base; the description is non-empty and starts with "size base", so str(order) is the description; the builder is not modified |
| Scenarios.BasicOrderDescription | main.py:145-169 | latte, medium, oat milk, vanilla and 2 sugars are described as "medium latte with oat milk +vanilla 2 tsp sugar" |
| Scenarios.FullOrderDescription | main.py:145-169 | large iced cappuccino with soy milk, vanilla and 2 sugars is described as "large cappuccino with soy milk +vanilla (iced) 2 tsp sugar" |
| Scenarios.BasicOrder | main.py:194-207 | the basic order keeps its fields and costs exactly 460.0 |
| Scenarios.BuilderReuse | main.py:210-226 | the first order stays at small, sugar 1, price 200.0 after the builder changes; the second is large, sugar 3, price 280.0 |
| Scenarios.RepeatedBuild | main.py:171-189 | two builds with no mutation in between give equal results, which succeed exactly when base and size are set |
| Scenarios.MissingBase | main.py:229-238 | a builder with only a size fails with the base error |
| Scenarios.MissingSize | main.py:241-250 | a builder with only a base fails with the size error |
| Scenarios.SugarLimits | main.py:253-260 | 0 and 5 teaspoons are accepted, -1 and 6 are refused, and the last accepted value stays |
| Scenarios.SyrupDuplicates | main.py:263-273 | a repeated vanilla is stored once, and both orders cost 400.0 |
| Scenarios.IcedPrice | main.py:276-287 | the iced americano costs exactly 0.2 more than the plain one |
| Scenarios.MaxSyrups | main.py:290-300 | after five distinct syrups the order holds the first four, in order |
| Scenarios.DescriptionFormat | main.py:303-314 | the fully specified cappuccino has exactly the expected description |
| Scenarios.DefaultValues | main.py:317-325 | unset extras keep their defaults; a small espresso costs 200.0 and is described "small espresso" |
| Scenarios.UnknownBase | main.py:123-125 | a "mocha" order with extras still builds, at price 0.0 |
| Scenarios.ClearExtras | main.py:328-338 | after clear_extras the order is a plain medium latte: defaults restored, price 360.0, description "medium latte" |

## Left out

- Order.CoffeeOrder.ToString: the fallback `"Coffee order - {price:.2f}"` needs float formatting to two decimals, which is not modelled. The formatted price text is a parameter, and `Build` proves that a built order never reaches the fallback.
- Binary floating-point rounding of prices is not modelled. Prices are exact reals.
- The exact exception message texts are not modelled. Each error only names its field.
- Fluent chaining (each mutator returning `self`) is left out. The methods change the builder in place instead.
- The tests' `isinstance` checks, the progress printing and the `__main__` runner are console code, not logic. The scenario methods restate what the tests assert.
- Python would also accept a non-integer such as 2.5 in `set_sugar`. The model takes only integers, as the type annotation says.
- The `CoffeeOrder` constructor checks nothing. Only orders made by `Build` are proved to meet the order invariants.
