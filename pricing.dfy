/** The price rule: fixed tables, each with its own default on a miss. Money
    is an exact `real`, so 300.0 * 1.2 is 360.0 with no rounding noise. */
module Pricing {
  import opened Order
  import opened Syrups

  const BASE_PRICES: map<string, real> :=
    map["espresso" := 200.0, "americano" := 250.0, "latte" := 300.0, "cappuccino" := 320.0]

  const SIZE_MULTIPLIERS: map<string, real> :=
    map["small" := 1.0, "medium" := 1.2, "large" := 1.4]

  const MILK_PRICES: map<string, real> :=
    map["none" := 0.0, "whole" := 30.0, "skim" := 30.0, "oat" := 60.0, "soy" := 50.0]

  const SYRUP_PRICE: real := 40.0
  const ICED_PRICE: real := 0.2

  /** Python's `table.get(key, default)`. */
  function Get(table: map<string, real>, key: string, default: real): real {
    if key in table then table[key] else default
  }

  predicate KnownBase(base: string) {
    base in BASE_PRICES
  }

  /** The price of an order with the options in `st`: zero for an
      unrecognised base, otherwise the sized base price plus the surcharges. */
  function Price(st: BuilderState): (price: real)
    ensures price >= 0.0
    ensures !KnownBase(st.base) ==> price == 0.0
    ensures KnownBase(st.base) ==> price >= 200.0
  {
    if !KnownBase(st.base) then 0.0
    else
      BASE_PRICES[st.base] * Get(SIZE_MULTIPLIERS, st.size, 1.0)
      + Get(MILK_PRICES, st.milk, 0.0)
      + |st.syrups| as real * SYRUP_PRICE
      + (if st.iced then ICED_PRICE else 0.0)
  }

  /** An unrecognised base prices at zero whatever else is chosen. */
  lemma UnknownBaseIsFree(st: BuilderState)
    requires !KnownBase(st.base)
    ensures Price(st) == 0.0
    ensures forall other: BuilderState {:trigger Price(other)} :: other.base == st.base ==> Price(other) == 0.0
  {
  }

  /** The price depends on the syrups only through how many there are, and
      not at all on sugar. */
  lemma PriceIgnoresSugarAndSyrupNames(st: BuilderState, syrups: seq<string>, sugar: int)
    requires |syrups| == |st.syrups|
    ensures Price(st.(syrups := syrups, sugar := sugar)) == Price(st)
  {
  }

  /** With a recognised base, ice costs exactly ICED_PRICE; otherwise nothing. */
  lemma IcedSurcharge(st: BuilderState)
    ensures Price(st.(iced := true)) - Price(st.(iced := false))
         == if KnownBase(st.base) then ICED_PRICE else 0.0
  {
  }

  /** `add_syrup` raises the price by SYRUP_PRICE when it appends, and a
      repeated or overflowing syrup leaves the price as it was. */
  lemma SyrupSurcharge(st: BuilderState, name: string)
    ensures var after := st.(syrups := WithSyrup(st.syrups, name));
      Price(after) - Price(st)
        == if KnownBase(st.base) && |after.syrups| > |st.syrups| then SYRUP_PRICE else 0.0
    ensures name in st.syrups ==> Price(st.(syrups := WithSyrup(st.syrups, name))) == Price(st)
  {
    var after := st.(syrups := WithSyrup(st.syrups, name));
    if KnownBase(st.base) && |after.syrups| > |st.syrups| {
      assert |after.syrups| == |st.syrups| + 1;
    }
  }

  /** Clearing the extras leaves exactly the sized base price. */
  lemma ClearedPrice(st: BuilderState)
    requires KnownBase(st.base)
    ensures Price(st.(milk := "none", syrups := [], sugar := 0, iced := false))
         == BASE_PRICES[st.base] * Get(SIZE_MULTIPLIERS, st.size, 1.0)
  {
  }
}
