/** The finished order record and the value-level picture of the builder's state. */
module Order {

  /** Inclusive upper bound on teaspoons of sugar. */
  const MAX_SUGAR: int := 5
  /** Most syrups one order may carry. */
  const MAX_SYRUPS: int := 4

  /** The six option fields the builder accumulates, as one value. */
  datatype BuilderState = BuilderState(
    base: string,
    size: string,
    milk: string,
    syrups: seq<string>,
    sugar: int,
    iced: bool)

  /** The state of a freshly created builder. */
  const EmptyState: BuilderState := BuilderState("", "", "none", [], 0, false)

  predicate NoDuplicates(s: seq<string>) {
    forall i, j :: 0 <= i < j < |s| ==> s[i] != s[j]
  }

  /** The builder's invariant: sugar in range, syrups distinct and capped. */
  predicate ValidState(st: BuilderState) {
    && 0 <= st.sugar <= MAX_SUGAR
    && |st.syrups| <= MAX_SYRUPS
    && NoDuplicates(st.syrups)
  }

  /** The failures of build(); each names the missing field. */
  datatype BuildError =
    | BaseRequired      // an empty base
    | SizeRequired      // a base but an empty size

  /** The failure of set_sugar. */
  datatype ArgumentError =
    | SugarOutOfRange   // teaspoons outside 0..MAX_SUGAR

  datatype Result<T, E> = Ok(value: T) | Err(error: E)

  datatype Outcome<E> = Pass | Fail(error: E)

  /** An immutable order. Its `syrups` is a value, so nothing done to a builder
      afterwards can reach it. */
  datatype CoffeeOrder = CoffeeOrder(
    base: string,
    size: string,
    milk: string := "none",
    syrups: seq<string> := [],
    sugar: int := 0,
    iced: bool := false,
    price: real := 0.0,
    description: string := "")
  {
    /** `str(order)`. `priceText` stands for the price rendered with two
        decimals, which this model does not compute. */
    function ToString(priceText: string): (s: string)
      ensures s != ""
      ensures description != "" ==> s == description
      ensures description == "" ==> "Coffee order - " <= s && s[|"Coffee order - "|..] == priceText
    {
      if description != "" then description else "Coffee order - " + priceText
    }
  }
}
