/** The mutable builder: setters that overwrite one field each, the capped
    duplicate-free syrup list, the checked sugar setter, and the terminal
    `Build`, which validates and snapshots the state into a `CoffeeOrder`. */
module Builder {
  import opened Order
  import opened Syrups
  import opened Pricing
  import opened Descriptions
  import opened Text

  class CoffeeOrderBuilder {
    var base: string
    var size: string
    var milk: string
    var syrups: seq<string>
    var sugar: int
    var iced: bool

    /** The current options as one value. */
    function State(): BuilderState
      reads this
    {
      BuilderState(base, size, milk, syrups, sugar, iced)
    }

    ghost predicate Valid()
      reads this
    {
      ValidState(State())
    }

    constructor ()
      ensures Valid() && State() == EmptyState
    {
      base, size, milk, syrups, sugar, iced := "", "", "none", [], 0, false;
    }

    /** Any name is stored; an unknown one only prices the order at zero. */
    method SetBase(base: string)
      requires Valid()
      modifies this
      ensures Valid() && State() == old(State()).(base := base)
    {
      this.base := base;
    }

    /** Any name is stored; an unknown one is priced with multiplier 1.0. */
    method SetSize(size: string)
      requires Valid()
      modifies this
      ensures Valid() && State() == old(State()).(size := size)
    {
      this.size := size;
    }

    /** Any name is stored; an unknown one adds no surcharge. */
    method SetMilk(milk: string)
      requires Valid()
      modifies this
      ensures Valid() && State() == old(State()).(milk := milk)
    {
      this.milk := milk;
    }

    /** Appends `name` when it is not yet present and fewer than MAX_SYRUPS
        are chosen; otherwise nothing changes. */
    method AddSyrup(name: string)
      requires Valid()
      modifies this
      ensures Valid()
      ensures name !in old(syrups) && |old(syrups)| < MAX_SYRUPS ==>
        State() == old(State()).(syrups := old(syrups) + [name])
      ensures name in old(syrups) || |old(syrups)| >= MAX_SYRUPS ==> State() == old(State())
      ensures State() == old(State()).(syrups := WithSyrup(old(syrups), name))
    {
      if name !in syrups && |syrups| < MAX_SYRUPS {
        syrups := syrups + [name];
      }
    }

    /** Fails, changing nothing, when `teaspoons` is outside 0..MAX_SUGAR. */
    method SetSugar(teaspoons: int) returns (outcome: Outcome<ArgumentError>)
      requires Valid()
      modifies this
      ensures Valid()
      ensures outcome == if teaspoons < 0 || teaspoons > MAX_SUGAR then Fail(SugarOutOfRange) else Pass
      ensures State() == if outcome.Pass? then old(State()).(sugar := teaspoons) else old(State())
    {
      if teaspoons < 0 || teaspoons > MAX_SUGAR {
        return Fail(SugarOutOfRange);
      }
      sugar := teaspoons;
      outcome := Pass;
    }

    /** Called without an argument it turns ice on. */
    method SetIced(iced: bool := true)
      requires Valid()
      modifies this
      ensures Valid() && State() == old(State()).(iced := iced)
    {
      this.iced := iced;
    }

    /** Resets milk, syrups, sugar and ice to their defaults; base and size stay. */
    method ClearExtras()
      requires Valid()
      modifies this
      ensures Valid()
      ensures State() == old(State()).(milk := "none", syrups := [], sugar := 0, iced := false)
      ensures State() == EmptyState.(base := old(base), size := old(size))
    {
      milk := "none";
      syrups := [];
      sugar := 0;
      iced := false;
    }

    /** The price of the current options, accumulated term by term. */
    method CalculatePrice() returns (price: real)
      ensures price == Price(State())
      ensures price >= 0.0
      ensures !KnownBase(base) ==> price == 0.0
      ensures KnownBase(base) ==> price >= 200.0
    {
      if base !in BASE_PRICES {
        return 0.0;
      }
      var basePrice := BASE_PRICES[base];
      var sizeMultiplier := Get(SIZE_MULTIPLIERS, size, 1.0);
      price := basePrice * sizeMultiplier;
      var milkPrice := Get(MILK_PRICES, milk, 0.0);
      price := price + milkPrice;
      price := price + |syrups| as real * SYRUP_PRICE;
      if iced {
        price := price + ICED_PRICE;
      }
    }

    /** The description of the current options, built from a list of parts. */
    method BuildDescription() returns (description: string)
      ensures description == Description(State())
      ensures base != "" && size != "" ==> size + " " + base <= description
    {
      var parts: seq<string> := [];
      if size != "" && base != "" {
        parts := parts + [size + " " + base];
      }
      if milk != "" && milk != "none" {
        parts := parts + ["with " + milk + " milk"];
      }
      if syrups != [] {
        var syrupText := Join(", ", syrups);
        parts := parts + ["+" + syrupText];
      }
      if iced {
        parts := parts + ["(iced)"];
      }
      if sugar > 0 {
        parts := parts + [NatToString(sugar) + " tsp sugar"];
      }
      assert parts == Parts(State());
      description := Join(" ", parts);
      DescriptionIsJoin(State());
    }

    /** Fails on an empty base (checked first), then on an empty size;
        otherwise returns a snapshot of every field with its price and
        description. The builder is not changed. */
    method Build() returns (r: Result<CoffeeOrder, BuildError>)
      ensures base == "" ==> r == Err(BaseRequired)
      ensures base != "" && size == "" ==> r == Err(SizeRequired)
      ensures base != "" && size != "" ==>
        r == Ok(CoffeeOrder(base, size, milk, syrups, sugar, iced, Price(State()), Description(State())))
      ensures r.Ok? ==>
        && r.value.price >= 0.0
        && (r.value.price > 0.0 <==> KnownBase(base))
        && r.value.description != ""
        && size + " " + base <= r.value.description
        && (forall priceText :: r.value.ToString(priceText) == r.value.description)
      ensures r.Ok? && Valid() ==>
        ValidState(BuilderState(r.value.base, r.value.size, r.value.milk, r.value.syrups, r.value.sugar, r.value.iced))
    {
      if base == "" {
        return Err(BaseRequired);
      }
      if size == "" {
        return Err(SizeRequired);
      }
      var price := CalculatePrice();
      var description := BuildDescription();
      r := Ok(CoffeeOrder(
        base := base,
        size := size,
        milk := milk,
        syrups := syrups,
        sugar := sugar,
        iced := iced,
        price := price,
        description := description));
    }
  }
}
