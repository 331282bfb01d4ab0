/** The repository's own usage scenarios, replayed as client code against
    the builder's contracts: each postcondition is what the scenario asserts,
    stated with the exact values the price and description rules give. */
module Scenarios {
  import opened Order
  import opened Pricing
  import opened Builder
  import opened Text
  import opened Descriptions

  lemma BasicOrderDescription(st: BuilderState)
    requires st == BuilderState("latte", "medium", "oat", ["vanilla"], 2, false)
    ensures Description(st) == "medium latte with oat milk +vanilla 2 tsp sugar"
  {
    DescriptionLayout(st);
    assert NatToString(2) == "2";
    assert Join(", ", ["vanilla"]) == "vanilla";
    assert Description(st) == "medium" + " " + "latte" + (" " + ("with " + "oat" + " milk"))
      + (" " + ("+" + "vanilla")) + "" + (" " + ("2" + " tsp sugar"));
    BasicOrderText();
  }

  /** A step about literal text only, proved on its own to keep the context small. */
  lemma BasicOrderText()
    ensures "medium" + " " + "latte" + (" " + ("with " + "oat" + " milk"))
      + (" " + ("+" + "vanilla")) + "" + (" " + ("2" + " tsp sugar"))
      == "medium latte with oat milk +vanilla 2 tsp sugar"
  {
  }

  lemma FullOrderDescription(st: BuilderState)
    requires st == BuilderState("cappuccino", "large", "soy", ["vanilla"], 2, true)
    ensures Description(st) == "large cappuccino with soy milk +vanilla (iced) 2 tsp sugar"
  {
    DescriptionLayout(st);
    assert NatToString(2) == "2";
    assert Join(", ", ["vanilla"]) == "vanilla";
    assert Description(st) == "large" + " " + "cappuccino" + (" " + ("with " + "soy" + " milk"))
      + (" " + ("+" + "vanilla")) + (" " + "(iced)") + (" " + ("2" + " tsp sugar"));
    FullOrderText();
  }

  /** A step about literal text only, proved on its own to keep the context small. */
  lemma FullOrderText()
    ensures "large" + " " + "cappuccino" + (" " + ("with " + "soy" + " milk"))
      + (" " + ("+" + "vanilla")) + (" " + "(iced)") + (" " + ("2" + " tsp sugar"))
      == "large cappuccino with soy milk +vanilla (iced) 2 tsp sugar"
  {
    var head := "large" + " " + "cappuccino" + (" " + ("with " + "soy" + " milk"));
    var tail := " " + ("2" + " tsp sugar");
    FullOrderHead();
    Text.Associative(head + (" " + ("+" + "vanilla")), " " + "(iced)", tail);
    Text.Associative(head, " " + ("+" + "vanilla"), " " + "(iced)" + tail);
    FullOrderTail();
    assert head + " +vanilla (iced) 2 tsp sugar" == "large cappuccino with soy milk +vanilla (iced) 2 tsp sugar";
  }

  /** A step about literal text only, proved on its own to keep the context small. */
  lemma FullOrderHead()
    ensures "large" + " " + "cappuccino" + (" " + ("with " + "soy" + " milk")) == "large cappuccino with soy milk"
  {
  }

  /** A step about literal text only, proved on its own to keep the context small. */
  lemma FullOrderTail()
    ensures " " + ("+" + "vanilla") + (" " + "(iced)" + (" " + ("2" + " tsp sugar"))) == " +vanilla (iced) 2 tsp sugar"
  {
  }

  /** latte, medium, oat milk, vanilla, 2 sugars. */
  method BasicOrder() returns (order: CoffeeOrder)
    ensures order.base == "latte" && order.size == "medium" && order.milk == "oat"
    ensures order.syrups == ["vanilla"] && order.sugar == 2 && !order.iced
    ensures order.price == 460.0
    ensures order.description == "medium latte with oat milk +vanilla 2 tsp sugar"
  {
    var b := new CoffeeOrderBuilder();
    b.SetBase("latte");
    b.SetSize("medium");
    b.SetMilk("oat");
    b.AddSyrup("vanilla");
    var ok := b.SetSugar(2);
    BasicOrderDescription(b.State());
    var r := b.Build();
    order := r.value;
  }

  /** Two orders from one builder: the second mutation and build leave the
      first order as it was. */
  method BuilderReuse() returns (order1: CoffeeOrder, order2: CoffeeOrder)
    ensures order1.size == "small" && order1.sugar == 1 && order1.price == 200.0
    ensures order2.size == "large" && order2.sugar == 3 && order2.price == 280.0
    ensures order1.price != order2.price
  {
    var b := new CoffeeOrderBuilder();
    b.SetBase("espresso");
    b.SetSize("small");
    var ok := b.SetSugar(1);
    var r1 := b.Build();
    order1 := r1.value;
    b.SetSize("large");
    ok := b.SetSugar(3);
    var r2 := b.Build();
    order2 := r2.value;
  }

  /** Two builds with no mutation in between give equal orders. */
  method RepeatedBuild(b: CoffeeOrderBuilder) returns (r1: Result<CoffeeOrder, BuildError>, r2: Result<CoffeeOrder, BuildError>)
    ensures r1 == r2
    ensures r1.Ok? <==> b.base != "" && b.size != ""
  {
    r1 := b.Build();
    r2 := b.Build();
  }

  /** Only a size is set: the base is reported missing. */
  method MissingBase() returns (r: Result<CoffeeOrder, BuildError>)
    ensures r == Err(BaseRequired)
  {
    var b := new CoffeeOrderBuilder();
    b.SetSize("medium");
    r := b.Build();
  }

  /** Only a base is set: the size is reported missing. */
  method MissingSize() returns (r: Result<CoffeeOrder, BuildError>)
    ensures r == Err(SizeRequired)
  {
    var b := new CoffeeOrderBuilder();
    b.SetBase("latte");
    r := b.Build();
  }

  /** Sugar at both bounds is accepted, just past either bound is refused. */
  method SugarLimits() returns (zero: Outcome<ArgumentError>, five: Outcome<ArgumentError>, minusOne: Outcome<ArgumentError>, six: Outcome<ArgumentError>, kept: int)
    ensures zero == Pass && five == Pass
    ensures minusOne == Fail(SugarOutOfRange) && six == Fail(SugarOutOfRange)
    ensures kept == 5
  {
    var b := new CoffeeOrderBuilder();
    zero := b.SetSugar(0);
    five := b.SetSugar(5);
    minusOne := b.SetSugar(-1);
    six := b.SetSugar(6);
    kept := b.sugar;
  }

  /** A repeated syrup is stored once and priced once. */
  method SyrupDuplicates() returns (twice: CoffeeOrder, once: CoffeeOrder)
    ensures |twice.syrups| == 1
    ensures twice.price == once.price == 400.0
  {
    var b := new CoffeeOrderBuilder();
    b.SetBase("latte");
    b.SetSize("medium");
    b.AddSyrup("vanilla");
    b.AddSyrup("vanilla");
    var r := b.Build();
    twice := r.value;
    var b2 := new CoffeeOrderBuilder();
    b2.SetBase("latte");
    b2.SetSize("medium");
    b2.AddSyrup("vanilla");
    r := b2.Build();
    once := r.value;
  }

  /** Ice adds exactly ICED_PRICE. */
  method IcedPrice() returns (without: CoffeeOrder, with: CoffeeOrder)
    ensures with.price > without.price
    ensures with.price - without.price == ICED_PRICE
  {
    var b := new CoffeeOrderBuilder();
    b.SetBase("americano");
    b.SetSize("small");
    b.SetIced(false);
    var r := b.Build();
    without := r.value;
    var b2 := new CoffeeOrderBuilder();
    b2.SetBase("americano");
    b2.SetSize("small");
    b2.SetIced(true);
    r := b2.Build();
    with := r.value;
  }

  /** A fifth distinct syrup is ignored. */
  method MaxSyrups() returns (order: CoffeeOrder)
    ensures order.syrups == ["vanilla", "caramel", "hazelnut", "chocolate"]
  {
    var b := new CoffeeOrderBuilder();
    b.SetBase("latte");
    b.SetSize("medium");
    b.AddSyrup("vanilla");
    b.AddSyrup("caramel");
    assert b.syrups == ["vanilla", "caramel"];
    b.AddSyrup("hazelnut");
    assert b.syrups == ["vanilla", "caramel", "hazelnut"];
    b.AddSyrup("chocolate");
    assert b.syrups == ["vanilla", "caramel", "hazelnut", "chocolate"];
    b.AddSyrup("cinnamon");
    var r := b.Build();
    order := r.value;
  }

  /** Every option picked shows up in the description, in order. */
  method DescriptionFormat() returns (order: CoffeeOrder)
    ensures order.description == "large cappuccino with soy milk +vanilla (iced) 2 tsp sugar"
  {
    var b := new CoffeeOrderBuilder();
    b.SetBase("cappuccino");
    b.SetSize("large");
    b.SetMilk("soy");
    b.AddSyrup("vanilla");
    var ok := b.SetSugar(2);
    b.SetIced();
    FullOrderDescription(b.State());
    var r := b.Build();
    order := r.value;
  }

  /** Unset extras keep their defaults. */
  method DefaultValues() returns (order: CoffeeOrder)
    ensures order.milk == "none" && order.syrups == [] && order.sugar == 0 && !order.iced
    ensures order.price == 200.0 && order.description == "small espresso"
  {
    var b := new CoffeeOrderBuilder();
    b.SetBase("espresso");
    b.SetSize("small");
    var r := b.Build();
    order := r.value;
  }

  /** An unrecognised base builds, at price zero, whatever the extras. */
  method UnknownBase() returns (order: CoffeeOrder)
    ensures order.base == "mocha" && order.price == 0.0
  {
    var b := new CoffeeOrderBuilder();
    b.SetBase("mocha");
    b.SetSize("large");
    b.SetMilk("oat");
    b.AddSyrup("vanilla");
    b.SetIced();
    var r := b.Build();
    order := r.value;
  }

  /** Clearing extras resets them and keeps base and size. */
  method ClearExtras() returns (order: CoffeeOrder)
    ensures order.base == "latte" && order.size == "medium"
    ensures order.milk == "none" && order.syrups == [] && order.sugar == 0 && !order.iced
    ensures order.price == 360.0 && order.description == "medium latte"
  {
    var b := new CoffeeOrderBuilder();
    b.SetBase("latte");
    b.SetSize("medium");
    b.SetMilk("oat");
    b.AddSyrup("vanilla");
    var ok := b.SetSugar(3);
    b.SetIced(true);
    b.ClearExtras();
    var r := b.Build();
    order := r.value;
  }
}
