/** The description rule: the applicable parts, in a fixed order, joined by
    single spaces. */
module Descriptions {
  import opened Order
  import opened Text

  /** The parts that apply to `st`, in the order they are appended. */
  function Parts(st: BuilderState): (parts: seq<string>)
    ensures |parts| <= 5
    ensures forall k :: 0 <= k < |parts| ==> parts[k] != ""
    ensures st.size != "" && st.base != "" ==> parts != [] && parts[0] == st.size + " " + st.base
  {
    (if st.size != "" && st.base != "" then [st.size + " " + st.base] else [])
    + (if st.milk != "" && st.milk != "none" then ["with " + st.milk + " milk"] else [])
    + (if st.syrups != [] then ["+" + Join(", ", st.syrups)] else [])
    + (if st.iced then ["(iced)"] else [])
    + (if st.sugar > 0 then [NatToString(st.sugar) + " tsp sugar"] else [])
  }

  /** The applicable parts joined by single spaces: empty exactly when no
      part applies, and otherwise starting with the first part. */
  function Description(st: BuilderState): (d: string)
    ensures d == "" <==> Parts(st) == []
    ensures Parts(st) != [] ==> Parts(st)[0] <= d
  {
    var parts := Parts(st);
    JoinEmpty(" ", parts);
    JoinStartsWithFirst(" ", parts);
    Join(" ", parts)
  }

  /** The description is empty exactly when no part applies. */
  lemma {:induction false} DescriptionEmptyIff(st: BuilderState)
    ensures Description(st) == "" <==>
      && (st.size == "" || st.base == "")
      && (st.milk == "" || st.milk == "none")
      && st.syrups == []
      && !st.iced
      && st.sugar <= 0
  {
  }

  /** With both base and size set, the description is non-empty and starts
      with "size base". */
  lemma {:induction false} DescriptionStartsWithSizeBase(st: BuilderState)
    requires st.base != "" && st.size != ""
    ensures Description(st) != ""
    ensures st.size + " " + st.base <= Description(st)
  {
    var head := st.size + " " + st.base;
    var rest := Parts(st)[1..];
    assert Parts(st) == [head] + rest;
    JoinFirst(" ", head, rest);
  }

  /** The description of a state with base and size set, written out as
      "size base" followed by each applicable part with its leading space. */
  lemma {:induction false} DescriptionLayout(st: BuilderState)
    requires st.base != "" && st.size != ""
    ensures Description(st) ==
      st.size + " " + st.base
      + (if st.milk != "" && st.milk != "none" then " " + ("with " + st.milk + " milk") else "")
      + (if st.syrups != [] then " " + ("+" + Join(", ", st.syrups)) else "")
      + (if st.iced then " " + "(iced)" else "")
      + (if st.sugar > 0 then " " + (NatToString(st.sugar) + " tsp sugar") else "")
  {
    var head := st.size + " " + st.base;
    var m := if st.milk != "" && st.milk != "none" then ["with " + st.milk + " milk"] else [];
    var y := if st.syrups != [] then ["+" + Join(", ", st.syrups)] else [];
    var i := if st.iced then ["(iced)"] else [];
    var g := if st.sugar > 0 then [NatToString(st.sugar) + " tsp sugar"] else [];
    assert Parts(st) == [head] + (m + y + i + g);
    JoinGroups(" ", head, m, y, i, g);
    PrefixedOne(" ", "with " + st.milk + " milk");
    PrefixedOne(" ", "+" + Join(", ", st.syrups));
    PrefixedOne(" ", "(iced)");
    if st.sugar > 0 {
      PrefixedOne(" ", NatToString(st.sugar) + " tsp sugar");
    }
  }

  lemma DescriptionIsJoin(st: BuilderState)
    ensures Description(st) == Join(" ", Parts(st))
  {
  }

  /** Every chosen option shows up in the description: size and base, a milk
      other than "none", each syrup, ice, and a positive sugar count. */
  lemma {:induction false} DescriptionMentionsOptions(st: BuilderState)
    requires st.base != "" && st.size != ""
    ensures Contains(Description(st), st.size) && Contains(Description(st), st.base)
    ensures st.milk != "" && st.milk != "none" ==> Contains(Description(st), "with " + st.milk + " milk")
    ensures forall k :: 0 <= k < |st.syrups| ==> Contains(Description(st), st.syrups[k])
    ensures st.iced ==> Contains(Description(st), "(iced)")
    ensures st.sugar > 0 ==> Contains(Description(st), NatToString(st.sugar) + " tsp sugar")
  {
    var d := Description(st);
    var ps := Parts(st);
    var head := st.size + " " + st.base;
    assert ps[0] == head;
    JoinContainsPart(" ", ps, 0);
    ContainsPrefix(head, st.size);
    ContainsTransitive(d, head, st.size);
    assert head[|st.size| + 1..] == st.base;
    ContainsSuffix(head, |st.size| + 1);
    ContainsTransitive(d, head, st.base);
    var milk := if st.milk != "" && st.milk != "none" then 1 else 0;
    if milk == 1 {
      assert ps[1] == "with " + st.milk + " milk";
      JoinContainsPart(" ", ps, 1);
    }
    if st.syrups != [] {
      var k0 := 1 + milk;
      var part := "+" + Join(", ", st.syrups);
      assert ps[k0] == part;
      JoinContainsPart(" ", ps, k0);
      assert part[1..] == Join(", ", st.syrups);
      ContainsSuffix(part, 1);
      ContainsTransitive(d, part, Join(", ", st.syrups));
      forall k | 0 <= k < |st.syrups|
        ensures Contains(d, st.syrups[k])
      {
        JoinContainsPart(", ", st.syrups, k);
        ContainsTransitive(d, Join(", ", st.syrups), st.syrups[k]);
      }
    }
    var syr := if st.syrups != [] then 1 else 0;
    if st.iced {
      assert ps[1 + milk + syr] == "(iced)";
      JoinContainsPart(" ", ps, 1 + milk + syr);
    }
    if st.sugar > 0 {
      var k1 := 1 + milk + syr + (if st.iced then 1 else 0);
      assert ps[k1] == NatToString(st.sugar) + " tsp sugar";
      JoinContainsPart(" ", ps, k1);
    }
  }

  /** After the extras are cleared only "size base" remains (or nothing when
      either is unset). */
  lemma ClearedDescription(st: BuilderState)
    ensures Description(st.(milk := "none", syrups := [], sugar := 0, iced := false))
         == if st.size != "" && st.base != "" then st.size + " " + st.base else ""
  {
  }
}
