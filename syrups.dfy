/** The syrup rule of `add_syrup`: append a name only when it is new and
    there is room. */
module Syrups {
  import opened Order

  /** The syrup list after `add_syrup(name)`. */
  function WithSyrup(syrups: seq<string>, name: string): (r: seq<string>)
    ensures syrups <= r && |r| <= |syrups| + 1
    ensures name in syrups ==> r == syrups
    ensures |syrups| >= MAX_SYRUPS ==> r == syrups
    ensures NoDuplicates(syrups) ==> NoDuplicates(r)
    ensures |syrups| <= MAX_SYRUPS ==> |r| <= MAX_SYRUPS
    ensures name in r
      || (name !in syrups && |syrups| >= MAX_SYRUPS)
  {
    if name !in syrups && |syrups| < MAX_SYRUPS then syrups + [name] else syrups
  }

  /** Adding the same syrup twice is the same as adding it once. */
  lemma WithSyrupIdempotent(syrups: seq<string>, name: string)
    ensures WithSyrup(WithSyrup(syrups, name), name) == WithSyrup(syrups, name)
  {
  }

  /** The syrups of a fresh builder after `add_syrup` for each of `names` in turn. */
  function AddAll(names: seq<string>): seq<string>
    decreases |names|
  {
    if names == [] then [] else WithSyrup(AddAll(names[..|names| - 1]), names[|names| - 1])
  }

  /** Index of the first occurrence of `x` in `names`. */
  function FirstIndex(names: seq<string>, x: string): (i: nat)
    requires x in names
    ensures i < |names| && names[i] == x
    ensures forall j :: 0 <= j < i ==> names[j] != x
    decreases |names|
  {
    if names[0] == x then 0 else 1 + FirstIndex(names[1..], x)
  }

  lemma FirstIndexAppend(names: seq<string>, y: string, x: string)
    requires x in names + [y]
    ensures x in names ==> FirstIndex(names + [y], x) == FirstIndex(names, x)
    ensures x !in names ==> FirstIndex(names + [y], x) == |names|
  {
    var ext := names + [y];
    var k := FirstIndex(ext, x);
    if x in names {
      var i := FirstIndex(names, x);
      assert ext[i] == x;
    }
  }

  /** Any run of `add_syrup` calls on a fresh builder keeps only given names,
      without duplicates, at most MAX_SYRUPS of them, in order of first
      insertion; a name is dropped only when the list was already full, and
      never in favour of a name first offered after it. So the result is the
      first MAX_SYRUPS distinct names offered, in the order offered. */
  lemma {:induction false} AddAllSpec(names: seq<string>)
    ensures var r := AddAll(names);
      && NoDuplicates(r)
      && |r| <= MAX_SYRUPS
      && (forall x :: x in r ==> x in names)
      && (|r| < MAX_SYRUPS ==> forall x :: x in names ==> x in r)
      && (forall i, j :: 0 <= i < j < |r| ==> FirstIndex(names, r[i]) < FirstIndex(names, r[j]))
      && (forall x, k ::
            (x in names && 0 <= k < |r| && r[k] in names && FirstIndex(names, x) < FirstIndex(names, r[k]))
            ==> x in r)
    decreases |names|
  {
    if names != [] {
      var init := names[..|names| - 1];
      var y := names[|names| - 1];
      assert names == init + [y];
      var p := AddAll(init);
      var r := AddAll(names);
      AddAllSpec(init);
      assert r == WithSyrup(p, y);
      forall x | x in names && x != y
        ensures x in init
      {
        var k :| 0 <= k < |names| && names[k] == x;
        assert k < |init|;
        assert init[k] == x;
      }
      forall i, j | 0 <= i < j < |r|
        ensures FirstIndex(names, r[i]) < FirstIndex(names, r[j])
      {
        if j < |p| {
          FirstIndexAppend(init, y, r[i]);
          FirstIndexAppend(init, y, r[j]);
        } else {
          // r[j] is the name y that was just appended, absent from init
          assert r == p + [y] && r[j] == y;
          assert y !in init;
          FirstIndexAppend(init, y, r[i]);
          FirstIndexAppend(init, y, y);
        }
      }
      forall x, k | x in names && 0 <= k < |r| && r[k] in names
          && FirstIndex(names, x) < FirstIndex(names, r[k])
        ensures x in r
      {
        var fx := FirstIndex(names, x);
        FirstIndexAppend(init, y, r[k]);
        if k < |p| {
          // r[k] was already kept, and x was first offered before it
          assert fx < |init| && init[fx] == x;
          FirstIndexAppend(init, y, x);
        } else {
          // r[k] is y, appended now, so the list was not full before
          assert r == p + [y] && r[k] == y && |p| < MAX_SYRUPS;
          assert fx < |init| && init[fx] == x;
        }
      }
    }
  }
}
