/**
 The type-level functions that give each non-void type of a list its slot in the tuple of non-void types.
 */
module Traits {

  datatype Type = Void | Of(name: nat)

  // (size_t)-1
  const NO_PLACE: nat := 0xFFFF_FFFF_FFFF_FFFF

  /** Maps each type to the slot of its value, counting from `n`; what is known so far is in `places`. */
  function FindNonVoidPlace(places: seq<nat>, n: nat, types: seq<Type>): seq<nat>
    decreases |types|
  {
    if types == [] then places
    else if types[0].Void? then FindNonVoidPlace(places + [NO_PLACE], n, types[1..])
    else FindNonVoidPlace(places + [n], n + 1, types[1..])
  }

  function RemoveVoid(kept: seq<Type>, types: seq<Type>): seq<Type>
    decreases |types|
  {
    if types == [] then kept
    else if types[0].Void? then RemoveVoid(kept, types[1..])
    else RemoveVoid(kept + [types[0]], types[1..])
  }

  function NonVoidPlaceSequence(types: seq<Type>): seq<nat> {
    FindNonVoidPlace([], 0, types)
  }

  function RemoveVoidTuple(types: seq<Type>): seq<Type> {
    RemoveVoid([], types)
  }

  lemma {:induction false} Grows(places: seq<nat>, kept: seq<Type>, types: seq<Type>)
    ensures var ps, ts := FindNonVoidPlace(places, |kept|, types), RemoveVoid(kept, types);
      |ps| == |places| + |types| && places <= ps && kept <= ts && |kept| <= |ts| <= |kept| + |types|
    decreases |types|
  {
    if types != [] {
      if types[0].Void? {
        Grows(places + [NO_PLACE], kept, types[1..]);
      } else {
        Grows(places + [|kept|], kept + [types[0]], types[1..]);
      }
    }
  }

  /** The slot of the `i`-th of the remaining types, and that it is after the slots of those before it. */
  lemma {:induction false} PlaceOf(places: seq<nat>, kept: seq<Type>, types: seq<Type>, i: nat)
    requires i < |types|
    ensures |FindNonVoidPlace(places, |kept|, types)| == |places| + |types|
    ensures var p := FindNonVoidPlace(places, |kept|, types)[|places| + i];
      var ts := RemoveVoid(kept, types);
      if types[i].Void? then p == NO_PLACE else |kept| <= p < |ts| && p <= |kept| + i && ts[p] == types[i]
    decreases |types|
  {
    Grows(places, kept, types);
    var places', kept' := places + [if types[0].Void? then NO_PLACE else |kept|],
                          if types[0].Void? then kept else kept + [types[0]];
    Grows(places', kept', types[1..]);
    if i == 0 {
      assert FindNonVoidPlace(places, |kept|, types)[|places|] == places'[|places|];
    } else {
      PlaceOf(places', kept', types[1..], i - 1);
    }
  }

  lemma {:induction false} PlacesIncrease(places: seq<nat>, kept: seq<Type>, types: seq<Type>, i: nat, j: nat)
    requires i < j < |types| && types[i].Of? && types[j].Of?
    ensures |FindNonVoidPlace(places, |kept|, types)| == |places| + |types|
    ensures var ps := FindNonVoidPlace(places, |kept|, types); ps[|places| + i] < ps[|places| + j]
    decreases |types|
  {
    Grows(places, kept, types);
    var places', kept' := places + [if types[0].Void? then NO_PLACE else |kept|],
                          if types[0].Void? then kept else kept + [types[0]];
    if i == 0 {
      Grows(places', kept', types[1..]);
      assert FindNonVoidPlace(places, |kept|, types)[|places|] == places'[|places|];
      PlaceOf(places', kept', types[1..], j - 1);
    } else {
      PlacesIncrease(places', kept', types[1..], i - 1, j - 1);
    }
  }

  lemma {:induction false} SlotFilled(places: seq<nat>, kept: seq<Type>, types: seq<Type>, k: nat) returns (i: nat)
    requires |kept| <= k < |RemoveVoid(kept, types)|
    ensures |FindNonVoidPlace(places, |kept|, types)| == |places| + |types|
    ensures i < |types| && types[i].Of? && FindNonVoidPlace(places, |kept|, types)[|places| + i] == k
    decreases |types|
  {
    Grows(places, kept, types);
    var places', kept' := places + [if types[0].Void? then NO_PLACE else |kept|],
                          if types[0].Void? then kept else kept + [types[0]];
    Grows(places', kept', types[1..]);
    if types[0].Of? && k == |kept| {
      i := 0;
      assert FindNonVoidPlace(places, |kept|, types)[|places|] == places'[|places|];
    } else {
      i := SlotFilled(places', kept', types[1..], k);
      i := i + 1;
    }
  }

  /** Some type has the slot `k`. */
  ghost predicate Filled(types: seq<Type>, k: nat) {
    var ps := NonVoidPlaceSequence(types);
    exists i :: 0 <= i < |types| && i < |ps| && types[i].Of? && ps[i] == k
  }

  /** The slots are a one-to-one map, in order and preserving types, from the non-void types onto the tuple; and a
      list no longer than an index can count gives its void types, and only those, no slot. */
  lemma PlacesAreSlots(types: seq<Type>)
    requires |types| <= NO_PLACE
    ensures var ps, ts := NonVoidPlaceSequence(types), RemoveVoidTuple(types);
      && |ps| == |types|
      && (forall i :: 0 <= i < |types| ==> (ps[i] == NO_PLACE <==> types[i].Void?))
      && (forall i :: 0 <= i < |types| && types[i].Of? ==> ps[i] < |ts| && ts[ps[i]] == types[i])
      && (forall i, j :: 0 <= i < j < |types| && types[i].Of? && types[j].Of? ==> ps[i] < ps[j])
      && (forall k :: 0 <= k < |ts| ==> Filled(types, k))
  {
    Grows([], [], types);
    forall i | 0 <= i < |types|
      ensures var ps, ts := NonVoidPlaceSequence(types), RemoveVoidTuple(types);
        if types[i].Void? then ps[i] == NO_PLACE else ps[i] < |ts| && ps[i] <= i && ts[ps[i]] == types[i]
    {
      PlaceOf([], [], types, i);
    }
    forall i, j | 0 <= i < j < |types| && types[i].Of? && types[j].Of?
      ensures NonVoidPlaceSequence(types)[i] < NonVoidPlaceSequence(types)[j]
    {
      PlacesIncrease([], [], types, i, j);
    }
    forall k | 0 <= k < |RemoveVoidTuple(types)|
      ensures Filled(types, k)
    {
      var i := SlotFilled([], [], types, k);
    }
  }
}
