/**
 `join`: the completion handlers of the children share a counter; the parent is resumed by the one that fails
 first, or by the last to succeed, and its locals are gone from then on.
 */
module Joins {
  import opened Prelude
  import opened Traits

  datatype Value = Value(ty: Type, content: int)

  /** How a child ends. */
  datatype Outcome = Returned(ret: Value) | Threw(error: int)

  /** What `join` gives its caller. */
  datatype Joined = Values(tuple: seq<Option<Value>>) | Failed(error: int)

  /** A child ends as its type says. */
  predicate WellTyped(types: seq<Type>, outcomes: seq<Outcome>) {
    && |outcomes| == |types| <= NO_PLACE
    && forall i :: 0 <= i < |types| && outcomes[i].Returned? ==> outcomes[i].ret.ty == types[i]
  }

  function Below(n: nat): (s: set<nat>)
    ensures |s| == n && forall i: nat :: i in s <==> i < n
  {
    if n == 0 then {} else Below(n - 1) + {n - 1}
  }

  /** The results of the children that returned one are in their slots. */
  ghost predicate InSlots(types: seq<Type>, ended: map<nat, Outcome>, tuple: seq<Option<Value>>) {
    && |tuple| == |RemoveVoidTuple(types)|
    && forall i :: i in ended ==> Stored(types, i, ended[i], tuple)
  }

  ghost predicate Stored(types: seq<Type>, i: nat, outcome: Outcome, tuple: seq<Option<Value>>) {
    i < |types| && outcome.Returned? && types[i].Of? ==>
      && i < |NonVoidPlaceSequence(types)| && NonVoidPlaceSequence(types)[i] < |tuple|
      && tuple[NonVoidPlaceSequence(types)[i]] == Some(outcome.ret)
  }

  /** The result of one more child goes to its slot. */
  lemma OneStored(types: seq<Type>, ended: map<nat, Outcome>, tuple: seq<Option<Value>>, i: nat, ret: Value)
    requires |types| <= NO_PLACE && InSlots(types, ended, tuple)
    requires i < |types| && i !in ended && ret.ty == types[i]
    ensures |NonVoidPlaceSequence(types)| == |types|
    ensures var place := NonVoidPlaceSequence(types)[i];
      && (place != NO_PLACE ==> place < |tuple|)
      && InSlots(types, ended[i := Returned(ret)], if place != NO_PLACE then tuple[place := Some(ret)] else tuple)
  {
    PlacesAreSlots(types);
  }

  /** The locals of the parent that the handlers refer to. */
  class Locals {
    var alive: bool
    var eptr: Option<int>
    var result: seq<Option<Value>>

    constructor (slots: nat)
      ensures alive && eptr == None && result == seq(slots, i => None)
    {
      alive, eptr, result := true, None, seq(slots, i => None);
    }

    method SetError(error: int)
      requires alive
      modifies this`eptr
      ensures eptr == Some(error)
    {
      eptr := Some(error);
    }

    method Store(place: nat, v: Value)
      requires alive && place < |result|
      modifies this`result
      ensures result == old(result)[place := Some(v)]
    {
      result := result[place := Some(v)];
    }
  }

  class Join {
    const types: seq<Type>
    const places: seq<nat>
    const locals: Locals
    var count: nat
    // the times the parent was resumed, and what it went on with
    var resumed: nat
    var joined: Option<Joined>

    // how the children ended that have, and those that have not
    ghost var ended: map<nat, Outcome>
    ghost var left: set<nat>

    ghost predicate Valid()
      reads this, locals
    {
      && |types| <= NO_PLACE && places == NonVoidPlaceSequence(types)
      && |ended| + |left| == |types| && (forall i: nat :: i in left <==> i < |types| && i !in ended)
      && (resumed == 0 ==> Open())
      && (resumed != 0 ==> resumed == 1 && count == 0 && !locals.alive && joined.Some? && ended != map[])
    }

    /** Before the parent is resumed: the results so far are in their slots, and children are to end. */
    ghost predicate Open()
      reads this, locals
    {
      && count == |left| && (|types| > 0 ==> count > 0) && joined == None
      && locals.alive && locals.eptr == None && InSlots(types, ended, locals.result)
      && forall i :: i in ended ==> ended[i].Returned?
    }

    /** `join` has returned the results of the children that have ended. */
    ghost predicate Delivered()
      reads this
    {
      joined.Some? && joined.value.Values? && InSlots(types, ended, joined.value.tuple)
    }

    constructor (types: seq<Type>)
      requires |types| <= NO_PLACE
      ensures Valid() && fresh(locals) && this.types == types && resumed == 0 && joined == None && ended == map[]
    {
      this.types := types;
      places := NonVoidPlaceSequence(types);
      locals := new Locals(|RemoveVoidTuple(types)|);
      count, resumed, joined := |types|, 0, None;
      ended, left := map[], Below(|types|);
    }

    /** The parent goes on, and its frame is gone when it has: `join` throws, or returns the tuple. */
    method Resume()
      requires locals.alive
      modifies this`resumed, this`joined, locals
      ensures resumed == old(resumed) + 1 && !locals.alive
      ensures joined
           == Some(if old(locals.eptr).Some? then Failed(old(locals.eptr).value) else Values(old(locals.result)))
    {
      resumed := resumed + 1;
      joined := Some(if locals.eptr.Some? then Failed(locals.eptr.value) else Values(locals.result));
      locals.alive := false;
    }

    /** The completion handler of child `i`. It touches the parent's locals only while they are there. */
    method Complete(i: nat, outcome: Outcome)
      requires Valid() && i < |types| && i !in ended && (outcome.Returned? ==> outcome.ret.ty == types[i])
      modifies this, locals
      ensures Valid() && ended == old(ended)[i := outcome] && |ended| == old(|ended|) + 1 <= |types|
      ensures resumed <= 1 && (joined.Some? <==> resumed == 1)
      ensures resumed == 1 <==> old(resumed) == 1 || outcome.Threw? || |ended| == |types|
      ensures old(resumed) == 1 ==> joined == old(joined)
      ensures old(resumed) == 0 && outcome.Threw? ==> joined == Some(Failed(outcome.error))
      ensures old(resumed) == 0 && outcome.Returned? && resumed == 1 ==> Delivered()
    {
      hide InSlots, NonVoidPlaceSequence;
      if resumed == 0 && outcome.Returned? {
        OneStored(types, ended, locals.result, i, outcome.ret);
      }
      ended, left := ended[i := outcome], left - {i};
      if count == 0 {
        return;
      }
      count := count - 1;
      match outcome {
        case Threw(error) =>
          locals.SetError(error);
          count := 0;
          Resume();
        case Returned(ret) =>
          if places[i] != NO_PLACE {
            locals.Store(places[i], ret);
          }
          if count == 0 {
            Resume();
          }
      }
    }
  }

  /** Each of `n` children at most once. */
  ghost predicate Children(order: seq<nat>, n: nat) {
    && (forall j :: 0 <= j < |order| ==> order[j] < n)
    && forall j, k :: 0 <= j < k < |order| ==> order[j] != order[k]
  }

  /** The error of the first child that failed among the first `k` to complete. */
  ghost function FirstFailure(outcomes: seq<Outcome>, order: seq<nat>, k: nat): Option<int>
    requires k <= |order| && Children(order, |outcomes|)
  {
    if k == 0 then None
    else
      var earlier, last := FirstFailure(outcomes, order, k - 1), outcomes[order[k - 1]];
      if earlier.Some? then earlier else if last.Threw? then Some(last.error) else None
  }

  /** The first `k` of `order` have ended. */
  ghost predicate SoFar(ended: map<nat, Outcome>, outcomes: seq<Outcome>, order: seq<nat>, k: nat) {
    && |ended| == k <= |order|
    && (forall j :: 0 <= j < |order| ==> (order[j] in ended <==> j < k))
    && forall i :: i in ended ==> i in order && i < |outcomes| && ended[i] == outcomes[i]
  }

  ghost function Ended(outcomes: seq<Outcome>, order: seq<nat>): map<nat, Outcome>
    requires Children(order, |outcomes|)
  {
    map i | i in order :: outcomes[i]
  }

  lemma AllEnded(ended: map<nat, Outcome>, outcomes: seq<Outcome>, order: seq<nat>)
    requires Children(order, |outcomes|) && SoFar(ended, outcomes, order, |order|)
    ensures ended == Ended(outcomes, order)
  {
  }

  lemma OneMore(ended: map<nat, Outcome>, outcomes: seq<Outcome>, order: seq<nat>, k: nat)
    requires Children(order, |outcomes|) && k < |order| && SoFar(ended, outcomes, order, k)
    ensures order[k] < |outcomes| && order[k] !in ended
    ensures SoFar(ended[order[k] := outcomes[order[k]]], outcomes, order, k + 1)
  {
  }

  lemma FailureStep(outcomes: seq<Outcome>, order: seq<nat>, k: nat)
    requires k < |order| && Children(order, |outcomes|)
    ensures var earlier, last := FirstFailure(outcomes, order, k), outcomes[order[k]];
      FirstFailure(outcomes, order, k + 1)
        == if earlier.Some? then earlier else if last.Threw? then Some(last.error) else None
  {
  }

  lemma NothingYet(outcomes: seq<Outcome>, order: seq<nat>)
    requires Children(order, |outcomes|)
    ensures FirstFailure(outcomes, order, 0) == None && SoFar(map[], outcomes, order, 0)
  {
  }

  /** The children of `join` complete in any order, all of them or so far: the parent is resumed once, at the first
      failure or after the last success, and goes on with that error or with every result in its slot. Without
      children it is never resumed. */
  method JoinAll(types: seq<Type>, outcomes: seq<Outcome>, order: seq<nat>)
    returns (resumed: nat, joined: Option<Joined>)
    requires WellTyped(types, outcomes) && Children(order, |outcomes|)
    ensures resumed <= 1 && (joined.Some? <==> resumed == 1)
    ensures var first := FirstFailure(outcomes, order, |order|);
      && (resumed == 1 <==> first.Some? || (|order| == |types| && types != []))
      && (first.Some? ==> joined == Some(Failed(first.value)))
      && (resumed == 1 && first.None? ==>
            joined.value.Values? && InSlots(types, Ended(outcomes, order), joined.value.tuple))
  {
    hide Join.Valid, InSlots, FirstFailure, SoFar, Children, Ended;
    NothingYet(outcomes, order);
    var join := new Join(types);
    ghost var first: Option<int> := None;
    var k := 0;
    while k < |order|
      invariant 0 <= k <= |order| && fresh(join) && fresh(join.locals) && join.types == types && join.Valid()
      invariant first == FirstFailure(outcomes, order, k)
      invariant SoFar(join.ended, outcomes, order, k) && |join.ended| == k
      invariant join.resumed <= 1 && (join.joined.Some? <==> join.resumed == 1)
      invariant join.resumed == 1 <==> first.Some? || (k == |types| && types != [])
      invariant first.Some? ==> join.joined == Some(Failed(first.value))
      invariant join.resumed == 1 && first.None? ==> join.Delivered()
    {
      var i := order[k];
      FailureStep(outcomes, order, k);
      OneMore(join.ended, outcomes, order, k);
      join.Complete(i, outcomes[i]);
      if first.None? && outcomes[i].Threw? {
        first := Some(outcomes[i].error);
      }
      k := k + 1;
    }
    AllEnded(join.ended, outcomes, order);
    resumed, joined := join.resumed, join.joined;
  }

  /** `join` of no children suspends its parent, and nobody resumes it. */
  method JoinNothing() returns (resumed: nat)
    ensures resumed == 0
  {
    var joined;
    resumed, joined := JoinAll([], [], []);
  }
}
