/**
 The recursive generator as the library runs it: promise objects linked by `parent`,
 where the outermost one keeps a pointer to the innermost one in the same cell that
 every other promise uses for its pointer to the outermost one.
 */
module Generators {
  import opened GeneratorSpec
  import opened Prelude

  /** A coroutine frame with the promise it holds. */
  class Promise {
    // The promise's own fields. `rootOrLeaf` is the union of `root_` and `leaf_`.
    var rootOrLeaf: Promise?
    var parent: Promise?
    var exception: YieldSequenceAwaiter?
    var value: Option<Value>

    // The frame: what the body still has to do, the awaiter it is suspended in, and
    // whether it is at its final suspension point or already destroyed.
    var code: Body
    var awaiting: YieldSequenceAwaiter?
    var done: bool
    var alive: bool

    // How many frames wait below this one.
    ghost const depth: nat

    constructor (body: Body, ghost depth: nat)
      ensures rootOrLeaf == this && parent == null && exception == null && awaiting == null
      ensures code == body && !done && alive && value == None && this.depth == depth
    {
      this.depth := depth;
      rootOrLeaf, parent, exception, value := this, null, null, None;
      code, awaiting, done, alive := body, null, false, true;
    }

    method YieldValue(x: Value)
      requires rootOrLeaf != null
      modifies rootOrLeaf`value
      ensures rootOrLeaf.value == Some(x)
    {
      rootOrLeaf.value := Some(x);
    }

    /** The outermost promise has no slot for an exception: it goes on to whoever resumed the frame. */
    method UnhandledException(e: Exn) returns (rethrown: bool)
      modifies if exception == null then {} else {exception}
      ensures rethrown <==> exception == null
      ensures exception != null ==> exception.exception == Some(e) && exception.gen == old(exception.gen)
    {
      if exception == null {
        return true;
      }
      exception.exception := Some(e);
      return false;
    }

    /** Hands control to the parent, which becomes the leaf, or to nobody. */
    method FinalSuspend() returns (next: Promise?)
      requires rootOrLeaf != null
      modifies this`done, rootOrLeaf`rootOrLeaf
      ensures done && next == parent
      ensures old(rootOrLeaf).rootOrLeaf == if parent != null then parent else old(rootOrLeaf.rootOrLeaf)
    {
      done := true;
      if parent != null {
        rootOrLeaf.rootOrLeaf := parent;
      }
      next := parent;
    }

    /** The outermost frame reaches its end; its exception, if any, leaves the resumed frame. */
    method StopOutermost(outcome: Outcome) returns (next: Promise?)
      requires rootOrLeaf != null && parent == null && exception == null
      modifies this`done, rootOrLeaf`rootOrLeaf
      ensures done && next == null && old(rootOrLeaf).rootOrLeaf == old(rootOrLeaf.rootOrLeaf)
    {
      if outcome.Threw? {
        var rethrown := UnhandledException(outcome.e);
        if rethrown {
          // an exception out of unhandled_exception leaves the frame at its final suspension point
          done, next := true, null;
          return;
        }
      }
      next := FinalSuspend();
    }

    /** A nested frame reaches its end: its exception, if any, goes to the awaiter that waits for it. */
    method EndNested(outcome: Outcome, ghost awaiter: YieldSequenceAwaiter) returns (next: Promise)
      requires rootOrLeaf != null && parent != null && exception == awaiter && awaiter.exception == None
      modifies this`done, rootOrLeaf`rootOrLeaf, awaiter
      ensures done && next == parent && old(rootOrLeaf).rootOrLeaf == parent
      ensures awaiter.Result() == outcome && awaiter.gen == old(awaiter.gen)
    {
      if outcome.Threw? {
        var rethrown := UnhandledException(outcome.e);
      }
      next := FinalSuspend();
    }

    /** The frame is resumed inside its `co_yield` of a generator: the expression has a value or throws,
        and the temporary awaiter dies with the nested frame it owns. */
    method AwaitResume()
      requires code.YieldFrom? && awaiting != null && awaiting.gen != null && awaiting.gen != this
      modifies this`code, this`awaiting, awaiting.gen`alive
      ensures awaiting == null && !old(awaiting.gen).alive
      ensures code == Resumed(old(code), old(awaiting).Result())
    {
      code := Resumed(code, awaiting.Result());
      awaiting.gen.alive := false;
      awaiting := null;
    }
  }

  /** Lives in the frame of the generator that yields another one, and owns the latter. */
  class YieldSequenceAwaiter {
    var gen: Promise?
    var exception: Option<Exn>

    constructor (g: Promise?)
      ensures gen == g && exception == None
    {
      gen, exception := g, None;
    }

    function Result(): Outcome
      reads this
    {
      if exception.Some? then Threw(exception.value) else Finished
    }

    /** Links the nested generator below the current one and makes it the leaf. The current promise's
        cell is read first: when it is the outermost one, the write to `leaf_` overwrites that very cell. */
    method AwaitSuspend(current: Promise) returns (next: Promise)
      requires gen != null && current.rootOrLeaf != null && gen != current && gen != current.rootOrLeaf
      modifies gen`rootOrLeaf, gen`parent, gen`exception, current.rootOrLeaf`rootOrLeaf
      ensures next == gen
      ensures gen.rootOrLeaf == old(current.rootOrLeaf) && old(current.rootOrLeaf).rootOrLeaf == gen
      ensures gen.parent == current && gen.exception == this
    {
      var root := current.rootOrLeaf;
      gen.rootOrLeaf := root;
      root.rootOrLeaf := gen;
      gen.parent := current;
      gen.exception := this;
      next := gen;
    }
  }

  datatype Status = Yielded | Completed | Raised(e: Exn)

  class Generator {
    const coro: Promise

    // The frames that are running or waiting, outermost first, the awaiters between them, and what
    // the frames still have to do.
    ghost var stack: seq<Promise>
    ghost var awaiters: seq<YieldSequenceAwaiter>
    ghost var codes: seq<Body>

    // Everything ever allocated for this generator.
    ghost var Repr: set<object>

    ghost predicate Valid()
      reads this, coro`rootOrLeaf, coro`parent, coro`exception, awaiters
      reads stack`rootOrLeaf, stack`parent, stack`exception, stack`code, stack`awaiting, stack`done, stack`alive
      ensures Valid() ==> 0 < |stack| == |codes| == |awaiters| + 1 && Suspended(codes[..|codes| - 1])
      ensures Valid() ==> codes[|codes| - 1] == stack[|stack| - 1].code
      ensures Valid() ==> this in Repr && coro in Repr && stack[|stack| - 1] in Repr
    {
      && 0 < |stack| == |codes| == |awaiters| + 1
      && stack[0] == coro
      && this in Repr && (forall p :: p in stack ==> p in Repr) && (forall a :: a in awaiters ==> a in Repr)
      && (forall i :: 0 <= i < |stack| ==> stack[i].depth == i)
      && Linked()
    }

    /** The shared cell of the outermost promise points at the innermost one (at itself when they coincide);
        every other promise's cell points at the outermost one, and its `parent` at the frame below it. */
    ghost predicate Linked()
      requires 0 < |stack| == |codes| == |awaiters| + 1
      reads this, coro`rootOrLeaf, coro`parent, coro`exception, awaiters
      reads stack`rootOrLeaf, stack`parent, stack`exception, stack`code, stack`awaiting, stack`done, stack`alive
    {
      && coro.parent == null && coro.exception == null
      && coro.rootOrLeaf == stack[|stack| - 1]
      && stack[|stack| - 1].awaiting == null
      && (forall i :: 0 <= i < |stack| ==> stack[i].alive && (stack[i].done ==> |stack| == 1))
      && (forall i :: 0 <= i < |stack| ==> codes[i] == stack[i].code)
      && Suspended(codes[..|codes| - 1])
      && (forall i :: 0 <= i < |awaiters| ==> Link(stack[i], awaiters[i], stack[i + 1]))
    }

    /** `lower` is suspended in `awaiter`, which owns the generator of `upper`. */
    ghost predicate Link(lower: Promise, awaiter: YieldSequenceAwaiter, upper: Promise)
      reads lower`awaiting, awaiter, upper`rootOrLeaf, upper`parent, upper`exception
    {
      && lower.awaiting == awaiter
      && awaiter.gen == upper && awaiter.exception == None
      && upper.rootOrLeaf == coro && upper.parent == lower && upper.exception == awaiter
    }

    ghost function Todo(): Run
      requires codes != [] && Suspended(codes[..|codes| - 1])
      reads this`codes
    {
      Pending(codes)
    }

    /** The cell of every frame that may read it as a pointer to the outermost promise - the leaf, and every
        frame that waits in between - does point there, although the outermost promise's own cell does
        exactly when it is the leaf itself; and the `parent` pointers lead from the leaf to the outermost
        promise without a cycle. */
    lemma CellsSound()
      requires Valid()
      ensures stack[|stack| - 1].rootOrLeaf == coro
      ensures forall p :: p in stack && p != coro ==> p.rootOrLeaf == coro
      ensures coro.rootOrLeaf == stack[|stack| - 1]
      ensures coro.rootOrLeaf == coro <==> stack == [coro]
      ensures forall i :: 1 <= i < |stack| ==> stack[i].parent == stack[i - 1] && stack[i - 1] !in stack[i..]
      ensures forall i :: 1 <= i < |stack| ==> stack[i].exception == awaiters[i - 1]
    {
      forall i | 1 <= i < |stack|
        ensures stack[i].rootOrLeaf == coro && stack[i].parent == stack[i - 1] && stack[i].exception == awaiters[i - 1]
      {
        assert Link(stack[i - 1], awaiters[i - 1], stack[i]);
      }
    }

    /** The frame below a nested leaf is suspended in the awaiter that owns the leaf. */
    lemma LeafAwaited()
      requires Valid() && |stack| >= 2
      ensures var leaf, lower, awaiter := stack[|stack| - 1], stack[|stack| - 2], awaiters[|stack| - 2];
        && leaf.rootOrLeaf == coro && leaf.parent == lower && leaf.exception == awaiter
        && lower.awaiting == awaiter && lower.code.YieldFrom? && codes[|stack| - 2] == lower.code
        && awaiter.gen == leaf && awaiter.exception == None && leaf !in stack[..|stack| - 1]
    {
      assert Link(stack[|stack| - 2], awaiters[|stack| - 2], stack[|stack| - 1]);
      assert codes[..|codes| - 1][|stack| - 2] == codes[|stack| - 2];
    }

    constructor (body: Body)
      ensures Valid() && fresh(Repr) && stack == [coro] && !coro.done
      ensures codes == [body] && coro.value == None
    {
      coro := new Promise(body, 0);
      stack, awaiters, codes, Repr := [coro], [], [body], {this, coro};
    }

    /** The leaf `co_yield`s a generator: its frame is created and entered. */
    method Enter(current: Promise) returns (next: Promise)
      requires Valid() && !coro.done && current == stack[|stack| - 1] && current.code.YieldFrom?
      modifies this, coro`rootOrLeaf, current`rootOrLeaf, current`awaiting
      ensures Valid() && !coro.done
      ensures next == stack[|stack| - 1] && stack == old(stack) + [next] && fresh(Repr - old(Repr))
      ensures codes == old(codes) + [current.code.nested]
    {
      hide Generator.Valid, Suspended, Flatten, Pending, Unwind;
      CellsSound();
      var nested := new Promise(current.code.nested, |stack|);
      var awaiter := new YieldSequenceAwaiter(nested);
      current.awaiting := awaiter;
      next := awaiter.AwaitSuspend(current);
      stack, awaiters, codes := stack + [nested], awaiters + [awaiter], codes + [nested.code];
      Repr := Repr + {nested, awaiter};
      assert Repr - old(Repr) <= {nested, awaiter};
      Entered(current, nested, awaiter);
    }

    /** Only the links next to the new frame have changed. */
    twostate lemma Entered(current: Promise, new nested: Promise, new awaiter: YieldSequenceAwaiter)
      requires old(Valid()) && !old(coro.done) && current == old(stack)[|old(stack)| - 1]
      requires stack == old(stack) + [nested] && awaiters == old(awaiters) + [awaiter]
      requires fresh(nested) && fresh(awaiter) && current.code.YieldFrom?
      requires nested.alive && !nested.done && nested.awaiting == null && nested.depth == |old(stack)|
      requires forall p :: p in old(stack) ==>
        && p.alive == old(p.alive) && p.done == old(p.done) && p.code == old(p.code)
        && p.parent == old(p.parent) && p.exception == old(p.exception)
        && (p != current ==> p.awaiting == old(p.awaiting))
        && (p != coro ==> p.rootOrLeaf == old(p.rootOrLeaf))
      requires forall a :: a in old(awaiters) ==> a.gen == old(a.gen) && a.exception == old(a.exception)
      requires coro.rootOrLeaf == nested && Link(current, awaiter, nested)
      requires codes == old(codes) + [nested.code] && Repr == old(Repr) + {nested, awaiter}
      ensures Valid() && !coro.done
    {
      forall i | 0 <= i < |awaiters|
        ensures Link(stack[i], awaiters[i], stack[i + 1])
      {
        if i < |awaiters| - 1 {
          assert stack[i] == old(stack)[i] && stack[i + 1] == old(stack)[i + 1];
          assert old(Link(stack[i], awaiters[i], stack[i + 1]));
        }
      }
    }

    /** A nested leaf has returned or thrown: its parent becomes the leaf, learns about the outcome from
        the awaiter, and destroys the nested frame with the awaiter. */
    method Leave(current: Promise, outcome: Outcome, ghost parent: Promise, ghost awaiter: YieldSequenceAwaiter)
      returns (next: Promise)
      requires Valid() && |stack| >= 2 && current == stack[|stack| - 1]
      requires parent == current.parent && awaiter == current.exception
      modifies this`stack, this`awaiters, this`codes, coro`rootOrLeaf, current`done, current`alive
      modifies parent`code, parent`awaiting, awaiter
      ensures Valid() && !coro.done
      ensures next == parent == stack[|stack| - 1]
      ensures stack == old(stack)[..|old(stack)| - 1] && awaiters == old(awaiters)[..|stack| - 1]
      ensures codes == old(codes)[..|stack| - 1] + [Resumed(old(codes)[|stack| - 1], outcome)]
      ensures !current.alive
    {
      hide Generator.Valid;
      LeafAwaited();
      next := current.EndNested(outcome, awaiter);
      next.AwaitResume();
      codes := codes[..|stack| - 2] + [next.code];
      stack, awaiters := stack[..|stack| - 1], awaiters[..|awaiters| - 1];
      Left(current, parent, awaiter);
    }

    /** Only the link to the popped frame is gone. */
    twostate lemma Left(current: Promise, new parent: Promise, new awaiter: YieldSequenceAwaiter)
      requires old(Valid()) && |old(stack)| >= 2 && current == old(stack)[|old(stack)| - 1]
      requires stack == old(stack)[..|old(stack)| - 1] && awaiters == old(awaiters)[..|old(awaiters)| - 1]
      requires parent == old(stack)[|stack| - 1] && awaiter == old(awaiters)[|stack| - 1] && parent.awaiting == null
      requires forall p :: p in stack ==>
        && p.alive == old(p.alive) && p.done == old(p.done)
        && p.parent == old(p.parent) && p.exception == old(p.exception)
        && (p != parent ==> p.code == old(p.code) && p.awaiting == old(p.awaiting))
        && (p != coro ==> p.rootOrLeaf == old(p.rootOrLeaf))
      requires forall a :: a in old(awaiters) && a != awaiter ==> a.gen == old(a.gen) && a.exception == old(a.exception)
      requires coro.rootOrLeaf == parent
      requires codes == old(codes)[..|stack| - 1] + [parent.code] && Repr == old(Repr)
      ensures Valid() && !coro.done
    {
      forall i | 0 <= i < |awaiters|
        ensures Link(stack[i], awaiters[i], stack[i + 1])
      {
        assert old(Link(stack[i], awaiters[i], stack[i + 1]));
      }
    }

    /** The leaf goes on with its body without switching frames. */
    method Advance(current: Promise, ghost values: seq<Value>, code: Body)
      requires Valid() && !coro.done && current == stack[|stack| - 1]
      requires Flatten(current.code) == Prefix(values, 0, 1, Flatten(code))
      modifies this`codes, current`code
      ensures Valid() && !coro.done
      ensures Leads(old(Todo()), values, 0, 1, Todo())
    {
      hide Pending, Unwind, Flatten, Prefix;
      PendingStep(codes, values, code);
      current.code, codes := code, codes[|stack| - 1 := code];
    }

    /** The leaf yields: the value goes to the outermost promise, where the consumer looks for it. */
    method Publish(current: Promise, v: Value, rest: Body)
      requires Valid() && !coro.done && current == stack[|stack| - 1] && current.code == Yield(v, rest)
      modifies this`codes, current`code, coro`value
      ensures Valid() && !coro.done && coro.value == Some(v)
      ensures Leads(old(Todo()), [v], 0, 1, Todo())
    {
      hide Generator.Valid;
      CellsSound();
      current.YieldValue(v);
      Advance(current, [v], rest);
    }

    /** The leaf has returned or thrown: a nested one hands over to its parent, the outermost one stops,
        and its exception goes on to the consumer. */
    method End(current: Promise) returns (status: Status, next: Promise?)
      requires Valid() && !coro.done && current == stack[|stack| - 1]
      requires current.code.Return? || current.code.Throw?
      modifies Repr
      ensures Valid()
      ensures Repr == old(Repr)
      ensures next != null ==> !coro.done && next == stack[|stack| - 1] && |stack| == |old(stack)| - 1
      ensures next != null ==> Leads(old(Todo()), [], 0, 1, Todo())
      ensures next == null ==> coro.done && stack == old(stack) == [coro] && !status.Yielded?
      ensures next == null ==>
        old(Todo()) == Todo() == Run([], if status.Completed? then Finished else Threw(status.e), 0, 1)
    {
      CellsSound();
      ghost var before := codes;
      var outcome := if current.code.Throw? then Threw(current.code.e) else Finished;
      status := if current.code.Throw? then Raised(current.code.e) else Completed;
      if current.parent == null {
        next := current.StopOutermost(outcome);
      } else {
        ghost var awaiter := awaiters[|stack| - 2];
        next := Leave(current, outcome, current.parent, awaiter);
        PendingLeave(before, outcome);
      }
    }

    /** The leaf `co_yield`s a generator, which is all that has been done of what was to do. */
    method Nest(current: Promise) returns (next: Promise)
      requires Valid() && !coro.done && current == stack[|stack| - 1] && current.code.YieldFrom?
      modifies this, coro`rootOrLeaf, current`rootOrLeaf, current`awaiting
      ensures Valid() && !coro.done && fresh(Repr - old(Repr))
      ensures next == stack[|stack| - 1] && |stack| == |old(stack)| + 1
      ensures Leads(old(Todo()), [], 1, 1, Todo())
    {
      hide Generator.Valid, Leads, Pending, Unwind, Flatten, Prefix;
      PendingEnter(codes);
      next := Enter(current);
    }

    /** One action of the leaf other than yielding a value. `next` is the leaf to go on with; it is null
        when the outermost frame has ended. */
    method Pass(current: Promise) returns (status: Status, next: Promise?, transfers: nat, ghost entered: nat)
      requires Valid() && !coro.done && current == stack[|stack| - 1] && !current.code.Yield?
      modifies Repr
      ensures Valid() && fresh(Repr - old(Repr))
      ensures next != null ==>
        && !coro.done && next == stack[|stack| - 1]
        && transfers == 2 * entered - (|stack| - |old(stack)|)
        && Leads(old(Todo()), [], entered, 1, Todo())
      ensures next == null ==>
        && coro.done && stack == old(stack) == [coro] && !status.Yielded?
        && old(Todo()) == Todo() == Run([], if status.Completed? then Finished else Threw(status.e), 0, 1)
    {
      assert current.code.YieldFromEmpty? ==> Flatten(current.code) == Prefix([], 0, 1, Flatten(current.code.next));
      hide Generator.Valid, Leads, Pending, Unwind, Flatten, Prefix;
      status, transfers, entered := Completed, 0, 0;
      if current.code.YieldFromEmpty? {
        Advance(current, [], current.code.next);
        next := current;
      } else if current.code.YieldFrom? {
        next := Nest(current);
        transfers, entered := 1, 1;
      } else {
        status, next := End(current);
        transfers := if next == null then 0 else 1;
      }
    }

    /** Resuming the leaf: frames hand control to one another until one yields or the outermost one ends.
        Every nested generator that was entered meanwhile and has ended costs two transfers, one that is
        still on the stack costs one. */
    method Resume(leaf: Promise) 
      returns (status: Status, transfers: nat, ghost yielded: seq<Value>, ghost entered: nat, ghost actions: nat)
      requires Valid() && !coro.done && leaf == stack[|stack| - 1]
      modifies Repr
      ensures Valid() && fresh(Repr - old(Repr))
      ensures transfers == 2 * entered - (|stack| - |old(stack)|)
      ensures Leads(old(Todo()), yielded, entered, actions, Todo())
      ensures status.Yielded? ==>
        !coro.done && coro.value.Some? && yielded == [coro.value.value] && Todo().actions < old(Todo()).actions
      ensures !status.Yielded? ==>
        coro.done && stack == [coro] && yielded == []
        && Todo() == Run([], if status.Completed? then Finished else Threw(status.e), 0, 1)
    {
      hide Generator.Valid;
      var current := leaf;
      transfers, yielded, entered, actions := 0, [], 0, 0;
      while !current.code.Yield?
        invariant Valid() && !coro.done && current == stack[|stack| - 1]
        invariant fresh(Repr - old(Repr))
        invariant transfers == 2 * entered - (|stack| - |old(stack)|)
        invariant Leads(old(Todo()), [], entered, actions, Todo())
        decreases Todo().actions
      {
        ghost var before := Todo();
        var next: Promise?, hops: nat;
        ghost var deeper: nat;
        status, next, hops, deeper := Pass(current);
        if next == null {
          return;
        }
        LeadsOn(old(Todo()), [], entered, actions, before, [], deeper, 1, Todo());
        current, transfers, entered, actions := next, transfers + hops, entered + deeper, actions + 1;
      }
      ghost var before, v := Todo(), current.code.v;
      Publish(current, current.code.v, current.code.next);
      LeadsOn(old(Todo()), [], entered, actions, before, [v], 0, 1, Todo());
      status, yielded, actions := Yielded, [v], actions + 1;
    }

    /** Destroying a frame destroys the awaiter it is suspended in, and with it the generators above. */
    method Destroy(frame: Promise, ghost depth: nat) returns (order: seq<Promise>)
      requires 0 < |stack| == |awaiters| + 1 && depth < |stack| && frame == stack[depth]
      requires forall i :: 0 <= i < |stack| ==> stack[i].depth == i
      requires stack[|stack| - 1].awaiting == null
      requires forall i :: 0 <= i < |awaiters| ==> Link(stack[i], awaiters[i], stack[i + 1])
      requires forall i :: depth <= i < |stack| ==> stack[i].alive
      modifies stack`alive
      ensures |order| == |stack| - depth
      ensures forall k :: 0 <= k < |order| ==> order[k] == stack[|stack| - 1 - k]
      ensures forall i :: depth <= i < |stack| ==> !stack[i].alive
      ensures forall i :: 0 <= i < depth ==> stack[i].alive == old(stack[i].alive)
      decreases |stack| - depth
    {
      assert depth < |awaiters| ==> Link(stack[depth], awaiters[depth], stack[depth + 1]);
      order := [];
      if frame.awaiting != null {
        order := Destroy(frame.awaiting.gen, depth + 1);
      }
      frame.alive := false;
      order := order + [frame];
    }
  }

  /** A consumer that iterates a generator from `begin` to the sentinel, or until it throws. */
  method Iterate(body: Body) returns (values: seq<Value>, outcome: Outcome, resumes: nat, transfers: nat)
    ensures values == Flatten(body).values && outcome == Flatten(body).outcome
    ensures resumes == |values| + 1
    ensures transfers == 2 * Flatten(body).entered
  {
    hide Generator.Valid, Leads, Flatten;
    var g := new Generator(body);
    assert g.codes[..0] == [];
    values := [];
    var status;
    ghost var seen: seq<Value>, entered: nat, actions: nat;
    status, transfers, seen, entered, actions := g.Resume(g.coro);
    resumes := 1;
    while status.Yielded?
      invariant g.Valid() && fresh(g.Repr)
      invariant status.Yielded? ==> !g.coro.done && g.coro.value.Some? && seen == values + [g.coro.value.value]
      invariant !status.Yielded? ==> seen == values && |g.stack| == 1
      invariant !status.Yielded? ==> g.Todo() == Run([], if status.Completed? then Finished else Threw(status.e), 0, 1)
      invariant Leads(Flatten(body), seen, entered, actions, g.Todo())
      invariant transfers == 2 * entered - (|g.stack| - 1)
      invariant resumes == |values| + 1
      decreases status.Yielded?, g.Todo().actions
    {
      values := values + [g.coro.value.value];
      ghost var before := g.Todo();
      var hops;
      ghost var next: seq<Value>, deeper: nat, more: nat;
      g.CellsSound();
      status, hops, next, deeper, more := g.Resume(g.coro.rootOrLeaf);
      LeadsOn(Flatten(body), seen, entered, actions, before, next, deeper, more, g.Todo());
      seen := seen + next;
      resumes, transfers, entered, actions := resumes + 1, transfers + hops, entered + deeper, actions + more;
    }
    LeadsToEnd(Flatten(body), values, entered, actions, if status.Completed? then Finished else Threw(status.e));
    outcome := if status.Completed? then Finished else Threw(status.e);
  }

  /** Iterating a generator that yields `before`, then a generator that yields `vs` and ends as `end` says, then `ws`.
      If the nested generator throws, `us` are yielded where its exception is handled, if it is. */
  method IterateNested(before: seq<Value>, vs: seq<Value>, end: Outcome, ws: seq<Value>,
                       handled: bool, us: seq<Value>)
      returns (values: seq<Value>, outcome: Outcome)
    ensures end.Finished? ==> values == before + vs + ws && outcome == Finished
    ensures end.Threw? && handled ==> values == before + vs + us && outcome == Finished
    ensures end.Threw? && !handled ==> values == before + vs && outcome == end
  {
    var last := if end.Finished? then Return else Throw(end.e);
    var catches: imap<Exn, Body> := if end.Threw? && handled then imap[end.e := Plain(us, Return)] else imap[];
    var frame := YieldFrom(Plain(vs, last), Plain(ws, Return), catches);
    PlainNested(before, vs, last, Plain(ws, Return), catches);
    PlainReturns(ws);
    PlainReturns(us);
    hide Flatten, Plain;
    var resumes, transfers;
    values, outcome, resumes, transfers := Iterate(Plain(before, frame));
  }
}
