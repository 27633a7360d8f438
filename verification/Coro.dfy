/**
 Coroutines as the library runs them: promise objects linked by `prevHandle`, a context
 that resumes queued handles batch by batch, and frames that destroy themselves.
 */
module Coroutines {
  import opened CoroSpec
  import opened Prelude

  datatype Storage = Empty | Stored(result: Result)

  /** A coroutine frame with the promise it holds. */
  class Frame {
    // promise_type
    var isLaunched: bool
    var prevHandle: Frame?
    var storage: Storage
    var callback: Option<Label>

    // the frame: what the body still has to do, the coroutine it awaits, whether it is freed
    var code: Prog
    var awaiting: Frame?
    var destroyed: bool

    // the coroutines that wait for this one, outermost first, and the handler of the outermost
    ghost var below: seq<Prog>
    ghost var handler: Option<Label>
    ghost var ticket: nat

    constructor (body: Prog)
      ensures !isLaunched && prevHandle == null && storage == Empty && callback == None
      ensures code == body && awaiting == null && !destroyed
    {
      isLaunched, prevHandle, storage, callback := false, null, Empty, None;
      code, awaiting, destroyed := body, null, false;
    }

    /** A launched coroutine belongs to whoever resumes it: `~Coro` leaves its frame alone from now on. */
    method Launch(prev: Frame?, cb: Option<Label>, ghost root: Option<Label>, ghost waiting: seq<Prog>)
      modifies this
      ensures isLaunched && prevHandle == prev && callback == cb && handler == root && below == waiting
      ensures storage == old(storage) && code == old(code) && awaiting == old(awaiting) && destroyed == old(destroyed)
    {
      isLaunched, prevHandle, callback := true, prev, cb;
      handler, below := root, waiting;
    }

    ghost function AsTask(): Task
      reads this
    {
      Task(handler, below, code)
    }
  }

  /** How many frames a set of chains is made of. */
  ghost function Frames(tasks: seq<Task>): nat {
    if tasks == [] then 0 else |tasks[0].below| + 1 + Frames(tasks[1..])
  }

  lemma {:induction false} FramesPush(tasks: seq<Task>, t: Task)
    ensures Frames(tasks + [t]) == Frames(tasks) + |t.below| + 1
  {
    if tasks == [] {
      assert (tasks + [t])[1..] == [];
    } else {
      assert (tasks + [t])[1..] == tasks[1..] + [t];
      FramesPush(tasks[1..], t);
    }
  }

  lemma OneMore(live: set<Frame>, f: Frame)
    requires f !in live
    ensures |live + {f}| == |live| + 1
  {
  }

  lemma NothingPromised(arrivals: seq<seq<Root>>)
    ensures Promises(Concat(arrivals[..0])) == NOTHING
  {
  }

  lemma {:induction false} PromisedPrefix(arrivals: seq<seq<Root>>, k: nat)
    requires k <= |arrivals|
    ensures Covers(Promises(Concat(arrivals)), Promises(Concat(arrivals[..k])))
    decreases |arrivals|
  {
    if k < |arrivals| {
      var init := arrivals[..|arrivals| - 1];
      assert init[..k] == arrivals[..k];
      PromisedPrefix(init, k);
      PromisesGrow(Concat(init), arrivals[|arrivals| - 1]);
    } else {
      assert arrivals[..k] == arrivals;
    }
  }

  lemma OneMoves(live: set<Frame>, finished: set<Frame>, f: Frame)
    requires f in live && live !! finished
    ensures |live - {f}| == |live| - 1 && |finished + {f}| == |finished| + 1 && live - {f} !! finished + {f}
  {
  }

  class CoroContext {
    // what other threads spawn, and how much of it has come
    const arrivals: seq<seq<Root>>
    var come: nat

    var pending: seq<Frame>
    var coroNum: int
    // how many frames were created and destroyed
    var created: nat
    var freed: nat
    var calls: seq<(Label, Result)>
    var terminated: bool

    // Everything queued (the rest of the running batch, then `pending`) and what it stands for.
    ghost var queue: seq<Frame>
    ghost var todo: seq<Task>
    ghost var base: nat

    // The frames that have not finished, and those that have and are still inside their final
    // suspension; what was promised to the callers, and the actions taken.
    ghost var live: set<Frame>
    ghost var finished: set<Frame>
    ghost var promised: Debt
    ghost var spent: nat
    ghost var Repr: set<object>

    ghost predicate Valid()
      reads this`queue, this`todo, this`base, this`live, this`finished, this`Repr, this`coroNum,
            this`created, this`freed, live, finished
      ensures Valid() ==> this in Repr && live <= Repr && finished <= Repr && live !! finished
      ensures Valid() ==> AllWaiting(todo) && |queue| == |todo|
      ensures Valid() ==> forall f :: f in live ==> Waiting(f.below)
      ensures Valid() ==> forall f :: f in queue ==> f in live
    {
      && this in Repr && live <= Repr && finished <= Repr && live !! finished
      && coroNum == |live| + |finished| == created - freed
      && (forall f :: f in finished ==> !f.destroyed && f.storage.Stored?)
      && |queue| == |todo| && AllWaiting(todo)
      && (forall k :: 0 <= k < |queue| ==> Queued(k))
      && (forall f :: f in queue ==> f in live)
      && (forall f :: f in live ==> Alive(f))
    }

    ghost predicate Queued(k: nat)
      requires k < |queue| == |todo|
      reads this`queue, this`todo, this`base, this`live, live
    {
      && queue[k] in live
      && queue[k].awaiting == null
      && queue[k].ticket == base + k
      && todo[k] == queue[k].AsTask()
    }

    /** A coroutine that has not finished; the one that awaits it has not finished either. */
    ghost predicate Alive(f: Frame)
      requires f in live
      reads this`live, live
    {
      && f.isLaunched && !f.destroyed && f.storage == Empty && Waiting(f.below)
      && (f.prevHandle == null ==> f.below == [] && f.callback == f.handler)
      && (f.prevHandle != null ==>
            var p := f.prevHandle;
            && p in live && p.awaiting == f && p.code.Await?
            && f.below == p.below + [p.code] && f.handler == p.handler)
    }

    ghost predicate Balanced(running: Debt)
      requires AllWaiting(todo)
      reads this`promised, this`calls, this`spent, this`todo
    {
      Ledger(promised, calls, spent, running, todo)
    }

    /** What has been promised is what the coroutines that have come amount to. */
    ghost predicate Fed()
      reads this`promised, this`come
    {
      come <= |arrivals| && promised == Promises(Concat(arrivals[..come]))
    }

    /** How many actions there will be, whatever else comes. */
    ghost function Bound(): nat {
      Promises(Concat(arrivals)).actions
    }

    lemma Bounded()
      requires Fed()
      ensures promised.actions <= Bound()
    {
      PromisedPrefix(arrivals, come);
    }

    /** The program is bound to terminate, and has made no call that was not promised. */
    ghost predicate Doomed()
      reads this`promised, this`calls, this`come
    {
      Fed() && promised.doomed && multiset(calls) <= promised.calls
    }

    method Push(h: Frame)
      requires Valid() && h in live && h.awaiting == null && h !in queue && Waiting(h.below)
      modifies this`pending, this`queue, this`todo, h`ticket
      ensures Valid()
      ensures queue == old(queue) + [h] && pending == old(pending) + [h] && todo == old(todo) + [h.AsTask()]
    {
      hide CoroContext.Queued, CoroContext.Alive;
      pending := pending + [h];
      h.ticket := base + |queue|;
      queue, todo := queue + [h], todo + [h.AsTask()];
      Pushed(h);
    }

    /** Those in front are as they were. */
    twostate lemma Pushed(h: Frame)
      requires old(Valid()) && h in live && h.awaiting == null && h.ticket == base + old(|queue|)
      requires live == old(live) && base == old(base) && h !in old(queue)
      requires queue == old(queue) + [h] && todo == old(todo) + [h.AsTask()]
      requires forall g :: g in live && g != h ==> unchanged(g)
      requires h.isLaunched == old(h.isLaunched) && h.destroyed == old(h.destroyed) && h.storage == old(h.storage)
      requires h.below == old(h.below) && h.prevHandle == old(h.prevHandle) && h.callback == old(h.callback)
      requires h.handler == old(h.handler) && h.awaiting == old(h.awaiting) && h.code == old(h.code)
      ensures |queue| == |todo|
      ensures forall k :: 0 <= k < |queue| ==> Queued(k)
      ensures forall g :: g in live ==> Alive(g)
    {
      forall k | 0 <= k < |queue| ensures Queued(k) {
        if k < |old(queue)| {
          assert old(Queued(k)) && queue[k] == old(queue)[k];
        }
      }
      forall g | g in live ensures Alive(g) { assert old(Alive(g)); }
    }

    /** A new frame joins the live ones. */
    method Adopt(f: Frame)
      requires Valid() && f !in Repr
      requires f.isLaunched && !f.destroyed && f.storage == Empty && Waiting(f.below)
      requires f.prevHandle == null ==> f.below == [] && f.callback == f.handler
      requires f.prevHandle != null ==>
        var p := f.prevHandle;
        p in live && p.awaiting == f && p.code.Await? && f.below == p.below + [p.code] && f.handler == p.handler
      modifies this`coroNum, this`created, this`live, this`Repr
      ensures Valid() && live == old(live) + {f} && |live| == |old(live)| + 1 && Repr == old(Repr) + {f}
    {
      hide CoroContext.Queued, CoroContext.Alive;
      OneMore(live, f);
      coroNum, created, live, Repr := coroNum + 1, created + 1, live + {f}, Repr + {f};
      Joined(f);
    }

    /** The others are as they were. */
    twostate lemma Joined(new f: Frame)
      requires old(Valid()) && live == old(live) + {f} && f !in old(live)
      requires unchanged(this`queue) && unchanged(this`todo) && unchanged(this`base)
      requires forall g :: g in old(live) ==> unchanged(g)
      requires Alive(f)
      ensures |queue| == |todo|
      ensures forall k :: 0 <= k < |queue| ==> Queued(k)
      ensures forall g :: g in live ==> Alive(g)
    {
      forall k | 0 <= k < |queue| ensures Queued(k) { assert old(Queued(k)) && queue[k] in queue; }
      forall g | g in live ensures Alive(g) { assert g != f ==> old(Alive(g)); }
    }

    /** A coroutine awaits a frame that has not started. */
    method Link(h: Frame, child: Frame)
      requires Valid() && h in live && h !in queue && h.awaiting == null && child !in live
      modifies h`awaiting
      ensures Valid() && h.awaiting == child
    {
      h.awaiting := child;
      forall k | 0 <= k < |queue| ensures Queued(k) { assert old(Queued(k)) && queue[k] in queue; }
      forall g | g in live ensures Alive(g) { assert old(Alive(g)); }
    }

    /** `spawn`: the coroutine is launched, its handler set, and its handle queued. */
    method Spawn(body: Prog, handler: Option<Label>) returns (ghost f: Frame)
      requires Valid()
      modifies this`pending, this`coroNum, this`created, this`queue, this`todo, this`live, this`Repr
      ensures Valid() && fresh(f) && live == old(live) + {f} && |live| == |old(live)| + 1 && Repr == old(Repr) + {f}
      ensures todo == old(todo) + [Task(handler, [], body)]
      ensures queue == old(queue) + [f] && pending == old(pending) + [f]
    {
      hide CoroContext.Valid, CoroContext.Queued;
      var child := new Frame(body);
      child.Launch(null, handler, handler, []);
      Adopt(child);
      Push(child);
      f := child;
    }

    /** `co_await`: the child is launched and queued, and its final suspension will resume `h`. */
    method AwaitSuspend(h: Frame) returns (ghost f: Frame)
      requires Valid() && h in live && h !in queue && h.awaiting == null && h.code.Await?
      modifies this`pending, this`coroNum, this`created, this`queue, this`todo, this`live, this`Repr, h`awaiting
      ensures Valid() && fresh(f) && live == old(live) + {f} && |live| == |old(live)| + 1 && Repr == old(Repr) + {f}
      ensures todo == old(todo) + [Task(h.handler, h.below + [h.code], h.code.child)]
      ensures queue == old(queue) + [f] && pending == old(pending) + [f]
    {
      hide CoroContext.Valid, CoroContext.Queued;
      var child := new Frame(h.code.child);
      child.Launch(h, None, h.handler, h.below + [h.code]);
      Link(h, child);
      Adopt(child);
      Push(child);
      f := child;
    }

    /** A coroutine that nobody unfinished is awaited by goes on with `code`; a temporary it awaited is gone. */
    method GoOn(h: Frame, code: Prog)
      requires Valid() && h in live && h !in queue && (h.awaiting == null || h.awaiting !in live)
      modifies h`code, h`awaiting
      ensures Valid() && h.code == code && h.awaiting == null
    {
      hide CoroContext.Queued, CoroContext.Alive;
      h.code, h.awaiting := code, null;
      WentOn(h);
    }

    /** Nobody else depends on where a running coroutine is. */
    twostate lemma WentOn(h: Frame)
      requires old(Valid()) && h in live && h !in queue && h.awaiting == null
      requires old(h.awaiting == null || h.awaiting !in live)
      requires live == old(live) && queue == old(queue) && todo == old(todo) && base == old(base)
      requires forall g :: g in live && g != h ==> unchanged(g)
      requires h.isLaunched == old(h.isLaunched) && h.destroyed == old(h.destroyed) && h.storage == old(h.storage)
      requires h.below == old(h.below) && h.prevHandle == old(h.prevHandle) && h.callback == old(h.callback)
      requires h.handler == old(h.handler)
      ensures |queue| == |todo|
      ensures forall k :: 0 <= k < |queue| ==> Queued(k)
      ensures forall g :: g in live ==> Alive(g)
    {
      forall k | 0 <= k < |queue| ensures Queued(k) { assert old(Queued(k)) && queue[k] in queue; }
      forall g | g in live ensures Alive(g) { assert old(Alive(g)); }
    }

    /** The body has ended: its result is stored before anybody else is resumed. */
    method Store(h: Frame, result: Result)
      requires Valid() && h in live && h !in queue && h.awaiting == null
      modifies h`storage, this`live, this`finished
      ensures Valid() && live == old(live) - {h} && |live| == |old(live)| - 1 && finished == old(finished) + {h}
      ensures h.storage == Stored(result)
    {
      assert Alive(h) && !h.destroyed;
      hide CoroContext.Queued, CoroContext.Alive;
      OneMoves(live, finished, h);
      h.storage := Stored(result);
      live, finished := live - {h}, finished + {h};
      Left(h);
    }

    /** Nobody who is still live depends on the one that has ended. */
    twostate lemma Left(h: Frame)
      requires old(Valid()) && old(h in live && h !in queue && h.awaiting == null) && live == old(live) - {h}
      requires finished == old(finished) + {h} && !h.destroyed && h.storage.Stored?
      requires forall f :: f in old(finished) ==> f.destroyed == old(f.destroyed) && f.storage == old(f.storage)
      requires unchanged(this`queue) && unchanged(this`todo) && unchanged(this`base)
      requires forall g :: g in live ==> unchanged(g)
      ensures |queue| == |todo|
      ensures forall k :: 0 <= k < |queue| ==> Queued(k)
      ensures forall g :: g in live ==> Alive(g)
      ensures forall f :: f in finished ==> !f.destroyed && f.storage.Stored?
    {
      forall k | 0 <= k < |queue| ensures Queued(k) { assert old(Queued(k)) && queue[k] in queue; }
      forall g | g in live ensures Alive(g) { assert old(Alive(g)); }
    }

    /** `destroy`: only a frame that has finished and still exists is freed. */
    method Free(h: Frame)
      requires Settled(finished) && h in finished
      modifies h`destroyed, this`finished, this`coroNum, this`freed
      ensures Settled(finished) && h.destroyed && finished == old(finished) - {h}
    {
      hide Ledger, Total, Frames, CoroContext.Queued, CoroContext.Alive;
      assert !h.destroyed;
      coroNum, freed := coroNum - 1, freed + 1;
      h.destroyed := true;
      finished := finished - {h};
      Unmoved();
    }

    /** The live frames are as they were. */
    twostate lemma Unmoved()
      requires old(Valid()) && live == old(live)
      requires unchanged(this`queue) && unchanged(this`todo) && unchanged(this`base)
      requires forall g :: g in live ==> unchanged(g)
      ensures |queue| == |todo|
      ensures forall k :: 0 <= k < |queue| ==> Queued(k)
      ensures forall g :: g in live ==> Alive(g)
    {
      forall k | 0 <= k < |queue| ensures Queued(k) { assert old(Queued(k)) && queue[k] in queue; }
      forall g | g in live ensures Alive(g) { assert old(Alive(g)); }
    }

    /** `h` may be resumed: it is not queued any more, and whatever it awaited has finished and left its
        result. `t` is what the chain that ends in `h` has to do then. */
    ghost predicate Ready(h: Frame, t: Task)
      reads this, h, h.awaiting
    {
      && h in live && h !in queue
      && t.handler == h.handler && t.below == h.below
      && (h.awaiting == null ==> t.leaf == h.code)
      && (h.awaiting != null ==>
            && h.awaiting in finished && h.awaiting.storage.Stored? && h.code.Await?
            && (h.awaiting.storage.result.Returned? ==>
                  t.leaf == Continuation(h.code, h.awaiting.storage.result.v)))
    }

    /** Resuming a handle: `await_resume`, if the coroutine awaits one, and then its body. */
    method Resume(h: Frame, ghost t: Task) returns (ghost added: seq<Frame>)
      requires Valid() && Fed() && Ready(h, t) && !terminated && spent <= Bound()
      requires |live| == Frames(todo) + |h.below| + 1
      requires Waiting(t.below)
      requires if h.awaiting != null && h.awaiting.storage.result.Failed? then Doomed() else Balanced(Owed(t))
      modifies Repr
      ensures come >= old(come) && base == old(base) && fresh(Repr - old(Repr))
      ensures terminated ==> Doomed()
      ensures !terminated ==> Settled(old(finished)) && queue == old(queue) + added && pending == old(pending) + added
      ensures !terminated ==> spent > old(spent)
      decreases Bound() - spent, 2
    {
      hide CoroContext.Valid, CoroContext.Fed, CoroContext.Balanced, Eval, Owed, Total;
      added := [];
      if h.awaiting != null {
        var result := h.awaiting.storage.result;
        if result.Failed? {
          terminated := true;
          return;
        }
        GoOn(h, Continuation(h.code, result.v));
      }
      added := RunBody(h);
    }

    /** Nothing is running. */
    ghost predicate Settled(inside: set<Frame>)
      reads this, live, finished
      ensures Settled(inside) ==> Valid() && Fed() && finished == inside
    {
      && Valid() && Fed() && Balanced(NOTHING) && |live| == Frames(todo) && finished == inside
    }

    /** `h` is executing its body, and its chain owes what the ledger says. */
    ghost predicate Executing(h: Frame)
      reads this, h, live, finished
      ensures Executing(h) ==> Valid() && h in live && !terminated
    {
      && Valid() && h in live && h !in queue && h.awaiting == null && Waiting(h.below)
      && !terminated && Fed() && |live| == Frames(todo) + |h.below| + 1
      && Balanced(Owed(h.AsTask()))
    }

    /** A running coroutine has taken an action and goes on. */
    method Proceed(h: Frame, next: Prog)
      requires Valid() && h in live && h !in queue && h.awaiting == null && Waiting(h.below)
      requires !terminated && Fed() && |live| == Frames(todo) + |h.below| + 1
      requires Ledger(promised, calls, spent + 1, Owed(h.AsTask().(leaf := next)), todo)
      modifies h`code, h`awaiting, this`spent
      ensures Executing(h) && spent == old(spent) + 1
    {
      hide CoroContext.Valid, CoroContext.Fed, Ledger, Owed, Frames, Waiting, AllWaiting;
      ghost var t := h.AsTask();
      GoOn(h, next);
      spent := spent + 1;
      assert h.AsTask() == t.(leaf := next);
    }

    method SpawnStep(h: Frame) returns (ghost f: Frame)
      requires Executing(h) && h.code.Spawn?
      modifies Repr
      ensures Executing(h) && h.below == old(h.below) && spent == old(spent) + 1
      ensures come == old(come) && base == old(base) && fresh(Repr - old(Repr)) && finished == old(finished)
      ensures queue == old(queue) + [f] && pending == old(pending) + [f]
    {
      hide CoroContext.Valid, CoroContext.Fed, Ledger, Eval, Owed, Total, Frames, Waiting, AllWaiting, Promises;
      ghost var t := h.AsTask();
      LedgerSpawn(promised, calls, spent, todo, t);
      FramesPush(todo, Task(t.leaf.handler, [], t.leaf.child));
      f := Spawn(h.code.child, h.code.handler);
      Proceed(h, h.code.next);
    }

    method YieldStep(h: Frame)
      requires Executing(h) && h.code.Yield?
      modifies Repr
      ensures Settled(old(finished)) && !terminated && spent > old(spent)
      ensures come == old(come) && base == old(base) && Repr == old(Repr)
      ensures queue == old(queue) + [h] && pending == old(pending) + [h]
    {
      hide CoroContext.Valid, CoroContext.Fed, Ledger, Eval, Owed, Total, Frames;
      LedgerYield(promised, calls, spent, todo, h.AsTask());
      FramesPush(todo, h.AsTask().(leaf := h.code.next));
      GoOn(h, h.code.next);
      Push(h);
      spent := spent + 1;
    }

    method AwaitStep(h: Frame) returns (ghost f: Frame)
      requires Executing(h) && h.code.Await?
      modifies Repr
      ensures Settled(old(finished)) && !terminated && spent > old(spent)
      ensures come == old(come) && base == old(base) && fresh(Repr - old(Repr))
      ensures queue == old(queue) + [f] && pending == old(pending) + [f]
    {
      hide CoroContext.Valid, CoroContext.Fed, Ledger, Eval, Owed, Total, Frames;
      LedgerAwait(promised, calls, spent, todo, h.AsTask());
      FramesPush(todo, Task(h.handler, h.below + [h.code], h.code.child));
      f := AwaitSuspend(h);
      spent := spent + 1;
    }

    /** Whoever awaits a live coroutine is live itself, waits for that one only, and is not queued. */
    lemma Awaiter(h: Frame)
      requires Valid() && h in live
      ensures h.prevHandle == null ==> h.below == [] && h.callback == h.handler
      ensures h.prevHandle != null ==>
        var p := h.prevHandle;
        && p in live && p !in queue && p.awaiting == h && p.code.Await?
        && h.below == p.below + [p.code] && h.handler == p.handler
    {
      assert Alive(h);
      forall k | 0 <= k < |queue|
        ensures queue[k] != h.prevHandle
      {
        assert Queued(k);
      }
    }

    /** `h` has ended and stored its result, and nobody has been resumed yet. `t` is its chain. */
    ghost predicate Ended(h: Frame, t: Task)
      reads this, h, h.prevHandle, live, finished
    {
      && Valid() && Fed() && h in finished && !terminated && spent < promised.actions
      && (t.leaf.Return? || t.leaf.Throw?) && Waiting(t.below)
      && h.storage == Stored(if t.leaf.Return? then Returned(t.leaf.v) else Failed(t.leaf.e))
      && (h.prevHandle == null ==> t.below == [] && h.callback == t.handler)
      && (h.prevHandle != null ==>
            && h.prevHandle in live && h.prevHandle !in queue && h.prevHandle.awaiting == h && h.prevHandle.code.Await?
            && t.below == h.prevHandle.below + [h.prevHandle.code] && t.handler == h.prevHandle.handler)
      && |live| == Frames(todo) + |t.below| && Balanced(Owed(t))
      && (t.below != [] && t.leaf.Throw? ==> promised.doomed)
    }

    method Conclude(h: Frame) returns (ghost t: Task)
      requires Executing(h) && spent <= Bound() && (h.code.Return? || h.code.Throw?)
      modifies h`storage, this`live, this`finished
      ensures Ended(h, t) && finished == old(finished) + {h} && h !in old(finished)
    {
      hide CoroContext.Valid, CoroContext.Fed, Ledger, Eval, Owed, Total, Frames;
      t := h.AsTask();
      Awaiter(h);
      LedgerBound(promised, calls, spent, todo, t);
      Store(h, if h.code.Return? then Returned(h.code.v) else Failed(h.code.e));
    }

    /** The body has ended: its result is stored, then the coroutine that awaits this one is resumed, or the
        handler called, and only then is the frame destroyed. */
    method FinalSuspend(h: Frame) returns (ghost added: seq<Frame>)
      requires Executing(h) && spent <= Bound() && (h.code.Return? || h.code.Throw?)
      modifies Repr
      ensures come >= old(come) && base == old(base) && fresh(Repr - old(Repr))
      ensures terminated ==> Doomed()
      ensures !terminated ==> Settled(old(finished)) && queue == old(queue) + added && pending == old(pending) + added
      ensures !terminated ==> spent > old(spent)
      ensures !terminated ==> h.destroyed
      decreases Bound() - spent, 0, 1
    {
      hide CoroContext.Valid, CoroContext.Settled, CoroContext.Ended, CoroContext.Doomed, Ledger, Owed, Total, Frames;
      ghost var t := Conclude(h);
      added := Deliver(h, t);
      if !terminated {
        Free(h);
      }
    }

    method Deliver(h: Frame, ghost t: Task) returns (ghost added: seq<Frame>)
      requires Ended(h, t)
      modifies Repr
      ensures come >= old(come) && base == old(base) && fresh(Repr - old(Repr))
      ensures terminated ==> Doomed()
      ensures !terminated ==> Settled(old(finished)) && queue == old(queue) + added && pending == old(pending) + added
      ensures !terminated ==> spent > old(spent)
      decreases Bound() - spent, 0, 0
    {
      hide CoroContext.Valid, CoroContext.Fed, Ledger, Eval, Owed, Total, Frames;
      added := [];
      LedgerCalls(promised, calls, spent, Owed(t), todo);
      var prev := h.prevHandle;
      if prev != null {
        ghost var leaf := t.leaf;
        if t.leaf.Return? {
          assert t.below[..|t.below| - 1] == prev.below;
          LedgerReturn(promised, calls, spent, todo, t);
          leaf := Continuation(prev.code, t.leaf.v);
        }
        Bounded();
        spent := spent + 1;
        added := Resume(prev, Task(t.handler, prev.below, leaf));
      } else {
        LedgerRoot(promised, calls, spent, todo, t, h.storage.result);
        calls := calls + CallOf(h.callback, h.storage.result);
        spent := spent + 1;
      }
    }

    /** Before each of its actions other threads may have spawned more. */
    method Interrupted(h: Frame) returns (ghost added: seq<Frame>)
      requires Executing(h)
      modifies this`come, this`pending, this`coroNum, this`created, this`queue, this`todo, this`live, this`promised,
               this`Repr
      ensures Executing(h) && come >= old(come) && fresh(Repr - old(Repr))
      ensures queue == old(queue) + added && pending == old(pending) + added
    {
      hide CoroContext.Valid, CoroContext.Balanced, CoroContext.Fed, Owed, Frames;
      added := Admit(Owed(h.AsTask()), |h.below| + 1);
    }

    /** A running chain has something left to do. */
    lemma InTime(h: Frame)
      requires Executing(h)
      ensures spent < Bound()
    {
      hide CoroContext.Valid, CoroContext.Fed, Ledger, Eval, Owed, Total, Frames;
      LedgerBound(promised, calls, spent, todo, h.AsTask());
      Bounded();
    }

    /** A body that spawns nothing next suspends, or ends. */
    method Suspend(h: Frame) returns (ghost added: seq<Frame>)
      requires Executing(h) && spent <= Bound() && !h.code.Spawn?
      modifies Repr
      ensures come >= old(come) && base == old(base) && fresh(Repr - old(Repr))
      ensures terminated ==> Doomed()
      ensures !terminated ==> Settled(old(finished)) && queue == old(queue) + added && pending == old(pending) + added
      ensures !terminated ==> spent > old(spent)
      decreases Bound() - spent, 0, 2
    {
      hide CoroContext.Valid, CoroContext.Executing, CoroContext.Settled, CoroContext.Doomed, Promises;
      if h.code.Yield? {
        YieldStep(h);
        added := [h];
      } else if h.code.Await? {
        ghost var f := AwaitStep(h);
        added := [f];
      } else {
        added := FinalSuspend(h);
      }
    }

    /** A body runs until it suspends or ends. */
    method RunBody(h: Frame) returns (ghost added: seq<Frame>)
      requires Executing(h) && spent <= Bound()
      modifies Repr
      ensures come >= old(come) && base == old(base) && fresh(Repr - old(Repr))
      ensures terminated ==> Doomed()
      ensures !terminated ==> Settled(old(finished)) && queue == old(queue) + added && pending == old(pending) + added
      ensures !terminated ==> spent > old(spent)
      decreases Bound() - spent, 1
    {
      hide CoroContext.Valid, CoroContext.Executing, CoroContext.Settled, CoroContext.Doomed, Promises;
      added := Interrupted(h);
      while h.code.Spawn?
        invariant Executing(h) && old(spent) <= spent <= Bound()
        invariant come >= old(come) && base == old(base) && fresh(Repr - old(Repr)) && finished == old(finished)
        invariant queue == old(queue) + added && pending == old(pending) + added
        decreases Bound() - spent
      {
        InTime(h);
        ghost var f := SpawnStep(h);
        ghost var more := Interrupted(h);
        added := added + [f] + more;
      }
      ghost var more := Suspend(h);
      added := added + more;
    }

    constructor (arrivals: seq<seq<Root>>)
      ensures Valid() && !terminated && fresh(Repr) && queue == pending == [] && calls == []
      ensures promised == NOTHING && spent == 0 && live == {} && finished == {}
      ensures this.arrivals == arrivals && come == 0
    {
      this.arrivals, come := arrivals, 0;
      pending, coroNum, created, freed, calls, terminated := [], 0, 0, 0, [], false;
      queue, todo, base := [], [], 0;
      live, finished, promised, spent, Repr := {}, {}, NOTHING, 0, {this};
    }

    lemma StartsSettled()
      requires Valid() && queue == [] && calls == [] && promised == NOTHING && spent == 0 && come == 0
      requires live == {} && finished == {}
      ensures Settled({})
    {
      hide CoroContext.Valid, Ledger, Promises;
      NothingPromised(arrivals);
      LedgerStart(promised, calls, spent, todo);
    }

    lemma Spent()
      requires Settled({})
      ensures spent <= Bound()
      ensures queue == [] ==>
        promised == Debt(multiset(calls), false, spent) && live == {} && coroNum == 0 && created == freed
    {
      hide CoroContext.Fed, Ledger, Total, Promises, CoroContext.Alive, CoroContext.Queued;
      LedgerSpent(promised, calls, spent, todo);
      Bounded();
    }

    /** A coroutine is spawned by another thread, whatever this one is doing. */
    method Arrive(r: Root, ghost running: Debt, ghost busy: nat) returns (ghost f: Frame)
      requires Valid() && Balanced(running) && |live| == Frames(todo) + busy
      modifies this`pending, this`coroNum, this`created, this`queue, this`todo, this`live, this`promised, this`Repr
      ensures Valid() && Balanced(running) && |live| == Frames(todo) + busy
      ensures fresh(Repr - old(Repr)) && fresh(f) && old(live) <= live && promised == Plus(old(promised), Promise(r))
      ensures queue == old(queue) + [f] && pending == old(pending) + [f]
    {
      hide CoroContext.Valid, Ledger, Eval, Owed, Total, Frames;
      LedgerArrive(promised, calls, spent, running, todo, r);
      FramesPush(todo, Task(r.handler, [], r.body));
      f := Spawn(r.body, r.handler);
      promised := Plus(promised, Promise(r));
    }

    method ArriveAll(roots: seq<Root>, ghost before: seq<Root>, ghost running: Debt, ghost busy: nat)
      returns (ghost added: seq<Frame>)
      requires Valid() && Balanced(running) && |live| == Frames(todo) + busy && promised == Promises(before)
      modifies this`pending, this`coroNum, this`created, this`queue, this`todo, this`live, this`promised, this`Repr
      ensures Valid() && Balanced(running) && |live| == Frames(todo) + busy && promised == Promises(before + roots)
      ensures fresh(Repr - old(Repr)) && fresh(added) && old(live) <= live
      ensures queue == old(queue) + added && pending == old(pending) + added
    {
      hide CoroContext.Valid, CoroContext.Balanced, Frames, Plus, Promise;
      var i := 0;
      added := [];
      assert before + roots[..0] == before;
      while i < |roots|
        invariant 0 <= i <= |roots| && fresh(Repr - old(Repr)) && fresh(added) && old(live) <= live
        invariant Valid() && Balanced(running) && |live| == Frames(todo) + busy
        invariant promised == Promises(before + roots[..i])
        invariant queue == old(queue) + added && pending == old(pending) + added
      {
        ghost var f := Arrive(roots[i], running, busy);
        ghost var all := before + roots[..i + 1];
        assert all == before + roots[..i] + [roots[i]];
        assert all[..|all| - 1] == before + roots[..i];
        added := added + [f];
        i := i + 1;
      }
      assert roots[..i] == roots;
    }

    /** What other threads have spawned by now, if anything more comes. */
    method Admit(ghost running: Debt, ghost busy: nat) returns (ghost added: seq<Frame>)
      requires Valid() && Fed() && Balanced(running) && |live| == Frames(todo) + busy
      modifies this`come, this`pending, this`coroNum, this`created, this`queue, this`todo, this`live, this`promised,
               this`Repr
      ensures Valid() && Fed() && Balanced(running) && |live| == Frames(todo) + busy
      ensures fresh(Repr - old(Repr)) && fresh(added) && old(live) <= live
      ensures queue == old(queue) + added && pending == old(pending) + added
      ensures come == if old(come) < |arrivals| then old(come) + 1 else old(come)
    {
      hide CoroContext.Valid, CoroContext.Balanced, Frames, Promises;
      added := [];
      if come < |arrivals| {
        added := ArriveAll(arrivals[come], Concat(arrivals[..come]), running, busy);
        assert arrivals[..come + 1][..come] == arrivals[..come];
        come := come + 1;
      }
    }

    /** The tickets tell the queued frames apart. */
    lemma FirstOnce()
      requires Valid() && queue != []
      ensures queue[0] !in queue[1..] && queue[0].awaiting == null && todo[0] == queue[0].AsTask()
    {
      assert Queued(0);
      forall k | 0 <= k < |queue| - 1 ensures queue[1..][k] != queue[0] { assert Queued(k + 1); }
    }

    /** The next handle of the batch leaves the queue. */
    ghost method Take(h: Frame)
      requires Valid() && queue != [] && h == queue[0]
      modifies this`queue, this`todo, this`base
      ensures Valid() && queue == old(queue)[1..] && todo == old(todo)[1..] && base == old(base) + 1
      ensures h in live && h !in queue && h.awaiting == null && old(todo)[0] == h.AsTask()
    {
      hide CoroContext.Queued, CoroContext.Alive;
      FirstOnce();
      queue, todo, base := queue[1..], todo[1..], base + 1;
      Advanced();
    }

    /** The others move up by one. */
    twostate lemma Advanced()
      requires old(Valid()) && old(queue) != [] && live == old(live)
      requires queue == old(queue)[1..] && todo == old(todo)[1..] && base == old(base) + 1
      requires forall g :: g in live ==> unchanged(g)
      ensures |queue| == |todo|
      ensures forall k :: 0 <= k < |queue| ==> Queued(k)
      ensures forall g :: g in live ==> Alive(g)
    {
      forall k | 0 <= k < |queue| ensures Queued(k) { assert old(Queued(k + 1)) && queue[k] == old(queue)[k + 1]; }
      forall g | g in live ensures Alive(g) { assert old(Alive(g)); }
    }

    /** One round of the loop: everything that was queued is resumed, in order; whatever is queued meanwhile, by
        these coroutines or by other threads, waits for the next round. */
    method RunBatch()
      requires Settled({}) && !terminated && queue == pending
      modifies Repr
      ensures come >= old(come) && fresh(Repr - old(Repr))
      ensures terminated ==> Doomed()
      ensures !terminated ==> Settled({}) && queue == pending && base == old(base) + |old(queue)|
      ensures !terminated ==> spent >= old(spent) + |old(queue)|
    {
      hide CoroContext.Valid, CoroContext.Fed, Ledger, Eval, Owed, Total;
      var handles := pending;
      pending := [];
      var i := 0;
      while i < |handles|
        invariant 0 <= i <= |handles| && Settled({}) && !terminated && come >= old(come)
        invariant queue == handles[i..] + pending && base == old(base) + i && spent >= old(spent) + i
        invariant fresh(Repr - old(Repr))
      {
        ghost var added := RunNext(handles[i]);
        if terminated {
          return;
        }
        i := i + 1;
      }
    }

    /** What has come is queued, and then everything queued is resumed. */
    method Round()
      requires Settled({}) && !terminated && queue == pending
      modifies Repr
      ensures fresh(Repr - old(Repr)) && old(come) <= come <= |arrivals|
      ensures terminated ==> Doomed()
      ensures !terminated ==> Settled({}) && queue == pending
      ensures !terminated ==> (old(come) < |arrivals| ==> come > old(come)) && (old(queue) != [] ==> spent > old(spent))
    {
      hide CoroContext.Valid, CoroContext.Balanced, Frames, Promises;
      ghost var added := Admit(NOTHING, 0);
      RunBatch();
    }

    /** The next handle of the batch is resumed. */
    method RunNext(h: Frame) returns (ghost added: seq<Frame>)
      requires Settled({}) && !terminated && queue != [] && h == queue[0]
      modifies Repr
      ensures fresh(Repr - old(Repr)) && come >= old(come)
      ensures terminated ==> Doomed()
      ensures !terminated ==> Settled({}) && base == old(base) + 1 && spent > old(spent)
      ensures !terminated ==> queue == old(queue)[1..] + added && pending == old(pending) + added
    {
      hide CoroContext.Valid, CoroContext.Fed, Ledger, Eval, Owed, Total;
      Spent();
      LedgerTake(promised, calls, spent, todo);
      ghost var t := todo[0];
      Take(h);
      added := Resume(h, t);
    }
  }

  lemma AllCounted(roots: seq<Root>)
    ensures forall h, r :: Promises(roots).calls[(h, r)] == Claims(AllStarted(roots), h, r)
    ensures !Promises(roots).doomed ==> |Promises(roots).calls| == WithHandler(AllStarted(roots))
    ensures Promises(roots).doomed <==> SomeTerminate(AllStarted(roots))
  {
    PromisesCounted(roots, 0, Failed(Exn(0)));
    forall h, r ensures Promises(roots).calls[(h, r)] == Claims(AllStarted(roots), h, r) {
      PromisesCounted(roots, h, r);
    }
  }

  /** A context at whose k-th opportunity - the start of a round, or the moment before an action of a coroutine that is
      running - it finds `arrivals[k]` newly spawned, and that goes on until nothing is queued. It terminates the
      program exactly when the direct-style evaluation of some coroutine awaits a failure, and has then made only
      handler calls of the direct-style evaluation; otherwise it makes exactly those, and destroys every frame it has
      created. */
  method Run(arrivals: seq<seq<Root>>)
      returns (calls: seq<(Label, Result)>, terminated: bool, created: nat, freed: nat)
    ensures terminated <==> Promises(Concat(arrivals)).doomed
    ensures multiset(calls) <= Promises(Concat(arrivals)).calls
    ensures !terminated ==> multiset(calls) == Promises(Concat(arrivals)).calls && freed == created
    ensures terminated <==> SomeTerminate(AllStarted(Concat(arrivals)))
    ensures !terminated ==> |calls| == WithHandler(AllStarted(Concat(arrivals)))
    ensures !terminated ==>
      forall h, r :: multiset(calls)[(h, r)] == Claims(AllStarted(Concat(arrivals)), h, r)
  {
    ghost var roots := Concat(arrivals);
    AllCounted(roots);
    hide AllStarted, Claims, WithHandler, SomeTerminate, CoroContext.Valid, CoroContext.Settled;
    hide Ledger, Eval, Owed, Total, Frames, Plus, Promise, Promises, Concat;
    var ctx := new CoroContext(arrivals);
    ctx.StartsSettled();
    while ctx.come < |arrivals| || ctx.pending != []
      invariant ctx.arrivals == arrivals && 0 <= ctx.come <= |arrivals|
      invariant ctx.Settled({}) && !ctx.terminated && ctx.queue == ctx.pending && fresh(ctx.Repr)
      decreases |arrivals| - ctx.come, ctx.Bound() - ctx.spent
    {
      ctx.Round();
      if ctx.terminated {
        PromisedPrefix(arrivals, ctx.come);
        return ctx.calls, true, ctx.created, ctx.freed;
      }
      ctx.Spent();
    }
    assert arrivals[..ctx.come] == arrivals;
    ctx.Spent();
    calls, terminated, created, freed := ctx.calls, false, ctx.created, ctx.freed;
  }
}
