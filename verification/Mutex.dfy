/**
 The coroutine mutex, the condition variable and the contexts they wake coroutines on, as objects.
 Each method runs without interference; the interleavings of their blocks are the subject of `MutexSpec`.
 */
module Mutexes {
  import opened MutexSpec
  import opened Prelude

  class Context {
    var pending: seq<Co>

    constructor ()
      ensures pending == []
    {
      pending := [];
    }

    method QueueInContext(h: Co)
      modifies this
      ensures pending == old(pending) + [h]
    {
      pending := pending + [h];
    }
  }

  /** The coroutines among the entries that wait to be resumed on a context, in order. */
  function Bound(entries: seq<Entry>, ctx: Thread): seq<Co> {
    if entries == [] then []
    else
      var rest := Bound(entries[..|entries| - 1], ctx);
      var last := entries[|entries| - 1];
      if last.ctx == ctx then rest + [last.co] else rest
  }

  /** The entry that `unlock` hands the mutex to, if any. */
  function HandedTo(queue: seq<Entry>): seq<Entry> {
    if queue == [] then [] else [queue[0]]
  }

  lemma BoundOne(e: Entry)
    ensures forall i: Thread :: Bound([e], i) == if e.ctx == i then [e.co] else []
  {
    assert [e][..0] == [];
  }

  /** Entries name contexts that exist. */
  predicate Known(entries: seq<Entry>, contexts: seq<Context>) {
    forall e :: e in entries ==> e.ctx < |contexts|
  }

  ghost predicate Apart(contexts: seq<Context>) {
    forall i, j :: 0 <= i < j < |contexts| ==> contexts[i] != contexts[j]
  }

  class Mutex {
    var flag: bool
    var queue: seq<Entry>

    ghost function View(): MutexState
      reads this
    {
      MutexState(flag, queue)
    }

    constructor ()
      ensures View() == INITIAL.mutex
    {
      flag, queue := true, [];
    }

    /** Suspends the coroutine, or tells its thread to resume it at once with the mutex. */
    method AwaitSuspend(ctx: Thread, h: Co) returns (wake: bool)
      modifies this
      ensures (View(), wake) == LockBlock(old(View()), Entry(ctx, h))
    {
      wake := false;
      if flag {
        flag := false;
        wake := true;
      } else {
        queue := queue + [Entry(ctx, h)];
      }
    }

    /** Hands the mutex to the first waiter, on the context it waits for, or frees it. */
    method Unlock(contexts: seq<Context>)
      requires Known(queue, contexts) && Apart(contexts)
      modifies this, contexts
      ensures View() == UnlockBlock(old(View())).0
      ensures forall i :: 0 <= i < |contexts| ==>
        contexts[i].pending == old(contexts[i].pending) + Bound(HandedTo(old(queue)), i)
    {
      var entry: Option<Entry> := None;
      if queue != [] {
        entry := Some(queue[0]);
        queue := queue[1..];
      } else {
        flag := true;
      }
      if entry.Some? {
        assert entry.value in old(queue);
        contexts[entry.value.ctx].QueueInContext(entry.value.co);
        BoundOne(entry.value);
      }
    }
  }

  class Condition {
    var queue: seq<Entry>

    constructor ()
      ensures queue == []
    {
      queue := [];
    }

    /** The suspension in `wait`: the handle is queued before the mutex is released. */
    method Wait(mutex: Mutex, contexts: seq<Context>, ctx: Thread, h: Co)
      requires Known(mutex.queue, contexts) && Apart(contexts)
      modifies this, mutex, contexts
      ensures queue == old(queue) + [Entry(ctx, h)]
      ensures mutex.View() == UnlockBlock(old(mutex.View())).0
      ensures forall i :: 0 <= i < |contexts| ==>
        contexts[i].pending == old(contexts[i].pending) + Bound(HandedTo(old(mutex.queue)), i)
    {
      queue := queue + [Entry(ctx, h)];
      mutex.Unlock(contexts);
    }

    method NotifyOne(contexts: seq<Context>)
      requires Known(queue, contexts) && Apart(contexts)
      modifies this, contexts
      ensures queue == NotifyOneBlock(old(queue)).0
      ensures forall i :: 0 <= i < |contexts| ==>
        contexts[i].pending == old(contexts[i].pending) + Bound(NotifyOneBlock(old(queue)).1, i)
    {
      var entry: Option<Entry> := None;
      if queue != [] {
        entry := Some(queue[0]);
        queue := queue[1..];
      }
      if entry.Some? {
        var e := entry.value;
        assert e in old(queue);
        contexts[e.ctx].QueueInContext(e.co);
        BoundOne(e);
      }
    }

    /** Wakes every waiter on its own context, those of one context in the order in which they came. */
    method NotifyAll(contexts: seq<Context>)
      requires Known(queue, contexts) && Apart(contexts)
      modifies this, contexts
      ensures queue == []
      ensures forall i :: 0 <= i < |contexts| ==>
        contexts[i].pending == old(contexts[i].pending) + Bound(old(queue), i)
    {
      var tmp := queue;
      queue := [];
      var k := 0;
      while k < |tmp|
        invariant 0 <= k <= |tmp| && queue == []
        invariant forall i :: 0 <= i < |contexts| ==>
          contexts[i].pending == old(contexts[i].pending) + Bound(tmp[..k], i)
      {
        assert tmp[k] in tmp;
        contexts[tmp[k].ctx].QueueInContext(tmp[k].co);
        assert tmp[..k + 1][..k] == tmp[..k];
        k := k + 1;
      }
      assert tmp[..k] == tmp;
    }
  }

  /** Nobody is forgotten and nobody is woken elsewhere: an entry's coroutine is woken on the entry's context. */
  lemma {:induction false} BoundHasAll(entries: seq<Entry>, e: Entry)
    requires e in entries
    ensures e.co in Bound(entries, e.ctx)
  {
    var init, last := entries[..|entries| - 1], entries[|entries| - 1];
    assert entries == init + [last];
    if e in init {
      BoundHasAll(init, e);
    }
  }

  lemma {:induction false} BoundHasOnly(entries: seq<Entry>, ctx: Thread, co: Co)
    requires co in Bound(entries, ctx)
    ensures Entry(ctx, co) in entries
  {
    var init, last := entries[..|entries| - 1], entries[|entries| - 1];
    assert entries == init + [last];
    if co in Bound(init, ctx) {
      BoundHasOnly(init, ctx, co);
    }
  }

  lemma {:induction false} BoundConcat(a: seq<Entry>, b: seq<Entry>, ctx: Thread)
    ensures Bound(a + b, ctx) == Bound(a, ctx) + Bound(b, ctx)
    decreases |b|
  {
    if b == [] {
      assert a + b == a;
    } else {
      BoundConcat(a, b[..|b| - 1], ctx);
      assert (a + b)[..|a + b| - 1] == a + b[..|b| - 1];
    }
  }

  /** What is done with a mutex and a condition: `Lock` by a coroutine on a context, `Unlock` and `Wait` by whoever
      has the mutex, and notifications by anybody. */
  datatype Step = Lock(ctx: Thread, co: Co) | Unlock | Wait | NotifyOne | NotifyAll

  /** What has happened: who asked for the mutex and who was given it, in order, and how often it was released; who
      waited at the condition and who was notified; who went on at once with the mutex, and who was passed on to a
      context to be resumed. */
  datatype History = History(
    asked: seq<Entry>, given: seq<Entry>, releases: nat, waited: seq<Entry>, notified: seq<Entry>,
    atOnce: seq<Entry>, resumed: seq<Entry>)
  {
    predicate Free() {
      |given| == releases
    }
  }

  const NOTHING := History([], [], 0, [], [], [], [])

  /** Those who came and have not been served, first come first. */
  function Left(came: seq<Entry>, served: seq<Entry>): seq<Entry> {
    if |served| <= |came| then came[|served|..] else []
  }

  function HandOver(h: History): History {
    var next := HandedTo(Left(h.asked, h.given));
    h.(given := h.given + next, releases := h.releases + 1, resumed := h.resumed + next)
  }

  function Notify(h: History, entries: seq<Entry>): History {
    h.(notified := h.notified + entries, resumed := h.resumed + entries)
  }

  /** A step that is not possible changes nothing. */
  function Played(size: nat, h: History, step: Step): History {
    match step
    case Lock(ctx, co) =>
      var e := [Entry(ctx, co)];
      if ctx >= size then h
      else if h.Free() then h.(asked := h.asked + e, given := h.given + e, atOnce := h.atOnce + e)
      else h.(asked := h.asked + e)
    case Unlock => if h.Free() then h else HandOver(h)
    case Wait =>
      if h.Free() || h.given == [] then h
      else HandOver(h.(waited := h.waited + [h.given[|h.given| - 1]]))
    case NotifyOne => Notify(h, HandedTo(Left(h.waited, h.notified)))
    case NotifyAll => Notify(h, Left(h.waited, h.notified))
  }

  function Play(size: nat, steps: seq<Step>): History {
    if steps == [] then NOTHING else Played(size, Play(size, steps[..|steps| - 1]), steps[|steps| - 1])
  }

  /** Whoever was given the mutex or notified has gone on at once or been passed on. */
  ghost predicate Balanced(atOnce: seq<Entry>, resumed: seq<Entry>, given: seq<Entry>, notified: seq<Entry>) {
    multiset(atOnce) + multiset(resumed) == multiset(given) + multiset(notified)
  }

  /** The mutex is given in the order in which it is asked for, to one at a time, and is free only when nobody waits for
      it; and waiters are notified in the order in which they came. */
  ghost predicate Orderly(h: History) {
    && h.given <= h.asked && (h.Free() ==> h.given == h.asked) && h.releases <= |h.given| <= h.releases + 1
    && h.notified <= h.waited
  }

  lemma StepOrderly(size: nat, h: History, step: Step)
    requires Orderly(h)
    ensures Orderly(Played(size, h, step))
  {
  }

  lemma Balance(atOnce: seq<Entry>, resumed: seq<Entry>, given: seq<Entry>, notified: seq<Entry>, more: seq<Entry>)
    requires Balanced(atOnce, resumed, given, notified)
    ensures Balanced(atOnce + more, resumed, given + more, notified)
    ensures Balanced(atOnce, resumed + more, given + more, notified)
    ensures Balanced(atOnce, resumed + more, given, notified + more)
  {
    var a, r, g, n, m := multiset(atOnce), multiset(resumed), multiset(given), multiset(notified), multiset(more);
    assert multiset(atOnce + more) == a + m && multiset(resumed + more) == r + m;
    assert multiset(given + more) == g + m && multiset(notified + more) == n + m;
    assert (a + m) + r == (a + r) + m && (g + m) + n == (g + n) + m;
  }

  lemma StepBalanced(size: nat, h: History, step: Step)
    requires Balanced(h.atOnce, h.resumed, h.given, h.notified)
    ensures var n := Played(size, h, step); Balanced(n.atOnce, n.resumed, n.given, n.notified)
  {
    hide Balanced, HandedTo, Left;
    var more := match step
      case Lock(ctx, co) => [Entry(ctx, co)]
      case NotifyOne => HandedTo(Left(h.waited, h.notified))
      case NotifyAll => Left(h.waited, h.notified)
      case _ => HandedTo(Left(h.asked, h.given));
    Balance(h.atOnce, h.resumed, h.given, h.notified, more);
  }

  lemma {:induction false} PlayKeeps(size: nat, steps: seq<Step>)
    ensures var h := Play(size, steps); Orderly(h) && Balanced(h.atOnce, h.resumed, h.given, h.notified)
  {
    if steps != [] {
      var init, last := steps[..|steps| - 1], steps[|steps| - 1];
      PlayKeeps(size, init);
      StepOrderly(size, Play(size, init), last);
      StepBalanced(size, Play(size, init), last);
      hide Balanced, Orderly, Played;
    }
  }

  /** A mutex and a condition in use on some contexts, and what has happened to them. */
  class Runtime {
    const mutex: Mutex
    const cond: Condition
    const contexts: seq<Context>
    var history: History

    ghost predicate Valid()
      reads this, mutex, cond, contexts
    {
      && Apart(contexts) && Orderly(history)
      && Known(history.asked, contexts) && Known(history.waited, contexts)
      && mutex.queue == Left(history.asked, history.given) && mutex.flag == history.Free()
      && cond.queue == Left(history.waited, history.notified)
      && forall i :: 0 <= i < |contexts| ==> contexts[i].pending == Bound(history.resumed, i)
    }

    constructor (contexts: seq<Context>)
      requires Apart(contexts) && forall i :: 0 <= i < |contexts| ==> contexts[i].pending == []
      ensures Valid() && fresh(mutex) && fresh(cond) && this.contexts == contexts && history == NOTHING
    {
      this.contexts := contexts;
      mutex := new Mutex();
      cond := new Condition();
      history := NOTHING;
    }

    /** These have been passed on to their contexts. */
    lemma PassOn(resumed: seq<Entry>, entries: seq<Entry>)
      requires forall i :: 0 <= i < |contexts| ==> contexts[i].pending == Bound(resumed, i) + Bound(entries, i)
      ensures forall i :: 0 <= i < |contexts| ==> contexts[i].pending == Bound(resumed + entries, i)
    {
      forall i | 0 <= i < |contexts| ensures contexts[i].pending == Bound(resumed + entries, i) {
        BoundConcat(resumed, entries, i);
      }
    }

    method Lock(ctx: Thread, co: Co)
      requires Valid() && ctx < |contexts|
      modifies this, mutex
      ensures Valid() && history == Played(|contexts|, old(history), Step.Lock(ctx, co))
    {
      var wake := mutex.AwaitSuspend(ctx, co);
      var e := [Entry(ctx, co)];
      history := history.(asked := history.asked + e);
      if wake {
        history := history.(given := history.given + e, atOnce := history.atOnce + e);
      }
    }

    method Unlock()
      requires Valid() && !mutex.flag
      modifies this, mutex, contexts
      ensures Valid() && history == Played(|contexts|, old(history), Step.Unlock)
    {
      hide Bound;
      var next := HandedTo(mutex.queue);
      mutex.Unlock(contexts);
      PassOn(history.resumed, next);
      history := history.(given := history.given + next, releases := history.releases + 1,
                          resumed := history.resumed + next);
    }

    /** By the owner, who was given the mutex last. */
    method Wait()
      requires Valid() && !mutex.flag
      modifies this, mutex, cond, contexts
      ensures Valid() && history == Played(|contexts|, old(history), Step.Wait)
    {
      hide Bound;
      var self, next := history.given[|history.given| - 1], HandedTo(mutex.queue);
      assert self in history.asked;
      cond.Wait(mutex, contexts, self.ctx, self.co);
      PassOn(history.resumed, next);
      history := history.(waited := history.waited + [self], given := history.given + next,
                          releases := history.releases + 1, resumed := history.resumed + next);
    }

    method Notify(all: bool)
      requires Valid()
      modifies this, cond, contexts
      ensures Valid() && history == Played(|contexts|, old(history), if all then Step.NotifyAll else Step.NotifyOne)
    {
      hide Bound;
      var taken;
      if all {
        taken := cond.queue;
        cond.NotifyAll(contexts);
      } else {
        taken := HandedTo(cond.queue);
        cond.NotifyOne(contexts);
      }
      PassOn(history.resumed, taken);
      history := history.(notified := history.notified + taken, resumed := history.resumed + taken);
    }

    /** A step that is not possible is skipped. */
    method Do(step: Step)
      requires Valid()
      modifies this, mutex, cond, contexts
      ensures Valid() && history == Played(|contexts|, old(history), step)
    {
      match step {
        case Lock(ctx, co) =>
          if ctx < |contexts| {
            Lock(ctx, co);
          }
        case Unlock =>
          if !mutex.flag {
            Unlock();
          }
        case Wait =>
          if !mutex.flag {
            Wait();
          }
        case NotifyOne => Notify(false);
        case NotifyAll => Notify(true);
      }
    }
  }

  /** Any use of a mutex and a condition on some contexts is the play of its steps: the mutex is given in the order in
      which it is asked for, to one at a time, and is free only when nobody waits for it; waiters are notified in the
      order in which they came; and whoever was given the mutex without having it at once, and whoever was notified,
      is queued on its own context, once each time, and nobody else is. */
  method Run(size: nat, steps: seq<Step>) returns (h: History, free: bool, queued: seq<seq<Co>>)
    ensures h == Play(size, steps) && free == h.Free()
    ensures Orderly(h) && Balanced(h.atOnce, h.resumed, h.given, h.notified)
    ensures |queued| == size && forall i :: 0 <= i < size ==> queued[i] == Bound(h.resumed, i)
  {
    var contexts: seq<Context> := [];
    while |contexts| < size
      invariant |contexts| <= size && Apart(contexts)
      invariant forall i :: 0 <= i < |contexts| ==> fresh(contexts[i]) && contexts[i].pending == []
    {
      var context := new Context();
      contexts := contexts + [context];
    }
    var runtime := new Runtime(contexts);
    for k := 0 to |steps|
      invariant fresh(runtime) && fresh(runtime.mutex) && fresh(runtime.cond)
      invariant runtime.contexts == contexts && runtime.Valid() && runtime.history == Play(size, steps[..k])
    {
      assert steps[..k + 1][..k] == steps[..k];
      runtime.Do(steps[k]);
    }
    assert steps[..|steps|] == steps;
    h, free, queued := runtime.history, runtime.mutex.flag, [];
    while |queued| < size
      invariant |queued| <= size && forall i :: 0 <= i < |queued| ==> queued[i] == Bound(h.resumed, i)
    {
      queued := queued + [contexts[|queued|].pending];
    }
    PlayKeeps(size, steps);
  }
}
