/**
 What the steps of the mutex protocol bring about: how a `wait` begins and ends, and that a hand-off and a notification
 reach the contexts of those they are for.
 */
module MutexLiveness {
  import opened MutexProof
  import opened MutexSpec
  import opened Prelude

  // ---------------------------------------------------------------- the way through `wait`

  /** The coroutine is the one whose thread takes this step, or whose context resumes it. */
  ghost predicate Steps(s: State, t: Thread, co: Co) {
    s.threads(t) == Executing(co)
  }

  ghost predicate Resumes(s: State, ctx: Thread, co: Co) {
    && s.threads(ctx) == Looping && s.ready(ctx) != [] && s.ready(ctx)[0] == co
    && s.cos(co).home == ctx && s.cos(co).place == Queued(ctx)
  }

  /** How a coroutine gets from one phase to another. */
  ghost predicate PhaseStep(s: State, e: Event, n: State, co: Co) {
    var x, y := s.cos(co), n.cos(co);
    match x.phase
    case User =>
      || (e.Wait? && Steps(s, e.t, co) && x.owns && y.phase == Starting(e.c, e.pred))
      || (e.Lock? && Steps(s, e.t, co) && !x.owns && y.phase == LockWaiting(None) && y.place == InLockQueue)
    case Starting(c, pred) =>
      e.Resume? && Resumes(s, e.ctx, co) && x.owns && y.phase == if pred then Checking(c) else Enqueueing(c, false)
    case Checking(c) =>
      e.Check? && Steps(s, e.t, co) && x.owns && y.owns && y.phase == if s.truth(c) then User else Enqueueing(c, true)
    case Enqueueing(c, pred) =>
      e.Enqueue? && Steps(s, e.t, co) && y.phase == CondWaiting(c, pred) && y.place == InCondQueue(c)
    case CondWaiting(c, pred) =>
      e.Resume? && Resumes(s, e.ctx, co) && !x.owns && y.phase == Relocking(c, pred)
    case Relocking(c, pred) =>
      && e.Lock? && Steps(s, e.t, co)
      && if s.mutex.flag then y.owns && y.phase == (if pred then Checking(c) else User)
         else y.place == InLockQueue && y.phase == LockWaiting(if pred then Some(c) else None)
    case LockWaiting(goal) =>
      e.Resume? && Resumes(s, e.ctx, co) && y.owns && y.phase == if goal.Some? then Checking(goal.value) else User
  }

  lemma ResumePhase(s: State, ctx: Thread, co: Co)
    requires Inv(s) && CanResume(s, ctx) && DoResume(s, ctx).cos(co).phase != s.cos(co).phase
    ensures PhaseStep(s, Resume(ctx), DoResume(s, ctx), co)
  {
    assert Located(s, co) && Phased(s, co) && ReadyOk(s, ctx) && s.ready(ctx)[0] in s.ready(ctx);
  }

  lemma PhaseSteps(s: State, e: Event, co: Co)
    requires Inv(s) && Enabled(s, e) && Next(s, e).cos(co).phase != s.cos(co).phase
    ensures PhaseStep(s, e, Next(s, e), co)
  {
    assert Located(s, co) && Phased(s, co);
    if e.Resume? {
      ResumePhase(s, e.ctx, co);
    }
  }

  /** Inside the form of `wait` that has a predicate. */
  predicate InPredWait(phase: Phase, c: Cond) {
    || phase == Starting(c, true) || phase == Checking(c) || phase == Enqueueing(c, true)
    || phase == CondWaiting(c, true) || phase == Relocking(c, true) || phase == LockWaiting(Some(c))
  }

  /** Only a check that finds the predicate true leads out of it, with the mutex held. */
  lemma PredWaitLeft(s: State, e: Event, co: Co, c: Cond)
    requires Inv(s) && Enabled(s, e) && InPredWait(s.cos(co).phase, c) && !InPredWait(Next(s, e).cos(co).phase, c)
    ensures e.Check? && s.threads(e.t) == Executing(co) && s.cos(co).owns && s.truth(c)
    ensures Next(s, e).cos(co).phase.User? && Next(s, e).cos(co).owns
  {
    PhaseSteps(s, e, co);
  }

  /** Before it is notified: about to queue itself at the condition, or queued there. */
  predicate ToBeNotified(x: CoState, c: Cond) {
    || (x.phase.Starting? && x.phase.c == c && !x.phase.pred)
    || (x.phase.Enqueueing? && x.phase.c == c)
    || (x.phase.CondWaiting? && x.phase.c == c && x.place == InCondQueue(c))
  }

  /** Only a notification of its condition leads out of that. */
  lemma WaitNotified(s: State, e: Event, co: Co, c: Cond)
    requires Inv(s) && Enabled(s, e) && ToBeNotified(s.cos(co), c) && !ToBeNotified(Next(s, e).cos(co), c)
    ensures e.NotifyOne? || e.NotifyAll?
    ensures e.c == c && s.cos(co).place == InCondQueue(c) && Next(s, e).cos(co).place == InHand(e.t)
  {
    var x, y := s.cos(co), Next(s, e).cos(co);
    assert Located(s, co) && Phased(s, co);
    if x.phase != y.phase {
      PhaseSteps(s, e, co);
    } else {
      PlaceSteps(s, e, co);
    }
  }

  // ---------------------------------------------------------------- the way of a handle

  /** How a coroutine's handle gets from one place to another. */
  ghost predicate PlaceStep(s: State, e: Event, n: State, co: Co) {
    var x, y := s.cos(co), n.cos(co);
    match x.place
    case Unborn => e == Create(co, y.home) && y.place == Queued(y.home)
    case Running(t) =>
      || (e.Yield? && e.t == t && y.place == Queued(t) && y.home == t)
      || (e.Wait? && e.t == t && y.place == Queued(t) && y.home == t)
      || (e.End? && e.t == t && y.place == Ended)
      || (e.Lock? && e.t == t && !s.mutex.flag && y.place == InLockQueue && y.home == t)
      || (e.Enqueue? && e.t == t && y.place.InCondQueue? && y.home == t)
    case InLockQueue =>
      && (e.Unlock? || e.CondUnlock?) && y.place == InHand(e.t) && y.owns
      && s.mutex.queue != [] && s.mutex.queue[0] == Entry(x.home, co)
    case InCondQueue(c) =>
      && (e.NotifyOne? || e.NotifyAll?) && e.c == c && y.place == InHand(e.t)
      && (e.NotifyOne? ==> s.conds(c) != [] && s.conds(c)[0] == Entry(x.home, co))
    case InHand(t) =>
      && (e.Deliver? || e.DeliverNotified?) && e.t == t && y.place == Queued(x.home)
      && n.ready(x.home) == s.ready(x.home) + [co]
    case Queued(ctx) =>
      && e == Resume(ctx) && y.place == Running(ctx) && n.threads(ctx) == Executing(co)
      && s.ready(ctx) == [co] + n.ready(ctx)
    case Ended => false
  }

  lemma NotifyPlaces(s: State, e: Event, co: Co)
    requires Inv(s) && Enabled(s, e) && (e.NotifyOne? || e.NotifyAll?)
    requires Next(s, e).cos(co).place != s.cos(co).place
    ensures PlaceStep(s, e, Next(s, e), co)
  {
    assert Located(s, co) && Holds(s, InCondQueue(e.c), s.conds(e.c));
    var taken := if e.NotifyOne? then NotifyOneBlock(s.conds(e.c)).1 else s.conds(e.c);
    var x :| x in taken && x.co == co;
    assert x in s.conds(e.c);
  }

  lemma PassPlaces(s: State, e: Event, co: Co)
    requires Inv(s) && Enabled(s, e) && (e.Unlock? || e.CondUnlock? || e.Deliver? || e.DeliverNotified?)
    requires Next(s, e).cos(co).place != s.cos(co).place
    ensures PlaceStep(s, e, Next(s, e), co)
  {
    assert Located(s, co) && ThreadOk(s, e.t);
    if e.Unlock? || e.CondUnlock? {
      assert s.mutex.queue[0] in s.mutex.queue;
    } else if e.Deliver? {
      assert s.threads(e.t).e in Hand(s.threads(e.t));
    } else {
      assert s.threads(e.t).entries[0] in Hand(s.threads(e.t));
    }
  }

  lemma PlaceSteps(s: State, e: Event, co: Co)
    requires Inv(s) && Enabled(s, e) && Next(s, e).cos(co).place != s.cos(co).place
    ensures PlaceStep(s, e, Next(s, e), co)
  {
    match e {
      case Unlock(_) => PassPlaces(s, e, co);
      case CondUnlock(_) => PassPlaces(s, e, co);
      case Deliver(_) => PassPlaces(s, e, co);
      case DeliverNotified(_) => PassPlaces(s, e, co);
      case NotifyOne(_, _) => NotifyPlaces(s, e, co);
      case NotifyAll(_, _) => NotifyPlaces(s, e, co);
      case Resume(ctx) => assert ReadyOk(s, ctx) && s.ready(ctx)[0] in s.ready(ctx);
      case Create(_, _) => assert Located(s, co);
      case Write(_, _, _) =>
      case Check(_) =>
      case _ => assert Located(s, co) && ThreadOk(s, e.t);
    }
  }

  /** How a coroutine comes to own the mutex, or to own it no longer. */
  ghost predicate OwnerStep(s: State, e: Event, co: Co) {
    if s.cos(co).owns
    then (e.Unlock? && Steps(s, e.t, co)) || (e.CondUnlock? && s.threads(e.t) == Unlocking(co))
    else
      || (e.Lock? && Steps(s, e.t, co) && s.mutex.flag)
      || ((e.Unlock? || e.CondUnlock?) && s.mutex.queue != [] && s.mutex.queue[0].co == co)
  }

  lemma OwnerSteps(s: State, e: Event, co: Co)
    requires Inv(s) && Enabled(s, e) && Next(s, e).cos(co).owns != s.cos(co).owns
    ensures OwnerStep(s, e, co)
  {
    assert Located(s, co);
    if e.Unlock? || e.CondUnlock? {
      assert ThreadOk(s, e.t);
      assert s.mutex.queue != [] ==> s.mutex.queue[0] in s.mutex.queue;
    }
  }

  /** Whom a step is about, other than a notification or a write. */
  ghost function Subject(s: State, e: Event): Option<Co> {
    match e
    case Create(co, _) => Some(co)
    case Resume(ctx) => if s.ready(ctx) == [] then None else Some(s.ready(ctx)[0])
    case Deliver(t) => if s.threads(t).Handing? then Some(s.threads(t).e.co) else None
    case Write(_, _, _) => None
    case NotifyOne(_, _) => None
    case NotifyAll(_, _) => None
    case DeliverNotified(_) => None
    case _ =>
      match s.threads(e.t)
      case Executing(co) => Some(co)
      case Unlocking(co) => Some(co)
      case _ => None
  }

  /** Every step takes its coroutine from one phase to another, from one place to another, or from owning the mutex to
      not owning it, or back. */
  lemma StepMoves(s: State, e: Event)
    requires Inv(s) && Enabled(s, e) && !e.Write? && !e.NotifyOne? && !e.NotifyAll? && !e.DeliverNotified?
    ensures Subject(s, e).Some?
    ensures var x, y := s.cos(Subject(s, e).value), Next(s, e).cos(Subject(s, e).value);
      x.phase != y.phase || x.place != y.place || x.owns != y.owns
  {
    match e {
      case Create(co, _) => assert Located(s, co);
      case Resume(ctx) => assert ReadyOk(s, ctx) && s.ready(ctx)[0] in s.ready(ctx);
      case Deliver(t) => assert ThreadOk(s, t) && s.threads(t).e in Hand(s.threads(t));
      case _ => MoverMoves(s, e);
    }
  }

  lemma MoverMoves(s: State, e: Event)
    requires Inv(s) && Enabled(s, e) && !e.Write? && !e.NotifyOne? && !e.NotifyAll? && !e.DeliverNotified?
    requires !e.Create? && !e.Resume? && !e.Deliver?
    ensures Subject(s, e).Some?
    ensures var x, y := s.cos(Subject(s, e).value), Next(s, e).cos(Subject(s, e).value);
      x.phase != y.phase || x.place != y.place || x.owns != y.owns
  {
    assert ThreadOk(s, e.t);
    var co := s.threads(e.t).co;
    assert Located(s, co) && Phased(s, co);
    if e.Unlock? || e.CondUnlock? {
      assert s.mutex.queue != [] ==> s.mutex.queue[0] in s.mutex.queue;
    }
  }

  // ---------------------------------------------------------------- over runs

  lemma LastStep(run: seq<Event>)
    requires run != [] && After(run).Some?
    ensures var init, e := run[..|run| - 1], run[|run| - 1];
      After(init).Some? && Inv(After(init).value) && Enabled(After(init).value, e)
      && After(run).value == Next(After(init).value, e)
  {
    RunKeeps(run[..|run| - 1]);
  }

  /** In every run, between being in a `wait` with a predicate and being out of it, the coroutine has checked the
      predicate with the mutex held, and found it true. */
  lemma {:induction false} PredicateWaitEnds(run: seq<Event>, i: nat, co: Co, c: Cond) returns (k: nat)
    requires After(run).Some? && i <= |run|
    requires After(run[..i]).Some? && InPredWait(After(run[..i]).value.cos(co).phase, c)
    requires !InPredWait(After(run).value.cos(co).phase, c)
    ensures i <= k < |run| && run[k].Check? && After(run[..k]).Some?
    ensures var s := After(run[..k]).value; s.threads(run[k].t) == Executing(co) && s.cos(co).owns && s.truth(c)
  {
    hide *;
    assert run[..|run|] == run;
    var init := run[..|run| - 1];
    LastStep(run);
    var s := After(init).value;
    if InPredWait(s.cos(co).phase, c) {
      k := |run| - 1;
      PredWaitLeft(s, run[k], co, c);
    } else {
      assert init[..i] == run[..i];
      k := PredicateWaitEnds(init, i, co, c);
      assert init[..k] == run[..k];
    }
  }

  /** In every run, a coroutine that is to be notified, in either form of `wait`, and is not any more was taken out of
      the queue by a notification of its condition. */
  lemma {:induction false} NotifiedBetween(run: seq<Event>, i: nat, co: Co, c: Cond) returns (k: nat)
    requires After(run).Some? && i <= |run|
    requires After(run[..i]).Some? && ToBeNotified(After(run[..i]).value.cos(co), c)
    requires !ToBeNotified(After(run).value.cos(co), c)
    ensures i <= k < |run| && (run[k].NotifyOne? || run[k].NotifyAll?) && run[k].c == c && After(run[..k]).Some?
    ensures After(run[..k]).value.cos(co).place == InCondQueue(c)
  {
    hide *;
    assert run[..|run|] == run;
    var init := run[..|run| - 1];
    LastStep(run);
    var s := After(init).value;
    if ToBeNotified(s.cos(co), c) {
      k := |run| - 1;
      WaitNotified(s, run[k], co, c);
    } else {
      assert init[..i] == run[..i];
      k := NotifiedBetween(init, i, co, c);
      assert init[..k] == run[..k];
    }
  }

  /** What the last write to it has made of a predicate. */
  function LastWritten(run: seq<Event>, c: Cond): bool {
    if run == [] then false
    else
      var last := run[|run| - 1];
      if last.Write? && last.c == c then last.v else LastWritten(run[..|run| - 1], c)
  }

  /** A predicate is as true as whoever owned the mutex has left it. */
  lemma {:induction false} TruthIsWritten(run: seq<Event>, c: Cond)
    requires After(run).Some?
    ensures After(run).value.truth(c) == LastWritten(run, c)
  {
    if run == [] {
    } else {
      TruthIsWritten(run[..|run| - 1], c);
      LastStep(run);
      hide After, Inv;
    }
  }

  // ---------------------------------------------------------------- what reaches whom

  /** The state after some more steps, if all of them are possible. */
  ghost function Then(s: State, events: seq<Event>): Option<State>
    decreases |events|
  {
    if events == [] then Some(s)
    else if Enabled(s, events[0]) then Then(Next(s, events[0]), events[1..])
    else None
  }

  /** The coroutines among them that suspended on `ctx`. */
  function Those(entries: seq<Entry>, ctx: Thread): seq<Co> {
    if entries == [] then []
    else (if entries[0].ctx == ctx then [entries[0].co] else []) + Those(entries[1..], ctx)
  }

  /** A thread that unlocks, and goes on, has given the mutex to the first waiter, which is queued on the context where
      it suspended; or the mutex is free. */
  lemma UnlockReaches(s: State, t: Thread)
    requires Inv(s) && CanUnlock(s, t)
    ensures var co := s.threads(t).co;
      s.mutex.queue == [] ==>
        var n := Next(s, Unlock(t)); n.mutex.flag && n.threads(t) == Executing(co) && !n.cos(co).owns
    ensures s.mutex.queue != [] ==>
      var co, first := s.threads(t).co, s.mutex.queue[0];
      && Then(s, [Unlock(t), Deliver(t)]).Some?
      && var n := Then(s, [Unlock(t), Deliver(t)]).value;
      && n.threads(t) == Executing(co) && !n.cos(co).owns && n.mutex.queue == s.mutex.queue[1..]
      && n.cos(first.co).owns && n.cos(first.co).place == Queued(first.ctx)
      && forall ctx :: n.ready(ctx) == s.ready(ctx) + if ctx == first.ctx then [first.co] else []
  {
    var co := s.threads(t).co;
    assert ThreadOk(s, t) && Located(s, co);
    if s.mutex.queue != [] {
      var first := s.mutex.queue[0];
      assert first in s.mutex.queue && Located(s, first.co) && co != first.co;
      var m := Next(s, Unlock(t));
      assert [Unlock(t), Deliver(t)][1..] == [Deliver(t)] && [Deliver(t)][1..] == [];
      assert Then(s, [Unlock(t), Deliver(t)]) == Then(m, [Deliver(t)]);
      assert Then(m, [Deliver(t)]) == Some(Next(m, Deliver(t)));
    }
  }

  /** What has become of the entries in a notifier's hands, when it is through with them. */
  ghost predicate Delivered(s: State, entries: seq<Entry>, n: State) {
    && (forall ctx :: n.ready(ctx) == s.ready(ctx) + Those(entries, ctx))
    && (forall e :: e in entries ==> n.cos(e.co).place == Queued(e.ctx))
    && (forall co :: (forall e :: e in entries ==> e.co != co) ==> n.cos(co) == s.cos(co))
    && n.mutex == s.mutex && n.conds == s.conds
  }

  /** The first of them has been passed on. */
  ghost predicate PassedOn(s: State, first: Entry, m: State) {
    && (forall ctx :: m.ready(ctx) == s.ready(ctx) + if ctx == first.ctx then [first.co] else [])
    && m.cos(first.co).place == Queued(first.ctx) && (forall co :: co != first.co ==> m.cos(co) == s.cos(co))
    && m.mutex == s.mutex && m.conds == s.conds
  }

  lemma DeliveredMore(s: State, entries: seq<Entry>, m: State, n: State)
    requires entries != [] && Distinct(entries) && PassedOn(s, entries[0], m) && Delivered(m, entries[1..], n)
    ensures Delivered(s, entries, n)
  {
    var first, rest := entries[0], entries[1..];
    assert entries == [first] + rest;
    forall ctx ensures n.ready(ctx) == s.ready(ctx) + Those(entries, ctx) {
      var own := if first.ctx == ctx then [first.co] else [];
      assert s.ready(ctx) + own + Those(rest, ctx) == s.ready(ctx) + (own + Those(rest, ctx));
    }
    forall e | e in rest ensures e.co != first.co {
      var i :| 0 <= i < |rest| && rest[i] == e;
      assert entries[i + 1] == e;
    }
  }

  lemma FirstPassedOn(s: State, t: Thread)
    requires Inv(s) && CanDeliverNotified(s, t) && s.threads(t).entries != []
    ensures var m, entries := Next(s, DeliverNotified(t)), s.threads(t).entries;
      && Distinct(entries) && PassedOn(s, entries[0], m)
      && m.threads(t) == Notifying(entries[1..], s.threads(t).back) && Inv(m)
  {
    StepKeeps(s, DeliverNotified(t));
    assert ThreadOk(s, t);
    hide Inv;
  }

  lemma {:induction false} Delivers(s: State, t: Thread) returns (events: seq<Event>)
    requires Inv(s) && CanDeliverNotified(s, t)
    ensures forall e :: e in events ==> e == DeliverNotified(t)
    ensures Then(s, events).Some?
    ensures var n := Then(s, events).value;
      n.threads(t) == Back(s.threads(t).back) && Delivered(s, s.threads(t).entries, n)
    decreases |s.threads(t).entries|
  {
    var m := Next(s, DeliverNotified(t));
    if s.threads(t).entries == [] {
      events := [DeliverNotified(t)];
      assert events[1..] == [] && Then(s, events) == Then(m, []);
    } else {
      FirstPassedOn(s, t);
      hide Inv, Delivered, PassedOn;
      var more := Delivers(m, t);
      events := [DeliverNotified(t)] + more;
      assert events[1..] == more && Then(s, events) == Then(m, more);
      hide Then;
      DeliveredMore(s, s.threads(t).entries, m, Then(m, more).value);
    }
  }

  /** A thread that notifies, and then goes on with what it did, has taken the first of those that wait, or all of them,
      out of the queue, and queued each on the context where it suspended, in their order. */
  lemma NotifyReaches(s: State, t: Thread, c: Cond, all: bool) returns (events: seq<Event>)
    requires Inv(s) && CanNotifyAll(s, t, c)
    ensures forall e :: e in events ==> e == DeliverNotified(t)
    ensures var steps := [if all then NotifyAll(t, c) else NotifyOne(t, c)] + events;
      var q := s.conds(c);
      var taken := if all then q else if q == [] then [] else [q[0]];
      && Then(s, steps).Some?
      && var n := Then(s, steps).value;
      && n.conds(c) == q[|taken|..] && n.threads(t) == Back(Current(s.threads(t)))
      && (forall e :: e in taken ==> n.cos(e.co).place == Queued(e.ctx))
      && (forall ctx :: n.ready(ctx) == s.ready(ctx) + Those(taken, ctx))
  {
    var e := if all then NotifyAll(t, c) else NotifyOne(t, c);
    assert Enabled(s, e);
    var m := Next(s, e);
    StepKeeps(s, e);
    events := Delivers(m, t);
    assert ([e] + events)[1..] == events && Then(s, [e] + events) == Then(m, events);
    hide Then, Inv;
  }
}
