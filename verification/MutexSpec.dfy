/**
 The coroutine mutex and its condition variables as a transition system over any number of
 coroutines, contexts and conditions. Every block that the library runs under one of its
 internal `std::mutex`es is one step; everything else a thread does between two such blocks
 is a step of its own, and steps of different threads interleave freely.
 */
module MutexSpec {
  import opened Prelude

  type Co = nat
  type Thread = nat
  type Cond = nat

  /** A suspended coroutine and the context it suspended on. */
  datatype Entry = Entry(ctx: Thread, co: Co)

  // ---------------------------------------------------------------- the blocks under a lock

  datatype MutexState = MutexState(flag: bool, queue: seq<Entry>)

  /** The block of `await_suspend`: takes the free mutex, or joins the queue. */
  function LockBlock(m: MutexState, e: Entry): (r: (MutexState, bool)) {
    if m.flag then (m.(flag := false), true) else (m.(queue := m.queue + [e]), false)
  }

  /** The block of `unlock`: hands the mutex to the first waiter, or frees it. */
  function UnlockBlock(m: MutexState): (r: (MutexState, Option<Entry>)) {
    if m.queue != [] then (m.(queue := m.queue[1..]), Some(m.queue[0])) else (m.(flag := true), None)
  }

  /** The block of `notify_one`. */
  function NotifyOneBlock(q: seq<Entry>): (r: (seq<Entry>, seq<Entry>)) {
    if q != [] then (q[1..], [q[0]]) else (q, [])
  }

  // ---------------------------------------------------------------- states

  /** Where a coroutine's handle is. */
  datatype Place =
    | Unborn
    | Running(t: Thread)
    | InLockQueue
    | InCondQueue(c: Cond)
    | InHand(t: Thread)      // taken from a queue by `t`, which has not passed it on yet
    | Queued(ctx: Thread)    // in the pending list, or the running batch, of a context
    | Ended

  /** What a coroutine is doing. `pred` tells the two forms of `Condition::wait` apart. */
  datatype Phase =
    | User
    | Starting(c: Cond, pred: bool)       // awaits `wait`, a coroutine that is queued in the same context
    | Checking(c: Cond)                   // about to evaluate the predicate, holding the mutex
    | Enqueueing(c: Cond, pred: bool)     // about to queue itself at the condition
    | CondWaiting(c: Cond, pred: bool)
    | Relocking(c: Cond, pred: bool)      // notified and resumed, about to lock again
    | LockWaiting(goal: Option<Cond>)     // once granted: back to `User`, or to `Checking(goal.value)`

  datatype CoState = CoState(place: Place, phase: Phase, owns: bool, home: Thread)

  /** What a thread is doing. */
  datatype Activity =
    | Looping
    | Executing(co: Co)
    | Unlocking(co: Co)                              // in `Condition::wait`: queued, `unlock` to come
    | Handing(e: Entry, back: Option<Co>)            // in `unlock`: the mutex is this entry's
    | Notifying(entries: seq<Entry>, back: Option<Co>)

  datatype State = State(
    mutex: MutexState,
    conds: Cond -> seq<Entry>,
    ready: Thread -> seq<Co>,
    threads: Thread -> Activity,
    cos: Co -> CoState,
    born: set<Co>,
    // the truth of the condition each predicate tests, and who owes a `notify_all` since making it true
    truth: Cond -> bool,
    owes: set<(Co, Cond)>,
    // history: who asked for the mutex, and who was given it
    asked: seq<Co>,
    given: seq<Co>)

  ghost const INITIAL := State(
    MutexState(true, []),
    c => [],
    t => [],
    t => Looping,
    co => CoState(Unborn, User, false, 0),
    {},
    c => false,
    {}, [], [])

  // ---------------------------------------------------------------- steps

  datatype Event =
    | Create(co: Co, ctx: Thread)
    | Resume(ctx: Thread)
    | Yield(t: Thread)
    | End(t: Thread)
    | Lock(t: Thread)
    | Unlock(t: Thread)
    | Deliver(t: Thread)
    | Write(t: Thread, c: Cond, v: bool)
    | Wait(t: Thread, c: Cond, pred: bool)
    | Check(t: Thread)
    | Enqueue(t: Thread)
    | CondUnlock(t: Thread)
    | NotifyOne(t: Thread, c: Cond)
    | NotifyAll(t: Thread, c: Cond)
    | DeliverNotified(t: Thread)

  /** The coroutine a thread executes, or goes back to executing. */
  function Current(a: Activity): Option<Co> {
    match a
    case Executing(co) => Some(co)
    case Handing(_, back) => back
    case Notifying(_, back) => back
    case _ => None
  }

  function Back(back: Option<Co>): Activity {
    if back.Some? then Executing(back.value) else Looping
  }

  /** The entries a thread has in its hands. */
  function Hand(a: Activity): seq<Entry> {
    match a
    case Handing(e, _) => [e]
    case Notifying(entries, _) => entries
    case _ => []
  }

  function AfterLock(goal: Option<Cond>): Phase {
    if goal.Some? then Checking(goal.value) else User
  }

  function Resumed(phase: Phase): Phase {
    match phase
    case LockWaiting(goal) => AfterLock(goal)
    case Starting(c, pred) => if pred then Checking(c) else Enqueueing(c, false)
    case CondWaiting(c, pred) => Relocking(c, pred)
    case _ => phase
  }

  ghost predicate InUserCode(s: State, t: Thread) {
    s.threads(t).Executing? && s.cos(s.threads(t).co).phase.User?
  }

  /** The coroutine a thread executes. */
  ghost function Self(s: State, t: Thread): CoState
    requires s.threads(t).Executing?
  {
    s.cos(s.threads(t).co)
  }

  /** `unlock` by the coroutine `co`, with the thread going on as `back` says. */
  ghost function Release(s: State, t: Thread, co: Co, back: Option<Co>): State {
    var (m, next) := UnlockBlock(s.mutex);
    var released := Put(s.cos, co, s.cos(co).(owns := false));
    match next
    case None => s.(mutex := m, cos := released, threads := Put(s.threads, t, Back(back)))
    case Some(e) =>
      s.(mutex := m,
         cos := Put(released, e.co, released(e.co).(owns := true, place := InHand(t))),
         threads := Put(s.threads, t, Handing(e, back)),
         given := s.given + [e.co])
  }

  /** The entries leave the condition's queue for the notifier's hands. */
  ghost function Take(cos: Co -> CoState, entries: seq<Entry>, t: Thread): Co -> CoState {
    (co: Co) => if exists e :: e in entries && e.co == co then cos(co).(place := InHand(t)) else cos(co)
  }

  ghost predicate CanCreate(s: State, co: Co, ctx: Thread) {
    co !in s.born && s.cos(co).place.Unborn?
  }

  /** `spawn`: a new coroutine is queued in a context. */
  ghost function DoCreate(s: State, co: Co, ctx: Thread): State
    requires CanCreate(s, co, ctx)
  {
    s.(born := s.born + {co}, cos := Put(s.cos, co, CoState(Queued(ctx), User, false, ctx)),
       ready := Put(s.ready, ctx, s.ready(ctx) + [co]))
  }

  ghost predicate CanResume(s: State, ctx: Thread) {
    s.threads(ctx).Looping? && s.ready(ctx) != []
  }

  /** The loop of a context takes the next handle and resumes it. */
  ghost function DoResume(s: State, ctx: Thread): State
    requires CanResume(s, ctx)
  {
    var co := s.ready(ctx)[0];
    s.(cos := Put(s.cos, co, s.cos(co).(place := Running(ctx), phase := Resumed(s.cos(co).phase))),
       ready := Put(s.ready, ctx, s.ready(ctx)[1..]),
       threads := Put(s.threads, ctx, Executing(co)))
  }

  ghost predicate CanYield(s: State, t: Thread) {
    InUserCode(s, t)
  }

  /** The coroutine suspends for any other reason and is queued in its own context. */
  ghost function DoYield(s: State, t: Thread): State
    requires CanYield(s, t)
  {
    var co := s.threads(t).co;
    s.(cos := Put(s.cos, co, s.cos(co).(place := Queued(t), home := t)),
       ready := Put(s.ready, t, s.ready(t) + [co]),
       threads := Put(s.threads, t, Looping))
  }

  ghost predicate CanEnd(s: State, t: Thread) {
    InUserCode(s, t) && !Self(s, t).owns
  }

  /** The coroutine returns; its guards are gone, so it does not hold the mutex. */
  ghost function DoEnd(s: State, t: Thread): State
    requires CanEnd(s, t)
  {
    var co := s.threads(t).co;
    s.(cos := Put(s.cos, co, s.cos(co).(place := Ended)), threads := Put(s.threads, t, Looping))
  }

  ghost predicate CanLock(s: State, t: Thread) {
    s.threads(t).Executing? && (Self(s, t).phase.Relocking? || (Self(s, t).phase.User? && !Self(s, t).owns))
  }

  /** `lock_guard()`, or the `lock()` at the end of a `wait`. A coroutine that gets the mutex runs on. */
  ghost function DoLock(s: State, t: Thread): State
    requires CanLock(s, t)
  {
    var co := s.threads(t).co;
    var x := s.cos(co);
    var goal := if x.phase.Relocking? && x.phase.pred then Some(x.phase.c) else None;
    var (m, wake) := LockBlock(s.mutex, Entry(t, co));
    if wake then
      s.(mutex := m, cos := Put(s.cos, co, x.(owns := true, phase := AfterLock(goal))),
         asked := s.asked + [co], given := s.given + [co])
    else
      s.(mutex := m, cos := Put(s.cos, co, x.(place := InLockQueue, phase := LockWaiting(goal), home := t)),
         threads := Put(s.threads, t, Looping), asked := s.asked + [co])
  }

  ghost predicate CanUnlock(s: State, t: Thread) {
    InUserCode(s, t) && Self(s, t).owns
  }

  /** The destructor of a guard. */
  ghost function DoUnlock(s: State, t: Thread): State
    requires CanUnlock(s, t)
  {
    Release(s, t, s.threads(t).co, Some(s.threads(t).co))
  }

  ghost predicate CanDeliver(s: State, t: Thread) {
    s.threads(t).Handing?
  }

  /** The rest of `unlock`: the new owner is queued in the context it suspended on. */
  ghost function DoDeliver(s: State, t: Thread): State
    requires CanDeliver(s, t)
  {
    var Handing(e, back) := s.threads(t);
    s.(cos := Put(s.cos, e.co, s.cos(e.co).(place := Queued(e.ctx))),
       ready := Put(s.ready, e.ctx, s.ready(e.ctx) + [e.co]),
       threads := Put(s.threads, t, Back(back)))
  }

  ghost predicate CanWrite(s: State, t: Thread, c: Cond, v: bool) {
    InUserCode(s, t) && Self(s, t).owns
  }

  /** The owner changes the data a predicate depends on. */
  ghost function DoWrite(s: State, t: Thread, c: Cond, v: bool): State
    requires CanWrite(s, t, c, v)
  {
    s.(truth := Put(s.truth, c, v), owes := if v then s.owes + {(s.threads(t).co, c)} else s.owes)
  }

  ghost predicate CanWait(s: State, t: Thread, c: Cond, pred: bool) {
    InUserCode(s, t) && Self(s, t).owns
  }

  /** `co_await` of `Condition::wait` by the owner: its coroutine is queued, and others run before it. */
  ghost function DoWait(s: State, t: Thread, c: Cond, pred: bool): State
    requires CanWait(s, t, c, pred)
  {
    var co := s.threads(t).co;
    s.(cos := Put(s.cos, co, s.cos(co).(place := Queued(t), phase := Starting(c, pred), home := t)),
       ready := Put(s.ready, t, s.ready(t) + [co]),
       threads := Put(s.threads, t, Looping))
  }

  ghost predicate CanCheck(s: State, t: Thread) {
    s.threads(t).Executing? && Self(s, t).phase.Checking?
  }

  /** `while (!pred())`. */
  ghost function DoCheck(s: State, t: Thread): State
    requires CanCheck(s, t)
  {
    var co := s.threads(t).co;
    var c := s.cos(co).phase.c;
    s.(cos := Put(s.cos, co, s.cos(co).(phase := if s.truth(c) then User else Enqueueing(c, true))))
  }

  ghost predicate CanEnqueue(s: State, t: Thread) {
    s.threads(t).Executing? && Self(s, t).phase.Enqueueing?
  }

  /** The first half of the suspension in `wait`: the handle joins the condition's queue. */
  ghost function DoEnqueue(s: State, t: Thread): State
    requires CanEnqueue(s, t)
  {
    var co := s.threads(t).co;
    var Enqueueing(c, pred) := s.cos(co).phase;
    s.(cos := Put(s.cos, co, s.cos(co).(place := InCondQueue(c), phase := CondWaiting(c, pred), home := t)),
       conds := Put(s.conds, c, s.conds(c) + [Entry(t, co)]),
       threads := Put(s.threads, t, Unlocking(co)))
  }

  ghost predicate CanCondUnlock(s: State, t: Thread) {
    s.threads(t).Unlocking?
  }

  /** The second half: the mutex is released. The handle may have been notified in between. */
  ghost function DoCondUnlock(s: State, t: Thread): State
    requires CanCondUnlock(s, t)
  {
    Release(s, t, s.threads(t).co, None)
  }

  ghost predicate CanNotifyOne(s: State, t: Thread, c: Cond) {
    s.threads(t).Looping? || InUserCode(s, t)
  }

  /** `notify_one`, by a coroutine or by any other code on any thread. */
  ghost function DoNotifyOne(s: State, t: Thread, c: Cond): State
    requires CanNotifyOne(s, t, c)
  {
    var (q, taken) := NotifyOneBlock(s.conds(c));
    s.(conds := Put(s.conds, c, q), cos := Take(s.cos, taken, t),
       threads := Put(s.threads, t, Notifying(taken, Current(s.threads(t)))))
  }

  ghost predicate CanNotifyAll(s: State, t: Thread, c: Cond) {
    s.threads(t).Looping? || InUserCode(s, t)
  }

  /** `notify_all`. */
  ghost function DoNotifyAll(s: State, t: Thread, c: Cond): State
    requires CanNotifyAll(s, t, c)
  {
    s.(conds := Put(s.conds, c, []), cos := Take(s.cos, s.conds(c), t),
       threads := Put(s.threads, t, Notifying(s.conds(c), Current(s.threads(t)))),
       owes := if s.threads(t).Executing? then s.owes - {(s.threads(t).co, c)} else s.owes)
  }

  ghost predicate CanDeliverNotified(s: State, t: Thread) {
    s.threads(t).Notifying?
  }

  /** The notifier passes on one of the handles it took. */
  ghost function DoDeliverNotified(s: State, t: Thread): State
    requires CanDeliverNotified(s, t)
  {
    var Notifying(entries, back) := s.threads(t);
    if entries == [] then s.(threads := Put(s.threads, t, Back(back)))
    else
      var e := entries[0];
      s.(cos := Put(s.cos, e.co, s.cos(e.co).(place := Queued(e.ctx))),
         ready := Put(s.ready, e.ctx, s.ready(e.ctx) + [e.co]),
         threads := Put(s.threads, t, Notifying(entries[1..], back)))
  }

  ghost predicate Enabled(s: State, e: Event) {
    match e
    case Create(co, ctx) => CanCreate(s, co, ctx)
    case Resume(ctx) => CanResume(s, ctx)
    case Yield(t) => CanYield(s, t)
    case End(t) => CanEnd(s, t)
    case Lock(t) => CanLock(s, t)
    case Unlock(t) => CanUnlock(s, t)
    case Deliver(t) => CanDeliver(s, t)
    case Write(t, c, v) => CanWrite(s, t, c, v)
    case Wait(t, c, pred) => CanWait(s, t, c, pred)
    case Check(t) => CanCheck(s, t)
    case Enqueue(t) => CanEnqueue(s, t)
    case CondUnlock(t) => CanCondUnlock(s, t)
    case NotifyOne(t, c) => CanNotifyOne(s, t, c)
    case NotifyAll(t, c) => CanNotifyAll(s, t, c)
    case DeliverNotified(t) => CanDeliverNotified(s, t)
  }

  ghost function Next(s: State, e: Event): State
    requires Enabled(s, e)
  {
    match e
    case Create(co, ctx) => DoCreate(s, co, ctx)
    case Resume(ctx) => DoResume(s, ctx)
    case Yield(t) => DoYield(s, t)
    case End(t) => DoEnd(s, t)
    case Lock(t) => DoLock(s, t)
    case Unlock(t) => DoUnlock(s, t)
    case Deliver(t) => DoDeliver(s, t)
    case Write(t, c, v) => DoWrite(s, t, c, v)
    case Wait(t, c, pred) => DoWait(s, t, c, pred)
    case Check(t) => DoCheck(s, t)
    case Enqueue(t) => DoEnqueue(s, t)
    case CondUnlock(t) => DoCondUnlock(s, t)
    case NotifyOne(t, c) => DoNotifyOne(s, t, c)
    case NotifyAll(t, c) => DoNotifyAll(s, t, c)
    case DeliverNotified(t) => DoDeliverNotified(s, t)
  }

  /** The state after a finite run from the initial one, if every step of it is possible. */
  ghost function After(run: seq<Event>): Option<State> {
    if run == [] then Some(INITIAL)
    else
      var before := After(run[..|run| - 1]);
      if before.Some? && Enabled(before.value, run[|run| - 1])
      then Some(Next(before.value, run[|run| - 1]))
      else None
  }
}
