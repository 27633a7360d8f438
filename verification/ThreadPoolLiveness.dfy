/**
 What can still happen in the thread pool: when a `wait` may return, and when the workers may leave.
 */
module ThreadPoolLiveness {
  import opened Prelude
  import opened ThreadPoolProof
  import opened ThreadPoolSpec

  /** One more step of a run from `start`. */
  lemma Extend(start: State, size: nat, run: seq<Event>, s: State, e: Event) returns (longer: seq<Event>, n: State)
    requires After(start, size, run) == Some(s) && Enabled(s, size, e)
    ensures longer == run + [e] && n == Next(s, size, e) && After(start, size, longer) == Some(n)
  {
    longer, n := run + [e], Next(s, size, e);
    assert longer[..|run|] == run;
  }

  // ---------------------------------------------------------------- leaving and returning

  /** A worker that is gone left a pool that is being destroyed, at a moment when everything submitted had been
      taken. */
  lemma WorkerLeft(size: nat, run: seq<Event>, w: nat)
    requires size > 0 && After(INITIAL, size, run).Some? && After(INITIAL, size, run).value.workers(w).Gone?
    ensures var s := After(INITIAL, size, run).value;
      && s.pool.state.PendingDestroy? && s.workers(w).left <= |s.taken| <= |s.submitted|
      && s.submitted[..s.workers(w).left] <= s.taken
  {
    RunKeeps(size, run);
    var s := After(INITIAL, size, run).value;
    assert WorkersLive(s, size, w);
  }

  /** A `wait` that began while the pool was running returned at a moment when everything submitted had been taken. */
  lemma WaitDrained(size: nat, run: seq<Event>, c: nat)
    requires size > 0 && After(INITIAL, size, run).Some? && After(INITIAL, size, run).value.waiters(c).Returned?
    ensures var s := After(INITIAL, size, run).value;
      && s.waiters(c).submittedAtEnd <= |s.taken| <= |s.submitted|
      && s.submitted[..s.waiters(c).submittedAtEnd] <= s.taken
  {
    RunKeeps(size, run);
    assert WokenSeen(After(INITIAL, size, run).value, c);
  }

  // ---------------------------------------------------------------- can a waiter still return

  /** Threads go on with what they have begun; nobody calls the pool, and nobody is woken for no reason. */
  predicate Quiet(run: seq<Event>) {
    forall e :: e in run ==> IsQuiet(e)
  }

  predicate IsQuiet(e: Event) {
    e.NotifyOne? || e.NotifyAll? || e.Look? || e.Finish? || e.LookAgain?
  }

  /** One more quiet step. */
  lemma GoOn(start: State, size: nat, run: seq<Event>, s: State, e: Event) returns (longer: seq<Event>, n: State)
    requires After(start, size, run) == Some(s) && Enabled(s, size, e) && Quiet(run) && IsQuiet(e)
    ensures n == Next(s, size, e) && After(start, size, longer) == Some(n) && Quiet(longer)
  {
    longer, n := Extend(start, size, run, s, e);
  }

  ghost predicate Sleeping(s: State, size: nat, w: nat) {
    w < size && s.workers(w).Asleep?
  }

  /** Some worker is awake, or asleep with a notification on the way. */
  ghost predicate SomebodyComes(s: State, size: nat) {
    SomebodyAwake(s, size) || ((s.owedOne > 0 || s.owedAll > 0) && exists w :: Sleeping(s, size, w))
  }

  /** The flag is up, the queue is or can become empty, and a worker will look at it. */
  ghost predicate WillHear(s: State, size: nat) {
    s.pool.waitFlag && (s.pool.state.Running? || s.pool.tasks == []) && SomebodyComes(s, size)
  }

  /** Some quiet continuation lets the `wait` of `c` return. */
  ghost predicate CanReturn(s: State, size: nat, c: nat) {
    exists run :: Quiet(run) && After(s, size, run).Some? && After(s, size, run).value.waiters(c).Returned?
  }

  /** A worker that comes gets to look, which changes nothing for the others. */
  lemma Comes(start: State, size: nat, run: seq<Event>, s: State) returns (longer: seq<Event>, n: State, w: nat)
    requires After(start, size, run) == Some(s) && Quiet(run) && SomebodyComes(s, size)
    ensures After(start, size, longer) == Some(n) && Quiet(longer)
    ensures n.pool == s.pool && n.waiters == s.waiters && n.submitted == s.submitted && n.taken == s.taken
    ensures w < size && n.workers(w).Looking?
  {
    if SomebodyAwake(s, size) {
      w :| Awake(s, size, w);
      if s.workers(w).Looking? {
        longer, n := run, s;
      } else {
        longer, n := GoOn(start, size, run, s, Finish(w));
      }
    } else {
      w :| Sleeping(s, size, w);
      longer, n := GoOn(start, size, run, s, if s.owedAll > 0 then NotifyAll else NotifyOne(w));
    }
  }

  /** The workers take what is queued, one of them finds the queue empty, and the waiter returns. */
  lemma {:induction false} Drains(start: State, size: nat, run: seq<Event>, s: State, c: nat)
    returns (longer: seq<Event>)
    requires After(start, size, run) == Some(s) && Quiet(run) && WillHear(s, size) && s.waiters(c).Waiting?
    ensures Quiet(longer) && After(start, size, longer).Some?
    ensures After(start, size, longer).value.waiters(c).Returned?
    decreases |s.pool.tasks|
  {
    hide After, Quiet;
    var n, w;
    longer, n, w := Comes(start, size, run, s);
    longer, n := GoOn(start, size, longer, n, Look(w));
    if s.pool.tasks == [] {
      longer, n := GoOn(start, size, longer, n, LookAgain(c));
    } else {
      assert Awake(n, size, w);
      longer := Drains(start, size, longer, n, c);
    }
  }

  /** Whoever looks, or goes on from a task, is awake. */
  lemma ActorAwake(s: State, size: nat, e: Event)
    requires size > 0 && Inv(s, size) && Enabled(s, size, e)
    ensures e.Look? || e.Finish? ==> SomebodyAwake(s, size)
  {
    if e.Look? || e.Finish? {
      assert WorkersLive(s, size, e.w);
      assert Awake(s, size, e.w);
    }
  }

  /** Quiet steps do not help a waiter that will not hear. */
  lemma DeafStays(s: State, size: nat, e: Event, c: nat)
    requires size > 0 && Inv(s, size) && Enabled(s, size, e) && IsQuiet(e)
    requires s.waiters(c).Waiting? && !WillHear(s, size)
    ensures var n := Next(s, size, e); n.waiters(c).Waiting? && !WillHear(n, size)
  {
    var n := Next(s, size, e);
    ActorAwake(s, size, e);
    if s.pool.waitFlag && (s.pool.state.Running? || s.pool.tasks == []) {
      assert e.NotifyOne? || e.NotifyAll? || e.LookAgain?;
      forall w: nat ensures n.workers(w) == s.workers(w) {
        assert WorkersLive(s, size, w);
        assert e.NotifyOne? || e.NotifyAll? ==> !Sleeping(s, size, w);
      }
      forall w ensures !Awake(n, size, w) { assert !Awake(s, size, w); }
      forall w ensures Sleeping(n, size, w) <==> Sleeping(s, size, w) {}
    }
  }

  lemma {:induction false} NeverReturns(s: State, size: nat, run: seq<Event>, c: nat)
    requires size > 0 && Inv(s, size) && s.waiters(c).Waiting? && !WillHear(s, size)
    requires Quiet(run) && After(s, size, run).Some?
    ensures var n := After(s, size, run).value; Inv(n, size) && n.waiters(c).Waiting? && !WillHear(n, size)
  {
    if run != [] {
      var init, last := run[..|run| - 1], run[|run| - 1];
      assert forall e :: e in init ==> e in run;
      NeverReturns(s, size, init, c);
      hide Inv, WillHear, Next;
      assert last in run;
      StepKeeps(After(s, size, init).value, size, last);
      DeafStays(After(s, size, init).value, size, last, c);
    }
  }

  /** When a sleeping `wait` can return: exactly if the flag is up, tasks are being taken if there are any, and
      some worker is awake or about to be woken. */
  lemma WaitCanReturn(size: nat, run: seq<Event>, c: nat)
    requires size > 0 && After(INITIAL, size, run).Some? && After(INITIAL, size, run).value.waiters(c).Waiting?
    ensures var s := After(INITIAL, size, run).value; CanReturn(s, size, c) <==> WillHear(s, size)
  {
    RunKeeps(size, run);
    var s := After(INITIAL, size, run).value;
    if WillHear(s, size) {
      assert After(s, size, []) == Some(s);
      var more := Drains(s, size, [], s, c);
    } else {
      forall more | Quiet(more) && After(s, size, more).Some?
        ensures !After(s, size, more).value.waiters(c).Returned?
      {
        NeverReturns(s, size, more, c);
      }
    }
  }

  // ---------------------------------------------------------------- starting and stopping

  /** The state that the last of these steps that has a say leads to. */
  function Leads(run: seq<Event>): PoolState {
    if run == [] then Stopping
    else
      var last := run[|run| - 1];
      if last.Start? then Running
      else if last.Stop? then Stopping
      else if last.Destroy? then PendingDestroy
      else Leads(run[..|run| - 1])
  }

  /** The pool runs exactly from a `start` to a `stop` or its destruction. */
  lemma {:induction false} RunsUntilStopped(size: nat, run: seq<Event>)
    requires After(INITIAL, size, run).Some?
    ensures After(INITIAL, size, run).value.pool.state == Leads(run)
  {
    if run == [] {
    } else {
      RunsUntilStopped(size, run[..|run| - 1]);
    }
  }

  /** Whatever is queued when the pool is stopped stays queued, in order, until it is started again: no worker takes a
      task. */
  lemma {:induction false} StopHolds(size: nat, run: seq<Event>, i: nat)
    requires After(INITIAL, size, run).Some? && i < |run| && run[i].Stop?
    requires forall k :: i < k < |run| ==> !run[k].Start?
    ensures After(INITIAL, size, run[..i]).Some?
    ensures var s, n := After(INITIAL, size, run[..i]).value, After(INITIAL, size, run).value;
      !n.pool.state.Running? && n.taken == s.taken && s.pool.tasks <= n.pool.tasks
    decreases |run|
  {
    var init := run[..|run| - 1];
    if i < |run| - 1 {
      assert init[..i] == run[..i];
      StopHolds(size, init, i);
    } else {
      assert init == run[..i];
    }
  }

  // ---------------------------------------------------------------- a pool that is left alone

  /** Nobody has anything left to do. */
  ghost predicate AtRest(s: State, size: nat) {
    forall e :: IsQuiet(e) ==> !Enabled(s, size, e)
  }

  /** A wait that will return if the pool is left alone, or has returned. */
  ghost predicate Returning(s: State, size: nat, c: nat) {
    var x := s.waiters(c);
    (x.Waiting? && WillHear(s, size)) || (x.Woken? && s.pool.tasks == []) || x.Returned?
  }

  lemma ReturningStays(s: State, size: nat, e: Event, c: nat)
    requires size > 0 && Inv(s, size) && Enabled(s, size, e) && IsQuiet(e) && Returning(s, size, c)
    ensures Returning(Next(s, size, e), size, c)
  {
    var n := Next(s, size, e);
    if s.waiters(c).Waiting? && n.waiters(c).Waiting? {
      if e.Look? || e.Finish? {
        assert WorkersLive(s, size, e.w);
        assert Awake(n, size, e.w);
      } else if SomebodyAwake(s, size) {
        AwakeStays(s, n, size);
      } else {
        var w :| Sleeping(s, size, w);
        if e.NotifyOne? {
          assert Awake(n, size, e.w);
        } else if e.NotifyAll? {
          assert Awake(n, size, w);
        } else {
          assert Sleeping(n, size, w);
        }
      }
    }
  }

  /** And there is something to do until it has. */
  lemma ReturningMoves(s: State, size: nat, c: nat) returns (e: Event)
    requires Returning(s, size, c) && !s.waiters(c).Returned?
    ensures IsQuiet(e) && Enabled(s, size, e)
  {
    if s.waiters(c).Woken? {
      e := LookAgain(c);
    } else if SomebodyAwake(s, size) {
      var w :| Awake(s, size, w);
      e := if s.workers(w).Looking? then Look(w) else Finish(w);
    } else {
      var w :| Sleeping(s, size, w);
      e := if s.owedAll > 0 then NotifyAll else NotifyOne(w);
    }
  }

  lemma {:induction false} ReturningThrough(s: State, size: nat, run: seq<Event>, c: nat)
    requires size > 0 && Inv(s, size) && Returning(s, size, c) && Quiet(run) && After(s, size, run).Some?
    ensures Inv(After(s, size, run).value, size) && Returning(After(s, size, run).value, size, c)
  {
    if run != [] {
      var init, last := run[..|run| - 1], run[|run| - 1];
      assert last in run && forall e :: e in init ==> e in run;
      ReturningThrough(s, size, init, c);
      hide Inv, Returning, Next;
      StepKeeps(After(s, size, init).value, size, last);
      ReturningStays(After(s, size, init).value, size, last, c);
    }
  }

  /** Whatever a pool that is left alone does until it is at rest, the `wait` has returned then if it will hear, and
      sleeps otherwise. */
  lemma WaitReturns(size: nat, run: seq<Event>, c: nat, more: seq<Event>)
    requires size > 0 && After(INITIAL, size, run).Some? && After(INITIAL, size, run).value.waiters(c).Waiting?
    requires var s := After(INITIAL, size, run).value;
      Quiet(more) && After(s, size, more).Some? && AtRest(After(s, size, more).value, size)
    ensures var s := After(INITIAL, size, run).value;
      var n := After(s, size, more).value;
      if WillHear(s, size) then n.waiters(c).Returned? else n.waiters(c).Waiting?
  {
    RunKeeps(size, run);
    var s := After(INITIAL, size, run).value;
    if WillHear(s, size) {
      ReturningThrough(s, size, more, c);
      var n := After(s, size, more).value;
      if !n.waiters(c).Returned? {
        var e := ReturningMoves(n, size, c);
      }
    } else {
      NeverReturns(s, size, more, c);
    }
  }

  /** However it goes on until it is at rest, a pool that is left alone lets the `wait` of `c` return. */
  ghost predicate AlwaysReturns(s: State, size: nat, c: nat) {
    forall more :: Quiet(more) && After(s, size, more).Some? && AtRest(After(s, size, more).value, size) ==>
      After(s, size, more).value.waiters(c).Returned?
  }

  /** In a running pool: with tasks queued exactly if the flag is up; and always if nothing was submitted since
      the wait began. */
  lemma WaitReturnsInTime(size: nat, run: seq<Event>, c: nat)
    requires size > 0 && After(INITIAL, size, run).Some? && After(INITIAL, size, run).value.waiters(c).Waiting?
    ensures var s := After(INITIAL, size, run).value;
      s.pool.state.Running? && s.pool.tasks != [] ==>
        if s.pool.waitFlag then CanReturn(s, size, c) && AlwaysReturns(s, size, c) else !CanReturn(s, size, c)
    ensures var s := After(INITIAL, size, run).value;
      s.pool.state.Running? && s.waiters(c).submittedAtStart == |s.submitted| ==>
        CanReturn(s, size, c) && AlwaysReturns(s, size, c)
  {
    RunKeeps(size, run);
    WaitCanReturn(size, run, c);
    hide CanReturn;
    var s := After(INITIAL, size, run).value;
    assert WaiterSeen(s, size, c) && WorkersLive(s, size, 0);
    assert s.pool.state.Running? ==> Awake(s, size, 0) || Sleeping(s, size, 0);
    if WillHear(s, size) {
      forall more | Quiet(more) && After(s, size, more).Some? && AtRest(After(s, size, more).value, size)
        ensures After(s, size, more).value.waiters(c).Returned?
      {
        WaitReturns(size, run, c, more);
      }
    }
  }

  lemma {:induction false} EmptyThrough(s: State, size: nat, run: seq<Event>)
    requires size > 0 && Inv(s, size) && Quiet(run) && After(s, size, run).Some?
    requires s.pool.state.PendingDestroy? && s.pool.tasks == []
    ensures var n := After(s, size, run).value;
      Inv(n, size) && n.pool.state.PendingDestroy? && n.pool.tasks == []
  {
    if run != [] {
      var init, last := run[..|run| - 1], run[|run| - 1];
      assert last in run && forall e :: e in init ==> e in run;
      EmptyThrough(s, size, init);
      hide Inv;
      StepKeeps(After(s, size, init).value, size, last);
    }
  }

  /** Whatever a pool that is being destroyed with an empty queue does until it is at rest, all its workers have left
      then, and the destructor has joined them. */
  lemma WorkersLeave(size: nat, run: seq<Event>, more: seq<Event>, w: nat)
    requires size > 0 && After(INITIAL, size, run).Some?
    requires var s := After(INITIAL, size, run).value;
      && s.pool.state.PendingDestroy? && s.pool.tasks == []
      && Quiet(more) && After(s, size, more).Some? && AtRest(After(s, size, more).value, size)
    ensures var n := After(After(INITIAL, size, run).value, size, more).value;
      n.workers(w).Gone? || n.workers(w).Unborn?
  {
    RunKeeps(size, run);
    var s := After(INITIAL, size, run).value;
    EmptyThrough(s, size, more);
    var n := After(s, size, more).value;
    hide After;
    assert EndSeen(n, w);
    assert !Enabled(n, size, NotifyAll) && !Enabled(n, size, Look(w)) && !Enabled(n, size, Finish(w));
  }

  /** A notification that is owed can be made. */
  lemma SomebodyToNotify(s: State, size: nat) returns (w: nat)
    requires s.owedOne > 0
    ensures Enabled(s, size, NotifyOne(w))
  {
    if v :| 0 <= v < size && s.workers(v).Asleep? {
      w := v;
    } else {
      w := 0;
    }
  }

  lemma {:induction false} RunningThrough(s: State, size: nat, run: seq<Event>)
    requires size > 0 && Inv(s, size) && Quiet(run) && After(s, size, run).Some? && s.pool.state.Running?
    ensures var n := After(s, size, run).value;
      Inv(n, size) && n.pool.state.Running? && n.submitted == s.submitted
  {
    if run != [] {
      var init, last := run[..|run| - 1], run[|run| - 1];
      assert last in run && forall e :: e in init ==> e in run;
      RunningThrough(s, size, init);
      hide Inv;
      StepKeeps(After(s, size, init).value, size, last);
    }
  }

  /** A running pool that is left alone has run everything that was submitted when it is at rest. */
  lemma EverythingRun(size: nat, run: seq<Event>, more: seq<Event>)
    requires size > 0 && After(INITIAL, size, run).Some? && After(INITIAL, size, run).value.pool.state.Running?
    requires var s := After(INITIAL, size, run).value;
      Quiet(more) && After(s, size, more).Some? && AtRest(After(s, size, more).value, size)
    ensures var s := After(INITIAL, size, run).value;
      var n := After(s, size, more).value;
      n.taken == n.submitted == s.submitted && forall k :: 0 <= k < |n.taken| ==> k in n.finished
  {
    RunKeeps(size, run);
    var s := After(INITIAL, size, run).value;
    RunningThrough(s, size, more);
    var n := After(s, size, more).value;
    hide After;
    assert !Enabled(n, size, NotifyAll);
    assert !SomebodyAwake(n, size) by {
      forall w ensures !Awake(n, size, w) { assert !Enabled(n, size, Look(w)) && !Enabled(n, size, Finish(w)); }
    }
    if n.owedOne > 0 {
      var w := SomebodyToNotify(n, size);
    }
    assert n.pool.tasks == [];
    assert n.taken + [] == n.taken;
    forall w ensures !n.workers(w).Working? { assert !Enabled(n, size, Finish(w)); }
    forall k | 0 <= k < |n.taken| ensures k in n.finished { assert Accounted(n, k); }
  }

  // ---------------------------------------------------------------- ... comes to rest

  function Rank(w: Worker): nat {
    if w.Working? then 2 else if w.Looking? then 1 else 0
  }

  function Busy(workers: nat -> Worker, n: nat): nat {
    if n == 0 then 0 else Busy(workers, n - 1) + Rank(workers(n - 1))
  }

  lemma {:induction false} BusyPut(workers: nat -> Worker, n: nat, w: nat, x: Worker)
    ensures Busy(Put(workers, w, x), n) == Busy(workers, n) + if w < n then Rank(x) - Rank(workers(w)) else 0
  {
    if n > 0 {
      BusyPut(workers, n - 1, w, x);
    }
  }

  /** Those among the waiters that are woken and have not looked yet. */
  ghost function WokenOnes(waiters: nat -> Waiter, known: set<nat>): set<nat> {
    set c | c in known && waiters(c).Woken?
  }

  ghost predicate AllKnown(s: State, known: set<nat>) {
    forall c :: c !in known ==> s.waiters(c).Outside?
  }

  /** Every quiet step brings the pool nearer to rest. */
  ghost predicate Nearer(n: State, s: State, size: nat, known: set<nat>) {
    var owed, owed' := s.owedOne + s.owedAll, n.owedOne + n.owedAll;
    var tasks, tasks' := |s.pool.tasks|, |n.pool.tasks|;
    var flag, flag' := if s.pool.waitFlag then 1 else 0, if n.pool.waitFlag then 1 else 0;
    var busy, busy' := Busy(s.workers, size), Busy(n.workers, size);
    var woken, woken' := |WokenOnes(s.waiters, known)|, |WokenOnes(n.waiters, known)|;
    || owed' < owed
    || (owed' == owed && tasks' < tasks)
    || (owed' == owed && tasks' == tasks && flag' < flag)
    || (owed' == owed && tasks' == tasks && flag' == flag && busy' < busy)
    || (owed' == owed && tasks' == tasks && flag' == flag && busy' == busy && woken' < woken)
  }

  lemma QuietNearer(s: State, size: nat, known: set<nat>, e: Event)
    requires size > 0 && Inv(s, size) && Enabled(s, size, e) && IsQuiet(e) && AllKnown(s, known)
    ensures Nearer(Next(s, size, e), s, size, known) && AllKnown(Next(s, size, e), known)
  {
    var n := Next(s, size, e);
    match e {
      case Look(w) =>
        assert WorkersLive(s, size, w);
        BusyPut(s.workers, size, w, n.workers(w));
        assert n.workers(w) == Asleep || n.workers(w).Gone? || n.workers(w).Working?;
      case Finish(w) =>
        assert WorkersLive(s, size, w);
        BusyPut(s.workers, size, w, Looking);
      case LookAgain(c) =>
        assert WokenOnes(n.waiters, known) == WokenOnes(s.waiters, known) - {c};
      case _ =>
    }
  }

  /** The first `k` of an endless sequence of steps. */
  ghost function Prefix(steps: nat -> Event, k: nat): seq<Event> {
    seq(k, i requires 0 <= i < k => steps(i))
  }

  lemma {:induction false} Stops(start: State, size: nat, known: set<nat>, steps: nat -> Event, k: nat, s: State)
    returns (end: nat)
    requires size > 0 && Inv(s, size) && AllKnown(s, known) && forall i :: IsQuiet(steps(i))
    requires After(start, size, Prefix(steps, k)) == Some(s)
    ensures After(start, size, Prefix(steps, end)).None?
    decreases s.owedOne + s.owedAll, |s.pool.tasks|, if s.pool.waitFlag then 1 else 0, Busy(s.workers, size),
              |WokenOnes(s.waiters, known)|
  {
    var e := steps(k);
    assert Prefix(steps, k + 1)[..k] == Prefix(steps, k) && Prefix(steps, k + 1)[k] == e;
    if Enabled(s, size, e) {
      QuietNearer(s, size, known, e);
      StepKeeps(s, size, e);
      hide Inv, Next, Enabled, AllKnown;
      end := Stops(start, size, known, steps, k + 1, Next(s, size, e));
    } else {
      end := k + 1;
    }
  }

  lemma {:induction false} WaitersKnown(size: nat, run: seq<Event>) returns (known: set<nat>)
    requires After(INITIAL, size, run).Some?
    ensures AllKnown(After(INITIAL, size, run).value, known)
  {
    if run == [] {
      known := {};
    } else {
      known := WaitersKnown(size, run[..|run| - 1]);
      var last := run[|run| - 1];
      known := known + if last.Wait? then {last.c} else {};
    }
  }

  /** A pool that is left alone comes to rest: there is no endless sequence of quiet steps. */
  lemma ComesToRest(size: nat, run: seq<Event>, steps: nat -> Event)
    requires size > 0 && After(INITIAL, size, run).Some? && forall i :: IsQuiet(steps(i))
    ensures exists k :: After(After(INITIAL, size, run).value, size, Prefix(steps, k)).None?
  {
    RunKeeps(size, run);
    var known := WaitersKnown(size, run);
    var s := After(INITIAL, size, run).value;
    assert Prefix(steps, 0) == [] && After(s, size, []) == Some(s);
    var k := Stops(s, size, known, steps, 0, s);
  }

  // ---------------------------------------------------------------- the liveness of `wait` fails

  /** A task is run while somebody waits. */
  lemma OneTaken() returns (run: seq<Event>, s: State)
    ensures After(INITIAL, 1, run) == Some(s) && s.pool == Pool(Running, true, [])
    ensures s.owedOne == 1 && s.owedAll == 1 && s.waiters(0).Waiting? && s.workers(0).Working?
    ensures s.waiters(1).Outside?
  {
    run, s := [], INITIAL;
    assert After(INITIAL, 1, run) == Some(s);
    hide After;
    run, s := Extend(INITIAL, 1, run, s, Spawn(0));
    run, s := Extend(INITIAL, 1, run, s, Start);
    run, s := Extend(INITIAL, 1, run, s, Execute(1));
    run, s := Extend(INITIAL, 1, run, s, Wait(0));
    run, s := Extend(INITIAL, 1, run, s, Look(0));
  }

  /** The queue is found empty, and the waiter is woken. */
  lemma FirstDrain() returns (run: seq<Event>, s: State)
    ensures After(INITIAL, 1, run) == Some(s) && s.pool == Pool(Running, false, [])
    ensures s.owedOne == 1 && s.owedAll == 1 && s.waiters(0).Woken? && s.workers(0).Asleep?
    ensures s.waiters(1).Outside?
  {
    run, s := OneTaken();
    hide After;
    run, s := Extend(INITIAL, 1, run, s, Finish(0));
    run, s := Extend(INITIAL, 1, run, s, Look(0));
  }

  /** The queue is filled again before the waiter gets to look at it, and drained again: it sleeps with the flag
      down, everybody is asleep, the queue is empty, and no notification is owed. */
  lemma SecondDrainMissed() returns (run: seq<Event>, s: State)
    ensures After(INITIAL, 1, run) == Some(s)
    ensures s.pool == Pool(Running, false, []) && s.owedOne == 0 && s.owedAll == 0
    ensures s.waiters(0).Waiting? && s.workers(0).Asleep? && s.waiters(1).Outside?
  {
    run, s := FirstDrain();
    hide After;
    run, s := Extend(INITIAL, 1, run, s, Execute(2));
    run, s := Extend(INITIAL, 1, run, s, LookAgain(0));
    run, s := Extend(INITIAL, 1, run, s, NotifyOne(0));
    run, s := Extend(INITIAL, 1, run, s, NotifyOne(0));
    run, s := Extend(INITIAL, 1, run, s, NotifyAll);
    run, s := Extend(INITIAL, 1, run, s, Look(0));
    run, s := Extend(INITIAL, 1, run, s, Finish(0));
    run, s := Extend(INITIAL, 1, run, s, Look(0));
  }

  /** Another wait finds the queue empty and returns at once, with the flag up now: the first one sleeps on. */
  lemma FlagUpInVain() returns (run: seq<Event>, s: State)
    ensures After(INITIAL, 1, run) == Some(s)
    ensures s.pool == Pool(Running, true, []) && s.owedOne == 0 && s.owedAll == 0
    ensures s.waiters(0).Waiting? && s.workers(0).Asleep? && s.waiters(1).Returned?
  {
    run, s := SecondDrainMissed();
    hide After;
    run, s := Extend(INITIAL, 1, run, s, Wait(1));
  }

  /** With the flag down a waiter sleeps on, whatever is submitted and drained, until somebody else waits. */
  lemma {:induction false} SleepsOn(s: State, size: nat, run: seq<Event>, c: nat)
    requires s.waiters(c).Waiting? && !s.pool.waitFlag && After(s, size, run).Some?
    requires forall e :: e in run ==> !e.Wait? && e != WakeWaiter(c)
    ensures After(s, size, run).value.waiters(c).Waiting? && !After(s, size, run).value.pool.waitFlag
  {
    if run != [] {
      SleepsOn(s, size, run[..|run| - 1], c);
      assert run[|run| - 1] in run;
    }
  }

  /** Nothing is queued, nobody is awake and nobody has to notify. */
  ghost predicate Silent(s: State, size: nat) {
    s.pool.tasks == [] && s.owedOne == 0 && s.owedAll == 0 && !SomebodyAwake(s, size)
  }

  lemma SilentStays(s: State, size: nat, e: Event, c: nat)
    requires size > 0 && Inv(s, size) && Enabled(s, size, e) && Silent(s, size) && s.waiters(c).Waiting?
    requires !e.Spawn? && !e.Start? && !e.Destroy? && !e.Execute? && !e.WakeWorker? && e != WakeWaiter(c)
    ensures Silent(Next(s, size, e), size) && Next(s, size, e).waiters(c).Waiting?
  {
    var n := Next(s, size, e);
    ActorAwake(s, size, e);
    assert !e.Look? && !e.Finish?;
    forall w ensures !Awake(n, size, w) { assert !Awake(s, size, w); }
  }

  /** And in a silent pool it sleeps on through the waits of others, which return at once, and through a stop. */
  lemma {:induction false} SleepsThrough(s: State, size: nat, run: seq<Event>, c: nat)
    requires size > 0 && Inv(s, size) && Silent(s, size) && s.waiters(c).Waiting? && After(s, size, run).Some?
    requires forall e :: e in run ==>
      !e.Spawn? && !e.Start? && !e.Destroy? && !e.Execute? && !e.WakeWorker? && e != WakeWaiter(c)
    ensures var n := After(s, size, run).value; Inv(n, size) && Silent(n, size) && n.waiters(c).Waiting?
  {
    if run != [] {
      var init, last := run[..|run| - 1], run[|run| - 1];
      assert forall e :: e in init ==> e in run;
      SleepsThrough(s, size, init, c);
      hide Inv, Silent, Next;
      assert last in run;
      StepKeeps(After(s, size, init).value, size, last);
      SilentStays(After(s, size, init).value, size, last, c);
    }
  }

  /** What such a waiter needs: woken for no reason, or by another's notification, it returns if the queue is empty; and
      a worker that is woken so takes the oldest task of a running pool. */
  lemma WokenForNoReason(s: State, size: nat, c: nat, w: nat)
    ensures s.waiters(c).Waiting? ==>
      && After(s, size, [WakeWaiter(c), LookAgain(c)]).Some?
      && var x := After(s, size, [WakeWaiter(c), LookAgain(c)]).value.waiters(c);
      if s.pool.tasks == [] then x.Returned? else x == s.waiters(c)
    ensures s.workers(w).Asleep? && s.pool.state.Running? && s.pool.tasks != [] ==>
      && After(s, size, [WakeWorker(w), Look(w)]).Some?
      && var n := After(s, size, [WakeWorker(w), Look(w)]).value;
      n.workers(w) == Working(|s.taken|) && n.taken == s.taken + [s.pool.tasks[0]]
  {
    var run, s0 := [], s;
    assert After(s, size, run) == Some(s);
    hide After;
    if s.waiters(c).Waiting? {
      var a, n := Extend(s, size, run, s, WakeWaiter(c));
      a, n := Extend(s, size, a, n, LookAgain(c));
    }
    if s.workers(w).Asleep? && s.pool.state.Running? && s.pool.tasks != [] {
      var a, n := Extend(s, size, run, s, WakeWorker(w));
      a, n := Extend(s, size, a, n, Look(w));
    }
  }

  // ---------------------------------------------------------------- the end of the destructor

  /** The destructor never returns from a pool that is destroyed with tasks in the queue: whatever happens, they
      stay there and no worker leaves. */
  lemma {:induction false} NeverDestroyed(s: State, size: nat, run: seq<Event>)
    requires s.pool.state.PendingDestroy? && s.pool.tasks != [] && After(s, size, run).Some?
    ensures var n := After(s, size, run).value;
      && n.pool.state.PendingDestroy? && s.pool.tasks <= n.pool.tasks
      && forall w :: n.workers(w).Gone? ==> s.workers(w).Gone?
  {
    if run != [] {
      NeverDestroyed(s, size, run[..|run| - 1]);
    }
  }

  /** Such a pool exists: stopped, given a task, waited for and destroyed. */
  lemma DestroyedWithTasks() returns (run: seq<Event>)
    ensures After(INITIAL, 1, run).Some? && Wait(0) in run
    ensures var s := After(INITIAL, 1, run).value;
      s.pool.state.PendingDestroy? && s.pool.tasks != [] && s.waiters(0).Outside? && s.workers(0).Looking?
  {
    var s := INITIAL;
    run := [];
    assert After(INITIAL, 1, run) == Some(s);
    hide After;
    run, s := Extend(INITIAL, 1, run, s, Spawn(0));
    run, s := Extend(INITIAL, 1, run, s, Start);
    run, s := Extend(INITIAL, 1, run, s, Stop);
    run, s := Extend(INITIAL, 1, run, s, Execute(1));
    run, s := Extend(INITIAL, 1, run, s, Wait(0));
    run, s := Extend(INITIAL, 1, run, s, Destroy);
  }

  /** Some quiet continuation lets the worker leave. */
  ghost predicate CanLeave(s: State, size: nat, w: nat) {
    exists run :: Quiet(run) && After(s, size, run).Some? && After(s, size, run).value.workers(w).Gone?
  }

  lemma Leaves(s: State, size: nat, w: nat) returns (run: seq<Event>)
    requires s.pool.state.PendingDestroy? && s.pool.tasks == [] && EndSeen(s, w)
    requires !s.workers(w).Unborn? && !s.workers(w).Gone?
    ensures Quiet(run) && After(s, size, run).Some? && After(s, size, run).value.workers(w).Gone?
  {
    var n := s;
    run := [];
    assert After(s, size, run) == Some(n) && Quiet(run);
    hide After, Quiet;
    if s.workers(w).Asleep? {
      run, n := GoOn(s, size, run, n, NotifyAll);
    } else if s.workers(w).Working? {
      run, n := GoOn(s, size, run, n, Finish(w));
    }
    assert n.workers(w).Looking? && n.pool == s.pool;
    run, n := GoOn(s, size, run, n, Look(w));
  }

  /** When a thread of a pool that is being destroyed can leave, so that the destructor can join it: exactly if the
      queue is empty. */
  lemma WorkerCanLeave(size: nat, run: seq<Event>, w: nat)
    requires size > 0 && After(INITIAL, size, run).Some? && After(INITIAL, size, run).value.pool.state.PendingDestroy?
    requires var worker := After(INITIAL, size, run).value.workers(w); !worker.Unborn? && !worker.Gone?
    ensures var s := After(INITIAL, size, run).value; CanLeave(s, size, w) <==> s.pool.tasks == []
  {
    RunKeeps(size, run);
    var s := After(INITIAL, size, run).value;
    assert EndSeen(s, w);
    hide Inv, After;
    if s.pool.tasks == [] {
      var more := Leaves(s, size, w);
    } else {
      forall more | Quiet(more) && After(s, size, more).Some?
        ensures !After(s, size, more).value.workers(w).Gone?
      {
        NeverDestroyed(s, size, more);
      }
    }
  }
}
