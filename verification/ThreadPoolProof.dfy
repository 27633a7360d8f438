/**
 What every step of the thread pool keeps, and what can go wrong with it.
 */
module ThreadPoolProof {
  import opened Prelude
  import opened ThreadPoolSpec

  ghost predicate Awake(s: State, size: nat, w: nat) {
    w < size && (s.workers(w).Looking? || s.workers(w).Working?)
  }

  ghost predicate SomebodyAwake(s: State, size: nat) {
    exists w :: Awake(s, size, w)
  }

  /** Tasks are taken in the order of submission. */
  ghost predicate InOrder(s: State) {
    s.submitted == s.taken + s.pool.tasks
  }

  /** Only a pool that is being destroyed loses workers, when all that was submitted has been taken; and it does
      not run before it has them all. */
  ghost predicate WorkersLive(s: State, size: nat, w: nat) {
    && (s.workers(w).Gone? ==> s.pool.state.PendingDestroy? && s.workers(w).left <= |s.taken|)
    && (s.pool.state.Running? && w < size ==> !s.workers(w).Unborn?)
    && (w >= size ==> s.workers(w).Unborn?)
    && (s.workers(w).Working? ==> s.workers(w).k < |s.taken| && s.workers(w).k !in s.finished)
  }

  ghost predicate WorksAlone(s: State, v: nat, w: nat) {
    v != w && s.workers(v).Working? && s.workers(w).Working? ==> s.workers(v).k != s.workers(w).k
  }

  /** A task that was taken has been finished or is being run. */
  ghost predicate Accounted(s: State, k: nat) {
    && (k in s.finished ==> k < |s.taken|)
    && (k < |s.taken| && k !in s.finished ==> exists w :: s.workers(w) == Working(k))
  }

  ghost predicate NotStranded(s: State, size: nat) {
    s.pool.state.Running? && s.pool.tasks != [] ==> s.owedOne > 0 || s.owedAll > 0 || SomebodyAwake(s, size)
  }

  /** A waiter sleeps with the flag up, or work has been submitted since it came; and while the flag is up and
      the queue empty, some worker is still to look at it. */
  ghost predicate WaiterSeen(s: State, size: nat, c: nat) {
    s.waiters(c).Waiting? ==>
      && s.waiters(c).submittedAtStart <= |s.submitted|
      && (s.pool.waitFlag || s.waiters(c).submittedAtStart < |s.submitted|)
      && (s.pool.waitFlag && s.pool.tasks == [] && s.waiters(c).submittedAtStart == |s.submitted| ==>
            SomebodyAwake(s, size))
  }

  ghost predicate WokenSeen(s: State, c: nat) {
    && (s.waiters(c).Woken? ==>
          && s.waiters(c).submittedAtStart <= |s.submitted|
          && (s.pool.waitFlag || s.pool.tasks == [] || s.waiters(c).submittedAtStart < |s.submitted|))
    && (s.waiters(c).Returned? ==> s.waiters(c).submittedAtEnd <= |s.taken|)
  }

  /** No worker sleeps through the destruction of an empty pool. */
  ghost predicate EndSeen(s: State, w: nat) {
    s.pool.state.PendingDestroy? && s.pool.tasks == [] && s.owedAll == 0 ==> !s.workers(w).Asleep?
  }

  ghost predicate Inv(s: State, size: nat) {
    && InOrder(s) && NotStranded(s, size)
    && (forall w :: WorkersLive(s, size, w) && EndSeen(s, w))
    && (forall v, w :: WorksAlone(s, v, w))
    && (forall k :: Accounted(s, k))
    && (forall c :: WaiterSeen(s, size, c) && WokenSeen(s, c))
  }

  lemma Initially(size: nat)
    ensures Inv(INITIAL, size)
  {
  }

  lemma AwakeStays(s: State, n: State, size: nat)
    requires SomebodyAwake(s, size) && forall w :: Awake(s, size, w) ==> Awake(n, size, w)
    ensures SomebodyAwake(n, size)
  {
    var w :| Awake(s, size, w);
    assert Awake(n, size, w);
  }

  /** Steps that leave the workers alone. */
  lemma PoolStepKeeps(s: State, size: nat, e: Event)
    requires size > 0 && Inv(s, size) && Enabled(s, size, e)
    requires e.Start? || e.Stop? || e.Destroy? || e.Execute?
    ensures Inv(Next(s, size, e), size)
  {
    var n := Next(s, size, e);
    if SomebodyAwake(s, size) { AwakeStays(s, n, size); }
    forall w ensures WorkersLive(n, size, w) && EndSeen(n, w) { assert WorkersLive(s, size, w) && EndSeen(s, w); }
    forall v, w ensures WorksAlone(n, v, w) { assert WorksAlone(s, v, w); }
    forall k: nat ensures Accounted(n, k) { assert Accounted(s, k); }
    forall c ensures WaiterSeen(n, size, c) && WokenSeen(n, c) { assert WaiterSeen(s, size, c) && WokenSeen(s, c); }
  }

  lemma WaiterStepKeeps(s: State, size: nat, e: Event)
    requires size > 0 && Inv(s, size) && Enabled(s, size, e)
    requires e.Wait? || e.WakeWaiter? || e.LookAgain?
    ensures Inv(Next(s, size, e), size)
  {
    var n := Next(s, size, e);
    if SomebodyAwake(s, size) { AwakeStays(s, n, size); }
    forall w ensures WorkersLive(n, size, w) && EndSeen(n, w) { assert WorkersLive(s, size, w) && EndSeen(s, w); }
    forall v, w ensures WorksAlone(n, v, w) { assert WorksAlone(s, v, w); }
    forall k: nat ensures Accounted(n, k) { assert Accounted(s, k); }
    forall c ensures WaiterSeen(n, size, c) && WokenSeen(n, c) { assert WaiterSeen(s, size, c) && WokenSeen(s, c); }
  }

  /** Steps that wake workers. */
  lemma WakingStepKeeps(s: State, size: nat, e: Event)
    requires size > 0 && Inv(s, size) && Enabled(s, size, e)
    requires e.Spawn? || e.NotifyOne? || e.NotifyAll? || e.WakeWorker?
    ensures Inv(Next(s, size, e), size)
  {
    var n := Next(s, size, e);
    if SomebodyAwake(s, size) { AwakeStays(s, n, size); }
    forall w ensures WorkersLive(n, size, w) && EndSeen(n, w) { assert WorkersLive(s, size, w) && EndSeen(s, w); }
    if s.pool.state.Running? && (e.NotifyOne? || e.NotifyAll?) {
      assert WorkersLive(s, size, 0);
      assert Awake(n, size, 0) || (e.NotifyOne? && Awake(n, size, e.w));
    }
    forall v, w ensures WorksAlone(n, v, w) { assert WorksAlone(s, v, w); }
    forall k: nat ensures Accounted(n, k) { AccountKept(s, n, k); }
    forall c ensures WaiterSeen(n, size, c) && WokenSeen(n, c) { assert WaiterSeen(s, size, c) && WokenSeen(s, c); }
  }

  lemma AccountKept(s: State, n: State, k: nat)
    requires Accounted(s, k) && n.finished == s.finished && n.taken == s.taken
    requires forall w :: s.workers(w).Working? ==> n.workers(w) == s.workers(w)
    ensures Accounted(n, k)
  {
    if k < |s.taken| && k !in s.finished {
      var w :| s.workers(w) == Working(k);
      assert n.workers(w) == Working(k);
    }
  }

  lemma FinishKeeps(s: State, size: nat, w: nat)
    requires size > 0 && Inv(s, size) && Enabled(s, size, Finish(w))
    ensures Inv(Next(s, size, Finish(w)), size)
  {
    var n := Next(s, size, Finish(w));
    assert WorkersLive(s, size, w) && Awake(n, size, w);
    forall v ensures WorkersLive(n, size, v) && EndSeen(n, v) {
      assert WorkersLive(s, size, v) && EndSeen(s, v) && WorksAlone(s, v, w);
    }
    forall v, u ensures WorksAlone(n, v, u) { assert WorksAlone(s, v, u); }
    forall k: nat ensures Accounted(n, k) {
      assert Accounted(s, k);
      if k < |n.taken| && k !in n.finished {
        var v :| s.workers(v) == Working(k);
        assert n.workers(v) == Working(k);
      }
    }
    forall c ensures WaiterSeen(n, size, c) && WokenSeen(n, c) { assert WaiterSeen(s, size, c) && WokenSeen(s, c); }
  }

  /** A worker finds work. */
  lemma TakeKeeps(s: State, size: nat, w: nat)
    requires size > 0 && Inv(s, size) && Enabled(s, size, Look(w)) && Evaluate(s.pool).2.Take?
    ensures Inv(Next(s, size, Look(w)), size)
  {
    var n := Next(s, size, Look(w));
    assert WorkersLive(s, size, w) && Awake(n, size, w);
    assert s.taken + s.pool.tasks == s.taken + [s.pool.tasks[0]] + s.pool.tasks[1..];
    assert Accounted(s, |s.taken|);
    forall v ensures WorkersLive(n, size, v) && EndSeen(n, v) { assert WorkersLive(s, size, v) && EndSeen(s, v); }
    forall v, u ensures WorksAlone(n, v, u) {
      assert WorksAlone(s, v, u) && WorkersLive(s, size, v) && WorkersLive(s, size, u);
    }
    forall k: nat ensures Accounted(n, k) {
      assert Accounted(s, k);
      if k < |s.taken| && k !in s.finished {
        var v :| s.workers(v) == Working(k);
        assert n.workers(v) == Working(k);
      } else if k == |s.taken| {
        assert n.workers(w) == Working(k);
      }
    }
    forall c ensures WaiterSeen(n, size, c) && WokenSeen(n, c) { assert WaiterSeen(s, size, c) && WokenSeen(s, c); }
  }

  /** A worker finds none. */
  lemma IdleKeeps(s: State, size: nat, w: nat)
    requires size > 0 && Inv(s, size) && Enabled(s, size, Look(w)) && !Evaluate(s.pool).2.Take?
    ensures Inv(Next(s, size, Look(w)), size)
  {
    var n := Next(s, size, Look(w));
    forall v ensures WorkersLive(n, size, v) && EndSeen(n, v) { assert WorkersLive(s, size, v) && EndSeen(s, v); }
    forall v, u ensures WorksAlone(n, v, u) { assert WorksAlone(s, v, u); }
    forall k: nat ensures Accounted(n, k) { assert Accounted(s, k); AccountKept(s, n, k); }
    forall c ensures WaiterSeen(n, size, c) && WokenSeen(n, c) { assert WaiterSeen(s, size, c) && WokenSeen(s, c); }
  }

  lemma StepKeeps(s: State, size: nat, e: Event)
    requires size > 0 && Inv(s, size) && Enabled(s, size, e)
    ensures Inv(Next(s, size, e), size)
  {
    hide Inv, Next;
    match e {
      case Start => PoolStepKeeps(s, size, e);
      case Stop => PoolStepKeeps(s, size, e);
      case Destroy => PoolStepKeeps(s, size, e);
      case Execute(_) => PoolStepKeeps(s, size, e);
      case Look(w) => if Evaluate(s.pool).2.Take? { TakeKeeps(s, size, w); } else { IdleKeeps(s, size, w); }
      case Finish(w) => FinishKeeps(s, size, w);
      case Wait(_) => WaiterStepKeeps(s, size, e);
      case WakeWaiter(_) => WaiterStepKeeps(s, size, e);
      case LookAgain(_) => WaiterStepKeeps(s, size, e);
      case _ => WakingStepKeeps(s, size, e);
    }
  }

  lemma {:induction false} RunKeeps(size: nat, run: seq<Event>)
    requires size > 0
    ensures After(INITIAL, size, run).Some? ==> Inv(After(INITIAL, size, run).value, size)
  {
    hide Inv, Enabled, Next;
    if run == [] {
      Initially(size);
    } else {
      RunKeeps(size, run[..|run| - 1]);
      var before := After(INITIAL, size, run[..|run| - 1]);
      if before.Some? && Enabled(before.value, size, run[|run| - 1]) {
        StepKeeps(before.value, size, run[|run| - 1]);
      }
    }
  }

  /** Work is never stranded: while the pool runs and tasks are queued, some worker is awake, or a thread that has
      left its block still has to notify. */
  lemma NeverStranded(size: nat, run: seq<Event>)
    requires size > 0 && After(INITIAL, size, run).Some?
    ensures var s := After(INITIAL, size, run).value;
      s.pool.state.Running? && s.pool.tasks != [] ==> s.owedOne > 0 || s.owedAll > 0 || SomebodyAwake(s, size)
  {
    RunKeeps(size, run);
  }

  /** Nothing is lost or repeated: what was taken, then what is queued, is what was submitted, in order; and every
      task taken has been finished or is being run, by one worker. */
  lemma TakenOnceInOrder(size: nat, run: seq<Event>, k: nat)
    requires size > 0 && After(INITIAL, size, run).Some?
    ensures var s := After(INITIAL, size, run).value;
      && s.submitted == s.taken + s.pool.tasks
      && (k < |s.taken| <==> k in s.finished || exists w :: s.workers(w) == Working(k))
      && (k in s.finished ==> forall w :: s.workers(w) != Working(k))
      && (forall v, w :: s.workers(v) == Working(k) && s.workers(w) == Working(k) ==> v == w)
  {
    RunKeeps(size, run);
    var s := After(INITIAL, size, run).value;
    assert Accounted(s, k);
    forall v, w | s.workers(v) == Working(k) && s.workers(w) == Working(k) ensures v == w {
      assert WorksAlone(s, v, w);
    }
    forall w | s.workers(w) == Working(k) ensures k < |s.taken| && k !in s.finished {
      assert WorkersLive(s, size, w);
    }
  }
}
