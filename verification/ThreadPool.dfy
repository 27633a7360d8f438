/**
 The pool as an object: each method is a block under its mutex, or what a thread does between two of them.
 Any schedule of its callers, its workers and the system runs it as the transition system says.
 */
module ThreadPools {
  import opened Prelude
  import ThreadPoolLiveness
  import opened ThreadPoolProof
  import opened ThreadPoolSpec

  class ThreadPool {
    const size: nat
    // shared, under the mutex
    var state: PoolState
    var waitFlag: bool
    var tasks: seq<Task>
    // where each worker and each waiter is, and how many notifications are on the way
    var workers: nat -> Worker
    var waiters: nat -> Waiter
    var owedOne: nat
    var owedAll: nat
    // history
    var submitted: seq<Task>
    var taken: seq<Task>
    var finished: set<nat>

    function View(): State
      reads this
    {
      State(Pool(state, waitFlag, tasks), workers, waiters, owedOne, owedAll, submitted, taken, finished)
    }

    constructor (size: nat)
      ensures View() == INITIAL && this.size == size
    {
      this.size := size;
      state, waitFlag, tasks := Stopping, false, [];
      workers, waiters, owedOne, owedAll := NoWorkers(), NoWaiters(), 0, 0;
      submitted, taken, finished := [], [], {};
    }

    method SetState(to: PoolState, notifies: bool)
      modifies this
      ensures View() == old(View()).(pool := old(View()).pool.(state := to),
                                     owedAll := old(owedAll) + if notifies then 1 else 0)
    {
      state := to;
      if notifies {
        owedAll := owedAll + 1;
      }
    }

    method Execute(x: Task)
      modifies this
      ensures View() == Next(old(View()), size, ThreadPoolSpec.Execute(x))
    {
      tasks := tasks + [x];
      submitted := submitted + [x];
      owedOne := owedOne + 1;
    }

    /** Any worker that sleeps, if one does. */
    method NotifyOne(w: nat)
      requires Enabled(View(), size, ThreadPoolSpec.NotifyOne(w))
      modifies this
      ensures View() == Next(old(View()), size, ThreadPoolSpec.NotifyOne(w))
    {
      workers := Put(workers, w, Awakened(workers(w)));
      owedOne := owedOne - 1;
    }

    method NotifyAll()
      requires owedAll > 0
      modifies this
      ensures View() == Next(old(View()), size, ThreadPoolSpec.NotifyAll)
    {
      workers := AllAwakened(workers);
      owedAll := owedAll - 1;
    }

    /** `wait`, up to its first look at the queue. */
    method Wait(c: nat)
      requires waiters(c).Outside? || waiters(c).Returned?
      modifies this
      ensures View() == DoWait(old(View()), c)
      ensures old(state).Running? && waiters(c).Returned? ==> tasks == []
    {
      if state != Running {
        return;
      }
      waitFlag := true;
      var done := tasks == [];
      waiters := Put(waiters, c, if done then Returned(|submitted|) else Waiting(|submitted|));
    }

    /** The predicate of `wait`, by a waiter that was woken. */
    method LookAgain(c: nat)
      requires waiters(c).Woken?
      modifies this
      ensures View() == DoLookAgain(old(View()), c)
    {
      var done := tasks == [];
      waiters := Put(waiters, c, if done then Returned(|submitted|) else Waiting(waiters(c).submittedAtStart));
    }

    /** The predicate of a worker's wait, and its answer to waiters. */
    method Predicate() returns (ready: bool)
      modifies this`waitFlag, this`waiters
      ensures ready <==> (if tasks == [] then state.PendingDestroy? else state.Running?)
      ensures waitFlag == (tasks != [] && old(waitFlag))
      ensures waiters == if tasks == [] && old(waitFlag) then AllNotified(old(waiters)) else old(waiters)
    {
      if tasks == [] {
        if waitFlag {
          waitFlag := false;
          waiters := AllNotified(waiters);
        }
        ready := state == PendingDestroy;
      } else {
        ready := state == Running;
      }
    }

    /** The block of a worker: it goes to sleep, leaves, or takes the oldest task, which is there. */
    method Look(w: nat)
      requires workers(w).Looking?
      modifies this
      ensures View() == DoLook(old(View()), w)
      ensures workers(w).Working? ==> old(tasks) == [taken[|taken| - 1]] + tasks
    {
      var ready := Predicate();
      if !ready {
        workers := Put(workers, w, Asleep);
      } else if state == PendingDestroy {
        workers := Put(workers, w, Gone(|submitted|));
      } else {
        var task := tasks[0];
        tasks := tasks[1..];
        workers := Put(workers, w, Working(|taken|));
        taken := taken + [task];
      }
    }

    /** The worker has run its task. */
    method Finish(w: nat)
      requires workers(w).Working?
      modifies this
      ensures View() == Next(old(View()), size, ThreadPoolSpec.Finish(w))
    {
      finished := finished + {workers(w).k};
      workers := Put(workers, w, Looking);
    }

    /** One step of somebody. */
    method Step(e: Event)
      requires Enabled(View(), size, e)
      modifies this
      ensures View() == Next(old(View()), size, e)
    {
      match e {
        case Spawn(w) => workers := Put(workers, w, Looking);
        case Start => SetState(Running, true);
        case Stop => SetState(Stopping, false);
        case Destroy => SetState(PendingDestroy, true);
        case Execute(x) => Execute(x);
        case NotifyOne(w) => NotifyOne(w);
        case NotifyAll => NotifyAll();
        case WakeWorker(w) => workers := Put(workers, w, Looking);
        case Look(w) => Look(w);
        case Finish(w) => Finish(w);
        case Wait(c) => Wait(c);
        case WakeWaiter(c) => waiters := Put(waiters, c, Woken(waiters(c).submittedAtStart));
        case LookAgain(c) => LookAgain(c);
      }
    }
  }

  /** What a step submits. */
  function Submission(e: Event): seq<Task> {
    if e.Execute? then [e.x] else []
  }

  function Submissions(run: seq<Event>): seq<Task> {
    if run == [] then [] else Submissions(run[..|run| - 1]) + Submission(run[|run| - 1])
  }

  /** The steps of a schedule that are possible when their turn comes, and the state they lead to. */
  function Done(s: State, size: nat, schedule: seq<Event>): (seq<Event>, State) {
    if schedule == [] then ([], s)
    else
      var (run, end) := Done(s, size, schedule[..|schedule| - 1]);
      var e := schedule[|schedule| - 1];
      if Enabled(end, size, e) then (run + [e], Next(end, size, e)) else (run, end)
  }

  /** What is done of a schedule is a run, in which everything that the schedule submits is submitted in order. */
  lemma {:induction false} DoneIsRun(size: nat, schedule: seq<Event>)
    ensures var (run, end) := Done(INITIAL, size, schedule);
      After(INITIAL, size, run) == Some(end) && end.submitted == Submissions(run) == Submissions(schedule)
  {
    if schedule != [] {
      var init, e := schedule[..|schedule| - 1], schedule[|schedule| - 1];
      DoneIsRun(size, init);
      var (run, end) := Done(INITIAL, size, init);
      assert (run + [e])[..|run|] == run;
      if Enabled(end, size, e) {
        SubmittedNext(end, size, e);
      }
      hide Next, Enabled;
    }
  }

  /** Any schedule of steps: the pool does those that are possible when their turn comes; it takes what the schedule
      submits in order, each task once, and while it runs no task is stranded. */
  method Run(size: nat, schedule: seq<Event>)
      returns (run: seq<Event>, taken: seq<Task>, queued: seq<Task>, running: bool, end: State)
    requires size > 0
    ensures (run, end) == Done(INITIAL, size, schedule)
    ensures taken + queued == Submissions(schedule)
    ensures end.taken == taken && end.pool.tasks == queued && (running <==> end.pool.state.Running?)
    ensures end.pool.state == ThreadPoolLiveness.Leads(run)
    ensures running && queued != [] ==> end.owedOne > 0 || end.owedAll > 0 || SomebodyAwake(end, size)
  {
    var pool := new ThreadPool(size);
    run := [];
    hide Next, Enabled, Submissions;
    for i := 0 to |schedule|
      invariant fresh(pool) && pool.size == size && (run, pool.View()) == Done(INITIAL, size, schedule[..i])
    {
      assert schedule[..i + 1][..i] == schedule[..i];
      if Enabled(pool.View(), size, schedule[i]) {
        pool.Step(schedule[i]);
        run := run + [schedule[i]];
      }
    }
    assert schedule[..|schedule|] == schedule;
    end := pool.View();
    DoneIsRun(size, schedule);
    RunKeeps(size, run);
    ThreadPoolLiveness.RunsUntilStopped(size, run);
    taken, queued, running := pool.taken, pool.tasks, pool.state == Running;
  }

  lemma SubmittedNext(s: State, size: nat, e: Event)
    requires Enabled(s, size, e)
    ensures Next(s, size, e).submitted == s.submitted + Submission(e)
  {
  }
}
