/**
 The thread pool as a transition system over any number of workers, waiters and threads that submit work.
 Every block under the pool's mutex is one step, and so is every notification; a condition variable may wake
 a thread for no reason.
 */
module ThreadPoolSpec {
  import opened Prelude

  type Task = nat

  // ---------------------------------------------------------------- the blocks under the lock

  datatype PoolState = Stopping | Running | PendingDestroy

  datatype Pool = Pool(state: PoolState, waitFlag: bool, tasks: seq<Task>)

  /** What a worker does when it looks at the pool. */
  datatype Verdict = Sleep | Exit | Take(task: Task)

  /** The worker's block: the predicate of its wait, whether it wakes the waiters, and what follows. */
  function Evaluate(p: Pool): (r: (Pool, bool, Verdict)) {
    if p.tasks == [] then
      (p.(waitFlag := false), p.waitFlag, if p.state.PendingDestroy? then Exit else Sleep)
    else if p.state.Running? then (p.(tasks := p.tasks[1..]), false, Take(p.tasks[0]))
    else (p, false, Sleep)
  }

  // ---------------------------------------------------------------- states

  datatype Worker =
    | Unborn
    | Looking           // about to take the lock
    | Asleep            // in `cv_.wait`
    | Working(k: nat)   // runs the k-th task that was taken
    | Gone(left: nat)   // left when so many tasks had been submitted

  datatype Waiter =
    | Outside
    | Waiting(submittedAtStart: nat)   // asleep in `wait_cv_.wait`
    | Woken(submittedAtStart: nat)     // about to look at the queue
    | Returned(submittedAtEnd: nat)    // from a wait that began while the pool was running

  datatype State = State(
    pool: Pool,
    workers: nat -> Worker,
    waiters: nat -> Waiter,
    // threads that have left their block and still have to notify
    owedOne: nat,
    owedAll: nat,
    // history
    submitted: seq<Task>,
    taken: seq<Task>,
    finished: set<nat>)

  function NoWorkers(): nat -> Worker {
    (w: nat) => Unborn
  }

  function NoWaiters(): nat -> Waiter {
    (c: nat) => Outside
  }

  ghost const INITIAL := State(Pool(Stopping, false, []), NoWorkers(), NoWaiters(), 0, 0, [], [], {})

  datatype Event =
    | Spawn(w: nat)              // the first `start` creates the threads, one after the other
    | Start                      // ... and its block
    | Stop
    | Destroy                    // the block of the destructor, after its `wait`
    | Execute(x: Task)
    | NotifyOne(w: nat)          // wakes `w`, or nobody if nobody sleeps
    | NotifyAll
    | WakeWorker(w: nat)         // for no reason
    | Look(w: nat)
    | Finish(w: nat)
    | Wait(c: nat)
    | WakeWaiter(c: nat)         // for no reason
    | LookAgain(c: nat)

  /** In a pool of `size` threads. */
  predicate Enabled(s: State, size: nat, e: Event) {
    match e
    case Spawn(w) => w < size && s.workers(w).Unborn? && !s.pool.state.PendingDestroy?
    case Start => !s.pool.state.PendingDestroy? && forall w | 0 <= w < size :: !s.workers(w).Unborn?
    case Stop => !s.pool.state.PendingDestroy?
    case Destroy => !s.pool.state.PendingDestroy?
    case Execute(_) => true
    case NotifyOne(w) =>
      s.owedOne > 0 && ((w < size && s.workers(w).Asleep?) || forall v | 0 <= v < size :: !s.workers(v).Asleep?)
    case NotifyAll => s.owedAll > 0
    case WakeWorker(w) => s.workers(w).Asleep?
    case Look(w) => s.workers(w).Looking?
    case Finish(w) => s.workers(w).Working?
    case Wait(c) => s.waiters(c).Outside? || s.waiters(c).Returned?
    case WakeWaiter(c) => s.waiters(c).Waiting?
    case LookAgain(c) => s.waiters(c).Woken?
  }

  function Awakened(w: Worker): Worker {
    if w.Asleep? then Looking else w
  }

  function AllAwakened(workers: nat -> Worker): nat -> Worker {
    (w: nat) => Awakened(workers(w))
  }

  function Notified(c: Waiter): Waiter {
    if c.Waiting? then Woken(c.submittedAtStart) else c
  }

  function AllNotified(waiters: nat -> Waiter): nat -> Waiter {
    (c: nat) => Notified(waiters(c))
  }

  function DoLook(s: State, w: nat): State {
    var (p, wake, verdict) := Evaluate(s.pool);
    var n := s.(pool := p, waiters := if wake then AllNotified(s.waiters) else s.waiters);
    match verdict
    case Sleep => n.(workers := Put(s.workers, w, Asleep))
    case Exit => n.(workers := Put(s.workers, w, Gone(|s.submitted|)))
    case Take(x) => n.(workers := Put(s.workers, w, Working(|s.taken|)), taken := s.taken + [x])
  }

  /** The beginning of `wait`, up to and with the first look at the queue. */
  function DoWait(s: State, c: nat): State {
    if !s.pool.state.Running? then s
    else
      var waiter := if s.pool.tasks == [] then Returned(|s.submitted|) else Waiting(|s.submitted|);
      s.(pool := s.pool.(waitFlag := true), waiters := Put(s.waiters, c, waiter))
  }

  /** The predicate of `wait`: the queue is empty. */
  function DoLookAgain(s: State, c: nat): State
    requires s.waiters(c).Woken?
  {
    var waiter := if s.pool.tasks == [] then Returned(|s.submitted|) else Waiting(s.waiters(c).submittedAtStart);
    s.(waiters := Put(s.waiters, c, waiter))
  }

  function Next(s: State, size: nat, e: Event): State
    requires Enabled(s, size, e)
  {
    match e
    case Spawn(w) => s.(workers := Put(s.workers, w, Looking))
    case Start => s.(pool := s.pool.(state := Running), owedAll := s.owedAll + 1)
    case Stop => s.(pool := s.pool.(state := Stopping))
    case Destroy => s.(pool := s.pool.(state := PendingDestroy), owedAll := s.owedAll + 1)
    case Execute(x) =>
      s.(pool := s.pool.(tasks := s.pool.tasks + [x]), submitted := s.submitted + [x], owedOne := s.owedOne + 1)
    case NotifyOne(w) => s.(workers := Put(s.workers, w, Awakened(s.workers(w))), owedOne := s.owedOne - 1)
    case NotifyAll => s.(workers := AllAwakened(s.workers), owedAll := s.owedAll - 1)
    case WakeWorker(w) => s.(workers := Put(s.workers, w, Looking))
    case Look(w) => DoLook(s, w)
    case Finish(w) => s.(workers := Put(s.workers, w, Looking), finished := s.finished + {s.workers(w).k})
    case Wait(c) => DoWait(s, c)
    case WakeWaiter(c) => s.(waiters := Put(s.waiters, c, Woken(s.waiters(c).submittedAtStart)))
    case LookAgain(c) => DoLookAgain(s, c)
  }

  /** The state after a finite run, if every step of it is possible. */
  ghost function After(s: State, size: nat, run: seq<Event>): Option<State> {
    if run == [] then Some(s)
    else
      var before := After(s, size, run[..|run| - 1]);
      if before.Some? && Enabled(before.value, size, run[|run| - 1])
      then Some(Next(before.value, size, run[|run| - 1]))
      else None
  }
}
