/**
 The event loop of a context as a transition system: the loop thread, any number of other
 threads that submit work to it, and a kernel that completes operations whenever it likes.
 A block under the context's mutex is one step, and so is every call into the kernel.
 */
module EventLoopSpec {
  import opened Prelude

  type Task = nat
  type Op = nat

  const WAKE_VALUE: nat := 114514
  // `eventfd(EFD_NONBLOCK, 0)` passes the flag as the initial value, so the descriptor starts readable and blocks
  const EFD_NONBLOCK: nat := 2048
  const COUNTER_MAX: nat := 0xFFFF_FFFF_FFFF_FFFE

  /** A completion: of a user operation, of the read that waits for a wake-up, or of a cancellation. */
  datatype Cqe = User(op: Op) | Wake | Ignored

  /** Where the read of the eventfd is. */
  datatype WakeRead = Prepared | Submitted | Completed

  /** Where the loop thread is in `start`. */
  datatype Phase =
    | Outside            // not in `start`
    | Top                // at the loop condition
    | Batch              // running the handles it took
    | Timers             // running the expired timer tasks
    | Checking(d: nat)   // has the time to the next deadline, about to look at the pending handles
    | Polling(d: nat)    // committed to this timeout
    | Waiting(d: nat)    // in the kernel
    | Handling           // invoking completions

  datatype State = State(
    // CoroContext
    running: bool,
    phase: Phase,
    pending: seq<Task>,
    batch: seq<Task>,
    deadlines: seq<nat>,
    // other threads that have pushed a handle and have not called `wake_up` yet
    owed: nat,
    // IoUring and the kernel
    ioNum: int,
    counter: nat,
    wakeRead: WakeRead,
    sq: seq<Op>,
    inKernel: multiset<Op>,
    cq: seq<Cqe>,
    // the clock, and history
    now: nat,
    measured: nat,
    submitted: seq<Task>,
    executed: seq<Task>,
    started: seq<Op>,
    finished: seq<Op>)

  ghost predicate Initial(s: State) {
    && !s.running && s.phase == Outside && s.pending == s.batch == s.submitted == s.executed == []
    && s.deadlines == [] && s.owed == 0 && s.ioNum == 0 && s.counter == EFD_NONBLOCK && s.wakeRead == Prepared
    && s.measured == 0 && s.sq == [] && s.inKernel == multiset{} && s.cq == [] && s.started == s.finished == []
  }

  datatype Event =
    | Push(x: Task)           // `execute` from another thread: the block under the mutex
    | WakeUp                  // ... and its `wake_up`
    | PushHere(x: Task)       // `execute` on the loop thread
    | Stop
    | Start
    | TakeBatch
    | Leave
    | RunTask
    | EndBatch                // ... and `get_expired`
    | SetTimer(deadline: nat)
    | Measure                 // `next_duration`
    | Check                   // the block that may turn the timeout into zero
    | PollEarly
    | PollSubmit
    | PollTimeout
    | PollInterrupted
    | PollFailed
    | PollReturn
    | HandleCqe
    | EndPoll
    | Submit(op: Op)
    | KernelOp(op: Op)
    | KernelIgnored           // the completion of a cancellation
    | KernelWake
    | Tick(d: nat)

  /** User code runs on the loop thread: tasks, timer tasks, completion callbacks, or code around `start`. */
  predicate InUserCode(s: State) {
    s.phase.Outside? || s.phase.Batch? || s.phase.Timers? || s.phase.Handling?
  }

  function Min(s: seq<nat>): nat
    requires s != []
  {
    if |s| == 1 then s[0] else
    var m := Min(s[1..]);
    if s[0] < m then s[0] else m
  }

  function NextDuration(deadlines: seq<nat>, now: nat): nat {
    if deadlines == [] then ONE_DAY
    else if Min(deadlines) < now then 0
    else Min(deadlines) - now
  }

  function Later(deadlines: seq<nat>, now: nat): seq<nat> {
    if deadlines == [] then []
    else (if deadlines[0] > now then [deadlines[0]] else []) + Later(deadlines[1..], now)
  }

  predicate Enabled(s: State, e: Event) {
    match e
    case Push(_) => true
    case WakeUp => s.owed > 0 && s.counter + WAKE_VALUE <= COUNTER_MAX   // the write blocks until it fits
    case PushHere(_) => InUserCode(s)
    case Stop => InUserCode(s)
    case Start => s.phase.Outside? && !s.running
    case TakeBatch => s.phase.Top? && s.running
    case Leave => s.phase.Top? && !s.running
    case RunTask => s.phase.Batch? && s.batch != []
    case EndBatch => s.phase.Batch? && s.batch == []
    case SetTimer(_) => InUserCode(s)
    case Measure => s.phase.Timers?
    case Check => s.phase.Checking?
    case PollEarly => s.phase.Polling? && s.phase.d == 0 && s.ioNum == 0
    case PollSubmit => s.phase.Polling? && !(s.phase.d == 0 && s.ioNum == 0)
    case PollTimeout => s.phase.Waiting? && s.cq == []
    case PollInterrupted => s.phase.Waiting?
    case PollFailed => s.phase.Waiting?
    case PollReturn => s.phase.Waiting? && s.cq != []
    case HandleCqe => s.phase.Handling? && s.cq != []
    case EndPoll => s.phase.Handling? && s.cq == []
    case Submit(op) => InUserCode(s) && op !in s.started
    case KernelOp(op) => op in s.inKernel
    case KernelIgnored => true
    case KernelWake => s.wakeRead.Submitted?
    case Tick(_) => true
  }

  /** `poll` submits what is prepared, and goes to wait. */
  function Submitting(s: State): State
    requires s.phase.Polling?
  {
    s.(phase := Waiting(s.phase.d), sq := [], inKernel := s.inKernel + multiset(s.sq),
       wakeRead := if s.wakeRead.Prepared? then Submitted else s.wakeRead)
  }

  /** `handle_cqe` for the oldest completion, up to the user's callback. */
  function HandlingCqe(s: State): State
    requires s.cq != []
  {
    var rest := s.(cq := s.cq[1..]);
    match s.cq[0]
    case User(op) => rest.(ioNum := s.ioNum - 1, finished := s.finished + [op])
    case Wake => rest.(wakeRead := Prepared)
    case Ignored => rest
  }

  /** The kernel queues a completion. */
  function Completing(s: State, c: Cqe): State {
    var more := s.(cq := s.cq + [c]);
    match c
    case User(op) => more.(inKernel := s.inKernel - multiset{op})
    case Wake => more.(counter := 0, wakeRead := Completed)
    case Ignored => more
  }

  /** A step that is not possible changes nothing. */
  function Next(s: State, e: Event): State {
    if !Enabled(s, e) then s else
    match e
    case Push(x) => s.(pending := s.pending + [x], submitted := s.submitted + [x], owed := s.owed + 1)
    case WakeUp => s.(owed := s.owed - 1, counter := s.counter + WAKE_VALUE)
    case PushHere(x) => s.(pending := s.pending + [x], submitted := s.submitted + [x])
    case Stop => s.(running := false)
    case Start => s.(running := true, phase := Top)
    case TakeBatch => s.(batch := s.pending, pending := s.batch, phase := Batch)
    case Leave => s.(phase := Outside)
    case RunTask => s.(batch := s.batch[1..], executed := s.executed + [s.batch[0]])
    case EndBatch => s.(phase := Timers, deadlines := Later(s.deadlines, s.now))
    case SetTimer(deadline) => s.(deadlines := s.deadlines + [deadline])
    case Measure => s.(phase := Checking(NextDuration(s.deadlines, s.now)), measured := s.now)
    case Check => s.(phase := Polling(if s.pending != [] || !s.running then 0 else s.phase.d))
    case PollEarly => s.(phase := Top)
    case PollSubmit => Submitting(s)
    case PollTimeout => s.(phase := Top)
    case PollInterrupted => s.(phase := Top)
    case PollFailed => s.(phase := Top, running := false)
    case PollReturn => s.(phase := Handling)
    case HandleCqe => HandlingCqe(s)
    case EndPoll => s.(phase := Top)
    case Submit(op) => s.(ioNum := s.ioNum + 1, sq := s.sq + [op], started := s.started + [op])
    case KernelOp(op) => Completing(s, User(op))
    case KernelIgnored => Completing(s, Ignored)
    case KernelWake => Completing(s, Wake)
    case Tick(d) => s.(now := s.now + d)
  }

  ghost predicate IsRun(states: seq<State>, events: seq<Event>) {
    && |states| == |events| + 1
    && Initial(states[0])
    && forall i :: 0 <= i < |events| ==> Enabled(states[i], events[i]) && states[i + 1] == Next(states[i], events[i])
  }
}
