/**
 The loop of a context and its io_uring service as an object: each method is the code between two points
 at which other threads or the kernel may step in. Any schedule of the loop thread, the other threads and
 the kernel runs it as the transition system says.
 */
module EventLoops {
  import opened EventLoopProof
  import EventLoopRounds
  import opened EventLoopSpec
  import opened Prelude

  /** What `io_uring_submit_and_wait_timeout` reports. */
  datatype WaitResult = Arrived | TimedOut | Interrupted | Failed

  class EventLoop {
    // CoroContext; `phase` is where the loop thread is, with its local `next_duration`
    var phase: Phase
    var running: bool
    var pending: seq<Task>
    var handles: seq<Task>
    var deadlines: seq<nat>
    // IoUring: the counter of operations, the eventfd and the two rings
    var ioNum: int
    var counter: nat
    var wakeRead: WakeRead
    var submissions: seq<Op>
    var completions: seq<Cqe>
    // what other threads still owe, what the kernel works on, and history
    var owed: nat
    var inKernel: multiset<Op>
    var now: nat
    var measured: nat
    var submitted: seq<Task>
    var executed: seq<Task>
    var started: seq<Op>
    var finished: seq<Op>

    function View(): State
      reads this
    {
      State(running, phase, pending, handles, deadlines, owed, ioNum, counter, wakeRead, submissions, inKernel,
            completions, now, measured, submitted, executed, started, finished)
    }

    /** The eventfd starts with the flag as its value, and the read of it is prepared. */
    constructor ()
      ensures View() == BEGINNING
    {
      running, pending, handles, deadlines := false, [], [], [];
      ioNum, counter, wakeRead, submissions, completions := 0, EFD_NONBLOCK, Prepared, [], [];
      phase, owed, inKernel, now, measured := Outside, 0, multiset{}, 0, 0;
      submitted, executed, started, finished := [], [], [], [];
    }

    /** `execute`: only the block under the mutex is one step; a foreign thread has the wake-up to do. */
    method Execute(x: Task, inContextThread: bool) returns (mustWake: bool)
      requires inContextThread ==> InUserCode(View())
      modifies this
      ensures mustWake <==> !inContextThread
      ensures View() == Next(old(View()), if inContextThread then PushHere(x) else Push(x))
    {
      pending := pending + [x];
      submitted := submitted + [x];
      mustWake := !inContextThread;
      if mustWake {
        owed := owed + 1;
      }
    }

    method WakeUp()
      requires Enabled(View(), EventLoopSpec.WakeUp)
      modifies this
      ensures View() == Next(old(View()), EventLoopSpec.WakeUp)
    {
      counter := counter + WAKE_VALUE;
      owed := owed - 1;
    }

    /** A second start is refused. */
    method Start() returns (ok: bool)
      requires phase.Outside?
      modifies this
      ensures ok <==> !old(running)
      ensures View() == if ok then Next(old(View()), EventLoopSpec.Start) else old(View())
    {
      ok := !running;
      if ok {
        running := true;
        phase := Top;
      }
    }

    method Stop()
      requires InUserCode(View())
      modifies this
      ensures View() == Next(old(View()), EventLoopSpec.Stop)
    {
      running := false;
    }

    /** The head of the loop: leaves it, or swaps the pending handles with the empty batch. */
    method Head() returns (again: bool)
      requires phase.Top?
      modifies this
      ensures again <==> old(running)
      ensures View() == Next(old(View()), if again then TakeBatch else Leave)
    {
      again := running;
      if again {
        handles, pending := pending, handles;
        phase := Batch;
      } else {
        phase := Outside;
      }
    }

    method RunHandle() returns (x: Task)
      requires Enabled(View(), RunTask)
      modifies this
      ensures x == old(handles)[0] && View() == Next(old(View()), RunTask)
    {
      x := handles[0];
      handles := handles[1..];
      executed := executed + [x];
    }

    /** After the batch: the expired timers leave the queue. Their tasks are run next. */
    method GetExpired(tp: nat)
      requires Enabled(View(), EndBatch) && tp == now
      modifies this
      ensures View() == Next(old(View()), EndBatch)
      ensures forall t :: t in deadlines ==> t > now
    {
      deadlines := Later(deadlines, tp);
      phase := Timers;
      LaterIsLater(old(deadlines), now);
    }

    /** `next_duration`, before the second block under the mutex. */
    method MeasureDuration(tp: nat)
      requires phase.Timers? && tp == now
      modifies this
      ensures View() == Next(old(View()), Measure)
      ensures phase.d > 0 && deadlines != [] ==> exists t :: t in deadlines && t == now + phase.d
    {
      var d: nat := ONE_DAY;
      if deadlines != [] {
        var first := Min(deadlines);
        MinIsOne(deadlines);
        d := if first < tp then 0 else first - tp;
      }
      phase := Checking(d);
      measured := now;
    }

    /** Before the poll: pending work or a stop turns the timeout into zero. */
    method CheckPending()
      requires phase.Checking?
      modifies this
      ensures View() == Next(old(View()), Check)
      ensures old(pending) != [] || !old(running) ==> phase.d == 0
    {
      var d := phase.d;
      if pending != [] || !running {
        d := 0;
      }
      phase := Polling(d);
    }

    /** `poll`, up to the wait: without anything to wait for it returns at once, otherwise it submits. */
    method EnterPoll() returns (done: bool)
      requires phase.Polling?
      modifies this
      ensures done <==> old(phase).d == 0 && old(ioNum) == 0
      ensures done ==> View() == old(View()).(phase := Top)
      ensures !done ==> View() == Submitting(old(View()))
    {
      done := phase.d == 0 && ioNum == 0;
      if done {
        phase := Top;
      } else {
        inKernel := inKernel + multiset(submissions);
        submissions := [];
        if wakeRead.Prepared? {
          wakeRead := Submitted;
        }
        phase := Waiting(phase.d);
      }
    }

    /** `poll`, after the wait, and what the loop makes of its status. */
    method LeaveWait(r: WaitResult) returns (status: int)
      requires phase.Waiting?
      requires r.Arrived? ==> completions != []
      requires r.TimedOut? ==> completions == []
      modifies this
      ensures View() == Next(old(View()), match r
                                          case Arrived => PollReturn
                                          case TimedOut => PollTimeout
                                          case Interrupted => PollInterrupted
                                          case Failed => PollFailed)
      ensures status == -1 <==> r.Failed?
    {
      match r {
        case Arrived =>
          status := 1;
          phase := Handling;
        case TimedOut =>
          status := 0;
          phase := Top;
        case Interrupted =>
          status := 2;
          phase := Top;
        case Failed =>
          status := -1;
          running := false;
          phase := Top;
      }
    }

    /** One round of the completion loop; `None` ends it. Completing the eventfd read prepares it again. */
    method HandleCqe() returns (c: Option<Cqe>)
      requires phase.Handling?
      modifies this
      ensures c == (if old(completions) == [] then None else Some(old(completions)[0]))
      ensures c.Some? ==> View() == HandlingCqe(old(View()))
      ensures c.None? ==> View() == old(View()).(phase := Top)
    {
      if completions == [] {
        phase := Top;
        return None;
      }
      c := Some(completions[0]);
      completions := completions[1..];
      match c.value {
        case User(op) =>
          ioNum := ioNum - 1;
          finished := finished + [op];
        case Wake =>
          wakeRead := Prepared;
        case Ignored =>
      }
    }

    /** Any of the operations: counted, then put into the submission ring. */
    method Submit(op: Op)
      requires Enabled(View(), EventLoopSpec.Submit(op))
      modifies this
      ensures View() == Next(old(View()), EventLoopSpec.Submit(op))
    {
      ioNum := ioNum + 1;
      submissions := submissions + [op];
      started := started + [op];
    }

    /** The kernel completes what it was given. */
    method Complete(c: Cqe)
      modifies `completions, `inKernel, `counter, `wakeRead
      ensures View() == Completing(old(View()), c)
    {
      hide UserOps;
      if c.User? {
        inKernel := inKernel - multiset{c.op};
      } else if c.Wake? {
        counter, wakeRead := 0, Completed;
      }
      completions := completions + [c];
    }

    /** One step of the loop thread inside `start`. */
    method LoopStep(e: Event)
      requires Enabled(View(), e)
      requires e.TakeBatch? || e.Leave? || e.Measure? || e.Check? || e.PollEarly? || e.PollSubmit?
               || e.PollTimeout? || e.PollInterrupted? || e.PollFailed? || e.PollReturn?
      modifies this
      ensures View() == Next(old(View()), e)
    {
      match e {
        case TakeBatch => var again := Head();
        case Leave => var again := Head();
        case Measure => MeasureDuration(now);
        case Check => CheckPending();
        case PollEarly => var done := EnterPoll();
        case PollSubmit => var done := EnterPoll();
        case PollTimeout => var status := LeaveWait(TimedOut);
        case PollInterrupted => var status := LeaveWait(Interrupted);
        case PollFailed => var status := LeaveWait(Failed);
        case PollReturn => var status := LeaveWait(Arrived);
      }
    }

    /** One step of somebody. */
    method Step(e: Event)
      requires Enabled(View(), e)
      modifies this
      ensures View() == Next(old(View()), e)
    {
      match e {
        case Push(x) => var mustWake := Execute(x, false);
        case WakeUp => WakeUp();
        case PushHere(x) => var mustWake := Execute(x, true);
        case Stop => Stop();
        case Start => var ok := Start();
        case RunTask => var x := RunHandle();
        case EndBatch => GetExpired(now);
        case SetTimer(deadline) => deadlines := deadlines + [deadline];
        case HandleCqe => var c := HandleCqe();
        case EndPoll => var c := HandleCqe();
        case Submit(op) => Submit(op);
        case KernelOp(op) => Complete(User(op));
        case KernelIgnored => Complete(Ignored);
        case KernelWake => Complete(Wake);
        case Tick(d) => now := now + d;
        case _ => LoopStep(e);
      }
    }
  }

  /** What a step submits. */
  function Submission(e: Event): seq<Task> {
    if e.Push? || e.PushHere? then [e.x] else []
  }

  /** What was submitted in a run, by whatever thread. */
  function Submissions(run: seq<Event>): seq<Task> {
    if run == [] then [] else Submissions(run[..|run| - 1]) + Submission(run[|run| - 1])
  }

  ghost predicate Sleeps(s: State) {
    Committed(s.phase).Some? && Committed(s.phase).value > 0
  }

  const BEGINNING :=
    State(false, Outside, [], [], [], 0, 0, EFD_NONBLOCK, Prepared, [], multiset{}, [], 0, 0, [], [], [], [])

  /** The steps of a schedule that are possible when their turn comes, and the state they lead to. */
  function Done(schedule: seq<Event>): (seq<Event>, State) {
    if schedule == [] then ([], BEGINNING)
    else
      var (run, end) := Done(schedule[..|schedule| - 1]);
      var e := schedule[|schedule| - 1];
      if Enabled(end, e) then (run + [e], Next(end, e)) else (run, end)
  }

  /** What is done of a schedule is a run. */
  lemma {:induction false} DoneIsRun(schedule: seq<Event>) returns (states: seq<State>)
    ensures var (run, end) := Done(schedule);
      |states| == |run| + 1 && IsRun(states, run) && states[|run|] == end && end.submitted == Submissions(run)
  {
    if schedule == [] {
      states := [BEGINNING];
    } else {
      var init, e := schedule[..|schedule| - 1], schedule[|schedule| - 1];
      states := DoneIsRun(init);
      var (run, end) := Done(init);
      hide Next, Enabled, IsRun, Submissions;
      if Enabled(end, e) {
        OneMore(states, run, e);
        states := states + [Next(end, e)];
      }
    }
  }

  /** Any schedule of steps: the loop does those that are possible when their turn comes. What it has run, then what
      is left, is what was submitted, in order; the counter of operations is right; and a loop that is committed to
      sleep with work pending is about to be woken. */
  method Run(schedule: seq<Event>)
      returns (run: seq<Event>, end: State, executed: seq<Task>, left: seq<Task>, ioNum: int)
    ensures (run, end) == Done(schedule)
    ensures executed + left == Submissions(run)
    ensures end.executed == executed && end.batch + end.pending == left
    ensures end.running <==> EventLoopRounds.StillRunning(run)
    ensures ioNum == end.ioNum == |end.sq| + |end.inKernel| + |UserOps(end.cq)|
    ensures Sleeps(end) && left != [] ==>
      end.owed > 0 || Wake in end.cq || (end.counter > 0 && !end.wakeRead.Completed?)
  {
    hide Next, Enabled, IsRun, Submissions, Sleeps, UserOps;
    var loop := new EventLoop();
    run := [];
    for i := 0 to |schedule|
      invariant fresh(loop) && (run, loop.View()) == Done(schedule[..i])
    {
      assert schedule[..i + 1][..i] == schedule[..i];
      if Enabled(loop.View(), schedule[i]) {
        loop.Step(schedule[i]);
        run := run + [schedule[i]];
      }
    }
    assert schedule[..|schedule|] == schedule;
    end := loop.View();
    ghost var states := DoneIsRun(schedule);
    AtTheEnd(states, run);
    EventLoopRounds.RunsUntilStopped(states, run, |run|);
    assert run[..|run|] == run;
    executed, left, ioNum := loop.executed, loop.handles + loop.pending, loop.ioNum;
  }

  lemma AtTheEnd(states: seq<State>, run: seq<Event>)
    requires IsRun(states, run)
    ensures var end := states[|run|];
      && end.submitted == end.executed + (end.batch + end.pending)
      && end.ioNum == |end.sq| + |end.inKernel| + |UserOps(end.cq)|
      && (Sleeps(end) && end.batch + end.pending != [] ==>
            end.owed > 0 || Wake in end.cq || (end.counter > 0 && !end.wakeRead.Completed?))
  {
    RunKeeps(states, run, |run|);
    IoNumCounts(states, run, |run|);
    var end := states[|run|];
    if Sleeps(end) && end.pending != [] {
      NoLostWakeUp(states, run, |run|);
    }
    assert end.executed + end.batch + end.pending == end.executed + (end.batch + end.pending);
  }

  lemma Submits(s: State, e: Event)
    requires Enabled(s, e)
    ensures Next(s, e).submitted == s.submitted + Submission(e)
  {
  }

  lemma RunGrows(states: seq<State>, run: seq<Event>, e: Event)
    requires |states| == |run| + 1 && IsRun(states, run) && Enabled(states[|run|], e)
    ensures IsRun(states + [Next(states[|run|], e)], run + [e])
  {
    hide Next, Enabled, Initial;
    var longer, more := states + [Next(states[|run|], e)], run + [e];
    forall i | 0 <= i < |more|
      ensures Enabled(longer[i], more[i]) && longer[i + 1] == Next(longer[i], more[i])
    {
      if i < |run| {
        assert Enabled(states[i], run[i]) && states[i + 1] == Next(states[i], run[i]);
      }
    }
  }

  lemma OneMore(states: seq<State>, run: seq<Event>, e: Event)
    requires |states| == |run| + 1 && IsRun(states, run) && Enabled(states[|run|], e)
    ensures var n := Next(states[|run|], e);
      IsRun(states + [n], run + [e]) && n.submitted == states[|run|].submitted + Submission(e)
    ensures Submissions(run + [e]) == Submissions(run) + Submission(e)
  {
    hide Next, Enabled, IsRun, Submission;
    RunGrows(states, run, e);
    Submits(states[|run|], e);
    assert (run + [e])[..|run|] == run;
  }

  lemma {:induction false} LaterIsLater(deadlines: seq<nat>, now: nat)
    ensures forall t :: t in Later(deadlines, now) <==> t in deadlines && t > now
  {
    if deadlines != [] {
      LaterIsLater(deadlines[1..], now);
      assert deadlines == [deadlines[0]] + deadlines[1..];
    }
  }

  lemma {:induction false} MinIsOne(s: seq<nat>)
    requires s != []
    ensures Min(s) in s
  {
    if |s| > 1 {
      MinIsOne(s[1..]);
    }
  }
}
