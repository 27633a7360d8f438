/**
 What every step of the event loop keeps.
 */
module EventLoopProof {
  import opened EventLoopSpec
  import opened Prelude

  ghost function UserOps(cq: seq<Cqe>): multiset<Op> {
    if cq == [] then multiset{}
    else if cq[0].User? then multiset{cq[0].op} + UserOps(cq[1..])
    else UserOps(cq[1..])
  }

  lemma {:induction false} UserOpsAppend(cq: seq<Cqe>, c: Cqe)
    ensures c.User? ==> UserOps(cq + [c]) == UserOps(cq) + multiset{c.op}
    ensures !c.User? ==> UserOps(cq + [c]) == UserOps(cq)
  {
    if cq == [] {
      assert cq + [c] == [c];
    } else {
      UserOpsAppend(cq[1..], c);
      assert (cq + [c])[1..] == cq[1..] + [c];
    }
  }

  /** The timeout the loop is committed to. */
  function Committed(p: Phase): Option<nat> {
    if p.Polling? || p.Waiting? then Some(p.d) else None
  }

  /** Handles run in the order of submission, whoever submitted them, across stop and restart. */
  ghost predicate InOrder(s: State) {
    && s.submitted == s.executed + s.batch + s.pending
    && (s.phase.Batch? || s.batch == [])
  }

  /** The read of the eventfd has completed exactly when its completion is queued. */
  ghost predicate OneWakeRead(s: State) {
    && multiset(s.cq)[Wake] == (if s.wakeRead.Completed? then 1 else 0)
    && (s.phase.Waiting? ==> !s.wakeRead.Prepared?)
  }

  /** A loop that is about to sleep with work pending will be woken. */
  ghost predicate WillWake(s: State) {
    Committed(s.phase).Some? && Committed(s.phase).value > 0 && s.pending != [] ==>
      s.owed > 0 || s.wakeRead.Completed? || s.counter > 0
  }

  ghost predicate Balanced(started: multiset<Op>, finished: multiset<Op>, sent: multiset<Op>, completed: multiset<Op>) {
    started == finished + sent + completed
  }

  /** Every operation that was started is in one place. */
  ghost predicate Accounted(s: State) {
    && (forall i, j :: 0 <= i < j < |s.started| ==> s.started[i] != s.started[j])
    && Balanced(multiset(s.started), multiset(s.finished), multiset(s.sq) + s.inKernel, UserOps(s.cq))
    && s.ioNum == |s.started| - |s.finished|
  }

  ghost predicate Timely(s: State) {
    && s.measured <= s.now
    && (s.phase.Checking? || Committed(s.phase).Some? ==>
          s.phase.d == 0 || (s.deadlines == [] && s.phase.d == ONE_DAY)
          || forall i :: 0 <= i < |s.deadlines| ==> s.measured + s.phase.d <= s.deadlines[i])
  }

  ghost predicate Inv(s: State) {
    InOrder(s) && OneWakeRead(s) && WillWake(s) && Accounted(s) && Timely(s)
  }

  lemma {:induction false} MinIsLeast(s: seq<nat>)
    requires s != []
    ensures forall i :: 0 <= i < |s| ==> Min(s) <= s[i]
  {
    if |s| > 1 {
      MinIsLeast(s[1..]);
      assert forall i :: 1 <= i < |s| ==> s[i] == s[1..][i - 1];
    }
  }

  lemma InitiallyHolds(s: State)
    requires Initial(s)
    ensures Inv(s)
  {
  }

  lemma StepKeepsOrder(s: State, e: Event)
    requires InOrder(s) && Enabled(s, e)
    ensures InOrder(Next(s, e))
  {
    var n, before := Next(s, e), s.executed + s.batch;
    match e {
      case Push(x) => assert before + (s.pending + [x]) == before + s.pending + [x];
      case PushHere(x) => assert before + (s.pending + [x]) == before + s.pending + [x];
      case TakeBatch => assert before + s.pending == s.executed + s.pending + [];
      case RunTask => assert s.executed + [s.batch[0]] + s.batch[1..] == before;
      case _ => assert n.executed == s.executed && n.batch == s.batch && n.pending == s.pending;
    }
  }

  lemma HandlingKeepsWake(s: State)
    requires OneWakeRead(s) && WillWake(s) && Enabled(s, HandleCqe)
    ensures OneWakeRead(Next(s, HandleCqe)) && WillWake(Next(s, HandleCqe))
  {
    assert multiset(s.cq)[Wake] == (if s.cq[0] == Wake then 1 else 0) + multiset(s.cq[1..])[Wake] by {
      assert s.cq == [s.cq[0]] + s.cq[1..];
    }
  }

  lemma KernelKeepsWake(s: State, e: Event)
    requires OneWakeRead(s) && WillWake(s) && Enabled(s, e) && (e.KernelOp? || e.KernelIgnored? || e.KernelWake?)
    ensures OneWakeRead(Next(s, e)) && WillWake(Next(s, e))
  {
  }

  lemma StepKeepsWake(s: State, e: Event)
    requires OneWakeRead(s) && WillWake(s) && Enabled(s, e)
    ensures OneWakeRead(Next(s, e)) && WillWake(Next(s, e))
  {
    if e.HandleCqe? {
      HandlingKeepsWake(s);
    } else if e.KernelOp? || e.KernelIgnored? || e.KernelWake? {
      KernelKeepsWake(s, e);
    } else {
      assert Next(s, e).cq == s.cq;
    }
  }

  lemma MeasuringKeepsTime(s: State)
    requires Timely(s) && Enabled(s, Measure)
    ensures Timely(Next(s, Measure))
  {
    if s.deadlines != [] {
      MinIsLeast(s.deadlines);
    }
  }

  lemma StepKeepsTime(s: State, e: Event)
    requires Timely(s) && Enabled(s, e)
    ensures Timely(Next(s, e))
  {
    if e.Measure? {
      MeasuringKeepsTime(s);
    } else {
      hide Min, NextDuration, Later;
    }
  }

  lemma SubmitKeepsAccount(s: State, op: Op)
    requires Accounted(s) && Enabled(s, Submit(op))
    ensures Accounted(Next(s, Submit(op)))
  {
    var n := Next(s, Submit(op));
    assert multiset(n.started) == multiset(s.started) + multiset{op};
    assert multiset(n.sq) == multiset(s.sq) + multiset{op};
  }

  /** One operation leaves the kernel. */
  lemma Completes(a: multiset<Op>, f: multiset<Op>, q: multiset<Op>, k: multiset<Op>, c: multiset<Op>, op: Op)
    requires Balanced(a, f, q + k, c) && op in k
    ensures Balanced(a, f, q + (k - multiset{op}), c + multiset{op})
  {
  }

  lemma CompletionKeepsAccount(s: State, op: Op)
    requires Accounted(s) && Enabled(s, KernelOp(op))
    ensures Accounted(Next(s, KernelOp(op)))
  {
    UserOpsAppend(s.cq, User(op));
    hide UserOps, Balanced;
    Completes(multiset(s.started), multiset(s.finished), multiset(s.sq), s.inKernel, UserOps(s.cq), op);
  }

  lemma SilentCompletionKeepsAccount(s: State, e: Event)
    requires Accounted(s) && Enabled(s, e) && (e.KernelWake? || e.KernelIgnored?)
    ensures Accounted(Next(s, e))
  {
    UserOpsAppend(s.cq, if e.KernelWake? then Wake else Ignored);
    hide UserOps, Balanced;
  }

  lemma SubmittingKeepsAccount(s: State)
    requires Accounted(s) && Enabled(s, PollSubmit)
    ensures Accounted(Next(s, PollSubmit))
  {
    hide UserOps, Balanced;
    assert multiset(s.sq[..0]) + (s.inKernel + multiset(s.sq)) == multiset(s.sq) + s.inKernel;
    assert Next(s, PollSubmit).sq == s.sq[..0];
  }

  /** The completion of one operation is handled. */
  lemma Finishes(a: multiset<Op>, f: multiset<Op>, sent: multiset<Op>, op: Op, rest: multiset<Op>)
    requires Balanced(a, f, sent, multiset{op} + rest)
    ensures Balanced(a, f + multiset{op}, sent, rest)
  {
  }

  lemma HandlingKeepsAccount(s: State)
    requires Accounted(s) && Enabled(s, HandleCqe) && s.cq[0].User?
    ensures Accounted(Next(s, HandleCqe))
  {
    var op := s.cq[0].op;
    assert UserOps(s.cq) == multiset{op} + UserOps(s.cq[1..]);
    hide UserOps, Balanced;
    Finishes(multiset(s.started), multiset(s.finished), multiset(s.sq) + s.inKernel, op, UserOps(s.cq[1..]));
    assert multiset(s.finished + [op]) == multiset(s.finished) + multiset{op};
  }

  lemma OtherCompletionKeepsAccount(s: State)
    requires Accounted(s) && Enabled(s, HandleCqe) && !s.cq[0].User?
    ensures Accounted(HandlingCqe(s))
  {
    assert UserOps(s.cq[1..]) == UserOps(s.cq);
    hide UserOps, Balanced;
    var n := HandlingCqe(s);
    assert n.started == s.started && n.finished == s.finished && n.ioNum == s.ioNum;
    assert n.sq == s.sq && n.inKernel == s.inKernel && n.cq == s.cq[1..];
  }

  /** Steps that move no operation. */
  lemma OtherStepKeepsAccount(s: State, e: Event)
    requires Accounted(s) && Enabled(s, e)
    requires !e.Submit? && !e.PollSubmit? && !e.HandleCqe? && !e.KernelOp? && !e.KernelWake? && !e.KernelIgnored?
    ensures Accounted(Next(s, e))
  {
    hide UserOps, Balanced;
    var n := Next(s, e);
    assert n.started == s.started && n.finished == s.finished && n.ioNum == s.ioNum;
    assert n.sq == s.sq && n.inKernel == s.inKernel && n.cq == s.cq;
  }

  lemma StepKeepsAccount(s: State, e: Event)
    requires Accounted(s) && Enabled(s, e)
    ensures Accounted(Next(s, e))
  {
    hide Accounted;
    match e {
      case Submit(op) => SubmitKeepsAccount(s, op);
      case KernelOp(op) => CompletionKeepsAccount(s, op);
      case KernelWake => SilentCompletionKeepsAccount(s, e);
      case KernelIgnored => SilentCompletionKeepsAccount(s, e);
      case PollSubmit => SubmittingKeepsAccount(s);
      case HandleCqe =>
        if s.cq[0].User? {
          HandlingKeepsAccount(s);
        } else {
          OtherCompletionKeepsAccount(s);
        }
      case _ => OtherStepKeepsAccount(s, e);
    }
  }

  /** Every state of every run satisfies the invariant. */
  lemma {:induction false} RunKeeps(states: seq<State>, events: seq<Event>, i: nat)
    requires IsRun(states, events) && i < |states|
    ensures Inv(states[i])
  {
    if i == 0 {
      InitiallyHolds(states[0]);
    } else {
      RunKeeps(states, events, i - 1);
      var s, e := states[i - 1], events[i - 1];
      StepKeepsOrder(s, e);
      StepKeepsWake(s, e);
      StepKeepsTime(s, e);
      StepKeepsAccount(s, e);
    }
  }

  /** No lost wake-up: while the loop is committed to sleeping or asleep with work pending, some thread
      still owes its `wake_up`, or the poll is about to return, or the kernel must complete the read of the
      eventfd, and then the poll returns. */
  lemma NoLostWakeUp(states: seq<State>, events: seq<Event>, i: nat)
    requires IsRun(states, events) && i < |states|
    requires Committed(states[i].phase).Some? && Committed(states[i].phase).value > 0 && states[i].pending != []
    ensures var s := states[i];
      || s.owed > 0
      || Wake in s.cq
      || (s.counter > 0 && !s.wakeRead.Completed?)
    ensures var s := states[i];
      s.phase.Waiting? && s.owed == 0 ==>
        || Enabled(s, PollReturn)
        || (s.counter > 0 && Enabled(s, KernelWake) && Enabled(Next(s, KernelWake), PollReturn))
  {
    RunKeeps(states, events, i);
    var s := states[i];
    assert s.wakeRead.Completed? ==> Wake in multiset(s.cq);
  }

  /** The loop runs the submitted handles in order, each at most once. */
  lemma FirstInFirstOut(states: seq<State>, events: seq<Event>, i: nat)
    requires IsRun(states, events) && i < |states|
    ensures states[i].executed <= states[i].submitted
    ensures states[i].submitted == states[i].executed + states[i].batch + states[i].pending
  {
    RunKeeps(states, events, i);
  }

  /** The handle submitted as number `p` is neither run nor in the batch that is being run. */
  ghost predicate Waits(s: State, p: nat, x: Task) {
    |s.executed| + |s.batch| <= p < |s.submitted| && s.submitted[p] == x
  }

  lemma OnlyTakingTakes(s: State, e: Event, p: nat, x: Task)
    requires InOrder(s) && Enabled(s, e) && !e.TakeBatch? && Waits(s, p, x)
    ensures Waits(Next(s, e), p, x)
  {
  }

  /** The handle's place among the pending ones. */
  lemma WaitsAt(s: State, p: nat, x: Task)
    requires InOrder(s) && Waits(s, p, x)
    ensures 0 <= p - |s.executed| - |s.batch| < |s.pending|
    ensures s.pending[p - |s.executed| - |s.batch|] == x
  {
  }

  lemma PushedWaits(s: State, e: Event)
    requires InOrder(s) && (e.Push? || e.PushHere?) && Enabled(s, e)
    ensures Waits(Next(s, e), |s.submitted|, e.x)
  {
  }

  lemma StepOfRun(states: seq<State>, events: seq<Event>, i: nat)
    requires IsRun(states, events) && i < |events|
    ensures InOrder(states[i]) && Enabled(states[i], events[i]) && states[i + 1] == Next(states[i], events[i])
  {
    RunKeeps(states, events, i);
  }

  lemma {:induction false} WaitsWhileNoneTaken(states: seq<State>, events: seq<Event>, i: nat, j: nat)
    requires IsRun(states, events) && i < j <= |events| == |states| - 1 && (events[i].Push? || events[i].PushHere?)
    requires forall k :: i < k < j ==> !events[k].TakeBatch?
    ensures Waits(states[j], |states[i].submitted|, events[i].x)
    decreases j
  {
    hide *;
    StepOfRun(states, events, j - 1);
    if j == i + 1 {
      PushedWaits(states[i], events[i]);
    } else {
      WaitsWhileNoneTaken(states, events, i, j - 1);
      OnlyTakingTakes(states[j - 1], events[j - 1], |states[i].submitted|, events[i].x);
    }
  }

  /** A handle that is pushed is not in the batch being run, whoever pushes it: until the loop takes a new batch it
      stays pending, in its place. */
  lemma WaitsForNextBatch(states: seq<State>, events: seq<Event>, i: nat, j: nat)
    requires IsRun(states, events) && i < j < |states| && (events[i].Push? || events[i].PushHere?)
    requires forall k :: i < k < j ==> !events[k].TakeBatch?
    ensures var s, before := states[j], |states[i].submitted|;
      && 0 <= before - |s.executed| - |s.batch| < |s.pending|
      && s.pending[before - |s.executed| - |s.batch|] == events[i].x
  {
    WaitsWhileNoneTaken(states, events, i, j);
    RunKeeps(states, events, j);
    hide Waits, Accounted, Timely, WillWake, OneWakeRead;
    WaitsAt(states[j], |states[i].submitted|, events[i].x);
  }

  /** The timeout of a poll is zero when work was pending or a stop requested at the check, and never reaches
      past a deadline known when it was measured. */
  lemma PollsInTime(states: seq<State>, events: seq<Event>, i: nat)
    requires IsRun(states, events) && 0 < i < |states| && events[i - 1] == Check
    ensures var before, s := states[i - 1], states[i];
      && s.phase.Polling?
      && (before.pending != [] || !before.running ==> s.phase.d == 0)
      && (s.phase.d > 0 ==>
            && s.phase.d == before.phase.d
            && forall k :: 0 <= k < |s.deadlines| ==> s.measured + s.phase.d <= s.deadlines[k])
  {
    RunKeeps(states, events, i);
    RunKeeps(states, events, i - 1);
  }

  /** `io_num_` is the number of operations that have been started and not completed: it never goes below
      zero, and a completion is only handled while it is positive. */
  lemma IoNumCounts(states: seq<State>, events: seq<Event>, i: nat)
    requires IsRun(states, events) && i < |states|
    ensures var s := states[i];
      && s.ioNum == |s.sq| + |s.inKernel| + |UserOps(s.cq)|
      && (Enabled(s, HandleCqe) && s.cq[0].User? ==> s.ioNum > 0)
  {
    RunKeeps(states, events, i);
    var s := states[i];
    assert |multiset(s.started)| == |s.started| && |multiset(s.finished)| == |s.finished| && |multiset(s.sq)| == |s.sq|;
  }

  /** The early exit of `poll` leaves no operation unsubmitted and no completion unhandled. */
  lemma EarlyExitSkipsNothing(states: seq<State>, events: seq<Event>, i: nat, op: Op)
    requires IsRun(states, events) && i < |states| && Enabled(states[i], PollEarly)
    ensures var s := states[i];
      s.sq == [] && s.inKernel == multiset{} && User(op) !in s.cq && multiset(s.finished) == multiset(s.started)
  {
    IoNumCounts(states, events, i);
    RunKeeps(states, events, i);
    var s := states[i];
    assert UserOps(s.cq) == multiset{} && s.inKernel == multiset{};
    NoUser(s.cq, op);
    assert multiset(s.sq) == multiset{};
  }

  lemma {:induction false} NoUser(cq: seq<Cqe>, op: Op)
    requires op !in UserOps(cq)
    ensures User(op) !in cq
  {
    if cq != [] {
      NoUser(cq[1..], op);
      assert cq == [cq[0]] + cq[1..];
    }
  }

  /** Every operation is completed at most once, and exactly once when nothing of it is left. */
  lemma CompletedOnce(states: seq<State>, events: seq<Event>, i: nat, op: Op)
    requires IsRun(states, events) && i < |states|
    ensures var s := states[i];
      && multiset(s.finished)[op] <= 1
      && (multiset(s.finished)[op] == 1 <==>
            op in s.started && op !in s.sq && op !in s.inKernel && op !in UserOps(s.cq))
  {
    RunKeeps(states, events, i);
    var s := states[i];
    AtMostOnce(s.started, op);
    assert multiset(s.started)[op]
        == multiset(s.finished)[op] + multiset(s.sq)[op] + s.inKernel[op] + UserOps(s.cq)[op];
    assert op in s.started <==> op in multiset(s.started);
    assert op in s.sq <==> op in multiset(s.sq);
  }

  lemma {:induction false} AtMostOnce(ops: seq<Op>, op: Op)
    requires forall i, j :: 0 <= i < j < |ops| ==> ops[i] != ops[j]
    ensures multiset(ops)[op] <= 1
  {
    if ops != [] {
      var init, last := ops[..|ops| - 1], ops[|ops| - 1];
      AtMostOnce(init, op);
      assert ops == init + [last];
      assert op in init <==> op in multiset(init);
    }
  }
}
