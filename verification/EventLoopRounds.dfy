/**
 What the loop does round by round: what a stop, a timer, a submitted handle and a completed operation bring about.
 */
module EventLoopRounds {
  import opened EventLoopProof
  import opened EventLoopSpec
  import opened Prelude

  // ---------------------------------------------------------------- running and stopping

  /** Whether the last of these steps that has a say makes the loop run. */
  function StillRunning(events: seq<Event>): bool {
    if events == [] then false
    else
      var last := events[|events| - 1];
      if last.Start? then true
      else if last.Stop? || last.PollFailed? then false
      else StillRunning(events[..|events| - 1])
  }

  lemma RunningStep(s: State, e: Event)
    requires Enabled(s, e)
    ensures Next(s, e).running == if e.Start? then true else if e.Stop? || e.PollFailed? then false else s.running
  {
  }

  /** The loop runs exactly from a start to a stop, or to a poll that fails. */
  lemma {:induction false} RunsUntilStopped(states: seq<State>, events: seq<Event>, i: nat)
    requires IsRun(states, events) && i <= |events| == |states| - 1
    ensures states[i].running == StillRunning(events[..i])
  {
    if i == 0 {
    } else {
      RunsUntilStopped(states, events, i - 1);
      StepOfRun(states, events, i - 1);
      assert events[..i][..i - 1] == events[..i - 1];
      hide IsRun, Enabled, Next;
      RunningStep(states[i - 1], events[i - 1]);
    }
  }

  /** Whether the last of these steps that has a say was to call `start`, and not to leave it. */
  function InStart(events: seq<Event>): bool {
    if events == [] then false
    else
      var last := events[|events| - 1];
      last.Start? || (!last.Leave? && InStart(events[..|events| - 1]))
  }

  lemma PhaseStep(s: State, e: Event)
    requires Enabled(s, e)
    ensures Next(s, e).phase.Outside? <==> e.Leave? || (!e.Start? && s.phase.Outside?)
    ensures e.Start? ==> Next(s, e).phase.Top?
  {
  }

  /** The loop thread is in `start` exactly from a call of it to where it is left. */
  lemma {:induction false} InsideUntilLeft(states: seq<State>, events: seq<Event>, i: nat)
    requires IsRun(states, events) && i <= |events| == |states| - 1
    ensures states[i].phase.Outside? <==> !InStart(events[..i])
    ensures i > 0 && events[i - 1].Start? ==> states[i].phase.Top?
  {
    if i == 0 {
    } else {
      InsideUntilLeft(states, events, i - 1);
      StepOfRun(states, events, i - 1);
      assert events[..i][..i - 1] == events[..i - 1];
      hide IsRun, Enabled, Next;
      PhaseStep(states[i - 1], events[i - 1]);
    }
  }

  /** The steps of the thread that is in `start`, other than those of the user's code. */
  predicate IsLoopStep(e: Event) {
    || e.TakeBatch? || e.Leave? || e.RunTask? || e.EndBatch? || e.Measure? || e.Check? || e.PollEarly? || e.PollSubmit?
    || e.PollTimeout? || e.PollInterrupted? || e.PollFailed? || e.PollReturn? || e.HandleCqe? || e.EndPoll?
  }

  lemma StoppedStep(s: State, e: Event)
    requires Enabled(s, e) && !s.running && !e.Start?
    ensures !Next(s, e).running && !e.TakeBatch?
    ensures e.Check? ==> Next(s, e).phase == Polling(0)
    ensures e.Leave? ==> Next(s, e).phase == Outside
    ensures s.phase.Top? && IsLoopStep(e) ==> e.Leave?
  {
  }

  lemma {:induction false} StaysStopped(states: seq<State>, events: seq<Event>, i: nat, j: nat)
    requires IsRun(states, events) && i < j <= |events| == |states| - 1 && events[i].Stop?
    requires forall k :: i < k < j ==> !events[k].Start?
    ensures !states[j].running
    decreases j
  {
    hide *;
    StepOfRun(states, events, j - 1);
    RunningStep(states[j - 1], events[j - 1]);
    if j > i + 1 {
      StaysStopped(states, events, i, j - 1);
    }
  }

  /** After a `stop`, until the next `start`: no batch is taken, every poll returns at once, and at the head of the loop
      there is nothing to do but to leave. */
  lemma StopStops(states: seq<State>, events: seq<Event>, i: nat, j: nat)
    requires IsRun(states, events) && i < j < |events| && events[i].Stop?
    requires forall k :: i < k <= j ==> !events[k].Start?
    ensures !states[j].running && !events[j].TakeBatch?
    ensures events[j].Check? ==> states[j + 1].phase == Polling(0)
    ensures states[j].phase.Top? && IsLoopStep(events[j]) ==> events[j] == Leave && states[j + 1].phase == Outside
  {
    StaysStopped(states, events, i, j);
    StepOfRun(states, events, j);
    hide IsRun, Next, Enabled;
    StoppedStep(states[j], events[j]);
  }

  // ---------------------------------------------------------------- a round

  /** The state after some more steps, if all of them are possible. */
  function Then(s: State, events: seq<Event>): Option<State>
    decreases |events|
  {
    if events == [] then Some(s)
    else if Enabled(s, events[0]) then Then(Next(s, events[0]), events[1..])
    else None
  }

  lemma ThenMore(s: State, e: Event, more: seq<Event>)
    requires Enabled(s, e)
    ensures Then(s, [e] + more) == Then(Next(s, e), more)
  {
    assert ([e] + more)[1..] == more;
  }

  /** How far the loop thread is from the head of the loop. */
  function Distance(s: State): nat {
    |s.cq| + match s.phase
             case Batch => 6 + |s.batch|
             case Timers => 5
             case Checking(_) => 4
             case Polling(_) => 3
             case Waiting(_) => 2
             case Handling => 1
             case _ => 0
  }

  /** What the loop thread does next, if it does not have to wait. */
  function Onward(s: State): Event {
    match s.phase
    case Batch => if s.batch != [] then RunTask else EndBatch
    case Timers => Measure
    case Checking(_) => Check
    case Polling(d) => if d == 0 && s.ioNum == 0 then PollEarly else PollSubmit
    case Waiting(_) => if s.cq != [] then PollReturn else PollTimeout
    case Handling => if s.cq != [] then HandleCqe else EndPoll
    case _ => Leave
  }

  predicate Inside(s: State) {
    !s.phase.Outside? && !s.phase.Top?
  }

  /** What a loop thread that goes on by itself leaves as it is. */
  ghost predicate GoneOn(s: State, n: State) {
    && n.running == s.running && n.pending == s.pending && n.submitted == s.submitted
    && n.executed + n.batch == s.executed + s.batch
  }

  lemma OnwardStep(s: State)
    requires Inside(s)
    ensures Enabled(s, Onward(s)) && IsLoopStep(Onward(s)) && !Onward(s).PollFailed?
    ensures var n := Next(s, Onward(s));
      GoneOn(s, n) && (Inside(n) || n.phase.Top?) && (Inside(n) ==> Distance(n) < Distance(s))
  {
    if s.phase.Batch? && s.batch != [] {
      assert s.executed + [s.batch[0]] + s.batch[1..] == s.executed + s.batch;
    }
  }

  /** Every step of the loop thread brings it nearer to the head of the loop, however the poll ends: without the kernel
      completing more, it takes no more of them than the distance. */
  lemma {:induction false} EveryStepNearer(s: State, e: Event)
    requires Inside(s) && IsLoopStep(e) && Enabled(s, e)
    ensures var n := Next(s, e); n.phase.Top? || (Inside(n) && Distance(n) < Distance(s))
  {
  }

  /** Steps of the loop thread that lead from one state to another. */
  ghost predicate LoopSteps(s: State, events: seq<Event>, n: State) {
    Then(s, events) == Some(n) && forall e :: e in events ==> IsLoopStep(e)
  }

  lemma OneMore(s: State, e: Event, more: seq<Event>, n: State)
    requires Enabled(s, e) && IsLoopStep(e) && LoopSteps(Next(s, e), more, n)
    ensures LoopSteps(s, [e] + more, n)
  {
    ThenMore(s, e, more);
  }

  lemma {:induction false} ReachesHead(s: State) returns (events: seq<Event>, n: State)
    requires Inside(s) && InOrder(s)
    ensures LoopSteps(s, events, n) && n.phase.Top? && GoneOn(s, n) && InOrder(n)
    decreases Distance(s)
  {
    OnwardStep(s);
    var e := Onward(s);
    var m := Next(s, e);
    StepKeepsOrder(s, e);
    hide Enabled, Next, Onward, Distance, InOrder;
    if Inside(m) {
      events, n := ReachesHead(m);
    } else {
      events, n := [], m;
    }
    OneMore(s, e, events, n);
    events := [e] + events;
  }

  lemma TakeAll(s: State)
    requires s.phase.Top? && s.running && InOrder(s)
    ensures Enabled(s, TakeBatch)
    ensures var n := Next(s, TakeBatch);
      Inside(n) && InOrder(n) && n.pending == [] && n.submitted == s.submitted
  {
    StepKeepsOrder(s, TakeBatch);
  }

  lemma NothingLeft(s: State)
    requires InOrder(s) && s.phase.Top? && s.pending == []
    ensures s.executed == s.submitted
  {
    assert s.executed + [] + [] == s.executed;
  }

  lemma {:induction false} ThenBoth(s: State, a: seq<Event>, m: State, b: seq<Event>, n: State)
    requires LoopSteps(s, a, m) && LoopSteps(m, b, n)
    ensures LoopSteps(s, a + b, n)
    decreases |a|
  {
    if a == [] {
      assert a + b == b;
    } else {
      ThenBoth(Next(s, a[0]), a[1..], m, b, n);
      assert a + b == [a[0]] + (a[1..] + b);
      ThenMore(s, a[0], a[1..] + b);
    }
  }

  /** A running loop catches up: whatever state it is in, the loop thread alone can go on until everything that has been
      submitted by now has been run. */
  lemma CatchesUp(states: seq<State>, events: seq<Event>, i: nat) returns (more: seq<Event>, n: State)
    requires IsRun(states, events) && i < |states| && states[i].running && !states[i].phase.Outside?
    ensures LoopSteps(states[i], more, n) && n.executed == n.submitted == states[i].submitted
  {
    RunKeeps(states, events, i);
    var s := states[i];
    hide IsRun, Enabled, Next, Distance;
    var first, head := [], s;
    if Inside(s) {
      first, head := ReachesHead(s);
    }
    TakeAll(head);
    hide InOrder;
    var round;
    round, n := ReachesHead(Next(head, TakeBatch));
    NothingLeft(n);
    OneMore(head, TakeBatch, round, n);
    ThenBoth(s, first, head, [TakeBatch] + round, n);
    more := first + ([TakeBatch] + round);
  }

  /** And one that is stopped leaves `start`. */
  lemma StopLeaves(states: seq<State>, events: seq<Event>, i: nat) returns (more: seq<Event>, n: State)
    requires IsRun(states, events) && i < |states| && !states[i].running && !states[i].phase.Outside?
    ensures LoopSteps(states[i], more, n) && n.phase.Outside? && n.pending == states[i].pending
  {
    RunKeeps(states, events, i);
    var s := states[i];
    var first, head := [], s;
    hide IsRun, Distance;
    if Inside(s) {
      first, head := ReachesHead(s);
    }
    n := Next(head, Leave);
    assert LoopSteps(n, [], n);
    OneMore(head, Leave, [], n);
    ThenBoth(s, first, head, [Leave] + [], n);
    more := first + ([Leave] + []);
  }

  // ---------------------------------------------------------------- handles

  ghost predicate Taken(s: State, p: nat) {
    p <= |s.executed| + |s.batch| && p <= |s.submitted|
  }

  lemma StaysTaken(s: State, e: Event, p: nat)
    requires InOrder(s) && Enabled(s, e) && Taken(s, p)
    ensures Taken(Next(s, e), p) && s.submitted <= Next(s, e).submitted
  {
  }

  lemma TakenNow(s: State)
    requires InOrder(s) && Enabled(s, TakeBatch)
    ensures Taken(Next(s, TakeBatch), |s.submitted|)
  {
  }

  lemma {:induction false} TakenSince(states: seq<State>, events: seq<Event>, i: nat, j: nat)
    requires IsRun(states, events) && i < j <= |events| == |states| - 1 && events[i].TakeBatch?
    ensures Taken(states[j], |states[i].submitted|) && states[i].submitted <= states[j].submitted
    decreases j
  {
    hide *;
    StepOfRun(states, events, j - 1);
    if j == i + 1 {
      TakenNow(states[i]);
      TakenNothing(states[i]);
      StaysTaken(states[i], TakeBatch, 0);
    } else {
      TakenSince(states, events, i, j - 1);
      StaysTaken(states[j - 1], events[j - 1], |states[i].submitted|);
    }
  }

  lemma TakenNothing(s: State)
    ensures Taken(s, 0)
  {
  }

  /** Whatever has been submitted when the loop takes its handles is run before the loop comes back to its head. */
  lemma TakenIsRun(states: seq<State>, events: seq<Event>, i: nat, j: nat)
    requires IsRun(states, events) && i < j < |states| && events[i].TakeBatch? && !states[j].phase.Batch?
    ensures states[i].submitted <= states[j].executed
  {
    TakenSince(states, events, i, j);
    RunKeeps(states, events, j);
    hide IsRun;
    var s, p := states[j], |states[i].submitted|;
    assert s.batch == [] && s.submitted == s.executed + [] + s.pending;
    assert s.executed[..p] == s.submitted[..p];
  }

  // ---------------------------------------------------------------- what a round does

  function Count(events: seq<Event>, e: Event): nat {
    if events == [] then 0 else Count(events[..|events| - 1], e) + if events[|events| - 1] == e then 1 else 0
  }

  /** Since a batch was taken: the timers have been looked at after the batch, then the next deadline, then the pending
      handles, each once. */
  predicate OnceEach(phase: Phase, expired: nat, measured: nat, checked: nat) {
    match phase
    case Batch => expired == measured == checked == 0
    case Timers => expired == 1 && measured == checked == 0
    case Checking(_) => expired == measured == 1 && checked == 0
    case _ => expired == measured == checked == 1
  }

  lemma OnceEachStep(s: State, e: Event, expired: nat, measured: nat, checked: nat)
    requires Enabled(s, e) && !e.TakeBatch? && OnceEach(s.phase, expired, measured, checked)
    ensures OnceEach(Next(s, e).phase, expired + (if e == EndBatch then 1 else 0),
                     measured + (if e == Measure then 1 else 0), checked + if e == Check then 1 else 0)
  {
  }

  lemma Taking(s: State)
    requires Enabled(s, TakeBatch)
    ensures OnceEach(Next(s, TakeBatch).phase, 0, 0, 0)
  {
  }

  lemma CountMore(events: seq<Event>, i: nat, j: nat, e: Event)
    requires i < j < |events|
    ensures Count(events[i + 1..j + 1], e) == Count(events[i + 1..j], e) + if events[j] == e then 1 else 0
  {
    assert events[i + 1..j + 1][..j - i - 1] == events[i + 1..j];
  }

  lemma {:induction false} RoundSoFar(states: seq<State>, events: seq<Event>, i: nat, j: nat)
    requires IsRun(states, events) && i < j <= |events| == |states| - 1 && events[i].TakeBatch?
    requires forall k :: i < k < j ==> !events[k].TakeBatch?
    ensures var since := events[i + 1..j];
      OnceEach(states[j].phase, Count(since, EndBatch), Count(since, Measure), Count(since, Check))
    decreases j
  {
    hide *;
    StepOfRun(states, events, j - 1);
    if j == i + 1 {
      Taking(states[i]);
      NoneYet(events, j, EndBatch);
      NoneYet(events, j, Measure);
      NoneYet(events, j, Check);
    } else {
      RoundSoFar(states, events, i, j - 1);
      var before := events[i + 1..j - 1];
      CountMore(events, i, j - 1, EndBatch);
      CountMore(events, i, j - 1, Measure);
      CountMore(events, i, j - 1, Check);
      OnceEachStep(states[j - 1], events[j - 1], Count(before, EndBatch), Count(before, Measure), Count(before, Check));
    }
  }

  lemma NoneYet(events: seq<Event>, j: nat, e: Event)
    requires j <= |events|
    ensures Count(events[j..j], e) == 0
  {
  }

  /** From one batch to the next the loop expires its timers once, measures the time to the next deadline once, and
      looks once whether handles are pending or a stop was requested. */
  lemma RoundComplete(states: seq<State>, events: seq<Event>, i: nat, j: nat)
    requires IsRun(states, events) && i < j < |events| && events[i].TakeBatch? && events[j].TakeBatch?
    requires forall k :: i < k < j ==> !events[k].TakeBatch?
    ensures Count(events[i + 1..j], EndBatch) == Count(events[i + 1..j], Measure) == Count(events[i + 1..j], Check) == 1
  {
    RoundSoFar(states, events, i, j);
    StepOfRun(states, events, j);
    hide IsRun, Next, Count;
  }
  // ---------------------------------------------------------------- timers

  function Copies(deadlines: seq<nat>, t: nat): nat {
    if deadlines == [] then 0 else (if deadlines[0] == t then 1 else 0) + Copies(deadlines[1..], t)
  }

  lemma {:induction false} CopiesAdd(deadlines: seq<nat>, t: nat, more: nat)
    ensures Copies(deadlines + [more], t) == Copies(deadlines, t) + if more == t then 1 else 0
  {
    if deadlines == [] {
      assert deadlines + [more] == [more] && [more][1..] == [];
    } else {
      CopiesAdd(deadlines[1..], t, more);
      assert (deadlines + [more])[1..] == deadlines[1..] + [more];
    }
  }

  lemma {:induction false} CopiesLater(deadlines: seq<nat>, now: nat, t: nat)
    ensures Copies(Later(deadlines, now), t) == if t > now then Copies(deadlines, t) else 0
  {
    if deadlines != [] {
      CopiesLater(deadlines[1..], now, t);
      var rest := Later(deadlines[1..], now);
      assert [] + rest == rest && ([deadlines[0]] + rest)[1..] == rest;
    }
  }

  /** A timer is added when it is set, and leaves when the loop finds that its deadline has come; nothing else changes
      the timers that the loop has. */
  lemma TimerStep(states: seq<State>, events: seq<Event>, i: nat, t: nat)
    requires IsRun(states, events) && i < |events|
    ensures var s, e := states[i], events[i];
      Copies(states[i + 1].deadlines, t)
        == if e == EndBatch && t <= s.now then 0 else Copies(s.deadlines, t) + if e == SetTimer(t) then 1 else 0
  {
    StepOfRun(states, events, i);
    hide IsRun;
    var s := states[i];
    CopiesLater(s.deadlines, s.now, t);
    if events[i].SetTimer? {
      CopiesAdd(s.deadlines, t, events[i].deadline);
    }
    hide Copies, Later;
  }

  lemma {:induction false} CopiesIn(deadlines: seq<nat>, t: nat)
    ensures t in deadlines <==> Copies(deadlines, t) > 0
  {
    if deadlines != [] {
      CopiesIn(deadlines[1..], t);
      assert deadlines == [deadlines[0]] + deadlines[1..];
    }
  }

  lemma {:induction false} TimerStays(states: seq<State>, events: seq<Event>, i: nat, j: nat)
    requires IsRun(states, events) && i < j <= |events| == |states| - 1 && events[i].SetTimer?
    requires forall k :: i < k < j && events[k] == EndBatch ==> states[k].now < events[i].deadline
    ensures Copies(states[j].deadlines, events[i].deadline) > 0
    decreases j
  {
    hide *;
    TimerStep(states, events, j - 1, events[i].deadline);
    if j > i + 1 {
      TimerStays(states, events, i, j - 1);
    }
  }

  /** Until the loop finds it expired, a timer that was set is among those of the loop, and no poll reaches past it. */
  lemma TimerKept(states: seq<State>, events: seq<Event>, i: nat, j: nat)
    requires IsRun(states, events) && i < j < |states| && events[i].SetTimer?
    requires forall k :: i < k < j && events[k] == EndBatch ==> states[k].now < events[i].deadline
    ensures var s, t := states[j], events[i].deadline;
      && t in s.deadlines
      && (Committed(s.phase).Some? ==> s.phase.d == 0 || s.measured + s.phase.d <= t)
  {
    TimerStays(states, events, i, j);
    RunKeeps(states, events, j);
    hide IsRun;
    var s, t := states[j], events[i].deadline;
    CopiesIn(s.deadlines, t);
    var k :| 0 <= k < |s.deadlines| && s.deadlines[k] == t;
  }

  /** The time that was measured is the time to the next deadline. */
  ghost predicate Exact(s: State) {
    s.phase.Checking? ==>
      if s.deadlines == [] then s.phase.d == ONE_DAY
      else if s.phase.d == 0 then exists t :: t in s.deadlines && t <= s.measured
      else s.measured + s.phase.d in s.deadlines && forall t :: t in s.deadlines ==> s.measured + s.phase.d <= t
  }

  lemma {:induction false} MinIsOne(s: seq<nat>)
    requires s != []
    ensures Min(s) in s && forall t :: t in s ==> Min(s) <= t
  {
    if |s| > 1 {
      MinIsOne(s[1..]);
      assert s == [s[0]] + s[1..];
    }
  }

  lemma ExactStep(s: State, e: Event)
    requires Exact(s) && Enabled(s, e)
    ensures Exact(Next(s, e))
  {
    if e.Measure? && s.deadlines != [] {
      MinIsOne(s.deadlines);
    }
    hide Min, Later;
  }

  lemma {:induction false} AlwaysExact(states: seq<State>, events: seq<Event>, i: nat)
    requires IsRun(states, events) && i <= |events| == |states| - 1
    ensures Exact(states[i])
  {
    if i == 0 {
    } else {
      AlwaysExact(states, events, i - 1);
      StepOfRun(states, events, i - 1);
      hide *;
      ExactStep(states[i - 1], events[i - 1]);
    }
  }

  /** The poll of a running loop with nothing pending waits for the next deadline, neither shorter nor longer: not at
      all exactly if it has come, and a day if there is none. */
  lemma PollsExactly(states: seq<State>, events: seq<Event>, i: nat)
    requires IsRun(states, events) && i < |events| && events[i].Check?
    requires states[i].pending == [] && states[i].running
    ensures var s := states[i + 1];
      && s.phase.Polling?
      && (s.deadlines == [] ==> s.phase.d == ONE_DAY)
      && (s.deadlines != [] ==> (s.phase.d == 0 <==> exists t :: t in s.deadlines && t <= s.measured))
      && (s.deadlines != [] && s.phase.d > 0 ==> s.measured + s.phase.d in s.deadlines)
  {
    AlwaysExact(states, events, i);
    StepOfRun(states, events, i);
    hide IsRun;
  }

  // ---------------------------------------------------------------- operations

  /** While the loop thread is in the kernel, nothing that was started waits to be submitted. */
  lemma {:induction false} AllSubmitted(states: seq<State>, events: seq<Event>, i: nat)
    requires IsRun(states, events) && i <= |events| == |states| - 1
    ensures states[i].phase.Waiting? ==> states[i].sq == []
  {
    if i > 0 {
      AllSubmitted(states, events, i - 1);
      StepOfRun(states, events, i - 1);
      hide IsRun;
      SubmittedStep(states[i - 1], events[i - 1]);
    } else {
    }
  }

  lemma SubmittedStep(s: State, e: Event)
    requires Enabled(s, e) && (s.phase.Waiting? ==> s.sq == [])
    ensures Next(s, e).phase.Waiting? ==> Next(s, e).sq == []
  {
  }

  ghost predicate Attended(s: State, op: Op) {
    op in s.finished || (s.phase.Handling? && User(op) in s.cq)
  }

  lemma AttendedStep(s: State, e: Event, op: Op)
    requires Enabled(s, e) && Attended(s, op)
    ensures Attended(Next(s, e), op)
  {
    if e.HandleCqe? {
      assert s.cq == [s.cq[0]] + s.cq[1..];
    }
  }

  lemma {:induction false} AttendedSince(states: seq<State>, events: seq<Event>, i: nat, j: nat, op: Op)
    requires IsRun(states, events) && i < j <= |events| == |states| - 1
    requires events[i].PollReturn? && User(op) in states[i].cq
    ensures Attended(states[j], op)
    decreases j
  {
    hide *;
    StepOfRun(states, events, j - 1);
    if j == i + 1 {
      AttendedNow(states[i], op);
    } else {
      AttendedSince(states, events, i, j - 1, op);
      AttendedStep(states[j - 1], events[j - 1], op);
    }
  }

  lemma AttendedNow(s: State, op: Op)
    requires Enabled(s, PollReturn) && User(op) in s.cq
    ensures Attended(Next(s, PollReturn), op)
  {
  }

  /** Whatever operation has completed when the poll returns is handled before the loop comes back to its head. */
  lemma CompletedIsHandled(states: seq<State>, events: seq<Event>, i: nat, j: nat, op: Op)
    requires IsRun(states, events) && i < j < |states|
    requires events[i].PollReturn? && User(op) in states[i].cq && !states[j].phase.Handling?
    ensures op in states[j].finished
  {
    AttendedSince(states, events, i, j, op);
  }

  /** Completed, or handled. */
  predicate Over(s: State, op: Op) {
    op in s.finished || User(op) in s.cq
  }

  lemma HandlingOver(s: State, op: Op)
    requires s.cq != []
    ensures Over(HandlingCqe(s), op) <==> Over(s, op)
  {
    assert s.cq == [s.cq[0]] + s.cq[1..];
  }

  lemma CompletingOver(s: State, c: Cqe, op: Op)
    ensures Over(Completing(s, c), op) <==> Over(s, op) || c == User(op)
  {
  }

  lemma OtherOver(s: State, n: State, op: Op)
    requires n.cq == s.cq && n.finished == s.finished
    ensures Over(n, op) <==> Over(s, op)
  {
  }

  lemma KernelStep(s: State, e: Event, op: Op)
    requires Enabled(s, e)
    ensures Over(Next(s, e), op) <==> Over(s, op) || e == KernelOp(op)
  {
    hide Over;
    if e.HandleCqe? {
      HandlingOver(s, op);
    } else if e.KernelOp? || e.KernelIgnored? || e.KernelWake? {
      CompletingOver(s, if e.KernelOp? then User(e.op) else if e.KernelWake? then Wake else Ignored, op);
    } else {
      OtherOver(s, Next(s, e), op);
    }
  }

  /** An operation is completed or handled exactly if the kernel has completed it. */
  lemma {:induction false} CompletedByKernel(states: seq<State>, events: seq<Event>, i: nat, op: Op)
    requires IsRun(states, events) && i <= |events| == |states| - 1
    ensures Over(states[i], op) <==> KernelOp(op) in events[..i]
  {
    if i == 0 {
    } else {
      CompletedByKernel(states, events, i - 1, op);
      StepOfRun(states, events, i - 1);
      assert events[..i] == events[..i - 1] + [events[i - 1]];
      hide IsRun, Next, Enabled;
      KernelStep(states[i - 1], events[i - 1], op);
    }
  }

  function Elapsed(events: seq<Event>): nat {
    if events == [] then 0
    else
      var last := events[|events| - 1];
      Elapsed(events[..|events| - 1]) + if last.Tick? then last.d else 0
  }

  lemma ClockStep(s: State, e: Event)
    requires Enabled(s, e)
    ensures Next(s, e).now == s.now + if e.Tick? then e.d else 0
  {
  }

  /** Time passes with the clock alone. */
  lemma {:induction false} TimePasses(states: seq<State>, events: seq<Event>, i: nat)
    requires IsRun(states, events) && i <= |events| == |states| - 1
    ensures states[i].now == states[0].now + Elapsed(events[..i])
  {
    if i == 0 {
    } else {
      TimePasses(states, events, i - 1);
      StepOfRun(states, events, i - 1);
      assert events[..i][..i - 1] == events[..i - 1];
      hide IsRun, Next, Enabled;
      ClockStep(states[i - 1], events[i - 1]);
    }
  }
}
