/**
 Timers, the meaning side: what becomes of each timer when a program pushes, cancels, expires and calls.
 */
module TimerSpec {

  /** What a program does with a timer queue. The loop expires timers only when it has called all that were due. */
  datatype Step = Push(tp: nat) | Cancel(handle: nat) | Expire(now: nat) | Call

  /** A timer: whether the queue still owns it, how often a `cancel` of it has returned true, and whether it has left
      the queue with its task due. */
  datatype Life = Life(deadLine: nat, queued: bool, cancels: nat, fired: bool)

  /** All timers, in the order in which they were pushed, and how many tasks are due and not called yet. */
  datatype History = History(lives: seq<Life>, due: nat)

  const NO_TIMERS := History([], 0)

  predicate Fires(life: Life, now: nat) {
    life.queued && life.deadLine <= now && life.cancels == 0
  }

  function AtTime(life: Life, now: nat): Life {
    if life.queued && life.deadLine <= now then life.(queued := false, fired := life.cancels == 0) else life
  }

  function Count(marks: seq<bool>): (n: nat)
    ensures n <= |marks|
  {
    if marks == [] then 0 else Count(marks[..|marks| - 1]) + if marks[|marks| - 1] then 1 else 0
  }

  function Firing(lives: seq<Life>, now: nat): seq<bool> {
    seq(|lives|, i requires 0 <= i < |lives| => Fires(lives[i], now))
  }

  function Next(h: History, step: Step): History {
    match step
    case Push(tp) => h.(lives := h.lives + [Life(tp, true, 0, false)])
    case Cancel(i) =>
      if i < |h.lives| && h.lives[i].queued
      then h.(lives := h.lives[i := h.lives[i].(cancels := h.lives[i].cancels + 1)])
      else h
    case Expire(now) =>
      if h.due == 0
      then
        var lives := seq(|h.lives|, i requires 0 <= i < |h.lives| => AtTime(h.lives[i], now));
        History(lives, Count(Firing(h.lives, now)))
      else h
    case Call => if h.due > 0 then h.(due := h.due - 1) else h
  }

  function After(steps: seq<Step>): History {
    if steps == [] then NO_TIMERS else Next(After(steps[..|steps| - 1]), steps[|steps| - 1])
  }

  /** Marks that are split in two. */
  lemma {:induction false} CountSplit(all: seq<bool>, a: seq<bool>, b: seq<bool>)
    requires |all| == |a| == |b|
    requires forall i :: 0 <= i < |all| ==> (all[i] <==> a[i] || b[i]) && !(a[i] && b[i])
    ensures Count(all) == Count(a) + Count(b)
  {
    if all != [] {
      CountSplit(all[..|all| - 1], a[..|a| - 1], b[..|b| - 1]);
    }
  }

  /** A timer is still owned by the queue, has fired without ever having been cancelled, or was cancelled first. */
  lemma {:induction false} Fate(steps: seq<Step>, i: nat)
    requires i < |After(steps).lives|
    ensures var life := After(steps).lives[i];
      && (life.fired ==> life.cancels == 0 && !life.queued)
      && (!life.queued ==> life.fired || life.cancels > 0)
  {
    var init, last := steps[..|steps| - 1], steps[|steps| - 1];
    if i < |After(init).lives| {
      Fate(init, i);
    }
  }

  /** Once its deadline has come, and the loop has looked, the queue does not own a timer any more. */
  lemma ExpiredLeaves(steps: seq<Step>, now: nat, i: nat)
    requires i < |After(steps).lives| && After(steps).due == 0 && After(steps).lives[i].queued
    ensures var before, life := After(steps).lives[i], After(steps + [Expire(now)]).lives[i];
      && (life.queued <==> before.deadLine > now)
      && (life.fired <==> before.deadLine <= now && before.cancels == 0)
  {
    assert (steps + [Expire(now)])[..|steps|] == steps;
    Fate(steps, i);
  }
}
