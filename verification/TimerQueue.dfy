/**
 The timer queue of a context: timers owned by the queue, handles that may outlive them, and what is
 due, which the loop calls after it has taken it out.
 */
module TimerQueues {
  import opened Prelude
  import opened TimerSpec

  class TimerData {
    const deadLine: nat
    var flag: bool
    // how often its task has been called with either argument; how often a `cancel` has returned true; and whether
    // the destructor of the queue found it there
    var trueCalls: nat
    var falseCalls: nat
    ghost var cancels: nat
    ghost var dropped: bool

    constructor (deadLine: nat)
      ensures this.deadLine == deadLine && flag && trueCalls == falseCalls == cancels == 0 && !dropped
    {
      this.deadLine, flag := deadLine, true;
      trueCalls, falseCalls, cancels, dropped := 0, 0, 0, false;
    }

    method CallTask(expired: bool)
      modifies this`trueCalls, this`falseCalls
      ensures trueCalls == old(trueCalls) + (if expired then 1 else 0)
      ensures falseCalls == old(falseCalls) + (if expired then 0 else 1)
    {
      if expired {
        trueCalls := trueCalls + 1;
      } else {
        falseCalls := falseCalls + 1;
      }
    }
  }

  ghost predicate InOrder(s: seq<TimerData>) {
    forall i, j :: 0 <= i < j < |s| ==> s[i].deadLine <= s[j].deadLine && s[i] != s[j]
  }

  class TimerQueue {
    // what the queue owns; what the loop has taken out and not called yet
    var timers: set<TimerData>
    var due: seq<TimerData>
    // all timers that were ever pushed
    ghost var all: set<TimerData>

    /** A task is called with true once at most, and then was never cancelled; with false once for each cancellation,
        and once if the destructor finds its timer; and one that is neither cancelled nor still to come has been
        called. */
    ghost predicate Sound(t: TimerData)
      reads this, t
    {
      && (t in timers || t in due ==> t.trueCalls == 0 && !t.dropped)
      && (t in timers ==> t !in due && (t.flag <==> t.cancels == 0))
      && (t in due ==> t.cancels == 0)
      && t.trueCalls <= 1 && (t.cancels > 0 || t.dropped ==> t.trueCalls == 0)
      && t.falseCalls == t.cancels + (if t.dropped then 1 else 0)
      && (t !in timers && t !in due && t.cancels == 0 && !t.dropped ==> t.trueCalls == 1)
    }

    ghost predicate Valid()
      reads this, all
    {
      && timers <= all && (forall t :: t in due ==> t in all)
      && (forall i, j :: 0 <= i < j < |due| ==> due[i] != due[j])
      && (forall t :: t in all ==> Sound(t))
    }

    constructor ()
      ensures Valid() && timers == {} && due == [] && all == {}
    {
      timers, due, all := {}, [], {};
    }

    method Push(tp: nat) returns (t: TimerData)
      requires Valid()
      modifies this
      ensures Valid() && fresh(t) && t.deadLine == tp && t.flag && t.cancels == 0 && !t.dropped
      ensures timers == old(timers) + {t} && all == old(all) + {t} && due == old(due)
    {
      t := new TimerData(tp);
      timers := timers + {t};
      all := all + {t};
    }

    /** A timer with the earliest deadline; any of them. */
    method Top() returns (top: TimerData)
      requires timers != {}
      ensures top in timers && forall t :: t in timers ==> top.deadLine <= t.deadLine
    {
      top :| top in timers;
      var rest := timers - {top};
      while rest != {}
        invariant rest <= timers && top in timers
        invariant forall t :: t in timers - rest ==> top.deadLine <= t.deadLine
        decreases rest
      {
        var t :| t in rest;
        if t.deadLine < top.deadLine {
          top := t;
        }
        rest := rest - {t};
      }
    }

    /** `get_expired`: exactly the timers with a deadline that has come leave the queue, and those among them that
        were not cancelled are due, in the order of their deadlines. */
    method GetExpired(now: nat)
      requires Valid() && due == []
      modifies this`timers, this`due
      ensures Valid() && InOrder(due)
      ensures forall t :: t in timers <==> t in old(timers) && t.deadLine > now
      ensures forall t :: t in due <==> t in old(timers) && t.deadLine <= now && t.flag
    {
      var result: seq<TimerData> := [];
      while timers != {}
        invariant timers <= old(timers) && InOrder(result)
        invariant forall t :: t in old(timers) && t.deadLine > now ==> t in timers
        invariant forall t :: t in result ==> t in old(timers) - timers && t.deadLine <= now && t.flag
        invariant forall t :: t in old(timers) && t !in timers ==> t.deadLine <= now && (t.flag ==> t in result)
        invariant forall t, u :: t in result && u in timers ==> t.deadLine <= u.deadLine
        decreases timers
      {
        var top := Top();
        if now < top.deadLine {
          break;
        }
        if top.flag {
          result := result + [top];
        }
        timers := timers - {top};
      }
      due := result;
    }

    /** The loop calls the next task that is due. */
    method CallNext()
      requires Valid() && due != []
      modifies this`due, all
      ensures Valid() && due == old(due)[1..]
      ensures forall t :: t in all ==>
        && t.falseCalls == old(t.falseCalls) && t.cancels == old(t.cancels) && t.dropped == old(t.dropped)
        && t.trueCalls == old(t.trueCalls) + (if t == old(due)[0] then 1 else 0)
    {
      var t := due[0];
      due := due[1..];
      t.CallTask(true);
    }

    /** `TimerHandle::cancel`: the timer is there as long as the queue owns it. A second call calls its task again. */
    method Cancel(t: TimerData) returns (ok: bool)
      requires Valid() && t in all
      modifies t
      ensures Valid()
      ensures ok <==> t in timers
      ensures t.trueCalls == old(t.trueCalls) && t.falseCalls == old(t.falseCalls) + (if ok then 1 else 0)
      ensures t.cancels == old(t.cancels) + (if ok then 1 else 0) && t.dropped == old(t.dropped)
    {
      ok := t in timers;
      if ok {
        t.flag := false;
        t.cancels := t.cancels + 1;
        t.CallTask(false);
      }
    }

    /** The time to the earliest deadline, cancelled or not; zero if that has passed. */
    method NextDuration(now: nat) returns (d: nat)
      ensures timers == {} ==> d == ONE_DAY
      ensures timers != {} ==> (d > 0 ==> exists t :: t in timers && t.deadLine == now + d)
      ensures timers != {} ==> forall t :: t in timers ==> t.deadLine >= now + d || d == 0
      ensures timers != {} ==> (d == 0 <==> exists t :: t in timers && t.deadLine <= now)
    {
      if timers == {} {
        return ONE_DAY;
      }
      var top := Top();
      d := if top.deadLine < now then 0 else top.deadLine - now;
    }

    /** The destructor calls every task that is left, cancelled ones again. */
    method Destroy()
      requires Valid() && due == []
      modifies this`timers, timers
      ensures Valid() && timers == {}
      ensures forall t :: t in old(timers) ==>
        && t.dropped && t.falseCalls == old(t.falseCalls) + 1
        && t.trueCalls == old(t.trueCalls) == 0 && t.cancels == old(t.cancels)
    {
      while timers != {}
        invariant timers <= old(timers) && Valid()
        invariant forall t :: t in old(timers) ==> t.trueCalls == old(t.trueCalls) == 0 && t.cancels == old(t.cancels)
        invariant forall t :: t in old(timers) ==> (t.dropped <==> t !in timers)
        invariant forall t :: t in old(timers) ==>
          t.falseCalls == old(t.falseCalls) + (if t in timers then 0 else 1)
        decreases timers
      {
        var top := Top();
        top.CallTask(false);
        top.dropped := true;
        timers := timers - {top};
      }
    }
  }

  /** Which of the timers are in a set. */
  ghost function Members(handles: seq<TimerData>, s: set<TimerData>): seq<bool> {
    seq(|handles|, i requires 0 <= i < |handles| => handles[i] in s)
  }

  lemma {:induction false} CountMembers(handles: seq<TimerData>, s: set<TimerData>)
    requires (forall g, h :: 0 <= g < h < |handles| ==> handles[g] != handles[h]) && forall t :: t in s ==> t in handles
    ensures Count(Members(handles, s)) == |s|
  {
    if handles == [] {
      assert s == {};
    } else {
      var init, last := handles[..|handles| - 1], handles[|handles| - 1];
      assert handles == init + [last];
      CountMembers(init, s - {last});
      assert Members(handles, s)[..|init|] == Members(init, s - {last});
    }
  }

  ghost function Elements(s: seq<TimerData>): set<TimerData> {
    set t | t in s
  }

  lemma {:induction false} ElementCount(s: seq<TimerData>)
    requires forall i, j :: 0 <= i < j < |s| ==> s[i] != s[j]
    ensures |Elements(s)| == |s|
  {
    if s != [] {
      var init, last := s[..|s| - 1], s[|s| - 1];
      ElementCount(init);
      assert Elements(s) == Elements(init) + {last};
    }
  }

  /** A queue in use: its handles, how often a `cancel` of each has returned true, and what should have become of
      them. */
  class Program {
    const q: TimerQueue
    var handles: seq<TimerData>
    var cancels: seq<nat>
    ghost var history: History

    ghost predicate Valid()
      reads this, q, q.all
    {
      && q.Valid() && |cancels| == |handles| == |history.lives| && |q.due| == history.due
      && (forall t :: t in q.all ==> t in handles)
      && (forall g, h :: 0 <= g < h < |handles| ==> handles[g] != handles[h])
      && (forall h :: 0 <= h < |handles| ==> Matches(h))
    }

    ghost predicate Matches(h: nat)
      requires h < |handles| == |cancels| == |history.lives|
      reads this, q, q.all
    {
      var t, life := handles[h], history.lives[h];
      && t in q.all && !t.dropped && t.deadLine == life.deadLine
      && (t in q.timers <==> life.queued) && t.cancels == cancels[h] == life.cancels
      && (life.fired <==> t in q.due || t.trueCalls == 1)
    }

    constructor ()
      ensures Valid() && fresh(q) && q.all == {} && handles == [] && history == NO_TIMERS
    {
      q := new TimerQueue();
      handles, cancels, history := [], [], NO_TIMERS;
    }

    method Push(tp: nat)
      requires Valid()
      modifies this, q
      ensures Valid() && fresh(q.all - old(q.all)) && history == Next(old(history), TimerSpec.Push(tp))
    {
      var t := q.Push(tp);
      handles, cancels := handles + [t], cancels + [0];
      history := Next(history, TimerSpec.Push(tp));
      forall h | 0 <= h < |handles| ensures Matches(h) { assert h < |handles| - 1 ==> old(Matches(h)); }
    }

    method Cancel(h: nat)
      requires Valid()
      modifies this, q.all
      ensures Valid() && history == Next(old(history), TimerSpec.Cancel(h))
    {
      if h < |handles| {
        assert Matches(h);
        var ok := q.Cancel(handles[h]);
        cancels := cancels[h := cancels[h] + if ok then 1 else 0];
        history := Next(history, TimerSpec.Cancel(h));
        forall g | 0 <= g < |handles| ensures Matches(g) { assert old(Matches(g)); }
      }
    }

    method Expire(now: nat)
      requires Valid()
      modifies this`history, q`timers, q`due
      ensures Valid() && history == Next(old(history), TimerSpec.Expire(now))
    {
      if q.due == [] {
        q.GetExpired(now);
        history := Next(history, TimerSpec.Expire(now));
        forall h | 0 <= h < |handles| ensures Matches(h) { assert old(Matches(h)); }
        DueCount();
        assert Members(handles, Elements(q.due)) == Firing(old(history).lives, now) by {
          forall h | 0 <= h < |handles| ensures handles[h] in q.due <==> Fires(old(history).lives[h], now) {
            assert old(Matches(h));
          }
        }
      }
    }

    lemma DueCount()
      requires q.Valid() && (forall t :: t in q.all ==> t in handles)
      requires forall g, h :: 0 <= g < h < |handles| ==> handles[g] != handles[h]
      ensures Count(Members(handles, Elements(q.due))) == |q.due|
    {
      CountMembers(handles, Elements(q.due));
      ElementCount(q.due);
    }

    method Call()
      requires Valid()
      modifies this`history, q`due, q.all
      ensures Valid() && history == Next(old(history), TimerSpec.Call)
      ensures old(q.due) != [] ==> |q.due| < old(|q.due|)
    {
      if q.due != [] {
        q.CallNext();
        history := Next(history, TimerSpec.Call);
        forall h | 0 <= h < |handles| ensures Matches(h) { assert old(Matches(h)) && q.Sound(handles[h]); }
      }
    }

    method Do(step: Step)
      requires Valid()
      modifies this, q, q.all
      ensures Valid() && fresh(q.all - old(q.all)) && history == Next(old(history), step)
    {
      hide Valid, Next;
      match step {
        case Push(tp) => Push(tp);
        case Cancel(h) => Cancel(h);
        case Expire(now) => Expire(now);
        case Call => Call();
      }
    }

    /** What has been called so far. */
    lemma Called(h: nat)
      requires Valid() && h < |handles|
      ensures var t, life := handles[h], history.lives[h];
        && cancels[h] == life.cancels && t.falseCalls == life.cancels
        && t.trueCalls == (if life.fired && t !in q.due then 1 else 0) && (t in q.due ==> life.fired)
        && t in q.all && (t in q.timers <==> life.queued)
    {
      assert Matches(h) && q.Sound(handles[h]);
    }

    /** The loop calls what is due. */
    method CallAll()
      requires Valid()
      modifies this`history, q`due, q.all
      ensures Valid() && q.due == [] && history.lives == old(history).lives
    {
      hide Valid;
      while q.due != []
        invariant Valid() && history.lives == old(history).lives && q.all == old(q.all)
        decreases |q.due|
      {
        Call();
      }
    }

    /** The loop calls what is due, and the context with its queue is destroyed. */
    method End() returns (dropped: seq<bool>)
      requires Valid()
      modifies this`history, q, q.all
      ensures |dropped| == |handles| == |cancels| == |old(history).lives|
      ensures forall h :: 0 <= h < |handles| ==>
        var t, life := handles[h], old(history).lives[h];
        && dropped[h] == life.queued && cancels[h] == life.cancels
        && t.trueCalls == (if life.fired then 1 else 0)
        && t.falseCalls == life.cancels + if life.queued then 1 else 0
    {
      CallAll();
      dropped := [];
      while |dropped| < |handles|
        invariant |dropped| <= |handles| && forall h :: 0 <= h < |dropped| ==> dropped[h] == (handles[h] in q.timers)
      {
        dropped := dropped + [handles[|dropped|] in q.timers];
      }
      forall h | 0 <= h < |handles|
        ensures var t, life := handles[h], history.lives[h];
          && cancels[h] == life.cancels == t.falseCalls && t.trueCalls == (if life.fired then 1 else 0)
          && (t in q.timers <==> life.queued)
      {
        Called(h);
      }
      hide Valid, Matches;
      q.Destroy();
    }

    /** Goes through the steps of a program that has just begun. */
    method Play(steps: seq<Step>)
      requires Valid() && history == NO_TIMERS && q.all == {}
      modifies this, q
      ensures Valid() && history == After(steps) && fresh(q.all)
    {
      hide Valid, Next;
      for k := 0 to |steps|
        invariant fresh(q.all) && Valid() && history == After(steps[..k])
      {
        assert steps[..k + 1][..k] == steps[..k];
        Do(steps[k]);
      }
      assert steps[..|steps|] == steps;
    }
  }

  /** How often each task has been called. */
  method Counts(handles: seq<TimerData>) returns (expired: seq<nat>, told: seq<nat>)
    ensures |expired| == |told| == |handles|
    ensures forall h :: 0 <= h < |handles| ==> expired[h] == handles[h].trueCalls && told[h] == handles[h].falseCalls
  {
    expired, told := [], [];
    for h := 0 to |handles|
      invariant |expired| == |told| == h
      invariant forall j :: 0 <= j < h ==> expired[j] == handles[j].trueCalls && told[j] == handles[j].falseCalls
    {
      expired, told := expired + [handles[h].trueCalls], told + [handles[h].falseCalls];
    }
  }

  /** Any use of a queue. How often each task has been called with true and with false, and how often a `cancel` of
      its timer has returned true, are what became of the timer: its task was called with true once if the timer
      fired, unless it is still due, and as many calls are outstanding as tasks are due; it was called with false
      once for every cancellation. */
  method Use(steps: seq<Step>) returns (expired: seq<nat>, told: seq<nat>, cancels: seq<nat>)
    ensures var lives := After(steps).lives;
      && |expired| == |told| == |cancels| == |lives|
      && (forall h :: 0 <= h < |lives| ==>
            told[h] == cancels[h] == lives[h].cancels && expired[h] <= (if lives[h].fired then 1 else 0))
      && Count(Fired(lives)) == Count(Positive(expired)) + After(steps).due
  {
    var program := new Program();
    program.Play(steps);
    cancels := program.cancels;
    expired, told := Counts(program.handles);
    forall h | 0 <= h < |cancels|
      ensures told[h] == cancels[h] == program.history.lives[h].cancels
      ensures expired[h] == if program.history.lives[h].fired && program.handles[h] !in program.q.due then 1 else 0
      ensures program.handles[h] in program.q.due ==> program.history.lives[h].fired
    {
      program.Called(h);
    }
    program.DueCount();
    var lives, due := program.history.lives, Elements(program.q.due);
    hide Program.Valid;
    CountSplit(Fired(lives), Positive(expired), Members(program.handles, due));
  }

  /** And when the queue is destroyed in the end: each task has been called with true exactly if its timer fired, and
      with false once for every cancellation and once more if the queue still owned it. So one that was never
      cancelled has been called exactly once. */
  method UseAndEnd(steps: seq<Step>) returns (expired: seq<nat>, told: seq<nat>, cancels: seq<nat>, dropped: seq<bool>)
    ensures var lives := After(steps).lives;
      && |expired| == |told| == |cancels| == |dropped| == |lives|
      && forall h :: 0 <= h < |lives| ==>
        && cancels[h] == lives[h].cancels && dropped[h] == lives[h].queued
        && expired[h] == (if lives[h].fired then 1 else 0)
        && told[h] == cancels[h] + (if dropped[h] then 1 else 0)
        && (cancels[h] == 0 ==> expired[h] + told[h] == 1)
  {
    var program := new Program();
    program.Play(steps);
    ghost var lives := program.history.lives;
    dropped := program.End();
    cancels := program.cancels;
    expired, told := Counts(program.handles);
    forall h | 0 <= h < |lives| ensures lives[h].cancels == 0 ==> lives[h].fired != lives[h].queued {
      Fate(steps, h);
    }
  }

  function Fired(lives: seq<Life>): seq<bool> {
    seq(|lives|, i requires 0 <= i < |lives| => lives[i].fired)
  }

  function Positive(counts: seq<nat>): seq<bool> {
    seq(|counts|, i requires 0 <= i < |counts| => counts[i] > 0)
  }

  /** Cancelled twice, a task is told twice. */
  method CancelledTwice(tp: nat) returns (told: nat)
    ensures told == 2
  {
    var q := new TimerQueue();
    var t := q.Push(tp);
    var first := q.Cancel(t);
    var second := q.Cancel(t);
    told := t.falseCalls;
  }
}
