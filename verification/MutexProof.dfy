/**
 What every step of the mutex protocol keeps.
 */
module MutexProof {
  import opened MutexSpec
  import opened Prelude

  ghost predicate Distinct(entries: seq<Entry>) {
    forall i, j :: 0 <= i < j < |entries| ==> entries[i].co != entries[j].co
  }

  function Cos(entries: seq<Entry>): seq<Co> {
    seq(|entries|, i requires 0 <= i < |entries| => entries[i].co)
  }

  ghost function Owners(s: State): set<Co> {
    set co | co in s.born && s.cos(co).owns
  }

  /** The mutex is free or has one owner, who holds it or is on the way to being resumed with it. */
  ghost predicate OneOwner(s: State) {
    |Owners(s)| + (if s.mutex.flag then 1 else 0) == 1
  }

  ghost predicate FreeMeansNoWaiter(s: State) {
    s.mutex.flag ==> s.mutex.queue == []
  }

  ghost predicate FirstComeFirstServed(s: State) {
    s.asked == s.given + Cos(s.mutex.queue)
  }

  /** A handle is exactly where its coroutine's state says, with the context it suspended on. */
  ghost predicate Located(s: State, co: Co) {
    var x := s.cos(co);
    (!x.place.Unborn? ==> co in s.born) &&
    match x.place
    case Unborn => !x.owns && x.phase.User? && co !in s.born
    case Running(t) => t == x.home && Current(s.threads(t)) == Some(co)
    case InLockQueue => Entry(x.home, co) in s.mutex.queue && x.phase.LockWaiting? && !x.owns
    case InCondQueue(c) => Entry(x.home, co) in s.conds(c) && x.phase.CondWaiting? && x.phase.c == c
    case InHand(t) =>
      && Entry(x.home, co) in Hand(s.threads(t))
      && (if s.threads(t).Handing? then x.phase.LockWaiting? && x.owns else x.phase.CondWaiting?)
    case Queued(ctx) =>
      && ctx == x.home && co in s.ready(ctx)
      && (x.phase.User? || x.phase.CondWaiting? || ((x.phase.LockWaiting? || x.phase.Starting?) && x.owns))
    case Ended => !x.owns && x.phase.User?
  }

  ghost predicate Phased(s: State, co: Co) {
    var x := s.cos(co);
    && (x.place.Running? ==> !x.phase.LockWaiting? && !x.phase.CondWaiting? && !x.phase.Starting?)
    && (x.phase.Checking? || x.phase.Enqueueing? ==> x.place.Running? && x.owns && s.threads(x.home) == Executing(co))
    && (x.phase.Relocking? ==> x.place.Running? && !x.owns && s.threads(x.home) == Executing(co))
    && (x.phase.CondWaiting? && x.owns ==> s.threads(x.home) == Unlocking(co))
    && (x.phase.Enqueueing? && x.phase.pred ==> !s.truth(x.phase.c))
  }

  ghost predicate Holds(s: State, place: Place, entries: seq<Entry>) {
    && Distinct(entries)
    && forall e :: e in entries ==> s.cos(e.co).place == place && s.cos(e.co).home == e.ctx
  }

  ghost predicate ThreadOk(s: State, t: Thread) {
    var a := s.threads(t);
    && Holds(s, InHand(t), Hand(a))
    && (Current(a).Some? ==> var co := Current(a).value; s.cos(co).place == Running(t))
    && (a.Unlocking? ==>
          s.cos(a.co).home == t && s.cos(a.co).phase.CondWaiting? && s.cos(a.co).owns)
  }

  ghost predicate ReadyOk(s: State, ctx: Thread) {
    && (forall i, j :: 0 <= i < j < |s.ready(ctx)| ==> s.ready(ctx)[i] != s.ready(ctx)[j])
    && forall co :: co in s.ready(ctx) ==> s.cos(co).place == Queued(ctx)
  }

  /** Whoever found its predicate false under the lock and is queued will hear of it: while the predicate
      is true, somebody still owes a `notify_all`. */
  ghost predicate NobodyMissed(s: State, co: Co) {
    var x := s.cos(co);
    x.place.InCondQueue? && x.phase.CondWaiting? && x.phase.pred && s.truth(x.place.c)
    ==> exists d :: (d, x.place.c) in s.owes
  }

  /** What the invariant says of the condition, the context, the thread and the coroutine with one number. */
  ghost predicate At(s: State, x: nat) {
    && Holds(s, InCondQueue(x), s.conds(x)) && ThreadOk(s, x) && ReadyOk(s, x)
    && Located(s, x) && Phased(s, x) && NobodyMissed(s, x)
  }

  ghost predicate Inv(s: State) {
    && OneOwner(s) && FreeMeansNoWaiter(s) && FirstComeFirstServed(s)
    && Holds(s, InLockQueue, s.mutex.queue)
    && (forall c :: Holds(s, InCondQueue(c), s.conds(c)))
    && (forall t :: ThreadOk(s, t))
    && (forall ctx :: ReadyOk(s, ctx))
    && (forall co :: Located(s, co))
    && (forall co :: Phased(s, co))
    && (forall co :: NobodyMissed(s, co))
  }

  lemma Everywhere(s: State)
    requires forall x :: At(s, x)
    ensures forall c :: Holds(s, InCondQueue(c), s.conds(c))
    ensures forall t :: ThreadOk(s, t)
    ensures forall ctx :: ReadyOk(s, ctx)
    ensures forall co :: Located(s, co) && Phased(s, co) && NobodyMissed(s, co)
  {
    forall x
      ensures Holds(s, InCondQueue(x), s.conds(x)) && ThreadOk(s, x) && ReadyOk(s, x)
      ensures Located(s, x) && Phased(s, x) && NobodyMissed(s, x)
    {
      assert At(s, x);
    }
  }

  lemma Initially()
    ensures Inv(INITIAL)
  {
    assert Owners(INITIAL) == {};
  }

  lemma OwnerIsUnique(s: State, a: Co, b: Co)
    requires Inv(s) && s.cos(a).owns && s.cos(b).owns
    ensures a == b && !s.mutex.flag
  {
    assert Located(s, a) && Located(s, b);
    if a != b {
      assert {a, b} <= Owners(s) && |{a, b}| == 2;
      SubsetSize({a, b}, Owners(s));
    }
    assert {a} <= Owners(s) && |{a}| == 1;
    SubsetSize({a}, Owners(s));
  }

  lemma {:induction false} SubsetSize<T>(a: set<T>, b: set<T>)
    requires a <= b
    ensures |a| <= |b|
  {
    if a != {} {
      var x :| x in a;
      SubsetSize(a - {x}, b - {x});
    }
  }

  lemma CreateKeeps(s: State, co: Co, ctx: Thread)
    requires Inv(s) && CanCreate(s, co, ctx)
    ensures Inv(DoCreate(s, co, ctx))
  {
    var n := DoCreate(s, co, ctx);
    assert Located(s, co);
    assert Owners(n) == Owners(s);
    forall x ensures At(n, x) { assert At(s, x); }
    Everywhere(n);
  }

  lemma ResumeKeeps(s: State, ctx: Thread)
    requires Inv(s) && CanResume(s, ctx)
    ensures Inv(DoResume(s, ctx))
  {
    var n := DoResume(s, ctx);
    var co := s.ready(ctx)[0];
    assert ReadyOk(s, ctx) && co in s.ready(ctx) && Located(s, co) && Phased(s, co);
    assert Owners(n) == Owners(s);
    forall x ensures At(n, x) { assert At(s, x); }
    Everywhere(n);
  }

  lemma YieldKeeps(s: State, t: Thread)
    requires Inv(s) && CanYield(s, t)
    ensures Inv(DoYield(s, t))
  {
    var n := DoYield(s, t);
    var co := s.threads(t).co;
    assert ThreadOk(s, t) && Located(s, co) && Phased(s, co);
    assert Owners(n) == Owners(s);
    forall x ensures At(n, x) { assert At(s, x); }
    Everywhere(n);
  }

  lemma EndKeeps(s: State, t: Thread)
    requires Inv(s) && CanEnd(s, t)
    ensures Inv(DoEnd(s, t))
  {
    var n := DoEnd(s, t);
    var co := s.threads(t).co;
    assert ThreadOk(s, t) && Located(s, co) && Phased(s, co);
    assert Owners(n) == Owners(s);
    forall x ensures At(n, x) { assert At(s, x); }
    Everywhere(n);
  }

  lemma LockFreeKeeps(s: State, t: Thread)
    requires Inv(s) && CanLock(s, t) && s.mutex.flag
    ensures Inv(DoLock(s, t))
  {
    var n := DoLock(s, t);
    var co := s.threads(t).co;
    assert ThreadOk(s, t) && Located(s, co) && Phased(s, co);
    assert Owners(n) == Owners(s) + {co};
    forall x ensures At(n, x) { assert At(s, x); }
    Everywhere(n);
  }

  lemma LockTakenKeeps(s: State, t: Thread)
    requires Inv(s) && CanLock(s, t) && !s.mutex.flag
    ensures Inv(DoLock(s, t))
  {
    var n := DoLock(s, t);
    var co := s.threads(t).co;
    assert ThreadOk(s, t) && Located(s, co) && Phased(s, co);
    assert Owners(n) == Owners(s);
    forall x ensures At(n, x) { assert At(s, x); }
    Everywhere(n);
  }

  lemma WriteKeeps(s: State, t: Thread, c: Cond, v: bool)
    requires Inv(s) && CanWrite(s, t, c, v)
    ensures Inv(DoWrite(s, t, c, v))
  {
    var n := DoWrite(s, t, c, v);
    var co := s.threads(t).co;
    assert ThreadOk(s, t) && Located(s, co) && Phased(s, co);
    forall x | s.cos(x).phase.Enqueueing? ensures false { assert Phased(s, x); OwnerIsUnique(s, x, co); }
    assert Owners(n) == Owners(s);
    forall x ensures At(n, x) { assert At(s, x); }
    Everywhere(n);
  }

  lemma WaitKeeps(s: State, t: Thread, c: Cond, pred: bool)
    requires Inv(s) && CanWait(s, t, c, pred)
    ensures Inv(DoWait(s, t, c, pred))
  {
    var n := DoWait(s, t, c, pred);
    var co := s.threads(t).co;
    assert ThreadOk(s, t) && Located(s, co) && Phased(s, co);
    assert Owners(n) == Owners(s);
    forall x ensures At(n, x) { assert At(s, x); }
    Everywhere(n);
  }

  lemma CheckKeeps(s: State, t: Thread)
    requires Inv(s) && CanCheck(s, t)
    ensures Inv(DoCheck(s, t))
  {
    var n := DoCheck(s, t);
    var co := s.threads(t).co;
    assert ThreadOk(s, t) && Located(s, co) && Phased(s, co);
    assert Owners(n) == Owners(s);
    forall x ensures At(n, x) { assert At(s, x); }
    Everywhere(n);
  }

  lemma EnqueueKeeps(s: State, t: Thread)
    requires Inv(s) && CanEnqueue(s, t)
    ensures Inv(DoEnqueue(s, t))
  {
    var n := DoEnqueue(s, t);
    var co := s.threads(t).co;
    assert ThreadOk(s, t) && Located(s, co) && Phased(s, co);
    assert Owners(n) == Owners(s);
    forall x ensures At(n, x) { assert At(s, x); }
    Everywhere(n);
  }

  lemma DeliverKeeps(s: State, t: Thread)
    requires Inv(s) && CanDeliver(s, t)
    ensures Inv(DoDeliver(s, t))
  {
    var n := DoDeliver(s, t);
    var e := s.threads(t).e;
    assert ThreadOk(s, t) && e in Hand(s.threads(t)) && Located(s, e.co) && Phased(s, e.co);
    assert Owners(n) == Owners(s);
    forall x ensures At(n, x) { assert At(s, x); }
    Everywhere(n);
  }

  lemma NothingLeftKeeps(s: State, t: Thread)
    requires Inv(s) && CanDeliverNotified(s, t) && s.threads(t).entries == []
    ensures Inv(DoDeliverNotified(s, t))
  {
    var n := DoDeliverNotified(s, t);
    assert ThreadOk(s, t);
    assert Owners(n) == Owners(s);
    forall x ensures At(n, x) { assert At(s, x); }
    Everywhere(n);
  }

  lemma DeliverFirstKeeps(s: State, t: Thread)
    requires Inv(s) && CanDeliverNotified(s, t) && s.threads(t).entries != []
    ensures Inv(DoDeliverNotified(s, t))
  {
    var n, e := DoDeliverNotified(s, t), s.threads(t).entries[0];
    assert ThreadOk(s, t) && e in Hand(s.threads(t)) && Located(s, e.co) && Phased(s, e.co);
    assert Owners(n) == Owners(s);
    forall x ensures At(n, x) { assert At(s, x); }
    Everywhere(n);
  }

  lemma DeliverNotifiedKeeps(s: State, t: Thread)
    requires Inv(s) && CanDeliverNotified(s, t)
    ensures Inv(DoDeliverNotified(s, t))
  {
    if s.threads(t).entries == [] {
      NothingLeftKeeps(s, t);
    } else {
      DeliverFirstKeeps(s, t);
    }
  }

  /** `notify_one` moves the first waiter, if there is one, and nobody else. */
  lemma NotifyOneMoves(s: State, t: Thread, c: Cond, x: Co)
    requires CanNotifyOne(s, t, c)
    ensures DoNotifyOne(s, t, c).cos(x)
         == if s.conds(c) != [] && x == s.conds(c)[0].co then s.cos(x).(place := InHand(t)) else s.cos(x)
  {
    assert s.conds(c) != [] ==> s.conds(c)[0] in [s.conds(c)[0]];
  }

  lemma NotifyNobodyKeeps(s: State, t: Thread, c: Cond)
    requires Inv(s) && CanNotifyOne(s, t, c) && s.conds(c) == []
    ensures Inv(DoNotifyOne(s, t, c))
  {
    var n := DoNotifyOne(s, t, c);
    forall x ensures n.cos(x) == s.cos(x) { NotifyOneMoves(s, t, c, x); }
    hide Take;
    assert Owners(n) == Owners(s);
    forall x ensures At(n, x) { assert At(s, x); }
    Everywhere(n);
  }

  lemma NotifyFirstAt(s: State, t: Thread, c: Cond, x: nat)
    requires Inv(s) && CanNotifyOne(s, t, c) && s.conds(c) != []
    ensures At(DoNotifyOne(s, t, c), x)
  {
    var n, first := DoNotifyOne(s, t, c), s.conds(c)[0].co;
    assert ThreadOk(s, t) && Holds(s, InCondQueue(c), s.conds(c)) && s.conds(c)[0] in s.conds(c);
    forall y ensures n.cos(y) == if y == first then s.cos(y).(place := InHand(t)) else s.cos(y) {
      NotifyOneMoves(s, t, c, y);
    }
    hide Take;
    assert At(s, x);
  }

  lemma NotifyFirstKeeps(s: State, t: Thread, c: Cond)
    requires Inv(s) && CanNotifyOne(s, t, c) && s.conds(c) != []
    ensures Inv(DoNotifyOne(s, t, c))
  {
    var n, first := DoNotifyOne(s, t, c), s.conds(c)[0].co;
    assert Holds(s, InCondQueue(c), s.conds(c)) && s.conds(c)[0] in s.conds(c);
    forall x ensures n.cos(x) == (if x == first then s.cos(x).(place := InHand(t)) else s.cos(x)) && At(n, x) {
      NotifyOneMoves(s, t, c, x);
      NotifyFirstAt(s, t, c, x);
    }
    hide Take, At;
    assert Owners(n) == Owners(s);
    Everywhere(n);
  }

  lemma NotifyOneKeeps(s: State, t: Thread, c: Cond)
    requires Inv(s) && CanNotifyOne(s, t, c)
    ensures Inv(DoNotifyOne(s, t, c))
  {
    if s.conds(c) == [] {
      NotifyNobodyKeeps(s, t, c);
    } else {
      NotifyFirstKeeps(s, t, c);
    }
  }

  lemma NotifyAllKeeps(s: State, t: Thread, c: Cond)
    requires Inv(s) && CanNotifyAll(s, t, c)
    ensures Inv(DoNotifyAll(s, t, c))
  {
    var n := DoNotifyAll(s, t, c);
    assert ThreadOk(s, t) && Holds(s, InCondQueue(c), s.conds(c));
    assert Owners(n) == Owners(s);
    forall x ensures At(n, x) { assert At(s, x); }
    Everywhere(n);
  }

  /** The owner is in its own code, or in the suspension of `wait`. */
  ghost predicate Releasing(s: State, t: Thread, co: Co, back: Option<Co>) {
    || (s.threads(t) == Executing(co) && s.cos(co).phase.User? && back == Some(co))
    || (s.threads(t) == Unlocking(co) && back == None)
  }

  lemma FreeOwner(s: State, t: Thread, co: Co, back: Option<Co>)
    requires Inv(s) && s.cos(co).owns && Releasing(s, t, co, back) && s.mutex.queue == []
    ensures OneOwner(Release(s, t, co, back))
  {
    assert Located(s, co);
    OwnerIsUnique(s, co, co);
    assert Owners(Release(s, t, co, back)) == Owners(s) - {co};
  }

  lemma FreeKeeps(s: State, t: Thread, co: Co, back: Option<Co>)
    requires Inv(s) && s.cos(co).owns && Releasing(s, t, co, back) && s.mutex.queue == []
    ensures Inv(Release(s, t, co, back))
  {
    var n := Release(s, t, co, back);
    assert ThreadOk(s, t) && Located(s, co) && Phased(s, co);
    FreeOwner(s, t, co, back);
    forall x ensures At(n, x) { assert At(s, x); }
    Everywhere(n);
  }

  lemma HandOffOwner(s: State, t: Thread, co: Co, back: Option<Co>)
    requires Inv(s) && s.cos(co).owns && Releasing(s, t, co, back) && s.mutex.queue != []
    ensures var n := Release(s, t, co, back);
      OneOwner(n) && FreeMeansNoWaiter(n)
  {
    var n, e := Release(s, t, co, back), s.mutex.queue[0];
    assert e in s.mutex.queue && Located(s, co) && Located(s, e.co);
    OwnerIsUnique(s, co, co);
    assert Owners(n) == Owners(s) - {co} + {e.co};
  }

  lemma HandOffQueue(s: State, t: Thread, co: Co, back: Option<Co>)
    requires Inv(s) && s.cos(co).owns && Releasing(s, t, co, back) && s.mutex.queue != []
    ensures var n := Release(s, t, co, back); FirstComeFirstServed(n) && Holds(n, InLockQueue, n.mutex.queue)
  {
    var n, e := Release(s, t, co, back), s.mutex.queue[0];
    assert Cos(s.mutex.queue) == [e.co] + Cos(n.mutex.queue);
  }

  lemma HandOffPlaces(s: State, t: Thread, co: Co, back: Option<Co>, x: nat)
    requires Inv(s) && s.cos(co).owns && Releasing(s, t, co, back) && s.mutex.queue != []
    ensures var n := Release(s, t, co, back);
      Holds(n, InCondQueue(x), n.conds(x)) && ThreadOk(n, x) && ReadyOk(n, x)
  {
    var e := s.mutex.queue[0];
    assert e in s.mutex.queue && Located(s, co) && Phased(s, co) && Located(s, e.co) && ThreadOk(s, t);
    assert ThreadOk(s, x) && ReadyOk(s, x) && Holds(s, InCondQueue(x), s.conds(x));
  }

  lemma HandOffCoroutine(s: State, t: Thread, co: Co, back: Option<Co>, x: Co)
    requires Inv(s) && s.cos(co).owns && Releasing(s, t, co, back) && s.mutex.queue != []
    ensures var n := Release(s, t, co, back); Located(n, x) && Phased(n, x) && NobodyMissed(n, x)
  {
    var e := s.mutex.queue[0];
    assert e in s.mutex.queue && Located(s, co) && Phased(s, co) && Located(s, e.co) && ThreadOk(s, t);
    assert Located(s, x) && Phased(s, x) && NobodyMissed(s, x);
  }

  lemma HandOffKeeps(s: State, t: Thread, co: Co, back: Option<Co>)
    requires Inv(s) && s.cos(co).owns && Releasing(s, t, co, back) && s.mutex.queue != []
    ensures Inv(Release(s, t, co, back))
  {
    var n := Release(s, t, co, back);
    HandOffOwner(s, t, co, back);
    HandOffQueue(s, t, co, back);
    forall x ensures At(n, x) {
      HandOffPlaces(s, t, co, back, x);
      HandOffCoroutine(s, t, co, back, x);
    }
    Everywhere(n);
  }

  /** Every step keeps the invariant. */
  lemma StepKeeps(s: State, e: Event)
    requires Inv(s) && Enabled(s, e)
    ensures Inv(Next(s, e))
  {
    match e
    case Create(co, ctx) => CreateKeeps(s, co, ctx);
    case Resume(ctx) => ResumeKeeps(s, ctx);
    case Yield(t) => YieldKeeps(s, t);
    case End(t) => EndKeeps(s, t);
    case Lock(t) => if s.mutex.flag { LockFreeKeeps(s, t); } else { LockTakenKeeps(s, t); }
    case Unlock(t) => UnlockKeeps(s, t, s.threads(t).co, Some(s.threads(t).co));
    case Deliver(t) => DeliverKeeps(s, t);
    case Write(t, c, v) => WriteKeeps(s, t, c, v);
    case Wait(t, c, pred) => WaitKeeps(s, t, c, pred);
    case Check(t) => CheckKeeps(s, t);
    case Enqueue(t) => EnqueueKeeps(s, t);
    case CondUnlock(t) =>
      assert ThreadOk(s, t);
      UnlockKeeps(s, t, s.threads(t).co, None);
    case NotifyOne(t, c) => NotifyOneKeeps(s, t, c);
    case NotifyAll(t, c) => NotifyAllKeeps(s, t, c);
    case DeliverNotified(t) => DeliverNotifiedKeeps(s, t);
  }

  lemma UnlockKeeps(s: State, t: Thread, co: Co, back: Option<Co>)
    requires Inv(s) && s.cos(co).owns && Releasing(s, t, co, back)
    ensures Inv(Release(s, t, co, back))
  {
    if s.mutex.queue == [] {
      FreeKeeps(s, t, co, back);
    } else {
      HandOffKeeps(s, t, co, back);
    }
  }

  /** Every state of every run satisfies the invariant. */
  lemma {:induction false} RunKeeps(run: seq<Event>)
    ensures After(run).Some? ==> Inv(After(run).value)
  {
    if run == [] {
      Initially();
    } else if After(run).Some? {
      RunKeeps(run[..|run| - 1]);
      StepKeeps(After(run[..|run| - 1]).value, run[|run| - 1]);
    }
  }

  /** Who has the mutex and knows it, and who has been given it while suspended. */
  ghost predicate Granted(s: State, co: Co) {
    s.cos(co).owns && s.cos(co).phase.LockWaiting?
  }

  ghost function Holding(s: State): set<Co> {
    set co | co in Owners(s) && !Granted(s, co)
  }

  ghost function HandOffs(s: State): set<Co> {
    set co | co in Owners(s) && Granted(s, co)
  }

  /** Mutual exclusion: in every state of every run, the free flag, the coroutines that hold the mutex and the
      hand-offs on their way to a context add up to one; and the mutex is not free while somebody waits. */
  lemma MutualExclusion(run: seq<Event>)
    requires After(run).Some?
    ensures var s := After(run).value;
      (if s.mutex.flag then 1 else 0) + |Holding(s)| + |HandOffs(s)| == 1
    ensures After(run).value.mutex.flag ==> After(run).value.mutex.queue == []
  {
    RunKeeps(run);
    hide After;
    var s := After(run).value;
    assert Owners(s) == Holding(s) + HandOffs(s) && Holding(s) !! HandOffs(s);
  }

  /** A hand-off is in the hands of the thread that unlocked, or in the list of the context it waits to be
      resumed on. */
  lemma HandOffsTravel(run: seq<Event>, co: Co)
    requires After(run).Some? && Granted(After(run).value, co)
    ensures var s := After(run).value;
      var x := s.cos(co);
      (x.place.InHand? && s.threads(x.place.t).Handing? && s.threads(x.place.t).e == Entry(x.home, co))
      || (x.place == Queued(x.home) && co in s.ready(x.home))
  {
    RunKeeps(run);
    assert Located(After(run).value, co) && Phased(After(run).value, co);
  }

  /** The mutex is given out in the order in which it was asked for, re-locks after a `wait` included. */
  lemma GrantsInOrder(run: seq<Event>)
    requires After(run).Some?
    ensures After(run).value.given <= After(run).value.asked
    ensures After(run).value.asked == After(run).value.given + Cos(After(run).value.mutex.queue)
  {
    RunKeeps(run);
  }

  /** The places that mention a coroutine's handle. */
  ghost predicate Mentions(s: State, p: Place, co: Co) {
    match p
    case Unborn => false
    case Running(t) => Current(s.threads(t)) == Some(co)
    case InLockQueue => co in Cos(s.mutex.queue)
    case InCondQueue(c) => co in Cos(s.conds(c))
    case InHand(t) => co in Cos(Hand(s.threads(t)))
    case Queued(ctx) => co in s.ready(ctx)
    case Ended => false
  }

  /** A handle is in one place only, the one its suspension put it in or a hand-off or a notification moved it to. */
  lemma OnePlace(run: seq<Event>, co: Co, p: Place)
    requires After(run).Some?
    ensures var s := After(run).value;
      && (Mentions(s, p, co) ==> p == s.cos(co).place)
      && (!s.cos(co).place.Unborn? && !s.cos(co).place.Ended? ==> Mentions(s, s.cos(co).place, co))
  {
    RunKeeps(run);
    var s := After(run).value;
    assert Located(s, co);
    MentionedThere(s, InLockQueue, s.mutex.queue, co);
    match p {
      case InCondQueue(c) => MentionedThere(s, p, s.conds(c), co);
      case InHand(t) =>
        assert ThreadOk(s, t);
        MentionedThere(s, p, Hand(s.threads(t)), co);
      case Running(t) => assert ThreadOk(s, t);
      case Queued(ctx) => assert ReadyOk(s, ctx);
      case _ =>
    }
    match s.cos(co).place {
      case InLockQueue => Mentioned(s.mutex.queue, Entry(s.cos(co).home, co));
      case InCondQueue(c) => Mentioned(s.conds(c), Entry(s.cos(co).home, co));
      case InHand(t) => Mentioned(Hand(s.threads(t)), Entry(s.cos(co).home, co));
      case _ =>
    }
  }

  /** And it is there only once, so that it is resumed once per suspension. */
  lemma OnlyOnce(run: seq<Event>, t: Thread, c: Cond)
    requires After(run).Some?
    ensures var s := After(run).value;
      && Distinct(s.mutex.queue) && Distinct(s.conds(c)) && Distinct(Hand(s.threads(t)))
      && forall i, j :: 0 <= i < j < |s.ready(t)| ==> s.ready(t)[i] != s.ready(t)[j]
  {
    RunKeeps(run);
    var s := After(run).value;
    assert Holds(s, InCondQueue(c), s.conds(c)) && ThreadOk(s, t) && ReadyOk(s, t);
  }

  lemma MentionedThere(s: State, p: Place, entries: seq<Entry>, co: Co)
    requires Holds(s, p, entries)
    ensures co in Cos(entries) ==> s.cos(co).place == p
  {
    if co in Cos(entries) {
      var i :| 0 <= i < |entries| && Cos(entries)[i] == co;
      assert entries[i] in entries;
    }
  }

  lemma Mentioned(entries: seq<Entry>, e: Entry)
    requires e in entries
    ensures e.co in Cos(entries)
  {
    var i :| 0 <= i < |entries| && entries[i] == e;
    assert Cos(entries)[i] == e.co;
  }

  /** A coroutine is resumed on the context it suspended on, and not while the thread is still inside its
      suspension: if it waited for the mutex it has it, and if it waited at a condition it has let go of it. */
  lemma ResumedAtHome(run: seq<Event>, ctx: Thread)
    requires After(run).Some? && CanResume(After(run).value, ctx)
    ensures var s := After(run).value;
      var x := s.cos(s.ready(ctx)[0]);
      && x.home == ctx
      && (x.phase.LockWaiting? || x.phase.Starting? ==> x.owns) && (x.phase.CondWaiting? ==> !x.owns)
  {
    RunKeeps(run);
    var s := After(run).value;
    var co := s.ready(ctx)[0];
    assert ReadyOk(s, ctx) && co in s.ready(ctx) && Located(s, co) && Phased(s, co);
  }

  /** No lost notification: a coroutine that found its predicate false and waits is in the condition's queue from
      before the mutex is released; while the predicate is true somebody owes a `notify_all`, and that call
      takes every such coroutine out of the queue, each with the context it waits to be resumed on. */
  lemma NoLostNotification(run: seq<Event>, co: Co, c: Cond)
    requires After(run).Some? && After(run).value.cos(co).phase == CondWaiting(c, true)
    ensures var s := After(run).value;
      && (s.cos(co).owns ==> s.threads(s.cos(co).home) == Unlocking(co))
      && (s.cos(co).place == InCondQueue(c) && s.truth(c) ==> exists d :: (d, c) in s.owes)
      && (s.cos(co).place == InCondQueue(c) || s.cos(co).place.InHand? || s.cos(co).place == Queued(s.cos(co).home))
    ensures var s := After(run).value;
      forall t :: CanNotifyAll(s, t, c) && s.cos(co).place == InCondQueue(c) ==>
        var n := DoNotifyAll(s, t, c);
        n.cos(co).place == InHand(t) && Entry(s.cos(co).home, co) in Hand(n.threads(t)) && n.conds(c) == []
  {
    RunKeeps(run);
    var s := After(run).value;
    assert Located(s, co) && Phased(s, co) && NobodyMissed(s, co);
  }

  /** `wait` with a predicate returns to its caller only with the mutex held and the predicate true. */
  lemma PredicateWaitReturns(run: seq<Event>, t: Thread)
    requires After(run).Some? && CanCheck(After(run).value, t)
    ensures var s := After(run).value;
      var n := DoCheck(s, t);
      var c, x := Self(s, t).phase.c, Self(n, t);
      x.owns && (x.phase.User? <==> n.truth(c)) && (!x.phase.User? ==> x.phase == Enqueueing(c, true))
  {
    RunKeeps(run);
    var s := After(run).value;
    assert Phased(s, s.threads(t).co);
  }
}
