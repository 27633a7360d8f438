/**
 Coroutines, the meaning side: what a program of spawned and awaited coroutines
 amounts to when it is evaluated in direct style, without a scheduler.
 */
module CoroSpec {
  import opened Prelude

  type Value = int

  datatype Exn = Exn(code: int)

  /** Names the completion handler a coroutine was spawned with. */
  type Label = nat

  /**
   What a coroutine still has to do, one suspension point at a time. `Await` is `co_await` of a
   coroutine temporary: its value decides how to go on (`on[v]`, or `otherwise` for the values
   the program does not tell apart). `Spawn` starts another coroutine in the running context.
   */
  datatype Prog =
    | Return(v: Value)
    | Throw(e: Exn)
    | Yield(next: Prog)
    | Spawn(child: Prog, handler: Option<Label>, next: Prog)
    | Await(child: Prog, on: imap<Value, Prog>, otherwise: Prog)

  datatype Result = Returned(v: Value) | Failed(e: Exn)

  /** `Terminated`: `await_resume` is `noexcept`, so awaiting a coroutine that failed ends the program. */
  datatype Outcome = Completed(result: Result) | Terminated

  /** What is still to happen: handler calls, whether the program is bound to terminate, and how many
      actions are left. */
  datatype Debt = Debt(calls: multiset<(Label, Result)>, doomed: bool, actions: nat)

  ghost const NOTHING := Debt(multiset{}, false, 0)

  ghost function Plus(a: Debt, b: Debt): Debt {
    Debt(a.calls + b.calls, a.doomed || b.doomed, a.actions + b.actions)
  }

  datatype Run = Run(outcome: Outcome, debt: Debt)

  ghost function After(d: Debt, r: Run): Run {
    Run(r.outcome, Plus(d, r.debt))
  }

  /** Taking an action, and handing a part of a debt to somebody else, change no sum. */
  lemma SpendAction(paid: multiset<(Label, Result)>, spent: nat, rest: Debt, others: Debt)
    ensures Plus(Plus(Debt(paid, false, spent), Plus(ACTION, rest)), others)
         == Plus(Plus(Debt(paid, false, spent + 1), rest), others)
  {
  }

  lemma HandOver(paid: Debt, d: Debt, rest: Debt, others: Debt)
    ensures Plus(Plus(paid, Plus(d, rest)), others) == Plus(Plus(paid, rest), Plus(others, d))
  {
    assert paid.calls + (d.calls + rest.calls) + others.calls == paid.calls + rest.calls + (others.calls + d.calls);
  }

  ghost const ACTION := Debt(multiset{}, false, 1)

  function Continuation(frame: Prog, v: Value): Prog
    requires frame.Await?
  {
    if v in frame.on then frame.on[v] else frame.otherwise
  }

  /** Direct-style evaluation. */
  ghost function Eval(p: Prog): Run {
    match p
    case Return(v) => Run(Completed(Returned(v)), ACTION)
    case Throw(e) => Run(Completed(Failed(e)), ACTION)
    case Yield(next) => After(ACTION, Eval(next))
    case Spawn(child, handler, next) => After(ACTION, After(Settle(handler, Eval(child)), Eval(next)))
    case Await(child, on, otherwise) =>
      var r := Eval(child);
      var go :=
        if r.outcome.Completed? && r.outcome.result.Returned?
        then if r.outcome.result.v in on then Eval(on[r.outcome.result.v]) else Eval(otherwise)
        else Run(Terminated, Debt(multiset{}, true, 0));
      After(ACTION, After(r.debt, go))
  }

  function CallOf(handler: Option<Label>, result: Result): seq<(Label, Result)> {
    if handler.Some? then [(handler.value, result)] else []
  }

  /** The debt of a spawned coroutine: its own, and one call of its handler with its result. */
  ghost function Settle(handler: Option<Label>, r: Run): Debt {
    Plus(r.debt, Debt(
      if r.outcome.Completed? then multiset(CallOf(handler, r.outcome.result)) else multiset{},
      r.outcome.Terminated?,
      0))
  }

  /** A coroutine suspended in an `Await` whose child has `r` still to do. */
  ghost function Resume(frame: Prog, r: Run): Run
    requires frame.Await?
  {
    After(r.debt,
          if r.outcome.Completed? && r.outcome.result.Returned?
          then Eval(Continuation(frame, r.outcome.result.v))
          else Run(Terminated, Debt(multiset{}, true, 0)))
  }

  ghost predicate Waiting(below: seq<Prog>) {
    forall i :: 0 <= i < |below| ==> below[i].Await?
  }

  /** The chain of coroutines that await one another, outermost first, when the innermost has `r` to do. */
  ghost function Unwind(r: Run, below: seq<Prog>): Run
    requires Waiting(below)
    decreases |below|
  {
    if below == [] then r else Unwind(Resume(below[|below| - 1], r), below[..|below| - 1])
  }

  /** A chain of awaiting coroutines with its leaf, spawned with `handler`. */
  datatype Task = Task(handler: Option<Label>, below: seq<Prog>, leaf: Prog)

  ghost function Owed(t: Task): Debt
    requires Waiting(t.below)
  {
    Settle(t.handler, Unwind(Eval(t.leaf), t.below))
  }

  ghost predicate AllWaiting(tasks: seq<Task>) {
    forall i :: 0 <= i < |tasks| ==> Waiting(tasks[i].below)
  }

  ghost function Total(tasks: seq<Task>): Debt
    requires AllWaiting(tasks)
  {
    if tasks == [] then NOTHING else Plus(Owed(tasks[0]), Total(tasks[1..]))
  }

  lemma PlusAssociates(a: Debt, b: Debt, c: Debt)
    ensures Plus(Plus(a, b), c) == Plus(a, Plus(b, c))
    ensures Plus(NOTHING, a) == a == Plus(a, NOTHING)
  {
    assert (a.calls + b.calls) + c.calls == a.calls + (b.calls + c.calls);
  }

  lemma {:induction false} TotalPush(tasks: seq<Task>, t: Task)
    requires AllWaiting(tasks) && Waiting(t.below)
    ensures AllWaiting(tasks + [t])
    ensures Total(tasks + [t]) == Plus(Total(tasks), Owed(t))
  {
    hide Owed, Plus;
    if tasks == [] {
      assert (tasks + [t])[1..] == [];
      PlusAssociates(Owed(t), NOTHING, NOTHING);
    } else {
      assert (tasks + [t])[1..] == tasks[1..] + [t];
      TotalPush(tasks[1..], t);
      PlusAssociates(Owed(tasks[0]), Total(tasks[1..]), Owed(t));
    }
  }

  lemma {:induction false} UnwindAfter(d: Debt, r: Run, below: seq<Prog>)
    requires Waiting(below)
    ensures Unwind(After(d, r), below) == After(d, Unwind(r, below))
    decreases |below|
  {
    if below != [] {
      var last := below[|below| - 1];
      assert Resume(last, After(d, r)) == After(d, Resume(last, r));
      UnwindAfter(d, Resume(last, r), below[..|below| - 1]);
    } else {
    }
  }

  /** A leaf that takes one action and goes on with `next`. */
  lemma OwedStep(t: Task, d: Debt, next: Prog)
    requires Waiting(t.below) && Eval(t.leaf) == After(ACTION, After(d, Eval(next)))
    ensures Owed(t) == Plus(ACTION, Plus(d, Owed(t.(leaf := next))))
  {
    UnwindAfter(ACTION, After(d, Eval(next)), t.below);
    UnwindAfter(d, Eval(next), t.below);
  }

  /** A leaf that awaits a new coroutine becomes the last of the waiting ones. */
  lemma OwedAwait(t: Task)
    requires Waiting(t.below) && t.leaf.Await?
    ensures Waiting(t.below + [t.leaf])
    ensures Owed(t) == Plus(ACTION, Owed(Task(t.handler, t.below + [t.leaf], t.leaf.child)))
  {
    var below := t.below + [t.leaf];
    assert below[..|below| - 1] == t.below;
    assert Eval(t.leaf) == After(ACTION, Resume(t.leaf, Eval(t.leaf.child)));
    UnwindAfter(ACTION, Resume(t.leaf, Eval(t.leaf.child)), t.below);
  }

  /** A leaf that returns hands its value to the coroutine that awaits it. */
  lemma OwedReturn(t: Task)
    requires Waiting(t.below) && t.below != [] && t.leaf.Return?
    ensures var init, parent := t.below[..|t.below| - 1], t.below[|t.below| - 1];
      Owed(t) == Plus(ACTION, Owed(Task(t.handler, init, Continuation(parent, t.leaf.v))))
  {
    var init, parent := t.below[..|t.below| - 1], t.below[|t.below| - 1];
    assert Resume(parent, Eval(t.leaf)) == After(ACTION, Eval(Continuation(parent, t.leaf.v)));
    UnwindAfter(ACTION, Eval(Continuation(parent, t.leaf.v)), init);
  }

  lemma {:induction false} UnwindTerminated(r: Run, below: seq<Prog>)
    requires Waiting(below) && r.outcome.Terminated?
    ensures Unwind(r, below).outcome.Terminated?
    decreases |below|
  {
    if below != [] {
      UnwindTerminated(Resume(below[|below| - 1], r), below[..|below| - 1]);
    } else {
    }
  }

  /** A leaf that throws dooms the program when another coroutine awaits it. */
  lemma OwedThrow(t: Task)
    requires Waiting(t.below) && t.below != [] && t.leaf.Throw?
    ensures Owed(t).doomed && Owed(t).actions > 0
  {
    var init, gone := t.below[..|t.below| - 1], Run(Terminated, Debt(multiset{}, true, 0));
    UnwindTerminated(Resume(t.below[|t.below| - 1], Eval(t.leaf)), init);
    UnwindAfter(ACTION, gone, init);
  }

  /** The handler calls made and the actions taken, the debt of a running chain, and the debt of everything
      queued add up to what was promised. */
  ghost predicate Ledger(promised: Debt, calls: seq<(Label, Result)>, spent: nat, running: Debt, todo: seq<Task>)
    requires AllWaiting(todo)
  {
    promised == Plus(Plus(Debt(multiset(calls), false, spent), running), Total(todo))
  }

  /** The running chain takes an action, queues `t`, and goes on with `rest`. */
  lemma LedgerQueue(promised: Debt, calls: seq<(Label, Result)>, spent: nat, rest: Debt, todo: seq<Task>, t: Task)
    requires AllWaiting(todo) && Waiting(t.below)
    requires Ledger(promised, calls, spent, Plus(ACTION, Plus(Owed(t), rest)), todo)
    ensures AllWaiting(todo + [t])
    ensures Ledger(promised, calls, spent + 1, rest, todo + [t])
  {
    SpendAction(multiset(calls), spent, Plus(Owed(t), rest), Total(todo));
    HandOver(Debt(multiset(calls), false, spent + 1), Owed(t), rest, Total(todo));
    TotalPush(todo, t);
  }

  lemma LedgerSpawn(promised: Debt, calls: seq<(Label, Result)>, spent: nat, todo: seq<Task>, t: Task)
    requires AllWaiting(todo) && Waiting(t.below) && t.leaf.Spawn?
    requires Ledger(promised, calls, spent, Owed(t), todo)
    ensures var child := Task(t.leaf.handler, [], t.leaf.child);
      && AllWaiting(todo + [child])
      && Ledger(promised, calls, spent + 1, Owed(t.(leaf := t.leaf.next)), todo + [child])
  {
    var child := Task(t.leaf.handler, [], t.leaf.child);
    OwedStep(t, Owed(child), t.leaf.next);
    LedgerQueue(promised, calls, spent, Owed(t.(leaf := t.leaf.next)), todo, child);
  }

  lemma LedgerYield(promised: Debt, calls: seq<(Label, Result)>, spent: nat, todo: seq<Task>, t: Task)
    requires AllWaiting(todo) && Waiting(t.below) && t.leaf.Yield?
    requires Ledger(promised, calls, spent, Owed(t), todo)
    ensures var next := t.(leaf := t.leaf.next);
      && AllWaiting(todo + [next])
      && Ledger(promised, calls, spent + 1, NOTHING, todo + [next])
  {
    var next := t.(leaf := t.leaf.next);
    assert After(NOTHING, Eval(t.leaf.next)) == Eval(t.leaf.next);
    OwedStep(t, NOTHING, t.leaf.next);
    assert Plus(NOTHING, Owed(next)) == Plus(Owed(next), NOTHING);
    LedgerQueue(promised, calls, spent, NOTHING, todo, next);
  }

  lemma LedgerAwait(promised: Debt, calls: seq<(Label, Result)>, spent: nat, todo: seq<Task>, t: Task)
    requires AllWaiting(todo) && Waiting(t.below) && t.leaf.Await?
    requires Ledger(promised, calls, spent, Owed(t), todo)
    ensures var next := Task(t.handler, t.below + [t.leaf], t.leaf.child);
      && AllWaiting(todo + [next])
      && Ledger(promised, calls, spent + 1, NOTHING, todo + [next])
  {
    var next := Task(t.handler, t.below + [t.leaf], t.leaf.child);
    OwedAwait(t);
    assert Owed(next) == Plus(Owed(next), NOTHING);
    LedgerQueue(promised, calls, spent, NOTHING, todo, next);
  }

  /** A returning leaf with a coroutine that awaits it. */
  lemma LedgerReturn(promised: Debt, calls: seq<(Label, Result)>, spent: nat, todo: seq<Task>, t: Task)
    requires AllWaiting(todo) && Waiting(t.below) && t.below != [] && t.leaf.Return?
    requires Ledger(promised, calls, spent, Owed(t), todo)
    ensures var init, parent := t.below[..|t.below| - 1], t.below[|t.below| - 1];
      Ledger(promised, calls, spent + 1, Owed(Task(t.handler, init, Continuation(parent, t.leaf.v))), todo)
  {
    var init, parent := t.below[..|t.below| - 1], t.below[|t.below| - 1];
    OwedReturn(t);
    SpendAction(multiset(calls), spent, Owed(Task(t.handler, init, Continuation(parent, t.leaf.v))), Total(todo));
  }

  /** The outermost coroutine of a chain ends and its handler, if it has one, is called with the result. */
  lemma LedgerRoot(promised: Debt, calls: seq<(Label, Result)>, spent: nat, todo: seq<Task>, t: Task, result: Result)
    requires AllWaiting(todo) && t.below == []
    requires t.leaf == if result.Returned? then Return(result.v) else Throw(result.e)
    requires Ledger(promised, calls, spent, Owed(t), todo)
    ensures Ledger(promised, calls + CallOf(t.handler, result), spent + 1, NOTHING, todo)
  {
    var made := Debt(multiset(CallOf(t.handler, result)), false, 0);
    assert Owed(t) == Plus(ACTION, made);
    SpendAction(multiset(calls), spent, made, Total(todo));
    MakeCalls(promised, calls, spent + 1, CallOf(t.handler, result), todo);
  }

  lemma MakeCalls(promised: Debt, calls: seq<(Label, Result)>, spent: nat, more: seq<(Label, Result)>, todo: seq<Task>)
    requires AllWaiting(todo) && Ledger(promised, calls, spent, Debt(multiset(more), false, 0), todo)
    ensures Ledger(promised, calls + more, spent, NOTHING, todo)
  {
    assert multiset(calls + more) == multiset(calls) + multiset(more);
  }

  /** A running chain is at least one action short of what was promised. */
  lemma LedgerBound(promised: Debt, calls: seq<(Label, Result)>, spent: nat, todo: seq<Task>, t: Task)
    requires AllWaiting(todo) && Waiting(t.below)
    requires Ledger(promised, calls, spent, Owed(t), todo)
    ensures spent < promised.actions
    ensures t.below != [] && t.leaf.Throw? ==> promised.doomed
  {
    match t.leaf {
      case Return(_) => if t.below != [] { OwedReturn(t); }
      case Throw(_) => if t.below != [] { OwedThrow(t); }
      case Yield(next) =>
        assert After(NOTHING, Eval(next)) == Eval(next);
        OwedStep(t, NOTHING, next);
      case Spawn(child, handler, next) => OwedStep(t, Settle(handler, Eval(child)), next);
      case Await(_, _, _) => OwedAwait(t);
    }
  }

  lemma LedgerStart(promised: Debt, calls: seq<(Label, Result)>, spent: nat, todo: seq<Task>)
    requires promised == NOTHING && calls == [] && spent == 0 && todo == []
    ensures Ledger(promised, calls, spent, NOTHING, todo)
  {
  }

  lemma LedgerSpent(promised: Debt, calls: seq<(Label, Result)>, spent: nat, todo: seq<Task>)
    requires AllWaiting(todo) && Ledger(promised, calls, spent, NOTHING, todo)
    ensures spent <= promised.actions
    ensures todo == [] ==> promised == Debt(multiset(calls), false, spent)
  {
  }

  /** Only promised calls have been made. */
  lemma LedgerCalls(promised: Debt, calls: seq<(Label, Result)>, spent: nat, running: Debt, todo: seq<Task>)
    requires AllWaiting(todo) && Ledger(promised, calls, spent, running, todo)
    ensures multiset(calls) <= promised.calls
  {
  }

  /** Taking the next chain out of the queue to run it. */
  lemma LedgerTake(promised: Debt, calls: seq<(Label, Result)>, spent: nat, todo: seq<Task>)
    requires AllWaiting(todo) && todo != [] && Ledger(promised, calls, spent, NOTHING, todo)
    ensures AllWaiting(todo[1..])
    ensures Ledger(promised, calls, spent, Owed(todo[0]), todo[1..])
  {
  }

  /** A coroutine that somebody else spawns adds its debt to what is promised, whatever is running. */
  lemma LedgerArrive(promised: Debt, calls: seq<(Label, Result)>, spent: nat, running: Debt, todo: seq<Task>, r: Root)
    requires AllWaiting(todo) && Ledger(promised, calls, spent, running, todo)
    ensures AllWaiting(todo + [Task(r.handler, [], r.body)])
    ensures Ledger(Plus(promised, Promise(r)), calls, spent, running, todo + [Task(r.handler, [], r.body)])
  {
    var t := Task(r.handler, [], r.body);
    TotalPush(todo, t);
    assert Owed(t) == Promise(r);
    hide Owed, Promise, Total;
    PlusAssociates(Plus(Debt(multiset(calls), false, spent), running), Total(todo), Promise(r));
    hide Plus;
  }

  datatype Root = Root(body: Prog, handler: Option<Label>)

  /** What spawning a coroutine promises: the calls its direct-style evaluation makes. */
  ghost function Promise(r: Root): Debt {
    Settle(r.handler, Eval(r.body))
  }

  ghost function Promises(roots: seq<Root>): Debt {
    if roots == [] then NOTHING else Plus(Promises(roots[..|roots| - 1]), Promise(roots[|roots| - 1]))
  }

  /** Whatever `a` promises, `b` promises. */
  ghost predicate Covers(b: Debt, a: Debt) {
    (a.doomed ==> b.doomed) && a.calls <= b.calls && a.actions <= b.actions
  }

  lemma CoversMore(b: Debt, a: Debt, more: Debt)
    requires Covers(b, a)
    ensures Covers(Plus(b, more), a)
  {
  }

  lemma {:induction false} PromisesGrow(roots: seq<Root>, more: seq<Root>)
    ensures Covers(Promises(roots + more), Promises(roots))
    decreases |more|
  {
    hide Covers, Plus, Promise;
    if more == [] {
      assert roots + more == roots;
      CoversItself(Promises(roots));
    } else {
      var all, init := roots + more, more[..|more| - 1];
      assert all[..|all| - 1] == roots + init;
      PromisesGrow(roots, init);
      CoversMore(Promises(roots + init), Promises(roots), Promise(all[|all| - 1]));
    }
  }

  lemma CoversItself(a: Debt)
    ensures Covers(a, a)
  {
  }

  /** A program that starts no coroutines of its own. */
  ghost predicate SpawnsNothing(p: Prog) {
    match p
    case Return(_) => true
    case Throw(_) => true
    case Yield(next) => SpawnsNothing(next)
    case Spawn(_, _, _) => false
    case Await(child, on, otherwise) =>
      SpawnsNothing(child) && SpawnsNothing(otherwise) && forall v :: v in on ==> SpawnsNothing(on[v])
  }

  lemma {:induction false} OwnDebt(p: Prog)
    requires SpawnsNothing(p)
    ensures Eval(p).debt.calls == multiset{} && (Eval(p).debt.doomed <==> Eval(p).outcome.Terminated?)
  {
    match p
    case Return(_) =>
    case Throw(_) =>
    case Yield(next) => OwnDebt(next);
    case Await(child, on, otherwise) =>
      OwnDebt(child);
      var r := Eval(child);
      if r.outcome.Completed? && r.outcome.result.Returned? {
        if r.outcome.result.v in on {
          OwnDebt(on[r.outcome.result.v]);
        } else {
          OwnDebt(otherwise);
        }
      }
  }

  /** The handler calls that direct-style evaluation of the spawned coroutines makes, in spawn order. */
  ghost function Results(roots: seq<Root>): seq<(Label, Result)> {
    if roots == [] then []
    else
      var last := roots[|roots| - 1];
      var outcome := Eval(last.body).outcome;
      Results(roots[..|roots| - 1])
      + if outcome.Completed? && last.handler.Some? then [(last.handler.value, outcome.result)] else []
  }

  lemma PromisePlain(r: Root)
    requires SpawnsNothing(r.body)
    ensures var outcome := Eval(r.body).outcome;
      && Promise(r).calls
           == multiset(if outcome.Completed? && r.handler.Some? then [(r.handler.value, outcome.result)] else [])
      && (Promise(r).doomed <==> outcome.Terminated?)
  {
    OwnDebt(r.body);
  }

  /** For such programs the promise is plain: one call of each handler, with the result of the
      direct-style evaluation, unless some evaluation awaits a failure. */
  lemma {:induction false} PromisesPlain(roots: seq<Root>)
    requires forall r :: r in roots ==> SpawnsNothing(r.body)
    ensures Promises(roots).calls == multiset(Results(roots))
    ensures Promises(roots).doomed <==> exists r :: r in roots && Eval(r.body).outcome.Terminated?
  {
    hide Eval, Promise, SpawnsNothing;
    if roots != [] {
      var init, last := roots[..|roots| - 1], roots[|roots| - 1];
      assert roots == init + [last] && last in roots;
      PromisesPlain(init);
      PromisePlain(last);
      assert forall r :: r in roots <==> r in init || r == last;
    }
  }

  // ---------------------------------------------------------------- who is called

  /** The coroutines that a direct-style evaluation spawns, and those that they spawn, and so on. */
  ghost function Started(p: Prog): seq<Root> {
    match p
    case Return(_) => []
    case Throw(_) => []
    case Yield(next) => Started(next)
    case Spawn(child, handler, next) => [Root(child, handler)] + Started(child) + Started(next)
    case Await(child, on, otherwise) =>
      var how := Eval(child).outcome;
      Started(child)
      + if how.Completed? && how.result.Returned?
        then if how.result.v in on then Started(on[how.result.v]) else Started(otherwise)
        else []
  }

  ghost function AllStarted(roots: seq<Root>): seq<Root> {
    if roots == [] then []
    else
      var last := roots[|roots| - 1];
      AllStarted(roots[..|roots| - 1]) + [last] + Started(last.body)
  }

  /** One, if this coroutine has the handler `h` and ends with the result `r`. */
  ghost function Claim(x: Root, h: Label, r: Result): nat {
    if x.handler == Some(h) && Eval(x.body).outcome == Completed(r) then 1 else 0
  }

  /** How many of them have the handler `h` and end with the result `r`. */
  ghost function Claims(all: seq<Root>, h: Label, r: Result): nat {
    if all == [] then 0 else Claims(all[..|all| - 1], h, r) + Claim(all[|all| - 1], h, r)
  }

  function WithHandler(all: seq<Root>): nat {
    if all == [] then 0 else WithHandler(all[..|all| - 1]) + if all[|all| - 1].handler.Some? then 1 else 0
  }

  ghost predicate SomeTerminate(all: seq<Root>) {
    exists x :: x in all && Eval(x.body).outcome.Terminated?
  }

  lemma {:induction false} ClaimsAdd(a: seq<Root>, b: seq<Root>, h: Label, r: Result)
    ensures Claims(a + b, h, r) == Claims(a, h, r) + Claims(b, h, r)
    ensures WithHandler(a + b) == WithHandler(a) + WithHandler(b)
    decreases |b|
  {
    hide Claim;
    if b == [] {
      assert a + b == a;
    } else {
      ClaimsAdd(a, b[..|b| - 1], h, r);
      assert (a + b)[..|a + b| - 1] == a + b[..|b| - 1];
    }
  }

  lemma ClaimsOne(x: Root, h: Label, r: Result)
    ensures Claims([x], h, r) == Claim(x, h, r)
    ensures WithHandler([x]) == if x.handler.Some? then 1 else 0
  {
    hide Claim;
    assert [x][..0] == [];
  }

  /** The debt `d` is one call of each handler with the result of its coroutine, and doomed if one of the coroutines
      terminates the program, or what owes it does itself. */
  ghost predicate DebtOf(d: Debt, ends: bool, all: seq<Root>, h: Label, r: Result) {
    && d.calls[(h, r)] == Claims(all, h, r)
    && (!d.doomed ==> |d.calls| == WithHandler(all))
    && (d.doomed <==> ends || SomeTerminate(all))
  }

  lemma DebtsAdd(d: Debt, dEnds: bool, a: seq<Root>, e: Debt, eEnds: bool, b: seq<Root>, h: Label, r: Result)
    requires DebtOf(d, dEnds, a, h, r) && DebtOf(e, eEnds, b, h, r)
    ensures DebtOf(Plus(d, e), dEnds || eEnds, a + b, h, r)
  {
    ClaimsAdd(a, b, h, r);
    hide Claims, WithHandler;
  }

  /** A spawned coroutine owes a call of its own handler, and what those owe that it starts. */
  lemma {:induction false} SettleOf(x: Root, h: Label, r: Result)
    requires DebtOf(Eval(x.body).debt, Eval(x.body).outcome.Terminated?, Started(x.body), h, r)
    ensures DebtOf(Settle(x.handler, Eval(x.body)), false, [x] + Started(x.body), h, r)
  {
    ClaimsOne(x, h, r);
    ClaimsAdd([x], Started(x.body), h, r);
    hide Claims, WithHandler, Eval, Started;
  }

  lemma DebtOfAction(h: Label, r: Result)
    ensures DebtOf(ACTION, false, [], h, r) && DebtOf(Debt(multiset{}, true, 0), true, [], h, r)
  {
  }

  /** One more action owes nothing. */
  lemma ActionOwes(d: Debt, ends: bool, all: seq<Root>, h: Label, r: Result)
    requires DebtOf(d, ends, all, h, r)
    ensures DebtOf(Plus(ACTION, d), ends, all, h, r)
  {
    hide DebtOf, Plus;
    DebtOfAction(h, r);
    DebtsAdd(ACTION, false, [], d, ends, all, h, r);
    assert [] + all == all;
  }

  lemma SpawnOwes(p: Prog, h: Label, r: Result)
    requires p.Spawn?
    requires DebtOf(Eval(p.child).debt, Eval(p.child).outcome.Terminated?, Started(p.child), h, r)
    requires DebtOf(Eval(p.next).debt, Eval(p.next).outcome.Terminated?, Started(p.next), h, r)
    ensures DebtOf(Eval(p).debt, Eval(p).outcome.Terminated?, Started(p), h, r)
  {
    var x, rest := Root(p.child, p.handler), Eval(p.next);
    var own, all := Settle(x.handler, Eval(x.body)), [x] + Started(x.body);
    assert Eval(p) == After(ACTION, After(own, rest)) && Started(p) == all + Started(p.next);
    hide DebtOf, Settle, Eval, Started, Plus;
    SettleOf(x, h, r);
    DebtsAdd(own, false, all, rest.debt, rest.outcome.Terminated?, Started(p.next), h, r);
    ActionOwes(Plus(own, rest.debt), rest.outcome.Terminated?, all + Started(p.next), h, r);
  }

  /** What an awaiting coroutine does when the one it awaits has ended. */
  ghost function Behind(p: Prog): Run
    requires p.Await?
  {
    var how := Eval(p.child).outcome;
    if how.Completed? && how.result.Returned? then Eval(Continuation(p, how.result.v))
    else Run(Terminated, Debt(multiset{}, true, 0))
  }

  ghost function StartedBehind(p: Prog): seq<Root>
    requires p.Await?
  {
    var how := Eval(p.child).outcome;
    if how.Completed? && how.result.Returned? then Started(Continuation(p, how.result.v)) else []
  }

  lemma AwaitBehind(p: Prog)
    requires p.Await?
    ensures Eval(p) == After(ACTION, After(Eval(p.child).debt, Behind(p)))
    ensures Started(p) == Started(p.child) + StartedBehind(p)
  {
  }

  lemma AwaitOwes(p: Prog, h: Label, r: Result)
    requires p.Await?
    requires DebtOf(Eval(p.child).debt, Eval(p.child).outcome.Terminated?, Started(p.child), h, r)
    requires DebtOf(Behind(p).debt, Behind(p).outcome.Terminated?, StartedBehind(p), h, r)
    ensures DebtOf(Eval(p).debt, Eval(p).outcome.Terminated?, Started(p), h, r)
  {
    AwaitBehind(p);
    var first, rest := Eval(p.child), Behind(p);
    assert first.outcome.Terminated? ==> rest.outcome.Terminated?;
    hide DebtOf, Eval, Started, Behind, StartedBehind, Plus;
    DebtsAdd(first.debt, first.outcome.Terminated?, Started(p.child), rest.debt, rest.outcome.Terminated?,
             StartedBehind(p), h, r);
    ActionOwes(Plus(first.debt, rest.debt), rest.outcome.Terminated?, Started(p), h, r);
  }

  lemma {:induction false} EvalOwes(p: Prog, h: Label, r: Result)
    ensures DebtOf(Eval(p).debt, Eval(p).outcome.Terminated?, Started(p), h, r)
  {
    hide DebtOf, Plus, Settle;
    DebtOfAction(h, r);
    match p {
      case Return(_) =>
      case Throw(_) =>
      case Yield(next) =>
        EvalOwes(next, h, r);
        ActionOwes(Eval(next).debt, Eval(next).outcome.Terminated?, Started(next), h, r);
      case Spawn(child, handler, next) =>
        EvalOwes(child, h, r);
        EvalOwes(next, h, r);
        SpawnOwes(p, h, r);
      case Await(child, on, otherwise) =>
        EvalOwes(child, h, r);
        var how := Eval(child).outcome;
        if how.Completed? && how.result.Returned? {
          if how.result.v in on {
            EvalOwes(on[how.result.v], h, r);
          } else {
            EvalOwes(otherwise, h, r);
          }
        }
        AwaitOwes(p, h, r);
    }
  }

  /** Spawning coroutines promises one call for each that has a handler, of those spawned and of all that they start in
      turn, with the result of its own direct-style evaluation, unless one of these awaits a failure. */
  lemma {:induction false} PromisesCounted(roots: seq<Root>, h: Label, r: Result)
    ensures Promises(roots).calls[(h, r)] == Claims(AllStarted(roots), h, r)
    ensures !Promises(roots).doomed ==> |Promises(roots).calls| == WithHandler(AllStarted(roots))
    ensures Promises(roots).doomed <==> SomeTerminate(AllStarted(roots))
  {
    if roots == [] {
    } else {
      var init, last := roots[..|roots| - 1], roots[|roots| - 1];
      PromisesCounted(init, h, r);
      EvalOwes(last.body, h, r);
      assert DebtOf(Promises(init), false, AllStarted(init), h, r);
      assert Promises(roots) == Plus(Promises(init), Promise(last));
      assert AllStarted(roots) == AllStarted(init) + ([last] + Started(last.body));
      hide Plus, Promises, AllStarted, Started, Eval, Claims, WithHandler;
      SettleOf(last, h, r);
      DebtsAdd(Promises(init), false, AllStarted(init), Promise(last), false, [last] + Started(last.body), h, r);
    }
  }

  // ---------------------------------------------------------------- inlining

  /** The body of an awaited coroutine written out in the place of the `co_await`: where it would return, the one that
      awaits goes on with the value; where an exception would leave it, the one that awaits is awaiting a failure. */
  ghost function Inline(child: Prog, on: imap<Value, Prog>, otherwise: Prog): Prog {
    match child
    case Return(v) => if v in on then on[v] else otherwise
    case Throw(_) => Await(child, on, otherwise)
    case Yield(next) => Yield(Inline(next, on, otherwise))
    case Spawn(other, handler, next) => Spawn(other, handler, Inline(next, on, otherwise))
    case Await(other, own, rest) =>
      Await(other, imap v | v in own :: Inline(own[v], on, otherwise), Inline(rest, on, otherwise))
  }

  ghost predicate SameEffect(a: Run, b: Run) {
    a.outcome == b.outcome && a.debt.calls == b.debt.calls && a.debt.doomed == b.debt.doomed
  }

  lemma SameAfter(d: Debt, a: Run, b: Run)
    requires SameEffect(a, b)
    ensures SameEffect(After(d, a), After(d, b))
  {
  }

  lemma AfterBoth(d: Debt, e: Debt, r: Run)
    ensures SameEffect(After(Plus(d, e), r), After(d, After(e, r)))
    ensures SameEffect(After(ACTION, r), r)
  {
    assert d.calls + e.calls + r.debt.calls == d.calls + (e.calls + r.debt.calls);
  }

  /** What an awaiting coroutine does when the awaited one has ended so. */
  ghost function Onward(how: Outcome, on: imap<Value, Prog>, otherwise: Prog): Run {
    if how.Completed? && how.result.Returned?
    then Eval(if how.result.v in on then on[how.result.v] else otherwise)
    else Run(Terminated, Debt(multiset{}, true, 0))
  }

  lemma AwaitRuns(child: Prog, on: imap<Value, Prog>, otherwise: Prog)
    ensures Eval(Await(child, on, otherwise))
         == After(ACTION, After(Eval(child).debt, Onward(Eval(child).outcome, on, otherwise)))
  {
  }

  /** `p` written out in place does what it does, and then what follows its end. */
  ghost predicate Inlines(p: Prog, on: imap<Value, Prog>, otherwise: Prog) {
    SameEffect(Eval(Inline(p, on, otherwise)), After(Eval(p).debt, Onward(Eval(p).outcome, on, otherwise)))
  }

  lemma InlinesEnd(p: Prog, on: imap<Value, Prog>, otherwise: Prog)
    requires p.Return? || p.Throw?
    ensures Inlines(p, on, otherwise)
  {
  }

  lemma InlinesYield(next: Prog, on: imap<Value, Prog>, otherwise: Prog)
    requires Inlines(next, on, otherwise)
    ensures Inlines(Yield(next), on, otherwise)
  {
    var q, rest := Inline(Yield(next), on, otherwise), Onward(Eval(next).outcome, on, otherwise);
    assert q == Yield(Inline(next, on, otherwise));
    assert Eval(Yield(next)) == After(ACTION, Eval(next)) && Eval(q) == After(ACTION, Eval(q.next));
    hide Inline, Onward, Eval;
    SameAfter(ACTION, Eval(q.next), After(Eval(next).debt, rest));
    AfterBoth(ACTION, Eval(next).debt, rest);
  }

  lemma InlinesSpawn(p: Prog, on: imap<Value, Prog>, otherwise: Prog)
    requires p.Spawn? && Inlines(p.next, on, otherwise)
    ensures Inlines(p, on, otherwise)
  {
    var own, rest := Settle(p.handler, Eval(p.child)), Onward(Eval(p.next).outcome, on, otherwise);
    assert Eval(p) == After(ACTION, After(own, Eval(p.next)));
    var q := Inline(p, on, otherwise);
    assert Eval(q) == After(ACTION, After(own, Eval(Inline(p.next, on, otherwise))));
    hide Inline, Onward, Eval, Settle;
    SameAfter(own, Eval(q.next), After(Eval(p.next).debt, rest));
    AfterBoth(own, Eval(p.next).debt, rest);
    AfterBoth(ACTION, own, Eval(p.next));
  }

  lemma InlineAwait(p: Prog, on: imap<Value, Prog>, otherwise: Prog, v: Value)
    requires p.Await?
    ensures var q := Inline(p, on, otherwise);
      && q.Await? && q.child == p.child && q.otherwise == Inline(p.otherwise, on, otherwise)
      && (v in q.on <==> v in p.on) && (v in p.on ==> q.on[v] == Inline(p.on[v], on, otherwise))
  {
    hide Eval;
  }

  lemma {:induction false} InlinesAwait(p: Prog, on: imap<Value, Prog>, otherwise: Prog)
    requires p.Await?
    requires var how := Eval(p.child).outcome;
      how.Completed? && how.result.Returned? ==> Inlines(Continuation(p, how.result.v), on, otherwise)
    ensures Inlines(p, on, otherwise)
  {
    hide Inline, Eval, SameEffect;
    var how, q := Eval(p.child).outcome, Inline(p, on, otherwise);
    var d, done := Eval(p.child).debt, how.Completed? && how.result.Returned?;
    InlineAwait(p, on, otherwise, if done then how.result.v else 0);
    AwaitRuns(p.child, p.on, p.otherwise);
    AwaitRuns(q.child, q.on, q.otherwise);
    if done {
      var next := Continuation(p, how.result.v);
      AwaitReturned(d, Eval(next), Eval(Inline(next, on, otherwise)), Onward(Eval(next).outcome, on, otherwise));
    } else {
      AwaitFailed(d);
    }
  }

  lemma AwaitReturned(d: Debt, a: Run, b: Run, rest: Run)
    requires SameEffect(b, After(a.debt, rest))
    ensures SameEffect(After(ACTION, After(d, b)), After(After(ACTION, After(d, a)).debt, rest))
  {
    SameAfter(d, b, After(a.debt, rest));
    AfterBoth(d, a.debt, rest);
  }

  lemma AwaitFailed(d: Debt)
    ensures var gone := Run(Terminated, Debt(multiset{}, true, 0));
      SameEffect(After(ACTION, After(d, gone)), After(After(ACTION, After(d, gone)).debt, gone))
  {
  }

  /** Nobody can tell an awaited coroutine from its body written out in place. */
  lemma {:induction false} Inlining(child: Prog, on: imap<Value, Prog>, otherwise: Prog)
    ensures SameEffect(Eval(Await(child, on, otherwise)), Eval(Inline(child, on, otherwise)))
  {
    InlineRuns(child, on, otherwise);
    AwaitRuns(child, on, otherwise);
    hide Eval, Inline, Onward;
  }

  lemma {:induction false} InlineRuns(p: Prog, on: imap<Value, Prog>, otherwise: Prog)
    ensures Inlines(p, on, otherwise)
  {
    hide *;
    match p {
      case Return(_) => InlinesEnd(p, on, otherwise);
      case Throw(_) => InlinesEnd(p, on, otherwise);
      case Yield(next) =>
        InlineRuns(next, on, otherwise);
        InlinesYield(next, on, otherwise);
      case Spawn(_, _, next) =>
        InlineRuns(next, on, otherwise);
        InlinesSpawn(p, on, otherwise);
      case Await(other, own, rest) =>
        var how := Eval(other).outcome;
        if how.Completed? && how.result.Returned? {
          InlineRuns(if how.result.v in own then own[how.result.v] else rest, on, otherwise);
          ContinuesWith(p, how.result.v);
        }
        InlinesAwait(p, on, otherwise);
    }
  }

  lemma ContinuesWith(p: Prog, v: Value)
    requires p.Await?
    ensures Continuation(p, v) == if v in p.on then p.on[v] else p.otherwise
  {
  }
}
