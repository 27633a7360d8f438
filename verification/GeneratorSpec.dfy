/**
 Recursive generators, the meaning side: what a consumer must see when it
 iterates a generator whose body may `co_yield` values and whole generators.
 */
module GeneratorSpec {

  type Value = int

  datatype Exn = Exn(code: int)

  /**
   What a generator body still has to do, one suspension point at a time.

   `YieldFrom` is `co_yield` of a fresh generator. If the nested generator
   finishes, the body goes on with `next`; if it throws `e`, the `co_yield`
   expression throws `e`, and the body goes on with `catches[e]` when the
   expression stands in a `try` block that handles `e`, and throws on otherwise.
   `YieldFromEmpty` is `co_yield` of a default-constructed (empty) generator.
   */
  datatype Body =
    | Return
    | Throw(e: Exn)
    | Yield(v: Value, next: Body)
    | YieldFrom(nested: Body, next: Body, catches: imap<Exn, Body>)
    | YieldFromEmpty(next: Body)

  datatype Outcome = Finished | Threw(e: Exn)

  /** One whole run of a body: what it yields, how it ends, how many nested
      generators it enters, and how many actions it takes. */
  datatype Run = Run(values: seq<Value>, outcome: Outcome, entered: nat, actions: nat)

  /** The depth-first flattening of a body, in direct style. */
  ghost function Flatten(b: Body): Run {
    match b
    case Return => Run([], Finished, 0, 1)
    case Throw(e) => Run([], Threw(e), 0, 1)
    case Yield(v, next) => Prefix([v], 0, 1, Flatten(next))
    case YieldFromEmpty(next) => Prefix([], 0, 1, Flatten(next))
    case YieldFrom(nested, next, catches) =>
      var inner := Flatten(nested);
      var rest :=
        if inner.outcome.Finished? then Flatten(next)
        else if inner.outcome.e in catches then Flatten(catches[inner.outcome.e])
        else Run([], inner.outcome, 0, 1);
      Prefix([], 1, 1, Prefix(inner.values, inner.entered, inner.actions, rest))
  }

  /** `r`, with something already done before it. */
  ghost function Prefix(values: seq<Value>, entered: nat, actions: nat, r: Run): Run {
    Run(values + r.values, r.outcome, entered + r.entered, actions + r.actions)
  }

  /** `after` is what is left of `before` once `values` have been yielded, `entered` generators been
      entered and `actions` been taken. */
  ghost predicate Leads(before: Run, values: seq<Value>, entered: nat, actions: nat, after: Run) {
    && before.values == values + after.values
    && before.outcome == after.outcome
    && before.entered == entered + after.entered
    && before.actions == actions + after.actions
  }

  lemma LeadsOn(r0: Run, values0: seq<Value>, entered0: nat, actions0: nat,
                r1: Run, values1: seq<Value>, entered1: nat, actions1: nat, r2: Run)
    requires Leads(r0, values0, entered0, actions0, r1) && Leads(r1, values1, entered1, actions1, r2)
    ensures Leads(r0, values0 + values1, entered0 + entered1, actions0 + actions1, r2)
    ensures values0 == [] ==> values0 + values1 == values1
  {
  }

  lemma LeadsToEnd(r: Run, values: seq<Value>, entered: nat, actions: nat, outcome: Outcome)
    requires Leads(r, values, entered, actions, Run([], outcome, 0, 1))
    ensures r.values == values && r.outcome == outcome && r.entered == entered
  {
  }

  /** The body a frame suspended at a `co_yield` of a generator goes on with. */
  function Resumed(frame: Body, outcome: Outcome): Body
    requires frame.YieldFrom?
  {
    match outcome
    case Finished => frame.next
    case Threw(e) => if e in frame.catches then frame.catches[e] else Throw(e)
  }

  /** The run of `frame` from the point where its nested generator still has `inner` to do. */
  ghost function Continue(frame: Body, inner: Run): Run
    requires frame.YieldFrom?
  {
    Prefix(inner.values, inner.entered, inner.actions, Flatten(Resumed(frame, inner.outcome)))
  }

  lemma FlattenYieldFrom(frame: Body)
    requires frame.YieldFrom?
    ensures Flatten(frame) == Prefix([], 1, 1, Continue(frame, Flatten(frame.nested)))
  {
    var inner := Flatten(frame.nested);
    if inner.outcome.Threw? && inner.outcome.e !in frame.catches {
      assert Flatten(Resumed(frame, inner.outcome)) == Run([], inner.outcome, 0, 1);
    }
  }

  ghost predicate Suspended(frames: seq<Body>) {
    forall i :: 0 <= i < |frames| ==> frames[i].YieldFrom?
  }

  /** The run of a whole stack of suspended frames (outermost first) whose innermost
      nested generator still has `inner` to do. */
  ghost function Unwind(inner: Run, frames: seq<Body>): Run
    requires Suspended(frames)
    decreases |frames|
  {
    if frames == [] then inner
    else Unwind(Continue(frames[|frames| - 1], inner), frames[..|frames| - 1])
  }

  /** What a stack of frames still has to do: the last one is the leaf, the others wait for it. */
  ghost function Pending(frames: seq<Body>): Run
    requires frames != [] && Suspended(frames[..|frames| - 1])
  {
    Unwind(Flatten(frames[|frames| - 1]), frames[..|frames| - 1])
  }

  lemma {:induction false} UnwindPrefix(values: seq<Value>, entered: nat, actions: nat, inner: Run, frames: seq<Body>)
    requires Suspended(frames)
    ensures Unwind(Prefix(values, entered, actions, inner), frames)
         == Prefix(values, entered, actions, Unwind(inner, frames))
    decreases |frames|
  {
    if frames != [] {
      var last, init := frames[|frames| - 1], frames[..|frames| - 1];
      assert Continue(last, Prefix(values, entered, actions, inner))
          == Prefix(values, entered, actions, Continue(last, inner)) by {
        assert values + inner.values + Flatten(Resumed(last, inner.outcome)).values
            == values + (inner.values + Flatten(Resumed(last, inner.outcome)).values);
      }
      UnwindPrefix(values, entered, actions, Continue(last, inner), init);
    } else {
    }
  }

  /** Entering a nested generator: pushing its frame leaves the pending run what it was, less one action
      and one entry. */
  lemma PendingEnter(frames: seq<Body>)
    requires frames != [] && Suspended(frames)
    ensures var pushed := frames + [frames[|frames| - 1].nested];
      Leads(Pending(frames), [], 1, 1, Pending(pushed))
  {
    var frame, init := frames[|frames| - 1], frames[..|frames| - 1];
    var pushed := frames + [frame.nested];
    assert pushed[..|pushed| - 1] == frames && pushed[|pushed| - 1] == frame.nested;
    FlattenYieldFrom(frame);
    UnwindPrefix([], 1, 1, Continue(frame, Flatten(frame.nested)), init);
  }

  /** Leaving a nested generator: popping a frame that has ended and resuming its parent. */
  lemma PendingLeave(frames: seq<Body>, outcome: Outcome)
    requires |frames| >= 2 && Suspended(frames[..|frames| - 1])
    requires Flatten(frames[|frames| - 1]) == Run([], outcome, 0, 1)
    ensures var parent := frames[|frames| - 2];
      var popped := frames[..|frames| - 2] + [Resumed(parent, outcome)];
      Leads(Pending(frames), [], 0, 1, Pending(popped))
  {
    var parent := frames[|frames| - 2];
    var below := frames[..|frames| - 2];
    var popped := below + [Resumed(parent, outcome)];
    assert popped[..|popped| - 1] == below;
    assert frames[..|frames| - 1][..|frames| - 2] == below;
    assert frames[..|frames| - 1][|frames| - 2] == parent;
    var inner := Run([], outcome, 0, 1);
    assert Continue(parent, inner) == Prefix([], 0, 1, Flatten(Resumed(parent, outcome)));
    UnwindPrefix([], 0, 1, Flatten(Resumed(parent, outcome)), below);
  }

  /** An action of the leaf frame that neither enters nor leaves a generator. */
  lemma PendingStep(frames: seq<Body>, values: seq<Value>, next: Body)
    requires frames != [] && Suspended(frames[..|frames| - 1])
    requires Flatten(frames[|frames| - 1]) == Prefix(values, 0, 1, Flatten(next))
    ensures Leads(Pending(frames), values, 0, 1, Pending(frames[|frames| - 1 := next]))
  {
    var stepped := frames[|frames| - 1 := next];
    assert stepped[..|frames| - 1] == frames[..|frames| - 1];
    UnwindPrefix(values, 0, 1, Flatten(next), frames[..|frames| - 1]);
  }

  // ---------------------------------------------------------------- inlining

  /** `b` written out in the place of a `co_yield` of it: where it would return, the frame goes on with `next`; where
      an exception would leave it, with the handler for it, if there is one. */
  ghost function Graft(b: Body, next: Body, catches: imap<Exn, Body>): Body {
    match b
    case Return => next
    case Throw(e) => if e in catches then catches[e] else b
    case Yield(v, rest) => Yield(v, Graft(rest, next, catches))
    case YieldFromEmpty(rest) => YieldFromEmpty(Graft(rest, next, catches))
    case YieldFrom(nested, rest, own) =>
      YieldFrom(nested, Graft(rest, next, catches),
                imap e | e in own || e in catches :: if e in own then Graft(own[e], next, catches) else catches[e])
  }

  lemma FlattenYield(v: Value, next: Body)
    ensures Flatten(Yield(v, next)).values == [v] + Flatten(next).values
    ensures Flatten(Yield(v, next)).outcome == Flatten(next).outcome
  {
  }

  lemma FlattenEmpty(next: Body)
    ensures Flatten(YieldFromEmpty(next)).values == Flatten(next).values
    ensures Flatten(YieldFromEmpty(next)).outcome == Flatten(next).outcome
  {
    assert [] + Flatten(next).values == Flatten(next).values;
  }

  lemma FlattenEnd(b: Body)
    requires b.Return? || b.Throw?
    ensures Flatten(b) == Run([], if b.Return? then Finished else Threw(b.e), 0, 1)
  {
  }

  /** What a frame does behind a `co_yield` of a generator that has ended. */
  ghost function Onward(outcome: Outcome, next: Body, catches: imap<Exn, Body>): Run {
    match outcome
    case Finished => Flatten(next)
    case Threw(e) => if e in catches then Flatten(catches[e]) else Run([], outcome, 0, 1)
  }

  lemma FlattenNested(b: Body, next: Body, catches: imap<Exn, Body>)
    ensures var r, inner := Flatten(YieldFrom(b, next, catches)), Flatten(b);
      && r.values == inner.values + Onward(inner.outcome, next, catches).values
      && r.outcome == Onward(inner.outcome, next, catches).outcome
  {
    var frame, how := YieldFrom(b, next, catches), Flatten(b).outcome;
    FlattenYieldFrom(frame);
    OnwardResumed(frame, how);
    hide Flatten, Onward, Resumed;
    var values := Flatten(b).values;
    assert [] + (values + Onward(how, next, catches).values) == values + Onward(how, next, catches).values;
  }

  lemma OnwardResumed(frame: Body, outcome: Outcome)
    requires frame.YieldFrom?
    ensures Onward(outcome, frame.next, frame.catches) == Flatten(Resumed(frame, outcome))
  {
  }

  ghost predicate Grafts(b: Body, next: Body, catches: imap<Exn, Body>) {
    var r, inner := Flatten(Graft(b, next, catches)), Flatten(b);
    && r.values == inner.values + Onward(inner.outcome, next, catches).values
    && r.outcome == Onward(inner.outcome, next, catches).outcome
  }

  lemma GraftNested(b: Body, next: Body, catches: imap<Exn, Body>, e: Exn)
    requires b.YieldFrom?
    ensures var g := Graft(b, next, catches);
      && g.YieldFrom? && g.nested == b.nested && g.next == Graft(b.next, next, catches)
      && (e in g.catches <==> e in b.catches || e in catches)
      && (e in b.catches ==> g.catches[e] == Graft(b.catches[e], next, catches))
      && (e !in b.catches && e in catches ==> g.catches[e] == catches[e])
  {
    hide Flatten;
  }

  lemma {:induction false} GraftsNested(b: Body, next: Body, catches: imap<Exn, Body>)
    requires b.YieldFrom?
    requires var how := Flatten(b.nested).outcome;
      if how.Finished? then Grafts(b.next, next, catches)
      else how.e in b.catches ==> Grafts(b.catches[how.e], next, catches)
    ensures Grafts(b, next, catches)
  {
    hide Flatten, Graft;
    var how := Flatten(b.nested).outcome;
    GraftNested(b, next, catches, if how.Finished? then Exn(0) else how.e);
    var g := Graft(b, next, catches);
    FlattenNested(b.nested, b.next, b.catches);
    FlattenNested(b.nested, g.next, g.catches);
  }

  lemma GraftsEnd(b: Body, next: Body, catches: imap<Exn, Body>)
    requires b.Return? || b.Throw?
    ensures Grafts(b, next, catches)
  {
    var rest := Onward(Flatten(b).outcome, next, catches);
    assert Flatten(b).values == [] && Graft(b, next, catches) == (if b.Return? then next else Graft(b, next, catches));
    assert Flatten(Graft(b, next, catches)).values == rest.values;
    hide Flatten, Graft, Onward;
    assert [] + rest.values == rest.values;
  }

  lemma GraftSteps(v: Value, b: Body, next: Body, catches: imap<Exn, Body>)
    ensures Graft(Yield(v, b), next, catches) == Yield(v, Graft(b, next, catches))
    ensures Graft(YieldFromEmpty(b), next, catches) == YieldFromEmpty(Graft(b, next, catches))
  {
    hide Flatten;
  }

  lemma GraftsYield(v: Value, b: Body, next: Body, catches: imap<Exn, Body>)
    requires Grafts(b, next, catches)
    ensures Grafts(Yield(v, b), next, catches)
  {
    GraftSteps(v, b, next, catches);
    hide Flatten, Graft, Onward;
    FlattenYield(v, b);
    FlattenYield(v, Graft(b, next, catches));
    var rest := Onward(Flatten(b).outcome, next, catches);
    assert [v] + (Flatten(b).values + rest.values) == [v] + Flatten(b).values + rest.values;
  }

  lemma GraftsEmpty(b: Body, next: Body, catches: imap<Exn, Body>)
    requires Grafts(b, next, catches)
    ensures Grafts(YieldFromEmpty(b), next, catches)
  {
    GraftSteps(0, b, next, catches);
    hide Flatten, Graft, Onward;
    FlattenEmpty(b);
    FlattenEmpty(Graft(b, next, catches));
  }

  lemma {:induction false} GraftRuns(b: Body, next: Body, catches: imap<Exn, Body>)
    ensures Grafts(b, next, catches)
  {
    hide *;
    match b {
      case Return => GraftsEnd(b, next, catches);
      case Throw(e) => GraftsEnd(b, next, catches);
      case Yield(v, rest) =>
        GraftRuns(rest, next, catches);
        GraftsYield(v, rest, next, catches);
      case YieldFromEmpty(rest) =>
        GraftRuns(rest, next, catches);
        GraftsEmpty(rest, next, catches);
      case YieldFrom(nested, rest, own) =>
        var how := Flatten(nested).outcome;
        if how.Finished? {
          GraftRuns(rest, next, catches);
        } else if how.e in own {
          GraftRuns(own[how.e], next, catches);
        }
        GraftsNested(b, next, catches);
    }
  }

  /** A consumer cannot tell a nested generator from its body written out in place: what comes after the `co_yield`
      follows what the nested generator yields, and its exception is handled there, or goes on. */
  lemma {:induction false} Inlining(b: Body, next: Body, catches: imap<Exn, Body>)
    ensures var nested, inlined := Flatten(YieldFrom(b, next, catches)), Flatten(Graft(b, next, catches));
      nested.values == inlined.values && nested.outcome == inlined.outcome
  {
    FlattenNested(b, next, catches);
    GraftRuns(b, next, catches);
  }

  /** A body that yields `vs` and then does what `end` says. */
  function Plain(vs: seq<Value>, end: Body): Body {
    if vs == [] then end else Yield(vs[0], Plain(vs[1..], end))
  }

  lemma {:induction false} PlainYields(vs: seq<Value>, end: Body)
    ensures Flatten(Plain(vs, end)).values == vs + Flatten(end).values
    ensures Flatten(Plain(vs, end)).outcome == Flatten(end).outcome
  {
    hide Flatten;
    if vs != [] {
      FlattenYield(vs[0], Plain(vs[1..], end));
      PlainYields(vs[1..], end);
    }
  }

  lemma PlainReturns(vs: seq<Value>)
    ensures Flatten(Plain(vs, Return)).values == vs && Flatten(Plain(vs, Return)).outcome == Finished
  {
    PlainYields(vs, Return);
    FlattenEnd(Return);
    hide Flatten;
    assert vs + [] == vs;
  }

  /** Values, then a generator that yields values and ends, and what its end leads to. */
  lemma PlainNested(before: seq<Value>, vs: seq<Value>, last: Body, next: Body, catches: imap<Exn, Body>)
    requires last.Return? || last.Throw?
    ensures var end := if last.Return? then Finished else Threw(last.e);
      var r := Flatten(Plain(before, YieldFrom(Plain(vs, last), next, catches)));
      && r.values == before + vs + Onward(end, next, catches).values
      && r.outcome == Onward(end, next, catches).outcome
  {
    hide Flatten, Plain, Onward;
    var end := if last.Return? then Finished else Threw(last.e);
    PlainYields(before, YieldFrom(Plain(vs, last), next, catches));
    FlattenNested(Plain(vs, last), next, catches);
    PlainYields(vs, last);
    FlattenEnd(last);
    var rest := Onward(end, next, catches).values;
    assert vs + [] == vs && before + (vs + rest) == before + vs + rest;
  }
}
