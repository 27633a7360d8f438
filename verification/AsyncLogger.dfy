/**
 The asynchronous logger: writers append to the current buffer under a lock; a background thread takes the
 buffers that are full, or the current one, and prints them, keeping two empty buffers in reserve.
 Each method is a block under the lock, or a piece of the background loop that other threads may come between.
 */
module AsyncLoggers {
  import opened Buffers
  import opened Prelude

  const LARGE_BUFFER_SIZE: nat := 4000 * 1000
  const SMALL_BUFFER_SIZE: nat := 4000 * 100

  /** The owner of a buffer, seen as the text in the buffer; moving from it leaves it null. */
  datatype BufferPtr = Null | Buffer(text: seq<char>)

  const EMPTY := Buffer([])

  datatype Phase = Head | Printing(done: nat) | Exited

  /** What the buffers from position `k` on hold. */
  function Texts(buffers: seq<BufferPtr>, k: nat): seq<char>
    decreases |buffers| - k
  {
    if k >= |buffers| then [] else (if buffers[k].Null? then [] else buffers[k].text) + Texts(buffers, k + 1)
  }

  lemma {:induction false} TextsAppend(buffers: seq<BufferPtr>, b: BufferPtr, k: nat)
    requires k <= |buffers| && b.Buffer?
    ensures Texts(buffers + [b], k) == Texts(buffers, k) + b.text
    decreases |buffers| - k
  {
    if k < |buffers| {
      TextsAppend(buffers, b, k + 1);
    }
  }

  /** Emptying a buffer leaves what comes after it. */
  lemma {:induction false} TextsEmptied(buffers: seq<BufferPtr>, j: nat, k: nat)
    requires j < |buffers| && j < k
    ensures Texts(buffers[j := EMPTY], k) == Texts(buffers, k)
    decreases |buffers| - k
  {
    if k < |buffers| {
      TextsEmptied(buffers, j, k + 1);
    }
  }

  lemma ConcatAdd(files: seq<seq<char>>, last: seq<char>)
    ensures Concat(files + [last]) == Concat(files) + last
  {
    assert (files + [last])[..|files|] == files;
  }

  lemma ConcatWrite(earlier: seq<seq<char>>, last: seq<char>, str: seq<char>)
    ensures Concat(earlier + [last + str]) == Concat(earlier + [last]) + str
  {
    ConcatAdd(earlier, last + str);
    ConcatAdd(earlier, last);
    var before := Concat(earlier);
    hide Concat;
    assert before + (last + str) == before + last + str;
  }

  /** What a buffer can take of a message. */
  function Kept(msg: seq<char>): seq<char> {
    if |msg| <= LARGE_BUFFER_SIZE then msg else msg[..LARGE_BUFFER_SIZE]
  }

  /** Where the logged text is: in the files, taken to be printed, ready, or in the current buffer. */
  ghost predicate Ledger(log: seq<char>, written: seq<char>, taken: seq<char>, ready: seq<char>, current: seq<char>) {
    log == written + taken + ready + current
  }

  lemma LedgerAppend(log: seq<char>, w: seq<char>, t: seq<char>, r: seq<char>, c: seq<char>, msg: seq<char>)
    requires Ledger(log, w, t, r, c)
    ensures Ledger(log + msg, w, t, r, c + msg)
  {
    assert (w + t + r) + (c + msg) == (w + t + r + c) + msg;
  }

  lemma LedgerRoll(log: seq<char>, w: seq<char>, t: seq<char>, ready: seq<BufferPtr>, current: BufferPtr)
    requires current.Buffer? && Ledger(log, w, t, Texts(ready, 0), current.text)
    ensures Ledger(log, w, t, Texts(ready + [current], 0), [])
  {
    TextsAppend(ready, current, 0);
    var r, c := Texts(ready, 0), current.text;
    assert (w + t) + (r + c) + [] == w + t + r + c;
  }

  lemma LedgerTakeReady(log: seq<char>, w: seq<char>, ready: seq<BufferPtr>, c: seq<char>)
    requires Ledger(log, w, [], Texts(ready, 0), c)
    ensures Ledger(log, w, Texts(ready, 0), Texts([], 0), c)
  {
    var r := Texts(ready, 0);
    assert w + [] + r + c == w + r + [] + c;
  }

  lemma LedgerTakeCurrent(log: seq<char>, w: seq<char>, current: BufferPtr)
    requires current.Buffer? && Ledger(log, w, [], Texts([], 0), current.text)
    ensures Ledger(log, w, Texts([current], 0), Texts([], 0), [])
  {
    assert Texts([current], 0) == current.text + Texts([current], 1);
    var c := current.text;
    assert w + [] + [] + c == w + c + [] + [];
  }

  lemma LedgerPrint(log: seq<char>, w: seq<char>, taken: seq<BufferPtr>, done: nat, r: seq<char>, c: seq<char>)
    requires done < |taken| && taken[done].Buffer?
    requires Ledger(log, w, Texts(taken, done), r, c)
    ensures Ledger(log, w + taken[done].text, Texts(taken[done := EMPTY], done + 1), r, c)
  {
    var s, t := taken[done].text, Texts(taken, done + 1);
    TextsEmptied(taken, done, done + 1);
    assert w + (s + t) + r + c == w + s + t + r + c;
  }

  lemma Whole(log: seq<char>, w: seq<char>, r: seq<char>, c: seq<char>)
    requires log == w + r + c
    ensures w == log <==> r == [] && c == []
    ensures r == [] ==> log == w + c
  {
    assert |log| == |w| + |r| + |c|;
    assert w + [] == w;
  }

  /** A step of some thread. */
  datatype Step = Write(msg: seq<char>) | Stop | Background(dayOver: bool)

  class AsyncLogger {
    // shared, under the mutex
    var current: BufferPtr
    var next: BufferPtr
    var ready: seq<BufferPtr>
    var stopFlag: bool
    // local to the background thread
    var phase: Phase
    var currentAlter: BufferPtr
    var nextAlter: BufferPtr
    var toPrint: seq<BufferPtr>
    // what is in the files, oldest first
    var files: seq<seq<char>>

    // all messages, in the order in which their writers had the lock
    ghost var log: seq<char>

    ghost predicate Sound(p: BufferPtr) {
      p.Buffer? ==> |p.text| <= LARGE_BUFFER_SIZE
    }

    /** `next` is missing exactly while buffers are ready; the background thread misses a reserve only while it
        prints, and then holds a buffer to put there; and whatever is in reserve is empty. */
    ghost predicate Placed()
      reads this
    {
      && current.Buffer? && Sound(current)
      && next == (if ready == [] then EMPTY else Null)
      && (forall i :: 0 <= i < |ready| ==> ready[i].Buffer? && Sound(ready[i]))
      && (forall i :: 0 <= i < |toPrint| ==> toPrint[i].Buffer? && Sound(toPrint[i]))
      && (currentAlter == EMPTY || (phase.Printing? && currentAlter.Null? && nextAlter == EMPTY && |toPrint| == 1))
      && (nextAlter == EMPTY || (phase.Printing? && nextAlter.Null? && currentAlter == EMPTY && toPrint != []))
      && (phase.Printing? ==> phase.done <= |toPrint| && forall i :: 0 <= i < phase.done ==> toPrint[i] == EMPTY)
    }

    /** What is taken but not printed. */
    function Unprinted(): seq<char>
      reads this
    {
      if phase.Printing? then Texts(toPrint, phase.done) else []
    }

    /** No message is lost, repeated or moved. */
    ghost predicate Conserved()
      reads this
      requires Placed()
    {
      Ledger(log, Concat(files), Unprinted(), Texts(ready, 0), current.text)
    }

    ghost predicate Valid()
      reads this
      ensures Valid() ==> current.Buffer?
    {
      files != [] && Placed() && Conserved()
    }

    constructor ()
      ensures Valid() && phase == Head && !stopFlag && current == EMPTY && ready == [] && log == [] && files == [[]]
    {
      current, next, ready, stopFlag := EMPTY, EMPTY, [], false;
      phase, currentAlter, nextAlter, toPrint, files := Head, EMPTY, EMPTY, [], [[]];
      log := [];
    }

    /** `write_impl`, under the lock. A message that fills the buffer to the brim goes to the next one. */
    method WriteImpl(msg: seq<char>)
      requires Valid()
      modifies `current, `next, `ready, `log
      ensures Valid() && log == old(log) + Kept(msg)
      ensures if LARGE_BUFFER_SIZE - |old(current).text| > |msg|
              then current == Buffer(old(current).text + msg) && ready == old(ready)
              else current == Buffer(Kept(msg)) && ready == old(ready) + [old(current)]
    {
      hide Ledger, Texts, Concat;
      ghost var w, u := Concat(files), Unprinted();
      log := log + Kept(msg);
      if LARGE_BUFFER_SIZE - |current.text| > |msg| {
        LedgerAppend(old(log), w, u, Texts(ready, 0), current.text, msg);
        current := Buffer(Appended(current.text, msg, LARGE_BUFFER_SIZE));
        return;
      }
      ready := ready + [current];
      current := Null;
      if next.Null? {
        next := EMPTY;
      }
      current, next := next, current;
      current := Buffer(Appended(current.text, msg, LARGE_BUFFER_SIZE));
      LedgerRoll(old(log), w, u, old(ready), old(current));
      LedgerAppend(old(log), w, u, Texts(ready, 0), [], Kept(msg));
    }

    /** Once a day the background loop goes on with a new file. */
    method OpenFile()
      requires Valid()
      modifies `files
      ensures Valid() && Concat(files) == old(Concat(files))
    {
      hide Ledger, Texts, Concat;
      ConcatAdd(files, []);
      assert Concat(files) + [] == Concat(files);
      files := files + [[]];
    }

    /** The block of the background loop under the lock: the ready buffers are taken, or else the
        current one if there is anything in it. */
    method Exchange()
      requires Valid() && phase.Head?
      modifies `toPrint, `ready, `current, `currentAlter, `next, `nextAlter, `phase
      ensures Valid() && phase == Printing(0) && ready == []
      ensures if old(ready) == [] then current == EMPTY else current == old(current)
      ensures toPrint == if old(ready) != [] then old(ready) else if old(current).text != [] then [old(current)] else []
    {
      assert Texts([], 0) == [];
      hide Ledger, Texts, Concat;
      toPrint := [];
      if ready == [] {
        if |current.text| != 0 {
          LedgerTakeCurrent(log, Concat(files), current);
          toPrint := [current];
          current := Null;
          current, currentAlter := currentAlter, current;
        }
      } else {
        LedgerTakeReady(log, Concat(files), ready, current.text);
        toPrint, ready := ready, toPrint;
      }
      if next.Null? {
        next, nextAlter := nextAlter, next;
      }
      phase := Printing(0);
    }

    method WriteFile(str: seq<char>)
      requires files != []
      modifies `files
      ensures files != [] && Concat(files) == old(Concat(files)) + str
    {
      var earlier, last := files[..|files| - 1], files[|files| - 1];
      assert files == earlier + [last];
      ConcatWrite(earlier, last, str);
      files := earlier + [last + str];
    }

    /** One round of the printing loop. */
    method PrintNext()
      requires Valid() && phase.Printing? && phase.done < |toPrint|
      modifies `files, `toPrint, `phase
      ensures Valid() && phase == Printing(old(phase).done + 1) && |toPrint| == old(|toPrint|)
      ensures Concat(files) == old(Concat(files)) + old(toPrint)[old(phase).done].text
    {
      hide Ledger, Texts, Concat;
      var done := phase.done;
      var str := toPrint[done].text;
      LedgerPrint(log, Concat(files), toPrint, done, Texts(ready, 0), current.text);
      WriteFile(str);
      toPrint := toPrint[done := EMPTY];
      phase := Printing(done + 1);
    }

    /** After the printing loop: the reserves are refilled from the printed buffers, and the flag is looked at. */
    method Refill()
      requires Valid() && phase.Printing? && phase.done == |toPrint|
      modifies `toPrint, `currentAlter, `nextAlter, `phase
      ensures Valid() && phase == (if stopFlag then Exited else Head)
    {
      if currentAlter.Null? {
        currentAlter := toPrint[|toPrint| - 1];
        toPrint := toPrint[..|toPrint| - 1];
      }
      if nextAlter.Null? {
        nextAlter := toPrint[|toPrint| - 1];
        toPrint := toPrint[..|toPrint| - 1];
      }
      phase := if stopFlag then Exited else Head;
    }

    method Stop()
      requires Valid()
      modifies `stopFlag
      ensures Valid() && stopFlag
    {
      stopFlag := true;
    }

    /** The background thread goes on to its next block. */
    method Background(dayOver: bool)
      requires Valid() && !phase.Exited?
      modifies `files, `toPrint, `ready, `current, `currentAlter, `next, `nextAlter, `phase
      ensures Valid() && (phase.Exited? ==> stopFlag)
      ensures old(phase).Head? ==> phase.Printing? && ready == []
      ensures old(phase).Head? ==> current == (if old(ready) == [] then EMPTY else old(current)) && phase == Printing(0)
      ensures old(phase).Head? ==>
        && toPrint == (if old(ready) != [] then old(ready) else if old(current).text != [] then [old(current)] else [])
        && Concat(files) == old(Concat(files))
      ensures old(phase).Printing? ==> ready == old(ready) && current == old(current)
      ensures old(phase).Printing? && old(phase).done < |old(toPrint)| ==>
        && Concat(files) == old(Concat(files)) + old(toPrint)[old(phase).done].text
        && phase == Printing(old(phase).done + 1) && |toPrint| == |old(toPrint)|
      ensures old(phase).Printing? && old(phase).done == |old(toPrint)| ==>
        phase == (if stopFlag then Exited else Head) && files == old(files)
    {
      hide Ledger, Concat, Texts;
      if phase.Head? {
        if dayOver {
          OpenFile();
        }
        Exchange();
      } else if phase.done < |toPrint| {
        PrintNext();
      } else {
        Refill();
      }
    }

    /** The background thread prints what it has taken, and leaves. */
    method FinishPrinting()
      requires Valid() && stopFlag && phase.Printing?
      modifies `files, `toPrint, `currentAlter, `nextAlter, `phase
      ensures Valid() && phase.Exited?
      ensures log == Concat(files) + Texts(ready, 0) + current.text
    {
      while phase.done < |toPrint|
        invariant Valid() && phase.Printing?
        decreases |toPrint| - phase.done
      {
        PrintNext();
      }
      Refill();
      Accounted();
      assert Concat(files) + [] == Concat(files);
    }

    /** The background thread after a stop, when nobody writes any more. A stop that finds it before its block
        under the lock leaves the current buffer unwritten exactly if buffers are ready. A stop that finds it
        printing leaves everything unwritten that came since its last block. */
    method Finish(dayOver: bool)
      requires Valid() && stopFlag && !phase.Exited?
      modifies `files, `toPrint, `ready, `current, `currentAlter, `next, `nextAlter, `phase
      ensures Valid() && phase.Exited?
      ensures old(phase).Head? ==>
        && log == Concat(files) + (if old(ready) == [] then [] else old(current).text)
        && (Concat(files) == log <==> old(ready == [] || current.text == []))
      ensures old(phase).Printing? ==>
        && log == Concat(files) + Texts(old(ready), 0) + old(current).text
        && (Concat(files) == log <==> Texts(old(ready), 0) == [] && old(current).text == [])
    {
      if phase.Head? {
        Background(dayOver);
        assert Texts(ready, 0) == [];
      }
      hide Valid, Concat, Texts;
      FinishPrinting();
      Whole(log, Concat(files), Texts(ready, 0), current.text);
    }

    /** The thread is as far as it must be after so many undisturbed steps. */
    ghost predicate OnTime(writes: nat, quiet: nat)
      reads this
      requires current.Buffer?
    {
      var taken, readied, text := |toPrint|, |ready|, |current.text|;
      && (phase.Printing? ==> phase.done <= taken) && Load(phase, taken, readied, text) <= 2 * writes
      && var steps := if stopFlag then Leaving(phase, taken, readied, text) else Left(phase, taken, readied, text);
         steps == 0 || steps + quiet <= 2 * writes + 5
    }

    method WriteInTime(msg: seq<char>, ghost writes: nat, ghost quiet: nat)
      requires Valid() && OnTime(writes, quiet) && (phase.Exited? ==> stopFlag)
      modifies `current, `next, `ready, `log
      ensures Valid() && log == old(log) + Kept(msg) && OnTime(writes + 1, 0)
    {
      hide Ledger, Concat, Texts, Kept;
      WriteImpl(msg);
    }

    method StopInTime(ghost writes: nat, ghost quiet: nat)
      requires Valid() && OnTime(writes, quiet)
      modifies `stopFlag
      ensures Valid() && stopFlag && OnTime(writes, 0)
    {
      hide Ledger, Concat, Texts;
      Stop();
    }

    method BackgroundInTime(dayOver: bool, ghost writes: nat, ghost quiet: nat)
      requires Valid() && OnTime(writes, quiet) && !phase.Exited?
      modifies `files, `toPrint, `ready, `current, `currentAlter, `next, `nextAlter, `phase
      ensures Valid() && (phase.Exited? ==> stopFlag) && OnTime(writes, quiet + 1)
    {
      hide Ledger, Concat, Texts;
      Background(dayOver);
    }

    /** With no step to go, everything is in the files. */
    lemma InTheFiles()
      requires Valid() && Left(phase, |toPrint|, |ready|, |current.text|) == 0
      ensures Unprinted() == [] && Texts(ready, 0) == [] && current.text == []
    {
    }

    lemma Starts()
      requires Valid() && phase == Head && current == EMPTY && ready == [] && !stopFlag
      ensures OnTime(0, 0)
    {
    }

    lemma Gone(writes: nat, quiet: nat)
      requires current.Buffer? && OnTime(writes, quiet) && phase.Exited? && stopFlag
      ensures OnTime(writes, quiet + 1)
    {
    }

    lemma Ends(writes: nat, quiet: nat)
      requires Valid() && OnTime(writes, quiet) && quiet > 2 * writes + 5 && (phase.Exited? ==> stopFlag)
      ensures if stopFlag then phase.Exited? else Unprinted() == [] && Texts(ready, 0) == [] && current.text == []
    {
      if !stopFlag {
        InTheFiles();
      }
    }

    lemma Accounted()
      requires Valid()
      ensures current.Buffer? && log == Concat(files) + Unprinted() + Texts(ready, 0) + current.text
      ensures phase.Exited? ==> Unprinted() == []
    {
    }
  }

  // ---------------------------------------------------------------- how long it takes

  /** Buffers with text on their way to the files. */
  function Load(phase: Phase, taken: nat, ready: nat, current: nat): int {
    (if phase.Printing? then taken - phase.done else 0) + ready + if current > 0 then 1 else 0
  }

  /** How many steps the background thread needs to bring everything into the files, if nobody interferes. */
  function Left(phase: Phase, taken: nat, ready: nat, current: nat): int {
    var later := if ready > 0 then 1 + ready + (if current > 0 then 3 else 0) else if current > 0 then 2 else 0;
    if phase.Printing? then taken - phase.done + (if later > 0 then 1 + later else 0) else later
  }

  /** How many steps it needs to leave, after a stop. */
  function Leaving(phase: Phase, taken: nat, ready: nat, current: nat): int {
    match phase
    case Head => 2 + if ready > 0 then ready else if current > 0 then 1 else 0
    case Printing(done) => taken - done + 1
    case Exited => 0
  }

  function Writes(schedule: seq<Step>): nat {
    if schedule == [] then 0
    else Writes(schedule[..|schedule| - 1]) + if schedule[|schedule| - 1].Write? then 1 else 0
  }

  /** How many steps of the background thread a schedule ends with. */
  function Trailing(schedule: seq<Step>): nat {
    if schedule == [] || !schedule[|schedule| - 1].Background? then 0 else 1 + Trailing(schedule[..|schedule| - 1])
  }

  function Logged(schedule: seq<Step>): seq<char> {
    if schedule == [] then []
    else
      var last := schedule[|schedule| - 1];
      Logged(schedule[..|schedule| - 1]) + (if last.Write? then Kept(last.msg) else [])
  }

  lemma LoggedStep(schedule: seq<Step>, i: nat)
    requires i <= |schedule|
    ensures Logged(schedule[..0]) == [] && Writes(schedule[..0]) == Trailing(schedule[..0]) == 0
    ensures i < |schedule| ==>
      Logged(schedule[..i + 1]) == Logged(schedule[..i]) + (if schedule[i].Write? then Kept(schedule[i].msg) else [])
    ensures i < |schedule| ==>
      && Writes(schedule[..i + 1]) == Writes(schedule[..i]) + (if schedule[i].Write? then 1 else 0)
      && Trailing(schedule[..i + 1]) == if schedule[i].Background? then 1 + Trailing(schedule[..i]) else 0
  {
    if i < |schedule| {
      assert schedule[..i + 1][..i] == schedule[..i];
    }
  }

  /** Any interleaving of the writers and the background thread, however often it gets to run: what is in the
      files, then in the buffers on their way there, is all that was logged, in the order of the lock; so the
      files hold a prefix of it, during the run and after the background thread has gone. If it is left alone for long
      enough in the end, all of it is in the files, or, after a stop, the thread has gone. */
  method Run(schedule: seq<Step>)
      returns (files: seq<seq<char>>, taken: seq<char>, ready: seq<char>, current: seq<char>, exited: bool)
    ensures Logged(schedule) == Concat(files) + taken + ready + current
    ensures Concat(files) <= Logged(schedule)
    ensures exited ==> Stop in schedule && taken == []
    ensures Trailing(schedule) > 2 * Writes(schedule) + 5 ==>
      if Stop in schedule then exited else Concat(files) == Logged(schedule)
  {
    hide *;
    var logger := new AsyncLogger();
    var i := 0;
    assert Logged(schedule[..0]) == [] && Writes(schedule[..0]) == Trailing(schedule[..0]) == 0 by {
      LoggedStep(schedule, 0);
    }
    logger.Starts();
    ghost var writes, quiet := 0, 0;
    while i < |schedule|
      invariant 0 <= i <= |schedule| && fresh(logger) && logger.Valid() && logger.current.Buffer?
      invariant logger.log == Logged(schedule[..i])
      invariant logger.stopFlag <==> Stop in schedule[..i]
      invariant logger.phase.Exited? ==> logger.stopFlag
      invariant writes == Writes(schedule[..i]) && quiet == Trailing(schedule[..i]) && logger.OnTime(writes, quiet)
    {
      LoggedStep(schedule, i);
      assert schedule[..i + 1] == schedule[..i] + [schedule[i]];
      match schedule[i] {
        case Write(msg) =>
          logger.WriteInTime(msg, writes, quiet);
          writes, quiet := writes + 1, 0;
        case Stop =>
          logger.StopInTime(writes, quiet);
          quiet := 0;
        case Background(dayOver) =>
          if !logger.phase.Exited? {
            logger.BackgroundInTime(dayOver, writes, quiet);
          } else {
            logger.Gone(writes, quiet);
          }
          quiet := quiet + 1;
      }
      i := i + 1;
    }
    assert schedule[..i] == schedule;
    logger.Accounted();
    if quiet > 2 * writes + 5 {
      logger.Ends(writes, quiet);
      assert Concat(logger.files) + [] + [] + [] == Concat(logger.files);
    }
    files, taken, ready := logger.files, logger.Unprinted(), Texts(logger.ready, 0);
    current, exited := logger.current.text, logger.phase.Exited?;
  }

  function Times(msg: seq<char>, n: nat): seq<char> {
    if n == 0 then [] else Times(msg, n - 1) + msg
  }

  /** Ten messages of the largest size a writer can send, and then the end: the last one is not in the files. */
  method LastMessageMissing(msg: seq<char>) returns (files: seq<seq<char>>)
    requires |msg| == SMALL_BUFFER_SIZE
    ensures Times(msg, 10) == Concat(files) + msg
  {
    hide AsyncLogger.Valid, Concat;
    var logger := new AsyncLogger();
    for i := 0 to 9
      invariant fresh(logger) && logger.Valid() && logger.phase.Head? && logger.ready == []
      invariant logger.current.Buffer? && |logger.current.text| == i * SMALL_BUFFER_SIZE
      invariant logger.log == Times(msg, i)
    {
      logger.WriteImpl(msg);
    }
    logger.WriteImpl(msg);
    logger.Stop();
    logger.Finish(false);
    files := logger.files;
  }

  function StopWhilePrintingSchedule(a: seq<char>, b: seq<char>): seq<Step> {
    [Write(a), Background(false), Write(b), Stop]
  }

  lemma StopWhilePrintingLog(a: seq<char>, b: seq<char>)
    requires |a| <= LARGE_BUFFER_SIZE && |b| <= LARGE_BUFFER_SIZE
    ensures Logged(StopWhilePrintingSchedule(a, b)) == a + b && Kept(a) == a && Kept(b) == b
  {
    var schedule := StopWhilePrintingSchedule(a, b);
    LoggedStep(schedule, 0);
    LoggedStep(schedule, 1);
    LoggedStep(schedule, 2);
    LoggedStep(schedule, 3);
    assert schedule[..4] == schedule;
  }

  /** A stop while the background thread prints: what was written meanwhile is not in the files. */
  method StopWhilePrinting(a: seq<char>, b: seq<char>) returns (files: seq<seq<char>>)
    requires 0 < |a| <= SMALL_BUFFER_SIZE && |b| <= SMALL_BUFFER_SIZE
    ensures Concat(files) == a && Concat(files) + b == Logged(StopWhilePrintingSchedule(a, b))
  {
    StopWhilePrintingLog(a, b);
    hide Logged, Concat, Texts, Kept, AsyncLogger.Valid, StopWhilePrintingSchedule;
    var logger := TakenAndWritten(a, b);
    logger.Stop();
    logger.Finish(false);
    files := logger.files;
    SameFront(Concat(files), a, b);
  }

  /** One message is about to be printed, and another has been written. */
  method TakenAndWritten(a: seq<char>, b: seq<char>) returns (logger: AsyncLogger)
    requires 0 < |a| <= SMALL_BUFFER_SIZE && |b| <= SMALL_BUFFER_SIZE
    ensures fresh(logger) && logger.Valid() && logger.phase.Printing? && logger.log == a + b
    ensures Texts(logger.ready, 0) == [] && logger.current == Buffer(b)
  {
    StopWhilePrintingLog(a, b);
    assert Texts([], 0) == [];
    hide Logged, Concat, Texts, Kept, AsyncLogger.Valid, StopWhilePrintingSchedule;
    logger := new AsyncLogger();
    logger.WriteImpl(a);
    NothingBefore(a);
    NothingBefore(b);
    logger.Background(false);
    logger.WriteImpl(b);
  }

  lemma NothingBefore(a: seq<char>)
    ensures [] + a == a
  {
  }

  lemma SameFront(w: seq<char>, a: seq<char>, b: seq<char>)
    requires w + [] + b == a + b
    ensures w == a && w + b == a + b
  {
    assert w + [] == w;
    assert |w| == |a| && (w + b)[..|w|] == w && (a + b)[..|a|] == a;
  }
}
