/**
 The life of an I/O operation: `IoService` allocates its context, io_uring counts it, and the handling of
 its completion gives the caller's pointer back to the caller's callback.
 */
module IoOps {
  import opened Prelude

  datatype Operation =
    Noop | WriteFile | ReadFile | Accept | Connect | Send | Receive | SendTo | ReceiveFrom

  /** A `void*`: the pointer a caller passed in, or the message that wraps it. */
  datatype Pointer = Caller(user: nat) | Wrapper(msg: ResumeWithMsg)

  class ResumeWithMsg {
    var nameLen: nat
    const ptr: Pointer
    // the context that leads to this message
    ghost const owner: IoContext

    constructor (nameLen: nat, ptr: Pointer, ghost owner: IoContext)
      ensures this.nameLen == nameLen && this.ptr == ptr && this.owner == owner
    {
      this.nameLen, this.ptr, this.owner := nameLen, ptr, owner;
    }
  }

  class IoContext {
    const op: Operation
    // what the caller asked for and passed in
    ghost const asked: Operation
    ghost const user: nat
    var ptr: Pointer
    var addrLen: nat
    var res: nat

    constructor (op: Operation, ghost asked: Operation, user: nat, addrLen: nat)
      ensures this.op == op && this.asked == asked && this.user == user
      ensures ptr == Caller(user) && this.addrLen == addrLen
    {
      this.op, this.asked, this.user := op, asked, user;
      ptr, this.addrLen, res := Caller(user), addrLen, 0;
    }
  }

  predicate UsesMessage(op: Operation) {
    op.SendTo? || op.ReceiveFrom?
  }

  class IoUring {
    var ioNum: int

    // operations submitted and not completed, messages allocated and not deleted, and those nobody can delete
    ghost var outstanding: set<IoContext>
    ghost var messages: set<ResumeWithMsg>
    ghost var lost: set<ResumeWithMsg>
    ghost var failures: nat

    ghost predicate Valid()
      reads this, outstanding
    {
      && ioNum == |outstanding|
      && (forall c :: c in outstanding ==> c.asked != Noop && Carries(c))
      && lost <= messages && |lost| == failures
      && (forall m :: m in messages ==> Owned(m))
    }

    /** The context leads to the caller's pointer, through a live message exactly for the two message operations. */
    ghost predicate Carries(c: IoContext)
      reads this, c
    {
      && (c.op == c.asked || (c.asked.Receive? && c.op.Send?))
      && if UsesMessage(c.op)
         then c.ptr.Wrapper? && Live(c.ptr.msg) && c.ptr.msg.owner == c && c.ptr.msg.ptr == Caller(c.user)
         else c.ptr == Caller(c.user)
    }

    ghost predicate Live(m: ResumeWithMsg)
      reads this
    {
      m in messages && m !in lost
    }

    /** A live message belongs to an operation that is outstanding. */
    ghost predicate Owned(m: ResumeWithMsg)
      reads this, outstanding
    {
      Live(m) ==> m.owner in outstanding && m.owner.ptr == Wrapper(m)
    }

    constructor ()
      ensures Valid() && ioNum == 0 && outstanding == {} && messages == {} && lost == {}
    {
      ioNum, outstanding, messages, lost, failures := 0, {}, {}, {}, 0;
    }

    /** An operation without a message; a `receive` is tagged as a send. */
    method Submit(asked: Operation, user: nat, addrLen: nat) returns (c: IoContext)
      requires Valid() && asked != Noop && !UsesMessage(asked)
      modifies this
      ensures Valid() && fresh(c) && c.asked == asked && c.user == user && c.addrLen == addrLen
      ensures ioNum == old(ioNum) + 1 && outstanding == old(outstanding) + {c}
      ensures lost == old(lost) && failures == old(failures) && messages == old(messages)
    {
      c := new IoContext(if asked.Receive? then Send else asked, asked, user, addrLen);
      ioNum := ioNum + 1;
      outstanding := outstanding + {c};
    }

    /** `send_to` and `receive_from` wrap the caller's pointer in a message. */
    method SubmitWithMessage(asked: Operation, user: nat, addrLen: nat) returns (c: IoContext)
      requires Valid() && UsesMessage(asked)
      modifies this
      ensures Valid() && fresh(c) && c.asked == asked && c.user == user && c.addrLen == addrLen
      ensures ioNum == old(ioNum) + 1 && outstanding == old(outstanding) + {c}
      ensures lost == old(lost) && failures == old(failures)
      ensures c.ptr.Wrapper? && fresh(c.ptr.msg) && c.ptr.msg.nameLen == addrLen
      ensures messages == old(messages) + {c.ptr.msg}
    {
      c := new IoContext(asked, asked, user, addrLen);
      var msg := new ResumeWithMsg(addrLen, c.ptr, c);
      c.ptr := Wrapper(msg);
      messages := messages + {msg};
      ioNum := ioNum + 1;
      outstanding := outstanding + {c};
      forall d | d in outstanding && d != c ensures Carries(d) { assert old(Carries(d)); }
      forall m | m in messages && m.owner != c ensures Owned(m) { assert old(Owned(m)); }
    }

    lemma Facts(c: IoContext)
      requires Valid() && c in outstanding
      ensures UsesMessage(c.op) ==>
        c.ptr.Wrapper? && c.ptr.msg in messages && c.ptr.msg !in lost && c.ptr.msg.ptr == Caller(c.user)
      ensures !UsesMessage(c.op) ==> c.ptr == Caller(c.user)
    {
      assert Carries(c);
    }

    /** One operation leaves: its message is deleted, or nobody can delete it any more. */
    twostate lemma CompletedKeeps(new c: IoContext, ok: bool)
      requires old(Valid()) && c in old(outstanding)
      requires outstanding == old(outstanding) - {c} && ioNum == old(ioNum) - 1
      requires forall d :: d in outstanding ==> d.ptr == old(d.ptr)
      requires UsesMessage(c.op) && ok ==> messages == old(messages) - {old(c.ptr).msg}
      requires !UsesMessage(c.op) || !ok ==> messages == old(messages)
      requires UsesMessage(c.op) && !ok ==> lost == old(lost) + {old(c.ptr).msg} && failures == old(failures) + 1
      requires !UsesMessage(c.op) || ok ==> lost == old(lost) && failures == old(failures)
      ensures Valid()
    {
      assert old(Carries(c));
      forall d | d in outstanding ensures Carries(d) { assert old(Carries(d)); }
      forall m | m in messages ensures Owned(m) { assert old(Owned(m)); }
    }

    /** The address length and the caller's pointer come out of the message, which is deleted. */
    method Unwrap(c: IoContext)
      requires c.ptr.Wrapper?
      modifies this`messages, c`addrLen, c`ptr
      ensures messages == old(messages) - {old(c.ptr).msg}
      ensures c.addrLen == old(c.ptr).msg.nameLen && c.ptr == old(c.ptr).msg.ptr
    {
      var msg := c.ptr.msg;
      c.addrLen := msg.nameLen;
      c.ptr := msg.ptr;
      messages := messages - {msg};
    }

    /** Nothing leads to the message of a failed operation any more. */
    ghost method Abandon(c: IoContext)
      requires UsesMessage(c.op) ==> c.ptr.Wrapper?
      modifies this`lost, this`failures
      ensures UsesMessage(c.op) ==> lost == old(lost) + {c.ptr.msg} && failures == old(failures) + 1
      ensures !UsesMessage(c.op) ==> lost == old(lost) && failures == old(failures)
    {
      if UsesMessage(c.op) {
        lost := lost + {c.ptr.msg};
        failures := failures + 1;
      }
    }

    /** `handle_cqe` for the read of the eventfd or a cancellation: nothing is counted. */
    method HandleNoop(c: IoContext, res: int) returns (ec: Option<int>, given: Pointer)
      requires Valid() && c.op == Noop
      modifies c`res
      ensures Valid() && given == c.ptr
      ensures ec == (if res < 0 then Some(-res) else None) && c.res == (if res < 0 then 0 else res)
    {
      ec := if res < 0 then Some(-res) else None;
      c.res := if res < 0 then 0 else res;
      given := c.ptr;
    }

    /** `handle_cqe` for an operation, up to the call of its callback, which is passed `given`: the caller gets its
        own pointer back exactly if the operation succeeded or does not use a message. */
    method HandleCqe(c: IoContext, res: int) returns (ec: Option<int>, given: Pointer)
      requires Valid() && c in outstanding
      modifies this, c
      ensures Valid()
      ensures ioNum == old(ioNum) - 1 && outstanding == old(outstanding) - {c}
      ensures ec == (if res < 0 then Some(-res) else None) && c.res == (if res < 0 then 0 else res)
      ensures given == Caller(c.user) <==> res >= 0 || !UsesMessage(c.op)
      ensures UsesMessage(c.op) && res < 0 ==>
        given == old(c.ptr) && lost == old(lost) + {given.msg} && failures == old(failures) + 1
      ensures !UsesMessage(c.op) || res >= 0 ==> lost == old(lost) && failures == old(failures)
      ensures UsesMessage(c.op) && res >= 0 ==>
        messages == old(messages) - {old(c.ptr).msg} && c.addrLen == old(c.ptr).msg.nameLen
      ensures !UsesMessage(c.op) || res < 0 ==> messages == old(messages) && c.addrLen == old(c.addrLen)
    {
      Facts(c);
      hide Valid, Carries, Owned, Live;
      ioNum := ioNum - 1;
      outstanding := outstanding - {c};
      if res < 0 {
        ec := Some(-res);
        c.res := 0;
        Abandon(c);
      } else {
        ec := None;
        c.res := res;
        if UsesMessage(c.op) {
          Unwrap(c);
        }
      }
      given := c.ptr;
      CompletedKeeps(c, res >= 0);
    }

    /** When nothing is outstanding, the messages still allocated are those of the operations that failed. */
    lemma MessagesLeft()
      requires Valid() && outstanding == {}
      ensures ioNum == 0 && messages == lost && |messages| == failures
    {
      assert forall m :: m in messages ==> Owned(m) && !Live(m);
      assert messages == lost;
    }
  }

  /** A result the kernel may give an operation, for which the caller gets its own pointer back. */
  predicate Unwraps(op: Operation, res: int) {
    res >= 0 || !UsesMessage(op)
  }

  /** Completes all outstanding operations, in any order: every callback is called once, with its caller's pointer
      exactly if the operation unwraps; and no message stays allocated exactly if all of them do. */
  method CompleteAll(io: IoUring, results: map<IoContext, int>) returns (given: map<IoContext, Pointer>)
    requires io.Valid() && io.outstanding == results.Keys && io.lost == {}
    modifies io, results.Keys
    ensures io.Valid() && io.ioNum == 0 && given.Keys == results.Keys
    ensures forall c :: c in results ==> (given[c] == Caller(c.user) <==> Unwraps(c.op, results[c]))
    ensures io.messages == {} <==> forall c :: c in results ==> Unwraps(c.op, results[c])
  {
    hide IoUring.Valid;
    given := map[];
    var todo := results.Keys;
    while todo != {}
      invariant io.Valid() && io.outstanding == todo <= results.Keys
      invariant given.Keys == results.Keys - todo
      invariant forall c :: c in given ==> (given[c] == Caller(c.user) <==> Unwraps(c.op, results[c]))
      invariant io.lost == {} <==> forall c :: c in given ==> Unwraps(c.op, results[c])
      decreases todo
    {
      var c :| c in todo;
      var ec, pointer := io.HandleCqe(c, results[c]);
      given := given[c := pointer];
      todo := todo - {c};
    }
    io.MessagesLeft();
  }

  /** One operation of any kind, with any result: the callback is passed its caller's pointer unless it is `send_to` or
      `receive_from` and has failed. */
  method OneOperation(asked: Operation, user: nat, res: int) returns (passedBack: bool)
    requires asked != Noop
    ensures passedBack <==> res >= 0 || (asked != SendTo && asked != ReceiveFrom)
  {
    var io := new IoUring();
    var c;
    if UsesMessage(asked) {
      c := io.SubmitWithMessage(asked, user, 16);
    } else {
      c := io.Submit(asked, user, 0);
    }
    assert io.Carries(c);
    var ec, given := io.HandleCqe(c, res);
    passedBack := match given
      case Caller(p) => p == user
      case Wrapper(_) => false;
  }

  /** A datagram that could not be sent, for whatever reason: the callback is not passed its caller's pointer. */
  method RefusedDatagram(user: nat, error: int) returns (passedBack: bool)
    requires error > 0
    ensures !passedBack
  {
    var io := new IoUring();
    var c := io.SubmitWithMessage(SendTo, user, 16);
    assert io.Carries(c);
    var ec, given := io.HandleCqe(c, -error);
    passedBack := match given
      case Caller(p) => p == user
      case Wrapper(_) => false;
  }
}
