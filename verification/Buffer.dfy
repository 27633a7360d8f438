/**
 The fixed-size text buffer the loggers write into.
 */
module Buffers {

  /** The text after `append` to a buffer of the given capacity: what fits of the message is added. */
  function Appended(text: seq<char>, msg: seq<char>, capacity: nat): (r: seq<char>)
    requires |text| <= capacity
    ensures text <= r && |r| <= capacity
    ensures |text| + |msg| <= capacity ==> r == text + msg
  {
    if |text| + |msg| <= capacity then text + msg else text + msg[..capacity - |text|]
  }

  class StaticBuffer {
    const buf: array<char>
    var size: nat
    // what the buffer holds
    ghost var text: seq<char>

    ghost predicate Valid()
      reads this, buf
    {
      size <= buf.Length && text == buf[..size]
    }

    constructor (capacity: nat)
      ensures Valid() && fresh(buf) && buf.Length == capacity && text == []
    {
      buf := new char[capacity];
      size, text := 0, [];
    }

    function Rest(): (r: int)
      reads this
    {
      buf.Length - size
    }

    /** Copies as much of the message as fits, and leaves what is there as it is. */
    method Append(msg: seq<char>) returns (cplen: nat)
      requires Valid()
      modifies this, buf
      ensures Valid() && cplen <= |msg|
      ensures text == Appended(old(text), msg, buf.Length) == old(text) + msg[..cplen]
    {
      cplen := if Rest() < |msg| then Rest() else |msg|;
      var from := size;
      var i := 0;
      while i < cplen
        invariant 0 <= i <= cplen && size == from && text == old(text)
        invariant buf[..from + i] == text + msg[..i]
      {
        buf[from + i] := msg[i];
        assert buf[..from + i + 1] == buf[..from + i] + [msg[i]];
        i := i + 1;
      }
      size := size + cplen;
      text := text + msg[..cplen];
    }

    method Clear()
      requires Valid()
      modifies this
      ensures Valid() && text == []
    {
      size, text := 0, [];
    }

    function Slice(): (s: seq<char>)
      requires Valid()
      reads this, buf
      ensures s == text
    {
      buf[..size]
    }

    /** At most `count` characters from `pos` on; none when `pos` is past the end. */
    function SliceFrom(pos: nat, count: nat): (s: seq<char>)
      requires Valid()
      reads this, buf
      ensures pos >= |text| ==> s == []
      ensures pos < |text| ==> s <= text[pos..] && (|s| == count || (|s| < count && pos + |s| == |text|))
    {
      if pos >= size then ""
      else buf[pos..pos + (if count < size - pos then count else size - pos)]
    }
  }
}
