/** The growable-by-replacement byte buffer behind every packet: one array, a read cursor
    and a write cursor, compacted when the free space in front of the unread bytes is needed. */
module Buffers {
  import opened Bytes

  const MAX_SIZE: nat := 0xFFFF

  class Buffer {
    var data: array<Byte>
    var readCursor: nat
    var writeCursor: nat

    ghost predicate Valid()
      reads this
    {
      readCursor <= writeCursor <= data.Length
    }

    /** The unread bytes. */
    ghost function Contents(): seq<Byte>
      reads this, data
      requires Valid()
    {
      data[readCursor..writeCursor]
    }

    constructor (size: nat)
      ensures Valid() && fresh(data) && data.Length == size
      ensures Contents() == [] && readCursor == 0
    {
      data := new Byte[size](_ => 0);
      readCursor, writeCursor := 0, 0;
    }

    function Capacity(): nat
      reads this
    {
      data.Length
    }

    function Size(): (n: nat)
      reads this, data
      requires Valid()
      ensures n == |Contents()|
    {
      writeCursor - readCursor
    }

    function Available(): (n: nat)
      reads this, data
      requires Valid()
      ensures n + |Contents()| == Capacity()
    {
      data.Length - (writeCursor - readCursor)
    }

    method Clear()
      modifies this
      ensures Valid() && Contents() == [] && readCursor == 0 && data == old(data)
    {
      writeCursor, readCursor := 0, 0;
    }

    /** Moves the unread bytes to the front of the array. */
    method RemoveReadBuffer()
      requires Valid()
      modifies this, data
      ensures Valid() && data == old(data) && Contents() == old(Contents()) && readCursor == 0
    {
      if readCursor == 0 {
        return;
      }
      var n := writeCursor - readCursor;
      if 0 < n {
        forall i | 0 <= i < n {
          data[i] := data[readCursor + i];
        }
      }
      writeCursor := n;
      readCursor := 0;
    }

    /** Appends all of `buf`, or nothing at all when it does not fit. */
    method Append(buf: seq<Byte>) returns (ok: bool)
      requires Valid()
      modifies this, data
      ensures Valid() && data == old(data)
      ensures ok <==> |buf| <= old(Available())
      ensures Contents() == if ok then old(Contents()) + buf else old(Contents())
      ensures readCursor == 0 || readCursor == old(readCursor)
    {
      if |buf| == 0 {
        return true;
      }
      if Available() < |buf| {
        return false;
      }
      if |buf| > data.Length - writeCursor {
        RemoveReadBuffer();
      }
      ghost var before := Contents();
      forall i | 0 <= i < |buf| {
        data[writeCursor + i] := buf[i];
      }
      assert data[readCursor..writeCursor] == before;
      writeCursor := writeCursor + |buf|;
      assert data[readCursor..writeCursor] == before + buf;
      ok := true;
    }

    /** Consumes bytes from the front; an emptied buffer starts over at the beginning. */
    method Remove(size: nat)
      requires Valid()
      modifies this
      ensures Valid() && data == old(data)
      ensures Contents() == if size <= |old(Contents())| then old(Contents())[size..] else []
      ensures Contents() == [] ==> readCursor == 0
    {
      readCursor := readCursor + size;
      if readCursor > writeCursor {
        readCursor := writeCursor;
      }
      if readCursor == writeCursor {
        writeCursor, readCursor := 0, 0;
      }
    }

    /** A new array of the given size holding the unread bytes at its front. */
    method Resize(size: nat)
      requires Valid() && Size() <= size
      modifies this
      ensures Valid() && fresh(data) && data.Length == size
      ensures Contents() == old(Contents()) && readCursor == 0
    {
      var oldBuf := data;
      var n := writeCursor - readCursor;
      var newBuf := new Byte[size](_ => 0);
      forall i | 0 <= i < n {
        newBuf[i] := oldBuf[readCursor + i];
      }
      assert newBuf[..n] == oldBuf[readCursor..writeCursor];
      data := newBuf;
      writeCursor := n;
      readCursor := 0;
    }

    /** Replaces the contents by another buffer's unread bytes. */
    method Copy(other: Buffer)
      requires Valid() && other.Valid() && other != this && other.data != data
      modifies this, data
      ensures Valid() && Contents() == other.Contents() && readCursor == 0
      ensures data == old(data) || fresh(data)
    {
      readCursor, writeCursor := 0, 0;
      var n := other.writeCursor - other.readCursor;
      if Available() < n {
        Resize(n);
      }
      forall i | 0 <= i < n {
        data[i] := other.data[other.readCursor + i];
      }
      writeCursor := n;
      assert forall i :: 0 <= i < n ==> data[0..n][i] == other.Contents()[i];
    }
  }
}
