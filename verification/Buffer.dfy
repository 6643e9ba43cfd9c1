/** `Buffer` over its array; the readable bytes follow the queue of `BufferModel` in every operation. */
module Buffers {
  import opened BufferModel

  /** What `readv` answers: an errno, or the bytes it delivered. */
  datatype ReadResult = Failed(errno: int) | Received(data: seq<byte>)

  class Buffer {
    var buf: array<byte>
    var readerIndex: nat
    var writerIndex: nat

    ghost predicate Valid()
      reads this
    {
      readerIndex <= writerIndex <= buf.Length && CHEAP_PREPEND <= buf.Length
    }

    ghost function Layout(): Shape
      reads this
    {
      Shape(buf.Length, readerIndex, writerIndex)
    }

    /** The readable bytes. */
    ghost function Content(): seq<byte>
      reads this, buf
      requires Valid()
    {
      buf[readerIndex..writerIndex]
    }

    constructor (initialSize: nat)
      ensures Valid() && fresh(buf) && Content() == []
      ensures Layout() == Shape(CHEAP_PREPEND + initialSize, CHEAP_PREPEND, CHEAP_PREPEND)
    {
      buf := new byte[CHEAP_PREPEND + initialSize](_ => 0);
      readerIndex, writerIndex := CHEAP_PREPEND, CHEAP_PREPEND;
    }

    method Swap(other: Buffer)
      requires Valid() && other.Valid()
      modifies this, other
      ensures buf == old(other.buf) && Layout() == old(other.Layout())
      ensures other.buf == old(buf) && other.Layout() == old(Layout())
    {
      var b, r, w := buf, readerIndex, writerIndex;
      buf, readerIndex, writerIndex := other.buf, other.readerIndex, other.writerIndex;
      other.buf, other.readerIndex, other.writerIndex := b, r, w;
    }

    function ReadableBytes(): nat
      reads this
      requires Valid()
    {
      writerIndex - readerIndex
    }

    function WritableBytes(): nat
      reads this
      requires Valid()
    {
      buf.Length - writerIndex
    }

    /** The vector's `resize` to a larger size. */
    method Grow(size: nat)
      requires Valid() && buf.Length <= size
      modifies this`buf
      ensures Valid() && fresh(buf) && buf.Length == size && buf[..old(buf.Length)] == old(buf[..])
    {
      var bigger := new byte[size](_ => 0);
      forall i | 0 <= i < buf.Length {
        bigger[i] := buf[i];
      }
      buf := bigger;
    }

    /** `std::copy` of the readable bytes to the front, where source and target may overlap. */
    method MoveToFront()
      requires Valid() && CHEAP_PREPEND < readerIndex
      modifies this`readerIndex, this`writerIndex, buf
      ensures Valid() && Content() == old(Content())
      ensures readerIndex == CHEAP_PREPEND && writerIndex == CHEAP_PREPEND + old(writerIndex - readerIndex)
    {
      var readable := writerIndex - readerIndex;
      var i := 0;
      while i < readable
        invariant 0 <= i <= readable && readerIndex == old(readerIndex) && writerIndex == old(writerIndex)
        invariant buf[CHEAP_PREPEND..CHEAP_PREPEND + i] == old(buf[readerIndex..writerIndex])[..i]
        invariant forall k :: readerIndex + i <= k < writerIndex ==> buf[k] == old(buf[k])
      {
        buf[CHEAP_PREPEND + i] := buf[readerIndex + i];
        i := i + 1;
      }
      readerIndex := CHEAP_PREPEND;
      writerIndex := readerIndex + readable;
    }

    method MakeSpace(len: nat)
      requires Valid() && WritableBytes() < len
      modifies this, buf
      ensures Valid() && Content() == old(Content()) && Layout() == Reserve(old(Layout()), len)
      ensures buf == old(buf) || fresh(buf)
    {
      if WritableBytes() + readerIndex < len + CHEAP_PREPEND {
        ghost var n := buf.Length;
        Grow(writerIndex + len);
        assert buf[readerIndex..writerIndex] == buf[..n][readerIndex..writerIndex];
      } else {
        assert CHEAP_PREPEND < readerIndex;
        MoveToFront();
      }
    }

    method EnsureWritableBytes(len: nat)
      requires Valid()
      modifies this, buf
      ensures Valid() && Content() == old(Content()) && Layout() == Reserve(old(Layout()), len)
      ensures WritableBytes() >= len
      ensures buf == old(buf) || fresh(buf)
    {
      if WritableBytes() < len {
        MakeSpace(len);
      }
      assert WritableBytes() >= len;
    }

    /** `std::copy` into the array at `at`. */
    method CopyIn(data: seq<byte>, at: nat)
      requires at + |data| <= buf.Length
      modifies buf
      ensures buf[..] == Patched(old(buf[..]), at, data)
    {
      for i := 0 to |data|
        invariant forall k :: 0 <= k < i ==> buf[at + k] == data[k]
        invariant forall k :: 0 <= k < at || at + |data| <= k < buf.Length ==> buf[k] == old(buf[k])
      {
        buf[at + i] := data[i];
      }
    }

    method HasWritten(len: nat)
      requires Valid() && len <= WritableBytes()
      modifies this`writerIndex
      ensures Valid() && Content() == old(Content()) + old(buf[writerIndex..writerIndex + len])
      ensures Layout() == old(Layout()).(writer := old(writerIndex) + len)
    {
      SliceJoin(buf[..], readerIndex, writerIndex, writerIndex + len);
      writerIndex := writerIndex + len;
    }

    /** `std::copy` to `beginWrite()` followed by `hasWritten`. */
    method Fill(data: seq<byte>)
      requires Valid() && |data| <= WritableBytes()
      modifies this`writerIndex, buf
      ensures Valid() && Content() == old(Content()) + data
      ensures Layout() == old(Layout()).(writer := old(writerIndex) + |data|)
    {
      PatchedAfter(buf[..], writerIndex, data, readerIndex);
      CopyIn(data, writerIndex);
      SliceJoin(buf[..], readerIndex, writerIndex, writerIndex + |data|);
      HasWritten(|data|);
    }

    method Append(data: seq<byte>)
      requires Valid()
      modifies this, buf
      ensures Valid() && Content() == old(Content()) + data
      ensures Layout() == AppendShape(old(Layout()), |data|)
      ensures buf == old(buf) || fresh(buf)
    {
      EnsureWritableBytes(|data|);
      Fill(data);
    }

    method Unwrite(len: nat)
      requires Valid() && len <= ReadableBytes()
      modifies this`writerIndex
      ensures Valid() && Content() == old(Content())[..|old(Content())| - len]
      ensures Layout() == old(Layout()).(writer := old(writerIndex) - len)
    {
      SliceOfSlice(buf[..], readerIndex, writerIndex, ReadableBytes() - len);
      writerIndex := writerIndex - len;
    }

    method RetrieveAll()
      requires Valid()
      modifies this`readerIndex, this`writerIndex
      ensures Valid() && Content() == [] && readerIndex == writerIndex == CHEAP_PREPEND
    {
      readerIndex, writerIndex := CHEAP_PREPEND, CHEAP_PREPEND;
    }

    method Retrieve(len: nat)
      requires Valid() && len <= ReadableBytes()
      modifies this`readerIndex, this`writerIndex
      ensures Valid() && Content() == old(Content())[len..]
      ensures Layout() == RetrieveShape(old(Layout()), len)
    {
      SliceOfSlice(buf[..], readerIndex, writerIndex, len);
      if len < ReadableBytes() {
        readerIndex := readerIndex + len;
      } else {
        RetrieveAll();
      }
    }

    method RetrieveAsString(len: nat) returns (result: seq<byte>)
      requires Valid() && len <= ReadableBytes()
      modifies this`readerIndex, this`writerIndex
      ensures Valid() && result + Content() == old(Content()) && |result| == len
      ensures Layout() == RetrieveShape(old(Layout()), len)
    {
      SliceOfSlice(buf[..], readerIndex, writerIndex, len);
      SliceJoin(buf[..], readerIndex, readerIndex + len, writerIndex);
      result := buf[readerIndex..readerIndex + len];
      Retrieve(len);
    }

    method Prepend(data: seq<byte>)
      requires Valid() && |data| <= readerIndex
      modifies this`readerIndex, buf
      ensures Valid() && Content() == data + old(Content())
      ensures Layout() == old(Layout()).(reader := old(readerIndex) - |data|)
    {
      PatchedBefore(buf[..], readerIndex - |data|, data, writerIndex);
      readerIndex := readerIndex - |data|;
      CopyIn(data, readerIndex);
    }

    method Shrink(reserve: nat)
      requires Valid()
      modifies this
      ensures Valid() && Content() == old(Content()) && fresh(buf)
      ensures Layout() == ShrinkShape(old(Layout()), reserve)
    {
      var other := new Buffer(INITIAL_SIZE);
      other.EnsureWritableBytes(ReadableBytes() + reserve);
      other.Append(buf[readerIndex..writerIndex]);
      Swap(other);
    }

    /** `readFd`: the second segment takes what the array has no room for. */
    method ReadFd(readv: ReadResult) returns (n: int, savedErrno: int)
      requires Valid()
      requires readv.Received? ==> |readv.data| <= ReadLimit(Layout())
      modifies this, buf
      ensures Valid() && (buf == old(buf) || fresh(buf))
      ensures readv.Failed? ==> n < 0 && savedErrno == readv.errno
                                && Content() == old(Content()) && Layout() == old(Layout())
      ensures readv.Received? ==> n == |readv.data| && Content() == old(Content()) + readv.data
                                  && Layout() == ReadShape(old(Layout()), |readv.data|)
    {
      n, savedErrno := -1, 0;
      var writable := WritableBytes();
      match readv
      case Failed(errno) =>
        savedErrno := errno;
      case Received(data) =>
        n := |data|;
        if n <= writable {
          Fill(data);
        } else {
          Fill(data[..writable]);
          Append(data[writable..]);
          assert data == data[..writable] + data[writable..];
        }
    }

    /** `appendInt8` to `appendInt64`, by width in bytes. */
    method AppendInt(x: Int)
      requires Valid() && x.Ok()
      modifies this, buf
      ensures Valid() && Content() == old(Content()) + Encode(x.width, x.value)
      ensures forall k :: 0 <= k < x.width ==> Encode(x.width, x.value)[k] == (x.value / Pow256(x.width - 1 - k)) % 256
      ensures Layout() == AppendShape(old(Layout()), x.width)
      ensures buf == old(buf) || fresh(buf)
    {
      forall k | 0 <= k < x.width
        ensures Encode(x.width, x.value)[k] == (x.value / Pow256(x.width - 1 - k)) % 256 {
        EncodeByte(x.width, x.value, k);
      }
      Append(Encode(x.width, x.value));
    }

    function PeekInt(width: nat): int
      reads this, buf
      requires Valid() && width <= ReadableBytes()
    {
      Decode(buf[readerIndex..readerIndex + width])
    }

    method ReadInt(width: nat) returns (x: int)
      requires Valid() && width <= ReadableBytes()
      modifies this`readerIndex, this`writerIndex
      ensures Valid() && x == Decode(old(Content())[..width]) && Content() == old(Content())[width..]
    {
      SliceOfSlice(buf[..], readerIndex, writerIndex, width);
      x := PeekInt(width);
      Retrieve(width);
    }

    /** Prepending an integer and peeking at it is the identity. */
    method PrependInt(x: Int)
      requires Valid() && x.Ok() && x.width <= readerIndex
      modifies this`readerIndex, buf
      ensures Valid() && Content() == Encode(x.width, x.value) + old(Content())
      ensures x.width <= ReadableBytes() && PeekInt(x.width) == x.value
    {
      ghost var bytes, rest := Encode(x.width, x.value), Content();
      DecodeEncode(x.width, x.value);
      Prepend(Encode(x.width, x.value));
      assert (bytes + rest)[..x.width] == bytes;
      SliceOfSlice(buf[..], readerIndex, writerIndex, x.width);
    }

    method AppendInts(xs: seq<Int>)
      requires Valid() && AllOk(xs)
      modifies this, buf
      ensures Valid() && Content() == old(Content()) + EncodeAll(xs)
      ensures Layout() == AppendIntsShape(old(Layout()), xs)
      ensures buf == old(buf) || fresh(buf)
    {
      var i := 0;
      assert xs[0..] == xs;
      while i < |xs|
        invariant i <= |xs| && Valid() && (buf == old(buf) || fresh(buf))
        invariant WrittenUpTo(xs, i, Layout(), Content(), old(Layout()), old(Content()))
      {
        WriteNext(xs, i, Layout(), Content(), old(Layout()), old(Content()));
        AppendInt(xs[i]);
        i := i + 1;
      }
      assert xs[i..] == [];
    }

    method ReadInts(widths: seq<nat>) returns (values: seq<int>)
      requires Valid() && TotalWidth(widths) <= ReadableBytes()
      modifies this`readerIndex, this`writerIndex
      ensures Valid() && values == DecodeAll(widths, old(Content()))
      ensures Content() == old(Content())[TotalWidth(widths)..]
    {
      values := [];
      var i := 0;
      assert widths[0..] == widths;
      while i < |widths|
        invariant i <= |widths| && Valid() && ReadUpTo(values, widths, i, Content(), old(Content()))
      {
        ReadNext(values, widths, i, Content(), old(Content()));
        var x := ReadInt(widths[i]);
        values := values + [x];
        i := i + 1;
      }
      assert widths[i..] == [];
    }

    /** Any legal sequence of operations acts on the readable bytes as on a plain byte queue. */
    method Execute(cs: seq<Command>)
      requires Valid() && LegalRun(Layout(), cs)
      modifies this, buf
      ensures Valid() && (buf == old(buf) || fresh(buf))
      ensures Layout() == RunShape(old(Layout()), cs)
      ensures Content() == RunQueue(old(Layout()), old(Content()), cs)
    {
      var i := 0;
      while i < |cs|
        invariant i <= |cs| && Valid() && (buf == old(buf) || fresh(buf))
        invariant LegalRun(Layout(), cs[i..])
        invariant RunShape(Layout(), cs[i..]) == RunShape(old(Layout()), cs)
        invariant RunQueue(Layout(), Content(), cs[i..]) == RunQueue(old(Layout()), old(Content()), cs)
      {
        assert cs[i..][1..] == cs[i + 1..];
        ExecuteOne(cs[i]);
        i := i + 1;
      }
    }

    method ExecuteOne(c: Command)
      requires Valid() && Legal(Layout(), c)
      modifies this, buf
      ensures Valid() && (buf == old(buf) || fresh(buf))
      ensures Layout() == StepShape(old(Layout()), c) && Content() == StepQueue(old(Content()), c)
    {
      match c
      case Append(data) => Append(data);
      case EnsureWritable(len) => EnsureWritableBytes(len);
      case Retrieve(len) => Retrieve(len);
      case Unwrite(len) => Unwrite(len);
      case Prepend(data) => Prepend(data);
      case ReadFd(data) => var _, _ := ReadFd(Received(data));
      case Shrink(reserve) => Shrink(reserve);
    }

    /**
      Integers appended and read back later, after any legal operations that leave them at the
      front with `rest` behind them, are the integers, and `rest` stays.
     */
    method AppendThenRead(xs: seq<Int>, cs: seq<Command>, ghost rest: seq<byte>) returns (values: seq<int>)
      requires Valid() && AllOk(xs) && LegalRun(AppendIntsShape(Layout(), xs), cs)
      requires RunQueue(AppendIntsShape(Layout(), xs), Content() + EncodeAll(xs), cs) == EncodeAll(xs) + rest
      modifies this, buf
      ensures Valid() && (buf == old(buf) || fresh(buf))
      ensures values == Values(xs) && Content() == rest
    {
      AppendInts(xs);
      Execute(cs);
      MixedListRoundTrip(xs, rest);
      values := ReadInts(Widths(xs));
    }
  }
}
