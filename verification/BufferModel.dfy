/** What `Buffer` is for: a byte queue, its memory layout, and integers in network byte order. */
module BufferModel {

  type byte = b: int | 0 <= b < 256

  const CHEAP_PREPEND: nat := 8
  const INITIAL_SIZE: nat := 1024
  const EXTRA_BUF: nat := 65536

  // ---------------------------------------------------------------- layout

  /** Backing size and the two indexes. */
  datatype Shape = Shape(size: nat, reader: nat, writer: nat) {
    predicate Ok() {
      reader <= writer <= size && CHEAP_PREPEND <= size
    }
    function Readable(): int {
      writer - reader
    }
    function Writable(): int {
      size - writer
    }
  }

  /**
    `ensureWritableBytes` with the choice `makeSpace` makes: keep, grow, or move to the front.
    Room is made and nothing unread is lost; a move is always towards lower positions, which is
    the assert in `makeSpace`; growth stays below twice what is in use plus what is asked.
   */
  function Reserve(sh: Shape, len: nat): (r: Shape)
    requires sh.Ok()
    ensures r.Ok() && r.Writable() >= len && r.Readable() == sh.Readable() && r.size >= sh.size
    ensures sh.Writable() < len && r.size == sh.size ==> CHEAP_PREPEND < sh.reader && r.reader == CHEAP_PREPEND
    ensures r.size > sh.size ==> r.size <= 2 * (sh.Readable() + len) + 7
    ensures sh.Writable() >= len ==> r == sh
    ensures sh.Writable() < len <= sh.size - sh.Readable() - 8 ==> r.size == sh.size && r.reader == 8
    ensures sh.Writable() < len && sh.size - sh.Readable() - 8 < len ==> r.reader == sh.reader && r.Writable() == len
  {
    if sh.Writable() >= len then sh
    else if sh.Writable() + sh.reader < len + CHEAP_PREPEND then sh.(size := sh.writer + len)
    else sh.(reader := CHEAP_PREPEND, writer := CHEAP_PREPEND + sh.Readable())
  }

  function AppendShape(sh: Shape, len: nat): Shape
    requires sh.Ok()
  {
    var r := Reserve(sh, len);
    r.(writer := r.writer + len)
  }

  /** Retrieving all there is makes the whole array writable again but for the first eight bytes. */
  function RetrieveShape(sh: Shape, len: nat): (r: Shape)
    requires sh.Ok() && len <= sh.Readable()
    ensures r.size == sh.size && r.Readable() == sh.Readable() - len
    ensures if len == sh.Readable() then r.reader == 8 else r.writer == sh.writer
  {
    if len < sh.Readable() then sh.(reader := sh.reader + len) else sh.(reader := CHEAP_PREPEND, writer := CHEAP_PREPEND)
  }

  /** Shrinking leaves the reserve free and forgets the old size. */
  function ShrinkShape(sh: Shape, reserve: nat): (r: Shape)
    requires sh.Ok()
    ensures r.Ok() && r.Writable() >= reserve && r.Readable() == sh.Readable() && r.reader == CHEAP_PREPEND
    ensures r.size == 8 + if sh.Readable() + reserve <= 1024 then 1024 else sh.Readable() + reserve
  {
    var empty := Shape(CHEAP_PREPEND + INITIAL_SIZE, CHEAP_PREPEND, CHEAP_PREPEND);
    AppendShape(Reserve(empty, sh.Readable() + reserve), sh.Readable())
  }

  /** `readFd` after `readv` delivered `n` bytes: the array is filled to its end before room is made for the rest. */
  function ReadShape(sh: Shape, n: nat): (r: Shape)
    requires sh.Ok()
    ensures r.Readable() == sh.Readable() + n
    ensures n <= sh.Writable() ==> r.size == sh.size && r.reader == sh.reader
    ensures sh.Writable() < n ==>
      if n - sh.Writable() <= sh.reader - 8 then r.size == sh.size && r.reader == 8
      else r.reader == sh.reader && r.Writable() == 0
  {
    if n <= sh.Writable() then sh.(writer := sh.writer + n)
    else AppendShape(sh.(writer := sh.size), n - sh.Writable())
  }

  /** The most `readv` can deliver: the extra segment is offered only to a small buffer. */
  function ReadLimit(sh: Shape): (r: nat)
    requires sh.Ok()
    ensures r - sh.Writable() == if sh.Writable() >= 65536 then 0 else 65536
  {
    sh.Writable() + if sh.Writable() < EXTRA_BUF then EXTRA_BUF else 0
  }

  // ---------------------------------------------------------------- the queue

  datatype Command =
    | Append(data: seq<byte>)
    | EnsureWritable(len: nat)
    | Retrieve(len: nat)
    | Unwrite(len: nat)
    | Prepend(data: seq<byte>)
    | ReadFd(data: seq<byte>)
    | Shrink(reserve: nat)

  /** What the source asserts of its caller, and of the kernel. */
  predicate Legal(sh: Shape, c: Command)
    requires sh.Ok()
  {
    match c
    case Append(_) => true
    case EnsureWritable(_) => true
    case Retrieve(len) => len <= sh.Readable()
    case Unwrite(len) => len <= sh.Readable()
    case Prepend(data) => |data| <= sh.reader
    case ReadFd(data) => |data| <= ReadLimit(sh)
    case Shrink(_) => true
  }

  function StepShape(sh: Shape, c: Command): (r: Shape)
    requires sh.Ok() && Legal(sh, c)
    ensures r.Ok()
  {
    match c
    case Append(data) => AppendShape(sh, |data|)
    case EnsureWritable(len) => Reserve(sh, len)
    case Retrieve(len) => RetrieveShape(sh, len)
    case Unwrite(len) => sh.(writer := sh.writer - len)
    case Prepend(data) => sh.(reader := sh.reader - |data|)
    case ReadFd(data) => ReadShape(sh, |data|)
    case Shrink(reserve) => ShrinkShape(sh, reserve)
  }

  /** Asking for room makes it, and shrinking keeps no more than what is readable and the reserve need. */
  lemma StepMakesRoom(sh: Shape, c: Command)
    requires sh.Ok() && Legal(sh, c)
    ensures c.EnsureWritable? ==> StepShape(sh, c).Writable() >= c.len && StepShape(sh, c).Readable() == sh.Readable()
    ensures c.Shrink? ==>
      StepShape(sh, c).size == 8 + if sh.Readable() + c.reserve <= 1024 then 1024 else sh.Readable() + c.reserve
  {
  }

  /** The same command on a plain byte queue. */
  function StepQueue(q: seq<byte>, c: Command): seq<byte>
    requires (c.Retrieve? || c.Unwrite?) ==> c.len <= |q|
  {
    match c
    case Append(data) => q + data
    case EnsureWritable(_) => q
    case Retrieve(len) => q[len..]
    case Unwrite(len) => q[..|q| - len]
    case Prepend(data) => data + q
    case ReadFd(data) => q + data
    case Shrink(_) => q
  }

  /** Byte by byte: what goes in stays where it was put, what is taken out is the front or the end. */
  lemma QueueByteByByte(q: seq<byte>, c: Command)
    requires (c.Retrieve? || c.Unwrite?) ==> c.len <= |q|
    ensures var r := StepQueue(q, c);
            match c
            case Append(data) => |r| == |q| + |data| && forall i :: 0 <= i < |r| ==> r[i] == if i < |q| then q[i] else data[i - |q|]
            case ReadFd(data) => |r| == |q| + |data| && forall i :: 0 <= i < |r| ==> r[i] == if i < |q| then q[i] else data[i - |q|]
            case Prepend(data) =>
              |r| == |q| + |data| && forall i :: 0 <= i < |r| ==> r[i] == if i < |data| then data[i] else q[i - |data|]
            case Retrieve(len) => |r| == |q| - len && forall i :: 0 <= i < |r| ==> r[i] == q[i + len]
            case Unwrite(len) => |r| == |q| - len && forall i :: 0 <= i < |r| ==> r[i] == q[i]
            case _ => r == q
  {
  }

  predicate LegalRun(sh: Shape, cs: seq<Command>)
    requires sh.Ok()
    decreases |cs|
  {
    cs == [] || (Legal(sh, cs[0]) && LegalRun(StepShape(sh, cs[0]), cs[1..]))
  }

  function RunShape(sh: Shape, cs: seq<Command>): (r: Shape)
    requires sh.Ok() && LegalRun(sh, cs)
    ensures r.Ok()
    decreases |cs|
  {
    if cs == [] then sh else RunShape(StepShape(sh, cs[0]), cs[1..])
  }

  /** The layout always has room for exactly the queue's bytes. */
  lemma StepSizes(sh: Shape, q: seq<byte>, c: Command)
    requires sh.Ok() && Legal(sh, c) && |q| == sh.Readable()
    ensures |StepQueue(q, c)| == StepShape(sh, c).Readable()
  {
  }

  function RunQueue(sh: Shape, q: seq<byte>, cs: seq<Command>): seq<byte>
    requires sh.Ok() && LegalRun(sh, cs) && |q| == sh.Readable()
    decreases |cs|
  {
    if cs == [] then q
    else
      StepSizes(sh, q, cs[0]);
      RunQueue(StepShape(sh, cs[0]), StepQueue(q, cs[0]), cs[1..])
  }

  // ---------------------------------------------------------------- slices

  lemma SliceOfSlice(s: seq<byte>, lo: nat, hi: nat, k: nat)
    requires lo <= hi <= |s| && lo + k <= hi
    ensures s[lo..hi][..k] == s[lo..lo + k] && s[lo..hi][k..] == s[lo + k..hi]
  {
  }

  lemma SliceJoin(s: seq<byte>, lo: nat, mid: nat, hi: nat)
    requires lo <= mid <= hi <= |s|
    ensures s[lo..mid] + s[mid..hi] == s[lo..hi]
  {
  }

  /** The bytes of an array after `data` was copied to position `at`. */
  function Patched(s: seq<byte>, at: nat, data: seq<byte>): (r: seq<byte>)
    requires at + |data| <= |s|
    ensures |r| == |s|
  {
    s[..at] + data + s[at + |data|..]
  }

  lemma PatchedAfter(s: seq<byte>, at: nat, data: seq<byte>, lo: nat)
    requires lo <= at && at + |data| <= |s|
    ensures Patched(s, at, data)[lo..at + |data|] == s[lo..at] + data
  {
  }

  lemma PatchedBefore(s: seq<byte>, at: nat, data: seq<byte>, hi: nat)
    requires at + |data| <= hi <= |s|
    ensures Patched(s, at, data)[at..hi] == data + s[at + |data|..hi]
  {
  }

  // ---------------------------------------------------------------- memory over whole runs

  /** The bytes a command may ask room for. */
  function Demand(sh: Shape, c: Command): nat
    requires sh.Ok()
  {
    match c
    case Append(data) => sh.Readable() + |data|
    case EnsureWritable(len) => sh.Readable() + len
    case ReadFd(data) => sh.Readable() + |data|
    case _ => 0
  }

  ghost predicate DemandBelow(sh: Shape, cs: seq<Command>, high: nat)
    requires sh.Ok() && LegalRun(sh, cs)
    decreases |cs|
  {
    cs == [] || (!cs[0].Shrink? && Demand(sh, cs[0]) <= high && DemandBelow(StepShape(sh, cs[0]), cs[1..], high))
  }

  /**
    Between shrinks the backing array never gets smaller, and never larger than its starting size
    or twice the highest demand plus seven.
   */
  lemma {:induction false} MemoryIsBounded(sh: Shape, cs: seq<Command>, high: nat)
    requires sh.Ok() && LegalRun(sh, cs) && DemandBelow(sh, cs, high)
    ensures var r := RunShape(sh, cs);
            sh.size <= r.size && (r.size <= sh.size || r.size <= 2 * high + 7)
    decreases |cs|
  {
    if cs != [] {
      MemoryIsBounded(StepShape(sh, cs[0]), cs[1..], high);
    }
  }

  // ---------------------------------------------------------------- integers

  function Pow256(n: nat): (r: int)
    ensures r >= 1
  {
    if n == 0 then 1 else 256 * Pow256(n - 1)
  }

  /** The low `width` bytes of `v`, most significant first. */
  function BigEndian(width: nat, v: nat): (r: seq<byte>)
    ensures |r| == width
  {
    if width == 0 then [] else BigEndian(width - 1, v / 256) + [v % 256]
  }

  function FromBigEndian(bytes: seq<byte>): nat {
    if bytes == [] then 0 else 256 * FromBigEndian(bytes[..|bytes| - 1]) + bytes[|bytes| - 1]
  }

  /** The range of a signed integer of `width` bytes. */
  predicate Fits(width: nat, x: int) {
    -Pow256(width) <= 2 * x < Pow256(width)
  }

  /** `htobe` of the two's complement of `x`, as memory bytes. */
  function Encode(width: nat, x: int): (r: seq<byte>)
    requires Fits(width, x)
    ensures |r| == width
  {
    BigEndian(width, if x < 0 then x + Pow256(width) else x)
  }

  /** `betoh` of memory bytes, read as a signed integer. */
  function Decode(bytes: seq<byte>): int {
    var v := FromBigEndian(bytes);
    if 2 * v >= Pow256(|bytes|) then v - Pow256(|bytes|) else v
  }

  lemma {:induction false} BigEndianInverts(width: nat, v: nat)
    requires v < Pow256(width)
    ensures FromBigEndian(BigEndian(width, v)) == v
  {
    if width > 0 {
      BigEndianInverts(width - 1, v / 256);
      assert BigEndian(width, v)[..width - 1] == BigEndian(width - 1, v / 256);
    }
  }

  lemma {:induction false} FromBigEndianBound(bytes: seq<byte>)
    ensures FromBigEndian(bytes) < Pow256(|bytes|)
    decreases |bytes|
  {
    if bytes != [] {
      FromBigEndianBound(bytes[..|bytes| - 1]);
    }
  }

  lemma {:induction false} FromBigEndianInverts(bytes: seq<byte>)
    ensures BigEndian(|bytes|, FromBigEndian(bytes)) == bytes
    decreases |bytes|
  {
    if bytes != [] {
      var front, last := bytes[..|bytes| - 1], bytes[|bytes| - 1];
      FromBigEndianInverts(front);
      var v := FromBigEndian(bytes);
      assert v / 256 == FromBigEndian(front) && v % 256 == last;
      assert bytes == front + [last];
    }
  }

  // ---------------------------------------------------------------- the weight of each byte

  lemma Times(d: int, a: int, b: int)
    ensures d * (a + b) == d * a + d * b && d * (a - b) == d * a - d * b
  {
  }

  lemma TimesAtLeast(d: int, e: int)
    requires d >= 1
    ensures e >= 1 ==> d * e >= d
    ensures e <= -1 ==> d * e <= -d
  {
  }

  lemma QuotientIs(v: int, d: int, q: int, r: int, q': int, r': int)
    requires 0 <= r < d && v == d * q + r && 0 <= r' < d && v == d * q' + r'
    ensures q == q' && r == r'
  {
    Times(d, q', q);
    TimesAtLeast(d, q' - q);
  }

  lemma DivUnique(v: int, d: int, q: int, r: int)
    requires 0 <= r < d && v == d * q + r
    ensures v / d == q && v % d == r
  {
    var q', r' := v / d, v % d;
    assert v == d * q' + r';
    QuotientIs(v, d, q, r, q', r');
  }

  lemma DivTwice(v: int, p: int)
    requires p >= 1
    ensures (v / 256) / p == v / (256 * p)
  {
    var a, r := v / 256, v % 256;
    var b, rb := a / p, a % p;
    assert v == 256 * (p * b + rb) + r == (256 * p) * b + (256 * rb + r);
    assert 0 <= 256 * rb + r < 256 * p;
    DivUnique(v, 256 * p, b, 256 * rb + r);
  }

  lemma {:induction false} BigEndianByte(width: nat, v: nat, k: nat)
    requires k < width
    ensures BigEndian(width, v)[k] == (v / Pow256(width - 1 - k)) % 256
    decreases width
  {
    if k < width - 1 {
      BigEndianByte(width - 1, v / 256, k);
      DivTwice(v, Pow256(width - 2 - k));
    }
  }

  lemma {:induction false} PowSplit(a: nat, b: nat)
    ensures Pow256(a + b) == Pow256(a) * Pow256(b)
  {
    if a > 0 {
      PowSplit(a - 1, b);
      assert 256 * (Pow256(a - 1) * Pow256(b)) == (256 * Pow256(a - 1)) * Pow256(b);
    }
  }

  lemma AddMultiple(x: int, p: int, m: int)
    requires p >= 1
    ensures (x + p * (256 * m)) / p == x / p + 256 * m
  {
    var q, r := x / p, x % p;
    assert x == p * q + r;
    Times(p, q, 256 * m);
    DivUnique(x + p * (256 * m), p, q + 256 * m, r);
  }

  lemma SameByte(x: int, p: int, m: int, whole: int)
    requires p >= 1 && whole == p * (256 * m)
    ensures (x + whole) / p % 256 == x / p % 256
  {
    AddMultiple(x, p, m);
  }

  lemma PowFactor(width: nat, k: nat)
    requires k < width
    ensures Pow256(width) == Pow256(width - 1 - k) * (256 * Pow256(k))
  {
    PowSplit(width - 1 - k, k + 1);
  }

  /**
    Network byte order: byte `k` of a signed integer of `width` bytes is the one of weight
    256 to the power of `width - 1 - k`, in two's complement.
   */
  lemma EncodeByte(width: nat, x: int, k: nat)
    requires Fits(width, x) && k < width
    ensures Encode(width, x)[k] == (x / Pow256(width - 1 - k)) % 256
  {
    BigEndianByte(width, if x < 0 then x + Pow256(width) else x, k);
    if x < 0 {
      PowFactor(width, k);
      SameByte(x, Pow256(width - 1 - k), Pow256(k), Pow256(width));
    }
  }

  /** The bytes weighed from the front. */
  function Weighed(bytes: seq<byte>): nat {
    if bytes == [] then 0 else bytes[0] * Pow256(|bytes| - 1) + Weighed(bytes[1..])
  }

  lemma WeighedOne(b: byte)
    ensures Weighed([b]) == b
  {
    assert [b][1..] == [];
  }

  lemma WeighedFront(bytes: seq<byte>)
    requires bytes != []
    ensures Weighed(bytes) == bytes[0] * Pow256(|bytes| - 1) + Weighed(bytes[1..])
  {
  }

  lemma Scaled(b: int, p: int)
    ensures b * (256 * p) == 256 * (b * p)
  {
  }

  lemma {:induction false} WeighedSnoc(bytes: seq<byte>)
    requires bytes != []
    ensures Weighed(bytes) == 256 * Weighed(bytes[..|bytes| - 1]) + bytes[|bytes| - 1]
    decreases |bytes|
  {
    if |bytes| == 1 {
      assert bytes[1..] == [] && bytes[..0] == [];
      WeighedOne(bytes[0]);
      assert bytes == [bytes[0]];
    } else {
      var first, mid, last := bytes[0], bytes[1..|bytes| - 1], bytes[|bytes| - 1];
      WeighedSnoc(bytes[1..]);
      assert bytes[1..][..|bytes| - 2] == mid == bytes[..|bytes| - 1][1..];
      Scaled(first, Pow256(|bytes| - 2));
      WeighedFront(bytes);
      WeighedFront(bytes[..|bytes| - 1]);
    }
  }

  lemma {:induction false} FromBigEndianWeighs(bytes: seq<byte>)
    ensures FromBigEndian(bytes) == Weighed(bytes)
    decreases |bytes|
  {
    if bytes != [] {
      FromBigEndianWeighs(bytes[..|bytes| - 1]);
      WeighedSnoc(bytes);
    }
  }

  lemma FirstByte(b: byte, p: int, rest: nat)
    requires rest < p
    ensures 2 * (b * p + rest) >= 256 * p <==> b >= 128
  {
    if b >= 128 {
      Times(p, b - 128, 128);
      assert p * (b - 128) >= 0;
    } else {
      Times(p, 127 - b, b);
      assert p * (127 - b) >= 0;
    }
  }

  /** Reading weighs the bytes from the front, most significant first; a first byte from 128 on makes the integer negative. */
  lemma DecodeWeighs(bytes: seq<byte>)
    requires bytes != []
    ensures Decode(bytes) == Weighed(bytes) - if bytes[0] >= 128 then Pow256(|bytes|) else 0
  {
    FromBigEndianWeighs(bytes);
    FromBigEndianWeighs(bytes[1..]);
    FromBigEndianBound(bytes[1..]);
    FirstByte(bytes[0], Pow256(|bytes| - 1), Weighed(bytes[1..]));
  }

  /** Reading back a signed integer gives it back, negative ones included. */
  lemma DecodeEncode(width: nat, x: int)
    requires Fits(width, x)
    ensures Decode(Encode(width, x)) == x
  {
    BigEndianInverts(width, if x < 0 then x + Pow256(width) else x);
  }

  /** Any bytes are the encoding of exactly the integer read from them. */
  lemma EncodeDecode(bytes: seq<byte>)
    requires bytes != []
    ensures Fits(|bytes|, Decode(bytes)) && Encode(|bytes|, Decode(bytes)) == bytes
  {
    FromBigEndianBound(bytes);
    FromBigEndianInverts(bytes);
  }

  /** An integer with the width it is sent in. */
  datatype Int = Int(width: nat, value: int) {
    predicate Ok() {
      width in {1, 2, 4, 8} && Fits(width, value)
    }
  }

  predicate AllOk(xs: seq<Int>) {
    forall x :: x in xs ==> x.Ok()
  }

  function EncodeAll(xs: seq<Int>): seq<byte>
    requires AllOk(xs)
  {
    if xs == [] then []
    else
      assert xs[0].Ok();
      Encode(xs[0].width, xs[0].value) + EncodeAll(xs[1..])
  }

  function TotalWidth(widths: seq<nat>): nat {
    if widths == [] then 0 else widths[0] + TotalWidth(widths[1..])
  }

  /** The integers read from the front of `bytes` with the given widths. */
  function DecodeAll(widths: seq<nat>, bytes: seq<byte>): seq<int>
    requires TotalWidth(widths) <= |bytes|
  {
    if widths == [] then [] else [Decode(bytes[..widths[0]])] + DecodeAll(widths[1..], bytes[widths[0]..])
  }

  lemma DecodeStep(width: nat, widths: seq<nat>, bytes: seq<byte>)
    requires TotalWidth([width] + widths) <= |bytes|
    ensures TotalWidth([width] + widths) == width + TotalWidth(widths)
    ensures DecodeAll([width] + widths, bytes) == [Decode(bytes[..width])] + DecodeAll(widths, bytes[width..])
    ensures bytes[TotalWidth([width] + widths)..] == bytes[width..][TotalWidth(widths)..]
  {
    assert ([width] + widths)[1..] == widths;
  }

  /** Reading one more integer after those in `values`. */
  lemma DecodeNext(values: seq<int>, widths: seq<nat>, i: nat, bytes: seq<byte>)
    requires i < |widths| && TotalWidth(widths[i..]) <= |bytes|
    ensures TotalWidth(widths[i..]) == widths[i] + TotalWidth(widths[i + 1..])
    ensures values + DecodeAll(widths[i..], bytes) ==
            values + [Decode(bytes[..widths[i]])] + DecodeAll(widths[i + 1..], bytes[widths[i]..])
    ensures bytes[TotalWidth(widths[i..])..] == bytes[widths[i]..][TotalWidth(widths[i + 1..])..]
  {
    assert widths[i..] == [widths[i]] + widths[i + 1..];
    DecodeStep(widths[i], widths[i + 1..], bytes);
    Regroup(values, Decode(bytes[..widths[i]]), DecodeAll(widths[i + 1..], bytes[widths[i]..]));
  }

  lemma Regroup(values: seq<int>, x: int, more: seq<int>)
    ensures values + ([x] + more) == values + [x] + more
  {
  }

  /** The layout after appending the integers one by one. */
  function AppendIntsShape(sh: Shape, xs: seq<Int>): (r: Shape)
    requires sh.Ok() && AllOk(xs)
    ensures r.Ok() && r.Readable() == sh.Readable() + |EncodeAll(xs)|
    decreases |xs|
  {
    if xs == [] then sh
    else
      assert xs[0].Ok();
      AppendIntsShape(AppendShape(sh, xs[0].width), xs[1..])
  }

  /** After the first `i` of the integers, with `bytes` readable and the layout `sh`, it goes on as from the start. */
  ghost predicate WrittenUpTo(xs: seq<Int>, i: nat, sh: Shape, bytes: seq<byte>, sh0: Shape, bytes0: seq<byte>)
    requires AllOk(xs) && sh.Ok() && sh0.Ok()
  {
    && i <= |xs| && AllOk(xs[i..])
    && AppendIntsShape(sh, xs[i..]) == AppendIntsShape(sh0, xs)
    && bytes + EncodeAll(xs[i..]) == bytes0 + EncodeAll(xs)
  }

  lemma WriteNext(xs: seq<Int>, i: nat, sh: Shape, bytes: seq<byte>, sh0: Shape, bytes0: seq<byte>)
    requires AllOk(xs) && sh.Ok() && sh0.Ok() && i < |xs| && WrittenUpTo(xs, i, sh, bytes, sh0, bytes0)
    ensures xs[i].Ok()
    ensures WrittenUpTo(xs, i + 1, AppendShape(sh, xs[i].width), bytes + Encode(xs[i].width, xs[i].value), sh0, bytes0)
  {
    var rest := xs[i + 1..];
    assert xs[i] in xs && xs[i..][0] == xs[i] && xs[i..][1..] == rest;
    Joined(bytes, Encode(xs[i].width, xs[i].value), EncodeAll(rest));
  }

  /** After the first `i` of the integers, with `bytes` left, it goes on as from the start. */
  ghost predicate ReadUpTo(values: seq<int>, widths: seq<nat>, i: nat, bytes: seq<byte>, bytes0: seq<byte>) {
    && i <= |widths| && TotalWidth(widths[i..]) <= |bytes| && TotalWidth(widths) <= |bytes0|
    && values + DecodeAll(widths[i..], bytes) == DecodeAll(widths, bytes0)
    && bytes[TotalWidth(widths[i..])..] == bytes0[TotalWidth(widths)..]
  }

  lemma ReadNext(values: seq<int>, widths: seq<nat>, i: nat, bytes: seq<byte>, bytes0: seq<byte>)
    requires i < |widths| && ReadUpTo(values, widths, i, bytes, bytes0)
    ensures widths[i] <= |bytes|
    ensures ReadUpTo(values + [Decode(bytes[..widths[i]])], widths, i + 1, bytes[widths[i]..], bytes0)
  {
    DecodeNext(values, widths, i, bytes);
  }

  function Widths(xs: seq<Int>): seq<nat> {
    if xs == [] then [] else [xs[0].width] + Widths(xs[1..])
  }

  function Values(xs: seq<Int>): seq<int> {
    if xs == [] then [] else [xs[0].value] + Values(xs[1..])
  }

  /** A mixed list of integers reads back as itself, with whatever follows left in place. */
  lemma {:induction false} MixedListRoundTrip(xs: seq<Int>, rest: seq<byte>)
    requires AllOk(xs)
    ensures TotalWidth(Widths(xs)) == |EncodeAll(xs)|
    ensures DecodeAll(Widths(xs), EncodeAll(xs) + rest) == Values(xs)
    ensures (EncodeAll(xs) + rest)[TotalWidth(Widths(xs))..] == rest
    decreases |xs|
  {
    if xs != [] {
      var x, tail := xs[0], xs[1..];
      assert AllOk(tail) && x.Ok();
      MixedListRoundTrip(tail, rest);
      DecodeEncode(x.width, x.value);
      var head, bytes := Encode(x.width, x.value), EncodeAll(tail);
      Joined(head, bytes, rest);
      DecodeStep(x.width, Widths(tail), head + (bytes + rest));
    }
  }

  lemma Joined(head: seq<byte>, bytes: seq<byte>, rest: seq<byte>)
    ensures head + bytes + rest == head + (bytes + rest)
    ensures (head + (bytes + rest))[..|head|] == head && (head + (bytes + rest))[|head|..] == bytes + rest
  {
  }
}
