/** `convert`, `converHex`, `FixedBuffer` and the integer, pointer and text output of `LogStream`. */
module LogStreams {
  import opened Outcomes
  import opened Numerals

  const MAX_NUMERIC_SIZE: nat := 48

  /** C++ division truncates towards zero; the remainder takes the sign of the dividend. */
  function TruncDiv(a: int, b: nat): int
    requires b > 0
  {
    if a >= 0 then a / b else -((-a) / b)
  }

  function TruncMod(a: int, b: nat): int
    requires b > 0
  {
    a - b * TruncDiv(a, b)
  }

  function Abs(a: int): nat {
    if a < 0 then -a else a
  }

  function Reversed(s: string): (r: string)
    ensures |r| == |s| && forall k :: 0 <= k < |r| ==> r[k] == s[|s| - 1 - k]
  {
    seq(|s|, k requires 0 <= k < |s| => s[|s| - 1 - k])
  }

  lemma ReversedSnoc(s: string, c: char)
    ensures Reversed(s + [c]) == [c] + Reversed(s)
  {
  }

  /** The two-sided digit table maps a remainder of either sign to its digit. */
  lemma DigitTable(lsd: int)
    requires -9 <= lsd <= 9
    ensures DIGITS[9 + lsd] == DIGITS_HEX[Abs(lsd)]
  {
  }

  lemma TruncStep(i: int)
    ensures -9 <= TruncMod(i, 10) <= 9 && Abs(TruncMod(i, 10)) == Abs(i) % 10
    ensures Abs(TruncDiv(i, 10)) == Abs(i) / 10
    ensures Abs(i) >= 10 <==> TruncDiv(i, 10) != 0
  {
  }

  /** The digits not yet written, followed by the written ones in reverse, are the numeral. */
  predicate Pending(n: nat, base: nat, rest: nat, more: bool, written: string)
    requires Base(base)
  {
    Digits(n, base) == (if more then Digits(rest, base) else []) + Reversed(written)
  }

  lemma WriteDigit(n: nat, base: nat, rest: nat, written: string, d: nat)
    requires Base(base) && Pending(n, base, rest, true, written) && d == rest % base
    ensures Pending(n, base, rest / base, rest >= base, written + [DIGITS_HEX[d]])
  {
    ReversedSnoc(written, DIGITS_HEX[d]);
    DivMod(rest, base);
    if rest < base { assert rest % base == rest; }
    var head, back := if rest >= base then Digits(rest / base, base) else [], Reversed(written);
    assert Digits(rest, base) == head + [DIGITS_HEX[d]];
    assert head + [DIGITS_HEX[d]] + back == head + ([DIGITS_HEX[d]] + back);
  }

  /** `std::reverse`, which swaps from both ends inwards. */
  method ReverseInPlace(buf: array<char>, lo: nat, hi: nat)
    requires lo <= hi <= buf.Length
    modifies buf
    ensures buf[lo..hi] == Reversed(old(buf[lo..hi]))
    ensures forall k :: 0 <= k < lo || hi <= k < buf.Length ==> buf[k] == old(buf[k])
  {
    ghost var was := buf[lo..hi];
    var i, j := lo, hi;
    while i + 1 < j
      invariant lo <= i <= hi && i <= j && i - lo == hi - j
      invariant forall k :: lo <= k < i || j <= k < hi ==> buf[k] == old(buf[lo + hi - 1 - k])
      invariant forall k :: i <= k < j ==> buf[k] == old(buf[k])
      invariant forall k :: 0 <= k < lo || hi <= k < buf.Length ==> buf[k] == old(buf[k])
      decreases j - i
    {
      buf[i], buf[j - 1] := buf[j - 1], buf[i];
      i, j := i + 1, j - 1;
    }
    assert forall k :: 0 <= k < hi - lo ==> buf[lo..hi][k] == buf[lo + k] == was[hi - lo - 1 - k];
  }

  /** While digits are left, the numeral is longer than what is written. */
  lemma PendingLonger(n: nat, base: nat, rest: nat, written: string)
    requires Base(base) && Pending(n, base, rest, true, written)
    ensures |Digits(n, base)| > |written|
  {
    assert |Digits(rest, base)| > 0;
  }

  /** The do-while loop of `convert`: digits from the least significant on. */
  method WriteDigits(buf: array<char>, at: nat, value: int) returns (p: Outcome<nat>)
    requires at <= buf.Length
    modifies buf
    ensures p == if at + |Digits(Abs(value), 10)| <= buf.Length then Ok(at + |Digits(Abs(value), 10)|) else Crash(Overrun)
    ensures p.Ok? ==> Reversed(buf[at..p.value]) == Digits(Abs(value), 10)
    ensures forall k :: 0 <= k < at || (p.Ok? && p.value <= k < buf.Length) ==> buf[k] == old(buf[k])
  {
    var i, more, end := value, true, at;
    while more
      invariant at <= end <= buf.Length && end <= at + |Digits(Abs(value), 10)|
      invariant Pending(Abs(value), 10, Abs(i), more, buf[at..end])
      invariant value < 0 ==> value <= i <= 0
      invariant value >= 0 ==> 0 <= i <= value
      invariant forall k :: 0 <= k < at || end <= k < buf.Length ==> buf[k] == old(buf[k])
      decreases more, Abs(i)
    {
      ghost var written := buf[at..end];
      PendingLonger(Abs(value), 10, Abs(i), written);
      if end == buf.Length {
        return Crash(Overrun);
      }
      TruncStep(i);
      var lsd := TruncMod(i, 10);
      DigitTable(lsd);
      WriteDigit(Abs(value), 10, Abs(i), written, Abs(lsd));
      i := TruncDiv(i, 10);
      buf[end] := DIGITS[9 + lsd];
      end := end + 1;
      assert buf[at..end] == written + [DIGITS[9 + lsd]];
      more := i != 0;
    }
    p := Ok(end);
  }

  /** `*p = '\0'`, the reversal of what stands before it, and the length. */
  method Terminate(buf: array<char>, at: nat, p: nat) returns (len: Outcome<nat>)
    requires at <= p <= buf.Length
    modifies buf
    ensures len == if p < buf.Length then Ok(p - at) else Crash(Overrun)
    ensures len.Ok? ==> buf[at..p] == Reversed(old(buf[at..p])) && buf[p] == '\0'
    ensures forall k :: 0 <= k < at || (len.Ok? && p < k < buf.Length) ==> buf[k] == old(buf[k])
  {
    if p == buf.Length {
      return Crash(Overrun);
    }
    buf[p] := '\0';
    assert buf[at..p] == old(buf[at..p]);
    ReverseInPlace(buf, at, p);
    len := Ok(p - at);
  }

  method WriteSign(buf: array<char>, at: nat, p: nat, value: int) returns (end: Outcome<nat>)
    requires at <= p <= buf.Length
    modifies buf
    ensures end == var q := p + (if value < 0 then 1 else 0);
                   if q <= buf.Length then Ok(q) else Crash(Overrun)
    ensures end.Ok? ==> Reversed(buf[at..end.value]) == (if value < 0 then ['-'] else []) + Reversed(old(buf[at..p]))
    ensures forall k :: 0 <= k < at || (end.Ok? && end.value <= k < buf.Length) ==> buf[k] == old(buf[k])
  {
    if value < 0 {
      if p == buf.Length {
        return Crash(Overrun);
      }
      ReversedSnoc(buf[at..p], '-');
      buf[p] := '-';
      assert buf[at..p + 1] == old(buf[at..p]) + ['-'];
      end := Ok(p + 1);
    } else {
      end := Ok(p);
    }
  }

  function Sign(value: int): string {
    if value < 0 then ['-'] else []
  }

  lemma DecimalParts(value: int)
    ensures Decimal(value) == Sign(value) + Digits(Abs(value), 10)
  {
  }

  lemma JoinAt(s: string, at: nat, before: string, text: string)
    requires at + |text| <= |s| && s[..at] == before && s[at..at + |text|] == text
    ensures s[..at + |text|] == before + text
  {
  }

  /** `convert` after its loop, which has written the digits backwards up to `p`. */
  method Finish(buf: array<char>, at: nat, p: nat, value: int, ghost text: string) returns (len: Outcome<nat>)
    requires at <= p <= buf.Length && text == Sign(value) + Reversed(buf[at..p])
    modifies buf
    ensures len == if at + |text| < buf.Length then Ok(|text|) else Crash(Overrun)
    ensures len.Ok? ==> buf[at..at + |text|] == text && buf[at + |text|] == '\0'
    ensures forall k :: 0 <= k < at || at + |text| < k < buf.Length ==> buf[k] == old(buf[k])
  {
    var end := WriteSign(buf, at, p, value);
    if end.Crash? {
      return Crash(Overrun);
    }
    len := Terminate(buf, at, end.value);
  }

  /**
    `convert`: prints a signed or unsigned integer at `buf + at`. It looks at no bound, and writes
    past the array exactly when the text and its terminator do not fit.
   */
  method Convert(buf: array<char>, at: nat, value: int) returns (len: Outcome<nat>)
    requires at <= buf.Length
    modifies buf
    ensures len == if at + |Decimal(value)| < buf.Length then Ok(|Decimal(value)|) else Crash(Overrun)
    ensures len.Ok? ==> buf[at..at + |Decimal(value)|] == Decimal(value) && buf[at + |Decimal(value)|] == '\0'
    ensures forall k :: 0 <= k < at || at + |Decimal(value)| < k < buf.Length ==> buf[k] == old(buf[k])
  {
    ghost var text := Decimal(value);
    DecimalParts(value);
    var p := WriteDigits(buf, at, value);
    if p.Crash? {
      return Crash(Overrun);
    }
    len := Finish(buf, at, p.value, value, text);
  }

  /** The do-while loop of `converHex`. */
  method WriteHexDigits(buf: array<char>, at: nat, value: nat) returns (p: nat)
    requires at + |Digits(value, 16)| <= buf.Length
    modifies buf
    ensures p == at + |Digits(value, 16)| && Reversed(buf[at..p]) == Digits(value, 16)
    ensures forall k :: 0 <= k < at || p <= k < buf.Length ==> buf[k] == old(buf[k])
  {
    var i, more := value, true;
    p := at;
    while more
      invariant at <= p <= at + |Digits(value, 16)|
      invariant Pending(value, 16, i, more, buf[at..p])
      invariant forall k :: 0 <= k < at || p <= k < buf.Length ==> buf[k] == old(buf[k])
      decreases more, i
    {
      ghost var written := buf[at..p];
      var lsd := i % 16;
      WriteDigit(value, 16, i, written, lsd);
      i := i / 16;
      buf[p] := DIGITS_HEX[lsd];
      p := p + 1;
      assert buf[at..p] == written + [DIGITS_HEX[lsd]];
      more := i != 0;
    }
  }

  /** `converHex`. */
  method ConverHex(buf: array<char>, at: nat, value: nat) returns (len: nat)
    requires at + |Digits(value, 16)| < buf.Length
    modifies buf
    ensures len == |Digits(value, 16)| && buf[at..at + len] == Digits(value, 16) && buf[at + len] == '\0'
    ensures forall k :: 0 <= k < at || at + len < k < buf.Length ==> buf[k] == old(buf[k])
  {
    var p := WriteHexDigits(buf, at, value);
    var r := Terminate(buf, at, p);
    len := r.value;
  }

  /** A pointer value prints in at most 16 digits and reads back as itself. */
  lemma PointerText(value: nat)
    requires value <= 0xFFFF_FFFF_FFFF_FFFF
    ensures |Digits(value, 16)| <= 16 && Value(Digits(value, 16), 16) == value && Canonical(Digits(value, 16), 16)
  {
    assert Pow16(4) == 0x1_0000;
    assert Pow16(8) == 0x1_0000 * Pow16(4);
    assert Pow16(12) == 0x1_0000 * Pow16(8);
    assert Pow16(16) == 0x1_0000 * Pow16(12);
    HexLength(value, 16);
    DigitsCorrect(value, 16);
  }

  // ---------------------------------------------------------------- the stream

  datatype Item = Integer(value: int) | Pointer(address: nat) | Text(text: string)

  function Render(item: Item): string {
    match item
    case Integer(value) => Decimal(value)
    case Pointer(address) => ['0', 'x'] + Digits(address, 16)
    case Text(text) => text
  }

  /** What streaming an item does to the text of a buffer of the given size: all of it or nothing. */
  function Put(written: string, size: nat, item: Item): string {
    match item
    case Integer(_) => written + Render(item)
    case Pointer(_) => if size - |written| >= MAX_NUMERIC_SIZE then written + Render(item) else written
    case Text(text) => if size - |written| > |text| then written + text else written
  }

  /**
    Text is appended whole if strictly more bytes are free than it has, a pointer if at least 48 are,
    an integer always; otherwise nothing is.
   */
  lemma PutExactly(written: string, size: nat, item: Item)
    ensures var kept := match item
                        case Integer(_) => true
                        case Pointer(_) => |written| + 48 <= size
                        case Text(text) => |written| + |text| < size;
            Put(written, size, item) == if kept then written + Render(item) else written
  {
  }

  /** What is appended reads back: the number, the address in base 16 behind its prefix, the text itself. */
  lemma RenderReadsBack(item: Item)
    ensures match item
            case Integer(value) => ParseDecimal(Render(item)) == value && CanonicalDecimal(Render(item))
            case Pointer(address) => "0x" <= Render(item) && Value(Render(item)[2..], 16) == address
                                     && Canonical(Render(item)[2..], 16)
            case Text(text) => Render(item) == text
  {
    match item
    case Integer(value) => DecimalRoundTrip(value);
    case Pointer(address) =>
      DigitsCorrect(address, 16);
      assert Render(item)[2..] == Digits(address, 16);
    case Text(_) =>
  }

  /** Items are put one after the other, from the first on. */
  lemma PutsInOrder(written: string, size: nat, item: Item, items: seq<Item>)
    ensures PutAll(written, size, []) == written
    ensures PutAll(written, size, [item] + items) == PutAll(Put(written, size, item), size, items)
  {
    assert ([item] + items)[1..] == items;
  }

  /** Integers are printed without a space check: the caller must see to the room, terminator included. */
  predicate Safe(written: string, size: nat, item: Item) {
    match item
    case Integer(value) => |written| + |Decimal(value)| < size
    case Pointer(address) => address <= 0xFFFF_FFFF_FFFF_FFFF
    case Text(_) => true
  }

  function PutAll(written: string, size: nat, items: seq<Item>): string
    decreases |items|
  {
    if items == [] then written else PutAll(Put(written, size, items[0]), size, items[1..])
  }

  predicate AllSafe(written: string, size: nat, items: seq<Item>)
    decreases |items|
  {
    items == [] || (Safe(written, size, items[0]) && AllSafe(Put(written, size, items[0]), size, items[1..]))
  }

  function RenderAll(items: seq<Item>): string {
    if items == [] then [] else Render(items[0]) + RenderAll(items[1..])
  }

  /** Any integer the stream takes can be printed safely if and only if 21 bytes are free. */
  lemma RoomForIntegerIff(written: string, size: nat)
    ensures (forall value :: IsMachineInteger(value) ==> Safe(written, size, Integer(value))) <==> |written| + 21 <= size
  {
    if |written| + 21 <= size {
      forall value | IsMachineInteger(value) ensures Safe(written, size, Integer(value)) {
        DecimalFits(value);
      }
    } else {
      LargestIsLongest();
      assert IsMachineInteger(0xFFFF_FFFF_FFFF_FFFF) && !Safe(written, size, Integer(0xFFFF_FFFF_FFFF_FFFF));
    }
  }

  predicate IsAddress(item: Item) {
    item.Pointer? ==> item.address <= 0xFFFF_FFFF_FFFF_FFFF
  }

  lemma RoomToSpare(written: string, size: nat, item: Item)
    requires |written| + |Render(item)| + MAX_NUMERIC_SIZE <= size && IsAddress(item)
    ensures Safe(written, size, item) && Put(written, size, item) == written + Render(item)
  {
  }

  /** With `kMaxNumericSize` bytes to spare, streaming is safe and loses nothing. */
  lemma {:induction false} NothingIsDropped(written: string, size: nat, items: seq<Item>)
    requires |written| + |RenderAll(items)| + MAX_NUMERIC_SIZE <= size
    requires forall item :: item in items ==> IsAddress(item)
    ensures AllSafe(written, size, items) && PutAll(written, size, items) == written + RenderAll(items)
    decreases |items|
  {
    if items != [] {
      var item, rest := items[0], items[1..];
      assert IsAddress(item) && forall x :: x in rest ==> x in items;
      RoomToSpare(written, size, item);
      NothingIsDropped(written + Render(item), size, rest);
      Regroup(written, Render(item), RenderAll(rest));
    }
  }

  lemma Regroup(a: string, b: string, c: string)
    ensures a + b + c == a + (b + c)
  {
  }

  /** The items from the `i`-th on: that one, then the others. */
  lemma PutNext(written: string, size: nat, items: seq<Item>, i: nat)
    requires i < |items|
    ensures PutAll(written, size, items[i..]) == PutAll(Put(written, size, items[i]), size, items[i + 1..])
    ensures AllSafe(written, size, items[i..]) <==>
            Safe(written, size, items[i]) && AllSafe(Put(written, size, items[i]), size, items[i + 1..])
  {
    assert items[i..][0] == items[i] && items[i..][1..] == items[i + 1..];
  }

  class FixedBuffer {
    const data: array<char>
    var cur: nat

    ghost predicate Valid()
      reads this
    {
      cur <= data.Length
    }

    /** `toString`. */
    ghost function Written(): string
      reads this, data
      requires Valid()
    {
      data[..cur]
    }

    constructor (size: nat)
      ensures Valid() && Written() == [] && data.Length == size && fresh(data)
    {
      data := new char[size](_ => '\0');
      cur := 0;
    }

    function Avail(): int
      reads this
    {
      data.Length - cur
    }

    method Add(len: nat)
      requires cur + len <= data.Length
      modifies this`cur
      ensures cur == old(cur) + len
    {
      cur := cur + len;
    }

    method Reset()
      modifies this`cur
      ensures Valid() && Written() == []
    {
      cur := 0;
    }

    method CopyIn(text: string, at: nat)
      requires at + |text| <= data.Length
      modifies data
      ensures data[..at + |text|] == old(data[..at]) + text
    {
      for i := 0 to |text|
        invariant data[..at] == old(data[..at]) && data[at..at + i] == text[..i]
      {
        data[at + i] := text[i];
      }
    }

    method Append(text: string)
      requires Valid()
      modifies this`cur, data
      ensures Valid() && Written() == Put(old(Written()), data.Length, Text(text))
    {
      if Avail() > |text| {
        CopyIn(text, cur);
        Add(|text|);
      }
    }

    /** `convert` at the current position; what was written before stays. */
    method PrintInteger(value: int, ghost text: string) returns (len: Outcome<nat>)
      requires Valid() && text == Decimal(value)
      modifies data
      ensures len == if cur + |text| < data.Length then Ok(|text|) else Crash(Overrun)
      ensures data[..cur] == old(data[..cur])
      ensures len.Ok? ==> data[cur..cur + |text|] == text
    {
      len := Convert(data, cur, value);
    }

    /** Writes past the buffer exactly when the text and its terminator do not fit. */
    method FormatInteger(value: int) returns (r: Outcome<()>)
      requires Valid()
      modifies this`cur, data
      ensures Valid() && r == if Safe(old(Written()), data.Length, Integer(value)) then Ok(()) else Crash(Overrun)
      ensures Written() == if r.Ok? then Put(old(Written()), data.Length, Integer(value)) else old(Written())
    {
      ghost var text, before := Decimal(value), Written();
      var len := PrintInteger(value, text);
      if len.Crash? {
        return Crash(Overrun);
      }
      JoinAt(data[..], cur, before, text);
      Add(len.value);
      r := Ok(());
    }

    method PrintHex(at: nat, address: nat) returns (len: nat)
      requires at + |Digits(address, 16)| < data.Length
      modifies data
      ensures len == |Digits(address, 16)| && data[..at + len] == old(data[..at]) + Digits(address, 16)
    {
      len := ConverHex(data, at, address);
      assert data[..at + len] == data[..at] + data[at..at + len];
    }

    method PrintPointer(address: nat) returns (len: nat)
      requires Valid() && address <= 0xFFFF_FFFF_FFFF_FFFF && Avail() >= MAX_NUMERIC_SIZE
      modifies data
      ensures len == |Render(Pointer(address))| <= Avail() && data[..cur + len] == old(data[..cur]) + Render(Pointer(address))
    {
      ghost var was, hex := data[..cur], Digits(address, 16);
      PointerText(address);
      CopyIn(['0', 'x'], cur);
      var digits := PrintHex(cur + 2, address);
      len := digits + 2;
      assert was + ['0', 'x'] + hex == was + (['0', 'x'] + hex);
    }

    method FormatPointer(address: nat)
      requires Valid() && Safe(Written(), data.Length, Pointer(address))
      modifies this`cur, data
      ensures Valid() && Written() == Put(old(Written()), data.Length, Pointer(address))
    {
      if Avail() >= MAX_NUMERIC_SIZE {
        var len := PrintPointer(address);
        Add(len);
      }
    }

    /** One `<<`. */
    method StreamOne(item: Item) returns (r: Outcome<()>)
      requires Valid() && IsAddress(item)
      modifies this`cur, data
      ensures Valid() && r == if Safe(old(Written()), data.Length, item) then Ok(()) else Crash(Overrun)
      ensures r.Ok? ==> Written() == Put(old(Written()), data.Length, item)
    {
      r := Ok(());
      match item {
        case Integer(value) => r := FormatInteger(value);
        case Pointer(address) => FormatPointer(address);
        case Text(text) => Append(text);
      }
    }

    /** A whole chain of `<<`, which goes well exactly when every integer in it fits. */
    method Stream(items: seq<Item>) returns (r: Outcome<()>)
      requires Valid() && forall item :: item in items ==> IsAddress(item)
      modifies this`cur, data
      ensures Valid() && r == if AllSafe(old(Written()), data.Length, items) then Ok(()) else Crash(Overrun)
      ensures r.Ok? ==> Written() == PutAll(old(Written()), data.Length, items)
    {
      var i := 0;
      assert items[0..] == items;
      while i < |items|
        invariant i <= |items| && Valid()
        invariant AllSafe(Written(), data.Length, items[i..]) <==> AllSafe(old(Written()), data.Length, items)
        invariant PutAll(Written(), data.Length, items[i..]) == PutAll(old(Written()), data.Length, items)
      {
        PutNext(Written(), data.Length, items, i);
        r := StreamOne(items[i]);
        if r.Crash? {
          return;
        }
        i := i + 1;
      }
      r := Ok(());
    }
  }
}
