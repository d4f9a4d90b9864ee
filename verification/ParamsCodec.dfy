/**
  * A query's params: written into chunks on the page, copied into one allocation
  * and bound from it in the worker.
  */
module ParamsCodec {
  import opened Basics
  import opened Unicode
  import opened Wire

  const CHUNK_BYTES: nat := 0x10_0000

  /** A JavaScript number: `n === (n | 0)` for the first two. */
  datatype Num = Integer(n: int) | NegativeZero | Other(bits: seq<Byte>)

  datatype Value =
    | Nothing
    | Flag(on: bool)
    | Number(num: Num)
    | BigInt(n: int)
    | Str(units: seq<Unit>)
    | Bytes(bytes: seq<Byte>)

  predicate IsValue(v: Value)
  {
    match v
    case Number(Integer(n)) => -TWO31 <= n < TWO31
    case Number(Other(bits)) => |bits| == 8
    case _ => true
  }

  /** What SQLite is to be given for a value. */
  function CellOf(v: Value): Cell
  {
    match v
    case Nothing => Null
    case Flag(on) => Int32(if on then 1 else 0)
    case Number(Integer(n)) => Int32(n)
    case Number(NegativeZero) => Int32(0)
    case Number(Other(bits)) => Double(bits)
    case BigInt(n) => Int64(n)
    case Str(units) => Text(Encode(units))
    case Bytes(bytes) => Blob(bytes)
  }

  /** The bytes in use of the chunks, in order. */
  ghost function Concat(chunks: seq<array<Byte>>, used: seq<nat>): seq<Byte>
    requires |chunks| == |used| && forall i | 0 <= i < |chunks| :: used[i] <= chunks[i].Length
    reads set a | a in chunks
  {
    var n := |chunks|;
    if n == 0 then [] else Concat(chunks[..n - 1], used[..n - 1]) + chunks[n - 1][..used[n - 1]]
  }

  lemma {:induction false} ConcatSnoc(chunks: seq<array<Byte>>, used: seq<nat>, a: array<Byte>, n: nat)
    requires |chunks| == |used| && (forall i | 0 <= i < |chunks| :: used[i] <= chunks[i].Length) && n <= a.Length
    ensures Concat(chunks + [a], used + [n]) == Concat(chunks, used) + a[..n]
  {
    assert (chunks + [a])[..|chunks|] == chunks && (used + [n])[..|used|] == used;
  }

  /** `cells` and `marked` are the values written, now and at the mark. */
  class ParamsWriter {
    var rows: nat
    var count: nat
    var chunks: seq<array<Byte>>
    var used: seq<nat>
    var buf: array?<Byte>
    var off: nat
    var markChunks: nat
    var markOff: nat
    var markCount: nat
    var markBuf: array?<Byte>
    ghost var cells: seq<Cell>
    ghost var marked: seq<Cell>

    ghost function Buffers(): set<object>
      reads this`chunks, this`buf, this`markBuf
    {
      (set a | a in chunks) + (if buf == null then {} else {buf}) + (if markBuf == null then {} else {markBuf})
    }

    /** The buffer being filled is no chunk, and nothing at or before the mark is written again. */
    ghost predicate Shape()
      reads this`chunks, this`used, this`buf, this`off, this`markChunks, this`markOff, this`markBuf
    {
      && |chunks| == |used| && (forall i | 0 <= i < |chunks| :: used[i] <= chunks[i].Length)
      && (if buf == null then off == 0 else off <= buf.Length && buf !in chunks)
      && markChunks <= |chunks|
      && (if markBuf == null then markOff == 0 else markOff <= markBuf.Length && markBuf !in chunks[..markChunks])
      && (markBuf != null && markBuf == buf ==> markChunks == |chunks| && markOff <= off)
    }

    ghost function Contents(): seq<Byte>
      requires Shape()
      reads this`chunks, this`used, this`buf, this`off, this`markChunks, this`markOff, this`markBuf, Buffers()
    {
      Concat(chunks, used) + if buf == null then [] else buf[..off]
    }

    ghost function Marked(): seq<Byte>
      requires Shape()
      reads this`chunks, this`used, this`buf, this`off, this`markChunks, this`markOff, this`markBuf, Buffers()
    {
      Concat(chunks[..markChunks], used[..markChunks]) + if markBuf == null then [] else markBuf[..markOff]
    }

    ghost predicate Valid()
      reads this, Buffers()
    {
      && Shape()
      && Contents() == AllWritten(cells) && count == |cells|
      && Marked() == AllWritten(marked) && markCount == |marked|
    }

    constructor (initial: Option<nat>)
      ensures Valid() && cells == marked == [] && rows == 0
      ensures forall b | b in Buffers() :: fresh(b)
    {
      rows, count, chunks, used, off := 0, 0, [], [], 0;
      markChunks, markOff, markCount, markBuf := 0, 0, 0, null;
      cells, marked := [], [];
      if initial.Some? { buf := new Byte[initial.value]; } else { buf := null; }
    }

    /** A fresh buffer in place of one that holds nothing. */
    method Open(size: nat)
      requires Shape() && off == 0
      modifies this`buf
      ensures Shape() && Contents() == old(Contents()) && Marked() == old(Marked())
      ensures buf != null && fresh(buf) && buf.Length == size && fresh(Buffers() - old(Buffers()))
    {
      buf := new Byte[size];
    }

    /** The buffer being filled becomes a chunk. */
    method Push()
      requires Shape() && buf != null
      modifies this`chunks, this`used, this`buf, this`off
      ensures Shape() && Contents() == old(Contents()) && Marked() == old(Marked())
      ensures buf == null && off == 0 && Buffers() <= old(Buffers())
    {
      ConcatSnoc(chunks, used, buf, off);
      assert (chunks + [buf])[..markChunks] == chunks[..markChunks] && (used + [off])[..markChunks] == used[..markChunks];
      chunks, used := chunks + [buf], used + [off];
      buf, off := null, 0;
    }

    /** Room for `n` more bytes, in a new chunk if this one cannot hold them. */
    method Room(n: nat)
      requires Shape()
      modifies this`chunks, this`used, this`buf, this`off
      ensures Shape() && Contents() == old(Contents()) && Marked() == old(Marked())
      ensures buf != null && off + n <= buf.Length && (buf == old(buf) || fresh(buf)) && fresh(Buffers() - old(Buffers()))
    {
      if buf != null && off + n <= buf.Length { return; }
      if buf != null && off > 0 { Push(); }
      Open(if CHUNK_BYTES > n then CHUNK_BYTES else n);
    }

    /** The next bytes of the buffer. */
    method Put(b: seq<Byte>)
      requires Shape() && buf != null && off + |b| <= buf.Length
      modifies this`off, buf
      ensures Shape() && Contents() == old(Contents()) + b && Marked() == old(Marked())
    {
      forall i | 0 <= i < |b| {
        buf[off + i] := b[i];
      }
      off := off + |b|;
      assert buf[..off] == old(buf[..off]) + b;
      FrameKeepsMark();
    }

    twostate lemma FrameKeepsMark()
      requires old(Shape()) && Shape() && markBuf == old(markBuf) && chunks == old(chunks) && used == old(used)
      requires markChunks == old(markChunks) && markOff == old(markOff) && buf == old(buf)
      requires unchanged(set a | a in chunks)
      requires buf != null && markBuf != null && markBuf == buf ==> buf[..markOff] == old(buf[..markOff])
      requires markBuf != null && markBuf != buf ==> unchanged(markBuf)
      ensures Marked() == old(Marked()) && Concat(chunks, used) == old(Concat(chunks, used))
    {
    }

    method Mark()
      requires Valid()
      modifies this`markChunks, this`markOff, this`markCount, this`markBuf, this`marked
      ensures Valid() && marked == cells && cells == old(cells)
    {
      markChunks, markOff, markCount, markBuf := |chunks|, off, count, buf;
      marked := cells;
      assert chunks[..markChunks] == chunks && used[..markChunks] == used;
    }

    /** Everything written since the mark is gone, whatever chunks it filled; the rows counted are not. */
    method Rollback()
      requires Valid()
      modifies this`chunks, this`used, this`buf, this`off, this`count, this`cells
      ensures Valid() && cells == marked == old(marked) && Contents() == old(Marked())
    {
      chunks, used := chunks[..markChunks], used[..markChunks];
      buf, off, count := markBuf, markOff, markCount;
      cells := marked;
      assert chunks[..markChunks] == chunks && used[..markChunks] == used;
    }

    method EndRow()
      requires Valid()
      modifies this`rows
      ensures Valid() && rows == old(rows) + 1
    {
      rows := rows + 1;
    }

    /** A tag alone, or with a body of fixed size, where there is room for both. */
    method PutTagged(tag: Byte, body: seq<Byte>)
      requires Shape() && buf != null && off + 1 + |body| <= buf.Length
      modifies this`off, buf
      ensures Shape() && Contents() == old(Contents()) + ([tag] + body) && Marked() == old(Marked())
    {
      Put([tag]);
      Put(body);
      assert old(Contents()) + [tag] + body == old(Contents()) + ([tag] + body);
    }

    /** A value of fixed size, in the room it needs. */
    method WriteFixed(tag: Byte, body: seq<Byte>)
      requires Shape()
      modifies this`chunks, this`used, this`buf, this`off, Buffers()
      ensures Shape() && Contents() == old(Contents()) + ([tag] + body) && Marked() == old(Marked())
      ensures fresh(Buffers() - old(Buffers()))
    {
      Room(1 + |body|);
      PutTagged(tag, body);
    }

    /** A number: four bytes when it is a 32-bit integer, and eight when not. */
    method WriteNumber(num: Num)
      requires Shape() && IsValue(Number(num))
      modifies this`chunks, this`used, this`buf, this`off, Buffers()
      ensures Shape() && Contents() == old(Contents()) + Written(CellOf(Number(num))) && Marked() == old(Marked())
      ensures fresh(Buffers() - old(Buffers()))
    {
      match num {
        case Integer(n) => WriteFixed(1, SignedLe(n, 4));
        case NegativeZero => WriteFixed(1, SignedLe(0, 4));
        case Other(bits) => WriteFixed(2, bits);
      }
    }

    /** A text or a blob behind its length, in the room asked for beforehand. */
    method WriteSized(tag: Byte, room: nat, body: seq<Byte>)
      requires Shape() && |body| <= room
      modifies this`chunks, this`used, this`buf, this`off, Buffers()
      ensures Shape() && Contents() == old(Contents()) + ([tag] + Sized(body)) && Marked() == old(Marked())
      ensures fresh(Buffers() - old(Buffers()))
    {
      Room(5 + room);
      PutTagged(tag, Sized(body));
    }

    method WriteText(units: seq<Unit>)
      requires Shape()
      modifies this`chunks, this`used, this`buf, this`off, Buffers()
      ensures Shape() && Contents() == old(Contents()) + Written(Text(Encode(units))) && Marked() == old(Marked())
      ensures fresh(Buffers() - old(Buffers()))
    {
      EncodeFits(units);
      WriteSized(3, 3 * |units|, Encode(units));
    }

    /** The bytes of one value. */
    method WriteBytes(v: Value)
      requires Shape() && IsValue(v)
      modifies this`chunks, this`used, this`buf, this`off, Buffers()
      ensures Shape() && Contents() == old(Contents()) + Written(CellOf(v)) && Marked() == old(Marked())
      ensures fresh(Buffers() - old(Buffers()))
    {
      match v {
        case Nothing => WriteFixed(0, []);
        case Flag(on) => WriteNumber(Integer(if on then 1 else 0));
        case Number(num) => WriteNumber(num);
        case BigInt(n) => WriteFixed(5, SignedLe(n, 8));
        case Str(units) => WriteText(units);
        case Bytes(bytes) => WriteSized(4, |bytes|, bytes);
      }
    }

    method Write(v: Value)
      requires Valid() && IsValue(v)
      modifies this`chunks, this`used, this`buf, this`off, this`count, this`cells, Buffers()
      ensures Valid() && cells == old(cells) + [CellOf(v)] && marked == old(marked)
      ensures fresh(Buffers() - old(Buffers()))
    {
      ghost var c := CellOf(v);
      AllWrittenSnoc(cells, c);
      WriteBytes(v);
      assert Contents() == AllWritten(cells + [c]);
      count, cells := count + 1, cells + [c];
    }

    /** The block to send: what is decoded from its chunks, put together, are the values written. */
    method Finish() returns (block: seq<array<Byte>>, sizes: seq<nat>)
      requires Valid()
      modifies this`chunks, this`used, this`buf, this`off
      ensures |block| == |sizes| && forall i | 0 <= i < |block| :: sizes[i] <= block[i].Length
      ensures Concat(block, sizes) == AllWritten(cells) && count == |cells|
    {
      if buf != null { Push(); }
      block, sizes := chunks, used;
    }
  }

  // -------------------------------------------------------------------- binding

  datatype Bound = Ok(cells: seq<Cell>) | UnknownTag(tag: Byte) | Truncated

  function Sum(used: seq<nat>): nat { if used == [] then 0 else Sum(used[..|used| - 1]) + used[|used| - 1] }

  method CopyInto(heap: array<Byte>, at: nat, chunk: array<Byte>, n: nat)
    requires at + n <= heap.Length && n <= chunk.Length && heap != chunk
    modifies heap
    ensures heap[..at + n] == old(heap[..at]) + chunk[..n]
  {
    forall i | 0 <= i < n {
      heap[at + i] := chunk[i];
    }
  }

  method Total(used: seq<nat>) returns (total: nat)
    ensures total == Sum(used)
  {
    total := 0;
    for k := 0 to |used|
      invariant total == Sum(used[..k])
    {
      assert used[..k + 1][..k] == used[..k];
      total := total + used[k];
    }
    assert used[..|used|] == used;
  }

  function Flat(parts: seq<seq<Byte>>): seq<Byte>
  {
    if parts == [] then [] else Flat(parts[..|parts| - 1]) + parts[|parts| - 1]
  }

  ghost function Parts(chunks: seq<array<Byte>>, used: seq<nat>): (r: seq<seq<Byte>>)
    requires |chunks| == |used| && forall i | 0 <= i < |chunks| :: used[i] <= chunks[i].Length
    reads set a | a in chunks
    ensures |r| == |chunks| && forall i | 0 <= i < |chunks| :: r[i] == chunks[i][..used[i]]
  {
    var n := |chunks|;
    if n == 0 then [] else Parts(chunks[..n - 1], used[..n - 1]) + [chunks[n - 1][..used[n - 1]]]
  }

  lemma {:induction false} ConcatIsFlat(chunks: seq<array<Byte>>, used: seq<nat>, parts: seq<seq<Byte>>)
    requires |chunks| == |used| == |parts|
    requires forall i | 0 <= i < |chunks| :: used[i] <= chunks[i].Length && chunks[i][..used[i]] == parts[i]
    ensures Concat(chunks, used) == Flat(parts)
  {
    var n := |chunks|;
    if n > 0 { ConcatIsFlat(chunks[..n - 1], used[..n - 1], parts[..n - 1]); }
  }

  lemma {:induction false} FlatSplit(parts: seq<seq<Byte>>, k: nat)
    requires k <= |parts|
    ensures |Flat(parts[..k])| <= |Flat(parts)|
    ensures k < |parts| ==> Flat(parts[..k + 1]) == Flat(parts[..k]) + parts[k]
    decreases |parts| - k
  {
    if k < |parts| {
      assert parts[..k + 1][..k] == parts[..k];
      FlatSplit(parts, k + 1);
    } else {
      assert parts[..k] == parts;
    }
  }

  lemma {:induction false} SumIsLength(used: seq<nat>, parts: seq<seq<Byte>>)
    requires |used| == |parts| && forall i | 0 <= i < |used| :: |parts[i]| == used[i]
    ensures Sum(used) == |Flat(parts)|
  {
    var n := |used|;
    if n > 0 { SumIsLength(used[..n - 1], parts[..n - 1]); }
  }

  method CopyAll(heap: array<Byte>, chunks: seq<array<Byte>>, used: seq<nat>, ghost parts: seq<seq<Byte>>)
    requires |chunks| == |used| == |parts| && heap !in chunks
    requires forall i | 0 <= i < |chunks| :: used[i] <= chunks[i].Length && chunks[i][..used[i]] == parts[i]
    requires |Flat(parts)| <= heap.Length
    modifies heap
    ensures heap[..|Flat(parts)|] == Flat(parts)
  {
    var at := 0;
    for k := 0 to |chunks|
      invariant at == |Flat(parts[..k])| <= heap.Length && heap[..at] == Flat(parts[..k])
      invariant forall i | 0 <= i < |chunks| :: chunks[i][..used[i]] == parts[i]
    {
      FlatSplit(parts, k);
      FlatSplit(parts, k + 1);
      CopyInto(heap, at, chunks[k], used[k]);
      at := at + used[k];
    }
    assert parts[..|chunks|] == parts;
  }

  /** The chunks, put together in one allocation. */
  method CopyChunks(chunks: seq<array<Byte>>, used: seq<nat>) returns (heap: array<Byte>, total: nat)
    requires |chunks| == |used| && forall i | 0 <= i < |chunks| :: used[i] <= chunks[i].Length
    ensures fresh(heap) && total <= heap.Length && heap[..total] == Concat(chunks, used)
  {
    ghost var parts := Parts(chunks, used);
    ConcatIsFlat(chunks, used, parts);
    SumIsLength(used, parts);
    total := Total(used);
    heap := new Byte[if total > 1 then total else 1];
    CopyAll(heap, chunks, used, parts);
  }

  /** The value at the start of the bytes, and where it ends. */
  method ReadOne(b: seq<Byte>) returns (r: Option<(Cell, nat)>)
    ensures r == Read(b)
  {
    if b == [] { return None; }
    match b[0] {
      case 0 => return Some((Null, 1));
      case 1 =>
        if |b| < 5 { return None; }
        return Some((Int32(Signed(FromLe(b[1..5]), TWO32)), 5));
      case 2 =>
        if |b| < 9 { return None; }
        return Some((Double(b[1..9]), 9));
      case 5 =>
        if |b| < 9 { return None; }
        return Some((Int64(Signed(FromLe(b[1..9]), TWO64)), 9));
      case tag =>
        if (tag != 3 && tag != 4) || |b| < 5 { return None; }
        var n := FromLe(b[1..5]);
        if |b| < 5 + n { return None; }
        return Some((if tag == 3 then Text(b[5..5 + n]) else Blob(b[5..5 + n]), 5 + n));
    }
  }

  /**
    * Binds as many values as the statement has parameters, in order, and refuses
    * a tag it does not know. (No value ever ends past the block it was written in.)
    */
  method BindBlock(chunks: seq<array<Byte>>, used: seq<nat>, count: nat, parameters: nat) returns (r: Bound)
    requires |chunks| == |used| && forall i | 0 <= i < |chunks| :: used[i] <= chunks[i].Length
    ensures var bound := if count < parameters then count else parameters;
            var read := ReadMany(Concat(chunks, used), bound);
            if read.Some? then r == Ok(read.value.0) else !r.Ok?
  {
    var heap, total := CopyChunks(chunks, used);
    r := BindAll(heap, total, if count < parameters then count else parameters);
  }

  /** The loop over the values: each is bound from where the one before it ended. */
  method BindAll(heap: array<Byte>, total: nat, bound: nat) returns (r: Bound)
    requires total <= heap.Length
    ensures var read := ReadMany(heap[..total], bound); if read.Some? then r == Ok(read.value.0) else !r.Ok?
  {
    ghost var all := heap[..total];
    var off, i, cells := 0, 0, [];
    while i < bound
      invariant 0 <= i <= bound && 0 <= off <= total
      invariant Continues(all, cells, heap[off..total], bound - i, bound)
    {
      var rest := heap[off..total];
      var one := ReadOne(rest);
      ContinuesOne(all, cells, rest, bound - i, bound);
      if one == None {
        return if off < total && heap[off] > 5 then UnknownTag(heap[off]) else Truncated;
      }
      assert rest[one.value.1..] == heap[off + one.value.1..total];
      cells, off, i := cells + [one.value.0], off + one.value.1, i + 1;
    }
    r := Ok(cells);
  }

  /** Reading all of it is what was read, and reading the rest. */
  predicate Continues(all: seq<Byte>, done: seq<Cell>, rest: seq<Byte>, left: nat, n: nat)
  {
    var a, b := ReadMany(all, n), ReadMany(rest, left);
    if b == None then a == None else a.Some? && a.value.0 == done + b.value.0
  }

  lemma ContinuesOne(all: seq<Byte>, done: seq<Cell>, rest: seq<Byte>, left: nat, n: nat)
    requires left > 0 && Continues(all, done, rest, left, n)
    ensures Read(rest) == None ==> ReadMany(all, n) == None
    ensures Read(rest).Some? ==>
              Continues(all, done + [Read(rest).value.0], rest[Read(rest).value.1..], left - 1, n)
  {
    var one := Read(rest);
    if one.Some? {
      var more := ReadMany(rest[one.value.1..], left - 1);
      if more.Some? { assert done + ([one.value.0] + more.value.0) == (done + [one.value.0]) + more.value.0; }
    }
  }

  /** The params bound are the values written, as many as the statement takes, whatever chunks carried them. */
  lemma BoundAreWritten(cells: seq<Cell>, parameters: nat)
    requires forall c | c in cells :: Fits(c)
    ensures var bound := if |cells| < parameters then |cells| else parameters;
            var read := ReadMany(AllWritten(cells), bound);
            read.Some? && read.value.0 == cells[..bound]
  {
    var bound := if |cells| < parameters then |cells| else parameters;
    ManyRoundTrip(cells, bound, []);
    assert AllWritten(cells) + [] == AllWritten(cells);
  }

  /** What the client lets through: it refuses a bigint outside 64 bits. */
  predicate IsBindable(v: Value) { v.BigInt? ==> -TWO63 <= v.n < TWO63 }

  /** A text's or a blob's length fits its field; everything else has none. */
  predicate LengthFits(v: Value)
  {
    match v
    case Str(units) => |Encode(units)| < TWO32
    case Bytes(bytes) => |bytes| < TWO32
    case _ => true
  }

  /**
    * The worker reads a value back as it was given if and only if the client lets it
    * through and its length fits; any other comes back as another value or not at all.
    */
  lemma ReadBackIff(v: Value, rest: seq<Byte>)
    requires IsValue(v)
    ensures Read(Written(CellOf(v)) + rest).Some? && Read(Written(CellOf(v)) + rest).value.0 == CellOf(v) <==>
            IsBindable(v) && LengthFits(v)
  {
    ReadsBackIff(CellOf(v), rest);
  }

  /** What the client's refusal is for: 2^63 and the least 64-bit integer have the same bytes. */
  lemma TooBigComesBackNegative(rest: seq<Byte>)
    ensures Read(Written(CellOf(BigInt(TWO63))) + rest) == Some((Int64(-TWO63), 9))
  {
    Powers();
    assert Unsigned(TWO63, Power(8)) == Unsigned(-TWO63, Power(8)) == TWO63;
    assert SignedLe(TWO63, 8) == SignedLe(-TWO63, 8);
    ReadWritten(Int64(-TWO63), rest);
  }

  // ----------------------------------------------------------------- end to end

  function CellsOf(values: seq<Value>): (r: seq<Cell>)
    ensures |r| == |values|
    ensures forall i | 0 <= i < |values| :: r[i] == CellOf(values[i])
  {
    if values == [] then [] else CellsOf(values[..|values| - 1]) + [CellOf(values[|values| - 1])]
  }

  /** How many bytes a value may take: the first chunk has that size. */
  function WorstCase(v: Value): nat
  {
    match v
    case Str(units) => 5 + 3 * |units|
    case Bytes(bytes) => 5 + |bytes|
    case _ => 9
  }

  method BlockSize(values: seq<Value>) returns (bytes: nat)
    ensures bytes >= 0
  {
    bytes := 0;
    for i := 0 to |values| {
      bytes := bytes + WorstCase(values[i]);
    }
  }

  method WriteNext(w: ParamsWriter, values: seq<Value>, i: nat)
    requires i < |values| && w.Valid() && w.cells == CellsOf(values[..i]) && IsValue(values[i])
    modifies w, w.Buffers()
    ensures w.Valid() && w.cells == CellsOf(values[..i + 1])
    ensures fresh(w.Buffers() - old(w.Buffers()))
  {
    CellsOfNext(values, i);
    w.Write(values[i]);
  }

  method WriteAll(w: ParamsWriter, values: seq<Value>)
    requires w.Valid() && w.cells == [] && forall v | v in values :: IsValue(v)
    modifies w, w.Buffers()
    ensures w.Valid() && w.cells == CellsOf(values)
  {
    for i := 0 to |values|
      invariant w.Valid() && w.cells == CellsOf(values[..i])
      invariant fresh(w.Buffers() - old(w.Buffers()))
    {
      assert values[i] in values;
      WriteNext(w, values, i);
    }
    assert values[..|values|] == values;
  }

  lemma CellsOfNext(values: seq<Value>, i: nat)
    requires i < |values|
    ensures CellsOf(values[..i + 1]) == CellsOf(values[..i]) + [CellOf(values[i])]
  {
    assert values[..i + 1][..i] == values[..i];
  }

  /** One query's params, as the block to send. */
  method EncodeParams(values: seq<Value>) returns (block: seq<array<Byte>>, sizes: seq<nat>, count: nat)
    requires forall v | v in values :: IsValue(v)
    ensures |block| == |sizes| && forall i | 0 <= i < |block| :: sizes[i] <= block[i].Length
    ensures Concat(block, sizes) == AllWritten(CellsOf(values)) && count == |values|
  {
    var bytes := BlockSize(values);
    var w := new ParamsWriter(if bytes > CHUNK_BYTES then None else Some(if bytes > 16 then bytes else 16));
    WriteAll(w, values);
    count := w.count;
    block, sizes := w.Finish();
  }

  lemma {:induction false} CarriedFit(values: seq<Value>)
    requires forall v | v in values :: IsValue(v) && IsBindable(v) && LengthFits(v)
    ensures forall c | c in CellsOf(values) :: Fits(c)
  {
    forall i | 0 <= i < |values|
      ensures Fits(CellsOf(values)[i])
    {
      assert values[i] in values;
    }
  }

  /** What SQLite has to be given for a value, kind by kind. */
  predicate GivenAs(v: Value, c: Cell)
  {
    match v
    case Nothing => c.Null?
    case Flag(on) => c.Int32? && (if on then c.n == 1 else c.n == 0)
    case Number(Integer(n)) => c.Int32? && c.n == n
    case Number(NegativeZero) => c.Int32? && c.n == 0
    case Number(Other(bits)) => c.Double? && c.bits == bits
    case BigInt(n) => c.Int64? && c.n == n
    case Bytes(bytes) => c.Blob? && c.bytes == bytes
    case Str(units) =>
      // the text, but for lone surrogates
      && c.Text? && WellFormed(c.utf8) && |Units(Scalars(c.utf8))| == |units|
      && forall i | 0 <= i < |units| :: Units(Scalars(c.utf8))[i] == if Lone(units, i) then 0xFFFD else units[i]
  }

  lemma CellIsGiven(v: Value)
    ensures GivenAs(v, CellOf(v))
  {
    if v.Str? {
      EncodedDecodes(v.units);
      UnitsPaired(v.units);
      forall i | 0 <= i < |v.units|
        ensures Units(Scalars(Encode(v.units)))[i] == if Lone(v.units, i) then 0xFFFD else v.units[i]
      {
        LoneIsReplaced(v.units, i);
      }
    }
  }

  /** From the values given to the values bound: each as it was given, as many as the statement has parameters. */
  method ParamsAreBound(values: seq<Value>, parameters: nat) returns (r: Bound)
    requires forall v | v in values :: IsValue(v) && IsBindable(v) && LengthFits(v)
    ensures r.Ok? && |r.cells| == if |values| < parameters then |values| else parameters
    ensures forall i | 0 <= i < |r.cells| :: GivenAs(values[i], r.cells[i])
    ensures r == Ok(CellsOf(values)[..if |values| < parameters then |values| else parameters])
  {
    forall i | 0 <= i < |values|
      ensures GivenAs(values[i], CellsOf(values)[i])
    {
      CellIsGiven(values[i]);
    }
    var block, sizes, count := EncodeParams(values);
    CarriedFit(values);
    BoundAreWritten(CellsOf(values), parameters);
    r := BindBlock(block, sizes, count, parameters);
  }
}
