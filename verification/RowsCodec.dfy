/**
  * Result rows: written by the worker into one growing buffer, straight from
  * SQLite's columns, and decoded on the page into objects.
  */
module RowsCodec {
  import opened Basics
  import opened Unicode
  import opened Wire
  import opened RowObjects

  const MIN_ROW_BYTES: nat := 4096

  /**
    * A column of the current row, as SQLite gives it: an integer is the two
    * 32-bit halves its C interface returns, and a text whose pointer is null is
    * an allocation that failed.
    */
  datatype Column =
    | IntegerColumn(lo: int, hi: int)
    | FloatColumn(bits: seq<Byte>)
    | TextColumn(utf8: Option<seq<Byte>>)
    | BlobColumn(bytes: seq<Byte>)
    | NullColumn

  predicate IsColumn(c: Column)
  {
    match c
    case IntegerColumn(lo, hi) => -TWO31 <= lo < TWO31 && -TWO31 <= hi < TWO31
    case FloatColumn(bits) => |bits| == 8
    case TextColumn(utf8) => utf8.Some? ==> |utf8.value| < TWO32
    case BlobColumn(bytes) => |bytes| < TWO32
    case NullColumn => true
  }

  /** The integer the two halves make: the low one without its sign. */
  function Joint(lo: int, hi: int): int { hi * TWO32 + lo % TWO32 }

  /** What the row holds, whatever the tags. */
  function CellOf(c: Column): Cell
  {
    match c
    case IntegerColumn(lo, hi) => if -TWO31 <= Joint(lo, hi) < TWO31 then Int32(Joint(lo, hi)) else Int64(Joint(lo, hi))
    case FloatColumn(bits) => Double(bits)
    case TextColumn(utf8) => if utf8.Some? then Text(utf8.value) else Null
    case BlobColumn(bytes) => Blob(bytes)
    case NullColumn => Null
  }

  function CellsOf(columns: seq<Column>): seq<Cell>
  {
    if columns == [] then [] else CellsOf(columns[..|columns| - 1]) + [CellOf(columns[|columns| - 1])]
  }

  /** `lo >> 31`: the sign of the low half, in every bit. */
  function SignOf(lo: int): int { if lo < 0 then -1 else 0 }

  /** The high half repeats the low one's sign exactly when 32 bits are enough. */
  lemma HalvesFit(lo: int, hi: int)
    requires -TWO31 <= lo < TWO31 && -TWO31 <= hi < TWO31
    ensures hi == SignOf(lo) <==> -TWO31 <= Joint(lo, hi) < TWO31
    ensures hi == SignOf(lo) ==> Joint(lo, hi) == lo
    ensures -TWO63 <= Joint(lo, hi) < TWO63
  {
  }

  lemma LowByte(n: nat, q: nat)
    ensures (n + 256 * q) % 256 == n % 256 && (n + 256 * q) / 256 == n / 256 + q
  {
  }

  lemma {:induction false} PowerTimes(k: nat, m: nat)
    ensures Power(k) * m >= 0 && Power(k + 1) * m == 256 * (Power(k) * m)
  {
    assert Power(k + 1) == 256 * Power(k);
  }

  lemma {:induction false} LeJoin(n: nat, k: nat, m: nat, j: nat)
    requires n < Power(k)
    ensures Power(k) * m >= 0 && Le(n + Power(k) * m, k + j) == Le(n, k) + Le(m, j)
  {
    if k == 0 {
      assert n == 0 && Power(0) * m == m && Le(n, 0) == [];
    } else {
      PowerTimes(k - 1, m);
      var q := Power(k - 1) * m;
      LowByte(n, q);
      LeJoin(n / 256, k - 1, m, j);
      var low, rest := [n % 256], Le(n / 256, k - 1);
      assert Le(n + 256 * q, k + j) == low + Le(n / 256 + q, k - 1 + j);
      assert low + (rest + Le(m, j)) == (low + rest) + Le(m, j);
    }
  }

  /** The two halves written one after the other are the 64-bit integer's bytes. */
  lemma HalvesWritten(lo: int, hi: int)
    requires -TWO31 <= lo < TWO31 && -TWO31 <= hi < TWO31
    ensures SignedLe(lo, 4) + SignedLe(hi, 4) == SignedLe(Joint(lo, hi), 8)
  {
    Powers();
    JointUnsigned(lo, hi);
    LeJoin(Unsigned(lo, TWO32), 4, Unsigned(hi, TWO32), 4);
  }

  lemma JointUnsigned(lo: int, hi: int)
    requires -TWO31 <= lo < TWO31 && -TWO31 <= hi < TWO31
    ensures Unsigned(Joint(lo, hi), TWO64) == Unsigned(lo, TWO32) + TWO32 * Unsigned(hi, TWO32)
  {
    assert Unsigned(hi, TWO32) == if hi < 0 then hi + TWO32 else hi;
  }

  // ------------------------------------------------------------------ the writer

  /** The buffer only ever holds the bytes written so far, whatever its size. */
  class RowWriter {
    var rows: nat
    var buffer: array<Byte>
    var off: nat
    ghost var cells: seq<Cell>

    ghost predicate Shape()
      reads this`buffer, this`off
    {
      0 < buffer.Length && off <= buffer.Length
    }

    ghost function Contents(): seq<Byte>
      requires Shape()
      reads this`buffer, this`off, buffer
    {
      buffer[..off]
    }

    ghost predicate Valid()
      reads this, buffer
    {
      Shape() && Contents() == AllWritten(cells)
    }

    constructor (initial: nat)
      ensures Valid() && fresh(buffer) && cells == [] && rows == 0
    {
      rows, off, cells := 0, 0, [];
      buffer := new Byte[if MIN_ROW_BYTES > initial then MIN_ROW_BYTES else initial];
    }

    /** Room for `n` more bytes: the buffer doubles until it holds them, and keeps what it has. */
    method Room(n: nat)
      requires Shape()
      modifies this`buffer
      ensures Shape() && Contents() == old(Contents()) && off + n <= buffer.Length
      ensures buffer == old(buffer) || fresh(buffer)
    {
      var need := off + n;
      if need <= buffer.Length { return; }
      var size := buffer.Length * 2;
      while size < need
        invariant size > buffer.Length
        decreases need - size
      {
        size := size * 2;
      }
      var next := new Byte[size];
      forall i | 0 <= i < off {
        next[i] := buffer[i];
      }
      buffer := next;
    }

    method Put(b: seq<Byte>)
      requires Shape() && off + |b| <= buffer.Length
      modifies this`off, buffer
      ensures Shape() && Contents() == old(Contents()) + b
    {
      forall i | 0 <= i < |b| {
        buffer[off + i] := b[i];
      }
      off := off + |b|;
    }

    method PutTagged(tag: Byte, body: seq<Byte>)
      requires Shape()
      modifies this`off, this`buffer, buffer
      ensures Shape() && Contents() == old(Contents()) + ([tag] + body)
      ensures buffer == old(buffer) || fresh(buffer)
    {
      Room(1 + |body|);
      Put([tag]);
      Put(body);
      assert old(Contents()) + [tag] + body == old(Contents()) + ([tag] + body);
    }

    method WriteInteger(lo: int, hi: int)
      requires Shape() && IsColumn(IntegerColumn(lo, hi))
      modifies this`off, this`buffer, buffer
      ensures Shape() && Contents() == old(Contents()) + Written(CellOf(IntegerColumn(lo, hi)))
      ensures buffer == old(buffer) || fresh(buffer)
    {
      HalvesFit(lo, hi);
      HalvesWritten(lo, hi);
      if hi == SignOf(lo) {
        PutTagged(1, SignedLe(lo, 4));
      } else {
        PutTagged(5, SignedLe(lo, 4) + SignedLe(hi, 4));
      }
    }

    method WriteColumn(c: Column)
      requires Shape() && IsColumn(c)
      modifies this`off, this`buffer, buffer
      ensures Shape() && Contents() == old(Contents()) + Written(CellOf(c))
      ensures buffer == old(buffer) || fresh(buffer)
    {
      match c {
        case IntegerColumn(lo, hi) => WriteInteger(lo, hi);
        case FloatColumn(bits) => PutTagged(2, bits);
        case TextColumn(utf8) => if utf8.Some? { PutTagged(3, Sized(utf8.value)); } else { PutTagged(0, []); }
        case BlobColumn(bytes) => PutTagged(4, Sized(bytes));
        case NullColumn => PutTagged(0, []);
      }
    }

    /** One row, column after column. */
    method Row(columns: seq<Column>)
      requires Valid() && forall c | c in columns :: IsColumn(c)
      modifies this`rows, this`off, this`buffer, this`cells, buffer
      ensures Valid() && cells == old(cells) + CellsOf(columns) && rows == old(rows) + 1
      ensures buffer == old(buffer) || fresh(buffer)
    {
      for i := 0 to |columns|
        invariant Valid() && cells == old(cells) + CellsOf(columns[..i]) && rows == old(rows)
        invariant buffer == old(buffer) || fresh(buffer)
      {
        assert columns[..i + 1][..i] == columns[..i];
        ghost var c := CellOf(columns[i]);
        AllWrittenSnoc(cells, c);
        WriteColumn(columns[i]);
        assert Contents() == AllWritten(cells + [c]);
        cells := cells + [c];
      }
      assert columns[..|columns|] == columns;
      rows := rows + 1;
    }
  }

  // ------------------------------------------------------------------- decoding

  const TWO53: int := 0x20_0000_0000_0000
  const HI_MAX: int := 2097151
  const HI_MIN: int := -2097152

  type Decoder = seq<Byte> -> seq<Unit>

  /** What is asked of the platform's decoder: well-formed text is decoded as RFC 3629 and RFC 2781 say. */
  ghost predicate Faithful(platform: Decoder)
  {
    forall b: seq<Byte> :: WellFormed(b) ==> platform(b) == Units(Scalars(b))
  }

  /** The value a cell becomes: every integer exact, and a Number exactly when it lies in [-2^53, 2^53). */
  function JSOf(c: Cell, platform: Decoder): JS
  {
    match c
    case Null => JNull
    case Int32(n) => JInteger(n)
    case Double(bits) => JDouble(bits)
    case Text(utf8) => JString(platform(utf8))
    case Blob(bytes) => JBytes(bytes)
    case Int64(n) => if -TWO53 <= n < TWO53 then JInteger(n) else JBigInt(n)
  }

  lemma {:induction false} FromLeSplit(a: seq<Byte>, b: seq<Byte>)
    ensures Power(|a|) * FromLe(b) >= 0 && FromLe(a + b) == FromLe(a) + Power(|a|) * FromLe(b)
  {
    if a == [] {
      assert a + b == b;
    } else {
      FromLeSplit(a[1..], b);
      assert (a + b)[1..] == a[1..] + b;
      var p, x := Power(|a| - 1), FromLe(b);
      assert Power(|a|) * x == 256 * (p * x);
    }
  }

  /** The 64-bit integer as the decoder sees it: two signed halves. */
  lemma HalvesRead(b: seq<Byte>)
    requires |b| == 8
    ensures var lo, hi := Signed(FromLe(b[..4]), TWO32), Signed(FromLe(b[4..]), TWO32);
            && -TWO31 <= lo < TWO31 && -TWO31 <= hi < TWO31
            && Signed(FromLe(b), TWO64) == Joint(lo, hi)
  {
    Powers();
    FromLeSplit(b[..4], b[4..]);
    assert b[..4] + b[4..] == b;
    FromLeBound(b[..4]);
    FromLeBound(b[4..]);
  }

  /**
    * The Number made from the halves: each step of the sum stays within 2^53, so
    * doubles compute it exactly; and the high half alone tells when it does.
    */
  lemma NumberIsExact(lo: int, hi: int)
    requires -TWO31 <= lo < TWO31 && -TWO31 <= hi < TWO31
    ensures (hi > HI_MAX || hi < HI_MIN) <==> !(-TWO53 <= Joint(lo, hi) < TWO53)
    ensures HI_MIN <= hi <= HI_MAX ==>
              && -TWO53 <= hi * TWO32 <= TWO53
              && -TWO53 <= hi * TWO32 + lo % TWO31 <= TWO53
              && hi * TWO32 + lo % TWO31 - (if lo < 0 then -TWO31 else 0) == Joint(lo, hi)
  {
  }

  method DecodeInt64(b: seq<Byte>) returns (v: JS)
    requires |b| == 8
    ensures forall platform: Decoder :: v == JSOf(Int64(Signed(FromLe(b), TWO64)), platform)
  {
    var lo, hi := Signed(FromLe(b[..4]), TWO32), Signed(FromLe(b[4..]), TWO32);
    HalvesRead(b);
    NumberIsExact(lo, hi);
    if hi > HI_MAX || hi < HI_MIN { return JBigInt(hi * TWO32 + lo % TWO32); }
    v := JInteger(hi * TWO32 + lo % TWO31 - (if lo < 0 then -TWO31 else 0));
  }

  /** A text, by the short decoder where it can: the platform's own answer, always. */
  method DecodeText(utf8: seq<Byte>, shortUnits: array<Unit>, platform: Decoder) returns (v: JS)
    requires Faithful(platform) && shortUnits.Length == SHORT_TEXT
    modifies shortUnits
    ensures v == JString(platform(utf8))
  {
    if |utf8| <= SHORT_TEXT {
      var short := ShortText(utf8, 0, |utf8|, shortUnits);
      assert utf8[0..|utf8|] == utf8;
      if short.Some? { return JString(short.value); }
    }
    v := JString(platform(utf8));
  }

  /** The value at the start of the bytes, and how many it takes. */
  method DecodeValue(b: seq<Byte>, shortUnits: array<Unit>, platform: Decoder) returns (v: JS, taken: nat)
    requires Faithful(platform) && shortUnits.Length == SHORT_TEXT && Read(b).Some?
    modifies shortUnits
    ensures v == JSOf(Read(b).value.0, platform) && taken == Read(b).value.1
  {
    match b[0] {
      case 0 => return JNull, 1;
      case 1 => return JInteger(Signed(FromLe(b[1..5]), TWO32)), 5;
      case 2 => return JDouble(b[1..9]), 9;
      case 5 =>
        v := DecodeInt64(b[1..9]);
        taken := 9;
      case tag =>
        var end := 5 + FromLe(b[1..5]);
        taken := end;
        if tag == 3 { v := DecodeText(b[5..end], shortUnits, platform); } else { v := JBytes(b[5..end]); }
    }
  }

  // ------------------------------------------------------------------- a block

  function JSAll(cells: seq<Cell>, platform: Decoder): (r: seq<JS>)
    ensures |r| == |cells|
    ensures forall i | 0 <= i < |cells| :: r[i] == JSOf(cells[i], platform)
  {
    if cells == [] then [] else JSAll(cells[..|cells| - 1], platform) + [JSOf(cells[|cells| - 1], platform)]
  }

  /** How one value is read; the loops below use nothing else of it. */
  type Reader = seq<Byte> -> Option<(Cell, nat)>

  ghost predicate Reads(reader: Reader)
  {
    forall b: seq<Byte> {:trigger Read(b)} :: reader(b) == Read(b)
  }

  /** The rows of a block, the bytes of each where those of the one before end; None when they end early. */
  function RowsIn(reader: Reader, b: seq<Byte>, n: nat, rows: nat): (r: Option<seq<seq<Cell>>>)
    ensures r.Some? ==> |r.value| == rows && forall i | 0 <= i < rows :: |r.value[i]| == n
  {
    if rows == 0 then Some([])
    else
      var first := Split(reader, b, n);
      if first == None then None
      else
        var more := RowsIn(reader, b[first.value.1..], n, rows - 1);
        if more == None then None else Some([first.value.0] + more.value)
  }

  /** One column: its value, assigned unless it is the first `__proto__`. */
  method DecodeColumn(numeric: string -> bool, row: Row, names: seq<string>, i: nat, b: seq<Byte>, shortUnits: array<Unit>, platform: Decoder, ghost reader: Reader)
    returns (next: Option<Row>, taken: nat)
    requires Faithful(platform) && shortUnits.Length == SHORT_TEXT && Reads(reader)
    requires i < |names| && Split(reader, b, |names| - i).Some?
    modifies shortUnits
    ensures var all := Split(reader, b, |names| - i).value;
            && taken <= |b| && Split(reader, b[taken..], |names| - i - 1) == Some((all.0[1..], all.1 - taken))
            && next == Assigned(numeric, row, names, i, JSOf(all.0[0], platform))
  {
    assert reader(b) == Read(b);
    var v;
    v, taken := DecodeValue(b, shortUnits, platform);
    next := if i != IndexOf(names, PROTO) then Assign(numeric, row, names[i], v) else Some(row);
  }

  /** What is left of a row once its first `i` columns were read. */
  predicate RowRest(reader: Reader, cells: seq<Cell>, size: nat, rest: seq<Byte>, i: nat, taken: nat)
  {
    i <= |cells| && taken <= size && Split(reader, rest, |cells| - i) == Some((cells[i..], size - taken))
  }

  lemma RowRestNext(reader: Reader, cells: seq<Cell>, size: nat, rest: seq<Byte>, i: nat, taken: nat, length: nat)
    requires RowRest(reader, cells, size, rest, i, taken) && i < |cells| && length <= |rest|
    requires var all := Split(reader, rest, |cells| - i).value;
             Split(reader, rest[length..], |cells| - i - 1) == Some((all.0[1..], all.1 - length))
    ensures RowRest(reader, cells, size, rest[length..], i + 1, taken + length)
    ensures Split(reader, rest, |cells| - i).value.0[0] == cells[i]
  {
    assert cells[i..][1..] == cells[i + 1..];
  }

  /** The loop over one row's columns; None when an assignment throws. */
  method DecodeColumns(
    numeric: string -> bool, names: seq<string>, b: seq<Byte>, shortUnits: array<Unit>, platform: Decoder,
    ghost reader: Reader, ghost cells: seq<Cell>, ghost size: nat, ghost values: seq<JS>)
    returns (row: Option<Row>, taken: nat)
    requires Faithful(platform) && shortUnits.Length == SHORT_TEXT && Reads(reader)
    requires |cells| == |values| == |names| && forall i | 0 <= i < |cells| :: values[i] == JSOf(cells[i], platform)
    requires RowRest(reader, cells, size, b, 0, 0)
    modifies shortUnits
    ensures row == Built(numeric, names, values, |names|) && (row.Some? ==> taken == size)
  {
    var soFar := Row(map[], Plain);
    taken := 0;
    var rest := b;
    for i := 0 to |names|
      invariant 0 <= taken && RowRest(reader, cells, size, rest, i, taken)
      invariant Built(numeric, names, values, i) == Some(soFar)
    {
      var next, length := DecodeColumn(numeric, soFar, names, i, rest, shortUnits, platform, reader);
      RowRestNext(reader, cells, size, rest, i, taken, length);
      if next == None {
        NoneStays(numeric, names, values, i + 1, |names|);
        return None, taken;
      }
      soFar, rest, taken := next.value, rest[length..], taken + length;
    }
    row := Some(soFar);
  }

  method DecodeRow(
    numeric: string -> bool, names: seq<string>, b: seq<Byte>, shortUnits: array<Unit>, platform: Decoder, ghost reader: Reader)
    returns (row: Option<Row>, taken: nat)
    requires Faithful(platform) && shortUnits.Length == SHORT_TEXT && Reads(reader)
    requires Split(reader, b, |names|).Some?
    modifies shortUnits
    ensures row == Built(numeric, names, JSAll(Split(reader, b, |names|).value.0, platform), |names|)
    ensures row.Some? ==> taken == Split(reader, b, |names|).value.1
  {
    ghost var cells, size := Split(reader, b, |names|).value.0, Split(reader, b, |names|).value.1;
    ghost var values := JSAll(cells, platform);
    row, taken := DecodeColumns(numeric, names, b, shortUnits, platform, reader, cells, size, values);
  }

  /** What is left of a block once its first `r` rows were read. */
  predicate BlockRest(reader: Reader, all: seq<seq<Cell>>, rest: seq<Byte>, n: nat, r: nat)
  {
    r <= |all| && RowsIn(reader, rest, n, |all| - r) == Some(all[r..])
  }

  lemma BlockRestNext(reader: Reader, all: seq<seq<Cell>>, rest: seq<Byte>, n: nat, r: nat)
    requires BlockRest(reader, all, rest, n, r) && r < |all|
    ensures Split(reader, rest, n).Some? && Split(reader, rest, n).value.0 == all[r]
    ensures BlockRest(reader, all, rest[Split(reader, rest, n).value.1..], n, r + 1)
  {
    assert all[r..][0] == all[r] && all[r..][1..] == all[r + 1..];
  }

  /** That object is made of that row, without an assignment that throws. */
  predicate IsRowOf(row: Row, numeric: string -> bool, names: seq<string>, cells: seq<Cell>, platform: Decoder)
    requires |cells| == |names|
  {
    Built(numeric, names, JSAll(cells, platform), |names|) == Some(row)
  }

  /** The objects of a block's rows; None once one of them throws. */
  ghost predicate AreRows(out: Option<seq<Row>>, numeric: string -> bool, names: seq<string>, all: seq<seq<Cell>>, platform: Decoder)
    requires forall r | 0 <= r < |all| :: |all[r]| == |names|
  {
    match out
    case None => exists r | 0 <= r < |all| :: Built(numeric, names, JSAll(all[r], platform), |names|) == None
    case Some(rows) =>
      && |rows| == |all|
      && forall r | 0 <= r < |all| :: IsRowOf(rows[r], numeric, names, all[r], platform)
  }

  /** The first objects are made, and the bytes of the other rows are left. */
  ghost predicate SoFar(
    objects: seq<Row>, numeric: string -> bool, names: seq<string>, all: seq<seq<Cell>>, platform: Decoder, reader: Reader, rest: seq<Byte>)
    requires forall r | 0 <= r < |all| :: |all[r]| == |names|
  {
    && BlockRest(reader, all, rest, |names|, |objects|)
    && forall k | 0 <= k < |objects| :: IsRowOf(objects[k], numeric, names, all[k], platform)
  }

  lemma SoFarNext(
    objects: seq<Row>, row: Row, numeric: string -> bool, names: seq<string>, all: seq<seq<Cell>>, platform: Decoder, reader: Reader,
    rest: seq<Byte>, taken: nat)
    requires forall r | 0 <= r < |all| :: |all[r]| == |names|
    requires |objects| < |all| && SoFar(objects, numeric, names, all, platform, reader, rest)
    requires IsRowOf(row, numeric, names, all[|objects|], platform)
    requires Split(reader, rest, |names|).Some? && taken == Split(reader, rest, |names|).value.1
    ensures SoFar(objects + [row], numeric, names, all, platform, reader, rest[taken..])
  {
    BlockRestNext(reader, all, rest, |names|, |objects|);
  }

  method DecodeAll(
    numeric: string -> bool, names: seq<string>, rows: nat, b: seq<Byte>, shortUnits: array<Unit>, platform: Decoder, ghost reader: Reader)
    returns (out: Option<seq<Row>>)
    requires Faithful(platform) && shortUnits.Length == SHORT_TEXT && Reads(reader)
    requires RowsIn(reader, b, |names|, rows).Some?
    modifies shortUnits
    ensures AreRows(out, numeric, names, RowsIn(reader, b, |names|, rows).value, platform)
  {
    ghost var all := RowsIn(reader, b, |names|, rows).value;
    var objects, rest := [], b;
    while |objects| < rows
      invariant |objects| <= rows && SoFar(objects, numeric, names, all, platform, reader, rest)
    {
      BlockRestNext(reader, all, rest, |names|, |objects|);
      var row, taken := DecodeRow(numeric, names, rest, shortUnits, platform, reader);
      if row == None {
        assert Built(numeric, names, JSAll(all[|objects|], platform), |names|) == None;
        return None;
      }
      SoFarNext(objects, row.value, numeric, names, all, platform, reader, rest, taken);
      objects, rest := objects + [row.value], rest[taken..];
    }
    out := Some(objects);
  }

  /** A block's rows as objects: its values in order, `names` by `names`. */
  method DecodeRows(numeric: string -> bool, names: seq<string>, rows: nat, b: seq<Byte>, shortUnits: array<Unit>, platform: Decoder)
    returns (out: Option<seq<Row>>)
    requires Faithful(platform) && shortUnits.Length == SHORT_TEXT && RowsIn(Read, b, |names|, rows).Some?
    modifies shortUnits
    ensures AreRows(out, numeric, names, RowsIn(Read, b, |names|, rows).value, platform)
  {
    out := DecodeAll(numeric, names, rows, b, shortUnits, platform, Read);
  }

  /** What a writer wrote row by row. */
  function TableCells(table: seq<seq<Column>>): seq<Cell>
  {
    if table == [] then [] else CellsOf(table[0]) + TableCells(table[1..])
  }

  lemma {:induction false} CellsFit(columns: seq<Column>)
    requires forall c | c in columns :: IsColumn(c)
    ensures |CellsOf(columns)| == |columns| && forall c | c in CellsOf(columns) :: Fits(c)
  {
    if columns != [] {
      CellsFit(columns[..|columns| - 1]);
      var last := columns[|columns| - 1];
      assert last in columns;
      if last.IntegerColumn? { HalvesFit(last.lo, last.hi); }
    }
  }

  lemma {:induction false} JoinedConcat<T>(code: T -> seq<Byte>, xs: seq<T>, ys: seq<T>)
    ensures Joined(code, xs + ys) == Joined(code, xs) + Joined(code, ys)
  {
    if xs == [] {
      assert xs + ys == ys;
    } else {
      JoinedConcat(code, xs[1..], ys);
      assert (xs + ys)[1..] == xs[1..] + ys;
    }
  }

  lemma FirstRow(cells: seq<Cell>, more: seq<Cell>)
    requires forall c | c in cells :: Fits(c)
    ensures var b := AllWritten(cells + more);
            && Split(Read, b, |cells|) == Some((cells, |AllWritten(cells)|))
            && |AllWritten(cells)| <= |b| && b[|AllWritten(cells)|..] == AllWritten(more)
  {
    JoinedConcat(Written, cells, more);
    ManyRoundTrip(cells, |cells|, AllWritten(more));
    assert cells[..|cells|] == cells;
  }

  lemma OneMoreRow(reader: Reader, b: seq<Byte>, n: nat, cells: seq<Cell>, size: nat, rows: nat)
    requires Split(reader, b, n) == Some((cells, size)) && size <= |b| && RowsIn(reader, b[size..], n, rows).Some?
    ensures RowsIn(reader, b, n, rows + 1) == Some([cells] + RowsIn(reader, b[size..], n, rows).value)
  {
  }

  /** Rows written one after the other are the rows decoded, unchanged, in order. */
  lemma {:induction false} RowsRoundTrip(table: seq<seq<Column>>, n: nat)
    requires forall row | row in table :: |row| == n && forall c | c in row :: IsColumn(c)
    ensures RowsIn(Read, AllWritten(TableCells(table)), n, |table|).Some?
    ensures var rows := RowsIn(Read, AllWritten(TableCells(table)), n, |table|).value;
            |rows| == |table| && forall r | 0 <= r < |table| :: rows[r] == CellsOf(table[r])
  {
    if table != [] {
      assert table[0] in table;
      CellsFit(table[0]);
      RowsRoundTrip(table[1..], n);
      var cells, more := CellsOf(table[0]), TableCells(table[1..]);
      FirstRow(cells, more);
      OneMoreRow(Read, AllWritten(cells + more), n, cells, |AllWritten(cells)|, |table| - 1);
    }
  }

  // ------------------------------------------------------------------ end to end

  function RowsOf(table: seq<seq<Column>>): (r: seq<seq<Cell>>)
    ensures |r| == |table|
    ensures forall i | 0 <= i < |table| :: r[i] == CellsOf(table[i]) && |r[i]| == |table[i]|
  {
    if table == [] then []
    else
      CellsAreAsMany(table[|table| - 1]);
      RowsOf(table[..|table| - 1]) + [CellsOf(table[|table| - 1])]
  }

  lemma {:induction false} CellsAreAsMany(columns: seq<Column>)
    ensures |CellsOf(columns)| == |columns|
  {
    if columns != [] { CellsAreAsMany(columns[..|columns| - 1]); }
  }

  lemma {:induction false} TableCellsNext(table: seq<seq<Column>>, i: nat)
    requires i < |table|
    ensures TableCells(table[..i + 1]) == TableCells(table[..i]) + CellsOf(table[i])
  {
    if i == 0 {
      assert table[..1][1..] == [] && table[..0] == [];
    } else {
      TableCellsNext(table[1..], i - 1);
      assert table[..i + 1][1..] == table[1..][..i] && table[..i][1..] == table[1..][..i - 1];
    }
  }

  method WriteTable(w: RowWriter, table: seq<seq<Column>>)
    requires w.Valid() && w.cells == [] && w.rows == 0
    requires forall row | row in table :: forall c | c in row :: IsColumn(c)
    modifies w, w.buffer
    ensures w.Valid() && w.cells == TableCells(table) && w.rows == |table|
  {
    for i := 0 to |table|
      invariant w.Valid() && w.cells == TableCells(table[..i]) && w.rows == i
      invariant w.buffer == old(w.buffer) || fresh(w.buffer)
    {
      assert table[i] in table;
      TableCellsNext(table, i);
      w.Row(table[i]);
    }
    assert table[..|table|] == table;
  }

  /**
    * What the page has to see of a column, kind by kind: an integer is its own number,
    * as a Number if and only if it lies in [-2^53, 2^53).
    */
  predicate ShownAs(c: Column, v: JS, platform: Decoder)
  {
    match c
    case IntegerColumn(lo, hi) =>
      var n := hi * 0x1_0000_0000 + (if lo < 0 then lo + 0x1_0000_0000 else lo);
      if -0x20_0000_0000_0000 <= n < 0x20_0000_0000_0000 then v.JInteger? && v.n == n else v.JBigInt? && v.n == n
    case FloatColumn(bits) => v.JDouble? && v.bits == bits
    case TextColumn(utf8) => if utf8.Some? then v.JString? && v.units == platform(utf8.value) else v.JNull?
    case BlobColumn(bytes) => v.JBytes? && v.bytes == bytes
    case NullColumn => v.JNull?
  }

  lemma ColumnIsShown(c: Column, platform: Decoder)
    requires IsColumn(c)
    ensures ShownAs(c, JSOf(CellOf(c), platform), platform)
  {
    if c.IntegerColumn? { assert c.lo % TWO32 == if c.lo < 0 then c.lo + TWO32 else c.lo; }
  }

  /** Every key of a decoded row shows the last column of its name. */
  ghost predicate RowShows(row: Row, names: seq<string>, columns: seq<Column>, platform: Decoder)
    requires |columns| == |names|
  {
    forall name | name in row.own ::
      LastOf(names, |names|, name) < |names| && ShownAs(columns[LastOf(names, |names|, name)], row.own[name], platform)
  }

  lemma RowIsShown(row: Row, numeric: string -> bool, names: seq<string>, columns: seq<Column>, cells: seq<Cell>, platform: Decoder)
    requires |columns| == |names| && cells == CellsOf(columns) && |cells| == |columns| && forall c | c in columns :: IsColumn(c)
    requires IsRowOf(row, numeric, names, cells, platform)
    ensures RowShows(row, names, columns, platform)
  {
    var values := JSAll(cells, platform);
    forall name | name in row.own
      ensures LastOf(names, |names|, name) < |names| && ShownAs(columns[LastOf(names, |names|, name)], row.own[name], platform)
    {
      KeyHoldsTheLast(numeric, names, values, |names|, name);
      var i := LastOf(names, |names|, name);
      CellAt(columns, i);
      assert columns[i] in columns;
      ColumnIsShown(columns[i], platform);
    }
  }

  lemma {:induction false} CellAt(columns: seq<Column>, i: nat)
    requires i < |columns|
    ensures |CellsOf(columns)| == |columns| && CellsOf(columns)[i] == CellOf(columns[i])
  {
    CellsAreAsMany(columns);
    if i < |columns| - 1 {
      CellsAreAsMany(columns[..|columns| - 1]);
      CellAt(columns[..|columns| - 1], i);
    } else {
      CellsAreAsMany(columns[..|columns| - 1]);
    }
  }

  /** From SQLite's columns to the page's objects: the rows that were stepped, in order, whatever the buffer's size. */
  method RowsAreDecoded(
    numeric: string -> bool, names: seq<string>, table: seq<seq<Column>>, initial: nat, shortUnits: array<Unit>, platform: Decoder)
    returns (out: Option<seq<Row>>)
    requires Faithful(platform) && shortUnits.Length == SHORT_TEXT
    requires forall row | row in table :: |row| == |names| && forall c | c in row :: IsColumn(c)
    modifies shortUnits
    ensures AreRows(out, numeric, names, RowsOf(table), platform)
    ensures out.Some? ==> |out.value| == |table| && forall r | 0 <= r < |table| :: RowShows(out.value[r], names, table[r], platform)
  {
    var w := new RowWriter(initial);
    WriteTable(w, table);
    RowsRoundTrip(table, |names|);
    assert RowsIn(Read, w.buffer[..w.off], |names|, w.rows).value == RowsOf(table);
    out := DecodeRows(numeric, names, w.rows, w.buffer[..w.off], shortUnits, platform);
    if out.Some? { TableIsShown(out.value, numeric, names, table, platform); }
  }

  lemma TableIsShown(rows: seq<Row>, numeric: string -> bool, names: seq<string>, table: seq<seq<Column>>, platform: Decoder)
    requires forall row | row in table :: |row| == |names| && forall c | c in row :: IsColumn(c)
    requires AreRows(Some(rows), numeric, names, RowsOf(table), platform)
    ensures |rows| == |table| && forall r | 0 <= r < |table| :: RowShows(rows[r], names, table[r], platform)
  {
    forall r | 0 <= r < |table|
      ensures RowShows(rows[r], names, table[r], platform)
    {
      assert table[r] in table && RowsOf(table)[r] == CellsOf(table[r]);
      RowIsShown(rows[r], numeric, names, table[r], RowsOf(table)[r], platform);
    }
  }
}
