/** The bit cursor and bit accumulator of `ims/amr_rtp.rs`, proved against bit strings. */
module BitIo {
  import opened Wrappers
  import opened Bits

  /** Reading one more bit of a field. */
  lemma {:induction false} ValueStep(bits: seq<bool>, start: nat, i: nat)
    requires start + i < |bits|
    ensures Value(bits[start..start + i + 1])
            == (Value(bits[start..start + i]) << 1) | (if bits[start + i] then 1 else 0)
  {
    SliceSnoc(bits, start, i);
    ValueSnoc(bits[start..start + i], bits[start + i]);
  }

  lemma {:induction false} SliceSnoc(bits: seq<bool>, start: nat, i: nat)
    requires start + i < |bits|
    ensures bits[start..start + i + 1] == bits[start..start + i] + [bits[start + i]]
  {}

  /** Bit `|done|` of zero-filled octets: `out[i / 8] |= bit << (7 - i % 8)`. */
  method AddBit(out: seq<byte>, ghost done: seq<bool>, n: nat, i: nat, bit: bool) returns (next: seq<byte>)
    requires out == PackInto(done, n) && i == |done| < n
    ensures next == PackInto(done + [bit], n)
  {
    PackSnoc(done, n, bit);
    next := out[i / 8 := OrBit(out[i / 8], i % 8, bit)];
  }

  method ZeroOctets(n: nat) returns (out: seq<byte>)
    ensures out == PackInto([], n)
  {
    PackNothing(n);
    out := seq(Ceil8(n), _ => 0 as byte);
  }

  class BitReader {
    const bytes: seq<byte>
    ghost const bits: seq<bool>
    var pos: nat

    constructor (bytes: seq<byte>)
      ensures Valid() && this.bytes == bytes && pos == 0
    {
      this.bytes := bytes;
      this.bits := BitsOf(bytes);
      pos := 0;
    }

    ghost predicate Valid()
      reads this
    {
      bits == BitsOf(bytes) && pos <= |bits|
    }

    /** The bit at the cursor, or `None` past the end; the shared step of the two read loops. */
    method ReadBit() returns (r: Option<bool>)
      requires Valid()
      modifies this`pos
      ensures Valid()
      ensures old(pos) < |bits| ==> r == Some(bits[old(pos)]) && pos == old(pos) + 1
      ensures old(pos) == |bits| ==> r == None && pos == old(pos)
    {
      if pos / 8 >= |bytes| {
        return None;
      }
      r := Some(Bit(bytes[pos / 8], pos % 8));
      pos := pos + 1;
    }

    /** Reads an `n`-bit field; `None`, with the input used up, when it runs out. */
    method Read(n: nat) returns (r: Option<byte>)
      requires Valid()
      modifies this`pos
      ensures Valid()
      ensures old(pos) + n <= |bits| ==> pos == old(pos) + n && r == Some(Value(bits[old(pos)..pos]))
      ensures old(pos) + n > |bits| ==> r == None && pos == |bits|
    {
      var out: byte := 0;
      ghost var start := pos;
      for i := 0 to n
        invariant Valid() && pos == start + i
        invariant out == Value(bits[start..start + i])
      {
        var bit := ReadBit();
        if bit == None {
          return None;
        }
        ValueStep(bits, start, i);
        out := (out << 1) | (if bit.value then 1 else 0);
      }
      r := Some(out);
    }

    /** Reads `n` bits into left-aligned, zero-padded octets. */
    method ReadBitsToBytes(n: nat) returns (r: Option<seq<byte>>)
      requires Valid()
      modifies this`pos
      ensures Valid()
      ensures old(pos) + n <= |bits| ==> pos == old(pos) + n && r == Some(Pack(bits[old(pos)..pos]))
      ensures old(pos) + n > |bits| ==> r == None && pos == |bits|
    {
      var out := ZeroOctets(n);
      ghost var start := pos;
      assert bits[start..start] == [];
      for i := 0 to n
        invariant Valid() && pos == start + i
        invariant out == PackInto(bits[start..start + i], n)
      {
        var bit := ReadBit();
        if bit == None {
          return None;
        }
        SliceSnoc(bits, start, i);
        out := AddBit(out, bits[start..start + i], n, i, bit.value);
      }
      r := Some(out);
    }
  }

  class BitWriter {
    var bytes: seq<byte>
    var bits: nat
    /** The bits written so far. */
    ghost var stream: seq<bool>

    constructor ()
      ensures Valid() && stream == [] && bytes == []
    {
      bytes := [];
      bits := 0;
      stream := [];
    }

    /** The octets hold exactly the written bits; the rest of the last octet is zero. */
    ghost predicate Valid()
      reads this
    {
      bits == |stream| && bytes == Pack(stream)
    }

    /** Appends one bit; the shared step of the two write loops. */
    method WriteBit(bit: bool)
      requires Valid()
      modifies this
      ensures Valid() && stream == old(stream) + [bit]
    {
      PackGrow(stream);
      PackSnoc(stream, bits + 1, bit);
      if bits % 8 == 0 {
        bytes := bytes + [0];
      }
      var idx := bits / 8;
      bytes := bytes[idx := OrBit(bytes[idx], bits % 8, bit)];
      bits := bits + 1;
      stream := stream + [bit];
    }

    /** Appends the low `n` bits of `value`. */
    method Write(value: byte, n: nat)
      requires Valid() && n <= 8
      modifies this
      ensures Valid() && stream == old(stream) + Field(value, n)
    {
      var i := n;
      while i > 0
        invariant 0 <= i <= n && Valid()
        invariant stream + Field(value, i) == old(stream) + Field(value, n)
      {
        i := i - 1;
        FieldAppend(value, i);
        WriteBit(Bit(value, 7 - i));
      }
    }

    /** Appends the first `n` bits of `src`; every caller checks that `src` holds that many. */
    method WriteBitsFromBytes(src: seq<byte>, n: nat)
      requires Valid() && n <= 8 * |src|
      modifies this
      ensures Valid() && stream == old(stream) + BitsOf(src)[..n]
    {
      ghost var source := BitsOf(src);
      for i := 0 to n
        invariant Valid()
        invariant stream == old(stream) + source[..i]
      {
        var bit := Bit(src[i / 8], i % 8);
        assert source[..i + 1] == source[..i] + [bit];
        WriteBit(bit);
      }
    }
  }

  // ----- what is written is read back -----------------------------------

  type Width = n: nat | n <= 8

  /** A field, or a block of bits kept in octets. */
  datatype Item = Number(value: byte, width: Width) | Block(bytes: seq<byte>, n: nat)

  /** What a reader knows beforehand. */
  datatype Shape = NumberShape(width: Width) | BlockShape(n: nat)

  function ShapeOf(x: Item): Shape {
    match x case Number(_, width) => NumberShape(width) case Block(_, n) => BlockShape(n)
  }

  function Shapes(items: seq<Item>): (r: seq<Shape>)
    ensures |r| == |items|
  {
    seq(|items|, i requires 0 <= i < |items| => ShapeOf(items[i]))
  }

  /** A number that needs no more bits than its field, or octets holding the block and nothing else. */
  predicate Fits(x: Item) {
    match x
    case Number(value, width) => forall j: nat | j < 8 - width :: !Bit(value, j)
    case Block(bytes, n) => n <= 8 * |bytes| && Pack(BitsOf(bytes)[..n]) == bytes
  }

  function ItemBits(x: Item): seq<bool> {
    match x
    case Number(value, width) => Field(value, width)
    case Block(bytes, n) => if n <= 8 * |bytes| then BitsOf(bytes)[..n] else []
  }

  function BitsOfItems(items: seq<Item>): (r: seq<seq<bool>>)
    ensures |r| == |items|
  {
    seq(|items|, i requires 0 <= i < |items| => ItemBits(items[i]))
  }

  function Concat(pieces: seq<seq<bool>>): seq<bool> {
    if pieces == [] then [] else Concat(pieces[..|pieces| - 1]) + pieces[|pieces| - 1]
  }

  /** The bits a sequence of writes leaves. */
  function Stream(items: seq<Item>): seq<bool> { Concat(BitsOfItems(items)) }

  predicate AllFit(items: seq<Item>) { forall i | 0 <= i < |items| :: Fits(items[i]) }

  lemma {:induction false} ConcatTake(pieces: seq<seq<bool>>, i: nat)
    requires i < |pieces|
    ensures Concat(pieces[..i + 1]) == Concat(pieces[..i]) + pieces[i]
  {
    assert pieces[..i + 1][..i] == pieces[..i];
  }

  lemma {:induction false} PieceInConcat(pieces: seq<seq<bool>>, i: nat)
    requires i < |pieces|
    ensures var at, n := |Concat(pieces[..i])|, |pieces[i]|;
            at + n <= |Concat(pieces)| && Concat(pieces)[at..at + n] == pieces[i]
    decreases |pieces|
  {
    var init := pieces[..|pieces| - 1];
    if i < |pieces| - 1 {
      PieceInConcat(init, i);
      assert init[..i] == pieces[..i];
    }
  }

  lemma {:induction false} SliceOfPrefix(s: seq<bool>, t: seq<bool>, a: nat, b: nat)
    requires |t| <= |s| && s[..|t|] == t && a <= b <= |t|
    ensures s[a..b] == t[a..b]
  {
    assert s[..|t|][a..b] == s[a..b];
  }

  /** Every piece lies where it was written, and every bit after the last one is zero. */
  lemma {:induction false} PiecesReadBack(pieces: seq<seq<bool>>, i: nat)
    requires i < |pieces|
    ensures var bits, at, n := BitsOf(Pack(Concat(pieces))), |Concat(pieces[..i])|, |pieces[i]|;
            && at + n <= |bits| && bits[at..at + n] == pieces[i]
            && forall p | |Concat(pieces)| <= p < |bits| :: !bits[p]
  {
    var stream, at, n := Concat(pieces), |Concat(pieces[..i])|, |pieces[i]|;
    PieceInConcat(pieces, i);
    BitsOfPack(stream);
    SliceOfPrefix(BitsOf(Pack(stream)), stream, at, at + n);
  }

  lemma {:induction false} ItemSize(x: Item)
    requires Fits(x)
    ensures |ItemBits(x)| == SizeOfShape(ShapeOf(x))
  {}

  method WriteItem(writer: BitWriter, x: Item)
    requires writer.Valid() && Fits(x)
    modifies writer
    ensures writer.Valid() && writer.stream == old(writer.stream) + ItemBits(x)
  {
    match x {
      case Number(value, width) => writer.Write(value, width);
      case Block(data, n) => writer.WriteBitsFromBytes(data, n);
    }
  }

  method WriteItems(items: seq<Item>) returns (bytes: seq<byte>)
    requires AllFit(items)
    ensures bytes == Pack(Stream(items))
  {
    var writer := new BitWriter();
    ghost var pieces := BitsOfItems(items);
    for i := 0 to |items|
      invariant fresh(writer) && writer.Valid() && writer.stream == Concat(pieces[..i])
    {
      ConcatTake(pieces, i);
      WriteItem(writer, items[i]);
    }
    assert pieces[..|items|] == pieces;
    bytes := writer.bytes;
  }

  method ReadNumber(reader: BitReader, width: Width, ghost value: byte) returns (r: byte)
    requires reader.Valid() && reader.pos + width <= |reader.bits| && Fits(Number(value, width))
    requires reader.bits[reader.pos..reader.pos + width] == Field(value, width)
    modifies reader`pos
    ensures reader.Valid() && reader.pos == old(reader.pos) + width && r == value
  {
    ValueOfField(value, width);
    var read := reader.Read(width);
    r := read.value;
  }

  method ReadBlock(reader: BitReader, n: nat, ghost bits: seq<bool>) returns (r: seq<byte>)
    requires reader.Valid() && reader.pos + n <= |reader.bits| && reader.bits[reader.pos..reader.pos + n] == bits
    modifies reader`pos
    ensures reader.Valid() && reader.pos == old(reader.pos) + n && r == Pack(bits)
  {
    var read := reader.ReadBitsToBytes(n);
    r := read.value;
  }

  function SizeOfShape(shape: Shape): nat {
    match shape case NumberShape(width) => width case BlockShape(n) => n
  }

  method ReadItem(reader: BitReader, shape: Shape, ghost x: Item) returns (r: Item)
    requires reader.Valid() && shape == ShapeOf(x) && reader.pos + SizeOfShape(shape) <= |reader.bits|
    requires Fits(x) && reader.bits[reader.pos..reader.pos + SizeOfShape(shape)] == ItemBits(x)
    modifies reader`pos
    ensures reader.Valid() && reader.pos == old(reader.pos) + SizeOfShape(shape) && r == x
  {
    match shape {
      case NumberShape(width) =>
        var value := ReadNumber(reader, width, x.value);
        r := Number(value, width);
      case BlockShape(n) =>
        var bytes := ReadBlock(reader, n, ItemBits(x));
        r := Block(bytes, n);
    }
  }

  /** Where item `i` starts in the stream. */
  ghost function Start(items: seq<Item>, i: nat): nat
    requires i <= |items|
  {
    |Concat(BitsOfItems(items)[..i])|
  }

  /** Item `i` lies in `bits` where the stream puts it, and the next one after it. */
  ghost predicate ItemAt(bits: seq<bool>, items: seq<Item>, i: nat)
    requires i < |items|
  {
    var at, n := Start(items, i), SizeOfShape(ShapeOf(items[i]));
    && Fits(items[i]) && at + n <= |bits| && bits[at..at + n] == ItemBits(items[i])
    && Start(items, i + 1) == at + n
  }

  ghost predicate Laid(bits: seq<bool>, items: seq<Item>) {
    forall i | 0 <= i < |items| :: ItemAt(bits, items, i)
  }

  lemma {:induction false} ItemInStream(items: seq<Item>, i: nat)
    requires AllFit(items) && i < |items|
    ensures ItemAt(BitsOf(Pack(Stream(items))), items, i)
  {
    var pieces := BitsOfItems(items);
    PiecesReadBack(pieces, i);
    ConcatTake(pieces, i);
    ItemSize(items[i]);
  }

  lemma {:induction false} StreamLaid(items: seq<Item>)
    requires AllFit(items)
    ensures Laid(BitsOf(Pack(Stream(items))), items)
  {
    forall i | 0 <= i < |items|
      ensures ItemAt(BitsOf(Pack(Stream(items))), items, i)
    {
      ItemInStream(items, i);
    }
  }

  method ReadNext(reader: BitReader, shape: Shape, ghost items: seq<Item>, ghost i: nat) returns (r: Item)
    requires i < |items| && shape == ShapeOf(items[i])
    requires reader.Valid() && reader.pos == Start(items, i) && ItemAt(reader.bits, items, i)
    modifies reader`pos
    ensures reader.Valid() && reader.pos == Start(items, i + 1) && r == items[i]
  {
    r := ReadItem(reader, shape, items[i]);
  }

  /** Reading octets that hold the items, knowing only the widths, gives every item back. */
  method ReadItems(bytes: seq<byte>, shapes: seq<Shape>, ghost items: seq<Item>) returns (back: seq<Item>)
    requires Laid(BitsOf(bytes), items) && shapes == Shapes(items)
    ensures back == items
  {
    var reader := new BitReader(bytes);
    back := [];
    for i := 0 to |shapes|
      invariant fresh(reader) && reader.Valid() && Laid(reader.bits, items)
      invariant reader.pos == Start(items, i) && back == items[..i]
    {
      var x := ReadNext(reader, shapes[i], items, i);
      back := back + [x];
    }
    assert items[..|items|] == items;
  }

  /** Any sequence of fields and blocks written by a `BitWriter` is read back unchanged by a `BitReader`,
      and the last octet is filled up with zeros. */
  method WriteThenRead(items: seq<Item>) returns (bytes: seq<byte>, back: seq<Item>)
    requires AllFit(items)
    ensures back == items
    ensures |bytes| == Ceil8(|Stream(items)|) && BitsOf(bytes)[..|Stream(items)|] == Stream(items)
    ensures forall p | |Stream(items)| <= p < 8 * |bytes| :: !BitsOf(bytes)[p]
  {
    bytes := WriteItems(items);
    StreamLaid(items);
    back := ReadItems(bytes, Shapes(items), items);
    BitsOfPack(Stream(items));
  }
}
