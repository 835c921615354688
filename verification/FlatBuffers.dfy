/** The parts of the FlatBuffers format that the generated readers and writers rely on.

    A reader addresses a buffer from its start; a builder writes a buffer back to front and
    addresses it from its END. Statements about written data therefore use offsets from the
    end: writing more data in front of a buffer does not change them. */
module FlatBuffers {
  import opened GoTypes

  type U32 = n: nat | n < 0x1_0000_0000
  type U64 = n: nat | n < 0x1_0000_0000_0000_0000

  // ---------------------------------------------------------------- little-endian integers

  /** The number a little-endian sequence of bytes stands for. */
  function Value(b: Bytes): (n: nat) {
    if b == [] then 0
    else
      var low: int := b[0];
      low + 256 * Value(b[1..])
  }

  /** The lowest `width` bytes of `n`: wider numbers are truncated, as Go's conversions do. */
  function LittleEndian(n: nat, width: nat): (b: Bytes)
    ensures |b| == width
    decreases width, n
  {
    if width == 0 then [] else [n % 256] + LittleEndian(n / 256, width - 1)
  }

  function Bound(width: nat): (n: nat)
    ensures n > 0
  {
    if width == 0 then 1 else 256 * Bound(width - 1)
  }

  lemma {:induction false} ValueBounded(b: Bytes)
    ensures Value(b) < Bound(|b|)
  {
    if b != [] {
      ValueBounded(b[1..]);
    }
  }

  lemma {:induction false} LittleEndianReads(n: nat, width: nat)
    requires n < Bound(width)
    ensures Value(LittleEndian(n, width)) == n
    decreases width
  {
    if width > 0 {
      LittleEndianReads(n / 256, width - 1);
      assert LittleEndian(n, width)[1..] == LittleEndian(n / 256, width - 1);
    }
  }

  lemma Bounds()
    ensures Bound(2) == 0x1_0000 && Bound(4) == 0x1_0000_0000 && Bound(8) == 0x1_0000_0000_0000_0000
  {
    assert Bound(4) == 256 * (256 * (256 * (256 * Bound(0))));
    assert Bound(8) == 256 * (256 * (256 * (256 * Bound(4))));
  }

  function GetU16(buf: Bytes, i: nat): (n: nat)
    requires i + 2 <= |buf|
    ensures n < 0x1_0000
  {
    Bounds();
    ValueBounded(buf[i..i + 2]);
    Value(buf[i..i + 2])
  }

  function GetU32(buf: Bytes, i: nat): (n: U32)
    requires i + 4 <= |buf|
  {
    Bounds();
    ValueBounded(buf[i..i + 4]);
    Value(buf[i..i + 4])
  }

  function GetU64(buf: Bytes, i: nat): (n: U64)
    requires i + 8 <= |buf|
  {
    Bounds();
    ValueBounded(buf[i..i + 8]);
    Value(buf[i..i + 8])
  }

  // ---------------------------------------------------------------- reading tables

  /** flatbuffers.Table: a view into a buffer. Offsets are uint32, so every sum wraps. */
  datatype Table = Table(buf: Slice, pos: U32)

  function Wrap(n: int): (w: U32)
    ensures 0 <= n < 0x1_0000_0000 ==> w == n
  {
    n % 0x1_0000_0000
  }

  function ReadU16(buf: Bytes, i: U32): (r: Outcome<nat>)
    ensures !r.Rejected?
  {
    if i + 2 <= |buf| then Ok(GetU16(buf, i)) else Panicked
  }

  function ReadU32(buf: Bytes, i: U32): (r: Outcome<U32>)
    ensures !r.Rejected?
  {
    if i + 4 <= |buf| then Ok(GetU32(buf, i)) else Panicked
  }

  /** Table.Offset: the distance from the table to a field, 0 when the field is absent.
      The signed distance to the vtable is subtracted modulo 2^32, which is what Go's
      int32 and uint32 conversions compute. */
  function Offset(t: Table, slot: nat): (r: Outcome<nat>)
    ensures !r.Rejected?
  {
    var distance :- ReadU32(t.buf.bytes, t.pos);
    var vtable := Wrap(t.pos - distance);
    var size :- ReadU16(t.buf.bytes, vtable);
    if slot < size then ReadU16(t.buf.bytes, Wrap(vtable + slot)) else Ok(0)
  }

  /** Table.ByteVector: the bytes of the vector that the reference at `off` points to. The vector is
      cut out with a slice expression, which only has to stay within the capacity of the buffer. */
  function ByteVector(buf: Slice, off: U32): (r: Outcome<Bytes>)
    ensures !r.Rejected?
  {
    var step :- ReadU32(buf.bytes, off);
    var vector := Wrap(off + step);
    var length :- ReadU32(buf.bytes, vector);
    var start := Wrap(vector + 4);
    var end := Wrap(start + length);
    if start <= end <= buf.Capacity() then Ok((buf.bytes + buf.spare)[start..end]) else Panicked
  }

  /** The generated `...Bytes()` readers: nil, which Go reads as empty, when the field is absent. */
  function ReadBytesField(t: Table, slot: nat): (r: Outcome<Bytes>)
    ensures !r.Rejected?
  {
    var o :- Offset(t, slot);
    if o == 0 then Ok([]) else ByteVector(t.buf, Wrap(o + t.pos))
  }

  function ReadByteField(t: Table, slot: nat): (r: Outcome<Byte>)
    ensures !r.Rejected?
  {
    var o :- Offset(t, slot);
    if o == 0 then Ok(0)
    else
      var i := Wrap(o + t.pos);
      if i < |t.buf.bytes| then Ok(t.buf.bytes[i]) else Panicked
  }

  function ReadU32Field(t: Table, slot: nat): (r: Outcome<U32>)
    ensures !r.Rejected?
  {
    var o :- Offset(t, slot);
    if o == 0 then Ok(0) else ReadU32(t.buf.bytes, Wrap(o + t.pos))
  }

  function ReadU64Field(t: Table, slot: nat): (r: Outcome<U64>)
    ensures !r.Rejected?
  {
    var o :- Offset(t, slot);
    if o == 0 then Ok(0)
    else
      var i := Wrap(o + t.pos);
      if i + 8 <= |t.buf.bytes| then Ok(GetU64(t.buf.bytes, i)) else Panicked
  }

  /** The generated union reader: the table a union field points to, None when it is absent. */
  function ReadUnionField(t: Table, slot: nat): Outcome<Option<Table>> {
    var o :- Offset(t, slot);
    if o == 0 then Ok(None)
    else
      var off := Wrap(o + t.pos);
      var step :- ReadU32(t.buf.bytes, off);
      Ok(Some(Table(t.buf, Wrap(off + step))))
  }

  /** GetRootAs...: the first four bytes point to the root table. */
  function Root(buf: Slice): Outcome<Table> {
    var n :- ReadU32(buf.bytes, 0);
    Ok(Table(buf, n))
  }

  lemma VectorWithinBuffer(t: Table, slot: nat)
    ensures var r := ReadBytesField(t, slot); r.Ok? ==> |r.value| <= t.buf.Capacity()
  {
  }

  // ---------------------------------------------------------------- what a buffer holds

  /** `b` ends with `a`. */
  ghost predicate Extends(a: Bytes, b: Bytes) {
    |a| <= |b| && b[|b| - |a|..] == a
  }

  lemma ExtendsTransitive(a: Bytes, b: Bytes, c: Bytes)
    requires Extends(a, b) && Extends(b, c)
    ensures Extends(a, c)
  {
    assert c[|c| - |a|..] == c[|c| - |b|..][|b| - |a|..];
  }

  ghost predicate HasU16(buf: Bytes, off: nat, n: nat) {
    2 <= off <= |buf| && GetU16(buf, |buf| - off) == n
  }

  ghost predicate HasU32(buf: Bytes, off: nat, n: nat) {
    4 <= off <= |buf| && GetU32(buf, |buf| - off) == n
  }

  ghost predicate HasU64(buf: Bytes, off: nat, n: nat) {
    8 <= off <= |buf| && GetU64(buf, |buf| - off) == n
  }

  /** A byte vector: its length, then its bytes. */
  ghost predicate HasVector(buf: Bytes, off: nat, s: Bytes) {
    && 4 + |s| <= off <= |buf|
    && GetU32(buf, |buf| - off) == |s|
    && buf[|buf| - off + 4..|buf| - off + 4 + |s|] == s
  }

  /** A reference stored at `off` to the object at `target`. */
  ghost predicate HasReference(buf: Bytes, off: nat, target: nat) {
    target <= off && HasU32(buf, off, off - target)
  }

  /** A table at `at` whose vtable, at `vtable`, keeps its first `kept` slots. Slot `i` is stored
      at `slots[i]`, or absent when that is 0. Field order, padding and the place of the vtable
      are arbitrary. */
  datatype TableShape = TableShape(at: nat, vtable: nat, kept: nat, slots: seq<nat>)

  ghost predicate HasTable(buf: Bytes, t: TableShape) {
    && HasU32(buf, t.at, (t.vtable - t.at) % 0x1_0000_0000)
    && t.kept <= |t.slots| < 0x100
    && 4 + 2 * t.kept <= t.vtable
    && HasU16(buf, t.vtable, 4 + 2 * t.kept)
    && (forall i :: 0 <= i < |t.slots| ==> t.slots[i] < t.at)
    && (forall i :: 0 <= i < t.kept ==>
                      HasU16(buf, t.vtable - 4 - 2 * i, if t.slots[i] == 0 then 0 else t.at - t.slots[i]))
    && (forall i :: t.kept <= i < |t.slots| ==> t.slots[i] == 0)
  }

  function View(buf: Slice, at: nat): Table
    requires at <= |buf.bytes| < 0x1_0000_0000
  {
    Table(buf, |buf.bytes| - at)
  }

  /** What a field of a table holds, whether stored or elided because it is the default. */
  ghost predicate HasBytesField(buf: Bytes, slot: nat, target: nat, s: Bytes) {
    if slot == 0 then s == [] else HasReference(buf, slot, target) && HasVector(buf, target, s)
  }

  ghost predicate HasU32Field(buf: Bytes, slot: nat, n: nat) {
    if slot == 0 then n == 0 else HasU32(buf, slot, n)
  }

  ghost predicate HasU64Field(buf: Bytes, slot: nat, n: nat) {
    if slot == 0 then n == 0 else HasU64(buf, slot, n)
  }

  ghost predicate HasByteField(buf: Bytes, slot: nat, n: Byte) {
    if slot == 0 then n == 0 else slot <= |buf| && buf[|buf| - slot] == n
  }

  // ---------------------------------------------------------------- readers recover what a buffer holds

  lemma VtablePosition(size: nat, at: nat, vtable: nat)
    requires at <= size < 0x1_0000_0000 && vtable <= size
    ensures Wrap(size - at - (vtable - at) % 0x1_0000_0000) == size - vtable
  {
  }

  lemma OffsetReads(buf: Bytes, spare: Spare, t: TableShape, i: nat)
    requires |buf| < 0x1_0000_0000 && HasTable(buf, t) && i < |t.slots|
    ensures Offset(View(Slice(buf, spare), t.at), 4 + 2 * i) == Ok(if t.slots[i] == 0 then 0 else t.at - t.slots[i])
  {
    hide Value;
    var pos := |buf| - t.at;
    VtablePosition(|buf|, t.at, t.vtable);
    assert ReadU32(buf, pos) == Ok((t.vtable - t.at) % 0x1_0000_0000);
    assert ReadU16(buf, |buf| - t.vtable) == Ok(4 + 2 * t.kept);
    if i < t.kept {
      assert HasU16(buf, t.vtable - 4 - 2 * i, if t.slots[i] == 0 then 0 else t.at - t.slots[i]);
      assert Wrap(|buf| - t.vtable + (4 + 2 * i)) == |buf| - (t.vtable - 4 - 2 * i);
    }
  }

  /** A vector may reach into the spare bytes behind the buffer, up to its capacity; reading one that
      reaches further panics. */
  lemma ByteVectorExactly(buf: Slice, off: nat, target: nat, length: nat)
    requires buf.Capacity() < 0x1_0000_0000 && HasReference(buf.bytes, off, target) && HasU32(buf.bytes, target, length)
    ensures var start := |buf.bytes| - target + 4;
            ByteVector(buf, |buf.bytes| - off) ==
            if start + length <= |buf.bytes| + |buf.spare| then Ok((buf.bytes + buf.spare)[start..start + length]) else Panicked
  {
    hide Value;
    var start := |buf.bytes| - target + 4;
    assert Wrap(|buf.bytes| - off + (off - target)) == |buf.bytes| - target;
    assert Wrap(|buf.bytes| - target + 4) == start;
    if start + length >= 0x1_0000_0000 {
      assert Wrap(start + length) == start + length - 0x1_0000_0000;
    } else {
      assert Wrap(start + length) == start + length;
    }
  }

  /** A field that does not lie in the buffer makes its reader panic, spare bytes or not. */
  lemma FieldsLieInside(t: Table, slot: nat, o: nat)
    requires Offset(t, slot) == Ok(o) && o != 0
    ensures var left := |t.buf.bytes| - (o + t.pos) % 0x1_0000_0000;
            && (left < 1 ==> ReadByteField(t, slot).Panicked?) && (left < 8 ==> ReadU64Field(t, slot).Panicked?)
            && (left < 4 ==> ReadU32Field(t, slot).Panicked? && ReadBytesField(t, slot).Panicked? && ReadUnionField(t, slot).Panicked?)
  {
    hide Offset, Value;
  }

  lemma ByteVectorReads(buf: Bytes, spare: Spare, off: nat, target: nat, s: Bytes)
    requires |buf| < 0x1_0000_0000 && HasReference(buf, off, target) && HasVector(buf, target, s)
    ensures ByteVector(Slice(buf, spare), |buf| - off) == Ok(s)
  {
    hide Value;
    var start := |buf| - target + 4;
    assert Wrap(|buf| - off + (off - target)) == |buf| - target;
    assert Wrap(|buf| - target + 4) == start;
    assert Wrap(start + |s|) == start + |s|;
    assert (buf + spare)[start..start + |s|] == buf[start..start + |s|];
  }

  lemma BytesFieldReads(buf: Bytes, spare: Spare, t: TableShape, i: nat, target: nat, s: Bytes)
    requires |buf| < 0x1_0000_0000 && HasTable(buf, t) && i < |t.slots|
    requires HasBytesField(buf, t.slots[i], target, s)
    ensures ReadBytesField(View(Slice(buf, spare), t.at), 4 + 2 * i) == Ok(s)
  {
    hide Value;
    OffsetReads(buf, spare, t, i);
    var slot := t.slots[i];
    if slot != 0 {
      assert Wrap(t.at - slot + (|buf| - t.at)) == |buf| - slot;
      ByteVectorReads(buf, spare, slot, target, s);
    }
  }

  lemma ScalarFieldReads(buf: Bytes, spare: Spare, t: TableShape, i: nat)
    requires |buf| < 0x1_0000_0000 && HasTable(buf, t) && i < |t.slots|
    ensures forall n: U32 :: HasU32Field(buf, t.slots[i], n) ==> ReadU32Field(View(Slice(buf, spare), t.at), 4 + 2 * i) == Ok(n)
    ensures forall n: U64 :: HasU64Field(buf, t.slots[i], n) ==> ReadU64Field(View(Slice(buf, spare), t.at), 4 + 2 * i) == Ok(n)
    ensures forall n: Byte :: HasByteField(buf, t.slots[i], n) ==> ReadByteField(View(Slice(buf, spare), t.at), 4 + 2 * i) == Ok(n)
  {
    hide Value;
    OffsetReads(buf, spare, t, i);
    var slot := t.slots[i];
    if slot != 0 {
      assert Wrap(t.at - slot + (|buf| - t.at)) == |buf| - slot;
    }
  }

  lemma UnionFieldReads(buf: Bytes, spare: Spare, t: TableShape, i: nat, target: nat)
    requires |buf| < 0x1_0000_0000 && HasTable(buf, t) && i < |t.slots|
    requires t.slots[i] != 0 && HasReference(buf, t.slots[i], target)
    ensures ReadUnionField(View(Slice(buf, spare), t.at), 4 + 2 * i) == Ok(Some(View(Slice(buf, spare), target)))
  {
    hide Value;
    OffsetReads(buf, spare, t, i);
    var slot := t.slots[i];
    assert Wrap(t.at - slot + (|buf| - t.at)) == |buf| - slot;
    assert Wrap(|buf| - slot + (slot - target)) == |buf| - target;
  }

  // ---------------------------------------------------------------- data survives writing in front of it

  lemma Kept(a: Bytes, b: Bytes, i: nat, width: nat)
    requires Extends(a, b) && i + width <= |a|
    ensures b[|b| - |a| + i..|b| - |a| + i + width] == a[i..i + width]
  {
    assert b[|b| - |a| + i..|b| - |a| + i + width] == b[|b| - |a|..][i..i + width];
  }

  lemma VectorKept(a: Bytes, b: Bytes, off: nat, s: Bytes)
    requires Extends(a, b) && HasVector(a, off, s)
    ensures HasVector(b, off, s)
  {
    Kept(a, b, |a| - off, 4);
    Kept(a, b, |a| - off + 4, |s|);
  }

  lemma ReferenceKept(a: Bytes, b: Bytes, off: nat, target: nat)
    requires Extends(a, b) && HasReference(a, off, target)
    ensures HasReference(b, off, target)
  {
    Kept(a, b, |a| - off, 4);
  }

  lemma TableKept(a: Bytes, b: Bytes, t: TableShape)
    requires Extends(a, b) && HasTable(a, t)
    ensures HasTable(b, t)
  {
    hide Value;
    Kept(a, b, |a| - t.at, 4);
    Kept(a, b, |a| - t.vtable, 2);
    forall i | 0 <= i < t.kept
      ensures HasU16(b, t.vtable - 4 - 2 * i, if t.slots[i] == 0 then 0 else t.at - t.slots[i])
    {
      assert HasU16(a, t.vtable - 4 - 2 * i, if t.slots[i] == 0 then 0 else t.at - t.slots[i]);
      Kept(a, b, |a| - (t.vtable - 4 - 2 * i), 2);
    }
  }
}
