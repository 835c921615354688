/** The FlatBuffers builder as the generated writers drive it: a buffer filled back to front,
    aligned to its end, with one table open at a time. */
module FlatBuilder {
  import opened GoTypes
  import opened FlatBuffers

  type Alignment = n: nat | n in {1, 2, 4, 8} witness 1

  /** A buffer being built. `vtable[i]` is where slot `i` of the open table was stored, 0 if it was not. */
  datatype Draft = Draft(bytes: Bytes, minalign: Alignment, vtable: seq<nat>, objectEnd: nat)

  const EMPTY := Draft([], 1, [], 0)

  function Zeros(n: nat): (z: Bytes)
    ensures |z| == n
  {
    seq(n, i => 0)
  }

  /** How many bytes bring `have` to a multiple of `size`, a power of two up to 8. */
  function Pad(have: nat, size: Alignment): (n: nat)
    ensures n < size
    ensures (size == 2 ==> (have + n) % 2 == 0) && (size == 4 ==> (have + n) % 4 == 0) && (size == 8 ==> (have + n) % 8 == 0)
  {
    if size == 1 then 0
    else if size == 2 then Lacking(have, 2)
    else if size == 4 then Lacking(have, 4)
    else Lacking(have, 8)
  }

  function Lacking(have: nat, k: nat): (n: nat)
    requires k in {2, 4, 8}
    ensures n < k
    ensures (k == 2 ==> (have + n) % 2 == 0) && (k == 4 ==> (have + n) % 4 == 0) && (k == 8 ==> (have + n) % 8 == 0)
  {
    if k == 2 then have % 2
    else if k == 4 then if have % 4 == 0 then 0 else 4 - have % 4
    else if have % 8 == 0 then 0 else 8 - have % 8
  }

  /** Builder.Prep: pad so that, after `extra` more bytes, the end is aligned to `size`. */
  function Prep(d: Draft, size: Alignment, extra: nat): (r: Draft)
  {
    Draft(Zeros(Pad(|d.bytes| + extra, size)) + d.bytes,
          if size > d.minalign then size else d.minalign, d.vtable, d.objectEnd)
  }

  /** Builder.Prepend...: align to the width of the data and store it. */
  function Prepend(d: Draft, data: Bytes): (r: Draft)
    requires |data| in {1, 2, 4, 8}
    ensures |r.bytes| >= |d.bytes| + |data|
  {
    Place(Prep(d, |data|, 0), data)
  }

  /** Builder.PrependUOffsetT: store the distance to an object written earlier. */
  function PrependReference(d: Draft, target: nat): (r: Draft)
    requires target <= |d.bytes|
  {
    var p := Prep(d, 4, 0);
    Place(p, LittleEndian(|p.bytes| - target + 4, 4))
  }

  function Place(d: Draft, data: Bytes): (r: Draft) {
    d.(bytes := data + d.bytes)
  }

  /** Builder.CreateByteString: a zero-terminated vector of bytes; the result is its offset. */
  function CreateByteString(d: Draft, s: Bytes): (r: (Draft, nat))
    ensures |d.bytes| <= |r.0.bytes| == r.1
  {
    var p := Prep(d, 4, |s| + 1);
    var bytes := LittleEndian(|s|, 4) + (s + ([0] + p.bytes));
    (p.(bytes := bytes), |bytes|)
  }

  // ---------------------------------------------------------------- tables

  /** One `...Add...` call of the generated code. */
  datatype FieldWrite =
    | RefField(slot: nat, target: nat)
    | ByteField(slot: nat, b: Byte)
    | U32Field(slot: nat, n: U32)
    | U64Field(slot: nat, m: U64)
  {
    /** Values equal to the default of their type are not stored. */
    predicate Elided() {
      match this
      case RefField(_, target) => target == 0
      case ByteField(_, b) => b == 0
      case U32Field(_, n) => n == 0
      case U64Field(_, m) => m == 0
    }

    /** How many bytes it takes, and is aligned to. */
    function Width(): (n: Alignment) {
      match this
      case RefField(_, _) => 4
      case ByteField(_, _) => 1
      case U32Field(_, _) => 4
      case U64Field(_, _) => 8
    }
  }

  function StartObject(d: Draft, slots: nat): (r: Draft) {
    d.(vtable := seq(slots, i => 0), objectEnd := |d.bytes|)
  }

  /** Builder.Prepend...Slot: store the value, if it is not the default, and note where. */
  function Write(d: Draft, w: FieldWrite): (r: Draft)
    requires w.slot < |d.vtable| && (w.RefField? ==> w.target <= |d.bytes|)
    ensures |d.bytes| <= |r.bytes| && |r.vtable| == |d.vtable| && r.objectEnd == d.objectEnd
    ensures (forall i :: 0 <= i < |d.vtable| ==> d.vtable[i] <= |d.bytes|) ==> forall i :: 0 <= i < |r.vtable| ==> r.vtable[i] <= |r.bytes|
  {
    if w.Elided() then d
    else
      var p :=
        match w
        case RefField(_, target) => PrependReference(d, target)
        case ByteField(_, b) => Prepend(d, [b])
        case U32Field(_, n) => Prepend(d, LittleEndian(n, 4))
        case U64Field(_, m) => Prepend(d, LittleEndian(m, 8));
      p.(vtable := p.vtable[w.slot := |p.bytes|])
  }

  predicate Addable(d: Draft, ws: seq<FieldWrite>) {
    forall k :: 0 <= k < |ws| ==> ws[k].slot < |d.vtable| && (ws[k].RefField? ==> ws[k].target <= |d.bytes|)
  }

  /** The fields of a table, in the order the generated code adds them. */
  function WriteAll(d: Draft, ws: seq<FieldWrite>): (r: Draft)
    requires Addable(d, ws)
    ensures |d.bytes| <= |r.bytes| && |r.vtable| == |d.vtable| && r.objectEnd == d.objectEnd
    ensures (forall i :: 0 <= i < |d.vtable| ==> d.vtable[i] <= |d.bytes|) ==> forall i :: 0 <= i < |r.vtable| ==> r.vtable[i] <= |r.bytes|
  {
    if ws == [] then d else Write(WriteAll(d, ws[..|ws| - 1]), ws[|ws| - 1])
  }

  /** Trailing absent slots are not written to the vtable. */
  function Trim(vtable: seq<nat>): (t: seq<nat>)
    ensures t <= vtable && (forall i :: |t| <= i < |vtable| ==> vtable[i] == 0) && (t != [] ==> t[|t| - 1] != 0)
  {
    if vtable == [] || vtable[|vtable| - 1] != 0 then vtable else Trim(vtable[..|vtable| - 1])
  }

  /** The entries of the vtable of the object at `at`, last slot first. */
  function Entries(d: Draft, vtable: seq<nat>, at: nat): (r: Draft)
    requires forall i :: 0 <= i < |vtable| ==> vtable[i] <= at
    ensures |r.bytes| >= |d.bytes|
    decreases |vtable|
  {
    if vtable == [] then d
    else
      var last := vtable[|vtable| - 1];
      Entries(Prepend(d, LittleEndian(if last == 0 then 0 else at - last, 2)), vtable[..|vtable| - 1], at)
  }

  /** The vtable of the object at `at`: its own size and the size of the object, then the entries. */
  function PrependVtable(d: Draft, vtable: seq<nat>, at: nat, own: Bytes, size: Bytes): (r: Draft)
    requires |own| == |size| == 2 && forall i :: 0 <= i < |vtable| ==> vtable[i] <= at
    ensures |r.bytes| >= |d.bytes|
  {
    Prepend(Prepend(Entries(d, vtable, at), size), own)
  }

  /** Builder.EndObject: the reference to the vtable, the vtable in front of it, and then the
      reference patched to point there. */
  function EndObject(d: Draft): (r: (Draft, nat))
    requires d.objectEnd <= |d.bytes| && forall i :: 0 <= i < |d.vtable| ==> d.vtable[i] <= |d.bytes|
    ensures |d.bytes| <= |r.0.bytes| && r.1 <= |r.0.bytes|
  {
    var start := Prepend(d, [0, 0, 0, 0]);
    var at := |start.bytes|;
    var vtable := Trim(d.vtable);
    var own, size := LittleEndian(4 + 2 * |vtable|, 2), LittleEndian(at - d.objectEnd, 2);
    var done := PrependVtable(start, vtable, at, own, size);
    var patched := Patch(done.bytes, |done.bytes| - at, LittleEndian(|done.bytes| - at, 4));
    (Draft(patched, done.minalign, [], d.objectEnd), at)
  }

  function Patch(b: Bytes, i: nat, data: Bytes): (r: Bytes)
    ensures |r| == |b|
  {
    if i + |data| <= |b| then b[..i] + data + b[i + |data|..] else b
  }

  /** Builder.Finish: the reference to the root table, aligned for everything written. */
  function Finish(d: Draft, root: nat): (b: Bytes)
    requires root <= |d.bytes|
  {
    PrependReference(Prep(d, d.minalign, 4), root).bytes
  }

  /** flatbuffers.Builder: the draft, updated in place by one call of the generated code at a time. */
  class Builder {
    var bytes: Bytes
    var minalign: Alignment
    var vtable: seq<nat>
    var objectEnd: nat

    function State(): Draft
      reads this
    {
      Draft(bytes, minalign, vtable, objectEnd)
    }

    constructor ()
      ensures State() == EMPTY
    {
      bytes, minalign, vtable, objectEnd := [], 1, [], 0;
    }

    method AddString(s: Bytes) returns (at: nat)
      modifies this
      ensures (State(), at) == CreateByteString(old(State()), s)
    {
      Align(4, |s| + 1);
      bytes := [0] + bytes;
      bytes := s + bytes;
      bytes := LittleEndian(|s|, 4) + bytes;
      at := |bytes|;
    }

    method Align(size: Alignment, extra: nat)
      modifies this`bytes, this`minalign
      ensures State() == Prep(old(State()), size, extra)
    {
      if size > minalign {
        minalign := size;
      }
      bytes := Zeros(Pad(|bytes| + extra, size)) + bytes;
    }

    method Put(data: Bytes)
      requires |data| in {1, 2, 4, 8}
      modifies this`bytes, this`minalign
      ensures State() == Prepend(old(State()), data)
    {
      Align(|data|, 0);
      bytes := data + bytes;
    }

    method Start(slots: nat)
      modifies this
      ensures State() == StartObject(old(State()), slots)
    {
      vtable, objectEnd := seq(slots, i => 0), |bytes|;
    }

    /** One `...Add...` call. */
    method Add(w: FieldWrite)
      requires w.slot < |vtable| && (w.RefField? ==> w.target <= |bytes|)
      modifies this
      ensures State() == Write(old(State()), w)
    {
      if w.Elided() {
        return;
      }
      match w {
        case RefField(_, target) =>
          Align(4, 0);
          bytes := LittleEndian(|bytes| - target + 4, 4) + bytes;
        case ByteField(_, b) =>
          Put([b]);
        case U32Field(_, n) =>
          Put(LittleEndian(n, 4));
        case U64Field(_, m) =>
          Put(LittleEndian(m, 8));
      }
      vtable := vtable[w.slot := |bytes|];
    }

    /** The slots up to the last one in use. */
    method UsedSlots() returns (used: seq<nat>)
      ensures used == Trim(vtable)
    {
      var kept := |vtable|;
      assert vtable[..kept] == vtable;
      while kept > 0 && vtable[kept - 1] == 0
        invariant kept <= |vtable| && Trim(vtable[..kept]) == Trim(vtable)
      {
        kept := kept - 1;
        assert vtable[..kept + 1][..kept] == vtable[..kept];
      }
      used := vtable[..kept];
    }

    method AddEntries(entries: seq<nat>, at: nat)
      requires forall i :: 0 <= i < |entries| ==> entries[i] <= at
      modifies this`bytes, this`minalign
      ensures State() == Entries(old(State()), entries, at)
    {
      var i := |entries|;
      assert entries[..i] == entries;
      while i > 0
        invariant i <= |entries| && Entries(State(), entries[..i], at) == Entries(old(State()), entries, at)
      {
        i := i - 1;
        assert entries[..i + 1][..i] == entries[..i];
        Put(LittleEndian(if entries[i] == 0 then 0 else at - entries[i], 2));
      }
    }

    /** Closes the open table. */
    method End() returns (at: nat)
      requires objectEnd <= |bytes| && forall i :: 0 <= i < |vtable| ==> vtable[i] <= |bytes|
      modifies this
      ensures (State(), at) == EndObject(old(State()))
    {
      hide Prepend, Prep, Entries, LittleEndian, Patch;
      Put([0, 0, 0, 0]);
      at := |bytes|;
      var entries := UsedSlots();
      AddEntries(entries, at);
      Put(LittleEndian(at - objectEnd, 2));
      Put(LittleEndian(4 + 2 * |entries|, 2));
      bytes := Patch(bytes, |bytes| - at, LittleEndian(|bytes| - at, 4));
      vtable := [];
    }

    method Close(root: nat) returns (b: Bytes)
      requires root <= |bytes|
      modifies this
      ensures b == Finish(old(State()), root)
    {
      Align(minalign, 4);
      Align(4, 0);
      bytes := LittleEndian(|bytes| - root + 4, 4) + bytes;
      b := bytes;
    }
  }

  // ---------------------------------------------------------------- what the builder has stored

  lemma PrepExtends(d: Draft, size: Alignment, extra: nat)
    ensures var r := Prep(d, size, extra);
            && Extends(d.bytes, r.bytes) && |r.bytes| < |d.bytes| + size
            && r.vtable == d.vtable && r.objectEnd == d.objectEnd
  {
  }

  lemma PrependExtends(d: Draft, data: Bytes)
    requires |data| in {1, 2, 4, 8}
    ensures var r := Prepend(d, data);
            && Extends(d.bytes, r.bytes)
            && |d.bytes| + |data| <= |r.bytes| < |d.bytes| + 2 * |data|
            && r.bytes[..|data|] == data
            && r.vtable == d.vtable && r.objectEnd == d.objectEnd
  {
    PrepExtends(d, |data|, 0);
    PlaceExtends(d.bytes, Prep(d, |data|, 0), data);
  }

  lemma ReferenceExtends(d: Draft, target: nat)
    requires target <= |d.bytes| < 0x8000_0000
    ensures var r := PrependReference(d, target);
            && Extends(d.bytes, r.bytes)
            && |d.bytes| + 4 <= |r.bytes| < |d.bytes| + 8
            && HasReference(r.bytes, |r.bytes|, target)
            && r.vtable == d.vtable && r.objectEnd == d.objectEnd
  {
    PrepExtends(d, 4, 0);
    hide LittleEndian, Value, Pad, Prep;
    var p := Prep(d, 4, 0);
    Bounds();
    LittleEndianReads(|p.bytes| - target + 4, 4);
    PlaceExtends(d.bytes, p, LittleEndian(|p.bytes| - target + 4, 4));
  }

  lemma PlaceExtends(a: Bytes, p: Draft, data: Bytes)
    requires Extends(a, p.bytes)
    ensures Extends(a, Place(p, data).bytes)
    ensures |data| == 4 ==> HasU32(Place(p, data).bytes, |p.bytes| + 4, Value(data))
  {
    assert Extends(p.bytes, data + p.bytes);
    ExtendsTransitive(a, p.bytes, data + p.bytes);
    assert (data + p.bytes)[0..|data|] == data;
  }

  lemma ByteStringHeld(d: Draft, s: Bytes)
    requires |d.bytes| + |s| < 0x8000_0000
    ensures var (r, at) := CreateByteString(d, s);
            && Extends(d.bytes, r.bytes) && |r.bytes| <= |d.bytes| + |s| + 8
            && 0 < at == |r.bytes| && HasVector(r.bytes, at, s)
  {
    var p := Prep(d, 4, |s| + 1);
    PrepExtends(d, 4, |s| + 1);
    var (r, at) := CreateByteString(d, s);
    Bounds();
    LittleEndianReads(|s|, 4);
    assert r.bytes[0..4] == LittleEndian(|s|, 4);
    assert r.bytes[4..4 + |s|] == s;
    assert Extends(p.bytes, r.bytes);
    ExtendsTransitive(d.bytes, p.bytes, r.bytes);
  }

  ghost predicate Stored(buf: Bytes, at: nat, w: FieldWrite) {
    match w
    case RefField(_, target) => HasReference(buf, at, target)
    case ByteField(_, b) => 0 < at <= |buf| && buf[|buf| - at] == b
    case U32Field(_, n) => HasU32(buf, at, n)
    case U64Field(_, m) => HasU64(buf, at, m)
  }

  ghost predicate Written(d: Draft, w: FieldWrite) {
    && w.slot < |d.vtable|
    && if w.Elided() then d.vtable[w.slot] == 0
       else d.objectEnd < d.vtable[w.slot] <= |d.bytes| && Stored(d.bytes, d.vtable[w.slot], w)
  }

  lemma StoredKept(a: Bytes, b: Bytes, at: nat, w: FieldWrite)
    requires Extends(a, b) && Stored(a, at, w)
    ensures Stored(b, at, w)
  {
    match w
    case RefField(_, _) => Kept(a, b, |a| - at, 4);
    case ByteField(_, _) => Kept(a, b, |a| - at, 1);
      assert b[|b| - at] == b[|b| - at..|b| - at + 1][0] && a[|a| - at] == a[|a| - at..|a| - at + 1][0];
    case U32Field(_, _) => Kept(a, b, |a| - at, 4);
    case U64Field(_, _) => Kept(a, b, |a| - at, 8);
  }

  lemma WriteStores(d: Draft, w: FieldWrite)
    requires w.slot < |d.vtable| && d.vtable[w.slot] == 0 && d.objectEnd <= |d.bytes| < 0x8000_0000
    requires w.RefField? ==> w.target <= |d.bytes|
    ensures var r := Write(d, w);
            && Extends(d.bytes, r.bytes) && |r.bytes| < |d.bytes| + 16
            && Written(r, w)
            && forall i :: 0 <= i < |d.vtable| && i != w.slot ==> r.vtable[i] == d.vtable[i]
  {
    match w
    case RefField(_, target) => ReferenceExtends(d, target);
    case ByteField(_, b) => PrependExtends(d, [b]);
      assert Prepend(d, [b]).bytes[..1][0] == b;
    case U32Field(_, n) => PrependExtends(d, LittleEndian(n, 4));
      Bounds();
      LittleEndianReads(n, 4);
      assert Prepend(d, LittleEndian(n, 4)).bytes[0..4] == LittleEndian(n, 4);
    case U64Field(_, m) => PrependExtends(d, LittleEndian(m, 8));
      Bounds();
      LittleEndianReads(m, 8);
      assert Prepend(d, LittleEndian(m, 8)).bytes[0..8] == LittleEndian(m, 8);
  }

  /** The open table of `d` holds the fields `ws`, in slots of their own, and nothing else. */
  ghost predicate OpenTable(d: Draft, ws: seq<FieldWrite>) {
    && (forall k :: 0 <= k < |ws| ==> Written(d, ws[k]))
    && (forall i :: 0 <= i < |d.vtable| ==> SlotInside(d, i))
    && (forall i :: 0 <= i < |d.vtable| && Unused(ws, i) ==> d.vtable[i] == 0)
  }

  ghost predicate SlotInside(d: Draft, i: nat)
    requires i < |d.vtable|
  {
    d.vtable[i] == 0 || d.objectEnd < d.vtable[i] <= |d.bytes|
  }

  ghost predicate Unused(ws: seq<FieldWrite>, i: nat) {
    forall k :: 0 <= k < |ws| ==> ws[k].slot != i
  }

  lemma OpenTableGrows(d: Draft, ws: seq<FieldWrite>, w: FieldWrite)
    requires OpenTable(d, ws) && w.slot < |d.vtable| && Unused(ws, w.slot)
    requires d.objectEnd <= |d.bytes| < 0x8000_0000
    requires w.RefField? ==> w.target <= |d.bytes|
    ensures var r := Write(d, w);
            Extends(d.bytes, r.bytes) && |r.bytes| < |d.bytes| + 16 && OpenTable(r, ws + [w])
  {
    WriteStores(d, w);
    var r := Write(d, w);
    forall k | 0 <= k < |ws + [w]|
      ensures Written(r, (ws + [w])[k])
    {
      if k < |ws| {
        assert Written(d, ws[k]);
        if !ws[k].Elided() {
          StoredKept(d.bytes, r.bytes, d.vtable[ws[k].slot], ws[k]);
        }
      }
    }
    forall i | 0 <= i < |r.vtable|
      ensures SlotInside(r, i) && (Unused(ws + [w], i) ==> r.vtable[i] == 0)
    {
      assert SlotInside(d, i);
      if Unused(ws + [w], i) {
        assert (ws + [w])[|ws|] == w;
        assert forall k :: 0 <= k < |ws| ==> (ws + [w])[k] == ws[k];
        assert Unused(ws, i);
      }
    }
  }

  /** After all fields of a fresh table are added, each is stored or elided, and no other slot is used. */
  lemma {:induction false} WriteAllStores(d: Draft, ws: seq<FieldWrite>)
    requires forall i :: 0 <= i < |d.vtable| ==> d.vtable[i] == 0
    requires d.objectEnd == |d.bytes| && |d.bytes| + 16 * |ws| < 0x8000_0000
    requires Addable(d, ws) && DistinctSlots(ws)
    ensures var r := WriteAll(d, ws);
            Extends(d.bytes, r.bytes) && |r.bytes| <= |d.bytes| + 16 * |ws| && OpenTable(r, ws)
  {
    hide Written, Write, Unused, SlotInside, DistinctSlots;
    if ws == [] {
      NothingStored(d);
    } else {
      var last, front := ws[|ws| - 1], ws[..|ws| - 1];
      LastUnused(ws);
      WriteAllStores(d, front);
      var m := WriteAll(d, front);
      OpenTableGrows(m, front, last);
      ExtendsTransitive(d.bytes, m.bytes, Write(m, last).bytes);
      assert front + [last] == ws;
    }
  }

  lemma NothingStored(d: Draft)
    requires forall i :: 0 <= i < |d.vtable| ==> d.vtable[i] == 0
    ensures OpenTable(d, []) && Extends(d.bytes, d.bytes)
  {
    assert d.bytes[0..] == d.bytes;
  }

  lemma LastUnused(ws: seq<FieldWrite>)
    requires DistinctSlots(ws) && ws != []
    ensures DistinctSlots(ws[..|ws| - 1]) && Unused(ws[..|ws| - 1], ws[|ws| - 1].slot)
  {
  }

  ghost predicate DistinctSlots(ws: seq<FieldWrite>) {
    forall i, j :: 0 <= i < j < |ws| ==> ws[i].slot != ws[j].slot
  }

  /** A field that is not elided gets a slot that is in use. */
  lemma WriteUses(d: Draft, w: FieldWrite)
    requires w.slot < |d.vtable| && (w.RefField? ==> w.target <= |d.bytes|) && !w.Elided()
    ensures Write(d, w).vtable[w.slot] > |d.bytes|
    ensures forall i :: 0 <= i < |d.vtable| && i != w.slot ==> Write(d, w).vtable[i] == d.vtable[i]
  {
    hide LittleEndian, Value;
  }

  lemma WriteLeavesOthers(d: Draft, w: FieldWrite, i: nat)
    requires w.slot < |d.vtable| && (w.RefField? ==> w.target <= |d.bytes|) && i < |d.vtable| && i != w.slot
    ensures Write(d, w).vtable[i] == d.vtable[i]
  {
    if !w.Elided() {
      WriteUses(d, w);
    }
  }

  /** Where a field is stored, if it is. */
  lemma {:induction false} StoredOrNot(d: Draft, ws: seq<FieldWrite>, k: nat)
    requires Addable(d, ws) && DistinctSlots(ws) && k < |ws|
    requires forall i :: 0 <= i < |d.vtable| ==> d.vtable[i] == 0
    ensures var v := WriteAll(d, ws).vtable[ws[k].slot]; if ws[k].Elided() then v == 0 else v > 0
  {
    hide Write;
    var n := |ws| - 1;
    var m := WriteAll(d, ws[..n]);
    if k < n {
      StoredOrNot(d, ws[..n], k);
      WriteLeavesOthers(m, ws[n], ws[k].slot);
    } else {
      StaysUnused(d, ws[..n], ws[n].slot);
      if ws[n].Elided() {
        WriteElided(m, ws[n]);
      } else {
        WriteUses(m, ws[n]);
      }
    }
  }

  lemma WriteElided(d: Draft, w: FieldWrite)
    requires w.slot < |d.vtable| && (w.RefField? ==> w.target <= |d.bytes|) && w.Elided()
    ensures Write(d, w) == d
  {
  }

  lemma {:induction false} StaysUnused(d: Draft, ws: seq<FieldWrite>, i: nat)
    requires Addable(d, ws) && i < |d.vtable| && Unused(ws, i)
    ensures WriteAll(d, ws).vtable[i] == d.vtable[i]
  {
    hide Write;
    if ws != [] {
      var n := |ws| - 1;
      StaysUnused(d, ws[..n], i);
      WriteLeavesOthers(WriteAll(d, ws[..n]), ws[n], i);
    }
  }

  /** Of two stored fields the one added first is nearer to the end of the buffer. */
  lemma {:induction false} StoredInOrder(d: Draft, ws: seq<FieldWrite>, j: nat, k: nat)
    requires Addable(d, ws) && DistinctSlots(ws) && j < k < |ws| && !ws[j].Elided() && !ws[k].Elided()
    requires forall i :: 0 <= i < |d.vtable| ==> d.vtable[i] == 0
    ensures WriteAll(d, ws).vtable[ws[j].slot] < WriteAll(d, ws).vtable[ws[k].slot]
  {
    hide Write;
    var n := |ws| - 1;
    var m := WriteAll(d, ws[..n]);
    WriteLeavesOthers(m, ws[n], ws[j].slot);
    if k < n {
      StoredInOrder(d, ws[..n], j, k);
      WriteLeavesOthers(m, ws[n], ws[k].slot);
    } else {
      WriteUses(m, ws[n]);
    }
  }

  /** The entry of slot `i` in the vtable of an object at `at`, which is what the builder compares
      when it looks for an equal vtable written before. */
  function Entry(vtable: seq<nat>, at: nat, i: nat): (n: int)
    requires i < |vtable|
  {
    if vtable[i] == 0 then 0 else at - vtable[i]
  }

  /** The bytes of the vtable entries, in the order of the slots. */
  function EntryBytes(vtable: seq<nat>, at: nat): (b: Bytes)
    requires forall i :: 0 <= i < |vtable| ==> vtable[i] <= at
    ensures |b| == 2 * |vtable|
    decreases |vtable|
  {
    if vtable == [] then []
    else
      var last := vtable[|vtable| - 1];
      EntryBytes(vtable[..|vtable| - 1], at) + LittleEndian(if last == 0 then 0 else at - last, 2)
  }

  lemma PrependEven(d: Draft, data: Bytes)
    requires |data| == 2 && |d.bytes| % 2 == 0
    ensures Prepend(d, data).bytes == data + d.bytes
  {
    assert Zeros(0) + d.bytes == d.bytes;
  }

  lemma {:induction false} EntriesContiguous(d: Draft, vtable: seq<nat>, at: nat)
    requires |d.bytes| % 2 == 0
    requires forall i :: 0 <= i < |vtable| ==> vtable[i] <= at
    ensures Entries(d, vtable, at).bytes == EntryBytes(vtable, at) + d.bytes
    decreases |vtable|
  {
    if vtable != [] {
      var last, front := vtable[|vtable| - 1], vtable[..|vtable| - 1];
      var data := LittleEndian(if last == 0 then 0 else at - last, 2);
      PrependEven(d, data);
      EntriesContiguous(Prepend(d, data), front, at);
      assert EntryBytes(front, at) + (data + d.bytes) == EntryBytes(front, at) + data + d.bytes;
    } else {
      assert [] + d.bytes == d.bytes;
    }
  }

  lemma {:induction false} EntryReads(vtable: seq<nat>, at: nat, i: nat)
    requires forall i :: 0 <= i < |vtable| ==> vtable[i] <= at
    requires i < |vtable| && (vtable[i] == 0 || at - vtable[i] < 0x1_0000)
    ensures GetU16(EntryBytes(vtable, at), 2 * i) == if vtable[i] == 0 then 0 else at - vtable[i]
    decreases |vtable|
  {
    var last, front := vtable[|vtable| - 1], vtable[..|vtable| - 1];
    var data := LittleEndian(if last == 0 then 0 else at - last, 2);
    var b := EntryBytes(front, at);
    if i < |front| {
      EntryReads(front, at, i);
      assert (b + data)[2 * i..2 * i + 2] == b[2 * i..2 * i + 2];
    } else {
      Bounds();
      LittleEndianReads(if last == 0 then 0 else at - last, 2);
      assert (b + data)[2 * i..2 * i + 2] == data;
    }
  }

  lemma VtableBytes(start: Draft, vtable: seq<nat>, at: nat, own: Bytes, size: Bytes)
    requires |start.bytes| % 2 == 0 && |size| == |own| == 2
    requires forall i :: 0 <= i < |vtable| ==> vtable[i] <= at
    ensures PrependVtable(start, vtable, at, own, size).bytes == own + size + EntryBytes(vtable, at) + start.bytes
  {
    hide Prepend, Entries, EntryBytes;
    EntriesContiguous(start, vtable, at);
    var entries := Entries(start, vtable, at);
    PrependEven(entries, size);
    PrependEven(Prepend(entries, size), own);
  }

  lemma StartAligned(d: Draft)
    ensures var n := |Prepend(d, [0, 0, 0, 0]).bytes|; n % 2 == 0 && n >= |d.bytes| + 4
  {
    hide Pad;
    var n := |Prepend(d, [0, 0, 0, 0]).bytes|;
    assert n == |d.bytes| + Pad(|d.bytes|, 4) + 4 && n % 4 == 0;
    assert n == 2 * (2 * (n / 4));
  }

  lemma EndObjectBytes(d: Draft, start: Draft, vtable: seq<nat>, own: Bytes, size: Bytes, reference: Bytes)
    requires d.objectEnd <= |d.bytes|
    requires forall i :: 0 <= i < |d.vtable| ==> d.vtable[i] <= |d.bytes|
    requires start == Prepend(d, [0, 0, 0, 0]) && vtable == Trim(d.vtable)
    requires own == LittleEndian(4 + 2 * |vtable|, 2) && size == LittleEndian(|start.bytes| - d.objectEnd, 2)
    requires reference == LittleEndian(4 + 2 * |vtable|, 4)
    ensures var (r, at) := EndObject(d);
            && at == |start.bytes|
            && r.bytes == own + size + EntryBytes(vtable, at) + reference + start.bytes[4..]
  {
    hide LittleEndian, EntryBytes, PrependVtable, Prepend, Patch, Trim;
    StartAligned(d);
    VtableBytes(start, vtable, |start.bytes|, own, size);
    PatchFront(own + size + EntryBytes(vtable, |start.bytes|), start.bytes, reference);
  }

  lemma PatchFront(front: Bytes, rest: Bytes, data: Bytes)
    requires |data| <= |rest|
    ensures Patch(front + rest, |front|, data) == front + data + rest[|data|..]
  {
  }

  /** A closed table reads back: its vtable lists every slot of the draft. */
  lemma ObjectHeld(d: Draft)
    requires d.objectEnd <= |d.bytes| < d.objectEnd + 0x1000 < 0x8000_0000
    requires |d.vtable| < 0x100
    requires forall i :: 0 <= i < |d.vtable| ==> SlotInside(d, i) && d.vtable[i] <= |d.bytes|
    ensures var (r, at) := EndObject(d);
            && Extends(d.bytes, r.bytes) && |r.bytes| <= |d.bytes| + 11 + 2 * |d.vtable|
            && |d.bytes| < at <= |r.bytes|
            && HasTable(r.bytes, TableShape(at, |r.bytes|, |Trim(d.vtable)|, d.vtable))
  {
    hide Prepend, EntryBytes, LittleEndian, Value, EndObject, Trim, GetU16, HasU16;
    var start, vtable := Prepend(d, [0, 0, 0, 0]), Trim(d.vtable);
    PrependExtends(d, [0, 0, 0, 0]);
    var n, at := 4 + 2 * |vtable|, |start.bytes|;
    var own, size, reference := LittleEndian(n, 2), LittleEndian(at - d.objectEnd, 2), LittleEndian(n, 4);
    EndObjectBytes(d, start, vtable, own, size, reference);
    var r, body := EndObject(d).0.bytes, EntryBytes(vtable, at);
    ReferenceFollows(d.bytes, start.bytes, r, own + size + body, n);
    EntriesRead(vtable, at);
    Bounds();
    LittleEndianReads(n, 2);
    VtableReads(r, own, size, body, reference + start.bytes[4..], d.vtable, at, |vtable|);
  }

  lemma EntriesRead(vtable: seq<nat>, at: nat)
    requires forall i :: 0 <= i < |vtable| ==> vtable[i] <= at && (vtable[i] == 0 || at - vtable[i] < 0x1_0000)
    ensures var body := EntryBytes(vtable, at);
            forall i :: 0 <= i < |vtable| ==> GetU16(body, 2 * i) == if vtable[i] == 0 then 0 else at - vtable[i]
  {
    hide EntryBytes, Value;
    forall i | 0 <= i < |vtable|
      ensures GetU16(EntryBytes(vtable, at), 2 * i) == if vtable[i] == 0 then 0 else at - vtable[i]
    {
      EntryReads(vtable, at, i);
    }
  }

  lemma VtableReads(r: Bytes, own: Bytes, size: Bytes, body: Bytes, rest: Bytes, slots: seq<nat>, at: nat, kept: nat)
    requires |own| == |size| == 2 && |body| == 2 * kept && kept <= |slots|
    requires forall i :: 0 <= i < |slots| ==> slots[i] <= at
    requires forall i :: 0 <= i < kept ==> GetU16(body, 2 * i) == if slots[i] == 0 then 0 else at - slots[i]
    requires r == own + size + body + rest
    ensures HasU16(r, |r|, Value(own))
    ensures forall i :: 0 <= i < kept ==> HasU16(r, |r| - 4 - 2 * i, if slots[i] == 0 then 0 else at - slots[i])
  {
    assert r[0..2] == own;
    forall i | 0 <= i < kept
      ensures HasU16(r, |r| - 4 - 2 * i, if slots[i] == 0 then 0 else at - slots[i])
    {
      assert GetU16(body, 2 * i) == if slots[i] == 0 then 0 else at - slots[i];
      assert r[4 + 2 * i..4 + 2 * i + 2] == body[2 * i..2 * i + 2];
    }
  }

  /** The patched reference lies just in front of what was written before the table was closed. */
  lemma ReferenceFollows(a: Bytes, start: Bytes, r: Bytes, front: Bytes, n: nat)
    requires Extends(a, start) && |start| >= |a| + 4 && n < 0x1_0000
    requires r == front + LittleEndian(n, 4) + start[4..]
    ensures Extends(a, r) && HasU32(r, |start|, n)
  {
    var rest := start[4..];
    assert a == rest[|rest| - |a|..];
    assert Extends(rest, r);
    ExtendsTransitive(a, rest, r);
    Bounds();
    LittleEndianReads(n, 4);
    assert r[|front|..|front| + 4] == LittleEndian(n, 4);
  }

  // ---------------------------------------------------------------- alignment

  predicate Multiple(n: nat, size: Alignment) {
    (size == 2 ==> n % 2 == 0) && (size == 4 ==> n % 4 == 0) && (size == 8 ==> n % 8 == 0)
  }

  lemma PrepAligns(d: Draft, size: Alignment, extra: nat)
    ensures var r := Prep(d, size, extra);
            Multiple(|r.bytes| + extra, size) && r.minalign >= size && r.minalign >= d.minalign && r.vtable == d.vtable
  {
  }

  lemma MultipleMore(n: nat, size: Alignment)
    requires Multiple(n, size)
    ensures Multiple(n + size, size)
  {
    if size == 8 {
      assert (n + 8) % 8 == n % 8;
    } else if size == 4 {
      assert (n + 4) % 4 == n % 4;
    }
  }

  lemma PrependAligns(d: Draft, data: Bytes)
    requires |data| in {1, 2, 4, 8}
    ensures var r := Prepend(d, data);
            Multiple(|r.bytes|, |data|) && r.minalign >= |data| && r.minalign >= d.minalign && r.vtable == d.vtable
  {
    PrepAligns(d, |data|, 0);
    hide Prep, Multiple;
    MultipleMore(|Prep(d, |data|, 0).bytes|, |data|);
  }

  lemma ReferenceAligns(d: Draft, target: nat)
    requires target <= |d.bytes|
    ensures var r := PrependReference(d, target); |r.bytes| % 4 == 0 && r.minalign >= 4 && r.minalign >= d.minalign && r.vtable == d.vtable
  {
    PrepAligns(d, 4, 0);
    hide Prep, LittleEndian;
    assert |PrependReference(d, target).bytes| == |Prep(d, 4, 0).bytes| + 4;
  }

  /** A stored field lies at a multiple of its width from the end, and the whole buffer will, too. */
  lemma WriteAligns(d: Draft, w: FieldWrite)
    requires w.slot < |d.vtable| && (w.RefField? ==> w.target <= |d.bytes|)
    ensures var r := Write(d, w);
            && r.minalign >= d.minalign
            && (!w.Elided() ==> Multiple(r.vtable[w.slot], w.Width()) && r.minalign >= w.Width())
  {
    hide LittleEndian, Prep, PrependReference;
    match w
    case RefField(_, target) => ReferenceAligns(d, target);
    case ByteField(_, b) => PrependAligns(d, [b]);
    case U32Field(_, n) => PrependAligns(d, LittleEndian(n, 4));
    case U64Field(_, m) => PrependAligns(d, LittleEndian(m, 8));
  }

  lemma {:induction false} WriteAllAligns(d: Draft, ws: seq<FieldWrite>)
    requires Addable(d, ws) && DistinctSlots(ws)
    ensures var r := WriteAll(d, ws);
            && r.minalign >= d.minalign
            && forall k :: 0 <= k < |ws| && !ws[k].Elided() ==>
                 Multiple(r.vtable[ws[k].slot], ws[k].Width()) && r.minalign >= ws[k].Width()
  {
    hide Write, Multiple;
    if ws != [] {
      var n := |ws| - 1;
      var m := WriteAll(d, ws[..n]);
      WriteAllAligns(d, ws[..n]);
      WriteAligns(m, ws[n]);
      forall k | 0 <= k < n && !ws[k].Elided()
        ensures WriteAll(d, ws).vtable[ws[k].slot] == m.vtable[ws[k].slot] && m.minalign >= ws[k].Width()
        ensures Multiple(m.vtable[ws[k].slot], ws[k].Width())
      {
        WriteLeavesOthers(m, ws[n], ws[k].slot);
        assert ws[..n][k] == ws[k];
      }
    }
  }

  lemma {:induction false} EntriesAlign(d: Draft, vtable: seq<nat>, at: nat)
    requires forall i :: 0 <= i < |vtable| ==> vtable[i] <= at
    ensures Entries(d, vtable, at).minalign >= d.minalign
    decreases |vtable|
  {
    if vtable != [] {
      var last, front := vtable[|vtable| - 1], vtable[..|vtable| - 1];
      var data := LittleEndian(if last == 0 then 0 else at - last, 2);
      PrependAligns(d, data);
      hide LittleEndian, Prepend;
      EntriesAlign(Prepend(d, data), front, at);
    }
  }

  lemma EndAligns(d: Draft)
    requires d.objectEnd <= |d.bytes| && forall i :: 0 <= i < |d.vtable| ==> d.vtable[i] <= |d.bytes|
    ensures var (r, at) := EndObject(d); at % 4 == 0 && r.minalign >= d.minalign && r.minalign >= 4
  {
    hide LittleEndian, Prepend, Entries, Patch, Trim;
    var start := Prepend(d, [0, 0, 0, 0]);
    PrependAligns(d, [0, 0, 0, 0]);
    var at, vtable := |start.bytes|, Trim(d.vtable);
    var own, size := LittleEndian(4 + 2 * |vtable|, 2), LittleEndian(at - d.objectEnd, 2);
    EntriesAlign(start, vtable, at);
    PrependAligns(Entries(start, vtable, at), size);
    PrependAligns(Prepend(Entries(start, vtable, at), size), own);
  }

  /** The second entry of a vtable is the size of the object. */
  lemma EndNotesSize(d: Draft)
    requires d.objectEnd <= |d.bytes| < d.objectEnd + 0x1000
    requires forall i :: 0 <= i < |d.vtable| ==> d.vtable[i] <= |d.bytes|
    ensures var (r, at) := EndObject(d); HasU16(r.bytes, |r.bytes| - 2, at - d.objectEnd)
  {
    hide Prepend, EntryBytes, LittleEndian, Value, EndObject, Trim;
    var start, vtable := Prepend(d, [0, 0, 0, 0]), Trim(d.vtable);
    PrependExtends(d, [0, 0, 0, 0]);
    var n, at := 4 + 2 * |vtable|, |start.bytes|;
    var own, size, reference := LittleEndian(n, 2), LittleEndian(at - d.objectEnd, 2), LittleEndian(n, 4);
    EndObjectBytes(d, start, vtable, own, size, reference);
    Bounds();
    LittleEndianReads(at - d.objectEnd, 2);
    var r := EndObject(d).0.bytes;
    assert r[2..4] == size;
  }

  /** The zero byte after a vector that is a string to C. */
  ghost predicate Terminated(buf: Bytes, off: nat, s: Bytes) {
    |s| + 5 <= off <= |buf| && buf[|buf| - off + 4 + |s|] == 0
  }

  lemma TerminatedKept(a: Bytes, b: Bytes, off: nat, s: Bytes)
    requires Extends(a, b) && Terminated(a, off, s)
    ensures Terminated(b, off, s)
  {
    var i := |a| - off + 4 + |s|;
    assert b[|b| - |a|..][i] == a[i];
  }

  lemma StringAligns(d: Draft, s: Bytes)
    ensures var (r, at) := CreateByteString(d, s);
            at % 4 == 0 && r.minalign >= d.minalign && r.minalign >= 4 && Terminated(r.bytes, at, s)
  {
    PrepAligns(d, 4, |s| + 1);
    hide Prep, LittleEndian;
    var p := Prep(d, 4, |s| + 1);
    var at := CreateByteString(d, s).1;
    assert at == |p.bytes| + (|s| + 1) + 4;
    MultipleMore(|p.bytes| + (|s| + 1), 4);
    assert (LittleEndian(|s|, 4) + (s + ([0] + p.bytes)))[4 + |s|] == 0;
  }

  /** The finished buffer is as aligned as anything in it. */
  lemma FinishAligns(d: Draft, root: nat)
    requires root <= |d.bytes|
    ensures Multiple(|Finish(d, root)|, d.minalign) && |Finish(d, root)| % 4 == 0
  {
    var p := Prep(d, d.minalign, 4);
    PrepAligns(d, d.minalign, 4);
    PrepAligns(p, 4, 0);
    FinishSize(d, root);
    MoreThanWords(|Prep(p, 4, 0).bytes|, d.minalign);
    hide Prep, Finish, Pad;
    if d.minalign >= 4 {
      WordAligned(|p.bytes|, d.minalign);
      NothingToPad(p);
      hide Multiple;
    }
  }

  lemma MoreThanWords(n: nat, size: Alignment)
    requires n % 4 == 0
    ensures (n + 4) % 4 == 0 && (size < 4 ==> Multiple(n + 4, size))
  {
    assert n + 4 == 4 * (n / 4 + 1);
    assert n + 4 == 2 * (2 * (n / 4 + 1));
  }

  lemma FinishSize(d: Draft, root: nat)
    requires root <= |d.bytes|
    ensures |Finish(d, root)| == |Prep(Prep(d, d.minalign, 4), 4, 0).bytes| + 4
  {
    hide LittleEndian, Pad;
  }

  lemma WordAligned(n: nat, size: Alignment)
    requires size >= 4 && Multiple(n + 4, size)
    ensures n % 4 == 0
  {
  }

  lemma NothingToPad(p: Draft)
    requires |p.bytes| % 4 == 0
    ensures |Prep(p, 4, 0).bytes| == |p.bytes|
  {
  }
}
