/** Packing 2- and 4-bit codes into bytes. */
module BitPacking {
  import opened Machine

  predicate BitsOk(bits: nat) {
    bits == 2 || bits == 4
  }

  /** Byte and bit position of code `i`, as the cursor arithmetic finds them. */
  function ByteOf(i: nat, bits: nat): nat {
    i * bits / 8
  }

  function ShiftOf(i: nat, bits: nat): nat {
    i * bits % 8
  }

  function Mask(bits: nat): bv8 {
    if bits == 2 then 3 else 15
  }

  /** The bit positions a code can start at. */
  predicate ShiftOk(shift: nat, bits: nat) {
    shift == 0 || shift == 4 || (bits == 2 && (shift == 2 || shift == 6))
  }

  lemma {:induction false} EightParts(n: nat, q: nat, r: nat)
    requires n == 8 * q + r && r < 8
    ensures n / 8 == q && n % 8 == r
  {
  }

  /** No code straddles two bytes, and neighbours share or change bytes. */
  lemma {:induction false} CursorMoves(i: nat, bits: nat)
    requires BitsOk(bits)
    ensures ShiftOf(i, bits) + bits <= 8
    ensures ShiftOk(ShiftOf(i, bits), bits)
    ensures ShiftOf(i, bits) + bits < 8 ==>
              ByteOf(i + 1, bits) == ByteOf(i, bits) && ShiftOf(i + 1, bits) == ShiftOf(i, bits) + bits
    ensures ShiftOf(i, bits) + bits == 8 ==>
              ByteOf(i + 1, bits) == ByteOf(i, bits) + 1 && ShiftOf(i + 1, bits) == 0
  {
    if bits == 2 {
      var q, r := i / 4, i % 4;
      EightParts(i * bits, q, 2 * r);
      EightParts((i + 1) * bits, if r < 3 then q else q + 1, if r < 3 then 2 * r + 2 else 0);
    } else {
      var q, r := i / 2, i % 2;
      EightParts(i * bits, q, 4 * r);
      EightParts((i + 1) * bits, if r < 1 then q else q + 1, if r < 1 then 4 else 0);
    }
  }

  function Shr(b: bv8, shift: nat): bv8 {
    if shift == 0 then b
    else if shift == 2 then b >> 2
    else if shift == 4 then b >> 4
    else if shift == 6 then b >> 6
    else 0
  }

  function Shl(b: bv8, shift: nat): bv8 {
    if shift == 0 then b
    else if shift == 2 then b << 2
    else if shift == 4 then b << 4
    else if shift == 6 then b << 6
    else 0
  }

  function Extract(b: bv8, shift: nat, bits: nat): bv8 {
    Shr(b, shift) & Mask(bits)
  }

  /** A code written above the bits in use reads back. */
  lemma {:induction false} WriteRead(b: bv8, code: bv8, shift: nat, bits: nat)
    requires BitsOk(bits) && ShiftOk(shift, bits) && Shr(b, shift) == 0 && code <= Mask(bits)
    ensures Extract(b | Shl(code, shift), shift, bits) == code
    ensures shift + bits < 8 ==> Shr(b | Shl(code, shift), shift + bits) == 0
  {
  }

  /** It disturbs no code below it. */
  lemma {:induction false} WriteKeeps(b: bv8, code: bv8, shift: nat, bits: nat, lower: nat)
    requires BitsOk(bits) && ShiftOk(shift, bits) && ShiftOk(lower, bits) && lower + bits <= shift
    ensures Extract(b | Shl(code, shift), lower, bits) == Extract(b, lower, bits)
  {
  }

  // ---------------------------------------------------------------------
  // Packed sequences
  // ---------------------------------------------------------------------

  function PackedLength(n: nat, bits: nat): nat {
    ByteOf(n, bits) + if ShiftOf(n, bits) > 0 then 1 else 0
  }

  lemma {:induction false} Earlier(i: nat, n: nat, bits: nat)
    requires BitsOk(bits) && i < n
    ensures ByteOf(i, bits) < PackedLength(n, bits)
    ensures ByteOf(i, bits) < ByteOf(n, bits)
            || (ByteOf(i, bits) == ByteOf(n, bits) && ShiftOf(i, bits) + bits <= ShiftOf(n, bits))
  {
    if bits == 2 {
      assert i * 2 + 2 <= n * 2;
    } else {
      assert i * 4 + 4 <= n * 4;
    }
  }

  predicate CodeIs(packed: seq<bv8>, bits: nat, i: nat, code: bv8) {
    ByteOf(i, bits) < |packed| && Extract(packed[ByteOf(i, bits)], ShiftOf(i, bits), bits) == code
  }

  /** `packed` is the packing of `codes`: every code in its place, nothing in
      the unused high bits. */
  predicate Packs(packed: seq<bv8>, bits: nat, codes: seq<bv8>) {
    && |packed| == PackedLength(|codes|, bits)
    && (forall i: nat | i < |codes| :: CodeIs(packed, bits, i, codes[i]))
    && (ShiftOf(|codes|, bits) > 0 ==> Shr(packed[|packed| - 1], ShiftOf(|codes|, bits)) == 0)
  }

  /** The bytes with room for one more code. */
  function Room(packed: seq<bv8>, offset: nat): (room: seq<bv8>)
    requires offset <= |packed|
    ensures offset < |room| && |packed| <= |room| && forall i :: 0 <= i < |packed| ==> room[i] == packed[i]
  {
    if offset == |packed| then packed + [0] else packed
  }

  lemma {:induction false} RoomFor(packed: seq<bv8>, bits: nat, codes: seq<bv8>)
    requires BitsOk(bits) && Packs(packed, bits, codes)
    ensures var offset, shift := ByteOf(|codes|, bits), ShiftOf(|codes|, bits);
            && offset <= |packed| && |Room(packed, offset)| == offset + 1
            && Shr(Room(packed, offset)[offset], shift) == 0
  {
    ZeroShift(ShiftOf(|codes|, bits));
  }

  lemma {:induction false} PackedGrows(n: nat, bits: nat)
    requires BitsOk(bits)
    ensures PackedLength(n + 1, bits) == ByteOf(n, bits) + 1
  {
    hide ByteOf, ShiftOf;
    CursorMoves(n, bits);
  }

  /** The bytes after one more code. */
  function Pushed(packed: seq<bv8>, bits: nat, n: nat, code: bv8): seq<bv8>
    requires ByteOf(n, bits) <= |packed|
  {
    var offset := ByteOf(n, bits);
    var room := Room(packed, offset);
    room[offset := room[offset] | Shl(code, ShiftOf(n, bits))]
  }

  lemma {:induction false} PushKeeps(packed: seq<bv8>, bits: nat, codes: seq<bv8>, code: bv8, i: nat)
    requires BitsOk(bits) && Packs(packed, bits, codes) && code <= Mask(bits) && i < |codes|
    ensures ByteOf(|codes|, bits) <= |packed|
    ensures CodeIs(Pushed(packed, bits, |codes|, code), bits, i, codes[i])
  {
    hide Extract, Shl, Shr, ByteOf, ShiftOf, Mask, PackedLength, Room;
    var n := |codes|;
    RoomFor(packed, bits, codes);
    CursorMoves(n, bits);
    Earlier(i, n, bits);
    CursorMoves(i, bits);
    assert CodeIs(packed, bits, i, codes[i]);
    if ByteOf(i, bits) == ByteOf(n, bits) {
      WriteKeeps(Room(packed, ByteOf(n, bits))[ByteOf(n, bits)], code, ShiftOf(n, bits), bits, ShiftOf(i, bits));
    }
  }

  lemma {:induction false} PushAdds(packed: seq<bv8>, bits: nat, codes: seq<bv8>, code: bv8)
    requires BitsOk(bits) && Packs(packed, bits, codes) && code <= Mask(bits)
    ensures ByteOf(|codes|, bits) <= |packed|
    ensures var next, n := Pushed(packed, bits, |codes|, code), |codes|;
            && CodeIs(next, bits, n, code) && |next| == PackedLength(n + 1, bits)
            && (ShiftOf(n + 1, bits) > 0 ==> Shr(next[|next| - 1], ShiftOf(n + 1, bits)) == 0)
  {
    hide Extract, Shl, Shr, ByteOf, ShiftOf, Mask, PackedLength, Room;
    var n := |codes|;
    RoomFor(packed, bits, codes);
    PackedGrows(n, bits);
    CursorMoves(n, bits);
    WriteRead(Room(packed, ByteOf(n, bits))[ByteOf(n, bits)], code, ShiftOf(n, bits), bits);
  }

  lemma {:induction false} PushPacks(packed: seq<bv8>, bits: nat, codes: seq<bv8>, code: bv8)
    requires BitsOk(bits) && Packs(packed, bits, codes) && code <= Mask(bits)
    ensures ByteOf(|codes|, bits) <= |packed|
    ensures Packs(Pushed(packed, bits, |codes|, code), bits, codes + [code])
  {
    hide CodeIs, Pushed, Shr, ByteOf, ShiftOf, Mask, PackedLength;
    PushAdds(packed, bits, codes, code);
    forall i: nat | i < |codes| ensures CodeIs(Pushed(packed, bits, |codes|, code), bits, i, codes[i]) {
      PushKeeps(packed, bits, codes, code, i);
    }
  }

  /** Ors the code into its byte, appending the byte first if it is new. */
  method Place(packed: seq<bv8>, bits: nat, cursor: nat, code: bv8) returns (next: seq<bv8>)
    requires BitsOk(bits) && ByteOf(cursor, bits) <= |packed|
    ensures next == Pushed(packed, bits, cursor, code)
  {
    hide Shl, ByteOf, ShiftOf;
    CursorMoves(cursor, bits);
    var offset, shift := ByteOf(cursor, bits), ShiftOf(cursor, bits);
    next := packed;
    if offset == |next| {
      next := next + [0];
    }
    next := next[offset := next[offset] | Shl(code, shift)];
    if shift + bits > 8 {
      assert false;
    }
  }

  class BitWriter {
    var packed: seq<bv8>
    const bits: nat
    var cursor: nat
    ghost var codes: seq<bv8>

    ghost predicate Valid()
      reads this
    {
      BitsOk(bits) && cursor == |codes| && Packs(packed, bits, codes)
    }

    constructor (bits: nat)
      requires BitsOk(bits)
      ensures Valid() && codes == [] && this.bits == bits
    {
      this.bits := bits;
      packed, cursor, codes := [], 0, [];
    }

    method Push(code: bv8)
      requires Valid() && code <= Mask(bits)
      modifies this
      ensures Valid() && codes == old(codes) + [code]
    {
      hide Pushed, ByteOf, Packs, Mask;
      PushPacks(packed, bits, codes, code);
      packed := Place(packed, bits, cursor, code);
      cursor := cursor + 1;
      codes := codes + [code];
    }
  }

  lemma {:induction false} ZeroShift(shift: nat)
    ensures Shr(0, shift) == 0
  {
  }

  class BitReader {
    const packed: seq<bv8>
    const bits: nat
    var cursor: nat

    constructor (packed: seq<bv8>, bits: nat)
      requires BitsOk(bits)
      ensures this.packed == packed && this.bits == bits && cursor == 0
    {
      this.packed, this.bits, cursor := packed, bits, 0;
    }

    /** The code under the cursor, or nothing past the end. */
    method Next() returns (code: Option<bv8>)
      requires BitsOk(bits)
      modifies this`cursor
      ensures code.Some? <==> ByteOf(old(cursor), bits) < |packed|
      ensures code.Some? ==>
                cursor == old(cursor) + 1 && CodeIs(packed, bits, old(cursor), code.value) && code.value <= Mask(bits)
      ensures code.None? ==> cursor == old(cursor)
    {
      CursorMoves(cursor, bits);
      var offset, shift := ByteOf(cursor, bits), ShiftOf(cursor, bits);
      if offset >= |packed| {
        return None;
      }
      if shift + bits > 8 {
        assert false;
      }
      var value := Shr(packed[offset], shift) & Mask(bits);
      cursor := cursor + 1;
      return Some(value);
    }
  }

  /** Packing loses nothing and has one form. */
  lemma {:induction false} PackingIsUnique(packed: seq<bv8>, bits: nat, a: seq<bv8>, b: seq<bv8>)
    requires |a| == |b| && Packs(packed, bits, a) && Packs(packed, bits, b)
    ensures a == b
  {
    forall i: nat | i < |a| ensures a[i] == b[i] {
      assert CodeIs(packed, bits, i, a[i]) && CodeIs(packed, bits, i, b[i]);
    }
  }
}
