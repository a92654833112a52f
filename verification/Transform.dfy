/** Transform descriptors: their canonical bytes and what they do. */
module Transform {
  import opened Machine
  import opened LittleEndian
  import opened Wire
  import opened Permutations
  import opened Repack

  const MAGIC: seq<byte> := [0x4B, 0x56, 0x58, 0x46, 0x4D, 0x31, 0, 0]
  const TRANSFORM_VERSION := 1
  const MAX_TRANSFORM_LABEL_BYTES := 128

  datatype Descriptor = Descriptor(schemaVersion: u32, name: seq<byte>, sourceLayout: seq<byte>, ops: seq<Op>)

  // ---------------------------------------------------------------------
  // Bytes of an operation
  // ---------------------------------------------------------------------

  function CastTag(d: CastDType): u16 {
    match d
    case Fp16 => 1
    case Bf16 => 2
    case Fp8E4m3 => 3
  }

  function CastFrom(x: nat): Option<CastDType> {
    if x == 1 then Some(Fp16) else if x == 2 then Some(Bf16) else if x == 3 then Some(Fp8E4m3) else None
  }

  function DirectionTag(d: Direction): u16 {
    if d.NeoxToInterleaved? then 1 else 2
  }

  function DirectionFrom(x: nat): Option<Direction> {
    if x == 1 then Some(NeoxToInterleaved) else if x == 2 then Some(InterleavedToNeox) else None
  }

  function ZeroBytes(): Id32 {
    Repeat(0, 32)
  }

  function ScaleBytes(scaleId: Option<Id32>): seq<byte> {
    Le(if scaleId.Some? then 1 else 0, 1) + if scaleId.Some? then scaleId.value else ZeroBytes()
  }

  /** An absent scale is 33 zero bytes, a present one its identity after a one. */
  lemma {:induction false} ScaleWire(scaleId: Option<Id32>)
    ensures |ScaleBytes(scaleId)| == 33
    ensures scaleId.None? ==> ScaleBytes(scaleId) == Repeat(0, 33)
    ensures scaleId.Some? ==> ScaleBytes(scaleId) == [1] + scaleId.value
  {
    assert Le(0, 1) == [0] && Le(1, 1) == [1];
    assert [0] + Repeat(0, 32) == Repeat(0 as byte, 33);
  }

  function TagOf(op: Op): (tag: u16)
    ensures 1 <= tag <= 6
  {
    match op
    case PermuteHeadPairs(_) => 1
    case ReorderPlanes(_) => 2
    case RegroupLayers(_) => 3
    case PadOrTrim(_) => 4
    case DtypeCast(_, _, _) => 5
    case RopePermute(_, _) => 6
  }

  /** The bytes of an operation behind its tag. */
  function Body(op: Op): seq<byte> {
    match op
    case PermuteHeadPairs(order) => Le(|order|, 2) + TokenBytes(order)
    case ReorderPlanes(order) => Le(|order|, 2) + TokenBytes(order)
    case RegroupLayers(order) => Le(|order|, 2) + TokenBytes(order)
    case PadOrTrim(target) => Le(target, 8)
    case DtypeCast(from, to, scaleId) => Le(CastTag(from), 2) + (Le(CastTag(to), 2) + ScaleBytes(scaleId))
    case RopePermute(direction, headDim) => Le(DirectionTag(direction), 2) + Le(headDim, 4)
  }

  function OpBytes(op: Op): seq<byte> {
    Le(TagOf(op), 2) + Body(op)
  }

  /** What fits the wire, valid or not. */
  predicate Writable(op: Op) {
    op.PermuteHeadPairs? || op.ReorderPlanes? || op.RegroupLayers? ==> |op.order| < U16_LIMIT
  }

  // ---------------------------------------------------------------------
  // Parsing an operation
  // ---------------------------------------------------------------------

  function ParseOrder(input: seq<byte>): Parsed<seq<nat>> {
    var n := ParseNumber(input, 2);
    if n.Fail? then Fail else ParseWords(n.rest, n.value)
  }

  lemma {:induction false} OrderExact(input: seq<byte>, order: seq<u32>, rest: seq<byte>)
    requires |order| < U16_LIMIT
    ensures ParseOrder(input) == Got(order, rest) <==> input == Le(|order|, 2) + TokenBytes(order) + rest
  {
    hide Le, ParseNumber, ParseWords, TokenBytes;
    Widths();
    NumberExact(input, 2, |order|, TokenBytes(order) + rest);
    assert Le(|order|, 2) + TokenBytes(order) + rest == Le(|order|, 2) + (TokenBytes(order) + rest);
    var n := ParseNumber(input, 2);
    if n.Got? {
      WordsExact(n.rest, order, rest);
      WordsFit(n.rest, n.value);
    }
  }

  lemma {:induction false} OrderFits(input: seq<byte>)
    ensures ParseOrder(input).Got? ==>
              && |ParseOrder(input).value| < U16_LIMIT
              && forall i :: 0 <= i < |ParseOrder(input).value| ==> ParseOrder(input).value[i] < U32_LIMIT
  {
    hide ParseWords;
    Widths();
    NumberFits(input, 2);
    var n := ParseNumber(input, 2);
    if n.Got? {
      WordsFit(n.rest, n.value);
    }
  }

  /** Scale marker and identity of a cast. */
  function ParseScale(input: seq<byte>): Parsed<Option<Id32>> {
    var present := ParseNumber(input, 1);
    if present.Fail? then Fail
    else
      var id := ParseBytes(present.rest, 32);
      if id.Fail? then Fail
      else if present.value == 0 && id.value == ZeroBytes() then Got(None, id.rest)
      else if present.value == 1 then Got(Some(id.value), id.rest)
      else Fail
  }

  lemma {:induction false} ScaleExact(input: seq<byte>, scaleId: Option<Id32>, rest: seq<byte>)
    ensures ParseScale(input) == Got(scaleId, rest) <==> input == ScaleBytes(scaleId) + rest
  {
    hide Le, ParseNumber, ParseBytes, ZeroBytes;
    Widths();
    var marker: nat := if scaleId.Some? then 1 else 0;
    var id := if scaleId.Some? then scaleId.value else ZeroBytes();
    NumberExact(input, 1, marker, id + rest);
    assert ScaleBytes(scaleId) + rest == Le(marker, 1) + (id + rest);
    var present := ParseNumber(input, 1);
    if present.Got? {
      BytesExact(present.rest, id, rest);
    }
  }

  function ParseCast(input: seq<byte>): Parsed<Op> {
    var f := ParseNumber(input, 2);
    if f.Fail? || CastFrom(f.value).None? then Fail
    else
      var t := ParseNumber(f.rest, 2);
      if t.Fail? || CastFrom(t.value).None? then Fail
      else
        var s := ParseScale(t.rest);
        if s.Fail? then Fail else Got(DtypeCast(CastFrom(f.value).value, CastFrom(t.value).value, s.value), s.rest)
  }

  lemma {:induction false} CastExact(
      input: seq<byte>, from: CastDType, to: CastDType, scaleId: Option<Id32>, rest: seq<byte>)
    ensures ParseCast(input) == Got(DtypeCast(from, to, scaleId), rest) <==>
              input == Le(CastTag(from), 2) + (Le(CastTag(to), 2) + ScaleBytes(scaleId)) + rest
  {
    hide Le, ParseNumber, ParseScale, ScaleBytes;
    Widths();
    var tail := ScaleBytes(scaleId) + rest;
    NumberExact(input, 2, CastTag(from), Le(CastTag(to), 2) + tail);
    assert Le(CastTag(from), 2) + (Le(CastTag(to), 2) + ScaleBytes(scaleId)) + rest ==
           Le(CastTag(from), 2) + (Le(CastTag(to), 2) + tail);
    var f := ParseNumber(input, 2);
    if f.Got? {
      NumberExact(f.rest, 2, CastTag(to), tail);
      var t := ParseNumber(f.rest, 2);
      if t.Got? {
        ScaleExact(t.rest, scaleId, rest);
      }
    }
  }

  function ParseRope(input: seq<byte>): Parsed<Op> {
    var d := ParseNumber(input, 2);
    if d.Fail? || DirectionFrom(d.value).None? then Fail
    else
      var h := ParseNumber(d.rest, 4);
      if h.Fail? || h.value >= U32_LIMIT then Fail
      else Got(RopePermute(DirectionFrom(d.value).value, h.value), h.rest)
  }

  lemma {:induction false} RopeExact(input: seq<byte>, direction: Direction, headDim: u32, rest: seq<byte>)
    ensures ParseRope(input) == Got(RopePermute(direction, headDim), rest) <==>
              input == Le(DirectionTag(direction), 2) + Le(headDim, 4) + rest
  {
    hide Le, ParseNumber;
    Widths();
    NumberExact(input, 2, DirectionTag(direction), Le(headDim, 4) + rest);
    assert Le(DirectionTag(direction), 2) + Le(headDim, 4) + rest ==
           Le(DirectionTag(direction), 2) + (Le(headDim, 4) + rest);
    var d := ParseNumber(input, 2);
    if d.Got? {
      NumberExact(d.rest, 4, headDim, rest);
    }
  }

  /** An order under one of the three permutation tags. */
  function WithOrder(tag: nat, order: seq<u32>): Op {
    if tag == 1 then PermuteHeadPairs(order) else if tag == 2 then ReorderPlanes(order) else RegroupLayers(order)
  }

  function ParseBody(tag: nat, input: seq<byte>): Parsed<Op> {
    if 1 <= tag <= 3 then
      var order := ParseOrder(input);
      if order.Fail? then Fail
      else
        OrderFits(input);
        Got(WithOrder(tag, order.value), order.rest)
    else if tag == 4 then
      var target := ParseNumber(input, 8);
      if target.Fail? || target.value >= U64_LIMIT then Fail else Got(PadOrTrim(target.value), target.rest)
    else if tag == 5 then ParseCast(input)
    else if tag == 6 then ParseRope(input)
    else Fail
  }

  function ParseOp(input: seq<byte>): Parsed<Op> {
    var tag := ParseNumber(input, 2);
    if tag.Fail? then Fail else ParseBody(tag.value, tag.rest)
  }

  /** After its tag, a body is parsed exactly as it was written. */
  lemma {:induction false} BodyExact(input: seq<byte>, op: Op, rest: seq<byte>)
    requires Writable(op)
    ensures ParseBody(TagOf(op), input) == Got(op, rest) <==> input == Body(op) + rest
  {
    hide Le, TokenBytes, ScaleBytes, ParseNumber, ParseOrder, ParseCast, ParseRope;
    Widths();
    match op
    case PermuteHeadPairs(order) => OrderExact(input, order, rest);
    case ReorderPlanes(order) => OrderExact(input, order, rest);
    case RegroupLayers(order) => OrderExact(input, order, rest);
    case PadOrTrim(target) => NumberExact(input, 8, target, rest);
    case DtypeCast(from, to, scaleId) => CastExact(input, from, to, scaleId, rest);
    case RopePermute(direction, headDim) => RopeExact(input, direction, headDim, rest);
  }

  lemma {:induction false} BodyTag(tag: nat, input: seq<byte>)
    ensures ParseBody(tag, input).Got? ==>
              tag == TagOf(ParseBody(tag, input).value) && Writable(ParseBody(tag, input).value)
  {
    hide ParseNumber, ParseScale, Le;
    OrderFits(input);
  }

  /** Operations are parsed exactly where they were written, and nothing else
      is parsed as one. */
  lemma {:induction false} OpExact(input: seq<byte>, op: Op, rest: seq<byte>)
    ensures Writable(op) ==> (ParseOp(input) == Got(op, rest) <==> input == OpBytes(op) + rest)
    ensures ParseOp(input) == Got(op, rest) ==> Writable(op)
  {
    hide Le, ParseNumber, ParseBody, Body, Writable, TagOf;
    Widths();
    assert Le(TagOf(op), 2) + Body(op) + rest == Le(TagOf(op), 2) + (Body(op) + rest);
    NumberExact(input, 2, TagOf(op), Body(op) + rest);
    var tag := ParseNumber(input, 2);
    if tag.Got? {
      BodyTag(tag.value, tag.rest);
      if Writable(op) {
        BodyExact(tag.rest, op, rest);
        BodyExact(Body(op) + rest, op, rest);
      }
    }
  }

  // ---------------------------------------------------------------------
  // Lists of operations
  // ---------------------------------------------------------------------

  function OpsBytes(ops: seq<Op>): seq<byte> {
    if ops == [] then [] else OpBytes(ops[0]) + OpsBytes(ops[1..])
  }

  function ParseOps(input: seq<byte>, count: nat): Parsed<seq<Op>>
    decreases count
  {
    if count == 0 then Got([], input)
    else
      var op := ParseOp(input);
      if op.Fail? then Fail
      else
        var more := ParseOps(op.rest, count - 1);
        if more.Fail? then Fail else Got([op.value] + more.value, more.rest)
  }

  predicate AllWritable(ops: seq<Op>) {
    forall i :: 0 <= i < |ops| ==> Writable(ops[i])
  }

  lemma {:induction false} OpsExact(input: seq<byte>, ops: seq<Op>, rest: seq<byte>)
    requires AllWritable(ops)
    ensures ParseOps(input, |ops|) == Got(ops, rest) <==> input == OpsBytes(ops) + rest
    decreases |ops|
  {
    hide OpBytes, ParseOp, Writable;
    if ops == [] {
      assert OpsBytes(ops) + rest == rest;
    } else {
      var first, more := ops[0], ops[1..];
      assert OpsBytes(ops) + rest == OpBytes(first) + (OpsBytes(more) + rest);
      OpExact(input, first, OpsBytes(more) + rest);
      var op := ParseOp(input);
      if op.Got? {
        OpsExact(op.rest, more, rest);
        OpExact(input, op.value, op.rest);
        assert ops == [first] + more;
        var tail := ParseOps(op.rest, |more|);
        if tail.Got? {
          assert ([op.value] + tail.value)[1..] == tail.value;
        }
      }
    }
  }

  lemma {:induction false} OpsFit(input: seq<byte>, count: nat)
    ensures ParseOps(input, count).Got? ==>
              |ParseOps(input, count).value| == count && AllWritable(ParseOps(input, count).value)
    decreases count
  {
    hide ParseOp, Writable;
    if count == 0 {
    } else {
      var op := ParseOp(input);
      if op.Got? {
        OpExact(input, op.value, op.rest);
        OpsFit(op.rest, count - 1);
      }
    }
  }

  // ---------------------------------------------------------------------
  // Descriptors
  // ---------------------------------------------------------------------

  predicate LabelOk(s: seq<byte>) {
    0 < |s| <= MAX_TRANSFORM_LABEL_BYTES && forall i :: 0 <= i < |s| ==> s[i] < 128
  }

  predicate DescriptorOk(d: Descriptor) {
    && d.schemaVersion == TRANSFORM_VERSION && LabelOk(d.name) && LabelOk(d.sourceLayout)
    && |d.ops| <= MAX_TRANSFORM_OPS && forall i :: 0 <= i < |d.ops| ==> OpOk(d.ops[i])
  }

  method Validate(d: Descriptor) returns (ok: bool)
    ensures ok <==> DescriptorOk(d)
  {
    hide OpOk;
    if d.schemaVersion != TRANSFORM_VERSION || !LabelOk(d.name) || !LabelOk(d.sourceLayout) {
      return false;
    }
    if |d.ops| > MAX_TRANSFORM_OPS {
      return false;
    }
    for i := 0 to |d.ops|
      invariant forall j :: 0 <= j < i ==> OpOk(d.ops[j])
    {
      var op := ValidateOp(d.ops[i]);
      if !op {
        return false;
      }
    }
    return true;
  }

  /** Everything behind the magic. */
  function Payload(d: Descriptor): seq<byte> {
    Le(TRANSFORM_VERSION, 2) + (Text(d.name) + (Text(d.sourceLayout) + (Le(|d.ops|, 2) + OpsBytes(d.ops))))
  }

  function Canonical(d: Descriptor): seq<byte> {
    MAGIC + Payload(d)
  }

  predicate Fits16(d: Descriptor) {
    && d.schemaVersion == TRANSFORM_VERSION && |d.name| < U16_LIMIT && |d.sourceLayout| < U16_LIMIT
    && |d.ops| < U16_LIMIT && AllWritable(d.ops)
  }

  lemma {:induction false} ValidFits(d: Descriptor)
    requires DescriptorOk(d)
    ensures Fits16(d)
  {
    forall i | 0 <= i < |d.ops| ensures Writable(d.ops[i]) {
      assert OpOk(d.ops[i]);
    }
  }

  function ParseTail(input: seq<byte>): Parsed<seq<Op>> {
    var count := ParseNumber(input, 2);
    if count.Fail? then Fail else ParseOps(count.rest, count.value)
  }

  lemma {:induction false} TailExact(input: seq<byte>, ops: seq<Op>)
    requires |ops| < U16_LIMIT && AllWritable(ops)
    ensures ParseTail(input) == Got(ops, []) <==> input == Le(|ops|, 2) + OpsBytes(ops)
  {
    hide Le, ParseNumber, ParseOps, OpsBytes;
    Widths();
    NumberExact(input, 2, |ops|, OpsBytes(ops));
    var count := ParseNumber(input, 2);
    if count.Got? {
      OpsExact(count.rest, ops, []);
      OpsFit(count.rest, count.value);
      assert OpsBytes(ops) + [] == OpsBytes(ops);
    }
  }

  function ParsePayload(input: seq<byte>): Parsed<Descriptor> {
    var version := ParseNumber(input, 2);
    if version.Fail? || version.value != TRANSFORM_VERSION then Fail
    else
      var name := ParseText(version.rest);
      if name.Fail? then Fail
      else
        var layout := ParseText(name.rest);
        if layout.Fail? then Fail
        else
          var ops := ParseTail(layout.rest);
          if ops.Fail? then Fail
          else Got(Descriptor(TRANSFORM_VERSION, name.value, layout.value, ops.value), ops.rest)
  }

  /** A descriptor is parsed from exactly its own bytes. */
  lemma {:induction false} PayloadExact(input: seq<byte>, d: Descriptor)
    requires Fits16(d)
    ensures ParsePayload(input) == Got(d, []) <==> input == Payload(d)
  {
    hide Le, ParseNumber, ParseText, ParseTail, OpsBytes, Text;
    Widths();
    var ops := Le(|d.ops|, 2) + OpsBytes(d.ops);
    var layout := Text(d.sourceLayout) + ops;
    NumberExact(input, 2, TRANSFORM_VERSION, Text(d.name) + layout);
    var version := ParseNumber(input, 2);
    if version.Got? {
      TextExact(version.rest, d.name, layout);
      var name := ParseText(version.rest);
      if name.Got? {
        TextExact(name.rest, d.sourceLayout, ops);
        var l := ParseText(name.rest);
        if l.Got? {
          TailExact(l.rest, d.ops);
        }
      }
    }
  }

  lemma {:induction false} ParsedFits(input: seq<byte>)
    ensures ParsePayload(input).Got? ==> Fits16(ParsePayload(input).value)
  {
    hide ParseNumber, ParseText, ParseOps;
    Widths();
    var version := ParseNumber(input, 2);
    if version.Got? {
      TextFits(version.rest);
      var name := ParseText(version.rest);
      if name.Got? {
        TextFits(name.rest);
        var layout := ParseText(name.rest);
        if layout.Got? {
          NumberFits(layout.rest, 2);
          var count := ParseNumber(layout.rest, 2);
          if count.Got? {
            OpsFit(count.rest, count.value);
          }
        }
      }
    }
  }

  // ---------------------------------------------------------------------
  // Encoder and decoder
  // ---------------------------------------------------------------------

  method Encode(d: Descriptor) returns (r: Option<seq<byte>>)
    ensures r == if DescriptorOk(d) then Some(Canonical(d)) else None
  {
    hide Le, OpBytes, DescriptorOk, Text;
    var valid := Validate(d);
    if !valid {
      return None;
    }
    var out := MAGIC + (Le(TRANSFORM_VERSION, 2) + (Text(d.name) + (Text(d.sourceLayout) + Le(|d.ops|, 2))));
    ghost var head := out;
    assert d.ops[0..] == d.ops;
    for i := 0 to |d.ops|
      invariant out + OpsBytes(d.ops[i..]) == head + OpsBytes(d.ops)
    {
      assert d.ops[i..][1..] == d.ops[i + 1..];
      assert out + OpsBytes(d.ops[i..]) == out + OpBytes(d.ops[i]) + OpsBytes(d.ops[i + 1..]);
      out := out + OpBytes(d.ops[i]);
    }
    assert d.ops[|d.ops|..] == [] && out + [] == out;
    Assembled(d);
    return Some(out);
  }

  lemma {:induction false} Assembled(d: Descriptor)
    ensures MAGIC + (Le(TRANSFORM_VERSION, 2) + (Text(d.name) + (Text(d.sourceLayout) + Le(|d.ops|, 2))))
            + OpsBytes(d.ops) == Canonical(d)
  {
    hide Le, OpsBytes, Text;
  }

  method DecodeOrder(input: Decoder) returns (r: Option<seq<u32>>)
    requires input.Valid()
    modifies input
    ensures input.Valid()
    ensures r.Some? <==> ParseOrder(old(input.Left())).Got?
    ensures r.Some? ==> ParseOrder(old(input.Left())) == Got(r.value, input.Left())
  {
    hide ParseNumber, ParseWords, Pow256;
    var n := input.Number(2);
    if n.None? {
      return None;
    }
    r := input.Words(n.value);
  }

  method DecodeCast(input: Decoder) returns (r: Option<Op>)
    requires input.Valid()
    modifies input
    ensures input.Valid()
    ensures r.Some? <==> ParseCast(old(input.Left())).Got?
    ensures r.Some? ==> ParseCast(old(input.Left())) == Got(r.value, input.Left())
  {
    hide ParseNumber, ParseBytes, Pow256, ZeroBytes;
    var f := input.Number(2);
    if f.None? || CastFrom(f.value).None? {
      return None;
    }
    var t := input.Number(2);
    if t.None? || CastFrom(t.value).None? {
      return None;
    }
    var present := input.Number(1);
    if present.None? {
      return None;
    }
    ghost var left := input.Left();
    var id := input.Take(32);
    if id.None? {
      return None;
    }
    TakenLength(left, 32);
    if present.value == 0 && id.value == ZeroBytes() {
      return Some(DtypeCast(CastFrom(f.value).value, CastFrom(t.value).value, None));
    }
    if present.value == 1 {
      return Some(DtypeCast(CastFrom(f.value).value, CastFrom(t.value).value, Some(id.value)));
    }
    return None;
  }

  lemma {:induction false} TakenLength(input: seq<byte>, n: nat)
    ensures ParseBytes(input, n).Got? ==> |ParseBytes(input, n).value| == n
  {
  }

  method DecodeOp(input: Decoder) returns (r: Option<Op>)
    requires input.Valid()
    modifies input
    ensures input.Valid()
    ensures r.Some? <==> ParseOp(old(input.Left())).Got?
    ensures r.Some? ==> ParseOp(old(input.Left())) == Got(r.value, input.Left())
  {
    hide ParseNumber, ParseOrder, ParseCast, Pow256;
    Widths();
    var tag := input.Number(2);
    if tag.None? {
      return None;
    }
    if 1 <= tag.value <= 3 {
      var order := DecodeOrder(input);
      if order.None? {
        return None;
      }
      return Some(WithOrder(tag.value, order.value));
    }
    if tag.value == 4 {
      var target := input.Number(8);
      if target.None? {
        return None;
      }
      return Some(PadOrTrim(target.value));
    }
    if tag.value == 5 {
      r := DecodeCast(input);
      return r;
    }
    if tag.value == 6 {
      var direction := input.Number(2);
      if direction.None? || DirectionFrom(direction.value).None? {
        return None;
      }
      var headDim := input.Number(4);
      if headDim.None? {
        return None;
      }
      return Some(RopePermute(DirectionFrom(direction.value).value, headDim.value));
    }
    return None;
  }

  lemma {:induction false} OpsStep(ops: seq<Op>, input: seq<byte>, count: nat)
    requires count > 0
    ensures var op := ParseOp(input);
            Joined(ops, ParseOps(input, count)) ==
            if op.Fail? then Fail else Joined(ops + [op.value], ParseOps(op.rest, count - 1))
  {
    hide ParseOp;
    var op := ParseOp(input);
    if op.Got? {
      JoinMore(ops, op.value, ParseOps(op.rest, count - 1));
    }
  }

  method DecodeOps(input: Decoder) returns (r: Option<seq<Op>>)
    requires input.Valid()
    modifies input
    ensures input.Valid()
    ensures r.Some? <==> ParseTail(old(input.Left())).Got?
    ensures r.Some? ==> ParseTail(old(input.Left())) == Got(r.value, input.Left())
  {
    hide ParseNumber, ParseOp, Pow256;
    var count := input.Number(2);
    if count.None? {
      return None;
    }
    var ops: seq<Op> := [];
    ghost var whole := ParseOps(input.Left(), count.value);
    JoinNothing(whole);
    for i := 0 to count.value
      invariant input.Valid()
      invariant whole == Joined(ops, ParseOps(input.Left(), count.value - i))
    {
      OpsStep(ops, input.Left(), count.value - i);
      var op := DecodeOp(input);
      if op.None? {
        return None;
      }
      ops := ops + [op.value];
    }
    assert ops + [] == ops;
    return Some(ops);
  }

  method DecodePayload(input: Decoder) returns (r: Option<Descriptor>)
    requires input.Valid()
    modifies input
    ensures input.Valid()
    ensures r.Some? <==> ParsePayload(old(input.Left())).Got?
    ensures r.Some? ==> ParsePayload(old(input.Left())) == Got(r.value, input.Left())
  {
    hide ParseNumber, ParseText, ParseTail, Pow256;
    var version := input.Number(2);
    if version.None? || version.value != TRANSFORM_VERSION {
      return None;
    }
    var name := input.String();
    if name.None? {
      return None;
    }
    var layout := input.String();
    if layout.None? {
      return None;
    }
    var ops := DecodeOps(input);
    if ops.None? {
      return None;
    }
    return Some(Descriptor(TRANSFORM_VERSION, name.value, layout.value, ops.value));
  }

  /** Accepts exactly the canonical bytes of valid descriptors, each as the
      descriptor it was written from, without re-encoding anything. */
  method Decode(bytes: seq<byte>) returns (r: Option<Descriptor>)
    ensures r.Some? ==> DescriptorOk(r.value) && bytes == Canonical(r.value)
    ensures forall d: Descriptor | DescriptorOk(d) && bytes == Canonical(d) :: r == Some(d)
  {
    hide ParsePayload, Payload, DescriptorOk, Fits16;
    if |bytes| < 8 || bytes[..8] != MAGIC {
      return None;
    }
    assert bytes == MAGIC + bytes[8..];
    forall d: Descriptor | DescriptorOk(d) && bytes == Canonical(d) ensures ParsePayload(bytes[8..]) == Got(d, []) {
      ConcatInjective(MAGIC, bytes[8..], MAGIC, Payload(d));
      ValidFits(d);
      PayloadExact(bytes[8..], d);
    }
    var input := new Decoder(bytes, 8);
    ParsedFits(bytes[8..]);
    var descriptor := DecodePayload(input);
    if descriptor.None? {
      return None;
    }
    if input.offset != |bytes| {
      return None;
    }
    PayloadExact(bytes[8..], descriptor.value);
    var valid := Validate(descriptor.value);
    if !valid {
      return None;
    }
    return Some(descriptor.value);
  }

  /** One descriptor, one encoding: distinct descriptors never share bytes. */
  lemma {:induction false} CanonicalIsInjective(a: Descriptor, b: Descriptor)
    requires DescriptorOk(a) && DescriptorOk(b) && Canonical(a) == Canonical(b)
    ensures a == b
  {
    hide ParsePayload, Payload, DescriptorOk, Fits16;
    ConcatInjective(MAGIC, Payload(a), MAGIC, Payload(b));
    ValidFits(a);
    ValidFits(b);
    PayloadExact(Payload(a), a);
    PayloadExact(Payload(a), b);
  }

  // ---------------------------------------------------------------------
  // Applying a descriptor, and undoing it
  // ---------------------------------------------------------------------

  /** Each operation fits and was applied in turn. */
  ghost predicate Steps(ops: seq<Op>, s: PlaneShape, trace: seq<seq<byte>>) {
    && |trace| == |ops| + 1
    && forall i: nat | i < |ops| :: StepAt(ops[i], s, trace[i], trace[i + 1])
  }

  ghost predicate StepAt(op: Op, s: PlaneShape, before: seq<byte>, after: seq<byte>) {
    OpOk(op) && ShapeOk(s) && |before| == PlaneBytes(s) && Fits(op, s) && Applied(op, s, before, after)
  }

  predicate KeepsSize(op: Op, s: PlaneShape) {
    op.PadOrTrim? ==> op.target == PlaneBytes(s)
  }

  /** Every operation fits the shape, and all but the last keep its size. */
  predicate Runnable(ops: seq<Op>, s: PlaneShape, plane: seq<byte>)
    requires forall i :: 0 <= i < |ops| ==> OpOk(ops[i])
  {
    ops != [] ==>
      && ShapeOk(s) && |plane| == PlaneBytes(s)
      && (forall i :: 0 <= i < |ops| ==> Fits(ops[i], s))
      && (forall i :: 0 <= i < |ops| - 1 ==> KeepsSize(ops[i], s))
  }

  lemma {:induction false} SizeAfter(op: Op, s: PlaneShape, before: seq<byte>, after: seq<byte>)
    requires StepAt(op, s, before, after)
    ensures |after| == PlaneBytes(s) <==> KeepsSize(op, s)
  {
    hide Fits, PlaneBytes;
    if Movable(op) {
      MoveKeepsBytes(op, s, before, after);
    }
  }

  /** Succeeds exactly on a valid, runnable descriptor. The result is reached
      by applying each operation in turn. */
  method ApplyTransform(d: Descriptor, s: PlaneShape, plane: seq<byte>)
    returns (r: Option<seq<byte>>, ghost trace: seq<seq<byte>>)
    ensures r.Some? <==> DescriptorOk(d) && Runnable(d.ops, s, plane)
    ensures r.Some? ==> Steps(d.ops, s, trace) && trace[0] == plane && trace[|d.ops|] == r.value
  {
    hide OpOk, ShapeOk, Fits, Applied, PlaneBytes, KeepsSize;
    var valid := Validate(d);
    if !valid {
      return None, [];
    }
    var current := plane;
    trace := [plane];
    for i := 0 to |d.ops|
      invariant |trace| == i + 1 && trace[0] == plane && trace[i] == current
      invariant Steps(d.ops[..i], s, trace)
      invariant i > 0 ==> ShapeOk(s) && |plane| == PlaneBytes(s)
      invariant i > 0 ==> (|current| == PlaneBytes(s) <==> KeepsSize(d.ops[i - 1], s))
      invariant forall j :: 0 <= j < i ==> Fits(d.ops[j], s)
      invariant forall j :: 0 <= j < i - 1 ==> KeepsSize(d.ops[j], s)
    {
      var next := ApplyRepackOp(d.ops[i], s, current);
      if next.None? {
        return None, trace;
      }
      assert d.ops[..i + 1] == d.ops[..i] + [d.ops[i]];
      SizeAfter(d.ops[i], s, current, next.value);
      current := next.value;
      trace := trace + [current];
    }
    assert d.ops[..|d.ops|] == d.ops;
    return Some(current), trace;
  }

  /** Applies the inverses, last operation first. */
  method Undo(ops: seq<Op>, s: PlaneShape, plane: seq<byte>, ghost trace: seq<seq<byte>>)
    returns (r: Option<seq<byte>>)
    requires Steps(ops, s, trace) && trace[|ops|] == plane
    requires forall i :: 0 <= i < |ops| ==> Movable(ops[i])
    ensures r == Some(trace[0])
  {
    hide OpOk, ShapeOk, Fits, Applied, PlaneBytes, InverseOf;
    var current := plane;
    for i := |ops| downto 0
      invariant current == trace[i]
    {
      assert StepAt(ops[i], s, trace[i], trace[i + 1]);
      var back := InverseRepackOp(ops[i]);
      if back.None? {
        return None;
      }
      InverseIsSound(ops[i], back.value, s);
      MoveKeepsBytes(ops[i], s, trace[i], trace[i + 1]);
      var next := ApplyRepackOp(back.value, s, current);
      if next.None? {
        return None;
      }
      InverseRestores(ops[i], back.value, s, trace[i], trace[i + 1], next.value);
      current := next.value;
    }
    return Some(current);
  }

  lemma {:induction false} InverseIsSound(op: Op, back: Op, s: PlaneShape)
    requires OpOk(op) && Movable(op) && Fits(op, s) && InverseOf(op, back)
    ensures OpOk(back) && Fits(back, s)
  {
    hide Fits, Inverts;
    InverseFits(op, back, s);
  }

  /** The bytes of a plane survive every list of invertible operations. */
  lemma {:induction false} BytesSurvive(ops: seq<Op>, s: PlaneShape, trace: seq<seq<byte>>, n: nat)
    requires Steps(ops, s, trace) && n <= |ops| && forall i :: 0 <= i < |ops| ==> Movable(ops[i])
    ensures multiset(trace[n]) == multiset(trace[0])
    decreases n
  {
    hide OpOk, ShapeOk, Fits, Applied, PlaneBytes;
    if n == 0 {
    } else {
      BytesSurvive(ops, s, trace, n - 1);
      assert StepAt(ops[n - 1], s, trace[n - 1], trace[n]);
      MoveKeepsBytes(ops[n - 1], s, trace[n - 1], trace[n]);
    }
  }

  /** A valid list of invertible operations, applied and then undone, restores
      the plane; in between its bytes are only moved. */
  method ThereAndBack(d: Descriptor, s: PlaneShape, plane: seq<byte>)
    returns (there: Option<seq<byte>>, back: Option<seq<byte>>)
    requires forall i :: 0 <= i < |d.ops| ==> Movable(d.ops[i])
    ensures there.Some? <==> DescriptorOk(d) && Runnable(d.ops, s, plane)
    ensures there.Some? ==> back == Some(plane) && multiset(there.value) == multiset(plane)
  {
    hide Steps, Runnable;
    ghost var trace;
    there, trace := ApplyTransform(d, s, plane);
    if there.None? {
      return there, None;
    }
    BytesSurvive(d.ops, s, trace, |d.ops|);
    back := Undo(d.ops, s, there.value, trace);
  }
}
