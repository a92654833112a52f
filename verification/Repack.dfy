/** The exact repack operations on one KV plane, and their inverses. */
module Repack {
  import opened Machine
  import opened Permutations

  const MAX_TRANSFORM_OPS := 64
  const MAX_PERMUTATION_WIDTH := 16384
  const MAX_PAD_TARGET_BYTES := 0x4000_0000
  const MAX_ROPE_HEAD_DIM := 4096

  datatype CastDType = Fp16 | Bf16 | Fp8E4m3

  datatype Direction = NeoxToInterleaved | InterleavedToNeox

  type Id32 = s: seq<byte> | |s| == 32 witness Repeat(0, 32)

  datatype Op =
    | PermuteHeadPairs(order: seq<u32>)
    | ReorderPlanes(order: seq<u32>)
    | RegroupLayers(order: seq<u32>)
    | PadOrTrim(target: u64)
    | DtypeCast(from: CastDType, to: CastDType, scaleId: Option<Id32>)
    | RopePermute(direction: Direction, headDim: u32)

  datatype PlaneShape = PlaneShape(tokens: u32, kvHeads: u32, headDim: u32, elementBytes: u32)

  // ---------------------------------------------------------------------
  // Validation
  // ---------------------------------------------------------------------

  predicate OrderOk(order: seq<u32>) {
    0 < |order| <= MAX_PERMUTATION_WIDTH && IsPermutation(order)
  }

  predicate OpOk(op: Op) {
    match op
    case PermuteHeadPairs(order) => OrderOk(order)
    case ReorderPlanes(order) => OrderOk(order)
    case RegroupLayers(order) => OrderOk(order)
    case PadOrTrim(target) => 0 < target <= MAX_PAD_TARGET_BYTES
    case DtypeCast(from, to, scaleId) =>
      from != to && ((from.Fp8E4m3? || to.Fp8E4m3?) <==> scaleId.Some?)
    case RopePermute(_, headDim) => 2 <= headDim <= MAX_ROPE_HEAD_DIM && headDim % 2 == 0
  }

  method ValidateOp(op: Op) returns (ok: bool)
    ensures ok <==> OpOk(op)
  {
    match op
    case PermuteHeadPairs(order) => ok := ValidatePermutation(order, MAX_PERMUTATION_WIDTH);
    case ReorderPlanes(order) => ok := ValidatePermutation(order, MAX_PERMUTATION_WIDTH);
    case RegroupLayers(order) => ok := ValidatePermutation(order, MAX_PERMUTATION_WIDTH);
    case PadOrTrim(target) => ok := 0 < target <= MAX_PAD_TARGET_BYTES;
    case DtypeCast(from, to, scaleId) =>
      ok := from != to && ((from.Fp8E4m3? || to.Fp8E4m3?) == scaleId.Some?);
    case RopePermute(_, headDim) => ok := 2 <= headDim <= MAX_ROPE_HEAD_DIM && headDim % 2 == 0;
  }

  // ---------------------------------------------------------------------
  // Geometry
  // ---------------------------------------------------------------------

  function RowBytes(s: PlaneShape): nat {
    Product(Product(s.kvHeads, s.headDim), s.elementBytes)
  }

  function PlaneBytes(s: PlaneShape): nat {
    Product(Product(Product(s.tokens, s.kvHeads), s.headDim), s.elementBytes)
  }

  predicate ShapeOk(s: PlaneShape) {
    && s.tokens > 0 && s.kvHeads > 0 && s.headDim > 0 && s.elementBytes > 0
    && PlaneBytes(s) < U64_LIMIT
  }

  function PairBytes(s: PlaneShape): nat {
    Product(2 * s.headDim, s.elementBytes)
  }

  /** Where output slot `t` of a head vector comes from. */
  function RopeSource(direction: Direction, half: nat, t: nat): nat {
    match direction
    case NeoxToInterleaved => if t % 2 == 0 then t / 2 else t / 2 + half
    case InterleavedToNeox => if t < half then 2 * t else 2 * (t - half) + 1
  }

  function RopeOrder(direction: Direction, headDim: nat): (order: seq<nat>)
    ensures |order| == headDim
    ensures forall t :: 0 <= t < headDim ==> order[t] == RopeSource(direction, headDim / 2, t)
  {
    seq(headDim, t requires 0 <= t < headDim => RopeSource(direction, headDim / 2, t))
  }

  function Flip(direction: Direction): Direction {
    match direction
    case NeoxToInterleaved => InterleavedToNeox
    case InterleavedToNeox => NeoxToInterleaved
  }

  lemma {:induction false} RopeUndo(direction: Direction, half: nat, t: nat)
    requires t < 2 * half
    ensures RopeSource(direction, half, t) < 2 * half
    ensures RopeSource(Flip(direction), half, RopeSource(direction, half, t)) == t
  {
  }

  /** The two rotation orders undo each other. */
  lemma {:induction false} RopeInverts(direction: Direction, headDim: nat)
    requires headDim % 2 == 0
    ensures Inverts(RopeOrder(direction, headDim), RopeOrder(Flip(direction), headDim))
    ensures IsPermutation(RopeOrder(direction, headDim))
  {
    hide RopeSource, RopeOrder;
    var half := headDim / 2;
    var order, back := RopeOrder(direction, headDim), RopeOrder(Flip(direction), headDim);
    forall t: nat | t < headDim ensures order[t] < headDim && back[t] < headDim && back[order[t]] == t {
      RopeUndo(direction, half, t);
      RopeUndo(Flip(direction), half, t);
    }
    forall i, j | 0 <= i < j < headDim ensures order[i] != order[j] {
      assert back[order[i]] == i && back[order[j]] == j;
    }
  }

  predicate Movable(op: Op) {
    !op.PadOrTrim? && !op.DtypeCast?
  }

  function OrderOf(op: Op): seq<nat>
    requires Movable(op)
  {
    match op
    case PermuteHeadPairs(order) => order
    case ReorderPlanes(order) => order
    case RegroupLayers(order) => order
    case RopePermute(direction, headDim) => RopeOrder(direction, headDim)
  }

  /** How an operation divides the plane. */
  function GridOf(op: Op, s: PlaneShape): Grid
    requires Movable(op) && OpOk(op)
  {
    match op
    case PermuteHeadPairs(order) => Grid(s.tokens, |order|, PairBytes(s))
    case ReorderPlanes(order) => Grid(1, |order|, Quot(PlaneBytes(s), |order|))
    case RegroupLayers(order) => Grid(1, |order|, Quot(PlaneBytes(s), |order|))
    case RopePermute(_, headDim) => Grid(Product(s.tokens, s.kvHeads), headDim, s.elementBytes)
  }

  /** The geometry an operation asks for; a cast is never exact. */
  predicate Fits(op: Op, s: PlaneShape)
    requires OpOk(op)
  {
    match op
    case PermuteHeadPairs(order) => s.kvHeads % 2 == 0 && |order| == s.kvHeads / 2
    case ReorderPlanes(order) => PlaneBytes(s) % |order| == 0
    case RegroupLayers(order) => PlaneBytes(s) % |order| == 0
    case PadOrTrim(_) => true
    case DtypeCast(_, _, _) => false
    case RopePermute(_, headDim) => headDim == s.headDim
  }

  lemma {:induction false} PairRows(s: PlaneShape)
    requires s.kvHeads % 2 == 0
    ensures RowBytes(s) == Product(s.kvHeads / 2, PairBytes(s))
    ensures PlaneBytes(s) == Product(s.tokens, RowBytes(s))
  {
    var p, h, e := s.kvHeads / 2, s.headDim, s.elementBytes;
    AsProduct(2, h);
    AsProduct(p, 2);
    hide Product;
    ProductAssoc(p, 2, h);
    ProductAssoc(p, Product(2, h), e);
    ProductAssoc(s.tokens, s.kvHeads, h);
    ProductAssoc(s.tokens, Product(s.kvHeads, h), e);
  }

  /** Every operation that fits divides the whole plane. */
  lemma {:induction false} GridCovers(op: Op, s: PlaneShape)
    requires OpOk(op) && Movable(op) && Fits(op, s)
    ensures Bytes(GridOf(op, s)) == PlaneBytes(s) && |OrderOf(op)| == GridOf(op, s).width
    ensures IsPermutation(OrderOf(op))
  {
    match op
    case PermuteHeadPairs(order) =>
      hide Product;
      PairRows(s);
      ProductAssoc(s.tokens, |order|, PairBytes(s));
    case ReorderPlanes(order) => SlabsCover(PlaneBytes(s), |order|);
    case RegroupLayers(order) => SlabsCover(PlaneBytes(s), |order|);
    case RopePermute(direction, headDim) =>
      RopeInverts(direction, headDim);
  }

  lemma {:induction false} SlabsCover(bytes: nat, count: nat)
    requires count > 0 && bytes % count == 0
    ensures Bytes(Grid(1, count, Quot(bytes, count))) == bytes
  {
    QuotBounds(bytes, count);
    AsProduct(count, Quot(bytes, count));
    AsProduct(1, count);
  }

  // ---------------------------------------------------------------------
  // Executors
  // ---------------------------------------------------------------------

  /** Copying one block into its place leaves the other places alone. */
  lemma {:induction false} OtherPlaces(
      g: Grid, order: seq<nat>, plane: seq<byte>, before: seq<byte>, after: seq<byte>, row: nat, slot: nat,
      r: nat, c: nat)
    requires |plane| == |before| == |after| == Bytes(g) && |order| == g.width && InRange(order)
    requires row < g.rows && slot < g.width && r < g.rows && c < g.width
    requires Cell(g.width, row, slot) < Cells(g) && Cell(g.width, row, order[slot]) < Cells(g)
    requires forall j: nat | j < Cells(g) ::
               Block(after, g.unit, Cells(g), j) ==
               if j == Cell(g.width, row, slot) then Block(plane, g.unit, Cells(g), Cell(g.width, row, order[slot]))
               else Block(before, g.unit, Cells(g), j)
    ensures r == row && c == slot ==> MovedAt(g, order, plane, after, r, c)
    ensures !(r == row && c == slot) && MovedAt(g, order, plane, before, r, c) ==> MovedAt(g, order, plane, after, r, c)
  {
    hide Product, Block, Cell;
    CellBounds(g.width, g.rows, r, c);
    if Cell(g.width, r, c) == Cell(g.width, row, slot) {
      CellInjective(g.width, r, c, row, slot);
    }
  }

  lemma {:induction false} PlaceOffset(g: Grid, row: nat, slot: nat)
    ensures Product(row, Product(g.width, g.unit)) + Product(slot, g.unit) == Product(Cell(g.width, row, slot), g.unit)
  {
    hide Product;
    ProductAssoc(row, g.width, g.unit);
    ProductDistributes(g.unit, Product(row, g.width), slot);
    ProductAssoc(g.unit, Product(row, g.width), 1);
    ProductAssoc(g.unit, slot, 1);
    ProductAssoc(g.unit, Cell(g.width, row, slot), 1);
  }

  /** Moves one block of the output into place. */
  method MoveBlock(g: Grid, order: seq<nat>, plane: seq<byte>, output: array<byte>, row: nat, slot: nat,
                   target: nat, source: nat)
    requires output.Length == |plane| == Bytes(g) && |order| == g.width && InRange(order)
    requires row < g.rows && slot < g.width
    requires target == Product(row, Product(g.width, g.unit)) + Product(slot, g.unit)
    requires source == Product(row, Product(g.width, g.unit)) + Product(order[slot], g.unit)
    modifies output
    ensures MovedAt(g, order, plane, output[..], row, slot)
    ensures forall r: nat, c: nat | r < g.rows && c < g.width && MovedAt(g, order, plane, old(output[..]), r, c) ::
              MovedAt(g, order, plane, output[..], r, c)
  {
    hide Product, Block, Cell, MovedAt;
    PlaceOffset(g, row, slot);
    PlaceOffset(g, row, order[slot]);
    CellBounds(g.width, g.rows, row, slot);
    CellBounds(g.width, g.rows, row, order[slot]);
    ghost var before := output[..];
    CopyBlock(output, g.unit, Cells(g), target, plane, source, Cell(g.width, row, slot),
              Cell(g.width, row, order[slot]));
    ghost var after := output[..];
    OtherPlaces(g, order, plane, before, after, row, slot, row, slot);
    forall r: nat, c: nat | r < g.rows && c < g.width && MovedAt(g, order, plane, before, r, c)
      ensures MovedAt(g, order, plane, after, r, c)
    {
      OtherPlaces(g, order, plane, before, after, row, slot, r, c);
    }
  }

  method PermuteSlabs(order: seq<u32>, plane: seq<byte>) returns (r: Option<seq<byte>>)
    requires OrderOk(order)
    ensures r.Some? <==> |plane| % |order| == 0
    ensures r.Some? ==> Moved(Grid(1, |order|, Quot(|plane|, |order|)), order, plane, r.value)
  {
    hide Product, Block, Cell, MovedAt, NoRepeats;
    if |plane| % |order| != 0 {
      return None;
    }
    var slab := |plane| / |order|;
    var g := Grid(1, |order|, slab);
    SlabsCover(|plane|, |order|);
    var output := new byte[|plane|](i => 0);
    for slot := 0 to |order|
      invariant forall c: nat | c < slot :: MovedAt(g, order, plane, output[..], 0, c)
    {
      ProductStep(0, Product(g.width, g.unit));
      MoveBlock(g, order, plane, output, 0, slot, Product(slot, slab), Product(order[slot], slab));
    }
    forall row: nat, slot: nat | row < 1 && slot < |order| ensures MovedAt(g, order, plane, output[..], row, slot) {
      assert MovedAt(g, order, plane, output[..], 0, slot);
    }
    return Some(output[..]);
  }

  method PermutePairs(order: seq<u32>, s: PlaneShape, plane: seq<byte>) returns (r: Option<seq<byte>>)
    requires OrderOk(order) && |plane| == PlaneBytes(s)
    ensures r.Some? <==> s.kvHeads % 2 == 0 && |order| == s.kvHeads / 2
    ensures r.Some? ==> Moved(Grid(s.tokens, |order|, PairBytes(s)), order, plane, r.value)
  {
    hide Product, Block, Cell, MovedAt, NoRepeats, PlaneBytes, RowBytes, PairBytes;
    if s.kvHeads % 2 != 0 || |order| != s.kvHeads / 2 {
      return None;
    }
    var rowBytes, pairBytes := RowBytes(s), PairBytes(s);
    var g := Grid(s.tokens, |order|, pairBytes);
    PairRows(s);
    ProductAssoc(s.tokens, |order|, pairBytes);
    var output := new byte[|plane|](i => 0);
    for row := 0 to s.tokens
      invariant forall k: nat, c: nat | k < row && c < |order| :: MovedAt(g, order, plane, output[..], k, c)
    {
      var start := Product(row, rowBytes);
      for slot := 0 to |order|
        invariant forall k: nat, c: nat | k < row && c < |order| :: MovedAt(g, order, plane, output[..], k, c)
        invariant forall c: nat | c < slot :: MovedAt(g, order, plane, output[..], row, c)
      {
        MoveBlock(g, order, plane, output, row, slot,
                  start + Product(slot, pairBytes), start + Product(order[slot], pairBytes));
      }
    }
    return Some(output[..]);
  }

  /** Head slots filled after `index` steps of the rotation loop. */
  predicate Filled(direction: Direction, half: nat, index: nat, slot: nat) {
    match direction
    case NeoxToInterleaved => slot < 2 * index
    case InterleavedToNeox => slot < index || half <= slot < half + index
  }

  /** The two slots step `index` fills, and where they come from. */
  lemma {:induction false} RopeMoves(direction: Direction, headDim: nat, index: nat)
    requires headDim % 2 == 0 && index < headDim / 2
    ensures var half, order := headDim / 2, RopeOrder(direction, headDim);
            var first, second := FirstSlot(direction, index), SecondSlot(direction, half, index);
            && first < headDim && second < headDim
            && order[first] == (if direction.NeoxToInterleaved? then index else 2 * index)
            && order[second] == (if direction.NeoxToInterleaved? then index + half else 2 * index + 1)
            && forall slot: nat | Filled(direction, half, index + 1, slot) ::
                 Filled(direction, half, index, slot) || slot == first || slot == second
  {
  }

  function FirstSlot(direction: Direction, index: nat): nat {
    if direction.NeoxToInterleaved? then 2 * index else index
  }

  function SecondSlot(direction: Direction, half: nat, index: nat): nat {
    if direction.NeoxToInterleaved? then 2 * index + 1 else index + half
  }

  /** Rotates one head vector. */
  method RotateHead(direction: Direction, headDim: nat, g: Grid, plane: seq<byte>, output: array<byte>, head: nat)
    requires headDim % 2 == 0 && g.width == headDim && head < g.rows && output.Length == |plane| == Bytes(g)
    requires InRange(RopeOrder(direction, headDim))
    modifies output
    ensures forall c: nat | c < headDim :: MovedAt(g, RopeOrder(direction, headDim), plane, output[..], head, c)
    ensures forall r: nat, c: nat | r < g.rows && c < headDim
              && MovedAt(g, RopeOrder(direction, headDim), plane, old(output[..]), r, c) ::
              MovedAt(g, RopeOrder(direction, headDim), plane, output[..], r, c)
  {
    hide Product, Block, Cell, MovedAt, RopeOrder, Filled, FirstSlot, SecondSlot;
    var order, unit, half := RopeOrder(direction, headDim), g.unit, headDim / 2;
    var base := Product(head, Product(headDim, unit));
    ghost var before := output[..];
    FilledEnds(direction, half);
    for index := 0 to half
      invariant forall r: nat, c: nat | r < g.rows && c < headDim && MovedAt(g, order, plane, before, r, c) ::
                  MovedAt(g, order, plane, output[..], r, c)
      invariant forall c: nat | c < headDim && Filled(direction, half, index, c) ::
                  MovedAt(g, order, plane, output[..], head, c)
    {
      RopeMoves(direction, headDim, index);
      var first, second := FirstSlot(direction, index), SecondSlot(direction, half, index);
      MoveBlock(g, order, plane, output, head, first, base + Product(first, unit), base + Product(order[first], unit));
      MoveBlock(g, order, plane, output, head, second, base + Product(second, unit),
                base + Product(order[second], unit));
    }
  }

  lemma {:induction false} FilledEnds(direction: Direction, half: nat)
    ensures forall slot: nat :: !Filled(direction, half, 0, slot)
    ensures forall slot: nat | slot < 2 * half :: Filled(direction, half, half, slot)
  {
  }

  method PermuteRope(direction: Direction, headDim: u32, s: PlaneShape, plane: seq<byte>)
    returns (r: Option<seq<byte>>)
    requires 2 <= headDim && headDim % 2 == 0 && ShapeOk(s) && |plane| == PlaneBytes(s)
    ensures r.Some? <==> headDim == s.headDim
    ensures r.Some? ==>
              Moved(Grid(Product(s.tokens, s.kvHeads), headDim, s.elementBytes), RopeOrder(direction, headDim),
                    plane, r.value)
  {
    hide Product, Block, Cell, MovedAt, NoRepeats, PlaneBytes, RopeOrder;
    if headDim != s.headDim {
      return None;
    }
    var g := Grid(Product(s.tokens, s.kvHeads), headDim, s.elementBytes);
    RopeInverts(direction, headDim);
    HeadCount(s);
    var heads := |plane| / Product(headDim, s.elementBytes);
    var output := new byte[|plane|](i => 0);
    for head := 0 to heads
      invariant forall k: nat, c: nat | k < head && c < headDim ::
                  MovedAt(g, RopeOrder(direction, headDim), plane, output[..], k, c)
    {
      RotateHead(direction, headDim, g, plane, output, head);
    }
    return Some(output[..]);
  }

  lemma {:induction false} HeadCount(s: PlaneShape)
    requires ShapeOk(s)
    ensures var headBytes := Product(s.headDim, s.elementBytes);
            && headBytes > 0 && PlaneBytes(s) / headBytes == Product(s.tokens, s.kvHeads)
            && PlaneBytes(s) == Bytes(Grid(Product(s.tokens, s.kvHeads), s.headDim, s.elementBytes))
  {
    hide Product;
    var heads, headBytes := Product(s.tokens, s.kvHeads), Product(s.headDim, s.elementBytes);
    ProductAssoc(heads, s.headDim, s.elementBytes);
    ProductMonotone(s.elementBytes, s.headDim, s.headDim);
    ProductAssoc(heads, headBytes, 1);
    AverageOfEqual(headBytes, heads);
  }

  // ---------------------------------------------------------------------
  // Operations and their inverses
  // ---------------------------------------------------------------------

  /** What an operation makes of a plane it fits. */
  ghost predicate Applied(op: Op, s: PlaneShape, plane: seq<byte>, result: seq<byte>)
    requires OpOk(op)
  {
    match op
    case PadOrTrim(target) =>
      && |result| == target
      && forall i :: 0 <= i < target ==> result[i] == if i < |plane| then plane[i] else 0
    case DtypeCast(_, _, _) => false
    case _ => Moved(GridOf(op, s), OrderOf(op), plane, result)
  }

  // ---------------------------------------------------------------------
  // Which byte goes where
  // ---------------------------------------------------------------------

  /** Byte `x` of block `to` of the result is byte `x` of block `from`. */
  predicate Takes(result: seq<byte>, to: nat, plane: seq<byte>, from: nat, unit: nat, x: nat) {
    && 0 <= to * unit + x < |result| && 0 <= from * unit + x < |plane|
    && result[to * unit + x] == plane[from * unit + x]
  }

  lemma {:induction false} BlockByte(g: Grid, plane: seq<byte>, row: nat, slot: nat, x: nat)
    requires |plane| == Bytes(g) && row < g.rows && slot < g.width && x < g.unit
    ensures Cell(g.width, row, slot) < Cells(g)
    ensures 0 <= (row * g.width + slot) * g.unit + x < |plane|
    ensures Block(plane, g.unit, Cells(g), Cell(g.width, row, slot))[x] == plane[(row * g.width + slot) * g.unit + x]
  {
    CellBounds(g.width, g.rows, row, slot);
    BlockInRange(g.unit, Cells(g), Cell(g.width, row, slot));
    AsProduct(row, g.width);
    AsProduct(Cell(g.width, row, slot), g.unit);
    hide Product;
  }

  /** A block in a row's slot comes from the slot the order names. */
  lemma {:induction false} MovedByte(
      g: Grid, order: seq<nat>, plane: seq<byte>, result: seq<byte>, row: nat, slot: nat, x: nat)
    requires Moved(g, order, plane, result) && row < g.rows && slot < g.width && x < g.unit
    ensures |order| == g.width && |result| == |plane|
    ensures Takes(result, row * g.width + slot, plane, row * g.width + order[slot], g.unit, x)
  {
    assert MovedAt(g, order, plane, result, row, slot);
    BlockByte(g, result, row, slot, x);
    BlockByte(g, plane, row, order[slot], x);
  }

  /** Reordering planes or layers: slab `i` of the result is slab `order[i]`. */
  lemma {:induction false} SlabByte(op: Op, s: PlaneShape, plane: seq<byte>, result: seq<byte>, i: nat, x: nat)
    requires OpOk(op) && (op.ReorderPlanes? || op.RegroupLayers?) && Applied(op, s, plane, result)
    requires |plane| == PlaneBytes(s) && |op.order| > 0 && i < |op.order| && x < |plane| / |op.order|
    ensures Takes(result, i, plane, op.order[i], |plane| / |op.order|, x)
  {
    hide PlaneBytes, Moved, OpOk, Takes;
    MovedByte(GridOf(op, s), op.order, plane, result, 0, i, x);
  }

  /** Permuting head pairs: in every token row, pair `i` of the result is pair
      `order[i]`. */
  lemma {:induction false} PairByte(
      order: seq<u32>, s: PlaneShape, plane: seq<byte>, result: seq<byte>, token: nat, i: nat, x: nat)
    requires OpOk(PermuteHeadPairs(order)) && Applied(PermuteHeadPairs(order), s, plane, result)
    requires token < s.tokens && i < |order| && x < 2 * s.headDim * s.elementBytes
    ensures Takes(result, token * |order| + i, plane, token * |order| + order[i], 2 * s.headDim * s.elementBytes, x)
  {
    AsProduct(2 * s.headDim, s.elementBytes);
    hide Product, Moved, OpOk, Takes;
    MovedByte(GridOf(PermuteHeadPairs(order), s), order, plane, result, token, i, x);
  }

  lemma {:induction false} RopeSlots(direction: Direction, headDim: nat, i: nat)
    requires headDim % 2 == 0 && i < headDim / 2
    ensures var half, order := headDim / 2, RopeOrder(direction, headDim);
            if direction.NeoxToInterleaved? then order[2 * i] == i && order[2 * i + 1] == i + half
            else order[i] == 2 * i && order[i + half] == 2 * i + 1
  {
  }

  /** Interleaving a head vector puts element `i` of its first half at `2 * i`
      and of its second half after it; the other direction takes them apart. */
  lemma {:induction false} RopeByte(
      direction: Direction, s: PlaneShape, plane: seq<byte>, result: seq<byte>, head: nat, i: nat, x: nat)
    requires var op := RopePermute(direction, s.headDim); OpOk(op) && Applied(op, s, plane, result)
    requires head < s.tokens * s.kvHeads && i < s.headDim / 2 && x < s.elementBytes
    ensures var half, base := s.headDim / 2, head * s.headDim;
            if direction.NeoxToInterleaved? then
              && Takes(result, base + 2 * i, plane, base + i, s.elementBytes, x)
              && Takes(result, base + 2 * i + 1, plane, base + i + half, s.elementBytes, x)
            else
              && Takes(result, base + i, plane, base + 2 * i, s.elementBytes, x)
              && Takes(result, base + i + half, plane, base + 2 * i + 1, s.elementBytes, x)
  {
    AsProduct(s.tokens, s.kvHeads);
    RopeSlots(direction, s.headDim, i);
    hide Product, Moved, Takes, RopeSource, RopeOrder;
    var g, order := GridOf(RopePermute(direction, s.headDim), s), RopeOrder(direction, s.headDim);
    if direction.NeoxToInterleaved? {
      MovedByte(g, order, plane, result, head, 2 * i, x);
      MovedByte(g, order, plane, result, head, 2 * i + 1, x);
    } else {
      MovedByte(g, order, plane, result, head, i, x);
      MovedByte(g, order, plane, result, head, i + s.headDim / 2, x);
    }
  }

  method ApplyRepackOp(op: Op, s: PlaneShape, plane: seq<byte>) returns (r: Option<seq<byte>>)
    ensures r.Some? <==> OpOk(op) && ShapeOk(s) && |plane| == PlaneBytes(s) && Fits(op, s)
    ensures r.Some? ==> Applied(op, s, plane, r.value)
  {
    hide Product, Moved, IsPermutation, PlaneBytes;
    var valid := ValidateOp(op);
    if !valid || !ShapeOk(s) || |plane| != PlaneBytes(s) {
      return None;
    }
    match op
    case PermuteHeadPairs(order) => r := PermutePairs(order, s, plane);
    case ReorderPlanes(order) => r := PermuteSlabs(order, plane);
    case RegroupLayers(order) => r := PermuteSlabs(order, plane);
    case PadOrTrim(target) =>
      var kept := Min(|plane|, target);
      return Some(plane[..kept] + Repeat(0, target - kept));
    case DtypeCast(_, _, _) => return None;
    case RopePermute(direction, headDim) => r := PermuteRope(direction, headDim, s, plane);
  }

  ghost predicate InverseOf(op: Op, back: Op) {
    && OpOk(back) && Movable(back)
    && match op
       case PermuteHeadPairs(order) => back.PermuteHeadPairs? && Inverts(back.order, order)
       case ReorderPlanes(order) => back.ReorderPlanes? && Inverts(back.order, order)
       case RegroupLayers(order) => back.RegroupLayers? && Inverts(back.order, order)
       case RopePermute(direction, headDim) => back == RopePermute(Flip(direction), headDim)
       case _ => false
  }

  method InverseOrder(order: seq<u32>) returns (inverse: seq<u32>)
    requires OrderOk(order)
    ensures OrderOk(inverse) && Inverts(inverse, order)
  {
    var slots := Invert(order);
    inverse := [];
    for i := 0 to |slots|
      invariant |inverse| == i && forall k :: 0 <= k < i ==> inverse[k] == slots[k]
    {
      inverse := inverse + [slots[i]];
    }
  }

  /** Exactly the block moves have an inverse. */
  method InverseRepackOp(op: Op) returns (back: Option<Op>)
    requires OpOk(op)
    ensures back.Some? <==> Movable(op)
    ensures back.Some? ==> InverseOf(op, back.value)
  {
    match op
    case PermuteHeadPairs(order) =>
      var inverse := InverseOrder(order);
      return Some(PermuteHeadPairs(inverse));
    case ReorderPlanes(order) =>
      var inverse := InverseOrder(order);
      return Some(ReorderPlanes(inverse));
    case RegroupLayers(order) =>
      var inverse := InverseOrder(order);
      return Some(RegroupLayers(inverse));
    case RopePermute(direction, headDim) => return Some(RopePermute(Flip(direction), headDim));
    case PadOrTrim(_) => return None;
    case DtypeCast(_, _, _) => return None;
  }

  /** The inverse divides the plane the same way and undoes the order. */
  lemma {:induction false} InverseFits(op: Op, back: Op, s: PlaneShape)
    requires OpOk(op) && Movable(op) && Fits(op, s) && InverseOf(op, back)
    ensures Fits(back, s) && GridOf(back, s) == GridOf(op, s) && Inverts(OrderOf(back), OrderOf(op))
  {
    hide Product, Quot, PlaneBytes, RopeOrder;
    if op.RopePermute? {
      RopeInverts(Flip(op.direction), op.headDim);
      assert Flip(Flip(op.direction)) == op.direction;
    }
  }

  /** A block move keeps the plane's size and every byte of it. */
  lemma {:induction false} MoveKeepsBytes(op: Op, s: PlaneShape, plane: seq<byte>, result: seq<byte>)
    requires OpOk(op) && Movable(op) && Fits(op, s) && Applied(op, s, plane, result)
    ensures |result| == |plane| == PlaneBytes(s) && multiset(result) == multiset(plane)
  {
    hide Product, PlaneBytes, Fits, GridOf, OrderOf;
    GridCovers(op, s);
    MovedSizes(GridOf(op, s), OrderOf(op), plane, result);
    BytesKept(GridOf(op, s), OrderOf(op), plane, result);
  }

  /** Undoing a block move restores the plane. */
  lemma {:induction false} InverseRestores(op: Op, back: Op, s: PlaneShape, a: seq<byte>, b: seq<byte>, c: seq<byte>)
    requires OpOk(op) && Movable(op) && Fits(op, s) && InverseOf(op, back)
    requires Applied(op, s, a, b) && Applied(back, s, b, c)
    ensures c == a
  {
    hide Product, PlaneBytes, Fits, GridOf, OrderOf, Moved, Inverts;
    InverseFits(op, back, s);
    MovedBack(GridOf(op, s), OrderOf(op), OrderOf(back), a, b, c);
  }
}
