/** Group-wise quantization of a matrix, and its decoder. */
module Quantizer {
  import opened Machine
  import opened Chunking
  import opened BitPacking
  import opened QuantError
  import opened HalfPrecision

  const MAX_QUANT_DIMENSION := 0x10_0000
  const MAX_QUANT_ELEMENTS := 0x400_0000
  const MAX_QUANT_GROUP_SIZE := 1024

  datatype Axis = PerChannel | PerToken

  datatype Layout = Layout(rows: nat, cols: nat, bits: nat, groupSize: nat, axis: Axis)

  predicate LayoutOk(q: Layout) {
    && 0 < q.rows <= MAX_QUANT_DIMENSION && 0 < q.cols <= MAX_QUANT_DIMENSION
    && Product(q.rows, q.cols) <= MAX_QUANT_ELEMENTS
    && BitsOk(q.bits) && 0 < q.groupSize <= MAX_QUANT_GROUP_SIZE
  }

  // ---------------------------------------------------------------------
  // Positions
  // ---------------------------------------------------------------------

  lemma {:induction false} CellStep(width: nat, i: nat)
    ensures Cell(width, i, width) == Cell(width, i + 1, 0) && Cell(width, 0, 0) == 0
    ensures Cell(width, i, 0) == Product(i, width)
  {
    hide Product;
    ProductStep(i, width);
  }

  // ---------------------------------------------------------------------
  // Lines and groups
  // ---------------------------------------------------------------------

  function Extent(q: Layout): nat {
    if q.axis.PerChannel? then q.rows else q.cols
  }

  function Lines(q: Layout): nat {
    if q.axis.PerChannel? then q.cols else q.rows
  }

  function Groups(q: Layout): nat
    requires q.groupSize > 0
  {
    CeilDiv(Extent(q), q.groupSize)
  }

  function LineOf(q: Layout, row: nat, col: nat): nat {
    if q.axis.PerChannel? then col else row
  }

  function OffsetOf(q: Layout, row: nat, col: nat): nat {
    if q.axis.PerChannel? then row else col
  }

  function GroupIndex(q: Layout, row: nat, col: nat): nat
    requires q.groupSize > 0
  {
    Cell(Groups(q), LineOf(q, row, col), Quot(OffsetOf(q, row, col), q.groupSize))
  }

  /** The element at `offset` of a grouped line. */
  function LineElement(q: Layout, values: seq<real>, line: nat, offset: nat): real
    requires |values| == Product(q.rows, q.cols) && line < Lines(q) && offset < Extent(q)
  {
    var row, col := if q.axis.PerChannel? then offset else line, if q.axis.PerChannel? then line else offset;
    CellBounds(q.cols, q.rows, row, col);
    values[Cell(q.cols, row, col)]
  }

  function GroupStart(q: Layout, g: nat): nat {
    Product(g, q.groupSize)
  }

  function GroupEnd(q: Layout, g: nat): nat {
    Min(GroupStart(q, g) + q.groupSize, Extent(q))
  }

  /** Groups tile the line: the first starts it, each next one continues, the
      last ends it. */
  lemma {:induction false} GroupsTile(q: Layout, g: nat)
    requires q.groupSize > 0
    ensures GroupStart(q, 0) == 0
    ensures g < Groups(q) <==> GroupStart(q, g) < Extent(q)
    ensures g < Groups(q) ==> GroupStart(q, g) < GroupEnd(q, g) == Min(GroupStart(q, g + 1), Extent(q))
    ensures GroupStart(q, Groups(q)) >= Extent(q)
  {
    var n, d := Extent(q), q.groupSize;
    CeilIsQuot(n, d);
    QuotBounds(n + d - 1, d);
    var c := Groups(q);
    AsProduct(c, d);
    AsProduct(c + 1, d);
    MulLess(c, c + 1, d);
    hide Product, Quot, CeilDiv;
    ProductStep(g, d);
    if g < c {
      ProductMonotone(d, g + 1, c);
    } else {
      ProductMonotone(d, c, g);
    }
  }

  /** Every offset lies in the group its quotient names. */
  lemma {:induction false} OffsetGroup(q: Layout, offset: nat)
    requires q.groupSize > 0 && offset < Extent(q)
    ensures Quot(offset, q.groupSize) < Groups(q)
    ensures GroupStart(q, Quot(offset, q.groupSize)) <= offset < GroupEnd(q, Quot(offset, q.groupSize))
  {
    var g := Quot(offset, q.groupSize);
    QuotBounds(offset, q.groupSize);
    AsProduct(g, q.groupSize);
    MulLess(g, g + 1, q.groupSize);
    hide Product, Quot, CeilDiv;
    GroupsTile(q, g);
  }

  lemma {:induction false} GroupOfOffset(q: Layout, g: nat, offset: nat)
    requires q.groupSize > 0 && g < Groups(q) && GroupStart(q, g) <= offset < GroupEnd(q, g)
    ensures Quot(offset, q.groupSize) == g
  {
    AsProduct(g, q.groupSize);
    MulLess(g, g + 1, q.groupSize);
    hide Product, Quot;
    QuotIs(offset, q.groupSize, g);
  }

  // ---------------------------------------------------------------------
  // Smallest and largest element of a group
  // ---------------------------------------------------------------------

  function Least(q: Layout, values: seq<real>, line: nat, lo: nat, hi: nat): real
    requires |values| == Product(q.rows, q.cols) && line < Lines(q) && lo < hi <= Extent(q)
    decreases hi
  {
    var x := LineElement(q, values, line, hi - 1);
    if hi == lo + 1 then x
    else
      var rest := Least(q, values, line, lo, hi - 1);
      if x < rest then x else rest
  }

  function Greatest(q: Layout, values: seq<real>, line: nat, lo: nat, hi: nat): real
    requires |values| == Product(q.rows, q.cols) && line < Lines(q) && lo < hi <= Extent(q)
    decreases hi
  {
    var x := LineElement(q, values, line, hi - 1);
    if hi == lo + 1 then x
    else
      var rest := Greatest(q, values, line, lo, hi - 1);
      if x > rest then x else rest
  }

  lemma {:induction false} ElementWithin(q: Layout, values: seq<real>, line: nat, lo: nat, hi: nat, offset: nat)
    requires |values| == Product(q.rows, q.cols) && line < Lines(q) && lo <= offset < hi <= Extent(q)
    ensures Least(q, values, line, lo, hi) <= LineElement(q, values, line, offset)
    ensures LineElement(q, values, line, offset) <= Greatest(q, values, line, lo, hi)
    decreases hi
  {
    hide LineElement, Product;
    if offset >= hi - 1 {
    } else {
      ElementWithin(q, values, line, lo, hi - 1, offset);
    }
  }

  method Bounds(q: Layout, values: seq<real>, line: nat, lo: nat, hi: nat) returns (low: real, high: real)
    requires |values| == Product(q.rows, q.cols) && line < Lines(q) && lo < hi <= Extent(q)
    ensures low == Least(q, values, line, lo, hi) && high == Greatest(q, values, line, lo, hi)
  {
    hide LineElement, Product;
    low := LineElement(q, values, line, lo);
    high := low;
    for offset := lo + 1 to hi
      invariant low == Least(q, values, line, lo, offset) && high == Greatest(q, values, line, lo, offset)
    {
      var x := LineElement(q, values, line, offset);
      low := if x < low then x else low;
      high := if x > high then x else high;
    }
  }

  // ---------------------------------------------------------------------
  // Codes
  // ---------------------------------------------------------------------

  /** Scale and zero point of a group, both rounded to half precision. */
  datatype Fit = Fit(scale: Float, zero: Float)

  type Half = real -> Float

  predicate FiniteFit(fit: Fit) {
    fit.scale.Finite? && fit.zero.Finite?
  }

  /** The code of an element. An infinite quotient saturates, and one that is
      not a number counts as zero. */
  function FitCode(x: real, fit: Fit, bits: nat): (c: nat)
    ensures c < Levels(bits)
  {
    if !fit.scale.Finite? then 0
    else
      var scale := fit.scale.value;
      match fit.zero
      case Finite(zero) => Code(x, scale, zero, bits)
      case Infinite(negative) => if scale != 0.0 && (negative <==> scale > 0.0) then Levels(bits) - 1 else 0
      case NotANumber => 0
  }

  /** The value of a code, if that is a finite number. */
  function FitValue(code: nat, fit: Fit): Option<real> {
    if FiniteFit(fit) then Some(Value(code, fit.scale.value, fit.zero.value)) else None
  }

  function GroupLow(q: Layout, values: seq<real>, line: nat, g: nat): real
    requires |values| == Product(q.rows, q.cols) && line < Lines(q) && q.groupSize > 0 && g < Groups(q)
  {
    GroupsTile(q, g);
    Least(q, values, line, GroupStart(q, g), GroupEnd(q, g))
  }

  function GroupHigh(q: Layout, values: seq<real>, line: nat, g: nat): real
    requires |values| == Product(q.rows, q.cols) && line < Lines(q) && q.groupSize > 0 && g < Groups(q)
  {
    GroupsTile(q, g);
    Greatest(q, values, line, GroupStart(q, g), GroupEnd(q, g))
  }

  function GroupFit(q: Layout, values: seq<real>, half: Half, line: nat, g: nat): Fit
    requires |values| == Product(q.rows, q.cols) && line < Lines(q) && q.groupSize > 0 && g < Groups(q)
  {
    var low, high := GroupLow(q, values, line, g), GroupHigh(q, values, line, g);
    Fit(half(Step(high - low, q.bits)), half(low))
  }

  function LineCode(q: Layout, values: seq<real>, half: Half, line: nat, offset: nat): (c: nat)
    requires |values| == Product(q.rows, q.cols) && line < Lines(q) && q.groupSize > 0 && offset < Extent(q)
    ensures c < Levels(q.bits)
  {
    OffsetGroup(q, offset);
    var fit := GroupFit(q, values, half, line, Quot(offset, q.groupSize));
    FitCode(LineElement(q, values, line, offset), fit, q.bits)
  }

  method QuantizeLine(q: Layout, values: seq<real>, half: Half, line: nat) returns (fits: seq<Fit>, codes: seq<nat>)
    requires |values| == Product(q.rows, q.cols) && line < Lines(q) && q.groupSize > 0
    ensures |fits| == Groups(q) && |codes| == Extent(q)
    ensures forall g: nat | g < Groups(q) :: fits[g] == GroupFit(q, values, half, line, g)
    ensures forall o: nat | o < Extent(q) :: codes[o] == LineCode(q, values, half, line, o)
  {
    hide Product, LineElement, Least, Greatest, FitCode, Step, Quot, CeilDiv;
    fits, codes := [], [];
    GroupsTile(q, 0);
    for g := 0 to Groups(q)
      invariant |fits| == g && |codes| == Min(GroupStart(q, g), Extent(q))
      invariant forall k: nat | k < g :: fits[k] == GroupFit(q, values, half, line, k)
      invariant forall o: nat | o < |codes| :: codes[o] == LineCode(q, values, half, line, o)
    {
      GroupsTile(q, g);
      var start, end := GroupStart(q, g), GroupEnd(q, g);
      var low, high := Bounds(q, values, line, start, end);
      var fit := Fit(half(Step(high - low, q.bits)), half(low));
      fits := fits + [fit];
      for offset := start to end
        invariant |codes| == offset
        invariant forall o: nat | o < |codes| :: codes[o] == LineCode(q, values, half, line, o)
      {
        GroupOfOffset(q, g, offset);
        codes := codes + [FitCode(LineElement(q, values, line, offset), fit, q.bits)];
      }
    }
    GroupsTile(q, Groups(q));
  }

  /** Codes as bytes. */
  function ToCode(n: nat): bv8
    requires n < 16
  {
    match n
    case 0 => 0 case 1 => 1 case 2 => 2 case 3 => 3 case 4 => 4 case 5 => 5 case 6 => 6 case 7 => 7
    case 8 => 8 case 9 => 9 case 10 => 10 case 11 => 11 case 12 => 12 case 13 => 13 case 14 => 14 case 15 => 15
  }

  function FromCode(c: bv8): nat {
    if c == 0 then 0 else if c == 1 then 1 else if c == 2 then 2 else if c == 3 then 3
    else if c == 4 then 4 else if c == 5 then 5 else if c == 6 then 6 else if c == 7 then 7
    else if c == 8 then 8 else if c == 9 then 9 else if c == 10 then 10 else if c == 11 then 11
    else if c == 12 then 12 else if c == 13 then 13 else if c == 14 then 14 else 15
  }

  lemma {:induction false} CodeRoundTrip(n: nat, bits: nat)
    requires BitsOk(bits) && n < Levels(bits)
    ensures n < 16 && FromCode(ToCode(n)) == n && ToCode(n) <= Mask(bits) && (ToCode(n) == 0 <==> n == 0)
  {
  }

  // ---------------------------------------------------------------------
  // The tensor
  // ---------------------------------------------------------------------

  datatype Tensor = Tensor(layout: Layout, scales: seq<Fit>, packed: seq<bv8>)

  predicate Sized(q: Layout, values: seq<real>) {
    LayoutOk(q) && |values| == Product(q.rows, q.cols)
  }

  predicate FitIs(q: Layout, values: seq<real>, half: Half, scales: seq<Fit>, line: nat, g: nat)
    requires Sized(q, values) && line < Lines(q) && g < Groups(q)
  {
    Cell(Groups(q), line, g) < |scales| &&
    scales[Cell(Groups(q), line, g)] == GroupFit(q, values, half, line, g)
  }

  ghost predicate FitsUpTo(q: Layout, values: seq<real>, half: Half, scales: seq<Fit>, n: nat)
    requires Sized(q, values) && n <= Lines(q)
  {
    && |scales| == Product(n, Groups(q))
    && forall line: nat, g: nat | line < n && g < Groups(q) :: FitIs(q, values, half, scales, line, g)
  }

  lemma {:induction false} FitsStep(q: Layout, values: seq<real>, half: Half, scales: seq<Fit>, n: nat, fits: seq<Fit>)
    requires Sized(q, values) && n < Lines(q) && FitsUpTo(q, values, half, scales, n)
    requires |fits| == Groups(q) && forall g: nat | g < Groups(q) :: fits[g] == GroupFit(q, values, half, n, g)
    ensures FitsUpTo(q, values, half, scales + fits, n + 1)
  {
    hide Product, GroupFit, Groups;
    ProductStep(n, Groups(q));
    forall line: nat, g: nat | line < n + 1 && g < Groups(q) ensures FitIs(q, values, half, scales + fits, line, g) {
      if line < n {
        assert FitIs(q, values, half, scales, line, g);
      }
    }
  }

  ghost predicate LinesUpTo(q: Layout, values: seq<real>, half: Half, codes: seq<seq<nat>>, n: nat)
    requires Sized(q, values) && n <= Lines(q)
  {
    && |codes| == n
    && forall line: nat | line < n :: LineIs(q, values, half, codes[line], line)
  }

  predicate LineIs(q: Layout, values: seq<real>, half: Half, codes: seq<nat>, line: nat)
    requires Sized(q, values) && line < Lines(q)
  {
    |codes| == Extent(q) && forall o: nat | o < Extent(q) :: codes[o] == LineCode(q, values, half, line, o)
  }

  /** Stage one: a scale and zero point for every group, a code for every
      element, line by line. */
  method FitLines(q: Layout, values: seq<real>, half: Half) returns (scales: seq<Fit>, codes: seq<seq<nat>>)
    requires Sized(q, values)
    ensures FitsUpTo(q, values, half, scales, Lines(q)) && LinesUpTo(q, values, half, codes, Lines(q))
  {
    hide Product, GroupFit, LineCode, Groups;
    scales, codes := [], [];
    ProductStep(0, Groups(q));
    for line := 0 to Lines(q)
      invariant FitsUpTo(q, values, half, scales, line) && LinesUpTo(q, values, half, codes, line)
    {
      var fits, lineCodes := QuantizeLine(q, values, half, line);
      FitsStep(q, values, half, scales, line, fits);
      scales := scales + fits;
      codes := codes + [lineCodes];
    }
  }

  predicate ElementIs(q: Layout, values: seq<real>, half: Half, codes: seq<bv8>, row: nat, col: nat)
    requires Sized(q, values) && row < q.rows && col < q.cols
  {
    CodeFits(q, values, half, row, col);
    Cell(q.cols, row, col) < |codes| &&
    codes[Cell(q.cols, row, col)] == ToCode(LineCode(q, values, half, LineOf(q, row, col), OffsetOf(q, row, col)))
  }

  lemma {:induction false} CodeFits(q: Layout, values: seq<real>, half: Half, row: nat, col: nat)
    requires Sized(q, values) && row < q.rows && col < q.cols
    ensures LineOf(q, row, col) < Lines(q) && OffsetOf(q, row, col) < Extent(q)
    ensures LineCode(q, values, half, LineOf(q, row, col), OffsetOf(q, row, col)) < 16
  {
    hide LineCode, Product;
  }

  /** The first `n` codes in row-major order. */
  ghost predicate CodesUpTo(q: Layout, values: seq<real>, half: Half, codes: seq<bv8>, n: nat)
    requires Sized(q, values)
  {
    && |codes| == n
    && forall row: nat, col: nat | row < q.rows && col < q.cols && Cell(q.cols, row, col) < n ::
         ElementIs(q, values, half, codes, row, col)
  }

  lemma {:induction false} CodesStep(
      q: Layout, values: seq<real>, half: Half, codes: seq<bv8>, row: nat, col: nat, code: bv8)
    requires Sized(q, values) && row < q.rows && col < q.cols
    requires CodesUpTo(q, values, half, codes, Cell(q.cols, row, col))
    requires LineOf(q, row, col) < Lines(q) && OffsetOf(q, row, col) < Extent(q)
    requires LineCode(q, values, half, LineOf(q, row, col), OffsetOf(q, row, col)) < 16
    requires code == ToCode(LineCode(q, values, half, LineOf(q, row, col), OffsetOf(q, row, col)))
    ensures CodesUpTo(q, values, half, codes + [code], Cell(q.cols, row, col) + 1)
  {
    hide Cell, LineCode, Product, ToCode;
    forall r: nat, c: nat | r < q.rows && c < q.cols && Cell(q.cols, r, c) < |codes| + 1
      ensures ElementIs(q, values, half, codes + [code], r, c)
    {
      if Cell(q.cols, r, c) == Cell(q.cols, row, col) {
        CellInjective(q.cols, r, c, row, col);
      } else {
        assert ElementIs(q, values, half, codes, r, c);
      }
    }
  }

  /** Stage two: the codes repacked in row-major order. */
  method PackRows(q: Layout, values: seq<real>, half: Half, lines: seq<seq<nat>>)
    returns (packed: seq<bv8>, ghost codes: seq<bv8>)
    requires Sized(q, values) && LinesUpTo(q, values, half, lines, Lines(q))
    ensures |packed| == PackedLength(Product(q.rows, q.cols), q.bits)
    ensures CodesUpTo(q, values, half, codes, Product(q.rows, q.cols)) && Packs(packed, q.bits, codes)
  {
    hide Cell, LineCode, Product, ToCode, Packs, Mask;
    var writer := new BitWriter(q.bits);
    CellStep(q.cols, 0);
    for row := 0 to q.rows
      invariant writer.Valid() && writer.bits == q.bits
      invariant CodesUpTo(q, values, half, writer.codes, Cell(q.cols, row, 0))
    {
      for col := 0 to q.cols
        invariant writer.Valid() && writer.bits == q.bits
        invariant CodesUpTo(q, values, half, writer.codes, Cell(q.cols, row, col))
      {
        var line, offset := LineOf(q, row, col), OffsetOf(q, row, col);
        assert LineIs(q, values, half, lines[line], line);
        CodeFits(q, values, half, row, col);
        var code := lines[line][offset];
        CodeRoundTrip(code, q.bits);
        CodesStep(q, values, half, writer.codes, row, col, ToCode(code));
        writer.Push(ToCode(code));
        CellNext(q.cols, row, col);
      }
      CellStep(q.cols, row);
    }
    CellStep(q.cols, q.rows);
    packed, codes := writer.packed, writer.codes;
    PackedSize(packed, q.bits, codes);
  }

  lemma {:induction false} PackedSize(packed: seq<bv8>, bits: nat, codes: seq<bv8>)
    requires Packs(packed, bits, codes)
    ensures |packed| == PackedLength(|codes|, bits)
  {
  }

  lemma {:induction false} CellNext(width: nat, i: nat, j: nat)
    ensures Cell(width, i, j + 1) == Cell(width, i, j) + 1
  {
    hide Product;
  }

  /** A tensor that holds exactly the fits and codes of `values`. */
  ghost predicate Quantized(t: Tensor, values: seq<real>, half: Half, codes: seq<bv8>) {
    && Sized(t.layout, values)
    && FitsUpTo(t.layout, values, half, t.scales, Lines(t.layout))
    && CodesUpTo(t.layout, values, half, codes, Product(t.layout.rows, t.layout.cols))
    && Packs(t.packed, t.layout.bits, codes)
  }

  predicate AllFinite(source: seq<Float>) {
    forall i :: 0 <= i < |source| ==> source[i].Finite?
  }

  function Values(source: seq<Float>): (values: seq<real>)
    requires AllFinite(source)
    ensures |values| == |source|
  {
    seq(|source|, i requires 0 <= i < |source| => source[i].value)
  }

  function Floats(values: seq<real>): (source: seq<Float>)
    ensures AllFinite(source) && Values(source) == values
  {
    seq(|values|, i requires 0 <= i < |values| => Finite(values[i]))
  }

  method Quantize(q: Layout, source: seq<Float>, half: Half) returns (r: Option<Tensor>, ghost codes: seq<bv8>)
    requires BitsOk(q.bits) && 0 < q.groupSize <= MAX_QUANT_GROUP_SIZE
    ensures r.Some? <==> LayoutOk(q) && |source| == Product(q.rows, q.cols) && AllFinite(source)
    ensures r.Some? ==> r.value.layout == q && Quantized(r.value, Values(source), half, codes)
  {
    hide FitsUpTo, LinesUpTo, CodesUpTo, Packs;
    codes := [];
    if !LayoutOk(q) || |source| != Product(q.rows, q.cols) || !AllFinite(source) {
      return None, [];
    }
    var values := Values(source);
    var scales, lines := FitLines(q, values, half);
    var packed, ghostCodes := PackRows(q, values, half, lines);
    return Some(Tensor(q, scales, packed)), ghostCodes;
  }

  // ---------------------------------------------------------------------
  // Decoding
  // ---------------------------------------------------------------------

  lemma {:induction false} IndexInRange(q: Layout, row: nat, col: nat)
    requires LayoutOk(q) && row < q.rows && col < q.cols
    ensures GroupIndex(q, row, col) < Product(Lines(q), Groups(q))
    ensures Cell(q.cols, row, col) < Product(q.rows, q.cols)
  {
    hide Product, Cell, Quot, CeilDiv;
    OffsetGroup(q, OffsetOf(q, row, col));
    CellBounds(Groups(q), Lines(q), LineOf(q, row, col), Quot(OffsetOf(q, row, col), q.groupSize));
    CellBounds(q.cols, q.rows, row, col);
  }

  /** A tensor with one fit a group and one code an element. */
  ghost predicate Holds(t: Tensor, codes: seq<bv8>) {
    && LayoutOk(t.layout) && |t.scales| == Product(Lines(t.layout), Groups(t.layout))
    && |codes| == Product(t.layout.rows, t.layout.cols) && Packs(t.packed, t.layout.bits, codes)
  }

  predicate DecodesAt(t: Tensor, codes: seq<bv8>, result: seq<Option<real>>, row: nat, col: nat)
    requires LayoutOk(t.layout)
  {
    var i, g := Cell(t.layout.cols, row, col), GroupIndex(t.layout, row, col);
    && i < |result| && i < |codes| && g < |t.scales|
    && result[i] == FitValue(FromCode(codes[i]), t.scales[g])
  }

  ghost predicate DecodedUpTo(t: Tensor, codes: seq<bv8>, result: seq<Option<real>>, n: nat)
    requires LayoutOk(t.layout)
  {
    && |result| == n
    && forall row: nat, col: nat | row < t.layout.rows && col < t.layout.cols && Cell(t.layout.cols, row, col) < n ::
         DecodesAt(t, codes, result, row, col)
  }

  lemma {:induction false} DecodedStep(
      t: Tensor, codes: seq<bv8>, result: seq<Option<real>>, row: nat, col: nat, x: Option<real>)
    requires LayoutOk(t.layout) && row < t.layout.rows && col < t.layout.cols
    requires DecodedUpTo(t, codes, result, Cell(t.layout.cols, row, col))
    requires DecodesAt(t, codes, result + [x], row, col)
    ensures DecodedUpTo(t, codes, result + [x], Cell(t.layout.cols, row, col) + 1)
  {
    hide Cell, GroupIndex, Product, FitValue, FromCode;
    var q := t.layout;
    forall r: nat, c: nat | r < q.rows && c < q.cols && Cell(q.cols, r, c) < |result| + 1
      ensures DecodesAt(t, codes, result + [x], r, c)
    {
      if Cell(q.cols, r, c) == Cell(q.cols, row, col) {
        CellInjective(q.cols, r, c, row, col);
      } else {
        assert DecodesAt(t, codes, result, r, c);
      }
    }
  }

  lemma {:induction false} ReadBack(packed: seq<bv8>, bits: nat, codes: seq<bv8>, i: nat)
    requires BitsOk(bits) && Packs(packed, bits, codes) && i < |codes|
    ensures ByteOf(i, bits) < |packed|
    ensures forall c: bv8 | BitPacking.CodeIs(packed, bits, i, c) :: c == codes[i]
  {
    hide ByteOf, ShiftOf, Extract;
    Earlier(i, |codes|, bits);
    assert BitPacking.CodeIs(packed, bits, i, codes[i]);
  }

  lemma {:induction false} CodeBelow(c: bv8, bits: nat)
    requires BitsOk(bits) && c <= Mask(bits)
    ensures FromCode(c) < Levels(bits)
  {
  }

  /** Reads every code back; neither error is possible for a packed tensor. */
  method Decode(t: Tensor, ghost codes: seq<bv8>) returns (r: Option<seq<Option<real>>>)
    requires Holds(t, codes)
    ensures r.Some? && DecodedUpTo(t, codes, r.value, Product(t.layout.rows, t.layout.cols))
  {
    hide Cell, GroupIndex, Product, FitValue, FromCode, Packs, ByteOf, Mask, Groups, Levels, BitPacking.CodeIs;
    var q := t.layout;
    var reader := new BitReader(t.packed, q.bits);
    var result: seq<Option<real>> := [];
    CellStep(q.cols, 0);
    for row := 0 to q.rows
      invariant reader.cursor == Cell(q.cols, row, 0) && DecodedUpTo(t, codes, result, Cell(q.cols, row, 0))
      invariant reader.packed == t.packed && reader.bits == q.bits
    {
      for col := 0 to q.cols
        invariant reader.cursor == Cell(q.cols, row, col) && DecodedUpTo(t, codes, result, Cell(q.cols, row, col))
        invariant reader.packed == t.packed && reader.bits == q.bits
      {
        IndexInRange(q, row, col);
        ReadBack(t.packed, q.bits, codes, reader.cursor);
        var code := reader.Next();
        if code.None? {
          return None;
        }
        CodeBelow(code.value, q.bits);
        if FromCode(code.value) >= Levels(q.bits) {
          return None;
        }
        var x := FitValue(FromCode(code.value), t.scales[GroupIndex(q, row, col)]);
        DecodedStep(t, codes, result, row, col, x);
        result := result + [x];
        CellNext(q.cols, row, col);
      }
      CellStep(q.cols, row);
    }
    CellStep(q.cols, q.rows);
    return Some(result);
  }

  // ---------------------------------------------------------------------
  // The error of a round trip
  // ---------------------------------------------------------------------

  function GroupOf(q: Layout, row: nat, col: nat): nat
    requires q.groupSize > 0
  {
    Quot(OffsetOf(q, row, col), q.groupSize)
  }

  /** Scale and zero point of a group, and its extremes, meet the condition of
      the documented bound. */
  predicate Keeps(q: Layout, values: seq<real>, half: Half, line: nat, g: nat)
    requires Sized(q, values) && line < Lines(q) && g < Groups(q)
  {
    var fit := GroupFit(q, values, half, line, g);
    && FiniteFit(fit) && fit.scale.value >= 0.0
    && Meets(GroupLow(q, values, line, g), GroupHigh(q, values, line, g), fit.scale.value, fit.zero.value, q.bits)
  }

  /** A value for element `offset` of a line is within the documented bound of
      its group. */
  predicate Within(q: Layout, values: seq<real>, half: Half, line: nat, offset: nat, y: Option<real>)
    requires Sized(q, values) && line < Lines(q) && offset < Extent(q)
  {
    OffsetGroup(q, offset);
    var g := Quot(offset, q.groupSize);
    var low, high := GroupLow(q, values, line, g), GroupHigh(q, values, line, g);
    && y.Some? && half(low).Finite?
    && Abs(y.value - LineElement(q, values, line, offset))
       <= ErrorBound(high - low, Abs(half(low).value - low), q.bits)
  }

  /** What one element comes back as. */
  function Restored(q: Layout, values: seq<real>, half: Half, line: nat, offset: nat): Option<real>
    requires Sized(q, values) && line < Lines(q) && offset < Extent(q)
  {
    OffsetGroup(q, offset);
    FitValue(LineCode(q, values, half, line, offset), GroupFit(q, values, half, line, Quot(offset, q.groupSize)))
  }

  /** A decoded element, as the quantizer's own formulas give it. */
  lemma {:induction false} ElementRestored(
      t: Tensor, values: seq<real>, half: Half, codes: seq<bv8>, result: seq<Option<real>>, row: nat, col: nat)
    requires Quantized(t, values, half, codes) && row < t.layout.rows && col < t.layout.cols
    requires DecodedUpTo(t, codes, result, Product(t.layout.rows, t.layout.cols))
    ensures Cell(t.layout.cols, row, col) < |result|
    ensures result[Cell(t.layout.cols, row, col)] ==
            Restored(t.layout, values, half, LineOf(t.layout, row, col), OffsetOf(t.layout, row, col))
  {
    hide Cell, Product, FitValue, FromCode, ToCode, Packs, Groups, Levels, Quot, FitCode, Step, Least, Greatest,
      GroupStart, GroupEnd;
    var q := t.layout;
    var line, offset, g := LineOf(q, row, col), OffsetOf(q, row, col), GroupOf(q, row, col);
    IndexInRange(q, row, col);
    OffsetGroup(q, offset);
    CodeFits(q, values, half, row, col);
    assert ElementIs(q, values, half, codes, row, col);
    assert FitIs(q, values, half, t.scales, line, g);
    assert DecodesAt(t, codes, result, row, col);
    CodeRoundTrip(LineCode(q, values, half, line, offset), q.bits);
  }

  lemma {:induction false} QuantizedHolds(t: Tensor, values: seq<real>, half: Half, codes: seq<bv8>)
    requires Quantized(t, values, half, codes)
    ensures Holds(t, codes)
  {
    hide Packs, FitIs, ElementIs, Product;
  }

  // ---------------------------------------------------------------------
  // When the documented bound holds
  // ---------------------------------------------------------------------

  lemma {:induction false} GreatestIsThere(q: Layout, values: seq<real>, line: nat, lo: nat, hi: nat)
      returns (offset: nat)
    requires |values| == Product(q.rows, q.cols) && line < Lines(q) && lo < hi <= Extent(q)
    ensures lo <= offset < hi && LineElement(q, values, line, offset) == Greatest(q, values, line, lo, hi)
    decreases hi - lo
  {
    hide LineElement, Product;
    offset := hi - 1;
    if lo + 1 >= hi {
    } else {
      var before := GreatestIsThere(q, values, line, lo, hi - 1);
      if LineElement(q, values, line, hi - 1) <= LineElement(q, values, line, before) {
        offset := before;
      }
    }
  }

  /** An element is within the bound exactly if scale and zero point are finite
      and it is close. */
  lemma {:induction false} WithinIsClose(q: Layout, values: seq<real>, half: Half, line: nat, g: nat, o: nat)
    requires Sized(q, values) && line < Lines(q) && g < Groups(q) && GroupStart(q, g) <= o < GroupEnd(q, g)
    ensures o < Extent(q)
    ensures var low, high := GroupLow(q, values, line, g), GroupHigh(q, values, line, g);
            var fit := GroupFit(q, values, half, line, g);
            && low <= LineElement(q, values, line, o) <= high
            && (Within(q, values, half, line, o, Restored(q, values, half, line, o)) <==>
                  && FiniteFit(fit)
                  && Close(LineElement(q, values, line, o), low, high, fit.scale.value, fit.zero.value, q.bits))
  {
    hide Product, LineElement, Least, Greatest, Groups, Step, Abs, ErrorBound, Code, Value, Levels, Quot;
    GroupsTile(q, g);
    GroupOfOffset(q, g, o);
    ElementWithin(q, values, line, GroupStart(q, g), GroupEnd(q, g), o);
  }

  /** The condition is enough for every element of a group. */
  lemma {:induction false} KeepsIsEnough(q: Layout, values: seq<real>, half: Half, line: nat, offset: nat)
    requires Sized(q, values) && line < Lines(q) && offset < Extent(q)
    ensures Quot(offset, q.groupSize) < Groups(q)
    ensures Keeps(q, values, half, line, Quot(offset, q.groupSize)) ==>
              Within(q, values, half, line, offset, Restored(q, values, half, line, offset))
  {
    hide Product, LineElement, Groups, Meets, Close, Quot, Within, Restored, GroupLow, GroupHigh, GroupStart, GroupEnd;
    OffsetGroup(q, offset);
    var g := Quot(offset, q.groupSize);
    WithinIsClose(q, values, half, line, g, offset);
    if Keeps(q, values, half, line, g) {
      var fit := GroupFit(q, values, half, line, g);
      MeetsIsEnough(LineElement(q, values, line, offset), GroupLow(q, values, line, g), GroupHigh(q, values, line, g),
                    fit.scale.value, fit.zero.value, q.bits);
    }
  }

  ghost predicate GroupWithin(q: Layout, values: seq<real>, half: Half, line: nat, g: nat)
    requires Sized(q, values) && line < Lines(q) && g < Groups(q)
  {
    GroupsTile(q, g);
    forall o: nat | GroupStart(q, g) <= o < GroupEnd(q, g) ::
      Within(q, values, half, line, o, Restored(q, values, half, line, o))
  }

  /** Half a scale is within the bound of the group. */
  predicate Fine(q: Layout, values: seq<real>, half: Half, line: nat, g: nat)
    requires Sized(q, values) && line < Lines(q) && g < Groups(q)
  {
    var fit := GroupFit(q, values, half, line, g);
    var low, high := GroupLow(q, values, line, g), GroupHigh(q, values, line, g);
    FiniteFit(fit) ==>
      0.5 * fit.scale.value <= ErrorBound(high - low, Abs(fit.zero.value - low), q.bits)
  }

  /** Element `o` lies within the bound of some level of its group. */
  ghost predicate Reachable(q: Layout, values: seq<real>, half: Half, line: nat, g: nat, o: nat)
    requires Sized(q, values) && line < Lines(q) && g < Groups(q) && o < Extent(q)
  {
    var fit := GroupFit(q, values, half, line, g);
    && FiniteFit(fit)
    && NearLevel(LineElement(q, values, line, o), GroupLow(q, values, line, g), GroupHigh(q, values, line, g),
                 fit.scale.value, fit.zero.value, q.bits)
  }

  /** One element keeps the documented bound exactly if some level is that
      close to it. */
  lemma {:induction false} ElementExact(q: Layout, values: seq<real>, half: Half, line: nat, g: nat, o: nat)
    requires Sized(q, values) && line < Lines(q) && g < Groups(q) && GroupStart(q, g) <= o < GroupEnd(q, g)
    requires GroupFit(q, values, half, line, g).scale.Finite? ==> GroupFit(q, values, half, line, g).scale.value >= 0.0
    ensures o < Extent(q)
    ensures Within(q, values, half, line, o, Restored(q, values, half, line, o)) <==>
              Reachable(q, values, half, line, g, o)
  {
    hide Product, LineElement, Groups, NearLevel, Close, Within, Restored, GroupLow, GroupHigh, GroupStart, GroupEnd;
    WithinIsClose(q, values, half, line, g, o);
    var fit := GroupFit(q, values, half, line, g);
    if FiniteFit(fit) {
      CloseIsNearLevel(LineElement(q, values, line, o), GroupLow(q, values, line, g), GroupHigh(q, values, line, g),
                       fit.scale.value, fit.zero.value, q.bits);
    }
  }

  /** Where half a scale is within the bound, a group keeps the documented bound
      exactly if it meets the condition, which its greatest element decides. */
  lemma {:induction false} GroupExact(q: Layout, values: seq<real>, half: Half, line: nat, g: nat)
    requires Sized(q, values) && line < Lines(q) && g < Groups(q)
    requires GroupFit(q, values, half, line, g).scale.Finite? ==> GroupFit(q, values, half, line, g).scale.value >= 0.0
    ensures Keeps(q, values, half, line, g) ==> GroupWithin(q, values, half, line, g)
    ensures Fine(q, values, half, line, g) ==>
              (GroupWithin(q, values, half, line, g) <==> Keeps(q, values, half, line, g))
  {
    hide Product, LineElement, Least, Greatest, Groups, Meets, Close, Within, Restored, GroupStart, GroupEnd,
      ErrorBound, Quot;
    GroupsTile(q, g);
    var top := GreatestIsThere(q, values, line, GroupStart(q, g), GroupEnd(q, g));
    WithinIsClose(q, values, half, line, g, top);
    var low, high := GroupLow(q, values, line, g), GroupHigh(q, values, line, g);
    var fit := GroupFit(q, values, half, line, g);
    if FiniteFit(fit) && Fine(q, values, half, line, g) {
      TopDecides(low, high, fit.scale.value, fit.zero.value, q.bits);
    }
    forall o: nat | GroupStart(q, g) <= o < GroupEnd(q, g) && Keeps(q, values, half, line, g)
      ensures Within(q, values, half, line, o, Restored(q, values, half, line, o))
    {
      GroupOfOffset(q, g, o);
      KeepsIsEnough(q, values, half, line, o);
    }
  }

  // ---------------------------------------------------------------------
  // The code's own rounding
  // ---------------------------------------------------------------------

  function GroupStep(q: Layout, values: seq<real>, line: nat, g: nat): real
    requires Sized(q, values) && line < Lines(q) && g < Groups(q)
  {
    Step(GroupHigh(q, values, line, g) - GroupLow(q, values, line, g), q.bits)
  }

  lemma {:induction false} StepIsThere(q: Layout, values: seq<real>, line: nat, g: nat)
    requires Sized(q, values) && line < Lines(q) && g < Groups(q)
    ensures GroupLow(q, values, line, g) <= GroupHigh(q, values, line, g) && GroupStep(q, values, line, g) >= 0.0
  {
    hide Product, LineElement, Least, Greatest, Groups, Step, GroupStart, GroupEnd;
    GroupsTile(q, g);
    ElementWithin(q, values, line, GroupStart(q, g), GroupEnd(q, g), GroupStart(q, g));
    StepTimes(GroupHigh(q, values, line, g) - GroupLow(q, values, line, g), q.bits);
  }

  /** Scale and zero point survive, and a scale is not negative. */
  lemma {:induction false} HalfFit(q: Layout, values: seq<real>, line: nat, g: nat)
    requires Sized(q, values) && line < Lines(q) && g < Groups(q)
    ensures var fit := GroupFit(q, values, HalfOf, line, g);
            && (fit.scale.Finite? <==> GroupStep(q, values, line, g) < LIMIT)
            && (fit.zero.Finite? <==> Abs(GroupLow(q, values, line, g)) < LIMIT)
            && (fit.scale.Finite? ==> fit.scale.value >= 0.0)
  {
    hide GroupLow, GroupHigh, HalfOf, Step, Groups, Product;
    StepIsThere(q, values, line, g);
    HalfIsFinite(GroupStep(q, values, line, g));
    HalfIsFinite(GroupLow(q, values, line, g));
    HalfIsPositive(GroupStep(q, values, line, g));
  }

  /** A group without overflow that is flat or has a step in the normal range. */
  predicate Normal(q: Layout, values: seq<real>, line: nat, g: nat)
    requires Sized(q, values) && line < Lines(q) && g < Groups(q)
  {
    && Abs(GroupLow(q, values, line, g)) < LIMIT
    && (GroupStep(q, values, line, g) == 0.0 || MIN_NORMAL <= GroupStep(q, values, line, g) < LIMIT)
  }

  /** With the code's own rounding: a group with a normal step keeps the bound, a
      group that overflows loses every element, and in between the condition
      decides wherever half a scale is within the bound. */
  lemma {:induction false} HalfExact(q: Layout, values: seq<real>, line: nat, g: nat)
    requires Sized(q, values) && line < Lines(q) && g < Groups(q)
    ensures Keeps(q, values, HalfOf, line, g) ==> GroupWithin(q, values, HalfOf, line, g)
    ensures Fine(q, values, HalfOf, line, g) ==>
              (GroupWithin(q, values, HalfOf, line, g) <==> Keeps(q, values, HalfOf, line, g))
    ensures Normal(q, values, line, g) ==> Keeps(q, values, HalfOf, line, g)
    ensures Keeps(q, values, HalfOf, line, g) ==>
              Abs(GroupLow(q, values, line, g)) < LIMIT && GroupStep(q, values, line, g) < LIMIT
  {
    hide GroupLow, GroupHigh, HalfOf, Groups, GroupWithin, Fine, Meets, Accurate, Step, Product;
    HalfFit(q, values, line, g);
    GroupExact(q, values, HalfOf, line, g);
    var step := GroupStep(q, values, line, g);
    if Normal(q, values, line, g) {
      StepIsThere(q, values, line, g);
      if step == 0.0 {
        ZeroIsAccurate();
      } else {
        NormalIsAccurate(step);
      }
      AccurateMeets(GroupLow(q, values, line, g), GroupHigh(q, values, line, g),
                    HalfOf(step).value, HalfOf(GroupLow(q, values, line, g)).value, q.bits);
    }
  }

  /** An element is lost exactly if its group overflows. */
  lemma {:induction false} LostExactly(q: Layout, values: seq<real>, line: nat, offset: nat)
    requires Sized(q, values) && line < Lines(q) && offset < Extent(q)
    ensures Quot(offset, q.groupSize) < Groups(q)
    ensures var g := Quot(offset, q.groupSize);
            Restored(q, values, HalfOf, line, offset).None? <==>
              Abs(GroupLow(q, values, line, g)) >= LIMIT || GroupStep(q, values, line, g) >= LIMIT
  {
    hide GroupLow, GroupHigh, HalfOf, Groups, Step, Product, LineCode, Quot;
    OffsetGroup(q, offset);
    HalfFit(q, values, line, Quot(offset, q.groupSize));
  }

  // ---------------------------------------------------------------------
  // The same, on the cells of the matrix
  // ---------------------------------------------------------------------

  /** Two cells are quantized together: cells of one column in the same stretch
      of rows, or cells of one row in the same stretch of columns. */
  predicate SameGroup(q: Layout, row: nat, col: nat, r: nat, c: nat)
    requires q.groupSize > 0
  {
    if q.axis.PerChannel? then c == col && r / q.groupSize == row / q.groupSize
    else r == row && c / q.groupSize == col / q.groupSize
  }

  /** Some cell quantized together with this one holds `x`. */
  ghost predicate Occurs(q: Layout, values: seq<real>, row: nat, col: nat, x: real)
    requires q.groupSize > 0
  {
    exists r: nat, c: nat ::
      && r < q.rows && c < q.cols && SameGroup(q, row, col, r, c)
      && 0 <= r * q.cols + c < |values| && values[r * q.cols + c] == x
  }

  /** The least and the greatest cell quantized together with this one. */
  ghost predicate Extremes(q: Layout, values: seq<real>, row: nat, col: nat, low: real, high: real)
    requires q.groupSize > 0
  {
    && Occurs(q, values, row, col, low) && Occurs(q, values, row, col, high)
    && forall r: nat, c: nat | r < q.rows && c < q.cols && SameGroup(q, row, col, r, c) ::
         0 <= r * q.cols + c < |values| && low <= values[r * q.cols + c] <= high
  }

  /** One cell of a round trip, given the extremes of its group: the value that
      the rounded scale and zero point give it, within the documented bound if
      they meet the condition for that. */
  predicate Trip(bits: nat, half: Half, low: real, high: real, x: real, y: Option<real>) {
    var fit := Fit(half(Step(high - low, bits)), half(low));
    && y == FitValue(FitCode(x, fit, bits), fit)
    && (FiniteFit(fit) && fit.scale.value >= 0.0 && Meets(low, high, fit.scale.value, fit.zero.value, bits) ==>
          y.Some? && Abs(y.value - x) <= ErrorBound(high - low, Abs(fit.zero.value - low), bits))
  }

  /** The cell at an offset of a line. */
  lemma {:induction false} LineCell(q: Layout, values: seq<real>, r: nat, c: nat)
    requires Sized(q, values) && r < q.rows && c < q.cols
    ensures LineOf(q, r, c) < Lines(q) && OffsetOf(q, r, c) < Extent(q)
    ensures 0 <= r * q.cols + c == Cell(q.cols, r, c) < |values|
    ensures LineElement(q, values, LineOf(q, r, c), OffsetOf(q, r, c)) == values[r * q.cols + c]
  {
    AsProduct(r, q.cols);
    hide Product;
    CellBounds(q.cols, q.rows, r, c);
  }

  lemma {:induction false} SameGroupIs(q: Layout, row: nat, col: nat, r: nat, c: nat)
    requires q.groupSize > 0
    ensures SameGroup(q, row, col, r, c) <==>
              && LineOf(q, r, c) == LineOf(q, row, col)
              && Quot(OffsetOf(q, r, c), q.groupSize) == Quot(OffsetOf(q, row, col), q.groupSize)
  {
  }

  function RowAt(q: Layout, line: nat, offset: nat): nat {
    if q.axis.PerChannel? then offset else line
  }

  function ColumnAt(q: Layout, line: nat, offset: nat): nat {
    if q.axis.PerChannel? then line else offset
  }

  lemma {:induction false} LeastIsThere(q: Layout, values: seq<real>, line: nat, lo: nat, hi: nat)
      returns (offset: nat)
    requires |values| == Product(q.rows, q.cols) && line < Lines(q) && lo < hi <= Extent(q)
    ensures lo <= offset < hi && LineElement(q, values, line, offset) == Least(q, values, line, lo, hi)
    decreases hi - lo
  {
    hide LineElement, Product;
    offset := hi - 1;
    if lo + 1 >= hi {
    } else {
      var before := LeastIsThere(q, values, line, lo, hi - 1);
      if LineElement(q, values, line, hi - 1) >= LineElement(q, values, line, before) {
        offset := before;
      }
    }
  }

  /** Every offset of a group is a cell quantized together with any of them. */
  lemma {:induction false} OffsetOccurs(q: Layout, values: seq<real>, row: nat, col: nat, offset: nat)
    requires Sized(q, values) && row < q.rows && col < q.cols && GroupOf(q, row, col) < Groups(q)
    requires GroupStart(q, GroupOf(q, row, col)) <= offset < GroupEnd(q, GroupOf(q, row, col))
    ensures LineOf(q, row, col) < Lines(q) && offset < Extent(q)
    ensures Occurs(q, values, row, col, LineElement(q, values, LineOf(q, row, col), offset))
  {
    hide Product, LineElement, Quot, Groups, SameGroup;
    var line, g := LineOf(q, row, col), GroupOf(q, row, col);
    GroupsTile(q, g);
    GroupOfOffset(q, g, offset);
    var r, c := RowAt(q, line, offset), ColumnAt(q, line, offset);
    LineCell(q, values, r, c);
    SameGroupIs(q, row, col, r, c);
  }

  /** The extremes of the cells are those the quantizer scans. */
  lemma {:induction false} ExtremesAre(q: Layout, values: seq<real>, row: nat, col: nat)
    requires Sized(q, values) && row < q.rows && col < q.cols
    ensures GroupOf(q, row, col) < Groups(q)
    ensures var line, g := LineOf(q, row, col), GroupOf(q, row, col);
            Extremes(q, values, row, col, GroupLow(q, values, line, g), GroupHigh(q, values, line, g))
  {
    hide Product, LineElement, Quot, Groups, SameGroup, Least, Greatest, GroupStart, GroupEnd, Occurs;
    var line, g := LineOf(q, row, col), GroupOf(q, row, col);
    OffsetGroup(q, OffsetOf(q, row, col));
    GroupsTile(q, g);
    var lo, hi := GroupStart(q, g), GroupEnd(q, g);
    var least := LeastIsThere(q, values, line, lo, hi);
    var greatest := GreatestIsThere(q, values, line, lo, hi);
    OffsetOccurs(q, values, row, col, least);
    OffsetOccurs(q, values, row, col, greatest);
    forall r: nat, c: nat | r < q.rows && c < q.cols && SameGroup(q, row, col, r, c)
      ensures 0 <= r * q.cols + c < |values|
      ensures GroupLow(q, values, line, g) <= values[r * q.cols + c] <= GroupHigh(q, values, line, g)
    {
      SameGroupIs(q, row, col, r, c);
      LineCell(q, values, r, c);
      OffsetGroup(q, OffsetOf(q, r, c));
      ElementWithin(q, values, line, lo, hi, OffsetOf(q, r, c));
    }
  }

  lemma {:induction false} ExtremesUnique(
      q: Layout, values: seq<real>, row: nat, col: nat, low: real, high: real, least: real, greatest: real)
    requires q.groupSize > 0
    requires Extremes(q, values, row, col, low, high) && Extremes(q, values, row, col, least, greatest)
    ensures low == least && high == greatest
  {
    hide SameGroup;
  }

  lemma {:induction false} CellTrip(
      q: Layout, values: seq<real>, half: Half, row: nat, col: nat, low: real, high: real)
    requires Sized(q, values) && row < q.rows && col < q.cols && Extremes(q, values, row, col, low, high)
    ensures LineOf(q, row, col) < Lines(q) && OffsetOf(q, row, col) < Extent(q) && 0 <= row * q.cols + col < |values|
    ensures low <= values[row * q.cols + col] <= high
    ensures Trip(q.bits, half, low, high, values[row * q.cols + col],
                 Restored(q, values, half, LineOf(q, row, col), OffsetOf(q, row, col)))
  {
    hide Product, LineElement, Quot, Groups, Least, Greatest, GroupStart, GroupEnd, Meets, FitCode, FitValue,
      ErrorBound, Step, GroupLow, GroupHigh, Extremes, Trip;
    var line, offset, g := LineOf(q, row, col), OffsetOf(q, row, col), GroupOf(q, row, col);
    ExtremesAre(q, values, row, col);
    ExtremesUnique(q, values, row, col, low, high, GroupLow(q, values, line, g), GroupHigh(q, values, line, g));
    LineCell(q, values, row, col);
    OwnExtremes(q, values, row, col, low, high);
    FitTrips(q.bits, half, low, high, values[row * q.cols + col]);
  }

  lemma {:induction false} OwnExtremes(q: Layout, values: seq<real>, row: nat, col: nat, low: real, high: real)
    requires Sized(q, values) && row < q.rows && col < q.cols && Extremes(q, values, row, col, low, high)
    ensures 0 <= row * q.cols + col < |values| && low <= values[row * q.cols + col] <= high
  {
    hide Occurs, Product;
    assert SameGroup(q, row, col, row, col);
  }

  lemma {:induction false} FitTrips(bits: nat, half: Half, low: real, high: real, x: real)
    requires low <= x <= high
    ensures var fit := Fit(half(Step(high - low, bits)), half(low));
            Trip(bits, half, low, high, x, FitValue(FitCode(x, fit, bits), fit))
  {
    hide Meets, Step, Code, Value, ErrorBound;
    var fit := Fit(half(Step(high - low, bits)), half(low));
    if FiniteFit(fit) && fit.scale.value >= 0.0 && Meets(low, high, fit.scale.value, fit.zero.value, bits) {
      MeetsIsEnough(x, low, high, fit.scale.value, fit.zero.value, bits);
    }
  }

  /** Quantize, pack, unpack, decode: every element comes back as its code and
      group say, and within the documented bound if its group meets the
      condition for that. */
  method RoundTrip(q: Layout, values: seq<real>, half: Half) returns (result: seq<Option<real>>)
    requires Sized(q, values)
    ensures |result| == |values|
    ensures forall row: nat, col: nat | row < q.rows && col < q.cols ::
              && Cell(q.cols, row, col) < |result|
              && result[Cell(q.cols, row, col)] == Restored(q, values, half, LineOf(q, row, col), OffsetOf(q, row, col))
    ensures forall row: nat, col: nat | row < q.rows && col < q.cols ::
              && Cell(q.cols, row, col) < |result| && GroupOf(q, row, col) < Groups(q)
              && (Keeps(q, values, half, LineOf(q, row, col), GroupOf(q, row, col)) ==>
                    Within(q, values, half, LineOf(q, row, col), OffsetOf(q, row, col), result[Cell(q.cols, row, col)]))
    ensures forall row: nat, col: nat, low: real, high: real |
              row < q.rows && col < q.cols && Extremes(q, values, row, col, low, high) ::
              && 0 <= row * q.cols + col < |values|
              && Trip(q.bits, half, low, high, values[row * q.cols + col], result[row * q.cols + col])
  {
    hide Quantized, Holds, DecodedUpTo, Keeps, Within, Cell, Product, Restored, Groups, Quot, Extremes, Trip;
    var tensor, codes := Quantize(q, Floats(values), half);
    QuantizedHolds(tensor.value, values, half, codes);
    var decoded := Decode(tensor.value, codes);
    result := decoded.value;
    DecodedLength(tensor.value, codes, result);
    forall row: nat, col: nat | row < q.rows && col < q.cols
      ensures && Cell(q.cols, row, col) < |result|
              && result[Cell(q.cols, row, col)] == Restored(q, values, half, LineOf(q, row, col), OffsetOf(q, row, col))
    {
      ElementRestored(tensor.value, values, half, codes, result, row, col);
    }
    forall row: nat, col: nat | row < q.rows && col < q.cols
      ensures && Cell(q.cols, row, col) < |result| && GroupOf(q, row, col) < Groups(q)
              && (Keeps(q, values, half, LineOf(q, row, col), GroupOf(q, row, col)) ==>
                    Within(q, values, half, LineOf(q, row, col), OffsetOf(q, row, col), result[Cell(q.cols, row, col)]))
    {
      KeepsIsEnough(q, values, half, LineOf(q, row, col), OffsetOf(q, row, col));
    }
    forall row: nat, col: nat, low: real, high: real |
      row < q.rows && col < q.cols && Extremes(q, values, row, col, low, high)
      ensures && 0 <= row * q.cols + col < |values|
              && Trip(q.bits, half, low, high, values[row * q.cols + col], result[row * q.cols + col])
    {
      LineCell(q, values, row, col);
      CellTrip(q, values, half, row, col, low, high);
    }
  }

  /** One element of a round trip with the code's own rounding. */
  ghost predicate Settled(q: Layout, values: seq<real>, row: nat, col: nat, y: Option<real>)
    requires Sized(q, values) && row < q.rows && col < q.cols
  {
    var line, offset := LineOf(q, row, col), OffsetOf(q, row, col);
    OffsetGroup(q, offset);
    var g := GroupOf(q, row, col);
    && (Within(q, values, HalfOf, line, offset, y) <==> Reachable(q, values, HalfOf, line, g, offset))
    && (Keeps(q, values, HalfOf, line, g) ==> Within(q, values, HalfOf, line, offset, y))
    && (Normal(q, values, line, g) ==> Within(q, values, HalfOf, line, offset, y))
  }

  /** One cell of a round trip with the code's own rounding: it keeps the
      documented bound exactly if scale and zero point are finite and some level
      lies within the bound, always if the group meets the condition, and so
      always if the group is flat or its step is normal. */
  ghost predicate HalfTrip(bits: nat, low: real, high: real, x: real, y: Option<real>) {
    var step := Step(high - low, bits);
    var fit := Fit(HalfOf(step), HalfOf(low));
    var kept := y.Some? && fit.zero.Finite?
                && Abs(y.value - x) <= ErrorBound(high - low, Abs(fit.zero.value - low), bits);
    && (kept <==> FiniteFit(fit) && NearLevel(x, low, high, fit.scale.value, fit.zero.value, bits))
    && (FiniteFit(fit) && Meets(low, high, fit.scale.value, fit.zero.value, bits) ==> kept)
    && (Abs(low) < LIMIT && (step == 0.0 || MIN_NORMAL <= step < LIMIT) ==> kept)
    && (y.None? <==> Abs(low) >= LIMIT || step >= LIMIT)
  }

  lemma {:induction false} HalfTrips(bits: nat, low: real, high: real, x: real, y: Option<real>)
    requires low <= x <= high && Trip(bits, HalfOf, low, high, x, y)
    ensures HalfTrip(bits, low, high, x, y)
  {
    hide Meets, Step, Code, Value, ErrorBound, HalfOf, NearLevel, Accurate;
    var step := Step(high - low, bits);
    StepTimes(high - low, bits);
    HalfIsFinite(step);
    HalfIsFinite(low);
    HalfIsPositive(step);
    var fit := Fit(HalfOf(step), HalfOf(low));
    if FiniteFit(fit) {
      CloseIsNearLevel(x, low, high, fit.scale.value, fit.zero.value, bits);
      if step == 0.0 || MIN_NORMAL <= step < LIMIT {
        if step == 0.0 {
          ZeroIsAccurate();
        } else {
          NormalIsAccurate(step);
        }
        AccurateMeets(low, high, fit.scale.value, fit.zero.value, bits);
      }
    }
  }

  /** The whole trip as the code makes it: each element of the result keeps the
      documented bound exactly if some level of its group lies within it, and
      always if the group meets the condition, as groups with a normal step do. */
  method HalfRoundTrip(q: Layout, values: seq<real>) returns (result: seq<Option<real>>)
    requires Sized(q, values)
    ensures |result| == |values|
    ensures forall row: nat, col: nat | row < q.rows && col < q.cols ::
              Cell(q.cols, row, col) < |result| && Settled(q, values, row, col, result[Cell(q.cols, row, col)])
    ensures forall row: nat, col: nat, low: real, high: real |
              row < q.rows && col < q.cols && Extremes(q, values, row, col, low, high) ::
              && 0 <= row * q.cols + col < |values|
              && HalfTrip(q.bits, low, high, values[row * q.cols + col], result[row * q.cols + col])
  {
    hide Keeps, Within, Cell, Product, Restored, Groups, Quot, Settled, Extremes, Trip, HalfTrip;
    result := RoundTrip(q, values, HalfOf);
    forall row: nat, col: nat, low: real, high: real |
      row < q.rows && col < q.cols && Extremes(q, values, row, col, low, high)
      ensures && 0 <= row * q.cols + col < |values|
              && HalfTrip(q.bits, low, high, values[row * q.cols + col], result[row * q.cols + col])
    {
      OwnExtremes(q, values, row, col, low, high);
      HalfTrips(q.bits, low, high, values[row * q.cols + col], result[row * q.cols + col]);
    }
    forall row: nat, col: nat | row < q.rows && col < q.cols
      ensures Cell(q.cols, row, col) < |result| && Settled(q, values, row, col, result[Cell(q.cols, row, col)])
    {
      IsSettled(q, values, row, col);
    }
  }

  lemma {:induction false} IsSettled(q: Layout, values: seq<real>, row: nat, col: nat)
    requires Sized(q, values) && row < q.rows && col < q.cols
    ensures Settled(q, values, row, col, Restored(q, values, HalfOf, LineOf(q, row, col), OffsetOf(q, row, col)))
  {
    hide Keeps, Within, Product, Restored, Groups, Quot, Reachable, Normal, HalfOf, GroupStart, GroupEnd, GroupWithin,
      Fine, GroupLow, GroupHigh;
    var line, offset := LineOf(q, row, col), OffsetOf(q, row, col);
    OffsetGroup(q, offset);
    var g := GroupOf(q, row, col);
    HalfFit(q, values, line, g);
    ElementExact(q, values, HalfOf, line, g, offset);
    KeepsIsEnough(q, values, HalfOf, line, offset);
    HalfExact(q, values, line, g);
  }

  // ---------------------------------------------------------------------
  // Groups that break the bound
  // ---------------------------------------------------------------------

  const PAIR := Layout(1, 2, 2, 2, PerToken)

  /** One row of two elements is one group. */
  lemma {:induction false} PairGroup(b: real)
    requires 0.0 <= b
    ensures Sized(PAIR, [0.0, b]) && Lines(PAIR) == 1 && Extent(PAIR) == 2 && Groups(PAIR) == 1
    ensures GroupStart(PAIR, 0) == 0 && GroupEnd(PAIR, 0) == 2
    ensures LineElement(PAIR, [0.0, b], 0, 1) == b
    ensures GroupLow(PAIR, [0.0, b], 0, 0) == 0.0 && GroupHigh(PAIR, [0.0, b], 0, 0) == b
  {
    assert Product(1, 2) == 2 && Product(0, 2) == 0;
    assert LineElement(PAIR, [0.0, b], 0, 0) == 0.0 && LineElement(PAIR, [0.0, b], 0, 1) == b;
    assert Greatest(PAIR, [0.0, b], 0, 0, 1) == 0.0 && Least(PAIR, [0.0, b], 0, 0, 1) == 0.0;
  }

  /** In a pair with zero the other element is within the bound exactly if the
      rounded step is finite and close. */
  lemma {:induction false} PairWithin(b: real)
    requires 0.0 <= b
    ensures Sized(PAIR, [0.0, b]) && Lines(PAIR) == 1 && Extent(PAIR) == 2 && Groups(PAIR) == 1
    ensures GroupFit(PAIR, [0.0, b], HalfOf, 0, 0) == Fit(HalfOf(Step(b, 2)), Finite(0.0))
    ensures Within(PAIR, [0.0, b], HalfOf, 0, 1, Restored(PAIR, [0.0, b], HalfOf, 0, 1)) <==>
              HalfOf(Step(b, 2)).Finite? && Close(b, 0.0, b, HalfOf(Step(b, 2)).value, 0.0, 2)
  {
    hide LineElement, GroupLow, GroupHigh, HalfOf, Step, Close, Within, Restored, Product, Groups, GroupStart, GroupEnd;
    PairGroup(b);
    ZeroIsAccurate();
    WithinIsClose(PAIR, [0.0, b], HalfOf, 0, 0, 1);
  }

  /** A scale that underflows to zero: elements 0 and 2^-26. */
  lemma {:induction false} UnderflowHappens()
    ensures Sized(PAIR, [0.0, 0.25 * UNIT]) && Lines(PAIR) == 1 && Extent(PAIR) == 2 && Groups(PAIR) == 1
    ensures GroupFit(PAIR, [0.0, 0.25 * UNIT], HalfOf, 0, 0).scale == Finite(0.0)
    ensures !Within(PAIR, [0.0, 0.25 * UNIT], HalfOf, 0, 1, Restored(PAIR, [0.0, 0.25 * UNIT], HalfOf, 0, 1))
  {
    hide Within, Restored, Sized, Groups, GroupFit, Product;
    PairWithin(0.25 * UNIT);
    ProductZero(0.0);
  }

  /** A scale rounded down: elements 0 and 4.2 units have the step 1.4 and the
      scale 1, and the top code reaches 3 only. */
  lemma {:induction false} CoarseHappens()
    ensures Sized(PAIR, [0.0, 4.2 * UNIT]) && Lines(PAIR) == 1 && Extent(PAIR) == 2 && Groups(PAIR) == 1
    ensures GroupFit(PAIR, [0.0, 4.2 * UNIT], HalfOf, 0, 0).scale == Finite(UNIT)
    ensures !Within(PAIR, [0.0, 4.2 * UNIT], HalfOf, 0, 1, Restored(PAIR, [0.0, 4.2 * UNIT], HalfOf, 0, 1))
  {
    hide Within, Restored, Sized, Groups, GroupFit, Product, HalfOf, Close, Step;
    PairWithin(4.2 * UNIT);
    UnitSteps(4.2, 1.4);
    SubnormalRounds(1.4);
    TopMisses();
  }

  /** A scale that overflows: elements 0 and 196560 come back as nothing. */
  lemma {:induction false} OverflowHappens()
    ensures Sized(PAIR, [0.0, 3.0 * LIMIT]) && Lines(PAIR) == 1 && Extent(PAIR) == 2
    ensures Restored(PAIR, [0.0, 3.0 * LIMIT], HalfOf, 0, 0).None?
    ensures Restored(PAIR, [0.0, 3.0 * LIMIT], HalfOf, 0, 1).None?
  {
    hide HalfOf, LineElement, GroupLow, GroupHigh, Product, Groups, GroupStart, GroupEnd;
    PairGroup(3.0 * LIMIT);
    assert Step(3.0 * LIMIT, 2) == LIMIT;
    LostExactly(PAIR, [0.0, 3.0 * LIMIT], 0, 0);
    LostExactly(PAIR, [0.0, 3.0 * LIMIT], 0, 1);
  }

  const TRIO := Layout(1, 3, 2, 3, PerToken)
  const SPREAD := [0.0, UNIT, 4.8 * UNIT]

  lemma {:induction false} TrioLayout()
    ensures LayoutOk(TRIO) && Lines(TRIO) == 1 && Extent(TRIO) == 3 && Groups(TRIO) == 1 && Product(1, 3) == 3
    ensures GroupStart(TRIO, 0) == 0 && GroupEnd(TRIO, 0) == 3
  {
    assert Product(0, 3) == 0;
  }

  lemma {:induction false} TrioElement(o: nat)
    requires o < 3
    ensures Sized(TRIO, SPREAD) && Lines(TRIO) == 1 && Extent(TRIO) == 3
    ensures LineElement(TRIO, SPREAD, 0, o) == SPREAD[o]
  {
    hide LayoutOk;
    TrioLayout();
    assert Product(0, 3) == 0;
  }

  lemma {:induction false} TrioGroup()
    ensures Sized(TRIO, SPREAD) && Lines(TRIO) == 1 && Extent(TRIO) == 3 && Groups(TRIO) == 1
    ensures GroupStart(TRIO, 0) == 0 && GroupEnd(TRIO, 0) == 3
    ensures LineElement(TRIO, SPREAD, 0, 1) == UNIT && LineElement(TRIO, SPREAD, 0, 2) == 4.8 * UNIT
    ensures GroupLow(TRIO, SPREAD, 0, 0) == 0.0 && GroupHigh(TRIO, SPREAD, 0, 0) == 4.8 * UNIT
  {
    hide LineElement, Product, LayoutOk, Groups, GroupStart, GroupEnd;
    TrioLayout();
    TrioElement(0);
    TrioElement(1);
    TrioElement(2);
    assert Least(TRIO, SPREAD, 0, 0, 1) == 0.0 && Least(TRIO, SPREAD, 0, 0, 2) == 0.0;
    assert Greatest(TRIO, SPREAD, 0, 0, 1) == 0.0 && Greatest(TRIO, SPREAD, 0, 0, 2) == UNIT;
  }

  /** A scale rounded up: elements 0, 1 and 4.8 units have the step 1.6 and the
      scale 2. The greatest keeps the bound, the middle one falls between two
      codes. */
  lemma {:induction false} GapHappens()
    ensures Sized(TRIO, SPREAD) && Lines(TRIO) == 1 && Extent(TRIO) == 3 && Groups(TRIO) == 1
    ensures GroupFit(TRIO, SPREAD, HalfOf, 0, 0).scale == Finite(2.0 * UNIT)
    ensures Within(TRIO, SPREAD, HalfOf, 0, 2, Restored(TRIO, SPREAD, HalfOf, 0, 2))
    ensures !Within(TRIO, SPREAD, HalfOf, 0, 1, Restored(TRIO, SPREAD, HalfOf, 0, 1))
  {
    hide Within, Restored, Sized, Groups, Product, HalfOf, Close, Step, LineElement, GroupLow, GroupHigh, GroupStart,
      GroupEnd;
    TrioGroup();
    UnitSteps(4.8, 1.6);
    SubnormalRounds(1.6);
    ZeroIsAccurate();
    MiddleMisses();
    WithinIsClose(TRIO, SPREAD, HalfOf, 0, 0, 1);
    WithinIsClose(TRIO, SPREAD, HalfOf, 0, 0, 2);
  }

  lemma {:induction false} MiddleMisses()
    ensures RoundEven(1.6) == 2
    ensures Close(4.8 * UNIT, 0.0, 4.8 * UNIT, 2.0 * UNIT, 0.0, 2)
    ensures !Close(UNIT, 0.0, 4.8 * UNIT, 2.0 * UNIT, 0.0, 2)
  {
    hide Close;
    UnitSteps(4.8, 1.6);
    CloseIs(UNIT, 0.0, 4.8 * UNIT, 2.0 * UNIT, 0.0, 2);
    CloseIs(4.8 * UNIT, 0.0, 4.8 * UNIT, 2.0 * UNIT, 0.0, 2);
    assert UNIT / (2.0 * UNIT) == 0.5 && 4.8 * UNIT / (2.0 * UNIT) == 2.4;
    assert Round(0.5) == 1 && Round(2.4) == 2;
  }

  lemma {:induction false} UnitSteps(range: real, step: real)
    requires range == 3.0 * step
    ensures Step(range * UNIT, 2) == step * UNIT
  {
  }

  lemma {:induction false} TopMisses()
    ensures RoundEven(1.4) == 1 && !Close(4.2 * UNIT, 0.0, 4.2 * UNIT, UNIT, 0.0, 2)
  {
    hide Code, Close;
    TopCode(4.2 * UNIT, UNIT, 0.0, 2);
    CloseIs(4.2 * UNIT, 0.0, 4.2 * UNIT, UNIT, 0.0, 2);
    UnitSteps(4.2, 1.4);
  }

  lemma {:induction false} CloseIs(x: real, low: real, high: real, scale: real, zero: real, bits: nat)
    ensures Close(x, low, high, scale, zero, bits) <==>
              Abs(Value(Code(x, scale, zero, bits), scale, zero) - x)
              <= Step(high - low, bits) * (0.5 + 1.0 / 2048.0) + Abs(zero - low)
  {
  }

  lemma {:induction false} DecodedLength(t: Tensor, codes: seq<bv8>, result: seq<Option<real>>)
    requires LayoutOk(t.layout) && DecodedUpTo(t, codes, result, Product(t.layout.rows, t.layout.cols))
    ensures |result| == Product(t.layout.rows, t.layout.cols)
  {
  }

  // ---------------------------------------------------------------------
  // The structural check
  // ---------------------------------------------------------------------

  /** A tensor of the right sizes, whatever its bytes say. */
  predicate Framed(t: Tensor) {
    && LayoutOk(t.layout) && |t.scales| == Product(Lines(t.layout), Groups(t.layout))
    && |t.packed| == PackedLength(Product(t.layout.rows, t.layout.cols), t.layout.bits)
  }

  function CodeAt(packed: seq<bv8>, bits: nat, i: nat): bv8
    requires ByteOf(i, bits) < |packed|
  {
    Extract(packed[ByteOf(i, bits)], ShiftOf(i, bits), bits)
  }

  predicate TailOk(t: Tensor)
    requires Framed(t)
  {
    var used := ShiftOf(Product(t.layout.rows, t.layout.cols), t.layout.bits);
    used > 0 ==> Shr(t.packed[|t.packed| - 1], used) == 0
  }

  predicate ZeroOk(t: Tensor, row: nat, col: nat)
    requires Framed(t) && row < t.layout.rows && col < t.layout.cols
  {
    IndexInRange(t.layout, row, col);
    Earlier(Cell(t.layout.cols, row, col), Product(t.layout.rows, t.layout.cols), t.layout.bits);
    t.scales[GroupIndex(t.layout, row, col)].scale == Finite(0.0) ==>
      CodeAt(t.packed, t.layout.bits, Cell(t.layout.cols, row, col)) == 0
  }

  /** No stray tail bits, and nothing but zero codes under a zero scale. */
  ghost predicate PackingOk(t: Tensor)
    requires Framed(t)
  {
    TailOk(t) && forall row: nat, col: nat | row < t.layout.rows && col < t.layout.cols :: ZeroOk(t, row, col)
  }

  /** First pass: every code is there and below the level count. */
  method ScanCodes(t: Tensor) returns (ok: bool)
    requires Framed(t)
    ensures ok
  {
    hide Product, ByteOf, ShiftOf, Mask, Levels, FromCode, Groups, BitPacking.CodeIs;
    var n := Product(t.layout.rows, t.layout.cols);
    var reader := new BitReader(t.packed, t.layout.bits);
    for i := 0 to n
      invariant reader.cursor == i && reader.packed == t.packed && reader.bits == t.layout.bits
    {
      Earlier(i, n, t.layout.bits);
      var code := reader.Next();
      if code.None? {
        return false;
      }
      CodeBelow(code.value, t.layout.bits);
      if FromCode(code.value) >= Levels(t.layout.bits) {
        return false;
      }
    }
    return true;
  }

  method ValidatePacking(t: Tensor) returns (ok: bool)
    requires Framed(t)
    ensures ok <==> PackingOk(t)
  {
    hide Product, ByteOf, ShiftOf, Groups, Cell, GroupIndex, Extract, Shr, PackedLength;
    var q := t.layout;
    var codes := ScanCodes(t);
    if !codes || !TailOk(t) {
      return false;
    }
    var reader := new BitReader(t.packed, q.bits);
    CellStep(q.cols, 0);
    for row := 0 to q.rows
      invariant reader.cursor == Cell(q.cols, row, 0) && reader.packed == t.packed && reader.bits == q.bits
      invariant forall r: nat, c: nat | r < row && c < q.cols :: ZeroOk(t, r, c)
    {
      for col := 0 to q.cols
        invariant reader.cursor == Cell(q.cols, row, col) && reader.packed == t.packed && reader.bits == q.bits
        invariant forall r: nat, c: nat | r < row && c < q.cols :: ZeroOk(t, r, c)
        invariant forall c: nat | c < col :: ZeroOk(t, row, c)
      {
        IndexInRange(q, row, col);
        Earlier(reader.cursor, Product(q.rows, q.cols), q.bits);
        var code := reader.Next();
        if t.scales[GroupIndex(q, row, col)].scale == Finite(0.0) && code.value != 0 {
          assert !ZeroOk(t, row, col);
          return false;
        }
        assert ZeroOk(t, row, col);
        CellNext(q.cols, row, col);
      }
      CellStep(q.cols, row);
    }
    return true;
  }

  /** Everything the quantizer produces passes the structural check. */
  lemma {:induction false} QuantizedPasses(t: Tensor, values: seq<real>, half: Half, codes: seq<bv8>)
    requires Quantized(t, values, half, codes)
    ensures Framed(t) && PackingOk(t)
  {
    hide Product, ByteOf, ShiftOf, Groups, Cell, Extract, Shr, PackedLength, Packs, FitIs, ElementIs;
    var q := t.layout;
    QuantizedFrame(t, values, half, codes);
    forall row: nat, col: nat | row < q.rows && col < q.cols ensures ZeroOk(t, row, col) {
      ElementPasses(t, values, half, codes, row, col);
    }
  }

  lemma {:induction false} QuantizedFrame(t: Tensor, values: seq<real>, half: Half, codes: seq<bv8>)
    requires Quantized(t, values, half, codes)
    ensures Framed(t) && TailOk(t)
  {
    hide FitIs, ElementIs, Product, Groups, ByteOf, ShiftOf, Shr, BitPacking.CodeIs;
  }

  lemma {:induction false} ElementPasses(
      t: Tensor, values: seq<real>, half: Half, codes: seq<bv8>, row: nat, col: nat)
    requires Quantized(t, values, half, codes) && Framed(t) && row < t.layout.rows && col < t.layout.cols
    ensures ZeroOk(t, row, col)
  {
    hide Cell, Product, Packs, Groups, Levels, Quot, FitCode, Step, Least, Greatest, GroupStart, GroupEnd, ByteOf,
      ShiftOf, Extract, ToCode, PackedLength;
    var q := t.layout;
    var i, line, offset, g := Cell(q.cols, row, col), LineOf(q, row, col), OffsetOf(q, row, col), GroupOf(q, row, col);
    IndexInRange(q, row, col);
    Earlier(i, |codes|, q.bits);
    OffsetGroup(q, offset);
    CodeFits(q, values, half, row, col);
    assert ElementIs(q, values, half, codes, row, col);
    assert FitIs(q, values, half, t.scales, line, g);
    ReadBack(t.packed, q.bits, codes, i);
    assert BitPacking.CodeIs(t.packed, q.bits, i, CodeAt(t.packed, q.bits, i));
    var fit := GroupFit(q, values, half, line, g);
    ZeroScaleCode(LineElement(q, values, line, offset), fit, q.bits);
    CodeRoundTrip(LineCode(q, values, half, line, offset), q.bits);
  }

  lemma {:induction false} ZeroScaleCode(x: real, fit: Fit, bits: nat)
    ensures fit.scale == Finite(0.0) ==> FitCode(x, fit, bits) == 0
  {
  }
}
