/** Shapes, strides and byte footprints of state tensors. */
module Shapes {
  import opened Machine

  datatype Dim = Token | Fixed(extent: u64)

  predicate Positive(shape: seq<nat>) {
    forall i :: 0 <= i < |shape| ==> shape[i] > 0
  }

  function Volume(shape: seq<nat>): nat {
    if shape == [] then 1 else Product(shape[0], Volume(shape[1..]))
  }

  /** Row-major strides, in elements. */
  function Strides(shape: seq<nat>): (strides: seq<nat>)
    ensures |strides| == |shape|
  {
    if shape == [] then [] else [Volume(shape[1..])] + Strides(shape[1..])
  }

  /** Offset of the last element of a strided tensor. */
  function LastElement(shape: seq<nat>, strides: seq<nat>): nat
    requires Positive(shape) && |strides| == |shape|
  {
    if shape == [] then 0
    else Product(shape[0] - 1, strides[0]) + LastElement(shape[1..], strides[1..])
  }

  function Footprint(shape: seq<nat>, strides: seq<nat>, width: nat): nat
    requires Positive(shape) && |strides| == |shape|
  {
    Product(LastElement(shape, strides) + 1, width)
  }

  // ---------------------------------------------------------------------
  // Laws
  // ---------------------------------------------------------------------

  lemma {:induction false} VolumePositive(shape: seq<nat>)
    requires Positive(shape)
    ensures Volume(shape) >= 1
    decreases |shape|
  {
    hide Product;
    if shape == [] {
    } else {
      VolumePositive(shape[1..]);
      ProductMonotone(shape[0], 1, Volume(shape[1..]));
      ProductDistributes(shape[0], 0, 0);
    }
  }

  lemma {:induction false} VolumeConcat(a: seq<nat>, b: seq<nat>)
    ensures Volume(a + b) == Product(Volume(a), Volume(b))
    decreases |a|
  {
    hide Product;
    if a == [] {
      assert a + b == b;
      ProductDistributes(Volume(b), 0, 0);
      ProductAssoc(Volume(b), 1, 1);
    } else {
      assert (a + b)[1..] == a[1..] + b;
      VolumeConcat(a[1..], b);
      ProductAssoc(a[0], Volume(a[1..]), Volume(b));
    }
  }

  /** A part of a positive shape is no larger than the whole. */
  lemma {:induction false} VolumeOfPart(a: seq<nat>, b: seq<nat>)
    requires Positive(a + b)
    ensures Volume(a) <= Volume(a + b) && Volume(b) <= Volume(a + b)
  {
    hide Product;
    assert Positive(a) by {
      assert forall i :: 0 <= i < |a| ==> a[i] == (a + b)[i];
    }
    assert Positive(b) by {
      assert forall i :: 0 <= i < |b| ==> b[i] == (a + b)[|a| + i];
    }
    VolumeConcat(a, b);
    VolumePositive(a);
    VolumePositive(b);
    ProductMonotone(Volume(b), Volume(a), Volume(a));
    ProductMonotone(Volume(a), Volume(b), Volume(b));
  }

  predicate Within(a: seq<nat>, b: seq<nat>) {
    |a| == |b| && forall i :: 0 <= i < |a| ==> 0 < a[i] <= b[i]
  }

  lemma {:induction false} VolumeMonotone(a: seq<nat>, b: seq<nat>)
    requires Within(a, b)
    ensures Volume(a) <= Volume(b)
    decreases |a|
  {
    hide Product;
    if a == [] {
    } else {
      VolumeMonotone(a[1..], b[1..]);
      ProductMonotone(a[0], Volume(a[1..]), Volume(b[1..]));
      ProductMonotone(Volume(b[1..]), a[0], b[0]);
    }
  }

  lemma {:induction false} LastMonotone(a: seq<nat>, b: seq<nat>, strides: seq<nat>)
    requires Within(a, b) && |strides| == |a|
    ensures LastElement(a, strides) <= LastElement(b, strides)
    decreases |a|
  {
    hide Product;
    if a == [] {
    } else {
      LastMonotone(a[1..], b[1..], strides[1..]);
      ProductMonotone(strides[0], a[0] - 1, b[0] - 1);
    }
  }

  lemma {:induction false} FootprintMonotone(a: seq<nat>, b: seq<nat>, strides: seq<nat>, width: nat)
    requires Within(a, b) && |strides| == |a|
    ensures Footprint(a, strides, width) <= Footprint(b, strides, width)
  {
    hide Product, LastElement;
    LastMonotone(a, b, strides);
    ProductMonotone(width, LastElement(a, strides) + 1, LastElement(b, strides) + 1);
  }

  /** A contiguous tensor has no holes. */
  lemma {:induction false} ContiguousLast(shape: seq<nat>)
    requires Positive(shape)
    ensures LastElement(shape, Strides(shape)) + 1 == Volume(shape)
    decreases |shape|
  {
    hide Product;
    if shape == [] {
    } else {
      ContiguousLast(shape[1..]);
      assert Strides(shape)[1..] == Strides(shape[1..]);
      ProductStep(shape[0] - 1, Volume(shape[1..]));
    }
  }

  /** One step along any axis stays inside the tensor. */
  lemma {:induction false} AxisWithin(shape: seq<nat>, strides: seq<nat>, axis: nat, steps: nat)
    requires Positive(shape) && |strides| == |shape| && axis < |shape| && steps < shape[axis]
    ensures Product(steps, strides[axis]) <= LastElement(shape, strides)
    decreases |shape|
  {
    hide Product;
    if axis == 0 {
      ProductMonotone(strides[0], steps, shape[0] - 1);
    } else {
      AxisWithin(shape[1..], strides[1..], axis - 1, steps);
    }
  }

  lemma {:induction false} StridesPositive(shape: seq<nat>)
    requires Positive(shape)
    ensures Positive(Strides(shape))
    decreases |shape|
  {
    if shape == [] {
    } else {
      StridesPositive(shape[1..]);
      VolumePositive(shape[1..]);
      assert forall i :: 0 < i < |shape| ==> Strides(shape)[i] == Strides(shape[1..])[i - 1];
    }
  }

  // ---------------------------------------------------------------------
  // Checked arithmetic
  // ---------------------------------------------------------------------

  method ElementCount(shape: seq<nat>) returns (r: Option<u64>)
    requires Positive(shape)
    ensures r == if Volume(shape) < U64_LIMIT then Some(Volume(shape)) else None
  {
    hide Volume;
    var count := 1;
    EmptyVolume();
    for i := 0 to |shape|
      invariant count == Volume(shape[..i]) < U64_LIMIT
    {
      hide Product;
      AppendVolume(shape, i);
      assert shape == shape[..i + 1] + shape[i + 1..];
      VolumeOfPart(shape[..i + 1], shape[i + 1..]);
      count := Product(count, shape[i]);
      if count >= U64_LIMIT {
        return None;
      }
    }
    assert shape[..|shape|] == shape;
    return Some(count);
  }

  lemma {:induction false} EmptyVolume()
    ensures Volume([]) == 1
  {
  }

  lemma {:induction false} AppendVolume(shape: seq<nat>, i: nat)
    requires i < |shape|
    ensures Volume(shape[..i + 1]) == Product(Volume(shape[..i]), shape[i])
  {
    hide Product;
    assert shape[..i + 1] == shape[..i] + [shape[i]];
    VolumeConcat(shape[..i], [shape[i]]);
    assert [shape[i]][1..] == [];
    ProductDistributes(shape[i], 0, 0);
  }

  method ContiguousStrides(shape: seq<nat>) returns (r: Option<seq<nat>>)
    requires Positive(shape)
    ensures r == if Volume(shape) < U64_LIMIT then Some(Strides(shape)) else None
  {
    var strides: seq<nat> := [];
    var stride := 1;
    assert shape[|shape|..] == [];
    for i := |shape| downto 0
      invariant stride == Volume(shape[i..]) < U64_LIMIT
      invariant strides == Strides(shape[i..])
    {
      hide Product;
      assert shape[i..][1..] == shape[i + 1..];
      assert shape == shape[..i] + shape[i..];
      VolumeOfPart(shape[..i], shape[i..]);
      ProductAssoc(shape[i], stride, 1);
      strides := [stride] + strides;
      stride := Product(stride, shape[i]);
      if stride >= U64_LIMIT {
        return None;
      }
    }
    assert shape[0..] == shape;
    return Some(strides);
  }

  method PhysicalFootprint(shape: seq<nat>, strides: seq<nat>, width: u64) returns (r: Option<u64>)
    requires Positive(shape) && |strides| == |shape| && width > 0
    ensures r == if Footprint(shape, strides, width) < U64_LIMIT then Some(Footprint(shape, strides, width)) else None
  {
    hide LastElement, Product;
    var offset := 0;
    EmptyLast();
    ProductMonotone(width, LastElement(shape, strides) + 1, LastElement(shape, strides) + 1);
    for i := 0 to |shape|
      invariant offset == LastElement(shape[..i], strides[..i]) < U64_LIMIT
    {
      LastAppend(shape, strides, i);
      LastPrefix(shape, strides, i + 1);
      offset := offset + Product(shape[i] - 1, strides[i]);
      if offset >= U64_LIMIT {
        return None;
      }
    }
    assert shape[..|shape|] == shape && strides[..|shape|] == strides;
    var bytes := Product(offset + 1, width);
    if offset + 1 >= U64_LIMIT || bytes >= U64_LIMIT {
      return None;
    }
    return Some(bytes);
  }

  lemma {:induction false} EmptyLast()
    ensures LastElement([], []) == 0
  {
  }

  lemma {:induction false} LastAppend(shape: seq<nat>, strides: seq<nat>, i: nat)
    requires Positive(shape) && |strides| == |shape| && i < |shape|
    ensures LastElement(shape[..i + 1], strides[..i + 1]) ==
            LastElement(shape[..i], strides[..i]) + Product(shape[i] - 1, strides[i])
    decreases |shape|
  {
    hide Product;
    if i == 0 {
      assert shape[..1][1..] == [] && strides[..1][1..] == [];
    } else {
      LastAppend(shape[1..], strides[1..], i - 1);
      assert shape[..i + 1][1..] == shape[1..][..i] && strides[..i + 1][1..] == strides[1..][..i];
      assert shape[..i][1..] == shape[1..][..i - 1] && strides[..i][1..] == strides[1..][..i - 1];
    }
  }

  lemma {:induction false} LastPrefix(shape: seq<nat>, strides: seq<nat>, i: nat)
    requires Positive(shape) && |strides| == |shape| && i <= |shape|
    ensures LastElement(shape[..i], strides[..i]) <= LastElement(shape, strides)
    decreases |shape| - i
  {
    hide LastElement, Product;
    if i < |shape| {
      LastAppend(shape, strides, i);
      LastPrefix(shape, strides, i + 1);
    } else {
      assert shape[..i] == shape && strides[..i] == strides;
    }
  }

  // ---------------------------------------------------------------------
  // The shape of a state at a token count
  // ---------------------------------------------------------------------

  function ShapeFor(dims: seq<Dim>, tokens: nat): (shape: seq<nat>)
    ensures |shape| == |dims|
    ensures forall i :: 0 <= i < |dims| ==>
              shape[i] == if dims[i].Token? then tokens else dims[i].extent
  {
    seq(|dims|, i requires 0 <= i < |dims| => if dims[i].Token? then tokens else dims[i].extent)
  }

  function FixedVolume(dims: seq<Dim>): nat {
    if dims == [] then 1
    else if dims[0].Token? then FixedVolume(dims[1..])
    else Product(dims[0].extent, FixedVolume(dims[1..]))
  }

  predicate OneToken(dims: seq<Dim>, axis: nat) {
    axis < |dims| && forall i :: 0 <= i < |dims| ==> (dims[i].Token? <==> i == axis)
  }

  lemma {:induction false} ShapeTail(dims: seq<Dim>, tokens: nat)
    requires dims != []
    ensures ShapeFor(dims, tokens)[1..] == ShapeFor(dims[1..], tokens)
  {
  }

  lemma {:induction false} NoTokenVolume(dims: seq<Dim>, tokens: nat)
    requires forall i :: 0 <= i < |dims| ==> dims[i].Fixed?
    ensures Volume(ShapeFor(dims, tokens)) == FixedVolume(dims)
    decreases |dims|
  {
    hide Product, ShapeFor;
    if dims == [] {
    } else {
      ShapeTail(dims, tokens);
      NoTokenVolume(dims[1..], tokens);
    }
  }

  /** Tokens times elements per token. */
  lemma {:induction false} ShapeVolume(dims: seq<Dim>, axis: nat, tokens: nat)
    requires OneToken(dims, axis)
    ensures Volume(ShapeFor(dims, tokens)) == Product(tokens, FixedVolume(dims))
    decreases |dims|
  {
    hide Product, ShapeFor;
    ShapeTail(dims, tokens);
    if axis == 0 {
      NoTokenVolume(dims[1..], tokens);
    } else {
      ShapeVolume(dims[1..], axis - 1, tokens);
      var d, v := dims[0].extent, FixedVolume(dims[1..]);
      ProductAssoc(d, tokens, v);
      ProductAssoc(tokens, d, v);
    }
  }

  /** A nonzero product of extents means every extent is nonzero. */
  lemma {:induction false} ShapePositive(dims: seq<Dim>, tokens: nat)
    requires FixedVolume(dims) > 0 && tokens > 0
    ensures Positive(ShapeFor(dims, tokens))
    decreases |dims|
  {
    hide ShapeFor;
    if dims == [] {
    } else {
      var shape := ShapeFor(dims, tokens);
      ShapeTail(dims, tokens);
      if dims[0].Fixed? {
        assert dims[0].extent > 0 && FixedVolume(dims[1..]) > 0;
      }
      ShapePositive(dims[1..], tokens);
      assert forall i :: 0 < i < |shape| ==> shape[i] == shape[1..][i - 1];
    }
  }

  lemma {:induction false} ShapesWithin(dims: seq<Dim>, few: nat, many: nat)
    requires FixedVolume(dims) > 0 && 0 < few <= many
    ensures Within(ShapeFor(dims, few), ShapeFor(dims, many))
  {
    ShapePositive(dims, few);
  }
}
