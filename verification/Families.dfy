/** Representation families and their validator. */
module Families {
  import opened Machine
  import opened Symbols
  import opened StateKeys
  import opened Shapes
  import DependencyGraph

  const MAX_RANK := 8
  const MAX_STATES := 65536
  const MAX_STATE_NAME_BYTES := 255

  datatype Rule = Direct | Gather | TailWindow

  /** Static description of one state stream; `width` is its element width. */
  datatype FamilyState = FamilyState(
    key: StateKey,
    width: u64,
    codecVersion: u16,
    contiguous: bool,
    rule: Rule,
    tokenAxis: nat,
    elementsPerToken: u64,
    dims: seq<Dim>,
    dependencies: seq<StateKey>)

  datatype Family = Family(
    engineCacheAbi: Id,
    topology: Id,
    shardMap: Id,
    portable: bool,
    pageSizeTokens: u32,
    states: seq<FamilyState>)

  predicate NameOk(key: StateKey) {
    0 < |key.name| <= MAX_STATE_NAME_BYTES && 0 !in key.name
  }

  /** Every element type has a fixed width. */
  predicate WidthOk(width: u64) {
    width == 1 || width == 2 || width == 4 || width == 8
  }

  predicate FamilyStateOk(portable: bool, s: FamilyState) {
    && NameOk(s.key) && s.codecVersion == 1 && WidthOk(s.width)
    && |s.dims| <= MAX_RANK && OneToken(s.dims, s.tokenAxis)
    && s.elementsPerToken == FixedVolume(s.dims) && s.elementsPerToken > 0
    && !(s.contiguous && s.rule.Gather?)
    && (portable ==> s.contiguous && (s.rule.Direct? || s.rule.TailWindow?))
  }

  function KeysOf(states: seq<FamilyState>): (keys: seq<StateKey>)
    ensures |keys| == |states|
    ensures forall i :: 0 <= i < |states| ==> keys[i] == states[i].key
  {
    seq(|states|, i requires 0 <= i < |states| => states[i].key)
  }

  function Nodes(states: seq<FamilyState>): (nodes: seq<DependencyGraph.Node>)
    ensures |nodes| == |states|
    ensures DependencyGraph.Keys(nodes) == KeysOf(states)
  {
    seq(|states|, i requires 0 <= i < |states| => DependencyGraph.Node(states[i].key, states[i].dependencies))
  }

  ghost predicate DependenciesOk(states: seq<FamilyState>) {
    && DependencyGraph.WellFormed(Nodes(states))
    && DependencyGraph.AcyclicStates(Nodes(states))
  }

  ghost predicate FamilyOk(f: Family) {
    && f.engineCacheAbi != ZeroId && f.topology != ZeroId && f.shardMap != ZeroId && f.pageSizeTokens != 0
    && 0 < |f.states| <= MAX_STATES && Ascending(KeysOf(f.states))
    && (forall i :: 0 <= i < |f.states| ==> FamilyStateOk(f.portable, f.states[i]))
    && DependenciesOk(f.states)
  }

  /** Product of the fixed extents, or nothing on overflow. */
  method CheckedElements(dims: seq<Dim>) returns (r: Option<u64>)
    ensures r.Some? ==> r.value == FixedVolume(dims)
    ensures r.None? ==> FixedVolume(dims) >= U64_LIMIT || FixedVolume(dims) == 0
  {
    hide FixedVolume;
    var product: nat := 1;
    FixedStart(dims);
    for i := 0 to |dims|
      invariant product < U64_LIMIT && FixedVolume(dims) == Product(product, FixedVolume(dims[i..]))
    {
      FixedSplit(dims, i);
      if dims[i].Fixed? {
        hide Product;
        ProductAssoc(product, dims[i].extent, FixedVolume(dims[i + 1..]));
        product := Product(product, dims[i].extent);
        if product >= U64_LIMIT {
          FixedOverflow(product, FixedVolume(dims[i + 1..]));
          return None;
        }
      }
    }
    FixedEnd(dims);
    return Some(product);
  }

  lemma {:induction false} FixedStart(dims: seq<Dim>)
    ensures FixedVolume(dims) == Product(1, FixedVolume(dims[0..]))
  {
    assert dims[0..] == dims;
  }

  lemma {:induction false} FixedSplit(dims: seq<Dim>, i: nat)
    requires i < |dims|
    ensures FixedVolume(dims[i..]) ==
            if dims[i].Token? then FixedVolume(dims[i + 1..])
            else Product(dims[i].extent, FixedVolume(dims[i + 1..]))
  {
    assert dims[i..][1..] == dims[i + 1..];
  }

  lemma {:induction false} FixedEnd(dims: seq<Dim>)
    ensures FixedVolume(dims[|dims|..]) == 1
  {
  }

  lemma {:induction false} FixedOverflow(product: nat, rest: nat)
    requires product >= U64_LIMIT
    ensures Product(product, rest) >= U64_LIMIT || Product(product, rest) == 0
  {
    ProductMonotone(rest, product, product);
    if rest == 0 {
      ProductDistributes(product, 0, 0);
    }
  }

  /** The positions of the token dimension. */
  method TokenAxes(dims: seq<Dim>) returns (axes: seq<nat>)
    ensures forall i: nat :: i in axes <==> i < |dims| && dims[i].Token?
    ensures forall i, j :: 0 <= i < j < |axes| ==> axes[i] < axes[j]
  {
    axes := [];
    for i := 0 to |dims|
      invariant forall k: nat :: k in axes <==> k < i && dims[k].Token?
      invariant forall k :: 0 <= k < |axes| ==> axes[k] < i
      invariant forall k, l :: 0 <= k < l < |axes| ==> axes[k] < axes[l]
    {
      if dims[i].Token? {
        ghost var before := axes;
        axes := axes + [i];
        assert forall k: nat :: k in axes <==> k in before || k == i;
      }
    }
  }

  method ValidateFamilyState(portable: bool, s: FamilyState) returns (ok: bool)
    requires WidthOk(s.width)
    ensures ok <==> FamilyStateOk(portable, s)
  {
    hide FixedVolume, NameOk;
    if !NameOk(s.key) || s.codecVersion != 1 {
      return false;
    }
    var rank := |s.dims|;
    if rank == 0 || rank > MAX_RANK || s.tokenAxis >= rank {
      return false;
    }
    var axes := TokenAxes(s.dims);
    OnlyAxis(s.dims, s.tokenAxis, axes);
    if axes != [s.tokenAxis] {
      return false;
    }
    var elements := CheckedElements(s.dims);
    if elements.None? || elements.value != s.elementsPerToken || elements.value == 0 {
      return false;
    }
    if s.contiguous && s.rule.Gather? {
      return false;
    }
    return !(portable && (!s.contiguous || !(s.rule.Direct? || s.rule.TailWindow?)));
  }

  lemma {:induction false} OnlyAxis(dims: seq<Dim>, axis: nat, axes: seq<nat>)
    requires axis < |dims|
    requires forall i: nat :: i in axes <==> i < |dims| && dims[i].Token?
    requires forall i, j :: 0 <= i < j < |axes| ==> axes[i] < axes[j]
    ensures axes == [axis] <==> OneToken(dims, axis)
  {
    if axes == [axis] {
      forall i: nat | i < |dims| ensures dims[i].Token? <==> i == axis {
        assert i in axes <==> i == axis;
      }
    }
    if OneToken(dims, axis) {
      assert axis in axes;
      forall k | 0 <= k < |axes| ensures axes[k] == axis {
        assert axes[k] in axes;
      }
      assert axes[0] == axes[|axes| - 1];
    }
  }

  method ValidateFamily(f: Family) returns (ok: bool)
    requires forall i :: 0 <= i < |f.states| ==> WidthOk(f.states[i].width)
    ensures ok <==> FamilyOk(f)
  {
    hide FamilyStateOk, WidthOk, KeyLess, DependencyGraph.WellFormed, DependencyGraph.AcyclicStates,
      DependencyGraph.Orders, DependencyGraph.CycleIn;
    if f.engineCacheAbi == ZeroId || f.topology == ZeroId || f.shardMap == ZeroId || f.pageSizeTokens == 0 {
      return false;
    }
    if |f.states| == 0 || |f.states| > MAX_STATES {
      return false;
    }
    for i := 0 to |f.states|
      invariant forall j :: 0 <= j < i ==> FamilyStateOk(f.portable, f.states[j])
      invariant forall j :: 0 < j < i ==> KeyLess(f.states[j - 1].key, f.states[j].key)
    {
      if i > 0 && !KeyLess(f.states[i - 1].key, f.states[i].key) {
        assert !KeyLess(KeysOf(f.states)[i - 1], KeysOf(f.states)[i]);
        return false;
      }
      var state := ValidateFamilyState(f.portable, f.states[i]);
      if !state {
        return false;
      }
    }
    var dependencies := DependencyGraph.ValidateDependencies(Nodes(f.states));
    return dependencies.Ok?;
  }
}
