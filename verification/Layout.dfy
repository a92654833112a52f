/** The layout table of a BEGIN manifest and the walk it fixes: which class,
    layer and role every frame of the session carries. */
module Layout {
  import opened Machine
  import opened HandoffTypes

  predicate IsV2(b: Begin) {
    b.layoutTable != []
  }

  predicate IsPrerope(b: Begin) {
    IsV2(b) && b.portableAbi == ABI_V2_PREROPE
  }

  function ElementBytes(b: Begin, role: Role): (w: nat)
    ensures w == 2 || w == 4
  {
    if IsPrerope(b) && role.Key? then 4 else 2
  }

  // ---------------------------------------------------------------------
  // Layers of one class
  // ---------------------------------------------------------------------

  function LayersFrom(c: LayoutClass, layer: nat): seq<u32>
    requires c.step > 0
    decreases c.until - layer
  {
    if layer >= c.until then []
    else (if layer in c.except then [] else [layer]) + LayersFrom(c, layer + c.step)
  }

  /** Layers a class covers, ascending: its stepped range minus `except`. */
  function Layers(c: LayoutClass): seq<u32> {
    if c.step == 0 || c.from >= c.until then [] else LayersFrom(c, c.from)
  }

  predicate Ascending(s: seq<nat>) {
    forall i, j :: 0 <= i < j < |s| ==> s[i] < s[j]
  }

  lemma {:induction false} AscendPrepend(layer: u32, rest: seq<u32>)
    requires Ascending(rest) && forall l :: l in rest ==> layer < l
    ensures Ascending([layer] + rest)
  {
    assert forall i :: 0 <= i < |rest| ==> rest[i] in rest;
  }

  lemma {:induction false} LayersFromAscend(c: LayoutClass, layer: nat)
    requires c.step > 0
    ensures Ascending(LayersFrom(c, layer))
    ensures forall l :: l in LayersFrom(c, layer) ==> layer <= l < c.until && l !in c.except
    decreases c.until - layer
  {
    hide Ascending;
    if layer < c.until {
      LayersFromAscend(c, layer + c.step);
      var rest := LayersFrom(c, layer + c.step);
      AscendPrepend(layer, rest);
      assert [] + rest == rest;
    } else {
      NothingAscends();
    }
  }

  lemma {:induction false} NothingAscends()
    ensures Ascending([])
  {
  }

  ghost predicate OnStep(x: nat, step: nat) {
    exists k: nat :: Product(k, step) == x
  }

  lemma {:induction false} OnStepStep(x: nat, step: nat)
    requires step > 0
    ensures x < step ==> (OnStep(x, step) <==> x == 0)
    ensures x >= step ==> (OnStep(x, step) <==> OnStep(x - step, step))
  {
    hide Product;
    ProductStep(0, step);
    if OnStep(x, step) {
      var k: nat :| Product(k, step) == x;
      if k > 0 {
        ProductStep(k - 1, step);
      }
    }
    if x >= step && OnStep(x - step, step) {
      var k: nat :| Product(k, step) == x - step;
      ProductStep(k, step);
    }
  }

  lemma {:induction false} LayersFromMember(c: LayoutClass, layer: nat, l: u32)
    requires c.step > 0 && layer <= l
    ensures l in LayersFrom(c, layer) <==> l < c.until && l !in c.except && OnStep(l - layer, c.step)
    decreases c.until - layer
  {
    hide OnStep, Ascending;
    if layer >= c.until {
    } else {
      OnStepStep(l - layer, c.step);
      if l < layer + c.step {
        LayersFromAscend(c, layer + c.step);
      } else {
        LayersFromMember(c, layer + c.step, l);
      }
    }
  }

  /** Exactly the layers a whole number of steps into the range belong to it. */
  lemma {:induction false} LayersMember(c: LayoutClass, l: u32)
    ensures l in Layers(c) <==>
              c.step > 0 && c.from <= l < c.until && l !in c.except && OnStep(l - c.from, c.step)
  {
    LayersAscend(c);
    if c.step > 0 && c.from <= l {
      LayersFromMember(c, c.from, l);
    }
  }

  lemma {:induction false} LayersAscend(c: LayoutClass)
    ensures Ascending(Layers(c))
    ensures forall l :: l in Layers(c) ==> c.from <= l < c.until && l !in c.except
  {
    if c.step > 0 {
      LayersFromAscend(c, c.from);
    }
  }

  lemma {:induction false} LayersStep(c: LayoutClass, layers: seq<u32>, layer: nat)
    requires c.step > 0 && layer < c.until
    ensures layers + LayersFrom(c, layer)
         == (if layer in c.except then layers else layers + [layer]) + LayersFrom(c, layer + c.step)
  {
  }

  method CollectLayers(c: LayoutClass) returns (layers: seq<u32>)
    ensures layers == Layers(c)
  {
    hide LayersFrom;
    if c.step == 0 || c.from >= c.until {
      return [];
    }
    layers := [];
    var layer: nat := c.from;
    while layer < c.until
      invariant Layers(c) == layers + LayersFrom(c, layer)
      decreases c.until - layer
    {
      LayersStep(c, layers, layer);
      if layer !in c.except {
        layers := layers + [layer];
      }
      layer := layer + c.step;
    }
    LayersEnd(c, layer);
  }

  lemma {:induction false} LayersEnd(c: LayoutClass, layer: nat)
    requires c.step > 0 && layer >= c.until
    ensures LayersFrom(c, layer) == []
  {
  }

  // ---------------------------------------------------------------------
  // Schedule order
  // ---------------------------------------------------------------------

  predicate Windowed(b: Begin, i: nat)
    requires i < |b.layoutTable|
  {
    b.layoutTable[i].windowTokens > 0
  }

  /** Class indices below `n` of one kind, in declared order. */
  function OfKind(b: Begin, windowed: bool, n: nat): seq<nat>
    requires n <= |b.layoutTable|
  {
    if n == 0 then []
    else OfKind(b, windowed, n - 1) + (if Windowed(b, n - 1) == windowed then [n - 1] else [])
  }

  function Declared(n: nat): seq<nat> {
    if n == 0 then [] else Declared(n - 1) + [n - 1]
  }

  function Schedule(b: Begin): seq<nat> {
    var n := |b.layoutTable|;
    if b.schedule == Some(DECODE_PRIORITY) then OfKind(b, true, n) + OfKind(b, false, n)
    else Declared(n)
  }

  method ScheduleClassOrder(b: Begin) returns (order: seq<nat>)
    ensures order == Schedule(b)
  {
    order := [];
    for i := 0 to |b.layoutTable|
      invariant order == Declared(i)
    {
      order := order + [i];
    }
    if b.schedule == Some(DECODE_PRIORITY) {
      var windowed, full := [], [];
      for i := 0 to |b.layoutTable|
        invariant windowed == OfKind(b, true, i) && full == OfKind(b, false, i)
      {
        if b.layoutTable[i].windowTokens > 0 {
          windowed := windowed + [i];
        } else {
          full := full + [i];
        }
      }
      order := windowed + full;
    }
  }

  lemma {:induction false} OfKindMembers(b: Begin, windowed: bool, n: nat)
    requires n <= |b.layoutTable|
    ensures Ascending(OfKind(b, windowed, n))
    ensures forall i: nat :: i in OfKind(b, windowed, n) <==> i < n && Windowed(b, i) == windowed
    decreases n
  {
    if n == 0 {
    } else {
      OfKindMembers(b, windowed, n - 1);
      var before := OfKind(b, windowed, n - 1);
      assert forall i :: 0 <= i < |before| ==> before[i] in before;
    }
  }

  lemma {:induction false} DeclaredMembers(n: nat)
    ensures |Declared(n)| == n && forall i :: 0 <= i < n ==> Declared(n)[i] == i
    decreases n
  {
    if n == 0 {
    } else {
      DeclaredMembers(n - 1);
    }
  }

  /** Decode priority is a stable partition: windowed classes first, each
      group in declared order. */
  lemma {:induction false} DecodePriorityIsStable(b: Begin, i: nat, j: nat)
    requires b.schedule == Some(DECODE_PRIORITY) && i < j < |Schedule(b)|
    ensures var x, y := Schedule(b)[i], Schedule(b)[j];
            && x < |b.layoutTable| && y < |b.layoutTable|
            && (Windowed(b, y) ==> Windowed(b, x))
            && (Windowed(b, x) == Windowed(b, y) ==> x < y)
  {
    var n := |b.layoutTable|;
    var first, second := OfKind(b, true, n), OfKind(b, false, n);
    OfKindMembers(b, true, n);
    OfKindMembers(b, false, n);
    assert Schedule(b)[i] in if i < |first| then first else second;
    assert Schedule(b)[j] in if j < |first| then first else second;
  }

  // ---------------------------------------------------------------------
  // Sums over a class order
  // ---------------------------------------------------------------------

  function At(weights: seq<nat>, i: nat): nat {
    if i < |weights| then weights[i] else 0
  }

  function SumAt(order: seq<nat>, weights: seq<nat>): nat {
    if order == [] then 0
    else SumAt(order[..|order| - 1], weights) + At(weights, order[|order| - 1])
  }

  lemma {:induction false} SumAtAppend(order: seq<nat>, i: nat, weights: seq<nat>)
    ensures SumAt(order + [i], weights) == SumAt(order, weights) + At(weights, i)
  {
    assert (order + [i])[..|order|] == order;
  }

  lemma {:induction false} SumAtConcat(a: seq<nat>, c: seq<nat>, weights: seq<nat>)
    ensures SumAt(a + c, weights) == SumAt(a, weights) + SumAt(c, weights)
    decreases |c|
  {
    if c == [] {
      assert a + c == a;
    } else {
      var front, last := c[..|c| - 1], c[|c| - 1];
      SumAtConcat(a, front, weights);
      SumAtAppend(front, last, weights);
      SumAtAppend(a + front, last, weights);
      assert front + [last] == c && (a + front) + [last] == a + c;
    }
  }

  lemma {:induction false} SumOfKinds(b: Begin, n: nat, weights: seq<nat>)
    requires n <= |b.layoutTable|
    ensures SumAt(OfKind(b, true, n), weights) + SumAt(OfKind(b, false, n), weights)
         == SumAt(Declared(n), weights)
    decreases n
  {
    hide SumAt;
    if n == 0 {
      var none: seq<nat> := [];
      assert none + none == none;
      SumAtConcat(none, none, weights);
    } else {
      SumOfKinds(b, n - 1, weights);
      SumAtAppend(OfKind(b, Windowed(b, n - 1), n - 1), n - 1, weights);
      SumAtAppend(Declared(n - 1), n - 1, weights);
      assert OfKind(b, !Windowed(b, n - 1), n) == OfKind(b, !Windowed(b, n - 1), n - 1);
    }
  }

  /** Either schedule adds up to the declared total. */
  lemma {:induction false} ScheduleSum(b: Begin, weights: seq<nat>)
    ensures SumAt(Schedule(b), weights) == SumAt(Declared(|b.layoutTable|), weights)
  {
    hide SumAt, OfKind, Declared;
    var n := |b.layoutTable|;
    SumOfKinds(b, n, weights);
    SumAtConcat(OfKind(b, true, n), OfKind(b, false, n), weights);
  }

  // ---------------------------------------------------------------------
  // The walk
  // ---------------------------------------------------------------------

  datatype Entry = Entry(classIndex: nat, layer: u32, role: Role)

  function LayerEntries(i: nat, layer: u32, roles: seq<Role>): seq<Entry> {
    if roles == [] then []
    else
      var n := |roles| - 1;
      LayerEntries(i, layer, roles[..n]) + [Entry(i, layer, roles[n])]
  }

  function ClassEntries(i: nat, layers: seq<u32>, roles: seq<Role>): seq<Entry> {
    if layers == [] then []
    else
      var n := |layers| - 1;
      ClassEntries(i, layers[..n], roles) + LayerEntries(i, layers[n], roles)
  }

  function ClassWalk(b: Begin, i: nat): seq<Entry> {
    if i < |b.layoutTable| then ClassEntries(i, Layers(b.layoutTable[i]), b.layoutTable[i].roles)
    else []
  }

  function OrderWalk(b: Begin, order: seq<nat>): seq<Entry> {
    if order == [] then []
    else
      var n := |order| - 1;
      OrderWalk(b, order[..n]) + ClassWalk(b, order[n])
  }

  /** The (class, layer, role) expected at every sequence position. */
  function Walk(b: Begin): seq<Entry> {
    OrderWalk(b, Schedule(b))
  }

  lemma {:induction false} LayerEntriesStep(i: nat, layer: u32, roles: seq<Role>, n: nat)
    requires n < |roles|
    ensures LayerEntries(i, layer, roles[..n + 1])
         == LayerEntries(i, layer, roles[..n]) + [Entry(i, layer, roles[n])]
  {
    assert roles[..n + 1][..n] == roles[..n];
  }

  lemma {:induction false} ClassEntriesStep(i: nat, layers: seq<u32>, roles: seq<Role>, n: nat)
    requires n < |layers|
    ensures ClassEntries(i, layers[..n + 1], roles)
         == ClassEntries(i, layers[..n], roles) + LayerEntries(i, layers[n], roles)
  {
    assert layers[..n + 1][..n] == layers[..n];
  }

  lemma {:induction false} OrderWalkStep(b: Begin, order: seq<nat>, n: nat)
    requires n < |order|
    ensures OrderWalk(b, order[..n + 1]) == OrderWalk(b, order[..n]) + ClassWalk(b, order[n])
  {
    assert order[..n + 1][..n] == order[..n];
  }

  method AppendClass(walk: seq<Entry>, i: nat, c: LayoutClass) returns (walk': seq<Entry>)
    ensures walk' == walk + ClassEntries(i, Layers(c), c.roles)
  {
    hide LayerEntries, ClassEntries, Layers;
    var layers := CollectLayers(c);
    walk' := walk;
    EntriesEmpty(i, c.roles);
    for n := 0 to |layers|
      invariant walk' == walk + ClassEntries(i, layers[..n], c.roles)
    {
      ClassEntriesStep(i, layers, c.roles, n);
      LayerEntriesEmpty(i, layers[n]);
      ghost var before := walk';
      for m := 0 to |c.roles|
        invariant walk' == before + LayerEntries(i, layers[n], c.roles[..m])
      {
        LayerEntriesStep(i, layers[n], c.roles, m);
        walk' := walk' + [Entry(i, layers[n], c.roles[m])];
      }
      assert c.roles[..|c.roles|] == c.roles;
    }
    assert layers[..|layers|] == layers;
  }

  lemma {:induction false} EntriesEmpty(i: nat, roles: seq<Role>)
    ensures ClassEntries(i, [], roles) == []
  {
  }

  lemma {:induction false} LayerEntriesEmpty(i: nat, layer: u32)
    ensures LayerEntries(i, layer, []) == []
  {
  }

  method LayoutWalk(b: Begin) returns (walk: seq<Entry>)
    ensures walk == Walk(b)
  {
    hide OrderWalk, ClassEntries, Schedule, Layers;
    var order := ScheduleClassOrder(b);
    walk := [];
    OrderWalkEmpty(b);
    for n := 0 to |order|
      invariant walk == OrderWalk(b, order[..n])
    {
      OrderWalkStep(b, order, n);
      ScheduleInRange(b, n);
      walk := AppendClass(walk, order[n], b.layoutTable[order[n]]);
    }
    assert order[..|order|] == order;
  }

  lemma {:induction false} OrderWalkEmpty(b: Begin)
    ensures OrderWalk(b, []) == []
  {
  }

  lemma {:induction false} ScheduleInRange(b: Begin, n: nat)
    requires n < |Schedule(b)|
    ensures Schedule(b)[n] < |b.layoutTable|
  {
    var m := |b.layoutTable|;
    OfKindMembers(b, true, m);
    OfKindMembers(b, false, m);
    DeclaredMembers(m);
    if b.schedule == Some(DECODE_PRIORITY) {
      assert Schedule(b)[n] in OfKind(b, true, m) || Schedule(b)[n] in OfKind(b, false, m);
    }
  }

  // ---------------------------------------------------------------------
  // Additive measures of a walk
  // ---------------------------------------------------------------------

  function Total(walk: seq<Entry>, m: Entry -> nat): nat {
    if walk == [] then 0 else Total(walk[..|walk| - 1], m) + m(walk[|walk| - 1])
  }

  lemma {:induction false} TotalConcat(a: seq<Entry>, c: seq<Entry>, m: Entry -> nat)
    ensures Total(a + c, m) == Total(a, m) + Total(c, m)
    decreases |c|
  {
    if c == [] {
      assert a + c == a;
    } else {
      var n := |c| - 1;
      assert (a + c)[..|a + c| - 1] == a + c[..n];
      TotalConcat(a, c[..n], m);
    }
  }

  function ClassWeights(b: Begin, m: Entry -> nat): (w: seq<nat>)
    ensures |w| == |b.layoutTable|
    ensures forall i :: 0 <= i < |w| ==> w[i] == Total(ClassWalk(b, i), m)
  {
    seq(|b.layoutTable|, i requires 0 <= i < |b.layoutTable| => Total(ClassWalk(b, i), m))
  }

  lemma {:induction false} OrderTotal(b: Begin, order: seq<nat>, m: Entry -> nat)
    ensures Total(OrderWalk(b, order), m) == SumAt(order, ClassWeights(b, m))
    decreases |order|
  {
    hide ClassWeights, ClassWalk;
    if order == [] {
    } else {
      var n := |order| - 1;
      OrderTotal(b, order[..n], m);
      TotalConcat(OrderWalk(b, order[..n]), ClassWalk(b, order[n]), m);
      WeightAt(b, order[n], m);
    }
  }

  lemma {:induction false} WeightAt(b: Begin, i: nat, m: Entry -> nat)
    ensures At(ClassWeights(b, m), i) == Total(ClassWalk(b, i), m)
  {
  }

  /** A measure of the walk is the sum over classes in declared order,
      whatever the schedule. */
  lemma {:induction false} WalkTotal(b: Begin, m: Entry -> nat)
    ensures Total(Walk(b), m) == SumAt(Declared(|b.layoutTable|), ClassWeights(b, m))
  {
    hide OrderWalk, SumAt, ClassWeights, Schedule, Declared;
    OrderTotal(b, Schedule(b), m);
    ScheduleSum(b, ClassWeights(b, m));
  }

  function WindowOf(b: Begin, c: LayoutClass): (w: u32)
    ensures w <= b.cachedTokenCount
  {
    if c.windowTokens == 0 then b.cachedTokenCount else Min(c.windowTokens, b.cachedTokenCount)
  }

  /** Bytes of one plane of a class. */
  function PlaneBytes(b: Begin, c: LayoutClass, role: Role): nat {
    Product(Product(Product(WindowOf(b, c), c.kvHeads), c.headDim), ElementBytes(b, role))
  }

  function EntryBytes(b: Begin, e: Entry): nat {
    if e.classIndex < |b.layoutTable| then PlaneBytes(b, b.layoutTable[e.classIndex], e.role)
    else FlatPlaneBytes(b)
  }

  /** Bytes of one plane of a begin without a table. */
  function FlatPlaneBytes(b: Begin): nat {
    Product(Product(Product(b.cachedTokenCount, b.geometry.numKvHeads), b.geometry.headDim), 2)
  }

  function RoleBytes(b: Begin, c: LayoutClass, roles: seq<Role>): nat {
    if roles == [] then 0
    else RoleBytes(b, c, roles[..|roles| - 1]) + PlaneBytes(b, c, roles[|roles| - 1])
  }

  function OneMeasure(): Entry -> nat {
    e => 1
  }

  function ByteMeasure(b: Begin): Entry -> nat {
    e => EntryBytes(b, e)
  }

  /** One for the key frame of `layer`, zero for every other frame. */
  function KeyMeasure(layer: u32): Entry -> nat {
    (e: Entry) => if e.layer == layer && e.role.Key? then 1 else 0
  }

  lemma {:induction false} LengthIsTotal(walk: seq<Entry>)
    ensures |walk| == Total(walk, OneMeasure())
    decreases |walk|
  {
    if walk == [] {
    } else {
      LengthIsTotal(walk[..|walk| - 1]);
    }
  }

  lemma {:induction false} LayerEntriesTotals(b: Begin, i: nat, layer: u32, roles: seq<Role>)
    requires i < |b.layoutTable|
    ensures |LayerEntries(i, layer, roles)| == |roles|
    ensures Total(LayerEntries(i, layer, roles), ByteMeasure(b)) == RoleBytes(b, b.layoutTable[i], roles)
    decreases |roles|
  {
    hide PlaneBytes;
    if roles == [] {
    } else {
      var n := |roles| - 1;
      LayerEntriesTotals(b, i, layer, roles[..n]);
      assert LayerEntries(i, layer, roles)[..n] == LayerEntries(i, layer, roles[..n]);
    }
  }

  lemma {:induction false} ClassEntriesTotals(b: Begin, i: nat, layers: seq<u32>, roles: seq<Role>)
    requires i < |b.layoutTable|
    ensures |ClassEntries(i, layers, roles)| == Product(|layers|, |roles|)
    ensures Total(ClassEntries(i, layers, roles), ByteMeasure(b))
         == Product(|layers|, RoleBytes(b, b.layoutTable[i], roles))
    decreases |layers|
  {
    hide LayerEntries, RoleBytes, Product;
    var bytes := RoleBytes(b, b.layoutTable[i], roles);
    if layers == [] {
      ProductStep(0, |roles|);
      ProductStep(0, bytes);
    } else {
      var n := |layers| - 1;
      ClassEntriesTotals(b, i, layers[..n], roles);
      LayerEntriesTotals(b, i, layers[n], roles);
      TotalConcat(ClassEntries(i, layers[..n], roles), LayerEntries(i, layers[n], roles), ByteMeasure(b));
      ProductStep(n, |roles|);
      ProductStep(n, bytes);
    }
  }

  predicate RolesOk(c: LayoutClass) {
    c.roles == [Key, Value] || (c.name == "mla-latent" && c.roles == [Key])
  }

  lemma {:induction false} LayerEntriesShape(i: nat, layer: u32, roles: seq<Role>)
    ensures LayerEntries(i, layer, [Key]) == [Entry(i, layer, Key)]
    ensures LayerEntries(i, layer, [Key, Value]) == [Entry(i, layer, Key), Entry(i, layer, Value)]
  {
    assert [Key, Value][..1] == [Key] && [Key][..0] == [];
    assert LayerEntries(i, layer, []) == [];
    assert LayerEntries(i, layer, [Key]) == [Entry(i, layer, Key)];
  }

  lemma {:induction false} LayerEntriesKeys(i: nat, layer: u32, roles: seq<Role>, l: u32)
    requires roles == [Key] || roles == [Key, Value]
    ensures Total(LayerEntries(i, layer, roles), KeyMeasure(l)) == if layer == l then 1 else 0
  {
    LayerEntriesShape(i, layer, roles);
    var k: Entry, v: Entry := Entry(i, layer, Key), Entry(i, layer, Value);
    assert [k][..0] == [] && [k, v][..1] == [k];
    assert Total([], KeyMeasure(l)) == 0;
    assert Total([k], KeyMeasure(l)) == if layer == l then 1 else 0;
  }

  lemma {:induction false} TotalNone(m: Entry -> nat)
    ensures Total([], m) == 0
  {
  }

  lemma {:induction false} ClassEntriesKeys(i: nat, layers: seq<u32>, roles: seq<Role>, l: u32)
    requires roles == [Key] || roles == [Key, Value]
    ensures Total(ClassEntries(i, layers, roles), KeyMeasure(l)) == multiset(layers)[l]
    decreases |layers|
  {
    hide LayerEntries, KeyMeasure, Total;
    if layers == [] {
      TotalNone(KeyMeasure(l));
    } else {
      var n := |layers| - 1;
      ClassEntriesKeys(i, layers[..n], roles, l);
      LayerEntriesKeys(i, layers[n], roles, l);
      TotalConcat(ClassEntries(i, layers[..n], roles), LayerEntries(i, layers[n], roles), KeyMeasure(l));
      assert layers == layers[..n] + [layers[n]];
    }
  }

  // ---------------------------------------------------------------------
  // Pairing
  // ---------------------------------------------------------------------

  predicate SingleRole(b: Begin, e: Entry) {
    e.classIndex < |b.layoutTable| && |b.layoutTable[e.classIndex].roles| == 1
  }

  /** A key frame stands alone if its class has one role, and is followed by
      its own value frame otherwise; no value frame stands without its key. */
  predicate PairedAt(b: Begin, walk: seq<Entry>, p: nat)
    requires p < |walk|
  {
    if walk[p].role.Key? then
      SingleRole(b, walk[p]) || (p + 1 < |walk| && walk[p + 1] == walk[p].(role := Value))
    else
      !SingleRole(b, walk[p]) && p > 0 && walk[p - 1] == walk[p].(role := Key)
  }

  predicate Paired(b: Begin, walk: seq<Entry>) {
    forall p :: 0 <= p < |walk| ==> PairedAt(b, walk, p)
  }

  lemma {:induction false} PairedConcat(b: Begin, a: seq<Entry>, c: seq<Entry>)
    requires Paired(b, a) && Paired(b, c)
    ensures Paired(b, a + c)
  {
    forall p | 0 <= p < |a + c| ensures PairedAt(b, a + c, p) {
      assert if p < |a| then PairedAt(b, a, p) else PairedAt(b, c, p - |a|);
    }
  }

  lemma {:induction false} ClassEntriesPaired(b: Begin, i: nat, layers: seq<u32>)
    requires i < |b.layoutTable| && RolesOk(b.layoutTable[i])
    ensures Paired(b, ClassEntries(i, layers, b.layoutTable[i].roles))
    decreases |layers|
  {
    hide LayerEntries;
    if layers == [] {
    } else {
      var n := |layers| - 1;
      ClassEntriesPaired(b, i, layers[..n]);
      LayerEntriesShape(i, layers[n], b.layoutTable[i].roles);
      assert b.layoutTable[i].roles == [Key] ==> SingleRole(b, Entry(i, layers[n], Key));
      PairedConcat(b, ClassEntries(i, layers[..n], b.layoutTable[i].roles),
                   LayerEntries(i, layers[n], b.layoutTable[i].roles));
    }
  }

  lemma {:induction false} OrderWalkPaired(b: Begin, order: seq<nat>)
    requires forall i :: 0 <= i < |b.layoutTable| ==> RolesOk(b.layoutTable[i])
    ensures Paired(b, OrderWalk(b, order))
    decreases |order|
  {
    hide ClassEntries, Layers;
    if order == [] {
    } else {
      var n := |order| - 1;
      OrderWalkPaired(b, order[..n]);
      if order[n] < |b.layoutTable| {
        ClassEntriesPaired(b, order[n], Layers(b.layoutTable[order[n]]));
      }
      PairedConcat(b, OrderWalk(b, order[..n]), ClassWalk(b, order[n]));
    }
  }

  // ---------------------------------------------------------------------
  // Order and members of the walk
  // ---------------------------------------------------------------------

  /** Class `x` is sent before class `y`: in declared order, except that decode
      priority puts classes with a window before those without. */
  predicate SentBefore(b: Begin, x: nat, y: nat)
    requires x < |b.layoutTable| && y < |b.layoutTable|
  {
    if b.schedule == Some(DECODE_PRIORITY)
       && (b.layoutTable[x].windowTokens > 0) != (b.layoutTable[y].windowTokens > 0)
    then b.layoutTable[x].windowTokens > 0
    else x < y
  }

  /** One frame is sent before another: by class, by layer, key before value. */
  predicate FrameBefore(b: Begin, e: Entry, f: Entry) {
    && e.classIndex < |b.layoutTable| && f.classIndex < |b.layoutTable|
    && (|| SentBefore(b, e.classIndex, f.classIndex)
        || (e.classIndex == f.classIndex && e.layer < f.layer)
        || (e.classIndex == f.classIndex && e.layer == f.layer && e.role.Key? && f.role.Value?))
  }

  lemma {:induction false} ScheduleOrdered(b: Begin, i: nat, j: nat)
    requires i < j < |Schedule(b)|
    ensures Schedule(b)[i] < |b.layoutTable| && Schedule(b)[j] < |b.layoutTable|
    ensures SentBefore(b, Schedule(b)[i], Schedule(b)[j])
  {
    ScheduleInRange(b, i);
    ScheduleInRange(b, j);
    if b.schedule == Some(DECODE_PRIORITY) {
      DecodePriorityIsStable(b, i, j);
    } else {
      DeclaredMembers(|b.layoutTable|);
    }
  }

  /** Every class is scheduled. */
  lemma {:induction false} ScheduleMembers(b: Begin, i: nat)
    ensures i in Schedule(b) <==> i < |b.layoutTable|
  {
    var n := |b.layoutTable|;
    OfKindMembers(b, true, n);
    OfKindMembers(b, false, n);
    DeclaredMembers(n);
    if b.schedule != Some(DECODE_PRIORITY) && i < n {
      assert Declared(n)[i] == i;
    }
  }

  lemma {:induction false} LayerEntriesMember(i: nat, layer: u32, roles: seq<Role>, e: Entry)
    ensures e in LayerEntries(i, layer, roles) <==> e.classIndex == i && e.layer == layer && e.role in roles
    decreases |roles|
  {
    if roles == [] {
    } else {
      var n := |roles| - 1;
      LayerEntriesMember(i, layer, roles[..n], e);
      assert roles == roles[..n] + [roles[n]];
    }
  }

  lemma {:induction false} ClassEntriesMember(i: nat, layers: seq<u32>, roles: seq<Role>, e: Entry)
    ensures e in ClassEntries(i, layers, roles) <==> e.classIndex == i && e.layer in layers && e.role in roles
    decreases |layers|
  {
    hide LayerEntries;
    if layers == [] {
    } else {
      var n := |layers| - 1;
      ClassEntriesMember(i, layers[..n], roles, e);
      LayerEntriesMember(i, layers[n], roles, e);
      assert layers == layers[..n] + [layers[n]];
    }
  }

  lemma {:induction false} OrderWalkMember(b: Begin, order: seq<nat>, e: Entry)
    ensures e in OrderWalk(b, order) <==> e.classIndex in order && e in ClassWalk(b, e.classIndex)
    decreases |order|
  {
    hide ClassEntries, Layers;
    if order == [] {
    } else {
      var n := |order| - 1;
      OrderWalkMember(b, order[..n], e);
      ClassWalkMember(b, order[n], e);
      assert order == order[..n] + [order[n]];
    }
  }

  lemma {:induction false} ClassWalkMember(b: Begin, i: nat, e: Entry)
    ensures e in ClassWalk(b, i) <==>
              && e.classIndex == i < |b.layoutTable| && e.layer in Layers(b.layoutTable[i])
              && e.role in b.layoutTable[i].roles
  {
    hide ClassEntries, Layers;
    if i < |b.layoutTable| {
      ClassEntriesMember(i, Layers(b.layoutTable[i]), b.layoutTable[i].roles, e);
    }
  }

  /** A frame is in the walk exactly if its class has its layer and its role. */
  lemma {:induction false} WalkMembers(b: Begin, e: Entry)
    ensures e in Walk(b) <==>
              && e.classIndex < |b.layoutTable| && e.layer in Layers(b.layoutTable[e.classIndex])
              && e.role in b.layoutTable[e.classIndex].roles
  {
    hide OrderWalk, Layers, Schedule, ClassWalk;
    OrderWalkMember(b, Schedule(b), e);
    ScheduleMembers(b, e.classIndex);
    ClassWalkMember(b, e.classIndex, e);
  }

  lemma {:induction false} ClassEntriesOrdered(b: Begin, i: nat, layers: seq<u32>, roles: seq<Role>, p: nat, q: nat)
    requires i < |b.layoutTable| && Ascending(layers) && (roles == [Key] || roles == [Key, Value])
    requires p < q < |ClassEntries(i, layers, roles)|
    ensures FrameBefore(b, ClassEntries(i, layers, roles)[p], ClassEntries(i, layers, roles)[q])
    decreases |layers|
  {
    hide LayerEntries, SentBefore;
    var n := |layers| - 1;
    var before, last := ClassEntries(i, layers[..n], roles), LayerEntries(i, layers[n], roles);
    LayerEntriesShape(i, layers[n], roles);
    if q < |before| {
      ClassEntriesOrdered(b, i, layers[..n], roles, p, q);
    } else if p < |before| {
      var e := before[p];
      assert e in before;
      ClassEntriesMember(i, layers[..n], roles, e);
      var k :| 0 <= k < n && layers[..n][k] == e.layer;
      assert layers[k] < layers[n];
    }
  }

  lemma {:induction false} OrderWalkOrdered(b: Begin, order: seq<nat>, p: nat, q: nat)
    requires forall i :: 0 <= i < |b.layoutTable| ==> RolesOk(b.layoutTable[i])
    requires forall i :: 0 <= i < |order| ==> order[i] < |b.layoutTable|
    requires forall i, j :: 0 <= i < j < |order| ==> SentBefore(b, order[i], order[j])
    requires p < q < |OrderWalk(b, order)|
    ensures FrameBefore(b, OrderWalk(b, order)[p], OrderWalk(b, order)[q])
    decreases |order|
  {
    hide ClassEntries, Layers, SentBefore, Ascending;
    var n := |order| - 1;
    var before, c := OrderWalk(b, order[..n]), b.layoutTable[order[n]];
    if q < |before| {
      OrderWalkOrdered(b, order[..n], p, q);
    } else {
      var f := OrderWalk(b, order)[q];
      LayersAscend(c);
      if p < |before| {
        assert before[p] in before;
        OrderWalkMember(b, order[..n], before[p]);
        assert f == ClassWalk(b, order[n])[q - |before|];
        assert f in ClassWalk(b, order[n]);
        ClassWalkMember(b, order[n], f);
        var k :| 0 <= k < n && order[..n][k] == before[p].classIndex;
        assert order[k] == before[p].classIndex;
      } else {
        ClassEntriesOrdered(b, order[n], Layers(c), c.roles, p - |before|, q - |before|);
      }
    }
  }

  /** The walk sends classes in schedule order, layers ascending, keys first. */
  lemma {:induction false} WalkOrdered(b: Begin, p: nat, q: nat)
    requires forall i :: 0 <= i < |b.layoutTable| ==> RolesOk(b.layoutTable[i])
    requires p < q < |Walk(b)|
    ensures FrameBefore(b, Walk(b)[p], Walk(b)[q])
  {
    hide OrderWalk, Schedule, SentBefore, FrameBefore, RolesOk;
    forall i, j | 0 <= i < j < |Schedule(b)|
      ensures Schedule(b)[i] < |b.layoutTable| && Schedule(b)[j] < |b.layoutTable|
      ensures SentBefore(b, Schedule(b)[i], Schedule(b)[j])
    {
      ScheduleOrdered(b, i, j);
    }
    forall i | 0 <= i < |Schedule(b)| ensures Schedule(b)[i] < |b.layoutTable| {
      ScheduleInRange(b, i);
    }
    OrderWalkOrdered(b, Schedule(b), p, q);
  }

  // ---------------------------------------------------------------------
  // The plan of a session
  // ---------------------------------------------------------------------

  /** Without a table every layer sends its key and then its value. */
  function FlatWalk(n: nat): seq<Entry>
    requires n <= U32_LIMIT
  {
    if n == 0 then [] else FlatWalk(n - 1) + [Entry(0, n - 1, Key), Entry(0, n - 1, Value)]
  }

  /** What every frame of the session must carry, in sequence order. */
  function Plan(b: Begin): seq<Entry> {
    if IsV2(b) then Walk(b) else FlatWalk(b.geometry.numLayers)
  }

  /** Sequence arithmetic of the table-free check: layer s/2, keys even. */
  lemma {:induction false} FlatWalkAt(n: nat, s: nat)
    requires n <= U32_LIMIT && s < 2 * n
    ensures |FlatWalk(n)| == 2 * n
    ensures FlatWalk(n)[s] == Entry(0, s / 2, if s % 2 == 0 then Key else Value)
    decreases n
  {
    if s < 2 * (n - 1) {
      FlatWalkAt(n - 1, s);
    } else if n > 1 {
      FlatWalkAt(n - 1, 0);
    }
  }

  lemma {:induction false} FlatWalkTotals(b: Begin, n: nat, l: u32)
    requires b.layoutTable == [] && n <= U32_LIMIT
    ensures |FlatWalk(n)| == 2 * n && Paired(b, FlatWalk(n))
    ensures Total(FlatWalk(n), ByteMeasure(b)) == Product(2 * n, FlatPlaneBytes(b))
    ensures Total(FlatWalk(n), KeyMeasure(l)) == if l < n then 1 else 0
    decreases n
  {
    hide FlatPlaneBytes, Product, ByteMeasure, KeyMeasure, PairedAt;
    var plane := FlatPlaneBytes(b);
    if n == 0 {
      ProductStep(0, plane);
    } else {
      FlatWalkTotals(b, n - 1, l);
      var k: Entry, v: Entry := Entry(0, n - 1, Key), Entry(0, n - 1, Value);
      PairTotals(b, k, v, l);
      TotalConcat(FlatWalk(n - 1), [k, v], ByteMeasure(b));
      TotalConcat(FlatWalk(n - 1), [k, v], KeyMeasure(l));
      PairedConcat(b, FlatWalk(n - 1), [k, v]);
      ProductStep(2 * n - 2, plane);
      ProductStep(2 * n - 1, plane);
    }
  }

  lemma {:induction false} PairTotals(b: Begin, k: Entry, v: Entry, l: u32)
    requires b.layoutTable == [] && k.role.Key? && v == k.(role := Value)
    ensures Total([k, v], ByteMeasure(b)) == FlatPlaneBytes(b) + FlatPlaneBytes(b)
    ensures Total([k, v], KeyMeasure(l)) == if k.layer == l then 1 else 0
    ensures Paired(b, [k, v])
  {
    hide FlatPlaneBytes;
    assert [k][..0] == [] && [k, v][..1] == [k];
    assert Total([k], ByteMeasure(b)) == FlatPlaneBytes(b);
    assert Total([k], KeyMeasure(l)) == if k.layer == l then 1 else 0;
  }
}
