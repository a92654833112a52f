/** Arming checks of a BEGIN manifest and what they guarantee of its walk. */
module BeginValidation {
  import opened Machine
  import opened HandoffTypes
  import opened Layout

  datatype BeginError =
    | UnsupportedContract
    | GeometryBounds
    | InvalidClass
    | PayloadOverflow
    | ClassFrameBound
    | ExceptEntry
    | RolesNotKeyValue
    | LayerInTwoClasses
    | CoverageGap
    | FlatGeometry
    | UnknownSchedule
    | ScheduleWithoutTable
    | FrameCountOverflow
    | DeclaredBounds
    | PrecisionSet
    | IdentityShape
    | DeadlineOverflow
    | Lifetime

  // ---------------------------------------------------------------------
  // Sorting with duplicates removed
  // ---------------------------------------------------------------------

  predicate Distinct(s: seq<u32>) {
    forall i, j :: 0 <= i < j < |s| ==> s[i] != s[j]
  }

  method InsertSorted(r: seq<u32>, x: u32) returns (r': seq<u32>)
    requires Ascending(r)
    ensures Ascending(r')
    ensures forall y :: y in r' <==> y in r || y == x
    ensures |r'| == if x in r then |r| else |r| + 1
  {
    var p := 0;
    while p < |r| && r[p] < x
      invariant 0 <= p <= |r|
      invariant forall i :: 0 <= i < p ==> r[i] < x
    {
      p := p + 1;
    }
    if p < |r| && r[p] == x {
      return r;
    }
    r' := r[..p] + [x] + r[p..];
    assert r == r[..p] + r[p..];
    InsertAscends(r, p, x);
  }

  lemma {:induction false} InsertAscends(r: seq<u32>, p: nat, x: u32)
    requires Ascending(r) && p <= |r|
    requires forall i :: 0 <= i < p ==> r[i] < x
    requires p < |r| ==> x < r[p]
    ensures Ascending(r[..p] + [x] + r[p..]) && x !in r
  {
    var r' := r[..p] + [x] + r[p..];
    forall i, j | 0 <= i < j < |r'| ensures r'[i] < r'[j] {
      assert r'[j] == if j < p then r[j] else if j == p then x else r[j - 1];
    }
  }

  method SortDedup(s: seq<u32>) returns (r: seq<u32>)
    ensures Ascending(r)
    ensures forall x :: x in r <==> x in s
    ensures |r| <= |s| && (|r| == |s| <==> Distinct(s))
  {
    r := [];
    for n := 0 to |s|
      invariant Ascending(r)
      invariant forall x :: x in r <==> x in s[..n]
      invariant |r| <= n && (|r| == n <==> Distinct(s[..n]))
    {
      DistinctStep(s, n);
      r := InsertSorted(r, s[n]);
    }
    assert s[..|s|] == s;
  }

  lemma {:induction false} DistinctStep(s: seq<u32>, n: nat)
    requires n < |s|
    ensures Distinct(s[..n + 1]) <==> Distinct(s[..n]) && s[n] !in s[..n]
    ensures forall x :: x in s[..n + 1] <==> x in s[..n] || x == s[n]
  {
    assert s[..n + 1] == s[..n] + [s[n]];
    if Distinct(s[..n + 1]) {
      assert s[..n + 1][n] == s[n];
      assert forall i :: 0 <= i < n ==> s[..n + 1][i] == s[..n][i];
    }
  }

  lemma {:induction false} CountStep(front: seq<u32>, last: u32, x: u32)
    ensures multiset(front + [last])[x] == multiset(front)[x] + if x == last then 1 else 0
    ensures x in front <==> multiset(front)[x] > 0
  {
  }

  lemma {:induction false} DistinctCount(s: seq<u32>, x: u32)
    requires Distinct(s)
    ensures multiset(s)[x] == if x in s then 1 else 0
    decreases |s|
  {
    if s == [] {
    } else {
      var n := |s| - 1;
      DistinctStep(s, n);
      assert s == s[..n] + [s[n]] && s[..n + 1] == s;
      DistinctCount(s[..n], x);
      CountStep(s[..n], s[n], x);
    }
  }

  lemma {:induction false} CountDistinct(s: seq<u32>)
    requires forall x :: multiset(s)[x] <= 1
    ensures Distinct(s)
    decreases |s|
  {
    if s == [] {
    } else {
      var n := |s| - 1;
      DistinctStep(s, n);
      assert s == s[..n] + [s[n]] && s[..n + 1] == s;
      forall x ensures multiset(s[..n])[x] <= 1 {
        CountStep(s[..n], s[n], x);
      }
      CountStep(s[..n], s[n], s[n]);
      CountDistinct(s[..n]);
    }
  }

  lemma {:induction false} DistinctCounts(s: seq<u32>)
    ensures Distinct(s) <==> forall x :: multiset(s)[x] == if x in s then 1 else 0
  {
    if Distinct(s) {
      forall x ensures multiset(s)[x] == if x in s then 1 else 0 {
        DistinctCount(s, x);
      }
    }
    if forall x :: multiset(s)[x] == if x in s then 1 else 0 {
      CountDistinct(s);
    }
  }

  // ---------------------------------------------------------------------
  // Coverage
  // ---------------------------------------------------------------------

  /** The layers of the first `n` classes, in declared order. */
  function LayersOf(b: Begin, n: nat): seq<u32>
    requires n <= |b.layoutTable|
  {
    if n == 0 then [] else LayersOf(b, n - 1) + Layers(b.layoutTable[n - 1])
  }

  /** Every declared layer belongs to exactly one class, and no other layer
      to any. */
  ghost predicate CoversOnce(b: Begin) {
    forall l: u32 ::
      multiset(LayersOf(b, |b.layoutTable|))[l] == if l < b.geometry.numLayers then 1 else 0
  }

  lemma {:induction false} AscendingIsRange(r: seq<u32>, n: nat)
    requires Ascending(r) && n <= U32_LIMIT
    ensures (|r| == n && forall i :: 0 <= i < |r| ==> r[i] == i)
       <==> forall x: u32 :: x in r <==> x < n
  {
    if |r| == n && forall i :: 0 <= i < |r| ==> r[i] == i {
      forall x: u32 ensures x in r <==> x < n {
        if x < n {
          assert r[x] == x;
        }
      }
    }
    if forall x: u32 :: x in r <==> x < n {
      RangeFromBelow(r, n, n);
    }
  }

  lemma {:induction false} AscendingAtLeast(r: seq<u32>, i: nat)
    requires Ascending(r) && i < |r|
    ensures i <= r[i]
    decreases i
  {
    if i == 0 {
    } else {
      AscendingAtLeast(r, i - 1);
    }
  }

  lemma {:induction false} RangeFromBelow(r: seq<u32>, n: nat, k: nat)
    requires Ascending(r) && k <= n <= U32_LIMIT
    requires forall x: u32 :: x in r <==> x < n
    ensures k <= |r| && forall i :: 0 <= i < k ==> r[i] == i
    ensures k == n ==> |r| == n
    decreases k
  {
    if k == 0 {
    } else {
      RangeFromBelow(r, n, k - 1);
      var x: u32 := k - 1;
      assert x in r;
      var i :| 0 <= i < |r| && r[i] == x;
      AscendingAtLeast(r, i);
    }
    forall i | 0 <= i < |r| ensures r[i] < n {
      assert r[i] in r;
    }
    if k == n && |r| > n {
      AscendingAtLeast(r, n);
    }
  }

  /** The final test of the table: sorted, deduplicated layers must be
      0..num_layers with nothing dropped. */
  method CheckCoverage(covered: seq<u32>, numLayers: u32) returns (r: Result<bool, BeginError>)
    ensures r.Ok? <==> forall l: u32 :: multiset(covered)[l] == if l < numLayers then 1 else 0
  {
    var dedup := SortDedup(covered);
    DistinctCounts(covered);
    AscendingIsRange(dedup, numLayers);
    if |dedup| != |covered| {
      if forall l: u32 :: multiset(covered)[l] == if l < numLayers then 1 else 0 {
        CountsMembers(covered, numLayers);
      }
      return Err(LayerInTwoClasses);
    }
    var ok := |dedup| == numLayers && forall i :: 0 <= i < |dedup| ==> dedup[i] == i;
    if !ok {
      if forall l: u32 :: multiset(covered)[l] == if l < numLayers then 1 else 0 {
        CountsMembers(covered, numLayers);
      }
      return Err(CoverageGap);
    }
    return Ok(true);
  }

  lemma {:induction false} CountsMembers(s: seq<u32>, n: nat)
    requires forall l: u32 :: multiset(s)[l] == if l < n then 1 else 0
    ensures forall x: u32 :: x in s <==> x < n
    ensures forall x :: multiset(s)[x] == if x in s then 1 else 0
  {
    forall x: u32 ensures x in s <==> x < n {
      assert x in s <==> x in multiset(s);
    }
  }

  // ---------------------------------------------------------------------
  // Declared totals
  // ---------------------------------------------------------------------

  function FrameSum(b: Begin, n: nat): nat
    requires n <= |b.layoutTable|
  {
    if n == 0 then 0
    else
      var c := b.layoutTable[n - 1];
      FrameSum(b, n - 1) + Product(|Layers(c)|, |c.roles|)
  }

  function ByteSum(b: Begin, n: nat): nat
    requires n <= |b.layoutTable|
  {
    if n == 0 then 0
    else
      var c := b.layoutTable[n - 1];
      ByteSum(b, n - 1) + Product(|Layers(c)|, RoleBytes(b, c, c.roles))
  }

  predicate PlanesFit(b: Begin, c: LayoutClass) {
    forall r :: r in c.roles ==> PlaneBytes(b, c, r) < U64_LIMIT
  }

  /** Nothing in the declared totals overflows its machine integer. */
  predicate TotalsFit(b: Begin) {
    && FrameSum(b, |b.layoutTable|) < U32_LIMIT
    && ByteSum(b, |b.layoutTable|) < U64_LIMIT
    && forall i :: 0 <= i < |b.layoutTable| ==> PlanesFit(b, b.layoutTable[i])
  }

  lemma {:induction false} ProductOfU32(x: u32, y: u32)
    ensures Product(x, y) < U64_LIMIT
  {
    ProductMonotone(x, y, U32_LIMIT - 1);
    ProductMonotone(U32_LIMIT - 1, x, U32_LIMIT - 1);
  }

  lemma {:induction false} SumsGrow(b: Begin, m: nat, n: nat)
    requires m <= n <= |b.layoutTable|
    ensures FrameSum(b, m) <= FrameSum(b, n) && ByteSum(b, m) <= ByteSum(b, n)
    decreases n
  {
    hide Product, Layers, RoleBytes;
    if m >= n {
    } else {
      SumsGrow(b, m, n - 1);
    }
  }

  lemma {:induction false} RoleBytesGrow(b: Begin, c: LayoutClass, roles: seq<Role>, n: nat)
    requires n <= |roles|
    ensures RoleBytes(b, c, roles[..n]) <= RoleBytes(b, c, roles)
    ensures n < |roles| ==>
              RoleBytes(b, c, roles[..n + 1]) == RoleBytes(b, c, roles[..n]) + PlaneBytes(b, c, roles[n])
    decreases |roles|
  {
    hide PlaneBytes;
    if n < |roles| {
      assert roles[..n + 1][..n] == roles[..n];
      var front := roles[..|roles| - 1];
      assert front[..n] == roles[..n];
      RoleBytesGrow(b, c, front, n);
    } else {
      assert roles[..n] == roles;
    }
  }

  method CheckedPlaneBytes(b: Begin, c: LayoutClass, width: nat) returns (r: Option<u64>)
    requires width == 2 || width == 4
    ensures var exact := Product(Product(Product(WindowOf(b, c), c.kvHeads), c.headDim), width);
            r == if exact < U64_LIMIT then Some(exact) else None
  {
    var window := WindowOf(b, c);
    ProductOfU32(window, c.kvHeads);
    var rows := Product(window, c.kvHeads);
    ProductMonotone(width, Product(rows, c.headDim), Product(rows, c.headDim));
    var elements := CheckedMul(rows, c.headDim);
    if elements.None? {
      return None;
    }
    r := CheckedMul(elements.value, width);
  }

  method CheckedPlane(b: Begin, c: LayoutClass, role: Role) returns (r: Option<u64>)
    ensures r == if PlaneBytes(b, c, role) < U64_LIMIT then Some(PlaneBytes(b, c, role)) else None
  {
    r := CheckedPlaneBytes(b, c, ElementBytes(b, role));
  }

  lemma {:induction false} LayerCount(c: LayoutClass)
    ensures |Layers(c)| <= c.until
  {
    LayersAscend(c);
    var layers := Layers(c);
    if layers != [] {
      AscendingAtLeast(layers, |layers| - 1);
      assert layers[|layers| - 1] in layers;
    }
  }

  lemma {:induction false} TotalsStep(b: Begin, c: LayoutClass, n: nat, m: nat)
    requires m < |c.roles|
    ensures Product(n, m + 1) == Product(n, m) + n <= Product(n, |c.roles|)
    ensures Product(n, RoleBytes(b, c, c.roles[..m + 1]))
         == Product(n, RoleBytes(b, c, c.roles[..m])) + Product(n, PlaneBytes(b, c, c.roles[m]))
         <= Product(n, RoleBytes(b, c, c.roles))
  {
    hide Product, RoleBytes, PlaneBytes;
    RoleBytesGrow(b, c, c.roles, m);
    RoleBytesGrow(b, c, c.roles, m + 1);
    ProductDistributes(n, m, 1);
    ProductDistributes(n, RoleBytes(b, c, c.roles[..m]), PlaneBytes(b, c, c.roles[m]));
    ProductMonotone(n, m + 1, |c.roles|);
    ProductMonotone(n, RoleBytes(b, c, c.roles[..m + 1]), RoleBytes(b, c, c.roles));
  }

  lemma {:induction false} TotalsStart(b: Begin, c: LayoutClass, n: nat)
    ensures Product(n, 0) == 0 && RoleBytes(b, c, []) == 0
  {
  }

  /** The inner loop of the totals: one class, role by role. */
  method AddClass(b: Begin, i: nat, frames: u64, bytes: u64)
      returns (r: Result<(u64, u64), BeginError>)
    requires i < |b.layoutTable|
    requires frames == FrameSum(b, i) && bytes == ByteSum(b, i)
    ensures r.Ok? ==> r.value == (FrameSum(b, i + 1), ByteSum(b, i + 1))
    ensures r.Ok? ==> PlanesFit(b, b.layoutTable[i])
    ensures r.Err? ==> FrameSum(b, i + 1) >= U64_LIMIT || ByteSum(b, i + 1) >= U64_LIMIT
                       || !PlanesFit(b, b.layoutTable[i])
  {
    hide Product, Layers, PlaneBytes, RoleBytes;
    var c := b.layoutTable[i];
    var layers := CollectLayers(c);
    assert |layers| < U64_LIMIT by { LayerCount(c); }
    var f: u64, y: u64 := frames, bytes;
    assert c.roles[..0] == [];
    TotalsStart(b, c, |layers|);
    for m := 0 to |c.roles|
      invariant f == frames + Product(|layers|, m)
      invariant y == bytes + Product(|layers|, RoleBytes(b, c, c.roles[..m]))
      invariant forall k :: 0 <= k < m ==> PlaneBytes(b, c, c.roles[k]) < U64_LIMIT
    {
      var plane := CheckedPlane(b, c, c.roles[m]);
      TotalsStep(b, c, |layers|, m);
      if plane.None? {
        assert c.roles[m] in c.roles;
        return Err(PayloadOverflow);
      }
      var f' := CheckedAdd(f, |layers|);
      if f'.None? {
        return Err(FrameCountOverflow);
      }
      f := f'.value;
      var product := CheckedMul(|layers|, plane.value);
      AsProduct(|layers|, plane.value);
      if product.None? {
        return Err(PayloadOverflow);
      }
      var y' := CheckedAdd(y, product.value);
      if y'.None? {
        return Err(PayloadOverflow);
      }
      y := y'.value;
    }
    assert c.roles[..|c.roles|] == c.roles;
    return Ok((f, y));
  }

  lemma {:induction false} SumsEmpty(b: Begin)
    ensures FrameSum(b, 0) == 0 && ByteSum(b, 0) == 0
  {
  }

  lemma {:induction false} LayersOfStep(b: Begin, n: nat)
    requires n < |b.layoutTable|
    ensures LayersOf(b, 0) == []
    ensures LayersOf(b, n + 1) == LayersOf(b, n) + Layers(b.layoutTable[n])
  {
    hide Layers;
  }

  /** Checked totals of the table: they succeed exactly when nothing
      overflows, and then they are the exact sums. */
  method FrameCounts(b: Begin) returns (r: Result<(u32, u64), BeginError>)
    ensures r.Ok? <==> TotalsFit(b)
    ensures r.Ok? ==> r.value == (FrameSum(b, |b.layoutTable|), ByteSum(b, |b.layoutTable|))
  {
    hide PlanesFit, FrameSum, ByteSum;
    SumsEmpty(b);
    var frames: u64, bytes: u64 := 0, 0;
    for i := 0 to |b.layoutTable|
      invariant frames == FrameSum(b, i) && bytes == ByteSum(b, i)
      invariant forall k :: 0 <= k < i ==> PlanesFit(b, b.layoutTable[k])
    {
      SumsGrow(b, i + 1, |b.layoutTable|);
      var added := AddClass(b, i, frames, bytes);
      if added.Err? {
        return Err(added.error);
      }
      frames, bytes := added.value.0, added.value.1;
    }
    if frames >= U32_LIMIT {
      return Err(FrameCountOverflow);
    }
    return Ok((frames, bytes));
  }

  // ---------------------------------------------------------------------
  // The layout table
  // ---------------------------------------------------------------------

  predicate Graphic(s: string) {
    forall i :: 0 <= i < |s| ==>
      '!' <= s[i] <= '~' && s[i] != '\\' && s[i] != '/' && s[i] != '\"'
  }

  predicate ValidLabel(s: string, maxLen: nat) {
    0 < |s| <= maxLen && Graphic(s)
  }

  predicate ValidSha256(h: Hex) {
    h.Text? ==>
      |h.text| == 64
      && forall i :: 0 <= i < 64 ==> '0' <= h.text[i] <= '9' || 'a' <= h.text[i] <= 'f'
  }

  /** Element width of the widest role a class declares. */
  function WidestElement(b: Begin, roles: seq<Role>): (w: nat)
    ensures w == 2 || w == 4
    ensures forall r :: r in roles ==> ElementBytes(b, r) <= w
  {
    if Key in roles then ElementBytes(b, Key) else 2
  }

  function WidestPlane(b: Begin, c: LayoutClass): nat {
    Product(Product(Product(WindowOf(b, c), c.kvHeads), c.headDim), WidestElement(b, c.roles))
  }

  predicate RangeOk(b: Begin, c: LayoutClass) {
    c.step != 0 && c.from < c.until && c.until <= b.geometry.numLayers
  }

  predicate ExceptOk(c: LayoutClass) {
    Distinct(c.except) && forall l :: l in c.except ==> c.from <= l < c.until
  }

  predicate ClassOk(b: Begin, limits: Limits, c: LayoutClass) {
    && RangeOk(b, c)
    && WidestPlane(b, c) <= limits.maxFrameBytes
    && ExceptOk(c)
    && RolesOk(c)
    && ValidLabel(c.name, 64) && Layers(c) != [] && c.kvHeads != 0 && c.headDim != 0
    && c.dtype == "float16"
  }

  method ValidateClass(b: Begin, limits: Limits, c: LayoutClass)
      returns (r: Result<seq<u32>, BeginError>)
    ensures r.Ok? <==> ClassOk(b, limits, c)
    ensures r.Ok? ==> r.value == Layers(c)
  {
    hide Layers, Product;
    if c.step == 0 || c.from >= c.until || c.until > b.geometry.numLayers {
      return Err(InvalidClass);
    }
    var plane := CheckedPlaneBytes(b, c, WidestElement(b, c.roles));
    if plane.None? {
      return Err(PayloadOverflow);
    }
    if plane.value > limits.maxFrameBytes {
      return Err(ClassFrameBound);
    }
    var except := SortDedup(c.except);
    if |except| != |c.except|
       || !(forall l :: l in c.except ==> c.from <= l < c.until)
    {
      return Err(ExceptEntry);
    }
    if !RolesOk(c) {
      return Err(RolesNotKeyValue);
    }
    var layers := CollectLayers(c);
    if !ValidLabel(c.name, 64) || layers == [] || c.kvHeads == 0 || c.headDim == 0
       || c.dtype != "float16"
    {
      return Err(InvalidClass);
    }
    return Ok(layers);
  }

  /** One class spells the flat geometry; several classes zero it. */
  predicate FlatGeometryOk(b: Begin) {
    if |b.layoutTable| == 1 then
      b.geometry.numKvHeads == b.layoutTable[0].kvHeads
      && b.geometry.headDim == b.layoutTable[0].headDim
    else b.geometry.numKvHeads == 0 && b.geometry.headDim == 0
  }

  ghost predicate TableOk(b: Begin, limits: Limits) {
    && (forall i :: 0 <= i < |b.layoutTable| ==> ClassOk(b, limits, b.layoutTable[i]))
    && CoversOnce(b)
    && FlatGeometryOk(b)
  }

  method ValidateLayoutTable(b: Begin, limits: Limits) returns (r: Result<bool, BeginError>)
    ensures r.Ok? <==> TableOk(b, limits)
  {
    hide ClassOk, Layers, FlatGeometryOk;
    var covered: seq<u32> := [];
    for i := 0 to |b.layoutTable|
      invariant covered == LayersOf(b, i)
      invariant forall k :: 0 <= k < i ==> ClassOk(b, limits, b.layoutTable[k])
    {
      LayersOfStep(b, i);
      var layers := ValidateClass(b, limits, b.layoutTable[i]);
      if layers.Err? {
        return Err(layers.error);
      }
      covered := covered + layers.value;
    }
    var coverage := CheckCoverage(covered, b.geometry.numLayers);
    if coverage.Err? {
      return coverage;
    }
    if !FlatGeometryOk(b) {
      return Err(FlatGeometry);
    }
    return Ok(true);
  }

  // ---------------------------------------------------------------------
  // The whole manifest
  // ---------------------------------------------------------------------

  /** Declared bytes of a begin without a table. */
  function FlatTotal(b: Begin): nat {
    Product(Product(Product(Product(Product(b.geometry.numLayers, 2), b.cachedTokenCount),
                            b.geometry.numKvHeads), b.geometry.headDim), 2)
  }

  function ExpectedFrames(b: Begin): nat {
    if IsV2(b) then FrameSum(b, |b.layoutTable|) else 2 * b.geometry.numLayers
  }

  function ExpectedBytes(b: Begin): nat {
    if IsV2(b) then ByteSum(b, |b.layoutTable|) else FlatTotal(b)
  }

  predicate ContractOk(b: Begin) {
    && b.schemaVersion == SCHEMA_V1 && b.protocol == PROTOCOL_V1
    && (if IsV2(b) then b.portableAbi == ABI_V2 || b.portableAbi == ABI_V2_PREROPE
        else b.portableAbi == ABI_V1)
  }

  predicate GeometryOk(b: Begin, limits: Limits) {
    && 0 < b.cachedTokenCount <= limits.maxCachedTokens
    && b.geometry.maxContextTokens <= limits.maxContextTokens
    && b.cachedTokenCount < b.geometry.maxContextTokens
    && 0 < b.geometry.numLayers <= limits.maxLayers
  }

  predicate ScheduleOk(b: Begin) {
    b.schedule in {None, Some(LAYER_ORDER), Some(DECODE_PRIORITY)}
  }

  ghost predicate CountsOk(b: Begin, limits: Limits) {
    if IsV2(b) then TableOk(b, limits) && ScheduleOk(b) && TotalsFit(b)
    else
      && b.schedule.None? && b.geometry.numKvHeads != 0 && b.geometry.headDim != 0
      && 2 * b.geometry.numLayers < U32_LIMIT && FlatTotal(b) < U64_LIMIT
  }

  predicate DeclaredOk(b: Begin, limits: Limits, frames: nat, bytes: nat)
    requires frames > 0
  {
    && b.expectedLayerFrames == frames && b.expectedPayloadBytes == bytes
    && bytes <= limits.maxTotalBytes && bytes / frames <= limits.maxFrameBytes
  }

  predicate PrecisionOk(b: Begin) {
    && b.precision.compute == "float16" && b.precision.kv == "float16"
    && b.precision.weights in {"q4_k_m", "q4_k_xl", "nvfp4", "mxfp4", "bf16"}
  }

  predicate IdentityOk(b: Begin) {
    && ValidLabel(b.endpoints.consumerEngineAbi, 256) && ValidLabel(b.endpoints.consumerNode, 256)
    && ValidLabel(b.endpoints.producerEngineAbi, 256) && ValidLabel(b.endpoints.producerNode, 256)
    && ValidLabel(b.endpoints.trustDomain, 256)
    && ValidLabel(b.identity.modelRevision, 256) && ValidLabel(b.identity.tokenizerRevision, 256)
    && ValidSha256(b.transferId) && ValidSha256(b.tokenIds) && ValidSha256(b.identity.adapter)
    && ValidSha256(b.identity.chatTemplate) && ValidSha256(b.identity.contextPolicy)
    && ValidSha256(b.identity.model) && ValidSha256(b.identity.tokenizer)
    && (b.hmacKeyId.Some? ==> ValidLabel(b.hmacKeyId.value, 64))
  }

  predicate LifetimeOk(b: Begin, limits: Limits) {
    && b.createdUnixMs + limits.maxSessionMs < U64_LIMIT
    && 0 < b.createdUnixMs <= Min(limits.nowUnixMs + limits.maxClockSkewMs, U64_LIMIT - 1)
    && b.createdUnixMs < b.deadlineUnixMs <= b.createdUnixMs + limits.maxSessionMs
    && limits.nowUnixMs <= b.deadlineUnixMs
  }

  ghost predicate ValidBegin(b: Begin, limits: Limits) {
    && ContractOk(b) && GeometryOk(b, limits) && CountsOk(b, limits)
    && ExpectedFrames(b) > 0
    && DeclaredOk(b, limits, ExpectedFrames(b), ExpectedBytes(b))
    && PrecisionOk(b) && IdentityOk(b) && LifetimeOk(b, limits)
  }

  method CheckedFlatTotal(b: Begin) returns (r: Option<u64>)
    requires b.cachedTokenCount > 0 && b.geometry.numKvHeads > 0 && b.geometry.headDim > 0
    ensures r == if FlatTotal(b) < U64_LIMIT then Some(FlatTotal(b)) else None
  {
    var p := Product(b.geometry.numLayers, 2);
    var q := Product(p, b.cachedTokenCount);
    var s := Product(q, b.geometry.numKvHeads);
    var u := Product(s, b.geometry.headDim);
    hide Product;
    ProductMonotone(b.cachedTokenCount, p, p);
    ProductMonotone(b.geometry.numKvHeads, q, q);
    ProductMonotone(b.geometry.headDim, s, s);
    ProductMonotone(2, u, u);
    if u >= U64_LIMIT || s >= U64_LIMIT || q >= U64_LIMIT || p >= U64_LIMIT {
      return None;
    }
    AsProduct(u, 2);
    r := CheckedMul(u, 2);
  }

  /** Declared or derived frame and byte counts. */
  method Counts(b: Begin, limits: Limits) returns (r: Result<(u32, u64), BeginError>)
    requires GeometryOk(b, limits)
    ensures r.Ok? <==> CountsOk(b, limits)
    ensures r.Ok? ==> r.value == (ExpectedFrames(b), ExpectedBytes(b))
  {
    hide TableOk, TotalsFit, FrameSum, ByteSum, FlatTotal;
    if IsV2(b) {
      var table := ValidateLayoutTable(b, limits);
      if table.Err? {
        return Err(table.error);
      }
      if !ScheduleOk(b) {
        return Err(UnknownSchedule);
      }
      r := FrameCounts(b);
    } else {
      if b.schedule.Some? {
        return Err(ScheduleWithoutTable);
      }
      if b.geometry.numKvHeads == 0 || b.geometry.headDim == 0 {
        return Err(GeometryBounds);
      }
      if 2 * b.geometry.numLayers >= U32_LIMIT {
        return Err(FrameCountOverflow);
      }
      var bytes := CheckedFlatTotal(b);
      if bytes.None? {
        return Err(PayloadOverflow);
      }
      return Ok((2 * b.geometry.numLayers, bytes.value));
    }
  }

  /** A valid table declares at least one frame, so the average frame size
      never divides by zero. */
  lemma {:induction false} FramesArePositive(b: Begin, limits: Limits)
    requires GeometryOk(b, limits) && CountsOk(b, limits)
    ensures ExpectedFrames(b) > 0
  {
    if IsV2(b) {
      var c := b.layoutTable[0];
      assert ClassOk(b, limits, c);
      SumsGrow(b, 1, |b.layoutTable|);
      ProductMonotone(|c.roles|, |Layers(c)|, |Layers(c)|);
      assert FrameSum(b, 1) == FrameSum(b, 0) + Product(|Layers(c)|, |c.roles|);
    }
  }

  method ValidateBegin(b: Begin, limits: Limits) returns (r: Result<bool, BeginError>)
    ensures r.Ok? <==> ValidBegin(b, limits)
  {
    hide CountsOk, ExpectedFrames, ExpectedBytes, IdentityOk, PrecisionOk, ContractOk;
    if !ContractOk(b) {
      return Err(UnsupportedContract);
    }
    if !GeometryOk(b, limits) {
      return Err(GeometryBounds);
    }
    var counts := Counts(b, limits);
    if counts.Err? {
      return Err(counts.error);
    }
    FramesArePositive(b, limits);
    if !DeclaredOk(b, limits, counts.value.0, counts.value.1) {
      return Err(DeclaredBounds);
    }
    if !PrecisionOk(b) {
      return Err(PrecisionSet);
    }
    if !IdentityOk(b) {
      return Err(IdentityShape);
    }
    if CheckedAdd(b.createdUnixMs, limits.maxSessionMs).None? {
      return Err(DeadlineOverflow);
    }
    if !LifetimeOk(b, limits) {
      return Err(Lifetime);
    }
    return Ok(true);
  }

  // ---------------------------------------------------------------------
  // What an armed manifest guarantees
  // ---------------------------------------------------------------------

  /** The plan of an armed session: it has exactly the declared frames and
      bytes, every layer has exactly one key frame, keys and values pair up,
      and no plane exceeds the frame bound. */
  ghost predicate PlanOk(b: Begin, limits: Limits) {
    var plan := Plan(b);
    && |plan| == b.expectedLayerFrames
    && Total(plan, ByteMeasure(b)) == b.expectedPayloadBytes <= limits.maxTotalBytes
    && Paired(b, plan)
    && (forall l: u32 :: Total(plan, KeyMeasure(l)) == if l < b.geometry.numLayers then 1 else 0)
    && (forall p :: 0 <= p < |plan| ==> EntryBytes(b, plan[p]) <= limits.maxFrameBytes)
  }

  lemma {:induction false} SumOfFrames(b: Begin, n: nat)
    requires n <= |b.layoutTable|
    ensures SumAt(Declared(n), ClassWeights(b, OneMeasure())) == FrameSum(b, n)
    ensures SumAt(Declared(n), ClassWeights(b, ByteMeasure(b))) == ByteSum(b, n)
    decreases n
  {
    hide ClassWeights, SumAt, Product, RoleBytes, ByteMeasure, OneMeasure, Total, Layers, ClassEntries;
    if n == 0 {
      SumAtNothing(ClassWeights(b, OneMeasure()));
      SumAtNothing(ClassWeights(b, ByteMeasure(b)));
    } else {
      SumOfFrames(b, n - 1);
      SumAtAppend(Declared(n - 1), n - 1, ClassWeights(b, OneMeasure()));
      SumAtAppend(Declared(n - 1), n - 1, ClassWeights(b, ByteMeasure(b)));
      WeightAt(b, n - 1, OneMeasure());
      WeightAt(b, n - 1, ByteMeasure(b));
      LengthIsTotal(ClassWalk(b, n - 1));
      ClassEntriesTotals(b, n - 1, Layers(b.layoutTable[n - 1]), b.layoutTable[n - 1].roles);
    }
  }

  lemma {:induction false} SumAtNothing(weights: seq<nat>)
    ensures SumAt(Declared(0), weights) == 0
  {
  }

  lemma {:induction false} NoLayers(b: Begin)
    ensures LayersOf(b, 0) == []
  {
  }

  lemma {:induction false} SumOfKeys(b: Begin, n: nat, l: u32)
    requires n <= |b.layoutTable|
    requires forall i :: 0 <= i < |b.layoutTable| ==> RolesOk(b.layoutTable[i])
    ensures SumAt(Declared(n), ClassWeights(b, KeyMeasure(l))) == multiset(LayersOf(b, n))[l]
    decreases n
  {
    hide ClassWeights, SumAt, KeyMeasure, Total, Layers, ClassEntries, LayersOf;
    if n == 0 {
      SumAtNothing(ClassWeights(b, KeyMeasure(l)));
      NoLayers(b);
    } else {
      SumOfKeys(b, n - 1, l);
      LayersOfStep(b, n - 1);
      SumAtAppend(Declared(n - 1), n - 1, ClassWeights(b, KeyMeasure(l)));
      WeightAt(b, n - 1, KeyMeasure(l));
      ClassEntriesKeys(n - 1, Layers(b.layoutTable[n - 1]), b.layoutTable[n - 1].roles, l);
      CountConcat(LayersOf(b, n - 1), Layers(b.layoutTable[n - 1]), l);
    }
  }

  lemma {:induction false} CountConcat(a: seq<u32>, c: seq<u32>, l: u32)
    ensures multiset(a + c)[l] == multiset(a)[l] + multiset(c)[l]
  {
  }

  lemma {:induction false} EntryClassKnown(b: Begin, order: seq<nat>, p: nat)
    requires p < |OrderWalk(b, order)|
    ensures var e := OrderWalk(b, order)[p];
            e.classIndex < |b.layoutTable| && e.role in b.layoutTable[e.classIndex].roles
    decreases |order|
  {
    hide Layers, ClassEntries;
    var n := |order| - 1;
    var before := OrderWalk(b, order[..n]);
    if p < |before| {
      EntryClassKnown(b, order[..n], p);
    } else {
      ClassEntryKnown(order[n], Layers(b.layoutTable[order[n]]),
                      b.layoutTable[order[n]].roles, p - |before|);
    }
  }

  lemma {:induction false} ClassEntryKnown(i: nat, layers: seq<u32>, roles: seq<Role>, p: nat)
    requires p < |ClassEntries(i, layers, roles)|
    ensures var e := ClassEntries(i, layers, roles)[p]; e.classIndex == i && e.role in roles
    decreases |layers|
  {
    var n := |layers| - 1;
    var before := ClassEntries(i, layers[..n], roles);
    if p < |before| {
      ClassEntryKnown(i, layers[..n], roles, p);
    } else {
      LayerEntryKnown(i, layers[n], roles, p - |before|);
    }
  }

  lemma {:induction false} LayerEntryKnown(i: nat, layer: u32, roles: seq<Role>, p: nat)
    requires p < |LayerEntries(i, layer, roles)|
    ensures var e := LayerEntries(i, layer, roles)[p]; e.classIndex == i && e.role in roles
    decreases |roles|
  {
    var n := |roles| - 1;
    if p >= |LayerEntries(i, layer, roles[..n])| {
    } else {
      LayerEntryKnown(i, layer, roles[..n], p);
    }
  }

  lemma {:induction false} PlaneWithinWidest(b: Begin, c: LayoutClass, role: Role)
    requires role in c.roles
    ensures PlaneBytes(b, c, role) <= WidestPlane(b, c)
  {
    var rows := Product(Product(WindowOf(b, c), c.kvHeads), c.headDim);
    ProductMonotone(rows, ElementBytes(b, role), WidestElement(b, c.roles));
  }

  /** The widest plane of a class is one of its planes, so bounding it bounds
      exactly the planes the class sends. */
  lemma {:induction false} WidestBounds(b: Begin, c: LayoutClass, bound: nat)
    requires RolesOk(c)
    ensures WidestPlane(b, c) <= bound <==> forall role :: role in c.roles ==> PlaneBytes(b, c, role) <= bound
  {
    hide Product;
    assert c.roles[0] == Key && Key in c.roles;
    forall role | role in c.roles ensures PlaneBytes(b, c, role) <= WidestPlane(b, c) {
      PlaneWithinWidest(b, c, role);
    }
  }

  lemma {:induction false} TablePlan(b: Begin, limits: Limits)
    requires ValidBegin(b, limits) && IsV2(b)
    ensures PlanOk(b, limits)
  {
    hide OrderWalk, Total, Schedule, ClassWeights, SumAt, PlaneBytes, Layers, FrameSum, ByteSum,
      OneMeasure, ByteMeasure, KeyMeasure, Declared, PrecisionOk, IdentityOk, WidestPlane, LayersOf;
    var plan, n := Plan(b), |b.layoutTable|;
    assert forall i :: 0 <= i < n ==> ClassOk(b, limits, b.layoutTable[i]);
    LengthIsTotal(plan);
    WalkTotal(b, OneMeasure());
    WalkTotal(b, ByteMeasure(b));
    SumOfFrames(b, n);
    OrderWalkPaired(b, Schedule(b));
    forall l: u32 ensures Total(plan, KeyMeasure(l)) == if l < b.geometry.numLayers then 1 else 0 {
      WalkTotal(b, KeyMeasure(l));
      SumOfKeys(b, n, l);
    }
    forall p | 0 <= p < |plan| ensures EntryBytes(b, plan[p]) <= limits.maxFrameBytes {
      EntryClassKnown(b, Schedule(b), p);
      var e := plan[p];
      assert ClassOk(b, limits, b.layoutTable[e.classIndex]);
      PlaneWithinWidest(b, b.layoutTable[e.classIndex], e.role);
    }
  }

  lemma {:induction false} FlatTotalIsFrames(b: Begin)
    ensures FlatTotal(b) == Product(2 * b.geometry.numLayers, FlatPlaneBytes(b))
  {
    var n, t, h, d := Product(b.geometry.numLayers, 2), b.cachedTokenCount,
                      b.geometry.numKvHeads, b.geometry.headDim;
    AsProduct(b.geometry.numLayers, 2);
    hide Product;
    ProductAssoc(n, t, h);
    ProductAssoc(n, Product(t, h), d);
    ProductAssoc(n, Product(Product(t, h), d), 2);
  }

  /** Bytes of one plane without a table. */
  lemma {:induction false} FlatPlaneIs(b: Begin)
    ensures FlatPlaneBytes(b) == b.cachedTokenCount * b.geometry.numKvHeads * b.geometry.headDim * 2
  {
    AsProduct(b.cachedTokenCount, b.geometry.numKvHeads);
    AsProduct(b.cachedTokenCount * b.geometry.numKvHeads, b.geometry.headDim);
    AsProduct(b.cachedTokenCount * b.geometry.numKvHeads * b.geometry.headDim, 2);
  }

  /** A manifest without a table is accepted exactly if, field by field, it is
      of the first version, within the limits, of one key and one value plane a
      layer each of at most the frame bound, in half precision, and alive. */
  lemma {:induction false} TableFreeBegin(b: Begin, limits: Limits)
    requires b.layoutTable == []
    ensures ValidBegin(b, limits) <==>
              var plane := b.cachedTokenCount * b.geometry.numKvHeads * b.geometry.headDim * 2;
              && b.schemaVersion == 1 && b.protocol == "kvpack-live-f16-le-v1"
              && b.portableAbi == "canonical-kv-f16-le-v1" && b.schedule.None?
              && 0 < b.cachedTokenCount <= limits.maxCachedTokens
              && b.cachedTokenCount < b.geometry.maxContextTokens <= limits.maxContextTokens
              && 0 < b.geometry.numLayers <= limits.maxLayers
              && b.geometry.numKvHeads != 0 && b.geometry.headDim != 0
              && b.expectedLayerFrames == 2 * b.geometry.numLayers
              && b.expectedPayloadBytes == 2 * b.geometry.numLayers * plane <= limits.maxTotalBytes
              && plane <= limits.maxFrameBytes
              && b.precision.compute == "float16" && b.precision.kv == "float16"
              && b.precision.weights in {"q4_k_m", "q4_k_xl", "nvfp4", "mxfp4", "bf16"}
              && 0 < b.createdUnixMs <= limits.nowUnixMs + limits.maxClockSkewMs
              && b.createdUnixMs < b.deadlineUnixMs <= b.createdUnixMs + limits.maxSessionMs < U64_LIMIT
              && limits.nowUnixMs <= b.deadlineUnixMs && IdentityOk(b)
  {
    hide IdentityOk, FlatTotal, FlatPlaneBytes, Product;
    FlatPlaneIs(b);
    FlatTotalIsFrames(b);
    AsProduct(2 * b.geometry.numLayers, FlatPlaneBytes(b));
    if b.geometry.numLayers > 0 {
      AverageOfEqual(2 * b.geometry.numLayers, FlatPlaneBytes(b));
    }
  }

  lemma {:induction false} FlatPlan(b: Begin, limits: Limits)
    requires ValidBegin(b, limits) && !IsV2(b)
    ensures PlanOk(b, limits)
  {
    hide Total, FlatWalk, FlatTotal, FlatPlaneBytes, Product, ByteMeasure, KeyMeasure, IdentityOk,
      PrecisionOk, LifetimeOk;
    var n := b.geometry.numLayers;
    FlatTotalIsFrames(b);
    AverageOfEqual(2 * n, FlatPlaneBytes(b));
    forall l: u32
      ensures |FlatWalk(n)| == 2 * n && Paired(b, FlatWalk(n))
              && Total(FlatWalk(n), ByteMeasure(b)) == Product(2 * n, FlatPlaneBytes(b))
              && Total(FlatWalk(n), KeyMeasure(l)) == if l < n then 1 else 0
    {
      FlatWalkTotals(b, n, l);
    }
    FlatWalkTotals(b, n, 0);
  }

  /** Every manifest the receiver arms has a sound plan, with or without a
      table and under either schedule. */
  lemma {:induction false} ArmedPlan(b: Begin, limits: Limits)
    requires ValidBegin(b, limits)
    ensures PlanOk(b, limits)
  {
    if IsV2(b) {
      TablePlan(b, limits);
    } else {
      FlatPlan(b, limits);
    }
  }
}
