/** Cut manifests and the validator every reader runs on them. */
module CutManifests {
  import opened Machine
  import opened Consts
  import opened Symbols
  import opened StateKeys
  import opened Shapes
  import opened Families
  import PrefixChain

  type SemanticModel = PrefixChain.SemanticModel
  type InputCut = PrefixChain.InputCut

  const MAX_DELTA_DEPTH := 7

  type Shape = s: seq<nat> | 0 < |s| <= MAX_RANK && Positive(s) witness [1]

  datatype Span = Span(tokenStart: u64, tokenCount: u64, offset: u64, bytes: u32)

  datatype ChunkRef = ChunkRef(
    chunkId: Id, objectKey: Id, objectDigest: Id, keyEpoch: u64, plaintextBytes: u32, objectBytes: u32)

  datatype Realized = Realized(
    key: StateKey,
    fullShape: Shape,
    segmentShape: Shape,
    strides: seq<nat>,
    logicalStart: u64,
    logicalCount: u64,
    physicalOffset: u64,
    physicalSpan: u64,
    completePhysical: u64,
    absolutePosition: u64,
    window: u64,
    spans: seq<Span>)

  datatype Payload = Payload(key: StateKey, chunks: seq<ChunkRef>)

  datatype Group = Group(id: u32, states: seq<StateKey>)

  /** A manifest is named by the digest of its canonical encoding. */
  datatype ManifestId = ZeroManifestId | IdOf(manifest: Manifest) | OtherManifestId(tag: nat)

  datatype Kind = Full | Delta(parent: ManifestId, parentCut: InputCut, depth: nat)

  datatype Manifest = Manifest(
    tenant: Id,
    keyEpoch: u64,
    semantic: SemanticModel,
    inputCut: InputCut,
    family: Family,
    kind: Kind,
    realized: seq<Realized>,
    groups: seq<Group>,
    segmentBytes: u64,
    completeBytes: u64,
    states: seq<Payload>)

  datatype Bounds = Bounds(maxStates: nat, maxChunksPerState: nat, maxRestoredBytes: nat)

  // ---------------------------------------------------------------------
  // Chunk spans
  // ---------------------------------------------------------------------

  predicate ChunkRefOk(c: ChunkRef, span: Span) {
    && c.plaintextBytes == span.bytes
    && c.chunkId != ZeroId && c.objectKey != ZeroId && c.objectDigest != ZeroId && c.keyEpoch != 0
    && c.objectBytes % ALIGNMENT == 0 && ALIGNMENT < c.objectBytes <= MAX_CHUNK_OBJECT_BYTES
  }

  predicate SpanOk(span: Span, token: nat, bytesPerToken: nat) {
    && span.tokenStart == token && span.tokenCount > 0
    && span.offset == Product(token, bytesPerToken)
    && span.bytes == Product(span.tokenCount, bytesPerToken)
    && 0 < span.bytes <= MAX_CHUNK_PLAINTEXT
  }

  /** A contiguous token and byte partition of `[token, end)`. */
  predicate SpansOk(spans: seq<Span>, chunks: seq<ChunkRef>, token: nat, end: nat, bytesPerToken: nat)
    requires |spans| == |chunks|
  {
    if spans == [] then token == end
    else
      && SpanOk(spans[0], token, bytesPerToken) && ChunkRefOk(chunks[0], spans[0])
      && SpansOk(spans[1..], chunks[1..], token + spans[0].tokenCount, end, bytesPerToken)
  }

  lemma {:induction false} SpansAdvance(
      spans: seq<Span>, chunks: seq<ChunkRef>, token: nat, end: nat, bytesPerToken: nat)
    requires |spans| == |chunks| && SpansOk(spans, chunks, token, end, bytesPerToken)
    ensures token <= end
    decreases |spans|
  {
    if spans == [] {
    } else {
      SpansAdvance(spans[1..], chunks[1..], token + spans[0].tokenCount, end, bytesPerToken);
    }
  }

  method ValidateSpans(spans: seq<Span>, chunks: seq<ChunkRef>, start: u64, count: u64, bytesPerToken: u64)
    returns (ok: bool)
    requires |spans| == |chunks| && bytesPerToken > 0
    ensures ok <==>
              && Product(start + count, bytesPerToken) < U64_LIMIT
              && SpansOk(spans, chunks, start, start + count, bytesPerToken)
  {
    hide Product, ChunkRefOk;
    var token: nat, end := start, start + count;
    var offset: nat := Product(start, bytesPerToken);
    ProductMonotone(bytesPerToken, start, end);
    ProductMonotone(bytesPerToken, end, end);
    if offset >= U64_LIMIT {
      return false;
    }
    for i := 0 to |spans|
      invariant token < U64_LIMIT && offset == Product(token, bytesPerToken) < U64_LIMIT
      invariant SpansOk(spans, chunks, start, end, bytesPerToken) <==>
                  SpansOk(spans[i..], chunks[i..], token, end, bytesPerToken)
    {
      assert spans[i..][1..] == spans[i + 1..] && chunks[i..][1..] == chunks[i + 1..];
      var span, chunk := spans[i], chunks[i];
      if span.tokenStart != token || span.tokenCount == 0 || span.offset != offset {
        return false;
      }
      var bytes := Product(span.tokenCount, bytesPerToken);
      if bytes >= U64_LIMIT || bytes != span.bytes || bytes == 0 || bytes > MAX_CHUNK_PLAINTEXT {
        return false;
      }
      if !ChunkRefOk(chunk, span) {
        return false;
      }
      ProductDistributes(bytesPerToken, token, span.tokenCount);
      ProductAssoc(bytesPerToken, token, 1);
      ProductAssoc(bytesPerToken, span.tokenCount, 1);
      ProductAssoc(bytesPerToken, token + span.tokenCount, 1);
      token := token + span.tokenCount;
      offset := offset + bytes;
      if token >= U64_LIMIT || offset >= U64_LIMIT {
        TooFar(spans[i + 1..], chunks[i + 1..], token, end, bytesPerToken);
        return false;
      }
    }
    if end >= U64_LIMIT || Product(end, bytesPerToken) >= U64_LIMIT {
      return false;
    }
    return token == end && offset == Product(end, bytesPerToken);
  }

  /** Past the 64-bit range no partition reaches a representable end. */
  lemma {:induction false} TooFar(
      spans: seq<Span>, chunks: seq<ChunkRef>, token: nat, end: nat, bytesPerToken: nat)
    requires |spans| == |chunks| && bytesPerToken > 0
    requires token >= U64_LIMIT || Product(token, bytesPerToken) >= U64_LIMIT
    ensures !(Product(end, bytesPerToken) < U64_LIMIT && SpansOk(spans, chunks, token, end, bytesPerToken))
  {
    hide Product, SpansOk;
    if SpansOk(spans, chunks, token, end, bytesPerToken) {
      SpansAdvance(spans, chunks, token, end, bytesPerToken);
      ProductMonotone(bytesPerToken, token, end);
    }
  }

  // ---------------------------------------------------------------------
  // One state
  // ---------------------------------------------------------------------

  function CutStart(kind: Kind): nat {
    match kind
    case Full => 0
    case Delta(_, parentCut, _) => parentCut.tokenCount
  }

  function RangeStart(fs: FamilyState, r: Realized, kind: Kind, cut: nat): int {
    if fs.rule.TailWindow? then cut - r.logicalCount else CutStart(kind)
  }

  function RangeCount(fs: FamilyState, r: Realized, kind: Kind, cut: nat): int {
    if fs.rule.TailWindow? then r.logicalCount else cut - CutStart(kind)
  }

  function FullTokens(fs: FamilyState, r: Realized, cut: nat): nat {
    if fs.rule.TailWindow? then r.logicalCount else cut
  }

  function BytesPerToken(fs: FamilyState): nat {
    Product(fs.elementsPerToken, fs.width)
  }

  predicate TailOk(fs: FamilyState, r: Realized, kind: Kind, cut: nat) {
    fs.rule.TailWindow? ==> kind.Full? && 0 < r.logicalCount <= cut
  }

  /** The declared range, position and shapes. */
  predicate RangeOk(fs: FamilyState, r: Realized, kind: Kind, cut: nat) {
    && CutStart(kind) < cut && TailOk(fs, r, kind, cut)
    && r.fullShape == ShapeFor(fs.dims, FullTokens(fs, r, cut))
    && r.segmentShape == ShapeFor(fs.dims, RangeCount(fs, r, kind, cut))
    && r.logicalStart == RangeStart(fs, r, kind, cut) && r.logicalCount == RangeCount(fs, r, kind, cut)
    && r.absolutePosition == cut && r.window == 0
  }

  predicate StridesOk(fs: FamilyState, r: Realized) {
    && |r.strides| == |r.fullShape| && Positive(r.strides)
    && (fs.contiguous ==> Volume(r.fullShape) < U64_LIMIT && r.strides == Strides(r.fullShape))
  }

  function OffsetTokens(fs: FamilyState, r: Realized): nat {
    if fs.rule.TailWindow? then 0 else r.logicalStart
  }

  predicate FootprintsOk(fs: FamilyState, r: Realized)
    requires |r.strides| == |r.fullShape| == |r.segmentShape| && fs.tokenAxis < |r.strides|
  {
    && r.physicalOffset == Product(Product(OffsetTokens(fs, r), r.strides[fs.tokenAxis]), fs.width)
    && r.physicalSpan == Footprint(r.segmentShape, r.strides, fs.width)
    && r.completePhysical == Footprint(r.fullShape, r.strides, fs.width)
  }

  predicate BytesOk(fs: FamilyState, r: Realized) {
    && Product(Volume(r.segmentShape), fs.width) < U64_LIMIT
    && Product(Volume(r.fullShape), fs.width) < U64_LIMIT
    && 0 < BytesPerToken(fs) <= MAX_CHUNK_PLAINTEXT
  }

  predicate ChunksOk(fs: FamilyState, r: Realized, p: Payload, maxChunks: nat) {
    && 0 < |r.spans| <= maxChunks && |p.chunks| == |r.spans|
    && Product(r.logicalStart + r.logicalCount, BytesPerToken(fs)) < U64_LIMIT
    && SpansOk(r.spans, p.chunks, r.logicalStart, r.logicalStart + r.logicalCount, BytesPerToken(fs))
  }

  predicate StateOk(fs: FamilyState, r: Realized, p: Payload, kind: Kind, cut: nat, maxChunks: nat)
    requires OneToken(fs.dims, fs.tokenAxis)
  {
    && fs.key == r.key == p.key
    && RangeOk(fs, r, kind, cut) && StridesOk(fs, r) && BytesOk(fs, r) && FootprintsOk(fs, r)
    && ChunksOk(fs, r, p, maxChunks)
  }

  /** Shape equality, dimension by dimension. */
  method ValidateShape(shape: Shape, fs: FamilyState, tokens: nat) returns (ok: bool)
    requires OneToken(fs.dims, fs.tokenAxis)
    ensures ok <==> shape == ShapeFor(fs.dims, tokens)
  {
    if |shape| != |fs.dims| {
      return false;
    }
    for i := 0 to |shape|
      invariant forall j :: 0 <= j < i ==> shape[j] == ShapeFor(fs.dims, tokens)[j]
    {
      var expected := if fs.dims[i].Token? then tokens else fs.dims[i].extent;
      if shape[i] != expected || (i == fs.tokenAxis) != fs.dims[i].Token? {
        return false;
      }
    }
    return true;
  }

  /** Row-major strides, checked from the innermost axis outwards. */
  method ValidateStrides(shape: Shape, strides: seq<nat>) returns (ok: bool)
    requires |strides| == |shape|
    ensures ok <==> Volume(shape) < U64_LIMIT && strides == Strides(shape)
  {
    hide Product, Volume, Strides;
    var expected := 1;
    assert shape[|shape|..] == [];
    EmptyVolume();
    assert Strides([]) == [] && strides[|shape|..] == [];
    for i := |shape| downto 0
      invariant expected == Volume(shape[i..]) < U64_LIMIT && strides[i..] == Strides(shape[i..])
    {
      StridesStep(shape, strides, i);
      if strides[i] != expected {
        return false;
      }
      assert shape == shape[..i] + shape[i..];
      VolumeOfPart(shape[..i], shape[i..]);
      ProductAssoc(shape[i], expected, 1);
      expected := Product(expected, shape[i]);
      if expected >= U64_LIMIT {
        return false;
      }
    }
    assert shape[0..] == shape && strides[0..] == strides;
    return true;
  }

  lemma {:induction false} StridesStep(shape: seq<nat>, strides: seq<nat>, i: nat)
    requires |strides| == |shape| && i < |shape| && strides[i + 1..] == Strides(shape[i + 1..])
    ensures Volume(shape[i..]) == Product(shape[i], Volume(shape[i + 1..]))
    ensures strides[i..] == Strides(shape[i..]) <==> strides[i] == Volume(shape[i + 1..])
    ensures strides[i] != Volume(shape[i + 1..]) ==> strides != Strides(shape)
  {
    assert shape[i..][1..] == shape[i + 1..];
    StridesAt(shape, i);
  }

  lemma {:induction false} StridesAt(shape: seq<nat>, i: nat)
    requires i < |shape|
    ensures Strides(shape)[i] == Volume(shape[i + 1..])
    decreases |shape|
  {
    if i == 0 {
    } else {
      StridesAt(shape[1..], i - 1);
      assert shape[1..][i..] == shape[i + 1..];
    }
  }

  method ValidateRange(fs: FamilyState, r: Realized, kind: Kind, cut: u64) returns (ok: bool)
    requires OneToken(fs.dims, fs.tokenAxis) && CutStart(kind) < cut
    ensures ok <==> RangeOk(fs, r, kind, cut)
  {
    hide ShapeFor;
    var start, count, full := CutStart(kind), cut - CutStart(kind), cut;
    if fs.rule.TailWindow? {
      if !kind.Full? || r.logicalCount == 0 || r.logicalCount > cut {
        return false;
      }
      start, count, full := cut - r.logicalCount, r.logicalCount, r.logicalCount;
    }
    var fullShape := ValidateShape(r.fullShape, fs, full);
    if !fullShape {
      return false;
    }
    var segmentShape := ValidateShape(r.segmentShape, fs, count);
    if !segmentShape {
      return false;
    }
    return r.logicalStart == start && r.logicalCount == count && r.absolutePosition == cut && r.window == 0;
  }

  /** `x * y * width`, each product checked. */
  method CheckedOffset(x: u64, y: nat, width: u64) returns (r: Option<u64>)
    requires width > 0
    ensures r == if Product(Product(x, y), width) < U64_LIMIT then Some(Product(Product(x, y), width)) else None
  {
    var elements := Product(x, y);
    hide Product;
    ProductMonotone(width, elements, elements);
    var bytes := Product(elements, width);
    if elements >= U64_LIMIT || bytes >= U64_LIMIT {
      return None;
    }
    return Some(bytes);
  }

  method CheckedBytes(shape: Shape, width: u64) returns (r: Option<u64>)
    requires width > 0
    ensures r == if Product(Volume(shape), width) < U64_LIMIT then Some(Product(Volume(shape), width)) else None
  {
    hide Product, Volume;
    ProductMonotone(width, Volume(shape), Volume(shape));
    var count := ElementCount(shape);
    if count.None? {
      return None;
    }
    var bytes := Product(count.value, width);
    if bytes >= U64_LIMIT {
      return None;
    }
    return Some(bytes);
  }

  method ValidateFootprints(fs: FamilyState, r: Realized) returns (ok: bool)
    requires |r.strides| == |r.fullShape| == |r.segmentShape| && fs.tokenAxis < |r.strides| && fs.width > 0
    ensures ok <==> FootprintsOk(fs, r)
  {
    hide Product, Footprint;
    var offset := CheckedOffset(OffsetTokens(fs, r), r.strides[fs.tokenAxis], fs.width);
    if offset.None? {
      return false;
    }
    var span := PhysicalFootprint(r.segmentShape, r.strides, fs.width);
    if span.None? {
      return false;
    }
    var complete := PhysicalFootprint(r.fullShape, r.strides, fs.width);
    if complete.None? {
      return false;
    }
    return && r.physicalOffset == offset.value && r.physicalSpan == span.value
           && r.completePhysical == complete.value;
  }

  method ValidateChunks(fs: FamilyState, r: Realized, p: Payload, maxChunks: nat) returns (ok: bool)
    requires 0 < BytesPerToken(fs) < U64_LIMIT
    ensures ok <==> ChunksOk(fs, r, p, maxChunks)
  {
    hide Product, SpansOk;
    if |r.spans| == 0 || |r.spans| > maxChunks || |p.chunks| != |r.spans| {
      return false;
    }
    ok := ValidateSpans(r.spans, p.chunks, r.logicalStart, r.logicalCount, BytesPerToken(fs));
  }

  /** One state of a manifest, and the bytes it restores. */
  method ValidateState(fs: FamilyState, r: Realized, p: Payload, kind: Kind, cut: u64, maxChunks: nat)
    returns (ok: bool, segment: u64, complete: u64)
    requires OneToken(fs.dims, fs.tokenAxis) && WidthOk(fs.width) && CutStart(kind) < cut
    ensures ok <==> StateOk(fs, r, p, kind, cut, maxChunks)
    ensures ok ==>
              segment == Product(Volume(r.segmentShape), fs.width) && complete == Product(Volume(r.fullShape), fs.width)
  {
    hide RangeOk, Product, Volume, Strides, FootprintsOk, ChunksOk, OneToken, BytesPerToken;
    segment, complete := 0, 0;
    if fs.key != r.key || r.key != p.key {
      return false, 0, 0;
    }
    var range := ValidateRange(fs, r, kind, cut);
    if !range {
      return false, 0, 0;
    }
    RangeRanks(fs, r, kind, cut);
    if |r.strides| != |r.fullShape| || exists i :: 0 <= i < |r.strides| && r.strides[i] == 0 {
      return false, 0, 0;
    }
    if fs.contiguous {
      var strides := ValidateStrides(r.fullShape, r.strides);
      if !strides {
        return false, 0, 0;
      }
    }
    var segmentBytes := CheckedBytes(r.segmentShape, fs.width);
    if segmentBytes.None? {
      return false, 0, 0;
    }
    var completeBytes := CheckedBytes(r.fullShape, fs.width);
    if completeBytes.None? {
      return false, 0, 0;
    }
    var footprints := ValidateFootprints(fs, r);
    if !footprints {
      return false, 0, 0;
    }
    if BytesPerToken(fs) == 0 || BytesPerToken(fs) > MAX_CHUNK_PLAINTEXT {
      return false, 0, 0;
    }
    var chunks := ValidateChunks(fs, r, p, maxChunks);
    return chunks, segmentBytes.value, completeBytes.value;
  }

  lemma {:induction false} RangeRanks(fs: FamilyState, r: Realized, kind: Kind, cut: nat)
    requires OneToken(fs.dims, fs.tokenAxis) && RangeOk(fs, r, kind, cut)
    ensures |r.fullShape| == |r.segmentShape| == |fs.dims| && fs.tokenAxis < |fs.dims|
  {
  }

  // ---------------------------------------------------------------------
  // Atomic groups
  // ---------------------------------------------------------------------

  function Members(g: Group): set<StateKey> {
    set k | k in g.states
  }

  function Grouped(groups: seq<Group>): set<StateKey> {
    if groups == [] then {} else Grouped(groups[..|groups| - 1]) + Members(groups[|groups| - 1])
  }

  predicate GroupOk(g: Group, keys: set<StateKey>) {
    g.id > 0 && Ascending(g.states) && Members(g) <= keys
  }

  predicate Follows(a: Group, b: Group) {
    a.id < b.id && Members(a) !! Members(b)
  }

  /** Groups in id order, each in key order, no key twice. */
  predicate GroupsFit(groups: seq<Group>, keys: set<StateKey>) {
    && (forall i :: 0 <= i < |groups| ==> GroupOk(groups[i], keys))
    && (forall i, j :: 0 <= i < j < |groups| ==> Follows(groups[i], groups[j]))
  }

  /** Together they hold every key. */
  predicate GroupsOk(groups: seq<Group>, keys: set<StateKey>) {
    GroupsFit(groups, keys) && Grouped(groups) == keys
  }

  lemma {:induction false} GroupedHas(groups: seq<Group>, k: StateKey)
    ensures k in Grouped(groups) <==> exists i :: 0 <= i < |groups| && k in Members(groups[i])
    decreases |groups|
  {
    if groups == [] {
    } else {
      var n := |groups| - 1;
      GroupedHas(groups[..n], k);
      assert forall i :: 0 <= i < n ==> groups[..n][i] == groups[i];
      if i :| 0 <= i < n && k in Members(groups[..n][i]) {
        assert k in Members(groups[i]);
      }
    }
  }

  lemma {:induction false} GroupsStep(groups: seq<Group>, n: nat, keys: set<StateKey>)
    requires n < |groups|
    ensures Grouped(groups[..n + 1]) == Grouped(groups[..n]) + Members(groups[n])
    ensures GroupsFit(groups[..n + 1], keys) <==>
              && GroupsFit(groups[..n], keys) && GroupOk(groups[n], keys)
              && Members(groups[n]) !! Grouped(groups[..n])
              && (forall i :: 0 <= i < n ==> groups[i].id < groups[n].id)
    ensures GroupsFit(groups, keys) ==> GroupsFit(groups[..n + 1], keys)
  {
    hide GroupOk, Members, Grouped;
    var a, b, g := groups[..n], groups[..n + 1], groups[n];
    assert b == a + [g];
    GroupedUnfold(a, g);
    assert (forall i :: 0 <= i < n ==> Members(a[i]) !! Members(g)) <==> Members(g) !! Grouped(a) by {
      forall k | k in Members(g) ensures k in Grouped(a) <==> exists i :: 0 <= i < |a| && k in Members(a[i]) {
        GroupedHas(a, k);
      }
    }
    assert forall i :: 0 <= i < n ==> a[i] == b[i] == groups[i];
    assert b[n] == g;
  }

  lemma {:induction false} GroupedUnfold(groups: seq<Group>, g: Group)
    ensures Grouped(groups + [g]) == Grouped(groups) + Members(g)
  {
    assert (groups + [g])[..|groups|] == groups;
  }

  method ValidateGroup(g: Group, keys: set<StateKey>, observed: set<StateKey>)
    returns (ok: bool, after: set<StateKey>)
    ensures ok <==> Ascending(g.states) && Members(g) <= keys && Members(g) !! observed
    ensures ok ==> after == observed + Members(g)
  {
    hide KeyLess;
    after := observed;
    for i := 0 to |g.states|
      invariant Ascending(g.states[..i])
      invariant after == observed + set k | k in g.states[..i]
      invariant forall k :: k in g.states[..i] ==> k in keys && k !in observed
    {
      var state := g.states[i];
      assert state in Members(g);
      assert g.states[..i + 1] == g.states[..i] + [state];
      if state !in keys {
        return false, observed;
      }
      if i > 0 && !KeyLess(g.states[i - 1], state) {
        return false, observed;
      }
      if state in after {
        NotTwice(g.states, i);
        return false, observed;
      }
      after := after + {state};
    }
    assert g.states[..|g.states|] == g.states;
    return true, after;
  }

  lemma {:induction false} NotTwice(keys: seq<StateKey>, i: nat)
    requires i < |keys|
    ensures keys[i] in keys[..i] ==> !Ascending(keys)
  {
    hide Ascending;
    if keys[i] in keys[..i] && Ascending(keys) {
      var j :| 0 <= j < i && keys[j] == keys[i];
      AscendingDistinct(keys, j, i);
    }
  }

  method ValidateGroups(groups: seq<Group>, keys: set<StateKey>) returns (ok: bool)
    ensures ok <==> GroupsOk(groups, keys)
  {
    hide GroupOk, Members, Grouped, Ascending;
    var observed: set<StateKey> := {};
    var previous := 0;
    NoGroups(keys);
    assert groups[..0] == [];
    for n := 0 to |groups|
      invariant GroupsFit(groups[..n], keys) && observed == Grouped(groups[..n])
      invariant if n == 0 then previous == 0 else previous == groups[n - 1].id
    {
      var g := groups[n];
      GroupsStep(groups, n, keys);
      GroupParts(g, keys);
      LastIdIsLargest(groups, n, keys);
      if g.id == 0 || g.id <= previous {
        return false;
      }
      previous := g.id;
      var fits, after := ValidateGroup(g, keys, observed);
      if !fits {
        return false;
      }
      observed := after;
    }
    assert groups[..|groups|] == groups;
    return observed == keys;
  }

  lemma {:induction false} NoGroups(keys: set<StateKey>)
    ensures GroupsFit([], keys) && Grouped([]) == {}
  {
  }

  lemma {:induction false} GroupParts(g: Group, keys: set<StateKey>)
    ensures GroupOk(g, keys) <==> g.id > 0 && Ascending(g.states) && Members(g) <= keys
  {
  }

  lemma {:induction false} LastIdIsLargest(groups: seq<Group>, n: nat, keys: set<StateKey>)
    requires n < |groups| && GroupsFit(groups[..n], keys)
    ensures n > 0 ==>
              (groups[n - 1].id < groups[n].id <==> forall i :: 0 <= i < n ==> groups[i].id < groups[n].id)
  {
    hide GroupOk, Members;
    var a := groups[..n];
    assert forall i :: 0 <= i < n ==> a[i] == groups[i];
    assert forall i :: 0 <= i < n - 1 ==> Follows(a[i], a[n - 1]);
  }

  // ---------------------------------------------------------------------
  // The manifest
  // ---------------------------------------------------------------------

  predicate SemanticOk(s: SemanticModel) {
    && s.weightsConfig != ZeroId && s.adapters != ZeroId && s.tokenizerTemplate != ZeroId
    && s.positionSemantics != ZeroId && s.qualifiedMath != ZeroId
  }

  predicate CutIdOk(c: InputCut) {
    c.tokenRoot != ZeroId && c.auxiliaryRoot != ZeroId && 0 < c.tokenCount < U64_LIMIT
  }

  predicate IdentitiesOk(m: Manifest) {
    m.tenant != ZeroId && m.keyEpoch != 0 && SemanticOk(m.semantic) && CutIdOk(m.inputCut)
  }

  predicate KindOk(m: Manifest) {
    match m.kind
    case Full => true
    case Delta(parent, parentCut, depth) =>
      && parent != ZeroManifestId && CutIdOk(parentCut) && 1 <= depth <= MAX_DELTA_DEPTH
      && parentCut.auxiliaryRoot == m.inputCut.auxiliaryRoot
      && parentCut.tokenCount < m.inputCut.tokenCount
  }

  function KeySet(states: seq<FamilyState>): set<StateKey> {
    set k | k in KeysOf(states)
  }

  predicate CountsOk(m: Manifest, bounds: Bounds) {
    |m.realized| == |m.family.states| == |m.states| <= bounds.maxStates
  }

  function SegmentTotal(m: Manifest, n: nat): nat
    requires n <= |m.realized| && n <= |m.family.states|
  {
    if n == 0 then 0
    else SegmentTotal(m, n - 1) + Product(Volume(m.realized[n - 1].segmentShape), m.family.states[n - 1].width)
  }

  function CompleteTotal(m: Manifest, n: nat): nat
    requires n <= |m.realized| && n <= |m.family.states|
  {
    if n == 0 then 0
    else CompleteTotal(m, n - 1) + Product(Volume(m.realized[n - 1].fullShape), m.family.states[n - 1].width)
  }

  ghost predicate StatesOk(m: Manifest, maxChunks: nat, n: nat)
    requires n <= |m.realized| && |m.realized| == |m.family.states| == |m.states|
  {
    forall i :: 0 <= i < n ==>
      && OneToken(m.family.states[i].dims, m.family.states[i].tokenAxis)
      && StateOk(m.family.states[i], m.realized[i], m.states[i], m.kind, m.inputCut.tokenCount, maxChunks)
  }

  ghost predicate ManifestOk(m: Manifest, bounds: Bounds) {
    && IdentitiesOk(m) && FamilyOk(m.family) && KindOk(m) && CountsOk(m, bounds)
    && GroupsOk(m.groups, KeySet(m.family.states))
    && StatesOk(m, bounds.maxChunksPerState, |m.realized|)
    && m.segmentBytes == SegmentTotal(m, |m.realized|)
    && m.completeBytes == CompleteTotal(m, |m.realized|) && m.completeBytes <= bounds.maxRestoredBytes
  }

  /** All states and both byte totals. */
  method ValidateStates(m: Manifest, maxChunks: nat) returns (ok: bool, segmentTotal: nat, completeTotal: nat)
    requires FamilyOk(m.family) && |m.realized| == |m.family.states| == |m.states|
    requires CutStart(m.kind) < m.inputCut.tokenCount < U64_LIMIT
    ensures ok <==>
              && StatesOk(m, maxChunks, |m.realized|)
              && SegmentTotal(m, |m.realized|) < U64_LIMIT && CompleteTotal(m, |m.realized|) < U64_LIMIT
    ensures ok ==>
              segmentTotal == SegmentTotal(m, |m.realized|) && completeTotal == CompleteTotal(m, |m.realized|)
  {
    hide FamilyOk, StateOk, OneToken, Product, Volume, WidthOk, SegmentTotal, CompleteTotal;
    segmentTotal, completeTotal := 0, 0;
    TotalsStart(m);
    for n := 0 to |m.realized|
      invariant segmentTotal == SegmentTotal(m, n) < U64_LIMIT
      invariant completeTotal == CompleteTotal(m, n) < U64_LIMIT
      invariant StatesOk(m, maxChunks, n)
    {
      FamilyAxes(m.family, n);
      TotalsGrow(m, n + 1);
      TotalsStep(m, n);
      var state, segment, complete := ValidateState(
        m.family.states[n], m.realized[n], m.states[n], m.kind, m.inputCut.tokenCount, maxChunks);
      if !state {
        return false, 0, 0;
      }
      segmentTotal := segmentTotal + segment;
      completeTotal := completeTotal + complete;
      if segmentTotal >= U64_LIMIT || completeTotal >= U64_LIMIT {
        return false, 0, 0;
      }
    }
    return true, segmentTotal, completeTotal;
  }

  method ValidateManifest(m: Manifest, bounds: Bounds) returns (ok: bool)
    requires forall i :: 0 <= i < |m.family.states| ==> WidthOk(m.family.states[i].width)
    requires m.inputCut.tokenCount < U64_LIMIT
    requires m.kind.Delta? ==> m.kind.parentCut.tokenCount < U64_LIMIT
    ensures ok <==> ManifestOk(m, bounds)
  {
    hide FamilyOk, GroupsOk, StatesOk, SemanticOk, WidthOk, SegmentTotal, CompleteTotal;
    if !IdentitiesOk(m) {
      return false;
    }
    var family := ValidateFamily(m.family);
    if !family || !KindOk(m) || !CountsOk(m, bounds) {
      return false;
    }
    var groups := ValidateGroups(m.groups, KeySet(m.family.states));
    if !groups {
      return false;
    }
    var states, segmentTotal, completeTotal := ValidateStates(m, bounds.maxChunksPerState);
    return && states && m.segmentBytes == segmentTotal && m.completeBytes == completeTotal
           && m.completeBytes <= bounds.maxRestoredBytes;
  }

  lemma {:induction false} FamilyAxes(f: Family, n: nat)
    requires FamilyOk(f) && n < |f.states|
    ensures OneToken(f.states[n].dims, f.states[n].tokenAxis) && WidthOk(f.states[n].width)
  {
    hide FixedVolume, DependenciesOk, Ascending, OneToken;
    assert FamilyStateOk(f.portable, f.states[n]);
  }

  lemma {:induction false} TotalsStart(m: Manifest)
    ensures SegmentTotal(m, 0) == 0 && CompleteTotal(m, 0) == 0
  {
  }

  lemma {:induction false} TotalsStep(m: Manifest, n: nat)
    requires n < |m.realized| && n < |m.family.states|
    ensures SegmentTotal(m, n + 1) ==
            SegmentTotal(m, n) + Product(Volume(m.realized[n].segmentShape), m.family.states[n].width)
    ensures CompleteTotal(m, n + 1) ==
            CompleteTotal(m, n) + Product(Volume(m.realized[n].fullShape), m.family.states[n].width)
  {
  }

  lemma {:induction false} TotalsGrow(m: Manifest, n: nat)
    requires n <= |m.realized| == |m.family.states|
    ensures SegmentTotal(m, n) <= SegmentTotal(m, |m.realized|)
    ensures CompleteTotal(m, n) <= CompleteTotal(m, |m.realized|)
    decreases |m.realized| - n
  {
    hide Product, Volume, SegmentTotal, CompleteTotal;
    if n >= |m.realized| {
    } else {
      TotalsStep(m, n);
      TotalsGrow(m, n + 1);
    }
  }
}
