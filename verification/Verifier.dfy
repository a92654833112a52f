/** The incremental verifier of one BEGIN, planes, SEAL stream. */
module Verifier {
  import opened Machine
  import opened HandoffTypes
  import opened Layout
  import opened BeginValidation
  import opened LittleEndian

  datatype VerifyError =
    | AfterSeal
    | OutsideTable
    | InvertedRange
    | ByteBoundOverflow
    | HeaderMismatch
    | FrameBound
    | LengthOrDigest
    | NotFinite
    | ByteCountOverflow
    | TotalBound
    | AlreadySealed
    | ChainDisagrees
    | SealRejected
    | ArtifactDisagrees

  // ---------------------------------------------------------------------
  // Batch definitions
  // ---------------------------------------------------------------------

  function PayloadDigest(payload: seq<byte>): Hex {
    Sha256([Bytes(payload)])
  }

  function HeaderItems(headers: seq<Header>): seq<Item> {
    if headers == [] then []
    else
      var n := |headers| - 1;
      HeaderItems(headers[..n]) + [HeaderJson(headers[n]), Newline]
  }

  function DescriptorItems(headers: seq<Header>): seq<Item> {
    [Domain("kvpack-live-descriptor-chain-v1")] + HeaderItems(headers)
  }

  function ArtifactItems(b: Begin, headers: seq<Header>): seq<Item> {
    [Domain("kvpack-live-artifact-v1"), BeginJson(b), Newline] + HeaderItems(headers)
  }

  function DescriptorChain(headers: seq<Header>): Hex {
    Sha256(DescriptorItems(headers))
  }

  function ArtifactDigest(b: Begin, headers: seq<Header>, core: SealCore): Hex {
    Sha256(ArtifactItems(b, headers) + [CoreJson(core)])
  }

  lemma {:induction false} HeaderItemsStep(headers: seq<Header>, h: Header)
    ensures HeaderItems(headers + [h]) == HeaderItems(headers) + [HeaderJson(h), Newline]
  {
    assert (headers + [h])[..|headers|] == headers;
  }

  method DescriptorChainSha256(headers: seq<Header>) returns (digest: Hex)
    ensures digest == DescriptorChain(headers)
  {
    var hash := [Domain("kvpack-live-descriptor-chain-v1")];
    for n := 0 to |headers|
      invariant hash == DescriptorItems(headers[..n])
    {
      HeaderItemsStep(headers[..n], headers[n]);
      assert headers[..n] + [headers[n]] == headers[..n + 1];
      hash := hash + [HeaderJson(headers[n]), Newline];
    }
    assert headers[..|headers|] == headers;
    digest := Sha256(hash);
  }

  method ArtifactSha256(b: Begin, headers: seq<Header>, core: SealCore) returns (digest: Hex)
    ensures digest == ArtifactDigest(b, headers, core)
  {
    var hash := [Domain("kvpack-live-artifact-v1"), BeginJson(b), Newline];
    for n := 0 to |headers|
      invariant hash == ArtifactItems(b, headers[..n])
    {
      HeaderItemsStep(headers[..n], headers[n]);
      assert headers[..n] + [headers[n]] == headers[..n + 1];
      hash := hash + [HeaderJson(headers[n]), Newline];
    }
    assert headers[..|headers|] == headers;
    digest := Sha256(hash + [CoreJson(core)]);
  }

  /** What a keyed tag covers: the same items under a domain of their own. */
  function MacItems(b: Begin, headers: seq<Header>): seq<Item> {
    [Domain("kvpack-live-artifact-mac-v1"), BeginJson(b), Newline] + HeaderItems(headers)
  }

  function ArtifactTag(b: Begin, headers: seq<Header>, core: SealCore, key: nat): Hex {
    Hmac(key, MacItems(b, headers) + [CoreJson(core)])
  }

  method ArtifactMac(b: Begin, headers: seq<Header>, core: SealCore, key: nat) returns (tag: Hex)
    ensures tag == ArtifactTag(b, headers, core, key)
  {
    var stream := [Domain("kvpack-live-artifact-mac-v1"), BeginJson(b), Newline];
    for n := 0 to |headers|
      invariant stream == MacItems(b, headers[..n])
    {
      HeaderItemsStep(headers[..n], headers[n]);
      assert headers[..n] + [headers[n]] == headers[..n + 1];
      stream := stream + [HeaderJson(headers[n]), Newline];
    }
    assert headers[..|headers|] == headers;
    tag := Hmac(key, stream + [CoreJson(core)]);
  }

  // ---------------------------------------------------------------------
  // One header against the plan
  // ---------------------------------------------------------------------

  predicate DtypeOk(b: Begin, c: LayoutClass, role: Role, tag: Option<string>) {
    var expected := if IsPrerope(b) && role.Key? then "float32" else c.dtype;
    if tag.Some? then tag.value == expected else expected == "float16"
  }

  function CheckTableHeader(b: Begin, s: u32, e: Entry, h: Header): Result<bool, VerifyError>
    requires e.classIndex < |b.layoutTable|
  {
    var c := b.layoutTable[e.classIndex];
    var start := b.cachedTokenCount - WindowOf(b, c);
    if h.tokenEnd < h.tokenStart then Err(InvertedRange)
    else
      var rangeLen := h.tokenEnd - h.tokenStart;
      var bytes := Product(Product(Product(rangeLen, c.kvHeads), c.headDim), ElementBytes(b, e.role));
      if bytes >= U64_LIMIT then Err(ByteBoundOverflow)
      else if
        && h.schemaVersion == SCHEMA_V1 && h.transferId == b.transferId && h.sequence == s
        && h.layer == e.layer && h.role == e.role && h.layoutClass == Some(c.name)
        && h.tokenStart == start && h.tokenEnd == b.cachedTokenCount
        && h.shape == (rangeLen, c.kvHeads, c.headDim) && h.byteLength == bytes
        && DtypeOk(b, c, e.role, h.dtype) && ValidSha256(h.sha256)
      then Ok(true)
      else Err(HeaderMismatch)
  }

  function CheckFlatHeader(b: Begin, s: u32, h: Header): Result<bool, VerifyError>
    requires b.expectedLayerFrames > 0
  {
    if
      && h.schemaVersion == SCHEMA_V1 && h.transferId == b.transferId && h.sequence == s
      && h.layer == s / 2 && h.role == (if s % 2 == 0 then Key else Value)
      && h.tokenStart == 0 && h.tokenEnd == b.cachedTokenCount
      && h.shape == (b.cachedTokenCount, b.geometry.numKvHeads, b.geometry.headDim)
      && h.byteLength == FlatTotal(b) / b.expectedLayerFrames
      && ValidSha256(h.sha256) && h.dtype.None? && h.layoutClass.None?
    then Ok(true)
    else Err(HeaderMismatch)
  }

  lemma {:induction false} WalkEntryKnown(b: Begin, s: nat)
    requires s < |Walk(b)|
    ensures Walk(b)[s].classIndex < |b.layoutTable|
  {
    EntryClassKnown(b, Schedule(b), s);
  }

  function CheckHeader(b: Begin, s: u32, h: Header): Result<bool, VerifyError>
    requires b.expectedLayerFrames > 0
  {
    if IsV2(b) then
      if s < |Walk(b)| then WalkEntryKnown(b, s); CheckTableHeader(b, s, Walk(b)[s], h)
      else Err(OutsideTable)
    else CheckFlatHeader(b, s, h)
  }

  /** What a header says about its plane: the tokens it covers, which are the
      newest `windowTokens` of its class or all of them, and its size. */
  predicate PlaneFields(b: Begin, s: nat, h: Header) {
    if b.layoutTable != [] then
      && s < |Walk(b)| && Walk(b)[s].classIndex < |b.layoutTable|
      && var c := b.layoutTable[Walk(b)[s].classIndex];
      && h.layoutClass == Some(c.name) && h.tokenStart <= h.tokenEnd == b.cachedTokenCount
      && (if c.windowTokens == 0 || c.windowTokens >= b.cachedTokenCount then h.tokenStart == 0
          else h.tokenEnd - h.tokenStart == c.windowTokens)
      && h.shape == (h.tokenEnd - h.tokenStart, c.kvHeads, c.headDim)
      && h.byteLength ==
         (h.tokenEnd - h.tokenStart) * c.kvHeads * c.headDim
         * (if b.portableAbi == ABI_V2_PREROPE && h.role.Key? then 4 else 2)
    else
      && h.layoutClass.None? && h.tokenStart == 0 && h.tokenEnd == b.cachedTokenCount
      && h.shape == (b.cachedTokenCount, b.geometry.numKvHeads, b.geometry.headDim)
      && h.byteLength == b.cachedTokenCount * b.geometry.numKvHeads * b.geometry.headDim * 2
  }

  lemma {:induction false} FourFactors(a: nat, b: nat, c: nat, d: nat)
    ensures Product(Product(Product(a, b), c), d) == a * b * c * d
  {
    AsProduct(a, b);
    AsProduct(a * b, c);
    AsProduct(a * b * c, d);
  }

  lemma {:induction false} FieldsFollow(b: Begin, limits: Limits, s: u32, h: Header)
    requires ValidBegin(b, limits) && CheckHeader(b, s, h).Ok?
    ensures PlaneFields(b, s, h)
  {
    hide Product, FrameSum, ByteSum, FlatTotal, Walk, IdentityOk, PrecisionOk, ClassOk, CoversOnce, LifetimeOk;
    if IsV2(b) {
      WalkEntryKnown(b, s);
      var c := b.layoutTable[Walk(b)[s].classIndex];
      FourFactors(h.tokenEnd - h.tokenStart, c.kvHeads, c.headDim, ElementBytes(b, h.role));
    } else {
      FlatTotalIsFrames(b);
      AverageOfEqual(2 * b.geometry.numLayers, FlatPlaneBytes(b));
      FourFactors(b.cachedTokenCount, b.geometry.numKvHeads, b.geometry.headDim, 2);
    }
  }

  /** The tag of a plane's elements: none and "float16" mean the same. */
  predicate TagFits(b: Begin, h: Header) {
    if b.layoutTable == [] then h.dtype.None?
    else if b.portableAbi == ABI_V2_PREROPE && h.role.Key? then h.dtype == Some("float32")
    else h.dtype.None? || h.dtype == Some("float16")
  }

  /** A header is accepted at a planned position exactly if it names the stream,
      its own position, layer and role, and its fields are those of the plane. */
  lemma {:induction false} HeaderExactly(b: Begin, limits: Limits, s: u32, h: Header)
    requires ValidBegin(b, limits) && s < |Plan(b)|
    ensures b.expectedLayerFrames > 0
    ensures CheckHeader(b, s, h).Ok? <==>
              && h.schemaVersion == SCHEMA_V1 && h.transferId == b.transferId && ValidSha256(h.sha256)
              && h.sequence == s && h.layer == Plan(b)[s].layer && h.role == Plan(b)[s].role
              && PlaneFields(b, s, h) && TagFits(b, h)
  {
    hide Product, FrameSum, ByteSum, FlatTotal, FlatPlaneBytes, Walk, IdentityOk, PrecisionOk, CoversOnce, LifetimeOk,
      FlatWalk, Layers, Total, WidestPlane, Declared;
    ArmedPlan(b, limits);
    if IsV2(b) {
      WalkEntryKnown(b, s);
      var c := b.layoutTable[Walk(b)[s].classIndex];
      assert ClassOk(b, limits, c);
      if h.tokenStart <= h.tokenEnd {
        FourFactors(h.tokenEnd - h.tokenStart, c.kvHeads, c.headDim, ElementBytes(b, Walk(b)[s].role));
      }
    } else {
      FlatExactly(b, limits);
      FlatWalkAt(b.geometry.numLayers, s);
    }
  }

  lemma {:induction false} FlatExactly(b: Begin, limits: Limits)
    requires ValidBegin(b, limits) && !IsV2(b)
    ensures |Plan(b)| == 2 * b.geometry.numLayers && b.expectedLayerFrames > 0
    ensures FlatTotal(b) / b.expectedLayerFrames ==
            b.cachedTokenCount * b.geometry.numKvHeads * b.geometry.headDim * 2
  {
    hide Product, FlatTotal, FlatWalk, IdentityOk, PrecisionOk, LifetimeOk, Total;
    ArmedPlan(b, limits);
    FlatTotalIsFrames(b);
    AverageOfEqual(2 * b.geometry.numLayers, FlatPlaneBytes(b));
    FourFactors(b.cachedTokenCount, b.geometry.numKvHeads, b.geometry.headDim, 2);
  }

  /** Sizes the headers state, added up. */
  function LengthSum(headers: seq<Header>): nat {
    if headers == [] then 0 else LengthSum(headers[..|headers| - 1]) + headers[|headers| - 1].byteLength
  }

  /** The bytes planned for the first frames are what their headers state, and
      the declared total is what the headers of a complete stream state. */
  lemma {:induction false} DeclaredIsStated(b: Begin, limits: Limits, headers: seq<Header>)
    requires ValidBegin(b, limits) && |headers| <= |Plan(b)| < U32_LIMIT && b.expectedLayerFrames > 0
    requires forall i :: 0 <= i < |headers| ==> CheckHeader(b, i, headers[i]).Ok?
    ensures PlannedBytes(b, |headers|) == LengthSum(headers)
    ensures |headers| == |Plan(b)| ==> b.expectedPayloadBytes == LengthSum(headers)
    decreases |headers|
  {
    hide Plan, ValidBegin, CheckHeader, EntryBytes, PlannedBytes;
    if headers == [] {
      NothingPlanned(b);
    } else {
      var n := |headers| - 1;
      DeclaredIsStated(b, limits, headers[..n]);
      AcceptedHeader(b, limits, n, headers[n]);
      PlannedStep(b, limits, n);
    }
    PlannedStep(b, limits, |headers|);
  }

  lemma {:induction false} NothingPlanned(b: Begin)
    ensures PlannedBytes(b, 0) == 0
  {
    hide Plan;
  }

  /** An accepted header carries its plan entry and its exact plane size. */
  lemma {:induction false} AcceptedHeader(b: Begin, limits: Limits, s: u32, h: Header)
    requires ValidBegin(b, limits) && CheckHeader(b, s, h).Ok?
    ensures h.sequence == s && h.byteLength <= limits.maxFrameBytes
    ensures IsV2(b) ==> s < |Plan(b)|
    ensures s < |Plan(b)| ==>
              && h.layer == Plan(b)[s].layer && h.role == Plan(b)[s].role
              && h.byteLength == EntryBytes(b, Plan(b)[s])
    ensures !IsV2(b) ==> h.byteLength == FlatPlaneBytes(b)
    ensures PlaneFields(b, s, h)
  {
    hide Product, FrameSum, ByteSum, FlatTotal, FlatPlaneBytes, Walk, IdentityOk, PrecisionOk,
      ClassOk, CoversOnce, LifetimeOk, FlatWalk, PlaneFields;
    FieldsFollow(b, limits, s, h);
    ArmedPlan(b, limits);
    if IsV2(b) {
      WalkEntryKnown(b, s);
    } else {
      FlatTotalIsFrames(b);
      AverageOfEqual(2 * b.geometry.numLayers, FlatPlaneBytes(b));
      if s < |Plan(b)| {
        FlatWalkAt(b.geometry.numLayers, s);
      }
    }
  }

  // ---------------------------------------------------------------------
  // Planes
  // ---------------------------------------------------------------------

  /** Every little-endian binary32 element has an exponent below 255. */
  predicate FiniteF32(payload: seq<byte>) {
    && |payload| % 4 == 0
    && forall k: nat | k < |payload| / 4 :: FiniteAt(payload, k)
  }

  predicate FiniteAt(payload: seq<byte>, k: nat)
    requires 4 * k + 4 <= |payload|
  {
    !(payload[4 * k + 3] % 128 == 127 && payload[4 * k + 2] >= 128)
  }

  lemma {:induction false} WordIs(word: seq<byte>)
    requires |word| == 4
    ensures FromLe(word) == word[0] as int + 0x100 * word[1] as int + 0x1_0000 * word[2] as int
                            + 0x100_0000 * word[3] as int
  {
    var one, two, three := word[1..], word[2..], word[3..];
    assert one[1..] == two && two[1..] == three && three[1..] == [];
    assert FromLe(three) == word[3] && FromLe(two) == word[2] as int + 0x100 * FromLe(three);
  }

  lemma {:induction false} ExponentIs(low: nat, c: byte, d: byte)
    requires low < 0x1_0000
    ensures (low + 0x1_0000 * c as int + 0x100_0000 * d as int) / 0x80_0000 == 2 * d as int + c as int / 128
  {
    var rest := low + 0x1_0000 * (c as int % 128);
    assert 0 <= rest < 0x80_0000;
    assert low + 0x1_0000 * c as int + 0x100_0000 * d as int == 0x80_0000 * (2 * d as int + c as int / 128) + rest;
  }

  /** Element `k` is finite exactly if its biased exponent is not all ones. */
  lemma {:induction false} FiniteIsExponent(payload: seq<byte>, k: nat)
    requires 4 * k + 4 <= |payload|
    ensures FiniteAt(payload, k) <==> FromLe(payload[4 * k..4 * k + 4]) / 0x80_0000 % 256 != 255
  {
    hide FromLe;
    var word := payload[4 * k..4 * k + 4];
    WordIs(word);
    ExponentIs(word[0] as int + 0x100 * word[1] as int, word[2], word[3]);
    var exponent := 2 * word[3] as int + word[2] as int / 128;
    assert exponent % 256 == 2 * (word[3] as int % 128) + word[2] as int / 128;
  }

  method ValidatePreropeKeyPlaneFinite(payload: seq<byte>) returns (ok: bool)
    ensures ok <==> FiniteF32(payload)
  {
    if |payload| % 4 != 0 {
      return false;
    }
    for k := 0 to |payload| / 4
      invariant forall j: nat | j < k :: FiniteAt(payload, j)
    {
      if !FiniteAt(payload, k) {
        return false;
      }
    }
    return true;
  }

  predicate ValueGate(b: Begin, h: Header, payload: seq<byte>) {
    IsPrerope(b) && h.role.Key? ==> FiniteF32(payload)
  }

  /** What one plane must satisfy on its own. */
  predicate PlaneOk(b: Begin, s: u32, h: Header, payload: seq<byte>)
    requires b.expectedLayerFrames > 0
  {
    && CheckHeader(b, s, h).Ok?
    && |payload| == h.byteLength && h.sha256 == PayloadDigest(payload)
    && ValueGate(b, h, payload)
  }

  function Concat(payloads: seq<seq<byte>>): seq<byte> {
    if payloads == [] then []
    else Concat(payloads[..|payloads| - 1]) + payloads[|payloads| - 1]
  }

  lemma {:induction false} ConcatStep(payloads: seq<seq<byte>>, p: seq<byte>)
    ensures Concat(payloads + [p]) == Concat(payloads) + p
  {
    assert (payloads + [p])[..|payloads|] == payloads;
  }

  /** Bytes the plan has declared for its first `n` frames. */
  function PlannedBytes(b: Begin, n: nat): nat
    requires n <= |Plan(b)|
  {
    Total(Plan(b)[..n], ByteMeasure(b))
  }

  lemma {:induction false} TotalGrows(walk: seq<Entry>, m: Entry -> nat, n: nat)
    requires n <= |walk|
    ensures Total(walk[..n], m) <= Total(walk, m)
  {
    assert walk == walk[..n] + walk[n..];
    TotalConcat(walk[..n], walk[n..], m);
  }

  lemma {:induction false} PlannedStep(b: Begin, limits: Limits, n: nat)
    requires ValidBegin(b, limits) && n <= |Plan(b)|
    ensures PlannedBytes(b, n) <= b.expectedPayloadBytes <= limits.maxTotalBytes
    ensures n == |Plan(b)| ==> PlannedBytes(b, n) == b.expectedPayloadBytes
    ensures n < |Plan(b)| ==> PlannedBytes(b, n + 1) == PlannedBytes(b, n) + EntryBytes(b, Plan(b)[n])
  {
    hide Plan, ValidBegin, EntryBytes;
    ArmedPlan(b, limits);
    var plan := Plan(b);
    TotalGrows(plan, ByteMeasure(b), n);
    if n < |plan| {
      assert plan[..n + 1][..n] == plan[..n];
    } else {
      assert plan[..n] == plan;
    }
  }

  // ---------------------------------------------------------------------
  // Seals
  // ---------------------------------------------------------------------

  predicate CanaryOk(b: Begin, core: SealCore) {
    if IsPrerope(b) then
      && core.canary.Some? && core.canary.value.count > 0
      && Min(core.canary.value.start + core.canary.value.count, U32_LIMIT - 1) <= b.cachedTokenCount
      && ValidSha256(core.canary.value.postRopeK) && ValidSha256(core.canary.value.postRopeV)
    else core.canary.None?
  }

  predicate HmacShapeOk(b: Begin, seal: Seal) {
    && b.hmacKeyId.Some? == seal.artifactHmac.Some?
    && (seal.artifactHmac.Some? ==> ValidSha256(seal.artifactHmac.value))
  }

  /** The batch check of a seal against the whole ordered handoff. */
  predicate SealMatches(b: Begin, headers: seq<Header>, payloadBytes: nat, payload: Hex, seal: Seal) {
    var core := seal.core;
    && core.schemaVersion == SCHEMA_V1 && core.protocol == PROTOCOL_V1
    && core.transferId == b.transferId
    && core.frameCount == b.expectedLayerFrames && core.frameCount == |headers|
    && core.payloadBytes == b.expectedPayloadBytes && core.payloadBytes == payloadBytes
    && core.payload == payload
    && core.descriptorChain == DescriptorChain(headers)
    && core.tokenIds == b.tokenIds && core.tokenIds == Sha256([Tokens(core.promptTokenIds)])
    && |core.promptTokenIds| == b.cachedTokenCount + 1
    && b.createdUnixMs <= core.completedUnixMs <= b.deadlineUnixMs
    && seal.artifact == ArtifactDigest(b, headers, core)
    && CanaryOk(b, core) && HmacShapeOk(b, seal)
  }

  datatype VerifiedPlane = VerifiedPlane(header: Header, bytes: seq<byte>)

  // ---------------------------------------------------------------------
  // The verifier
  // ---------------------------------------------------------------------

  /** The accepted planes are exactly the first frames of the plan. */
  ghost predicate Accepted(b: Begin, headers: seq<Header>, payloads: seq<seq<byte>>)
    requires b.expectedLayerFrames > 0
  {
    && |headers| == |payloads| <= |Plan(b)|
    && |Plan(b)| < U32_LIMIT
    && forall i :: 0 <= i < |headers| ==> PlaneOk(b, i, headers[i], payloads[i])
  }

  lemma {:induction false} EmptyStream(b: Begin, limits: Limits)
    requires ValidBegin(b, limits)
    ensures b.expectedLayerFrames > 0 && Accepted(b, [], [])
    ensures PlannedBytes(b, 0) == 0 && Concat([]) == []
    ensures DescriptorItems([]) == [Domain("kvpack-live-descriptor-chain-v1")]
    ensures ArtifactItems(b, []) == [Domain("kvpack-live-artifact-v1"), BeginJson(b), Newline]
  {
    hide ValidBegin, Plan, CheckHeader, ByteMeasure;
    BeginHasFrames(b, limits);
    ArmedPlan(b, limits);
    assert Plan(b)[..0] == [];
  }

  class IncrementalVerifier {
    const begin: Begin
    const limits: Limits
    var headers: seq<Header>
    var payloadBytes: nat
    var payloadHash: seq<byte>
    var descriptorHash: seq<Item>
    var artifactPrefixHash: seq<Item>
    var sealed: bool
    /** The payloads behind `headers`; the source keeps only their hash. */
    ghost var payloads: seq<seq<byte>>

    /** The rolling state is the batch state of what was accepted. */
    ghost predicate Valid()
      reads this
    {
      && ValidBegin(begin, limits)
      && Accepted(begin, headers, payloads)
      && payloadBytes == PlannedBytes(begin, |headers|)
      && payloadHash == Concat(payloads)
      && descriptorHash == DescriptorItems(headers)
      && artifactPrefixHash == ArtifactItems(begin, headers)
    }

    constructor (begin: Begin, limits: Limits)
      requires ValidBegin(begin, limits)
      ensures Valid() && headers == [] && !sealed
      ensures this.begin == begin && this.limits == limits
    {
      hide ValidBegin, Accepted, PlannedBytes, Concat, DescriptorItems, ArtifactItems;
      EmptyStream(begin, limits);
      this.begin, this.limits := begin, limits;
      headers, payloads, payloadBytes, payloadHash, sealed := [], [], 0, [], false;
      descriptorHash := [Domain("kvpack-live-descriptor-chain-v1")];
      artifactPrefixHash := [Domain("kvpack-live-artifact-v1"), BeginJson(begin), Newline];
    }

    method ValidateNextHeader(h: Header) returns (r: Result<bool, VerifyError>)
      requires Valid()
      ensures r.Ok? <==> !sealed && CheckHeader(begin, |headers|, h).Ok?
      ensures r.Err? ==>
                r.error in {AfterSeal, OutsideTable, InvertedRange, ByteBoundOverflow, HeaderMismatch}
    {
      hide CheckHeader, Plan, ValidBegin;
      assert begin.expectedLayerFrames > 0 by { BeginHasFrames(begin, limits); }
      if sealed {
        return Err(AfterSeal);
      }
      var checked := CheckHeader(begin, |headers|, h);
      if checked.Err? {
        CheckHeaderErrors(begin, |headers|, h);
        return checked;
      }
      AcceptedHeader(begin, limits, |headers|, h);
      if h.byteLength > limits.maxFrameBytes {
        return Err(FrameBound);
      }
      return Ok(true);
    }

    /** Accepts exactly the next planned frame, and otherwise changes nothing. */
    method VerifyPlane(h: Header, payload: seq<byte>) returns (r: Result<VerifiedPlane, VerifyError>)
      requires Valid()
      modifies this
      ensures Valid() && sealed == old(sealed)
      ensures r.Ok? <==>
                !sealed && old(|headers|) < |Plan(begin)| && PlaneOk(begin, old(|headers|), h, payload)
      ensures r.Ok? ==>
                && r.value == VerifiedPlane(h, payload)
                && headers == old(headers) + [h] && payloads == old(payloads) + [payload]
      ensures r.Err? ==> unchanged(this)
      ensures r != Err(FrameBound)
      ensures r == Err(TotalBound) || r == Err(ByteCountOverflow) <==>
                && !sealed && !IsV2(begin) && old(|headers|) == |Plan(begin)|
                && PlaneOk(begin, old(|headers|), h, payload)
    {
      hide CheckHeader, Plan, ValidBegin, FiniteF32, Total, HeaderItems, Concat, EntryBytes;
      var sequence := |headers|;
      var header := ValidateNextHeader(h);
      if header.Err? {
        return Err(header.error);
      }
      if |payload| != h.byteLength || PayloadDigest(payload) != h.sha256 {
        return Err(LengthOrDigest);
      }
      if IsPrerope(begin) && h.role.Key? {
        var finite := ValidatePreropeKeyPlaneFinite(payload);
        if !finite {
          return Err(NotFinite);
        }
      }
      PlaneTotal(begin, limits, sequence, h);
      var next := payloadBytes + h.byteLength;
      if next >= U64_LIMIT {
        return Err(ByteCountOverflow);
      }
      if next > limits.maxTotalBytes || next > begin.expectedPayloadBytes {
        return Err(TotalBound);
      }
      HeaderItemsStep(headers, h);
      ConcatStep(payloads, payload);
      payloadHash := payloadHash + payload;
      descriptorHash := descriptorHash + [HeaderJson(h), Newline];
      artifactPrefixHash := artifactPrefixHash + [HeaderJson(h), Newline];
      payloadBytes := next;
      headers := headers + [h];
      payloads := payloads + [payload];
      return Ok(VerifiedPlane(h, payload));
    }

    /** Accepts exactly a seal the batch check accepts, once. */
    method VerifySeal(seal: Seal) returns (r: Result<Seal, VerifyError>)
      requires Valid()
      modifies this`sealed
      ensures Valid()
      ensures r.Ok? <==>
                && !old(sealed)
                && SealMatches(begin, headers, PlannedBytes(begin, |headers|), PayloadDigest(Concat(payloads)), seal)
      ensures r.Ok? ==> r.value == seal && sealed && |headers| == |Plan(begin)|
      ensures r.Err? ==> sealed == old(sealed) && r.error in {AlreadySealed, SealRejected}
    {
      hide Plan, ValidBegin, Concat, HeaderItems, Accepted, PlannedBytes, CanaryOk, HmacShapeOk;
      ArmedPlan(begin, limits);
      if sealed {
        return Err(AlreadySealed);
      }
      var payloadDigest := PayloadDigest(payloadHash);
      var descriptorDigest := Sha256(descriptorHash);
      var chain := DescriptorChainSha256(headers);
      if descriptorDigest != chain {
        return Err(ChainDisagrees);
      }
      if !SealMatches(begin, headers, payloadBytes, payloadDigest, seal) {
        return Err(SealRejected);
      }
      var incremental := Sha256(artifactPrefixHash + [CoreJson(seal.core)]);
      var artifact := ArtifactSha256(begin, headers, seal.core);
      if incremental != seal.artifact || incremental != artifact {
        return Err(ArtifactDisagrees);
      }
      sealed := true;
      return Ok(seal);
    }

    /** The gate of a receiver with an armed key: the manifest names a key and
        the seal carries its tag over this stream. Without a key it is open. */
    method AuthenticateSeal(seal: Seal, armed: Option<nat>) returns (ok: bool)
      ensures ok <==>
                armed.Some? ==>
                  && begin.hmacKeyId.Some?
                  && seal.artifactHmac == Some(ArtifactTag(begin, headers, seal.core, armed.value))
    {
      if armed.None? {
        return true;
      }
      if begin.hmacKeyId.None? || seal.artifactHmac.None? {
        return false;
      }
      var tag := ArtifactMac(begin, headers, seal.core, armed.value);
      return tag == seal.artifactHmac.value;
    }
  }

  lemma {:induction false} FlatPlaneIsPositive(b: Begin, limits: Limits)
    requires ValidBegin(b, limits) && !IsV2(b)
    ensures FlatPlaneBytes(b) > 0
  {
    hide IdentityOk, PrecisionOk, LifetimeOk, FlatTotal, Product;
    var p := Product(b.cachedTokenCount, b.geometry.numKvHeads);
    var q := Product(p, b.geometry.headDim);
    ProductMonotone(b.geometry.numKvHeads, b.cachedTokenCount, b.cachedTokenCount);
    ProductMonotone(b.geometry.headDim, p, p);
    ProductMonotone(2, q, q);
  }

  /** The running total after a plane that passed its own checks. */
  lemma {:induction false} PlaneTotal(b: Begin, limits: Limits, n: u32, h: Header)
    requires ValidBegin(b, limits) && n <= |Plan(b)|
    requires CheckHeader(b, n, h).Ok?
    ensures n < |Plan(b)| ==>
              && PlannedBytes(b, n + 1) == PlannedBytes(b, n) + h.byteLength
              && PlannedBytes(b, n + 1) <= b.expectedPayloadBytes <= limits.maxTotalBytes
    ensures n == |Plan(b)| ==> !IsV2(b) && PlannedBytes(b, n) + h.byteLength > b.expectedPayloadBytes
  {
    hide CheckHeader, Plan, PlannedBytes, EntryBytes, ValidBegin, FlatPlaneBytes;
    BeginHasFrames(b, limits);
    AcceptedHeader(b, limits, n, h);
    PlannedStep(b, limits, n);
    if n < |Plan(b)| {
      PlannedStep(b, limits, n + 1);
    } else {
      FlatPlaneIsPositive(b, limits);
    }
  }

  lemma {:induction false} BeginHasFrames(b: Begin, limits: Limits)
    requires ValidBegin(b, limits)
    ensures b.expectedLayerFrames > 0
  {
  }

  lemma {:induction false} CheckHeaderErrors(b: Begin, s: u32, h: Header)
    requires b.expectedLayerFrames > 0
    ensures CheckHeader(b, s, h).Err? ==>
              CheckHeader(b, s, h).error in {OutsideTable, InvertedRange, ByteBoundOverflow, HeaderMismatch}
  {
  }

  // ---------------------------------------------------------------------
  // What one stream means
  // ---------------------------------------------------------------------

  lemma {:induction false} HeaderItemsInjective(left: seq<Header>, right: seq<Header>)
    requires HeaderItems(left) == HeaderItems(right)
    ensures left == right
  {
    if left == [] || right == [] {
    } else {
      var m, n := |left| - 1, |right| - 1;
      var p, q := HeaderItems(left[..m]), HeaderItems(right[..n]);
      var s, t := [HeaderJson(left[m]), Newline], [HeaderJson(right[n]), Newline];
      ConcatInjective(p, s, q, t);
      HeaderItemsInjective(left[..m], right[..n]);
      assert s[0] == t[0];
      assert left == left[..m] + [left[m]] && right == right[..n] + [right[n]];
    }
  }

  /** A complete stream has the declared frames and bytes. */
  lemma {:induction false} CompleteCounts(b: Begin, limits: Limits, headers: seq<Header>, payloads: seq<seq<byte>>)
    requires ValidBegin(b, limits) && b.expectedLayerFrames > 0
    requires Accepted(b, headers, payloads) && |headers| == |Plan(b)|
    ensures |headers| == b.expectedLayerFrames
    ensures LengthSum(headers) == b.expectedPayloadBytes == PlannedBytes(b, |headers|)
  {
    hide Plan, ValidBegin, CheckHeader, PlannedBytes, LengthSum;
    ArmedPlan(b, limits);
    forall i | 0 <= i < |headers| ensures CheckHeader(b, i, headers[i]).Ok? {
      assert PlaneOk(b, i, headers[i], payloads[i]);
    }
    DeclaredIsStated(b, limits, headers);
  }

  /** Every complete stream has a seal: for the prompt the manifest names, at
      any time of its life, with a canary exactly if keys travel unrotated and
      a tag exactly if a key is named. */
  lemma {:induction false} SealExists(
      b: Begin, limits: Limits, headers: seq<Header>, payloads: seq<seq<byte>>, prompt: seq<u32>, completed: u64,
      canary: Option<Canary>, tag: Option<Hex>)
    requires ValidBegin(b, limits) && b.expectedLayerFrames > 0
    requires Accepted(b, headers, payloads) && |headers| == |Plan(b)|
    requires b.tokenIds == Sha256([Tokens(prompt)]) && |prompt| == b.cachedTokenCount + 1
    requires b.createdUnixMs <= completed <= b.deadlineUnixMs
    requires canary.Some? <==> |b.layoutTable| > 0 && b.portableAbi == ABI_V2_PREROPE
    requires canary.Some? ==>
               && 0 < canary.value.count && canary.value.start + canary.value.count <= b.cachedTokenCount
               && canary.value.postRopeK.Sha256? && canary.value.postRopeV.Sha256?
    requires (tag.Some? <==> b.hmacKeyId.Some?) && (tag.Some? ==> tag.value.Hmac?)
    ensures LengthSum(headers) == b.expectedPayloadBytes
    ensures var core := SealCore(completed, DescriptorChain(headers), |headers|, LengthSum(headers),
                                 PayloadDigest(Concat(payloads)), prompt, "kvpack-live-f16-le-v1", 1, b.tokenIds,
                                 b.transferId, canary);
            SealMatches(b, headers, PlannedBytes(b, |headers|), PayloadDigest(Concat(payloads)),
                        Seal(ArtifactDigest(b, headers, core), tag, core))
  {
    hide Plan, ValidBegin, Accepted, PlannedBytes, Concat, DescriptorChain, PayloadDigest, LengthSum, ArtifactDigest;
    CompleteCounts(b, limits, headers, payloads);
  }

  /** One seal authenticates one stream: two complete streams of the same
      manifest sealed by the same seal carry the same headers and the same
      payload bytes. */
  lemma {:induction false} SealBindsStream(
      b: Begin, seal: Seal, hs: seq<Header>, ps: seq<seq<byte>>, gs: seq<Header>, qs: seq<seq<byte>>)
    requires b.expectedLayerFrames > 0 && Accepted(b, hs, ps) && Accepted(b, gs, qs)
    requires SealMatches(b, hs, PlannedBytes(b, |hs|), PayloadDigest(Concat(ps)), seal)
    requires SealMatches(b, gs, PlannedBytes(b, |gs|), PayloadDigest(Concat(qs)), seal)
    ensures hs == gs && ps == qs
  {
    hide CheckHeader, Plan, HeaderItems, Concat, PlannedBytes;
    assert HeaderItems(hs) == DescriptorItems(hs)[1..] == DescriptorItems(gs)[1..] == HeaderItems(gs);
    HeaderItemsInjective(hs, gs);
    forall i | 0 <= i < |ps| ensures ps[i] == qs[i] {
      assert PlaneOk(b, i, hs[i], ps[i]) && PlaneOk(b, i, gs[i], qs[i]);
      assert [Bytes(ps[i])][0] == [Bytes(qs[i])][0];
    }
  }

  /** One tag, whatever the keys it was checked under, belongs to one key, one
      manifest, one header list and one core. */
  lemma {:induction false} TagBinds(
      b: Begin, hs: seq<Header>, core: SealCore, key: nat, c: Begin, gs: seq<Header>, other: SealCore, second: nat)
    requires ArtifactTag(b, hs, core, key) == ArtifactTag(c, gs, other, second)
    ensures b == c && hs == gs && core == other && key == second
  {
    hide HeaderItems;
    var p, q := MacItems(b, hs), MacItems(c, gs);
    assert p + [CoreJson(core)] == q + [CoreJson(other)];
    assert |p| == |q| && (p + [CoreJson(core)])[|p|] == (q + [CoreJson(other)])[|p|];
    assert p == (p + [CoreJson(core)])[..|p|] == (q + [CoreJson(other)])[..|p|] == q;
    assert p[1] == BeginJson(b) && q[1] == BeginJson(c);
    assert HeaderItems(hs) == p[3..] == q[3..] == HeaderItems(gs);
    HeaderItemsInjective(hs, gs);
  }

  /** So two sealed streams with one authenticated tag are the same stream, of
      the same manifest, down to the payload bytes. */
  lemma {:induction false} TagBindsStream(
      b: Begin, seal: Seal, hs: seq<Header>, ps: seq<seq<byte>>, key: nat,
      c: Begin, other: Seal, gs: seq<Header>, qs: seq<seq<byte>>, second: nat)
    requires b.expectedLayerFrames > 0 && Accepted(b, hs, ps)
    requires c.expectedLayerFrames > 0 && Accepted(c, gs, qs)
    requires SealMatches(b, hs, PlannedBytes(b, |hs|), PayloadDigest(Concat(ps)), seal)
    requires SealMatches(c, gs, PlannedBytes(c, |gs|), PayloadDigest(Concat(qs)), other)
    requires seal.artifactHmac == Some(ArtifactTag(b, hs, seal.core, key))
    requires other.artifactHmac == Some(ArtifactTag(c, gs, other.core, second))
    requires seal.artifactHmac == other.artifactHmac
    ensures b == c && seal == other && hs == gs && ps == qs && key == second
  {
    hide CheckHeader, Plan, HeaderItems, Concat, PlannedBytes, Accepted, ArtifactTag, CanaryOk, HmacShapeOk;
    TagBinds(b, hs, seal.core, key, c, gs, other.core, second);
    SealBindsStream(b, seal, hs, ps, gs, qs);
  }

  lemma {:induction false} FlatFacts(b: Begin, limits: Limits)
    requires ValidBegin(b, limits) && !IsV2(b)
    ensures |Plan(b)| == 2 * b.geometry.numLayers == b.expectedLayerFrames < U32_LIMIT
    ensures b.expectedLayerFrames > 0 && FlatTotal(b) / b.expectedLayerFrames == FlatPlaneBytes(b) < U64_LIMIT
    ensures !IsPrerope(b)
  {
    hide IdentityOk, PrecisionOk, LifetimeOk, FlatTotal, FlatPlaneBytes, Product, FlatWalk, ContractOk, PlanOk;
    FlatTotalIsFrames(b);
    var s := 2 * b.geometry.numLayers;
    AverageOfEqual(s, FlatPlaneBytes(b));
    ProductMonotone(s, FlatPlaneBytes(b), FlatPlaneBytes(b));
    FlatWalkAt(b.geometry.numLayers, 0);
  }

  /** A table-free manifest gives its header check no upper end: past the last
      declared frame there is always one more plane that passes on its own, so
      only the byte total stops it. */
  lemma {:induction false} FlatPlaneAfterTheLast(b: Begin, limits: Limits) returns (h: Header, payload: seq<byte>)
    requires ValidBegin(b, limits) && !IsV2(b)
    ensures |Plan(b)| < U32_LIMIT && PlaneOk(b, |Plan(b)|, h, payload)
  {
    hide ValidBegin, FlatTotal, FlatPlaneBytes, Product, Plan, Repeat;
    FlatFacts(b, limits);
    var s := |Plan(b)|;
    payload := Repeat(0, FlatPlaneBytes(b));
    h := Header(FlatPlaneBytes(b), s / 2, b.cachedTokenCount, 0, Key, SCHEMA_V1, s, PayloadDigest(payload),
                (b.cachedTokenCount, b.geometry.numKvHeads, b.geometry.headDim), b.transferId, None, None);
  }
}
