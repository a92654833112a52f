/** Component manifests and segment descriptors of the second handoff. */
module SegmentManifest {
  import opened Machine

  datatype ComponentKind = TargetKv | DflashContext | VisionContext

  datatype SegmentRole =
    NopeKey | NopeValue | SwaKey | SwaValue | NopeTile | SwaTile | DflashKey | DflashValue | Auxiliary

  /** A hex digest: of something the protocol hashes, or any other text. */
  datatype Digest =
    | OfBytes(bytes: seq<byte>)
    | OfDescriptors(list: seq<Descriptor>)
    | OfManifest(manifest: Manifest)
    | Mac(key: nat, core: SealCore)
    | Text(text: string)

  datatype Component = Component(id: string, kind: ComponentKind, required: bool, identity: Digest)

  datatype Descriptor = Descriptor(
    sequence: u32,
    component: string,
    role: SegmentRole,
    layer: Option<u32>,
    start: u64,
    count: u64,
    element: string,
    elementsPerToken: u32,
    byteLen: u64,
    sha256: Digest)

  datatype Identity = Identity(
    adapter: Digest,
    chatTemplate: Digest,
    contextPolicy: Digest,
    modelRevision: string,
    model: Digest,
    tokenizerRevision: string,
    tokenizer: Digest)

  datatype Multimodal = Multimodal(projector: Digest, preprocessing: Digest, imageSequence: Digest)

  datatype Manifest = Manifest(
    protocol: string,
    transferId: string,
    generation: u64,
    createdUnixMs: u64,
    expiresUnixMs: u64,
    identity: Identity,
    promptTokenIds: seq<u32>,
    multimodal: Option<Multimodal>,
    keyId: string,
    epoch: u64,
    components: seq<Component>,
    deferredSegments: bool,
    segments: seq<Descriptor>)

  datatype SealCore = SealCore(
    transferId: string,
    generation: u64,
    begin: Digest,
    descriptors: Digest,
    payload: Digest,
    segmentCount: u32,
    totalBytes: u64)

  const PROTOCOL_V2 := "kvpack-live-handoff-v2"

  predicate ValidHex(d: Digest) {
    d.Text? ==>
      |d.text| == 64 && forall i :: 0 <= i < 64 ==> '0' <= d.text[i] <= '9' || 'a' <= d.text[i] <= 'f'
  }

  // ---------------------------------------------------------------------
  // One descriptor
  // ---------------------------------------------------------------------

  function ElementWidth(element: string): Option<nat> {
    if element == "f16_le" then Some(2) else if element == "f32_le" then Some(4) else None
  }

  function Rows(d: Descriptor): nat {
    MulNonNegative(d.count, d.elementsPerToken);
    d.count * d.elementsPerToken
  }

  predicate DescriptorOk(d: Descriptor, ids: set<string>) {
    && d.component in ids && d.count > 0 && d.elementsPerToken > 0 && d.byteLen > 0
    && ValidHex(d.sha256)
    && ElementWidth(d.element).Some?
    && d.byteLen == Rows(d) * ElementWidth(d.element).value
    && d.start + d.count < U64_LIMIT
  }

  datatype RangeKey = RangeKey(component: string, role: SegmentRole, layer: Option<u32>)

  function KeyOf(d: Descriptor): RangeKey {
    RangeKey(d.component, d.role, d.layer)
  }

  function EndOf(d: Descriptor): nat {
    d.start + d.count
  }

  /** Two descriptors of one component, role and layer that share a token. */
  predicate Overlap(a: Descriptor, b: Descriptor) {
    KeyOf(a) == KeyOf(b) && b.start < EndOf(a) && a.start < EndOf(b)
  }

  predicate Disjoint(ds: seq<Descriptor>) {
    forall i, j :: 0 <= i < j < |ds| ==> !Overlap(ds[i], ds[j])
  }

  /** Token `t` belongs to both descriptors, of one component, role and layer. */
  predicate SharesToken(a: Descriptor, b: Descriptor, t: nat) {
    && a.component == b.component && a.role == b.role && a.layer == b.layer
    && a.start <= t < a.start + a.count && b.start <= t < b.start + b.count
  }

  /** No token is sent twice. */
  ghost predicate Apart(ds: seq<Descriptor>) {
    forall i: nat, j: nat, t: nat | i < j < |ds| :: !SharesToken(ds[i], ds[j], t)
  }

  ghost predicate Repeats(ds: seq<Descriptor>, d: Descriptor) {
    exists i: nat, t: nat :: i < |ds| && SharesToken(ds[i], d, t)
  }

  predicate Counted(ds: seq<Descriptor>) {
    forall i :: 0 <= i < |ds| ==> ds[i].count > 0
  }

  /** Comparing the ends finds exactly the shared tokens. */
  lemma {:induction false} OverlapIsShared(a: Descriptor, b: Descriptor)
    requires a.count > 0 && b.count > 0
    ensures Overlap(a, b) <==> exists t: nat :: SharesToken(a, b, t)
  {
    if Overlap(a, b) {
      var t: nat := if a.start < b.start then b.start else a.start;
      assert SharesToken(a, b, t);
    }
  }

  lemma {:induction false} DisjointIsApart(ds: seq<Descriptor>)
    requires Counted(ds)
    ensures Disjoint(ds) <==> Apart(ds)
  {
    hide Overlap, SharesToken;
    forall i: nat, j: nat | i < j < |ds|
      ensures Overlap(ds[i], ds[j]) <==> exists t: nat :: SharesToken(ds[i], ds[j], t)
    {
      OverlapIsShared(ds[i], ds[j]);
    }
  }

  lemma {:induction false} FollowsIsNew(ds: seq<Descriptor>, d: Descriptor)
    requires Counted(ds) && d.count > 0 && Disjoint(ds)
    ensures Disjoint(ds + [d]) <==> !Repeats(ds, d)
  {
    hide Overlap, SharesToken, Disjoint;
    DisjointStep(ds, d);
    forall i: nat | i < |ds| ensures Overlap(ds[i], d) <==> exists t: nat :: SharesToken(ds[i], d, t) {
      OverlapIsShared(ds[i], d);
    }
  }

  /** The ranges recorded under a key, in arrival order. */
  function Spans(ds: seq<Descriptor>, k: RangeKey): seq<(nat, nat)> {
    if ds == [] then []
    else
      var n := |ds| - 1;
      Spans(ds[..n], k) + if KeyOf(ds[n]) == k then [(ds[n].start, EndOf(ds[n]))] else []
  }

  type Ranges = map<RangeKey, seq<(nat, nat)>>

  function RangesAt(ranges: Ranges, k: RangeKey): seq<(nat, nat)> {
    if k in ranges then ranges[k] else []
  }

  ghost predicate Represents(ranges: Ranges, ds: seq<Descriptor>) {
    forall k: RangeKey :: RangesAt(ranges, k) == Spans(ds, k)
  }

  predicate Clashes(span: (nat, nat), d: Descriptor) {
    d.start < span.1 && span.0 < EndOf(d)
  }

  /** The recorded ranges clash exactly when some earlier descriptor overlaps. */
  lemma {:induction false} SpansClash(ds: seq<Descriptor>, d: Descriptor)
    ensures (exists r :: r in Spans(ds, KeyOf(d)) && Clashes(r, d)) <==>
              exists i :: 0 <= i < |ds| && Overlap(ds[i], d)
    decreases |ds|
  {
    if ds == [] {
    } else {
      var n, k := |ds| - 1, KeyOf(d);
      SpansClash(ds[..n], d);
      var last := (ds[n].start, EndOf(ds[n]));
      assert forall i :: 0 <= i < n ==> ds[..n][i] == ds[i];
      if KeyOf(ds[n]) == k {
        assert last in Spans(ds, k);
        assert Clashes(last, d) <==> Overlap(ds[n], d);
      }
      if i :| 0 <= i < |ds| && Overlap(ds[i], d) {
        if i < n {
          assert Overlap(ds[..n][i], d);
        }
      }
    }
  }

  lemma {:induction false} DisjointStep(ds: seq<Descriptor>, d: Descriptor)
    ensures Disjoint(ds + [d]) <==> Disjoint(ds) && forall i :: 0 <= i < |ds| ==> !Overlap(ds[i], d)
  {
    var e := ds + [d];
    if Disjoint(e) {
      forall i, j | 0 <= i < j < |ds| ensures !Overlap(ds[i], ds[j]) {
        assert e[i] == ds[i] && e[j] == ds[j];
      }
      forall i | 0 <= i < |ds| ensures !Overlap(ds[i], d) {
        assert e[i] == ds[i] && e[|ds|] == d;
      }
    }
  }

  lemma {:induction false} RepresentsStep(ranges: Ranges, ds: seq<Descriptor>, d: Descriptor)
    requires Represents(ranges, ds)
    ensures var k := KeyOf(d);
            Represents(ranges[k := RangesAt(ranges, k) + [(d.start, EndOf(d))]], ds + [d])
  {
    var k := KeyOf(d);
    var next := ranges[k := RangesAt(ranges, k) + [(d.start, EndOf(d))]];
    assert (ds + [d])[..|ds|] == ds;
    forall j: RangeKey ensures RangesAt(next, j) == Spans(ds + [d], j) {
      assert RangesAt(ranges, j) == Spans(ds, j);
    }
  }

  lemma {:induction false} RangesAre(ranges: Ranges, ds: seq<Descriptor>, k: RangeKey)
    requires Represents(ranges, ds)
    ensures RangesAt(ranges, k) == Spans(ds, k)
  {
  }

  method ValidateSegmentDescriptor(d: Descriptor, ids: set<string>, ranges: Ranges, ghost ds: seq<Descriptor>)
    returns (ok: bool, next: Ranges)
    requires Represents(ranges, ds) && Disjoint(ds)
    ensures ok <==> DescriptorOk(d, ids) && Disjoint(ds + [d])
    ensures ok ==> Represents(next, ds + [d])
    ensures DescriptorOk(d, ids) && Counted(ds) ==> (ok <==> !Repeats(ds, d))
  {
    hide Represents, Disjoint, Spans, ValidHex, Overlap, Clashes, Counted, Repeats;
    next := ranges;
    if d.count > 0 && Counted(ds) {
      FollowsIsNew(ds, d);
    }
    if d.component !in ids || d.count == 0 || d.elementsPerToken == 0 || d.byteLen == 0 {
      return false, ranges;
    }
    if !ValidHex(d.sha256) || ElementWidth(d.element).None? {
      return false, ranges;
    }
    var width := ElementWidth(d.element).value;
    var rows := Rows(d);
    if rows >= U64_LIMIT || rows * width >= U64_LIMIT || d.byteLen != rows * width {
      return false, ranges;
    }
    if d.start + d.count >= U64_LIMIT {
      return false, ranges;
    }
    var entry := RangesAt(ranges, KeyOf(d));
    RangesAre(ranges, ds, KeyOf(d));
    SpansClash(ds, d);
    DisjointStep(ds, d);
    for i := 0 to |entry|
      invariant forall j :: 0 <= j < i ==> !Clashes(entry[j], d)
    {
      if Clashes(entry[i], d) {
        assert entry[i] in Spans(ds, KeyOf(d));
        return false, ranges;
      }
    }
    RepresentsStep(ranges, ds, d);
    next := ranges[KeyOf(d) := entry + [(d.start, EndOf(d))]];
    return true, next;
  }

  // ---------------------------------------------------------------------
  // The manifest
  // ---------------------------------------------------------------------

  predicate TransferIdOk(id: string) {
    && 0 < |id| <= 128
    && forall i :: 0 <= i < |id| ==>
         || '0' <= id[i] <= '9' || 'a' <= id[i] <= 'z' || 'A' <= id[i] <= 'Z'
         || id[i] == '-' || id[i] == '_' || id[i] == '.'
  }

  function Ids(components: seq<Component>): set<string> {
    set i | 0 <= i < |components| :: components[i].id
  }

  predicate ComponentsOk(components: seq<Component>) {
    && (forall i :: 0 <= i < |components| ==> components[i].id != "" && ValidHex(components[i].identity))
    && (forall i, j :: 0 <= i < j < |components| ==> components[i].id != components[j].id)
  }

  predicate Requires(components: seq<Component>, kind: ComponentKind) {
    exists i :: 0 <= i < |components| && components[i].kind == kind && components[i].required
  }

  predicate IsDflash(components: seq<Component>, id: string) {
    exists i :: 0 <= i < |components| && components[i].id == id && components[i].kind.DflashContext?
  }

  predicate Sequenced(segments: seq<Descriptor>) {
    forall i :: 0 <= i < |segments| ==> segments[i].sequence == i
  }

  predicate DescriptorsOk(segments: seq<Descriptor>, ids: set<string>) {
    Sequenced(segments) && Disjoint(segments) && forall i :: 0 <= i < |segments| ==> DescriptorOk(segments[i], ids)
  }

  predicate IdentityOk(id: Identity) {
    && ValidHex(id.model) && ValidHex(id.adapter) && ValidHex(id.chatTemplate) && ValidHex(id.contextPolicy)
    && ValidHex(id.tokenizer)
  }

  predicate MultimodalOk(multimodal: Option<Multimodal>) {
    multimodal.Some? ==>
      && ValidHex(multimodal.value.projector) && ValidHex(multimodal.value.preprocessing)
      && ValidHex(multimodal.value.imageSequence)
  }

  predicate HeadOk(m: Manifest, now: u64, keyId: string, minimumEpoch: u64) {
    && m.protocol == PROTOCOL_V2 && TransferIdOk(m.transferId)
    && m.createdUnixMs < m.expiresUnixMs && now <= m.expiresUnixMs
    && m.keyId == keyId && minimumEpoch <= m.epoch
    && IdentityOk(m.identity) && MultimodalOk(m.multimodal)
    && m.components != [] && (m.deferredSegments <==> m.segments == []) && m.promptTokenIds != []
  }

  predicate ValidManifest(m: Manifest, now: u64, keyId: string, minimumEpoch: u64) {
    && HeadOk(m, now, keyId, minimumEpoch)
    && ComponentsOk(m.components) && Requires(m.components, TargetKv)
    && DescriptorsOk(m.segments, Ids(m.components))
    && (!m.deferredSegments && Requires(m.components, DflashContext) ==>
          exists i :: 0 <= i < |m.segments| && IsDflash(m.components, m.segments[i].component))
  }

  method ValidateComponents(components: seq<Component>)
    returns (ok: bool, ids: set<string>, target: bool, dflash: bool)
    ensures ok <==> ComponentsOk(components)
    ensures ok ==>
              && ids == Ids(components)
              && target == Requires(components, TargetKv) && dflash == Requires(components, DflashContext)
  {
    ids, target, dflash := {}, false, false;
    for i := 0 to |components|
      invariant ComponentsOk(components[..i]) && ids == Ids(components[..i])
      invariant target == Requires(components[..i], TargetKv)
      invariant dflash == Requires(components[..i], DflashContext)
    {
      var c := components[i];
      ComponentStep(components, i);
      if c.id == "" || c.id in ids || !ValidHex(c.identity) {
        return false, ids, target, dflash;
      }
      ids := ids + {c.id};
      target := target || (c.kind.TargetKv? && c.required);
      dflash := dflash || (c.kind.DflashContext? && c.required);
    }
    assert components[..|components|] == components;
    return true, ids, target, dflash;
  }

  lemma {:induction false} ComponentStep(components: seq<Component>, n: nat)
    requires n < |components|
    ensures Ids(components[..n + 1]) == Ids(components[..n]) + {components[n].id}
    ensures ComponentsOk(components[..n + 1]) <==>
              && ComponentsOk(components[..n]) && components[n].id != "" && ValidHex(components[n].identity)
              && components[n].id !in Ids(components[..n])
    ensures ComponentsOk(components) ==> ComponentsOk(components[..n + 1])
    ensures forall kind :: Requires(components[..n + 1], kind) <==>
              Requires(components[..n], kind) || (components[n].kind == kind && components[n].required)
  {
    hide ValidHex;
    var a, b := components[..n], components[..n + 1];
    assert b == a + [components[n]] && b[n] == components[n];
    assert forall i :: 0 <= i < n ==> a[i] == b[i] == components[i];
    forall kind ensures Requires(b, kind) <==> Requires(a, kind) || (b[n].kind == kind && b[n].required) {
      if i :| 0 <= i < |a| && a[i].kind == kind && a[i].required {
        assert b[i] == a[i];
      }
      if i :| 0 <= i < |b| && b[i].kind == kind && b[i].required {
        if i < n {
          assert a[i] == b[i];
        }
      }
    }
  }

  /** Descriptors that pass send no token twice. */
  lemma {:induction false} DescriptorsApart(segments: seq<Descriptor>, ids: set<string>)
    requires DescriptorsOk(segments, ids)
    ensures Apart(segments)
  {
    hide Disjoint, Apart;
    DisjointIsApart(segments);
  }

  method Validate(m: Manifest, now: u64, keyId: string, minimumEpoch: u64) returns (ok: bool)
    ensures ok <==> ValidManifest(m, now, keyId, minimumEpoch)
    ensures ok ==> Apart(m.segments)
  {
    hide HeadOk, ComponentsOk, Requires, DescriptorOk, Disjoint, Ids, Apart;
    if !HeadOk(m, now, keyId, minimumEpoch) {
      return false;
    }
    var components, ids, target, dflash := ValidateComponents(m.components);
    if !components || !target {
      return false;
    }
    var ranges: Ranges := map[];
    NothingRecorded();
    for i := 0 to |m.segments|
      invariant DescriptorsOk(m.segments[..i], ids) && Represents(ranges, m.segments[..i])
    {
      hide Represents;
      DescriptorStep(m.segments, i, ids);
      if m.segments[i].sequence != i {
        return false;
      }
      var described: bool;
      described, ranges := ValidateSegmentDescriptor(m.segments[i], ids, ranges, m.segments[..i]);
      if !described {
        return false;
      }
    }
    assert m.segments[..|m.segments|] == m.segments;
    DescriptorsApart(m.segments, ids);
    if !m.deferredSegments && dflash {
      return exists i :: 0 <= i < |m.segments| && IsDflash(m.components, m.segments[i].component);
    }
    return true;
  }

  lemma {:induction false} NothingRecorded()
    ensures Represents(map[], []) && Disjoint([])
  {
  }

  lemma {:induction false} DescriptorStep(segments: seq<Descriptor>, n: nat, ids: set<string>)
    requires n < |segments|
    ensures segments[..n + 1] == segments[..n] + [segments[n]]
    ensures DescriptorsOk(segments[..n + 1], ids) <==>
              && DescriptorsOk(segments[..n], ids) && segments[n].sequence == n
              && DescriptorOk(segments[n], ids) && Disjoint(segments[..n + 1])
    ensures DescriptorsOk(segments, ids) ==> DescriptorsOk(segments[..n + 1], ids)
  {
    hide DescriptorOk, Overlap;
    var a, b := segments[..n], segments[..n + 1];
    assert b == a + [segments[n]] && b[n] == segments[n];
    assert forall i :: 0 <= i < n ==> a[i] == b[i];
    assert forall i :: 0 <= i <= n ==> b[i] == segments[i];
    DisjointStep(a, segments[n]);
  }
}
