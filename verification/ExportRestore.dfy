/** From an export back to its bytes: every cut of every export restores to the
    first bytes of each state. */
module ExportRestore {
  import opened Machine
  import opened Consts
  import opened Shapes
  import opened StateKeys
  import opened Families
  import opened CutManifests
  import opened Chunking
  import opened ExportPlan
  import opened ExportBuild
  import opened ExportChain
  import opened Staging
  import opened ExportWriting
  import opened RestoreChain
  import opened RestorePlan
  import opened RestoreRun
  import Permutations
  import StateWriting

  // ---------------------------------------------------------------------
  // Which chunk a write is for
  // ---------------------------------------------------------------------

  predicate AllCounted(chain: seq<Manifest>) {
    forall c :: 0 <= c < |chain| ==> SameCounts(chain[c])
  }

  /** Write `op` is that of chunk `j` of state `k`. */
  predicate WriteOf(op: Operation, m: Manifest, k: nat, j: nat)
    requires SameCounts(m)
  {
    && k < |m.states| && j < |m.realized[k].spans| && j < |m.states[k].chunks|
    && op == Operation(m.states[k].key, m.realized[k].spans[j],
                       TargetOf(m.family.states[k], m.realized[k], m.realized[k].spans[j]), m.states[k].chunks[j])
  }

  /** Every write is for a chunk of the chain. */
  lemma {:induction false} WriteInManifest(m: Manifest, n: nat, at: nat) returns (k: nat, j: nat)
    requires SameCounts(m) && n <= |m.states| && at < |ManifestOps(m, n)|
    ensures k < n && WriteOf(ManifestOps(m, n)[at], m, k, j)
    decreases n
  {
    hide TargetOf;
    var before := ManifestOps(m, n - 1);
    if at < |before| {
      k, j := WriteInManifest(m, n - 1, at);
    } else {
      k, j := n - 1, at - |before|;
    }
  }

  lemma {:induction false} WriteInChain(chain: seq<Manifest>, at: nat) returns (c: nat, k: nat, j: nat)
    requires AllCounted(chain) && at < |ChainOps(chain)|
    ensures c < |chain| && WriteOf(ChainOps(chain)[at], chain[c], k, j)
    decreases |chain|
  {
    hide ManifestOps, WriteOf;
    var n := |chain| - 1;
    var before := ChainOps(chain[..n]);
    if at < |before| {
      c, k, j := WriteInChain(chain[..n], at);
    } else {
      c := n;
      k, j := WriteInManifest(chain[n], |chain[n].states|, at - |before|);
    }
  }

  /** Every chunk of the chain has a write. */
  lemma {:induction false} ManifestWrites(m: Manifest, n: nat, k: nat, j: nat) returns (at: nat)
    requires SameCounts(m) && k < n <= |m.states| && j < |m.realized[k].spans| && j < |m.states[k].chunks|
    ensures at < |ManifestOps(m, n)| && WriteOf(ManifestOps(m, n)[at], m, k, j)
    decreases n
  {
    hide TargetOf;
    if k < n - 1 {
      at := ManifestWrites(m, n - 1, k, j);
    } else {
      at := |ManifestOps(m, n - 1)| + j;
    }
  }

  lemma {:induction false} ChainWrites(chain: seq<Manifest>, c: nat, k: nat, j: nat) returns (at: nat)
    requires AllCounted(chain) && c < |chain| && k < |chain[c].states|
    requires j < |chain[c].realized[k].spans| && j < |chain[c].states[k].chunks|
    ensures at < |ChainOps(chain)| && WriteOf(ChainOps(chain)[at], chain[c], k, j)
    decreases |chain|
  {
    hide ManifestOps, WriteOf;
    var n := |chain| - 1;
    if c < n {
      at := ChainWrites(chain[..n], c, k, j);
    } else {
      at := ManifestWrites(chain[n], |chain[n].states|, k, j);
      at := |ChainOps(chain[..n])| + at;
    }
  }

  // ---------------------------------------------------------------------
  // Spans
  // ---------------------------------------------------------------------

  lemma {:induction false} ProductSum(a: nat, b: nat, x: nat)
    ensures Product(a + b, x) == Product(a, x) + Product(b, x)
  {
    AsProduct(a, x);
    AsProduct(b, x);
    AsProduct(a + b, x);
  }

  lemma {:induction false} ProductUpTo(a: nat, b: nat, x: nat)
    requires a <= b
    ensures Product(a, x) <= Product(b, x)
  {
    hide Product;
    ProductSum(a, b - a, x);
  }

  /** Each span of a partition lies inside it. */
  lemma {:induction false} SpanInside(
      spans: seq<Span>, refs: seq<ChunkRef>, token: nat, end: nat, bytesPerToken: nat, j: nat)
    requires |spans| == |refs| && SpansOk(spans, refs, token, end, bytesPerToken) && j < |spans|
    ensures token <= end
    ensures Product(token, bytesPerToken) <= spans[j].offset
    ensures spans[j].offset + spans[j].bytes <= Product(end, bytesPerToken)
    decreases |spans|
  {
    hide Product, ChunkRefOk;
    SpansAdvance(spans, refs, token, end, bytesPerToken);
    var mid := token + spans[0].tokenCount;
    ProductSum(token, spans[0].tokenCount, bytesPerToken);
    if j == 0 {
      SpansAdvance(spans[1..], refs[1..], mid, end, bytesPerToken);
      ProductUpTo(mid, end, bytesPerToken);
    } else {
      SpanInside(spans[1..], refs[1..], mid, end, bytesPerToken, j - 1);
    }
  }

  /** Each byte of a partition lies in one of its spans. */
  lemma {:induction false} SpanOver(
      spans: seq<Span>, refs: seq<ChunkRef>, token: nat, end: nat, bytesPerToken: nat, x: nat) returns (j: nat)
    requires |spans| == |refs| && SpansOk(spans, refs, token, end, bytesPerToken)
    requires Product(token, bytesPerToken) <= x < Product(end, bytesPerToken)
    ensures j < |spans| && spans[j].offset <= x < spans[j].offset + spans[j].bytes
    decreases |spans|
  {
    hide Product, ChunkRefOk;
    var mid := token + spans[0].tokenCount;
    ProductSum(token, spans[0].tokenCount, bytesPerToken);
    if x < Product(mid, bytesPerToken) {
      j := 0;
    } else {
      j := SpanOver(spans[1..], refs[1..], mid, end, bytesPerToken, x);
      j := j + 1;
    }
  }

  // ---------------------------------------------------------------------
  // What a chain holds
  // ---------------------------------------------------------------------

  /** Two plaintexts of one span never share a name: it is a keyed digest. */
  ghost predicate Injective(name: Naming) {
    forall p: seq<byte>, q: seq<byte>, s: Span :: |p| == |q| == s.bytes && name(p, s) == name(q, s) ==> p == q
  }

  /** A chunk is served only if its plaintext has the length of the span and
      the name of the reference. */
  ghost predicate Checked(fetch: Fetch, name: Naming, key: StateKey) {
    forall op: Operation :: op.key == key && fetch(op).Some? ==>
      |fetch(op).value| == op.span.bytes && name(fetch(op).value, op.span) == op.reference
  }

  /** State `k` in every manifest of the chain. */
  ghost predicate ChainHolds(chain: seq<Manifest>, k: nat, bytesPerToken: nat, name: Naming, data: seq<byte>) {
    forall c :: 0 <= c < |chain| ==> StateHeld(chain[c], k, bytesPerToken, name, data)
  }

  /** What an exported state is restored to goes where it came from. */
  lemma {:induction false} TargetIsOffset(m: Manifest, bounds: Bounds, k: nat, name: Naming, data: seq<byte>, j: nat)
    requires ManifestOk(m, bounds) && SameCounts(m) && k < |m.states| && j < |m.realized[k].spans|
    requires StateHeld(m, k, BytesPerToken(m.family.states[k]), name, data)
    ensures TargetOf(m.family.states[k], m.realized[k], m.realized[k].spans[j]) == m.realized[k].spans[j].offset
  {
    StateIsValid(m, bounds, k);
    hide ManifestOk, Product, BytesPerToken, ChunkRefOk;
    if m.family.states[k].rule.TailWindow? {
      assert m.realized[k].logicalStart == 0;
      ProductStep(0, BytesPerToken(m.family.states[k]));
    }
  }

  /** The boundary after manifest `c` of a chain. */
  function CutAt(chain: seq<Manifest>, c: nat): nat
    requires c < |chain|
  {
    chain[c].inputCut.tokenCount
  }

  /** Every manifest but the first begins where the one before it ends. */
  lemma {:induction false} CutsLink(chain: seq<Manifest>, leaf: Manifest, bounds: Bounds, c: nat)
    requires Composed(chain, leaf, bounds) && c < |chain|
    ensures c == 0 ==> CutStart(chain[c].kind) == 0
    ensures c > 0 ==> CutStart(chain[c].kind) == CutAt(chain, c - 1) < CutAt(chain, c)
  {
    hide Composed, Alike, IdentitiesOk, FamilyOk, GroupsOk, SegmentTotal, CompleteTotal, StatesOk, CountsOk;
    ComposedValid(chain, leaf, bounds, c);
  }

  lemma {:induction false} CutsGrow(chain: seq<Manifest>, leaf: Manifest, bounds: Bounds, c: nat)
    requires Composed(chain, leaf, bounds) && c < |chain|
    ensures CutAt(chain, c) <= CutAt(chain, |chain| - 1)
    decreases |chain| - c
  {
    hide Composed;
    if c == |chain| - 1 {
    } else {
      CutsGrow(chain, leaf, bounds, c + 1);
      CutsLink(chain, leaf, bounds, c + 1);
    }
  }

  /** Each token before the cut belongs to one manifest of the chain. */
  lemma {:induction false} ManifestOver(
      chain: seq<Manifest>, leaf: Manifest, bounds: Bounds, last: nat, bytesPerToken: nat, x: nat) returns (c: nat)
    requires Composed(chain, leaf, bounds) && last < |chain| && x < Product(CutAt(chain, last), bytesPerToken)
    ensures c <= last && Product(CutStart(chain[c].kind), bytesPerToken) <= x < Product(CutAt(chain, c), bytesPerToken)
    decreases last
  {
    hide Product, Composed;
    CutsLink(chain, leaf, bounds, last);
    if last == 0 {
      c := 0;
      ProductStep(0, bytesPerToken);
    } else if x < Product(CutAt(chain, last - 1), bytesPerToken) {
      c := ManifestOver(chain, leaf, bounds, last - 1, bytesPerToken, x);
    } else {
      c := last;
    }
  }

  // ---------------------------------------------------------------------
  // What a cut restores to
  // ---------------------------------------------------------------------

  /** The first tokens of each of the first `n` states. */
  function CutContents(states: seq<FamilyState>, streams: seq<seq<byte>>, tokens: nat, n: nat): Contents
    requires n <= |states| == |streams|
    requires forall k :: 0 <= k < |states| ==> Product(tokens, BytesPerToken(states[k])) <= |streams[k]|
  {
    if n == 0 then map[]
    else
      CutContents(states, streams, tokens, n - 1)[
        states[n - 1].key := streams[n - 1][..Product(tokens, BytesPerToken(states[n - 1]))]]
  }

  lemma {:induction false} ContentsAt(states: seq<FamilyState>, streams: seq<seq<byte>>, tokens: nat, n: nat, k: nat)
    requires k < n <= |states| == |streams| && Ascending(KeysOf(states))
    requires forall k :: 0 <= k < |states| ==> Product(tokens, BytesPerToken(states[k])) <= |streams[k]|
    ensures states[k].key in CutContents(states, streams, tokens, n)
    ensures CutContents(states, streams, tokens, n)[states[k].key] ==
            streams[k][..Product(tokens, BytesPerToken(states[k]))]
    decreases n
  {
    hide Product, BytesPerToken, Ascending;
    if k == n - 1 {
    } else {
      ContentsAt(states, streams, tokens, n - 1, k);
      AscendingDistinct(KeysOf(states), k, n - 1);
    }
  }

  lemma {:induction false} ContentsOnly(
      states: seq<FamilyState>, streams: seq<seq<byte>>, tokens: nat, n: nat, key: StateKey) returns (k: nat)
    requires n <= |states| == |streams|
    requires forall k :: 0 <= k < |states| ==> Product(tokens, BytesPerToken(states[k])) <= |streams[k]|
    requires key in CutContents(states, streams, tokens, n)
    ensures k < n && states[k].key == key
    decreases n
  {
    hide Product, BytesPerToken;
    if key == states[n - 1].key {
      k := n - 1;
    } else {
      k := ContentsOnly(states, streams, tokens, n - 1, key);
    }
  }

  /** A chunk that passes its checks is the bytes of the stream it was cut
      from. */
  lemma {:induction false} ServedIsCut(fetch: Fetch, name: Naming, op: Operation, stream: seq<byte>)
    requires Injective(name) && Checked(fetch, name, op.key) && fetch(op).Some?
    requires Stamped(name, StoredChunk(op.reference, op.span), stream)
    ensures fetch(op).value == stream[op.span.offset..op.span.offset + op.span.bytes]
  {
    var was := stream[op.span.offset..op.span.offset + op.span.bytes];
    assert |fetch(op).value| == |was| == op.span.bytes && name(fetch(op).value, op.span) == name(was, op.span);
  }

  /** A write of a manifest stays before the manifest's cut. */
  lemma {:induction false} WriteInside(
      m: Manifest, bounds: Bounds, k: nat, j: nat, op: Operation, name: Naming, stream: seq<byte>)
    requires ManifestOk(m, bounds) && SameCounts(m) && WriteOf(op, m, k, j)
    requires StateHeld(m, k, BytesPerToken(m.family.states[k]), name, stream)
    ensures 0 <= op.target == op.span.offset && Stamped(name, StoredChunk(op.reference, op.span), stream)
    ensures op.span.offset + op.span.bytes <= Product(m.inputCut.tokenCount, BytesPerToken(m.family.states[k]))
  {
    hide Product, BytesPerToken, ManifestOk, SpansOk, TargetOf, Stamped;
    TargetIsOffset(m, bounds, k, name, stream, j);
    SpanInside(m.realized[k].spans, m.states[k].chunks, CutStart(m.kind), m.inputCut.tokenCount,
               BytesPerToken(m.family.states[k]), j);
  }

  lemma {:induction false} SlicesAgree(stream: seq<byte>, cut: nat, lo: nat, hi: nat)
    requires lo <= hi <= cut <= |stream|
    ensures stream[..cut][lo..hi] == stream[lo..hi]
  {
  }

  /** The write puts what it is served where it belongs. */
  lemma {:induction false} WriteServes(
      chain: seq<Manifest>, leaf: Manifest, bounds: Bounds, c: nat, k: nat, j: nat, op: Operation, fetch: Fetch,
      name: Naming, stream: seq<byte>, contents: Contents)
    requires Composed(chain, leaf, bounds) && c < |chain| && SameCounts(chain[c]) && k < |leaf.family.states|
    requires WriteOf(op, chain[c], k, j)
    requires StateHeld(chain[c], k, BytesPerToken(leaf.family.states[k]), name, stream)
    requires Injective(name) && Checked(fetch, name, op.key)
    requires Product(CutAt(chain, |chain| - 1), BytesPerToken(leaf.family.states[k])) <= |stream|
    requires op.key in contents
    requires contents[op.key] == stream[..Product(CutAt(chain, |chain| - 1), BytesPerToken(leaf.family.states[k]))]
    ensures Serves(fetch, op, contents)
  {
    hide Product, BytesPerToken, ManifestOk, Composed, SpansOk, TargetOf, Stamped, WriteOf, Injective, Checked,
      StateHeld;
    var bytesPerToken := BytesPerToken(leaf.family.states[k]);
    ComposedValid(chain, leaf, bounds, c);
    CutsGrow(chain, leaf, bounds, c);
    WriteInside(chain[c], bounds, k, j, op, name, stream);
    ProductUpTo(CutAt(chain, c), CutAt(chain, |chain| - 1), bytesPerToken);
    SlicesAgree(stream, Product(CutAt(chain, |chain| - 1), bytesPerToken), op.span.offset,
                op.span.offset + op.span.bytes);
    if fetch(op).Some? {
      ServedIsCut(fetch, name, op, stream);
    }
  }

  /** Each byte of a manifest's own tokens is in the place of one of its writes. */
  lemma {:induction false} ByteInManifest(
      m: Manifest, bounds: Bounds, k: nat, name: Naming, stream: seq<byte>, x: nat) returns (j: nat)
    requires ManifestOk(m, bounds) && SameCounts(m) && k < |m.states|
    requires StateHeld(m, k, BytesPerToken(m.family.states[k]), name, stream)
    requires Product(CutStart(m.kind), BytesPerToken(m.family.states[k])) <= x
    requires x < Product(m.inputCut.tokenCount, BytesPerToken(m.family.states[k]))
    ensures j < |m.realized[k].spans| && j < |m.states[k].chunks|
    ensures var span := m.realized[k].spans[j];
            var target := TargetOf(m.family.states[k], m.realized[k], span);
            target <= x < target + span.bytes
  {
    hide Product, BytesPerToken, ManifestOk, SpansOk, TargetOf, Stamped;
    j := SpanOver(m.realized[k].spans, m.states[k].chunks, CutStart(m.kind), m.inputCut.tokenCount,
                  BytesPerToken(m.family.states[k]), x);
    TargetIsOffset(m, bounds, k, name, stream, j);
  }

  /** Each byte before the cut is in the place of some write. */
  lemma {:induction false} ByteCovered(
      chain: seq<Manifest>, leaf: Manifest, bounds: Bounds, k: nat, name: Naming, stream: seq<byte>, x: nat)
    requires Composed(chain, leaf, bounds) && chain != [] && AllCounted(chain) && k < |leaf.family.states|
    requires ChainHolds(chain, k, BytesPerToken(leaf.family.states[k]), name, stream)
    requires x < Product(CutAt(chain, |chain| - 1), BytesPerToken(leaf.family.states[k]))
    ensures CoveredAt(ChainOps(chain), leaf.family.states[k].key, x)
  {
    hide Product, BytesPerToken, ManifestOk, Composed, ChainOps, TargetOf, StateHeld, ChunksOk;
    ComposedCounts(chain, leaf, bounds);
    var c := ManifestOver(chain, leaf, bounds, |chain| - 1, BytesPerToken(leaf.family.states[k]), x);
    ComposedValid(chain, leaf, bounds, c);
    var j := ByteInManifest(chain[c], bounds, k, name, stream, x);
    var at := ChainWrites(chain, c, k, j);
    StateIsValid(chain[c], bounds, k);
  }

  // ---------------------------------------------------------------------
  // How many writes
  // ---------------------------------------------------------------------

  predicate Chunkable(states: seq<FamilyState>) {
    forall k :: 0 <= k < |states| ==>
      0 < BytesPerToken(states[k]) <= MAX_CHUNK_PLAINTEXT && MostTokens(BytesPerToken(states[k])) > 0
  }

  /** The chunks of a token range, over the first `n` states. */
  function RunTotal(states: seq<FamilyState>, start: nat, cut: nat, n: nat): nat
    requires Chunkable(states) && n <= |states| && start <= cut
  {
    if n == 0 then 0
    else
      RunTotal(states, start, cut, n - 1) + |Runs(start, cut, MostTokens(BytesPerToken(states[n - 1])))|
  }

  lemma {:induction false} RunTotalSplits(states: seq<FamilyState>, mid: nat, cut: nat, n: nat)
    requires Chunkable(states) && n <= |states| && mid <= cut && mid % BLOCK == 0
    ensures RunTotal(states, 0, cut, n) == RunTotal(states, 0, mid, n) + RunTotal(states, mid, cut, n)
    decreases n
  {
    hide BytesPerToken, MostTokens, Runs;
    if n == 0 {
    } else {
      RunTotalSplits(states, mid, cut, n - 1);
      CheckpointSplits(0, mid, cut, MostTokens(BytesPerToken(states[n - 1])));
    }
  }

  lemma {:induction false} RunTotalBound(states: seq<FamilyState>, cut: nat, final: nat, n: nat)
    requires Chunkable(states) && n <= |states| && cut <= final && (cut % BLOCK == 0 || cut == final)
    requires forall k :: 0 <= k < n ==>
               ChunksAtCut(final, MostTokens(BytesPerToken(states[k]))) <= MAX_CHUNKS_PER_STATE
    ensures RunTotal(states, 0, cut, n) <= MAX_CHUNKS_PER_STATE * n
    decreases n
  {
    hide BytesPerToken, MostTokens, Runs, ChunksAtCut;
    if n == 0 {
    } else {
      var most := MostTokens(BytesPerToken(states[n - 1]));
      RunTotalBound(states, cut, final, n - 1);
      RunsCount(final, most);
      if cut < final {
        CheckpointSplits(0, cut, final, most);
      }
    }
  }

  lemma {:induction false} ManifestCount(m: Manifest, names: seq<Naming>, streams: seq<seq<byte>>, n: nat)
    requires SameCounts(m) && Chunkable(m.family.states) && n <= |m.states| <= |names| && |m.states| <= |streams|
    requires CutStart(m.kind) <= m.inputCut.tokenCount
    requires forall k :: 0 <= k < |m.states| ==>
               StateHeld(m, k, BytesPerToken(m.family.states[k]), names[k], streams[k])
    ensures |ManifestOps(m, n)| == RunTotal(m.family.states, CutStart(m.kind), m.inputCut.tokenCount, n)
    decreases n
  {
    hide BytesPerToken, MostTokens, Runs, SpansOk, Stamped;
    if n == 0 {
    } else {
      ManifestCount(m, names, streams, n - 1);
      assert StateHeld(m, n - 1, BytesPerToken(m.family.states[n - 1]), names[n - 1], streams[n - 1]);
    }
  }

  /** The whole export, in every manifest of the chain. */
  ghost predicate AllHeld(chain: seq<Manifest>, states: seq<FamilyState>, names: seq<Naming>, streams: seq<seq<byte>>) {
    && |states| == |names| == |streams|
    && forall k :: 0 <= k < |states| ==> ChainHolds(chain, k, BytesPerToken(states[k]), names[k], streams[k])
  }

  /** Manifests of one family, each from the cut before it, at checkpoints. */
  predicate Aligned(chain: seq<Manifest>, family: Family) {
    forall c: nat | c < |chain| :: AlignedAt(chain, family, c)
  }

  predicate AlignedAt(chain: seq<Manifest>, family: Family, c: nat)
    requires c < |chain|
  {
    && SameCounts(chain[c]) && chain[c].family == family && CutStart(chain[c].kind) <= CutAt(chain, c)
    && (c == 0 ==> CutStart(chain[c].kind) == 0)
    && (c > 0 ==> CutStart(chain[c].kind) == CutAt(chain, c - 1) && CutAt(chain, c - 1) % BLOCK == 0)
  }

  lemma {:induction false} AlignedLast(chain: seq<Manifest>, family: Family)
    requires Aligned(chain, family) && chain != []
    ensures var n := |chain| - 1;
            && SameCounts(chain[n]) && chain[n].family == family && Aligned(chain[..n], family)
            && CutStart(chain[n].kind) <= CutAt(chain, n)
            && CutStart(chain[n].kind) == (if n == 0 then 0 else CutAt(chain, n - 1))
            && (n > 0 ==> CutAt(chain, n - 1) % BLOCK == 0)
  {
    hide SameCounts;
    var n := |chain| - 1;
    assert AlignedAt(chain, family, n);
    forall c: nat | c < n ensures AlignedAt(chain[..n], family, c) {
      assert AlignedAt(chain, family, c);
    }
  }

  lemma {:induction false} HeldLast(
      chain: seq<Manifest>, states: seq<FamilyState>, names: seq<Naming>, streams: seq<seq<byte>>)
    requires AllHeld(chain, states, names, streams) && chain != []
    ensures |states| == |names| == |streams| && AllHeld(chain[..|chain| - 1], states, names, streams)
    ensures forall k :: 0 <= k < |states| ==>
              StateHeld(chain[|chain| - 1], k, BytesPerToken(states[k]), names[k], streams[k])
  {
    hide StateHeld, BytesPerToken;
    forall k | 0 <= k < |states|
      ensures StateHeld(chain[|chain| - 1], k, BytesPerToken(states[k]), names[k], streams[k])
      ensures ChainHolds(chain[..|chain| - 1], k, BytesPerToken(states[k]), names[k], streams[k])
    {
      assert ChainHolds(chain, k, BytesPerToken(states[k]), names[k], streams[k]);
    }
  }

  lemma {:induction false} OpsLast(chain: seq<Manifest>)
    requires AllCounted(chain) && chain != []
    ensures AllCounted(chain[..|chain| - 1]) && SameCounts(chain[|chain| - 1])
    ensures |ChainOps(chain)| ==
            |ChainOps(chain[..|chain| - 1])| + |ManifestOps(chain[|chain| - 1], |chain[|chain| - 1].states|)|
    ensures |chain| == 1 ==> |ChainOps(chain[..|chain| - 1])| == 0
  {
    hide SameCounts, ManifestOps;
    assert SameCounts(chain[|chain| - 1]);
  }

  /** A chain has as many writes as an export of the tokens before its cut has
      chunks. */
  lemma {:induction false} ChainCount(
      chain: seq<Manifest>, family: Family, names: seq<Naming>, streams: seq<seq<byte>>)
    requires Aligned(chain, family) && chain != [] && AllCounted(chain)
    requires Chunkable(family.states) && AllHeld(chain, family.states, names, streams)
    ensures |ChainOps(chain)| == RunTotal(family.states, 0, CutAt(chain, |chain| - 1), |family.states|)
    decreases |chain|
  {
    hide ManifestOps, RunTotal, StateHeld, BytesPerToken, Chunkable, Aligned, AllHeld, AllCounted, ChainOps;
    var n := |chain| - 1;
    AlignedLast(chain, family);
    HeldLast(chain, family.states, names, streams);
    OpsLast(chain);
    ManifestCount(chain[n], names, streams, |family.states|);
    if n == 0 {
    } else {
      ChainCount(chain[..n], family, names, streams);
      RunTotalSplits(family.states, CutAt(chain, n - 1), CutAt(chain, n), |family.states|);
    }
  }

  // ---------------------------------------------------------------------
  // An exported chain
  // ---------------------------------------------------------------------

  /** The first manifest on the way to manifest `i`: the full one before it. */
  function RootOf(i: nat): (root: nat)
    ensures root <= i
  {
    i - i % (MAX_DELTA_DEPTH + 1)
  }

  lemma {:induction false} RootStays(i: nat)
    ensures i % (MAX_DELTA_DEPTH + 1) == 0 ==> RootOf(i) == i
    ensures i % (MAX_DELTA_DEPTH + 1) != 0 ==> i > 0 && RootOf(i) == RootOf(i - 1)
  {
  }

  lemma {:induction false} LineageOfFull(m: Manifest)
    requires m.kind.Full?
    ensures Lineage(m) == [m]
  {
  }

  lemma {:induction false} LineageIs(ms: seq<Manifest>, site: Site, nodes: seq<Node>, i: nat)
    requires ChainOk(ms, site, nodes) && i < |ms|
    ensures Lineage(ms[i]) == ms[RootOf(i)..i + 1]
    decreases i
  {
    hide ChainOk, Lineage, RootOf;
    LinkFacts(ms, site, nodes, i);
    RootStays(i);
    if ms[i].kind.Full? {
      LineageOfFull(ms[i]);
    } else {
      LineageIs(ms, site, nodes, i - 1);
      LineageStep(ms[i], ms[i - 1]);
    }
  }

  lemma {:induction false} ExportIsRooted(
      load: Loader, e: Export, site: Site, nodes: seq<Node>, ms: seq<Manifest>, i: nat, leaf: Manifest)
    requires ChainOk(ms, site, nodes) && i < |ms| && Signed(leaf, e, site)
    requires forall j :: 0 <= j < |ms| ==> Signed(ms[j], e, site)
    requires forall j :: RootOf(i) <= j <= i ==> load(IdOf(ms[j])) == Some(ms[j])
    ensures Rooted(load, ms[i], leaf)
    decreases i
  {
    hide ChainOk, RootOf;
    LinkFacts(ms, site, nodes, i);
    if ms[i].kind.Full? {
    } else {
      LinkFacts(ms, site, nodes, i - 1);
      RootStays(i);
      ExportIsRooted(load, e, site, nodes, ms, i - 1, leaf);
    }
  }

  function Streams(data: seq<seq<seq<byte>>>): (streams: seq<seq<byte>>)
    ensures |streams| == |data| && forall k :: 0 <= k < |data| ==> streams[k] == StateWriting.Flatten(data[k])
  {
    seq(|data|, k requires 0 <= k < |data| => StateWriting.Flatten(data[k]))
  }

  ghost function Names(stores: seq<Store>): (names: seq<Naming>)
    ensures |names| == |stores| && forall k :: 0 <= k < |stores| ==> names[k] == stores[k].name
  {
    seq(|stores|, k requires 0 <= k < |stores| => stores[k].name)
  }

  predicate AllArrive(e: Export, data: seq<seq<seq<byte>>>) {
    |data| == |e.family.states| && forall k: nat | k < |data| :: StateArrives(e, data, k)
  }

  /** What an export leaves behind: its manifest chain, every state complete,
      and every manifest holding the bytes of its own tokens. */
  ghost predicate Exported(
      e: Export, site: Site, nodes: seq<Node>, stores: seq<Store>, data: seq<seq<seq<byte>>>, ms: seq<Manifest>)
  {
    && AllArrive(e, data) && |stores| == |data| && |ms| == |nodes|
    && NodesOk(nodes, e.finalTokens) && ChainOk(ms, site, nodes)
    && (forall i :: 0 <= i < |ms| ==> Signed(ms[i], e, site))
    && (forall k: nat, i | k < |data| && 0 <= i < |ms| ::
          StateHeld(ms[i], k, BytesPerToken(e.family.states[k]), stores[k].name, StateWriting.Flatten(data[k])))
  }

  /** The facts of a complete state. */
  lemma {:induction false} ArrivedFacts(e: Export, data: seq<seq<seq<byte>>>)
    requires AllArrive(e, data)
    ensures |data| == |e.family.states| && Chunkable(e.family.states)
    ensures forall k :: 0 <= k < |data| ==>
              && |StateWriting.Flatten(data[k])| == Product(e.finalTokens, BytesPerToken(e.family.states[k]))
              && ChunksAtCut(e.finalTokens, MostTokens(BytesPerToken(e.family.states[k]))) <= MAX_CHUNKS_PER_STATE
  {
    hide Product, BytesPerToken, MostTokens, ChunksAtCut, StateWriting.Flatten;
    forall k | 0 <= k < |data|
      ensures 0 < BytesPerToken(e.family.states[k]) <= MAX_CHUNK_PLAINTEXT
      ensures MostTokens(BytesPerToken(e.family.states[k])) > 0
      ensures |StateWriting.Flatten(data[k])| == Product(e.finalTokens, BytesPerToken(e.family.states[k]))
      ensures ChunksAtCut(e.finalTokens, MostTokens(BytesPerToken(e.family.states[k]))) <= MAX_CHUNKS_PER_STATE
    {
      assert StateArrives(e, data, k);
    }
  }

  lemma {:induction false} StreamsReach(e: Export, data: seq<seq<seq<byte>>>, tokens: nat)
    requires AllArrive(e, data) && tokens <= e.finalTokens
    ensures forall k :: 0 <= k < |data| ==>
              Product(tokens, BytesPerToken(e.family.states[k])) <= |Streams(data)[k]|
  {
    hide Product, BytesPerToken, StateWriting.Flatten, StateArrives, Chunkable;
    ArrivedFacts(e, data);
    forall k | 0 <= k < |data| ensures Product(tokens, BytesPerToken(e.family.states[k])) <= |Streams(data)[k]| {
      ProductUpTo(tokens, e.finalTokens, BytesPerToken(e.family.states[k]));
    }
  }

  /** What a cut restores to: the first tokens of every state. */
  function Restored(e: Export, data: seq<seq<seq<byte>>>, tokens: nat): Contents
    requires AllArrive(e, data) && tokens <= e.finalTokens
  {
    StreamsReach(e, data, tokens);
    CutContents(e.family.states, Streams(data), tokens, |data|)
  }

  /** Nothing but the export's states, each up to the cut. */
  lemma {:induction false} RestoredIs(e: Export, data: seq<seq<seq<byte>>>, tokens: nat)
    requires AllArrive(e, data) && tokens <= e.finalTokens && Ascending(KeysOf(e.family.states))
    ensures |data| == |e.family.states| && Restored(e, data, tokens).Keys == KeySet(e.family.states)
    ensures forall k :: 0 <= k < |data| ==>
              var fs := e.family.states[k];
              && fs.key in Restored(e, data, tokens)
              && 0 <= tokens * (fs.elementsPerToken * fs.width) <= |StateWriting.Flatten(data[k])|
              && Restored(e, data, tokens)[fs.key] ==
                 StateWriting.Flatten(data[k])[..tokens * (fs.elementsPerToken * fs.width)]
  {
    StreamsReach(e, data, tokens);
    var states, all := e.family.states, Restored(e, data, tokens);
    forall k | 0 <= k < |data|
      ensures states[k].key in all
      ensures 0 <= tokens * (states[k].elementsPerToken * states[k].width) <= |StateWriting.Flatten(data[k])|
      ensures all[states[k].key] ==
              StateWriting.Flatten(data[k])[..tokens * (states[k].elementsPerToken * states[k].width)]
    {
      hide CutContents, StateArrives, StateWriting.Flatten;
      ContentsAt(states, Streams(data), tokens, |data|, k);
      AsProduct(states[k].elementsPerToken, states[k].width);
      AsProduct(tokens, BytesPerToken(states[k]));
    }
    forall key | key in all ensures key in KeySet(states) {
      var k := ContentsOnly(states, Streams(data), tokens, |data|, key);
      assert KeysOf(states)[k] == key;
    }
    forall key | key in KeySet(states) ensures key in all {
      var k :| 0 <= k < |states| && KeysOf(states)[k] == key;
    }
  }

  /** The manifests on the way to cut `i` are aligned. */
  lemma {:induction false} LineageAligned(
      e: Export, site: Site, nodes: seq<Node>, stores: seq<Store>, data: seq<seq<seq<byte>>>, ms: seq<Manifest>,
      i: nat, bounds: Bounds)
    requires Exported(e, site, nodes, stores, data, ms) && i < |ms|
    requires Composed(ms[RootOf(i)..i + 1], ms[i], bounds) && AllCounted(ms[RootOf(i)..i + 1])
    ensures Aligned(ms[RootOf(i)..i + 1], e.family)
  {
    hide Composed, StateHeld, StateArrives, BytesPerToken, StateWriting.Flatten, RootOf, NodesOk, ChainOk, SameCounts;
    var root := RootOf(i);
    var chain := ms[root..i + 1];
    forall c: nat | c < |chain| ensures AlignedAt(chain, e.family, c) {
      assert SameCounts(chain[c]) && chain[c] == ms[root + c] && Signed(ms[root + c], e, site);
      LinkFacts(ms, site, nodes, root + c);
      CutsRise(nodes, e.finalTokens, root + c);
      CutsLink(chain, ms[i], bounds, c);
      if c > 0 {
        LinkFacts(ms, site, nodes, root + c - 1);
      }
    }
  }

  /** They hold every state. */
  lemma {:induction false} LineageHolds(
      e: Export, site: Site, nodes: seq<Node>, stores: seq<Store>, data: seq<seq<seq<byte>>>, ms: seq<Manifest>,
      i: nat)
    requires Exported(e, site, nodes, stores, data, ms) && i < |ms|
    ensures AllHeld(ms[RootOf(i)..i + 1], e.family.states, Names(stores), Streams(data))
  {
    hide StateHeld, StateArrives, BytesPerToken, StateWriting.Flatten, RootOf, NodesOk, ChainOk, Signed;
    var root := RootOf(i);
    var chain := ms[root..i + 1];
    forall k, c | 0 <= k < |data| && 0 <= c < |chain|
      ensures StateHeld(chain[c], k, BytesPerToken(e.family.states[k]), Names(stores)[k], Streams(data)[k])
    {
      assert chain[c] == ms[root + c];
      assert StateHeld(ms[root + c], k, BytesPerToken(e.family.states[k]), stores[k].name,
                       StateWriting.Flatten(data[k]));
    }
  }

  lemma {:induction false} CutOfExport(e: Export, site: Site, nodes: seq<Node>, ms: seq<Manifest>, i: nat)
    requires NodesOk(nodes, e.finalTokens) && ChainOk(ms, site, nodes) && i < |ms|
    ensures i < |nodes| && ms[i].inputCut.tokenCount == nodes[i].tokenCount <= e.finalTokens
    ensures nodes[i].tokenCount % BLOCK == 0 || nodes[i].tokenCount == e.finalTokens
  {
    hide NodesOk, ChainOk;
    LinkFacts(ms, site, nodes, i);
    CutsRise(nodes, e.finalTokens, i);
  }

  /** The plan of a cut stays within its bound. */
  lemma {:induction false} PlanFits(
      e: Export, site: Site, nodes: seq<Node>, stores: seq<Store>, data: seq<seq<seq<byte>>>, ms: seq<Manifest>,
      i: nat, bounds: Bounds)
    requires Exported(e, site, nodes, stores, data, ms) && i < |ms|
    requires Composed(ms[RootOf(i)..i + 1], ms[i], bounds) && AllCounted(ms[RootOf(i)..i + 1])
    ensures |ChainOps(ms[RootOf(i)..i + 1])| <= MAX_CHUNKS_PER_STATE * |e.family.states|
  {
    hide Composed, StateHeld, StateArrives, RootOf, NodesOk, ChainOk, AllCounted, Aligned, AllHeld, ChainOps,
      ChunksAtCut, BytesPerToken, MostTokens, Chunkable, RunTotal, Signed;
    LineageAligned(e, site, nodes, stores, data, ms, i, bounds);
    LineageHolds(e, site, nodes, stores, data, ms, i);
    ArrivedFacts(e, data);
    CutOfExport(e, site, nodes, ms, i);
    ChainCount(ms[RootOf(i)..i + 1], e.family, Names(stores), Streams(data));
    RunTotalBound(e.family.states, nodes[i].tokenCount, e.finalTokens, |e.family.states|);
  }

  lemma {:induction false} KeysAscend(m: Manifest, bounds: Bounds)
    requires ManifestOk(m, bounds)
    ensures Ascending(KeysOf(m.family.states))
  {
    hide IdentitiesOk, KindOk, GroupsOk, SegmentTotal, CompleteTotal, StatesOk, DependenciesOk, FamilyStateOk,
      Ascending;
  }

  /** The streams reach the cut, and their chunks are served as checked. */
  ghost predicate Servable(
      states: seq<FamilyState>, names: seq<Naming>, streams: seq<seq<byte>>, tokens: nat, fetch: Fetch)
  {
    && |states| == |names| == |streams|
    && forall k :: 0 <= k < |states| ==>
         && Product(tokens, BytesPerToken(states[k])) <= |streams[k]|
         && Injective(names[k]) && Checked(fetch, names[k], states[k].key)
  }

  lemma {:induction false} ChainServes(
      chain: seq<Manifest>, leaf: Manifest, bounds: Bounds, names: seq<Naming>, streams: seq<seq<byte>>,
      fetch: Fetch, at: nat)
    requires chain != [] && Composed(chain, leaf, bounds) && AllCounted(chain) && at < |ChainOps(chain)|
    requires AllHeld(chain, leaf.family.states, names, streams)
    requires Servable(leaf.family.states, names, streams, CutAt(chain, |chain| - 1), fetch)
    ensures Serves(fetch, ChainOps(chain)[at],
                   CutContents(leaf.family.states, streams, CutAt(chain, |chain| - 1), |leaf.family.states|))
  {
    hide Product, BytesPerToken, ManifestOk, Composed, ChainOps, TargetOf, StateHeld, ChunksOk, CutContents, Injective,
      Checked, Ascending, Serves;
    var states, tokens := leaf.family.states, CutAt(chain, |chain| - 1);
    ComposedCounts(chain, leaf, bounds);
    var c, k, j := WriteInChain(chain, at);
    ComposedValid(chain, leaf, bounds, c);
    KeysAscend(chain[c], bounds);
    StateIsValid(chain[c], bounds, k);
    ContentsAt(states, streams, tokens, |states|, k);
    assert ChainHolds(chain, k, BytesPerToken(states[k]), names[k], streams[k]);
    WriteServes(chain, leaf, bounds, c, k, j, ChainOps(chain)[at], fetch, names[k], streams[k],
                CutContents(states, streams, tokens, |states|));
  }

  lemma {:induction false} ChainCovers(
      chain: seq<Manifest>, leaf: Manifest, bounds: Bounds, names: seq<Naming>, streams: seq<seq<byte>>,
      fetch: Fetch)
    requires chain != [] && Composed(chain, leaf, bounds) && AllCounted(chain)
    requires AllHeld(chain, leaf.family.states, names, streams)
    requires Servable(leaf.family.states, names, streams, CutAt(chain, |chain| - 1), fetch)
    ensures Covered(ChainOps(chain),
                    CutContents(leaf.family.states, streams, CutAt(chain, |chain| - 1), |leaf.family.states|))
  {
    hide Product, BytesPerToken, ManifestOk, Composed, ChainOps, StateHeld, CutContents, Injective, Checked, Ascending,
      CoveredAt;
    var states, tokens := leaf.family.states, CutAt(chain, |chain| - 1);
    var contents := CutContents(states, streams, tokens, |states|);
    ComposedValid(chain, leaf, bounds, 0);
    KeysAscend(chain[0], bounds);
    forall key, x | key in contents && 0 <= x < |contents[key]| ensures CoveredAt(ChainOps(chain), key, x) {
      var k := ContentsOnly(states, streams, tokens, |states|, key);
      ContentsAt(states, streams, tokens, |states|, k);
      assert ChainHolds(chain, k, BytesPerToken(states[k]), names[k], streams[k]);
      ByteCovered(chain, leaf, bounds, k, names[k], streams[k], x);
    }
  }

  // ---------------------------------------------------------------------
  // Restoring a cut
  // ---------------------------------------------------------------------

  datatype RestoreFailure = NoChain | NoPlan | RunFailed(run: RestoreError)

  /** Every manifest on the way to cut `i` can be loaded. */
  predicate Published(load: Loader, ms: seq<Manifest>, i: nat)
    requires i < |ms|
  {
    forall j :: RootOf(i) <= j <= i ==> load(IdOf(ms[j])) == Some(ms[j])
  }

  ghost predicate AllChecked(fetch: Fetch, stores: seq<Store>, states: seq<FamilyState>) {
    && |stores| == |states|
    && forall k :: 0 <= k < |states| ==> Injective(stores[k].name) && Checked(fetch, stores[k].name, states[k].key)
  }

  lemma {:induction false} ExportServable(
      e: Export, stores: seq<Store>, data: seq<seq<seq<byte>>>, tokens: nat, fetch: Fetch)
    requires AllArrive(e, data) && |stores| == |data| && tokens <= e.finalTokens
    requires AllChecked(fetch, stores, e.family.states)
    ensures Servable(e.family.states, Names(stores), Streams(data), tokens, fetch)
  {
    hide Product, BytesPerToken, Injective, Checked, StateArrives;
    StreamsReach(e, data, tokens);
  }

  lemma {:induction false} Authenticated(
      e: Export, site: Site, nodes: seq<Node>, ms: seq<Manifest>, i: nat, load: Loader, bounds: Bounds)
    requires ChainOk(ms, site, nodes) && i < |ms| && forall j :: 0 <= j < |ms| ==> Signed(ms[j], e, site)
    requires Authentic(load, bounds) && Published(load, ms, i)
    ensures load(IdOf(ms[i])) == Some(ms[i]) && Rooted(load, ms[i], ms[i])
    ensures Lineage(ms[i]) == ms[RootOf(i)..i + 1] && Composed(ms[RootOf(i)..i + 1], ms[i], bounds)
    ensures AllCounted(ms[RootOf(i)..i + 1]) && |ms[i].states| == |e.family.states|
  {
    hide ChainOk, Rooted, Lineage, Composed, ManifestOk;
    ExportIsRooted(load, e, site, nodes, ms, i, ms[i]);
    LineageIs(ms, site, nodes, i);
    AuthenticIsComposed(load, bounds, ms[i], ms[i]);
    ComposedCounts(ms[RootOf(i)..i + 1], ms[i], bounds);
    assert ms[RootOf(i)..i + 1][i - RootOf(i)] == ms[i] && Signed(ms[i], e, site);
  }

  /** The plan of a cut writes what the cut restores to, and misses none of it. */
  lemma {:induction false} PlanIsRight(
      e: Export, site: Site, nodes: seq<Node>, stores: seq<Store>, data: seq<seq<seq<byte>>>, ms: seq<Manifest>,
      i: nat, bounds: Bounds, fetch: Fetch)
    requires Exported(e, site, nodes, stores, data, ms) && i < |ms| && AllChecked(fetch, stores, e.family.states)
    requires Composed(ms[RootOf(i)..i + 1], ms[i], bounds) && AllCounted(ms[RootOf(i)..i + 1])
    requires nodes[i].tokenCount <= e.finalTokens
    ensures var ops := ChainOps(ms[RootOf(i)..i + 1]);
            var contents := Restored(e, data, nodes[i].tokenCount);
            Covered(ops, contents) && forall at :: 0 <= at < |ops| ==> Serves(fetch, ops[at], contents)
  {
    hide Composed, StateHeld, StateArrives, RootOf, NodesOk, ChainOk, AllHeld, ChainOps, Covered, Serves, BytesPerToken,
      Product, AllChecked, Servable, CutContents;
    var chain := ms[RootOf(i)..i + 1];
    CutOfExport(e, site, nodes, ms, i);
    LineageHolds(e, site, nodes, stores, data, ms, i);
    ExportServable(e, stores, data, nodes[i].tokenCount, fetch);
    assert Signed(ms[i], e, site) && CutAt(chain, |chain| - 1) == nodes[i].tokenCount;
    ChainCovers(chain, ms[i], bounds, Names(stores), Streams(data), fetch);
    forall at | 0 <= at < |ChainOps(chain)|
      ensures Serves(fetch, ChainOps(chain)[at], Restored(e, data, nodes[i].tokenCount))
    {
      ChainServes(chain, ms[i], bounds, Names(stores), Streams(data), fetch, at);
    }
  }

  /** Nothing goes wrong while chunks are read back. */
  ghost predicate Calm(fetch: Fetch, takes: nat -> bool, cancelled: nat -> bool) {
    (forall op: Operation :: fetch(op).Some?) && forall i: nat :: takes(i) && !cancelled(i)
  }

  lemma {:induction false} CalmGoesThrough(
      ops: seq<Operation>, order: seq<nat>, fetch: Fetch, takes: nat -> bool, cancelled: nat -> bool)
    requires |order| == |ops| && Permutations.IsPermutation(order) && Calm(fetch, takes, cancelled)
    ensures AllGoThrough(ops, order, fetch, takes, cancelled)
  {
    forall i: nat | i < |ops| ensures GoesThrough(ops, order, fetch, takes, cancelled, i) {
      assert fetch(ops[order[i]]).Some? && takes(i) && !cancelled(i);
    }
  }

  /** Restores any cut of an export: the chain authenticates, the plan is made,
      and the chunks are written in whatever order they arrive. It succeeds
      exactly if every write goes through, and then every state has the very
      bytes of its first tokens. */
  method RestoreCut(
      e: Export, site: Site, nodes: seq<Node>, ms: seq<Manifest>, i: nat, load: Loader, fetch: Fetch,
      arrange: nat -> seq<nat>, takes: nat -> bool, cancelled: nat -> bool, blank: Contents,
      ghost stores: seq<Store>, ghost data: seq<seq<seq<byte>>>, ghost bounds: Bounds)
    returns (r: Result<Contents, RestoreFailure>)
    requires Exported(e, site, nodes, stores, data, ms) && i < |ms| && nodes[i].tokenCount <= e.finalTokens
    requires Authentic(load, bounds) && Published(load, ms, i) && AllChecked(fetch, stores, e.family.states)
    requires forall n :: |arrange(n)| == n && Permutations.IsPermutation(arrange(n))
    requires Fits(blank, Restored(e, data, nodes[i].tokenCount))
    ensures AllCounted(ms[RootOf(i)..i + 1])
    ensures var ops := ChainOps(ms[RootOf(i)..i + 1]);
            r.Ok? <==> AllGoThrough(ops, arrange(|ops|), fetch, takes, cancelled)
    ensures r.Ok? ==> r.value == Restored(e, data, nodes[i].tokenCount)
    ensures r.Err? ==> r.error.RunFailed?
    ensures Calm(fetch, takes, cancelled) ==> r.Ok?
  {
    hide NodesOk, ChainOk, Signed, StateHeld, StateArrives, Authentic, Published, AllChecked, Composed, Rooted, Lineage,
      ChainOps, Restored, Covered, Serves, Fits, AllGoThrough, RootOf, AllArrive, Permutations.IsPermutation,
      ManifestOk, Calm;
    Authenticated(e, site, nodes, ms, i, load, bounds);
    var expected := Expectation(ms[i].semantic, ms[i].family, ms[i].inputCut);
    var chain := AuthenticateChain(load, IdOf(ms[i]), Some(expected), bounds);
    if chain.Err? {
      return Err(NoChain);
    }
    var plan := BuildScatterPlan(chain.value, bounds);
    PlanFits(e, site, nodes, stores, data, ms, i, bounds);
    if plan.Err? {
      return Err(NoPlan);
    }
    PlanIsRight(e, site, nodes, stores, data, ms, i, bounds, fetch);
    var run := Execute(plan.value, arrange(|plan.value|), fetch, takes, cancelled, blank,
                       Restored(e, data, nodes[i].tokenCount));
    if Calm(fetch, takes, cancelled) {
      CalmGoesThrough(plan.value, arrange(|plan.value|), fetch, takes, cancelled);
    }
    return if run.Ok? then Ok(run.value) else Err(RunFailed(run.error));
  }

  // ---------------------------------------------------------------------
  // There and back
  // ---------------------------------------------------------------------

  /** A catalog that serves what was committed, and only under its own digest. */
  ghost predicate Publishes(publish: seq<Manifest> -> Loader, bounds: Bounds) {
    forall ms: seq<Manifest> :: (forall j :: 0 <= j < |ms| ==> ManifestOk(ms[j], bounds)) ==>
      Authentic(publish(ms), bounds) && forall j :: 0 <= j < |ms| ==> publish(ms)(IdOf(ms[j])) == Some(ms[j])
  }

  lemma {:induction false} PublishedBy(publish: seq<Manifest> -> Loader, bounds: Bounds, ms: seq<Manifest>, i: nat)
    requires Publishes(publish, bounds) && i < |ms| && forall j :: 0 <= j < |ms| ==> ManifestOk(ms[j], bounds)
    ensures Authentic(publish(ms), bounds) && Published(publish(ms), ms, i)
  {
    hide ManifestOk, Authentic;
  }

  /** Exports, and restores cut `i` of what was exported. Whatever comes back is
      the first tokens of every state, byte for byte; and with a working store
      and calm reads it comes back exactly if the export can be made. */
  method ExportThenRestore(
      e: Export, site: Site, nodes: seq<Node>, stores: seq<Store>, data: seq<seq<seq<byte>>>, i: nat,
      publish: seq<Manifest> -> Loader, fetch: Fetch, arrange: nat -> seq<nat>, takes: nat -> bool,
      cancelled: nat -> bool, blank: Contents)
    returns (r: Option<Contents>)
    requires ExportOk(e) && e.finalTokens <= U64_LIMIT - BLOCK && NodesOk(nodes, e.finalTokens)
    requires i < |nodes| && nodes[i].tokenCount <= e.finalTokens
    requires AllHonest(stores) && |stores| == |data| == |e.family.states|
    requires Publishes(publish, BoundsOf(e)) && AllChecked(fetch, stores, e.family.states)
    requires forall n :: |arrange(n)| == n && Permutations.IsPermutation(arrange(n))
    requires AllArrive(e, data) ==> Fits(blank, Restored(e, data, nodes[i].tokenCount))
    ensures r.Some? ==> AllArrive(e, data) && r.value == Restored(e, data, nodes[i].tokenCount)
    ensures AllHealthy(stores) && Calm(fetch, takes, cancelled) ==>
              (r.Some? <==> SiteOk(site) && (|nodes| == 1 || NoTail(e.family)) && AllArrive(e, data))
  {
    hide ExportOk, NodesOk, ChainOk, Signed, StateHeld, StateArrives, ManifestOk, Authentic, AllChecked, ChainOps,
      Restored, Fits, AllGoThrough, RootOf, Permutations.IsPermutation, AllHonest, AllHealthy, SiteOk, NoTail,
      Calm, BytesPerToken, StateWriting.Flatten, Publishes, Published, BoundsOf;
    var exported := ExportAll(e, site, nodes, stores, data);
    if exported.None? {
      return None;
    }
    var ms := exported.value;
    var load := publish(ms);
    PublishedBy(publish, BoundsOf(e), ms, i);
    var back := RestoreCut(e, site, nodes, ms, i, load, fetch, arrange, takes, cancelled, blank, stores, data,
                           BoundsOf(e));
    return if back.Ok? then Some(back.value) else None;
  }
}
