/** The chunk writes that restore a chain of manifests. */
module RestorePlan {
  import opened Machine
  import opened Consts
  import opened Shapes
  import opened StateKeys
  import opened Families
  import opened CutManifests
  import opened ExportBuild
  import opened ExportChain
  import opened RestoreChain

  // ---------------------------------------------------------------------
  // Operations
  // ---------------------------------------------------------------------

  /** One write: the chunk of a state, and where its plaintext goes. */
  datatype Operation = Operation(key: StateKey, span: Span, target: int, reference: ChunkRef)

  /** A tail window is restored from its own start, any other state from the
      first token. */
  function TargetOf(fs: FamilyState, r: Realized, span: Span): int {
    if fs.rule.TailWindow? then span.offset - Product(r.logicalStart, BytesPerToken(fs)) else span.offset
  }

  /** The writes of a state, one a chunk and in order. */
  function StateOps(fs: FamilyState, r: Realized, p: Payload): (ops: seq<Operation>)
    ensures |ops| == Min(|r.spans|, |p.chunks|)
  {
    seq(Min(|r.spans|, |p.chunks|), j requires 0 <= j < |r.spans| && j < |p.chunks| =>
      Operation(p.key, r.spans[j], TargetOf(fs, r, r.spans[j]), p.chunks[j]))
  }

  datatype PlanError = RangeOverflow | StatesChanged | NotComposable | BeforeRange | Uncovered | TooMany

  lemma {:induction false} SpanAfter(fs: FamilyState, r: Realized, span: Span, token: nat)
    requires r.logicalStart <= token && SpanOk(span, token, BytesPerToken(fs))
    ensures TargetOf(fs, r, span) >= 0
  {
    hide Product;
    ProductMonotone(BytesPerToken(fs), r.logicalStart, token);
  }

  lemma {:induction false} SpanFitsRange(
      spans: seq<Span>, chunks: seq<ChunkRef>, token: nat, end: nat, bytesPerToken: nat)
    requires |spans| == |chunks| && spans != [] && SpansOk(spans, chunks, token, end, bytesPerToken)
    ensures SpanOk(spans[0], token, bytesPerToken) && token + spans[0].tokenCount <= end
    ensures SpansOk(spans[1..], chunks[1..], token + spans[0].tokenCount, end, bytesPerToken)
  {
    hide SpanOk, ChunkRefOk;
    SpansAdvance(spans[1..], chunks[1..], token + spans[0].tokenCount, end, bytesPerToken);
  }

  /** Plans one state. It fails exactly if the state does not start where the
      chain has got to. */
  method PlanState(fs: FamilyState, r: Realized, p: Payload, expected: u64, ghost maxChunks: nat)
    returns (res: Result<seq<Operation>, PlanError>, next: u64)
    requires ChunksOk(fs, r, p, maxChunks) && r.logicalStart + r.logicalCount < U64_LIMIT
    ensures res.Ok? <==> expected == r.logicalStart
    ensures res.Ok? ==>
              next == r.logicalStart + r.logicalCount && res.value == StateOps(fs, r, p)
  {
    hide Product, BytesPerToken, SpanOk, ChunkRefOk, SpansOk, TargetOf;
    ghost var end := r.logicalStart + r.logicalCount;
    var ops: seq<Operation> := [];
    next := expected;
    assert r.spans[0..] == r.spans && p.chunks[0..] == p.chunks;
    for j := 0 to |r.spans|
      invariant ops == StateOps(fs, r, p)[..j] && (j == 0 ==> next == expected)
      invariant j > 0 ==> expected == r.logicalStart
      invariant expected == r.logicalStart ==>
                  next >= r.logicalStart && SpansOk(r.spans[j..], p.chunks[j..], next, end, BytesPerToken(fs))
    {
      var span := r.spans[j];
      ghost var token := if j == 0 then r.logicalStart else next;
      SpanFitsRange(r.spans[j..], p.chunks[j..], token, end, BytesPerToken(fs));
      SpanFields(span, token, BytesPerToken(fs));
      assert r.spans[j..][1..] == r.spans[j + 1..] && p.chunks[j..][1..] == p.chunks[j + 1..];
      if span.tokenStart != next || span.offset != Product(span.tokenStart, BytesPerToken(fs)) {
        return Err(NotComposable), next;
      }
      SpanAfter(fs, r, span, token);
      if next + span.tokenCount >= U64_LIMIT {
        return Err(RangeOverflow), next;
      }
      var target := TargetOf(fs, r, span);
      if target < 0 {
        return Err(BeforeRange), next;
      }
      next := next + span.tokenCount;
      ops := ops + [Operation(p.key, span, target, p.chunks[j])];
    }
    NoSpans(r.spans[|r.spans|..], p.chunks[|r.spans|..], next, end, BytesPerToken(fs));
    return Ok(ops), next;
  }

  lemma {:induction false} SpanFields(span: Span, token: nat, bytesPerToken: nat)
    requires SpanOk(span, token, bytesPerToken)
    ensures span.tokenStart == token && span.offset == Product(token, bytesPerToken)
  {
  }

  lemma {:induction false} NoSpans(spans: seq<Span>, chunks: seq<ChunkRef>, token: nat, end: nat, bytesPerToken: nat)
    requires spans == [] && chunks == []
    ensures SpansOk(spans, chunks, token, end, bytesPerToken) <==> token == end
  {
  }

  // ---------------------------------------------------------------------
  // One manifest
  // ---------------------------------------------------------------------

  /** The writes of the first `n` states of a manifest. */
  function ManifestOps(m: Manifest, n: nat): seq<Operation>
    requires n <= |m.family.states| && n <= |m.realized| && n <= |m.states|
  {
    if n == 0 then []
    else ManifestOps(m, n - 1) + StateOps(m.family.states[n - 1], m.realized[n - 1], m.states[n - 1])
  }

  function EndOfState(r: Realized): nat {
    r.logicalStart + r.logicalCount
  }

  predicate SameCounts(m: Manifest) {
    |m.family.states| == |m.realized| == |m.states|
  }

  /** What validation says of state `k`. */
  lemma {:induction false} StateIsValid(m: Manifest, bounds: Bounds, k: nat)
    requires ManifestOk(m, bounds) && k < |m.states|
    ensures SameCounts(m) && m.states[k].key == m.family.states[k].key
    ensures ChunksOk(m.family.states[k], m.realized[k], m.states[k], bounds.maxChunksPerState)
    ensures EndOfState(m.realized[k]) == m.inputCut.tokenCount < U64_LIMIT
    ensures m.family.states[k].rule.TailWindow? ==> m.kind.Full?
    ensures !m.family.states[k].rule.TailWindow? ==> m.realized[k].logicalStart == CutStart(m.kind)
  {
    hide IdentitiesOk, FamilyOk, KindOk, GroupsOk, SegmentTotal, CompleteTotal, ChunksOk, StridesOk, BytesOk,
      FootprintsOk, ShapeFor, OneToken;
    assert StateOk(m.family.states[k], m.realized[k], m.states[k], m.kind, m.inputCut.tokenCount,
                   bounds.maxChunksPerState);
  }

  lemma {:induction false} KeysDiffer(m: Manifest, bounds: Bounds, i: nat, j: nat)
    requires ManifestOk(m, bounds) && i < j < |m.states|
    ensures m.states[i].key != m.states[j].key
  {
    StateIsValid(m, bounds, i);
    StateIsValid(m, bounds, j);
    hide IdentitiesOk, KindOk, GroupsOk, SegmentTotal, CompleteTotal, StatesOk, DependenciesOk, FamilyStateOk,
      Ascending, ChunksOk;
    AscendingDistinct(KeysOf(m.family.states), i, j);
  }

  type Progress = map<StateKey, u64>

  /** Each state from `from` on has got to where this manifest takes it up. */
  predicate Ready(next: Progress, m: Manifest, from: nat)
    requires SameCounts(m)
  {
    forall k :: from <= k < |m.states| ==>
      m.states[k].key in next && next[m.states[k].key] == m.realized[k].logicalStart
  }

  predicate Reached(next: Progress, m: Manifest, upTo: nat)
    requires SameCounts(m) && upTo <= |m.states|
  {
    forall k :: 0 <= k < upTo ==> m.states[k].key in next && next[m.states[k].key] == EndOfState(m.realized[k])
  }

  lemma {:induction false} ProgressStep(next: Progress, m: Manifest, bounds: Bounds, k: nat, end: u64)
    requires ManifestOk(m, bounds) && SameCounts(m) && k < |m.states| && end == EndOfState(m.realized[k])
    requires Reached(next, m, k)
    ensures Reached(next[m.states[k].key := end], m, k + 1)
    ensures Ready(next, m, k + 1) <==> Ready(next[m.states[k].key := end], m, k + 1)
  {
    hide ManifestOk;
    forall j | 0 <= j < |m.states| && j != k ensures m.states[j].key != m.states[k].key {
      KeysDiffer(m, bounds, Min(j, k), if j < k then k else j);
    }
  }

  /** Plans one manifest. It fails exactly if some state is not ready for it. */
  method PlanManifest(m: Manifest, before: Progress, ghost bounds: Bounds)
    returns (r: Result<seq<Operation>, PlanError>, next: Progress)
    requires ManifestOk(m, bounds) && SameCounts(m)
    ensures r.Ok? <==> Ready(before, m, 0)
    ensures r.Ok? ==> r.value == ManifestOps(m, |m.states|) && Reached(next, m, |m.states|)
  {
    hide ManifestOk, ChunksOk, StateOps, Ready, Reached;
    next := before;
    var ops: seq<Operation> := [];
    NothingReached(next, m);
    for k := 0 to |m.states|
      invariant ops == ManifestOps(m, k) && Reached(next, m, k)
      invariant Ready(before, m, 0) <==> Ready(next, m, k)
    {
      StateIsValid(m, bounds, k);
      ReadyStep(next, m, k);
      var key := m.states[k].key;
      if key !in next {
        return Err(StatesChanged), next;
      }
      var planned, end := PlanState(
        m.family.states[k], m.realized[k], m.states[k], next[key], bounds.maxChunksPerState);
      if planned.Err? {
        return Err(planned.error), next;
      }
      ProgressStep(next, m, bounds, k, end);
      next := next[key := end];
      ops := ops + planned.value;
    }
    AllReady(next, m);
    return Ok(ops), next;
  }

  lemma {:induction false} NothingReached(next: Progress, m: Manifest)
    requires SameCounts(m)
    ensures Reached(next, m, 0)
  {
  }

  lemma {:induction false} AllReady(next: Progress, m: Manifest)
    requires SameCounts(m)
    ensures Ready(next, m, |m.states|)
  {
  }

  lemma {:induction false} ReadyStep(next: Progress, m: Manifest, k: nat)
    requires SameCounts(m) && k < |m.states|
    ensures Ready(next, m, k) <==>
              && m.states[k].key in next && next[m.states[k].key] == m.realized[k].logicalStart
              && Ready(next, m, k + 1)
  {
    hide EndOfState;
  }

  // ---------------------------------------------------------------------
  // A chain
  // ---------------------------------------------------------------------

  /** A chain that was authenticated: valid manifests alike, a full root, and
      every other joined to the one before. */
  ghost predicate Composed(chain: seq<Manifest>, leaf: Manifest, bounds: Bounds) {
    && chain != [] && chain[0].kind.Full?
    && (forall i :: 0 <= i < |chain| ==> ManifestOk(chain[i], bounds) && Alike(chain[i], leaf))
    && (forall i :: 0 < i < |chain| ==> Joined(chain[i], chain[i - 1], leaf))
  }

  lemma {:induction false} AuthenticIsComposed(load: Loader, bounds: Bounds, m: Manifest, leaf: Manifest)
    requires Authentic(load, bounds) && ManifestOk(m, bounds) && Alike(m, leaf) && Rooted(load, m, leaf)
    ensures Composed(Lineage(m), leaf, bounds)
    decreases m
  {
    hide ManifestOk, Alike;
    if m.kind.Full? {
    } else {
      var parent := m.kind.parent.manifest;
      assert load(IdOf(parent)).Some?;
      AuthenticIsComposed(load, bounds, parent, leaf);
      LineageStep(m, parent);
    }
  }

  function ChainOps(chain: seq<Manifest>): seq<Operation>
    requires forall i :: 0 <= i < |chain| ==> SameCounts(chain[i])
  {
    if chain == [] then []
    else
      var m := chain[|chain| - 1];
      assert SameCounts(m);
      ChainOps(chain[..|chain| - 1]) + ManifestOps(m, |m.states|)
  }

  lemma {:induction false} ComposedCounts(chain: seq<Manifest>, leaf: Manifest, bounds: Bounds)
    requires Composed(chain, leaf, bounds)
    ensures forall i :: 0 <= i < |chain| ==> SameCounts(chain[i]) && |chain[i].states| == |leaf.family.states|
  {
    hide IdentitiesOk, FamilyOk, KindOk, GroupsOk, SegmentTotal, CompleteTotal, StatesOk, Joined;
  }

  /** The next manifest takes every state up where the last one left it. */
  lemma {:induction false} Handover(chain: seq<Manifest>, leaf: Manifest, bounds: Bounds, c: nat, next: Progress)
    requires Composed(chain, leaf, bounds) && 0 < c < |chain| && SameCounts(chain[c - 1]) && SameCounts(chain[c])
    requires |chain[c - 1].states| == |chain[c].states| && Reached(next, chain[c - 1], |chain[c - 1].states|)
    ensures Ready(next, chain[c], 0)
  {
    hide ManifestOk, ChunksOk;
    assert Joined(chain[c], chain[c - 1], leaf) && Alike(chain[c - 1], leaf) && Alike(chain[c], leaf);
    forall k | 0 <= k < |chain[c].states|
      ensures chain[c].states[k].key in next && next[chain[c].states[k].key] == chain[c].realized[k].logicalStart
    {
      StateIsValid(chain[c - 1], bounds, k);
      StateIsValid(chain[c], bounds, k);
    }
  }

  /** Where the states of the root begin. */
  method Begin(root: Manifest, ghost bounds: Bounds) returns (next: Progress)
    requires ManifestOk(root, bounds) && SameCounts(root)
    ensures Ready(next, root, 0)
  {
    hide ManifestOk;
    next := map[];
    for k := 0 to |root.states|
      invariant forall j :: 0 <= j < k ==>
                  root.states[j].key in next && next[root.states[j].key] == root.realized[j].logicalStart
    {
      forall j | 0 <= j < k ensures root.states[j].key != root.states[k].key {
        KeysDiffer(root, bounds, j, k);
      }
      next := next[root.states[k].key := root.realized[k].logicalStart];
    }
  }

  /** The plan of an authenticated chain never fails to compose, to cover the
      cut or to stay in range; it fails exactly if it has more writes than the
      bound on a single manifest allows. */
  method BuildScatterPlan(chain: seq<Manifest>, ghost bounds: Bounds) returns (r: Result<seq<Operation>, PlanError>)
    requires chain != [] && Composed(chain, chain[|chain| - 1], bounds)
    ensures forall i :: 0 <= i < |chain| ==> SameCounts(chain[i])
    ensures r == if |ChainOps(chain)| <= MAX_CHUNKS_PER_STATE * |chain[|chain| - 1].states|
                 then Ok(ChainOps(chain)) else Err(TooMany)
  {
    hide ManifestOk, Composed, Ready, Reached, ManifestOps;
    var leaf := chain[|chain| - 1];
    ComposedCounts(chain, leaf, bounds);
    ComposedValid(chain, leaf, bounds, 0);
    var next := Begin(chain[0], bounds);
    var ops: seq<Operation> := [];
    for c := 0 to |chain|
      invariant ops == ChainOps(chain[..c])
      invariant c == 0 ==> Ready(next, chain[0], 0)
      invariant c > 0 ==> Reached(next, chain[c - 1], |chain[c - 1].states|)
    {
      if c > 0 {
        Handover(chain, leaf, bounds, c, next);
      }
      ComposedValid(chain, leaf, bounds, c);
      var planned, after := PlanManifest(chain[c], next, bounds);
      match planned
      case Err(error) =>
        return Err(error);
      case Ok(more) =>
        ops, next := ops + more, after;
        assert chain[..c + 1][..c] == chain[..c];
    }
    assert chain[..|chain|] == chain;
    var covered := Covers(next, leaf);
    if !covered {
      return Err(Uncovered);
    }
    if |ops| > MAX_CHUNKS_PER_STATE * |leaf.states| {
      return Err(TooMany);
    }
    return Ok(ops);
  }

  method Covers(next: Progress, leaf: Manifest) returns (ok: bool)
    requires SameCounts(leaf)
    ensures ok <==> Reached(next, leaf, |leaf.states|)
  {
    for k := 0 to |leaf.states|
      invariant Reached(next, leaf, k)
    {
      var key := leaf.states[k].key;
      if key !in next || next[key] != EndOfState(leaf.realized[k]) {
        return false;
      }
    }
    return true;
  }

  lemma {:induction false} ComposedValid(chain: seq<Manifest>, leaf: Manifest, bounds: Bounds, i: nat)
    requires Composed(chain, leaf, bounds) && i < |chain|
    ensures ManifestOk(chain[i], bounds) && Alike(chain[i], leaf)
    ensures if i == 0 then chain[i].kind.Full? else Joined(chain[i], chain[i - 1], leaf)
  {
    hide ManifestOk, Alike, Joined;
  }
}
