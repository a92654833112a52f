/** The manifest chain an export commits. */
module ExportChain {
  import opened Machine
  import opened Consts
  import opened Symbols
  import opened Chunking
  import opened Shapes
  import opened StateKeys
  import opened Families
  import DependencyGraph
  import opened CutManifests
  import opened ExportPlan
  import opened ExportBuild
  import PrefixChain

  // ---------------------------------------------------------------------
  // The cuts
  // ---------------------------------------------------------------------

  /** One node a checkpoint, the last at the end of the tokens. */
  predicate NodesOk(nodes: seq<Node>, final: nat) {
    && nodes != []
    && (forall i :: 0 <= i < |nodes| ==> nodes[i].id != ZeroId)
    && (forall i :: 0 <= i < |nodes| - 1 ==> nodes[i].tokenCount == BLOCK * (i + 1))
    && BLOCK * (|nodes| - 1) < final && nodes[|nodes| - 1].tokenCount == final
  }

  /** The prefix chain of a nonempty prompt is such a list. */
  lemma {:induction false} ChainNodesOk(c: PrefixChain.Context, tokens: seq<u32>)
    requires tokens != []
    ensures NodesOk(PrefixChain.Nodes(c, tokens), |tokens|)
  {
    hide PrefixChain.TipAfter;
    var nodes := PrefixChain.Nodes(c, tokens);
    forall i | 0 <= i < |nodes|
      ensures nodes[i].id != ZeroId && nodes[i].tokenCount == Min(BLOCK * (i + 1), |tokens|)
    {
      assert nodes[i] == PrefixChain.NodeAt(c, tokens, i);
      NodeIdIsKeyed(c, tokens, i);
    }
  }

  lemma {:induction false} NodeIdIsKeyed(c: PrefixChain.Context, tokens: seq<u32>, i: nat)
    requires i < PrefixChain.Blocks(|tokens|)
    ensures PrefixChain.NodeAt(c, tokens, i).id != ZeroId
  {
  }

  // ---------------------------------------------------------------------
  // The chain
  // ---------------------------------------------------------------------

  predicate SiteOk(site: Site) {
    && site.tenant != ZeroId && site.keyEpoch != 0 && SemanticOk(site.semantic) && site.auxiliaryRoot != ZeroId
  }

  function DepthOf(kind: Kind): nat {
    if kind.Full? then 0 else kind.depth
  }

  /** Every eighth manifest is full, the others extend their predecessor. */
  predicate LinkOk(ms: seq<Manifest>, i: nat)
    requires i < |ms|
  {
    if i % (MAX_DELTA_DEPTH + 1) == 0 then ms[i].kind == Full
    else ms[i].kind == Delta(IdOf(ms[i - 1]), ms[i - 1].inputCut, i % (MAX_DELTA_DEPTH + 1))
  }

  predicate ChainOk(ms: seq<Manifest>, site: Site, nodes: seq<Node>) {
    && |ms| <= |nodes|
    && (forall i :: 0 <= i < |ms| ==> CutNamed(ms[i].inputCut, site, nodes[i]))
    && (forall i: nat | i < |ms| :: LinkOk(ms, i))
  }

  /** The token ranges found by following parents from a manifest. */
  function Ancestry(m: Manifest): seq<Run> {
    match m.kind
    case Full => [Run(0, m.inputCut.tokenCount)]
    case Delta(IdOf(parent), cut, _) =>
      if cut.tokenCount <= m.inputCut.tokenCount
      then Ancestry(parent) + [Run(cut.tokenCount, m.inputCut.tokenCount - cut.tokenCount)]
      else []
    case Delta(_, _, _) => []
  }

  /** From any cut, a full manifest is at most seven parents away, and the
      segments on the way tile the tokens before the cut exactly. */
  lemma {:induction false} ParentsTile(ms: seq<Manifest>, site: Site, nodes: seq<Node>, final: nat, i: nat)
    requires NodesOk(nodes, final) && ChainOk(ms, site, nodes) && i < |ms|
    ensures Tiles(Ancestry(ms[i]), 0, nodes[i].tokenCount)
    ensures |Ancestry(ms[i])| == i % (MAX_DELTA_DEPTH + 1) + 1 <= MAX_DELTA_DEPTH + 1
    decreases i
  {
    hide NodesOk, ChainOk, Tiles;
    LinkFacts(ms, site, nodes, i);
    CutsRise(nodes, final, i);
    if ms[i].kind.Full? {
      OneTile(0, nodes[i].tokenCount);
    } else {
      ParentsTile(ms, site, nodes, final, i - 1);
      LinkFacts(ms, site, nodes, i - 1);
      OneTile(nodes[i - 1].tokenCount, nodes[i].tokenCount);
      TilesConcat(Ancestry(ms[i - 1]), [Run(nodes[i - 1].tokenCount, nodes[i].tokenCount - nodes[i - 1].tokenCount)],
                  0, nodes[i - 1].tokenCount, nodes[i].tokenCount);
    }
  }

  lemma {:induction false} OneTile(from: nat, to: nat)
    requires from < to
    ensures Tiles([Run(from, to - from)], from, to)
  {
    assert [Run(from, to - from)][1..] == [];
  }

  lemma {:induction false} LinkFacts(ms: seq<Manifest>, site: Site, nodes: seq<Node>, i: nat)
    requires ChainOk(ms, site, nodes) && i < |ms|
    ensures i < |nodes| && ms[i].inputCut.tokenCount == nodes[i].tokenCount
    ensures ms[i].kind.Full? <==> i % (MAX_DELTA_DEPTH + 1) == 0
    ensures !ms[i].kind.Full? ==>
              && i > 0 && i % (MAX_DELTA_DEPTH + 1) == (i - 1) % (MAX_DELTA_DEPTH + 1) + 1
              && ms[i].kind == Delta(IdOf(ms[i - 1]), ms[i - 1].inputCut, i % (MAX_DELTA_DEPTH + 1))
  {
    assert LinkOk(ms, i);
  }

  lemma {:induction false} CutsRise(nodes: seq<Node>, final: nat, i: nat)
    requires NodesOk(nodes, final) && i < |nodes|
    ensures 0 < nodes[i].tokenCount <= final
    ensures i > 0 ==> nodes[i - 1].tokenCount < nodes[i].tokenCount && nodes[i - 1].tokenCount % BLOCK == 0
    ensures nodes[i].tokenCount % BLOCK == 0 || nodes[i].tokenCount == final
  {
  }

  /** A manifest carries the identities of its site and of the export. */
  predicate Signed(m: Manifest, e: Export, site: Site) {
    && m.tenant == site.tenant && m.keyEpoch == site.keyEpoch && m.semantic == site.semantic
    && m.family == e.family
  }

  datatype CommitError = NotBuilt | NotAccepted

  /** Commits one manifest a cut. It fails exactly for a zero identity or for
      a tail-window state at more than one cut; otherwise readers accept every
      manifest of the chain. */
  method Commit(e: Export, site: Site, completed: seq<StoredState>, nodes: seq<Node>)
    returns (r: Result<seq<Manifest>, CommitError>)
    requires CompletedOk(e, completed) && NodesOk(nodes, e.finalTokens)
    ensures r.Ok? <==> SiteOk(site) && (|nodes| == 1 || NoTail(e.family))
    ensures r.Ok? ==>
              && |r.value| == |nodes| && ChainOk(r.value, site, nodes)
              && forall i :: 0 <= i < |nodes| ==>
                   && ManifestOk(r.value[i], BoundsOf(e)) && Faithful(e, completed, r.value[i])
                   && Signed(r.value[i], e, site)
                   && r.value[i].inputCut.tokenRoot == nodes[i].id
                   && r.value[i].inputCut.auxiliaryRoot == site.auxiliaryRoot
                   && r.value[i].inputCut.tokenCount == nodes[i].tokenCount
  {
    hide CompletedOk, NodesOk, ManifestOk, NoTail, SemanticOk, Faithful;
    var manifests: seq<Manifest> := [];
    var depth := 0;
    SomeNode(nodes, e.finalTokens);
    for i := 0 to |nodes|
      invariant |manifests| == i && ChainOk(manifests, site, nodes)
      invariant forall j :: 0 <= j < i ==>
                  && ManifestOk(manifests[j], BoundsOf(e)) && Faithful(e, completed, manifests[j])
                  && Signed(manifests[j], e, site)
      invariant i > 0 ==> depth == DepthOf(manifests[i - 1].kind) == (i - 1) % (MAX_DELTA_DEPTH + 1)
      invariant i > 0 ==> SiteOk(site)
      invariant i > 1 ==> NoTail(e.family)
    {
      CutsRise(nodes, e.finalTokens, i);
      var kind := Full;
      if i > 0 && depth < MAX_DELTA_DEPTH {
        kind := Delta(IdOf(manifests[i - 1]), manifests[i - 1].inputCut, depth + 1);
      }
      assert i > 0 ==> CutNamed(manifests[i - 1].inputCut, site, nodes[i - 1]);
      var built := ManifestForCut(e, site, completed, nodes[i], kind);
      if built.Err? {
        return Err(NotBuilt);
      }
      var m := built.value;
      Accepted(e, site, nodes, i, m);
      FamilyWidths(e, completed);
      var valid := ValidateManifest(m, BoundsOf(e));
      if !valid {
        return Err(NotAccepted);
      }
      LinkGrows(manifests, site, nodes, m);
      manifests := manifests + [m];
      depth := DepthOf(kind);
    }
    return Ok(manifests);
  }

  lemma {:induction false} SomeNode(nodes: seq<Node>, final: nat)
    requires NodesOk(nodes, final)
    ensures |nodes| > 0
  {
  }

  /** What acceptance of the next manifest comes down to. */
  lemma {:induction false} Accepted(e: Export, site: Site, nodes: seq<Node>, i: nat, m: Manifest)
    requires NodesOk(nodes, e.finalTokens) && i < |nodes| && e.finalTokens < U64_LIMIT
    requires CutNamed(m.inputCut, site, nodes[i]) && m.tenant == site.tenant
    requires m.keyEpoch == site.keyEpoch && m.semantic == site.semantic
    requires m.kind.Delta? ==>
               && i > 0 && m.kind.parent.IdOf? && CutNamed(m.kind.parentCut, site, nodes[i - 1])
               && 1 <= m.kind.depth <= MAX_DELTA_DEPTH
    ensures IdentitiesOk(m) && KindOk(m) <==> SiteOk(site)
  {
    CutsRise(nodes, e.finalTokens, i);
    if i > 0 {
      CutsRise(nodes, e.finalTokens, i - 1);
    }
  }

  lemma {:induction false} FamilyWidths(e: Export, completed: seq<StoredState>)
    requires CompletedOk(e, completed)
    ensures forall i :: 0 <= i < |e.family.states| ==> WidthOk(e.family.states[i].width)
  {
    hide WidthOk, FamilyOk;
    forall i | 0 <= i < |e.family.states| ensures WidthOk(e.family.states[i].width) {
      FamilyAxes(e.family, i);
    }
  }

  lemma {:induction false} LinkGrows(ms: seq<Manifest>, site: Site, nodes: seq<Node>, m: Manifest)
    requires ChainOk(ms, site, nodes) && |ms| < |nodes| && CutNamed(m.inputCut, site, nodes[|ms|])
    requires LinkOk(ms + [m], |ms|)
    ensures ChainOk(ms + [m], site, nodes)
  {
    forall i: nat | i < |ms + [m]| ensures LinkOk(ms + [m], i) {
      if i < |ms| {
        assert LinkOk(ms, i);
      }
    }
  }

  // ---------------------------------------------------------------------
  // The prompt behind the cuts
  // ---------------------------------------------------------------------

  /** Every cut of a prompt is the cut that its own tokens alone have. */
  lemma {:induction false} CutsOfPrompt(c: PrefixChain.Context, tokens: seq<u32>, i: nat)
    requires i < |PrefixChain.Nodes(c, tokens)|
    ensures var node := PrefixChain.Nodes(c, tokens)[i];
            && node.tokenCount == Min(BLOCK * (i + 1), |tokens|) <= |tokens|
            && PrefixChain.CutOf(c, tokens[..node.tokenCount]) ==
               PrefixChain.InputCut(node.id, c.auxiliaryRoot, node.tokenCount)
  {
    hide PrefixChain.TipAfter;
    PrefixChain.NodeIsCutRoot(c, tokens, i);
    assert PrefixChain.Nodes(c, tokens)[i] == PrefixChain.NodeAt(c, tokens, i);
  }

  /** Roots of two cuts are equal exactly for one context and equal tokens. */
  lemma {:induction false} RootsTell(
      c: PrefixChain.Context, a: seq<u32>, i: nat, d: PrefixChain.Context, b: seq<u32>, j: nat)
    requires i < |PrefixChain.Nodes(c, a)| && j < |PrefixChain.Nodes(d, b)|
    ensures var x, y := PrefixChain.Nodes(c, a)[i], PrefixChain.Nodes(d, b)[j];
            && x.tokenCount <= |a| && y.tokenCount <= |b|
            && (x.id == y.id <==> c == d && a[..x.tokenCount] == b[..y.tokenCount])
  {
    hide PrefixChain.TipAfter, PrefixChain.Covered, PrefixChain.Blocks;
    PrefixChain.NodeIdentity(c, a, i, d, b, j);
    assert PrefixChain.Nodes(c, a)[i] == PrefixChain.NodeAt(c, a, i);
    assert PrefixChain.Nodes(d, b)[j] == PrefixChain.NodeAt(d, b, j);
  }

  /** Derives the cuts of a prompt and commits a manifest at each. Manifest `i`
      stands for exactly the first 256 (i + 1) tokens, or for all of them: its
      cut is the one derived from those tokens alone, and no other cut of the
      prompt has its root. */
  method CommitPrompt(e: Export, key: Id, tenant: Id, keyEpoch: u64, semantic: SemanticModel, family: seq<byte>,
                      tokens: seq<u32>, inputs: seq<PrefixChain.AuxiliaryInput>, completed: seq<StoredState>)
    returns (r: Option<seq<Manifest>>)
    requires CompletedOk(e, completed) && e.finalTokens == |tokens|
    ensures var root := PrefixChain.AuxiliaryRoot(key, tenant, inputs);
            var c := PrefixChain.Context(key, tenant, semantic, family, root);
            && (r.Some? <==>
                  && PrefixChain.AuxiliaryOk(inputs) && 0 < PrefixChain.Blocks(|tokens|) <= MAX_CHUNKS_PER_STATE
                  && SiteOk(Site(tenant, keyEpoch, semantic, root))
                  && (PrefixChain.Blocks(|tokens|) == 1 || NoTail(e.family)))
            && (r.Some? ==>
                  && |r.value| == PrefixChain.Blocks(|tokens|)
                  && (forall i :: 0 <= i < |r.value| ==>
                        && Signed(r.value[i], e, Site(tenant, keyEpoch, semantic, root))
                        && Faithful(e, completed, r.value[i]) && ManifestOk(r.value[i], BoundsOf(e))
                        && r.value[i].inputCut.tokenCount == Min(BLOCK * (i + 1), |tokens|) <= |tokens|
                        && r.value[i].inputCut == PrefixChain.CutOf(c, tokens[..r.value[i].inputCut.tokenCount]))
                  && (forall i, j :: 0 <= i < j < |r.value| ==>
                        r.value[i].inputCut.tokenRoot != r.value[j].inputCut.tokenRoot))
  {
    hide CompletedOk, NodesOk, ManifestOk, NoTail, Faithful, SiteOk, Signed, ChainOk, PrefixChain.CutOf,
      PrefixChain.AuxiliaryOk, PrefixChain.AuxiliaryRoot, PrefixChain.NodeAt, PrefixChain.Blocks;
    var derived := PrefixChain.DeriveInputCut(key, tenant, semantic, family, tokens, inputs);
    if derived.None? {
      return None;
    }
    var cut, nodes := derived.value.0, derived.value.1;
    ghost var c :=
      PrefixChain.Context(key, tenant, semantic, family, PrefixChain.AuxiliaryRoot(key, tenant, inputs));
    LastIsFinal(c, tokens);
    if nodes == [] || |nodes| > MAX_CHUNKS_PER_STATE
       || nodes[|nodes| - 1].id != cut.tokenRoot || nodes[|nodes| - 1].tokenCount != cut.tokenCount
    {
      return None;
    }
    ChainNodesOk(c, tokens);
    var manifests := Commit(e, Site(tenant, keyEpoch, semantic, cut.auxiliaryRoot), completed, nodes);
    if manifests.Err? {
      return None;
    }
    r := Some(manifests.value);
    forall i | 0 <= i < |nodes|
      ensures && r.value[i].inputCut.tokenCount == Min(BLOCK * (i + 1), |tokens|) <= |tokens|
              && r.value[i].inputCut == PrefixChain.CutOf(c, tokens[..r.value[i].inputCut.tokenCount])
    {
      CutsOfPrompt(c, tokens, i);
    }
    forall i, j | 0 <= i < j < |nodes| ensures nodes[i].id != nodes[j].id {
      CutsOfPrompt(c, tokens, i);
      CutsOfPrompt(c, tokens, j);
      CutsRiseTo(nodes, |tokens|, i, j);
      RootsTell(c, tokens, i, c, tokens, j);
    }
  }

  lemma {:induction false} CutsRiseTo(nodes: seq<Node>, final: nat, i: nat, j: nat)
    requires NodesOk(nodes, final) && i < j < |nodes|
    ensures nodes[i].tokenCount < nodes[j].tokenCount
  {
  }

  /** The last node of a prompt is its final cut. */
  lemma {:induction false} LastIsFinal(c: PrefixChain.Context, tokens: seq<u32>)
    ensures tokens == [] <==> PrefixChain.Nodes(c, tokens) == []
    ensures tokens != [] ==>
              var nodes := PrefixChain.Nodes(c, tokens);
              && nodes[|nodes| - 1].id == PrefixChain.CutOf(c, tokens).tokenRoot
              && nodes[|nodes| - 1].tokenCount == |tokens|
    ensures PrefixChain.CutOf(c, tokens).auxiliaryRoot == c.auxiliaryRoot
    ensures PrefixChain.CutOf(c, tokens).tokenCount == |tokens|
    ensures |PrefixChain.Nodes(c, tokens)| == PrefixChain.Blocks(|tokens|)
  {
    hide PrefixChain.TipAfter;
    if tokens != [] {
      var n := PrefixChain.Blocks(|tokens|);
      PrefixChain.CoveredStep(|tokens|, n);
      assert PrefixChain.Nodes(c, tokens)[n - 1] == PrefixChain.NodeAt(c, tokens, n - 1);
    }
  }

  // ---------------------------------------------------------------------
  // A tail window at two cuts
  // ---------------------------------------------------------------------

  const TAIL_KEY := StateKey(0, [1])
  const TAIL_STATE := FamilyState(TAIL_KEY, 2, 1, true, TailWindow, 0, 1, [Token], [])
  const TAIL_EXPORT :=
    Export(Family(GivenId(0), GivenId(0), GivenId(0), true, 1, [TAIL_STATE]), [Declaration(TAIL_KEY, [1], 1)], 257, 514)
  const TAIL_STORED := StoredState(TAIL_KEY, [TailChunk(0, 256), TailChunk(256, 1)])
  const TAIL_SITE :=
    Site(GivenId(0), 1, PrefixChain.SemanticModel(GivenId(0), GivenId(0), GivenId(0), GivenId(0), GivenId(0)),
         GivenId(0))

  function TailChunk(start: u32, count: u16): StoredChunk {
    StoredChunk(ChunkRef(GivenId(0), GivenId(0), GivenId(0), 1, 2 * count, 2 * ALIGNMENT),
                Span(start, count, 2 * start, 2 * count))
  }

  lemma {:induction false} TailFamilyOk()
    ensures FamilyOk(TAIL_EXPORT.family) && FixedVolume([Token]) == 1 && BytesPerToken(TAIL_STATE) == 2
  {
    var nodes := Nodes([TAIL_STATE]);
    assert FixedVolume([Token][1..]) == 1;
    assert nodes[0] == DependencyGraph.Node(TAIL_KEY, []);
    var graph := map[TAIL_KEY := []];
    DependencyGraph.TopologicalAcyclic(graph, [TAIL_KEY]);
    assert DependencyGraph.GraphOf(nodes, graph) && DependencyGraph.Acyclic(graph);
  }

  lemma {:induction false} TailShape()
    ensures ShapeFor([Token], 257) == [257] && Volume([257]) == 257 && Strides([257]) == [1]
    ensures Footprint([257], [1], 2) == 514
  {
  }

  lemma {:induction false} TailExportOk()
    ensures ExportOk(TAIL_EXPORT) && !NoTail(TAIL_EXPORT.family) && SiteOk(TAIL_SITE)
  {
    TailFamilyOk();
    TailShape();
    assert Product(257, 2) == 514;
  }

  lemma {:induction false} TailStoredOk()
    ensures StoredOk(TAIL_STATE, TAIL_STORED, 257)
  {
    TailFamilyOk();
    var most := MostTokens(2);
    RunsFirst(0, 257, most);
    RunsFirst(256, 257, most);
    NoRuns(257, most);
    assert Runs(0, 257, most) == [Run(0, 256), Run(256, 1)];
  }

  /** An accepted export with a tail-window state, completely stored: over any
      prompt of 257 tokens it has two cuts, and the commit fails. */
  method TailWindowFails(c: PrefixChain.Context, tokens: seq<u32>) returns (r: Result<seq<Manifest>, CommitError>)
    requires |tokens| == 257
    ensures CompletedOk(TAIL_EXPORT, [TAIL_STORED]) && SiteOk(TAIL_SITE)
    ensures NodesOk(PrefixChain.Nodes(c, tokens), 257) && |PrefixChain.Nodes(c, tokens)| == 2
    ensures r.Err?
  {
    hide ExportOk, StoredOk, NoTail, SiteOk, NodesOk;
    TailExportOk();
    TailStoredOk();
    ChainNodesOk(c, tokens);
    r := Commit(TAIL_EXPORT, TAIL_SITE, [TAIL_STORED], PrefixChain.Nodes(c, tokens));
  }
}
