/** Restoring a state from a chain of manifests: the walk to the full root, the
    plan of chunk writes, and the writes in whatever order they arrive. */
module RestoreChain {
  import opened Machine
  import opened Consts
  import opened Symbols
  import opened Shapes
  import opened StateKeys
  import opened Families
  import opened CutManifests
  import opened ExportBuild
  import opened ExportChain

  // ---------------------------------------------------------------------
  // The walk to the root
  // ---------------------------------------------------------------------

  /** What the store gives for an identity. */
  type Loader = ManifestId -> Option<Manifest>

  /** A manifest is loaded only under its own digest, and only if it validates. */
  ghost predicate Authentic(load: Loader, bounds: Bounds) {
    forall id: ManifestId :: load(id).Some? ==> id == IdOf(load(id).value) && ManifestOk(load(id).value, bounds)
  }

  /** The prefix a candidate was matched for. */
  datatype Expectation = Expectation(semantic: SemanticModel, family: Family, cut: InputCut)

  predicate Meets(m: Manifest, expected: Option<Expectation>) {
    expected.Some? ==>
      && m.semantic == expected.value.semantic && m.family == expected.value.family
      && m.inputCut == expected.value.cut
  }

  /** One model, one family, one tenant and one key epoch. */
  predicate Alike(a: Manifest, b: Manifest) {
    a.semantic == b.semantic && a.family == b.family && a.tenant == b.tenant && a.keyEpoch == b.keyEpoch
  }

  /** A parent found where the child says it is, and alike. */
  predicate Joined(child: Manifest, parent: Manifest, leaf: Manifest) {
    && child.kind.Delta? && child.kind.parent == IdOf(parent) && child.kind.parentCut == parent.inputCut
    && child.kind.depth == DepthOf(parent.kind) + 1 && Alike(parent, leaf)
  }

  /** Every ancestor up to a full manifest loads and is joined to its child. */
  predicate Rooted(load: Loader, m: Manifest, leaf: Manifest) {
    match m.kind
    case Full => true
    case Delta(IdOf(parent), _, _) =>
      load(IdOf(parent)) == Some(parent) && Joined(m, parent, leaf) && Rooted(load, parent, leaf)
    case Delta(_, _, _) => false
  }

  /** The ancestors of a manifest, oldest first, and the manifest. */
  function Lineage(m: Manifest): (chain: seq<Manifest>)
    ensures |chain| > 0 && chain[|chain| - 1] == m
  {
    match m.kind
    case Full => [m]
    case Delta(IdOf(parent), _, _) => Lineage(parent) + [m]
    case Delta(_, _, _) => [m]
  }

  lemma {:induction false} LineageStep(child: Manifest, parent: Manifest)
    requires child.kind.Delta? && child.kind.parent == IdOf(parent)
    ensures Lineage(child) == Lineage(parent) + [child] && |Lineage(child)| == |Lineage(parent)| + 1
  {
  }

  lemma {:induction false} RootedStep(load: Loader, child: Manifest, leaf: Manifest)
    requires child.kind.Delta?
    ensures child.kind.parent.IdOf? ==>
              var parent := child.kind.parent.manifest;
              Rooted(load, child, leaf) <==>
                load(IdOf(parent)) == Some(parent) && Joined(child, parent, leaf) && Rooted(load, parent, leaf)
    ensures !child.kind.parent.IdOf? ==> !Rooted(load, child, leaf)
  {
  }

  datatype ChainError = NotLoaded | NotExpected | DepthOrCycle | BadParent | NoRoot

  lemma {:induction false} LoadedIs(load: Loader, bounds: Bounds, id: ManifestId)
    requires Authentic(load, bounds) && load(id).Some?
    ensures id == IdOf(load(id).value) && KindOk(load(id).value)
  {
    hide FamilyOk, StatesOk, GroupsOk, SegmentTotal, CompleteTotal, CountsOk, IdentitiesOk;
  }

  /** Loads the parent a manifest names. */
  method LoadParent(load: Loader, child: Manifest, leaf: Manifest, ghost bounds: Bounds)
    returns (r: Result<Manifest, ChainError>)
    requires Authentic(load, bounds) && child.kind.Delta?
    ensures r.Ok? ==> load(IdOf(r.value)) == Some(r.value) && Joined(child, r.value, leaf) && KindOk(r.value)
    ensures r.Err? ==> (r.error.NotLoaded? || r.error.BadParent?) && !Rooted(load, child, leaf)
  {
    hide Authentic, KindOk, Rooted, Lineage;
    RootedStep(load, child, leaf);
    var found := load(child.kind.parent);
    if found.None? {
      return Err(NotLoaded);
    }
    LoadedIs(load, bounds, child.kind.parent);
    var m := found.value;
    if m.inputCut != child.kind.parentCut || !Alike(m, leaf) || DepthOf(m.kind) + 1 != child.kind.depth {
      return Err(BadParent);
    }
    return Ok(m);
  }

  /** A chain on its way to the root: child by child down to the leaf. */
  ghost predicate Descends(chain: seq<Manifest>, leaf: Manifest) {
    && chain != [] && Lineage(leaf) == Lineage(chain[0]) + chain[1..]
    && DepthOf(chain[0].kind) + |chain| == DepthOf(leaf.kind) + 1
    && forall i :: 0 <= i < |chain| ==> |Lineage(chain[i])| == |Lineage(chain[0])| + i
  }

  lemma {:induction false} DescendsStart(leaf: Manifest)
    ensures Descends([leaf], leaf)
  {
    assert [leaf][1..] == [] && Lineage(leaf) + [] == Lineage(leaf);
  }

  lemma {:induction false} Regroup(ancestors: seq<Manifest>, chain: seq<Manifest>)
    requires chain != []
    ensures (ancestors + [chain[0]]) + chain[1..] == ancestors + chain
  {
  }

  lemma {:induction false} OneMore(chain: seq<Manifest>, parent: Manifest, i: nat)
    requires i <= |chain| && chain != [] && |Lineage(chain[0])| == |Lineage(parent)| + 1
    requires forall i :: 0 <= i < |chain| ==> |Lineage(chain[i])| == |Lineage(chain[0])| + i
    ensures |Lineage(([parent] + chain)[i])| == |Lineage(parent)| + i
  {
    hide Lineage;
    if i > 0 {
      assert ([parent] + chain)[i] == chain[i - 1];
    }
  }

  lemma {:induction false} DescendsStep(chain: seq<Manifest>, parent: Manifest, leaf: Manifest)
    requires Descends(chain, leaf) && Joined(chain[0], parent, leaf)
    ensures Descends([parent] + chain, leaf)
  {
    hide Lineage, Alike;
    var all := [parent] + chain;
    assert all[1..] == chain;
    LineageStep(chain[0], parent);
    Regroup(Lineage(parent), chain);
    forall i | 0 <= i < |all| ensures |Lineage(all[i])| == |Lineage(all[0])| + i {
      OneMore(chain, parent, i);
    }
  }

  /** A parent has fewer ancestors than its descendants: no chain has a cycle. */
  lemma {:induction false} ParentIsNew(chain: seq<Manifest>, parent: ManifestId, leaf: Manifest)
    requires Descends(chain, leaf) && chain[0].kind.Delta? && chain[0].kind.parent == parent
    ensures forall i :: 0 <= i < |chain| ==> IdOf(chain[i]) != parent
  {
    hide Lineage;
    if parent.IdOf? {
      LineageStep(chain[0], parent.manifest);
    }
  }

  lemma {:induction false} AtRoot(load: Loader, chain: seq<Manifest>, leaf: Manifest)
    requires Descends(chain, leaf) && chain[0].kind.Full?
    ensures chain == Lineage(leaf) && |chain| == DepthOf(leaf.kind) + 1 && Rooted(load, chain[0], leaf)
  {
  }

  /** Follows parents from a leaf to its full root. It succeeds exactly if the
      leaf is the expected one and every ancestor loads, sits where its child
      says and is alike. Neither the guard against cycles and depths nor the
      closing check of root and length ever fires. */
  method AuthenticateChain(load: Loader, leafId: ManifestId, expected: Option<Expectation>, ghost bounds: Bounds)
    returns (r: Result<seq<Manifest>, ChainError>)
    requires Authentic(load, bounds)
    ensures r.Ok? <==>
              && load(leafId).Some? && Meets(load(leafId).value, expected)
              && Rooted(load, load(leafId).value, load(leafId).value)
    ensures r.Ok? ==> r.value == Lineage(load(leafId).value)
    ensures r.Ok? || r == Err(NotLoaded) || r == Err(NotExpected) || r == Err(BadParent)
  {
    hide Authentic, ManifestOk, Rooted, Lineage, Descends;
    var loaded := load(leafId);
    if loaded.None? {
      return Err(NotLoaded);
    }
    var leaf := loaded.value;
    LoadedIs(load, bounds, leafId);
    if !Meets(leaf, expected) {
      return Err(NotExpected);
    }
    var chain, seen := [leaf], {leafId};
    DescendsStart(leaf);
    while chain[0].kind.Delta?
      invariant chain != [] && Descends(chain, leaf) && KindOk(chain[0])
      invariant forall id :: id in seen ==> exists i :: 0 <= i < |chain| && id == IdOf(chain[i])
      invariant Rooted(load, leaf, leaf) <==> Rooted(load, chain[0], leaf)
      decreases chain[0]
    {
      var parent, depth := chain[0].kind.parent, chain[0].kind.depth;
      ParentIsNew(chain, parent, leaf);
      if depth == 0 || depth > MAX_DELTA_DEPTH || parent in seen {
        return Err(DepthOrCycle);
      }
      var found := LoadParent(load, chain[0], leaf, bounds);
      if found.Err? {
        return Err(found.error);
      }
      DescendsStep(chain, found.value, leaf);
      RootedStep(load, chain[0], leaf);
      var longer := [found.value] + chain;
      assert forall i :: 0 <= i < |chain| ==> longer[i + 1] == chain[i];
      seen, chain := seen + {parent}, longer;
    }
    AtRoot(load, chain, leaf);
    if !chain[0].kind.Full? || |chain| != DepthOf(leaf.kind) + 1 {
      return Err(NoRoot);
    }
    return Ok(chain);
  }
}
