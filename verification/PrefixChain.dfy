/** The keyed prefix chain: one node per 256-token block. */
module PrefixChain {
  import opened Machine
  import opened Consts
  import opened LittleEndian
  import opened Symbols

  datatype SemanticModel = SemanticModel(
    weightsConfig: Id, adapters: Id, tokenizerTemplate: Id, positionSemantics: Id, qualifiedMath: Id)

  /** Everything a prefix identity binds besides the tokens. The family is
      its canonical encoding. */
  datatype Context = Context(
    key: Id, tenant: Id, semantic: SemanticModel, family: seq<byte>, auxiliaryRoot: Id)

  datatype PrefixNode = PrefixNode(tokenCount: nat, id: Id, reusable: bool)

  function SemanticModelId(m: SemanticModel): Id {
    Sha("kvpack/v1/semantic-model",
        [IdPart(m.weightsConfig), IdPart(m.adapters), IdPart(m.tokenizerTemplate),
         IdPart(m.positionSemantics), IdPart(m.qualifiedMath)])
  }

  function FamilyId(family: seq<byte>): Id {
    Sha("kvpack/v1/representation-family", [BytesPart(family)])
  }

  function ContextRoot(c: Context): Id {
    Hmac(c.key, "kvpack/v1/prefix-context",
         [IdPart(c.tenant), IdPart(SemanticModelId(c.semantic)), IdPart(FamilyId(c.family)),
          IdPart(c.auxiliaryRoot)])
  }

  function PrefixRoot(c: Context): Id {
    Hmac(c.key, "kvpack/v1/prefix-root", [IdPart(ContextRoot(c))])
  }

  function BlockId(c: Context, parent: Id, index: nat, block: seq<u32>): Id {
    Hmac(c.key, "kvpack/v1/prefix-node",
         [IdPart(ContextRoot(c)), IdPart(parent), NumberPart(index),
          NumberPart(index * BLOCK), NumberPart(|block|), NumberPart(4 * |block|),
          BytesPart(TokenBytes(block))])
  }

  /** How many blocks cover `n` tokens. */
  function Blocks(n: nat): nat {
    (n + BLOCK - 1) / BLOCK
  }

  /** Tokens covered by the first `i` blocks of `n` tokens. */
  function Covered(n: nat, i: nat): nat {
    if i * BLOCK <= n then i * BLOCK else n
  }

  lemma {:induction false} CoveredStep(n: nat, i: nat)
    ensures i < Blocks(n) <==> Covered(n, i) < n
    ensures i < Blocks(n) ==> Covered(n, i) == i * BLOCK
    ensures i < Blocks(n) ==> Covered(n, i + 1) == Min(Covered(n, i) + BLOCK, n)
    ensures Covered(n, i) <= Covered(n, i + 1) <= n
    ensures Covered(n, 0) == 0 && Covered(n, Blocks(n)) == n
  {
  }

  /** The chain tip after the first `i` blocks. */
  function TipAfter(c: Context, tokens: seq<u32>, i: nat): Id
    requires i <= Blocks(|tokens|)
  {
    if i == 0 then PrefixRoot(c)
    else BlockId(c, TipAfter(c, tokens, i - 1), i - 1,
                 tokens[Covered(|tokens|, i - 1)..Covered(|tokens|, i)])
  }

  function NodeAt(c: Context, tokens: seq<u32>, i: nat): PrefixNode
    requires i < Blocks(|tokens|)
  {
    PrefixNode(Covered(|tokens|, i + 1), TipAfter(c, tokens, i + 1),
               (i + 1) * BLOCK <= |tokens|)
  }

  function NodesUpTo(c: Context, tokens: seq<u32>, i: nat): (nodes: seq<PrefixNode>)
    requires i <= Blocks(|tokens|)
    ensures |nodes| == i
    ensures forall k :: 0 <= k < i ==> nodes[k] == NodeAt(c, tokens, k)
  {
    seq(i, k requires 0 <= k < i => NodeAt(c, tokens, k))
  }

  function Nodes(c: Context, tokens: seq<u32>): (nodes: seq<PrefixNode>) {
    NodesUpTo(c, tokens, Blocks(|tokens|))
  }

  method ChainPrefixNodes(c: Context, tokens: seq<u32>) returns (result: seq<PrefixNode>)
    ensures result == Nodes(c, tokens)
  {
    hide Blocks, Covered, BlockId, ContextRoot;
    CoveredStep(|tokens|, 0);
    result := [];
    var context := ContextRoot(c);
    var parent := Hmac(c.key, "kvpack/v1/prefix-root", [IdPart(context)]);
    var index, start := 0, 0;
    while start < |tokens|
      invariant index <= Blocks(|tokens|) && start == Covered(|tokens|, index)
      invariant parent == TipAfter(c, tokens, index)
      invariant result == NodesUpTo(c, tokens, index)
    {
      CoveredStep(|tokens|, index);
      CoveredStep(|tokens|, index + 1);
      var end := Min(start + BLOCK, |tokens|);
      var block := tokens[start..end];
      parent := BlockId(c, parent, index, block);
      result := result + [PrefixNode(start + |block|, parent, |block| == BLOCK)];
      index, start := index + 1, end;
    }
    CoveredStep(|tokens|, index);
  }

  // ---------------------------------------------------------------------
  // Identity of prefixes
  // ---------------------------------------------------------------------

  lemma {:induction false} ContextRootInjective(c: Context, d: Context)
    requires ContextRoot(c) == ContextRoot(d)
    ensures c == d
  {
    var p, q := ContextRoot(c).parts, ContextRoot(d).parts;
    assert p[0] == q[0] && p[1] == q[1] && p[2] == q[2] && p[3] == q[3];
    var s, u := SemanticModelId(c.semantic).parts, SemanticModelId(d.semantic).parts;
    assert s[0] == u[0] && s[1] == u[1] && s[2] == u[2] && s[3] == u[3] && s[4] == u[4];
    assert FamilyId(c.family).parts[0] == FamilyId(d.family).parts[0];
  }

  lemma {:induction false} PrefixRootInjective(c: Context, d: Context)
    requires PrefixRoot(c) == PrefixRoot(d)
    ensures c == d
  {
    hide ContextRoot;
    assert PrefixRoot(c).parts[0] == PrefixRoot(d).parts[0];
    ContextRootInjective(c, d);
  }

  lemma {:induction false} BlockIdInjective(
      c: Context, p: Id, i: nat, a: seq<u32>, d: Context, q: Id, j: nat, b: seq<u32>)
    requires BlockId(c, p, i, a) == BlockId(d, q, j, b)
    ensures c == d && p == q && i == j && a == b
  {
    hide ContextRoot, TokenBytes;
    var x, y := BlockId(c, p, i, a).parts, BlockId(d, q, j, b).parts;
    assert x[0] == y[0] && x[1] == y[1] && x[2] == y[2] && x[6] == y[6];
    ContextRootInjective(c, d);
    TokenBytesInjective(a, b);
  }

  /** Equal tips come from equal contexts and equal token prefixes. */
  lemma {:induction false} TipInjective(
      c: Context, a: seq<u32>, i: nat, d: Context, b: seq<u32>, j: nat)
    requires i <= Blocks(|a|) && j <= Blocks(|b|)
    requires TipAfter(c, a, i) == TipAfter(d, b, j)
    ensures c == d && i == j && Covered(|a|, i) == Covered(|b|, j)
    ensures a[..Covered(|a|, i)] == b[..Covered(|b|, j)]
    decreases i
  {
    hide Covered, Blocks, BlockId, PrefixRoot;
    CoveredStep(|a|, 0);
    CoveredStep(|b|, 0);
    RootIsNoTip(c, d, b, j);
    RootIsNoTip(d, c, a, i);
    if i == 0 {
      PrefixRootInjective(c, d);
    } else {
      CoveredStep(|a|, i - 1);
      CoveredStep(|b|, j - 1);
      var x, y := Covered(|a|, i - 1), Covered(|b|, j - 1);
      var a', b' := a[x..Covered(|a|, i)], b[y..Covered(|b|, j)];
      BlockIdInjective(c, TipAfter(c, a, i - 1), i - 1, a', d, TipAfter(d, b, j - 1), j - 1, b');
      TipInjective(c, a, i - 1, d, b, j - 1);
      assert a[..Covered(|a|, i)] == a[..x] + a';
      assert b[..Covered(|b|, j)] == b[..y] + b';
    }
  }

  lemma {:induction false} RootIsNoTip(c: Context, d: Context, tokens: seq<u32>, i: nat)
    requires i <= Blocks(|tokens|)
    ensures i > 0 ==> TipAfter(d, tokens, i) != PrefixRoot(c)
  {
    hide Covered, Blocks;
  }

  /** A tip depends on nothing past the tokens it covers. */
  lemma {:induction false} TipDetermined(c: Context, a: seq<u32>, b: seq<u32>, i: nat)
    requires i <= Blocks(|a|) && i <= Blocks(|b|)
    requires Covered(|a|, i) == Covered(|b|, i)
    requires a[..Covered(|a|, i)] == b[..Covered(|a|, i)]
    ensures TipAfter(c, a, i) == TipAfter(c, b, i)
    decreases i
  {
    hide Covered, Blocks, BlockId;
    if i == 0 {
    } else {
      CoveredStep(|a|, i - 1);
      CoveredStep(|b|, i - 1);
      var x, y := Covered(|a|, i - 1), Covered(|a|, i);
      assert a[..x] == a[..y][..x] && b[..x] == b[..y][..x];
      TipDetermined(c, a, b, i - 1);
      assert a[x..y] == a[..y][x..] && b[x..y] == b[..y][x..];
    }
  }

  lemma {:induction false} CoveredIndex(n: nat, i: nat, m: nat, j: nat)
    requires i < Blocks(n) && j < Blocks(m) && Covered(n, i + 1) == Covered(m, j + 1)
    ensures i == j
  {
  }

  /** Two nodes have one identity exactly when they bind the same context and
      the same token prefix. */
  lemma {:induction false} NodeIdentity(
      c: Context, a: seq<u32>, i: nat, d: Context, b: seq<u32>, j: nat)
    requires i < Blocks(|a|) && j < Blocks(|b|)
    ensures NodeAt(c, a, i).tokenCount <= |a| && NodeAt(d, b, j).tokenCount <= |b|
    ensures NodeAt(c, a, i).id == NodeAt(d, b, j).id
       <==> c == d && a[..NodeAt(c, a, i).tokenCount] == b[..NodeAt(d, b, j).tokenCount]
  {
    hide Covered, Blocks, TipAfter;
    CoveredStep(|a|, i);
    CoveredStep(|b|, j);
    var x, y := Covered(|a|, i + 1), Covered(|b|, j + 1);
    if TipAfter(c, a, i + 1) == TipAfter(d, b, j + 1) {
      TipInjective(c, a, i + 1, d, b, j + 1);
    }
    if c == d && a[..x] == b[..y] {
      assert |a[..x]| == x && |b[..y]| == y;
      CoveredIndex(|a|, i, |b|, j);
      TipDetermined(c, a, b, i + 1);
    }
  }

  /** The nodes of a whole-block prefix are a prefix of the nodes. */
  lemma {:induction false} BlockPrefixNodes(c: Context, tokens: seq<u32>, m: nat)
    requires m * BLOCK <= |tokens|
    ensures m <= Blocks(|tokens|)
    ensures Nodes(c, tokens[..m * BLOCK]) == Nodes(c, tokens)[..m]
  {
    hide TipAfter, Covered, Blocks;
    WholeBlocks(|tokens|, m);
    var prefix := tokens[..m * BLOCK];
    forall k | 0 <= k < m ensures NodeAt(c, prefix, k) == NodeAt(c, tokens, k) {
      WholeBlocks(|tokens|, k + 1);
      WholeBlocks(|prefix|, k + 1);
      assert prefix[..Covered(|prefix|, k + 1)] == tokens[..Covered(|prefix|, k + 1)];
      TipDetermined(c, prefix, tokens, k + 1);
    }
  }

  lemma {:induction false} WholeBlocks(n: nat, m: nat)
    requires m * BLOCK <= n
    ensures m <= Blocks(n) && Covered(n, m) == m * BLOCK
    ensures Blocks(m * BLOCK) == m
  {
  }

  // ---------------------------------------------------------------------
  // Input cuts
  // ---------------------------------------------------------------------

  datatype InputCut = InputCut(tokenRoot: Id, auxiliaryRoot: Id, tokenCount: nat)

  datatype AuxiliaryInput = AuxiliaryInput(typeId: Id, valueId: Id)

  function AuxiliaryParts(inputs: seq<AuxiliaryInput>): seq<Part> {
    if inputs == [] then []
    else
      var n := |inputs| - 1;
      AuxiliaryParts(inputs[..n])
      + [NumberPart(n), NumberPart(32), IdPart(inputs[n].typeId),
         NumberPart(32), IdPart(inputs[n].valueId)]
  }

  function AuxiliaryRoot(key: Id, tenant: Id, inputs: seq<AuxiliaryInput>): Id {
    Hmac(key, "kvpack/v1/auxiliary-input-root",
         [IdPart(tenant), NumberPart(|inputs|)] + AuxiliaryParts(inputs))
  }

  lemma {:induction false} AuxiliaryPartsInjective(a: seq<AuxiliaryInput>, b: seq<AuxiliaryInput>)
    requires AuxiliaryParts(a) == AuxiliaryParts(b)
    ensures a == b
    decreases |a|
  {
    AuxiliaryLength(a);
    AuxiliaryLength(b);
    if a == [] {
    } else {
      var n := |a| - 1;
      var p, q := AuxiliaryParts(a[..n]), AuxiliaryParts(b[..n]);
      var x, y := AuxiliaryParts(a)[5 * n..], AuxiliaryParts(b)[5 * n..];
      AuxiliaryLength(a[..n]);
      AuxiliaryLength(b[..n]);
      assert p == AuxiliaryParts(a)[..5 * n] && q == AuxiliaryParts(b)[..5 * n];
      assert x[2] == IdPart(a[n].typeId) && y[2] == IdPart(b[n].typeId);
      assert x[4] == IdPart(a[n].valueId) && y[4] == IdPart(b[n].valueId);
      AuxiliaryPartsInjective(a[..n], b[..n]);
      assert a == a[..n] + [a[n]] && b == b[..n] + [b[n]];
    }
  }

  lemma {:induction false} AuxiliaryLength(inputs: seq<AuxiliaryInput>)
    ensures |AuxiliaryParts(inputs)| == 5 * |inputs|
    decreases |inputs|
  {
    if inputs == [] {
    } else {
      AuxiliaryLength(inputs[..|inputs| - 1]);
    }
  }

  /** Auxiliary roots are equal exactly for equal key, tenant and inputs. */
  lemma {:induction false} AuxiliaryIdentity(
      key: Id, tenant: Id, a: seq<AuxiliaryInput>, key': Id, tenant': Id, b: seq<AuxiliaryInput>)
    ensures AuxiliaryRoot(key, tenant, a) == AuxiliaryRoot(key', tenant', b) <==>
              key == key' && tenant == tenant' && a == b
  {
    hide AuxiliaryParts;
    var p, q := [IdPart(tenant), NumberPart(|a|)], [IdPart(tenant'), NumberPart(|b|)];
    ConcatInjective(p, AuxiliaryParts(a), q, AuxiliaryParts(b));
    if AuxiliaryRoot(key, tenant, a) == AuxiliaryRoot(key', tenant', b) {
      assert p[0] == q[0];
      AuxiliaryPartsInjective(a, b);
    }
  }

  predicate AuxiliaryOk(inputs: seq<AuxiliaryInput>) {
    forall i :: 0 <= i < |inputs| ==> !inputs[i].typeId.ZeroId? && !inputs[i].valueId.ZeroId?
  }

  /** The cut of `tokens` under a context whose auxiliary root is derived. */
  function CutOf(c: Context, tokens: seq<u32>): InputCut {
    InputCut(TipAfter(c, tokens, Blocks(|tokens|)), c.auxiliaryRoot, |tokens|)
  }

  method DeriveInputCut(key: Id, tenant: Id, semantic: SemanticModel, family: seq<byte>,
                        tokens: seq<u32>, inputs: seq<AuxiliaryInput>)
      returns (r: Option<(InputCut, seq<PrefixNode>)>)
    ensures r.Some? <==> AuxiliaryOk(inputs)
    ensures r.Some? ==>
              var c := Context(key, tenant, semantic, family, AuxiliaryRoot(key, tenant, inputs));
              r.value == (CutOf(c, tokens), Nodes(c, tokens))
  {
    hide Blocks, Covered, NodesUpTo;
    for n := 0 to |inputs|
      invariant AuxiliaryOk(inputs[..n])
    {
      if inputs[n].typeId.ZeroId? || inputs[n].valueId.ZeroId? {
        return None;
      }
    }
    assert inputs[..|inputs|] == inputs;
    var c := Context(key, tenant, semantic, family, AuxiliaryRoot(key, tenant, inputs));
    var nodes := ChainPrefixNodes(c, tokens);
    CoveredStep(|tokens|, 0);
    var tokenRoot := if nodes != [] then nodes[|nodes| - 1].id else PrefixRoot(c);
    return Some((InputCut(tokenRoot, c.auxiliaryRoot, |tokens|), nodes));
  }

  /** A node's identity is the token root of the cut it stands for. */
  lemma {:induction false} NodeIsCutRoot(c: Context, tokens: seq<u32>, i: nat)
    requires i < Blocks(|tokens|)
    ensures NodeAt(c, tokens, i).tokenCount <= |tokens|
    ensures CutOf(c, tokens[..NodeAt(c, tokens, i).tokenCount]).tokenRoot == NodeAt(c, tokens, i).id
  {
    hide TipAfter;
    CoveredStep(|tokens|, i);
    var n := Covered(|tokens|, i + 1);
    var prefix := tokens[..n];
    assert Blocks(n) == i + 1 && Covered(n, i + 1) == n;
    assert prefix[..n] == tokens[..n];
    TipDetermined(c, prefix, tokens, i + 1);
  }

  /** Derived cuts are equal exactly when everything they were derived from is:
      key, tenant, model, family, auxiliary inputs and every token. */
  lemma {:induction false} CutsTell(
      key: Id, tenant: Id, semantic: SemanticModel, family: seq<byte>, inputs: seq<AuxiliaryInput>, a: seq<u32>,
      key': Id, tenant': Id, semantic': SemanticModel, family': seq<byte>, inputs': seq<AuxiliaryInput>, b: seq<u32>)
    ensures var c := Context(key, tenant, semantic, family, AuxiliaryRoot(key, tenant, inputs));
            var d := Context(key', tenant', semantic', family', AuxiliaryRoot(key', tenant', inputs'));
            CutOf(c, a).tokenRoot == CutOf(d, b).tokenRoot <==>
              && key == key' && tenant == tenant' && semantic == semantic' && family == family'
              && inputs == inputs' && a == b
  {
    hide TipAfter, AuxiliaryRoot, Blocks, Covered;
    var c := Context(key, tenant, semantic, family, AuxiliaryRoot(key, tenant, inputs));
    var d := Context(key', tenant', semantic', family', AuxiliaryRoot(key', tenant', inputs'));
    AuxiliaryIdentity(key, tenant, inputs, key', tenant', inputs');
    if CutOf(c, a).tokenRoot == CutOf(d, b).tokenRoot {
      TipInjective(c, a, Blocks(|a|), d, b, Blocks(|b|));
      CoveredStep(|a|, 0);
      CoveredStep(|b|, 0);
      assert a[..|a|] == a && b[..|b|] == b;
    }
  }
}
