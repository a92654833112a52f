/** The streaming cut-chain deriver and the batch chain it must agree with. */
module CutChain {
  import opened Machine
  import opened LittleEndian
  import opened Symbols

  const MAX_CUT_CHAIN_CUTS := 512

  datatype Policy =
    | Flat(stride: u32)
    | TwoTier(headTokens: u32, headStride: u32, tailStride: u32)

  datatype ChainError =
    | ZeroStride | ZeroHeadStride | ZeroTailStride | HeadNotHeadMultiple | HeadNotTailMultiple
    | TooManyCuts | Poisoned

  function Validate(policy: Policy): Result<bool, ChainError> {
    match policy
    case Flat(stride) => if stride == 0 then Err(ZeroStride) else Ok(true)
    case TwoTier(headTokens, headStride, tailStride) =>
      if headStride == 0 then Err(ZeroHeadStride)
      else if tailStride == 0 then Err(ZeroTailStride)
      else if headTokens % headStride != 0 then Err(HeadNotHeadMultiple)
      else if headTokens % tailStride != 0 then Err(HeadNotTailMultiple)
      else Ok(true)
  }

  /** Stride of the cut that starts at `offset`. */
  function StrideAt(policy: Policy, offset: nat): u32 {
    match policy
    case Flat(stride) => stride
    case TwoTier(headTokens, headStride, tailStride) =>
      if offset < headTokens then headStride else tailStride
  }

  // ---------------------------------------------------------------------
  // Closed-form boundaries
  // ---------------------------------------------------------------------

  predicate Accepted(policy: Policy) {
    Validate(policy).Ok?
  }

  /** Cuts inside the head region. */
  function HeadCuts(policy: Policy): nat
    requires Accepted(policy)
  {
    if policy.Flat? then 0 else Quot(policy.headTokens, policy.headStride)
  }

  /** The token count at which cut number `k` completes. */
  function Boundary(policy: Policy, k: nat): nat
    requires Accepted(policy)
  {
    match policy
    case Flat(stride) => k * stride
    case TwoTier(headTokens, headStride, tailStride) =>
      var head := Quot(headTokens, headStride);
      if k <= head then k * headStride else headTokens + (k - head) * tailStride
  }

  /** How many cuts complete within the first `n` tokens. */
  function CompleteCuts(policy: Policy, n: nat): nat
    requires Accepted(policy)
  {
    match policy
    case Flat(stride) => Quot(n, stride)
    case TwoTier(headTokens, headStride, tailStride) =>
      if n < headTokens then Quot(n, headStride)
      else Quot(headTokens, headStride) + Quot(n - headTokens, tailStride)
  }

  /** Each boundary is one stride past the previous one. */
  lemma {:induction false} BoundaryStep(policy: Policy, k: nat)
    requires Accepted(policy)
    ensures Boundary(policy, k + 1) == Boundary(policy, k) + StrideAt(policy, Boundary(policy, k))
    ensures StrideAt(policy, Boundary(policy, k)) > 0
  {
    match policy
    case Flat(stride) => MulLess(k, k + 1, stride);
    case TwoTier(headTokens, headStride, tailStride) =>
      var head := Quot(headTokens, headStride);
      QuotBounds(headTokens, headStride);
      if k < head {
        MulLess(k, head, headStride);
      } else {
        MulLess(k - head, k - head + 1, tailStride);
      }
  }

  /** No cut straddles the head/tail transition. */
  lemma {:induction false} NoStraddle(policy: Policy, k: nat)
    requires Accepted(policy) && policy.TwoTier?
    ensures Boundary(policy, k + 1) <= policy.headTokens || policy.headTokens <= Boundary(policy, k)
    ensures Boundary(policy, HeadCuts(policy)) == policy.headTokens
  {
    var head := Quot(policy.headTokens, policy.headStride);
    QuotBounds(policy.headTokens, policy.headStride);
    if k < head {
      MulLess(k, head, policy.headStride);
    } else if k > head {
      MulLess(0, k - head, policy.tailStride);
    }
  }

  /** `CompleteCuts` is the largest k whose boundary fits. */
  lemma {:induction false} CompleteCutsTight(policy: Policy, n: nat)
    requires Accepted(policy)
    ensures Boundary(policy, CompleteCuts(policy, n)) <= n
    ensures n < Boundary(policy, CompleteCuts(policy, n) + 1)
  {
    match policy
    case Flat(stride) => QuotBounds(n, stride);
    case TwoTier(headTokens, headStride, tailStride) =>
      QuotBounds(headTokens, headStride);
      if n < headTokens {
        QuotBounds(n, headStride);
        if Quot(headTokens, headStride) <= Quot(n, headStride) {
          if Quot(headTokens, headStride) < Quot(n, headStride) {
            MulLess(Quot(headTokens, headStride), Quot(n, headStride), headStride);
          }
          assert false;
        }
      } else {
        QuotBounds(n - headTokens, tailStride);
      }
  }

  lemma {:induction false} BoundaryMonotone(policy: Policy, i: nat, j: nat)
    requires Accepted(policy) && i < j
    ensures Boundary(policy, i) < Boundary(policy, j)
    decreases j
  {
    BoundaryStep(policy, j - 1);
    if i >= j - 1 {
    } else {
      BoundaryMonotone(policy, i, j - 1);
    }
  }

  lemma {:induction false} CompleteCutsUnique(policy: Policy, n: nat, k: nat)
    requires Accepted(policy) && Boundary(policy, k) <= n
    ensures k <= CompleteCuts(policy, n)
    ensures n < Boundary(policy, k + 1) ==> k == CompleteCuts(policy, n)
  {
    var c := CompleteCuts(policy, n);
    CompleteCutsTight(policy, n);
    if c + 1 < k {
      BoundaryMonotone(policy, c + 1, k);
    } else if k + 1 < c {
      BoundaryMonotone(policy, k + 1, c);
    }
  }

  lemma {:induction false} CompleteCutsMonotone(policy: Policy, n: nat, m: nat)
    requires Accepted(policy) && n <= m
    ensures CompleteCuts(policy, n) <= CompleteCuts(policy, m)
  {
    CompleteCutsTight(policy, n);
    CompleteCutsUnique(policy, m, CompleteCuts(policy, n));
  }

  // ---------------------------------------------------------------------
  // The batch chain
  // ---------------------------------------------------------------------

  const CHAIN_DOMAIN := "kvpack/v1/cut-chain"

  function Root(key: Id, namespace: Id): Id {
    Hmac(key, CHAIN_DOMAIN, [IdPart(namespace)])
  }

  function Extend(key: Id, tip: Id, bytes: seq<byte>): Id {
    Hmac(key, CHAIN_DOMAIN, [IdPart(tip), BytesPart(bytes)])
  }

  /** The identity of cut number `k`, straight from the token list. */
  function CutId(key: Id, namespace: Id, policy: Policy, tokens: seq<u32>, k: nat): Id
    requires Accepted(policy) && Boundary(policy, k) <= |tokens|
  {
    if k == 0 then Root(key, namespace)
    else
      BoundaryStep(policy, k - 1);
      Extend(key, CutId(key, namespace, policy, tokens, k - 1),
             TokenBytes(tokens[Boundary(policy, k - 1)..Boundary(policy, k)]))
  }

  /** The identities of the first `k` cuts. */
  function BatchIds(key: Id, namespace: Id, policy: Policy, tokens: seq<u32>, k: nat): (ids: seq<Id>)
    requires Accepted(policy) && Boundary(policy, k) <= |tokens|
    ensures |ids| == k
  {
    if k == 0 then []
    else
      BoundaryStep(policy, k - 1);
      BatchIds(key, namespace, policy, tokens, k - 1) + [CutId(key, namespace, policy, tokens, k)]
  }

  lemma {:induction false} CutIsPrefixStable(
      key: Id, namespace: Id, policy: Policy, tokens: seq<u32>, more: seq<u32>, k: nat)
    requires Accepted(policy) && Boundary(policy, k) <= |tokens|
    ensures CutId(key, namespace, policy, tokens + more, k) == CutId(key, namespace, policy, tokens, k)
    decreases k
  {
    hide Boundary, Accepted, TokenBytes;
    if k == 0 {
    } else {
      BoundaryStep(policy, k - 1);
      CutIsPrefixStable(key, namespace, policy, tokens, more, k - 1);
      var a, b := Boundary(policy, k - 1), Boundary(policy, k);
      assert (tokens + more)[a..b] == tokens[a..b];
    }
  }

  lemma {:induction false} ChainIsPrefixStable(
      key: Id, namespace: Id, policy: Policy, tokens: seq<u32>, more: seq<u32>, k: nat)
    requires Accepted(policy) && Boundary(policy, k) <= |tokens|
    ensures CutId(key, namespace, policy, tokens + more, k) == CutId(key, namespace, policy, tokens, k)
    ensures BatchIds(key, namespace, policy, tokens + more, k)
         == BatchIds(key, namespace, policy, tokens, k)
    decreases k
  {
    hide Boundary, Accepted, CutId;
    CutIsPrefixStable(key, namespace, policy, tokens, more, k);
    if k == 0 {
    } else {
      BoundaryStep(policy, k - 1);
      ChainIsPrefixStable(key, namespace, policy, tokens, more, k - 1);
    }
  }

  /** Two policies cut the first `k` cuts at the same tokens. */
  predicate SameCuts(p: Policy, q: Policy, k: nat)
    requires Accepted(p) && Accepted(q)
  {
    forall i: nat | i <= k :: Boundary(p, i) == Boundary(q, i)
  }

  lemma {:induction false} CutInjective(
      key: Id, namespace: Id, p: Policy, a: seq<u32>, k: nat, key': Id, namespace': Id, q: Policy, b: seq<u32>, j: nat)
    requires Accepted(p) && Boundary(p, k) <= |a| && Accepted(q) && Boundary(q, j) <= |b|
    requires CutId(key, namespace, p, a, k) == CutId(key', namespace', q, b, j)
    ensures key == key' && namespace == namespace' && k == j && SameCuts(p, q, k)
    ensures a[..Boundary(p, k)] == b[..Boundary(q, k)]
    decreases k
  {
    hide Accepted, TokenBytes, Boundary, CutId, SameCuts;
    BoundaryZero(p);
    BoundaryZero(q);
    CutParts(key, namespace, p, a, k);
    CutParts(key', namespace', q, b, j);
    if k == 0 {
      SameStart(p, q);
    } else {
      BoundaryStep(p, k - 1);
      BoundaryStep(q, j - 1);
      CutInjective(key, namespace, p, a, k - 1, key', namespace', q, b, j - 1);
      var x, y, z := Boundary(p, k - 1), Boundary(p, k), Boundary(q, j);
      TokenBytesInjective(a[x..y], b[x..z]);
      assert |a[x..y]| == y - x && |b[x..z]| == z - x;
      SameCutsStep(p, q, k);
      assert a[..y] == a[..x] + a[x..y] && b[..z] == b[..x] + b[x..z];
    }
  }

  lemma {:induction false} SameStart(p: Policy, q: Policy)
    requires Accepted(p) && Accepted(q)
    ensures SameCuts(p, q, 0)
  {
    BoundaryZero(p);
    BoundaryZero(q);
  }

  lemma {:induction false} SameCutsStep(p: Policy, q: Policy, k: nat)
    requires Accepted(p) && Accepted(q) && k > 0 && SameCuts(p, q, k - 1) && Boundary(p, k) == Boundary(q, k)
    ensures SameCuts(p, q, k)
  {
    hide Boundary;
  }

  lemma {:induction false} BoundaryZero(policy: Policy)
    requires Accepted(policy)
    ensures Boundary(policy, 0) == 0
  {
  }

  /** What a cut identity was computed from. */
  lemma {:induction false} CutParts(key: Id, namespace: Id, policy: Policy, tokens: seq<u32>, k: nat)
    requires Accepted(policy) && Boundary(policy, k) <= |tokens|
    ensures var id := CutId(key, namespace, policy, tokens, k);
            && id.Hmac? && id.key == key
            && (k == 0 ==> |id.parts| == 1 && id.parts[0] == IdPart(namespace))
            && (k > 0 ==>
                  && Boundary(policy, k - 1) <= Boundary(policy, k) && |id.parts| == 2
                  && id.parts[0] == IdPart(CutId(key, namespace, policy, tokens, k - 1))
                  && id.parts[1] == BytesPart(TokenBytes(tokens[Boundary(policy, k - 1)..Boundary(policy, k)])))
  {
    hide Boundary, Accepted, TokenBytes;
    if k > 0 {
      BoundaryStep(policy, k - 1);
    }
  }

  lemma {:induction false} CutDetermined(
      key: Id, namespace: Id, p: Policy, a: seq<u32>, q: Policy, b: seq<u32>, k: nat)
    requires Accepted(p) && Boundary(p, k) <= |a| && Accepted(q) && Boundary(q, k) <= |b| && SameCuts(p, q, k)
    requires a[..Boundary(p, k)] == b[..Boundary(q, k)]
    ensures CutId(key, namespace, p, a, k) == CutId(key, namespace, q, b, k)
    decreases k
  {
    hide Accepted, TokenBytes, Boundary;
    if k == 0 {
    } else {
      BoundaryStep(p, k - 1);
      BoundaryStep(q, k - 1);
      var x, y := Boundary(p, k - 1), Boundary(p, k);
      assert a[..x] == a[..y][..x] && b[..x] == b[..y][..x];
      CutDetermined(key, namespace, p, a, q, b, k - 1);
      assert a[x..y] == a[..y][x..] && b[x..y] == b[..y][x..];
    }
  }

  /** Two cuts have one identity exactly when they bind the same key, the same
      namespace and the same tokens, cut at the same places. */
  lemma {:induction false} CutIdentity(
      key: Id, namespace: Id, p: Policy, a: seq<u32>, k: nat, key': Id, namespace': Id, q: Policy, b: seq<u32>, j: nat)
    requires Accepted(p) && Boundary(p, k) <= |a| && Accepted(q) && Boundary(q, j) <= |b|
    ensures CutId(key, namespace, p, a, k) == CutId(key', namespace', q, b, j) <==>
              && key == key' && namespace == namespace' && k == j && SameCuts(p, q, k)
              && a[..Boundary(p, k)] == b[..Boundary(q, j)]
  {
    hide Accepted, TokenBytes, Boundary, CutId;
    if CutId(key, namespace, p, a, k) == CutId(key', namespace', q, b, j) {
      CutInjective(key, namespace, p, a, k, key', namespace', q, b, j);
    }
    if && key == key' && namespace == namespace' && k == j && SameCuts(p, q, k)
       && a[..Boundary(p, k)] == b[..Boundary(q, j)]
    {
      CutDetermined(key, namespace, p, a, q, b, k);
    }
  }

  /** Under one policy: exactly for equal key, namespace and token prefix. */
  lemma {:induction false} CutIdentityOnePolicy(
      key: Id, namespace: Id, policy: Policy, a: seq<u32>, k: nat, key': Id, namespace': Id, b: seq<u32>, j: nat)
    requires Accepted(policy) && Boundary(policy, k) <= |a| && Boundary(policy, j) <= |b|
    ensures CutId(key, namespace, policy, a, k) == CutId(key', namespace', policy, b, j) <==>
              key == key' && namespace == namespace' && a[..Boundary(policy, k)] == b[..Boundary(policy, j)]
  {
    hide Accepted, Boundary, CutId;
    CutIdentity(key, namespace, policy, a, k, key', namespace', policy, b, j);
    assert |a[..Boundary(policy, k)]| == Boundary(policy, k) && |b[..Boundary(policy, j)]| == Boundary(policy, j);
    if k < j {
      BoundaryMonotone(policy, k, j);
    } else if j < k {
      BoundaryMonotone(policy, j, k);
    }
  }

  lemma {:induction false} CutIdStep(key: Id, namespace: Id, policy: Policy, tokens: seq<u32>, k: nat)
    requires Accepted(policy) && Boundary(policy, k + 1) <= |tokens|
    ensures Boundary(policy, k) < Boundary(policy, k + 1)
    ensures CutId(key, namespace, policy, tokens, k + 1)
         == Extend(key, CutId(key, namespace, policy, tokens, k),
                   TokenBytes(tokens[Boundary(policy, k)..Boundary(policy, k + 1)]))
  {
    hide Boundary;
    BoundaryStep(policy, k);
  }

  lemma {:induction false} ConsumeBytes(tokens: seq<u32>, consumed: nat, pending: seq<byte>, front: nat, stride: nat)
    requires front <= |pending| && consumed <= |tokens|
    requires pending[front..] == TokenBytes(tokens[consumed..])
    requires 4 * stride <= |pending| - front
    ensures consumed + stride <= |tokens|
    ensures pending[front..front + 4 * stride] == TokenBytes(tokens[consumed..consumed + stride])
    ensures pending[front + 4 * stride..] == TokenBytes(tokens[consumed + stride..])
  {
    hide TokenBytes;
    var rest, whole := tokens[consumed..], pending[front..];
    TokenBytesSlice(rest, stride);
    assert rest[..stride] == tokens[consumed..consumed + stride];
    assert rest[stride..] == tokens[consumed + stride..];
    assert whole[..4 * stride] == pending[front..front + 4 * stride];
    assert whole[4 * stride..] == pending[front + 4 * stride..];
  }

  // ---------------------------------------------------------------------
  // The streaming deriver
  // ---------------------------------------------------------------------

  class CutChainDeriver {
    const key: Id
    const policy: Policy
    ghost const namespace: Id
    var tip: Id
    var pending: seq<byte>
    var pendingFront: nat
    var consumedTokens: nat
    var cuts: nat
    var poisoned: bool
    /** Every token accepted so far, including a push that overflowed. */
    ghost var pushed: seq<u32>

    /** The deriver stands exactly after cut number `cuts` of `pushed`, and
        its buffer holds exactly the bytes not yet consumed. */
    ghost predicate AtCut()
      reads this
      requires Accepted(policy)
    {
      && cuts <= MAX_CUT_CHAIN_CUTS
      && consumedTokens == Boundary(policy, cuts) <= |pushed|
      && tip == CutId(key, namespace, policy, pushed, cuts)
      && pendingFront <= |pending|
      && pending[pendingFront..] == TokenBytes(pushed[consumedTokens..])
    }

    ghost predicate Valid()
      reads this
    {
      && Accepted(policy)
      && (if poisoned then Boundary(policy, MAX_CUT_CHAIN_CUTS + 1) <= |pushed|
          else AtCut() && pendingFront == 0 && |pushed| < Boundary(policy, cuts + 1))
    }

    constructor (key: Id, namespace: Id, policy: Policy)
      requires Accepted(policy)
      ensures Valid() && !poisoned && pushed == [] && cuts == 0
      ensures this.key == key && this.namespace == namespace && this.policy == policy
    {
      this.key, this.namespace, this.policy := key, namespace, policy;
      tip := Root(key, namespace);
      pending, pendingFront, consumedTokens, cuts, poisoned := [], 0, 0, 0, false;
      pushed := [];
      BoundaryStep(policy, 0);
    }

    /** Fold one complete cut into the tip. */
    method Consume(stride: u32)
      requires Accepted(policy) && AtCut() && cuts < MAX_CUT_CHAIN_CUTS
      requires stride == StrideAt(policy, consumedTokens)
      requires 4 * stride <= |pending| - pendingFront
      modifies this
      ensures AtCut() && cuts == old(cuts) + 1
      ensures pushed == old(pushed) && pending == old(pending) && poisoned == old(poisoned)
    {
      hide Boundary, StrideAt, CutId, TokenBytes;
      BoundaryStep(policy, cuts);
      ConsumeBytes(pushed, consumedTokens, pending, pendingFront, stride);
      CutIdStep(key, namespace, policy, pushed, cuts);
      tip := Extend(key, tip, pending[pendingFront..pendingFront + 4 * stride]);
      pendingFront := pendingFront + 4 * stride;
      consumedTokens := consumedTokens + stride;
      cuts := cuts + 1;
    }

    /** Emits exactly the batch identities of the cuts this slice completes;
        fails exactly when cut 513 completes, and for good. */
    method PushTokens(tokens: seq<u32>) returns (r: Result<seq<Id>, ChainError>)
      requires Valid()
      modifies this
      ensures Valid()
      ensures old(poisoned) ==> r == Err(Poisoned) && poisoned && pushed == old(pushed)
      ensures !old(poisoned) ==> pushed == old(pushed) + tokens
      ensures !old(poisoned) ==>
                (r.Ok? <==> CompleteCuts(policy, |pushed|) <= MAX_CUT_CHAIN_CUTS)
      ensures !old(poisoned) && r.Err? ==> r == Err(TooManyCuts) && poisoned
      ensures r.Ok? ==>
                && !poisoned
                && BatchIds(key, namespace, policy, pushed, cuts)
                   == BatchIds(key, namespace, policy, old(pushed), old(cuts)) + r.value
                && cuts == CompleteCuts(policy, |pushed|)
    {
      hide Boundary, StrideAt, CutId, BatchIds, TokenBytes, CompleteCuts, Validate;
      if poisoned {
        return Err(Poisoned);
      }
      Absorb(tokens);
      ghost var before := cuts;
      var emitted: seq<Id> := [];
      while true
        invariant before <= cuts && AtCut() && !poisoned && pushed == old(pushed) + tokens
        invariant BatchIds(key, namespace, policy, pushed, cuts)
               == BatchIds(key, namespace, policy, old(pushed), old(cuts)) + emitted
        decreases MAX_CUT_CHAIN_CUTS - cuts
      {
        var stride := StrideAt(policy, consumedTokens);
        BoundaryStep(policy, cuts);
        var strideBytes: nat := 4 * stride as int;
        if |pending| - pendingFront < strideBytes {
          break;
        }
        if cuts == MAX_CUT_CHAIN_CUTS {
          poisoned := true;
          CompleteCutsUnique(policy, |pushed|, cuts + 1);
          return Err(TooManyCuts);
        }
        Consume(stride);
        BatchIdsStep(key, namespace, policy, pushed, cuts);
        emitted := emitted + [tip];
      }
      CompleteCutsUnique(policy, |pushed|, cuts);
      // Compact the consumed prefix.
      if pendingFront == |pending| {
        pending := [];
      } else if pendingFront > 0 {
        pending := pending[pendingFront..];
      }
      pendingFront := 0;
      return Ok(emitted);
    }

    method Absorb(tokens: seq<u32>)
      requires Valid() && !poisoned
      modifies this`pending, this`pushed
      ensures AtCut() && pushed == old(pushed) + tokens
      ensures BatchIds(key, namespace, policy, pushed, cuts)
           == BatchIds(key, namespace, policy, old(pushed), cuts)
    {
      hide Boundary, CutId, BatchIds, TokenBytes, Validate;
      ChainIsPrefixStable(key, namespace, policy, pushed, tokens, cuts);
      TokenBytesConcat(pushed[consumedTokens..], tokens);
      assert (pushed + tokens)[consumedTokens..] == pushed[consumedTokens..] + tokens;
      pending := pending + TokenBytes(tokens);
      pushed := pushed + tokens;
    }
  }

  lemma {:induction false} BatchIdsStep(key: Id, namespace: Id, policy: Policy, tokens: seq<u32>, k: nat)
    requires Accepted(policy) && k > 0 && Boundary(policy, k) <= |tokens|
    ensures Boundary(policy, k - 1) <= |tokens|
    ensures BatchIds(key, namespace, policy, tokens, k)
         == BatchIds(key, namespace, policy, tokens, k - 1) + [CutId(key, namespace, policy, tokens, k)]
  {
    hide Boundary, CutId;
    BoundaryStep(policy, k - 1);
  }

  function Flatten(slices: seq<seq<u32>>): seq<u32> {
    if slices == [] then [] else Flatten(slices[..|slices| - 1]) + slices[|slices| - 1]
  }

  function CutsAfter(policy: Policy, slices: seq<seq<u32>>, n: nat): nat
    requires Accepted(policy) && n <= |slices|
  {
    CompleteCuts(policy, |Flatten(slices[..n])|)
  }

  /** `emitted` is the complete batch chain of `tokens`. */
  ghost predicate IsBatch(key: Id, namespace: Id, policy: Policy, tokens: seq<u32>, emitted: seq<Id>)
    requires Accepted(policy)
  {
    && |emitted| == CompleteCuts(policy, |tokens|)
    && Boundary(policy, |emitted|) <= |tokens|
    && emitted == BatchIds(key, namespace, policy, tokens, |emitted|)
  }

  /** What the first `n` pushes of a run must have produced. */
  ghost predicate RunOutcome(key: Id, namespace: Id, policy: Policy, slices: seq<seq<u32>>, n: nat,
                             emitted: seq<Id>, accepted: nat, errors: seq<ChainError>)
    requires Accepted(policy) && n <= |slices|
  {
    && accepted + |errors| == n
    && (forall i :: 1 <= i <= n ==>
          (i <= accepted <==> CutsAfter(policy, slices, i) <= MAX_CUT_CHAIN_CUTS))
    && (forall i :: 0 <= i < |errors| ==> errors[i] == if i == 0 then TooManyCuts else Poisoned)
    && IsBatch(key, namespace, policy, Flatten(slices[..accepted]), emitted)
  }

  lemma {:induction false} CutsAfterMonotone(policy: Policy, slices: seq<seq<u32>>, m: nat, n: nat)
    requires Accepted(policy) && m <= n <= |slices|
    ensures CutsAfter(policy, slices, m) <= CutsAfter(policy, slices, n)
  {
    FlattenGrows(slices, m, n);
    CompleteCutsMonotone(policy, |Flatten(slices[..m])|, |Flatten(slices[..n])|);
  }

  datatype Derived = Derived(emitted: seq<Id>, accepted: nat, errors: seq<ChainError>)

  /** However a token stream is sliced, the emitted identities are the batch
      chain of the slices accepted; a slice is accepted exactly while at most
      512 cuts are complete, and after the first refusal every push fails. */
  method DeriveAll(key: Id, namespace: Id, policy: Policy, slices: seq<seq<u32>>)
      returns (r: Result<Derived, ChainError>)
    ensures r.Err? <==> !Accepted(policy)
    ensures r.Err? ==> r.error == Validate(policy).error
    ensures r.Ok? ==> RunOutcome(key, namespace, policy, slices, |slices|,
                                 r.value.emitted, r.value.accepted, r.value.errors)
  {
    var validated := Validate(policy);
    if validated.Err? {
      return Err(validated.error);
    }
    var emitted, accepted, errors := PushAll(key, namespace, policy, slices);
    return Ok(Derived(emitted, accepted, errors));
  }

  method PushAll(key: Id, namespace: Id, policy: Policy, slices: seq<seq<u32>>)
      returns (emitted: seq<Id>, accepted: nat, errors: seq<ChainError>)
    requires Accepted(policy)
    ensures RunOutcome(key, namespace, policy, slices, |slices|, emitted, accepted, errors)
  {
    hide Boundary, BatchIds, CutId, TokenBytes, CompleteCuts, Validate, Flatten;
    var deriver := new CutChainDeriver(key, namespace, policy);
    emitted, accepted, errors := [], 0, [];
    BatchIdsZero(key, namespace, policy);
    assert slices[..0] == [];
    for n := 0 to |slices|
      invariant fresh(deriver) && deriver.Valid()
      invariant deriver.key == key && deriver.namespace == namespace && deriver.policy == policy
      invariant RunOutcome(key, namespace, policy, slices, n, emitted, accepted, errors)
      invariant errors == [] <==> !deriver.poisoned
      invariant errors == [] ==>
                  deriver.pushed == Flatten(slices[..n]) && deriver.cuts == |emitted|
    {
      FlattenStep(slices, n);
      CutsAfterMonotone(policy, slices, n, n + 1);
      var pushed := deriver.PushTokens(slices[n]);
      if pushed.Ok? {
        emitted := emitted + pushed.value;
        accepted := accepted + 1;
      } else {
        errors := errors + [pushed.error];
      }
    }
  }

  lemma {:induction false} BatchIdsZero(key: Id, namespace: Id, policy: Policy)
    requires Accepted(policy)
    ensures Flatten([]) == [] && IsBatch(key, namespace, policy, [], [])
  {
    BoundaryStep(policy, 0);
    CompleteCutsUnique(policy, 0, 0);
  }

  lemma {:induction false} FlattenStep(slices: seq<seq<u32>>, n: nat)
    requires n < |slices|
    ensures Flatten(slices[..n + 1]) == Flatten(slices[..n]) + slices[n]
  {
    assert slices[..n + 1][..n] == slices[..n];
  }

  lemma {:induction false} FlattenGrows(slices: seq<seq<u32>>, m: nat, n: nat)
    requires m <= n <= |slices|
    ensures |Flatten(slices[..m])| <= |Flatten(slices[..n])|
    decreases n
  {
    if m >= n {
    } else {
      FlattenStep(slices, n - 1);
      FlattenGrows(slices, m, n - 1);
    }
  }
}
