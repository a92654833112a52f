/** The ordered coordinator that turns verified planes into layer events. */
module Coordinator {
  import opened Machine
  import opened HandoffTypes
  import opened Layout
  import opened BeginValidation
  import opened Verifier

  type Permit = nat

  datatype CoordinatorError =
    | AfterTerminal
    | KeyNeedsPermit
    | ValueHasPermit
    | Rejected(cause: VerifyError)
    | Staging
    | AnotherKey
    | ValueWithoutKey
    | NotAdjacent
    | CursorMismatch
    | CountOverflow
    | IncompletePair

  /** The key and value planes of one layer, or its single plane. */
  datatype LayerPair = LayerPair(layer: u32, key: VerifiedPlane, value: Option<VerifiedPlane>)

  datatype PendingKey = PendingKey(plane: VerifiedPlane, permit: Permit)

  datatype LayerReady = LayerReady(pair: LayerPair, permit: Permit)

  function NewPair(key: VerifiedPlane, value: VerifiedPlane): Option<LayerPair> {
    if || key.header.layer != value.header.layer || !key.header.role.Key? || !value.header.role.Value?
       || value.header.sequence != Min(key.header.sequence + 1, U32_LIMIT - 1)
    then None
    else Some(LayerPair(key.header.layer, key, Some(value)))
  }

  // ---------------------------------------------------------------------
  // Layer events of a stream, read off the plan
  // ---------------------------------------------------------------------

  /** Whether frame `i` is the last frame of its layer. */
  predicate Completes(b: Begin, i: nat) {
    i < |Plan(b)| && (Plan(b)[i].role.Value? || SingleRole(b, Plan(b)[i]))
  }

  function PairAt(b: Begin, hs: seq<Header>, ps: seq<seq<byte>>, i: nat): LayerPair
    requires |hs| == |ps| <= |Plan(b)| && i < |hs|
  {
    if Plan(b)[i].role.Value? && i > 0 then
      LayerPair(hs[i].layer, VerifiedPlane(hs[i - 1], ps[i - 1]), Some(VerifiedPlane(hs[i], ps[i])))
    else LayerPair(hs[i].layer, VerifiedPlane(hs[i], ps[i]), None)
  }

  /** The layers completed by the first `n` planes, in stream order. */
  function ReadyPairs(b: Begin, hs: seq<Header>, ps: seq<seq<byte>>, n: nat): (pairs: seq<LayerPair>)
    requires n <= |hs| == |ps| <= |Plan(b)|
    ensures |pairs| <= n
  {
    if n == 0 then []
    else ReadyPairs(b, hs, ps, n - 1) + if Completes(b, n - 1) then [PairAt(b, hs, ps, n - 1)] else []
  }

  /** A key waits for its value exactly between the two. */
  predicate Waiting(b: Begin, n: nat) {
    n > 0 && !Completes(b, n - 1)
  }

  lemma {:induction false} ReadyPairsExtend(
      b: Begin, hs: seq<Header>, ps: seq<seq<byte>>, h: Header, p: seq<byte>, n: nat)
    requires n <= |hs| == |ps| < |Plan(b)|
    ensures ReadyPairs(b, hs + [h], ps + [p], n) == ReadyPairs(b, hs, ps, n)
    decreases n
  {
    hide Plan;
    if n == 0 {
    } else {
      ReadyPairsExtend(b, hs, ps, h, p, n - 1);
      assert (hs + [h])[n - 1] == hs[n - 1] && (ps + [p])[n - 1] == ps[n - 1];
      assert n > 1 ==> (hs + [h])[n - 2] == hs[n - 2] && (ps + [p])[n - 2] == ps[n - 2];
    }
  }

  lemma {:induction false} ReadyPairsStep(
      b: Begin, hs: seq<Header>, ps: seq<seq<byte>>, h: Header, p: seq<byte>)
    requires |hs| == |ps| < |Plan(b)|
    ensures ReadyPairs(b, hs + [h], ps + [p], |hs| + 1) ==
            ReadyPairs(b, hs, ps, |hs|)
            + if Completes(b, |hs|) then [PairAt(b, hs + [h], ps + [p], |hs|)] else []
  {
    hide Plan;
    ReadyPairsExtend(b, hs, ps, h, p, |hs|);
  }

  /** Where the next accepted plane stands in its pair. */
  lemma {:induction false} NextPlane(b: Begin, limits: Limits, n: u32, h: Header)
    requires ValidBegin(b, limits) && n < |Plan(b)| && CheckHeader(b, n, h).Ok?
    ensures h.sequence == n && h.layer == Plan(b)[n].layer && h.role == Plan(b)[n].role
    ensures h.role.Key? ==> !Waiting(b, n)
    ensures h.role.Value? ==>
              && Waiting(b, n) && !SingleRole(b, Plan(b)[n])
              && Plan(b)[n - 1] == Plan(b)[n].(role := Key)
    ensures !IsV2(b) ==>
              !SingleRole(b, Plan(b)[n]) && h.layer == n / 2 && (h.role.Key? <==> n % 2 == 0)
  {
    hide ValidBegin, CheckHeader, EntryBytes, Walk, FlatWalk, FlatPlaneBytes, Total;
    BeginHasFrames(b, limits);
    AcceptedHeader(b, limits, n, h);
    ArmedPlan(b, limits);
    assert PairedAt(b, Plan(b), n);
    assert n > 0 ==> PairedAt(b, Plan(b), n - 1);
    if !IsV2(b) {
      FlatPlanShape(b, limits);
      FlatWalkAt(b.geometry.numLayers, n);
    }
  }

  lemma {:induction false} FlatPlanShape(b: Begin, limits: Limits)
    requires ValidBegin(b, limits) && !IsV2(b)
    ensures |Plan(b)| == 2 * b.geometry.numLayers
  {
    hide FlatTotal, Total, FlatWalk;
    ArmedPlan(b, limits);
  }

  // ---------------------------------------------------------------------
  // A complete stream reports every layer once
  // ---------------------------------------------------------------------

  function ReadyLayersOf(pairs: seq<LayerPair>): seq<u32> {
    if pairs == [] then [] else ReadyLayersOf(pairs[..|pairs| - 1]) + [pairs[|pairs| - 1].layer]
  }

  function TimesReady(b: Begin, hs: seq<Header>, ps: seq<seq<byte>>, n: nat, l: u32): nat
    requires n <= |hs| == |ps| <= |Plan(b)|
  {
    multiset(ReadyLayersOf(ReadyPairs(b, hs, ps, n)))[l]
  }

  lemma {:induction false} TimesReadyStep(b: Begin, hs: seq<Header>, ps: seq<seq<byte>>, n: nat, l: u32)
    requires n < |hs| == |ps| <= |Plan(b)|
    ensures TimesReady(b, hs, ps, n + 1, l) ==
            TimesReady(b, hs, ps, n, l)
            + if Completes(b, n) && PairAt(b, hs, ps, n).layer == l then 1 else 0
  {
    hide Plan, PairAt, Completes, ReadyPairs, ReadyLayersOf;
    ReadyUnfold(b, hs, ps, n);
    LayersStep(ReadyPairs(b, hs, ps, n), PairAt(b, hs, ps, n), l);
  }

  lemma {:induction false} ReadyUnfold(b: Begin, hs: seq<Header>, ps: seq<seq<byte>>, n: nat)
    requires n < |hs| == |ps| <= |Plan(b)|
    ensures Completes(b, n) ==> ReadyPairs(b, hs, ps, n + 1) == ReadyPairs(b, hs, ps, n) + [PairAt(b, hs, ps, n)]
    ensures !Completes(b, n) ==> ReadyPairs(b, hs, ps, n + 1) == ReadyPairs(b, hs, ps, n)
  {
    hide Plan, PairAt, Completes;
  }

  /** Keys received so far are the layers reported plus the one waiting. */
  lemma {:induction false} KeysAreLayers(
      b: Begin, limits: Limits, hs: seq<Header>, ps: seq<seq<byte>>, n: nat, l: u32)
    requires ValidBegin(b, limits) && b.expectedLayerFrames > 0 && Accepted(b, hs, ps)
    requires n <= |hs| == |ps| <= |Plan(b)|
    ensures Total(Plan(b)[..n], KeyMeasure(l)) ==
            TimesReady(b, hs, ps, n, l) + if Waiting(b, n) && Plan(b)[n - 1].layer == l then 1 else 0
    decreases n
  {
    hide ValidBegin, CheckHeader, Accepted, Plan, Total, PairAt, Completes, KeyMeasure, TimesReady, SingleRole;
    if n == 0 {
      TotalEmpty(Plan(b)[..0], KeyMeasure(l));
      NoneReady(b, hs, ps, l);
    } else {
      KeysAreLayers(b, limits, hs, ps, n - 1, l);
      PlanStep(b, n - 1, KeyMeasure(l));
      NextLayer(b, limits, hs, ps, n - 1, l);
      TimesReadyStep(b, hs, ps, n - 1, l);
    }
  }

  lemma {:induction false} NoneReady(b: Begin, hs: seq<Header>, ps: seq<seq<byte>>, l: u32)
    requires |hs| == |ps| <= |Plan(b)|
    ensures TimesReady(b, hs, ps, 0, l) == 0
  {
    hide Plan;
  }

  lemma {:induction false} TotalEmpty(walk: seq<Entry>, m: Entry -> nat)
    requires walk == []
    ensures Total(walk, m) == 0
  {
  }

  lemma {:induction false} PlanStep(b: Begin, n: nat, m: Entry -> nat)
    requires n < |Plan(b)|
    ensures Total(Plan(b)[..n + 1], m) == Total(Plan(b)[..n], m) + m(Plan(b)[n])
  {
    hide Plan;
    assert Plan(b)[..n + 1][..n] == Plan(b)[..n];
  }

  lemma {:induction false} LayersStep(pairs: seq<LayerPair>, pair: LayerPair, l: u32)
    ensures multiset(ReadyLayersOf(pairs + [pair]))[l] ==
            multiset(ReadyLayersOf(pairs))[l] + if pair.layer == l then 1 else 0
  {
    assert (pairs + [pair])[..|pairs|] == pairs;
  }

  lemma {:induction false} NextLayer(
      b: Begin, limits: Limits, hs: seq<Header>, ps: seq<seq<byte>>, n: nat, l: u32)
    requires ValidBegin(b, limits) && b.expectedLayerFrames > 0 && Accepted(b, hs, ps)
    requires n < |hs| && |hs| == |ps| <= |Plan(b)|
    ensures PairAt(b, hs, ps, n).layer == Plan(b)[n].layer
    ensures Waiting(b, n) ==> Completes(b, n) && Plan(b)[n].layer == Plan(b)[n - 1].layer
    ensures KeyMeasure(l)(Plan(b)[n]) == if !Waiting(b, n) && Plan(b)[n].layer == l then 1 else 0
  {
    hide ValidBegin, CheckHeader, Accepted, Plan, SingleRole;
    AcceptedBounds(b, hs, ps);
    NextPlane(b, limits, n, hs[n]);
  }

  /** No key is left waiting once every planned frame is in. */
  lemma {:induction false} NothingWaits(b: Begin, limits: Limits)
    requires ValidBegin(b, limits)
    ensures !Waiting(b, |Plan(b)|)
  {
    hide ValidBegin, Plan, Total;
    ArmedPlan(b, limits);
    if |Plan(b)| > 0 {
      assert PairedAt(b, Plan(b), |Plan(b)| - 1);
    }
  }

  /** The layer events of a complete stream are a permutation of the layers. */
  lemma {:induction false} EveryLayerOnce(b: Begin, limits: Limits, hs: seq<Header>, ps: seq<seq<byte>>)
    requires ValidBegin(b, limits) && b.expectedLayerFrames > 0 && Accepted(b, hs, ps)
    requires |hs| == |Plan(b)|
    ensures multiset(ReadyLayersOf(ReadyPairs(b, hs, ps, |hs|))) ==
            multiset(Range(b.geometry.numLayers))
  {
    hide ValidBegin, Accepted, Plan, Total, ReadyLayersOf, ReadyPairs, KeyMeasure, Range;
    AcceptedBounds(b, hs, ps);
    ArmedPlan(b, limits);
    NothingWaits(b, limits);
    assert Plan(b)[..|hs|] == Plan(b);
    forall l: u32
      ensures multiset(ReadyLayersOf(ReadyPairs(b, hs, ps, |hs|)))[l] == multiset(Range(b.geometry.numLayers))[l]
    {
      KeysAreLayers(b, limits, hs, ps, |hs|, l);
      RangeCounts(b.geometry.numLayers, l);
    }
  }

  function Range(n: u32): seq<u32> {
    if n == 0 then [] else Range(n - 1) + [n - 1]
  }

  lemma {:induction false} RangeCounts(n: u32, l: u32)
    ensures multiset(Range(n))[l] == if l < n then 1 else 0
    decreases n
  {
    if n == 0 {
    } else {
      RangeCounts(n - 1, l);
    }
  }

  // ---------------------------------------------------------------------
  // The coordinator
  // ---------------------------------------------------------------------

  function IsSingleRoleFrame(b: Begin, s: u32): bool {
    IsV2(b) && s < |Walk(b)| && SingleRole(b, Walk(b)[s])
  }

  function ExpectedLayerAt(b: Begin, s: u32): Option<u32> {
    if IsV2(b) && s < |Walk(b)| then Some(Walk(b)[s].layer) else None
  }

  lemma {:induction false} AcceptedBounds(b: Begin, hs: seq<Header>, ps: seq<seq<byte>>)
    requires b.expectedLayerFrames > 0 && Accepted(b, hs, ps)
    ensures |hs| == |ps| <= |Plan(b)| < U32_LIMIT
    ensures forall i :: 0 <= i < |hs| ==> CheckHeader(b, i, hs[i]).Ok?
  {
    hide Plan, CheckHeader;
    assert forall i :: 0 <= i < |hs| ==> PlaneOk(b, i, hs[i], ps[i]);
  }

  lemma {:induction false} Sound(v: IncrementalVerifier)
    requires v.Valid()
    ensures ValidBegin(v.begin, v.limits) && v.begin.expectedLayerFrames > 0
    ensures Accepted(v.begin, v.headers, v.payloads)
    ensures |v.headers| == |v.payloads| <= |Plan(v.begin)| < U32_LIMIT
  {
    hide ValidBegin, Plan;
    BeginHasFrames(v.begin, v.limits);
  }

  /** A seal that matches the whole stream never meets a waiting key. */
  lemma {:induction false} PendingBlocksSeal(v: IncrementalVerifier, seal: Seal)
    requires v.Valid() && Waiting(v.begin, |v.headers|)
    ensures |v.headers| <= |Plan(v.begin)|
    ensures !SealMatches(v.begin, v.headers, PlannedBytes(v.begin, |v.headers|),
                         PayloadDigest(Concat(v.payloads)), seal)
  {
    hide Plan, ValidBegin, Waiting, Total, IncrementalVerifier.Valid;
    Sound(v);
    ArmedPlan(v.begin, v.limits);
    NothingWaits(v.begin, v.limits);
  }

  /** An accepted value plane pairs with the plane just before it. */
  lemma {:induction false} ValueJoins(
      b: Begin, limits: Limits, hs: seq<Header>, ps: seq<seq<byte>>, h: Header, p: seq<byte>)
    requires ValidBegin(b, limits) && b.expectedLayerFrames > 0 && Accepted(b, hs, ps)
    requires |hs| < |Plan(b)| && PlaneOk(b, |hs|, h, p) && h.role.Value?
    ensures |hs| > 0 && hs[|hs| - 1].sequence == |hs| - 1
    ensures IsV2(b) ==> ExpectedLayerAt(b, |hs| - 1) == Some(h.layer)
    ensures NewPair(VerifiedPlane(hs[|hs| - 1], ps[|hs| - 1]), VerifiedPlane(h, p)) ==
            Some(PairAt(b, hs + [h], ps + [p], |hs|))
  {
    hide ValidBegin, CheckHeader, Accepted, FiniteF32, Walk, FlatWalk, SingleRole;
    var n := |hs|;
    AcceptedBounds(b, hs, ps);
    NextPlane(b, limits, n, h);
    NextPlane(b, limits, n - 1, hs[n - 1]);
    assert (hs + [h])[n - 1] == hs[n - 1] && (ps + [p])[n - 1] == ps[n - 1];
  }

  /** Everything one accepted plane does to the stream of layer events. */
  lemma {:induction false} PlaneEffect(
      b: Begin, limits: Limits, hs: seq<Header>, ps: seq<seq<byte>>, h: Header, p: seq<byte>)
    requires ValidBegin(b, limits) && b.expectedLayerFrames > 0 && Accepted(b, hs, ps)
    requires |hs| < |Plan(b)| && PlaneOk(b, |hs|, h, p)
    ensures h.sequence == |hs| && PairAt(b, hs + [h], ps + [p], |hs|).layer == h.layer
    ensures h.role.Key? ==>
              && !Waiting(b, |hs|) && IsSingleRoleFrame(b, |hs|) == Completes(b, |hs|)
              && PairAt(b, hs + [h], ps + [p], |hs|) == LayerPair(h.layer, VerifiedPlane(h, p), None)
    ensures h.role.Value? ==> Waiting(b, |hs|) && Completes(b, |hs|)
    ensures IsV2(b) ==> ExpectedLayerAt(b, |hs|) == Some(h.layer)
    ensures !IsV2(b) ==>
              !IsSingleRoleFrame(b, |hs|) && h.layer == |hs| / 2 && (h.role.Key? <==> |hs| % 2 == 0)
    ensures ReadyPairs(b, hs + [h], ps + [p], |hs| + 1) ==
            ReadyPairs(b, hs, ps, |hs|)
            + if Completes(b, |hs|) then [PairAt(b, hs + [h], ps + [p], |hs|)] else []
    ensures Waiting(b, |hs| + 1) <==> !Completes(b, |hs|)
  {
    hide ValidBegin, CheckHeader, Accepted, FiniteF32, Walk, FlatWalk, SingleRole, ReadyPairs;
    AcceptedBounds(b, hs, ps);
    NextPlane(b, limits, |hs|, h);
    ReadyPairsStep(b, hs, ps, h, p);
  }

  /** A layer's event carries the permit of its key. */
  function PermitFor(permit: Option<Permit>, pending: Option<PendingKey>): Option<Permit> {
    if permit.Some? || pending.None? then permit else Some(pending.value.permit)
  }

  /** The layer a plane completes: a key on its own, or a value under the key
      that waited for it. */
  predicate Joins(pending: Option<PendingKey>, plane: VerifiedPlane, pair: LayerPair) {
    && pair.layer == plane.header.layer
    && (plane.header.role.Key? ==> pending.None? && pair.key == plane && pair.value.None?)
    && (plane.header.role.Value? ==>
          && pending.Some? && pair.key == pending.value.plane && pair.value == Some(plane)
          && pair.key.header.role.Key? && pair.key.header.layer == pair.layer)
  }

  lemma {:induction false} SingleJoins(plane: VerifiedPlane)
    requires plane.header.role.Key?
    ensures Joins(None, plane, LayerPair(plane.header.layer, plane, None))
  {
  }

  lemma {:induction false} PairJoins(key: PendingKey, value: VerifiedPlane)
    ensures var pair := NewPair(key.plane, value); pair.Some? ==> Joins(Some(key), value, pair.value)
  {
  }

  class StreamingCoordinator {
    const verifier: IncrementalVerifier
    var pendingKey: Option<PendingKey>
    var readyLayers: u32
    var terminalPrepared: bool
    /** Every layer reported ready so far. */
    ghost var events: seq<LayerPair>

    ghost predicate Valid()
      reads this, verifier
    {
      && verifier.Valid()
      && var n := |verifier.headers|;
      && events == ReadyPairs(verifier.begin, verifier.headers, verifier.payloads, n)
      && readyLayers == |events|
      && (!IsV2(verifier.begin) ==> readyLayers == n / 2)
      && (pendingKey.Some? <==> Waiting(verifier.begin, n))
      && (pendingKey.Some? ==>
            pendingKey.value.plane == VerifiedPlane(verifier.headers[n - 1], verifier.payloads[n - 1]))
      && (terminalPrepared ==> verifier.sealed)
    }

    constructor (begin: Begin, limits: Limits)
      requires ValidBegin(begin, limits)
      ensures Valid() && fresh(verifier)
      ensures verifier.begin == begin && verifier.limits == limits
      ensures verifier.headers == [] && !verifier.sealed && events == [] && !terminalPrepared
    {
      hide Plan, ValidBegin, Accepted, PlannedBytes;
      verifier := new IncrementalVerifier(begin, limits);
      pendingKey, readyLayers, terminalPrepared, events := None, 0, false, [];
    }

    /** Advances the ready cursor; under the coordinator's invariant neither
        error can occur. */
    method CheckReadyCursor(layer: u32, sequence: u32) returns (ok: bool, error: CoordinatorError)
      modifies this`readyLayers
      ensures ok <==>
                && Some(layer) == (if IsV2(verifier.begin) then ExpectedLayerAt(verifier.begin, sequence)
                                   else Some(old(readyLayers)))
                && old(readyLayers) + 1 < U32_LIMIT
      ensures ok ==> readyLayers == old(readyLayers) + 1
      ensures !ok ==> readyLayers == old(readyLayers)
    {
      var expected := readyLayers;
      if IsV2(verifier.begin) {
        var at := ExpectedLayerAt(verifier.begin, sequence);
        if at.None? {
          return false, CursorMismatch;
        }
        expected := at.value;
      }
      if layer != expected {
        return false, CursorMismatch;
      }
      if readyLayers + 1 >= U32_LIMIT {
        return false, CountOverflow;
      }
      readyLayers := readyLayers + 1;
      return true, CursorMismatch;
    }

    /** Verify and stage one plane. `staged` is the outcome of writing it to
        the bundle; a staging failure is the only error that leaves a mark:
        the verifier has moved on, and the coordinator has not. */
    method IngestPlane(h: Header, payload: seq<byte>, permit: Option<Permit>, staged: bool)
      returns (r: Result<Option<LayerReady>, CoordinatorError>)
      requires Valid()
      modifies this, verifier
      ensures verifier.sealed == old(verifier.sealed) && terminalPrepared == old(terminalPrepared)
      ensures r.Ok? <==> old(Ingestible(h, payload, permit)) && staged
      ensures r.Ok? ==>
                && Valid()
                && verifier.headers == old(verifier.headers) + [h]
                && verifier.payloads == old(verifier.payloads) + [payload]
                && (r.value.Some? <==> Completes(verifier.begin, old(|verifier.headers|)))
      ensures r.Ok? && r.value.Some? ==>
                && events == old(events) + [r.value.value.pair]
                && Some(r.value.value.permit) == PermitFor(permit, old(pendingKey))
                && pendingKey.None? && Joins(old(pendingKey), VerifiedPlane(h, payload), r.value.value.pair)
      ensures r.Ok? && r.value.None? ==>
                && events == old(events) && h.role.Key? && permit.Some?
                && pendingKey == Some(PendingKey(VerifiedPlane(h, payload), permit.value))
      ensures r.Err? && r.error != Staging ==> Valid() && unchanged(this) && unchanged(verifier)
      ensures r == Err(Staging) <==> old(Ingestible(h, payload, permit)) && !staged
      ensures r == Err(Staging) ==>
                && verifier.Valid() && unchanged(this)
                && verifier.headers == old(verifier.headers) + [h]
                && verifier.payloads == old(verifier.payloads) + [payload]
      ensures r.Err? ==> r.error !in {AnotherKey, ValueWithoutKey, NotAdjacent, CursorMismatch, CountOverflow}
    {
      hide Plan, ValidBegin, Accepted, PlannedBytes, PlaneOk, Concat, DescriptorItems, ArtifactItems,
        ReadyPairs, PairAt, NewPair, Completes, Waiting, IsSingleRoleFrame, ExpectedLayerAt, Joins,
        IncrementalVerifier.Valid;
      if terminalPrepared {
        return Err(AfterTerminal);
      }
      if h.role.Key? && permit.None? {
        return Err(KeyNeedsPermit);
      }
      if h.role.Value? && permit.Some? {
        return Err(ValueHasPermit);
      }
      ghost var hs, ps := verifier.headers, verifier.payloads;
      Sound(verifier);
      var plane := verifier.VerifyPlane(h, payload);
      if plane.Err? {
        return Err(Rejected(plane.error));
      }
      if !staged {
        return Err(Staging);
      }
      PlaneEffect(verifier.begin, verifier.limits, hs, ps, h, payload);
      if h.role.Key? {
        if IsSingleRoleFrame(verifier.begin, h.sequence) {
          var pair := LayerPair(h.layer, plane.value, None);
          var ready, error := CheckReadyCursor(pair.layer, h.sequence);
          if !ready {
            return Err(error);
          }
          SingleJoins(plane.value);
          events := events + [pair];
          return Ok(Some(LayerReady(pair, permit.value)));
        }
        if pendingKey.Some? {
          return Err(AnotherKey);
        }
        pendingKey := Some(PendingKey(plane.value, permit.value));
        return Ok(None);
      }
      if pendingKey.None? {
        return Err(ValueWithoutKey);
      }
      ValueJoins(verifier.begin, verifier.limits, hs, ps, h, payload);
      var key := pendingKey.value;
      pendingKey := None;
      var pair := NewPair(key.plane, plane.value);
      if pair.None? {
        return Err(NotAdjacent);
      }
      PairJoins(key, plane.value);
      var ready, error := CheckReadyCursor(pair.value.layer, key.plane.header.sequence);
      if !ready {
        return Err(error);
      }
      events := events + [pair.value];
      return Ok(Some(LayerReady(pair.value, key.permit)));
    }

    /** The next planned plane, carrying a permit exactly when it is a key. */
    ghost predicate Ingestible(h: Header, payload: seq<byte>, permit: Option<Permit>)
      reads this, verifier
    {
      && !terminalPrepared && (h.role.Key? <==> permit.Some?)
      && !verifier.sealed && |verifier.headers| < |Plan(verifier.begin)|
      && |verifier.headers| < U32_LIMIT && verifier.begin.expectedLayerFrames > 0
      && PlaneOk(verifier.begin, |verifier.headers|, h, payload)
    }

    /** `prepared` is the outcome of writing the seal to the bundle. */
    method VerifyAndPrepareSeal(seal: Seal, prepared: bool) returns (r: Result<Seal, CoordinatorError>)
      requires Valid()
      modifies this`terminalPrepared, verifier`sealed
      ensures Valid()
      ensures r.Ok? <==> old(Sealable(seal)) && prepared
      ensures r.Ok? ==>
                && r.value == seal && terminalPrepared
                && multiset(ReadyLayersOf(events)) == multiset(Range(verifier.begin.geometry.numLayers))
      ensures r.Err? ==> terminalPrepared == old(terminalPrepared)
    {
      hide Plan, ValidBegin, Accepted, SealMatches, Waiting, ReadyPairs, IncrementalVerifier.Valid,
        PlannedBytes, ReadyLayersOf, Range;
      Sound(verifier);
      if pendingKey.Some? {
        PendingBlocksSeal(verifier, seal);
        return Err(IncompletePair);
      }
      var verified := verifier.VerifySeal(seal);
      if verified.Err? {
        return Err(Rejected(verified.error));
      }
      if !prepared {
        return Err(Staging);
      }
      EveryLayerOnce(verifier.begin, verifier.limits, verifier.headers, verifier.payloads);
      terminalPrepared := true;
      return Ok(verified.value);
    }

    ghost predicate Sealable(seal: Seal)
      reads this, verifier
    {
      && !verifier.sealed && |verifier.headers| <= |Plan(verifier.begin)|
      && SealMatches(verifier.begin, verifier.headers, PlannedBytes(verifier.begin, |verifier.headers|),
                     PayloadDigest(Concat(verifier.payloads)), seal)
    }
  }
}
