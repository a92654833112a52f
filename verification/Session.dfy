/** The single-connection receive loop, and the steps both loops share. */
module Session {
  import opened Machine
  import opened HandoffTypes
  import opened Layout
  import opened BeginValidation
  import opened Verifier
  import opened Coordinator

  datatype Plane = Plane(header: Header, payload: seq<byte>)

  datatype SessionError =
    | InvalidBegin
    | Disconnected
    | ProducerAbort
    | NotOrderedLayer
    | NotSeal
    | DuplicateBegin
    | AuxiliaryTerminal
    | UnexpectedTerminal
    | ReaderFailed
    | Interrupted
    | SinkRefused
    | PastFrameCount
    | DuplicateSequence
    | RejectedHeader(cause: VerifyError)
    | RejectedPlane(reason: CoordinatorError)
    | SealFailed(reason: CoordinatorError)

  /** Everything outside the session: whether it runs on undisturbed at each
      step, whether each plane is written to the bundle, and whether the sink
      takes the layer a plane completes. */
  datatype World = World(running: nat -> bool, written: nat -> bool, takes: nat -> bool)

  /** Frame `i` goes through. */
  predicate Passes(b: Begin, world: World, i: nat) {
    world.running(i) && world.written(i) && (Completes(b, i) ==> world.takes(i))
  }

  /** What the sink has been handed when a session verifies its seal. */
  datatype Delivered = Delivered(layers: seq<LayerPair>, seal: Seal)

  function Headers(planes: seq<Plane>): (hs: seq<Header>)
    ensures |hs| == |planes| && forall i :: 0 <= i < |hs| ==> hs[i] == planes[i].header
  {
    seq(|planes|, i requires 0 <= i < |planes| => planes[i].header)
  }

  function Payloads(planes: seq<Plane>): (ps: seq<seq<byte>>)
    ensures |ps| == |planes| && forall i :: 0 <= i < |ps| ==> ps[i] == planes[i].payload
  {
    seq(|planes|, i requires 0 <= i < |planes| => planes[i].payload)
  }

  /** The first `|planes|` planes of the plan, in order. */
  ghost predicate PlanesOk(b: Begin, planes: seq<Plane>) {
    && b.expectedLayerFrames > 0
    && Accepted(b, Headers(planes), Payloads(planes))
  }

  /** A complete ordered stream under one seal. */
  ghost predicate StreamOk(b: Begin, planes: seq<Plane>, seal: Seal) {
    && PlanesOk(b, planes) && |planes| == |Plan(b)|
    && SealMatches(b, Headers(planes), PlannedBytes(b, |planes|), PayloadDigest(Concat(Payloads(planes))), seal)
  }

  function Delivery(b: Begin, planes: seq<Plane>, seal: Seal): Delivered
    requires |planes| <= |Plan(b)|
  {
    Delivered(ReadyPairs(b, Headers(planes), Payloads(planes), |planes|), seal)
  }

  lemma {:induction false} PlanesExtend(b: Begin, planes: seq<Plane>, plane: Plane)
    ensures Headers(planes + [plane]) == Headers(planes) + [plane.header]
    ensures Payloads(planes + [plane]) == Payloads(planes) + [plane.payload]
  {
  }

  lemma {:induction false} PlanesOkStep(b: Begin, planes: seq<Plane>, plane: Plane)
    requires PlanesOk(b, planes)
    ensures |planes| <= |Plan(b)| < U32_LIMIT
    ensures PlanesOk(b, planes + [plane]) <==>
              |planes| < |Plan(b)| && PlaneOk(b, |planes|, plane.header, plane.payload)
  {
    hide Plan, PlaneOk, Headers, Payloads;
    PlanesExtend(b, planes, plane);
    var hs, ps := Headers(planes + [plane]), Payloads(planes + [plane]);
    if PlanesOk(b, planes + [plane]) {
      assert PlaneOk(b, |planes|, hs[|planes|], ps[|planes|]);
    }
  }

  lemma {:induction false} PlanesOkPrefix(b: Begin, planes: seq<Plane>, k: nat)
    requires PlanesOk(b, planes) && k <= |planes|
    ensures PlanesOk(b, planes[..k])
  {
    hide Plan, PlaneOk;
    var hs, ps := Headers(planes[..k]), Payloads(planes[..k]);
    forall i | 0 <= i < k ensures PlaneOk(b, i, hs[i], ps[i]) {
      assert PlaneOk(b, i, Headers(planes)[i], Payloads(planes)[i]);
    }
  }

  // ---------------------------------------------------------------------
  // What a delivered layer holds
  // ---------------------------------------------------------------------

  /** The layer sent from position `s` on: its key plane, and the plane right
      after it as its value, unless the key's class has one role and the next
      plane, if any, is another key. */
  predicate MadeAt(b: Begin, planes: seq<Plane>, pair: LayerPair, s: nat) {
    && s < |planes| == |Plan(b)| && planes[s].header.role.Key?
    && pair.layer == planes[s].header.layer
    && pair.key.header == planes[s].header && pair.key.bytes == planes[s].payload
    && (pair.value.None? <==> SingleRole(b, Plan(b)[s]))
    && (pair.value.None? <==> s + 1 == |planes| || planes[s + 1].header.role.Key?)
    && (pair.value.Some? ==>
          && planes[s + 1].header.role.Value? && planes[s + 1].header.layer == pair.layer
          && pair.value.value.header == planes[s + 1].header && pair.value.value.bytes == planes[s + 1].payload)
  }

  /** One layer for every key plane, in the order of the planes. */
  ghost predicate MadeInOrder(b: Begin, planes: seq<Plane>, pairs: seq<LayerPair>, starts: seq<nat>) {
    && |starts| == |pairs| && Ascending(starts)
    && (forall s: nat :: s in starts <==> s < |planes| && planes[s].header.role.Key?)
    && forall i: nat | i < |starts| :: MadeAt(b, planes, pairs[i], starts[i])
  }

  ghost predicate Assembled(b: Begin, planes: seq<Plane>, pairs: seq<LayerPair>) {
    exists starts :: MadeInOrder(b, planes, pairs, starts)
  }

  /** Where the layers completed by the first `n` frames start. */
  function Starts(b: Begin, n: nat): seq<nat>
    requires n <= |Plan(b)|
  {
    if n == 0 then []
    else
      Starts(b, n - 1)
      + if !Completes(b, n - 1) then [] else [if Plan(b)[n - 1].role.Value? && n > 1 then n - 2 else n - 1]
  }

  lemma {:induction false} StartsAre(b: Begin, n: nat)
    requires n <= |Plan(b)| && Paired(b, Plan(b))
    ensures Ascending(Starts(b, n)) && forall s: nat ::
              s in Starts(b, n) <==> s < n && Plan(b)[s].role.Key? && !(Waiting(b, n) && s == n - 1)
    decreases n
  {
    hide Plan, Completes, Paired;
    if n == 0 {
    } else {
      StartsAre(b, n - 1);
      FrameCases(b, n - 1);
      var before := Starts(b, n - 1);
      assert forall i :: 0 <= i < |before| ==> before[i] in before;
    }
  }

  lemma {:induction false} FrameCases(b: Begin, n: nat)
    requires n < |Plan(b)| && Paired(b, Plan(b))
    ensures Plan(b)[n].role.Value? ==> Completes(b, n) && Waiting(b, n) && Plan(b)[n - 1].role.Key?
    ensures Plan(b)[n].role.Key? ==> !Waiting(b, n)
  {
    hide Plan;
    assert PairedAt(b, Plan(b), n);
    assert n > 0 ==> PairedAt(b, Plan(b), n - 1);
  }

  /** The roles and layers of a complete stream are those of its plan. */
  lemma {:induction false} PlanesAsPlanned(b: Begin, limits: Limits, planes: seq<Plane>, s: nat)
    requires ValidBegin(b, limits) && PlanesOk(b, planes) && s < |planes|
    ensures |planes| <= |Plan(b)|
    ensures planes[s].header.role == Plan(b)[s].role && planes[s].header.layer == Plan(b)[s].layer
  {
    hide Plan, ValidBegin, Accepted, CheckHeader, EntryBytes;
    AcceptedBounds(b, Headers(planes), Payloads(planes));
    AcceptedHeader(b, limits, s, planes[s].header);
  }

  lemma {:induction false} MadeOfPlanes(b: Begin, limits: Limits, planes: seq<Plane>, n: nat)
    requires ValidBegin(b, limits) && PlanesOk(b, planes) && n < |planes| == |Plan(b)|
    requires Paired(b, Plan(b)) && Completes(b, n)
    ensures MadeAt(b, planes, PairAt(b, Headers(planes), Payloads(planes), n),
                   if Plan(b)[n].role.Value? && n > 0 then n - 1 else n)
  {
    hide Plan, ValidBegin, PlanesOk;
    assert PairedAt(b, Plan(b), n);
    PlanesAsPlanned(b, limits, planes, n);
    if n > 0 {
      PlanesAsPlanned(b, limits, planes, n - 1);
    }
    if n + 1 < |planes| {
      assert PairedAt(b, Plan(b), n + 1);
      PlanesAsPlanned(b, limits, planes, n + 1);
    }
  }

  lemma {:induction false} MadeUpTo(b: Begin, limits: Limits, planes: seq<Plane>, n: nat)
    requires ValidBegin(b, limits) && PlanesOk(b, planes) && n <= |planes| == |Plan(b)| && Paired(b, Plan(b))
    ensures var pairs := ReadyPairs(b, Headers(planes), Payloads(planes), n);
            && |Starts(b, n)| == |pairs|
            && forall i: nat | i < |pairs| :: MadeAt(b, planes, pairs[i], Starts(b, n)[i])
    decreases n
  {
    hide Plan, ValidBegin, PlanesOk, MadeAt, PairAt, Completes, Paired;
    if n == 0 {
    } else {
      MadeUpTo(b, limits, planes, n - 1);
      if Completes(b, n - 1) {
        MadeOfPlanes(b, limits, planes, n - 1);
      }
    }
  }

  /** The layers of a complete stream are its planes, put together. */
  lemma {:induction false} StreamAssembled(b: Begin, limits: Limits, planes: seq<Plane>)
    requires ValidBegin(b, limits) && PlanesOk(b, planes) && |planes| == |Plan(b)|
    ensures Assembled(b, planes, ReadyPairs(b, Headers(planes), Payloads(planes), |planes|))
  {
    hide Plan, ValidBegin, PlanesOk, MadeAt, ReadyPairs, Starts, Waiting, Paired, Total, Ascending;
    ArmedPlan(b, limits);
    NothingWaits(b, limits);
    var n := |planes|;
    StartsAre(b, n);
    MadeUpTo(b, limits, planes, n);
    forall s: nat ensures s in Starts(b, n) <==> s < n && planes[s].header.role.Key? {
      if s < n {
        PlanesAsPlanned(b, limits, planes, s);
      }
    }
    assert MadeInOrder(b, planes, ReadyPairs(b, Headers(planes), Payloads(planes), n), Starts(b, n));
  }

  /** The coordinator has taken exactly these planes. */
  ghost predicate Fed(c: StreamingCoordinator, planes: seq<Plane>)
    reads c, c.verifier
  {
    && c.Valid() && !c.terminalPrepared && !c.verifier.sealed
    && c.verifier.headers == Headers(planes) && c.verifier.payloads == Payloads(planes)
  }

  lemma {:induction false} FedPlanes(c: StreamingCoordinator, planes: seq<Plane>)
    requires Fed(c, planes)
    ensures PlanesOk(c.verifier.begin, planes) && |planes| <= |Plan(c.verifier.begin)| < U32_LIMIT
    ensures ValidBegin(c.verifier.begin, c.verifier.limits)
    ensures c.events == ReadyPairs(c.verifier.begin, Headers(planes), Payloads(planes), |planes|)
  {
    hide Plan, ValidBegin, Accepted, ReadyPairs, Waiting, Headers, Payloads, IncrementalVerifier.Valid;
    Sound(c.verifier);
  }

  /** One plane through the header check and into the coordinator. */
  method Feed(c: StreamingCoordinator, plane: Plane, staged: bool, ghost planes: seq<Plane>)
    returns (r: Result<Option<LayerPair>, SessionError>)
    requires Fed(c, planes)
    modifies c, c.verifier
    ensures r.Ok? <==> PlanesOk(c.verifier.begin, planes + [plane]) && staged
    ensures r.Ok? ==> Fed(c, planes + [plane])
    ensures r.Ok? ==> c.events == old(c.events) + if r.value.Some? then [r.value.value] else []
    ensures r.Ok? ==> (r.value.Some? <==> Completes(c.verifier.begin, |planes|))
  {
    hide Plan, ValidBegin, PlaneOk, Accepted, ReadyPairs, Waiting, Completes, Headers, Payloads, PlannedBytes,
      Concat, DescriptorItems, ArtifactItems, IncrementalVerifier.Valid, PlanesOk;
    FedPlanes(c, planes);
    PlanesOkStep(c.verifier.begin, planes, plane);
    PlanesExtend(c.verifier.begin, planes, plane);
    Sound(c.verifier);
    PlaneNeedsHeader(c.verifier.begin, |planes|, plane);
    var header := c.verifier.ValidateNextHeader(plane.header);
    if header.Err? {
      return Err(RejectedHeader(header.error));
    }
    var permit := if plane.header.role.Key? then Some(0) else None;
    var ready := c.IngestPlane(plane.header, plane.payload, permit, staged);
    if ready.Err? {
      return Err(RejectedPlane(ready.error));
    }
    return Ok(if ready.value.Some? then Some(ready.value.value.pair) else None);
  }

  /** The terminal seal of a session. */
  method Finish(c: StreamingCoordinator, seal: Seal, prepared: bool, ghost planes: seq<Plane>)
    returns (r: Result<Seal, SessionError>)
    requires Fed(c, planes)
    modifies c, c.verifier
    ensures c.events == old(c.events)
    ensures r.Ok? <==> StreamOk(c.verifier.begin, planes, seal) && prepared
    ensures r.Ok? ==> r.value == seal
    ensures r.Ok? ==>
              multiset(ReadyLayersOf(c.events)) == multiset(Range(c.verifier.begin.geometry.numLayers))
  {
    hide Plan, ValidBegin, Accepted, ReadyPairs, Waiting, Headers, Payloads, PlannedBytes, Concat,
      IncrementalVerifier.Valid, SealMatches, ReadyLayersOf, Range;
    FedPlanes(c, planes);
    ArmedPlan(c.verifier.begin, c.verifier.limits);
    SealCounts(c.verifier.begin, Headers(planes), PlannedBytes(c.verifier.begin, |planes|),
               PayloadDigest(Concat(Payloads(planes))), seal);
    var verified := c.VerifyAndPrepareSeal(seal, prepared);
    if verified.Err? {
      return Err(SealFailed(verified.error));
    }
    return Ok(verified.value);
  }

  lemma {:induction false} SealCounts(b: Begin, hs: seq<Header>, bytes: nat, payload: Hex, seal: Seal)
    ensures SealMatches(b, hs, bytes, payload, seal) ==> |hs| == b.expectedLayerFrames
  {
  }

  lemma {:induction false} PlaneNeedsHeader(b: Begin, s: u32, plane: Plane)
    requires b.expectedLayerFrames > 0
    ensures PlaneOk(b, s, plane.header, plane.payload) ==> CheckHeader(b, s, plane.header).Ok?
  {
    hide CheckHeader;
  }

  // ---------------------------------------------------------------------
  // One connection
  // ---------------------------------------------------------------------

  datatype Wire =
    | LayerFrame(plane: Plane)
    | SealFrame(seal: Seal)
    | AbortFrame
    | OtherFrame

  /** The first `n` frames of the connection are layer frames; their planes. */
  predicate AllLayers(wire: seq<Wire>, n: nat) {
    n <= |wire| && forall i :: 0 <= i < n ==> wire[i].LayerFrame?
  }

  function PlanesOf(wire: seq<Wire>, n: nat): (planes: seq<Plane>)
    requires AllLayers(wire, n)
    ensures |planes| == n
  {
    seq(n, i requires 0 <= i < n => wire[i].plane)
  }

  /** The connection carries a complete stream and its seal, and every frame
      goes through. */
  ghost predicate Receivable(b: Begin, limits: Limits, wire: seq<Wire>, world: World) {
    && ValidBegin(b, limits)
    && var n := |Plan(b)|;
    && AllLayers(wire, n) && |wire| > n && wire[n].SealFrame?
    && StreamOk(b, PlanesOf(wire, n), wire[n].seal)
    && (forall i: nat | i < n :: Passes(b, world, i))
    && world.running(n) && world.written(n)
  }

  lemma {:induction false} PlanesOfStep(wire: seq<Wire>, n: nat, m: nat)
    requires AllLayers(wire, m) && n < m
    ensures AllLayers(wire, n) && PlanesOf(wire, m)[..n + 1] == PlanesOf(wire, n) + [wire[n].plane]
    ensures AllLayers(wire, n + 1) && PlanesOf(wire, n + 1) == PlanesOf(wire, n) + [wire[n].plane]
  {
  }

  /** A frame that cannot follow the planes before it rules the session out. */
  lemma {:induction false} NotReceivable(b: Begin, limits: Limits, wire: seq<Wire>, world: World, n: nat)
    requires AllLayers(wire, n) && n < |wire| && n < |Plan(b)|
    requires wire[n].LayerFrame? ==> !PlanesOk(b, PlanesOf(wire, n) + [wire[n].plane]) || !Passes(b, world, n)
    ensures !Receivable(b, limits, wire, world)
  {
    hide Plan, ValidBegin, PlanesOk, PlanesOf, SealMatches, Passes;
    if Receivable(b, limits, wire, world) {
      PlanesOfStep(wire, n, |Plan(b)|);
      PlanesOkPrefix(b, PlanesOf(wire, |Plan(b)|), n + 1);
    }
  }

  lemma {:induction false} PlaneSequence(b: Begin, limits: Limits, planes: seq<Plane>, plane: Plane)
    requires ValidBegin(b, limits) && PlanesOk(b, planes)
    ensures PlanesOk(b, planes + [plane]) ==> plane.header.sequence == |planes|
  {
    hide Plan, ValidBegin, PlanesOk, CheckHeader;
    BeginHasFrames(b, limits);
    PlanesOkStep(b, planes, plane);
    if PlanesOk(b, planes + [plane]) {
      PlaneNeedsHeader(b, |planes|, plane);
      AcceptedHeader(b, limits, |planes|, plane.header);
    }
  }

  /** Receives one connection: succeeds exactly on a complete, ordered,
      sealed stream, and then has reported every layer once. */
  method ReceiveOrdered(b: Begin, limits: Limits, wire: seq<Wire>, world: World)
    returns (r: Result<Delivered, SessionError>)
    ensures r.Ok? <==> Receivable(b, limits, wire, world)
    ensures r.Ok? ==>
              && r.value == Delivery(b, PlanesOf(wire, |Plan(b)|), wire[|Plan(b)|].seal)
              && multiset(ReadyLayersOf(r.value.layers)) == multiset(Range(b.geometry.numLayers))
              && Assembled(b, PlanesOf(wire, |Plan(b)|), r.value.layers)
  {
    hide Plan, ValidBegin, PlanesOk, PlanesOf, SealMatches, ReadyPairs, ReadyLayersOf, Range, Headers, Payloads,
      Waiting, IncrementalVerifier.Valid, Fed, PlannedBytes, Completes, Assembled;
    var valid := ValidateBegin(b, limits);
    if valid.Err? {
      return Err(InvalidBegin);
    }
    ArmedPlan(b, limits);
    var c := new StreamingCoordinator(b, limits);
    var layers: seq<LayerPair> := [];
    Unfed(c);
    for n := 0 to b.expectedLayerFrames
      invariant AllLayers(wire, n) && Fed(c, PlanesOf(wire, n))
      invariant c.verifier.begin == b && c.verifier.limits == limits
      invariant layers == c.events
      invariant forall i: nat | i < n :: Passes(b, world, i)
    {
      FedPlanes(c, PlanesOf(wire, n));
      if !world.running(n) {
        assert !Passes(b, world, n);
        return Err(Interrupted);
      }
      if n >= |wire| {
        return Err(Disconnected);
      }
      if wire[n].AbortFrame? {
        NotReceivable(b, limits, wire, world, n);
        return Err(ProducerAbort);
      }
      if !wire[n].LayerFrame? {
        NotReceivable(b, limits, wire, world, n);
        return Err(NotOrderedLayer);
      }
      PlaneSequence(b, limits, PlanesOf(wire, n), wire[n].plane);
      if wire[n].plane.header.sequence != n {
        NotReceivable(b, limits, wire, world, n);
        return Err(NotOrderedLayer);
      }
      PlanesOfStep(wire, n, n + 1);
      var ready := Feed(c, wire[n].plane, world.written(n), PlanesOf(wire, n));
      if ready.Err? {
        NotReceivable(b, limits, wire, world, n);
        return Err(ready.error);
      }
      if ready.value.Some? {
        layers := layers + [ready.value.value];
        if !world.takes(n) {
          NotReceivable(b, limits, wire, world, n);
          return Err(SinkRefused);
        }
      }
    }
    var last := b.expectedLayerFrames;
    FedPlanes(c, PlanesOf(wire, last));
    if last >= |wire| {
      return Err(Disconnected);
    }
    if !world.running(last) {
      return Err(Interrupted);
    }
    if !wire[last].SealFrame? {
      return Err(NotSeal);
    }
    var seal := Finish(c, wire[last].seal, world.written(last), PlanesOf(wire, last));
    if seal.Err? {
      return Err(seal.error);
    }
    StreamAssembled(b, limits, PlanesOf(wire, last));
    return Ok(Delivered(layers, seal.value));
  }

  lemma {:induction false} Unfed(c: StreamingCoordinator)
    requires c.Valid() && !c.terminalPrepared && !c.verifier.sealed && c.verifier.headers == []
    ensures Fed(c, [])
  {
    hide Plan, ValidBegin;
    Sound(c.verifier);
  }
}
