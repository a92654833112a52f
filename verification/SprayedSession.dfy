/** The receive loop over several connections, and its agreement with the
    single-connection loop. */
module SprayedSession {
  import opened Machine
  import opened HandoffTypes
  import opened Layout
  import opened BeginValidation
  import opened Verifier
  import opened Coordinator
  import opened Session
  import opened Mux

  datatype SprayEvent =
    | BeginEvent
    | LayerEvent(plane: Plane)
    | Terminal(stream: nat, frame: Wire)
    | Failed

  predicate IsSeal(e: SprayEvent) {
    e.Terminal? && e.stream == 0 && e.frame.SealFrame?
  }

  /** Only layer frames, and seals on stream 0. */
  predicate Benign(events: seq<SprayEvent>) {
    forall i :: 0 <= i < |events| ==> events[i].LayerEvent? || IsSeal(events[i])
  }

  function Planes(events: seq<SprayEvent>): seq<Plane> {
    if events == [] then []
    else
      var n := |events| - 1;
      Planes(events[..n]) + if events[n].LayerEvent? then [events[n].plane] else []
  }

  function Seals(events: seq<SprayEvent>): seq<Seal> {
    if events == [] then []
    else
      var n := |events| - 1;
      Seals(events[..n]) + if IsSeal(events[n]) then [events[n].frame.seal] else []
  }

  /** A seal counts exactly if it ends stream 0. */
  lemma {:induction false} SealsEndStreamZero(events: seq<SprayEvent>, seal: Seal)
    ensures seal in Seals(events) <==> Terminal(0, SealFrame(seal)) in events
    decreases |events|
  {
    if events == [] {
    } else {
      var n := |events| - 1;
      SealsEndStreamZero(events[..n], seal);
      assert events == events[..n] + [events[n]];
    }
  }

  /** The events carry one complete sealed stream, in any order. */
  ghost predicate Whole(b: Begin, events: seq<SprayEvent>) {
    && Benign(events) && Permutes(Planes(events), |Plan(b)|) && |Seals(events)| == 1
    && StreamOk(b, InOrder(Planes(events), |Plan(b)|), Seals(events)[0])
  }

  // ---------------------------------------------------------------------
  // Prefixes
  // ---------------------------------------------------------------------

  lemma {:induction false} EventStep(events: seq<SprayEvent>, i: nat)
    requires i < |events|
    ensures Planes(events[..i + 1]) ==
            Planes(events[..i]) + if events[i].LayerEvent? then [events[i].plane] else []
    ensures Seals(events[..i + 1]) ==
            Seals(events[..i]) + if IsSeal(events[i]) then [events[i].frame.seal] else []
  {
    assert events[..i + 1][..i] == events[..i];
  }

  lemma {:induction false} PlanesPrefix(events: seq<SprayEvent>, i: nat, k: nat)
    requires i <= k <= |events|
    ensures Planes(events[..i]) <= Planes(events[..k]) && Seals(events[..i]) <= Seals(events[..k])
    decreases k
  {
    if i >= k {
    } else {
      PlanesPrefix(events, i, k - 1);
      EventStep(events, k - 1);
    }
  }

  lemma {:induction false} InOrderPrefix(arrived: seq<Plane>, more: seq<Plane>, n: nat)
    requires arrived <= more && AllArrived(arrived, n)
    ensures AllArrived(more, n)
    ensures InOrder(more, n) == InOrder(arrived, n)
    decreases |more| - |arrived|
  {
    hide Arrived, InOrder;
    if |arrived| < |more| {
      var p := more[|arrived|];
      InOrderGrows(arrived, p, n);
      InOrderPrefix(arrived + [p], more, n);
    } else {
      assert arrived == more;
    }
  }

  lemma {:induction false} InOrderTake(arrived: seq<Plane>, n: nat, m: nat)
    requires n <= m && AllArrived(arrived, m)
    ensures InOrder(arrived, m)[..n] == InOrder(arrived, n)
    decreases m
  {
    hide Arrived, Slot;
    if n >= m {
    } else {
      InOrderTake(arrived, n, m - 1);
      assert InOrder(arrived, m)[..m - 1] == InOrder(arrived, m - 1);
    }
  }

  // ---------------------------------------------------------------------
  // What rules a session out
  // ---------------------------------------------------------------------

  lemma {:induction false} ForeignEvent(b: Begin, events: seq<SprayEvent>, i: nat)
    requires i < |events| && !events[i].LayerEvent? && !IsSeal(events[i])
    ensures forall k | i < k <= |events| :: !Whole(b, events[..k])
  {
    hide Permutes, StreamOk, Planes, Seals, InOrder, Plan, IsSeal;
    forall k | i < k <= |events| ensures !Whole(b, events[..k]) {
      assert events[..k][i] == events[i];
    }
  }

  /** A sequence past the end or seen before. */
  lemma {:induction false} BadSequence(b: Begin, events: seq<SprayEvent>, i: nat)
    requires i < |events| && events[i].LayerEvent?
    requires SequenceOf(events[i].plane) >= |Plan(b)|
             || Arrived(Planes(events[..i]), SequenceOf(events[i].plane))
    ensures forall k | i < k <= |events| :: !Whole(b, events[..k])
  {
    hide StreamOk, Planes, Seals, InOrder, Plan;
    var p := events[i].plane;
    forall k | i < k <= |events| ensures !Whole(b, events[..k]) {
      EventStep(events, i);
      PlanesPrefix(events, i + 1, k);
      var before, arrived := Planes(events[..i]), Planes(events[..k]);
      assert arrived[|before|] == p;
      if SequenceOf(p) < |Plan(b)| {
        var j :| 0 <= j < |before| && SequenceOf(before[j]) == SequenceOf(p);
        assert arrived[j] == before[j];
      }
    }
  }

  /** A plane that cannot follow its predecessors. */
  lemma {:induction false} BadPlane(b: Begin, events: seq<SprayEvent>, i: nat, n: nat)
    requires i < |events| && n <= |Plan(b)|
    requires AllArrived(Planes(events[..i + 1]), n)
    requires !PlanesOk(b, InOrder(Planes(events[..i + 1]), n))
    ensures forall k | i < k <= |events| :: !Whole(b, events[..k])
  {
    hide PlanesOk, SealMatches, Planes, Seals, InOrder, Plan, Arrived;
    forall k | i < k <= |events| ensures !Whole(b, events[..k]) {
      if Whole(b, events[..k]) {
        PlanesPrefix(events, i + 1, k);
        InOrderPrefix(Planes(events[..i + 1]), Planes(events[..k]), n);
        InOrderTake(Planes(events[..k]), n, |Plan(b)|);
        PlanesOkPrefix(b, InOrder(Planes(events[..k]), |Plan(b)|), n);
      }
    }
  }

  /** Nothing more can follow a complete stream and its seal. */
  lemma {:induction false} NothingFollows(b: Begin, events: seq<SprayEvent>, i: nat)
    requires i <= |events| && |Seals(events[..i])| == 1
    requires AllArrived(Planes(events[..i]), |Plan(b)|)
    ensures forall k | i < k <= |events| :: !Whole(b, events[..k])
  {
    hide StreamOk, Planes, Seals, InOrder, Plan, Arrived, IsSeal, Permutes;
    if i < |events| {
      if !events[i].LayerEvent? && !IsSeal(events[i]) {
        ForeignEvent(b, events, i);
      } else if events[i].LayerEvent? {
        BadSequence(b, events, i);
      } else {
        forall k | i < k <= |events| ensures !Whole(b, events[..k]) {
          EventStep(events, i);
          PlanesPrefix(events, i + 1, k);
        }
      }
    }
  }

  // ---------------------------------------------------------------------
  // The loop
  // ---------------------------------------------------------------------

  /** Hands every frame that is next in order to the coordinator. On failure
      `bad` planes in order are not a prefix of a stream, or the last of them
      did not go through. */
  method Drain(mux: SequenceMux, c: StreamingCoordinator, world: World)
    returns (r: Result<seq<LayerPair>, SessionError>, ghost bad: nat)
    requires mux.Valid() && Fed(c, InOrder(mux.arrived, mux.next))
    modifies mux, c, c.verifier
    ensures mux.Valid() && mux.arrived == old(mux.arrived)
    ensures r.Ok? ==>
              && old(mux.next) <= mux.next && Fed(c, InOrder(mux.arrived, mux.next))
              && (mux.next == mux.expected || !Arrived(mux.arrived, mux.next))
              && c.events == old(c.events) + r.value
              && forall i: nat | old(mux.next) <= i < mux.next :: Passes(c.verifier.begin, world, i)
    ensures r.Err? ==>
              && 0 < bad <= mux.expected && AllArrived(mux.arrived, bad)
              && (!PlanesOk(c.verifier.begin, InOrder(mux.arrived, bad)) || !Passes(c.verifier.begin, world, bad - 1))
  {
    hide Arrived, Slot, InOrder, PlanesOk, Fed, NoRepeats, InRange;
    var layers: seq<LayerPair> := [];
    bad := 0;
    while true
      invariant mux.Valid() && mux.arrived == old(mux.arrived) && old(mux.next) <= mux.next
      invariant Fed(c, InOrder(mux.arrived, mux.next))
      invariant c.events == old(c.events) + layers
      invariant forall i: nat | old(mux.next) <= i < mux.next :: Passes(c.verifier.begin, world, i)
      decreases mux.expected - mux.next
    {
      var sequence := mux.next;
      var ready := mux.PopReady();
      if ready.None? {
        return Ok(layers), 0;
      }
      if !world.running(sequence) {
        return Err(Interrupted), mux.next;
      }
      var layer := Feed(c, ready.value, world.written(sequence), InOrder(mux.arrived, sequence));
      if layer.Err? {
        return Err(layer.error), mux.next;
      }
      if layer.value.Some? {
        layers := layers + [layer.value.value];
        if !world.takes(sequence) {
          return Err(SinkRefused), mux.next;
        }
      }
    }
  }

  /** The mux holds exactly the layer frames seen, and everything in order
      has been handed on and went through. */
  ghost predicate Reassembling(
      b: Begin, limits: Limits, mux: SequenceMux, c: StreamingCoordinator, seen: seq<SprayEvent>, world: World)
    reads mux, c, c.verifier
  {
    && mux.Valid() && mux.expected == |Plan(b)| && mux.arrived == Planes(seen) && Benign(seen)
    && (mux.next == mux.expected || !Arrived(mux.arrived, mux.next))
    && Fed(c, InOrder(mux.arrived, mux.next))
    && c.verifier.begin == b && c.verifier.limits == limits
    && forall j: nat | j < mux.next :: Passes(b, world, j)
  }

  /** One layer frame. */
  method OnLayer(b: Begin, limits: Limits, mux: SequenceMux, c: StreamingCoordinator, plane: Plane,
                 ghost events: seq<SprayEvent>, ghost i: nat, world: World)
    returns (r: Result<seq<LayerPair>, SessionError>)
    requires i < |events| && events[i] == LayerEvent(plane)
    requires Reassembling(b, limits, mux, c, events[..i], world)
    modifies mux, c, c.verifier
    ensures r.Ok? ==>
              Reassembling(b, limits, mux, c, events[..i + 1], world) && c.events == old(c.events) + r.value
    ensures r.Err? && (forall j: nat | j < |Plan(b)| :: Passes(b, world, j)) ==>
              forall k: nat | i < k <= |events| :: !Whole(b, events[..k])
  {
    hide Arrived, Slot, InOrder, PlanesOk, Fed, NoRepeats, InRange, Planes, Seals, Plan, Whole;
    EventStep(events, i);
    var accepted := mux.Accept(plane);
    if accepted.Err? {
      BadSequence(b, events, i);
      return Err(if accepted.error.Past? then PastFrameCount else DuplicateSequence);
    }
    InOrderGrows(Planes(events[..i]), plane, mux.next);
    var drained, bad := Drain(mux, c, world);
    if drained.Err? {
      if !PlanesOk(b, InOrder(mux.arrived, bad)) {
        BadPlane(b, events, i, bad);
      }
      return Err(drained.error);
    }
    return Ok(drained.value);
  }

  /** How an event that is neither a layer nor a seal ends the session. */
  function Foreign(e: SprayEvent): SessionError {
    match e
    case BeginEvent => DuplicateBegin
    case Failed => ReaderFailed
    case LayerEvent(_) => UnexpectedTerminal
    case Terminal(stream, frame) =>
      if stream != 0 then AuxiliaryTerminal
      else if frame.AbortFrame? then ProducerAbort
      else UnexpectedTerminal
  }

  /** Nothing outside disturbs the first `n` steps. */
  predicate Calm(world: World, n: nat) {
    forall i: nat | i <= n :: world.running(i) && world.written(i) && world.takes(i)
  }

  /** Receives a sprayed session, whatever the interleaving. Stream 0 ends at
      its seal, so at most one arrives. */
  method ReceiveSprayed(b: Begin, limits: Limits, events: seq<SprayEvent>, world: World)
    returns (r: Result<Delivered, SessionError>, ghost used: nat)
    requires |Seals(events)| <= 1
    ensures r.Ok? ==>
              && ValidBegin(b, limits) && used <= |events| && Whole(b, events[..used])
              && r.value == Delivery(b, InOrder(Planes(events[..used]), |Plan(b)|), Seals(events[..used])[0])
              && multiset(ReadyLayersOf(r.value.layers)) == multiset(Range(b.geometry.numLayers))
              && Assembled(b, InOrder(Planes(events[..used]), |Plan(b)|), r.value.layers)
    ensures r.Err? && ValidBegin(b, limits) && Calm(world, |Plan(b)| + |events|) ==>
              forall k: nat | k <= |events| :: !Whole(b, events[..k])
  {
    hide ReadyPairs, ReadyLayersOf, Range, Planes, Seals, InOrder, Plan, ValidBegin, Headers, Payloads, Whole, Fed,
      Reassembling, StreamOk, SequenceMux.Valid, StreamingCoordinator.Valid, IsSeal, Assembled;
    used := 0;
    var valid := ValidateBegin(b, limits);
    if valid.Err? {
      return Err(InvalidBegin), 0;
    }
    ArmedPlan(b, limits);
    var c := new StreamingCoordinator(b, limits);
    var mux := new SequenceMux(b.expectedLayerFrames);
    var layers: seq<LayerPair> := [];
    var seal: Option<Seal> := None;
    var i := 0;
    Started(b, limits, mux, c, events, world);
    while !mux.IsComplete() || seal.None?
      invariant i <= |events| && Reassembling(b, limits, mux, c, events[..i], world)
      invariant Seals(events[..i]) == if seal.Some? then [seal.value] else []
      invariant layers == c.events
      invariant forall k: nat | k < i :: !Whole(b, events[..k])
      decreases |events| - i
    {
      StillIncomplete(b, limits, mux, c, events[..i], world, seal);
      if !world.running(i) {
        return Err(Interrupted), 0;
      }
      if i == |events| {
        return Err(Disconnected), 0;
      }
      EventStep(events, i);
      if events[i].LayerEvent? {
        NotASeal(events[i]);
        var ready := OnLayer(b, limits, mux, c, events[i].plane, events, i, world);
        if ready.Err? {
          return Err(ready.error), 0;
        }
        layers := layers + ready.value;
      } else if IsSeal(events[i]) {
        SealIsFirst(b, limits, mux, c, events, i, world, seal);
        seal := Some(SealOf(events[i]));
      } else {
        ForeignEvent(b, events, i);
        return Err(Foreign(events[i])), 0;
      }
      i := i + 1;
    }
    ghost var planes := Ended(b, limits, mux, c, events, i, world);
    var sealed := Finish(c, seal.value, world.written(mux.next), planes);
    if sealed.Err? {
      return Err(sealed.error), 0;
    }
    WholeAssembled(b, limits, planes, seal.value);
    return Ok(Delivered(layers, sealed.value)), i;
  }

  lemma {:induction false} WholeAssembled(b: Begin, limits: Limits, planes: seq<Plane>, seal: Seal)
    requires ValidBegin(b, limits) && StreamOk(b, planes, seal)
    ensures |planes| == |Plan(b)| && Assembled(b, planes, Delivery(b, planes, seal).layers)
  {
    hide Plan, ValidBegin, PlanesOk, SealMatches, Assembled, ReadyPairs, Headers, Payloads;
    StreamAssembled(b, limits, planes);
  }

  function SealOf(e: SprayEvent): Seal
    requires IsSeal(e)
  {
    e.frame.seal
  }

  lemma {:induction false} NotASeal(e: SprayEvent)
    ensures e.LayerEvent? ==> !IsSeal(e)
  {
  }

  lemma {:induction false} Started(
      b: Begin, limits: Limits, mux: SequenceMux, c: StreamingCoordinator, events: seq<SprayEvent>, world: World)
    requires c.Valid() && !c.terminalPrepared && !c.verifier.sealed && c.verifier.headers == []
    requires c.verifier.begin == b && c.verifier.limits == limits
    requires mux.Valid() && mux.expected == |Plan(b)| && mux.next == 0 && mux.arrived == []
    ensures Reassembling(b, limits, mux, c, events[..0], world)
    ensures Seals(events[..0]) == []
  {
    hide Plan, ValidBegin, Fed, SequenceMux.Valid, StreamingCoordinator.Valid;
    Unfed(c);
    assert AllArrived([], 0) && InOrder([], 0) == [];
  }

  /** While the loop runs, what has been seen is not a whole session. */
  lemma {:induction false} StillIncomplete(
      b: Begin, limits: Limits, mux: SequenceMux, c: StreamingCoordinator, seen: seq<SprayEvent>, world: World,
      seal: Option<Seal>)
    requires Reassembling(b, limits, mux, c, seen, world)
    requires mux.next != mux.expected || seal.None?
    requires Seals(seen) == if seal.Some? then [seal.value] else []
    ensures !Whole(b, seen)
  {
    hide StreamOk, Planes, Seals, InOrder, Plan, Arrived, Fed, Passes;
  }

  lemma {:induction false} SealIsFirst(
      b: Begin, limits: Limits, mux: SequenceMux, c: StreamingCoordinator, events: seq<SprayEvent>, i: nat,
      world: World, seal: Option<Seal>)
    requires i < |events| && IsSeal(events[i]) && |Seals(events)| <= 1
    requires Reassembling(b, limits, mux, c, events[..i], world)
    ensures Reassembling(b, limits, mux, c, events[..i + 1], world)
    ensures Seals(events[..i + 1]) == [SealOf(events[i])]
  {
    hide StreamOk, Planes, Seals, InOrder, Plan, Arrived, Fed, SequenceMux.Valid;
    EventStep(events, i);
    PlanesPrefix(events, i + 1, |events|);
    assert events[..|events|] == events;
  }

  /** At the loop's end only the seal is left to check. */
  lemma {:induction false} Ended(
      b: Begin, limits: Limits, mux: SequenceMux, c: StreamingCoordinator, events: seq<SprayEvent>, i: nat,
      world: World)
    returns (planes: seq<Plane>)
    requires i <= |events| && Reassembling(b, limits, mux, c, events[..i], world)
    requires mux.next == mux.expected && |Seals(events[..i])| == 1
    ensures mux.next == |Plan(b)| && AllArrived(Planes(events[..i]), |Plan(b)|)
    ensures planes == InOrder(Planes(events[..i]), |Plan(b)|) && Fed(c, planes)
    ensures Whole(b, events[..i]) <==> StreamOk(b, planes, Seals(events[..i])[0])
    ensures forall k: nat | i < k <= |events| :: !Whole(b, events[..k])
    ensures c.verifier.begin == b && c.events == Delivery(b, planes, Seals(events[..i])[0]).layers
    ensures Whole(b, events[..i]) ==> Permutes(Planes(events[..i]), |Plan(b)|)
  {
    hide Planes, Seals, InOrder, Plan, Arrived, Fed, StreamOk, Headers, Payloads, ReadyPairs;
    planes := InOrder(mux.arrived, mux.next);
    FedPlanes(c, planes);
    NothingFollows(b, events, i);
  }

  // ---------------------------------------------------------------------
  // Both loops deliver the same stream
  // ---------------------------------------------------------------------

  predicate Numbered(planes: seq<Plane>) {
    forall i :: 0 <= i < |planes| ==> SequenceOf(planes[i]) == i
  }

  lemma {:induction false} StreamIsNumbered(b: Begin, limits: Limits, planes: seq<Plane>)
    requires ValidBegin(b, limits) && PlanesOk(b, planes)
    ensures Numbered(planes)
    decreases |planes|
  {
    hide ValidBegin, PlanesOk;
    if planes == [] {
    } else {
      var n := |planes| - 1;
      PlanesOkPrefix(b, planes, n);
      StreamIsNumbered(b, limits, planes[..n]);
      assert planes == planes[..n] + [planes[n]];
      PlaneSequence(b, limits, planes[..n], planes[n]);
      forall i | 0 <= i < n ensures SequenceOf(planes[i]) == i {
        assert planes[..n][i] == planes[i];
      }
    }
  }

  lemma {:induction false} OccursTwice(s: seq<Plane>, i: nat, j: nat)
    requires i < j < |s| && s[i] == s[j]
    ensures multiset(s)[s[i]] >= 2
  {
    assert s == s[..j] + s[j..];
    assert s[..j][i] in s[..j] && s[j..][0] in s[j..];
    assert multiset(s) == multiset(s[..j]) + multiset(s[j..]);
    assert s[i] in multiset(s[..j]) && s[i] in multiset(s[j..]);
  }

  lemma {:induction false} OccursOnce(planes: seq<Plane>, i: nat)
    requires Numbered(planes) && i < |planes|
    ensures multiset(planes)[planes[i]] == 1
  {
    var p := planes[i];
    assert planes == planes[..i] + [p] + planes[i + 1..];
    assert p !in planes[..i];
    var rest := planes[i + 1..];
    assert forall j :: 0 <= j < |rest| ==> SequenceOf(rest[j]) > i;
    assert multiset(planes) == multiset(planes[..i]) + multiset([p]) + multiset(rest);
    assert multiset(planes[..i])[p] == 0 && multiset(rest)[p] == 0;
  }

  /** Any arrangement of a numbered stream is put back in its order. */
  lemma {:induction false} ShuffleRestored(planes: seq<Plane>, arrived: seq<Plane>)
    requires Numbered(planes) && multiset(arrived) == multiset(planes)
    ensures Permutes(arrived, |planes|) && AllArrived(arrived, |planes|)
    ensures InOrder(arrived, |planes|) == planes
  {
    hide Slot, InOrder;
    forall i | 0 <= i < |arrived|
      ensures SequenceOf(arrived[i]) < |planes| && arrived[i] == planes[SequenceOf(arrived[i])]
    {
      assert arrived[i] in multiset(planes);
    }
    forall i, j | 0 <= i < j < |arrived| ensures SequenceOf(arrived[i]) != SequenceOf(arrived[j]) {
      if SequenceOf(arrived[i]) == SequenceOf(arrived[j]) {
        OccursTwice(arrived, i, j);
        OccursOnce(planes, SequenceOf(arrived[i]));
      }
    }
    forall s: nat | s < |planes| ensures Arrived(arrived, s) {
      assert planes[s] in multiset(arrived);
      var i :| 0 <= i < |arrived| && arrived[i] == planes[s];
      assert SequenceOf(arrived[i]) == s;
    }
    forall s | 0 <= s < |planes| ensures InOrder(arrived, |planes|)[s] == planes[s] {
      var p := InOrder(arrived, |planes|)[s];
      assert p in arrived && SequenceOf(p) == s;
      var i :| 0 <= i < |arrived| && arrived[i] == p;
    }
  }

  /** However the frames of a stream were spread over connections, the sprayed
      loop sees a whole session and reconstructs the stream itself. */
  lemma {:induction false} AnySprayingIsWhole(
      b: Begin, limits: Limits, planes: seq<Plane>, seal: Seal, events: seq<SprayEvent>)
    requires ValidBegin(b, limits) && StreamOk(b, planes, seal)
    requires Benign(events) && Seals(events) == [seal] && multiset(Planes(events)) == multiset(planes)
    ensures Whole(b, events)
    ensures Delivery(b, InOrder(Planes(events), |Plan(b)|), Seals(events)[0]) == Delivery(b, planes, seal)
  {
    hide Planes, Seals, Plan, InOrder, ReadyPairs, SealMatches, PlanesOk, Permutes, ValidBegin;
    StreamIsNumbered(b, limits, planes);
    ShuffleRestored(planes, Planes(events));
  }

  function AsWire(planes: seq<Plane>, seal: Seal): (wire: seq<Wire>)
    ensures |wire| == |planes| + 1
  {
    seq(|planes|, i requires 0 <= i < |planes| => LayerFrame(planes[i])) + [SealFrame(seal)]
  }

  lemma {:induction false} WirePlanes(planes: seq<Plane>, seal: Seal)
    ensures var wire := AsWire(planes, seal);
            AllLayers(wire, |planes|) && PlanesOf(wire, |planes|) == planes && wire[|planes|] == SealFrame(seal)
    ensures forall n: nat | n > |planes| :: !AllLayers(AsWire(planes, seal), n)
    ensures forall n: nat | n < |planes| :: AsWire(planes, seal)[n].LayerFrame?
  {
  }

  /** In a calm world one connection is received exactly if it is a stream. */
  lemma {:induction false} CalmReceives(b: Begin, limits: Limits, planes: seq<Plane>, seal: Seal, world: World, n: nat)
    requires Calm(world, n) && |Plan(b)| <= n
    ensures Receivable(b, limits, AsWire(planes, seal), world) <==> ValidBegin(b, limits) && StreamOk(b, planes, seal)
  {
    hide Plan, ValidBegin, SealMatches, PlanesOk, PlanesOf, AsWire, Completes;
    WirePlanes(planes, seal);
  }

  /** Some beginning of the events has the first `n` frames, the seal, and
      nothing else. */
  ghost predicate Settles(events: seq<SprayEvent>, n: nat) {
    exists k: nat :: k <= |events| && Permutes(Planes(events[..k]), n) && |Seals(events[..k])| == 1
  }

  /** What comes after the planned frames and the seal changes nothing. */
  lemma {:induction false} LateFramesIgnored(events: seq<SprayEvent>, more: seq<SprayEvent>, n: nat)
    requires Settles(events, n)
    ensures Settles(events + more, n)
  {
    hide Permutes, Planes, Seals;
    var k: nat :| k <= |events| && Permutes(Planes(events[..k]), n) && |Seals(events[..k])| == 1;
    assert (events + more)[..k] == events[..k];
  }

  /** Numbered frames fall into place, whatever else is among them. */
  lemma {:induction false} PlacedInOrder(planes: seq<Plane>, arrived: seq<Plane>, n: nat)
    requires Numbered(planes) && AllArrived(arrived, n) && multiset(arrived) <= multiset(planes)
    ensures n <= |planes| && InOrder(arrived, n) == planes[..n]
  {
    hide Slot, InOrder;
    forall i | 0 <= i < |arrived|
      ensures SequenceOf(arrived[i]) < |planes| && arrived[i] == planes[SequenceOf(arrived[i])]
    {
      assert arrived[i] in multiset(arrived);
      assert arrived[i] in multiset(planes);
    }
    assert n <= |planes| || Arrived(arrived, |planes|);
    forall s | 0 <= s < n ensures InOrder(arrived, n)[s] == planes[s] {
      var p := InOrder(arrived, n)[s];
      assert p in arrived && SequenceOf(p) == s;
      var i :| 0 <= i < |arrived| && arrived[i] == p;
    }
  }

  /** A beginning of the events is a whole session exactly if it has the
      planned frames and the seal, and those are a stream. */
  lemma {:induction false} WholePrefix(
      b: Begin, planes: seq<Plane>, seal: Seal, events: seq<SprayEvent>, k: nat)
    requires Numbered(planes) && k <= |events| && Benign(events)
    requires Seals(events) == [seal] && multiset(Planes(events)) == multiset(planes)
    requires Permutes(Planes(events[..k]), |Plan(b)|) && |Seals(events[..k])| == 1
    ensures |Plan(b)| <= |planes| && InOrder(Planes(events[..k]), |Plan(b)|) == planes[..|Plan(b)|]
    ensures Seals(events[..k]) == [seal]
    ensures Whole(b, events[..k]) <==> StreamOk(b, planes[..|Plan(b)|], seal)
  {
    hide Plan, StreamOk, Seals, Planes, InOrder, IsSeal, NoRepeats, InRange, AllArrived, Numbered;
    PlanesPrefix(events, k, |events|);
    assert events[..|events|] == events;
    var arrived, all := Planes(events[..k]), Planes(events);
    assert all == arrived + all[|arrived|..];
    PlacedInOrder(planes, arrived, |Plan(b)|);
  }

  /** Over several connections or over one: the same numbered frames and seal
      come to the same end if there are no more frames than planned. With more,
      one connection always fails, and several succeed exactly if the planned
      frames are a stream and all of them and the seal came before the first
      frame too many. */
  method ReceiveEitherWay(
      b: Begin, limits: Limits, planes: seq<Plane>, seal: Seal, events: seq<SprayEvent>, world: World)
    returns (ordered: Result<Delivered, SessionError>, sprayed: Result<Delivered, SessionError>)
    requires Numbered(planes) && Calm(world, |Plan(b)| + |events|)
    requires Benign(events) && Seals(events) == [seal] && multiset(Planes(events)) == multiset(planes)
    ensures ordered.Ok? <==> ValidBegin(b, limits) && StreamOk(b, planes, seal)
    ensures ordered.Ok? ==> sprayed == ordered
    ensures |planes| <= |Plan(b)| ==> (sprayed.Ok? <==> ordered.Ok?)
    ensures sprayed.Ok? <==>
              && ValidBegin(b, limits) && |Plan(b)| <= |planes| && StreamOk(b, planes[..|Plan(b)|], seal)
              && Settles(events, |Plan(b)|)
    ensures sprayed.Ok? ==>
              && |Plan(b)| <= |planes| && sprayed.value == Delivery(b, planes[..|Plan(b)|], seal)
              && Assembled(b, planes[..|Plan(b)|], sprayed.value.layers)
  {
    hide ReadyPairs, ReadyLayersOf, Range, Planes, Seals, InOrder, Plan, ValidBegin, Headers, Payloads, Whole, StreamOk,
      Receivable, AsWire, PlanesOf, Calm, Numbered, Permutes, Assembled;
    CalmReceives(b, limits, planes, seal, world, |Plan(b)| + |events|);
    WirePlanes(planes, seal);
    ordered := ReceiveOrdered(b, limits, AsWire(planes, seal), world);
    ghost var used;
    sprayed, used := ReceiveSprayed(b, limits, events, world);
    assert events[..|events|] == events;
    if ordered.Ok? {
      StreamLength(b, planes, seal);
      AnySprayingIsWhole(b, limits, planes, seal, events);
      assert planes[..|Plan(b)|] == planes;
    }
    if sprayed.Ok? {
      WholeSettles(b, events, used);
      WholePrefix(b, planes, seal, events, used);
      if |planes| == |Plan(b)| {
        assert planes[..|Plan(b)|] == planes;
      }
    } else if ValidBegin(b, limits) && Settles(events, |Plan(b)|) {
      var k: nat :| k <= |events| && Permutes(Planes(events[..k]), |Plan(b)|) && |Seals(events[..k])| == 1;
      WholePrefix(b, planes, seal, events, k);
    }
  }

  lemma {:induction false} WholeSettles(b: Begin, events: seq<SprayEvent>, k: nat)
    requires k <= |events| && Whole(b, events[..k])
    ensures Permutes(Planes(events[..k]), |Plan(b)|) && |Seals(events[..k])| == 1 && Settles(events, |Plan(b)|)
  {
    hide Permutes, Planes, Seals, Plan, StreamOk;
  }

  lemma {:induction false} StreamLength(b: Begin, planes: seq<Plane>, seal: Seal)
    requires StreamOk(b, planes, seal)
    ensures |planes| == |Plan(b)|
  {
    hide Plan;
  }

  /** With no more frames than planned, a whole prefix is everything. */
  lemma {:induction false} UsedAll(
      b: Begin, limits: Limits, planes: seq<Plane>, seal: Seal, events: seq<SprayEvent>, used: nat)
    requires Numbered(planes) && |planes| <= |Plan(b)| && ValidBegin(b, limits)
    requires Benign(events) && Seals(events) == [seal] && multiset(Planes(events)) == multiset(planes)
    requires used <= |events| && Whole(b, events[..used])
    ensures used == |events| && StreamOk(b, planes, seal)
  {
    hide Plan, ValidBegin, StreamOk, Seals, Planes, InOrder, IsSeal, NoRepeats, InRange, AllArrived;
    var arrived := Planes(events);
    ShuffleRestored(planes, arrived);
    assert events[..|events|] == events;
    if used < |events| {
      EventStep(events, used);
      PlanesPrefix(events, used, |events|);
      PlanesPrefix(events, used + 1, |events|);
      SealOnce(events, used);
      RepeatsAfter(arrived, Planes(events[..used]), events[used].plane, |planes|, |Plan(b)|);
    }
    if |planes| < |Plan(b)| {
      OutOfRange(arrived, |planes|, |Plan(b)|);
    }
  }

  /** Once every sequence has arrived, one more frame is a repeat. */
  lemma {:induction false} RepeatsAfter(arrived: seq<Plane>, before: seq<Plane>, p: Plane, m: nat, n: nat)
    requires AllArrived(before, n) && before + [p] <= arrived && InRange(arrived, m) && m <= n
    ensures !NoRepeats(arrived)
  {
    assert arrived[|before|] == p;
    assert Arrived(before, SequenceOf(p));
    var i :| 0 <= i < |before| && SequenceOf(before[i]) == SequenceOf(p);
    assert arrived[i] == before[i];
  }

  lemma {:induction false} OutOfRange(arrived: seq<Plane>, m: nat, n: nat)
    requires m < n && AllArrived(arrived, n)
    ensures !InRange(arrived, m)
  {
    assert Arrived(arrived, m);
  }

  /** The one seal lies in the prefix, so what follows is a layer frame. */
  lemma {:induction false} SealOnce(events: seq<SprayEvent>, n: nat)
    requires n < |events| && Benign(events) && |Seals(events)| == 1 == |Seals(events[..n])|
    ensures events[n].LayerEvent?
  {
    hide Seals, IsSeal;
    EventStep(events, n);
    PlanesPrefix(events, n + 1, |events|);
    assert events[..|events|] == events;
  }
}
