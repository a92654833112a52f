/** The receiver that installs a multi-component handoff atomically. */
module AtomicReceiver {
  import opened Machine
  import opened SegmentManifest

  datatype Segment = Segment(descriptor: Descriptor, payload: seq<byte>)

  datatype Seal = Seal(core: SealCore, hmac: Digest)

  // ---------------------------------------------------------------------
  // The sink, as the calls it receives and how they end
  // ---------------------------------------------------------------------

  datatype SinkCall =
    | BeginCall(ok: bool)
    | SegmentCall(segment: Segment, ok: bool)
    | PrepareCall(seal: Seal, ok: bool)
    | CommitCall(ok: bool)
    | AbortCall

  /** A detached generation: nothing yet, being filled, broken by a failed
      call, ready to install, installed, or discarded. */
  datatype Shadow = Nothing | Filling | Broken | Ready | Installed | Discarded

  /** The only calls a sink must ever see in each state. */
  function After(q: Shadow, call: SinkCall): Option<Shadow> {
    match call
    case BeginCall(ok) => if q.Nothing? then Some(if ok then Filling else Discarded) else None
    case SegmentCall(_, ok) => if q.Filling? then Some(if ok then Filling else Broken) else None
    case PrepareCall(_, ok) => if q.Filling? then Some(if ok then Ready else Broken) else None
    case CommitCall(ok) => if q.Ready? then Some(if ok then Installed else Broken) else None
    case AbortCall => if q.Filling? || q.Broken? || q.Ready? then Some(Discarded) else None
  }

  /** The state after a whole history, if every call in it was allowed. */
  function Track(log: seq<SinkCall>): Option<Shadow> {
    if log == [] then Some(Nothing)
    else
      var n := |log| - 1;
      var q := Track(log[..n]);
      if q.None? then None else After(q.value, log[n])
  }

  lemma {:induction false} TrackStep(log: seq<SinkCall>, call: SinkCall)
    ensures Track(log).Some? ==> Track(log + [call]) == After(Track(log).value, call)
  {
    assert (log + [call])[..|log|] == log;
  }

  /** Segments the sink took, and the seal it prepared. */
  function Taken(log: seq<SinkCall>): seq<Segment> {
    if log == [] then []
    else
      var n := |log| - 1;
      Taken(log[..n]) + if log[n].SegmentCall? && log[n].ok then [log[n].segment] else []
  }

  function PreparedSeal(log: seq<SinkCall>): Option<Seal> {
    if log == [] then None
    else
      var n := |log| - 1;
      if log[n].PrepareCall? && log[n].ok then Some(log[n].seal) else PreparedSeal(log[..n])
  }

  lemma {:induction false} LogStep(log: seq<SinkCall>, call: SinkCall)
    ensures Taken(log + [call]) ==
            if call.SegmentCall? && call.ok then Taken(log) + [call.segment] else Taken(log)
    ensures PreparedSeal(log + [call]) ==
            if call.PrepareCall? && call.ok then Some(call.seal) else PreparedSeal(log)
  {
    assert (log + [call])[..|log|] == log;
  }

  // What the automaton rules out, for every history it allows.

  lemma {:induction false} TrackPrefix(log: seq<SinkCall>, k: nat)
    requires Track(log).Some? && k <= |log|
    ensures Track(log[..k]).Some?
    decreases |log|
  {
    if k < |log| {
      TrackPrefix(log[..|log| - 1], k);
      assert log[..|log| - 1][..k] == log[..k];
    } else {
      assert log[..k] == log;
    }
  }

  /** Nothing follows an installation, an abort or a failed opening; a commit
      directly follows an accepted seal; any other failed call is followed by
      nothing but the abort. */
  lemma {:induction false} HistoryIsAtomic(log: seq<SinkCall>, i: nat)
    requires Track(log).Some? && i < |log|
    ensures log[i] == CommitCall(true) || log[i].AbortCall? || log[i] == BeginCall(false) ==> i == |log| - 1
    ensures log[i].CommitCall? ==> i > 0 && log[i - 1].PrepareCall? && log[i - 1].ok
    ensures (log[i].SegmentCall? || log[i].PrepareCall? || log[i].CommitCall?) && !log[i].ok && i + 1 < |log| ==>
              log[i + 1].AbortCall?
  {
    TrackPrefix(log, i);
    TrackPrefix(log, i + 1);
    assert log[..i + 1][..i] == log[..i];
    if i + 1 < |log| {
      TrackPrefix(log, i + 2);
      assert log[..i + 2][..i + 1] == log[..i + 1];
    }
    if i > 0 {
      TrackPrefix(log, i - 1);
      assert log[..i][..i - 1] == log[..i - 1];
    }
  }

  // ---------------------------------------------------------------------
  // What a seal says about the segments
  // ---------------------------------------------------------------------

  predicate SegmentOk(s: Segment) {
    |s.payload| == s.descriptor.byteLen && s.descriptor.sha256 == OfBytes(s.payload)
  }

  function Descriptors(segments: seq<Segment>): seq<Descriptor> {
    if segments == [] then []
    else Descriptors(segments[..|segments| - 1]) + [segments[|segments| - 1].descriptor]
  }

  function Stream(segments: seq<Segment>): seq<byte> {
    if segments == [] then []
    else Stream(segments[..|segments| - 1]) + segments[|segments| - 1].payload
  }

  function TotalBytes(segments: seq<Segment>): nat {
    if segments == [] then 0
    else TotalBytes(segments[..|segments| - 1]) + segments[|segments| - 1].descriptor.byteLen
  }

  lemma {:induction false} SegmentsStep(segments: seq<Segment>, s: Segment)
    ensures Descriptors(segments + [s]) == Descriptors(segments) + [s.descriptor]
    ensures Stream(segments + [s]) == Stream(segments) + s.payload
    ensures TotalBytes(segments + [s]) == TotalBytes(segments) + s.descriptor.byteLen
  {
    assert (segments + [s])[..|segments|] == segments;
  }

  lemma {:induction false} DescriptorsAt(segments: seq<Segment>)
    ensures |Descriptors(segments)| == |segments|
    ensures forall i :: 0 <= i < |segments| ==> Descriptors(segments)[i] == segments[i].descriptor
    decreases |segments|
  {
    if segments == [] {
    } else {
      DescriptorsAt(segments[..|segments| - 1]);
    }
  }

  /** The core that binds a manifest to exactly these segments. */
  function CoreFor(m: Manifest, hashed: seq<Segment>, count: u32, total: u64): SealCore {
    SealCore(m.transferId, m.generation, OfManifest(m), OfDescriptors(Descriptors(hashed)),
             OfBytes(Stream(hashed)), count, total)
  }

  predicate SealOk(m: Manifest, key: nat, segments: seq<Segment>, seal: Seal) {
    && |segments| < U32_LIMIT && TotalBytes(segments) < U64_LIMIT
    && seal.core == CoreFor(m, segments, |segments|, TotalBytes(segments))
    && seal.hmac == Mac(key, seal.core)
  }

  /** Everything the manifest asks for has arrived: the declared segments in
      their order, or a disjoint sequence touching every required component. */
  predicate Complete(m: Manifest, segments: seq<Segment>) {
    && (forall i :: 0 <= i < |segments| ==> SegmentOk(segments[i]))
    && DescriptorsOk(Descriptors(segments), Ids(m.components))
    && (if m.deferredSegments then segments != [] && RequiredSeen(m, Seen(segments))
        else Descriptors(segments) == m.segments)
  }

  function Seen(segments: seq<Segment>): set<string> {
    if segments == [] then {}
    else Seen(segments[..|segments| - 1]) + {segments[|segments| - 1].descriptor.component}
  }

  predicate RequiredSeen(m: Manifest, seen: set<string>) {
    forall i :: 0 <= i < |m.components| && m.components[i].required ==> m.components[i].id in seen
  }

  /** One seal fits one segment sequence only. */
  lemma {:induction false} SealBindsSegments(m: Manifest, key: nat, seal: Seal, a: seq<Segment>, b: seq<Segment>)
    requires SealOk(m, key, a, seal) && SealOk(m, key, b, seal)
    requires forall i :: 0 <= i < |a| ==> SegmentOk(a[i])
    requires forall i :: 0 <= i < |b| ==> SegmentOk(b[i])
    ensures a == b
  {
    hide Stream, TotalBytes, Descriptors;
    DescriptorsAt(a);
    DescriptorsAt(b);
    assert Descriptors(a) == Descriptors(b);
    forall i | 0 <= i < |a| ensures a[i] == b[i] {
      assert a[i].descriptor == Descriptors(a)[i] == Descriptors(b)[i] == b[i].descriptor;
    }
  }

  /** Material the producer refuses to sign. */
  predicate Signable(segments: seq<Segment>) {
    && |segments| < U32_LIMIT && TotalBytes(segments) < U64_LIMIT
    && (forall i :: 0 <= i < |segments| ==> SegmentOk(segments[i]) && segments[i].descriptor.sequence == i)
  }

  lemma {:induction false} TotalGrows(segments: seq<Segment>, n: nat)
    requires n <= |segments|
    ensures TotalBytes(segments[..n]) <= TotalBytes(segments)
    decreases |segments|
  {
    if n < |segments| {
      TotalGrows(segments[..|segments| - 1], n);
      assert segments[..|segments| - 1][..n] == segments[..n];
    } else {
      assert segments[..n] == segments;
    }
  }

  function Payloads(segments: seq<Segment>): (payloads: seq<seq<byte>>)
    ensures |payloads| == |segments|
  {
    seq(|segments|, i requires 0 <= i < |segments| => segments[i].payload)
  }

  function Paired(descriptors: seq<Descriptor>, payloads: seq<seq<byte>>): (segments: seq<Segment>)
    requires |descriptors| == |payloads|
    ensures |segments| == |payloads|
  {
    seq(|payloads|, i requires 0 <= i < |payloads| => Segment(descriptors[i], payloads[i]))
  }

  lemma {:induction false} PairedAgain(segments: seq<Segment>)
    ensures |Descriptors(segments)| == |segments| && Paired(Descriptors(segments), Payloads(segments)) == segments
  {
    hide Descriptors;
    DescriptorsAt(segments);
  }

  method Sign(m: Manifest, descriptors: seq<Descriptor>, payloads: seq<seq<byte>>, key: nat)
    returns (seal: Option<Seal>)
    ensures seal.Some? <==> |descriptors| == |payloads| && Signable(Paired(descriptors, payloads))
    ensures seal.Some? ==> SealOk(m, key, Paired(descriptors, payloads), seal.value)
  {
    hide Stream, Descriptors, TotalBytes;
    if |descriptors| != |payloads| {
      return None;
    }
    ghost var segments := Paired(descriptors, payloads);
    var descriptorHash: seq<Descriptor>, payloadHash: seq<byte>, total := [], [], 0;
    NoSegments();
    for i := 0 to |descriptors|
      invariant total < U64_LIMIT
      invariant descriptorHash == Descriptors(segments[..i]) && payloadHash == Stream(segments[..i])
      invariant total == TotalBytes(segments[..i])
      invariant forall j :: 0 <= j < i ==> SegmentOk(segments[j]) && segments[j].descriptor.sequence == j
    {
      var s := Segment(descriptors[i], payloads[i]);
      if s.descriptor.sequence != i || !SegmentOk(s) {
        assert segments[i] == s;
        return None;
      }
      SegmentsStep(segments[..i], s);
      assert segments[..i] + [s] == segments[..i + 1];
      TotalGrows(segments, i + 1);
      descriptorHash := descriptorHash + [s.descriptor];
      payloadHash := payloadHash + s.payload;
      total := total + s.descriptor.byteLen;
      if total >= U64_LIMIT {
        return None;
      }
    }
    assert segments[..|descriptors|] == segments;
    if |descriptors| >= U32_LIMIT {
      return None;
    }
    var core := SealCore(m.transferId, m.generation, OfManifest(m), OfDescriptors(descriptorHash),
                         OfBytes(payloadHash), |descriptors|, total);
    return Some(Seal(core, Mac(key, core)));
  }

  lemma {:induction false} NoSegments()
    ensures Descriptors([]) == [] && Stream([]) == [] && TotalBytes([]) == 0 && Seen([]) == {}
  {
  }

  // ---------------------------------------------------------------------
  // The receiver
  // ---------------------------------------------------------------------

  datatype State = Receiving | Prepared | Committed | Aborted

  function ShadowOf(state: State): Shadow {
    match state
    case Receiving => Filling
    case Prepared => Ready
    case Committed => Installed
    case Aborted => Discarded
  }

  /** What an armed manifest guarantees the receiver. */
  predicate Armed(m: Manifest) {
    DescriptorsOk(m.segments, Ids(m.components)) && (m.deferredSegments <==> m.segments == [])
  }

  /** The rolling state is that of the segments taken. */
  ghost predicate Holds(m: Manifest, taken: seq<Segment>, hashed: seq<Segment>, next: nat, total: nat,
                        seen: set<string>, descriptorHash: seq<Descriptor>, payloadHash: seq<byte>) {
    && hashed == taken && next == |taken| && total == TotalBytes(taken) && seen == Seen(taken)
    && descriptorHash == Descriptors(taken) && payloadHash == Stream(taken)
    && (forall i :: 0 <= i < |taken| ==> SegmentOk(taken[i]))
    && DescriptorsOk(Descriptors(taken), Ids(m.components))
    && (!m.deferredSegments ==> next <= |m.segments| && Descriptors(taken) == m.segments[..next])
  }

  /** Segments taken one by one from descriptors recorded as disjoint. */
  predicate Within(taken: seq<Segment>, recorded: seq<Descriptor>) {
    && Disjoint(Descriptors(taken)) && Counted(Descriptors(taken))
    && forall i :: 0 <= i < |Descriptors(taken)| ==> Descriptors(taken)[i] in recorded
  }

  lemma {:induction false} WithinNothing()
    ensures Within([], [])
  {
  }

  lemma {:induction false} WithinStep(taken: seq<Segment>, recorded: seq<Descriptor>, s: Segment)
    requires Within(taken, recorded) && Disjoint(recorded + [s.descriptor]) && s.descriptor.count > 0
    ensures Within(taken + [s], recorded + [s.descriptor]) && Within(taken, recorded + [s.descriptor])
  {
    hide Descriptors, Overlap;
    var ds, d := Descriptors(taken), s.descriptor;
    SegmentsStep(taken, s);
    DisjointStep(ds, d);
    DisjointStep(recorded, d);
    forall i | 0 <= i < |ds| ensures !Overlap(ds[i], d) {
      var k :| 0 <= k < |recorded| && recorded[k] == ds[i];
    }
  }

  lemma {:induction false} CountIsPositive(d: Descriptor, ids: set<string>)
    requires DescriptorOk(d, ids)
    ensures d.count > 0
  {
  }

  lemma {:induction false} WithinApart(taken: seq<Segment>, recorded: seq<Descriptor>)
    requires Within(taken, recorded)
    ensures TokensApart(taken)
  {
    hide Descriptors, Disjoint, Overlap;
    DescriptorsAt(taken);
    DisjointIsApart(Descriptors(taken));
  }

  /** No token of a component, role and layer is in two segments. */
  ghost predicate TokensApart(segments: seq<Segment>) {
    forall i: nat, j: nat, t: nat | i < j < |segments| ::
      !SharesToken(segments[i].descriptor, segments[j].descriptor, t)
  }

  lemma {:induction false} CompleteIsApart(m: Manifest, segments: seq<Segment>)
    requires Complete(m, segments)
    ensures TokensApart(segments)
  {
    hide Descriptors, Ids, SegmentOk, RequiredSeen, Seen, DescriptorsOk;
    DescriptorsAt(segments);
    DescriptorsApart(Descriptors(segments), Ids(m.components));
  }

  /** A descriptor that may come next. */
  predicate MayFollow(m: Manifest, taken: seq<Segment>, d: Descriptor) {
    && DescriptorOk(d, Ids(m.components)) && d.sequence == |taken|
    && Disjoint(Descriptors(taken) + [d])
    && (!m.deferredSegments ==>
          |taken| < |m.segments| && Descriptors(taken) + [d] == m.segments[..|taken| + 1])
  }

  /** A streamed segment that may come next, whatever its size. */
  predicate Acceptable(m: Manifest, taken: seq<Segment>, s: Segment) {
    && m.deferredSegments && s.descriptor.sequence == |taken| && DescriptorOk(s.descriptor, Ids(m.components))
    && Disjoint(Descriptors(taken) + [s.descriptor]) && SegmentOk(s)
  }

  /** Some token of the descriptor was taken before. */
  ghost predicate TakenBefore(taken: seq<Segment>, d: Descriptor) {
    exists i: nat, t: nat :: i < |taken| && SharesToken(taken[i].descriptor, d, t)
  }

  lemma {:induction false} HoldsStep(
      m: Manifest, taken: seq<Segment>, hashed: seq<Segment>, next: nat, total: nat, seen: set<string>,
      descriptorHash: seq<Descriptor>, payloadHash: seq<byte>, s: Segment)
    requires Holds(m, taken, hashed, next, total, seen, descriptorHash, payloadHash)
    requires SegmentOk(s) && MayFollow(m, taken, s.descriptor)
    ensures Holds(m, taken + [s], hashed + [s], next + 1, total + s.descriptor.byteLen,
                  seen + {s.descriptor.component}, descriptorHash + [s.descriptor], payloadHash + s.payload)
    ensures Descriptors(taken + [s]) == Descriptors(taken) + [s.descriptor]
  {
    hide DescriptorOk, Disjoint, Ids, DescriptorsOk, Stream, Descriptors, TotalBytes, Seen;
    SegmentsStep(taken, s);
    DescriptorsExtend(m, taken, s);
  }

  predicate AllIn(m: Manifest, next: nat, seen: set<string>) {
    if m.deferredSegments then next > 0 && RequiredSeen(m, seen) else next == |m.segments|
  }

  predicate CoreMatches(
      m: Manifest, next: nat, total: nat, descriptorHash: seq<Descriptor>, payloadHash: seq<byte>, core: SealCore) {
    && core.transferId == m.transferId && core.generation == m.generation
    && core.segmentCount == next && core.totalBytes == total
    && core.begin == OfManifest(m) && core.descriptors == OfDescriptors(descriptorHash)
    && core.payload == OfBytes(payloadHash)
  }

  lemma {:induction false} CoreNames(
      m: Manifest, next: nat, total: nat, descriptorHash: seq<Descriptor>, payloadHash: seq<byte>, seal: Seal)
    ensures CoreMatches(m, next, total, descriptorHash, payloadHash, seal.core) ==>
              seal.core.descriptors == OfDescriptors(descriptorHash) && seal.core.segmentCount == next
  {
  }

  lemma {:induction false} MacIsHex(key: nat, seal: Seal)
    ensures seal.hmac == Mac(key, seal.core) ==> ValidHex(seal.hmac)
  {
  }

  lemma {:induction false} InDecides(
      m: Manifest, taken: seq<Segment>, hashed: seq<Segment>, next: nat, total: nat, seen: set<string>,
      descriptorHash: seq<Descriptor>, payloadHash: seq<byte>)
    requires Holds(m, taken, hashed, next, total, seen, descriptorHash, payloadHash)
    ensures Complete(m, taken) <==> AllIn(m, next, seen)
  {
    hide Ids, DescriptorsOk, RequiredSeen, Stream, Seen, TotalBytes, Descriptors, SegmentOk;
    DescriptorsAt(taken);
  }

  /** The receiver's checks are the batch checks. */
  lemma {:induction false} SealDecides(
      m: Manifest, key: nat, taken: seq<Segment>, hashed: seq<Segment>, next: nat, total: nat, seen: set<string>,
      descriptorHash: seq<Descriptor>, payloadHash: seq<byte>, seal: Seal)
    requires Holds(m, taken, hashed, next, total, seen, descriptorHash, payloadHash)
    ensures Complete(m, taken) <==> AllIn(m, next, seen)
    ensures SealOk(m, key, taken, seal) <==>
              && CoreMatches(m, next, total, descriptorHash, payloadHash, seal.core)
              && seal.hmac == Mac(key, seal.core)
    ensures SealOk(m, key, taken, seal) ==> ValidHex(seal.hmac)
  {
    hide Ids, DescriptorsOk, RequiredSeen, Stream, Seen, TotalBytes, Descriptors, SegmentOk;
    DescriptorsAt(taken);
    InDecides(m, taken, hashed, next, total, seen, descriptorHash, payloadHash);
  }

  class Receiver {
    const manifest: Manifest
    const key: nat
    var next: nat
    var deferredRanges: Ranges
    var seen: set<string>
    var descriptorHash: seq<Descriptor>
    var payloadHash: seq<byte>
    var total: nat
    var state: State
    /** Every call made on the sink. */
    var log: seq<SinkCall>
    /** Descriptors behind `deferredRanges` and segments behind the hashes. */
    ghost var recorded: seq<Descriptor>
    ghost var hashed: seq<Segment>
    /** A segment was hashed and then dropped because the byte count would
        overflow. */
    ghost var spoiled: bool

    /** Whatever happened, the sink saw an allowed history. */
    ghost predicate Protocol()
      reads this
    {
      && Track(log) == Some(ShadowOf(state))
      && Represents(deferredRanges, recorded) && Disjoint(recorded) && total < U64_LIMIT && Armed(manifest)
    }

    /** While nothing was dropped, the sink holds what was hashed. */
    ghost predicate Content()
      reads this
    {
      Holds(manifest, Taken(log), hashed, next, total, seen, descriptorHash, payloadHash)
    }

    /** The hashes cover what the sink took, and more once spoiled. */
    ghost predicate Drift()
      reads this
    {
      && descriptorHash == Descriptors(hashed) && |Taken(log)| + (if spoiled then 1 else 0) <= |hashed|
      && next == |Taken(log)|
      && (state.Prepared? || state.Committed? ==>
            && PreparedSeal(log).Some? && PreparedSeal(log).value.core.descriptors == OfDescriptors(descriptorHash)
            && PreparedSeal(log).value.core.segmentCount == next)
    }

    /** A declared session never gets past a segment it dropped. */
    ghost predicate Jammed()
      reads this
    {
      spoiled && !manifest.deferredSegments ==>
        && state.Receiving? && next < |manifest.segments|
        && total + manifest.segments[next].byteLen >= U64_LIMIT
    }

    /** What a streamed session took never repeats a token, dropped or not. */
    ghost predicate Spread()
      reads this
    {
      manifest.deferredSegments ==> Within(Taken(log), recorded)
    }

    ghost predicate Valid()
      reads this
    {
      && Protocol() && (!state.Aborted? ==> Drift() && Jammed() && Spread())
      && (!spoiled && !state.Aborted? ==>
            Content() && (manifest.deferredSegments ==> recorded == Descriptors(Taken(log))))
      && (!spoiled && (state.Prepared? || state.Committed?) ==> CommitReady(manifest, key, log))
    }

    constructor (m: Manifest, key: nat)
      requires Armed(m)
      ensures Valid() && state.Receiving? && !spoiled && log == [BeginCall(true)] && total == 0
      ensures manifest == m && this.key == key
    {
      manifest, this.key := m, key;
      next, deferredRanges, seen, descriptorHash, payloadHash, total := 0, map[], {}, [], [], 0;
      state, log := Receiving, [BeginCall(true)];
      recorded, hashed, spoiled := [], [], false;
      new;
      NothingRecorded();
      NoSegments();
      WithinNothing();
      LogStep([], BeginCall(true));
      TrackStep([], BeginCall(true));
      assert [] + [BeginCall(true)] == [BeginCall(true)];
    }

    method Abort()
      requires Protocol()
      modifies this`state, this`log
      ensures Protocol()
      ensures old(state).Committed? || old(state).Aborted? ==> unchanged(this)
      ensures old(state).Receiving? || old(state).Prepared? ==> state.Aborted? && log == old(log) + [AbortCall]
    {
      if !state.Committed? && !state.Aborted? {
        TrackStep(log, AbortCall);
        log := log + [AbortCall];
        state := Aborted;
      }
    }

    /** The hashed segment goes to the sink. */
    method Deliver(segment: Segment, sinkOk: bool) returns (ok: bool)
      requires Protocol() && state.Receiving?
      requires descriptorHash == Descriptors(hashed) && next == |Taken(log)|
      requires spoiled ==> manifest.deferredSegments
      requires |Taken(log)| + 1 + (if spoiled then 1 else 0) <= |hashed|
      requires !spoiled ==>
                 && Holds(manifest, Taken(log) + [segment], hashed, next + 1, total,
                          seen + {segment.descriptor.component}, descriptorHash, payloadHash)
                 && (manifest.deferredSegments ==> recorded == Descriptors(Taken(log) + [segment]))
      requires manifest.deferredSegments ==> Within(Taken(log) + [segment], recorded)
      modifies this`state, this`log, this`seen, this`next
      ensures Valid() && ok == sinkOk
      ensures ok ==> state.Receiving? && log == old(log) + [SegmentCall(segment, true)]
      ensures !ok ==> state.Aborted?
    {
      hide Represents, Disjoint, Taken, Track, Descriptors, Armed, CommitReady, Holds, Within;
      TrackStep(log, SegmentCall(segment, sinkOk));
      LogStep(log, SegmentCall(segment, sinkOk));
      log := log + [SegmentCall(segment, sinkOk)];
      if !sinkOk {
        TrackStep(log, AbortCall);
        log := log + [AbortCall];
        state := Aborted;
        return false;
      }
      seen := seen + {segment.descriptor.component};
      next := next + 1;
      return true;
    }

    /** What the receiver has before a verified segment is hashed. */
    ghost predicate Awaits(segment: Segment)
      reads this
    {
      && Protocol() && Drift() && Jammed() && Spread() && state.Receiving?
      && (manifest.deferredSegments ==> Within(Taken(log) + [segment], recorded))
      && (!manifest.deferredSegments ==>
            next < |manifest.segments| && segment.descriptor == manifest.segments[next])
      && (!spoiled ==>
            && Content() && MayFollow(manifest, Taken(log), segment.descriptor)
            && (manifest.deferredSegments ==> recorded == Descriptors(Taken(log)) + [segment.descriptor]))
    }

    /** Both hashes take the segment in, delivered or not. */
    method Hash(segment: Segment)
      requires Awaits(segment) && SegmentOk(segment)
      modifies this`descriptorHash, this`payloadHash, this`hashed
      ensures descriptorHash == old(descriptorHash) + [segment.descriptor]
      ensures payloadHash == old(payloadHash) + segment.payload && |hashed| == old(|hashed|) + 1
      ensures descriptorHash == Descriptors(hashed)
      ensures !spoiled ==>
                && Holds(manifest, Taken(log) + [segment], hashed, next + 1, total + segment.descriptor.byteLen,
                         seen + {segment.descriptor.component}, descriptorHash, payloadHash)
                && (manifest.deferredSegments ==> recorded == Descriptors(Taken(log) + [segment]))
    {
      hide Represents, Disjoint, Taken, Track, Descriptors, Armed, Holds, MayFollow, PreparedSeal, SegmentOk, Within;
      if !spoiled {
        HoldsStep(manifest, Taken(log), hashed, next, total, seen, descriptorHash, payloadHash, segment);
      }
      SegmentsStep(hashed, segment);
      descriptorHash := descriptorHash + [segment.descriptor];
      payloadHash := payloadHash + segment.payload;
      hashed := hashed + [segment];
    }

    /** A verified segment is hashed and counted, then delivered. */
    method Record(segment: Segment, sinkOk: bool) returns (ok: bool)
      requires Awaits(segment) && SegmentOk(segment)
      modifies this
      ensures Valid()
      ensures ok <==> old(total) + segment.descriptor.byteLen < U64_LIMIT && sinkOk
      ensures ok ==> state.Receiving? && log == old(log) + [SegmentCall(segment, true)]
      ensures !ok && !state.Aborted? ==>
                state.Receiving? && spoiled && log == old(log) && next == old(next) && seen == old(seen)
      ensures spoiled == (old(spoiled) || old(total) + segment.descriptor.byteLen >= U64_LIMIT)
      ensures state.Aborted? <==> old(total) + segment.descriptor.byteLen < U64_LIMIT && !sinkOk
      ensures descriptorHash == old(descriptorHash) + [segment.descriptor]
      ensures payloadHash == old(payloadHash) + segment.payload
      ensures old(total) + segment.descriptor.byteLen >= U64_LIMIT ==> total == old(total)
      ensures total <= old(total) + segment.descriptor.byteLen
    {
      hide Represents, Disjoint, Taken, Track, Descriptors, Armed, CommitReady, Holds, MayFollow, PreparedSeal,
        SegmentOk, Within;
      Hash(segment);
      if total + segment.descriptor.byteLen >= U64_LIMIT {
        spoiled := true;
        return false;
      }
      total := total + segment.descriptor.byteLen;
      ok := Deliver(segment, sinkOk);
    }

    method AcceptSegment(d: Descriptor, payload: seq<byte>, sinkOk: bool) returns (ok: bool)
      requires Awaits(Segment(d, payload))
      modifies this
      ensures Valid()
      ensures ok <==> SegmentOk(Segment(d, payload)) && old(total) + d.byteLen < U64_LIMIT && sinkOk
      ensures ok ==> state.Receiving? && log == old(log) + [SegmentCall(Segment(d, payload), true)]
      ensures !ok ==>
                || state.Aborted?
                || (state.Receiving? && spoiled && log == old(log) && next == old(next) && seen == old(seen))
      ensures !ok && !state.Aborted? <==> SegmentOk(Segment(d, payload)) && old(total) + d.byteLen >= U64_LIMIT
      ensures total <= old(total) + |payload|
      ensures !ok && !state.Aborted? ==>
                && total == old(total) && descriptorHash == old(descriptorHash) + [d]
                && payloadHash == old(payloadHash) + payload
      ensures spoiled <==>
                old(spoiled) || (SegmentOk(Segment(d, payload)) && old(total) + |payload| >= U64_LIMIT)
    {
      hide Receiver.Protocol, Receiver.Jammed, Receiver.Drift, Receiver.Content, MayFollow, Taken, Descriptors,
        CommitReady, Within, Receiver.Spread;
      var segment := Segment(d, payload);
      if !SegmentOk(segment) {
        Abort();
        return false;
      }
      ok := Record(segment, sinkOk);
    }

    /** The next declared segment, by its wire sequence. */
    method SegmentReady(sequence: u32, payload: seq<byte>, sinkOk: bool) returns (ok: bool)
      requires Valid()
      modifies this
      ensures Valid()
      ensures old(state).Receiving? || !state.Receiving?
      ensures ok && !old(spoiled) ==>
                && state.Receiving? && !spoiled && sequence < |manifest.segments|
                && log == old(log) + [SegmentCall(Segment(manifest.segments[sequence], payload), true)]
      ensures !ok ==> !state.Receiving? || (spoiled && log == old(log))
      ensures old(state).Receiving? && !old(spoiled) ==>
                (ok <==> && sequence == old(next) < |manifest.segments|
                         && SegmentOk(Segment(manifest.segments[sequence], payload))
                         && old(total) + |payload| < U64_LIMIT && sinkOk)
      ensures total <= old(total) + |payload|
      ensures spoiled ==> old(spoiled) || old(total) + |payload| >= U64_LIMIT
      ensures old(spoiled) || manifest.deferredSegments ==> spoiled == old(spoiled)
    {
      hide Represents, Disjoint, Taken, Track, Descriptors, CommitReady, Ids, DescriptorOk, Within;
      if !state.Receiving? {
        Abort();
        return false;
      }
      if next >= |manifest.segments| {
        Abort();
        return false;
      }
      var descriptor := manifest.segments[next];
      if descriptor.sequence != sequence {
        Abort();
        return false;
      }
      if !spoiled {
        DeclaredNext(manifest, Taken(log));
      }
      ok := AcceptSegment(descriptor, payload, sinkOk);
    }

    /** A segment that brings its own descriptor. */
    method SegmentReadyDeferred(d: Descriptor, payload: seq<byte>, sinkOk: bool) returns (ok: bool)
      requires Valid()
      modifies this
      ensures Valid()
      ensures old(state).Receiving? || !state.Receiving?
      ensures ok && !old(spoiled) ==>
                state.Receiving? && !spoiled && log == old(log) + [SegmentCall(Segment(d, payload), true)]
      ensures !ok ==>
                || !state.Receiving?
                || (spoiled && log == old(log) && next == old(next) && seen == old(seen) && total == old(total))
      ensures old(state).Receiving? && !old(spoiled) ==>
                var acceptable := Acceptable(manifest, old(Taken(log)), Segment(d, payload));
                && (ok <==> acceptable && old(total) + |payload| < U64_LIMIT && sinkOk)
                && (spoiled <==> acceptable && old(total) + |payload| >= U64_LIMIT)
                && (spoiled ==>
                      && state.Receiving? && descriptorHash == old(descriptorHash) + [d]
                      && payloadHash == old(payloadHash) + payload)
      ensures !old(state).Receiving? || old(spoiled) ==> spoiled == old(spoiled)
      ensures total <= old(total) + |payload|
      ensures spoiled ==> old(spoiled) || old(total) + |payload| >= U64_LIMIT
    {
      hide Represents, Disjoint, Taken, Track, Descriptors, CommitReady, Ids, Armed, Within, DescriptorOk;
      if !state.Receiving? || !manifest.deferredSegments {
        Abort();
        return false;
      }
      if d.sequence != next {
        Abort();
        return false;
      }
      var described, ranges := ValidateSegmentDescriptor(d, Ids(manifest.components), deferredRanges, recorded);
      if !described {
        Abort();
        return false;
      }
      CountIsPositive(d, Ids(manifest.components));
      WithinStep(Taken(log), recorded, Segment(d, payload));
      deferredRanges, recorded := ranges, recorded + [d];
      ok := AcceptSegment(d, payload, sinkOk);
    }

    method PrepareCommit(seal: Seal, sinkOk: bool) returns (ok: bool)
      requires Valid()
      modifies this`state, this`log
      ensures Valid()
      ensures ok ==> state.Prepared? && log == old(log) + [PrepareCall(seal, true)]
      ensures !ok ==> !state.Prepared?
      ensures ok <==>
                && old(state).Receiving? && AllIn(manifest, next, seen)
                && CoreMatches(manifest, next, total, descriptorHash, payloadHash, seal.core)
                && seal.hmac == Mac(key, seal.core) && sinkOk
      ensures old(state).Receiving? && !spoiled ==>
                (ok <==> Complete(manifest, old(Taken(log))) && SealOk(manifest, key, old(Taken(log)), seal) && sinkOk)
      ensures !ok && state.Receiving? <==>
                && old(state).Receiving? && AllIn(manifest, next, seen)
                && CoreMatches(manifest, next, total, descriptorHash, payloadHash, seal.core)
                && !ValidHex(seal.hmac)
      ensures !ok && state.Receiving? ==> unchanged(this)
    {
      hide Represents, Disjoint, Taken, Track, Descriptors, Armed, Holds, Complete, SealOk, PreparedSeal, CoreMatches,
        RequiredSeen, ValidHex, Within;
      CoreNames(manifest, next, total, descriptorHash, payloadHash, seal);
      MacIsHex(key, seal);
      if !spoiled && state.Receiving? {
        SealDecides(manifest, key, Taken(log), hashed, next, total, seen, descriptorHash, payloadHash, seal);
      }
      var all := if manifest.deferredSegments then next > 0 else next == |manifest.segments|;
      if !state.Receiving? || !all {
        Abort();
        return false;
      }
      if manifest.deferredSegments && !RequiredSeen(manifest, seen) {
        Abort();
        return false;
      }
      if !CoreMatches(manifest, next, total, descriptorHash, payloadHash, seal.core) {
        Abort();
        return false;
      }
      if !ValidHex(seal.hmac) {
        return false;
      }
      if seal.hmac != Mac(key, seal.core) {
        Abort();
        return false;
      }
      TrackStep(log, PrepareCall(seal, sinkOk));
      LogStep(log, PrepareCall(seal, sinkOk));
      log := log + [PrepareCall(seal, sinkOk)];
      if !sinkOk {
        TrackStep(log, AbortCall);
        log := log + [AbortCall];
        state := Aborted;
        return false;
      }
      state := Prepared;
      return true;
    }

    method Commit(sinkOk: bool) returns (ok: bool)
      requires Valid()
      modifies this`state, this`log
      ensures Valid()
      ensures ok <==> old(state).Prepared? && sinkOk
      ensures ok ==> state.Committed? && log == old(log) + [CommitCall(true)]
      ensures !ok ==> state == if old(state).Committed? then Committed else Aborted
    {
      hide Represents, Disjoint, Taken, Track, Descriptors, Armed, Holds, Complete, SealOk, PreparedSeal, Within;
      if !state.Prepared? {
        Abort();
        return false;
      }
      TrackStep(log, CommitCall(sinkOk));
      LogStep(log, CommitCall(sinkOk));
      log := log + [CommitCall(sinkOk)];
      if !sinkOk {
        TrackStep(log, AbortCall);
        log := log + [AbortCall];
        state := Aborted;
        return false;
      }
      state := Committed;
      return true;
    }
  }

  /** A receiver that streams refuses a well-formed segment exactly for a token
      it took before. */
  lemma {:induction false} AcceptableIsNew(r: Receiver, s: Segment)
    requires r.Valid() && r.state.Receiving? && r.manifest.deferredSegments
    requires s.descriptor.sequence == |Taken(r.log)|
    requires DescriptorOk(s.descriptor, Ids(r.manifest.components)) && SegmentOk(s)
    ensures Acceptable(r.manifest, Taken(r.log), s) <==> !TakenBefore(Taken(r.log), s.descriptor)
  {
    hide Descriptors, Disjoint, SharesToken, Ids, ValidHex, Taken, Track, Represents, Armed;
    var taken := Taken(r.log);
    DescriptorsAt(taken);
    FollowsIsNew(Descriptors(taken), s.descriptor);
    if TakenBefore(taken, s.descriptor) {
      var i: nat, t: nat :| i < |taken| && SharesToken(taken[i].descriptor, s.descriptor, t);
      assert SharesToken(Descriptors(taken)[i], s.descriptor, t);
    }
  }

  lemma {:induction false} DescriptorsExtend(m: Manifest, taken: seq<Segment>, s: Segment)
    requires DescriptorsOk(Descriptors(taken), Ids(m.components))
    requires DescriptorOk(s.descriptor, Ids(m.components)) && s.descriptor.sequence == |taken|
    requires Disjoint(Descriptors(taken) + [s.descriptor])
    ensures DescriptorsOk(Descriptors(taken + [s]), Ids(m.components))
    ensures Seen(taken + [s]) == Seen(taken) + {s.descriptor.component}
  {
    hide DescriptorOk, Disjoint, Ids;
    SegmentsStep(taken, s);
    DescriptorsAt(taken);
    assert (taken + [s])[..|taken|] == taken;
  }

  /** The declared descriptor that comes next fits what was taken. */
  lemma {:induction false} DeclaredNext(m: Manifest, taken: seq<Segment>)
    requires Armed(m) && |taken| < |m.segments| && Descriptors(taken) == m.segments[..|taken|]
    ensures var d := m.segments[|taken|];
            && DescriptorOk(d, Ids(m.components)) && d.sequence == |taken|
            && Disjoint(Descriptors(taken) + [d])
            && Descriptors(taken) + [d] == m.segments[..|taken| + 1]
  {
    hide DescriptorOk, Ids, Descriptors;
    DescriptorStep(m.segments, |taken|, Ids(m.components));
  }

  /** The installed generation is complete and sealed. */
  predicate CommitReady(m: Manifest, key: nat, log: seq<SinkCall>) {
    && PreparedSeal(log).Some? && Complete(m, Taken(log))
    && SealOk(m, key, Taken(log), PreparedSeal(log).value)
  }

  // ---------------------------------------------------------------------
  // Whole sessions
  // ---------------------------------------------------------------------

  /** One call on the receiver, with the sink's answer. */
  datatype Call =
    | Declared(sequence: u32, payload: seq<byte>, sinkOk: bool)
    | Deferred(descriptor: Descriptor, payload: seq<byte>, sinkOk: bool)
    | PrepareWith(seal: Seal, sinkOk: bool)
    | CommitNow(sinkOk: bool)
    | AbortNow

  function Size(call: Call): nat {
    if call.Declared? || call.Deferred? then |call.payload| else 0
  }

  /** Payload bytes offered by a sequence of calls. */
  function Offered(calls: seq<Call>): nat {
    if calls == [] then 0 else Offered(calls[..|calls| - 1]) + Size(calls[|calls| - 1])
  }

  lemma {:induction false} OfferedStep(calls: seq<Call>, n: nat)
    requires n < |calls|
    ensures Offered(calls[..n + 1]) == Offered(calls[..n]) + Size(calls[n])
  {
    assert calls[..n + 1][..n] == calls[..n];
  }

  /** The segment a call offers to a session that took `taken`, if it may come
      next, whatever its size. */
  function Offer(m: Manifest, taken: seq<Segment>, call: Call): Option<Segment> {
    match call
    case Declared(sequence, payload, _) =>
      if sequence == |taken| < |m.segments| && SegmentOk(Segment(m.segments[sequence], payload))
      then Some(Segment(m.segments[sequence], payload)) else None
    case Deferred(d, payload, _) =>
      if Acceptable(m, taken, Segment(d, payload)) then Some(Segment(d, payload)) else None
    case _ => None
  }

  predicate Fits(taken: seq<Segment>, s: Segment) {
    TotalBytes(taken) + |s.payload| < U64_LIMIT
  }

  /** A seal that is right but for a malformed tag. */
  predicate BadTag(m: Manifest, taken: seq<Segment>, seal: Seal) {
    && AllIn(m, |taken|, Seen(taken))
    && CoreMatches(m, |taken|, TotalBytes(taken), Descriptors(taken), Stream(taken), seal.core)
    && !ValidHex(seal.hmac)
  }

  /** The segments taken by a sequence of calls, while it leaves the session
      open and has dropped nothing. */
  function Held(m: Manifest, calls: seq<Call>): Option<seq<Segment>> {
    if calls == [] then Some([])
    else
      var n := |calls| - 1;
      var held := Held(m, calls[..n]);
      if held.None? then None else Next(m, held.value, calls[n])
  }

  function Next(m: Manifest, taken: seq<Segment>, call: Call): Option<seq<Segment>> {
    var offer := Offer(m, taken, call);
    if offer.Some? then
      if Fits(taken, offer.value) && call.sinkOk then Some(taken + [offer.value]) else None
    else if call.PrepareWith? && BadTag(m, taken, call.seal) then Some(taken)
    else None
  }

  /** Call `i` streams a segment that may come next but overflows the 64-bit
      byte count of what was accepted before it. */
  predicate Drops(m: Manifest, calls: seq<Call>, i: nat) {
    && i < |calls| && calls[i].Deferred? && Held(m, calls[..i]).Some?
    && Offer(m, Held(m, calls[..i]).value, calls[i]).Some?
    && !Fits(Held(m, calls[..i]).value, Offer(m, Held(m, calls[..i]).value, calls[i]).value)
  }

  predicate SomeDrop(m: Manifest, calls: seq<Call>) {
    exists i: nat :: i < |calls| && Drops(m, calls, i)
  }

  /** A seal that a signer can make, for some segments. */
  ghost predicate Signed(m: Manifest, key: nat, seal: Seal) {
    exists segments :: SealOk(m, key, segments, seal)
  }

  lemma {:induction false} HeldStep(m: Manifest, calls: seq<Call>, n: nat)
    requires n < |calls|
    ensures Held(m, calls[..n + 1]) ==
            if Held(m, calls[..n]).None? then None else Next(m, Held(m, calls[..n]).value, calls[n])
    ensures SomeDrop(m, calls[..n + 1]) <==> SomeDrop(m, calls[..n]) || Drops(m, calls, n)
  {
    hide Next, Offer, Fits;
    var a, b := calls[..n], calls[..n + 1];
    assert b[..n] == a;
    assert forall i: nat | i < n :: b[..i] == a[..i] && b[i] == a[i];
    assert Drops(m, b, n) <==> Drops(m, calls, n);
    if i: nat :| i < n && Drops(m, a, i) {
      assert Drops(m, b, i);
    }
    if i: nat :| i < |b| && Drops(m, b, i) {
      if i < n {
        assert Drops(m, a, i);
      }
    }
  }

  /** The receiver after a sequence of calls. */
  ghost predicate Served(r: Receiver, m: Manifest, key: nat, calls: seq<Call>)
    reads r
  {
    && r.Valid() && r.manifest == m && r.key == key && r.total <= Offered(calls)
    && (r.state.Receiving? && !r.spoiled <==> Held(m, calls).Some?)
    && (Held(m, calls).Some? ==> Taken(r.log) == Held(m, calls).value)
    && (m.deferredSegments ==> (r.spoiled <==> SomeDrop(m, calls)))
    && (r.spoiled ==> Offered(calls) >= U64_LIMIT)
  }

  /** One call, whatever the session has been through. */
  method Serve(r: Receiver, m: Manifest, key: nat, calls: seq<Call>, i: nat)
    requires i < |calls| && Served(r, m, key, calls[..i])
    modifies r
    ensures Served(r, m, key, calls[..i + 1])
  {
    hide Track, CommitReady, Armed, Receiver.Protocol, Receiver.Content, Receiver.Drift, Receiver.Jammed, Offered,
      Held, SomeDrop, SegmentOk, TotalBytes, Stream, Descriptors, Seen, Taken, CoreMatches, ValidHex, AllIn,
      Acceptable;
    OfferedStep(calls, i);
    HeldStep(m, calls, i);
    if r.state.Receiving? && !r.spoiled {
      Tally(r);
    }
    match calls[i] {
      case Declared(sequence, payload, sinkOk) =>
        if sequence < |m.segments| {
          LogStep(r.log, SegmentCall(Segment(m.segments[sequence], payload), true));
        }
        var ok := r.SegmentReady(sequence, payload, sinkOk);
      case Deferred(d, payload, sinkOk) =>
        LogStep(r.log, SegmentCall(Segment(d, payload), true));
        var ok := r.SegmentReadyDeferred(d, payload, sinkOk);
      case PrepareWith(seal, sinkOk) =>
        var ok := r.PrepareCommit(seal, sinkOk);
      case CommitNow(sinkOk) =>
        var ok := r.Commit(sinkOk);
      case AbortNow =>
        r.Abort();
    }
  }

  lemma {:induction false} Tally(r: Receiver)
    requires r.Valid() && r.state.Receiving? && !r.spoiled
    ensures var taken := Taken(r.log);
            && r.next == |taken| && r.total == TotalBytes(taken) && r.seen == Seen(taken)
            && r.descriptorHash == Descriptors(taken) && r.payloadHash == Stream(taken)
  {
    hide Track, Represents, Disjoint, Descriptors, Stream, TotalBytes, Seen, Taken;
  }

  /** Any calls in any order, then the drop: the sink ends installed or
      discarded, never both. What is installed is complete and sealed exactly
      when no streamed segment overflowed the byte count of those before it;
      equivalently, when the accepted seal is one that a signer can make. A
      declared session installs nothing else at any byte count. */
  method Session(m: Manifest, key: nat, beginOk: bool, calls: seq<Call>) returns (log: seq<SinkCall>)
    requires Armed(m)
    ensures Track(log) == Some(Installed) || Track(log) == Some(Discarded)
    ensures Track(log) == Some(Installed) ==>
              && PreparedSeal(log).Some?
              && (CommitReady(m, key, log) <==> !SomeDrop(m, calls))
              && (CommitReady(m, key, log) <==> Signed(m, key, PreparedSeal(log).value))
              && (!m.deferredSegments ==> CommitReady(m, key, log))
              && TokensApart(Taken(log))
    ensures SomeDrop(m, calls) ==> Offered(calls) >= U64_LIMIT
  {
    hide Track, CommitReady, Armed, Offered, Held, SomeDrop, Signed, Receiver.Valid, TokensApart;
    DropIsOffered(m, calls);
    if !beginOk {
      Unopened();
      return [BeginCall(false)];
    }
    var r := new Receiver(m, key);
    assert calls[..0] == [];
    NothingServed(r, m);
    for i := 0 to |calls|
      invariant Served(r, m, key, calls[..i])
    {
      Serve(r, m, key, calls, i);
    }
    assert calls[..|calls|] == calls;
    NoDeclaredDrop(m, calls);
    Ends(r);
    r.Abort();
    Tracked(r);
    return r.log;
  }

  lemma {:induction false} Unopened()
    ensures Track([BeginCall(false)]) == Some(Discarded)
  {
    TrackStep([], BeginCall(false));
    assert [] + [BeginCall(false)] == [BeginCall(false)];
  }

  lemma {:induction false} NothingServed(r: Receiver, m: Manifest)
    requires r.log == [BeginCall(true)]
    ensures Held(m, []) == Some([]) && !SomeDrop(m, []) && Offered([]) == 0 && Taken(r.log) == []
  {
    NothingTaken();
  }

  lemma {:induction false} NoDeclaredDrop(m: Manifest, calls: seq<Call>)
    ensures !m.deferredSegments ==> !SomeDrop(m, calls)
  {
    hide Held, DescriptorOk, Disjoint, Descriptors, Ids, SegmentOk;
  }

  /** A drop needs 2^64 bytes on offer. */
  lemma {:induction false} DropIsOffered(m: Manifest, calls: seq<Call>)
    ensures SomeDrop(m, calls) ==> Offered(calls) >= U64_LIMIT
  {
    hide Held, Acceptable, Offered;
    if SomeDrop(m, calls) {
      var i: nat :| i < |calls| && Drops(m, calls, i);
      HeldIsOffered(m, calls[..i]);
      OfferedStep(calls, i);
      OfferedGrows(calls, i + 1);
    }
  }

  lemma {:induction false} HeldIsOffered(m: Manifest, calls: seq<Call>)
    ensures Held(m, calls).Some? ==> TotalBytes(Held(m, calls).value) <= Offered(calls)
    decreases |calls|
  {
    hide TotalBytes, Acceptable, Fits, BadTag;
    if calls == [] {
      NoSegments();
    } else {
      var n := |calls| - 1;
      HeldIsOffered(m, calls[..n]);
      if Held(m, calls).Some? {
        var held := Held(m, calls[..n]).value;
        var offer := Offer(m, held, calls[n]);
        if offer.Some? {
          OfferSize(m, held, calls[n]);
          SegmentsStep(held, offer.value);
        }
      }
    }
  }

  lemma {:induction false} OfferSize(m: Manifest, taken: seq<Segment>, call: Call)
    ensures var offer := Offer(m, taken, call);
            offer.Some? ==> offer.value.descriptor.byteLen == |offer.value.payload| == Size(call)
  {
    hide DescriptorOk, Disjoint, Descriptors, Ids;
  }

  lemma {:induction false} OfferedGrows(calls: seq<Call>, n: nat)
    requires n <= |calls|
    ensures Offered(calls[..n]) <= Offered(calls)
    decreases |calls|
  {
    if n < |calls| {
      OfferedGrows(calls[..|calls| - 1], n);
      assert calls[..|calls| - 1][..n] == calls[..n];
    } else {
      assert calls[..n] == calls;
    }
  }

  lemma {:induction false} Ends(r: Receiver)
    requires r.Valid()
    ensures r.Protocol()
    ensures r.state.Committed? ==>
              && PreparedSeal(r.log).Some?
              && (CommitReady(r.manifest, r.key, r.log) <==> !r.spoiled)
              && (CommitReady(r.manifest, r.key, r.log) <==> Signed(r.manifest, r.key, PreparedSeal(r.log).value))
              && (!r.manifest.deferredSegments ==> !r.spoiled)
              && TokensApart(Taken(r.log))
  {
    hide Track, Holds, Complete, Receiver.Protocol, TotalBytes, Stream, Within, TokensApart;
    if r.state.Committed? {
      if r.manifest.deferredSegments {
        WithinApart(Taken(r.log), r.recorded);
      } else {
        CompleteIsApart(r.manifest, Taken(r.log));
      }
      var seal := PreparedSeal(r.log).value;
      DescriptorsAt(r.hashed);
      if r.spoiled && Signed(r.manifest, r.key, seal) {
        var segments :| SealOk(r.manifest, r.key, segments, seal);
        DescriptorsAt(segments);
      }
    }
  }

  lemma {:induction false} Tracked(r: Receiver)
    requires r.Protocol()
    ensures Track(r.log) == Some(ShadowOf(r.state))
  {
  }

  lemma {:induction false} NextFits(m: Manifest, segments: seq<Segment>, i: nat)
    requires Complete(m, segments) && TotalBytes(segments) < U64_LIMIT && i < |segments|
    ensures segments[..i + 1] == segments[..i] + [segments[i]]
    ensures TotalBytes(segments[..i]) + |segments[i].payload| < U64_LIMIT
    ensures SegmentOk(segments[i]) && segments[i].descriptor.sequence == i
    ensures m.deferredSegments ==> Acceptable(m, segments[..i], segments[i])
    ensures !m.deferredSegments ==> i < |m.segments| && m.segments[i] == segments[i].descriptor
  {
    hide Seen, Stream, TotalBytes, Descriptors, Ids, DescriptorOk, RequiredSeen;
    var ds := Descriptors(segments);
    DescriptorsAt(segments);
    DescriptorsAt(segments[..i]);
    SegmentsStep(segments[..i], segments[i]);
    TotalGrows(segments, i + 1);
    assert segments[..i + 1] == segments[..i] + [segments[i]];
    DescriptorStep(ds, i, Ids(m.components));
    assert Descriptors(segments[..i]) == ds[..i];
  }

  /** A receiver that took exactly these segments. */
  method Fill(m: Manifest, key: nat, segments: seq<Segment>) returns (r: Receiver)
    requires Armed(m) && Complete(m, segments) && TotalBytes(segments) < U64_LIMIT
    ensures fresh(r) && r.Valid() && r.state.Receiving? && !r.spoiled && r.manifest == m && r.key == key
    ensures Taken(r.log) == segments
  {
    hide Track, CommitReady, Armed, Receiver.Protocol, Receiver.Content, Receiver.Drift, Complete, Descriptors,
      Acceptable, Taken, PreparedSeal, TotalBytes;
    r := new Receiver(m, key);
    NothingTaken();
    assert segments[..0] == [];
    for i := 0 to |segments|
      invariant fresh(r) && r.Valid() && r.state.Receiving? && !r.spoiled && r.manifest == m && r.key == key
      invariant Taken(r.log) == segments[..i]
    {
      var s := segments[i];
      NextFits(m, segments, i);
      Tally(r);
      LogStep(r.log, SegmentCall(s, true));
      var ok: bool;
      if m.deferredSegments {
        ok := r.SegmentReadyDeferred(s.descriptor, s.payload, true);
      } else {
        ok := r.SegmentReady(s.descriptor.sequence, s.payload, true);
      }
    }
    assert segments[..|segments|] == segments;
  }

  /** Round trip: what the producer signs, the receiver installs, unchanged,
      also after any number of seals that are right but for a malformed tag. */
  method InstallSigned(m: Manifest, key: nat, segments: seq<Segment>, malformed: seq<Digest>)
    returns (log: seq<SinkCall>)
    requires Armed(m) && Complete(m, segments) && Signable(segments)
    requires forall i :: 0 <= i < |malformed| ==> !ValidHex(malformed[i])
    ensures Track(log) == Some(Installed) && Taken(log) == segments
    ensures PreparedSeal(log).Some? && SealOk(m, key, segments, PreparedSeal(log).value)
  {
    hide Track, CommitReady, Armed, Receiver.Protocol, Receiver.Content, Receiver.Drift, Receiver.Jammed, Complete,
      Signable, SealOk, Descriptors, Taken, PreparedSeal, TotalBytes, AllIn, CoreMatches, Paired, Signed, ValidHex;
    PairedAgain(segments);
    var seal := Sign(m, Descriptors(segments), Payloads(segments), key);
    SignableTotal(segments);
    var r := Fill(m, key, segments);
    SealMatches(r, seal.value);
    for i := 0 to |malformed|
      invariant r.Valid() && r.state.Receiving? && !r.spoiled && Taken(r.log) == segments
      invariant AllIn(m, r.next, r.seen)
      invariant CoreMatches(m, r.next, r.total, r.descriptorHash, r.payloadHash, seal.value.core)
    {
      var refused := r.PrepareCommit(Seal(seal.value.core, malformed[i]), true);
    }
    LogStep(r.log, PrepareCall(seal.value, true));
    var prepared := r.PrepareCommit(seal.value, true);
    LogStep(r.log, CommitCall(true));
    var committed := r.Commit(true);
    Ends(r);
    Tracked(r);
    log := r.log;
  }

  lemma {:induction false} SignableTotal(segments: seq<Segment>)
    requires Signable(segments)
    ensures TotalBytes(segments) < U64_LIMIT
  {
  }

  lemma {:induction false} SealMatches(r: Receiver, seal: Seal)
    requires r.Valid() && r.state.Receiving? && !r.spoiled
    requires Complete(r.manifest, Taken(r.log)) && SealOk(r.manifest, r.key, Taken(r.log), seal)
    ensures AllIn(r.manifest, r.next, r.seen)
    ensures CoreMatches(r.manifest, r.next, r.total, r.descriptorHash, r.payloadHash, seal.core)
  {
    hide Track, Represents, Disjoint, Descriptors, Stream, TotalBytes, Seen, Taken, Holds, Complete, SealOk,
      CoreMatches, AllIn;
    SealDecides(r.manifest, r.key, Taken(r.log), r.hashed, r.next, r.total, r.seen, r.descriptorHash, r.payloadHash,
                seal);
  }

  lemma {:induction false} NothingTaken()
    ensures Taken([BeginCall(true)]) == []
  {
    LogStep([], BeginCall(true));
    assert [] + [BeginCall(true)] == [BeginCall(true)];
  }

  // ---------------------------------------------------------------------
  // The corner the byte count leaves open
  // ---------------------------------------------------------------------

  /** The prepared seal counts the segments taken, and its descriptor digest
      covers one more. */
  predicate SealSkips(log: seq<SinkCall>, taken: seq<Segment>, dropped: Segment) {
    && PreparedSeal(log).Some? && PreparedSeal(log).value.core.segmentCount == |taken|
    && PreparedSeal(log).value.core.descriptors == OfDescriptors(Descriptors(taken + [dropped]))
  }

  /** After any complete streamed prefix, a segment that overflows the byte
      count is refused without an abort, and after it was hashed. The session
      can still commit, under a seal whose count leaves that segment out. */
  method CommitAfterDrop(m: Manifest, key: nat, taken: seq<Segment>, dropped: Segment) returns (log: seq<SinkCall>)
    requires Armed(m) && Complete(m, taken) && TotalBytes(taken) < U64_LIMIT
    requires Acceptable(m, taken, dropped) && !Fits(taken, dropped)
    ensures Track(log) == Some(Installed) && Taken(log) == taken && !CommitReady(m, key, log)
    ensures SealSkips(log, taken, dropped)
  {
    hide Track, CommitReady, Armed, Receiver.Protocol, Receiver.Content, Receiver.Jammed, Complete,
      Descriptors, Taken, PreparedSeal, TotalBytes, ValidHex, Signed, AllIn;
    var r := Fill(m, key, taken);
    Tally(r);
    AllTaken(r);
    SegmentsStep(taken, dropped);
    var refused := r.SegmentReadyDeferred(dropped.descriptor, dropped.payload, true);
    var core := SealCore(m.transferId, m.generation, OfManifest(m), OfDescriptors(r.descriptorHash),
                         OfBytes(r.payloadHash), r.next, r.total);
    LogStep(r.log, PrepareCall(Seal(core, Mac(key, core)), true));
    var prepared := r.PrepareCommit(Seal(core, Mac(key, core)), true);
    LogStep(r.log, CommitCall(true));
    var committed := r.Commit(true);
    Ends(r);
    Tracked(r);
    log := r.log;
  }

  lemma {:induction false} AllTaken(r: Receiver)
    requires r.Valid() && r.state.Receiving? && !r.spoiled && Complete(r.manifest, Taken(r.log))
    ensures AllIn(r.manifest, r.next, r.seen)
  {
    hide Track, Represents, Disjoint, Descriptors, Stream, TotalBytes, Seen, Taken, Holds, Complete, AllIn;
    InDecides(r.manifest, Taken(r.log), r.hashed, r.next, r.total, r.seen, r.descriptorHash, r.payloadHash);
  }

  /** No byte vector is longer than this. */
  const VECTOR_LIMIT := 0x8000_0000_0000_0000

  lemma {:induction false} HeldSizes(m: Manifest, calls: seq<Call>)
    requires forall i :: 0 <= i < |calls| ==> Size(calls[i]) < VECTOR_LIMIT
    ensures Held(m, calls).Some? ==>
              forall i :: 0 <= i < |Held(m, calls).value| ==>
                Held(m, calls).value[i].descriptor.byteLen < VECTOR_LIMIT
    decreases |calls|
  {
    hide Acceptable, Fits, BadTag;
    if calls == [] {
    } else {
      var n := |calls| - 1;
      HeldSizes(m, calls[..n]);
      if Held(m, calls).Some? {
        OfferSize(m, Held(m, calls[..n]).value, calls[n]);
      }
    }
  }

  lemma {:induction false} FewBytes(segments: seq<Segment>)
    requires forall i :: 0 <= i < |segments| ==> segments[i].descriptor.byteLen < VECTOR_LIMIT
    ensures |segments| <= 1 ==> TotalBytes(segments) < VECTOR_LIMIT
  {
    if |segments| == 1 {
      assert segments[..0] == [];
    }
  }

  /** With real payloads a drop takes at least three segments. */
  lemma {:induction false} DropNeedsThree(m: Manifest, calls: seq<Call>, i: nat)
    requires Drops(m, calls, i) && forall j :: 0 <= j < |calls| ==> Size(calls[j]) < VECTOR_LIMIT
    ensures |Held(m, calls[..i]).value| >= 2
  {
    hide Acceptable, Held;
    var held := Held(m, calls[..i]).value;
    HeldSizes(m, calls[..i]);
    OfferSize(m, held, calls[i]);
    FewBytes(held);
  }

  const TARGET := Component("t", TargetKv, true, OfBytes([]))
  const SOMEONE :=
    Identity(OfBytes([]), OfBytes([]), OfBytes([]), "r", OfBytes([]), "r", OfBytes([]))
  const STREAMED := Manifest(PROTOCOL_V2, "x", 0, 0, 1, SOMEONE, [0], None, "k", 0, [TARGET], true, [])

  /** Rows of the largest half-precision payload. */
  const WIDE: nat := VECTOR_LIMIT / 2 - 1

  function Tile(sequence: u32, start: u64, count: u64, payload: seq<byte>): Descriptor
    requires 2 * count < U64_LIMIT
  {
    Descriptor(sequence, "t", NopeTile, None, start, count, "f16_le", 1, 2 * count, OfBytes(payload))
  }

  lemma {:induction false} StreamedIsValid()
    ensures ValidManifest(STREAMED, 0, "k", 0) && Armed(STREAMED) && Ids(STREAMED.components) == {"t"}
    ensures RequiredSeen(STREAMED, {"t"})
  {
    assert STREAMED.components[0] == TARGET && TransferIdOk("x");
    assert STREAMED.components[0].id in Ids(STREAMED.components);
  }

  lemma {:induction false} TilesFit(a: Descriptor, b: Descriptor, c: Descriptor, p: seq<byte>, q: seq<byte>)
    requires a == Tile(0, 0, WIDE, p) && b == Tile(1, WIDE, WIDE, p) && c == Tile(2, 2 * WIDE, 2, q)
    ensures DescriptorsOk([a, b], {"t"}) && DescriptorOk(c, {"t"}) && Disjoint([a, b, c])
  {
    assert !Overlap(a, b) && !Overlap(a, c) && !Overlap(b, c);
    assert Rows(a) == WIDE && Rows(b) == WIDE && Rows(c) == 2;
  }

  lemma {:induction false} OneTaken(a: Segment)
    ensures Descriptors([a]) == [a.descriptor] && TotalBytes([a]) == a.descriptor.byteLen
    ensures Seen([a]) == {a.descriptor.component}
  {
    NoSegments();
    SegmentsStep([], a);
    SeenStep([], a);
    assert [] + [a] == [a];
  }

  lemma {:induction false} TwoTaken(a: Segment, b: Segment)
    ensures Descriptors([a, b]) == [a.descriptor, b.descriptor]
    ensures TotalBytes([a, b]) == a.descriptor.byteLen + b.descriptor.byteLen
    ensures Seen([a, b]) == {a.descriptor.component, b.descriptor.component}
  {
    OneTaken(a);
    SegmentsStep([a], b);
    SeenStep([a], b);
    assert [a] + [b] == [a, b];
  }

  /** An accepted manifest and three real segments for which that happens. */
  method OverflowInstalls(key: nat) returns (segments: seq<Segment>, log: seq<SinkCall>)
    ensures ValidManifest(STREAMED, 0, "k", 0) && |segments| == 3
    ensures forall i :: 0 <= i < 3 ==> |segments[i].payload| < VECTOR_LIMIT
    ensures Track(log) == Some(Installed) && Taken(log) == segments[..2] && !CommitReady(STREAMED, key, log)
  {
    hide Track, CommitReady, Armed, Disjoint, Ids, DescriptorOk, Repeat, RequiredSeen, ValidManifest, Taken,
      PreparedSeal, Descriptors, TotalBytes, Seen, DescriptorsOk;
    var p: seq<byte>, q: seq<byte> := Repeat(0, 2 * WIDE), Repeat(0, 4);
    var a, b := Segment(Tile(0, 0, WIDE, p), p), Segment(Tile(1, WIDE, WIDE, p), p);
    var c := Segment(Tile(2, 2 * WIDE, 2, q), q);
    StreamedIsValid();
    TilesFit(a.descriptor, b.descriptor, c.descriptor, p, q);
    TwoTaken(a, b);
    assert {"t", "t"} == {"t"};
    assert [a.descriptor, b.descriptor] + [c.descriptor] == [a.descriptor, b.descriptor, c.descriptor];
    segments := [a, b, c];
    assert segments[..2] == [a, b];
    log := CommitAfterDrop(STREAMED, key, [a, b], c);
  }

  // ---------------------------------------------------------------------
  // Required components
  // ---------------------------------------------------------------------

  function Named(ds: seq<Descriptor>): set<string> {
    set i | 0 <= i < |ds| :: ds[i].component
  }

  lemma {:induction false} SeenIsNamed(segments: seq<Segment>)
    ensures Seen(segments) == Named(Descriptors(segments))
    decreases |segments|
  {
    if segments == [] {
    } else {
      var n := |segments| - 1;
      SeenIsNamed(segments[..n]);
      var ds, d := Descriptors(segments[..n]), segments[n].descriptor;
      hide Descriptors, Seen;
      assert Named(ds + [d]) == Named(ds) + {d.component} by {
        assert (ds + [d])[|ds|] == d;
        assert forall i :: 0 <= i < |ds| ==> (ds + [d])[i] == ds[i];
      }
      SegmentsStep(segments[..n], segments[n]);
      assert segments == segments[..n] + [segments[n]];
      SeenStep(segments[..n], segments[n]);
    }
  }

  lemma {:induction false} SeenStep(segments: seq<Segment>, s: Segment)
    ensures Seen(segments + [s]) == Seen(segments) + {s.descriptor.component}
  {
    assert (segments + [s])[..|segments|] == segments;
  }

  /** An installed generation holds data for every required component exactly
      when it was streamed or its manifest names each of them in a segment. */
  lemma {:induction false} RequiredComponentsCovered(m: Manifest, segments: seq<Segment>)
    requires Complete(m, segments)
    ensures RequiredSeen(m, Seen(segments)) <==> m.deferredSegments || RequiredSeen(m, Named(m.segments))
  {
    hide Ids, DescriptorsOk, SegmentOk, Seen, Named, RequiredSeen, Descriptors;
    SeenIsNamed(segments);
  }

  const CAPTION := Component("v", VisionContext, false, OfBytes([]))
  const CAPTION_ROW := Descriptor(0, "v", Auxiliary, None, 0, 1, "f16_le", 1, 2, OfBytes([0, 0]))
  const CAPTIONED :=
    Manifest(PROTOCOL_V2, "x", 0, 0, 1, SOMEONE, [0], None, "k", 0, [TARGET, CAPTION], false, [CAPTION_ROW])

  lemma {:induction false} CaptionedHead()
    ensures HeadOk(CAPTIONED, 0, "k", 0) && ComponentsOk(CAPTIONED.components)
    ensures Requires(CAPTIONED.components, TargetKv) && !Requires(CAPTIONED.components, DflashContext)
  {
    assert CAPTIONED.components[0] == TARGET && CAPTIONED.components[1] == CAPTION;
    assert TransferIdOk("x");
  }

  lemma {:induction false} CaptionedBody()
    ensures DescriptorsOk(CAPTIONED.segments, Ids(CAPTIONED.components))
    ensures !RequiredSeen(CAPTIONED, {"v"})
  {
    assert CAPTIONED.components[0] == TARGET && CAPTIONED.components[1] == CAPTION;
    assert CAPTIONED.components[1].id in Ids(CAPTIONED.components);
    assert Rows(CAPTION_ROW) == 1;
  }

  const CAPTION_ONLY := [Segment(CAPTION_ROW, [0, 0])]

  lemma {:induction false} CaptionedComplete()
    ensures ValidManifest(CAPTIONED, 0, "k", 0) && Complete(CAPTIONED, CAPTION_ONLY)
    ensures Seen(CAPTION_ONLY) == {"v"} && Signable(CAPTION_ONLY) && Armed(CAPTIONED)
  {
    hide HeadOk, ComponentsOk, Requires, DescriptorsOk, Ids, RequiredSeen, IsDflash;
    CaptionedHead();
    CaptionedBody();
    OneTaken(CAPTION_ONLY[0]);
  }

  /** A declared manifest may leave its required target without a segment. */
  lemma {:induction false} TargetMayBeOmitted() returns (segments: seq<Segment>)
    ensures ValidManifest(CAPTIONED, 0, "k", 0) && Complete(CAPTIONED, segments)
    ensures !RequiredSeen(CAPTIONED, Seen(segments))
  {
    hide ValidManifest, Complete, Seen, RequiredSeen;
    CaptionedBody();
    CaptionedComplete();
    segments := CAPTION_ONLY;
  }

  /** A malformed tag fails the seal and leaves the session open. */
  method OpenAfterBadTag(key: nat) returns (ok: bool, state: State)
    ensures !ok && state.Receiving?
  {
    hide Receiver.Protocol, Receiver.Content, Receiver.Drift, Receiver.Jammed, Complete, Signable, SealOk, Armed,
      AllIn, CoreMatches, Taken, Descriptors, TotalBytes, Seen, ValidManifest;
    CaptionedComplete();
    SignableTotal(CAPTION_ONLY);
    PairedAgain(CAPTION_ONLY);
    var seal := Sign(CAPTIONED, Descriptors(CAPTION_ONLY), Payloads(CAPTION_ONLY), key);
    var r := Fill(CAPTIONED, key, CAPTION_ONLY);
    SealMatches(r, seal.value);
    ok := r.PrepareCommit(Seal(seal.value.core, Text("")), true);
    state := r.state;
  }
}
