/** Staging chunks for a content-addressed store: deduplicated one by one, put
    in batches. */
module Staging {
  import opened Machine
  import opened Consts
  import opened CutManifests

  const CHUNK_PUT_BATCH_BYTES := 0x400_0000

  // ---------------------------------------------------------------------
  // References
  // ---------------------------------------------------------------------

  function Size(pieces: seq<seq<byte>>): nat {
    if pieces == [] then 0 else Size(pieces[..|pieces| - 1]) + |pieces[|pieces| - 1]|
  }

  lemma {:induction false} SizeStep(pieces: seq<seq<byte>>, p: seq<byte>)
    ensures Size(pieces + [p]) == Size(pieces) + |p|
  {
    assert (pieces + [p])[..|pieces|] == pieces;
  }

  /** Where a state segment starts and how it is cut. */
  datatype Segment = Segment(start: u64, count: u64, bytesPerToken: u64)

  predicate SegmentOk(g: Segment) {
    && 0 < g.bytesPerToken <= MAX_CHUNK_PLAINTEXT
    && Product(g.start + g.count, g.bytesPerToken) < U64_LIMIT
  }

  /** Bytes of the whole segment. */
  function Required(g: Segment): nat {
    Product(g.count, g.bytesPerToken)
  }

  lemma {:induction false} SegmentBytes(g: Segment)
    requires SegmentOk(g)
    ensures Product(g.start, g.bytesPerToken) + Required(g) == Product(g.start + g.count, g.bytesPerToken)
  {
    hide Product;
    ProductDistributes(g.bytesPerToken, g.start, g.count);
    ProductAssoc(g.bytesPerToken, g.start, 1);
    ProductAssoc(g.bytesPerToken, g.count, 1);
    ProductAssoc(g.bytesPerToken, g.start + g.count, 1);
  }

  /** A chunk the writer offers: its bytes and its span. */
  predicate SpanFits(g: Segment, total: nat, length: nat)
    requires SegmentOk(g)
  {
    && length <= MAX_CHUNK_PLAINTEXT && total + length <= Required(g)
  }

  function SpanAt(g: Segment, total: nat, length: nat): Span
    requires SegmentOk(g) && SpanFits(g, total, length)
  {
    SegmentBytes(g);
    SpanInRange(g, total);
    Span(g.start + Quot(total, g.bytesPerToken), Quot(length, g.bytesPerToken),
         Product(g.start, g.bytesPerToken) + total, length)
  }

  lemma {:induction false} SpanInRange(g: Segment, total: nat)
    requires SegmentOk(g) && total <= Required(g)
    ensures g.start + Quot(total, g.bytesPerToken) <= Product(g.start + g.count, g.bytesPerToken) < U64_LIMIT
  {
    var q := Quot(total, g.bytesPerToken);
    QuotBounds(total, g.bytesPerToken);
    AsProduct(q, g.bytesPerToken);
    hide Product, Quot;
    SegmentBytes(g);
    ProductMonotone(g.bytesPerToken, q, q);
    ProductMonotone(g.bytesPerToken, g.start, g.start);
  }

  /** The store's name for a chunk, by content. */
  type Naming = (seq<byte>, Span) -> ChunkRef

  ghost predicate Honest(name: Naming) {
    forall p: seq<byte>, s: Span :: |p| == s.bytes ==> ChunkRefOk(name(p, s), s)
  }

  predicate PiecesFit(g: Segment, pieces: seq<seq<byte>>)
    requires SegmentOk(g)
  {
    Size(pieces) <= Required(g) && forall i :: 0 <= i < |pieces| ==> 0 < |pieces[i]| <= MAX_CHUNK_PLAINTEXT
  }

  /** The references of a list of chunks, in order. */
  function Refs(g: Segment, name: Naming, pieces: seq<seq<byte>>): (refs: seq<ChunkRef>)
    requires SegmentOk(g) && PiecesFit(g, pieces)
    ensures |refs| == |pieces|
  {
    if pieces == [] then []
    else
      var n := |pieces| - 1;
      Refs(g, name, pieces[..n]) + [name(pieces[n], SpanAt(g, Size(pieces[..n]), |pieces[n]|))]
  }

  lemma {:induction false} RefsStep(g: Segment, name: Naming, pieces: seq<seq<byte>>, p: seq<byte>)
    requires SegmentOk(g) && PiecesFit(g, pieces) && 0 < |p| && SpanFits(g, Size(pieces), |p|)
    ensures PiecesFit(g, pieces + [p])
    ensures Refs(g, name, pieces + [p]) == Refs(g, name, pieces) + [name(p, SpanAt(g, Size(pieces), |p|))]
  {
    hide Product, Size;
    SizeStep(pieces, p);
    assert (pieces + [p])[..|pieces|] == pieces;
  }

  // ---------------------------------------------------------------------
  // Slots
  // ---------------------------------------------------------------------

  /** What the store says to one chunk: already there, new, or an error. */
  datatype Answer = Known | Fresh | Broken

  datatype PendingChunk = PendingChunk(slot: nat, plaintext: seq<byte>, span: Span)

  /** A store: how it names chunks, how it answers each slot, whether a batch
      put after that many chunks succeeds, and how large objects get. */
  datatype Store = Store(
    name: Naming, answers: nat -> Answer, puts: nat -> bool, objectBytes: seq<byte> -> nat)

  ghost predicate Healthy(store: Store) {
    Honest(store.name) && (forall i: nat :: !store.answers(i).Broken?) && (forall i: nat :: store.puts(i))
  }

  predicate Waits(pending: seq<PendingChunk>, slot: nat) {
    exists k :: 0 <= k < |pending| && pending[k].slot == slot
  }

  /** Every slot holds its reference or waits for it, and only those wait. */
  predicate Staged(g: Segment, name: Naming, pieces: seq<seq<byte>>, chunks: seq<Option<ChunkRef>>,
                   pending: seq<PendingChunk>)
    requires SegmentOk(g) && PiecesFit(g, pieces)
  {
    var refs := Refs(g, name, pieces);
    && |chunks| == |pieces|
    && (forall i :: 0 <= i < |chunks| ==> (chunks[i].None? <==> Waits(pending, i)))
    && (forall i :: 0 <= i < |chunks| && chunks[i].Some? ==> chunks[i].value == refs[i])
    && (forall k, l :: 0 <= k < l < |pending| ==> pending[k].slot != pending[l].slot)
    && (forall k :: 0 <= k < |pending| ==>
          && pending[k].slot < |chunks| && |pending[k].plaintext| == pending[k].span.bytes
          && name(pending[k].plaintext, pending[k].span) == refs[pending[k].slot])
  }

  lemma {:induction false} StageKnown(
      g: Segment, name: Naming, pieces: seq<seq<byte>>, chunks: seq<Option<ChunkRef>>, pending: seq<PendingChunk>,
      p: seq<byte>)
    requires SegmentOk(g) && PiecesFit(g, pieces) && Staged(g, name, pieces, chunks, pending)
    requires 0 < |p| && SpanFits(g, Size(pieces), |p|)
    ensures PiecesFit(g, pieces + [p])
    ensures Staged(g, name, pieces + [p], chunks + [Some(name(p, SpanAt(g, Size(pieces), |p|)))], pending)
  {
    hide Refs, SpanAt, Product, Size;
    RefsStep(g, name, pieces, p);
  }

  lemma {:induction false} StageFresh(
      g: Segment, name: Naming, pieces: seq<seq<byte>>, chunks: seq<Option<ChunkRef>>, pending: seq<PendingChunk>,
      p: seq<byte>)
    requires SegmentOk(g) && PiecesFit(g, pieces) && Staged(g, name, pieces, chunks, pending)
    requires 0 < |p| && SpanFits(g, Size(pieces), |p|)
    ensures PiecesFit(g, pieces + [p])
    ensures Staged(g, name, pieces + [p], chunks + [None],
                   pending + [PendingChunk(|chunks|, p, SpanAt(g, Size(pieces), |p|))])
  {
    hide Refs, Product, Size;
    RefsStep(g, name, pieces, p);
    var next := pending + [PendingChunk(|chunks|, p, SpanAt(g, Size(pieces), |p|))];
    forall i: nat ensures Waits(next, i) <==> Waits(pending, i) || i == |chunks| {
      WaitsGrow(pending, next[|pending|], i);
    }
  }

  lemma {:induction false} WaitsGrow(pending: seq<PendingChunk>, c: PendingChunk, i: nat)
    ensures Waits(pending + [c], i) <==> Waits(pending, i) || c.slot == i
  {
    var next := pending + [c];
    if k :| 0 <= k < |pending| && pending[k].slot == i {
      assert next[k].slot == i;
    }
    assert next[|pending|] == c;
    if k :| 0 <= k < |next| && next[k].slot == i {
      assert k < |pending| ==> pending[k].slot == i;
    }
  }

  lemma {:induction false} Resolve(
      g: Segment, name: Naming, pieces: seq<seq<byte>>, chunks: seq<Option<ChunkRef>>, pending: seq<PendingChunk>)
    requires SegmentOk(g) && PiecesFit(g, pieces) && Staged(g, name, pieces, chunks, pending) && pending != []
    ensures var c := pending[0];
            c.slot < |chunks| && |c.plaintext| == c.span.bytes &&
            Staged(g, name, pieces, chunks[c.slot := Some(name(c.plaintext, c.span))], pending[1..])
  {
    hide Refs, Product, Size;
    var c, rest := pending[0], pending[1..];
    assert forall k :: 0 <= k < |rest| ==> rest[k] == pending[k + 1];
    forall i: nat ensures Waits(rest, i) <==> Waits(pending, i) && i != c.slot {
      if k :| 0 <= k < |rest| && rest[k].slot == i {
        assert pending[k + 1].slot == i && pending[0].slot != pending[k + 1].slot;
      }
      if k :| 0 <= k < |pending| && pending[k].slot == i {
        if k > 0 {
          assert rest[k - 1].slot == i;
        }
      }
    }
  }

  lemma {:induction false} NothingWaits(
      g: Segment, name: Naming, pieces: seq<seq<byte>>, chunks: seq<Option<ChunkRef>>)
    requires SegmentOk(g) && PiecesFit(g, pieces) && Staged(g, name, pieces, chunks, [])
    ensures |chunks| == |pieces|
    ensures !HasHole(chunks) && forall i :: 0 <= i < |chunks| ==> chunks[i] == Some(Refs(g, name, pieces)[i])
  {
    hide Refs, Product, Size;
  }

  /** A chunk that waits has no reference yet. */
  lemma {:induction false} SlotIsOpen(
      g: Segment, name: Naming, pieces: seq<seq<byte>>, chunks: seq<Option<ChunkRef>>, pending: seq<PendingChunk>)
    requires SegmentOk(g) && PiecesFit(g, pieces) && Staged(g, name, pieces, chunks, pending) && pending != []
    ensures pending[0].slot < |chunks| && HasHole(chunks)
  {
    hide Refs, Product, Size;
    assert Waits(pending, pending[0].slot);
  }

  lemma {:induction false} TokenIsPositive(g: Segment)
    requires SegmentOk(g)
    ensures g.bytesPerToken > 0
  {
  }

  lemma {:induction false} SpanLength(g: Segment, total: nat, length: nat)
    requires SegmentOk(g) && SpanFits(g, total, length)
    ensures SpanAt(g, total, length).bytes == length
  {
  }

  lemma {:induction false} NamedLength(name: Naming, p: seq<byte>, s: Span)
    requires |p| == s.bytes
    ensures Honest(name) ==> name(p, s).plaintextBytes == s.bytes
  {
    if Honest(name) {
      assert ChunkRefOk(name(p, s), s);
    }
  }

  lemma {:induction false} HonestRef(name: Naming, p: seq<byte>, s: Span)
    requires Honest(name) && |p| == s.bytes
    ensures ChunkRefOk(name(p, s), s)
  {
    hide ChunkRefOk;
  }

  lemma {:induction false} SizePart(pieces: seq<seq<byte>>, n: nat)
    requires n <= |pieces|
    ensures Size(pieces[..n]) <= Size(pieces)
    decreases |pieces|
  {
    if n < |pieces| {
      SizePart(pieces[..|pieces| - 1], n);
      assert pieces[..|pieces| - 1][..n] == pieces[..n];
    } else {
      assert pieces[..n] == pieces;
    }
  }

  lemma {:induction false} RefAt(g: Segment, name: Naming, pieces: seq<seq<byte>>, i: nat)
    requires SegmentOk(g) && PiecesFit(g, pieces) && i < |pieces|
    ensures SpanFits(g, Size(pieces[..i]), |pieces[i]|)
    ensures Refs(g, name, pieces)[i] == name(pieces[i], SpanAt(g, Size(pieces[..i]), |pieces[i]|))
    decreases |pieces|
  {
    hide Product;
    SizePart(pieces, i + 1);
    assert pieces[..i + 1][..i] == pieces[..i];
    if i >= |pieces| - 1 {
    } else {
      var init := pieces[..|pieces| - 1];
      SizePart(pieces, |pieces| - 1);
      RefAt(g, name, init, i);
      assert init[..i] == pieces[..i];
    }
  }

  // ---------------------------------------------------------------------
  // What a store makes of a list of chunks
  // ---------------------------------------------------------------------

  /** Staging so far: going on, with the bytes that wait for the next put;
      or stopped by a refused chunk, or by a failed put. */
  datatype Progress = Going(bytes: nat, waiting: bool) | Refused | PutFailed

  function StageNext(store: Store, prior: Progress, n: nat, p: seq<byte>): Progress {
    if !prior.Going? then prior
    else
      match store.answers(n)
      case Broken => Refused
      case Known => prior
      case Fresh =>
        var bytes := prior.bytes + store.objectBytes(p);
        if bytes < CHUNK_PUT_BATCH_BYTES then Going(bytes, true)
        else if store.puts(n + 1) then Going(0, false)
        else PutFailed
  }

  function After(store: Store, pieces: seq<seq<byte>>): Progress {
    if pieces == [] then Going(0, false)
    else
      var n := |pieces| - 1;
      StageNext(store, After(store, pieces[..n]), n, pieces[n])
  }

  /** All chunks are staged and the last put succeeds. */
  predicate Completes(store: Store, pieces: seq<seq<byte>>) {
    After(store, pieces).Going? && (After(store, pieces).waiting ==> store.puts(|pieces|))
  }

  lemma {:induction false} AfterStep(store: Store, pieces: seq<seq<byte>>, p: seq<byte>)
    ensures After(store, pieces + [p]) == StageNext(store, After(store, pieces), |pieces|, p)
  {
    assert (pieces + [p])[..|pieces|] == pieces;
  }

  /** Staging never recovers. */
  lemma {:induction false} AfterPrefix(store: Store, pieces: seq<seq<byte>>, n: nat)
    requires n <= |pieces| && !After(store, pieces[..n]).Going?
    ensures After(store, pieces) == After(store, pieces[..n])
    decreases |pieces|
  {
    if n < |pieces| {
      AfterPrefix(store, pieces[..|pieces| - 1], n) by {
        assert pieces[..|pieces| - 1][..n] == pieces[..n];
      }
      assert pieces[..|pieces| - 1][..n] == pieces[..n];
    } else {
      assert pieces[..n] == pieces;
    }
  }

  lemma {:induction false} PutsSucceed(store: Store, pieces: seq<seq<byte>>)
    requires forall n: nat :: store.puts(n)
    ensures !After(store, pieces).PutFailed?
    ensures (forall n: nat :: !store.answers(n).Broken?) ==> After(store, pieces).Going?
    decreases |pieces|
  {
    if pieces == [] {
    } else {
      PutsSucceed(store, pieces[..|pieces| - 1]);
    }
  }

  lemma {:induction false} HealthyCompletes(store: Store, pieces: seq<seq<byte>>)
    ensures Healthy(store) ==> Honest(store.name) && Completes(store, pieces)
  {
    hide Honest, After;
    if Healthy(store) {
      PutsSucceed(store, pieces);
    }
  }

  predicate HasHole(chunks: seq<Option<ChunkRef>>) {
    exists i :: 0 <= i < |chunks| && chunks[i].None?
  }

  // ---------------------------------------------------------------------
  // The stager
  // ---------------------------------------------------------------------

  datatype StageResult = Stored | NotStored | NotPut

  /** Chunks on their way to the store: resolved, or waiting for a put. */
  class Stager {
    const segment: Segment
    const store: Store
    var chunks: seq<Option<ChunkRef>>
    var pending: seq<PendingChunk>
    var pendingBytes: nat
    var total: nat
    var poisoned: bool
    /** The chunks behind the slots. */
    ghost var pieces: seq<seq<byte>>

    ghost predicate Counted()
      reads this
    {
      SegmentOk(segment) && PiecesFit(segment, pieces) && total == Size(pieces) && |chunks| == |pieces|
    }

    /** The slots agree with the chunks staged so far. */
    ghost predicate Sound()
      reads this
    {
      Counted() && Staged(segment, store.name, pieces, chunks, pending)
    }

    /** Some slot has no reference and nothing will give it one. */
    ghost predicate Holed()
      reads this
    {
      Counted() && pending == [] && HasHole(chunks)
    }

    /** What is waiting is what staging the chunks leaves waiting. */
    ghost predicate Paced()
      reads this
    {
      Honest(store.name) ==> After(store, pieces) == Going(pendingBytes, pending != [])
    }

    constructor (segment: Segment, store: Store)
      requires SegmentOk(segment)
      ensures Sound() && Paced() && !poisoned && pieces == []
      ensures this.segment == segment && this.store == store
    {
      this.segment, this.store := segment, store;
      chunks, pending, pendingBytes, total := [], [], 0, 0;
      poisoned, pieces := false, [];
    }

    /** One batched put. Afterwards nothing waits; if it failed, some slot
        never gets its reference. */
    method FlushPending() returns (ok: bool)
      requires pending != [] ==> Sound()
      modifies this`chunks, this`pending, this`pendingBytes, this`poisoned
      ensures old(pending) == [] ==> ok && unchanged(this)
      ensures old(pending) != [] ==> pending == [] && pendingBytes == 0
      ensures ok && old(pending) != [] ==> Sound() && poisoned == old(poisoned)
      ensures !ok ==> poisoned && Holed()
      ensures Honest(store.name) ==> (ok <==> old(pending) == [] || store.puts(|old(chunks)|))
    {
      hide Honest, ChunkRefOk, SegmentOk, PiecesFit, Staged, Size, HasHole;
      if pending == [] {
        return true;
      }
      var batch := pending;
      pending, pendingBytes := [], 0;
      if !store.puts(|chunks|) {
        SlotIsOpen(segment, store.name, pieces, chunks, batch);
        poisoned := true;
        return false;
      }
      assert batch[0..] == batch;
      for k := 0 to |batch|
        invariant Staged(segment, store.name, pieces, chunks, batch[k..]) && |chunks| == |pieces|
        invariant pending == [] && pendingBytes == 0 && poisoned == old(poisoned)
      {
        Resolve(segment, store.name, pieces, chunks, batch[k..]);
        SlotIsOpen(segment, store.name, pieces, chunks, batch[k..]);
        assert batch[k..][1..] == batch[k + 1..];
        var c := batch[k];
        var reference := store.name(c.plaintext, c.span);
        NamedLength(store.name, c.plaintext, c.span);
        if reference.plaintextBytes != c.span.bytes {
          poisoned := true;
          return false;
        }
        chunks := chunks[c.slot := Some(reference)];
      }
      assert batch[|batch|..] == [];
      return true;
    }

    /** Stages one chunk: known to the store, refused by it, or queued. */
    method Stage(plaintext: seq<byte>) returns (r: StageResult)
      requires Sound() && Paced() && plaintext != [] && SpanFits(segment, total, |plaintext|)
      modifies this
      ensures r.Stored? ==> Sound() && Paced() && poisoned == old(poisoned) && pieces == old(pieces) + [plaintext]
      ensures r.NotStored? ==>
                && Sound() && poisoned && pieces == old(pieces)
                && (Honest(store.name) ==> After(store, pieces + [plaintext]).Refused?)
      ensures r.NotPut? ==>
                && Holed() && poisoned && pieces == old(pieces) + [plaintext]
                && (Honest(store.name) ==> After(store, pieces).PutFailed? && After(store, old(pieces)).Going?)
    {
      hide SegmentOk, PiecesFit, Staged, Honest, ChunkRefOk, Product, SpanAt, SpanFits, After, HasHole;
      var span := SpanAt(segment, total, |plaintext|);
      SpanLength(segment, total, |plaintext|);
      SizeStep(pieces, plaintext);
      AfterStep(store, pieces, plaintext);
      match store.answers(|chunks|) {
        case Broken =>
          poisoned := true;
          return NotStored;
        case Known =>
          var existing := store.name(plaintext, span);
          NamedLength(store.name, plaintext, span);
          if existing.plaintextBytes != |plaintext| {
            poisoned := true;
            return NotStored;
          }
          StageKnown(segment, store.name, pieces, chunks, pending, plaintext);
          total := total + |plaintext|;
          chunks := chunks + [Some(existing)];
          pieces := pieces + [plaintext];
          return Stored;
        case Fresh =>
          r := Queue(plaintext, span);
      }
    }

    /** Queues a new chunk for the next put, and puts when enough waits. */
    method Queue(plaintext: seq<byte>, span: Span) returns (r: StageResult)
      requires Sound() && Paced() && plaintext != [] && SpanFits(segment, total, |plaintext|)
      requires span == SpanAt(segment, total, |plaintext|) && store.answers(|chunks|).Fresh?
      modifies this
      ensures r.Stored? || r.NotPut?
      ensures pieces == old(pieces) + [plaintext]
      ensures r.Stored? ==> Sound() && Paced() && poisoned == old(poisoned)
      ensures r.NotPut? ==>
                && Holed() && poisoned
                && (Honest(store.name) ==> After(store, pieces).PutFailed? && After(store, old(pieces)).Going?)
    {
      hide SegmentOk, PiecesFit, Staged, Honest, ChunkRefOk, Product, SpanAt, SpanFits, After, HasHole;
      SizeStep(pieces, plaintext);
      AfterStep(store, pieces, plaintext);
      StageFresh(segment, store.name, pieces, chunks, pending, plaintext);
      total := total + |plaintext|;
      pendingBytes := pendingBytes + store.objectBytes(plaintext);
      pending := pending + [PendingChunk(|chunks|, plaintext, span)];
      chunks := chunks + [None];
      pieces := pieces + [plaintext];
      if pendingBytes >= CHUNK_PUT_BATCH_BYTES {
        var put := FlushPending();
        return if put then Stored else NotPut;
      }
      return Stored;
    }

    /** The references of all slots, if every slot has one. */
    method Collect() returns (refs: Option<seq<ChunkRef>>)
      ensures refs.None? <==> HasHole(chunks)
      ensures refs.Some? ==>
                |refs.value| == |chunks| && forall i :: 0 <= i < |chunks| ==> chunks[i] == Some(refs.value[i])
    {
      var found: seq<ChunkRef> := [];
      for i := 0 to |chunks|
        invariant |found| == i && forall j :: 0 <= j < i ==> chunks[j] == Some(found[j])
      {
        if chunks[i].None? {
          return None;
        }
        found := found + [chunks[i].value];
      }
      return Some(found);
    }
  }
}
