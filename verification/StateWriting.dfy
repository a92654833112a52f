/** The chunking state writer and its batched, deduplicated puts. */
module StateWriting {
  import opened Machine
  import opened Consts
  import opened Symbols
  import opened Shapes
  import opened Families
  import opened CutManifests
  import opened Chunking
  import opened ExportBuild
  import opened Staging

  // ---------------------------------------------------------------------
  // The chunks of a byte stream
  // ---------------------------------------------------------------------

  /** The full chunks of a stream, and what is left over. */
  function FullPieces(data: seq<byte>, capacity: nat): seq<seq<byte>>
    requires capacity > 0
    decreases |data|
  {
    if |data| < capacity then [] else [data[..capacity]] + FullPieces(data[capacity..], capacity)
  }

  function Rest(data: seq<byte>, capacity: nat): (rest: seq<byte>)
    requires capacity > 0
    ensures |rest| < capacity
    decreases |data|
  {
    if |data| < capacity then data else Rest(data[capacity..], capacity)
  }

  function Pieces(data: seq<byte>, capacity: nat): seq<seq<byte>>
    requires capacity > 0
  {
    FullPieces(data, capacity) + if Rest(data, capacity) == [] then [] else [Rest(data, capacity)]
  }

  /** More bytes only ever extend the open chunk. */
  lemma {:induction false} PiecesGrow(data: seq<byte>, more: seq<byte>, capacity: nat)
    requires capacity > 0 && |Rest(data, capacity)| + |more| <= capacity
    ensures var open := Rest(data, capacity) + more;
            if |open| < capacity
            then FullPieces(data + more, capacity) == FullPieces(data, capacity) && Rest(data + more, capacity) == open
            else FullPieces(data + more, capacity) == FullPieces(data, capacity) + [open]
                 && Rest(data + more, capacity) == []
    decreases |data|
  {
    if |data| < capacity {
      var both := data + more;
      if |both| == capacity {
        assert both[..capacity] == both && both[capacity..] == [];
      }
    } else {
      assert (data + more)[..capacity] == data[..capacity];
      assert (data + more)[capacity..] == data[capacity..] + more;
      PiecesGrow(data[capacity..], more, capacity);
    }
  }

  lemma {:induction false} SizePrepend(p: seq<byte>, pieces: seq<seq<byte>>)
    ensures Size([p] + pieces) == |p| + Size(pieces)
    decreases |pieces|
  {
    if pieces == [] {
      assert [p] + pieces == [p] && [p][..0] == [];
    } else {
      var n := |pieces| - 1;
      SizePrepend(p, pieces[..n]);
      assert ([p] + pieces)[..n + 1] == [p] + pieces[..n];
    }
  }

  lemma {:induction false} PiecesCover(data: seq<byte>, capacity: nat)
    requires capacity > 0
    ensures |data| == Size(FullPieces(data, capacity)) + |Rest(data, capacity)|
    ensures forall i :: 0 <= i < |FullPieces(data, capacity)| ==> |FullPieces(data, capacity)[i]| == capacity
    decreases |data|
  {
    if |data| < capacity {
    } else {
      PiecesCover(data[capacity..], capacity);
      SizePrepend(data[..capacity], FullPieces(data[capacity..], capacity));
    }
  }

  // ---------------------------------------------------------------------
  // Capacity
  // ---------------------------------------------------------------------

  function Capacity(g: Segment): nat
    requires SegmentOk(g)
  {
    Product(MostTokens(g.bytesPerToken), g.bytesPerToken)
  }

  lemma {:induction false} CapacityBounds(g: Segment)
    requires SegmentOk(g)
    ensures 0 < Capacity(g) <= MAX_CHUNK_PLAINTEXT && MostTokens(g.bytesPerToken) > 0
    ensures Product(g.start, g.bytesPerToken) + Required(g) == Product(g.start + g.count, g.bytesPerToken)
  {
    hide Product, MostTokens;
    MostFits(g.bytesPerToken, 0);
    MostFits(g.bytesPerToken, MostTokens(g.bytesPerToken));
    SegmentBytes(g);
  }

  // ---------------------------------------------------------------------
  // Reservation
  // ---------------------------------------------------------------------

  const CHUNK_OVERHEAD := 12 * 4096
  const MANIFEST_BASE := 8192
  const STATE_OVERHEAD := 2048
  const REFERENCE_OVERHEAD := 192

  /** A segment the artifact writer made room for. */
  predicate Reserved(g: Segment) {
    SegmentOk(g) && Required(g) + MANIFEST_BASE < U64_LIMIT
  }

  function ChunksOf(g: Segment): nat
    requires SegmentOk(g)
  {
    MostFits(g.bytesPerToken, 0);
    CeilDiv(g.count, MostTokens(g.bytesPerToken))
  }

  function SegmentSum(segments: seq<Segment>): nat {
    if segments == [] then 0 else SegmentSum(segments[..|segments| - 1]) + Required(segments[|segments| - 1])
  }

  function ChunkSum(segments: seq<Segment>): nat
    requires forall i :: 0 <= i < |segments| ==> SegmentOk(segments[i])
  {
    if segments == [] then 0 else ChunkSum(segments[..|segments| - 1]) + ChunksOf(segments[|segments| - 1])
  }

  /** What an artifact may come to: its bytes, and an allowance for each chunk,
      each state and each reference. */
  function Reservation(segments: seq<Segment>, retained: nat): nat
    requires forall i :: 0 <= i < |segments| ==> SegmentOk(segments[i])
  {
    SegmentSum(segments) + ChunkSum(segments) * CHUNK_OVERHEAD
    + MANIFEST_BASE + |segments| * STATE_OVERHEAD + (ChunkSum(segments) + retained) * REFERENCE_OVERHEAD
  }

  lemma {:induction false} SumsGrow(segments: seq<Segment>, n: nat)
    requires n <= |segments| && forall i :: 0 <= i < |segments| ==> SegmentOk(segments[i])
    ensures SegmentSum(segments[..n]) <= SegmentSum(segments) && ChunkSum(segments[..n]) <= ChunkSum(segments)
    ensures n < |segments| ==>
              && SegmentSum(segments[..n + 1]) == SegmentSum(segments[..n]) + Required(segments[n])
              && ChunkSum(segments[..n + 1]) == ChunkSum(segments[..n]) + ChunksOf(segments[n])
    decreases |segments|
  {
    hide Required, ChunksOf;
    if n == |segments| {
      assert segments[..n] == segments;
    } else {
      var init := segments[..|segments| - 1];
      SumsGrow(init, n);
      assert init[..n] == segments[..n] && segments[..n + 1][..n] == segments[..n];
    }
  }

  lemma {:induction false} CeilBelow(n: nat, d: nat)
    requires d > 0
    ensures CeilDiv(n, d) <= n && (n == 0 ==> CeilDiv(n, d) == 0)
  {
    hide Quot, CeilDiv;
    CeilIsQuot(n, d);
    QuotBounds(n + d - 1, d);
    AtLeastOnce(n, d);
    if CeilDiv(n, d) > n {
      MulLess(n, CeilDiv(n, d), d);
    }
  }

  lemma {:induction false} AtLeastOnce(n: nat, d: nat)
    requires d > 0
    ensures n * d >= n
  {
    assert n * (d - 1) >= 0;
  }

  lemma {:induction false} PositiveProduct(a: nat, b: nat)
    requires a > 0 && b > 0
    ensures Product(a, b) > 0
  {
  }

  lemma {:induction false} CountFits(g: Segment)
    requires SegmentOk(g)
    ensures ChunksOf(g) <= g.count && (Required(g) == 0 ==> ChunksOf(g) == 0)
  {
    hide Product, MostTokens, CeilDiv;
    MostFits(g.bytesPerToken, 0);
    CeilBelow(g.count, MostTokens(g.bytesPerToken));
    if g.count > 0 {
      PositiveProduct(g.count, g.bytesPerToken);
    }
  }

  lemma {:induction false} NoBytesNoChunks(segments: seq<Segment>)
    requires forall i :: 0 <= i < |segments| ==> SegmentOk(segments[i])
    ensures SegmentSum(segments) == 0 ==> ChunkSum(segments) == 0
    decreases |segments|
  {
    hide Required, ChunksOf;
    if segments == [] {
    } else {
      NoBytesNoChunks(segments[..|segments| - 1]);
      CountFits(segments[|segments| - 1]);
    }
  }

  method SumBytes(segments: seq<Segment>) returns (r: Option<u64>)
    requires forall i :: 0 <= i < |segments| ==> SegmentOk(segments[i])
    ensures r.Some? <==> SegmentSum(segments) < U64_LIMIT
    ensures r.Some? ==> r.value == SegmentSum(segments)
    ensures r.Some? ==> forall i :: 0 <= i < |segments| ==> Required(segments[i]) <= r.value
  {
    hide Required, ChunksOf, SegmentOk, SegmentSum, ChunkSum;
    var bytes: u64 := 0;
    SumsNothing(segments);
    for i := 0 to |segments|
      invariant bytes == SegmentSum(segments[..i])
      invariant forall k :: 0 <= k < i ==> Required(segments[k]) <= bytes
    {
      SumsGrow(segments, i);
      SumsGrow(segments, i + 1);
      RequiredFits(segments[i]);
      var next := CheckedAdd(bytes, Required(segments[i]));
      if next.None? {
        return None;
      }
      bytes := next.value;
    }
    assert segments[..|segments|] == segments;
    return Some(bytes);
  }

  method SumChunks(segments: seq<Segment>) returns (r: Option<u64>)
    requires forall i :: 0 <= i < |segments| ==> SegmentOk(segments[i])
    ensures r.Some? <==> ChunkSum(segments) < U64_LIMIT
    ensures r.Some? ==> r.value == ChunkSum(segments)
  {
    hide Required, ChunksOf, SegmentOk, SegmentSum, ChunkSum;
    var chunks: u64 := 0;
    SumsNothing(segments);
    for i := 0 to |segments|
      invariant chunks == ChunkSum(segments[..i])
    {
      SumsGrow(segments, i);
      SumsGrow(segments, i + 1);
      RequiredFits(segments[i]);
      var next := CheckedAdd(chunks, ChunksOf(segments[i]));
      if next.None? {
        return None;
      }
      chunks := next.value;
    }
    assert segments[..|segments|] == segments;
    return Some(chunks);
  }

  /** The reservation is made exactly if the unbounded sum fits, and then every
      segment leaves room below the largest count. */
  method EstimateReservation(segments: seq<Segment>, retained: u64) returns (r: Option<u64>)
    requires forall i :: 0 <= i < |segments| ==> SegmentOk(segments[i])
    requires |segments| < 0x1_0000_0000 && retained < 0x1_0000_0000_0000
    ensures r.Some? <==> Reservation(segments, retained) < U64_LIMIT
    ensures r.Some? ==> r.value == Reservation(segments, retained)
    ensures r.Some? ==> forall i :: 0 <= i < |segments| ==> Reserved(segments[i])
  {
    hide Required, ChunksOf, SegmentOk, SegmentSum, ChunkSum, Reserved;
    var bytes := SumBytes(segments);
    if bytes.None? {
      return None;
    }
    var chunks := SumChunks(segments);
    if chunks.None? {
      return None;
    }
    var overhead: u64 := Min(chunks.value * CHUNK_OVERHEAD, U64_LIMIT - 1);
    var subtotal := CheckedAdd(bytes.value, overhead);
    if subtotal.None? {
      return None;
    }
    NoBytesNoChunks(segments);
    var rest: u64 :=
      MANIFEST_BASE + |segments| * STATE_OVERHEAD + SaturatingAdd(chunks.value, retained) * REFERENCE_OVERHEAD;
    r := CheckedAdd(subtotal.value, rest);
    if r.Some? {
      forall i | 0 <= i < |segments| ensures Reserved(segments[i]) {
        IsReserved(segments[i]);
      }
    }
  }

  lemma {:induction false} SumsNothing(segments: seq<Segment>)
    ensures SegmentSum(segments[..0]) == 0 && ChunkSum(segments[..0]) == 0
  {
  }

  lemma {:induction false} RequiredFits(g: Segment)
    requires SegmentOk(g)
    ensures Required(g) < U64_LIMIT && ChunksOf(g) < U64_LIMIT
  {
    hide Product, ChunksOf;
    CapacityBounds(g);
    CountFits(g);
  }

  lemma {:induction false} IsReserved(g: Segment)
    requires SegmentOk(g) && Required(g) + MANIFEST_BASE < U64_LIMIT
    ensures Reserved(g)
  {
  }

  // ---------------------------------------------------------------------
  // The writer
  // ---------------------------------------------------------------------

  datatype WriteResult = Wrote | NotWritable | TooLong | Failed(cause: StageResult)

  datatype FlushResult = Flushed | Split | FlushFailed(cause: StageResult)

  datatype FinishError = NotStaged | ShortState | Unresolved

  /** What a failed write left behind: nothing, a chunk taken out of the
      buffer and not stored, or slots whose put failed. */
  datatype Trouble = NoTrouble | Lost | Unput

  /** The bytes a write would bring the state to, as the code counts them. */
  function SaturatingSum(total: u64, open: u64, more: nat): u64 {
    var held := SaturatingAdd(total, open);
    if held + more < U64_LIMIT then held + more else U64_LIMIT - 1
  }

  /** A reserved segment ends below the point where the sum saturates. */
  lemma {:induction false} SaturationIsHarmless(g: Segment, total: u64, open: u64, more: nat)
    requires Reserved(g)
    ensures SaturatingSum(total, open, more) > Required(g) <==> total + open + more > Required(g)
  {
  }

  class StateWriter {
    const segment: Segment
    const stager: Stager
    var buffer: seq<byte>
    var finished: bool
    /** Everything taken in so far. */
    ghost var received: seq<byte>
    ghost var trouble: Trouble

    /** Nothing went wrong, though a write may have been too long. */
    ghost predicate Clean()
      reads this, stager
      requires SegmentOk(segment) && Capacity(segment) > 0
    {
      && stager.Sound() && stager.Paced()
      && stager.pieces == FullPieces(received, Capacity(segment)) && buffer == Rest(received, Capacity(segment))
    }

    /** A full chunk went missing between buffer and store. */
    ghost predicate Short()
      reads this, stager
      requires SegmentOk(segment) && Capacity(segment) > 0
    {
      && stager.Sound() && buffer == [] && stager.total < |received| && Rest(received, Capacity(segment)) == []
      && (Honest(stager.store.name) ==> After(stager.store, FullPieces(received, Capacity(segment))).Refused?)
    }

    /** The put after the last full chunk failed. */
    ghost predicate Stranded()
      reads this, stager
      requires SegmentOk(segment) && Capacity(segment) > 0
    {
      var pieces := stager.pieces;
      && stager.Holed() && buffer == [] && pieces != []
      && pieces == FullPieces(received, Capacity(segment)) && Rest(received, Capacity(segment)) == []
      && (Honest(stager.store.name) ==>
            After(stager.store, pieces).PutFailed? && After(stager.store, pieces[..|pieces| - 1]).Going?)
    }

    ghost predicate Valid()
      reads this, stager
    {
      && Reserved(segment) && Capacity(segment) > 0 && stager.segment == segment
      && (!finished ==>
            && |received| <= Required(segment) && (!trouble.NoTrouble? ==> stager.poisoned)
            && match trouble
               case NoTrouble => Clean()
               case Lost => Short()
               case Unput => Stranded())
    }

    constructor (segment: Segment, store: Store)
      requires Reserved(segment)
      ensures Valid() && fresh(stager) && !stager.poisoned && !finished && received == [] && trouble.NoTrouble?
      ensures this.segment == segment && stager.store == store
    {
      this.segment := segment;
      stager := new Stager(segment, store);
      buffer, finished, received, trouble := [], false, [], NoTrouble;
      new;
      hide Product;
      CapacityBounds(segment);
    }

    /** Closes the open chunk and stages it. */
    method Flush() returns (r: FlushResult)
      requires stager.segment == segment && SegmentOk(segment)
      requires buffer != [] ==> stager.Sound() && stager.Paced() && SpanFits(segment, stager.total, |buffer|)
      modifies this`buffer, stager
      ensures old(buffer) == [] ==> r.Flushed? && unchanged(this) && unchanged(stager)
      ensures r.Split? <==> old(buffer) != [] && |old(buffer)| % segment.bytesPerToken != 0
      ensures r.Flushed? && old(buffer) != [] ==>
                && stager.Sound() && stager.Paced() && stager.poisoned == old(stager.poisoned) && buffer == []
                && stager.pieces == old(stager.pieces) + [old(buffer)]
      ensures r.FlushFailed? ==> stager.poisoned && buffer == [] && !r.cause.Stored?
      ensures r == FlushFailed(NotStored) ==>
                && stager.Sound() && stager.pieces == old(stager.pieces)
                && (Honest(stager.store.name) ==> After(stager.store, stager.pieces + [old(buffer)]).Refused?)
      ensures r == FlushFailed(NotPut) ==>
                && stager.Holed() && stager.pieces == old(stager.pieces) + [old(buffer)]
                && (Honest(stager.store.name) ==>
                      After(stager.store, stager.pieces).PutFailed? && After(stager.store, old(stager.pieces)).Going?)
    {
      hide Honest, After, SpanFits, Stager.Sound, Stager.Paced, Stager.Holed;
      if buffer == [] {
        return Flushed;
      }
      if |buffer| % segment.bytesPerToken != 0 {
        stager.poisoned := true;
        return Split;
      }
      var plaintext := buffer;
      buffer := [];
      var stored := stager.Stage(plaintext);
      return if stored.Stored? then Flushed else FlushFailed(stored);
    }

    /** Appends to the open chunk and flushes it when it is full. */
    method Append(part: seq<byte>) returns (r: WriteResult)
      requires Valid() && !finished && !stager.poisoned && trouble.NoTrouble?
      requires |buffer| + |part| <= Capacity(segment) && |received| + |part| <= Required(segment)
      modifies this, stager
      ensures Valid() && !finished && received == old(received) + part
      ensures r.Wrote? || r == Failed(NotStored) || r == Failed(NotPut)
      ensures r.Wrote? ==> !stager.poisoned && trouble.NoTrouble?
      ensures r == Failed(NotStored) ==> trouble.Lost?
      ensures r == Failed(NotPut) ==> trouble.Unput?
    {
      hide SegmentOk, PiecesFit, Staged, Honest, Product, FullPieces, Rest, Capacity, Required, Size, After, HasHole;
      var capacity := Capacity(segment);
      CapacityBounds(segment);
      PiecesGrow(received, part, capacity);
      PiecesCover(received, capacity);
      buffer, received := buffer + part, received + part;
      if |buffer| < capacity {
        return Wrote;
      }
      WholeChunk(segment);
      PiecesCover(received, capacity);
      ghost var before := stager.pieces;
      var flushed := Flush();
      if flushed.Flushed? {
        return Wrote;
      }
      if flushed.cause.NotStored? {
        SizeStep(before, old(buffer) + part);
        trouble := Lost;
        return Failed(NotStored);
      }
      assert stager.pieces[..|stager.pieces| - 1] == before;
      assert stager.Holed() && stager.pieces == FullPieces(received, capacity) && stager.pieces != [];
      trouble := Unput;
      return Failed(NotPut);
    }

    method WriteAll(bytes: seq<byte>) returns (r: WriteResult)
      requires Valid()
      modifies this, stager
      ensures Valid() && finished == old(finished)
      ensures r.NotWritable? <==> old(finished) || old(stager.poisoned)
      ensures r.NotWritable? ==> unchanged(this) && unchanged(stager)
      ensures r.TooLong? <==> !old(finished) && !old(stager.poisoned) && |old(received)| + |bytes| > Required(segment)
      ensures r.TooLong? ==> stager.poisoned && trouble.NoTrouble? && received == old(received)
      ensures r.Wrote? ==> !stager.poisoned && trouble.NoTrouble? && received == old(received) + bytes
      ensures r.Failed? ==> received <= old(received) + bytes && (r.cause.NotStored? || r.cause.NotPut?)
      ensures r == Failed(NotStored) ==> trouble.Lost?
      ensures r == Failed(NotPut) ==> trouble.Unput?
      ensures Healthy(stager.store) ==> !r.Failed?
    {
      hide SegmentOk, Product, Capacity, Required, Healthy, PiecesFit, Staged, Honest, FullPieces, Rest, Size, After,
        StateWriter.Short, StateWriter.Stranded;
      if finished || stager.poisoned {
        return NotWritable;
      }
      CapacityBounds(segment);
      ReceivedSize(this);
      SaturationIsHarmless(segment, stager.total, |buffer|, |bytes|);
      if SaturatingSum(stager.total, |buffer|, |bytes|) > Required(segment) {
        stager.poisoned := true;
        return TooLong;
      }
      var rest := bytes;
      while rest != []
        invariant received + rest == old(received) + bytes && Valid() && trouble.NoTrouble?
        invariant !stager.poisoned && !finished && |received| + |rest| <= Required(segment)
        decreases |rest|
      {
        ReceivedSize(this);
        var take := Min(Capacity(segment) - |buffer|, |rest|);
        assert received + rest == (received + rest[..take]) + rest[take..];
        r := Append(rest[..take]);
        rest := rest[take..];
        if !r.Wrote? {
          Untroubled(this);
          return r;
        }
      }
      assert received + [] == received;
      return Wrote;
    }

    /** The references of the whole stream's chunks, however it was sliced.
        The poison flag is not consulted: what counts is what was staged. */
    method Finish() returns (r: Result<seq<ChunkRef>, FinishError>)
      requires Valid() && !finished
      modifies this, stager
      ensures SegmentOk(segment) && Capacity(segment) > 0
      ensures received == old(received) && trouble == old(trouble)
      ensures r.Ok? ==>
                && finished && trouble.NoTrouble? && |received| == Required(segment)
                && PiecesFit(segment, Pieces(received, Capacity(segment)))
                && r.value == Refs(segment, stager.store.name, Pieces(received, Capacity(segment)))
      ensures r == Err(Unresolved) <==> trouble.Unput? && |received| == Required(segment)
      ensures Honest(stager.store.name) ==>
                (r.Ok? <==>
                   |received| == Required(segment) && Completes(stager.store, Pieces(received, Capacity(segment))))
      ensures Healthy(stager.store) ==> (r.Ok? <==> |received| == Required(segment))
      ensures Honest(stager.store.name) && (forall n: nat :: stager.store.puts(n)) ==> r != Err(Unresolved)
    {
      hide SegmentOk, PiecesFit, Staged, Honest, Product, FullPieces, Rest, Capacity, Required, Size, Refs, After,
        SpanFits, Healthy, HasHole, Pieces, StateWriter.Short, StateWriter.Stranded;
      Closing(this);
      var flushed := Flush();
      if !flushed.Flushed? {
        return Err(NotStaged);
      }
      assert stager.pieces + [] == stager.pieces;
      var put := stager.FlushPending();
      if !put {
        return Err(NotStaged);
      }
      if stager.total != Required(segment) {
        stager.poisoned := true;
        return Err(ShortState);
      }
      var refs := stager.Collect();
      if refs.None? {
        if trouble.NoTrouble? {
          NothingWaits(segment, stager.store.name, stager.pieces, stager.chunks);
        }
        return Err(Unresolved);
      }
      NothingWaits(segment, stager.store.name, stager.pieces, stager.chunks);
      assert refs.value == Refs(segment, stager.store.name, stager.pieces);
      finished := true;
      return Ok(refs.value);
    }
  }

  /** What closing the writer has to work with, in each of its conditions. */
  lemma {:induction false} Closing(w: StateWriter)
    requires w.Valid() && !w.finished
    ensures var all := Pieces(w.received, Capacity(w.segment));
            && (w.trouble.NoTrouble? ==>
                  && SpanFits(w.segment, w.stager.total, |w.buffer|) && Size(all) == |w.received|
                  && all == w.stager.pieces + (if w.buffer == [] then [] else [w.buffer])
                  && (|w.received| == Required(w.segment) ==> |w.buffer| % w.segment.bytesPerToken == 0))
            && (!w.trouble.NoTrouble? ==>
                  w.buffer == [] && (Honest(w.stager.store.name) ==> !Completes(w.stager.store, all)))
            && (w.trouble.Lost? ==> w.stager.Sound() && w.stager.total < Required(w.segment))
            && (w.trouble.Unput? ==> w.stager.Holed() && w.stager.total == |w.received|)
            && (Healthy(w.stager.store) ==> Honest(w.stager.store.name) && Completes(w.stager.store, all))
            && (Honest(w.stager.store.name) && (forall n: nat :: w.stager.store.puts(n)) ==> !w.trouble.Unput?)
            && (Honest(w.stager.store.name) && !After(w.stager.store, all).Going? ==> !Completes(w.stager.store, all))
  {
    hide SegmentOk, PiecesFit, Staged, Honest, Product, FullPieces, Rest, Capacity, Required, Size, After,
      SpanFits, HasHole, Healthy;
    var capacity := Capacity(w.segment);
    var full, rest := FullPieces(w.received, capacity), Rest(w.received, capacity);
    PiecesCover(w.received, capacity);
    RestIsWhole(w.segment, w.received);
    RestFits(w.segment, w.received);
    ClosedSize(full, rest);
    assert full + [] == full;
    HealthyCompletes(w.stager.store, Pieces(w.received, capacity));
    if forall n: nat :: w.stager.store.puts(n) {
      PutsSucceed(w.stager.store, full);
    }
  }

  lemma {:induction false} ReceivedSize(w: StateWriter)
    requires w.Valid() && !w.finished && w.trouble.NoTrouble?
    ensures w.stager.total + |w.buffer| == |w.received| && |w.buffer| < Capacity(w.segment)
  {
    hide SegmentOk, PiecesFit, Staged, Honest, Product, FullPieces, Capacity, Required, Size, After;
    PiecesCover(w.received, Capacity(w.segment));
  }

  lemma {:induction false} ModProduct(q: nat, d: nat)
    requires d > 0
    ensures Product(q, d) % d == 0
    decreases q
  {
    hide Product;
    ProductStep(if q > 0 then q - 1 else 0, d);
    if q == 0 {
    } else {
      ModProduct(q - 1, d);
      ModAdd(Product(q - 1, d), d, d);
    }
  }

  lemma {:induction false} ModAdd(a: nat, b: nat, d: nat)
    requires d > 0 && a % d == 0 && b % d == 0
    ensures (a + b) % d == 0
  {
    var p, q := a / d, b / d;
    assert a == p * d && b == q * d;
    assert a + b == (p + q) * d;
    ModTimes(p + q, d);
  }

  lemma {:induction false} ModTimes(q: nat, d: nat)
    requires d > 0
    ensures (q * d) % d == 0
  {
    var n := q * d;
    MulLess(q, q + 1, d);
    QuotIs(n, d, q);
    Remainder(n, d);
  }

  lemma {:induction false} Remainder(n: nat, d: nat)
    requires d > 0
    ensures n == Quot(n, d) * d + n % d
  {
  }

  lemma {:induction false} ModRest(a: nat, b: nat, d: nat)
    requires d > 0 && a % d == 0 && (a + b) % d == 0
    ensures b % d == 0
  {
    var p, q := a / d, (a + b) / d;
    assert a == p * d && a + b == q * d;
    assert b == (q - p) * d;
    if q < p {
      MulLess(q, p, d);
    }
    ModTimes(q - p, d);
  }

  /** A full chunk is a whole number of tokens. */
  lemma {:induction false} WholeChunk(g: Segment)
    requires SegmentOk(g)
    ensures Capacity(g) % g.bytesPerToken == 0
  {
    hide Product;
    ModProduct(MostTokens(g.bytesPerToken), g.bytesPerToken);
  }

  lemma {:induction false} FullIsWhole(pieces: seq<seq<byte>>, capacity: nat, d: nat)
    requires d > 0 && capacity % d == 0 && forall i :: 0 <= i < |pieces| ==> |pieces[i]| == capacity
    ensures Size(pieces) % d == 0
    decreases |pieces|
  {
    if pieces == [] {
    } else {
      FullIsWhole(pieces[..|pieces| - 1], capacity, d);
      ModAdd(Size(pieces[..|pieces| - 1]), capacity, d);
    }
  }

  /** The last chunk of a complete segment is a whole number of tokens. */
  lemma {:induction false} RestIsWhole(g: Segment, data: seq<byte>)
    requires SegmentOk(g) && Capacity(g) > 0
    ensures |data| == Required(g) ==> |Rest(data, Capacity(g))| % g.bytesPerToken == 0
  {
    hide Product, FullPieces, Rest, Size, Capacity;
    PiecesCover(data, Capacity(g));
    WholeChunk(g);
    FullIsWhole(FullPieces(data, Capacity(g)), Capacity(g), g.bytesPerToken);
    if |data| == Required(g) {
      ModProduct(g.count, g.bytesPerToken);
      ModRest(Size(FullPieces(data, Capacity(g))), |Rest(data, Capacity(g))|, g.bytesPerToken);
    }
  }

  lemma {:induction false} RestFits(g: Segment, data: seq<byte>)
    requires SegmentOk(g) && Capacity(g) > 0 && |data| <= Required(g)
    ensures SpanFits(g, Size(FullPieces(data, Capacity(g))), |Rest(data, Capacity(g))|)
  {
    hide Product, FullPieces, Rest, Size, Capacity;
    PiecesCover(data, Capacity(g));
    CapacityBounds(g);
  }

  lemma {:induction false} ClosedSize(full: seq<seq<byte>>, rest: seq<byte>)
    ensures Size(full + if rest == [] then [] else [rest]) == Size(full) + |rest|
  {
    hide Size;
    if rest == [] {
      assert full + [] == full;
    } else {
      SizeStep(full, rest);
    }
  }

  // ---------------------------------------------------------------------
  // Whole states
  // ---------------------------------------------------------------------

  function Flatten(slices: seq<seq<byte>>): seq<byte> {
    if slices == [] then [] else Flatten(slices[..|slices| - 1]) + slices[|slices| - 1]
  }

  lemma {:induction false} FlattenStep(slices: seq<seq<byte>>, n: nat)
    requires n < |slices|
    ensures Flatten(slices[..n + 1]) == Flatten(slices[..n]) + slices[n]
    ensures |Flatten(slices[..n + 1])| <= |Flatten(slices)|
  {
    assert slices[..n + 1][..n] == slices[..n];
    FlattenGrows(slices, n + 1);
  }

  lemma {:induction false} FlattenGrows(slices: seq<seq<byte>>, n: nat)
    requires n <= |slices|
    ensures |Flatten(slices[..n])| <= |Flatten(slices)|
    decreases |slices|
  {
    if n < |slices| {
      FlattenGrows(slices[..|slices| - 1], n);
      assert slices[..|slices| - 1][..n] == slices[..n];
    } else {
      assert slices[..n] == slices;
    }
  }

  lemma {:induction false} FlattenOne(data: seq<byte>)
    ensures Flatten([]) == [] && Flatten([data]) == data
  {
    assert [data][..0] == [];
  }

  lemma {:induction false} FlattenLast(slices: seq<seq<byte>>, last: seq<byte>)
    ensures Flatten(slices + [last]) == Flatten(slices) + last
  {
    assert (slices + [last])[..|slices|] == slices;
  }

  lemma {:induction false} FlattenPrepend(p: seq<byte>, pieces: seq<seq<byte>>)
    ensures Flatten([p] + pieces) == p + Flatten(pieces)
    decreases |pieces|
  {
    hide Flatten;
    FlattenOne(p);
    if pieces == [] {
      assert [p] + pieces == [p];
    } else {
      var init, last := pieces[..|pieces| - 1], pieces[|pieces| - 1];
      FlattenPrepend(p, init);
      FlattenLast(init, last);
      FlattenLast([p] + init, last);
      assert init + [last] == pieces && ([p] + init) + [last] == [p] + pieces;
    }
  }

  lemma {:induction false} PiecesStep(data: seq<byte>, capacity: nat)
    requires capacity > 0
    ensures |data| < capacity ==> Pieces(data, capacity) == if data == [] then [] else [data]
    ensures |data| >= capacity ==>
              Pieces(data, capacity) == [data[..capacity]] + Pieces(data[capacity..], capacity)
  {
  }

  /** The chunks are the stream, cut: no byte is lost, repeated or moved. */
  lemma {:induction false} FlattenPieces(data: seq<byte>, capacity: nat)
    requires capacity > 0
    ensures Flatten(Pieces(data, capacity)) == data
    decreases |data|
  {
    hide Flatten, Pieces;
    PiecesStep(data, capacity);
    if |data| < capacity {
      FlattenOne(data);
    } else {
      FlattenPieces(data[capacity..], capacity);
      FlattenPrepend(data[..capacity], Pieces(data[capacity..], capacity));
    }
  }

  /** Writes one state in any slices, stopping at the first error. The
      references depend on the bytes alone. */
  method WriteState(g: Segment, store: Store, slices: seq<seq<byte>>) returns (r: Option<seq<ChunkRef>>)
    requires Reserved(g)
    ensures Capacity(g) > 0
    ensures r.Some? ==>
              && |Flatten(slices)| == Required(g) && PiecesFit(g, Pieces(Flatten(slices), Capacity(g)))
              && r.value == Refs(g, store.name, Pieces(Flatten(slices), Capacity(g)))
    ensures Healthy(store) ==> (r.Some? <==> |Flatten(slices)| == Required(g))
  {
    hide SegmentOk, PiecesFit, Product, Capacity, Required, Refs, Pieces, Flatten, Completes, StateWriter.Clean,
      StateWriter.Short, StateWriter.Stranded, Honest;
    CapacityBounds(g);
    var writer := new StateWriter(g, store);
    FlattenNothing(slices);
    for i := 0 to |slices|
      invariant writer.Valid() && !writer.finished && !writer.stager.poisoned && writer.trouble.NoTrouble?
      invariant writer.segment == g && writer.stager.store == store
      invariant writer.received == Flatten(slices[..i])
    {
      FlattenStep(slices, i);
      var wrote := writer.WriteAll(slices[i]);
      if !wrote.Wrote? {
        Untroubled(writer);
        return None;
      }
    }
    assert slices[..|slices|] == slices;
    HealthyCompletes(store, Pieces(Flatten(slices), Capacity(g)));
    var refs := writer.Finish();
    return if refs.Ok? then Some(refs.value) else None;
  }

  /** How many of the slices fit: a longer one is refused, with all after it. */
  function Kept(g: Segment, slices: seq<seq<byte>>): (k: nat)
    ensures k <= |slices|
  {
    if slices == [] || |Flatten(slices)| <= Required(g) then |slices| else Kept(g, slices[..|slices| - 1])
  }

  function KeptBytes(g: Segment, slices: seq<seq<byte>>): seq<byte> {
    Flatten(slices[..Kept(g, slices)])
  }

  lemma {:induction false} KeptStep(g: Segment, slices: seq<seq<byte>>, n: nat)
    requires n < |slices|
    ensures var before, after := slices[..n], slices[..n + 1];
            && Kept(g, before) <= Kept(g, after)
            && (Kept(g, before) < n ==> Kept(g, after) == Kept(g, before))
            && (Kept(g, before) == n ==> KeptBytes(g, before) == Flatten(before))
            && (Kept(g, before) == n ==>
                  Kept(g, after) == if |Flatten(before)| + |slices[n]| <= Required(g) then n + 1 else n)
            && Flatten(after) == Flatten(before) + slices[n]
            && KeptBytes(g, after) ==
               if Kept(g, after) == n + 1 then KeptBytes(g, before) + slices[n] else KeptBytes(g, before)
  {
    hide Flatten, Required;
    FlattenStep(slices, n);
    var before, after := slices[..n], slices[..n + 1];
    assert after[..n] == before && after[..n + 1] == after && before[..n] == before;
    KeptFits(g, before);
    if Kept(g, after) <= n {
      assert after[..Kept(g, after)] == before[..Kept(g, after)];
    }
  }

  /** Everything was kept exactly when everything fits. */
  lemma {:induction false} KeptFits(g: Segment, slices: seq<seq<byte>>)
    ensures Kept(g, slices) == |slices| <==> |Flatten(slices)| <= Required(g)
    ensures |KeptBytes(g, slices)| <= Required(g)
    decreases |slices|
  {
    if slices != [] && |Flatten(slices)| > Required(g) {
      var n := |slices| - 1;
      KeptFits(g, slices[..n]);
      assert slices[..n][..Kept(g, slices)] == slices[..Kept(g, slices)];
    } else {
      assert slices[..|slices|] == slices;
    }
  }

  /** The chunks of a complete segment, all but the last put accepted. */
  predicate LastPutFails(g: Segment, store: Store, data: seq<byte>)
    requires SegmentOk(g) && Capacity(g) > 0
  {
    var pieces := FullPieces(data, Capacity(g));
    && |data| == Required(g) && Rest(data, Capacity(g)) == [] && pieces != []
    && After(store, pieces[..|pieces| - 1]).Going? && After(store, pieces).PutFailed?
  }

  lemma {:induction false} WholePrefix(a: seq<byte>, b: seq<byte>, capacity: nat)
    requires capacity > 0 && a <= b && Rest(a, capacity) == []
    ensures FullPieces(a, capacity) <= FullPieces(b, capacity)
    ensures Rest(b, capacity) == [] && |a| < |b| ==> |FullPieces(a, capacity)| < |FullPieces(b, capacity)|
    decreases |a|
  {
    if |a| < capacity {
    } else {
      assert a[..capacity] == b[..capacity] && a[capacity..] <= b[capacity..];
      WholePrefix(a[capacity..], b[capacity..], capacity);
    }
  }

  /** A run of writes so far, whatever each of them returned. */
  ghost predicate Fed(w: StateWriter, slices: seq<seq<byte>>)
    reads w, w.stager
  {
    && w.Valid() && !w.finished
    && (w.trouble.NoTrouble? ==>
          w.received == KeptBytes(w.segment, slices) && (w.stager.poisoned <==> Kept(w.segment, slices) < |slices|))
    && (!w.trouble.NoTrouble? ==> w.received <= KeptBytes(w.segment, slices))
  }

  /** A writer in trouble can no longer complete the bytes it was given. */
  lemma {:induction false} TroubleStays(w: StateWriter, data: seq<byte>)
    requires w.Valid() && !w.finished && !w.trouble.NoTrouble? && Honest(w.stager.store.name)
    requires w.received <= data && |data| <= Required(w.segment)
    ensures !Completes(w.stager.store, Pieces(data, Capacity(w.segment)))
    ensures LastPutFails(w.segment, w.stager.store, data) <==>
              w.trouble.Unput? && |w.received| == Required(w.segment)
  {
    hide Honest, After, Staged, FullPieces, Rest, Size, Product, PiecesFit, SegmentOk, Capacity, Required;
    var capacity := Capacity(w.segment);
    var mine, all := FullPieces(w.received, capacity), FullPieces(data, capacity);
    WholePrefix(w.received, data, capacity);
    assert all[..|mine|] == mine && Pieces(data, capacity)[..|mine|] == mine;
    AfterPrefix(w.stager.store, Pieces(data, capacity), |mine|);
    AfterPrefix(w.stager.store, all, |mine|);
    if |mine| < |all| {
      assert all[..|all| - 1][..|mine|] == mine;
      AfterPrefix(w.stager.store, all[..|all| - 1], |mine|);
    } else {
      assert all == mine;
    }
    if |w.received| == |data| {
      assert w.received == data;
    }
  }

  lemma {:induction false} KeptNothing(g: Segment, slices: seq<seq<byte>>)
    ensures Kept(g, slices[..0]) == 0 && KeptBytes(g, slices[..0]) == []
  {
  }

  /** Without trouble every full chunk was staged, so no put has failed. */
  lemma {:induction false} CleanCompletes(w: StateWriter)
    requires w.Valid() && !w.finished && w.trouble.NoTrouble? && Honest(w.stager.store.name)
    ensures !LastPutFails(w.segment, w.stager.store, w.received)
  {
    hide Honest, After, Staged, FullPieces, Rest, Size, Product, PiecesFit, SegmentOk, Capacity, Required;
  }

  /** A caller that ignores every write error and finishes all the same. Over
      an honest store the outcome is decided by the slices that fit: success
      needs a complete segment whose chunks are all staged and put, and the
      not-resolved error is the failed put of the very last chunk. */
  method WriteRegardless(g: Segment, store: Store, slices: seq<seq<byte>>)
    returns (r: Result<seq<ChunkRef>, FinishError>)
    requires Reserved(g)
    ensures Capacity(g) > 0
    ensures Honest(store.name) ==>
              (r.Ok? <==>
                 && |KeptBytes(g, slices)| == Required(g)
                 && Completes(store, Pieces(KeptBytes(g, slices), Capacity(g))))
    ensures Honest(store.name) && r.Ok? ==>
              && PiecesFit(g, Pieces(KeptBytes(g, slices), Capacity(g)))
              && r.value == Refs(g, store.name, Pieces(KeptBytes(g, slices), Capacity(g)))
    ensures Honest(store.name) ==> (r == Err(Unresolved) <==> LastPutFails(g, store, KeptBytes(g, slices)))
  {
    hide SegmentOk, PiecesFit, Product, Capacity, Required, Refs, Pieces, Flatten, Completes, StateWriter.Clean,
      StateWriter.Short, StateWriter.Stranded, Honest, Kept, KeptBytes, LastPutFails;
    CapacityBounds(g);
    var writer := new StateWriter(g, store);
    KeptNothing(g, slices);
    for i := 0 to |slices|
      invariant Fed(writer, slices[..i]) && writer.segment == g && writer.stager.store == store
    {
      KeptStep(g, slices, i);
      KeptFits(g, slices[..i]);
      KeptFits(g, slices[..i + 1]);
      var ignored := writer.WriteAll(slices[i]);
    }
    assert slices[..|slices|] == slices;
    KeptFits(g, slices);
    if Honest(store.name) {
      if writer.trouble.NoTrouble? {
        CleanCompletes(writer);
      } else {
        TroubleStays(writer, KeptBytes(g, slices));
      }
    }
    r := writer.Finish();
  }

  lemma {:induction false} KeptFirst(g: Segment, data: seq<byte>, extra: seq<byte>)
    requires |data| == Required(g)
    ensures KeptBytes(g, [data]) == data
    ensures extra != [] ==> KeptBytes(g, [data, extra]) == data
  {
    hide Required;
    var slices := [data, extra];
    assert slices[..1] == [data] && [data][..0] == [] && [data][..1] == [data];
    assert Flatten([data]) == data && Flatten(slices) == data + extra;
  }

  /** One byte too many spoils the write that brings it, not the state: the
      writer is poisoned and finishes all the same. */
  method FinishAfterOverlong(g: Segment, store: Store, data: seq<byte>, extra: seq<byte>)
    returns (r: Result<seq<ChunkRef>, FinishError>)
    requires Reserved(g) && Healthy(store) && |data| == Required(g) && extra != []
    ensures Capacity(g) > 0 && PiecesFit(g, Pieces(data, Capacity(g)))
    ensures r == Ok(Refs(g, store.name, Pieces(data, Capacity(g))))
  {
    hide SegmentOk, PiecesFit, Product, Capacity, Required, Refs, Pieces, Completes, Honest, Healthy, LastPutFails,
      Kept, KeptBytes;
    CapacityBounds(g);
    KeptFirst(g, data, extra);
    HealthyCompletes(store, Pieces(data, Capacity(g)));
    r := WriteRegardless(g, store, [data, extra]);
  }

  // ---------------------------------------------------------------------
  // The put that fails last
  // ---------------------------------------------------------------------

  const SIXTEEN := Segment(0, 16, MAX_CHUNK_PLAINTEXT)

  /** Names every chunk, knows none, and fails every put. */
  const OFFLINE := Store(
    (p: seq<byte>, s: Span) => ChunkRef(GivenId(0), GivenId(0), GivenId(0), 1, s.bytes, 2 * ALIGNMENT),
    (n: nat) => Fresh,
    (n: nat) => false,
    (p: seq<byte>) => |p| + 2 * ALIGNMENT)

  lemma {:induction false} Uniform(store: Store, pieces: seq<seq<byte>>, size: nat)
    requires forall n: nat :: store.answers(n).Fresh?
    requires forall i :: 0 <= i < |pieces| ==> store.objectBytes(pieces[i]) == size
    requires Product(|pieces|, size) < CHUNK_PUT_BATCH_BYTES
    ensures After(store, pieces) == Going(Product(|pieces|, size), pieces != [])
    decreases |pieces|
  {
    hide Product;
    if pieces == [] {
      ProductStep(0, size);
    } else {
      var n := |pieces| - 1;
      ProductStep(n, size);
      Uniform(store, pieces[..n], size);
    }
  }

  /** Sixteen full chunks wait for one put, which fails. */
  lemma {:induction false} SixteenStrand(data: seq<byte>)
    requires SegmentOk(SIXTEEN) && Capacity(SIXTEEN) == MAX_CHUNK_PLAINTEXT
    requires |data| == Required(SIXTEEN) == 16 * MAX_CHUNK_PLAINTEXT
    ensures LastPutFails(SIXTEEN, OFFLINE, data)
  {
    hide Product, Capacity, Required, FullPieces, Rest, Size, After;
    var pieces := FullPieces(data, MAX_CHUNK_PLAINTEXT);
    var size := MAX_CHUNK_PLAINTEXT + 2 * ALIGNMENT;
    PiecesCover(data, MAX_CHUNK_PLAINTEXT);
    Alike(pieces, MAX_CHUNK_PLAINTEXT);
    AsProduct(|pieces|, MAX_CHUNK_PLAINTEXT);
    AsProduct(16, MAX_CHUNK_PLAINTEXT);
    AsProduct(15, size);
    assert |pieces| == 16 && Rest(data, MAX_CHUNK_PLAINTEXT) == [];
    Uniform(OFFLINE, pieces[..15], size);
    AfterStep(OFFLINE, pieces[..15], pieces[15]);
    assert pieces[..15] + [pieces[15]] == pieces;
  }

  lemma {:induction false} Alike(pieces: seq<seq<byte>>, length: nat)
    requires forall i :: 0 <= i < |pieces| ==> |pieces[i]| == length
    ensures Size(pieces) == Product(|pieces|, length)
    decreases |pieces|
  {
    hide Product;
    if pieces == [] {
      ProductStep(0, length);
    } else {
      Alike(pieces[..|pieces| - 1], length);
      ProductStep(|pieces| - 1, length);
    }
  }

  lemma {:induction false} SixteenOk()
    ensures Reserved(SIXTEEN) && Capacity(SIXTEEN) == MAX_CHUNK_PLAINTEXT
    ensures Required(SIXTEEN) == 16 * MAX_CHUNK_PLAINTEXT && Honest(OFFLINE.name)
  {
  }

  /** The not-resolved error does occur. */
  method UnresolvedHappens() returns (r: Result<seq<ChunkRef>, FinishError>)
    ensures r == Err(Unresolved)
  {
    hide Product, Capacity, Required, SegmentOk, Honest, LastPutFails, Repeat, Completes, KeptBytes;
    SixteenOk();
    var data: seq<byte> := Repeat(0, 16 * MAX_CHUNK_PLAINTEXT);
    SixteenStrand(data);
    KeptFirst(SIXTEEN, data, []);
    r := WriteRegardless(SIXTEEN, OFFLINE, [data]);
  }

  /** A working store never gets a writer into trouble. */
  lemma {:induction false} Untroubled(w: StateWriter)
    requires w.Valid() && !w.finished
    ensures Healthy(w.stager.store) ==> w.trouble.NoTrouble?
  {
    hide Honest, After, Staged, FullPieces, Rest, Size, Product, PiecesFit;
    if Healthy(w.stager.store) {
      PutsSucceed(w.stager.store, FullPieces(w.received, Capacity(w.segment)));
    }
  }

  lemma {:induction false} FlattenNothing(slices: seq<seq<byte>>)
    ensures Flatten(slices[..0]) == []
  {
  }

  // ---------------------------------------------------------------------
  // Spans
  // ---------------------------------------------------------------------

  lemma {:induction false} SpansAppend(
      spans: seq<Span>, refs: seq<ChunkRef>, token: nat, mid: nat, bytesPerToken: nat, s: Span, c: ChunkRef)
    requires |spans| == |refs| && SpansOk(spans, refs, token, mid, bytesPerToken)
    requires SpanOk(s, mid, bytesPerToken) && ChunkRefOk(c, s)
    ensures SpansOk(spans + [s], refs + [c], token, mid + s.tokenCount, bytesPerToken)
    decreases |spans|
  {
    hide SpanOk, ChunkRefOk;
    if spans == [] {
      assert [s][1..] == [] && [c][1..] == [];
      assert spans + [s] == [s] && refs + [c] == [c];
    } else {
      SpansAppend(spans[1..], refs[1..], token + spans[0].tokenCount, mid, bytesPerToken, s, c);
      assert (spans + [s])[1..] == spans[1..] + [s] && (refs + [c])[1..] == refs[1..] + [c];
    }
  }

  /** The spans of the schema, rebuilt from the references alone. */
  method DeriveSpans(g: Segment, refs: seq<ChunkRef>, ghost name: Naming, ghost pieces: seq<seq<byte>>)
    returns (spans: seq<Span>)
    requires SegmentOk(g) && PiecesFit(g, pieces) && Honest(name) && refs == Refs(g, name, pieces)
    requires forall i :: 0 <= i < |pieces| ==> |pieces[i]| % g.bytesPerToken == 0
    requires Size(pieces) == Required(g)
    ensures |spans| == |refs|
    ensures SpansOk(spans, refs, g.start, g.start + g.count, g.bytesPerToken)
  {
    hide Product, Size, Refs, Honest, ChunkRefOk, SpanAt, SpansOk;
    var token: nat, offset: nat := g.start, Product(g.start, g.bytesPerToken);
    spans := [];
    NoSpans(g.start, g.bytesPerToken);
    assert pieces[..0] == [];
    for i := 0 to |refs|
      invariant |spans| == i && SpansOk(spans, refs[..i], g.start, token, g.bytesPerToken)
      invariant offset == Product(token, g.bytesPerToken) == Product(g.start, g.bytesPerToken) + Size(pieces[..i])
    {
      var bytes := refs[i].plaintextBytes;
      PieceSpan(g, name, pieces, i, token);
      var count := Quot(bytes, g.bytesPerToken);
      var span := Span(token, count, offset, bytes);
      SpansAppend(spans, refs[..i], g.start, token, g.bytesPerToken, span, refs[i]);
      assert refs[..i] + [refs[i]] == refs[..i + 1];
      spans := spans + [span];
      token := token + count;
      offset := offset + bytes;
    }
    assert refs[..|refs|] == refs && pieces[..|refs|] == pieces;
    CapacityBounds(g);
    SameToken(g, token);
  }

  lemma {:induction false} NoSpans(token: nat, bytesPerToken: nat)
    ensures SpansOk([], [], token, token, bytesPerToken) && Size([]) == 0
  {
  }

  lemma {:induction false} SameToken(g: Segment, token: nat)
    requires SegmentOk(g) && Product(token, g.bytesPerToken) == Product(g.start + g.count, g.bytesPerToken)
    ensures token == g.start + g.count
  {
    var end := g.start + g.count;
    AsProduct(token, g.bytesPerToken);
    AsProduct(end, g.bytesPerToken);
    hide Product;
    if token < end {
      MulLess(token, end, g.bytesPerToken);
    } else if end < token {
      MulLess(end, token, g.bytesPerToken);
    }
  }

  /** One stored chunk, read back. */
  lemma {:induction false} PieceSpan(g: Segment, name: Naming, pieces: seq<seq<byte>>, i: nat, token: nat)
    requires SegmentOk(g) && PiecesFit(g, pieces) && Honest(name) && i < |pieces|
    requires |pieces[i]| % g.bytesPerToken == 0 && Size(pieces) <= Required(g)
    requires Product(token, g.bytesPerToken) == Product(g.start, g.bytesPerToken) + Size(pieces[..i])
    ensures var c := Refs(g, name, pieces)[i];
            var count := Quot(c.plaintextBytes, g.bytesPerToken);
            && c.plaintextBytes == |pieces[i]| && Size(pieces[..i + 1]) == Size(pieces[..i]) + |pieces[i]|
            && token < U64_LIMIT && count < U64_LIMIT && Product(token, g.bytesPerToken) < U64_LIMIT
            && SpanOk(Span(token, count, Product(token, g.bytesPerToken), c.plaintextBytes), token, g.bytesPerToken)
            && ChunkRefOk(c, Span(token, count, Product(token, g.bytesPerToken), c.plaintextBytes))
            && Product(token + count, g.bytesPerToken) == Product(token, g.bytesPerToken) + c.plaintextBytes
  {
    hide Product, Size, Honest, ChunkRefOk, Refs, Quot;
    var p, bytes := pieces[i], g.bytesPerToken;
    RefAt(g, name, pieces, i);
    SizeStep(pieces[..i], p);
    assert pieces[..i] + [p] == pieces[..i + 1];
    SizePart(pieces, i + 1);
    var span := SpanAt(g, Size(pieces[..i]), |p|);
    SpanLength(g, Size(pieces[..i]), |p|);
    HonestRef(name, p, span);
    CapacityBounds(g);
    var count := Quot(|p|, bytes);
    QuotBounds(|p|, bytes);
    AsProduct(count, bytes);
    ProductMonotone(bytes, token, token);
    ProductMonotone(bytes, count, count);
    ProductDistributes(bytes, token, count);
    ProductAssoc(bytes, token, 1);
    ProductAssoc(bytes, count, 1);
    ProductAssoc(bytes, token + count, 1);
    SameLength(name(p, span), span, Span(token, count, Product(token, bytes), |p|));
    PositiveCount(count, bytes, |p|);
  }

  lemma {:induction false} PositiveCount(count: nat, bytes: nat, length: nat)
    requires length > 0 && Product(count, bytes) == length
    ensures count > 0
  {
  }

  lemma {:induction false} SameLength(c: ChunkRef, s: Span, t: Span)
    requires ChunkRefOk(c, s) && s.bytes == t.bytes
    ensures ChunkRefOk(c, t) && c.plaintextBytes == s.bytes
  {
  }

  /** The chunks of a complete segment are whole tokens and add up to it. */
  lemma {:induction false} PiecesAreWhole(g: Segment, data: seq<byte>)
    requires SegmentOk(g) && |data| == Required(g)
    ensures Capacity(g) > 0 && Size(Pieces(data, Capacity(g))) == Required(g)
    ensures forall i :: 0 <= i < |Pieces(data, Capacity(g))| ==>
              |Pieces(data, Capacity(g))[i]| % g.bytesPerToken == 0
  {
    hide Product, FullPieces, Rest, Size, Capacity, Required;
    CapacityBounds(g);
    PiecesCover(data, Capacity(g));
    WholeChunk(g);
    RestIsWhole(g, data);
    ClosedSize(FullPieces(data, Capacity(g)), Rest(data, Capacity(g)));
  }

  /** A written state and its schema: the spans a reader is given are a
      contiguous token and byte partition of the segment. */
  method WriteAndDescribe(g: Segment, store: Store, slices: seq<seq<byte>>)
    returns (r: Option<(seq<ChunkRef>, seq<Span>)>)
    requires Reserved(g) && Honest(store.name)
    ensures r.Some? ==>
              |r.value.0| == |r.value.1| && SpansOk(r.value.1, r.value.0, g.start, g.start + g.count, g.bytesPerToken)
    ensures Healthy(store) ==> (r.Some? <==> |Flatten(slices)| == Required(g))
  {
    hide Product, FullPieces, Rest, Size, Capacity, Required, Refs, PiecesFit, Honest, Healthy, SpansOk, Flatten,
      SegmentOk;
    var refs := WriteState(g, store, slices);
    if refs.None? {
      return None;
    }
    PiecesAreWhole(g, Flatten(slices));
    TokenIsPositive(g);
    var spans := DeriveSpans(g, refs.value, store.name, Pieces(Flatten(slices), Capacity(g)));
    return Some((refs.value, spans));
  }
}
