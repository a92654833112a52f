/** What an artifact writer sets aside against what its chunks come to. */
module ReservationBounds {
  import opened Machine
  import opened Consts
  import opened ChunkCodec
  import opened Chunking
  import opened ExportBuild
  import opened Staging
  import opened StateWriting

  // ---------------------------------------------------------------------
  // Chunks
  // ---------------------------------------------------------------------

  lemma {:induction false} FewTokens(bytesPerToken: nat, count: nat, most: nat)
    requires bytesPerToken > 0
    ensures Product(count, bytesPerToken) == 0 <==> count == 0
    ensures count < most ==> Product(count, bytesPerToken) < Product(most, bytesPerToken)
    ensures count >= most ==>
              Product(count, bytesPerToken) == Product(most, bytesPerToken) + Product(count - most, bytesPerToken)
  {
    AsProduct(count, bytesPerToken);
    AsProduct(most, bytesPerToken);
    if count < most {
      MulLess(count, most, bytesPerToken);
    } else {
      AsProduct(count - most, bytesPerToken);
    }
  }

  /** As many chunks as the tokens divided, rounded up. */
  lemma {:induction false} PieceCount(data: seq<byte>, count: nat, most: nat, bytesPerToken: nat)
    requires most > 0 && bytesPerToken > 0 && |data| == Product(count, bytesPerToken)
    ensures Product(most, bytesPerToken) > 0
    ensures |Pieces(data, Product(most, bytesPerToken))| == CeilDiv(count, most)
    decreases count
  {
    hide Product, CeilDiv, Pieces;
    var capacity := Product(most, bytesPerToken);
    FewTokens(bytesPerToken, most, most);
    FewTokens(bytesPerToken, count, most);
    CeilStep(count, most);
    PiecesStep(data, capacity);
    if count < most {
    } else {
      CeilStep(0, most);
      PieceCount(data[capacity..], count - most, most, bytesPerToken);
    }
  }

  /** A complete segment is cut into the very number of chunks set aside for. */
  lemma {:induction false} ChunksAsEstimated(g: Segment, data: seq<byte>)
    requires SegmentOk(g) && |data| == Required(g)
    ensures Capacity(g) > 0 && |Pieces(data, Capacity(g))| == ChunksOf(g)
  {
    hide Product, CeilDiv, MostTokens, Pieces;
    MostFits(g.bytesPerToken, 0);
    PieceCount(data, g.count, MostTokens(g.bytesPerToken), g.bytesPerToken);
  }

  // ---------------------------------------------------------------------
  // Objects
  // ---------------------------------------------------------------------

  /** A plaintext grows at worst by one byte in 128, a frame header, an
      authentication tag, an object header and the padding to alignment: less
      than the allowance. */
  lemma {:induction false} ObjectFits(codec: Codec, plaintext: seq<byte>, encrypt: bool, bytes: nat)
    requires InBounds(plaintext)
    requires bytes < CHUNK_HEADER_BYTES + |Frame(codec, plaintext)| + (if encrypt then 16 else 0) + ALIGNMENT
    ensures bytes <= |plaintext| + CHUNK_OVERHEAD
  {
    hide Packets;
    PacketSize(plaintext);
  }

  /** The objects of a state's chunks, as large as `ObjectBytes` makes them. */
  predicate ObjectsOf(codec: Codec, encrypt: bool, pieces: seq<seq<byte>>, bytes: seq<nat>) {
    && |bytes| == |pieces|
    && forall i :: 0 <= i < |pieces| ==>
         && InBounds(pieces[i])
         && bytes[i] < CHUNK_HEADER_BYTES + |Frame(codec, pieces[i])| + (if encrypt then 16 else 0) + ALIGNMENT
  }

  function Sum(bytes: seq<nat>): nat {
    if bytes == [] then 0 else Sum(bytes[..|bytes| - 1]) + bytes[|bytes| - 1]
  }

  lemma {:induction false} ObjectsFit(codec: Codec, encrypt: bool, pieces: seq<seq<byte>>, bytes: seq<nat>)
    requires ObjectsOf(codec, encrypt, pieces, bytes)
    ensures Sum(bytes) <= Size(pieces) + |pieces| * CHUNK_OVERHEAD
    decreases |pieces|
  {
    hide Frame, InBounds;
    if pieces == [] {
    } else {
      var n := |pieces| - 1;
      ObjectsFit(codec, encrypt, pieces[..n], bytes[..n]);
      ObjectFits(codec, pieces[n], encrypt, bytes[n]);
    }
  }

  lemma {:induction false} SegmentFits(g: Segment, data: seq<byte>, codec: Codec, encrypt: bool, bytes: seq<nat>)
    requires SegmentOk(g) && Capacity(g) > 0 && |data| == Required(g)
    requires ObjectsOf(codec, encrypt, Pieces(data, Capacity(g)), bytes)
    ensures |bytes| == ChunksOf(g) && Sum(bytes) <= Required(g) + ChunksOf(g) * CHUNK_OVERHEAD
  {
    hide Capacity, Required, ChunksOf, SegmentOk, FullPieces, Rest, Size;
    ObjectsFit(codec, encrypt, Pieces(data, Capacity(g)), bytes);
    ChunksAsEstimated(g, data);
    PiecesCover(data, Capacity(g));
    ClosedSize(FullPieces(data, Capacity(g)), Rest(data, Capacity(g)));
  }

  // ---------------------------------------------------------------------
  // Artifacts
  // ---------------------------------------------------------------------

  /** One state written out: its bytes, its codec, and what its objects take. */
  datatype Written = Written(data: seq<byte>, codec: Codec, bytes: seq<nat>)

  predicate WrittenAs(g: Segment, w: Written, encrypt: bool)
    requires SegmentOk(g)
  {
    && Capacity(g) > 0 && |w.data| == Required(g)
    && ObjectsOf(w.codec, encrypt, Pieces(w.data, Capacity(g)), w.bytes)
  }

  function ObjectTotal(states: seq<Written>): nat {
    if states == [] then 0 else ObjectTotal(states[..|states| - 1]) + Sum(states[|states| - 1].bytes)
  }

  function ObjectCount(states: seq<Written>): nat {
    if states == [] then 0 else ObjectCount(states[..|states| - 1]) + |states[|states| - 1].bytes|
  }

  lemma {:induction false} ArtifactFits(segments: seq<Segment>, states: seq<Written>, encrypt: bool)
    requires |states| == |segments| && forall i :: 0 <= i < |segments| ==> SegmentOk(segments[i])
    requires forall i :: 0 <= i < |segments| ==> WrittenAs(segments[i], states[i], encrypt)
    ensures ObjectCount(states) == ChunkSum(segments)
    ensures ObjectTotal(states) <= SegmentSum(segments) + ChunkSum(segments) * CHUNK_OVERHEAD
    decreases |segments|
  {
    hide Required, ChunksOf, Capacity, Pieces, ObjectsOf;
    if segments == [] {
    } else {
      var n := |segments| - 1;
      ArtifactFits(segments[..n], states[..n], encrypt);
      SegmentFits(segments[n], states[n].data, states[n].codec, encrypt, states[n].bytes);
    }
  }

  /** What was set aside pays for every object of a complete artifact, whatever
      its bytes, codecs and encryption, and leaves the manifest's allowances
      whole: base, states, and one reference per new or retained chunk. */
  lemma {:induction false} ReservationCovers(segments: seq<Segment>, retained: nat, states: seq<Written>, encrypt: bool)
    requires |states| == |segments| && forall i :: 0 <= i < |segments| ==> SegmentOk(segments[i])
    requires forall i :: 0 <= i < |segments| ==> WrittenAs(segments[i], states[i], encrypt)
    ensures ObjectTotal(states)
            + MANIFEST_BASE + |segments| * STATE_OVERHEAD + (ObjectCount(states) + retained) * REFERENCE_OVERHEAD
            <= Reservation(segments, retained)
  {
    hide ObjectTotal, ObjectCount, SegmentSum, ChunkSum;
    ArtifactFits(segments, states, encrypt);
  }
}
