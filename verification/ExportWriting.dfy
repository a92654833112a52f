/** The export's state writer: it cuts each state at the planned chunks, which
    is what the manifests of the export rely on. */
module ExportWriting {
  import opened Machine
  import opened Consts
  import opened Symbols
  import opened Shapes
  import opened Families
  import opened CutManifests
  import opened Chunking
  import opened ExportPlan
  import opened ExportBuild
  import opened Staging
  import opened ExportChain
  import StateWriting

  // ---------------------------------------------------------------------
  // Chunks cut as planned
  // ---------------------------------------------------------------------

  /** One state of an export: its tokens and their size. The token list is in
      memory, so its length leaves room for one more checkpoint. */
  datatype Source = Source(final: u64, bytesPerToken: u64)

  predicate SourceOk(s: Source) {
    && 0 < s.bytesPerToken <= MAX_CHUNK_PLAINTEXT && s.final <= U64_LIMIT - BLOCK
    && Product(s.final, s.bytesPerToken) < U64_LIMIT
  }

  const SCRATCH_BYTES: nat := 64 * 1024

  function SegmentOf(s: Source): Segment {
    Segment(0, s.final, s.bytesPerToken)
  }

  function Expected(s: Source): nat {
    Product(s.final, s.bytesPerToken)
  }

  function Plan(s: Source): seq<Run>
    requires SourceOk(s)
  {
    MostFits(s.bytesPerToken, 0);
    Runs(0, s.final, MostTokens(s.bytesPerToken))
  }

  /** The token runs of a list of chunks. */
  function RunsOf(pieces: seq<seq<byte>>, bytesPerToken: nat): (runs: seq<Run>)
    requires bytesPerToken > 0
    ensures |runs| == |pieces|
  {
    if pieces == [] then []
    else
      var n := |pieces| - 1;
      RunsOf(pieces[..n], bytesPerToken)
      + [Run(Quot(Size(pieces[..n]), bytesPerToken), Quot(|pieces[n]|, bytesPerToken))]
  }

  lemma {:induction false} RunsOfStep(pieces: seq<seq<byte>>, p: seq<byte>, bytesPerToken: nat)
    requires bytesPerToken > 0
    ensures RunsOf(pieces + [p], bytesPerToken) ==
            RunsOf(pieces, bytesPerToken) + [Run(Quot(Size(pieces), bytesPerToken), Quot(|p|, bytesPerToken))]
  {
    hide Quot, Size;
    assert (pieces + [p])[..|pieces|] == pieces;
  }

  /** The chunks so far are the first of the plan. */
  ghost predicate Planned(s: Source, pieces: seq<seq<byte>>, start: nat) {
    && SourceOk(s) && SegmentOk(SegmentOf(s)) && PiecesFit(SegmentOf(s), pieces)
    && start <= s.final && Size(pieces) == Product(start, s.bytesPerToken)
    && MostTokens(s.bytesPerToken) > 0
    && Plan(s) == RunsOf(pieces, s.bytesPerToken) + Runs(start, s.final, MostTokens(s.bytesPerToken))
  }

  /** Size of the chunk that starts at token `start`. */
  function Target(s: Source, start: nat): nat
    requires SourceOk(s) && start < s.final
  {
    MostFits(s.bytesPerToken, 0);
    Product(NextTokens(start, s.final, MostTokens(s.bytesPerToken)), s.bytesPerToken)
  }

  lemma {:induction false} QuotProduct(n: nat, d: nat)
    requires d > 0
    ensures Quot(Product(n, d), d) == n && Product(n, d) % d == 0
  {
    AsProduct(n, d);
    MulLess(n, n + 1, d);
    hide Product, Quot;
    QuotIs(Product(n, d), d, n);
    StateWriting.ModProduct(n, d);
  }

  /** What the next planned chunk is like. */
  lemma {:induction false} TargetFits(s: Source, start: nat)
    requires SourceOk(s) && start < s.final
    ensures BlockEnd(start) < U64_LIMIT
    ensures 0 < Target(s, start) <= MAX_CHUNK_PLAINTEXT && Target(s, start) % s.bytesPerToken == 0
    ensures var n := Quot(Target(s, start), s.bytesPerToken);
            && n == NextTokens(start, s.final, MostTokens(s.bytesPerToken)) && WithinBlock(Run(start, n))
            && start + n <= s.final
            && Product(start, s.bytesPerToken) + Target(s, start) == Product(start + n, s.bytesPerToken)
    ensures Product(start, s.bytesPerToken) + Target(s, start) <= Expected(s)
  {
    hide Product, Quot, Runs, BlockEnd, NextTokens, WithinBlock, MostTokens;
    var b := s.bytesPerToken;
    MostFits(b, 0);
    var most := MostTokens(b);
    NextChunkFits(start, s.final, b, most);
    FirstRun(start, s.final, most);
    RunsFirst(start, s.final, most);
    var n := NextTokens(start, s.final, most);
    MostFits(b, n);
    QuotProduct(n, b);
    ProductDistributes(b, start, n);
    ProductAssoc(b, start, 1);
    ProductAssoc(b, n, 1);
    ProductAssoc(b, start + n, 1);
    ProductMonotone(b, start + n, s.final);
  }

  lemma {:induction false} PlannedStep(s: Source, pieces: seq<seq<byte>>, start: nat, p: seq<byte>)
    requires Planned(s, pieces, start) && start < s.final && |p| == Target(s, start)
    ensures SpanFits(SegmentOf(s), Size(pieces), |p|)
    ensures Planned(s, pieces + [p], start + Quot(|p|, s.bytesPerToken))
  {
    hide Product, Quot, Runs, MostTokens, Target, BlockEnd, NextTokens, WithinBlock;
    var b, most := s.bytesPerToken, MostTokens(s.bytesPerToken);
    TargetFits(s, start);
    SizeStep(pieces, p);
    RunsOfStep(pieces, p, b);
    QuotProduct(start, b);
    RunsFirst(start, s.final, most);
    var n := Quot(|p|, b);
    assert RunsOf(pieces, b) + ([Run(start, n)] + Runs(start + n, s.final, most))
        == (RunsOf(pieces, b) + [Run(start, n)]) + Runs(start + n, s.final, most);
  }

  lemma {:induction false} PlannedStart(s: Source)
    requires SourceOk(s)
    ensures Planned(s, [], 0)
  {
    MostFits(s.bytesPerToken, 0);
    hide MostTokens, Runs;
    ProductStep(0, s.bytesPerToken);
    assert [] + Plan(s) == Plan(s);
  }

  lemma {:induction false} PlannedEnd(s: Source, pieces: seq<seq<byte>>, start: nat)
    requires Planned(s, pieces, start)
    ensures Size(pieces) == Expected(s) <==> start == s.final
    ensures start == s.final ==> RunsOf(pieces, s.bytesPerToken) == Plan(s)
    ensures |RunsOf(pieces, s.bytesPerToken)| <= |Plan(s)| == ChunksAtCut(s.final, MostTokens(s.bytesPerToken))
  {
    hide Product, Runs, MostTokens, RunsOf, ChunksAtCut;
    NoRuns(s.final, MostTokens(s.bytesPerToken));
    RunsCount(s.final, MostTokens(s.bytesPerToken));
    assert RunsOf(pieces, s.bytesPerToken) + [] == RunsOf(pieces, s.bytesPerToken);
    if start < s.final {
      AsProduct(start, s.bytesPerToken);
      AsProduct(s.final, s.bytesPerToken);
      MulLess(start, s.final, s.bytesPerToken);
    }
  }

  /** The planned chunks that bytes from a token on fill, what is left over, and
      the token reached. */
  datatype Cutting = Cutting(pieces: seq<seq<byte>>, open: seq<byte>, end: nat)

  function CutFrom(s: Source, data: seq<byte>, start: nat): (cut: Cutting)
    requires SourceOk(s) && start <= s.final
    ensures cut.end <= s.final
    decreases s.final - start
  {
    if start == s.final || |data| < Target(s, start) then Cutting([], data, start)
    else
      TargetFits(s, start);
      var target := Target(s, start);
      var rest := CutFrom(s, data[target..], start + Tokens(s, start));
      Cutting([data[..target]] + rest.pieces, rest.open, rest.end)
  }

  /** Tokens of the chunk that starts at token `start`. */
  function Tokens(s: Source, start: nat): (n: nat)
    requires SourceOk(s) && start < s.final
    ensures 0 < n && start + n <= s.final
  {
    TargetFits(s, start);
    TokensArePositive(s, start);
    Quot(Target(s, start), s.bytesPerToken)
  }

  lemma {:induction false} TokensArePositive(s: Source, start: nat)
    requires SourceOk(s) && start < s.final
    ensures Quot(Target(s, start), s.bytesPerToken) > 0
  {
    hide Target, Quot, Product;
    TargetFits(s, start);
  }

  function Cut(s: Source, data: seq<byte>): Cutting
    requires SourceOk(s)
  {
    CutFrom(s, data, 0)
  }

  /** One chunk more. */
  lemma {:induction false} CutFirst(s: Source, data: seq<byte>, start: nat)
    requires SourceOk(s) && start < s.final && |data| >= Target(s, start)
    ensures var rest := CutFrom(s, data[Target(s, start)..], start + Tokens(s, start));
            CutFrom(s, data, start) == Cutting([data[..Target(s, start)]] + rest.pieces, rest.open, rest.end)
  {
    hide Target, Tokens;
  }

  /** Bytes that fill the open chunk close it. */
  lemma {:induction false} CutCloses(s: Source, data: seq<byte>, start: nat)
    requires SourceOk(s) && start < s.final && |data| == Target(s, start)
    ensures CutFrom(s, data, start) == Cutting([data], [], start + Tokens(s, start))
  {
    hide Target, Tokens, CutFrom;
    CutFirst(s, data, start);
    NothingCut(s, start + Tokens(s, start));
    assert data[..Target(s, start)] == data && data[Target(s, start)..] == [];
    assert [data] + [] == [data];
  }

  lemma {:induction false} CutOpen(s: Source, data: seq<byte>, start: nat)
    requires SourceOk(s) && start <= s.final && (start == s.final || |data| < Target(s, start))
    ensures CutFrom(s, data, start) == Cutting([], data, start)
  {
    hide Target;
  }

  /** More bytes only ever extend or close the open chunk. */
  lemma {:induction false} CutGrows(s: Source, data: seq<byte>, more: seq<byte>, start: nat)
    requires SourceOk(s) && start <= s.final
    requires var cut := CutFrom(s, data, start);
             cut.end < s.final && |cut.open| + |more| <= Target(s, cut.end)
    ensures var cut, open := CutFrom(s, data, start), CutFrom(s, data, start).open + more;
            CutFrom(s, data + more, start) ==
              if |open| < Target(s, cut.end) then Cutting(cut.pieces, open, cut.end)
              else Cutting(cut.pieces + [open], [], cut.end + Tokens(s, cut.end))
    decreases s.final - start
  {
    hide Target, Tokens, CutFrom, SourceOk;
    if start == s.final || |data| < Target(s, start) {
      CutOpen(s, data, start);
      if |data + more| < Target(s, start) {
        CutOpen(s, data + more, start);
      } else {
        CutCloses(s, data + more, start);
        assert [] + [data + more] == [data + more];
      }
    } else {
      var target := Target(s, start);
      var rest := CutFrom(s, data[target..], start + Tokens(s, start));
      CutFirst(s, data, start);
      CutFirst(s, data + more, start);
      assert (data + more)[..target] == data[..target];
      assert (data + more)[target..] == data[target..] + more;
      CutGrows(s, data[target..], more, start + Tokens(s, start));
      assert [data[..target]] + (rest.pieces + [rest.open + more])
          == [data[..target]] + rest.pieces + [rest.open + more];
    }
  }

  lemma {:induction false} NothingCut(s: Source, start: nat)
    requires SourceOk(s) && start <= s.final
    ensures CutFrom(s, [], start) == Cutting([], [], start)
  {
    hide Target;
    if start < s.final {
      TargetFits(s, start);
    }
  }

  /** A complete source is cut into as many chunks as planned, with nothing left. */
  lemma {:induction false} CutIsComplete(s: Source, data: seq<byte>, start: nat)
    requires SourceOk(s) && start <= s.final && MostTokens(s.bytesPerToken) > 0
    requires |data| == Expected(s) - Product(start, s.bytesPerToken)
    ensures var cut := CutFrom(s, data, start);
            && cut.open == [] && cut.end == s.final
            && |cut.pieces| == |Runs(start, s.final, MostTokens(s.bytesPerToken))|
    decreases s.final - start
  {
    hide Target, Product, Quot, Runs, MostTokens, NextTokens, BlockEnd, WithinBlock;
    if start == s.final {
      NoRuns(s.final, MostTokens(s.bytesPerToken));
    } else {
      TargetFits(s, start);
      RunsFirst(start, s.final, MostTokens(s.bytesPerToken));
      CutIsComplete(s, data[Target(s, start)..], start + Tokens(s, start));
    }
  }

  /** The chunks of a whole beginning are the first of all. */
  lemma {:induction false} CutPrefix(s: Source, a: seq<byte>, b: seq<byte>, start: nat)
    requires SourceOk(s) && start <= s.final && a <= b && CutFrom(s, a, start).open == []
    ensures CutFrom(s, a, start).pieces <= CutFrom(s, b, start).pieces
    ensures CutFrom(s, b, start).open == [] && |a| < |b| ==>
              |CutFrom(s, a, start).pieces| < |CutFrom(s, b, start).pieces|
    decreases s.final - start
  {
    hide Target, Tokens;
    if start == s.final || |a| < Target(s, start) {
    } else {
      var target := Target(s, start);
      assert a[..target] == b[..target] && a[target..] <= b[target..];
      CutPrefix(s, a[target..], b[target..], start + Tokens(s, start));
    }
  }

  /** Span `i` is that of chunk `i`, and of run `i`. */
  predicate SpanAgrees(s: Source, pieces: seq<seq<byte>>, spans: seq<Span>, i: nat)
    requires SourceOk(s) && SegmentOk(SegmentOf(s)) && i < |pieces| == |spans|
  {
    && SpanFits(SegmentOf(s), Size(pieces[..i]), |pieces[i]|)
    && spans[i] == SpanAt(SegmentOf(s), Size(pieces[..i]), |pieces[i]|)
    && SpanIs(spans[i], RunsOf(pieces, s.bytesPerToken)[i], s.bytesPerToken)
  }

  ghost predicate SpansAgree(s: Source, pieces: seq<seq<byte>>, spans: seq<Span>)
    requires SourceOk(s) && SegmentOk(SegmentOf(s))
  {
    |spans| == |pieces| && forall i: nat | i < |pieces| :: SpanAgrees(s, pieces, spans, i)
  }

  lemma {:induction false} NextSpan(s: Source, pieces: seq<seq<byte>>, start: nat, p: seq<byte>)
    requires Planned(s, pieces, start) && start < s.final && |p| == Target(s, start)
    requires SpanFits(SegmentOf(s), Size(pieces), |p|)
    ensures SpanIs(SpanAt(SegmentOf(s), Size(pieces), |p|), Run(start, Quot(|p|, s.bytesPerToken)), s.bytesPerToken)
    ensures Quot(Size(pieces), s.bytesPerToken) == start
  {
    hide Product, Quot, Runs, MostTokens, Target, BlockEnd, NextTokens, WithinBlock, RunsOf, PiecesFit;
    TargetFits(s, start);
    QuotProduct(start, s.bytesPerToken);
    var n := Quot(|p|, s.bytesPerToken);
    QuotProduct(n, s.bytesPerToken);
    QuotWhole(|p|, s.bytesPerToken);
    ProductStep(0, s.bytesPerToken);
  }

  lemma {:induction false} QuotWhole(n: nat, d: nat)
    requires d > 0 && n % d == 0
    ensures Product(Quot(n, d), d) == n
  {
    QuotBounds(n, d);
    AsProduct(Quot(n, d), d);
  }

  lemma {:induction false} SpansStep(s: Source, pieces: seq<seq<byte>>, spans: seq<Span>, start: nat, p: seq<byte>)
    requires SourceOk(s) && SegmentOk(SegmentOf(s))
    requires Planned(s, pieces, start) && start < s.final && |p| == Target(s, start)
    requires SpansAgree(s, pieces, spans) && SpanFits(SegmentOf(s), Size(pieces), |p|)
    ensures SpansAgree(s, pieces + [p], spans + [SpanAt(SegmentOf(s), Size(pieces), |p|)])
  {
    hide Planned, Product, Quot, Size, SpanAt, SpanFits, SpanIs, Target;
    NextSpan(s, pieces, start, p);
    RunsOfStep(pieces, p, s.bytesPerToken);
    var all, after := pieces + [p], spans + [SpanAt(SegmentOf(s), Size(pieces), |p|)];
    forall i: nat | i < |all| ensures SpanAgrees(s, all, after, i) {
      if i < |pieces| {
        assert SpanAgrees(s, pieces, spans, i);
        assert all[..i] == pieces[..i];
      } else {
        assert all[..i] == pieces;
      }
    }
  }

  // ---------------------------------------------------------------------
  // The writer
  // ---------------------------------------------------------------------

  datatype ExportError =
    | NotWritable
    | CountOverflow
    | TooLong
    | TargetOverflow
    | TargetInconsistent
    | SplitToken
    | CrossedCheckpoint
    | Failed(cause: StageResult)
    | ShortSource
    | Inventory
    | UnresolvedChunk

  /** A chunk's reference is the store's name for the very bytes it spans. */
  predicate Stamped(name: Naming, chunk: StoredChunk, data: seq<byte>) {
    var span := chunk.span;
    && span.offset + span.bytes <= |data|
    && chunk.reference == name(data[span.offset..span.offset + span.bytes], span)
  }

  predicate AllStamped(name: Naming, chunks: seq<StoredChunk>, data: seq<byte>) {
    forall i :: 0 <= i < |chunks| ==> Stamped(name, chunks[i], data)
  }

  /** One chunk a planned run, spanning it, and naming the bytes it spans. */
  predicate Carries(s: Source, name: Naming, chunks: seq<StoredChunk>, data: seq<byte>)
    requires SourceOk(s)
  {
    && |chunks| == |Plan(s)| && AllStamped(name, chunks, data)
    && forall i :: 0 <= i < |chunks| ==> SpanIs(chunks[i].span, Plan(s)[i], s.bytesPerToken)
  }

  class ExportStateWriter {
    const source: Source
    const stager: Stager
    var buffer: seq<byte>
    var spans: seq<Span>
    var finished: bool
    ghost var received: seq<byte>
    ghost var start: nat
    ghost var trouble: StateWriting.Trouble

    /** Everything received is staged or in the buffer. */
    ghost predicate Open()
      reads this, stager
    {
      && stager.Sound() && stager.Paced() && Planned(source, stager.pieces, start)
      && SpansAgree(source, stager.pieces, spans)
      && StateWriting.Flatten(stager.pieces) + buffer == received
    }

    /** And the open chunk is short of its planned size. */
    ghost predicate Clean()
      reads this, stager
      requires SourceOk(source)
    {
      && Open() && (if start < source.final then |buffer| < Target(source, start) else buffer == [])
      && Cut(source, received) == Cutting(stager.pieces, buffer, start)
    }

    /** A planned chunk went missing between buffer and store. */
    ghost predicate Short()
      reads this, stager
      requires SourceOk(source)
    {
      && stager.Sound() && buffer == [] && stager.total < |received| && Cut(source, received).open == []
      && (Honest(stager.store.name) ==> After(stager.store, Cut(source, received).pieces).Refused?)
    }

    /** The put after the last planned chunk failed. */
    ghost predicate Stranded()
      reads this, stager
      requires SourceOk(source)
    {
      var pieces := stager.pieces;
      && stager.Holed() && buffer == [] && stager.total == |received| && pieces != []
      && Cut(source, received).pieces == pieces && Cut(source, received).open == []
      && (Honest(stager.store.name) ==>
            After(stager.store, pieces).PutFailed? && After(stager.store, pieces[..|pieces| - 1]).Going?)
    }

    ghost predicate Valid()
      reads this, stager
    {
      && SourceOk(source) && SegmentOk(SegmentOf(source)) && stager.segment == SegmentOf(source)
      && (!finished ==>
            && |received| <= Expected(source) && (!trouble.NoTrouble? ==> stager.poisoned)
            && match trouble
               case NoTrouble => Clean()
               case Lost => Short()
               case Unput => Stranded())
    }

    constructor (source: Source, store: Store)
      requires SourceOk(source)
      ensures Valid() && fresh(stager) && !stager.poisoned && !finished && received == [] && trouble.NoTrouble?
      ensures this.source == source && stager.store == store
    {
      this.source := source;
      stager := new Stager(SegmentOf(source), store);
      buffer, spans, finished, received, start, trouble := [], [], false, [], 0, StateWriting.NoTrouble;
      new;
      hide Product, Runs, MostTokens;
      PlannedStart(source);
      NothingCut(source, 0);
      if source.final > 0 {
        TargetFits(source, 0);
      }
    }

    /** Closes a chunk that has its planned size. */
    method Flush() returns (r: Result<bool, ExportError>)
      requires SourceOk(source) && SegmentOk(SegmentOf(source)) && stager.segment == SegmentOf(source) && !finished
      requires buffer != [] ==>
                 && Open() && trouble.NoTrouble? && |received| <= Expected(source)
                 && start < source.final && |buffer| == Target(source, start)
                 && Cut(source, received) == Cutting(stager.pieces + [buffer], [], start + Tokens(source, start))
      modifies this, stager
      ensures old(buffer) == [] ==> r.Ok? && unchanged(this) && unchanged(stager)
      ensures old(buffer) != [] ==> Valid() && !finished && received == old(received)
      ensures r.Ok? && old(buffer) != [] ==> trouble.NoTrouble? && stager.poisoned == old(stager.poisoned)
      ensures r.Err? ==> r.error.Failed? && !trouble.NoTrouble?
    {
      hide Product, Quot, Runs, MostTokens, Target, BlockEnd, NextTokens, RunsOf, SpanIs, Size, PiecesFit, Staged,
        Honest, After, SpanFits, StateWriting.Flatten, SpansAgree, HasHole, CutFrom;
      if buffer == [] {
        return Ok(true);
      }
      TargetFits(source, start);
      PlannedStep(source, stager.pieces, start, buffer);
      NextSpan(source, stager.pieces, start, buffer);
      SpansStep(source, stager.pieces, spans, start, buffer);
      if |buffer| % source.bytesPerToken != 0 {
        return Err(SplitToken);
      }
      var first, count := Quot(stager.total, source.bytesPerToken), Quot(|buffer|, source.bytesPerToken);
      if count == 0 || first / BLOCK != (first + count - 1) / BLOCK {
        return Err(CrossedCheckpoint);
      }
      var span := SpanAt(stager.segment, stager.total, |buffer|);
      var plaintext := buffer;
      Joins(stager.pieces, plaintext);
      ghost var before := stager.pieces;
      buffer := [];
      var stored := stager.Stage(plaintext);
      match stored {
        case Stored =>
          spans, start := spans + [span], start + count;
          if start < source.final {
            TargetFits(source, start);
          }
          return Ok(true);
        case NotStored =>
          JoinedSize(before);
          trouble := StateWriting.Lost;
          return Err(Failed(stored));
        case NotPut =>
          JoinedSize(stager.pieces);
          assert stager.pieces[..|before|] == before;
          trouble := StateWriting.Unput;
          return Err(Failed(stored));
      }
    }

    /** Takes bytes up to the planned end of the open chunk. */
    method Fill(bytes: seq<byte>) returns (r: Result<bool, ExportError>, left: seq<byte>)
      requires Valid() && !finished && !stager.poisoned && trouble.NoTrouble?
      requires bytes != [] && |received| + |bytes| <= Expected(source)
      modifies this, stager
      ensures Valid() && !finished && |left| < |bytes|
      ensures received + left == old(received) + bytes
      ensures r.Ok? ==> trouble.NoTrouble? && !stager.poisoned
      ensures r.Err? ==> r.error.Failed? && !trouble.NoTrouble?
    {
      hide Product, Quot, Runs, MostTokens, BlockEnd, NextTokens, RunsOf, SpanIs, Size, PiecesFit, Staged,
        Honest, After, SpanFits, StateWriting.Flatten, SpansAgree, HasHole, CutFrom, Tokens, Planned,
        ExportStateWriter.Short, ExportStateWriter.Stranded;
      OpenSize(this);
      MostIsSmall(source.bytesPerToken);
      TargetFits(source, start);
      var target := NextChunkBytes(Quot(stager.total, source.bytesPerToken), source.final, source.bytesPerToken,
                                   MostTokens(source.bytesPerToken));
      if target.None? {
        return Err(TargetOverflow), bytes;
      }
      if target.value == 0 || |buffer| > target.value {
        return Err(TargetInconsistent), bytes;
      }
      var take := Min(target.value - |buffer|, |bytes|);
      CutGrows(source, received, bytes[..take], 0);
      left := bytes[take..];
      assert bytes == bytes[..take] + left;
      buffer, received := buffer + bytes[..take], received + bytes[..take];
      if |buffer| == target.value {
        r := Flush();
      } else {
        r := Ok(true);
      }
    }

    method WriteAll(bytes: seq<byte>) returns (r: Result<bool, ExportError>)
      requires Valid()
      modifies this, stager
      ensures Valid() && finished == old(finished)
      ensures r == Err(NotWritable) <==> old(finished) || old(stager.poisoned)
      ensures r.Ok? ==> trouble.NoTrouble? && !stager.poisoned && received == old(received) + bytes
      ensures r.Err? ==> r.error in {NotWritable, CountOverflow, TooLong} || r.error.Failed?
      ensures r == Err(CountOverflow) <==>
                !old(finished) && !old(stager.poisoned) && |old(received)| + |bytes| >= U64_LIMIT
      ensures r == Err(TooLong) <==>
                && !old(finished) && !old(stager.poisoned)
                && Expected(source) < |old(received)| + |bytes| < U64_LIMIT
      ensures r == Err(CountOverflow) || r == Err(NotWritable) ==> unchanged(this) && unchanged(stager)
      ensures r == Err(TooLong) ==> unchanged(this) && stager.poisoned
      ensures r.Err? && r.error.Failed? ==> !trouble.NoTrouble? && received <= old(received) + bytes
      ensures r.Ok? ==> |received| <= Expected(source)
      ensures Healthy(stager.store) ==>
                (r.Ok? <==>
                   !old(finished) && !old(stager.poisoned) && |old(received)| + |bytes| <= Expected(source))
    {
      hide Product, Quot, Runs, MostTokens, Target, RunsOf, Size, PiecesFit, Staged, Honest, After, Healthy,
        StateWriting.Flatten, SpansAgree, HasHole, Planned;
      if finished || stager.poisoned {
        return Err(NotWritable);
      }
      OpenSize(this);
      if stager.total + |buffer| + |bytes| >= U64_LIMIT {
        return Err(CountOverflow);
      }
      if stager.total + |buffer| + |bytes| > Expected(source) {
        stager.poisoned := true;
        return Err(TooLong);
      }
      var rest := bytes;
      while rest != []
        invariant received + rest == old(received) + bytes && Valid() && trouble.NoTrouble?
        invariant !stager.poisoned && !finished && |received| + |rest| <= Expected(source)
        decreases |rest|
      {
        r, rest := Fill(rest);
        if r.Err? {
          Untroubled(this);
          return r;
        }
      }
      assert received + [] == received;
      return Ok(true);
    }

    /** The stored chunks of the state: those of the plan, carrying exactly
        the bytes received. */
    method Finish() returns (r: Result<seq<StoredChunk>, ExportError>)
      requires Valid() && !finished
      modifies this, stager
      ensures SourceOk(source) && SegmentOk(SegmentOf(source)) && received == old(received)
      ensures r.Ok? ==>
                && |received| == Expected(source) && |r.value| <= MAX_CHUNKS_PER_STATE
                && Carries(source, stager.store.name, r.value, received)
                && (Honest(stager.store.name) ==> Matches(r.value, Plan(source), source.bytesPerToken))
      ensures Honest(stager.store.name) ==>
                (r.Ok? <==>
                   && |received| == Expected(source) && |Plan(source)| <= MAX_CHUNKS_PER_STATE
                   && Completes(stager.store, Cut(source, received).pieces))
      ensures Healthy(stager.store) ==>
                (r.Ok? <==> |received| == Expected(source) && |Plan(source)| <= MAX_CHUNKS_PER_STATE)
      ensures r == Err(ShortSource) <==> old(trouble).Lost? || |received| != Expected(source)
      ensures r == Err(UnresolvedChunk) <==>
                && old(trouble).Unput? && |received| == Expected(source)
                && |Plan(source)| <= MAX_CHUNKS_PER_STATE
    {
      hide Product, Quot, Runs, MostTokens, Target, RunsOf, Size, PiecesFit, Staged, Honest, After, Healthy, SpanAgrees,
        StateWriting.Flatten, HasHole, Expected, Refs, Matches, Plan, Carries;
      Untroubled(this);
      Closing(this);
      if stager.total + |buffer| != Expected(source) {
        stager.poisoned := true;
        return Err(ShortSource);
      }
      var flushed := Flush();
      var put := stager.FlushPending();
      if !put {
        return Err(Failed(NotPut));
      }
      if stager.total != Expected(source) || |stager.chunks| > MAX_CHUNKS_PER_STATE {
        stager.poisoned := true;
        return Err(Inventory);
      }
      var refs := stager.Collect();
      if refs.None? {
        if trouble.NoTrouble? {
          NothingWaits(stager.segment, stager.store.name, stager.pieces, stager.chunks);
        }
        return Err(UnresolvedChunk);
      }
      NothingWaits(stager.segment, stager.store.name, stager.pieces, stager.chunks);
      assert refs.value == Refs(stager.segment, stager.store.name, stager.pieces);
      finished := true;
      r := Ok(Zip(refs.value, spans));
      Delivered(source, stager.store.name, stager.pieces, spans, received);
    }
  }

  /** What closing the writer has to work with, in each of its conditions. */
  lemma {:induction false} Closing(w: ExportStateWriter)
    requires w.Valid() && !w.finished
    ensures var cut := Cut(w.source, w.received);
            && (w.trouble.NoTrouble? ==> w.stager.total + |w.buffer| == |w.received|)
            && (|w.received| == Expected(w.source) ==> |cut.pieces| == |Plan(w.source)|)
            && (w.trouble.NoTrouble? && |w.received| == Expected(w.source) ==>
                  w.buffer == [] && w.start == w.source.final && cut.pieces == w.stager.pieces)
            && (w.trouble.NoTrouble? && Honest(w.stager.store.name) && |w.received| == Expected(w.source) ==>
                  (Completes(w.stager.store, cut.pieces) <==>
                     w.stager.pending == [] || w.stager.store.puts(|w.stager.chunks|)))
            && (!w.trouble.NoTrouble? && Honest(w.stager.store.name) ==> !Completes(w.stager.store, cut.pieces))
  {
    hide Honest, After, Staged, Size, Product, PiecesFit, SourceOk, SegmentOk, Planned, SpansAgree, Target, HasHole,
      CutFrom, Expected, Runs, MostTokens;
    if w.trouble.NoTrouble? {
      OpenSize(w);
    }
    if |w.received| == Expected(w.source) {
      CompleteCount(w.source, w.received);
    }
  }

  lemma {:induction false} CompleteCount(s: Source, data: seq<byte>)
    requires SourceOk(s) && |data| == Expected(s)
    ensures |Cut(s, data).pieces| == |Plan(s)| && Cut(s, data).open == [] && Cut(s, data).end == s.final
  {
    hide Product, Runs, CutFrom, MostTokens;
    MostFits(s.bytesPerToken, 0);
    ProductStep(0, s.bytesPerToken);
    CutIsComplete(s, data, 0);
  }

  /** A working store never gets a writer into trouble. */
  lemma {:induction false} Untroubled(w: ExportStateWriter)
    requires w.Valid() && !w.finished
    ensures Healthy(w.stager.store) ==>
              && w.trouble.NoTrouble? && Honest(w.stager.store.name)
              && Completes(w.stager.store, Cut(w.source, w.received).pieces)
  {
    hide Honest, After, Staged, Cut, Size, Product, PiecesFit, SourceOk, SegmentOk, Planned, SpansAgree, Target,
      HasHole;
    HealthyCompletes(w.stager.store, Cut(w.source, w.received).pieces);
  }

  function Zip(refs: seq<ChunkRef>, spans: seq<Span>): (chunks: seq<StoredChunk>)
    requires |refs| == |spans|
    ensures |chunks| == |refs|
  {
    seq(|refs|, i requires 0 <= i < |refs| => StoredChunk(refs[i], spans[i]))
  }

  lemma {:induction false} MostIsSmall(bytesPerToken: nat)
    requires 0 < bytesPerToken <= MAX_CHUNK_PLAINTEXT
    ensures 0 < MostTokens(bytesPerToken) <= MAX_CHUNK_PLAINTEXT
  {
    hide Product, MostTokens;
    MostFits(bytesPerToken, MostTokens(bytesPerToken));
    ProductMonotone(bytesPerToken, MostTokens(bytesPerToken), MostTokens(bytesPerToken));
  }

  lemma {:induction false} Joins(pieces: seq<seq<byte>>, p: seq<byte>)
    ensures StateWriting.Flatten(pieces + [p]) == StateWriting.Flatten(pieces) + p
  {
    assert (pieces + [p])[..|pieces|] == pieces;
  }

  lemma {:induction false} JoinedSize(pieces: seq<seq<byte>>)
    ensures |StateWriting.Flatten(pieces)| == Size(pieces)
    decreases |pieces|
  {
    if pieces == [] {
    } else {
      JoinedSize(pieces[..|pieces| - 1]);
    }
  }

  lemma {:induction false} PieceBytes(pieces: seq<seq<byte>>, i: nat)
    requires i < |pieces|
    ensures var at := Size(pieces[..i]);
            && at + |pieces[i]| <= |StateWriting.Flatten(pieces)|
            && StateWriting.Flatten(pieces)[at..at + |pieces[i]|] == pieces[i]
    decreases |pieces|
  {
    hide StateWriting.Flatten, Size;
    var init, last := pieces[..|pieces| - 1], pieces[|pieces| - 1];
    assert init + [last] == pieces;
    Joins(init, last);
    JoinedSize(init);
    if i == |pieces| - 1 {
    } else {
      PieceBytes(init, i);
      assert init[..i] == pieces[..i];
    }
  }

  lemma {:induction false} SpanOffset(s: Source, total: nat, length: nat)
    requires SourceOk(s) && SegmentOk(SegmentOf(s)) && SpanFits(SegmentOf(s), total, length)
    ensures SpanAt(SegmentOf(s), total, length).offset == total
  {
    hide Quot;
  }

  lemma {:induction false} OpenSize(w: ExportStateWriter)
    requires w.Valid() && !w.finished && w.trouble.NoTrouble?
    ensures w.stager.total + |w.buffer| == |w.received|
    ensures Quot(w.stager.total, w.source.bytesPerToken) == w.start
    ensures |w.received| < Expected(w.source) <==> w.start < w.source.final
    ensures |w.received| == Expected(w.source) ==> w.buffer == [] && w.start == w.source.final
  {
    hide Quot, Runs, MostTokens, Target, RunsOf, Size, PiecesFit, Staged, Honest, After, StateWriting.Flatten,
      SpansAgree, Product;
    JoinedSize(w.stager.pieces);
    QuotProduct(w.start, w.source.bytesPerToken);
    PlannedEnd(w.source, w.stager.pieces, w.start);
    if w.start < w.source.final {
      TargetFits(w.source, w.start);
    }
  }

  /** A complete writer hands over the planned chunks. */
  lemma {:induction false} Delivered(
      s: Source, name: Naming, pieces: seq<seq<byte>>, spans: seq<Span>, data: seq<byte>)
    requires Planned(s, pieces, s.final) && SpansAgree(s, pieces, spans) && StateWriting.Flatten(pieces) == data
    ensures var chunks := Zip(Refs(SegmentOf(s), name, pieces), spans);
            && Carries(s, name, chunks, data)
            && (Honest(name) ==> Matches(chunks, Plan(s), s.bytesPerToken))
  {
    hide Product, Quot, Runs, MostTokens, RunsOf, Size, PiecesFit, Honest, StateWriting.Flatten, Refs, SpanIs, SpanAt,
      ChunkRefOk, SpanFits, Plan;
    PlannedEnd(s, pieces, s.final);
    var chunks := Zip(Refs(SegmentOf(s), name, pieces), spans);
    forall i | 0 <= i < |chunks|
      ensures SpanIs(chunks[i].span, Plan(s)[i], s.bytesPerToken) && Stamped(name, chunks[i], data)
      ensures Honest(name) ==> Holds(chunks[i], Plan(s)[i], s.bytesPerToken)
    {
      assert SpanAgrees(s, pieces, spans, i);
      RefAt(SegmentOf(s), name, pieces, i);
      SpanLength(SegmentOf(s), Size(pieces[..i]), |pieces[i]|);
      SpanOffset(s, Size(pieces[..i]), |pieces[i]|);
      PieceBytes(pieces, i);
      if Honest(name) {
        HonestRef(name, pieces[i], spans[i]);
      }
    }
  }

  // ---------------------------------------------------------------------
  // A whole export
  // ---------------------------------------------------------------------

  lemma {:induction false} CarriesStamps(s: Source, name: Naming, chunks: seq<StoredChunk>, data: seq<byte>)
    requires SourceOk(s) && Carries(s, name, chunks, data)
    ensures AllStamped(name, chunks, data)
  {
  }

  predicate Streamable(fs: FamilyState, final: nat) {
    && 0 < BytesPerToken(fs) <= MAX_CHUNK_PLAINTEXT && final <= U64_LIMIT - BLOCK
    && Product(final, BytesPerToken(fs)) < U64_LIMIT
  }

  /** Writes one state of an export, in any slices. What it stores is what the
      manifests rely on. A working store takes exactly a complete source whose
      chunks fit the inventory. */
  method WriteState(fs: FamilyState, final: u64, store: Store, slices: seq<seq<byte>>) returns (r: Option<StoredState>)
    requires Streamable(fs, final) && Honest(store.name)
    ensures MostTokens(BytesPerToken(fs)) > 0
    ensures r.Some? ==>
              && StoredOk(fs, r.value, final) && AllStamped(store.name, r.value.chunks, StateWriting.Flatten(slices))
              && |StateWriting.Flatten(slices)| == Product(final, BytesPerToken(fs))
              && ChunksAtCut(final, MostTokens(BytesPerToken(fs))) <= MAX_CHUNKS_PER_STATE
    ensures Healthy(store) ==>
              (r.Some? <==>
                 && |StateWriting.Flatten(slices)| == Product(final, BytesPerToken(fs))
                 && ChunksAtCut(final, MostTokens(BytesPerToken(fs))) <= MAX_CHUNKS_PER_STATE)
  {
    hide Product, Runs, MostTokens, Honest, Healthy, StateWriting.Flatten, Matches, Carries, ChunksAtCut,
      ExportStateWriter.Clean, BytesPerToken;
    var s := Source(final, BytesPerToken(fs));
    MostIsSmall(s.bytesPerToken);
    RunsCount(final, MostTokens(s.bytesPerToken));
    var writer := new ExportStateWriter(s, store);
    StateWriting.FlattenNothing(slices);
    for i := 0 to |slices|
      invariant writer.Valid() && !writer.finished && !writer.stager.poisoned && fresh(writer.stager)
      invariant writer.source == s && writer.stager.store == store
      invariant writer.received == StateWriting.Flatten(slices[..i])
    {
      StateWriting.FlattenStep(slices, i);
      var wrote := writer.WriteAll(slices[i]);
      if wrote.Err? {
        return None;
      }
    }
    assert slices[..|slices|] == slices;
    var chunks := writer.Finish();
    if chunks.Err? {
      return None;
    }
    CarriesStamps(s, store.name, chunks.value, StateWriting.Flatten(slices));
    return Some(StoredState(fs.key, chunks.value));
  }

  /** What a writer takes of slices when its caller ignores every error: the
      bytes, and whether it still takes more. A count past u64 is refused
      and forgotten, an over-long slice ends it. */
  datatype Intake = Intake(bytes: seq<byte>, open: bool)

  function TakeIn(s: Source, before: Intake, slice: seq<byte>): Intake {
    if !before.open || |before.bytes| + |slice| >= U64_LIMIT then before
    else if |before.bytes| + |slice| > Expected(s) then before.(open := false)
    else Intake(before.bytes + slice, true)
  }

  function TakenIn(s: Source, slices: seq<seq<byte>>): (taken: Intake)
    ensures |taken.bytes| <= Expected(s)
  {
    if slices == [] then Intake([], true)
    else TakeIn(s, TakenIn(s, slices[..|slices| - 1]), slices[|slices| - 1])
  }

  lemma {:induction false} TakenStep(s: Source, slices: seq<seq<byte>>, n: nat)
    requires n < |slices|
    ensures TakenIn(s, slices[..n + 1]) == TakeIn(s, TakenIn(s, slices[..n]), slices[n])
  {
    hide Expected, TakeIn;
    assert slices[..n + 1][..n] == slices[..n];
  }

  /** A run of writes so far, whatever each of them returned. */
  ghost predicate Fed(w: ExportStateWriter, taken: Intake)
    reads w, w.stager
  {
    && w.Valid() && !w.finished
    && (w.trouble.NoTrouble? ==> w.received == taken.bytes && (w.stager.poisoned <==> !taken.open))
    && (!w.trouble.NoTrouble? ==> w.received <= taken.bytes)
  }

  /** The planned chunks of a complete source, all but the last put accepted. */
  predicate LastPutFails(s: Source, store: Store, data: seq<byte>)
    requires SourceOk(s)
  {
    var pieces := Cut(s, data).pieces;
    && |data| == Expected(s) && pieces != []
    && After(store, pieces[..|pieces| - 1]).Going? && After(store, pieces).PutFailed?
  }

  /** A writer in trouble can no longer complete the bytes it was given. */
  lemma {:induction false} TroubleStays(w: ExportStateWriter, data: seq<byte>)
    requires w.Valid() && !w.finished && !w.trouble.NoTrouble? && Honest(w.stager.store.name)
    requires w.received <= data && |data| <= Expected(w.source)
    ensures !Completes(w.stager.store, Cut(w.source, data).pieces)
    ensures LastPutFails(w.source, w.stager.store, data) <==>
              w.trouble.Unput? && |w.received| == Expected(w.source)
  {
    hide Honest, After, Staged, CutFrom, Size, Product, PiecesFit, SourceOk, SegmentOk, Expected, Planned, SpansAgree,
      HasHole;
    var mine, all := Cut(w.source, w.received).pieces, Cut(w.source, data).pieces;
    CutPrefix(w.source, w.received, data, 0);
    assert all[..|mine|] == mine;
    AfterPrefix(w.stager.store, all, |mine|);
    if |data| == Expected(w.source) {
      CompleteCount(w.source, data);
    }
    if |mine| < |all| {
      assert all[..|all| - 1][..|mine|] == mine;
      AfterPrefix(w.stager.store, all[..|all| - 1], |mine|);
    } else {
      assert all == mine;
    }
    if |w.received| == |data| {
      assert w.received == data;
    }
  }

  /** Without trouble every planned chunk was staged, so no put has failed. */
  lemma {:induction false} CleanCompletes(w: ExportStateWriter)
    requires w.Valid() && !w.finished && w.trouble.NoTrouble? && Honest(w.stager.store.name)
    ensures !LastPutFails(w.source, w.stager.store, w.received)
  {
    hide Honest, After, Staged, CutFrom, Size, Product, PiecesFit, SourceOk, SegmentOk, Expected, Planned, SpansAgree;
  }

  /** A caller that ignores every write error and finishes all the same. Over an
      honest store the outcome is decided by the slices and the store: success
      needs a complete source whose planned chunks are all staged and put and
      fit the inventory, and the not-resolved error is the failed put of the
      very last chunk. */
  method WriteRegardless(s: Source, store: Store, slices: seq<seq<byte>>)
    returns (r: Result<seq<StoredChunk>, ExportError>)
    requires SourceOk(s) && Honest(store.name)
    ensures SegmentOk(SegmentOf(s))
    ensures var data := TakenIn(s, slices).bytes;
            && (r.Ok? <==>
                  && |data| == Expected(s) && |Plan(s)| <= MAX_CHUNKS_PER_STATE
                  && Completes(store, Cut(s, data).pieces))
            && (r.Ok? ==> Carries(s, store.name, r.value, data) && Matches(r.value, Plan(s), s.bytesPerToken))
            && (r == Err(UnresolvedChunk) <==> LastPutFails(s, store, data) && |Plan(s)| <= MAX_CHUNKS_PER_STATE)
  {
    hide Product, Honest, Matches, Carries, Expected, Plan, Cut, Completes, LastPutFails, SourceOk, SegmentOk,
      ExportStateWriter.Clean, ExportStateWriter.Short, ExportStateWriter.Stranded, TakenIn;
    IsSegment(s);
    var writer := new ExportStateWriter(s, store);
    NothingTaken(s, slices);
    for i := 0 to |slices|
      invariant Fed(writer, TakenIn(s, slices[..i])) && fresh(writer.stager)
      invariant writer.source == s && writer.stager.store == store
    {
      TakenStep(s, slices, i);
      var ignored := writer.WriteAll(slices[i]);
    }
    assert slices[..|slices|] == slices;
    ghost var data := TakenIn(s, slices).bytes;
    if writer.trouble.NoTrouble? {
      CleanCompletes(writer);
    } else {
      TroubleStays(writer, data);
    }
    r := writer.Finish();
  }

  lemma {:induction false} NothingTaken(s: Source, slices: seq<seq<byte>>)
    ensures TakenIn(s, slices[..0]) == Intake([], true)
  {
  }

  /** A forward-only reader: the bytes it has, at most how many of them each
      read gives, and the reads that fail. */
  datatype Reader = Reader(data: seq<byte>, gives: nat -> nat, fails: nat -> bool)

  ghost predicate Forward(reader: Reader) {
    forall n: nat :: reader.gives(n) > 0
  }

  ghost predicate NeverFails(reader: Reader) {
    forall n: nat :: !reader.fails(n)
  }

  /** What one read hands over of the bytes left. */
  function Got(reader: Reader, call: nat, remaining: nat, left: seq<byte>): (got: seq<byte>)
    requires reader.gives(call) > 0 && remaining > 0
    ensures got <= left && |got| <= remaining && (got == [] ==> left == [])
  {
    left[..Min(Min(reader.gives(call), Min(remaining, SCRATCH_BYTES)), |left|)]
  }

  /** One read of an unfinished source. */
  method Pull(writer: ExportStateWriter, reader: Reader, call: nat, left: seq<byte>)
    returns (ok: bool, rest: seq<byte>)
    requires writer.Valid() && !writer.finished && !writer.stager.poisoned && writer.trouble.NoTrouble?
    requires Forward(reader) && |writer.received| < Expected(writer.source)
    modifies writer, writer.stager
    ensures ok ==>
              && writer.Valid() && !writer.finished && !writer.stager.poisoned && writer.trouble.NoTrouble?
              && writer.received + rest == old(writer.received) + left && |rest| < |left|
              && |writer.received| <= Expected(writer.source)
    ensures Healthy(writer.stager.store) && NeverFails(reader) ==> (ok <==> left != [])
  {
    hide Product, Honest, Healthy, Expected, ExportStateWriter.Valid, NeverFails, Forward, Got;
    ok, rest := false, left;
    OpenSize(writer);
    var remaining := Expected(writer.source) - (writer.stager.total + |writer.buffer|);
    if reader.fails(call) {
      ReadFailed(reader, call);
      return;
    }
    ReadGives(reader, call);
    var got := Got(reader, call, remaining, left);
    if got == [] {
      return;
    }
    var wrote := writer.WriteAll(got);
    rest := left[|got|..];
    assert left == got + rest;
    ok := wrote.Ok?;
  }

  /** Consumes one reader: not one byte short, not one too many. */
  method WriteSource(s: Source, store: Store, reader: Reader) returns (r: Option<seq<StoredChunk>>)
    requires SourceOk(s) && Forward(reader)
    ensures SegmentOk(SegmentOf(s))
    ensures r.Some? ==>
              && |reader.data| == Expected(s) && |r.value| <= MAX_CHUNKS_PER_STATE
              && Carries(s, store.name, r.value, reader.data)
              && (Honest(store.name) ==> Matches(r.value, Plan(s), s.bytesPerToken))
    ensures Healthy(store) && NeverFails(reader) ==>
              (r.Some? <==> |reader.data| == Expected(s) && |Plan(s)| <= MAX_CHUNKS_PER_STATE)
  {
    hide Product, Honest, Healthy, Matches, Carries, Expected, Plan, ExportStateWriter.Valid, NeverFails, Forward,
      SourceOk, SegmentOk;
    IsSegment(s);
    var writer := new ExportStateWriter(s, store);
    var left, call := reader.data, 0;
    OpenSize(writer);
    while writer.stager.total + |writer.buffer| < Expected(s)
      invariant writer.Valid() && !writer.finished && !writer.stager.poisoned && fresh(writer.stager)
      invariant writer.source == s && writer.stager.store == store && writer.trouble.NoTrouble?
      invariant writer.received + left == reader.data
      invariant writer.stager.total + |writer.buffer| == |writer.received| <= Expected(s)
      decreases |left|
    {
      var ok, rest := Pull(writer, reader, call, left);
      if !ok {
        return None;
      }
      left, call := rest, call + 1;
      OpenSize(writer);
    }
    if reader.fails(call) {
      ReadFailed(reader, call);
      return None;
    }
    if left != [] {
      return None;
    }
    assert writer.received + [] == writer.received;
    var chunks := writer.Finish();
    return if chunks.Ok? then Some(chunks.value) else None;
  }

  lemma {:induction false} IsSegment(s: Source)
    requires SourceOk(s)
    ensures SegmentOk(SegmentOf(s))
  {
    hide Product;
  }

  lemma {:induction false} ReadGives(reader: Reader, call: nat)
    requires Forward(reader)
    ensures reader.gives(call) > 0
  {
  }

  lemma {:induction false} ReadFailed(reader: Reader, call: nat)
    requires reader.fails(call)
    ensures !NeverFails(reader)
  {
  }

  lemma {:induction false} ExportIsStreamable(e: Export, n: nat)
    requires ExportOk(e) && n < |e.family.states| && e.finalTokens <= U64_LIMIT - BLOCK
    ensures Streamable(e.family.states[n], e.finalTokens)
  {
    hide FamilyOk, RestoredAt, PhysicalAt, Volume, Footprint, ShapeFor, Product;
    StateIsSized(e, n);
  }

  ghost predicate AllHonest(stores: seq<Store>) {
    forall i: nat | i < |stores| :: Honest(stores[i].name)
  }

  ghost predicate AllHealthy(stores: seq<Store>) {
    forall i: nat | i < |stores| :: Healthy(stores[i])
  }

  /** State `k` of a manifest: its spans partition the manifest's own tokens,
      in as few chunks as planned, and each reference names the bytes of its
      span. */
  predicate StateHeld(m: Manifest, k: nat, bytesPerToken: nat, name: Naming, data: seq<byte>) {
    && 0 < bytesPerToken <= MAX_CHUNK_PLAINTEXT && MostTokens(bytesPerToken) > 0
    && CutStart(m.kind) < m.inputCut.tokenCount
    && k < |m.realized| && k < |m.states| && |m.realized[k].spans| == |m.states[k].chunks|
    && |m.states[k].chunks| == |Runs(CutStart(m.kind), m.inputCut.tokenCount, MostTokens(bytesPerToken))|
    && SpansOk(m.realized[k].spans, m.states[k].chunks, CutStart(m.kind), m.inputCut.tokenCount, bytesPerToken)
    && forall j :: 0 <= j < |m.states[k].chunks| ==>
         Stamped(name, StoredChunk(m.states[k].chunks[j], m.realized[k].spans[j]), data)
  }

  /** A manifest drawn from stored states holds the bytes they were given. */
  lemma {:induction false} HeldByManifest(
      e: Export, completed: seq<StoredState>, m: Manifest, k: nat, name: Naming, data: seq<byte>)
    requires Faithful(e, completed, m) && k < |completed| && k < |e.family.states|
    requires StoredOk(e.family.states[k], completed[k], e.finalTokens)
    requires CutOk(CutStart(m.kind), m.inputCut.tokenCount, e.finalTokens)
    requires AllStamped(name, completed[k].chunks, data)
    ensures StateHeld(m, k, BytesPerToken(e.family.states[k]), name, data)
  {
    hide Matches, Runs, MostTokens, BytesPerToken, SpansOk, ExportBuild.Within, Stamped, Assigned;
    var fs, stored := e.family.states[k], completed[k];
    var start, cut := CutStart(m.kind), m.inputCut.tokenCount;
    assert Drawn(stored, m.realized[k], m.states[k], start, cut);
    var lo, hi := Stretch(stored.chunks, e.finalTokens, MostTokens(BytesPerToken(fs)), BytesPerToken(fs), start, cut);
    WithinIsStretch(stored.chunks, start, cut, lo, hi);
    SelectedCovers(fs, stored.chunks[lo..hi], start, cut);
    forall j | 0 <= j < |m.states[k].chunks|
      ensures Stamped(name, StoredChunk(m.states[k].chunks[j], m.realized[k].spans[j]), data)
    {
      assert StoredChunk(m.states[k].chunks[j], m.realized[k].spans[j]) == stored.chunks[lo + j];
    }
  }

  /** Every manifest of a chain begins where its parent ends, at a checkpoint. */
  lemma {:induction false} LinkCuts(ms: seq<Manifest>, site: Site, nodes: seq<Node>, final: nat, i: nat)
    requires NodesOk(nodes, final) && ChainOk(ms, site, nodes) && i < |ms|
    ensures CutOk(CutStart(ms[i].kind), ms[i].inputCut.tokenCount, final)
  {
    hide NodesOk, ChainOk;
    LinkFacts(ms, site, nodes, i);
    CutsRise(nodes, final, i);
    if i > 0 {
      LinkFacts(ms, site, nodes, i - 1);
    }
  }

  /** Writes every state, each with the answers the store gives meanwhile, and
      commits. Over an honest store the commit has the very outcome the
      manifests decide, with nothing taken on trust, and every manifest holds
      the bytes of its own tokens. */
  method ExportAll(e: Export, site: Site, nodes: seq<Node>, stores: seq<Store>, data: seq<seq<seq<byte>>>)
    returns (r: Option<seq<Manifest>>)
    requires ExportOk(e) && e.finalTokens <= U64_LIMIT - BLOCK && NodesOk(nodes, e.finalTokens)
    requires AllHonest(stores) && |stores| == |data| == |e.family.states|
    ensures r.Some? ==>
              && SiteOk(site) && (|nodes| == 1 || NoTail(e.family))
              && |r.value| == |nodes| && ChainOk(r.value, site, nodes)
              && forall i :: 0 <= i < |nodes| ==>
                   && ManifestOk(r.value[i], BoundsOf(e)) && Signed(r.value[i], e, site)
                   && r.value[i].inputCut.tokenRoot == nodes[i].id
                   && r.value[i].inputCut.auxiliaryRoot == site.auxiliaryRoot
                   && r.value[i].inputCut.tokenCount == nodes[i].tokenCount
    ensures r.Some? ==>
              forall k: nat | k < |data| ::
                && StateArrives(e, data, k)
                && forall i :: 0 <= i < |nodes| ==>
                     StateHeld(r.value[i], k, BytesPerToken(e.family.states[k]), stores[k].name,
                               StateWriting.Flatten(data[k]))
    ensures AllHealthy(stores) ==>
              (r.Some? <==>
                 && SiteOk(site) && (|nodes| == 1 || NoTail(e.family))
                 && forall i: nat | i < |data| :: StateArrives(e, data, i))
  {
    hide ExportOk, NodesOk, Honest, Healthy, SiteOk, NoTail, ChainOk, ManifestOk, StoredOk, StateArrives, Faithful,
      Signed, StateHeld, AllStamped, Product, BytesPerToken, StateWriting.Flatten, CutOk;
    var completed: seq<StoredState> := [];
    StatesMatch(e);
    for n := 0 to |data|
      invariant |completed| == n
      invariant forall i: nat | i < n :: StoredOk(e.family.states[i], completed[i], e.finalTokens)
      invariant forall i: nat | i < n ::
                  && StateArrives(e, data, i)
                  && AllStamped(stores[i].name, completed[i].chunks, StateWriting.Flatten(data[i]))
    {
      ExportIsStreamable(e, n);
      var stored := WriteState(e.family.states[n], e.finalTokens, stores[n], data[n]);
      Arrives(e, data, n);
      if stored.None? {
        return None;
      }
      completed := completed + [stored.value];
    }
    var manifests := Commit(e, site, completed, nodes);
    if manifests.Err? {
      return None;
    }
    forall i, k: nat | 0 <= i < |nodes| && k < |data|
      ensures StateHeld(manifests.value[i], k, BytesPerToken(e.family.states[k]), stores[k].name,
                        StateWriting.Flatten(data[k]))
    {
      LinkCuts(manifests.value, site, nodes, e.finalTokens, i);
      HeldByManifest(e, completed, manifests.value[i], k, stores[k].name, StateWriting.Flatten(data[k]));
    }
    return Some(manifests.value);
  }

  /** State `i` comes complete, and in no more chunks than the inventory has. */
  predicate StateArrives(e: Export, data: seq<seq<seq<byte>>>, i: nat)
    requires i < |data| == |e.family.states|
  {
    var fs := e.family.states[i];
    && 0 < BytesPerToken(fs) <= MAX_CHUNK_PLAINTEXT && MostTokens(BytesPerToken(fs)) > 0
    && |StateWriting.Flatten(data[i])| == Product(e.finalTokens, BytesPerToken(fs))
    && ChunksAtCut(e.finalTokens, MostTokens(BytesPerToken(fs))) <= MAX_CHUNKS_PER_STATE
  }

  lemma {:induction false} Arrives(e: Export, data: seq<seq<seq<byte>>>, i: nat)
    requires i < |data| == |e.family.states| && Streamable(e.family.states[i], e.finalTokens)
    requires MostTokens(BytesPerToken(e.family.states[i])) > 0
    ensures StateArrives(e, data, i) <==>
              var fs := e.family.states[i];
              && |StateWriting.Flatten(data[i])| == Product(e.finalTokens, BytesPerToken(fs))
              && ChunksAtCut(e.finalTokens, MostTokens(BytesPerToken(fs))) <= MAX_CHUNKS_PER_STATE
  {
  }

  lemma {:induction false} StatesMatch(e: Export)
    requires ExportOk(e)
    ensures |e.family.states| == |e.declarations|
  {
  }
}
