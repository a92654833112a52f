/** Building the manifests of an export, and what a reader makes of them. */
module ExportBuild {
  import opened Machine
  import opened Consts
  import opened Symbols
  import opened StateKeys
  import opened Shapes
  import opened Chunking
  import opened Families
  import opened CutManifests
  import opened ExportPlan
  import PrefixChain

  const MAX_CHUNKS_PER_STATE := 65536

  datatype StoredChunk = StoredChunk(reference: ChunkRef, span: Span)

  datatype StoredState = StoredState(key: StateKey, chunks: seq<StoredChunk>)

  // ---------------------------------------------------------------------
  // Stored chunks and the chunks of one manifest
  // ---------------------------------------------------------------------

  /** Tokens of the largest chunk. */
  function MostTokens(bytesPerToken: nat): (most: nat)
    requires 0 < bytesPerToken <= MAX_CHUNK_PLAINTEXT
  {
    Quot(MAX_CHUNK_PLAINTEXT, bytesPerToken)
  }

  lemma {:induction false} MostFits(bytesPerToken: nat, tokens: nat)
    requires 0 < bytesPerToken <= MAX_CHUNK_PLAINTEXT
    ensures MostTokens(bytesPerToken) > 0
    ensures tokens <= MostTokens(bytesPerToken) ==> Product(tokens, bytesPerToken) <= MAX_CHUNK_PLAINTEXT
    ensures tokens > 0 ==> Product(tokens, bytesPerToken) > 0
  {
    var most := MostTokens(bytesPerToken);
    QuotBounds(MAX_CHUNK_PLAINTEXT, bytesPerToken);
    AsProduct(most, bytesPerToken);
    hide Product, Quot;
    if tokens <= most {
      ProductMonotone(bytesPerToken, tokens, most);
    }
    ProductMonotone(bytesPerToken, tokens, tokens);
    if most == 0 {
      ProductStep(0, bytesPerToken);
      assert bytesPerToken <= MAX_CHUNK_PLAINTEXT;
    }
  }

  predicate SpanIs(span: Span, run: Run, bytesPerToken: nat) {
    && span.tokenStart == run.start && span.tokenCount == run.count
    && span.offset == Product(run.start, bytesPerToken)
    && span.bytes == Product(run.count, bytesPerToken)
  }

  predicate Holds(chunk: StoredChunk, run: Run, bytesPerToken: nat) {
    SpanIs(chunk.span, run, bytesPerToken) && ChunkRefOk(chunk.reference, chunk.span)
  }

  predicate Matches(chunks: seq<StoredChunk>, runs: seq<Run>, bytesPerToken: nat) {
    |chunks| == |runs| && forall i :: 0 <= i < |runs| ==> Holds(chunks[i], runs[i], bytesPerToken)
  }

  function SpansOf(chunks: seq<StoredChunk>): (spans: seq<Span>)
    ensures |spans| == |chunks| && forall i :: 0 <= i < |chunks| ==> spans[i] == chunks[i].span
  {
    seq(|chunks|, i requires 0 <= i < |chunks| => chunks[i].span)
  }

  function RefsOf(chunks: seq<StoredChunk>): (refs: seq<ChunkRef>)
    ensures |refs| == |chunks| && forall i :: 0 <= i < |chunks| ==> refs[i] == chunks[i].reference
  {
    seq(|chunks|, i requires 0 <= i < |chunks| => chunks[i].reference)
  }

  function EndOf(chunk: StoredChunk): nat {
    chunk.span.tokenStart + chunk.span.tokenCount
  }

  lemma {:induction false} TileEnds(runs: seq<Run>, from: nat, to: nat, i: nat)
    requires Tiles(runs, from, to) && i < |runs|
    ensures from < runs[i].start + runs[i].count <= to && from <= runs[i].start
    ensures i == 0 ==> runs[i].start == from
    ensures i == |runs| - 1 ==> runs[i].start + runs[i].count == to
    decreases |runs|
  {
    if i > 0 {
      TileEnds(runs[1..], from + runs[0].count, to, i - 1);
    } else {
      TileAhead(runs[1..], from + runs[0].count, to);
    }
  }

  lemma {:induction false} TileAhead(runs: seq<Run>, from: nat, to: nat)
    requires Tiles(runs, from, to)
    ensures from <= to && (runs == [] <==> from == to)
    decreases |runs|
  {
    if runs == [] {
    } else {
      TileAhead(runs[1..], from + runs[0].count, to);
    }
  }

  /** Drop what ends by `start`, keep what ends by `cut`. */
  method Select(chunks: seq<StoredChunk>, start: nat, cut: nat, ghost lo: nat, ghost hi: nat)
    returns (selected: seq<StoredChunk>)
    requires lo <= hi <= |chunks|
    requires forall i :: 0 <= i < |chunks| ==> (i < lo <==> EndOf(chunks[i]) <= start)
    requires forall i :: 0 <= i < |chunks| ==> (i < hi <==> EndOf(chunks[i]) <= cut)
    ensures selected == chunks[lo..hi]
  {
    var i := 0;
    while i < |chunks| && EndOf(chunks[i]) <= start
      invariant i <= lo
    {
      i := i + 1;
    }
    var j := i;
    while j < |chunks| && EndOf(chunks[j]) <= cut
      invariant i <= j <= hi
    {
      j := j + 1;
    }
    selected := chunks[i..j];
  }

  /** The chunks that lie in `(start, cut]`, by where they end. */
  function Within(chunks: seq<StoredChunk>, start: nat, cut: nat): seq<StoredChunk> {
    if chunks == [] then []
    else
      var n := |chunks| - 1;
      Within(chunks[..n], start, cut) + if start < EndOf(chunks[n]) <= cut then [chunks[n]] else []
  }

  lemma {:induction false} WithinIsStretch(chunks: seq<StoredChunk>, start: nat, cut: nat, lo: nat, hi: nat)
    requires lo <= hi <= |chunks|
    requires forall i :: 0 <= i < |chunks| ==> (i < lo <==> EndOf(chunks[i]) <= start)
    requires forall i :: 0 <= i < |chunks| ==> (i < hi <==> EndOf(chunks[i]) <= cut)
    ensures Within(chunks, start, cut) == chunks[lo..hi]
    decreases |chunks|
  {
    if chunks == [] {
    } else {
      var n := |chunks| - 1;
      var init := chunks[..n];
      WithinIsStretch(init, start, cut, Min(lo, n), Min(hi, n));
      if lo <= n < hi {
        assert chunks[lo..hi] == init[lo..n] + [chunks[n]];
      }
    }
  }

  /** A range between checkpoints is a stretch of whole chunks. */
  lemma {:induction false} Stretch(
      chunks: seq<StoredChunk>, final: nat, most: nat, bytesPerToken: nat, start: nat, cut: nat)
    returns (lo: nat, hi: nat)
    requires most > 0 && Matches(chunks, Runs(0, final, most), bytesPerToken)
    requires start < cut <= final && start % BLOCK == 0 && (cut % BLOCK == 0 || cut == final)
    ensures lo <= hi <= |chunks| && hi - lo == |Runs(start, cut, most)|
    ensures forall i :: 0 <= i < |chunks| ==> (i < lo <==> EndOf(chunks[i]) <= start)
    ensures forall i :: 0 <= i < |chunks| ==> (i < hi <==> EndOf(chunks[i]) <= cut)
    ensures Matches(chunks[lo..hi], Runs(start, cut, most), bytesPerToken)
  {
    hide Tiles, Runs, Holds;
    var a, b, c := Runs(0, start, most), Runs(start, cut, most), Runs(cut, final, most);
    CheckpointSplits(0, start, final, most);
    if cut < final {
      CheckpointSplits(start, cut, final, most);
    } else {
      NoRuns(final, most);
      assert b + c == b;
    }
    assert Runs(0, final, most) == a + (b + c);
    lo, hi := |a|, |a| + |b|;
    RunsTile(0, start, most);
    RunsTile(start, cut, most);
    RunsTile(cut, final, most);
    forall i | 0 <= i < |chunks|
      ensures (i < lo <==> EndOf(chunks[i]) <= start) && (i < hi <==> EndOf(chunks[i]) <= cut)
    {
      HoldsRun(chunks[i], Runs(0, final, most)[i], bytesPerToken);
      if i < |a| {
        TileEnds(a, 0, start, i);
      } else if i < hi {
        TileEnds(b, start, cut, i - lo);
      } else {
        TileEnds(c, cut, final, i - hi);
      }
    }
    assert forall i :: 0 <= i < |b| ==> b[i] == Runs(0, final, most)[lo + i];
  }

  lemma {:induction false} HoldsRun(chunk: StoredChunk, run: Run, bytesPerToken: nat)
    requires Holds(chunk, run, bytesPerToken)
    ensures EndOf(chunk) == run.start + run.count && chunk.span.tokenStart == run.start
  {
  }

  /** Tiling chunks are the partition the validator asks for. */
  lemma {:induction false} MatchIsPartition(
      chunks: seq<StoredChunk>, runs: seq<Run>, from: nat, to: nat, bytesPerToken: nat)
    requires 0 < bytesPerToken <= MAX_CHUNK_PLAINTEXT
    requires Matches(chunks, runs, bytesPerToken) && Tiles(runs, from, to)
    requires forall i :: 0 <= i < |runs| ==> runs[i].count <= MostTokens(bytesPerToken)
    ensures SpansOk(SpansOf(chunks), RefsOf(chunks), from, to, bytesPerToken)
    decreases |runs|
  {
    hide Product, ChunkRefOk, MostTokens, SpansOf, RefsOf;
    if runs == [] {
    } else {
      var c, r := chunks[1..], runs[1..];
      assert Holds(chunks[0], runs[0], bytesPerToken);
      MostFits(bytesPerToken, runs[0].count);
      assert Matches(c, r, bytesPerToken) by {
        forall i | 0 <= i < |r| ensures Holds(c[i], r[i], bytesPerToken) {
          assert Holds(chunks[i + 1], runs[i + 1], bytesPerToken);
        }
      }
      assert forall i :: 0 <= i < |r| ==> r[i] == runs[i + 1];
      MatchIsPartition(c, r, from + runs[0].count, to, bytesPerToken);
      assert SpansOf(chunks)[1..] == SpansOf(c) && RefsOf(chunks)[1..] == RefsOf(c);
    }
  }

  // ---------------------------------------------------------------------
  // Atomic groups
  // ---------------------------------------------------------------------

  /** Every grouped key sorts before `key`. */
  predicate AllBefore(keys: set<StateKey>, key: StateKey) {
    forall k :: k in keys ==> KeyLess(k, key)
  }

  /** `key` is in the group named `id`. */
  predicate Assigned(groups: seq<Group>, key: StateKey, id: u32) {
    exists i :: 0 <= i < |groups| && groups[i].id == id && key in Members(groups[i])
  }

  /** Appends a key to its group, opening the group in id order if needed. */
  method AddToGroup(groups: seq<Group>, id: u32, key: StateKey) returns (next: seq<Group>)
    requires id > 0 && GroupsOk(groups, Grouped(groups)) && AllBefore(Grouped(groups), key)
    ensures GroupsOk(next, Grouped(groups) + {key}) && Assigned(next, key, id)
    ensures forall k: StateKey, j: u32 | Assigned(groups, k, j) :: Assigned(next, k, j)
  {
    hide Members, Grouped, GroupOk, GroupsOk, Assigned;
    var i := 0;
    while i < |groups| && groups[i].id < id
      invariant i <= |groups|
      invariant forall j :: 0 <= j < i ==> groups[j].id < id
    {
      i := i + 1;
    }
    if i < |groups| && groups[i].id == id {
      next := groups[i := Group(id, groups[i].states + [key])];
      GroupExtended(groups, i, key);
      AssignedKept(groups, next, i, 0);
      AssignedAt(next, i, key);
    } else {
      next := groups[..i] + [Group(id, [key])] + groups[i..];
      GroupInserted(groups, i, id, key);
      AssignedKept(groups, next, i, 1);
      AssignedAt(next, i, key);
    }
  }

  lemma {:induction false} AssignedAt(groups: seq<Group>, i: nat, key: StateKey)
    requires i < |groups| && key in Members(groups[i])
    ensures Assigned(groups, key, groups[i].id)
  {
  }

  /** Every group is still there, shifted past the insertion, and no smaller. */
  lemma {:induction false} AssignedKept(groups: seq<Group>, next: seq<Group>, i: nat, shift: nat)
    requires |next| == |groups| + shift && i <= |groups|
    requires forall j :: 0 <= j < |groups| ==>
               && next[if j < i then j else j + shift].id == groups[j].id
               && Members(groups[j]) <= Members(next[if j < i then j else j + shift])
    ensures forall k: StateKey, id: u32 | Assigned(groups, k, id) :: Assigned(next, k, id)
  {
    hide Members;
    forall k: StateKey, id: u32 | Assigned(groups, k, id) ensures Assigned(next, k, id) {
      var j :| 0 <= j < |groups| && groups[j].id == id && k in Members(groups[j]);
      var t := if j < i then j else j + shift;
      assert next[t].id == id && k in Members(next[t]);
    }
  }

  lemma {:induction false} KeyNotBeforeItself(key: StateKey)
    ensures !KeyLess(key, key)
  {
    BytesLessIrreflexive(key.name);
  }

  lemma {:induction false} GroupGrows(g: Group, keys: set<StateKey>, key: StateKey)
    requires GroupOk(g, keys) && AllBefore(keys, key)
    ensures GroupOk(Group(g.id, g.states + [key]), keys + {key})
    ensures Members(Group(g.id, g.states + [key])) == Members(g) + {key} && key !in Members(g)
  {
    hide KeyLess;
    KeyNotBeforeItself(key);
    var s := g.states + [key];
    if |g.states| > 0 {
      assert g.states[|g.states| - 1] in Members(g);
    }
    forall i | 0 < i < |s| ensures KeyLess(s[i - 1], s[i]) {
      assert i < |g.states| ==> KeyLess(g.states[i - 1], g.states[i]);
    }
  }

  lemma {:induction false} GroupWidens(g: Group, keys: set<StateKey>, key: StateKey)
    requires GroupOk(g, keys)
    ensures GroupOk(g, keys + {key})
  {
    hide Ascending;
  }

  lemma {:induction false} GroupExtended(groups: seq<Group>, i: nat, key: StateKey)
    requires GroupsOk(groups, Grouped(groups)) && AllBefore(Grouped(groups), key) && i < |groups|
    ensures GroupsOk(groups[i := Group(groups[i].id, groups[i].states + [key])], Grouped(groups) + {key})
    ensures Members(Group(groups[i].id, groups[i].states + [key])) == Members(groups[i]) + {key}
  {
    hide Members, Grouped, GroupOk, KeyLess;
    var keys := Grouped(groups);
    var next := groups[i := Group(groups[i].id, groups[i].states + [key])];
    GroupGrows(groups[i], keys, key);
    KeyNotBeforeItself(key);
    forall j | 0 <= j < |groups| && j != i ensures GroupOk(next[j], keys + {key}) && key !in Members(groups[j]) {
      GroupWidens(groups[j], keys, key);
      GroupPartsOf(groups[j], keys);
    }
    assert forall j, k :: 0 <= j < k < |groups| ==> Follows(groups[j], groups[k]);
    forall j, k | 0 <= j < k < |next| ensures Follows(next[j], next[k]) {
      assert Follows(groups[j], groups[k]);
    }
    forall k ensures k in Grouped(next) <==> k in keys + {key} {
      GroupedHas(next, k);
      GroupedHas(groups, k);
      if j :| 0 <= j < |groups| && k in Members(groups[j]) {
        assert k in Members(next[j]);
      }
      assert k == key ==> k in Members(next[i]);
    }
  }

  lemma {:induction false} GroupPartsOf(g: Group, keys: set<StateKey>)
    requires GroupOk(g, keys)
    ensures Members(g) <= keys && g.id > 0
  {
  }

  lemma {:induction false} GroupInserted(groups: seq<Group>, i: nat, id: u32, key: StateKey)
    requires GroupsOk(groups, Grouped(groups)) && AllBefore(Grouped(groups), key) && i <= |groups| && id > 0
    requires forall j :: 0 <= j < i ==> groups[j].id < id
    requires i < |groups| ==> id < groups[i].id
    ensures GroupsOk(groups[..i] + [Group(id, [key])] + groups[i..], Grouped(groups) + {key})
    ensures Members(Group(id, [key])) == {key}
  {
    hide Members, Grouped, GroupOk, KeyLess;
    var keys, g := Grouped(groups), Group(id, [key]);
    var next := groups[..i] + [g] + groups[i..];
    KeyNotBeforeItself(key);
    NewGroup(id, key, keys + {key});
    forall j | 0 <= j < |groups| ensures GroupOk(groups[j], keys + {key}) && key !in Members(groups[j]) {
      GroupWidens(groups[j], keys, key);
      GroupPartsOf(groups[j], keys);
    }
    forall j | i <= j < |groups| ensures id < groups[j].id {
      assert i < j ==> Follows(groups[i], groups[j]);
    }
    forall j, k | 0 <= j < k < |next| ensures Follows(next[j], next[k]) {
      var x, y := if j < i then j else j - 1, if k < i then k else k - 1;
      assert j != i && k != i ==> Follows(groups[x], groups[y]);
    }
    forall k ensures k in Grouped(next) <==> k in keys + {key} {
      GroupedHas(next, k);
      GroupedHas(groups, k);
      if j :| 0 <= j < |groups| && k in Members(groups[j]) {
        assert k in Members(next[if j < i then j else j + 1]);
      }
      assert k == key ==> k in Members(next[i]);
    }
  }

  lemma {:induction false} NewGroup(id: u32, key: StateKey, keys: set<StateKey>)
    requires id > 0 && key in keys
    ensures GroupOk(Group(id, [key]), keys) && Members(Group(id, [key])) == {key}
  {
  }

  // ---------------------------------------------------------------------
  // One state of one manifest
  // ---------------------------------------------------------------------

  /** The store holds the state's chunks, cut as planned. */
  predicate StoredOk(fs: FamilyState, stored: StoredState, final: nat) {
    && 0 < BytesPerToken(fs) <= MAX_CHUNK_PLAINTEXT && stored.key == fs.key
    && MostTokens(BytesPerToken(fs)) > 0 && |stored.chunks| <= MAX_CHUNKS_PER_STATE
    && Matches(stored.chunks, Runs(0, final, MostTokens(BytesPerToken(fs))), BytesPerToken(fs))
  }

  predicate CutOk(start: nat, cut: nat, final: nat) {
    start < cut <= final && start % BLOCK == 0 && (cut % BLOCK == 0 || cut == final)
  }

  /** The facts a validated family gives about one state. */
  predicate Sized(fs: FamilyState) {
    && OneToken(fs.dims, fs.tokenAxis) && |fs.dims| <= MAX_RANK
    && fs.elementsPerToken == FixedVolume(fs.dims) > 0 && WidthOk(fs.width)
  }

  /** The realized schema of one state, as the exporter writes it. */
  predicate Describes(fs: FamilyState, d: Declaration, r: Realized, p: Payload, start: nat, cut: nat)
    requires Sized(fs) && start < cut
  {
    ShapePositive(fs.dims, cut);
    ShapePositive(fs.dims, cut - start);
    var strides := StridesForCut(fs, d, cut);
    && r.key == fs.key == p.key && |strides| == |fs.dims|
    && r.fullShape == ShapeFor(fs.dims, cut) && r.segmentShape == ShapeFor(fs.dims, cut - start)
    && r.strides == strides && r.logicalStart == start && r.logicalCount == cut - start
    && r.physicalOffset == Product(Product(start, strides[fs.tokenAxis]), fs.width)
    && r.physicalSpan == Footprint(r.segmentShape, strides, fs.width)
    && r.completePhysical == Footprint(r.fullShape, strides, fs.width)
    && r.absolutePosition == cut && r.window == 0
  }

  /** A described state with the right chunks is accepted by every reader,
      unless it is a tail window inside a delta. */
  lemma {:induction false} DescribedIsOk(
      fs: FamilyState, d: Declaration, r: Realized, p: Payload, kind: Kind, cut: nat, final: nat)
    requires Sized(fs) && CutStart(kind) < cut <= final && DeclaredOk(fs, d, final)
    requires Describes(fs, d, r, p, CutStart(kind), cut)
    requires 0 < |r.spans| <= MAX_CHUNKS_PER_STATE && |p.chunks| == |r.spans|
    requires SpansOk(r.spans, p.chunks, CutStart(kind), cut, BytesPerToken(fs))
    ensures StateOk(fs, r, p, kind, cut, MAX_CHUNKS_PER_STATE) <==> kind.Full? || !fs.rule.TailWindow?
  {
    hide Product, Volume, Strides, ShapeFor, FixedVolume, SpansOk, OneToken, Footprint, BytesPerToken, DeclaredOk,
      Positive;
    var start := CutStart(kind);
    CutFits(fs, d, final, start, cut);
    DeclaredBytes(fs, d, final);
    ShapeBytes(fs, cut);
    ShapeBytes(fs, cut - start);
    AxisInRange(fs);
    if kind.Full? || !fs.rule.TailWindow? {
      assert RangeOk(fs, r, kind, cut);
      assert StridesOk(fs, r);
      assert BytesOk(fs, r);
      assert FootprintsOk(fs, r);
      assert ChunksOk(fs, r, p, MAX_CHUNKS_PER_STATE);
    }
  }

  lemma {:induction false} AxisInRange(fs: FamilyState)
    requires Sized(fs)
    ensures fs.tokenAxis < |fs.dims|
  {
  }

  lemma {:induction false} DeclaredBytes(fs: FamilyState, d: Declaration, final: nat)
    requires FixedVolume(fs.dims) > 0 && final > 0 && DeclaredOk(fs, d, final)
    ensures 0 < BytesPerToken(fs) <= MAX_CHUNK_PLAINTEXT && Product(final, BytesPerToken(fs)) < U64_LIMIT
    ensures d.key == fs.key && d.atomicGroup > 0
  {
  }

  datatype BuiltState = BuiltState(realized: Realized, payload: Payload, segmentBytes: u64, completeBytes: u64)

  predicate BuiltOk(fs: FamilyState, d: Declaration, stored: StoredState, built: BuiltState, start: nat, cut: nat)
    requires Sized(fs) && start < cut
  {
    && Drawn(stored, built.realized, built.payload, start, cut)
    && Describes(fs, d, built.realized, built.payload, start, cut)
    && 0 < |built.realized.spans| <= MAX_CHUNKS_PER_STATE
    && |built.payload.chunks| == |built.realized.spans|
    && SpansOk(built.realized.spans, built.payload.chunks, start, cut, BytesPerToken(fs))
    && built.segmentBytes == Product(cut - start, BytesPerToken(fs))
    && built.completeBytes == Product(cut, BytesPerToken(fs))
  }

  /** Spans and references are those of the stored chunks in the range. */
  predicate Drawn(stored: StoredState, r: Realized, p: Payload, start: nat, cut: nat) {
    && r.spans == SpansOf(Within(stored.chunks, start, cut))
    && p.chunks == RefsOf(Within(stored.chunks, start, cut))
  }

  datatype BuildError = InventoryChanged | NotCovered | Overflow | EmptyRange | TotalOverflow

  /** One iteration of the manifest builder; no declared state makes it fail. */
  method BuildState(fs: FamilyState, d: Declaration, stored: StoredState, start: u64, cut: u64, ghost final: nat)
    returns (r: Result<BuiltState, BuildError>)
    requires Sized(fs) && CutOk(start, cut, final) && DeclaredOk(fs, d, final) && StoredOk(fs, stored, final)
    ensures r.Ok? && BuiltOk(fs, d, stored, r.value, start, cut)
  {
    hide Product, Volume, Strides, ShapeFor, FixedVolume, SpansOk, OneToken, Footprint, BytesPerToken, DeclaredOk,
      Positive, Matches, Runs, MostTokens, Within;
    DeclaredBytes(fs, d, final);
    if stored.key != fs.key || stored.key != d.key {
      return Err(InventoryChanged);
    }
    ghost var lo, hi := Stretch(stored.chunks, final, MostTokens(BytesPerToken(fs)), BytesPerToken(fs), start, cut);
    var selected := Select(stored.chunks, start, cut, lo, hi);
    WithinIsStretch(stored.chunks, start, cut, lo, hi);
    SelectedCovers(fs, selected, start, cut);
    if |selected| == 0 || selected[0].span.tokenStart != start || EndOf(selected[|selected| - 1]) != cut {
      return Err(NotCovered);
    }
    CutFits(fs, d, final, start, cut);
    AxisInRange(fs);
    var full, segment := ShapeFor(fs.dims, cut), ShapeFor(fs.dims, cut - start);
    var strides := d.strides;
    if fs.contiguous {
      var contiguous := ContiguousStrides(full);
      if contiguous.None? {
        return Err(Overflow);
      }
      strides := contiguous.value;
    }
    var offset := CheckedOffset(start, strides[fs.tokenAxis], fs.width);
    var span := PhysicalFootprint(segment, strides, fs.width);
    var complete := PhysicalFootprint(full, strides, fs.width);
    if offset.None? || span.None? || complete.None? {
      return Err(Overflow);
    }
    var bytes := BytesPerToken(fs);
    var segmentBytes, completeBytes := Product(cut - start, bytes), Product(cut, bytes);
    if segmentBytes >= U64_LIMIT || completeBytes >= U64_LIMIT {
      return Err(Overflow);
    }
    var realized := Realized(stored.key, full, segment, strides, start, cut - start, offset.value, span.value,
                             complete.value, cut, 0, SpansOf(selected));
    return Ok(BuiltState(realized, Payload(stored.key, RefsOf(selected)), segmentBytes, completeBytes));
  }

  lemma {:induction false} SelectedCovers(fs: FamilyState, selected: seq<StoredChunk>, start: nat, cut: nat)
    requires 0 < BytesPerToken(fs) <= MAX_CHUNK_PLAINTEXT && start < cut && MostTokens(BytesPerToken(fs)) > 0
    requires Matches(selected, Runs(start, cut, MostTokens(BytesPerToken(fs))), BytesPerToken(fs))
    ensures |selected| > 0 && selected[0].span.tokenStart == start && EndOf(selected[|selected| - 1]) == cut
    ensures SpansOk(SpansOf(selected), RefsOf(selected), start, cut, BytesPerToken(fs))
  {
    hide Product, SpansOk, BytesPerToken, MostTokens, Holds, Tiles, Runs;
    var most := MostTokens(BytesPerToken(fs));
    var runs := Runs(start, cut, most);
    RunsTile(start, cut, most);
    TileAhead(runs, start, cut);
    TileEnds(runs, start, cut, 0);
    TileEnds(runs, start, cut, |runs| - 1);
    HoldsRun(selected[0], runs[0], BytesPerToken(fs));
    HoldsRun(selected[|runs| - 1], runs[|runs| - 1], BytesPerToken(fs));
    MatchIsPartition(selected, runs, start, cut, BytesPerToken(fs));
  }

  // ---------------------------------------------------------------------
  // One manifest
  // ---------------------------------------------------------------------

  type Node = PrefixChain.PrefixNode

  /** The identities every manifest of an export carries. */
  datatype Site = Site(tenant: Id, keyEpoch: u64, semantic: SemanticModel, auxiliaryRoot: Id)

  /** A cut is named by the node at its end and the site's auxiliary inputs. */
  predicate CutNamed(cut: InputCut, site: Site, node: Node) {
    cut.tokenRoot == node.id && cut.auxiliaryRoot == site.auxiliaryRoot && cut.tokenCount == node.tokenCount
  }

  function BoundsOf(e: Export): Bounds {
    Bounds(MAX_STATES, MAX_CHUNKS_PER_STATE, e.maximumRestoredBytes)
  }

  predicate NoTail(f: Family) {
    forall i :: 0 <= i < |f.states| ==> !f.states[i].rule.TailWindow?
  }

  ghost predicate CompletedOk(e: Export, completed: seq<StoredState>) {
    && ExportOk(e) && |completed| == |e.family.states|
    && forall i :: 0 <= i < |completed| ==> StoredOk(e.family.states[i], completed[i], e.finalTokens)
  }

  /** The first `n` states were described and grouped. */
  ghost predicate BuiltUpTo(e: Export, rs: seq<Realized>, ps: seq<Payload>, start: nat, cut: nat, n: nat)
    requires n <= |e.family.states| == |e.declarations| && start < cut
  {
    && |rs| == |ps| == n
    && forall i :: 0 <= i < n ==> BuiltAt(e.family.states[i], e.declarations[i], rs[i], ps[i], start, cut)
  }

  predicate BuiltAt(fs: FamilyState, d: Declaration, r: Realized, p: Payload, start: nat, cut: nat)
    requires start < cut
  {
    && Sized(fs) && Describes(fs, d, r, p, start, cut)
    && 0 < |r.spans| <= MAX_CHUNKS_PER_STATE && |p.chunks| == |r.spans|
    && SpansOk(r.spans, p.chunks, start, cut, BytesPerToken(fs))
  }

  lemma {:induction false} RestoredMonotone(f: Family, few: nat, many: nat, n: nat, total: nat)
    requires few <= many && n <= total <= |f.states|
    ensures RestoredAt(f, few, n) <= RestoredAt(f, many, total)
    decreases total
  {
    hide Product;
    if n < total {
      RestoredMonotone(f, few, many, n, total - 1);
    } else if n > 0 {
      RestoredMonotone(f, few, many, n - 1, n - 1);
      ProductMonotone(BytesPerToken(f.states[n - 1]), few, many);
    }
  }

  lemma {:induction false} StateIsSized(e: Export, n: nat)
    requires ExportOk(e) && n < |e.family.states|
    ensures Sized(e.family.states[n])
    ensures DeclaredOk(e.family.states[n], e.declarations[n], e.finalTokens)
  {
    hide FamilyOk, DeclaredOk, FixedVolume, OneToken, WidthOk, RestoredAt, PhysicalAt;
    StateFacts(e.family, n);
  }

  /** Keys of the first `n` states, all before the next one. */
  lemma {:induction false} KeysGrow(f: Family, n: nat)
    requires FamilyOk(f) && n < |f.states|
    ensures KeySet(f.states[..n + 1]) == KeySet(f.states[..n]) + {f.states[n].key}
    ensures AllBefore(KeySet(f.states[..n]), f.states[n].key)
  {
    hide KeyLess, FamilyStateOk, DependenciesOk;
    assert f.states[..n + 1] == f.states[..n] + [f.states[n]];
    assert KeysOf(f.states[..n + 1]) == KeysOf(f.states[..n]) + [f.states[n].key];
    forall k | k in KeySet(f.states[..n]) ensures KeyLess(k, f.states[n].key) {
      var i :| 0 <= i < n && KeysOf(f.states[..n])[i] == k;
      AscendingFrom(KeysOf(f.states), i, n);
    }
  }

  /** Byte totals of a built manifest, as the validator recomputes them. */
  lemma {:induction false} TotalsAgree(e: Export, m: Manifest, start: nat, cut: nat, n: nat)
    requires ExportOk(e) && m.family == e.family && start < cut
    requires |m.realized| == |m.states| == |e.family.states| && n <= |m.realized|
    requires BuiltUpTo(e, m.realized, m.states, start, cut, |m.realized|)
    ensures SegmentTotal(m, n) == RestoredAt(e.family, cut - start, n)
    ensures CompleteTotal(m, n) == RestoredAt(e.family, cut, n)
    decreases n
  {
    hide Product, Volume, BytesPerToken, FamilyOk, DeclaredUpTo, PhysicalAt, BuiltUpTo;
    if n == 0 {
    } else {
      TotalsAgree(e, m, start, cut, n - 1);
      BuiltBytes(e, m, start, cut, n - 1);
    }
  }

  /** Bytes of one built state, read off its shapes. */
  lemma {:induction false} BuiltBytes(e: Export, m: Manifest, start: nat, cut: nat, n: nat)
    requires ExportOk(e) && m.family == e.family && start < cut
    requires |m.realized| == |m.states| == |e.family.states| && n < |m.realized|
    requires |e.declarations| == |e.family.states|
    requires BuiltUpTo(e, m.realized, m.states, start, cut, |m.realized|)
    ensures var fs := e.family.states[n];
            && Product(Volume(m.realized[n].segmentShape), fs.width) == Product(cut - start, BytesPerToken(fs))
            && Product(Volume(m.realized[n].fullShape), fs.width) == Product(cut, BytesPerToken(fs))
  {
    hide Product, Volume, ShapeFor, FixedVolume, OneToken, SpansOk, BytesPerToken, WidthOk, Footprint, FamilyOk,
      DeclaredUpTo, PhysicalAt;
    var fs := e.family.states[n];
    assert BuiltAt(fs, e.declarations[n], m.realized[n], m.states[n], start, cut);
    ShapeBytes(fs, cut);
    ShapeBytes(fs, cut - start);
  }

  /** A reader accepts a built manifest exactly when its identities are
      nonzero and no tail window sits in a delta. */
  lemma {:induction false} BuiltIsAccepted(e: Export, m: Manifest)
    requires ExportOk(e) && m.family == e.family && CutStart(m.kind) < m.inputCut.tokenCount <= e.finalTokens
    requires |m.realized| == |m.states| == |e.family.states|
    requires BuiltUpTo(e, m.realized, m.states, CutStart(m.kind), m.inputCut.tokenCount, |m.realized|)
    requires GroupsOk(m.groups, KeySet(e.family.states))
    requires m.segmentBytes == SegmentTotal(m, |m.realized|)
    requires m.completeBytes == CompleteTotal(m, |m.realized|) <= e.maximumRestoredBytes
    ensures ManifestOk(m, BoundsOf(e)) <==>
              IdentitiesOk(m) && KindOk(m) && (m.kind.Full? || NoTail(e.family))
  {
    hide FamilyOk, GroupsOk, SegmentTotal, CompleteTotal, StateOk, IdentitiesOk, KindOk, OneToken, Describes, SpansOk,
      DeclaredOk, Sized, RestoredAt, PhysicalAt;
    var cut := m.inputCut.tokenCount;
    forall i | 0 <= i < |m.realized|
      ensures && OneToken(e.family.states[i].dims, e.family.states[i].tokenAxis)
              && (StateOk(e.family.states[i], m.realized[i], m.states[i], m.kind, cut, MAX_CHUNKS_PER_STATE)
                  <==> m.kind.Full? || !e.family.states[i].rule.TailWindow?)
    {
      StateIsSized(e, i);
      SizedAxis(e.family.states[i]);
      assert BuiltAt(e.family.states[i], e.declarations[i], m.realized[i], m.states[i], CutStart(m.kind), cut);
      DescribedIsOk(e.family.states[i], e.declarations[i], m.realized[i], m.states[i], m.kind, cut, e.finalTokens);
    }
    FamilyBounds(e.family);
  }

  lemma {:induction false} SizedAxis(fs: FamilyState)
    requires Sized(fs)
    ensures OneToken(fs.dims, fs.tokenAxis)
  {
  }

  lemma {:induction false} FamilyBounds(f: Family)
    requires FamilyOk(f)
    ensures 0 < |f.states| <= MAX_STATES
  {
  }

  /** Every state carries its own stored chunks and sits in its own group. */
  ghost predicate Faithful(e: Export, completed: seq<StoredState>, m: Manifest) {
    && |m.realized| == |m.states| == |completed| == |e.declarations|
    && (forall i :: 0 <= i < |completed| ==>
          Drawn(completed[i], m.realized[i], m.states[i], CutStart(m.kind), m.inputCut.tokenCount))
    && (forall i :: 0 <= i < |completed| ==>
          Assigned(m.groups, e.declarations[i].key, e.declarations[i].atomicGroup))
  }

  /** The first `n` states, their chunks and their groups. */
  ghost predicate SoFar(e: Export, completed: seq<StoredState>, rs: seq<Realized>, ps: seq<Payload>,
                        groups: seq<Group>, start: nat, cut: nat, n: nat)
    requires n <= |e.family.states| == |e.declarations| == |completed| && start < cut
  {
    && BuiltUpTo(e, rs, ps, start, cut, n)
    && GroupsOk(groups, Grouped(groups)) && Grouped(groups) == KeySet(e.family.states[..n])
    && (forall i :: 0 <= i < n ==> Drawn(completed[i], rs[i], ps[i], start, cut))
    && (forall i :: 0 <= i < n ==> Assigned(groups, e.declarations[i].key, e.declarations[i].atomicGroup))
  }

  /** One iteration of the loop over the states. */
  method AddState(e: Export, completed: seq<StoredState>, rs: seq<Realized>, ps: seq<Payload>, groups: seq<Group>,
                  start: u64, cut: u64, n: nat)
    returns (r: Result<BuiltState, BuildError>, next: seq<Group>)
    requires CompletedOk(e, completed) && CutOk(start, cut, e.finalTokens) && n < |completed|
    requires SoFar(e, completed, rs, ps, groups, start, cut, n)
    ensures r.Ok?
    ensures SoFar(e, completed, rs + [r.value.realized], ps + [r.value.payload], next, start, cut, n + 1)
    ensures r.value.segmentBytes == Product(cut - start, BytesPerToken(e.family.states[n]))
    ensures r.value.completeBytes == Product(cut, BytesPerToken(e.family.states[n]))
  {
    hide FamilyOk, GroupsOk, StoredOk, DeclaredOk, Sized, RestoredAt, PhysicalAt, BuiltAt, BuiltOk, KeySet, AllBefore,
      Grouped, Drawn, Assigned, Product, BytesPerToken;
    next := groups;
    var fs, d := e.family.states[n], e.declarations[n];
    StateIsSized(e, n);
    var built := BuildState(fs, d, completed[n], start, cut, e.finalTokens);
    if built.Err? {
      return Err(InventoryChanged), groups;
    }
    BuiltParts(fs, d, completed[n], built.value, start, cut);
    KeysGrow(e.family, n);
    GroupIdSet(fs, d, e.finalTokens);
    next := AddToGroup(groups, d.atomicGroup, fs.key);
    WholeGroups(next, KeySet(e.family.states[..n + 1]));
    return built, next;
  }

  method ManifestForCut(e: Export, site: Site, completed: seq<StoredState>, node: Node, kind: Kind)
    returns (r: Result<Manifest, BuildError>)
    requires CompletedOk(e, completed) && CutOk(CutStart(kind), node.tokenCount, e.finalTokens)
    ensures r.Ok?
    ensures var m := r.value;
            && m.kind == kind && m.family == e.family && m.inputCut.tokenRoot == node.id
            && m.inputCut.auxiliaryRoot == site.auxiliaryRoot && m.inputCut.tokenCount == node.tokenCount
            && m.tenant == site.tenant && m.keyEpoch == site.keyEpoch && m.semantic == site.semantic
            && (ManifestOk(m, BoundsOf(e)) <==>
                  IdentitiesOk(m) && KindOk(m) && (kind.Full? || NoTail(e.family)))
            && Faithful(e, completed, m)
  {
    hide FamilyOk, GroupsOk, StoredOk, DeclaredUpTo, RestoredAt, PhysicalAt, SegmentTotal, CompleteTotal, ManifestOk,
      IdentitiesOk, KindOk, NoTail, SoFar, Faithful, BytesPerToken, Product;
    var start, cut := CutStart(kind), node.tokenCount;
    if cut <= start {
      return Err(EmptyRange);
    }
    var realized: seq<Realized>, payloads: seq<Payload>, groups: seq<Group> := [], [], [];
    var segmentBytes: nat, completeBytes: nat := 0, 0;
    NothingBuilt(e, completed, start, cut);
    for n := 0 to |completed|
      invariant SoFar(e, completed, realized, payloads, groups, start, cut, n)
      invariant segmentBytes == RestoredAt(e.family, cut - start, n)
      invariant completeBytes == RestoredAt(e.family, cut, n)
    {
      var built, next := AddState(e, completed, realized, payloads, groups, start, cut, n);
      if built.Err? {
        return Err(InventoryChanged);
      }
      RestoredStep(e.family, cut - start, n);
      RestoredStep(e.family, cut, n);
      RestoredMonotone(e.family, cut - start, e.finalTokens, n + 1, |e.family.states|);
      RestoredMonotone(e.family, cut, e.finalTokens, n + 1, |e.family.states|);
      segmentBytes := segmentBytes + built.value.segmentBytes;
      completeBytes := completeBytes + built.value.completeBytes;
      if segmentBytes >= U64_LIMIT || completeBytes >= U64_LIMIT {
        return Err(TotalOverflow);
      }
      realized, payloads, groups := realized + [built.value.realized], payloads + [built.value.payload], next;
    }
    RestoredMonotone(e.family, cut - start, e.finalTokens, |completed|, |completed|);
    RestoredMonotone(e.family, cut, e.finalTokens, |completed|, |completed|);
    var m := Manifest(site.tenant, site.keyEpoch, site.semantic,
                      PrefixChain.InputCut(node.id, site.auxiliaryRoot, cut), e.family, kind, realized, groups,
                      segmentBytes, completeBytes, payloads);
    Assembled(e, completed, m);
    return Ok(m);
  }

  /** The finished loop makes a manifest readers judge by its identities. */
  lemma {:induction false} Assembled(e: Export, completed: seq<StoredState>, m: Manifest)
    requires CompletedOk(e, completed) && m.family == e.family
    requires CutStart(m.kind) < m.inputCut.tokenCount <= e.finalTokens
    requires SoFar(e, completed, m.realized, m.states, m.groups, CutStart(m.kind), m.inputCut.tokenCount, |completed|)
    requires m.segmentBytes == RestoredAt(e.family, m.inputCut.tokenCount - CutStart(m.kind), |completed|)
    requires m.completeBytes == RestoredAt(e.family, m.inputCut.tokenCount, |completed|) <= e.maximumRestoredBytes
    ensures ManifestOk(m, BoundsOf(e)) <==>
              IdentitiesOk(m) && KindOk(m) && (m.kind.Full? || NoTail(e.family))
    ensures Faithful(e, completed, m)
  {
    hide FamilyOk, GroupsOk, StoredOk, DeclaredUpTo, RestoredAt, PhysicalAt, SegmentTotal, CompleteTotal, ManifestOk,
      IdentitiesOk, KindOk, NoTail, BuiltAt, KeySet, Grouped, Drawn, Assigned;
    assert e.family.states[..|completed|] == e.family.states;
    TotalsAgree(e, m, CutStart(m.kind), m.inputCut.tokenCount, |completed|);
    BuiltIsAccepted(e, m);
  }

  lemma {:induction false} NothingBuilt(e: Export, completed: seq<StoredState>, start: nat, cut: nat)
    requires |e.family.states| == |e.declarations| == |completed| && start < cut
    ensures RestoredAt(e.family, cut - start, 0) == 0 && RestoredAt(e.family, cut, 0) == 0
    ensures SoFar(e, completed, [], [], [], start, cut, 0)
  {
    assert KeysOf(e.family.states[..0]) == [];
  }

  lemma {:induction false} BuiltParts(
      fs: FamilyState, d: Declaration, stored: StoredState, built: BuiltState, start: nat, cut: nat)
    requires Sized(fs) && start < cut && BuiltOk(fs, d, stored, built, start, cut)
    ensures Drawn(stored, built.realized, built.payload, start, cut)
    ensures BuiltAt(fs, d, built.realized, built.payload, start, cut)
    ensures built.segmentBytes == Product(cut - start, BytesPerToken(fs))
    ensures built.completeBytes == Product(cut, BytesPerToken(fs))
  {
    hide Describes, SpansOk, Product, Sized, Within;
  }

  lemma {:induction false} RestoredStep(f: Family, tokens: nat, n: nat)
    requires n < |f.states|
    ensures RestoredAt(f, tokens, n + 1) == RestoredAt(f, tokens, n) + Product(tokens, BytesPerToken(f.states[n]))
  {
  }

  lemma {:induction false} GroupIdSet(fs: FamilyState, d: Declaration, final: nat)
    requires Sized(fs) && final > 0 && DeclaredOk(fs, d, final)
    ensures d.atomicGroup > 0 && d.key == fs.key
  {
    hide Footprint, Product, Volume, Strides, ShapeFor;
  }

  lemma {:induction false} WholeGroups(groups: seq<Group>, keys: set<StateKey>)
    requires GroupsOk(groups, keys)
    ensures Grouped(groups) == keys
  {
  }
}
