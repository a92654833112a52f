/** How an export cuts a token stream into chunks. */
module Chunking {
  import opened Machine
  import opened Consts

  /** A run of whole tokens. */
  datatype Run = Run(start: nat, count: nat)

  function BlockEnd(start: nat): nat {
    (start / BLOCK + 1) * BLOCK
  }

  /** Tokens of the chunk that starts at `start`. */
  function NextTokens(start: nat, final: nat, most: nat): nat
    requires start < final && most > 0
  {
    Min(most, Min(BlockEnd(start) - start, final - start))
  }

  method NextChunkBytes(start: u64, final: u64, bytesPerToken: u64, most: u64) returns (r: Option<u64>)
    requires most > 0
    ensures start >= final ==> r == Some(0)
    ensures start < final && BlockEnd(start) < U64_LIMIT ==>
              r == if Product(NextTokens(start, final, most), bytesPerToken) < U64_LIMIT
                   then Some(Product(NextTokens(start, final, most), bytesPerToken)) else None
    ensures start < final && BlockEnd(start) >= U64_LIMIT ==> r == None
  {
    if start >= final {
      return Some(0);
    }
    var checkpoint := (start / BLOCK + 1) * BLOCK;
    if checkpoint >= U64_LIMIT {
      return None;
    }
    var tokens := Min(Min(most, checkpoint - start), final - start);
    var bytes := Product(tokens, bytesPerToken);
    return if bytes < U64_LIMIT then Some(bytes) else None;
  }

  /** A bounded source never runs into either overflow. */
  lemma {:induction false} NextChunkFits(start: nat, final: nat, bytesPerToken: nat, most: nat)
    requires start < final <= U64_LIMIT - BLOCK && most > 0
    requires Product(final, bytesPerToken) < U64_LIMIT
    ensures BlockEnd(start) < U64_LIMIT
    ensures Product(NextTokens(start, final, most), bytesPerToken) < U64_LIMIT
  {
    ProductMonotone(bytesPerToken, NextTokens(start, final, most), final);
    assert BlockEnd(start) <= start + BLOCK;
  }

  /** Every chunk of `[start, final)`. */
  function Runs(start: nat, final: nat, most: nat): seq<Run>
    requires start <= final && most > 0
    decreases final - start
  {
    if start == final then []
    else
      var n := NextTokens(start, final, most);
      [Run(start, n)] + Runs(start + n, final, most)
  }

  /** Adjacent nonempty runs from `from` to `to`. */
  predicate Tiles(runs: seq<Run>, from: nat, to: nat) {
    if runs == [] then from == to
    else runs[0].start == from && runs[0].count > 0 && Tiles(runs[1..], from + runs[0].count, to)
  }

  predicate WithinBlock(r: Run) {
    r.count > 0 && r.start / BLOCK == (r.start + r.count - 1) / BLOCK
  }

  lemma {:induction false} TilesConcat(a: seq<Run>, b: seq<Run>, from: nat, mid: nat, to: nat)
    requires Tiles(a, from, mid) && Tiles(b, mid, to)
    ensures Tiles(a + b, from, to)
    decreases |a|
  {
    if a == [] {
      assert a + b == b;
    } else {
      TilesConcat(a[1..], b, from + a[0].count, mid, to);
      assert (a + b)[1..] == a[1..] + b;
    }
  }

  /** The chunks tile the range, none crosses a checkpoint, none is oversized. */
  lemma {:induction false} RunsTile(start: nat, final: nat, most: nat)
    requires start <= final && most > 0
    ensures Tiles(Runs(start, final, most), start, final)
    ensures forall i :: 0 <= i < |Runs(start, final, most)| ==>
              WithinBlock(Runs(start, final, most)[i]) && Runs(start, final, most)[i].count <= most
    decreases final - start
  {
    if start >= final {
    } else {
      var n := NextTokens(start, final, most);
      RunsTile(start + n, final, most);
      FirstRun(start, final, most);
      var rest := Runs(start + n, final, most);
      assert Runs(start, final, most)[1..] == rest;
    }
  }

  lemma {:induction false} FirstRun(start: nat, final: nat, most: nat)
    requires start < final && most > 0
    ensures 0 < NextTokens(start, final, most) <= most
    ensures WithinBlock(Run(start, NextTokens(start, final, most)))
  {
  }

  /** Every checkpoint is a chunk boundary: cutting there splits the chunk
      list, and the first part is the chunk list of the shorter stream. */
  lemma {:induction false} CheckpointSplits(start: nat, cut: nat, final: nat, most: nat)
    requires start <= cut <= final && most > 0 && cut % BLOCK == 0
    ensures Runs(start, final, most) == Runs(start, cut, most) + Runs(cut, final, most)
    decreases cut - start
  {
    hide Runs, NextTokens;
    if start < cut {
      var n := NextTokens(start, cut, most);
      FirstRun(start, cut, most);
      NextBeforeCheckpoint(start, cut, final, most);
      CheckpointSplits(start + n, cut, final, most);
      RunsFirst(start, cut, most);
      RunsFirst(start, final, most);
      var first, a, b := [Run(start, n)], Runs(start + n, cut, most), Runs(cut, final, most);
      assert first + (a + b) == (first + a) + b;
    } else {
      NoRuns(cut, most);
      assert [] + Runs(cut, final, most) == Runs(cut, final, most);
    }
  }

  lemma {:induction false} NoRuns(final: nat, most: nat)
    requires most > 0
    ensures Runs(final, final, most) == []
  {
  }

  lemma {:induction false} RunsFirst(start: nat, final: nat, most: nat)
    requires start < final && most > 0
    ensures start + NextTokens(start, final, most) <= final
    ensures Runs(start, final, most) ==
            [Run(start, NextTokens(start, final, most))]
            + Runs(start + NextTokens(start, final, most), final, most)
  {
    hide BlockEnd;
  }

  /** A chunk before a checkpoint does not depend on what follows it. */
  lemma {:induction false} NextBeforeCheckpoint(start: nat, cut: nat, final: nat, most: nat)
    requires start < cut <= final && most > 0 && cut % BLOCK == 0
    ensures NextTokens(start, final, most) == NextTokens(start, cut, most) <= cut - start
  {
    assert BlockEnd(start) <= cut;
  }

  // ---------------------------------------------------------------------
  // How many chunks
  // ---------------------------------------------------------------------

  function ChunksAtCut(cut: nat, most: nat): nat
    requires most > 0
  {
    Product(cut / BLOCK, CeilDiv(BLOCK, most)) + CeilDiv(cut % BLOCK, most)
  }

  lemma {:induction false} QuotAdd(n: nat, d: nat)
    requires d > 0
    ensures Quot(n + d, d) == Quot(n, d) + 1
  {
    hide Quot;
    var q := Quot(n, d);
    QuotBounds(n, d);
    MulLess(q, q + 1, d);
    MulLess(q + 1, q + 2, d);
    QuotIs(n + d, d, q + 1);
  }

  lemma {:induction false} CeilStep(n: nat, most: nat)
    requires most > 0
    ensures n == 0 ==> CeilDiv(n, most) == 0
    ensures 0 < n <= most ==> CeilDiv(n, most) == 1
    ensures n > most ==> CeilDiv(n, most) == CeilDiv(n - most, most) + 1
  {
    hide Quot, CeilDiv;
    if n > most {
      QuotAdd(n - 1, most);
      CeilIsQuot(n, most);
      CeilIsQuot(n - most, most);
    } else if n > 0 {
      QuotIs(n + most - 1, most, 1);
      CeilIsQuot(n, most);
    } else {
      QuotIs(most - 1, most, 0);
      CeilIsQuot(n, most);
    }
  }

  lemma {:induction false} CeilIsQuot(n: nat, most: nat)
    requires most > 0
    ensures CeilDiv(n, most) == Quot(n + most - 1, most)
  {
  }

  lemma {:induction false} QuotIs(n: nat, d: nat, q: nat)
    requires d > 0 && q * d <= n < (q + 1) * d
    ensures Quot(n, d) == q
  {
    hide Quot;
    QuotBounds(n, d);
    var r := Quot(n, d);
    if r < q {
      MulLess(r, q, d);
    } else if q < r {
      MulLess(q, r, d);
    }
  }

  lemma {:induction false} SameBlock(start: nat, final: nat, most: nat)
    requires start < final <= BlockEnd(start) && most > 0
    ensures NextTokens(start, final, most) == Min(most, final - start)
    ensures final <= BlockEnd(start + NextTokens(start, final, most))
  {
  }

  /** Inside one block the chunks are as large as they may be. */
  lemma {:induction false} RunsInBlock(start: nat, final: nat, most: nat)
    requires start <= final <= BlockEnd(start) && most > 0
    ensures |Runs(start, final, most)| == CeilDiv(final - start, most)
    decreases final - start
  {
    hide CeilDiv;
    CeilStep(final - start, most);
    if start >= final {
    } else {
      SameBlock(start, final, most);
      RunsInBlock(start + NextTokens(start, final, most), final, most);
      CeilStep(0, most);
    }
  }

  /** The closed form counts the chunks that iterating produces. */
  lemma {:induction false} RunsCount(final: nat, most: nat)
    requires most > 0
    ensures |Runs(0, final, most)| == ChunksAtCut(final, most)
    decreases final
  {
    var cut := final / BLOCK * BLOCK;
    CheckpointSplits(0, cut, final, most);
    RunsInBlock(cut, final, most);
    BlockRuns(final / BLOCK, most);
  }

  lemma {:induction false} BlockRuns(blocks: nat, most: nat)
    requires most > 0
    ensures |Runs(0, blocks * BLOCK, most)| == Product(blocks, CeilDiv(BLOCK, most))
    decreases blocks
  {
    hide CeilDiv;
    ProductStep(if blocks > 0 then blocks - 1 else 0, CeilDiv(BLOCK, most));
    if blocks == 0 {
    } else {
      var cut := (blocks - 1) * BLOCK;
      BlockRuns(blocks - 1, most);
      CheckpointSplits(0, cut, blocks * BLOCK, most);
      RunsInBlock(cut, blocks * BLOCK, most);
    }
  }

  /** The export loop: one chunk after another until the source ends. */
  method ChunkAll(final: u64, bytesPerToken: u64, most: u64) returns (runs: seq<Run>)
    requires most > 0 && final <= U64_LIMIT - BLOCK && Product(final, bytesPerToken) < U64_LIMIT
    requires bytesPerToken > 0
    ensures runs == Runs(0, final, most)
    ensures |runs| == ChunksAtCut(final, most) && Tiles(runs, 0, final)
  {
    hide Product, Runs, NextTokens, BlockEnd;
    runs := [];
    var start := 0;
    while start < final
      invariant start <= final
      invariant Runs(0, final, most) == runs + Runs(start, final, most)
    {
      NextChunkFits(start, final, bytesPerToken, most);
      FirstRun(start, final, most);
      RunsFirst(start, final, most);
      var bytes := NextChunkBytes(start, final, bytesPerToken, most);
      var tokens := bytes.value / bytesPerToken;
      ProductAssoc(NextTokens(start, final, most), bytesPerToken, 1);
      AverageOfEqual(bytesPerToken, NextTokens(start, final, most));
      runs := runs + [Run(start, tokens)];
      start := start + tokens;
    }
    NoRuns(final, most);
    RunsCount(final, most);
    RunsTile(0, final, most);
  }
}
