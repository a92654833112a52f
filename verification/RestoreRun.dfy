/** Carrying out a restore plan, in whatever order its chunks arrive. */
module RestoreRun {
  import opened Machine
  import opened StateKeys
  import opened CutManifests
  import opened RestorePlan
  import Permutations

  /** The bytes of each state. */
  type Contents = map<StateKey, seq<byte>>

  /** What the store serves for a write: a plaintext that passed the checks of
      the chunk decoder, or nothing. */
  type Fetch = Operation -> Option<seq<byte>>

  /** Anything served for a write is what the contents have where it goes. */
  predicate Serves(fetch: Fetch, op: Operation, contents: Contents) {
    && op.key in contents && 0 <= op.target <= op.target + op.span.bytes <= |contents[op.key]|
    && (fetch(op).Some? ==> fetch(op).value == contents[op.key][op.target..op.target + op.span.bytes])
  }

  /** The sink has the buffers of the contents, whatever is in them. */
  predicate Fits(sink: Contents, contents: Contents) {
    sink.Keys == contents.Keys && forall key :: key in contents ==> |sink[key]| == |contents[key]|
  }

  /** The place a write goes to holds what the contents have there. */
  predicate Written(sink: Contents, op: Operation, contents: Contents)
    requires Fits(sink, contents)
  {
    && op.key in contents && 0 <= op.target <= op.target + op.span.bytes <= |contents[op.key]|
    && sink[op.key][op.target..op.target + op.span.bytes]
       == contents[op.key][op.target..op.target + op.span.bytes]
  }

  function Splice(buffer: seq<byte>, at: nat, p: seq<byte>): (after: seq<byte>)
    requires at + |p| <= |buffer|
    ensures |after| == |buffer|
    ensures forall x :: 0 <= x < |buffer| ==> after[x] == if at <= x < at + |p| then p[x - at] else buffer[x]
  {
    buffer[..at] + p + buffer[at + |p|..]
  }

  lemma {:induction false} SpliceKeeps(
      buffer: seq<byte>, truth: seq<byte>, at: nat, size: nat, lo: nat, hi: nat)
    requires |buffer| == |truth| && at + size <= |truth| && lo <= hi <= |truth|
    requires buffer[lo..hi] == truth[lo..hi] || (lo == at && hi == at + size)
    ensures Splice(buffer, at, truth[at..at + size])[lo..hi] == truth[lo..hi]
  {
    var after := Splice(buffer, at, truth[at..at + size]);
    forall x | lo <= x < hi ensures after[x] == truth[x] {
      if at <= x < at + size {
      } else {
        assert buffer[lo..hi][x - lo] == truth[lo..hi][x - lo];
      }
    }
  }

  function Put(sink: Contents, op: Operation, p: seq<byte>): Contents
    requires op.key in sink && 0 <= op.target <= op.target + |p| <= |sink[op.key]|
  {
    sink[op.key := Splice(sink[op.key], op.target, p)]
  }

  /** A write puts its own place right and spoils no other. */
  lemma {:induction false} PutKeeps(sink: Contents, fetch: Fetch, op: Operation, contents: Contents, other: Operation)
    requires Fits(sink, contents) && Serves(fetch, op, contents) && fetch(op).Some?
    requires other == op || Written(sink, other, contents)
    ensures var after := Put(sink, op, fetch(op).value);
            Fits(after, contents) && Written(after, other, contents)
  {
    if other.key == op.key {
      SpliceKeeps(sink[op.key], contents[op.key], op.target, op.span.bytes,
                  other.target, other.target + other.span.bytes);
    }
  }

  datatype RestoreError = Cancelled | Unreadable | Refused

  /** Whether write number `i` goes through. */
  predicate GoesThrough(
      ops: seq<Operation>, order: seq<nat>, fetch: Fetch, takes: nat -> bool, cancelled: nat -> bool, i: nat)
    requires i < |order| && order[i] < |ops|
  {
    !cancelled(i) && fetch(ops[order[i]]).Some? && takes(i)
  }

  predicate AllGoThrough(
      ops: seq<Operation>, order: seq<nat>, fetch: Fetch, takes: nat -> bool, cancelled: nat -> bool)
    requires |order| == |ops| && Permutations.IsPermutation(order)
  {
    forall i: nat | i < |ops| :: GoesThrough(ops, order, fetch, takes, cancelled, i)
  }

  /** Every byte of every state lies in the place of some write. */
  ghost predicate Covered(ops: seq<Operation>, contents: Contents) {
    forall key, x :: key in contents && 0 <= x < |contents[key]| ==> CoveredAt(ops, key, x)
  }

  predicate CoveredAt(ops: seq<Operation>, key: StateKey, x: nat) {
    exists n :: 0 <= n < |ops| && ops[n].key == key && ops[n].target <= x < ops[n].target + ops[n].span.bytes
  }

  /** Written everywhere, the sink has the contents. */
  lemma {:induction false} Complete(sink: Contents, ops: seq<Operation>, order: seq<nat>, contents: Contents)
    requires |order| == |ops| && Permutations.IsPermutation(order) && Fits(sink, contents) && Covered(ops, contents)
    requires forall i: nat | i < |ops| :: Written(sink, ops[order[i]], contents)
    ensures sink == contents
  {
    hide Permutations.IsPermutation;
    forall key, x | key in contents && 0 <= x < |contents[key]| ensures sink[key][x] == contents[key][x] {
      assert CoveredAt(ops, key, x);
      var n :| 0 <= n < |ops| && ops[n].key == key && ops[n].target <= x < ops[n].target + ops[n].span.bytes;
      Permutations.NothingMissing(order, n);
      var slot: nat :| slot < |order| && order[slot] == n;
      assert Written(sink, ops[order[slot]], contents);
      WrittenAt(sink, ops[n], contents, x);
    }
    forall key | key in contents ensures sink[key] == contents[key] {
    }
  }

  lemma {:induction false} WrittenAt(sink: Contents, op: Operation, contents: Contents, x: nat)
    requires Fits(sink, contents) && Written(sink, op, contents)
    requires op.target <= x < op.target + op.span.bytes
    ensures sink[op.key][x] == contents[op.key][x]
  {
    var lo, hi := op.target, op.target + op.span.bytes;
    assert sink[op.key][lo..hi][x - lo] == contents[op.key][lo..hi][x - lo];
  }

  /** The writes of a plan as they come in, one after another or from several
      workers at once. It succeeds exactly if each goes through, and then each
      place holds what it should, whatever the order. */
  method Execute(ops: seq<Operation>, order: seq<nat>, fetch: Fetch, takes: nat -> bool, cancelled: nat -> bool,
                 blank: Contents, ghost contents: Contents)
    returns (r: Result<Contents, RestoreError>)
    requires |order| == |ops| && Permutations.IsPermutation(order) && Fits(blank, contents)
    requires forall n :: 0 <= n < |ops| ==> Serves(fetch, ops[n], contents)
    ensures r.Ok? <==> AllGoThrough(ops, order, fetch, takes, cancelled)
    ensures r.Ok? && Covered(ops, contents) ==> r.value == contents
  {
    hide Serves, Written, Fits, Covered;
    var sink := blank;
    for i := 0 to |order|
      invariant Fits(sink, contents)
      invariant forall j: nat | j < i :: GoesThrough(ops, order, fetch, takes, cancelled, j)
      invariant forall j: nat | j < i :: Written(sink, ops[order[j]], contents)
    {
      var op := ops[order[i]];
      if cancelled(i) {
        assert !GoesThrough(ops, order, fetch, takes, cancelled, i);
        return Err(Cancelled);
      }
      var p := fetch(op);
      if p.None? {
        assert !GoesThrough(ops, order, fetch, takes, cancelled, i);
        return Err(Unreadable);
      }
      if !takes(i) {
        assert !GoesThrough(ops, order, fetch, takes, cancelled, i);
        return Err(Refused);
      }
      PutInRange(sink, fetch, op, contents);
      forall j: nat | j < i + 1 ensures Written(Put(sink, op, p.value), ops[order[j]], contents) {
        PutKeeps(sink, fetch, op, contents, ops[order[j]]);
      }
      sink := Put(sink, op, p.value);
    }
    if Covered(ops, contents) {
      Complete(sink, ops, order, contents);
    }
    return Ok(sink);
  }

  lemma {:induction false} PutInRange(sink: Contents, fetch: Fetch, op: Operation, contents: Contents)
    requires Fits(sink, contents) && Serves(fetch, op, contents) && fetch(op).Some?
    ensures op.key in sink && 0 <= op.target <= op.target + |fetch(op).value| <= |sink[op.key]|
    ensures Fits(Put(sink, op, fetch(op).value), contents)
  {
  }
}
