/** Reassembly of layer frames that arrive over several connections. */
module Mux {
  import opened Machine
  import opened Session

  datatype MuxError = Past | Duplicate

  function SequenceOf(p: Plane): u32 {
    p.header.sequence
  }

  /** Arrival position of sequence `s`, or `|arrived|` when it is missing. */
  function Slot(arrived: seq<Plane>, s: nat): (i: nat)
    ensures i <= |arrived|
    ensures i < |arrived| ==> SequenceOf(arrived[i]) == s
    ensures i == |arrived| ==> forall j :: 0 <= j < |arrived| ==> SequenceOf(arrived[j]) != s
  {
    if arrived == [] then 0
    else if SequenceOf(arrived[0]) == s then 0
    else Slot(arrived[1..], s) + 1
  }

  predicate Arrived(arrived: seq<Plane>, s: nat) {
    exists i :: 0 <= i < |arrived| && SequenceOf(arrived[i]) == s
  }

  predicate AllArrived(arrived: seq<Plane>, n: nat) {
    forall s: nat | s < n :: Arrived(arrived, s)
  }

  predicate NoRepeats(arrived: seq<Plane>) {
    forall i, j :: 0 <= i < j < |arrived| ==> SequenceOf(arrived[i]) != SequenceOf(arrived[j])
  }

  predicate InRange(arrived: seq<Plane>, expected: nat) {
    forall i :: 0 <= i < |arrived| ==> SequenceOf(arrived[i]) < expected
  }

  /** The arrivals carry every sequence below `expected` exactly once. */
  predicate Permutes(arrived: seq<Plane>, expected: nat) {
    && InRange(arrived, expected) && NoRepeats(arrived)
    && AllArrived(arrived, expected)
  }

  /** The first `n` sequences, in sequence order. */
  function InOrder(arrived: seq<Plane>, n: nat): (planes: seq<Plane>)
    requires AllArrived(arrived, n)
    ensures |planes| == n
    ensures forall s: nat | s < n :: planes[s] in arrived && SequenceOf(planes[s]) == s
  {
    if n == 0 then []
    else
      assert Arrived(arrived, n - 1);
      InOrder(arrived, n - 1) + [arrived[Slot(arrived, n - 1)]]
  }

  lemma {:induction false} SlotStays(arrived: seq<Plane>, p: Plane, s: nat)
    requires Slot(arrived, s) < |arrived|
    ensures Slot(arrived + [p], s) == Slot(arrived, s)
    decreases |arrived|
  {
    if SequenceOf(arrived[0]) == s {
    } else {
      assert (arrived + [p])[1..] == arrived[1..] + [p];
      SlotStays(arrived[1..], p, s);
    }
  }

  lemma {:induction false} ArrivedGrows(arrived: seq<Plane>, p: Plane, s: nat)
    ensures Arrived(arrived + [p], s) <==> Arrived(arrived, s) || SequenceOf(p) == s
  {
    if Arrived(arrived, s) {
      var i :| 0 <= i < |arrived| && SequenceOf(arrived[i]) == s;
      assert SequenceOf((arrived + [p])[i]) == s;
    }
    assert (arrived + [p])[|arrived|] == p;
    if Arrived(arrived + [p], s) && SequenceOf(p) != s {
      var i :| 0 <= i < |arrived + [p]| && SequenceOf((arrived + [p])[i]) == s;
      assert SequenceOf(arrived[i]) == s;
    }
  }

  /** Later arrivals never disturb what is already in order. */
  lemma {:induction false} InOrderGrows(arrived: seq<Plane>, p: Plane, n: nat)
    requires AllArrived(arrived, n)
    ensures AllArrived(arrived + [p], n)
    ensures InOrder(arrived + [p], n) == InOrder(arrived, n)
    decreases n
  {
    forall s: nat | s < n ensures Arrived(arrived + [p], s) {
      ArrivedGrows(arrived, p, s);
    }
    if n == 0 {
    } else {
      InOrderGrows(arrived, p, n - 1);
      assert Arrived(arrived, n - 1);
      SlotStays(arrived, p, n - 1);
    }
  }

  class SequenceMux {
    const expected: u32
    var next: u32
    var stash: map<u32, Plane>
    /** Every accepted frame, in arrival order. */
    ghost var arrived: seq<Plane>

    /** The stash is exactly the arrivals not handed out yet. */
    ghost predicate Valid()
      reads this
    {
      && next <= expected && InRange(arrived, expected) && NoRepeats(arrived)
      && AllArrived(arrived, next)
      && (forall s: u32 :: s in stash <==> next <= s && Arrived(arrived, s))
      && (forall s: u32 :: s in stash ==>
            Slot(arrived, s) < |arrived| && stash[s] == arrived[Slot(arrived, s)])
    }

    constructor (expected: u32)
      ensures Valid() && this.expected == expected && next == 0 && arrived == []
    {
      this.expected, next, stash, arrived := expected, 0, map[], [];
    }

    /** Rejects exactly a sequence past the end or one seen before. */
    method Accept(plane: Plane) returns (r: Result<bool, MuxError>)
      requires Valid()
      modifies this
      ensures Valid() && next == old(next)
      ensures r.Ok? <==> SequenceOf(plane) < expected && !Arrived(old(arrived), SequenceOf(plane))
      ensures r == Err(Past) <==> SequenceOf(plane) >= expected
      ensures r.Ok? ==> arrived == old(arrived) + [plane]
      ensures r.Err? ==> unchanged(this)
    {
      var s := SequenceOf(plane);
      if s >= expected {
        return Err(Past);
      }
      if s < next || s in stash {
        return Err(Duplicate);
      }
      AcceptKeeps(arrived, plane, expected);
      forall k: u32 ensures Arrived(arrived + [plane], k) <==> Arrived(arrived, k) || s == k {
        ArrivedGrows(arrived, plane, k);
      }
      forall k: u32 | k in stash ensures Slot(arrived + [plane], k) == Slot(arrived, k) {
        SlotStays(arrived, plane, k);
      }
      SlotOfNew(arrived, plane);
      stash := stash[s := plane];
      arrived := arrived + [plane];
      return Ok(true);
    }

    /** Hands out sequence `next` as soon as it is there. */
    method PopReady() returns (r: Option<Plane>)
      requires Valid()
      modifies this
      ensures Valid() && arrived == old(arrived)
      ensures r.Some? <==> old(next) < expected && Arrived(arrived, old(next))
      ensures next == old(next) + if r.Some? then 1 else 0
      ensures r.Some? ==> InOrder(arrived, next) == InOrder(arrived, old(next)) + [r.value]
    {
      hide Arrived, InOrder, Slot, NoRepeats;
      ArrivedInRange(arrived, expected, next);
      if next !in stash {
        return None;
      }
      var plane := stash[next];
      InOrderStep(arrived, next);
      stash := stash - {next};
      next := next + 1;
      return Some(plane);
    }

    predicate IsComplete()
      reads this
    {
      next == expected
    }
  }

  lemma {:induction false} ArrivedInRange(arrived: seq<Plane>, expected: nat, s: nat)
    requires InRange(arrived, expected)
    ensures Arrived(arrived, s) ==> s < expected
  {
  }

  lemma {:induction false} InOrderStep(arrived: seq<Plane>, n: nat)
    requires AllArrived(arrived, n)
    requires Arrived(arrived, n)
    ensures AllArrived(arrived, n + 1)
    ensures Slot(arrived, n) < |arrived|
    ensures InOrder(arrived, n + 1) == InOrder(arrived, n) + [arrived[Slot(arrived, n)]]
  {
  }

  lemma {:induction false} SlotOfNew(arrived: seq<Plane>, p: Plane)
    requires !Arrived(arrived, SequenceOf(p))
    ensures Slot(arrived + [p], SequenceOf(p)) == |arrived|
    decreases |arrived|
  {
    if arrived == [] {
    } else {
      assert SequenceOf(arrived[0]) != SequenceOf(p);
      assert (arrived + [p])[1..] == arrived[1..] + [p];
      forall i | 0 <= i < |arrived[1..]| ensures SequenceOf(arrived[1..][i]) != SequenceOf(p) {
        assert arrived[1..][i] == arrived[i + 1];
      }
      SlotOfNew(arrived[1..], p);
    }
  }

  lemma {:induction false} AcceptKeeps(arrived: seq<Plane>, p: Plane, expected: nat)
    requires InRange(arrived, expected) && NoRepeats(arrived)
    requires SequenceOf(p) < expected && !Arrived(arrived, SequenceOf(p))
    ensures InRange(arrived + [p], expected) && NoRepeats(arrived + [p])
  {
  }
}
