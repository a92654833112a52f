/** Permutations of small index ranges, and byte planes permuted by blocks. */
module Permutations {
  import opened Machine

  // ---------------------------------------------------------------------
  // Permutations
  // ---------------------------------------------------------------------

  predicate InRange(order: seq<nat>) {
    forall i :: 0 <= i < |order| ==> order[i] < |order|
  }

  predicate NoRepeats(order: seq<nat>) {
    forall i, j :: 0 <= i < j < |order| ==> order[i] != order[j]
  }

  predicate IsPermutation(order: seq<nat>) {
    InRange(order) && NoRepeats(order)
  }

  function Range(n: nat): (s: set<nat>)
    ensures forall i: nat :: i in s <==> i < n
    ensures |s| == n
  {
    if n == 0 then {} else Range(n - 1) + {n - 1}
  }

  function Elements(s: seq<nat>): set<nat> {
    set i | 0 <= i < |s| :: s[i]
  }

  lemma {:induction false} ElementCount(s: seq<nat>)
    requires NoRepeats(s)
    ensures |Elements(s)| == |s|
    decreases |s|
  {
    if s == [] {
    } else {
      var n := |s| - 1;
      ElementCount(s[..n]);
      assert Elements(s) == Elements(s[..n]) + {s[n]};
      assert s[n] !in Elements(s[..n]);
    }
  }

  lemma {:induction false} FullSubset(a: set<nat>, b: set<nat>)
    requires a <= b && |a| == |b|
    ensures a == b
  {
    if x :| x in b && x !in a {
      SubsetSize(a, b - {x});
    }
  }

  lemma {:induction false} SubsetSize(a: set<nat>, b: set<nat>)
    requires a <= b
    ensures |a| <= |b|
    decreases |a|
  {
    if a == {} {
    } else {
      var x :| x in a;
      SubsetSize(a - {x}, b - {x});
    }
  }

  /** Pigeonhole: nothing repeated and nothing out of range means nothing
      missing. */
  lemma {:induction false} NothingMissing(order: seq<nat>, source: nat)
    requires IsPermutation(order) && source < |order|
    ensures exists slot :: 0 <= slot < |order| && order[slot] == source
  {
    ElementCount(order);
    FullSubset(Elements(order), Range(|order|));
    assert source in Elements(order);
  }

  predicate Inverts(order: seq<nat>, inverse: seq<nat>) {
    && |inverse| == |order| && InRange(order) && InRange(inverse)
    && forall s: nat | s < |order| :: inverse[order[s]] == s
  }

  /** A left inverse of a permutation is its two-sided inverse. */
  lemma {:induction false} InverseWorksBothWays(order: seq<nat>, inverse: seq<nat>)
    requires IsPermutation(order) && Inverts(order, inverse)
    ensures Inverts(inverse, order) && IsPermutation(inverse)
  {
    forall t: nat | t < |order| ensures order[inverse[t]] == t {
      NothingMissing(order, t);
      var slot :| 0 <= slot < |order| && order[slot] == t;
    }
    forall i, j | 0 <= i < j < |inverse| ensures inverse[i] != inverse[j] {
      assert order[inverse[i]] == i && order[inverse[j]] == j;
    }
  }

  /** The executor's inversion loop. */
  method Invert(order: seq<nat>) returns (inverse: seq<nat>)
    requires IsPermutation(order)
    ensures Inverts(order, inverse) && Inverts(inverse, order) && IsPermutation(inverse)
  {
    var slots := new nat[|order|](i => 0);
    for slot := 0 to |order|
      invariant forall s: nat | s < slot :: slots[order[s]] == s
      invariant forall i :: 0 <= i < slots.Length ==> slots[i] <= slot
      invariant forall i :: 0 <= i < slots.Length ==> slots[i] < |order|
    {
      slots[order[slot]] := slot;
    }
    inverse := slots[..];
    InverseWorksBothWays(order, inverse);
  }

  /** The seen-table check. */
  method ValidatePermutation(order: seq<nat>, widest: nat) returns (ok: bool)
    ensures ok <==> 0 < |order| <= widest && IsPermutation(order)
  {
    if |order| == 0 || |order| > widest {
      return false;
    }
    var seen := new bool[|order|](i => false);
    for n := 0 to |order|
      invariant forall i :: 0 <= i < n ==> order[i] < |order|
      invariant forall i, j :: 0 <= i < j < n ==> order[i] != order[j]
      invariant forall k: nat :: k < seen.Length && seen[k] ==> k in order[..n]
      invariant forall i :: 0 <= i < n ==> seen[order[i]]
    {
      if order[n] >= |order| {
        return false;
      }
      if seen[order[n]] {
        var i :| 0 <= i < n && order[i] == order[n];
        return false;
      }
      seen[order[n]] := true;
      assert order[..n + 1] == order[..n] + [order[n]];
    }
    return true;
  }

  // ---------------------------------------------------------------------
  // Blocks
  // ---------------------------------------------------------------------

  lemma {:induction false} BlockInRange(unit: nat, count: nat, j: nat)
    requires j < count
    ensures Product(j, unit) + unit <= Product(count, unit)
  {
    hide Product;
    ProductStep(j, unit);
    ProductMonotone(unit, j + 1, count);
  }

  /** The `j`th block of `unit` bytes. */
  function Block(s: seq<byte>, unit: nat, count: nat, j: nat): (block: seq<byte>)
    requires |s| == Product(count, unit) && j < count
    ensures |block| == unit
  {
    BlockInRange(unit, count, j);
    s[Product(j, unit)..Product(j, unit) + unit]
  }

  lemma {:induction false} BlockOfPrefix(s: seq<byte>, unit: nat, n: nat, j: nat)
    requires |s| == Product(n + 1, unit) && j < n
    ensures Product(n, unit) <= |s| && Block(s[..Product(n, unit)], unit, n, j) == Block(s, unit, n + 1, j)
  {
    hide Product;
    ProductStep(n, unit);
    BlockInRange(unit, n, j);
    var m, p := Product(n, unit), Product(j, unit);
    assert s[..m][p..p + unit] == s[p..p + unit];
  }

  /** A plane is determined by its blocks. */
  lemma {:induction false} SameBlocks(a: seq<byte>, b: seq<byte>, unit: nat, count: nat)
    requires |a| == |b| == Product(count, unit)
    requires forall j: nat | j < count :: Block(a, unit, count, j) == Block(b, unit, count, j)
    ensures a == b
    decreases count
  {
    ProductStep(if count > 0 then count - 1 else 0, unit);
    hide Product;
    if count == 0 {
    } else {
      var n := count - 1;
      var x, y := a[..Product(n, unit)], b[..Product(n, unit)];
      forall j: nat | j < n ensures Block(x, unit, n, j) == Block(y, unit, n, j) {
        BlockOfPrefix(a, unit, n, j);
        BlockOfPrefix(b, unit, n, j);
        assert Block(a, unit, count, j) == Block(b, unit, count, j);
      }
      SameBlocks(x, y, unit, n);
      assert Block(a, unit, count, n) == Block(b, unit, count, n);
      assert a == x + Block(a, unit, count, n) && b == y + Block(b, unit, count, n);
    }
  }

  /** Replaces block `t` of a buffer. */
  method CopyBlock(output: array<byte>, unit: nat, ghost count: nat, t: nat, plane: seq<byte>, s: nat,
                   ghost to: nat, ghost from: nat)
    requires output.Length == |plane| == Product(count, unit) && to < count && from < count
    requires t == Product(to, unit) && s == Product(from, unit)
    modifies output
    ensures forall j: nat | j < count ::
              Block(output[..], unit, count, j) ==
              if j == to then Block(plane, unit, count, from) else Block(old(output[..]), unit, count, j)
  {
    hide Product;
    BlockInRange(unit, count, to);
    BlockInRange(unit, count, from);
    ghost var before := output[..];
    for k := 0 to unit
      invariant forall i :: 0 <= i < output.Length ==>
                  output[i] == if t <= i < t + k then plane[s + i - t] else before[i]
    {
      output[t + k] := plane[s + k];
    }
    ghost var after := output[..];
    forall j: nat | j < count
      ensures Block(after, unit, count, j) ==
              if j == to then Block(plane, unit, count, from) else Block(before, unit, count, j)
    {
      BlockReplaced(before, after, plane, unit, count, to, from, j);
    }
  }

  lemma {:induction false} BlockReplaced(
      before: seq<byte>, after: seq<byte>, plane: seq<byte>, unit: nat, count: nat, to: nat, from: nat, j: nat)
    requires |before| == |after| == |plane| == Product(count, unit) && to < count && from < count && j < count
    requires Product(from, unit) + unit <= |plane|
    requires forall i :: 0 <= i < |after| ==>
               after[i] == if Product(to, unit) <= i < Product(to, unit) + unit
                           then plane[Product(from, unit) + i - Product(to, unit)] else before[i]
    ensures Block(after, unit, count, j) ==
            if j == to then Block(plane, unit, count, from) else Block(before, unit, count, j)
  {
    hide Product;
    BlockInRange(unit, count, j);
    BlockInRange(unit, count, from);
    Apart(unit, j, to);
    var p, q := Product(j, unit), Product(from, unit);
    if j == to {
      assert after[p..p + unit] == plane[q..q + unit];
    } else {
      assert after[p..p + unit] == before[p..p + unit];
    }
  }

  /** Different blocks do not overlap. */
  lemma {:induction false} Apart(unit: nat, j: nat, t: nat)
    ensures j < t ==> Product(j, unit) + unit <= Product(t, unit)
    ensures t < j ==> Product(t, unit) + unit <= Product(j, unit)
  {
    hide Product;
    if j < t {
      BlockInRange(unit, t, j);
    } else if t < j {
      BlockInRange(unit, j, t);
    }
  }

  // ---------------------------------------------------------------------
  // Rows of blocks under one permutation
  // ---------------------------------------------------------------------

  /** Every plane that is `rows` rows of `width` blocks. */
  datatype Grid = Grid(rows: nat, width: nat, unit: nat)

  function Cells(g: Grid): nat {
    Product(g.rows, g.width)
  }

  function Bytes(g: Grid): nat {
    Product(Cells(g), g.unit)
  }

  predicate MovedAt(g: Grid, order: seq<nat>, input: seq<byte>, output: seq<byte>, row: nat, slot: nat)
    requires |input| == |output| == Bytes(g) && |order| == g.width && InRange(order)
    requires row < g.rows && slot < g.width
  {
    CellBounds(g.width, g.rows, row, slot);
    CellBounds(g.width, g.rows, row, order[slot]);
    Block(output, g.unit, Cells(g), Cell(g.width, row, slot)) ==
    Block(input, g.unit, Cells(g), Cell(g.width, row, order[slot]))
  }

  /** In every row, slot `i` of the output is slot `order[i]` of the input. */
  ghost predicate Moved(g: Grid, order: seq<nat>, input: seq<byte>, output: seq<byte>) {
    && |input| == |output| == Bytes(g) && |order| == g.width && InRange(order)
    && forall row: nat, slot: nat | row < g.rows && slot < g.width :: MovedAt(g, order, input, output, row, slot)
  }

  lemma {:induction false} EveryPlace(width: nat, rows: nat, j: nat) returns (row: nat, slot: nat)
    requires j < Product(rows, width)
    ensures row < rows && slot < width && Cell(width, row, slot) == j
    decreases rows
  {
    ProductStep(if rows > 0 then rows - 1 else 0, width);
    hide Product;
    assert rows > 0;
    if j >= Product(rows - 1, width) {
      row, slot := rows - 1, j - Product(rows - 1, width);
    } else {
      row, slot := EveryPlace(width, rows - 1, j);
    }
  }

  /** Moving by a permutation and then by its inverse changes nothing. */
  lemma {:induction false} MovedBack(
      g: Grid, order: seq<nat>, inverse: seq<nat>, a: seq<byte>, b: seq<byte>, c: seq<byte>)
    requires Inverts(inverse, order) && Moved(g, order, a, b) && Moved(g, inverse, b, c)
    ensures c == a
  {
    hide Product, Block;
    forall j: nat | j < Cells(g) ensures Block(c, g.unit, Cells(g), j) == Block(a, g.unit, Cells(g), j) {
      var row, slot := EveryPlace(g.width, g.rows, j);
      assert MovedAt(g, inverse, b, c, row, slot);
      assert MovedAt(g, order, a, b, row, inverse[slot]);
    }
    SameBlocks(c, a, g.unit, Cells(g));
  }

  // ---------------------------------------------------------------------
  // The bytes are only moved
  // ---------------------------------------------------------------------

  function Identity(n: nat): (s: seq<nat>)
    ensures |s| == n && forall i :: 0 <= i < n ==> s[i] == i
  {
    if n == 0 then [] else Identity(n - 1) + [n - 1]
  }

  type Bags = nat -> multiset<byte>

  function Sum(f: Bags, list: seq<nat>): multiset<byte> {
    if list == [] then multiset{} else Sum(f, list[..|list| - 1]) + f(list[|list| - 1])
  }

  lemma {:induction false} SumStep(f: Bags, list: seq<nat>, x: nat)
    ensures Sum(f, list + [x]) == Sum(f, list) + f(x)
  {
    assert (list + [x])[..|list|] == list;
  }

  lemma {:induction false} SumWithout(f: Bags, list: seq<nat>, i: nat)
    requires i < |list|
    ensures Sum(f, list) == Sum(f, list[..i] + list[i + 1..]) + f(list[i])
    decreases |list|
  {
    var n := |list| - 1;
    if i == n {
      assert list[..i] + list[i + 1..] == list[..n];
    } else {
      SumWithout(f, list[..n], i);
      var rest := list[..n][..i] + list[..n][i + 1..];
      SumStep(f, rest, list[n]);
      assert rest + [list[n]] == list[..i] + list[i + 1..];
    }
  }

  lemma {:induction false} RemoveOne(s: seq<nat>, i: nat)
    requires i < |s|
    ensures multiset(s) == multiset(s[..i] + s[i + 1..]) + multiset{s[i]}
  {
    assert s == s[..i] + [s[i]] + s[i + 1..];
  }

  lemma {:induction false} CancelOne(p: multiset<nat>, q: multiset<nat>, x: nat)
    requires p + multiset{x} == q + multiset{x}
    ensures p == q
  {
    forall y: nat ensures p[y] == q[y] {
      assert (p + multiset{x})[y] == (q + multiset{x})[y];
    }
  }

  /** A sum does not depend on the order of its terms. */
  lemma {:induction false} SumShuffled(f: Bags, a: seq<nat>, b: seq<nat>)
    requires multiset(a) == multiset(b)
    ensures Sum(f, a) == Sum(f, b)
    decreases |a|
  {
    hide Sum;
    if a == [] {
      assert |multiset(b)| == 0;
      assert a == b;
    } else {
      var n := |a| - 1;
      assert a[n] in multiset(b);
      var i :| 0 <= i < |b| && b[i] == a[n];
      var less, rest := a[..n] + a[n + 1..], b[..i] + b[i + 1..];
      RemoveOne(a, n);
      RemoveOne(b, i);
      CancelOne(multiset(less), multiset(rest), a[n]);
      SumShuffled(f, less, rest);
      SumWithout(f, a, n);
      SumWithout(f, b, i);
    }
  }

  lemma {:induction false} OnceAtMost(s: seq<nat>, x: nat)
    requires NoRepeats(s)
    ensures multiset(s)[x] == if x in s then 1 else 0
    decreases |s|
  {
    if s == [] {
    } else {
      var n := |s| - 1;
      OnceAtMost(s[..n], x);
      assert s == s[..n] + [s[n]];
    }
  }

  lemma {:induction false} PermutationIsShuffle(order: seq<nat>)
    requires IsPermutation(order)
    ensures multiset(order) == multiset(Identity(|order|))
  {
    forall x: nat ensures multiset(order)[x] == multiset(Identity(|order|))[x] {
      OnceAtMost(order, x);
      OnceAtMost(Identity(|order|), x);
      if x < |order| {
        NothingMissing(order, x);
        assert Identity(|order|)[x] == x;
      }
    }
  }

  /** The bytes of the block at a slot of a row. */
  function BagAt(s: seq<byte>, g: Grid, row: nat): Bags
    requires |s| == Bytes(g)
  {
    (slot: nat) =>
      if row < g.rows && slot < g.width then
        (CellBounds(g.width, g.rows, row, slot);
         multiset(Block(s, g.unit, Cells(g), Cell(g.width, row, slot))))
      else multiset{}
  }

  /** Bytes before slot `k` of row `r`. */
  function Before(g: Grid, r: nat, k: nat): nat {
    Product(Cell(g.width, r, k), g.unit)
  }

  lemma {:induction false} BeforeBounds(g: Grid, r: nat, k: nat)
    requires r < g.rows && k <= g.width
    ensures Before(g, r, k) <= Bytes(g)
    ensures k < g.width ==> Before(g, r, k + 1) == Before(g, r, k) + g.unit
    ensures Before(g, r, g.width) == Before(g, r + 1, 0)
  {
    hide Product;
    ProductStep(r, g.width);
    ProductMonotone(g.width, r + 1, g.rows);
    ProductMonotone(g.unit, Cell(g.width, r, k), Cells(g));
    ProductStep(Cell(g.width, r, k), g.unit);
  }

  lemma {:induction false} SplitBag(s: seq<byte>, lo: nat, hi: nat)
    requires lo <= hi <= |s|
    ensures multiset(s[..hi]) == multiset(s[..lo]) + multiset(s[lo..hi])
  {
    assert s[..hi] == s[..lo] + s[lo..hi];
  }

  lemma {:induction false} BagIs(s: seq<byte>, g: Grid, r: nat, k: nat)
    requires |s| == Bytes(g) && r < g.rows && k < g.width
    ensures Before(g, r, k) <= Before(g, r, k + 1) <= |s|
    ensures BagAt(s, g, r)(k) == multiset(s[Before(g, r, k)..Before(g, r, k + 1)])
  {
    hide Product;
    BeforeBounds(g, r, k);
    BeforeBounds(g, r, k + 1);
  }

  lemma {:induction false} SumIdentity(f: Bags, k: nat)
    ensures Sum(f, Identity(k + 1)) == Sum(f, Identity(k)) + f(k) && Sum(f, Identity(0)) == multiset{}
  {
    SumStep(f, Identity(k), k);
  }

  lemma {:induction false} RowPrefix(s: seq<byte>, g: Grid, r: nat, k: nat)
    requires |s| == Bytes(g) && r < g.rows && k <= g.width
    ensures Before(g, r, 0) <= Before(g, r, k) <= |s|
    ensures multiset(s[..Before(g, r, k)]) == multiset(s[..Before(g, r, 0)]) + Sum(BagAt(s, g, r), Identity(k))
    decreases k
  {
    hide Product, Sum, Identity, BagAt, Before;
    if k > 0 {
      RowPrefix(s, g, r, k - 1);
      BagIs(s, g, r, k - 1);
      SplitBag(s, Before(g, r, k - 1), Before(g, r, k));
      SumIdentity(BagAt(s, g, r), k - 1);
    } else {
      BeforeBounds(g, r, 0);
      SumIdentity(BagAt(s, g, r), 0);
    }
  }

  lemma {:induction false} SumSame(f: Bags, h: Bags, order: seq<nat>, k: nat)
    requires k <= |order| && forall i :: 0 <= i < k ==> h(i) == f(order[i])
    ensures Sum(h, Identity(k)) == Sum(f, order[..k])
    decreases k
  {
    hide Sum, Identity;
    if k > 0 {
      SumSame(f, h, order, k - 1);
      SumIdentity(h, k - 1);
      SumStep(f, order[..k - 1], order[k - 1]);
      assert order[..k - 1] + [order[k - 1]] == order[..k];
    } else {
      SumIdentity(h, 0);
      SumNothing(f, order[..0]);
    }
  }

  lemma {:induction false} SumNothing(f: Bags, list: seq<nat>)
    requires list == []
    ensures Sum(f, list) == multiset{}
  {
  }

  /** One row holds the same bytes before and after. */
  lemma {:induction false} RowKept(g: Grid, order: seq<nat>, a: seq<byte>, b: seq<byte>, r: nat)
    requires IsPermutation(order) && Moved(g, order, a, b) && r < g.rows
    ensures Sum(BagAt(b, g, r), Identity(g.width)) == Sum(BagAt(a, g, r), Identity(g.width))
  {
    hide Product, Block, Cell, Sum, Identity, NoRepeats;
    forall i | 0 <= i < g.width ensures BagAt(b, g, r)(i) == BagAt(a, g, r)(order[i]) {
      assert MovedAt(g, order, a, b, r, i);
    }
    SumSame(BagAt(a, g, r), BagAt(b, g, r), order, g.width);
    assert order[..g.width] == order;
    PermutationIsShuffle(order);
    SumShuffled(BagAt(a, g, r), order, Identity(g.width));
  }

  lemma {:induction false} RowsKept(g: Grid, order: seq<nat>, a: seq<byte>, b: seq<byte>, r: nat)
    requires IsPermutation(order) && Moved(g, order, a, b) && r <= g.rows
    ensures Before(g, r, 0) <= |a| == |b|
    ensures multiset(a[..Before(g, r, 0)]) == multiset(b[..Before(g, r, 0)])
    decreases r
  {
    hide Product, Moved, Sum, Identity, BagAt, Before, IsPermutation;
    MovedSizes(g, order, a, b);
    NothingBefore(g);
    if r == 0 {
    } else {
      RowsKept(g, order, a, b, r - 1);
      BeforeBounds(g, r - 1, g.width);
      RowPrefix(a, g, r - 1, g.width);
      RowPrefix(b, g, r - 1, g.width);
      RowKept(g, order, a, b, r - 1);
    }
  }

  lemma {:induction false} NothingBefore(g: Grid)
    ensures Before(g, 0, 0) == 0
  {
    hide Product;
    ProductStep(0, g.width);
    ProductStep(0, g.unit);
  }

  lemma {:induction false} MovedSizes(g: Grid, order: seq<nat>, a: seq<byte>, b: seq<byte>)
    requires Moved(g, order, a, b)
    ensures |a| == |b| == Bytes(g)
  {
  }

  /** Moving blocks by a permutation keeps every byte, as often as it was. */
  lemma {:induction false} BytesKept(g: Grid, order: seq<nat>, a: seq<byte>, b: seq<byte>)
    requires IsPermutation(order) && Moved(g, order, a, b)
    ensures multiset(a) == multiset(b)
  {
    RowsKept(g, order, a, b, g.rows);
    AllBytes(g);
    assert a[..|a|] == a && b[..|b|] == b;
  }

  lemma {:induction false} AllBytes(g: Grid)
    ensures Before(g, g.rows, 0) == Bytes(g)
  {
  }
}
