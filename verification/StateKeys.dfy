/** State keys and their canonical order: layer first, then name bytes. */
module StateKeys {
  import opened Machine

  datatype StateKey = StateKey(layer: u32, name: seq<byte>)

  /** Lexicographic order on byte strings; a proper prefix comes first. */
  predicate BytesLess(a: seq<byte>, b: seq<byte>) {
    if b == [] then false
    else if a == [] then true
    else a[0] < b[0] || (a[0] == b[0] && BytesLess(a[1..], b[1..]))
  }

  predicate KeyLess(a: StateKey, b: StateKey) {
    a.layer < b.layer || (a.layer == b.layer && BytesLess(a.name, b.name))
  }

  predicate Ascending(keys: seq<StateKey>) {
    forall i :: 0 < i < |keys| ==> KeyLess(keys[i - 1], keys[i])
  }

  lemma {:induction false} BytesLessTransitive(a: seq<byte>, b: seq<byte>, c: seq<byte>)
    requires BytesLess(a, b) && BytesLess(b, c)
    ensures BytesLess(a, c)
    decreases |a|
  {
    if a == [] || a[0] != b[0] || b[0] != c[0] {
    } else {
      BytesLessTransitive(a[1..], b[1..], c[1..]);
    }
  }

  lemma {:induction false} BytesLessIrreflexive(a: seq<byte>)
    ensures !BytesLess(a, a)
    decreases |a|
  {
    if a == [] {
    } else {
      BytesLessIrreflexive(a[1..]);
    }
  }

  lemma {:induction false} AscendingFrom(keys: seq<StateKey>, i: nat, j: nat)
    requires Ascending(keys) && i < j < |keys|
    ensures KeyLess(keys[i], keys[j])
    decreases j
  {
    if i + 1 >= j {
    } else {
      AscendingFrom(keys, i, j - 1);
      if keys[i].layer == keys[j - 1].layer == keys[j].layer {
        BytesLessTransitive(keys[i].name, keys[j - 1].name, keys[j].name);
      }
    }
  }

  /** Canonical order rules out repeated keys. */
  lemma {:induction false} AscendingDistinct(keys: seq<StateKey>, i: nat, j: nat)
    requires Ascending(keys) && i < j < |keys|
    ensures keys[i] != keys[j]
  {
    AscendingFrom(keys, i, j);
    BytesLessIrreflexive(keys[i].name);
  }
}
