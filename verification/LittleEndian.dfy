/** Fixed-width little-endian integers. */
module LittleEndian {
  import opened Machine

  function Pow256(width: nat): (p: nat)
    ensures p >= 1
  {
    if width == 0 then 1 else 0x100 * Pow256(width - 1)
  }

  /** The low `width` bytes of `x`, least significant first. */
  function Le(x: nat, width: nat): (s: seq<byte>)
    ensures |s| == width
    decreases width
  {
    if width == 0 then [] else [x % 0x100] + Le(x / 0x100, width - 1)
  }

  function FromLe(s: seq<byte>): (x: nat) {
    if s == [] then 0 else s[0] as int + 0x100 * FromLe(s[1..])
  }

  lemma {:induction false} FromLeBound(s: seq<byte>)
    ensures FromLe(s) < Pow256(|s|)
    decreases |s|
  {
    if s == [] {
    } else {
      FromLeBound(s[1..]);
    }
  }

  /** A fixed-width field holds `x` exactly when it reads back as `x`. */
  lemma {:induction false} LeField(s: seq<byte>, x: nat)
    requires x < Pow256(|s|)
    ensures s == Le(x, |s|) <==> FromLe(s) == x
    decreases |s|
  {
    if s == [] {
    } else {
      LeField(s[1..], x / 0x100);
      assert s == [s[0]] + s[1..];
      ConcatInjective([s[0]], s[1..], [x % 0x100], Le(x / 0x100, |s| - 1));
    }
  }

  lemma {:induction false} Widths()
    ensures Pow256(1) == 0x100 && Pow256(2) == U16_LIMIT && Pow256(4) == U32_LIMIT
    ensures Pow256(8) == U64_LIMIT
  {
    assert Pow256(3) == 0x100_0000;
    assert Pow256(5) == 0x100 * U32_LIMIT;
    assert Pow256(6) == 0x1_0000 * U32_LIMIT;
    assert Pow256(7) == 0x100_0000 * U32_LIMIT;
  }

  lemma {:induction false} LeRoundTrip(x: nat, width: nat)
    requires x < Pow256(width)
    ensures FromLe(Le(x, width)) == x
  {
    LeField(Le(x, width), x);
  }

  lemma {:induction false} LeInjective(x: nat, y: nat, width: nat)
    requires x < Pow256(width) && y < Pow256(width)
    requires Le(x, width) == Le(y, width)
    ensures x == y
  {
    LeRoundTrip(x, width);
    LeRoundTrip(y, width);
  }

  /** Canonical token bytes: four little-endian bytes a token. */
  function TokenBytes(tokens: seq<u32>): (s: seq<byte>)
    ensures |s| == 4 * |tokens|
  {
    if tokens == [] then [] else Le(tokens[0], 4) + TokenBytes(tokens[1..])
  }

  lemma {:induction false} TokenBytesConcat(a: seq<u32>, b: seq<u32>)
    ensures TokenBytes(a + b) == TokenBytes(a) + TokenBytes(b)
    decreases |a|
  {
    if a == [] {
      assert a + b == b;
    } else {
      assert (a + b)[1..] == a[1..] + b;
      TokenBytesConcat(a[1..], b);
    }
  }

  lemma {:induction false} TokenBytesSlice(tokens: seq<u32>, n: nat)
    requires n <= |tokens|
    ensures TokenBytes(tokens)[..4 * n] == TokenBytes(tokens[..n])
    ensures TokenBytes(tokens)[4 * n..] == TokenBytes(tokens[n..])
  {
    assert tokens == tokens[..n] + tokens[n..];
    TokenBytesConcat(tokens[..n], tokens[n..]);
  }

  lemma {:induction false} TokenBytesInjective(a: seq<u32>, b: seq<u32>)
    requires TokenBytes(a) == TokenBytes(b)
    ensures a == b
    decreases |a|
  {
    if a == [] {
    } else {
      ConcatInjective(Le(a[0], 4), TokenBytes(a[1..]), Le(b[0], 4), TokenBytes(b[1..]));
      Widths();
      LeInjective(a[0], b[0], 4);
      TokenBytesInjective(a[1..], b[1..]);
      assert a == [a[0]] + a[1..] && b == [b[0]] + b[1..];
    }
  }
}
