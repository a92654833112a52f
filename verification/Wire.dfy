/** The canonical byte cursor: fixed-width fields, strings and word lists,
    each parsed exactly where it was written. */
module Wire {
  import opened Machine
  import opened LittleEndian

  /** A parsed value and the bytes behind it. */
  datatype Parsed<+T> = Fail | Got(value: T, rest: seq<byte>)

  function ParseNumber(input: seq<byte>, width: nat): Parsed<nat> {
    if |input| < width then Fail else Got(FromLe(input[..width]), input[width..])
  }

  lemma {:induction false} NumberExact(input: seq<byte>, width: nat, x: nat, rest: seq<byte>)
    requires x < Pow256(width)
    ensures ParseNumber(input, width) == Got(x, rest) <==> input == Le(x, width) + rest
  {
    hide Le, FromLe, Pow256;
    if |input| >= width {
      LeField(input[..width], x);
      assert input == input[..width] + input[width..];
      ConcatInjective(input[..width], input[width..], Le(x, width), rest);
    }
  }

  lemma {:induction false} NumberFits(input: seq<byte>, width: nat)
    ensures ParseNumber(input, width).Got? ==> ParseNumber(input, width).value < Pow256(width)
  {
    if |input| >= width {
      FromLeBound(input[..width]);
    }
  }

  function ParseBytes(input: seq<byte>, n: nat): Parsed<seq<byte>> {
    if |input| < n then Fail else Got(input[..n], input[n..])
  }

  lemma {:induction false} BytesExact(input: seq<byte>, s: seq<byte>, rest: seq<byte>)
    ensures ParseBytes(input, |s|) == Got(s, rest) <==> input == s + rest
  {
    if |input| >= |s| {
      assert input == input[..|s|] + input[|s|..];
      ConcatInjective(input[..|s|], input[|s|..], s, rest);
    }
  }

  /** A length-prefixed byte string. */
  function Text(s: seq<byte>): seq<byte> {
    Le(|s|, 2) + s
  }

  function ParseText(input: seq<byte>): Parsed<seq<byte>> {
    var n := ParseNumber(input, 2);
    if n.Fail? then Fail else ParseBytes(n.rest, n.value)
  }

  lemma {:induction false} TextExact(input: seq<byte>, s: seq<byte>, rest: seq<byte>)
    requires |s| < U16_LIMIT
    ensures ParseText(input) == Got(s, rest) <==> input == Text(s) + rest
  {
    hide Le, ParseNumber;
    Widths();
    NumberExact(input, 2, |s|, s + rest);
    assert Text(s) + rest == Le(|s|, 2) + (s + rest);
    var n := ParseNumber(input, 2);
    if n.Got? {
      BytesExact(n.rest, s, rest);
    }
  }

  lemma {:induction false} TextFits(input: seq<byte>)
    ensures ParseText(input).Got? ==> |ParseText(input).value| < U16_LIMIT
  {
    Widths();
    NumberFits(input, 2);
  }

  /** Four-byte words. */
  function ParseWords(input: seq<byte>, count: nat): Parsed<seq<nat>>
    decreases count
  {
    if count == 0 then Got([], input)
    else
      var x := ParseNumber(input, 4);
      if x.Fail? then Fail
      else
        var more := ParseWords(x.rest, count - 1);
        if more.Fail? then Fail else Got([x.value] + more.value, more.rest)
  }

  lemma {:induction false} WordsFit(input: seq<byte>, count: nat)
    ensures ParseWords(input, count).Got? ==>
              && |ParseWords(input, count).value| == count
              && forall i :: 0 <= i < count ==> ParseWords(input, count).value[i] < U32_LIMIT
    decreases count
  {
    if count == 0 {
    } else {
      Widths();
      NumberFits(input, 4);
      var x := ParseNumber(input, 4);
      if x.Got? {
        WordsFit(x.rest, count - 1);
      }
    }
  }

  lemma {:induction false} WordsExact(input: seq<byte>, words: seq<u32>, rest: seq<byte>)
    ensures ParseWords(input, |words|) == Got(words, rest) <==> input == TokenBytes(words) + rest
    decreases |words|
  {
    hide Le, ParseNumber;
    Widths();
    if words == [] {
      assert TokenBytes(words) + rest == rest;
    } else {
      var w, more := words[0], words[1..];
      NumberExact(input, 4, w, TokenBytes(more) + rest);
      assert TokenBytes(words) + rest == Le(w, 4) + (TokenBytes(more) + rest);
      var x := ParseNumber(input, 4);
      if x.Got? {
        WordsExact(x.rest, more, rest);
        assert words == [w] + more;
        var tail := ParseWords(x.rest, |more|);
        if tail.Got? {
          assert ([x.value] + tail.value)[1..] == tail.value;
        }
      }
    }
  }

  // ---------------------------------------------------------------------
  // The cursor
  // ---------------------------------------------------------------------

  class Decoder {
    const bytes: seq<byte>
    var offset: nat

    ghost predicate Valid()
      reads this
    {
      offset <= |bytes|
    }

    /** What has not been read yet. */
    function Left(): seq<byte>
      requires Valid()
      reads this
    {
      bytes[offset..]
    }

    constructor (bytes: seq<byte>, offset: nat)
      requires offset <= |bytes|
      ensures Valid() && this.bytes == bytes && this.offset == offset
    {
      this.bytes, this.offset := bytes, offset;
    }

    method Take(n: nat) returns (r: Option<seq<byte>>)
      requires Valid()
      modifies this
      ensures Valid()
      ensures r.Some? <==> ParseBytes(old(Left()), n).Got?
      ensures r.Some? ==> ParseBytes(old(Left()), n) == Got(r.value, Left())
    {
      if offset + n > |bytes| {
        return None;
      }
      var value := bytes[offset..offset + n];
      assert bytes[offset..][..n] == value && bytes[offset..][n..] == bytes[offset + n..];
      offset := offset + n;
      return Some(value);
    }

    method Number(width: nat) returns (r: Option<nat>)
      requires Valid()
      modifies this
      ensures Valid()
      ensures r.Some? <==> ParseNumber(old(Left()), width).Got?
      ensures r.Some? ==> ParseNumber(old(Left()), width) == Got(r.value, Left()) && r.value < Pow256(width)
    {
      NumberFits(Left(), width);
      var field := Take(width);
      if field.None? {
        return None;
      }
      return Some(FromLe(field.value));
    }

    method String() returns (r: Option<seq<byte>>)
      requires Valid()
      modifies this
      ensures Valid()
      ensures r.Some? <==> ParseText(old(Left())).Got?
      ensures r.Some? ==> ParseText(old(Left())) == Got(r.value, Left())
    {
      var n := Number(2);
      if n.None? {
        return None;
      }
      r := Take(n.value);
    }

    method Words(count: nat) returns (r: Option<seq<u32>>)
      requires Valid()
      modifies this
      ensures Valid()
      ensures r.Some? <==> ParseWords(old(Left()), count).Got?
      ensures r.Some? ==> ParseWords(old(Left()), count) == Got(r.value, Left())
    {
      var words: seq<u32> := [];
      Widths();
      JoinNothing(ParseWords(Left(), count));
      for i := 0 to count
        invariant Valid()
        invariant ParseWords(old(Left()), count) == Joined(words, ParseWords(Left(), count - i))
      {
        JoinStep(words, Left(), count - i);
        var x := Number(4);
        if x.None? {
          return None;
        }
        words := words + [x.value];
      }
      assert words + [] == words;
      return Some(words);
    }
  }

  /** A list continued by a parsed tail. */
  function Joined<T>(items: seq<T>, tail: Parsed<seq<T>>): Parsed<seq<T>> {
    if tail.Fail? then Fail else Got(items + tail.value, tail.rest)
  }

  lemma {:induction false} JoinNothing<T>(tail: Parsed<seq<T>>)
    ensures Joined([], tail) == tail
  {
    if tail.Got? {
      assert [] + tail.value == tail.value;
    }
  }

  /** One more item at the end of the list is one less in front of the tail. */
  lemma {:induction false} JoinMore<T>(items: seq<T>, x: T, tail: Parsed<seq<T>>)
    ensures Joined(items, Joined([x], tail)) == Joined(items + [x], tail)
  {
    if tail.Got? {
      assert items + ([x] + tail.value) == items + [x] + tail.value;
    }
  }

  lemma {:induction false} JoinStep(words: seq<nat>, input: seq<byte>, count: nat)
    requires count > 0
    ensures var x := ParseNumber(input, 4);
            Joined(words, ParseWords(input, count)) ==
            if x.Fail? then Fail else Joined(words + [x.value], ParseWords(x.rest, count - 1))
  {
    var x := ParseNumber(input, 4);
    if x.Got? {
      JoinMore(words, x.value, ParseWords(x.rest, count - 1));
    }
  }
}
