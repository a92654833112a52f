/** The chunk codec frame: a sixteen-byte header followed either by the
    plaintext (Raw) or by greedy run-length packets (Lossless). */
module ChunkCodec {
  import opened Machine
  import opened Consts
  import opened LittleEndian

  const WIRE_VERSION := 1

  // "KVRAW1\0\0" and "KVRLE1\0\0"
  const RAW_FRAME_MAGIC: seq<byte> := [75, 86, 82, 65, 87, 49, 0, 0]
  const LOSSLESS_FRAME_MAGIC: seq<byte> := [75, 86, 82, 76, 69, 49, 0, 0]

  datatype Codec = Raw | Lossless

  datatype CodecError =
    | PlaintextBounds
    | LosslessFrameBound
    | TruncatedFrame
    | FrameMagic
    | FrameVersion
    | FrameReserved
    | FrameLength
    | RawLength
    | TruncatedRepeat
    | TruncatedLiteral
    | ExpandsPastBound
    | DecodedLength
    | NotCanonical
    | ObjectBound

  predicate InBounds(plaintext: seq<byte>) {
    0 < |plaintext| <= MAX_CHUNK_PLAINTEXT
  }

  function Magic(codec: Codec): (m: seq<byte>)
    ensures |m| == 8
  {
    if codec.Raw? then RAW_FRAME_MAGIC else LOSSLESS_FRAME_MAGIC
  }

  function GetU16(s: seq<byte>, offset: nat): nat
    requires offset + 2 <= |s|
  {
    FromLe(s[offset..offset + 2])
  }

  function GetU32(s: seq<byte>, offset: nat): nat
    requires offset + 4 <= |s|
  {
    FromLe(s[offset..offset + 4])
  }

  function FrameHeader(codec: Codec, plaintextBytes: u32): (h: seq<byte>)
    ensures |h| == CODEC_FRAME_HEADER_BYTES
  {
    Magic(codec) + Le(WIRE_VERSION, 2) + Le(0, 2) + Le(plaintextBytes, 4)
  }

  // ---------------------------------------------------------------------
  // Packets
  // ---------------------------------------------------------------------

  /** Extends a run of `s[0]` that already covers `s[..k]`, up to 128. */
  function RunFrom(s: seq<byte>, k: nat): (r: nat)
    requires 1 <= k <= |s| && k <= 128
    ensures k <= r <= |s| && r <= 128
    decreases |s| - k
  {
    if k < |s| && k < 128 && s[k] == s[0] then RunFrom(s, k + 1) else k
  }

  function Run(s: seq<byte>): (r: nat)
    requires s != []
    ensures 1 <= r <= |s| && r <= 128
  {
    RunFrom(s, 1)
  }

  lemma {:induction false} RunRepeats(s: seq<byte>, k: nat)
    requires 1 <= k <= |s| && k <= 128 && s[..k] == Repeat(s[0], k)
    ensures s[..RunFrom(s, k)] == Repeat(s[0], RunFrom(s, k))
    ensures RunFrom(s, k) == |s| || RunFrom(s, k) == 128 || s[RunFrom(s, k)] != s[0]
    decreases |s| - k
  {
    if k >= |s| || k >= 128 || s[k] != s[0] {
    } else {
      RunRepeats(s, k + 1);
    }
  }

  /** Where a literal packet that already covers `s[..n]` ends. */
  function LiteralEnd(s: seq<byte>, n: nat): (e: nat)
    requires n <= |s| && n <= 128
    ensures n <= e <= |s| && e <= 128
    ensures e == |s| || e == 128 || Run(s[e..]) >= 3
    decreases 128 - n
  {
    if n == |s| || n == 128 then n
    else
      var r := Run(s[n..]);
      if r >= 3 then n
      else if n + r > 128 then 128
      else LiteralEnd(s, n + r)
  }

  lemma {:induction false} LiteralEndStep(s: seq<byte>, n: nat)
    requires n <= |s| && n <= 128
    ensures LiteralEnd(s, n) ==
            if n == |s| || n == 128 || Run(s[n..]) >= 3 then n
            else if n + Run(s[n..]) > 128 then 128
            else LiteralEnd(s, n + Run(s[n..]))
  {
  }

  /** The lossless payload of `s`: repeat packets for runs of three or more,
      literal packets of at most 128 bytes otherwise. */
  function Packets(s: seq<byte>): seq<byte>
    decreases |s|
  {
    hide Run, LiteralEnd;
    if s == [] then []
    else
      var r := Run(s);
      if r >= 3 then [127 + r, s[0]] + Packets(s[r..])
      else
        var n := LiteralEnd(s, r);
        [n - 1] + s[..n] + Packets(s[n..])
  }

  lemma {:induction false} PacketsStep(s: seq<byte>)
    ensures Packets(s) ==
            if s == [] then []
            else if Run(s) >= 3 then [127 + Run(s), s[0]] + Packets(s[Run(s)..])
            else
              [LiteralEnd(s, Run(s)) - 1] + s[..LiteralEnd(s, Run(s))]
              + Packets(s[LiteralEnd(s, Run(s))..])
  {
    hide Run, LiteralEnd;
  }

  /** Any run of three to 128 equal bytes is one packet of two bytes. */
  lemma {:induction false} RepeatPacket(value: byte, n: nat)
    requires 3 <= n <= 128
    ensures Packets(Repeat(value, n)) == [127 + n, value]
  {
    hide Packets;
    var s := Repeat(value, n);
    assert s[..1] == Repeat(s[0], 1);
    RunRepeats(s, 1);
    assert Run(s) == n && s[n..] == [];
    PacketsStep(s);
    PacketsStep([]);
  }

  /** No three equal bytes stand side by side. */
  predicate Unrepeated(s: seq<byte>) {
    forall i :: 0 <= i < |s| - 2 ==> !(s[i] == s[i + 1] && s[i] == s[i + 2])
  }

  lemma {:induction false} ShortRun(s: seq<byte>, n: nat)
    requires n < |s| && Unrepeated(s)
    ensures Run(s[n..]) <= 2
  {
    var t := s[n..];
    assert t[..1] == Repeat(t[0], 1);
    RunRepeats(t, 1);
    assert |t| > 2 ==> t[0] == s[n] && t[1] == s[n + 1] && t[2] == s[n + 2];
  }

  lemma {:induction false} LiteralToEnd(s: seq<byte>, n: nat)
    requires n <= |s| <= 128 && Unrepeated(s)
    ensures LiteralEnd(s, n) == |s|
    decreases |s| - n
  {
    hide LiteralEnd, Run, Unrepeated;
    LiteralEndStep(s, n);
    if n == |s| {
    } else {
      ShortRun(s, n);
      LiteralToEnd(s, n + Run(s[n..]));
    }
  }

  /** Up to 128 bytes without a run of three are one packet of one byte more. */
  lemma {:induction false} LiteralPacket(s: seq<byte>)
    requires 1 <= |s| <= 128 && Unrepeated(s)
    ensures Packets(s) == [|s| - 1] + s
  {
    hide Packets, LiteralEnd, Run, Unrepeated;
    assert s[0..] == s && s[..|s|] == s && s[|s|..] == [];
    ShortRun(s, 0);
    LiteralToEnd(s, Run(s));
    PacketsStep(s);
    PacketsStep([]);
  }

  /** What a decoder makes of a packet stream, with no bound on its output. */
  function Unpack(s: seq<byte>): Option<seq<byte>>
    decreases |s|
  {
    if s == [] then Some([])
    else
      var length := s[0] % 128 + 1;
      if s[0] >= 128 then
        if |s| < 2 then None
        else
          var rest :- Unpack(s[2..]);
          Some(Repeat(s[1], length) + rest)
      else if |s| < 1 + length then None
      else
        var rest :- Unpack(s[1 + length..]);
        Some(s[1..1 + length] + rest)
  }

  function Prepend(front: seq<byte>, rest: Option<seq<byte>>): Option<seq<byte>> {
    if rest.None? then None else Some(front + rest.value)
  }

  lemma {:induction false} PrependAssoc(a: seq<byte>, b: seq<byte>, rest: Option<seq<byte>>)
    ensures Prepend(a, Prepend(b, rest)) == Prepend(a + b, rest)
    ensures Prepend([], rest) == rest
  {
    if rest.Some? {
      assert a + (b + rest.value) == (a + b) + rest.value;
      assert [] + rest.value == rest.value;
    }
  }

  lemma {:induction false} UnpackAt(payload: seq<byte>, index: nat)
    requires index < |payload|
    ensures payload[index] >= 128 ==>
              Unpack(payload[index..]) ==
              if |payload| < index + 2 then None
              else Prepend(Repeat(payload[index + 1], payload[index] % 128 + 1), Unpack(payload[index + 2..]))
  {
    var s := payload[index..];
    if |s| >= 2 {
      assert s[2..] == payload[index + 2..];
    }
  }

  lemma {:induction false} UnpackLiteralStep(s: seq<byte>, n: nat)
    requires s != [] && s[0] < 128 && n == s[0] + 2
    ensures Unpack(s) == if |s| < n then None else Prepend(s[1..n], Unpack(s[n..]))
  {
  }

  lemma {:induction false} UnpackLiteralAt(payload: seq<byte>, index: nat, end: nat)
    requires index < |payload| && payload[index] < 128 && end == index + 2 + payload[index]
    ensures Unpack(payload[index..]) ==
            if |payload| < end then None
            else Prepend(payload[index + 1..end], Unpack(payload[end..]))
  {
    hide Unpack;
    var s := payload[index..];
    UnpackLiteralStep(s, end - index);
    if |payload| >= end {
      assert s[1..end - index] == payload[index + 1..end];
      assert s[end - index..] == payload[end..];
    }
  }

  lemma {:induction false} UnpackRepeat(value: byte, r: nat, rest: seq<byte>)
    requires 1 <= r <= 128
    requires Unpack(rest).Some?
    ensures Unpack([127 + r, value] + rest) == Some(Repeat(value, r) + Unpack(rest).value)
  {
    var s: seq<byte> := [127 + r, value] + rest;
    assert s[2..] == rest;
  }

  lemma {:induction false} UnpackLiteral(literal: seq<byte>, rest: seq<byte>)
    requires 1 <= |literal| <= 128
    requires Unpack(rest).Some?
    ensures Unpack([|literal| - 1] + literal + rest) == Some(literal + Unpack(rest).value)
  {
    var s: seq<byte> := [|literal| - 1] + literal + rest;
    assert s[1..1 + |literal|] == literal;
    assert s[1 + |literal|..] == rest;
  }

  lemma {:induction false} UnpackAfterRepeat(s: seq<byte>, r: nat, tail: seq<byte>)
    requires s != [] && 1 <= r <= |s| && r <= 128 && s[..r] == Repeat(s[0], r)
    requires Unpack(tail) == Some(s[r..])
    ensures Unpack([127 + r, s[0]] + tail) == Some(s)
  {
    UnpackRepeat(s[0], r, tail);
    assert s == s[..r] + s[r..];
  }

  lemma {:induction false} UnpackAfterLiteral(s: seq<byte>, n: nat, tail: seq<byte>)
    requires 1 <= n <= |s| && n <= 128
    requires Unpack(tail) == Some(s[n..])
    ensures Unpack([n - 1] + s[..n] + tail) == Some(s)
  {
    UnpackLiteral(s[..n], tail);
    assert s == s[..n] + s[n..];
  }

  /** Packets decode to the bytes they were made from. */
  lemma {:induction false} UnpackPackets(s: seq<byte>)
    ensures Unpack(Packets(s)) == Some(s)
    decreases |s|
  {
    if s == [] {
    } else {
      var r := Run(s);
      if r >= 3 {
        UnpackPackets(s[r..]);
        RunRepeats(s, 1);
        UnpackAfterRepeat(s, r, Packets(s[r..]));
      } else {
        var n := LiteralEnd(s, r);
        UnpackPackets(s[n..]);
        UnpackAfterLiteral(s, n, Packets(s[n..]));
      }
    }
  }

  lemma {:induction false} PacketSize(s: seq<byte>)
    ensures |Packets(s)| <= |s| + CeilDiv(|s|, 128)
    ensures s != [] && Run(s) >= 3 ==> |Packets(s)| <= |s| + CeilDiv(|s|, 128) - 1
    decreases |s|
  {
    if s == [] {
    } else {
      var r := Run(s);
      if r >= 3 {
        PacketSize(s[r..]);
      } else {
        var n := LiteralEnd(s, r);
        PacketSize(s[n..]);
      }
    }
  }

  // ---------------------------------------------------------------------
  // Frames
  // ---------------------------------------------------------------------

  function Payload(codec: Codec, plaintext: seq<byte>): seq<byte> {
    if codec.Raw? then plaintext else Packets(plaintext)
  }

  /** The one frame of an in-bounds plaintext. */
  function Frame(codec: Codec, plaintext: seq<byte>): seq<byte>
    requires InBounds(plaintext)
  {
    FrameHeader(codec, |plaintext|) + Payload(codec, plaintext)
  }

  method RepeatedRun(input: seq<byte>, start: nat) returns (length: nat)
    requires start < |input|
    ensures length == Run(input[start..])
  {
    ghost var s := input[start..];
    length := 1;
    while start + length < |input| && length < 128 && input[start + length] == input[start]
      invariant 1 <= length <= 128 && start + length <= |input|
      invariant Run(s) == RunFrom(s, length)
    {
      length := length + 1;
    }
  }

  /** The inner loop of the lossless encoder: how far one literal reaches. */
  method LiteralReach(plaintext: seq<byte>, literalStart: nat, run: nat) returns (index: nat)
    requires literalStart < |plaintext|
    requires run == Run(plaintext[literalStart..]) < 3
    ensures literalStart < index <= |plaintext|
    ensures index - literalStart == LiteralEnd(plaintext[literalStart..], run)
  {
    hide LiteralEnd, Run;
    ghost var s := plaintext[literalStart..];
    index := literalStart + run;
    while index < |plaintext| && index - literalStart < 128
      invariant literalStart + run <= index <= |plaintext| && index - literalStart <= 128
      invariant LiteralEnd(s, run) == LiteralEnd(s, index - literalStart)
      decreases |plaintext| - index
    {
      var nextRun := RepeatedRun(plaintext, index);
      LiteralEndStep(s, index - literalStart);
      assert s[index - literalStart..] == plaintext[index..];
      if nextRun >= 3 {
        break;
      }
      if index - literalStart + nextRun > 128 {
        index := literalStart + 128;
        break;
      }
      index := index + nextRun;
    }
    LiteralEndStep(s, index - literalStart);
  }

  lemma {:induction false} PacketsRepeatAt(plaintext: seq<byte>, index: nat, run: nat)
    requires index < |plaintext| && run == Run(plaintext[index..]) >= 3
    ensures Packets(plaintext[index..])
         == [127 + run, plaintext[index]] + Packets(plaintext[index + run..])
  {
    hide Packets, LiteralEnd, Run;
    PacketsStep(plaintext[index..]);
    assert plaintext[index..][run..] == plaintext[index + run..];
  }

  lemma {:induction false} PacketsLiteralAt(plaintext: seq<byte>, start: nat, index: nat)
    requires start < index <= |plaintext| && Run(plaintext[start..]) < 3
    requires index - start == LiteralEnd(plaintext[start..], Run(plaintext[start..]))
    ensures Packets(plaintext[start..])
         == [index - start - 1] + plaintext[start..index] + Packets(plaintext[index..])
  {
    hide Packets, LiteralEnd, Run;
    PacketsStep(plaintext[start..]);
    assert plaintext[start..][..index - start] == plaintext[start..index];
    assert plaintext[start..][index - start..] == plaintext[index..];
  }

  method EncodePackets(plaintext: seq<byte>) returns (result: seq<byte>)
    ensures result == Packets(plaintext)
  {
    hide Packets, Run, LiteralEnd;
    result := [];
    var index := 0;
    assert plaintext[0..] == plaintext;
    while index < |plaintext|
      invariant 0 <= index <= |plaintext|
      invariant Packets(plaintext) == result + Packets(plaintext[index..])
    {
      var run := RepeatedRun(plaintext, index);
      if run >= 3 {
        PacketsRepeatAt(plaintext, index, run);
        result := result + [127 + run, plaintext[index]];
        index := index + run;
        continue;
      }
      var literalStart := index;
      index := LiteralReach(plaintext, literalStart, run);
      PacketsLiteralAt(plaintext, literalStart, index);
      result := result + ([index - literalStart - 1] + plaintext[literalStart..index]);
    }
    PacketsStep(plaintext[index..]);
  }

  /** Every in-bounds plaintext encodes: the encoded-bound error is dead. */
  method EncodeCodecFrame(codec: Codec, plaintext: seq<byte>)
    returns (r: Result<seq<byte>, CodecError>)
    ensures r == if InBounds(plaintext) then Ok(Frame(codec, plaintext)) else Err(PlaintextBounds)
    ensures r.Ok? ==> |r.value| <= MAX_CHUNK_PLAINTEXT + MAX_CODEC_OVERHEAD
  {
    hide FrameHeader, Packets;
    if |plaintext| == 0 || |plaintext| > MAX_CHUNK_PLAINTEXT {
      return Err(PlaintextBounds);
    }
    match codec {
      case Raw =>
        return Ok(FrameHeader(codec, |plaintext|) + plaintext);
      case Lossless =>
        var packets := EncodePackets(plaintext);
        var result := FrameHeader(codec, |plaintext|) + packets;
        PacketSize(plaintext);
        if |result| > MAX_CHUNK_PLAINTEXT + MAX_CODEC_OVERHEAD {
          return Err(LosslessFrameBound);
        }
        return Ok(result);
    }
  }

  /** The bounded packet loop of the lossless decoder. */
  method UnpackBounded(payload: seq<byte>, expected: nat)
    returns (r: Result<seq<byte>, CodecError>)
    ensures r.Ok? ==> Unpack(payload) == Some(r.value) && |r.value| == expected
    ensures r.Err? ==> Unpack(payload).None? || |Unpack(payload).value| != expected
  {
    hide Unpack;
    var result: seq<byte> := [];
    var index := 0;
    assert payload[0..] == payload;
    PrependAssoc([], [], Unpack(payload));
    while index < |payload|
      invariant 0 <= index <= |payload|
      invariant Unpack(payload) == Prepend(result, Unpack(payload[index..]))
    {
      var control := payload[index];
      var length := control % 128 + 1;
      UnpackAt(payload, index);
      if control < 128 {
        UnpackLiteralAt(payload, index, index + 1 + length);
      }
      index := index + 1;
      if control >= 128 {
        if index >= |payload| {
          return Err(TruncatedRepeat);
        }
        var value := payload[index];
        index := index + 1;
        PrependAssoc(result, Repeat(value, length), Unpack(payload[index..]));
        if |result| + length > expected {
          return Err(ExpandsPastBound);
        }
        result := result + Repeat(value, length);
      } else {
        var end := index + length;
        if end > |payload| {
          return Err(TruncatedLiteral);
        }
        PrependAssoc(result, payload[index..end], Unpack(payload[end..]));
        if |result| + length > expected {
          return Err(ExpandsPastBound);
        }
        result := result + payload[index..end];
        index := end;
      }
    }
    UnpackEmpty();
    assert payload[index..] == [] && result + [] == result;
    if |result| != expected {
      return Err(DecodedLength);
    }
    return Ok(result);
  }

  lemma {:induction false} UnpackEmpty()
    ensures Unpack([]) == Some([])
  {
  }

  lemma {:induction false} SplitHeader(encoded: seq<byte>, codec: Codec, n: u32)
    requires |encoded| >= CODEC_FRAME_HEADER_BYTES
    ensures encoded[..16] == FrameHeader(codec, n)
       <==> encoded[..8] == Magic(codec) && encoded[8..10] == Le(WIRE_VERSION, 2)
            && encoded[10..12] == Le(0, 2) && encoded[12..16] == Le(n, 4)
  {
    hide Magic, Le;
    assert encoded[..16] == encoded[..8] + encoded[8..10] + encoded[10..12] + encoded[12..16];
  }

  lemma {:induction false} HeaderFields(encoded: seq<byte>, codec: Codec, n: u32)
    requires |encoded| >= CODEC_FRAME_HEADER_BYTES
    ensures encoded[..16] == FrameHeader(codec, n)
       <==> encoded[..8] == Magic(codec) && GetU16(encoded, 8) == WIRE_VERSION
            && GetU16(encoded, 10) == 0 && GetU32(encoded, 12) == n
  {
    hide FrameHeader, Magic, Le, FromLe;
    SplitHeader(encoded, codec, n);
    Widths();
    LeField(encoded[8..10], WIRE_VERSION);
    LeField(encoded[10..12], 0);
    LeField(encoded[12..16], n);
  }

  lemma {:induction false} FrameParts(codec: Codec, p: seq<byte>, encoded: seq<byte>)
    requires InBounds(p)
    ensures encoded == Frame(codec, p)
       <==> |encoded| >= 16 && encoded[..16] == FrameHeader(codec, |p|)
            && encoded[16..] == Payload(codec, p)
  {
    hide FrameHeader, Payload;
    if |encoded| >= 16 {
      assert encoded == encoded[..16] + encoded[16..];
    }
  }

  lemma {:induction false} RawPayload(p: seq<byte>)
    ensures forall q :: Payload(Raw, q) == p <==> q == p
  {
  }

  lemma {:induction false} PayloadUnpacks(p: seq<byte>)
    ensures Unpack(Payload(Lossless, p)) == Some(p)
  {
    UnpackPackets(p);
  }

  /** Decoding accepts exactly the encoder's image: an accepted frame is the
      frame of the plaintext returned, and every such frame is accepted. */
  method DecodeCodecFrame(codec: Codec, encoded: seq<byte>, expected: nat)
    returns (r: Result<seq<byte>, CodecError>)
    ensures r.Ok? ==> InBounds(r.value) && |r.value| == expected && encoded == Frame(codec, r.value)
    ensures forall p :: InBounds(p) && |p| == expected && encoded == Frame(codec, p) ==> r == Ok(p)
  {
    hide Frame, FrameHeader, Payload, Packets, Unpack, Magic, GetU16, GetU32;
    forall p | InBounds(p) && |p| == expected
      ensures encoded == Frame(codec, p)
         <==> |encoded| >= 16 && encoded[..16] == FrameHeader(codec, |p|)
              && encoded[16..] == Payload(codec, p)
    {
      FrameParts(codec, p, encoded);
    }
    if |encoded| < CODEC_FRAME_HEADER_BYTES {
      return Err(TruncatedFrame);
    }
    if expected < U32_LIMIT {
      HeaderFields(encoded, codec, expected);
    }
    if encoded[..8] != Magic(codec) {
      return Err(FrameMagic);
    }
    if GetU16(encoded, 8) != WIRE_VERSION {
      return Err(FrameVersion);
    }
    if GetU16(encoded, 10) != 0 {
      return Err(FrameReserved);
    }
    if GetU32(encoded, 12) != expected || expected == 0 || expected > MAX_CHUNK_PLAINTEXT {
      return Err(FrameLength);
    }
    var payload := encoded[CODEC_FRAME_HEADER_BYTES..];
    if codec.Raw? {
      RawPayload(payload);
      if |payload| != expected {
        return Err(RawLength);
      }
      return Ok(payload);
    }
    forall p ensures Unpack(Payload(codec, p)) == Some(p) {
      PayloadUnpacks(p);
    }
    var decoded :- UnpackBounded(payload, expected);
    var again := EncodeCodecFrame(codec, decoded);
    if again != Ok(encoded) {
      return Err(NotCanonical);
    }
    return Ok(decoded);
  }

  /** No frame belongs to two plaintexts. */
  lemma {:induction false} FrameInjective(codec: Codec, p: seq<byte>, q: seq<byte>)
    requires InBounds(p) && InBounds(q)
    requires Frame(codec, p) == Frame(codec, q)
    ensures p == q
  {
    hide Frame, FrameHeader;
    FrameParts(codec, p, Frame(codec, p));
    FrameParts(codec, q, Frame(codec, q));
    UnpackPackets(p);
    UnpackPackets(q);
  }

  // ---------------------------------------------------------------------
  // Object sizing
  // ---------------------------------------------------------------------

  function Align(value: u64): (r: Option<u64>)
    ensures r.Some? <==> value + ALIGNMENT <= U64_LIMIT
    ensures r.Some? ==> r.value % ALIGNMENT == 0 && value <= r.value < value + ALIGNMENT
  {
    var rounded :- CheckedAdd(value, ALIGNMENT - 1);
    Some(rounded / ALIGNMENT * ALIGNMENT)
  }

  /** Sizing of one stored chunk object: header, frame, optional AEAD tag and
      padding. Every in-bounds plaintext has an object within the bound. */
  method ObjectBytes(codec: Codec, plaintext: seq<byte>, encrypt: bool)
    returns (r: Result<u64, CodecError>)
    ensures InBounds(plaintext) <==> r.Ok?
    ensures r.Ok? ==> r.value <= MAX_CHUNK_OBJECT_BYTES && r.value % ALIGNMENT == 0
    ensures r.Ok? ==>
              var held := CHUNK_HEADER_BYTES + |Frame(codec, plaintext)| + if encrypt then 16 else 0;
              held <= r.value < held + ALIGNMENT
  {
    var encoded :- EncodeCodecFrame(codec, plaintext);
    var payloadBytes := CheckedAdd(|encoded|, if encrypt then 16 else 0);
    if payloadBytes.None? {
      return Err(ObjectBound);
    }
    var withHeader := CheckedAdd(CHUNK_HEADER_BYTES, payloadBytes.value);
    if withHeader.None? {
      return Err(ObjectBound);
    }
    var objectBytes := Align(withHeader.value);
    if objectBytes.None? || objectBytes.value > MAX_CHUNK_OBJECT_BYTES {
      return Err(ObjectBound);
    }
    return Ok(objectBytes.value);
  }
}
