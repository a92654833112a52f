/** Symbolic identities. A keyed or plain hash is a constructor over its
    domain label and the parts it absorbed, so distinct preimages give
    distinct identities. Every part but the last of one label has a fixed
    width on the wire, which makes a part list as unambiguous as its bytes. */
module Symbols {
  import opened Machine

  datatype Id =
    | ZeroId
    | GivenId(tag: nat)
    | Hmac(key: Id, domain: string, parts: seq<Part>)
    | Sha(domain: string, parts: seq<Part>)

  datatype Part =
    | IdPart(id: Id)
    | NumberPart(number: nat)
    | BytesPart(bytes: seq<byte>)
}
