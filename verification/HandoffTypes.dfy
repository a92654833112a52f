/** The live-handoff records. A digest is symbolic: `Sha256(items)` is the hash
    of what was absorbed, `Text` any other string a peer may have sent.
    Canonical JSON is one item per document, that is, an injective encoding. */
module HandoffTypes {
  import opened Machine

  datatype Role = Key | Value

  datatype Hex =
    | Sha256(items: seq<Item>)
    | Hmac(key: nat, items: seq<Item>)
    | Text(text: string)

  datatype Item =
    | Domain(name: string)
    | Newline
    | Bytes(bytes: seq<byte>)
    | Tokens(tokens: seq<u32>)
    | BeginJson(begin: Begin)
    | HeaderJson(header: Header)
    | CoreJson(core: SealCore)

  datatype LayoutClass = LayoutClass(
    name: string,
    dtype: string,
    except: seq<u32>,
    from: u32,
    headDim: u32,
    kvHeads: u32,
    roles: seq<Role>,
    step: u32,
    until: u32,
    windowTokens: u32)

  datatype Geometry = Geometry(headDim: u32, maxContextTokens: u32, numKvHeads: u32, numLayers: u32)

  datatype Endpoints = Endpoints(
    consumerEngineAbi: string,
    consumerNode: string,
    producerEngineAbi: string,
    producerNode: string,
    trustDomain: string)

  datatype ExactIdentity = ExactIdentity(
    adapter: Hex,
    chatTemplate: Hex,
    contextPolicy: Hex,
    modelRevision: string,
    model: Hex,
    tokenizerRevision: string,
    tokenizer: Hex)

  datatype Precision = Precision(compute: string, kv: string, weights: string)

  /** The strategy is a one-value enumeration in the source and is left out. */
  datatype Begin = Begin(
    cachedTokenCount: u32,
    createdUnixMs: u64,
    deadlineUnixMs: u64,
    endpoints: Endpoints,
    expectedLayerFrames: u32,
    expectedPayloadBytes: u64,
    geometry: Geometry,
    identity: ExactIdentity,
    portableAbi: string,
    precision: Precision,
    protocol: string,
    schemaVersion: u32,
    tokenIds: Hex,
    transferId: Hex,
    layoutTable: seq<LayoutClass>,
    schedule: Option<string>,
    hmacKeyId: Option<string>)

  datatype Limits = Limits(
    maxCachedTokens: u32,
    maxClockSkewMs: u64,
    maxContextTokens: u32,
    maxFrameBytes: u64,
    maxLayers: u32,
    maxSessionMs: u64,
    maxTotalBytes: u64,
    nowUnixMs: u64)

  datatype Header = Header(
    byteLength: u64,
    layer: u32,
    tokenEnd: u32,
    tokenStart: u32,
    role: Role,
    schemaVersion: u32,
    sequence: u32,
    sha256: Hex,
    shape: (u32, u32, u32),
    transferId: Hex,
    dtype: Option<string>,
    layoutClass: Option<string>)

  datatype Canary = Canary(start: u32, count: u32, postRopeK: Hex, postRopeV: Hex)

  datatype SealCore = SealCore(
    completedUnixMs: u64,
    descriptorChain: Hex,
    frameCount: u32,
    payloadBytes: u64,
    payload: Hex,
    promptTokenIds: seq<u32>,
    protocol: string,
    schemaVersion: u32,
    tokenIds: Hex,
    transferId: Hex,
    canary: Option<Canary>)

  datatype Seal = Seal(artifact: Hex, artifactHmac: Option<Hex>, core: SealCore)

  const SCHEMA_V1 := 1
  const PROTOCOL_V1 := "kvpack-live-f16-le-v1"
  const ABI_V1 := "canonical-kv-f16-le-v1"
  const ABI_V2 := "canonical-kv-v2"
  const ABI_V2_PREROPE := "canonical-kv-prerope-v2"
  const LAYER_ORDER := "layer-order"
  const DECODE_PRIORITY := "decode-priority"
}
