/** The wire and storage records of internal/models, without display-only fields. */
module Models {
  import opened Wrappers

  newtype byte = x: int | 0 <= x < 0x100
  type Bytes = seq<byte>
  type Id = string

  /** Only the fields the delivery machinery looks at; `body` stands for the rest. */
  datatype RelayRequest = RelayRequest(id: Id, body: string)
  datatype RelayResult = RelayResult(requestId: Id, body: string)

  datatype Kind = RequestKind | ResultKind

  /** "<request id>:<kind>"; request ids are hex, so the pair is recovered from the string. */
  datatype TransferId = TransferId(requestId: Id, kind: Kind)

  function TransferName(t: TransferId): string {
    t.requestId + (if t.kind.RequestKind? then ":request" else ":result")
  }

  /** `payload` is the outcome of base64 decoding (section 4 of RFC 4648): `None` is malformed text. */
  datatype TransportChunk = TransportChunk(
    transfer: TransferId, requestId: Id, index: int, total: int,
    payload: Option<Bytes>, checksum: string, totalSize: int)

  datatype ChunkReceipt = ChunkReceipt(
    transfer: TransferId, requestId: Id, nextIndex: int, completed: bool, reset: bool)

  datatype Status = Queued | Leased | Received | Executing | Completed | Failed

  datatype SyncState = SyncState(requestId: Id, status: Status, leaseUntil: Option<int>)

  /** The body of a websocket message; its constructor is the message type. */
  datatype Body =
    | PushRequest(request: RelayRequest)
    | PushChunk(chunk: TransportChunk)
    | RequestState(state: SyncState)
    | Result(result: RelayResult)
    | ResultChunk(resultChunk: TransportChunk)
    | Receipt(receipt: ChunkReceipt)

  /** What one outbox row keeps besides its number. JSON round-trips, so the payload is its body. */
  datatype Entry = Entry(refId: string, body: Body)

  datatype OutMsg = OutMsg(seqNo: int, entry: Entry)

  /** SHA-256 and JSON are opaque: every statement holds for any functions in their place. */
  datatype Codec = Codec(
    sha: Bytes -> string,
    marshalRequest: RelayRequest -> Bytes, parseRequest: Bytes -> Option<RelayRequest>,
    marshalResult: RelayResult -> Bytes, parseResult: Bytes -> Option<RelayResult>)
  {
    ghost predicate CollisionFree() {
      forall a: Bytes, b: Bytes :: sha(a) == sha(b) ==> a == b
    }
  }

  datatype Backend = Redis | Sqlite
}
