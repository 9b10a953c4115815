/** The messages of the relay protocol (internal/proto/proto.go) and the record the coordinator hands
    from its read loop to a waiting handler (internal/coord/registry.go, `ChunkRelay`). */
module Wire {

  type RequestId = string

  datatype Option<+T> = None | Some(value: T)

  const MAX_RETRIES: nat := 3
  const BACKEND_UNHEALTHY_EVICTION: int := 300_000_000_000

  /** What a provider sends about a request. Raw JSON tool calls are strings, empty when absent. */
  datatype ProviderMsg =
    | Chunk(rid: RequestId, content: string, toolCalls: string, done: bool)
    | Response(rid: RequestId, content: string, toolCalls: string, tokens: int)
    | Error(rid: RequestId, code: string, message: string)

  /** After a terminal message the coordinator drops the request's channel. */
  predicate Terminal(m: ProviderMsg) {
    m.Chunk? ==> m.done
  }

  datatype ChunkRelay = ChunkRelay(content: string, toolCalls: string, done: bool, err: string, tokens: int)

  /** relayChunk, relayResponse and relayError build these. */
  function ToRelay(m: ProviderMsg): ChunkRelay {
    match m
    case Chunk(_, content, toolCalls, done) => ChunkRelay(content, toolCalls, done, "", 0)
    case Response(_, content, toolCalls, tokens) => ChunkRelay(content, toolCalls, false, "", tokens)
    case Error(_, code, message) => ChunkRelay("", "", false, code + ": " + message, 0)
  }

  function ToRelays(ms: seq<ProviderMsg>): (rs: seq<ChunkRelay>)
    ensures |rs| == |ms|
    ensures forall i :: 0 <= i < |ms| ==> rs[i] == ToRelay(ms[i])
  {
    seq(|ms|, i requires 0 <= i < |ms| => ToRelay(ms[i]))
  }

  function Concat(parts: seq<string>): string {
    if parts == [] then "" else Concat(parts[..|parts| - 1]) + parts[|parts| - 1]
  }
}
