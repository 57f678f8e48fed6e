// Shared vocabulary: results, machine-integer bounds and the render identities
// that the pool, the dispatcher and gossip all talk about.
//
// A Rust `String` is a sequence of UTF-8 bytes. Here it is a Dafny `string`
// whose every character stands for one byte, so `|s|` is `s.len()`.
module Types {
  datatype Option<+T> = None | Some(value: T)

  datatype Result<+T, +E> = Ok(value: T) | Err(error: E)

  const U32_LIMIT: nat := 0x1_0000_0000
  const U64_LIMIT: nat := 0x1_0000_0000_0000_0000

  datatype RenderMode = Static | Tile

  datatype Scale = X1 | X2

  datatype StyleRevision = StyleRevision(id: string, version: nat)

  datatype WorkerProfile = WorkerProfile(style: StyleRevision, mode: RenderMode, scale: Scale)

  type NodeId = string

  datatype WorkerView = WorkerView(id: nat, loaded: Option<WorkerProfile>, queueDepth: nat)

  datatype NodeStateView = NodeStateView(id: NodeId, accepts: bool, workers: seq<WorkerView>)

  datatype RouteTier = WarmTracking | HrwSpread | DrainSwap | Overflow

  datatype RejectionReason =
    | QueueFull | NoCapacity | RendererDegraded | DrainTooSlow | UnknownStyle
    | HopLimitExceeded | ForwardFailed | DeadlineTooClose | DeadlineExceeded

  datatype Candidate = Candidate(node: NodeId, drainWorker: Option<nat>)

  datatype Decision =
    | Local(tier: RouteTier, workerHint: Option<nat>, fallback: seq<Candidate>)
    | Forward(tier: RouteTier, candidates: seq<Candidate>)
    | Reject(reason: RejectionReason)
}
