// The data the collector hands to the optimizer (config.ServerSpec and its parts).
module Config {

  datatype ServerLoad = ServerLoad(arrivalRate: real, throughput: real, avgInTokens: int, avgOutTokens: int)

  datatype Allocation = Allocation(accelerator: string, numReplicas: int, maxBatch: int, cost: real,
                                   itl: real, ttft: real, occupancy: real, load: ServerLoad)

  datatype ServerSpec = ServerSpec(name: string, className: string, model: string, maxQueueSize: int,
                                   alloc: Allocation)

  /** The identity a Deployment's labels give to its specs. */
  datatype Server = Server(name: string, className: string, model: string, accelerator: string, maxQueueSize: int)

  const REPLICA_NAME_SEPARATOR := "/"

  /** int(x): Go truncates toward zero. */
  function Truncate(x: real): int {
    if x >= 0.0 then x.Floor else -((-x).Floor)
  }

  /** n is x without its fraction. */
  ghost predicate IsWholePart(x: real, n: int) {
    if x >= 0.0 then n as real <= x < (n + 1) as real else (n - 1) as real < x <= n as real
  }

  lemma TruncateMeaning(x: real)
    ensures IsWholePart(x, Truncate(x))
  {
  }
}
