/** Executable graphs: nodes, edges, routers and retry policies as the engine sees them. */
module Graphs {
  import opened Values
  import opened Reducers
  import opened AgentStates

  const START: string := "__start__"
  const END: string := "__end__"

  datatype NodeError = NodeCancelled | NodeInterrupted | NodeFailed(code: int)

  datatype SendOp = SendOp(node: string, state: Data)

  datatype Navigation =
    | Default
    | GotoNode(name: string)
    | GotoNodes(names: seq<string>)
    | GotoEnd
    | Send(ops: seq<SendOp>)

  datatype NodeOutput = Done | Command(update: Option<Data>, goto: Navigation)

  /** One execution of a node: the state it leaves, how often it wrote, and how it ended. A failed
    * execution may have written too. */
  datatype Trial = Trial(data: Data, writes: nat, outcome: Result<NodeOutput, NodeError>)

  datatype RouterOutput = Next(target: Option<string>) | FanOut(targets: seq<string>)

  datatype EdgeType =
    | Normal(to: string)
    | Conditional(route: Data -> Result<RouterOutput, int>)

  datatype RetryPolicy = RetryPolicy(maxAttempts: nat, retryOn: NodeError -> bool)

  /** A node is an arbitrary function of the state and of the retry ordinal. */
  datatype Graph = Graph(
    nodes: map<string, (Data, nat) -> Trial>,
    edges: map<string, seq<EdgeType>>,
    retry: map<string, RetryPolicy>,
    maxIterations: nat,
    cycleDetection: bool,
    interruptBefore: set<string>,
    interruptAfter: set<string>)

  /** What a run depends on besides its input. */
  datatype Env = Env(graph: Graph, limits: Limits, reducers: map<string, Reducer>)

  /** A finished parallel branch: its name, its fork and its output. */
  datatype BranchResult = BranchResult(name: string, data: Data, output: NodeOutput)

  datatype StoreOperation =
    | OpRecordAttempt | OpCompleteAttempt | OpFailAttempt | OpSaveStateSnapshot | OpCompleteRun | OpFailRun

  /** `FromNode` marks the errors that come out of a node's own execution. */
  datatype Error =
    | Cancelled
    | MaxIterationsExceeded(current: nat, max: nat)
    | CycleDetected(path: seq<string>)
    | NodeNotFound(name: string)
    | InterruptError(node: string)
    | StateError
    | RouterError(code: int)
    | CheckpointStoreError(operation: StoreOperation)
    | FromNode(error: NodeError)
}
