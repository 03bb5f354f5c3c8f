/**
 * The bookkeeping of the pipeline builder context in the back end: the
 * pipelines built so far, the id counters it hands out, the parallelism it was
 * created with, and the rule that decides whether a local shuffle is placed
 * between two groups of operators.
 */
module PipelineBuilders {
  import opened Java

  const Uint32Modulus: nat := 0x1_0000_0000
  const Int32Min: int := -0x8000_0000

  /** A C++ `uint32_t`. */
  type Uint32 = x: int | 0 <= x < Uint32Modulus

  /**
   * `Operator::s_pseudo_plan_node_id_upper_bound`, the first pseudo plan-node id.
   * Its definition (operator.h) is not part of this model; the value is the one
   * the back end uses.
   */
  const PseudoPlanNodeIdUpperBound: int := -100

  /** A pipeline: its id and the operator factories it runs, in order. */
  datatype Pipeline<Op> = Pipeline(id: Uint32, operators: seq<Op>)

  /** The `uint32_t` post-increment `x++` as it updates the counter: wraps to 0 after the largest value. */
  function WrappingIncrement(x: Uint32): (y: Uint32)
    ensures x < Uint32Modulus - 1 ==> y == x + 1
    ensures x == Uint32Modulus - 1 ==> y == 0
  {
    (x + 1) % Uint32Modulus
  }

  /** `localExchangeBufferChunks()`, the constant `kLocalExchangeBufferChunks`: how many chunks a local exchange buffers. */
  function LocalExchangeBufferChunks(): (n: int)
    ensures n == 8
  {
    8
  }

  /** The partition expressions the caller offers: a list, or a generator evaluated on demand. */
  datatype SelfPartitionExprs<E> =
    | SelfExprs(exprs: seq<E>)
    | SelfExprsGenerator(generate: () -> seq<E>)
  {
    function Exprs(): seq<E>
    {
      if SelfExprs? then exprs else generate()
    }
  }

  /** Whether a local shuffle is placed, and with which partition expressions. */
  datatype ShuffleDecision<E> = NoShuffle | Shuffle(partitionExprs: seq<E>)

  /**
   * The rule by which `maybe_interpolate_local_shuffle_exchange` decides:
   * shuffle only when the parallelism exceeds one and the source operator of
   * the preceding operators could shuffle locally; partition by the source
   * operator's own expressions when it has some, otherwise by the caller's.
   */
  function LocalShuffleDecision<E>(dop: nat, couldLocalShuffle: bool,
                                   sourcePartitionExprs: Option<seq<E>>,
                                   selfPartitionExprs: SelfPartitionExprs<E>): (d: ShuffleDecision<E>)
    ensures d.Shuffle? <==> dop > 1 && couldLocalShuffle
    ensures d.Shuffle? && sourcePartitionExprs.Some? ==> d.partitionExprs == sourcePartitionExprs.value
    ensures d.Shuffle? && sourcePartitionExprs.None? ==> d.partitionExprs == selfPartitionExprs.Exprs()
  {
    if dop <= 1 || !couldLocalShuffle then NoShuffle
    else if sourcePartitionExprs.Some? then Shuffle(sourcePartitionExprs.value)
    else Shuffle(selfPartitionExprs.Exprs())
  }

  class PipelineBuilderContext<Op> {
    var pipelines: seq<Pipeline<Op>>
    var nextPipelineId: Uint32
    var nextOperatorId: Uint32
    /** An `int32_t`. */
    var nextPseudoPlanNodeId: int
    const degreeOfParallelism: nat
    const isStreamPipeline: bool
    var forceDisableAdaptiveDop: bool
    var hasAggregation: bool

    /** The pseudo plan-node counter stays a negative `int32_t`. */
    predicate Valid()
      reads this
    {
      Int32Min <= nextPseudoPlanNodeId <= PseudoPlanNodeIdUpperBound
    }

    /** The ids of the pipelines are strictly ascending and were all handed out before the counter's value. */
    predicate PipelineIdsAscending()
      reads this
    {
      && (forall i, j :: 0 <= i < j < |pipelines| ==> pipelines[i].id < pipelines[j].id)
      && (forall i :: 0 <= i < |pipelines| ==> pipelines[i].id < nextPipelineId)
    }

    /** The fragment context argument is not part of this model. */
    constructor (degreeOfParallelism: nat, isStreamPipeline: bool)
      ensures this.degreeOfParallelism == degreeOfParallelism && this.isStreamPipeline == isStreamPipeline
      ensures pipelines == [] && nextPipelineId == 0 && nextOperatorId == 0
      ensures nextPseudoPlanNodeId == PseudoPlanNodeIdUpperBound
      ensures !forceDisableAdaptiveDop && !hasAggregation
      ensures Valid() && PipelineIdsAscending()
    {
      this.degreeOfParallelism := degreeOfParallelism;
      this.isStreamPipeline := isStreamPipeline;
      pipelines := [];
      nextPipelineId, nextOperatorId := 0, 0;
      nextPseudoPlanNodeId := PseudoPlanNodeIdUpperBound;
      forceDisableAdaptiveDop, hasAggregation := false, false;
    }

    /** `next_pipe_id()`: the current pipeline counter, which then advances. */
    method NextPipeId() returns (id: Uint32)
      modifies this`nextPipelineId
      ensures id == old(nextPipelineId)
      ensures nextPipelineId == WrappingIncrement(id)
      ensures id < Uint32Modulus - 1 ==> id < nextPipelineId
      ensures old(PipelineIdsAscending()) && id < Uint32Modulus - 1 ==> PipelineIdsAscending()
    {
      id := nextPipelineId;
      nextPipelineId := WrappingIncrement(nextPipelineId);
    }

    /** `next_operator_id()`: the current operator counter, which then advances; the pipeline counter is untouched. */
    method NextOperatorId() returns (id: Uint32)
      modifies this`nextOperatorId
      ensures id == old(nextOperatorId)
      ensures nextOperatorId == WrappingIncrement(id)
      ensures id < Uint32Modulus - 1 ==> id < nextOperatorId
    {
      id := nextOperatorId;
      nextOperatorId := WrappingIncrement(nextOperatorId);
    }

    /**
     * `next_pseudo_plan_node_id()`: the current pseudo plan-node id, which then
     * counts down. Counting down past the smallest `int32_t` is undefined, so
     * the counter must still be above it.
     */
    method NextPseudoPlanNodeId() returns (id: int)
      requires Valid() && nextPseudoPlanNodeId > Int32Min
      modifies this`nextPseudoPlanNodeId
      ensures id == old(nextPseudoPlanNodeId) && nextPseudoPlanNodeId == id - 1
      ensures Int32Min < id <= PseudoPlanNodeIdUpperBound
      ensures Valid()
    {
      id := nextPseudoPlanNodeId;
      nextPseudoPlanNodeId := nextPseudoPlanNodeId - 1;
    }

    /** `add_pipeline(operators)`: appends a pipeline with the next pipeline id. */
    method AddPipeline(operators: seq<Op>)
      modifies this`pipelines, this`nextPipelineId
      ensures pipelines == old(pipelines) + [Pipeline(old(nextPipelineId), operators)]
      ensures nextPipelineId == WrappingIncrement(old(nextPipelineId))
      ensures LastPipeline() == Pipeline(old(nextPipelineId), operators)
      ensures old(PipelineIdsAscending()) && old(nextPipelineId) < Uint32Modulus - 1 ==> PipelineIdsAscending()
    {
      var id := NextPipeId();
      pipelines := pipelines + [Pipeline(id, operators)];
    }

    /** `last_pipeline()`: the pipeline appended most recently; the list must not be empty. */
    function LastPipeline(): (p: Pipeline<Op>)
      reads this
      requires |pipelines| > 0
      ensures p in pipelines
      ensures PipelineIdsAscending() ==> forall q :: q in pipelines ==> q.id <= p.id
    {
      pipelines[|pipelines| - 1]
    }

    /** `degree_of_parallelism()` */
    function DegreeOfParallelism(): (dop: nat)
      ensures dop == degreeOfParallelism
    {
      degreeOfParallelism
    }

    /** `is_stream_pipeline()` */
    function IsStreamPipeline(): (b: bool)
      ensures b == isStreamPipeline
    {
      isStreamPipeline
    }

    /** `force_disable_adaptive_dop()` */
    function ForceDisableAdaptiveDop(): (b: bool)
      reads this
      ensures b == forceDisableAdaptiveDop
    {
      forceDisableAdaptiveDop
    }

    /** `set_force_disable_adaptive_dop(val)` */
    method SetForceDisableAdaptiveDop(val: bool)
      modifies this`forceDisableAdaptiveDop
      ensures ForceDisableAdaptiveDop() == val
    {
      forceDisableAdaptiveDop := val;
    }
  }
}
