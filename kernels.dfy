/** The C++ runtime (`deep_ep_cpp.Buffer`) seen from the Python orchestration:
    the values it reports and, for every kernel, the argument record the Python
    passes and the reply record it unpacks. Kernels are total functions from
    call to reply, so nothing is assumed about what they compute. */
module Kernels {
  import opened Values

  /** Positional arguments of the runtime's `Config(...)` constructor. */
  datatype Config = Config(
    numSms: int,
    nvlSendChunk: int,
    nvlRecvChunk: int,
    rdmaSendChunk: int,
    rdmaRecvChunk: int)

  /** Arguments of `runtime.intranode_dispatch`, in their positional order. */
  datatype IntraDispatchCall = IntraDispatchCall(
    x: Tensor,
    xScales: Option<Tensor>,
    topkIdx: Option<Tensor>,
    topkWeights: Option<Tensor>,
    numTokensPerRank: Option<Tensor>,
    isTokenInRank: Tensor,
    numTokensPerExpert: Option<Tensor>,
    cachedNumRecvTokens: int,
    cachedRankPrefixMatrix: Option<Tensor>,
    cachedChannelPrefixMatrix: Option<Tensor>,
    expertAlignment: int,
    numWorstTokens: int,
    config: Config,
    previousEvent: Obj,
    asyncFinish: bool,
    allocateOnCommStream: bool)

  /** The 11-tuple `runtime.intranode_dispatch` returns. */
  datatype IntraDispatchReply = IntraDispatchReply(
    recvX: Tensor,
    recvXScales: Option<Tensor>,
    recvTopkIdx: Option<Tensor>,
    recvTopkWeights: Option<Tensor>,
    numRecvTokensPerExpertList: seq<int>,
    rankPrefixMatrix: Tensor,
    channelPrefixMatrix: Tensor,
    recvChannelPrefixMatrix: Tensor,
    recvSrcIdx: Tensor,
    sendHead: Tensor,
    event: Obj)

  /** Arguments of `runtime.intranode_combine`. */
  datatype IntraCombineCall = IntraCombineCall(
    x: Tensor,
    topkWeights: Option<Tensor>,
    srcIdx: Tensor,
    rankPrefixMatrix: Tensor,
    channelPrefixMatrix: Tensor,
    sendHead: Tensor,
    config: Config,
    previousEvent: Obj,
    asyncFinish: bool,
    allocateOnCommStream: bool)

  /** Arguments of `runtime.internode_dispatch`. */
  datatype InterDispatchCall = InterDispatchCall(
    x: Tensor,
    xScales: Option<Tensor>,
    topkIdx: Option<Tensor>,
    topkWeights: Option<Tensor>,
    numTokensPerRank: Option<Tensor>,
    numTokensPerRdmaRank: Option<Tensor>,
    isTokenInRank: Tensor,
    numTokensPerExpert: Option<Tensor>,
    cachedNumRecvTokens: int,
    cachedNumRdmaRecvTokens: int,
    cachedRdmaChannelPrefixMatrix: Option<Tensor>,
    cachedRecvRdmaRankPrefixSum: Option<Tensor>,
    cachedGblChannelPrefixMatrix: Option<Tensor>,
    cachedRecvGblRankPrefixSum: Option<Tensor>,
    expertAlignment: int,
    config: Config,
    previousEvent: Obj,
    asyncFinish: bool,
    allocateOnCommStream: bool)

  /** The 15-tuple `runtime.internode_dispatch` returns. */
  datatype InterDispatchReply = InterDispatchReply(
    recvX: Tensor,
    recvXScales: Option<Tensor>,
    recvTopkIdx: Option<Tensor>,
    recvTopkWeights: Option<Tensor>,
    numRecvTokensPerExpertList: seq<int>,
    rdmaChannelPrefixMatrix: Tensor,
    gblChannelPrefixMatrix: Tensor,
    recvRdmaChannelPrefixMatrix: Tensor,
    recvRdmaRankPrefixSum: Tensor,
    recvGblChannelPrefixMatrix: Tensor,
    recvGblRankPrefixSum: Tensor,
    recvSrcMeta: Tensor,
    sendRdmaHead: Tensor,
    sendNvlHead: Tensor,
    event: Obj)

  /** Arguments of `runtime.internode_combine`. */
  datatype InterCombineCall = InterCombineCall(
    x: Tensor,
    topkWeights: Option<Tensor>,
    srcMeta: Tensor,
    isCombinedTokenInRank: Tensor,
    rdmaChannelPrefixMatrix: Tensor,
    rdmaRankPrefixSum: Tensor,
    gblChannelPrefixMatrix: Tensor,
    sendRdmaHead: Tensor,
    sendNvlHead: Tensor,
    config: Config,
    previousEvent: Obj,
    asyncFinish: bool,
    allocateOnCommStream: bool)

  /** Arguments of `runtime.low_latency_dispatch`. */
  datatype LowLatencyDispatchCall = LowLatencyDispatchCall(
    x: Tensor,
    topkIdx: Tensor,
    cumulativeLocalExpertRecvStats: Option<Tensor>,
    numMaxDispatchTokensPerRank: int,
    numExperts: int,
    useFp8: bool,
    roundScale: bool,
    useUe8m0: bool,
    asyncFinish: bool,
    returnRecvHook: bool)

  /** The 7-tuple `runtime.low_latency_dispatch` returns. */
  datatype LowLatencyDispatchReply = LowLatencyDispatchReply(
    packedRecvX: Tensor,
    packedRecvXScales: Option<Tensor>,
    packedRecvCount: Tensor,
    packedRecvSrcInfo: Tensor,
    packedRecvLayoutRange: Tensor,
    event: Obj,
    hook: Obj)

  /** Arguments of `runtime.low_latency_combine`. */
  datatype LowLatencyCombineCall = LowLatencyCombineCall(
    x: Tensor,
    topkIdx: Tensor,
    topkWeights: Tensor,
    srcInfo: Tensor,
    layoutRange: Tensor,
    numMaxDispatchTokensPerRank: int,
    numExperts: int,
    zeroCopy: bool,
    asyncFinish: bool,
    returnRecvHook: bool,
    out: Option<Tensor>)

  /** The 3-tuple `runtime.low_latency_combine` returns. */
  datatype LowLatencyCombineReply = LowLatencyCombineReply(combinedX: Tensor, event: Obj, hook: Obj)

  /** Arguments of `runtime.get_next_low_latency_combine_buffer`. */
  datatype CombineBufferCall = CombineBufferCall(numMaxDispatchTokensPerRank: int, hidden: int, numExperts: int)

  /** The runtime a Buffer owns. The first four fields are what it reports when asked
      (`get_num_rdma_ranks`, `get_local_ipc_handle`, `get_local_nvshmem_unique_id`,
      `is_available` after `sync`); the others are its kernels. */
  datatype Runtime = Runtime(
    numRdmaRanks: int,
    localIpcHandle: seq<byte>,
    localNvshmemUniqueId: seq<byte>,
    availableAfterSync: bool,
    intranodeDispatch: IntraDispatchCall -> IntraDispatchReply,
    intranodeCombine: IntraCombineCall -> Obj,
    internodeDispatch: InterDispatchCall -> InterDispatchReply,
    internodeCombine: InterCombineCall -> Obj,
    lowLatencyDispatch: LowLatencyDispatchCall -> LowLatencyDispatchReply,
    lowLatencyCombine: LowLatencyCombineCall -> LowLatencyCombineReply,
    nextLowLatencyCombineBuffer: CombineBufferCall -> Tensor)

  /** The transport `dispatch` and `combine` pick: internode exactly when the
      runtime reports more than one RDMA rank. */
  predicate IsInternode(rt: Runtime) {
    rt.numRdmaRanks > 1
  }
}
