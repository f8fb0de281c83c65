/** The high-throughput paths of `Buffer`: `dispatch` and `combine`, which pick
    between the intranode and the internode transport, and `internode_dispatch`
    and `internode_combine`. Each function returns the record of the kernel call
    it makes together with what it hands back to its caller, or the error that
    one of its asserts (or a tuple unpack) raises. */
module NormalMode {
  import opened Values
  import opened Kernels
  import opened Handles
  import opened Configs

  /** The arguments of `dispatch` (and of `internode_dispatch`, which has no
      `num_worst_tokens` and ignores that field). */
  datatype DispatchArgs = DispatchArgs(
    x: Tokens,
    handle: Option<Handle>,
    numTokensPerRank: Option<Tensor>,
    numTokensPerRdmaRank: Option<Tensor>,
    isTokenInRank: Option<Tensor>,
    numTokensPerExpert: Option<Tensor>,
    topkIdx: Option<Tensor>,
    topkWeights: Option<Tensor>,
    expertAlignment: int,
    numWorstTokens: int,
    config: Option<Config>,
    opts: StreamOpts)

  /** The 6-tuple dispatch returns; the cached path fills slots 1 to 4 with None. */
  datatype DispatchResult = DispatchResult(
    recvX: Tokens,
    recvTopkIdx: Option<Tensor>,
    recvTopkWeights: Option<Tensor>,
    numRecvTokensPerExpertList: Option<seq<int>>,
    handle: Option<Handle>,
    event: EventOverlap)

  datatype DispatchCall = IntraDispatch(intra: IntraDispatchCall) | InterDispatch(inter: InterDispatchCall)

  datatype DispatchOutcome = DispatchOutcome(call: DispatchCall, result: DispatchResult)

  /** The 3-tuple combine returns. */
  datatype CombineResult = CombineResult(recvX: Obj, recvTopkWeights: Obj, event: EventOverlap)

  datatype CombineCall = IntraCombine(intra: IntraCombineCall) | InterCombine(inter: InterCombineCall)

  datatype CombineOutcome = CombineOutcome(call: CombineCall, result: CombineResult)

  function CallConfig(c: DispatchCall): Config {
    match c
    case IntraDispatch(k) => k.config
    case InterDispatch(k) => k.config
  }

  function CombineCallConfig(c: CombineCall): Config {
    match c
    case IntraCombine(k) => k.config
    case InterCombine(k) => k.config
  }

  predicate CachedResult(res: DispatchResult) {
    res.recvTopkIdx.None? && res.recvTopkWeights.None? && res.numRecvTokensPerExpertList.None? && res.handle.None?
  }

  function Length(t: Tensor): nat
    requires |t.shape| > 0
  {
    t.shape[0]
  }

  // ---------------------------------------------------------------- intranode

  /** The handle a fresh intranode dispatch packs: five tensors of the kernel's
      reply and the caller's `is_token_in_rank` in slot 4. */
  function IntranodeHandleOf(rep: IntraDispatchReply, isTokenInRank: Tensor): (h: Handle)
    ensures h.Intranode?
    ensures Slots(h) == [TensorObj(rep.rankPrefixMatrix), TensorObj(rep.channelPrefixMatrix),
                         TensorObj(rep.recvChannelPrefixMatrix), TensorObj(rep.recvSrcIdx),
                         TensorObj(isTokenInRank), TensorObj(rep.sendHead)]
  {
    Intranode(rep.rankPrefixMatrix, rep.channelPrefixMatrix, rep.recvChannelPrefixMatrix,
              rep.recvSrcIdx, isTokenInRank, rep.sendHead)
  }

  /** What a cached intranode dispatch hands the kernel from the handle. */
  predicate ReplaysIntranode(call: IntraDispatchCall, h: Handle)
    requires h.Intranode? && |h.recvSrcIdx.shape| > 0
  {
    && call.isTokenInRank == h.isTokenInRank
    && call.cachedNumRecvTokens == Length(h.recvSrcIdx)
    && call.cachedRankPrefixMatrix == Some(h.rankPrefixMatrix)
    && call.cachedChannelPrefixMatrix == Some(h.channelPrefixMatrix)
    && call.topkIdx.None? && call.topkWeights.None?
    && call.numTokensPerRank.None? && call.numTokensPerExpert.None?
  }

  /** The intranode branch of `dispatch`, with the config already chosen. */
  function IntranodeDispatch(rt: Runtime, a: DispatchArgs, config: Config): (r: Result<DispatchOutcome>)
    ensures r.Ok? ==> r.value.call.IntraDispatch?
    // Cached mode: a handle excludes top-k inputs and must be the 6-slot shape.
    ensures a.handle.Some? && (a.topkIdx.Some? || a.topkWeights.Some?) ==> r == Err(CachedWithTopk)
    ensures a.handle.Some? ==>
      (r.Ok? <==> a.topkIdx.None? && a.topkWeights.None? && a.handle.value.Intranode?
                  && |a.handle.value.recvSrcIdx.shape| > 0)
    ensures a.handle.Some? && a.topkIdx.None? && a.topkWeights.None? && !a.handle.value.Intranode? ==>
      r == Err(HandleArity(6, Arity(a.handle.value)))
    ensures a.handle.Some? && a.topkIdx.None? && a.topkWeights.None? && a.handle.value.Intranode?
            && |a.handle.value.recvSrcIdx.shape| == 0 ==>
      r == Err(NoSuchDimension(0))
    ensures r.Ok? && a.handle.Some? ==>
      ReplaysIntranode(r.value.call.intra, a.handle.value) && CachedResult(r.value.result)
    // Fresh mode: all three layout tensors are needed, and a new handle comes back.
    ensures a.handle.None? ==>
      (r.Ok? <==> a.numTokensPerRank.Some? && a.isTokenInRank.Some? && a.numTokensPerExpert.Some?)
    ensures a.handle.None? && r.Err? ==> r.error == MissingLayout
    ensures r.Ok? && a.handle.None? ==>
      var call := r.value.call.intra;
      var rep := rt.intranodeDispatch(call);
      && call.topkIdx == a.topkIdx && call.topkWeights == a.topkWeights
      && call.numTokensPerRank == a.numTokensPerRank && call.isTokenInRank == a.isTokenInRank.value
      && call.numTokensPerExpert == a.numTokensPerExpert
      && call.cachedNumRecvTokens == 0
      && call.cachedRankPrefixMatrix.None? && call.cachedChannelPrefixMatrix.None?
      && r.value.result.handle == Some(IntranodeHandleOf(rep, a.isTokenInRank.value))
      && r.value.result.recvTopkIdx == rep.recvTopkIdx
      && r.value.result.recvTopkWeights == rep.recvTopkWeights
      && r.value.result.numRecvTokensPerExpertList == Some(rep.numRecvTokensPerExpertList)
    // Both modes.
    ensures r.Ok? ==>
      var call := r.value.call.intra;
      var rep := rt.intranodeDispatch(call);
      && call.x == a.x.data && call.xScales == Scales(a.x)
      && call.config == config && call.expertAlignment == a.expertAlignment
      && call.numWorstTokens == a.numWorstTokens
      && call.previousEvent == WaitTarget(a.opts)
      && call.asyncFinish == a.opts.asyncFinish && call.allocateOnCommStream == a.opts.allocateOnCommStream
      && r.value.result.recvX == Received(rep.recvX, rep.recvXScales, Scales(a.x))
      && r.value.result.event == EventOverlap(rep.event, None)
  {
    var x, xScales := a.x.data, Scales(a.x);
    var wait := WaitTarget(a.opts);
    if a.handle.Some? then
      if a.topkIdx.Some? || a.topkWeights.Some? then Err(CachedWithTopk)
      else
        match a.handle.value
        case Intranode(rankPrefix, channelPrefix, _, recvSrcIdx, isTokenInRank, _) =>
          (match Size(recvSrcIdx, 0)
           case Err(e) => Err(e)
           case Ok(numRecvTokens) =>
             var call := IntraDispatchCall(
               x, xScales, None, None, None, isTokenInRank, None, numRecvTokens,
               Some(rankPrefix), Some(channelPrefix), a.expertAlignment, a.numWorstTokens,
               config, wait, a.opts.asyncFinish, a.opts.allocateOnCommStream);
             var rep := rt.intranodeDispatch(call);
             Ok(DispatchOutcome(IntraDispatch(call), DispatchResult(
               Received(rep.recvX, rep.recvXScales, xScales), None, None, None, None,
               EventOverlap(rep.event, None)))))
        case _ => Err(HandleArity(6, Arity(a.handle.value)))
    else if a.numTokensPerRank.None? || a.isTokenInRank.None? || a.numTokensPerExpert.None? then
      Err(MissingLayout)
    else
      var call := IntraDispatchCall(
        x, xScales, a.topkIdx, a.topkWeights, a.numTokensPerRank, a.isTokenInRank.value,
        a.numTokensPerExpert, 0, None, None, a.expertAlignment, a.numWorstTokens,
        config, wait, a.opts.asyncFinish, a.opts.allocateOnCommStream);
      var rep := rt.intranodeDispatch(call);
      Ok(DispatchOutcome(IntraDispatch(call), DispatchResult(
        Received(rep.recvX, rep.recvXScales, xScales), rep.recvTopkIdx, rep.recvTopkWeights,
        Some(rep.numRecvTokensPerExpertList), Some(IntranodeHandleOf(rep, a.isTokenInRank.value)),
        EventOverlap(rep.event, None))))
  }

  /** The intranode kernel call `combine` makes from a 6-slot handle: slots 0, 2, 3
      and 5. Slot 1 is skipped by the unpack and slot 4 is unpacked but not passed. */
  function IntranodeCombineCallOf(
    x: Tensor, h: Handle, topkWeights: Option<Tensor>, config: Config, opts: StreamOpts): IntraCombineCall
    requires h.Intranode?
  {
    IntraCombineCall(x, topkWeights, h.recvSrcIdx, h.rankPrefixMatrix, h.recvChannelPrefixMatrix,
                     h.sendHead, config, WaitTarget(opts), opts.asyncFinish, opts.allocateOnCommStream)
  }

  /** How `combine` reads the intranode kernel's reply: with weights, a 3-tuple is
      (x, weights, event) and a 2-tuple (x, event); without weights only a 2-tuple
      is split; any other reply is taken whole as x. */
  function NormaliseIntranodeCombine(result: Obj, withWeights: bool): (r: CombineResult)
    ensures !withWeights ==> r.recvTopkWeights == NoneObj
    ensures !result.TupleObj? ==> r == CombineResult(result, NoneObj, EventOverlap(NoneObj, None))
    ensures result.TupleObj? && |result.items| == 2 ==>
      r == CombineResult(result.items[0], NoneObj, EventOverlap(result.items[1], None))
    ensures withWeights && result.TupleObj? && |result.items| == 3 ==>
      r == CombineResult(result.items[0], result.items[1], EventOverlap(result.items[2], None))
    ensures result.TupleObj? && |result.items| !in {2, 3} ==>
      r == CombineResult(result, NoneObj, EventOverlap(NoneObj, None))
    ensures !withWeights && result.TupleObj? && |result.items| == 3 ==>
      r == CombineResult(result, NoneObj, EventOverlap(NoneObj, None))
  {
    var isSeq := result.TupleObj?;
    if withWeights then
      if isSeq && |result.items| == 3 then
        CombineResult(result.items[0], result.items[1], EventOverlap(result.items[2], None))
      else if isSeq && |result.items| == 2 then
        CombineResult(result.items[0], NoneObj, EventOverlap(result.items[1], None))
      else
        CombineResult(result, NoneObj, EventOverlap(NoneObj, None))
    else
      if isSeq && |result.items| == 2 then
        CombineResult(result.items[0], NoneObj, EventOverlap(result.items[1], None))
      else
        CombineResult(result, NoneObj, EventOverlap(NoneObj, None))
  }

  // ---------------------------------------------------------------- internode

  /** The handle a fresh internode dispatch packs: the caller's `is_token_in_rank`
      in slot 0 and nine tensors of the kernel's reply. */
  function InternodeHandleOf(rep: InterDispatchReply, isTokenInRank: Tensor): (h: Handle)
    ensures h.Internode?
    ensures Slots(h) == [TensorObj(isTokenInRank), TensorObj(rep.rdmaChannelPrefixMatrix),
                         TensorObj(rep.gblChannelPrefixMatrix), TensorObj(rep.recvRdmaChannelPrefixMatrix),
                         TensorObj(rep.recvRdmaRankPrefixSum), TensorObj(rep.recvGblChannelPrefixMatrix),
                         TensorObj(rep.recvGblRankPrefixSum), TensorObj(rep.recvSrcMeta),
                         TensorObj(rep.sendRdmaHead), TensorObj(rep.sendNvlHead)]
  {
    Internode(isTokenInRank, rep.rdmaChannelPrefixMatrix, rep.gblChannelPrefixMatrix,
              rep.recvRdmaChannelPrefixMatrix, rep.recvRdmaRankPrefixSum, rep.recvGblChannelPrefixMatrix,
              rep.recvGblRankPrefixSum, rep.recvSrcMeta, rep.sendRdmaHead, rep.sendNvlHead)
  }

  /** What a cached internode dispatch hands the kernel from the handle. */
  predicate ReplaysInternode(call: InterDispatchCall, h: Handle)
    requires h.Internode? && |h.recvSrcMeta.shape| > 0 && |h.sendNvlHead.shape| > 0
  {
    && call.isTokenInRank == h.isTokenInRank
    && call.cachedNumRecvTokens == Length(h.recvSrcMeta)
    && call.cachedNumRdmaRecvTokens == Length(h.sendNvlHead)
    && call.cachedRdmaChannelPrefixMatrix == Some(h.rdmaChannelPrefixMatrix)
    && call.cachedRecvRdmaRankPrefixSum == Some(h.recvRdmaRankPrefixSum)
    && call.cachedGblChannelPrefixMatrix == Some(h.gblChannelPrefixMatrix)
    && call.cachedRecvGblRankPrefixSum == Some(h.recvGblRankPrefixSum)
    && call.topkIdx.None? && call.topkWeights.None?
    && call.numTokensPerRank.None? && call.numTokensPerRdmaRank.None? && call.numTokensPerExpert.None?
  }

  /** `internode_dispatch`. */
  function InternodeDispatch(rt: Runtime, a: DispatchArgs): (r: Result<DispatchOutcome>)
    ensures r.Ok? ==> r.value.call.InterDispatch?
    ensures a.config.None? ==> r == Err(MissingConfig)
    ensures a.config.Some? && a.handle.Some? && (a.topkIdx.Some? || a.topkWeights.Some?) ==>
      r == Err(CachedWithTopk)
    ensures a.config.Some? && a.handle.Some? ==>
      (r.Ok? <==> a.topkIdx.None? && a.topkWeights.None? && a.handle.value.Internode?
                  && |a.handle.value.recvSrcMeta.shape| > 0 && |a.handle.value.sendNvlHead.shape| > 0)
    ensures a.config.Some? && a.handle.Some? && a.topkIdx.None? && a.topkWeights.None? && !a.handle.value.Internode? ==>
      r == Err(HandleArity(10, Arity(a.handle.value)))
    ensures a.config.Some? && a.handle.Some? && a.topkIdx.None? && a.topkWeights.None? && a.handle.value.Internode?
            && (|a.handle.value.recvSrcMeta.shape| == 0 || |a.handle.value.sendNvlHead.shape| == 0) ==>
      r == Err(NoSuchDimension(0))
    ensures r.Ok? && a.handle.Some? ==>
      ReplaysInternode(r.value.call.inter, a.handle.value) && CachedResult(r.value.result)
    ensures a.config.Some? && a.handle.None? ==>
      (r.Ok? <==> a.numTokensPerRank.Some? && a.isTokenInRank.Some? && a.numTokensPerExpert.Some?)
    ensures a.config.Some? && a.handle.None? && r.Err? ==> r.error == MissingLayout
    ensures r.Ok? && a.handle.None? ==>
      var call := r.value.call.inter;
      var rep := rt.internodeDispatch(call);
      && call.topkIdx == a.topkIdx && call.topkWeights == a.topkWeights
      && call.numTokensPerRank == a.numTokensPerRank && call.numTokensPerRdmaRank == a.numTokensPerRdmaRank
      && call.isTokenInRank == a.isTokenInRank.value && call.numTokensPerExpert == a.numTokensPerExpert
      && call.cachedNumRecvTokens == 0 && call.cachedNumRdmaRecvTokens == 0
      && call.cachedRdmaChannelPrefixMatrix.None? && call.cachedRecvRdmaRankPrefixSum.None?
      && call.cachedGblChannelPrefixMatrix.None? && call.cachedRecvGblRankPrefixSum.None?
      && r.value.result.handle == Some(InternodeHandleOf(rep, a.isTokenInRank.value))
      && r.value.result.recvTopkIdx == rep.recvTopkIdx
      && r.value.result.recvTopkWeights == rep.recvTopkWeights
      && r.value.result.numRecvTokensPerExpertList == Some(rep.numRecvTokensPerExpertList)
    ensures r.Ok? ==>
      var call := r.value.call.inter;
      var rep := rt.internodeDispatch(call);
      && call.x == a.x.data && call.xScales == Scales(a.x)
      && call.config == a.config.value && call.expertAlignment == a.expertAlignment
      && call.previousEvent == WaitTarget(a.opts)
      && call.asyncFinish == a.opts.asyncFinish && call.allocateOnCommStream == a.opts.allocateOnCommStream
      && r.value.result.recvX == Received(rep.recvX, rep.recvXScales, Scales(a.x))
      && r.value.result.event == EventOverlap(rep.event, None)
  {
    if a.config.None? then Err(MissingConfig)
    else
      var config := a.config.value;
      var x, xScales := a.x.data, Scales(a.x);
      var wait := WaitTarget(a.opts);
      if a.handle.Some? then
        if a.topkIdx.Some? || a.topkWeights.Some? then Err(CachedWithTopk)
        else
          match a.handle.value
          case Internode(isTokenInRank, rdmaChannelPrefix, gblChannelPrefix, _, recvRdmaRankPrefixSum,
                         _, recvGblRankPrefixSum, recvSrcMeta, _, sendNvlHead) =>
            (match Size(recvSrcMeta, 0)
             case Err(e) => Err(e)
             case Ok(numRecvTokens) =>
               match Size(sendNvlHead, 0)
               case Err(e) => Err(e)
               case Ok(numRdmaRecvTokens) =>
                 var call := InterDispatchCall(
                   x, xScales, a.topkIdx, a.topkWeights, None, None, isTokenInRank, None,
                   numRecvTokens, numRdmaRecvTokens, Some(rdmaChannelPrefix), Some(recvRdmaRankPrefixSum),
                   Some(gblChannelPrefix), Some(recvGblRankPrefixSum), a.expertAlignment,
                   config, wait, a.opts.asyncFinish, a.opts.allocateOnCommStream);
                 var rep := rt.internodeDispatch(call);
                 Ok(DispatchOutcome(InterDispatch(call), DispatchResult(
                   Received(rep.recvX, rep.recvXScales, xScales), None, None, None, None,
                   EventOverlap(rep.event, None)))))
          case _ => Err(HandleArity(10, Arity(a.handle.value)))
      else if a.numTokensPerRank.None? || a.isTokenInRank.None? || a.numTokensPerExpert.None? then
        Err(MissingLayout)
      else
        var call := InterDispatchCall(
          x, xScales, a.topkIdx, a.topkWeights, a.numTokensPerRank, a.numTokensPerRdmaRank,
          a.isTokenInRank.value, a.numTokensPerExpert, 0, 0, None, None, None, None,
          a.expertAlignment, config, wait, a.opts.asyncFinish, a.opts.allocateOnCommStream);
        var rep := rt.internodeDispatch(call);
        Ok(DispatchOutcome(InterDispatch(call), DispatchResult(
          Received(rep.recvX, rep.recvXScales, xScales), rep.recvTopkIdx, rep.recvTopkWeights,
          Some(rep.numRecvTokensPerExpertList), Some(InternodeHandleOf(rep, a.isTokenInRank.value)),
          EventOverlap(rep.event, None))))
  }

  /** The internode kernel call `internode_combine` makes from a 10-slot handle:
      slots 0, 3, 4, 5, 7, 8 and 9. Slots 1 and 2 are skipped by the unpack and
      slot 6 is unpacked but not passed. */
  function InternodeCombineCallOf(
    x: Tensor, h: Handle, topkWeights: Option<Tensor>, config: Config, opts: StreamOpts): InterCombineCall
    requires h.Internode?
  {
    InterCombineCall(x, topkWeights, h.recvSrcMeta, h.isTokenInRank, h.recvRdmaChannelPrefixMatrix,
                     h.recvRdmaRankPrefixSum, h.recvGblChannelPrefixMatrix, h.sendRdmaHead, h.sendNvlHead,
                     config, WaitTarget(opts), opts.asyncFinish, opts.allocateOnCommStream)
  }

  /** How `internode_combine` reads the kernel's reply: a list or tuple of three or
      more gives its first three items, a pair gives (x, event), anything else is x. */
  function NormaliseInternodeCombine(result: Obj): (r: CombineResult)
    ensures !result.TupleObj? ==> r == CombineResult(result, NoneObj, EventOverlap(NoneObj, None))
    ensures result.TupleObj? && |result.items| >= 3 ==>
      r == CombineResult(result.items[0], result.items[1], EventOverlap(result.items[2], None))
    ensures result.TupleObj? && |result.items| == 2 ==>
      r == CombineResult(result.items[0], NoneObj, EventOverlap(result.items[1], None))
    ensures result.TupleObj? && |result.items| < 2 ==>
      r == CombineResult(result, NoneObj, EventOverlap(NoneObj, None))
  {
    if result.TupleObj? && |result.items| >= 3 then
      CombineResult(result.items[0], result.items[1], EventOverlap(result.items[2], None))
    else if result.TupleObj? && |result.items| == 2 then
      CombineResult(result.items[0], NoneObj, EventOverlap(result.items[1], None))
    else
      CombineResult(result, NoneObj, EventOverlap(NoneObj, None))
  }

  /** `internode_combine`. */
  function InternodeCombine(
    rt: Runtime, x: Tensor, handle: Handle, topkWeights: Option<Tensor>, config: Option<Config>, opts: StreamOpts)
    : (r: Result<CombineOutcome>)
    ensures config.None? ==> r == Err(MissingConfig)
    ensures config.Some? ==> (r.Ok? <==> handle.Internode?)
    ensures config.Some? && !handle.Internode? ==> r == Err(HandleArity(10, Arity(handle)))
    ensures r.Ok? ==>
      && r.value.call == InterCombine(InternodeCombineCallOf(x, handle, topkWeights, config.value, opts))
      && r.value.result == NormaliseInternodeCombine(rt.internodeCombine(r.value.call.inter))
  {
    if config.None? then Err(MissingConfig)
    else if !handle.Internode? then Err(HandleArity(10, Arity(handle)))
    else
      var call := InternodeCombineCallOf(x, handle, topkWeights, config.value, opts);
      Ok(CombineOutcome(InterCombine(call), NormaliseInternodeCombine(rt.internodeCombine(call))))
  }

  // ---------------------------------------------------------------- transport choice

  /** `dispatch`: default the config from the dispatch table, then go internode
      exactly when the runtime reports more than one RDMA rank. */
  function Dispatch(numSms: int, groupSize: int, rt: Runtime, a: DispatchArgs): (r: Result<DispatchOutcome>)
    ensures a.config.None? && groupSize !in SupportedRanks ==> r == Err(UnsupportedRanks(groupSize))
    ensures r.Ok? ==> (r.value.call.InterDispatch? <==> IsInternode(rt))
    ensures r.Ok? ==>
      CallConfig(r.value.call) == if a.config.Some? then a.config.value else DispatchConfig(numSms, groupSize).value
    ensures IsInternode(rt) && a.numWorstTokens != 0 && (a.config.Some? || groupSize in SupportedRanks) ==>
      r == Err(WorstTokensInternode(a.numWorstTokens))
    // With a config in hand, the result is that of the chosen branch, so every
    // cached and fresh behaviour of the branches holds for `dispatch`.
    ensures a.config.Some? || groupSize in SupportedRanks ==>
      var cfg := if a.config.Some? then a.config.value else DispatchConfig(numSms, groupSize).value;
      && (!IsInternode(rt) ==> r == IntranodeDispatch(rt, a, cfg))
      && (IsInternode(rt) && a.numWorstTokens == 0 ==> r == InternodeDispatch(rt, a.(config := Some(cfg))))
    ensures r.Err? ==> r.error != MissingConfig
  {
    var config := if a.config.None? then DispatchConfig(numSms, groupSize) else Ok(a.config.value);
    if config.Err? then Err(config.error)
    else if IsInternode(rt) then
      if a.numWorstTokens != 0 then Err(WorstTokensInternode(a.numWorstTokens))
      else InternodeDispatch(rt, a.(config := Some(config.value)))
    else
      IntranodeDispatch(rt, a, config.value)
  }

  /** `combine`: default the config from the combine table, then go internode
      exactly when the runtime reports more than one RDMA rank. */
  function Combine(
    numSms: int, groupSize: int, rt: Runtime, x: Tensor, handle: Handle,
    topkWeights: Option<Tensor>, config: Option<Config>, opts: StreamOpts): (r: Result<CombineOutcome>)
    ensures config.None? && groupSize !in SupportedRanks ==> r == Err(UnsupportedRanks(groupSize))
    ensures config.Some? || groupSize in SupportedRanks ==>
      (r.Ok? <==> if IsInternode(rt) then handle.Internode? else handle.Intranode?)
    ensures config.Some? || groupSize in SupportedRanks ==>
      && (IsInternode(rt) && !handle.Internode? ==> r == Err(HandleArity(10, Arity(handle))))
      && (!IsInternode(rt) && !handle.Intranode? ==> r == Err(HandleArity(6, Arity(handle))))
    ensures r.Ok? ==> (r.value.call.InterCombine? <==> IsInternode(rt))
    ensures r.Ok? ==>
      CombineCallConfig(r.value.call) == if config.Some? then config.value else CombineConfig(numSms, groupSize).value
    ensures r.Ok? && !IsInternode(rt) ==>
      && r.value.call == IntraCombine(IntranodeCombineCallOf(x, handle, topkWeights, r.value.call.intra.config, opts))
      && r.value.result == NormaliseIntranodeCombine(rt.intranodeCombine(r.value.call.intra), topkWeights.Some?)
    ensures r.Ok? && IsInternode(rt) ==>
      && r.value.call == InterCombine(InternodeCombineCallOf(x, handle, topkWeights, r.value.call.inter.config, opts))
      && r.value.result == NormaliseInternodeCombine(rt.internodeCombine(r.value.call.inter))
    ensures r.Err? ==> r.error != MissingConfig
  {
    var cfg := if config.None? then CombineConfig(numSms, groupSize) else Ok(config.value);
    if cfg.Err? then Err(cfg.error)
    else if IsInternode(rt) then
      InternodeCombine(rt, x, handle, topkWeights, Some(cfg.value), opts)
    else if !handle.Intranode? then Err(HandleArity(6, Arity(handle)))
    else
      var call := IntranodeCombineCallOf(x, handle, topkWeights, cfg.value, opts);
      Ok(CombineOutcome(IntraCombine(call), NormaliseIntranodeCombine(rt.intranodeCombine(call), topkWeights.Some?)))
  }
}
