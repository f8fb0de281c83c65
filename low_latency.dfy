/** The low-latency paths: `low_latency_dispatch`, `low_latency_combine` and
    `get_next_low_latency_combine_buffer`, linked by the 5-slot handle. */
module LowLatencyMode {
  import opened Values
  import opened Kernels
  import opened Handles

  /** The 5-tuple `low_latency_dispatch` returns. */
  datatype LowLatencyDispatchResult = LowLatencyDispatchResult(
    recvX: Tokens,
    recvCount: Tensor,
    handle: Handle,
    event: EventOverlap,
    hook: Obj)

  datatype LowLatencyDispatchOutcome = LowLatencyDispatchOutcome(
    call: LowLatencyDispatchCall, result: LowLatencyDispatchResult)

  /** The 3-tuple `low_latency_combine` returns. */
  datatype LowLatencyCombineResult = LowLatencyCombineResult(combinedX: Tensor, event: EventOverlap, hook: Obj)

  datatype LowLatencyCombineOutcome = LowLatencyCombineOutcome(
    call: LowLatencyCombineCall, result: LowLatencyCombineResult)

  /** The tensors an asynchronous call keeps alive on its event, or None when the
      call is synchronous. */
  function Recorded(asyncFinish: bool, tensors: seq<Option<Tensor>>): (r: Option<seq<Option<Tensor>>>)
    ensures r.Some? <==> asyncFinish
    ensures r.Some? ==> r.value == tensors
  {
    if asyncFinish then Some(tensors) else None
  }

  /** `low_latency_dispatch`: one kernel call, then the handle (source info and
      layout range from the reply, the caller's per-rank token bound, the hidden
      size `x.size(1)` and the expert count). */
  function LowLatencyDispatch(
    rt: Runtime, x: Tensor, topkIdx: Tensor, numMaxDispatchTokensPerRank: int, numExperts: int,
    cumulativeLocalExpertRecvStats: Option<Tensor>, useFp8: bool, roundScale: bool, useUe8m0: bool,
    asyncFinish: bool, returnRecvHook: bool): (r: Result<LowLatencyDispatchOutcome>)
    ensures r.Ok? <==> |x.shape| > 1
    ensures r.Err? ==> r.error == NoSuchDimension(1)
    ensures r.Ok? ==>
      var call := r.value.call;
      var rep := rt.lowLatencyDispatch(call);
      var res := r.value.result;
      && call == LowLatencyDispatchCall(x, topkIdx, cumulativeLocalExpertRecvStats, numMaxDispatchTokensPerRank,
                                        numExperts, useFp8, roundScale, useUe8m0, asyncFinish, returnRecvHook)
      && res.handle == LowLatency(rep.packedRecvSrcInfo, rep.packedRecvLayoutRange,
                                  numMaxDispatchTokensPerRank, x.shape[1], numExperts)
      && res.recvX.data == rep.packedRecvX
      && (res.recvX.Pair? <==> useFp8)
      && (res.recvX.Pair? ==> res.recvX.scales == rep.packedRecvXScales)
      && res.recvCount == rep.packedRecvCount
      && res.hook == rep.hook
      && res.event.event == rep.event
      && (res.event.extraTensors.Some? <==> asyncFinish)
      && (asyncFinish ==>
            res.event.extraTensors.value ==
            [Some(x), Some(topkIdx), Some(rep.packedRecvX), rep.packedRecvXScales, Some(rep.packedRecvCount),
             Some(rep.packedRecvSrcInfo), Some(rep.packedRecvLayoutRange), cumulativeLocalExpertRecvStats])
  {
    var call := LowLatencyDispatchCall(x, topkIdx, cumulativeLocalExpertRecvStats, numMaxDispatchTokensPerRank,
                                       numExperts, useFp8, roundScale, useUe8m0, asyncFinish, returnRecvHook);
    var rep := rt.lowLatencyDispatch(call);
    match Size(x, 1)
    case Err(e) => Err(e)
    case Ok(hidden) =>
      var handle := LowLatency(rep.packedRecvSrcInfo, rep.packedRecvLayoutRange,
                               numMaxDispatchTokensPerRank, hidden, numExperts);
      var toRecord := [Some(x), Some(topkIdx), Some(rep.packedRecvX), rep.packedRecvXScales,
                       Some(rep.packedRecvCount), Some(rep.packedRecvSrcInfo), Some(rep.packedRecvLayoutRange),
                       cumulativeLocalExpertRecvStats];
      Ok(LowLatencyDispatchOutcome(call, LowLatencyDispatchResult(
        if useFp8 then Pair(rep.packedRecvX, rep.packedRecvXScales) else Single(rep.packedRecvX),
        rep.packedRecvCount,
        handle,
        EventOverlap(rep.event, Recorded(asyncFinish, toRecord)),
        rep.hook)))
  }

  /** `low_latency_combine`: unpacks the 5-slot handle and passes slots 0, 1, 2
      and 4 to the kernel; the hidden size in slot 3 is not passed. */
  function LowLatencyCombine(
    rt: Runtime, x: Tensor, topkIdx: Tensor, topkWeights: Tensor, handle: Handle,
    zeroCopy: bool, asyncFinish: bool, returnRecvHook: bool, out: Option<Tensor>): (r: Result<LowLatencyCombineOutcome>)
    ensures r.Ok? <==> handle.LowLatency?
    ensures r.Err? ==> r.error == HandleArity(5, Arity(handle))
    ensures r.Ok? ==>
      var call := r.value.call;
      var rep := rt.lowLatencyCombine(call);
      && call == LowLatencyCombineCall(x, topkIdx, topkWeights, handle.srcInfo, handle.layoutRange,
                                       handle.numMaxDispatchTokensPerRank, handle.numExperts,
                                       zeroCopy, asyncFinish, returnRecvHook, out)
      && r.value.result.combinedX == rep.combinedX
      && r.value.result.hook == rep.hook
      && r.value.result.event.event == rep.event
      && (r.value.result.event.extraTensors.Some? <==> asyncFinish)
      && (asyncFinish ==>
            r.value.result.event.extraTensors.value ==
            [Some(x), Some(topkIdx), Some(topkWeights), Some(handle.srcInfo), Some(handle.layoutRange),
             Some(rep.combinedX)])
  {
    match handle
    case LowLatency(srcInfo, layoutRange, numMaxDispatchTokensPerRank, _, numExperts) =>
      var call := LowLatencyCombineCall(x, topkIdx, topkWeights, srcInfo, layoutRange,
                                        numMaxDispatchTokensPerRank, numExperts, zeroCopy, asyncFinish,
                                        returnRecvHook, out);
      var rep := rt.lowLatencyCombine(call);
      var toRecord := [Some(x), Some(topkIdx), Some(topkWeights), Some(srcInfo), Some(layoutRange),
                       Some(rep.combinedX)];
      Ok(LowLatencyCombineOutcome(call, LowLatencyCombineResult(
        rep.combinedX, EventOverlap(rep.event, Recorded(asyncFinish, toRecord)), rep.hook)))
    case _ => Err(HandleArity(5, Arity(handle)))
  }

  /** `get_next_low_latency_combine_buffer`: unpacks the same five slots and passes
      only slots 2, 3 and 4 to the runtime. */
  function NextLowLatencyCombineBuffer(rt: Runtime, handle: Handle): (r: Result<(CombineBufferCall, Tensor)>)
    ensures r.Ok? <==> handle.LowLatency?
    ensures r.Err? ==> r.error == HandleArity(5, Arity(handle))
    ensures r.Ok? ==>
      && r.value.0 == CombineBufferCall(handle.numMaxDispatchTokensPerRank, handle.hidden, handle.numExperts)
      && r.value.1 == rt.nextLowLatencyCombineBuffer(r.value.0)
  {
    match handle
    case LowLatency(_, _, numMaxDispatchTokensPerRank, hidden, numExperts) =>
      var call := CombineBufferCall(numMaxDispatchTokensPerRank, hidden, numExperts);
      Ok((call, rt.nextLowLatencyCombineBuffer(call)))
    case _ => Err(HandleArity(5, Arity(handle)))
  }

  /** Round trip through the handle: the combine after a low-latency dispatch gets
      that dispatch's source info, layout range, token bound and expert count, and
      the next combine buffer is sized by the token bound, the hidden size of the
      dispatched tokens and the expert count. */
  lemma DispatchThenCombine(
    rt: Runtime, x: Tensor, topkIdx: Tensor, numMaxDispatchTokensPerRank: int, numExperts: int,
    stats: Option<Tensor>, useFp8: bool, roundScale: bool, useUe8m0: bool, asyncFinish: bool, returnRecvHook: bool,
    y: Tensor, combineTopkIdx: Tensor, topkWeights: Tensor, zeroCopy: bool, asyncFinish2: bool, hook2: bool,
    out: Option<Tensor>)
    requires |x.shape| > 1
    ensures
      var d := LowLatencyDispatch(rt, x, topkIdx, numMaxDispatchTokensPerRank, numExperts, stats,
                                  useFp8, roundScale, useUe8m0, asyncFinish, returnRecvHook);
      var rep := rt.lowLatencyDispatch(d.value.call);
      var c := LowLatencyCombine(rt, y, combineTopkIdx, topkWeights, d.value.result.handle,
                                 zeroCopy, asyncFinish2, hook2, out);
      var b := NextLowLatencyCombineBuffer(rt, d.value.result.handle);
      && d.Ok? && c.Ok? && b.Ok?
      && c.value.call.srcInfo == rep.packedRecvSrcInfo
      && c.value.call.layoutRange == rep.packedRecvLayoutRange
      && c.value.call.numMaxDispatchTokensPerRank == numMaxDispatchTokensPerRank
      && c.value.call.numExperts == numExperts
      && b.value.0 == CombineBufferCall(numMaxDispatchTokensPerRank, x.shape[1], numExperts)
  {
  }

  /** The combine does not read the hidden size; the buffer lookup does not read
      the source info or the layout range. */
  lemma ConsumersReadDisjointSlots(
    rt: Runtime, h1: Handle, h2: Handle, x: Tensor, topkIdx: Tensor, topkWeights: Tensor,
    zeroCopy: bool, asyncFinish: bool, returnRecvHook: bool, out: Option<Tensor>)
    requires h1.LowLatency? && h2.LowLatency?
    ensures h1 == h2.(hidden := h1.hidden) ==>
      LowLatencyCombine(rt, x, topkIdx, topkWeights, h1, zeroCopy, asyncFinish, returnRecvHook, out)
      == LowLatencyCombine(rt, x, topkIdx, topkWeights, h2, zeroCopy, asyncFinish, returnRecvHook, out)
    ensures h1 == h2.(srcInfo := h1.srcInfo, layoutRange := h1.layoutRange) ==>
      NextLowLatencyCombineBuffer(rt, h1) == NextLowLatencyCombineBuffer(rt, h2)
  {
  }
}
