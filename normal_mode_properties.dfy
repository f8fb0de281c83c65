/** What the handle a fresh dispatch returns means for the calls that consume it:
    the matching combine and a cached replay of the dispatch. Also which handle
    slots each consumer depends on, and how the two combine normalisations relate. */
module NormalModeProperties {
  import opened Values
  import opened Kernels
  import opened Handles
  import opened Configs
  import opened NormalMode

  /** The dispatch arguments of a cached replay of `a` with handle `h`. */
  function Replay(a: DispatchArgs, h: Handle): DispatchArgs {
    a.(handle := Some(h), topkIdx := None, topkWeights := None)
  }

  /** Intranode round trip: combining with the handle of a fresh intranode dispatch
      hands the combine kernel that dispatch's receive-side source index, rank
      prefix matrix, receive channel prefix matrix and send head. */
  lemma IntranodeDispatchThenCombine(
    numSms: int, groupSize: int, rt: Runtime, a: DispatchArgs,
    y: Tensor, w: Option<Tensor>, config: Option<Config>, opts: StreamOpts)
    requires !IsInternode(rt) && a.handle.None?
    requires Dispatch(numSms, groupSize, rt, a).Ok?
    requires config.Some? || groupSize in SupportedRanks
    ensures
      var d := Dispatch(numSms, groupSize, rt, a).value;
      var rep := rt.intranodeDispatch(d.call.intra);
      var c := Combine(numSms, groupSize, rt, y, d.result.handle.value, w, config, opts);
      && d.result.handle.Some?
      && c.Ok?
      && c.value.call.IntraCombine?
      && c.value.call.intra.srcIdx == rep.recvSrcIdx
      && c.value.call.intra.rankPrefixMatrix == rep.rankPrefixMatrix
      && c.value.call.intra.channelPrefixMatrix == rep.recvChannelPrefixMatrix
      && c.value.call.intra.sendHead == rep.sendHead
  {
  }

  /** Intranode replay: dispatching again with that handle (and no top-k inputs)
      succeeds exactly when the receive index has a first dimension, and hands the
      kernel the original `is_token_in_rank`, the send-side prefix matrices and the
      received-token count, returning None in every slot but tokens and event. */
  lemma IntranodeDispatchThenReplay(
    numSms: int, groupSize: int, rt: Runtime, a: DispatchArgs, b: DispatchArgs)
    requires !IsInternode(rt) && a.handle.None?
    requires Dispatch(numSms, groupSize, rt, a).Ok?
    requires b.config.Some? || groupSize in SupportedRanks
    ensures
      var d := Dispatch(numSms, groupSize, rt, a).value;
      var rep := rt.intranodeDispatch(d.call.intra);
      var d2 := Dispatch(numSms, groupSize, rt, Replay(b, d.result.handle.value));
      && (d2.Ok? <==> |rep.recvSrcIdx.shape| > 0)
      && (d2.Ok? ==>
            && d2.value.call.intra.isTokenInRank == a.isTokenInRank.value
            && d2.value.call.intra.cachedRankPrefixMatrix == Some(rep.rankPrefixMatrix)
            && d2.value.call.intra.cachedChannelPrefixMatrix == Some(rep.channelPrefixMatrix)
            && d2.value.call.intra.cachedNumRecvTokens == rep.recvSrcIdx.shape[0]
            && CachedResult(d2.value.result))
  {
  }

  /** Internode round trip: combining with the handle of a fresh internode dispatch
      hands the combine kernel the caller's `is_token_in_rank` and the dispatch's
      receive-side RDMA and NVLink prefix data, source metadata and send heads. */
  lemma InternodeDispatchThenCombine(
    numSms: int, groupSize: int, rt: Runtime, a: DispatchArgs,
    y: Tensor, w: Option<Tensor>, config: Option<Config>, opts: StreamOpts)
    requires IsInternode(rt) && a.handle.None?
    requires Dispatch(numSms, groupSize, rt, a).Ok?
    requires config.Some? || groupSize in SupportedRanks
    ensures
      var d := Dispatch(numSms, groupSize, rt, a).value;
      var rep := rt.internodeDispatch(d.call.inter);
      var c := Combine(numSms, groupSize, rt, y, d.result.handle.value, w, config, opts);
      && d.result.handle.Some?
      && c.Ok?
      && c.value.call.InterCombine?
      && c.value.call.inter.isCombinedTokenInRank == a.isTokenInRank.value
      && c.value.call.inter.srcMeta == rep.recvSrcMeta
      && c.value.call.inter.rdmaChannelPrefixMatrix == rep.recvRdmaChannelPrefixMatrix
      && c.value.call.inter.rdmaRankPrefixSum == rep.recvRdmaRankPrefixSum
      && c.value.call.inter.gblChannelPrefixMatrix == rep.recvGblChannelPrefixMatrix
      && c.value.call.inter.sendRdmaHead == rep.sendRdmaHead
      && c.value.call.inter.sendNvlHead == rep.sendNvlHead
  {
  }

  /** Internode replay: dispatching again with that handle hands the kernel the
      original `is_token_in_rank`, the send-side channel prefix matrices, the
      receive-side rank prefix sums and both received-token counts. */
  lemma InternodeDispatchThenReplay(
    numSms: int, groupSize: int, rt: Runtime, a: DispatchArgs, b: DispatchArgs)
    requires IsInternode(rt) && a.handle.None? && b.numWorstTokens == 0
    requires Dispatch(numSms, groupSize, rt, a).Ok?
    requires b.config.Some? || groupSize in SupportedRanks
    ensures
      var d := Dispatch(numSms, groupSize, rt, a).value;
      var rep := rt.internodeDispatch(d.call.inter);
      var d2 := Dispatch(numSms, groupSize, rt, Replay(b, d.result.handle.value));
      && (d2.Ok? <==> |rep.recvSrcMeta.shape| > 0 && |rep.sendNvlHead.shape| > 0)
      && (d2.Ok? ==>
            && d2.value.call.inter.isTokenInRank == a.isTokenInRank.value
            && d2.value.call.inter.cachedRdmaChannelPrefixMatrix == Some(rep.rdmaChannelPrefixMatrix)
            && d2.value.call.inter.cachedRecvRdmaRankPrefixSum == Some(rep.recvRdmaRankPrefixSum)
            && d2.value.call.inter.cachedGblChannelPrefixMatrix == Some(rep.gblChannelPrefixMatrix)
            && d2.value.call.inter.cachedRecvGblRankPrefixSum == Some(rep.recvGblRankPrefixSum)
            && d2.value.call.inter.cachedNumRecvTokens == rep.recvSrcMeta.shape[0]
            && d2.value.call.inter.cachedNumRdmaRecvTokens == rep.sendNvlHead.shape[0]
            && CachedResult(d2.value.result))
  {
  }

  /** Intranode combine depends only on slots 0, 2, 3 and 5 of the handle. */
  lemma IntranodeCombineReadsSlots0235(
    numSms: int, groupSize: int, rt: Runtime, x: Tensor, h1: Handle, h2: Handle,
    w: Option<Tensor>, config: Option<Config>, opts: StreamOpts)
    requires h1.Intranode? && h2.Intranode?
    requires h1.rankPrefixMatrix == h2.rankPrefixMatrix && h1.recvChannelPrefixMatrix == h2.recvChannelPrefixMatrix
    requires h1.recvSrcIdx == h2.recvSrcIdx && h1.sendHead == h2.sendHead
    ensures Combine(numSms, groupSize, rt, x, h1, w, config, opts) == Combine(numSms, groupSize, rt, x, h2, w, config, opts)
  {
  }

  /** Internode combine depends only on slots 0, 3, 4, 5, 7, 8 and 9 of the handle. */
  lemma InternodeCombineReadsSlots0345789(
    rt: Runtime, x: Tensor, h1: Handle, h2: Handle, w: Option<Tensor>, config: Option<Config>, opts: StreamOpts)
    requires h1.Internode? && h2.Internode?
    requires h1.isTokenInRank == h2.isTokenInRank
    requires h1.recvRdmaChannelPrefixMatrix == h2.recvRdmaChannelPrefixMatrix
    requires h1.recvRdmaRankPrefixSum == h2.recvRdmaRankPrefixSum
    requires h1.recvGblChannelPrefixMatrix == h2.recvGblChannelPrefixMatrix
    requires h1.recvSrcMeta == h2.recvSrcMeta
    requires h1.sendRdmaHead == h2.sendRdmaHead && h1.sendNvlHead == h2.sendNvlHead
    ensures InternodeCombine(rt, x, h1, w, config, opts) == InternodeCombine(rt, x, h2, w, config, opts)
  {
  }

  /** A cached dispatch ignores the caller's layout tensors: the handle's
      `is_token_in_rank` replaces the caller's, and the counts are not read. */
  lemma CachedDispatchIgnoresLayoutArgs(
    numSms: int, groupSize: int, rt: Runtime, a: DispatchArgs, b: DispatchArgs)
    requires a.handle.Some? && b == a.(numTokensPerRank := b.numTokensPerRank,
                                       numTokensPerRdmaRank := b.numTokensPerRdmaRank,
                                       isTokenInRank := b.isTokenInRank,
                                       numTokensPerExpert := b.numTokensPerExpert)
    ensures Dispatch(numSms, groupSize, rt, a) == Dispatch(numSms, groupSize, rt, b)
  {
  }

  /** With weights, the two normalisations agree except on tuples longer than three;
      without weights they agree except on tuples of three or more, where the
      intranode path keeps weights None and the internode path takes item 1. */
  lemma NormalisationsAgree(result: Obj, withWeights: bool)
    ensures withWeights && !(result.TupleObj? && |result.items| > 3) ==>
      NormaliseIntranodeCombine(result, true) == NormaliseInternodeCombine(result)
    ensures !withWeights && !(result.TupleObj? && |result.items| >= 3) ==>
      NormaliseIntranodeCombine(result, false) == NormaliseInternodeCombine(result)
    ensures result.TupleObj? && |result.items| >= 3 && result.items[1] != NoneObj ==>
      NormaliseIntranodeCombine(result, false) != NormaliseInternodeCombine(result)
  {
  }
}
