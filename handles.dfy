/** Communication handles. The Python code passes each as a positional tuple of a
    length fixed by the transport that made it; here each shape is a constructor
    with the slots named in their tuple order. */
module Handles {
  import opened Values

  datatype Handle =
      /** The 6-slot tuple built by intranode dispatch. */
    | Intranode(
        rankPrefixMatrix: Tensor,          // slot 0
        channelPrefixMatrix: Tensor,       // slot 1, the sending side
        recvChannelPrefixMatrix: Tensor,   // slot 2
        recvSrcIdx: Tensor,                // slot 3
        isTokenInRank: Tensor,             // slot 4
        sendHead: Tensor)                  // slot 5
      /** The 10-slot tuple built by internode dispatch. */
    | Internode(
        isTokenInRank: Tensor,                // slot 0
        rdmaChannelPrefixMatrix: Tensor,      // slot 1
        gblChannelPrefixMatrix: Tensor,       // slot 2
        recvRdmaChannelPrefixMatrix: Tensor,  // slot 3
        recvRdmaRankPrefixSum: Tensor,        // slot 4
        recvGblChannelPrefixMatrix: Tensor,   // slot 5
        recvGblRankPrefixSum: Tensor,         // slot 6
        recvSrcMeta: Tensor,                  // slot 7
        sendRdmaHead: Tensor,                 // slot 8
        sendNvlHead: Tensor)                  // slot 9
      /** The 5-slot tuple built by low-latency dispatch. */
    | LowLatency(
        srcInfo: Tensor,                   // slot 0
        layoutRange: Tensor,               // slot 1
        numMaxDispatchTokensPerRank: int,  // slot 2
        hidden: int,                       // slot 3
        numExperts: int)                   // slot 4

  /** The handle as the Python tuple it is. */
  function Slots(h: Handle): (s: seq<Obj>)
    ensures h.Intranode? ==> |s| == 6
    ensures h.Internode? ==> |s| == 10
    ensures h.LowLatency? ==> |s| == 5
  {
    match h
    case Intranode(a, b, c, d, e, f) =>
      [TensorObj(a), TensorObj(b), TensorObj(c), TensorObj(d), TensorObj(e), TensorObj(f)]
    case Internode(a, b, c, d, e, f, g, i, j, k) =>
      [TensorObj(a), TensorObj(b), TensorObj(c), TensorObj(d), TensorObj(e),
       TensorObj(f), TensorObj(g), TensorObj(i), TensorObj(j), TensorObj(k)]
    case LowLatency(a, b, c, d, e) =>
      [TensorObj(a), TensorObj(b), IntObj(c), IntObj(d), IntObj(e)]
  }

  /** The number of slots of a handle, which is what a positional unpack checks. */
  function Arity(h: Handle): nat {
    |Slots(h)|
  }

  /** Unpacking by length tells the three shapes apart: checking the constructor
      is the same test as the tuple unpack of the source. */
  lemma ArityDeterminesVariant(h: Handle)
    ensures Arity(h) == 6 <==> h.Intranode?
    ensures Arity(h) == 10 <==> h.Internode?
    ensures Arity(h) == 5 <==> h.LowLatency?
  {
  }

  /** Packing is injective: the tuple determines the handle. */
  lemma SlotsInjective(h1: Handle, h2: Handle)
    requires Slots(h1) == Slots(h2)
    ensures h1 == h2
  {
  }
}
