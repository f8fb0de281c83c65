/** Values shared by every part of the model: bytes, opaque device tensors,
    the Python objects the runtime hands back, errors and results. */
module Values {

  /** An unsigned 8-bit value, the element type of the bootstrap tensors. */
  newtype byte = x: int | 0 <= x < 256

  datatype Option<+T> = None | Some(value: T)

  /** Why a call of the buffer raises instead of returning. */
  datatype Error =
    | UnsupportedRanks(numRanks: int)           // the assert of a config selector
    | OddSmCount(numSms: int)                   // the assert of set_num_sms
    | WorstTokensInternode(numWorstTokens: int) // internode dispatch with num_worst_tokens != 0
    | CachedWithTopk                            // a handle together with topk_idx or topk_weights
    | MissingLayout                             // a fresh dispatch without its layout tensors
    | MissingConfig                             // internode_* called with config None
    | HandleArity(expected: nat, got: nat)      // unpacking a handle tuple of the wrong length
    | NoSuchDimension(dim: nat)                 // tensor.size(dim) past the tensor's rank
    | InfoSizeMismatch(size: nat)               // the local info row is not 65 bytes
    | GatherFailed                              // the device-info all-gather failed twice
    | NoQueuePairs                              // num_qps_per_rank <= 0 where queue pairs are needed
    | UniqueIdTooLong(length: nat)              // a unique id longer than the 128-byte tensor
    | UniqueIdGatherFailed                      // the unique-id all-gather raised
    | RuntimeUnavailable                        // runtime.is_available() false after sync
    | ExplicitlyDestroyUnset                    // destroy reads an attribute never assigned

  datatype Result<+T> = Ok(value: T) | Err(error: Error)

  datatype Outcome = Pass | Fail(error: Error)

  /** An opaque device tensor: an identity given by whoever made it, and its shape. */
  datatype Tensor = Tensor(id: nat, shape: seq<nat>)

  /** tensor.size(dim): the extent of one dimension, or an error past the last one. */
  function Size(t: Tensor, dim: nat): (r: Result<nat>)
    ensures r.Ok? <==> dim < |t.shape|
    ensures r.Ok? ==> r.value == t.shape[dim]
    ensures r.Err? ==> r.error == NoSuchDimension(dim)
  {
    if dim < |t.shape| then Ok(t.shape[dim]) else Err(NoSuchDimension(dim))
  }

  /** A Python object as the runtime may return it from a combine kernel. */
  datatype Obj =
    | NoneObj
    | TensorObj(tensor: Tensor)
    | IntObj(value: int)
    | EventObj(event: nat)
    | HookObj(hook: nat)
    | TupleObj(items: seq<Obj>)

  /** An `EventOverlap`: the wrapped event and the tensors it keeps alive, if any. */
  datatype EventOverlap = EventOverlap(event: Obj, extraTensors: Option<seq<Option<Tensor>>>)

  /** The stream arguments every kernel call carries through untouched. */
  datatype StreamOpts = StreamOpts(previousEvent: Option<EventOverlap>, asyncFinish: bool, allocateOnCommStream: bool)

  /** `getattr(previous_event, "event", None)`: what the kernel is asked to wait for. */
  function WaitTarget(opts: StreamOpts): (r: Obj)
    ensures opts.previousEvent.None? ==> r == NoneObj
    ensures opts.previousEvent.Some? ==> r == opts.previousEvent.value.event
  {
    match opts.previousEvent
    case None => NoneObj
    case Some(e) => e.event
  }

  /** The tokens argument of dispatch: a tensor, or a (tensor, scales) tuple whose
      second element may itself be None. */
  datatype Tokens = Single(data: Tensor) | Pair(data: Tensor, scales: Option<Tensor>)

  /** `x, x_scales = x if isinstance(x, tuple) else (x, None)`. */
  function Scales(x: Tokens): (r: Option<Tensor>)
    ensures x.Single? ==> r.None?
    ensures x.Pair? ==> r == x.scales
  {
    match x
    case Single(_) => None
    case Pair(_, s) => s
  }

  /** `(recv_x, recv_x_scales) if x_scales is not None else recv_x`. */
  function Received(recvX: Tensor, recvXScales: Option<Tensor>, xScales: Option<Tensor>): (r: Tokens)
    ensures r.data == recvX
    ensures r.Pair? <==> xScales.Some?
    ensures r.Pair? ==> r.scales == recvXScales
  {
    if xScales.Some? then Pair(recvX, recvXScales) else Single(recvX)
  }
}
