# DeepEP `Buffer` orchestration in Dafny

DeepEP is an expert-parallel communication library. Its Python class `Buffer`
(`deep_ep/buffer.py`) sits in front of a C++/CUDA runtime (`deep_ep_cpp.Buffer`)
and decides everything the runtime does not:

- which configuration the high-throughput kernels get;
- whether a `dispatch` or `combine` goes over the intranode (NVLink) or the
  internode (RDMA) transport;
- what the asserts of each cached or fresh path demand;
- how the communication handle tuples are packed by a dispatch and unpacked by
  the combine or replay that consumes them;
- how the combine kernels' replies are normalised;
- how `__init__` lays out and exchanges its bootstrap data.

This project models that orchestration and proves what it promises.

The runtime is the datatype `Kernels.Runtime`.
- It holds the values the runtime reports: the RDMA rank count, the local IPC
  handle, the local NVSHMEM unique id, and whether it is available after `sync`.
- It holds one total function per kernel, from the positional argument record the
  Python passes to the reply tuple it unpacks.
- Nothing is assumed about what a kernel computes. Every property below is about
  what the Python side passes and returns.

Calls with inputs and results:
- Each dispatch and combine function returns the kernel call it makes together
  with the tuple it returns, or the `Error` its assert or tuple unpack raises.
- Handles are `Handles.Handle`, one constructor per tuple shape:
  `Intranode` (6 slots), `Internode` (10 slots) and `LowLatency` (5 slots).
- `Handles.Slots` gives back the Python tuple itself.
- The arities differ, so matching the constructor is the same test as the
  positional unpack.

Modules:
- `Values`: bytes, tensors, objects, errors.
- `Kernels`: runtime and call records.
- `Configs`: config tables.
- `Handles`: the handle tuples.
- `NormalMode` and `NormalModeProperties`: `dispatch`, `combine`, `internode_*`.
- `LowLatencyMode`: `low_latency_*` and `get_next_low_latency_combine_buffer`.
- `Bootstrap`: byte layout, rank mapping and retry of `__init__`.
- `DeepEp`: the class attribute `Buffer.num_sms`, plus construction and
  `destroy` of a `Buffer`.

The class attribute `Buffer.num_sms` is the class `DeepEp.SmCount`.
- The dispatch, combine and config functions take the value they read
  (`numSms`) as a parameter.
- They take the buffer's `group_size` (`groupSize`) and runtime (`rt`) as
  parameters too.

The collectives are parameters of type `Bootstrap.Gathered`: what
`all_gather_into_tensor` wrote, or that it raised.

Two facts of the code shape the model:
- the intranode combine unpacks slot 4 (`is_recv_token_in_rank`) of the handle
  but never passes it to the kernel;
- `destroy` can never succeed.

## Model

| member | source | states |
|---|---|---|
| Configs.DispatchConfig | deep_ep/buffer.py:506-531 | returns a config exactly for 2, 4, 8, 16, 24, 32, 64, 128, 144 or 160 ranks, otherwise the failed assert with the rank count; every entry carries the current SM count first and 128 last |
| Configs.CombineConfig | deep_ep/buffer.py:534-559 | the same support set and error for the combine table; SM count first, 128 last |
| Configs.SelectorsAgreeOnSupport | deep_ep/buffer.py:518-531 | the two tables accept exactly the same rank counts |
| Configs.EightRanksAndRefusals | deep_ep/buffer.py:521-549 | dispatch(8) = (num_sms, 6, 256, 6, 128), combine(8) = (num_sms, 4, 256, 6, 128); 17 and 3 ranks are refused |
| Configs.SmCountOnlyChangesFirstField | deep_ep/buffer.py:519-556 | changing the SM count changes only the first field of every entry |
| DeepEp.SmCount.constructor | deep_ep/buffer.py:34 | the class-wide SM count starts at 20 |
| DeepEp.SmCount.SetNumSms | deep_ep/buffer.py:438-447 | an odd count fails and leaves the stored count unchanged; an even count becomes the stored count |
| DeepEp.SmCount.LookupDispatchConfig | deep_ep/buffer.py:506-531 | `get_dispatch_config` reads the stored count: it succeeds exactly for a supported rank count, and the entry carries the count last set by `set_num_sms` |
| DeepEp.SmCount.LookupCombineConfig | deep_ep/buffer.py:534-559 | the same for `get_combine_config` |
| Values.Size | deep_ep/buffer.py:712 | `t.size(d)` is the extent of dimension d and raises past the last dimension |
| Values.WaitTarget | deep_ep/buffer.py:728 | a definition by cases: the event a kernel waits for is the previous event's wrapped event, or None |
| Values.Scales | deep_ep/buffer.py:701 | a definition by cases: a bare tensor has no scales; a pair's second element is its scales |
| Values.Received | deep_ep/buffer.py:733-734 | a definition by cases: the received tokens are a (tensor, scales) pair exactly when scales were sent |
| Handles.Slots | deep_ep/buffer.py:777-784 | every handle is a tuple of length 6, 10 or 5 by its transport |
| Handles.ArityDeterminesVariant | deep_ep/buffer.py:704-711 | the tuple length alone tells the three handle shapes apart, so a positional unpack accepts exactly its own shape |
| Handles.SlotsInjective | deep_ep/buffer.py:1006-1017 | equal tuples are equal handles |
| NormalMode.IntranodeHandleOf | deep_ep/buffer.py:777-784 | the fresh intranode handle is (rank_prefix, channel_prefix, recv_channel_prefix, recv_src_idx, is_token_in_rank, send_head), with slot 4 the caller's own `is_token_in_rank` |
| NormalMode.IntranodeDispatch | deep_ep/buffer.py:700-792 | cached path: a handle with topk inputs fails, a handle of the wrong shape fails, a `recv_src_idx` without a first dimension raises, otherwise the kernel gets the handle's `is_token_in_rank`, its prefix matrices and `len(recv_src_idx)`, and slots 1-4 of the result are None; fresh path: succeeds exactly when the three layout tensors are given, and returns the reply's topk data, expert counts and the new handle; both paths pass tokens, scales, config and stream options through |
| NormalMode.NormaliseIntranodeCombine | deep_ep/buffer.py:865-882 | with weights a 3-tuple is (x, w, event) and a 2-tuple (x, event); without weights w is always None and only a 2-tuple is split; any other reply is x as a whole |
| NormalMode.InternodeHandleOf | deep_ep/buffer.py:1006-1017 | the fresh internode handle is the caller's `is_token_in_rank` followed by nine tensors of the reply, in tuple order |
| NormalMode.InternodeDispatch | deep_ep/buffer.py:912-1025 | no config fails; cached path: topk inputs or a wrong-shape handle fail, a `recv_src_meta` or `send_nvl_head` without a first dimension raises, otherwise the kernel gets `is_token_in_rank`, the send-side channel prefixes, the receive rank prefix sums, `len(recv_src_meta)` and `len(send_nvl_head)`, and slots 1-4 are None; fresh path: succeeds exactly when the layout tensors are given and returns the new 10-slot handle |
| NormalMode.NormaliseInternodeCombine | deep_ep/buffer.py:1075-1085 | a tuple of three or more gives its first three items, a pair (x, event), anything else x alone |
| NormalMode.InternodeCombine | deep_ep/buffer.py:1042-1085 | no config fails, a handle that is not 10 slots fails, otherwise slots 0, 3, 4, 5, 7, 8 and 9 go to the kernel and the reply is normalised |
| NormalMode.Dispatch | deep_ep/buffer.py:676-698 | a missing config comes from the dispatch table and an unsupported group fails; it goes internode exactly when there is more than one RDMA rank; internode rejects `num_worst_tokens != 0`; with a config in hand the result is exactly that of `IntranodeDispatch` or `InternodeDispatch` with the chosen config, so their guarantees hold for `dispatch`; the internode config is never missing |
| NormalMode.Combine | deep_ep/buffer.py:826-882 | a missing config comes from the combine table; it succeeds with a supported config exactly when the handle has the shape of the chosen transport, and a handle of the other shape fails its 6- or 10-slot unpack; intranode passes slots 3, 0, 2, 5 as src_idx, rank_prefix, channel_prefix, send_head; internode hands the 10-slot handle to `internode_combine` with the chosen config |
| NormalModeProperties.IntranodeDispatchThenCombine | deep_ep/buffer.py:777-784 | combining with a fresh intranode handle succeeds and hands the kernel that dispatch's recv_src_idx, rank prefix, receive-side channel prefix and send head |
| NormalModeProperties.IntranodeDispatchThenReplay | deep_ep/buffer.py:702-740 | replaying with that handle succeeds exactly when recv_src_idx has a first dimension and reuses the original `is_token_in_rank`, both send-side prefix matrices and the received-token count |
| NormalModeProperties.InternodeDispatchThenCombine | deep_ep/buffer.py:1045-1073 | combining with a fresh internode handle hands the kernel the caller's `is_token_in_rank` and the receive-side RDMA and NVLink prefix data, source metadata and both send heads |
| NormalModeProperties.InternodeDispatchThenReplay | deep_ep/buffer.py:916-962 | replaying that handle reuses `is_token_in_rank`, the send-side channel prefixes, the receive rank prefix sums and both received-token counts |
| NormalModeProperties.IntranodeCombineReadsSlots0235 | deep_ep/buffer.py:841-863 | intranode combine does not depend on slots 1 and 4 |
| NormalModeProperties.InternodeCombineReadsSlots0345789 | deep_ep/buffer.py:1045-1073 | internode combine does not depend on slots 1, 2 and 6 |
| NormalModeProperties.CachedDispatchIgnoresLayoutArgs | deep_ep/buffer.py:702-731 | with a handle, the caller's layout tensors change nothing |
| NormalModeProperties.NormalisationsAgree | deep_ep/buffer.py:865-882 | the two normalisations agree except on long tuples; without weights they differ on a 3-tuple whose item 1 is not None |
| LowLatencyMode.Recorded | deep_ep/buffer.py:1206 | a definition by cases: tensors are recorded on the event exactly when `async_finish` is set |
| LowLatencyMode.LowLatencyDispatch | deep_ep/buffer.py:1165-1209 | the handle is (src_info, layout_range, max tokens per rank, x.size(1), num_experts); recv_x is a pair exactly when `use_fp8`; the eight recorded tensors only with `async_finish`; a one-dimensional x raises |
| LowLatencyMode.LowLatencyCombine | deep_ep/buffer.py:1251-1283 | a non-5-slot handle fails; otherwise slots 0, 1, 2 and 4 go to the kernel, and the six recorded tensors only with `async_finish` |
| LowLatencyMode.NextLowLatencyCombineBuffer | deep_ep/buffer.py:1297-1306 | a non-5-slot handle fails; otherwise slots 2, 3 and 4 size the buffer |
| LowLatencyMode.DispatchThenCombine | deep_ep/buffer.py:1185-1191 | after a low-latency dispatch, its combine and its next combine buffer succeed and get that dispatch's source info, layout range, token bound, hidden size and expert count |
| LowLatencyMode.ConsumersReadDisjointSlots | deep_ep/buffer.py:1251-1306 | combine does not depend on the hidden slot; the buffer lookup does not depend on source info or layout range |
| Bootstrap.Zeros | deep_ep/buffer.py:77 | n zero bytes |
| Bootstrap.LocalInfoRow | deep_ep/buffer.py:75-95 | the info row is 65 bytes: the device id, then the runtime's IPC handle when `not low_latency_mode and num_nvl_bytes > 0`, else 64 zero bytes; any other length raises |
| Bootstrap.GatherWithRetry | deep_ep/buffer.py:104-123 | the gather is retried exactly once after a failure; a second failure raises; the rows are those of the attempt that did not raise |
| Bootstrap.DeviceIds | deep_ep/buffer.py:128-129 | `device_ids[i]` is byte 0 of row i |
| Bootstrap.IpcHandleTable | deep_ep/buffer.py:131-139 | `ipc_handles[i]` is bytes 1.. of row i when handles are shared, else None for every rank |
| Bootstrap.CollectIpcHandles | deep_ep/buffer.py:131-139 | the append loop builds exactly that table |
| Bootstrap.ExchangeDeviceInfo | deep_ep/buffer.py:75-139 | an info-row length error raises; gathering fails exactly when both attempts raise; otherwise device ids and IPC handles come from the rows gathered |
| Bootstrap.OwnRowRecovered | deep_ep/buffer.py:85-139 | when the gather is faithful, a rank finds its own device id and IPC handle (or zeros and None) in its own row |
| Bootstrap.RdmaRank | deep_ep/buffer.py:187 | the RDMA rank r of a rank satisfies 8r <= rank < 8(r+1) |
| Bootstrap.RdmaRankBlock | deep_ep/buffer.py:187-188 | a rank's RDMA rank is k exactly when the rank lies in block k of eight; rank 0 may therefore always generate the id |
| Bootstrap.NvshmemPe | deep_ep/buffer.py:200 | the PE is the rank in low-latency mode and its RDMA rank otherwise |
| Bootstrap.NumNvshmemPes | deep_ep/buffer.py:201 | a definition by cases: the PE count is the group size in low-latency mode and the RDMA rank count otherwise |
| Bootstrap.PaddedUniqueId | deep_ep/buffer.py:350-353 | the padded id is 128 bytes: the id followed by zeros |
| Bootstrap.PadUniqueId | deep_ep/buffer.py:350-353 | writing the id and the padding into the 128-byte tensor gives the padded id; an id longer than 128 bytes raises |
| Bootstrap.UniqueIdContribution | deep_ep/buffer.py:317-358 | rank 0 sends its id padded to 128 bytes, and an id longer than that raises; every other rank sends 128 zeros |
| Bootstrap.UniqueIdExchange | deep_ep/buffer.py:160-417 | no RDMA buffer gives None; queue pairs must be positive when there is more than one RDMA rank or in low-latency mode; otherwise the rank sends its contribution and takes gathered row 0, and a failed gather raises |
| Bootstrap.ExchangeUniqueId | deep_ep/buffer.py:160-417 | the steps of `__init__` (zeroed tensor, in-place padding at the root, gather, row 0) compute exactly that exchange |
| Bootstrap.EveryRankGetsRootId | deep_ep/buffer.py:317-395 | across the group, with each rank over its own runtime: when every rank reaches the gather and row q is what rank q sent, rank 0's id fits, every other row is zeros, and every rank obtains rank 0's padded id |
| DeepEp.RowsOf | deep_ep/buffer.py:104-123 | a definition by cases: the rows of the attempt that did not raise |
| DeepEp.Buffer.constructor | deep_ep/buffer.py:64-70 | the fields hold the rank, group size, buffer sizes, mode and runtime |
| DeepEp.Buffer.Create | deep_ep/buffer.py:64-420 | the errors of `__init__` in the order it reaches them (info row, gather, queue pairs, unique id, unique-id gather, availability); on success a fresh buffer whose `sync` received the device ids, the IPC handle table and row 0 of the unique-id gather |
| DeepEp.Buffer.Destroy | deep_ep/buffer.py:422-431 | always fails, because `explicitly_destroy` is never assigned |

## Left out

- The runtime's kernels are parameters (the fields of `Kernels.Runtime`).
- `get_dispatch_layout` is left out. It calls the runtime with its arguments,
  the previous event unwrapped as in `Values.WaitTarget`, and returns the four
  layout tensors with the returned event wrapped in an `EventOverlap`.
- `clean_low_latency_buffer` is left out: it calls the runtime with its three
  arguments and returns None.
- `get_low_latency_rdma_size_hint` and `is_sm90_compiled` are left out: they
  call functions of the extension module `deep_ep_cpp`, not the runtime, and
  return what those return.
- `get_local_buffer_tensor` is left out. It fetches the buffer from the
  runtime, then asserts `tensor.numel() >= size.numel()` and returns a view of
  the first `size.numel()` elements; that assert and that view are left out
  with it.
- `capture` is left out: it wraps a fresh `EventHandle()` in an `EventOverlap`
  without touching the runtime, and events are opaque here.
- `runtime.sync` is a call into the runtime with no wrapper of its own. Its one
  call in `__init__` is modelled by recording its arguments in
  `DeepEp.Buffer.synced`.
- Kernel failures are not modelled: every kernel is a total function. The same
  holds for `check_nvlink_connections`, the construction of the runtime (its
  `explicitly_destroy` argument included) and `torch.cuda.current_device()`,
  whose result is the `deviceId` parameter.
- `Bootstrap.LocalInfoRow` takes the device id as a byte, so it does not model
  the overflow error `torch.tensor(..., dtype=uint8)` raises for a device id
  above 255.
- The diagnostics of `__init__` are left out because they decide nothing: the
  prints, the sleeps, the ctypes IPC format check, the NVSHMEM memory checks,
  the P2P probing, the environment dump, the sanity all-gather and the
  unique-id validity printout. The unique-id gather's failure is modelled; the
  sanity gather's is not.
- `Bootstrap.NvshmemPe` and `Bootstrap.NumNvshmemPes` are modelled, but in the
  code their values feed only a diagnostic print.
- Events, hooks and `previous_event` are opaque values passed through. Stream
  ordering, CUDA graphs and concurrency are left out.
- Tensor contents, FP8 scales, `round_scale` and `use_ue8m0` are opaque or passed
  through. No numeric round trip of dispatch and combine is claimed.
- The documented limit of two live low-latency results is never checked by the
  code, so it is not modelled.
- Handle reuse across topologies is not checked by the code, so it is not
  modelled.
- `LowLatencyMode.LowLatencyDispatch` reads `x.size(1)` after the kernel call.
  The model reports the missing dimension without the kernel's own failure on
  such an input.
- `DeepEp.Buffer.Destroy` does not model releasing the runtime:
  `self.runtime = None` is never reached.
