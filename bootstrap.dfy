/** The bootstrap data exchange of `Buffer.__init__`: the per-rank info row
    (device id and IPC handle bytes), its all-gather with one retry, the split
    of the gathered rows into device ids and IPC handles, the rank mapping onto
    RDMA ranks and NVSHMEM PEs, and the exchange of the 128-byte NVSHMEM unique
    id from root rank 0. The collectives are parameters: what they returned, or
    that they raised. */
module Bootstrap {
  import opened Values
  import opened Kernels

  /** `NUM_MAX_NVL_PEERS`: the ranks of one node. */
  const NvlPeers: nat := 8
  /** Length of a CUDA IPC handle. */
  const IpcHandleSize: nat := 64
  /** Length of the info row: the device id byte, then the IPC handle. */
  const InfoRowSize: nat := 65
  /** Length of the unique-id tensor. */
  const UniqueIdSize: nat := 128

  function Zeros(n: nat): (z: seq<byte>)
    ensures |z| == n
    ensures forall i :: 0 <= i < n ==> z[i] == 0
  {
    seq(n, _ => 0)
  }

  /** Whether the ranks share NVLink buffers through IPC handles: only outside
      low-latency mode and with an NVLink buffer. */
  predicate SharesIpcHandles(lowLatencyMode: bool, numNvlBytes: int) {
    !lowLatencyMode && numNvlBytes > 0
  }

  /** The local info row: the device id, then the runtime's IPC handle when
      handles are shared and 64 zero bytes otherwise; any length but 65 raises. */
  function LocalInfoRow(deviceId: byte, lowLatencyMode: bool, numNvlBytes: int, rt: Runtime): (r: Result<seq<byte>>)
    ensures SharesIpcHandles(lowLatencyMode, numNvlBytes) ==>
      (r.Ok? <==> |rt.localIpcHandle| == IpcHandleSize)
    ensures !SharesIpcHandles(lowLatencyMode, numNvlBytes) ==> r.Ok?
    ensures r.Err? ==> r.error == InfoSizeMismatch(1 + |rt.localIpcHandle|)
    ensures r.Ok? ==>
      && |r.value| == InfoRowSize
      && r.value[0] == deviceId
      && r.value[1..] == (if SharesIpcHandles(lowLatencyMode, numNvlBytes) then rt.localIpcHandle else Zeros(IpcHandleSize))
  {
    var handleBytes := if SharesIpcHandles(lowLatencyMode, numNvlBytes) then rt.localIpcHandle else Zeros(IpcHandleSize);
    var row := [deviceId] + handleBytes;
    if |row| != InfoRowSize then Err(InfoSizeMismatch(|row|)) else Ok(row)
  }

  /** What one all-gather call did: raised, or filled the output tensor. */
  datatype Gathered = GatherRaised | GatherRows(rows: seq<seq<byte>>)

  /** The output tensor of a gather is preallocated as `n` rows of `width` bytes,
      so whatever the collective writes has that shape. */
  predicate Shaped(g: Gathered, n: nat, width: nat) {
    g.GatherRows? ==> |g.rows| == n && forall i :: 0 <= i < n ==> |g.rows[i]| == width
  }

  /** The first all-gather, and on failure exactly one retry; a second failure
      raises. `attempts` is the number of collective calls made. */
  method GatherWithRetry(first: Gathered, retry: Gathered) returns (r: Result<seq<seq<byte>>>, attempts: nat)
    ensures attempts == (if first.GatherRaised? then 2 else 1)
    ensures r.Err? <==> first.GatherRaised? && retry.GatherRaised?
    ensures r.Err? ==> r.error == GatherFailed
    ensures r.Ok? && first.GatherRows? ==> r.value == first.rows
    ensures r.Ok? && first.GatherRaised? ==> r.value == retry.rows
  {
    attempts := 1;
    if first.GatherRows? {
      return Ok(first.rows), attempts;
    }
    attempts := attempts + 1;
    if retry.GatherRows? {
      r := Ok(retry.rows);
    } else {
      r := Err(GatherFailed);
    }
  }

  /** `device_ids`: byte 0 of every gathered row. */
  function DeviceIds(rows: seq<seq<byte>>): (ids: seq<int>)
    requires forall i :: 0 <= i < |rows| ==> |rows[i]| > 0
    ensures |ids| == |rows|
    ensures forall i :: 0 <= i < |rows| ==> ids[i] == rows[i][0] as int
  {
    seq(|rows|, i requires 0 <= i < |rows| => rows[i][0] as int)
  }

  /** The IPC handle table `ipc_handles` stands for: bytes 1.. of every row when
      handles are shared, None for every rank otherwise. */
  function IpcHandleTable(rows: seq<seq<byte>>, shares: bool): (t: seq<Option<seq<byte>>>)
    requires forall i :: 0 <= i < |rows| ==> |rows[i]| > 0
    ensures |t| == |rows|
    ensures forall i :: 0 <= i < |rows| ==> (t[i].Some? <==> shares)
    ensures forall i :: 0 <= i < |rows| && shares ==> t[i].value == rows[i][1..]
  {
    seq(|rows|, i requires 0 <= i < |rows| => if shares then Some(rows[i][1..]) else None)
  }

  /** The append loop that builds `ipc_handles` from the gathered rows. */
  method CollectIpcHandles(rows: seq<seq<byte>>, shares: bool) returns (handles: seq<Option<seq<byte>>>)
    requires forall i :: 0 <= i < |rows| ==> |rows[i]| > 0
    ensures handles == IpcHandleTable(rows, shares)
  {
    handles := [];
    var i := 0;
    while i < |rows|
      invariant 0 <= i <= |rows|
      invariant handles == IpcHandleTable(rows[..i], shares)
    {
      if shares {
        handles := handles + [Some(rows[i][1..])];
      } else {
        handles := handles + [None];
      }
      i := i + 1;
    }
    assert rows[..i] == rows;
  }

  /** Builds the info row, gathers it (with the retry) and splits the gathered
      rows into device ids and IPC handles. */
  method ExchangeDeviceInfo(
    deviceId: byte, lowLatencyMode: bool, numNvlBytes: int, rt: Runtime, groupSize: nat,
    first: Gathered, retry: Gathered)
    returns (r: Result<(seq<int>, seq<Option<seq<byte>>>)>)
    requires Shaped(first, groupSize, InfoRowSize) && Shaped(retry, groupSize, InfoRowSize)
    ensures LocalInfoRow(deviceId, lowLatencyMode, numNvlBytes, rt).Err? ==>
      r == Err(LocalInfoRow(deviceId, lowLatencyMode, numNvlBytes, rt).error)
    ensures LocalInfoRow(deviceId, lowLatencyMode, numNvlBytes, rt).Ok? ==>
      (r.Err? <==> first.GatherRaised? && retry.GatherRaised?)
    ensures LocalInfoRow(deviceId, lowLatencyMode, numNvlBytes, rt).Ok? && r.Err? ==> r.error == GatherFailed
    ensures r.Ok? ==>
      var rows := if first.GatherRows? then first.rows else retry.rows;
      && r.value.0 == DeviceIds(rows)
      && r.value.1 == IpcHandleTable(rows, SharesIpcHandles(lowLatencyMode, numNvlBytes))
  {
    var row := LocalInfoRow(deviceId, lowLatencyMode, numNvlBytes, rt);
    if row.Err? {
      return Err(row.error);
    }
    var gathered, _ := GatherWithRetry(first, retry);
    if gathered.Err? {
      return Err(gathered.error);
    }
    var rows := gathered.value;
    var handles := CollectIpcHandles(rows, SharesIpcHandles(lowLatencyMode, numNvlBytes));
    r := Ok((DeviceIds(rows), handles));
  }

  /** Round trip through a faithful gather: when row `rank` of the gathered
      tensor is this rank's info row, the exchange gives back this rank's device
      id and, when handles are shared, the runtime's own IPC handle. */
  lemma OwnRowRecovered(
    rows: seq<seq<byte>>, rank: nat, deviceId: byte, lowLatencyMode: bool, numNvlBytes: int, rt: Runtime)
    requires forall i :: 0 <= i < |rows| ==> |rows[i]| > 0
    requires rank < |rows|
    requires LocalInfoRow(deviceId, lowLatencyMode, numNvlBytes, rt) == Ok(rows[rank])
    ensures DeviceIds(rows)[rank] == deviceId as int
    ensures SharesIpcHandles(lowLatencyMode, numNvlBytes) ==>
      IpcHandleTable(rows, true)[rank] == Some(rt.localIpcHandle)
    ensures !SharesIpcHandles(lowLatencyMode, numNvlBytes) ==>
      IpcHandleTable(rows, false)[rank] == None && rows[rank][1..] == Zeros(IpcHandleSize)
  {
  }

  /** `rdma_rank = rank // 8`: the node a rank sits on. */
  function RdmaRank(rank: nat): (r: nat)
    ensures NvlPeers * r <= rank < NvlPeers * (r + 1)
  {
    rank / NvlPeers
  }

  /** The RDMA rank is the unique node index whose block of eight ranks holds
      `rank`; in particular rank 0, the root, has RDMA rank 0 and may always
      generate the unique id. */
  lemma RdmaRankBlock(rank: nat, node: nat)
    ensures RdmaRank(rank) == node <==> NvlPeers * node <= rank < NvlPeers * (node + 1)
  {
  }

  /** The NVSHMEM PE of a rank: the rank itself in low-latency mode, where every
      rank joins NVSHMEM, and its RDMA rank otherwise. */
  function NvshmemPe(rank: nat, lowLatencyMode: bool): (pe: nat)
    ensures lowLatencyMode ==> pe == rank
    ensures !lowLatencyMode ==> NvlPeers * pe <= rank < NvlPeers * (pe + 1)
  {
    if lowLatencyMode then rank else RdmaRank(rank)
  }

  /** The number of NVSHMEM PEs: the group size in low-latency mode, the
      runtime's RDMA rank count otherwise. */
  function NumNvshmemPes(groupSize: nat, lowLatencyMode: bool, rt: Runtime): (n: int)
    ensures lowLatencyMode ==> n == groupSize
    ensures !lowLatencyMode ==> n == rt.numRdmaRanks
  {
    if lowLatencyMode then groupSize else rt.numRdmaRanks
  }

  /** The unique id zero-padded to the 128-byte tensor. */
  function PaddedUniqueId(uid: seq<byte>): (p: seq<byte>)
    requires |uid| <= UniqueIdSize
    ensures |p| == UniqueIdSize
    ensures p[..|uid|] == uid
    ensures forall i :: |uid| <= i < UniqueIdSize ==> p[i] == 0
  {
    uid + Zeros(UniqueIdSize - |uid|)
  }

  /** The root's writes into `uid_tensor`: the id bytes over its prefix, then
      zeros over the rest. An id longer than the tensor does not fit the slice
      it is assigned to and raises. */
  method PadUniqueId(uid: seq<byte>) returns (r: Result<seq<byte>>)
    ensures r.Ok? <==> |uid| <= UniqueIdSize
    ensures r.Err? ==> r.error == UniqueIdTooLong(|uid|)
    ensures r.Ok? ==> r.value == PaddedUniqueId(uid)
  {
    if |uid| > UniqueIdSize {
      return Err(UniqueIdTooLong(|uid|));
    }
    var uidTensor := new byte[UniqueIdSize];
    var i := 0;
    while i < |uid|
      invariant 0 <= i <= |uid|
      invariant forall k :: 0 <= k < i ==> uidTensor[k] == uid[k]
    {
      uidTensor[i] := uid[i];
      i := i + 1;
    }
    while i < UniqueIdSize
      invariant |uid| <= i <= UniqueIdSize
      invariant forall k :: 0 <= k < |uid| ==> uidTensor[k] == uid[k]
      invariant forall k :: |uid| <= k < i ==> uidTensor[k] == 0
    {
      uidTensor[i] := 0;
      i := i + 1;
    }
    r := Ok(uidTensor[..]);
  }

  /** What a rank puts into the unique-id gather: rank 0 its padded id, an id
      longer than the tensor raising; every other rank zeros. */
  function UniqueIdContribution(rank: nat, rt: Runtime): (c: Result<seq<byte>>)
    ensures rank != 0 ==> c == Ok(Zeros(UniqueIdSize))
    ensures rank == 0 ==> (c.Ok? <==> |rt.localNvshmemUniqueId| <= UniqueIdSize)
    ensures rank == 0 && c.Ok? ==> c.value == PaddedUniqueId(rt.localNvshmemUniqueId)
    ensures c.Err? ==> c.error == UniqueIdTooLong(|rt.localNvshmemUniqueId|)
    ensures c.Ok? ==> |c.value| == UniqueIdSize
  {
    if rank != 0 then Ok(Zeros(UniqueIdSize))
    else if |rt.localNvshmemUniqueId| > UniqueIdSize then Err(UniqueIdTooLong(|rt.localNvshmemUniqueId|))
    else Ok(PaddedUniqueId(rt.localNvshmemUniqueId))
  }

  /** Whether the runtime needs queue pairs and none were asked for. */
  predicate LacksQueuePairs(numQpsPerRank: int, lowLatencyMode: bool, rt: Runtime) {
    (IsInternode(rt) || lowLatencyMode) && numQpsPerRank <= 0
  }

  /** The unique-id exchange seen from rank `rank`: the root id it obtains, and
      what it put into the gather, if it got that far. Nothing happens without
      an RDMA buffer. With one, queue pairs are required when there is more than
      one RDMA rank or in low-latency mode; the rank then contributes as
      `UniqueIdContribution` says, and takes gathered row 0. */
  function UniqueIdExchange(
    rank: nat, groupSize: nat, numRdmaBytes: int, numQpsPerRank: int, lowLatencyMode: bool, rt: Runtime,
    gathered: Gathered): (e: (Result<Option<seq<byte>>>, Option<seq<byte>>))
    requires rank < groupSize
    requires Shaped(gathered, groupSize, UniqueIdSize)
    ensures numRdmaBytes <= 0 ==> e == (Ok(None), None)
    ensures numRdmaBytes > 0 && LacksQueuePairs(numQpsPerRank, lowLatencyMode, rt) ==> e == (Err(NoQueuePairs), None)
    ensures numRdmaBytes > 0 && !LacksQueuePairs(numQpsPerRank, lowLatencyMode, rt) ==>
      if rank == 0 && |rt.localNvshmemUniqueId| > UniqueIdSize then
        e == (Err(UniqueIdTooLong(|rt.localNvshmemUniqueId|)), None)
      else
        && e.1 == Some(if rank == 0 then PaddedUniqueId(rt.localNvshmemUniqueId) else Zeros(UniqueIdSize))
        && (gathered.GatherRaised? ==> e.0 == Err(UniqueIdGatherFailed))
        && (gathered.GatherRows? ==> e.0 == Ok(Some(gathered.rows[0])))
  {
    if numRdmaBytes <= 0 then (Ok(None), None)
    else if LacksQueuePairs(numQpsPerRank, lowLatencyMode, rt) then (Err(NoQueuePairs), None)
    else match UniqueIdContribution(rank, rt)
      case Err(err) => (Err(err), None)
      case Ok(c) =>
        (if gathered.GatherRaised? then Err(UniqueIdGatherFailed) else Ok(Some(gathered.rows[0])), Some(c))
  }

  /** The unique-id exchange as `__init__` runs it: the root forms
      `uid_tensor` in place, every other rank leaves it zero, and the gathered
      row of root rank 0 is returned. `sent` is what this rank put into the
      gather, if it got that far. */
  method ExchangeUniqueId(
    rank: nat, groupSize: nat, numRdmaBytes: int, numQpsPerRank: int, lowLatencyMode: bool, rt: Runtime,
    gathered: Gathered)
    returns (r: Result<Option<seq<byte>>>, sent: Option<seq<byte>>)
    requires rank < groupSize
    requires Shaped(gathered, groupSize, UniqueIdSize)
    ensures (r, sent) == UniqueIdExchange(rank, groupSize, numRdmaBytes, numQpsPerRank, lowLatencyMode, rt, gathered)
  {
    sent := None;
    if numRdmaBytes <= 0 {
      return Ok(None), sent;
    }
    if (rt.numRdmaRanks > 1 || lowLatencyMode) && numQpsPerRank <= 0 {
      return Err(NoQueuePairs), sent;
    }
    var rootRank := 0;
    var uidTensor := Zeros(UniqueIdSize);
    if rank == rootRank {
      if RdmaRank(rank) == 0 {
        var padded := PadUniqueId(rt.localNvshmemUniqueId);
        if padded.Err? {
          return Err(padded.error), sent;
        }
        uidTensor := padded.value;
      } else {
        assert false;
      }
    }
    sent := Some(uidTensor);
    match gathered
    case GatherRaised =>
      r := Err(UniqueIdGatherFailed);
    case GatherRows(rows) =>
      r := Ok(Some(rows[rootRank]));
  }

  /** Round trip across the group. Rank `q` runs over runtime `rts[q]`. When
      every rank's exchange reaches the gather and the gather returns, as row
      `q`, what rank `q` sent, then rank 0's id fits the tensor, every other
      row is zeros, and every rank obtains rank 0's id followed by zeros. */
  lemma EveryRankGetsRootId(
    groupSize: nat, numRdmaBytes: int, numQpsPerRank: int, lowLatencyMode: bool, rts: seq<Runtime>,
    rows: seq<seq<byte>>)
    requires |rts| == groupSize && Shaped(GatherRows(rows), groupSize, UniqueIdSize)
    requires forall q :: 0 <= q < groupSize ==>
      UniqueIdExchange(q, groupSize, numRdmaBytes, numQpsPerRank, lowLatencyMode, rts[q], GatherRows(rows)).1
      == Some(rows[q])
    ensures groupSize > 0 ==>
      && |rts[0].localNvshmemUniqueId| <= UniqueIdSize
      && (forall q :: 0 < q < groupSize ==> rows[q] == Zeros(UniqueIdSize))
      && forall q :: 0 <= q < groupSize ==>
           UniqueIdExchange(q, groupSize, numRdmaBytes, numQpsPerRank, lowLatencyMode, rts[q], GatherRows(rows)).0
           == Ok(Some(PaddedUniqueId(rts[0].localNvshmemUniqueId)))
  {
  }
}
