/** The `Buffer` object: the class-wide SM count behind the config tables, the
    construction sequence of `__init__` (field assignment, device-info exchange,
    unique-id exchange, `runtime.sync`, availability check) and `destroy`. */
module DeepEp {
  import opened Values
  import opened Kernels
  import opened Configs
  import opened Bootstrap

  /** The class attribute `Buffer.num_sms`, shared by every buffer and read by
      the config tables and the dispatch and combine defaults. */
  class SmCount {
    var numSms: int

    constructor ()
      ensures numSms == 20
    {
      numSms := 20;
    }

    /** `set_num_sms`: an odd count fails the assert and changes nothing. Python's
        `%` agrees with Dafny's on a divisor of 2 for every sign of the count. */
    method SetNumSms(newNumSms: int) returns (o: Outcome)
      modifies this
      ensures o.Pass? <==> newNumSms % 2 == 0
      ensures o.Fail? ==> o.error == OddSmCount(newNumSms)
      ensures numSms == (if o.Pass? then newNumSms else old(numSms))
    {
      if newNumSms % 2 != 0 {
        return Fail(OddSmCount(newNumSms));
      }
      numSms := newNumSms;
      o := Pass;
    }

    /** `get_dispatch_config`: the dispatch table built at the current class-wide
        SM count, so every supported entry carries that count. */
    method LookupDispatchConfig(numRanks: int) returns (c: Result<Config>)
      ensures c == DispatchConfig(numSms, numRanks)
      ensures c.Ok? <==> numRanks in SupportedRanks
      ensures c.Ok? ==> c.value.numSms == numSms
    {
      c := DispatchConfig(numSms, numRanks);
    }

    /** `get_combine_config`: the combine table at the current SM count. */
    method LookupCombineConfig(numRanks: int) returns (c: Result<Config>)
      ensures c == CombineConfig(numSms, numRanks)
      ensures c.Ok? <==> numRanks in SupportedRanks
      ensures c.Ok? ==> c.value.numSms == numSms
    {
      c := CombineConfig(numSms, numRanks);
    }
  }

  /** The three arguments `__init__` hands to `runtime.sync`. */
  datatype SyncArgs = SyncArgs(
    deviceIds: seq<int>,
    ipcHandles: seq<Option<seq<byte>>>,
    rootUniqueId: Option<seq<byte>>)

  /** The rows a gather that did not raise produced, the retry's when the first
      attempt raised. */
  function RowsOf(first: Gathered, retry: Gathered): (rows: seq<seq<byte>>)
    requires first.GatherRows? || retry.GatherRows?
    ensures first.GatherRows? ==> rows == first.rows
    ensures first.GatherRaised? ==> rows == retry.rows
  {
    if first.GatherRows? then first.rows else retry.rows
  }

  class Buffer {
    const rank: nat
    const groupSize: nat
    const numNvlBytes: int
    const numRdmaBytes: int
    const lowLatencyMode: bool
    /** The runtime; `destroy` would set it to None. */
    var runtime: Option<Runtime>
    /** What was passed to `runtime.sync` during construction. */
    const synced: SyncArgs

    constructor (rank: nat, groupSize: nat, numNvlBytes: int, numRdmaBytes: int, lowLatencyMode: bool,
                 rt: Runtime, synced: SyncArgs)
      ensures this.rank == rank && this.groupSize == groupSize
      ensures this.numNvlBytes == numNvlBytes && this.numRdmaBytes == numRdmaBytes
      ensures this.lowLatencyMode == lowLatencyMode
      ensures runtime == Some(rt) && this.synced == synced
    {
      this.rank := rank;
      this.groupSize := groupSize;
      this.numNvlBytes := numNvlBytes;
      this.numRdmaBytes := numRdmaBytes;
      this.lowLatencyMode := lowLatencyMode;
      runtime := Some(rt);
      this.synced := synced;
    }

    /** `__init__`: this rank is `rank` of a group of `groupSize`, on device
        `deviceId`, over the runtime `rt`. `infoFirst` and `infoRetry` are what the
        two device-info gathers did, and `uidGathered` what the unique-id gather
        did. The exceptions `__init__` can raise are the `Err` results, in the
        order the source reaches them. */
    static method Create(
      rank: nat, groupSize: nat, numNvlBytes: int, numRdmaBytes: int, lowLatencyMode: bool,
      numQpsPerRank: int, deviceId: byte, rt: Runtime,
      infoFirst: Gathered, infoRetry: Gathered, uidGathered: Gathered)
      returns (r: Result<Buffer>)
      requires rank < groupSize
      requires Shaped(infoFirst, groupSize, InfoRowSize) && Shaped(infoRetry, groupSize, InfoRowSize)
      requires Shaped(uidGathered, groupSize, UniqueIdSize)
      ensures
        var info := LocalInfoRow(deviceId, lowLatencyMode, numNvlBytes, rt);
        var noQps := numRdmaBytes > 0 && (rt.numRdmaRanks > 1 || lowLatencyMode) && numQpsPerRank <= 0;
        var uidTooLong := numRdmaBytes > 0 && rank == 0 && |rt.localNvshmemUniqueId| > UniqueIdSize;
        var uidLost := numRdmaBytes > 0 && uidGathered.GatherRaised?;
        && (info.Err? ==> r == Err(info.error))
        && (info.Ok? && infoFirst.GatherRaised? && infoRetry.GatherRaised? ==> r == Err(GatherFailed))
        && (info.Ok? && (infoFirst.GatherRows? || infoRetry.GatherRows?) ==>
              if noQps then r == Err(NoQueuePairs)
              else if uidTooLong then r == Err(UniqueIdTooLong(|rt.localNvshmemUniqueId|))
              else if uidLost then r == Err(UniqueIdGatherFailed)
              else if !rt.availableAfterSync then r == Err(RuntimeUnavailable)
              else
                var rows := RowsOf(infoFirst, infoRetry);
                && r.Ok?
                && fresh(r.value)
                && r.value.rank == rank && r.value.groupSize == groupSize
                && r.value.numNvlBytes == numNvlBytes && r.value.numRdmaBytes == numRdmaBytes
                && r.value.lowLatencyMode == lowLatencyMode
                && r.value.runtime == Some(rt)
                && r.value.synced == SyncArgs(
                     DeviceIds(rows),
                     IpcHandleTable(rows, SharesIpcHandles(lowLatencyMode, numNvlBytes)),
                     if numRdmaBytes > 0 then Some(uidGathered.rows[0]) else None))
    {
      var info := ExchangeDeviceInfo(deviceId, lowLatencyMode, numNvlBytes, rt, groupSize, infoFirst, infoRetry);
      if info.Err? {
        return Err(info.error);
      }
      var (deviceIds, ipcHandles) := info.value;
      var uid, _ := ExchangeUniqueId(rank, groupSize, numRdmaBytes, numQpsPerRank, lowLatencyMode, rt, uidGathered);
      if uid.Err? {
        return Err(uid.error);
      }
      if !rt.availableAfterSync {
        return Err(RuntimeUnavailable);
      }
      var b := new Buffer(rank, groupSize, numNvlBytes, numRdmaBytes, lowLatencyMode, rt,
                          SyncArgs(deviceIds, ipcHandles, uid.value));
      r := Ok(b);
    }

    /** `destroy`: its first statement reads `self.explicitly_destroy`, which
        `__init__` never assigns, so it always raises before the runtime is
        released, and the buffer keeps its runtime. */
    method Destroy() returns (o: Outcome)
      ensures o == Fail(ExplicitlyDestroyUnset)
    {
      o := Fail(ExplicitlyDestroyUnset);
    }
  }
}
