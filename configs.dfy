/** The recommended performance configurations: one fixed table for dispatch and
    one for combine, keyed by the number of ranks, each entry built from the
    current SM count. */
module Configs {
  import opened Values
  import opened Kernels

  /** The rank counts both tables have an entry for. */
  const SupportedRanks: set<int> := {2, 4, 8, 16, 24, 32, 64, 128, 144, 160}

  /** The dispatch table as `get_dispatch_config` builds it for a given `Buffer.num_sms`. */
  function DispatchTable(numSms: int): map<int, Config> {
    map[
      2 := Config(numSms, 24, 256, 6, 128),
      4 := Config(numSms, 6, 256, 6, 128),
      8 := Config(numSms, 6, 256, 6, 128),
      16 := Config(numSms, 16, 288, 20, 128),
      24 := Config(numSms, 8, 288, 32, 128),
      32 := Config(numSms, 8, 288, 32, 128),
      64 := Config(numSms, 20, 288, 28, 128),
      128 := Config(numSms, 20, 560, 32, 128),
      144 := Config(numSms, 32, 720, 12, 128),
      160 := Config(numSms, 28, 720, 12, 128)
    ]
  }

  /** The combine table as `get_combine_config` builds it. */
  function CombineTable(numSms: int): map<int, Config> {
    map[
      2 := Config(numSms, 10, 256, 6, 128),
      4 := Config(numSms, 9, 256, 6, 128),
      8 := Config(numSms, 4, 256, 6, 128),
      16 := Config(numSms, 2, 288, 28, 128),
      24 := Config(numSms, 1, 288, 20, 128),
      32 := Config(numSms, 1, 288, 20, 128),
      64 := Config(numSms, 1, 288, 20, 128),
      128 := Config(numSms, 1, 560, 12, 128),
      144 := Config(numSms, 2, 720, 8, 128),
      160 := Config(numSms, 2, 720, 8, 128)
    ]
  }

  /** `get_dispatch_config(num_ranks)`: the table entry, or the failed membership assert. */
  function DispatchConfig(numSms: int, numRanks: int): (r: Result<Config>)
    ensures r.Ok? <==> numRanks in SupportedRanks
    ensures r.Err? ==> r.error == UnsupportedRanks(numRanks)
    ensures r.Ok? ==> r.value.numSms == numSms && r.value.rdmaRecvChunk == 128
  {
    var table := DispatchTable(numSms);
    if numRanks in table then Ok(table[numRanks]) else Err(UnsupportedRanks(numRanks))
  }

  /** `get_combine_config(num_ranks)`: the table entry, or the failed membership assert. */
  function CombineConfig(numSms: int, numRanks: int): (r: Result<Config>)
    ensures r.Ok? <==> numRanks in SupportedRanks
    ensures r.Err? ==> r.error == UnsupportedRanks(numRanks)
    ensures r.Ok? ==> r.value.numSms == numSms && r.value.rdmaRecvChunk == 128
  {
    var table := CombineTable(numSms);
    if numRanks in table then Ok(table[numRanks]) else Err(UnsupportedRanks(numRanks))
  }

  /** The two selectors accept exactly the same rank counts. */
  lemma SelectorsAgreeOnSupport(numSms: int, numRanks: int)
    ensures DispatchConfig(numSms, numRanks).Ok? <==> CombineConfig(numSms, numRanks).Ok?
  {
  }

  /** The entries for eight ranks; 17 ranks (dispatch) and 3 ranks (combine) are refused. */
  lemma EightRanksAndRefusals(numSms: int)
    ensures DispatchConfig(numSms, 8) == Ok(Config(numSms, 6, 256, 6, 128))
    ensures CombineConfig(numSms, 8) == Ok(Config(numSms, 4, 256, 6, 128))
    ensures DispatchConfig(numSms, 17) == Err(UnsupportedRanks(17))
    ensures CombineConfig(numSms, 3) == Err(UnsupportedRanks(3))
  {
  }

  /** The SM count is the only input besides the rank count: two lookups with
      different SM counts differ exactly in the first field. */
  lemma SmCountOnlyChangesFirstField(s1: int, s2: int, numRanks: int)
    requires numRanks in SupportedRanks
    ensures DispatchConfig(s2, numRanks).value == DispatchConfig(s1, numRanks).value.(numSms := s2)
    ensures CombineConfig(s2, numRanks).value == CombineConfig(s1, numRanks).value.(numSms := s2)
  {
  }
}
