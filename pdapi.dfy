/** The placement driver (PD) client as the admission gate sees it. The network
    and the PD server are not modelled: one `PDReplies` value fixes what each of
    the four client operations answers for the snapshot that one admission
    decision observes, and the client records every call it receives. */
module PdApi {
  import opened Wrappers

  /** Go's `uint64`, the type of a store id. */
  type Uint64 = x: int | 0 <= x < 0x1_0000_0000_0000_0000

  /** One store known to PD: its id and its `host:port` address. */
  datatype Store = Store(id: Uint64, address: string)

  /** The reply of `GetStores`: a count reported by PD and the store list, in
      PD's order. The count is PD's own field and is not tied to the list. */
  datatype StoresInfo = StoresInfo(count: int, stores: seq<Store>)

  /** The schedule section of PD's configuration. `schedulersPayload` maps a
      scheduler name to its raw JSON payload; a nil Go map is `None`. */
  datatype ScheduleConfig = ScheduleConfig(schedulersPayload: Option<map<string, string>>)

  /** PD's configuration; a nil schedule section is `None`. */
  datatype PDConfig = PDConfig(schedule: Option<ScheduleConfig>)

  /** One client operation, as recorded in the call log. */
  datatype Call =
    | GetStoresCall
    | GetEvictLeaderSchedulersCall
    | GetConfigCall
    | EndEvictLeaderCall(storeId: Uint64)

  /** What PD answers to each operation in one snapshot. */
  datatype PDReplies = PDReplies(
    stores: Result<StoresInfo>,
    evictLeaderSchedulers: Result<seq<string>>,
    config: Result<PDConfig>,
    endEvictLeader: Uint64 -> Outcome)

  /** A PD client whose answers are fixed by `replies` and which logs every
      call it receives in the ghost `calls`. */
  class PDClient {
    const replies: PDReplies
    ghost var calls: seq<Call>

    constructor (replies: PDReplies)
      ensures this.replies == replies && calls == []
    {
      this.replies := replies;
      calls := [];
    }

    method GetStores() returns (r: Result<StoresInfo>)
      modifies this
      ensures r == replies.stores
      ensures calls == old(calls) + [GetStoresCall]
    {
      r := replies.stores;
      calls := calls + [GetStoresCall];
    }

    method GetEvictLeaderSchedulers() returns (r: Result<seq<string>>)
      modifies this
      ensures r == replies.evictLeaderSchedulers
      ensures calls == old(calls) + [GetEvictLeaderSchedulersCall]
    {
      r := replies.evictLeaderSchedulers;
      calls := calls + [GetEvictLeaderSchedulersCall];
    }

    method GetConfig() returns (r: Result<PDConfig>)
      modifies this
      ensures r == replies.config
      ensures calls == old(calls) + [GetConfigCall]
    {
      r := replies.config;
      calls := calls + [GetConfigCall];
    }

    method EndEvictLeader(storeId: Uint64) returns (r: Outcome)
      modifies this
      ensures r == replies.endEvictLeader(storeId)
      ensures calls == old(calls) + [EndEvictLeaderCall(storeId)]
    {
      r := replies.endEvictLeader(storeId);
      calls := calls + [EndEvictLeaderCall(storeId)];
    }
  }
}
