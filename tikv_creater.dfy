/** The admission gate that runs before a TiKV pod is created: it ends the
    leader eviction of the store that used to run under the pod's name, so the
    recreated store can take leaders again.

    The decision is specified by the function `Admit`, which gives both the
    response and the sequence of PD calls made; the method `AdmitCreateTiKVPod`
    runs it against a `PDClient` and is proved to agree with it. Likewise the
    resolution of the evicted store ids is specified by `Resolve` and run by
    `FilterLeaderEvictScheduler`. */
module TiKVCreater {
  import opened Wrappers
  import opened GoStrings
  import opened PdApi

  /** PD's error text when no TiKV store has joined the cluster yet (the
      constant ends with a double-quote character). */
  const TikvNotBootstrapped := "TiKV cluster not bootstrapped, please start TiKV first\""

  /** The name of the evict-leader scheduler; also the one scheduler name that
      PD 4.0 reports for all stores under eviction. */
  const EvictSchedulerLeader := "evict-leader-scheduler"

  /** The two calls every decision starts with. */
  const Fetches := [GetStoresCall, GetEvictLeaderSchedulersCall]

  /** A decoded JSON value that the gate carries but never looks into. */
  datatype Json = Json(raw: string)

  /** The decoded scheduler payload: its `store-id-ranges` object, keyed by store id. */
  datatype Payload = Payload(storeIdRanges: map<string, Json>)

  /** The outcome of resolving the evicted store ids: the id set, an error
      returned by PD or by the JSON decoder, or the out-of-range index panic of
      a scheduler name with too few `-`-separated tokens. */
  datatype Resolution =
    | Resolved(ids: set<string>)
    | Failed(error: string)
    | OutOfRange(index: nat, length: nat)

  /** The admission response: allow, deny with the error, or the index panic
      that aborts the handler before any response is built. */
  datatype Response = Allow | Deny(reason: string) | IndexPanic(index: nat, length: nat)

  /** The response and the PD calls made, in order. */
  datatype Verdict = Verdict(response: Response, calls: seq<Call>)

  /** PD's error text signals an unbootstrapped cluster. */
  predicate NotBootstrapped(err: string): (b: bool)
    ensures b ==> |err| > |TikvNotBootstrapped| && err[|err| - 1] == '\n'
  {
    HasSuffix(err, TikvNotBootstrapped + "\n")
  }

  /** The scheduler list has PD 4.0's shape: the single shared scheduler. */
  predicate IsSharedForm(names: seq<string>)
  {
    |names| == 1 && names[0] == EvictSchedulerLeader
  }

  /** The payload map of a schedule section; a nil map reads as empty. */
  function PayloadsOf(schedule: ScheduleConfig): map<string, string>
  {
    match schedule.schedulersPayload
    case None => map[]
    case Some(m) => m
  }

  /** Shared form: the store ids are the keys of `store-id-ranges` in the
      shared scheduler's payload. */
  function ResolveShared(config: Result<PDConfig>, unmarshal: string -> Result<Payload>): Resolution
  {
    match config
    case Err(e) => Failed(e)
    case Ok(c) =>
      match c.schedule
      case None => Resolved({})
      case Some(schedule) =>
        var payloads := PayloadsOf(schedule);
        if EvictSchedulerLeader !in payloads then Resolved({})
        else
          match unmarshal(payloads[EvictSchedulerLeader])
          case Err(e) => Failed(e)
          case Ok(p) => Resolved(p.storeIdRanges.Keys)
  }

  /** Adds `ids` to a resolved set; failures pass through. */
  function Prepend(ids: set<string>, r: Resolution): Resolution
  {
    match r
    case Resolved(rest) => Resolved(ids + rest)
    case _ => r
  }

  /** Direct form: each scheduler name carries its store id as token 3 of its
      `-`-split; the first name with fewer tokens panics. */
  function ResolveDirect(names: seq<string>): Resolution
  {
    if names == [] then Resolved({})
    else
      var parts := Split(names[0], '-');
      if |parts| <= 3 then OutOfRange(3, |parts|)
      else Prepend({parts[3]}, ResolveDirect(names[1..]))
  }

  /** The evicted store ids named by a non-empty scheduler list. */
  function Resolve(names: seq<string>, config: Result<PDConfig>, unmarshal: string -> Result<Payload>): Resolution
  {
    if IsSharedForm(names) then ResolveShared(config, unmarshal) else ResolveDirect(names)
  }

  /** The PD calls the resolution makes. */
  function ResolveCalls(names: seq<string>): seq<Call>
  {
    if IsSharedForm(names) then [GetConfigCall] else []
  }

  /** The pod name a store's address stands for: the host part before `:`,
      then its first label before `.`. */
  function CorrelationKey(address: string): (key: string)
    ensures |key| <= |address| && address[..|key|] == key
    ensures ':' !in key && '.' !in key
  {
    var host := Split(address, ':')[0];
    FirstPiece(address, ':');
    FirstPiece(host, '.');
    Split(host, '.')[0]
  }

  /** The store ran under `podName` and is under eviction. */
  predicate Matches(store: Store, podName: string, ids: set<string>)
  {
    CorrelationKey(store.address) == podName && FormatDecimal(store.id) in ids
  }

  /** The position of the first store, in PD's order, that matches. */
  function FirstMatch(stores: seq<Store>, podName: string, ids: set<string>): (r: Option<nat>)
    ensures r.None? <==> forall j :: 0 <= j < |stores| ==> !Matches(stores[j], podName, ids)
    ensures r.Some? ==> r.value < |stores| && Matches(stores[r.value], podName, ids)
    ensures r.Some? ==> forall j :: 0 <= j < r.value ==> !Matches(stores[j], podName, ids)
  {
    if stores == [] then None
    else if Matches(stores[0], podName, ids) then Some(0)
    else
      match FirstMatch(stores[1..], podName, ids)
      case None => None
      case Some(k) => Some(k + 1)
  }

  /** The scan over the stores: ends the eviction of the first matching store
      and stops; the response is a deny only when that call fails. */
  function Scan(stores: seq<Store>, podName: string, ids: set<string>, endEvictLeader: Uint64 -> Outcome): Verdict
  {
    match FirstMatch(stores, podName, ids)
    case None => Verdict(Allow, [])
    case Some(k) =>
      var id := stores[k].id;
      var response := match endEvictLeader(id)
                      case Pass => Allow
                      case Fail(e) => Deny(e);
      Verdict(response, [EndEvictLeaderCall(id)])
  }

  /** The verdict when a fetch fails: allow on an unbootstrapped cluster, deny otherwise. */
  function FetchFailure(err: string, calls: seq<Call>): Verdict
  {
    Verdict(if NotBootstrapped(err) then Allow else Deny(err), calls)
  }

  /** The admission decision for creating the pod `podName` against the PD
      snapshot `pd`, with `unmarshal` as the JSON decoder. */
  function Admit(podName: string, pd: PDReplies, unmarshal: string -> Result<Payload>): Verdict
  {
    match pd.stores
    case Err(e) => FetchFailure(e, [GetStoresCall])
    case Ok(info) =>
      match pd.evictLeaderSchedulers
      case Err(e) => FetchFailure(e, Fetches)
      case Ok(names) =>
        if info.count < 1 || |names| < 1 then Verdict(Allow, Fetches)
        else
          var before := Fetches + ResolveCalls(names);
          match Resolve(names, pd.config, unmarshal)
          case Failed(e) => Verdict(Deny(e), before)
          case OutOfRange(i, n) => Verdict(IndexPanic(i, n), before)
          case Resolved(ids) =>
            var scan := Scan(info.stores, podName, ids, pd.endEvictLeader);
            Verdict(scan.response, before + scan.calls)
  }

  /** Resolves the ids of the stores under leader eviction from the scheduler
      names PD reported, reading PD's configuration in the shared form. */
  method FilterLeaderEvictScheduler(names: seq<string>, pd: PDClient, unmarshal: string -> Result<Payload>)
    returns (r: Resolution)
    modifies pd
    ensures r == Resolve(names, pd.replies.config, unmarshal)
    ensures pd.calls == old(pd.calls) + ResolveCalls(names)
  {
    if IsSharedForm(names) {
      var c := pd.GetConfig();
      if c.Err? {
        return Failed(c.error);
      }
      if c.value.schedule.Some? {
        var payloads := PayloadsOf(c.value.schedule.value);
        if EvictSchedulerLeader in payloads {
          var decoded := unmarshal(payloads[EvictSchedulerLeader]);
          if decoded.Err? {
            return Failed(decoded.error);
          }
          var ranges := decoded.value.storeIdRanges;
          var ids: set<string> := {};
          var pending := ranges.Keys;
          while pending != {}
            invariant ids + pending == ranges.Keys
            decreases |pending|
          {
            var k :| k in pending;
            ids := ids + {k};
            pending := pending - {k};
          }
          return Resolved(ids);
        }
      }
      return Resolved({});
    } else {
      var ids: set<string> := {};
      for i := 0 to |names|
        invariant ResolveDirect(names) == Prepend(ids, ResolveDirect(names[i..]))
      {
        assert names[i..][1..] == names[i + 1..];
        var parts := Split(names[i], '-');
        if |parts| <= 3 {
          return OutOfRange(3, |parts|);
        }
        ids := ids + {parts[3]};
      }
      assert names[|names|..] == [];
      return Resolved(ids);
    }
  }

  /** Scans the stores in PD's order and ends the eviction of the first one
      that ran under `podName` and is under eviction. */
  method EndMatchingEviction(stores: seq<Store>, podName: string, ids: set<string>, pd: PDClient)
    returns (resp: Response)
    modifies pd
    ensures resp == Scan(stores, podName, ids, pd.replies.endEvictLeader).response
    ensures pd.calls == old(pd.calls) + Scan(stores, podName, ids, pd.replies.endEvictLeader).calls
  {
    for i := 0 to |stores|
      invariant forall j :: 0 <= j < i ==> !Matches(stores[j], podName, ids)
      invariant pd.calls == old(pd.calls)
    {
      if Matches(stores[i], podName, ids) {
        assert FirstMatch(stores, podName, ids) == Some(i);
        var ended := pd.EndEvictLeader(stores[i].id);
        if ended.Fail? {
          return Deny(ended.error);
        }
        break;
      }
    }
    return Allow;
  }

  /** Admits the creation of pod `podName`: fetches the stores and the
      evict-leader schedulers from PD, resolves the evicted store ids, and ends
      the eviction of the first store that ran under the pod's name. */
  method AdmitCreateTiKVPod(podName: string, pd: PDClient, unmarshal: string -> Result<Payload>)
    returns (resp: Response)
    modifies pd
    ensures resp == Admit(podName, pd.replies, unmarshal).response
    ensures pd.calls == old(pd.calls) + Admit(podName, pd.replies, unmarshal).calls
  {
    var stores := pd.GetStores();
    if stores.Err? {
      if NotBootstrapped(stores.error) {
        return Allow;
      }
      return Deny(stores.error);
    }
    var schedulers := pd.GetEvictLeaderSchedulers();
    if schedulers.Err? {
      if NotBootstrapped(schedulers.error) {
        return Allow;
      }
      return Deny(schedulers.error);
    }
    if stores.value.count < 1 {
      return Allow;
    }
    if |schedulers.value| < 1 {
      return Allow;
    }
    var resolved := FilterLeaderEvictScheduler(schedulers.value, pd, unmarshal);
    match resolved
    case Failed(e) => return Deny(e);
    case OutOfRange(i, n) => return IndexPanic(i, n);
    case Resolved(ids) =>
      resp := EndMatchingEviction(stores.value.stores, podName, ids, pd);
  }
}
