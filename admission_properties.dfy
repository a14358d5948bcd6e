/** What the admission decision promises, stated over `Admit`, `Resolve` and
    `CorrelationKey`. */
module AdmissionProperties {
  import opened Wrappers
  import opened GoStrings
  import opened PdApi
  import opened TiKVCreater

  /** The store ids whose evictions a call sequence ends, in order. */
  function Terminations(calls: seq<Call>): (ids: seq<Uint64>)
    ensures |ids| <= |calls|
  {
    if calls == [] then []
    else (if calls[0].EndEvictLeaderCall? then [calls[0].storeId] else []) + Terminations(calls[1..])
  }

  lemma {:induction false} TerminationsAppend(a: seq<Call>, b: seq<Call>)
    ensures Terminations(a + b) == Terminations(a) + Terminations(b)
  {
    if a != [] {
      TerminationsAppend(a[1..], b);
      assert (a + b)[0] == a[0];
      assert (a + b)[1..] == a[1..] + b;
    } else {
      assert a + b == b;
    }
  }

  /** Calls none of which ends an eviction terminate nothing. */
  lemma {:induction false} NoTerminations(calls: seq<Call>)
    requires forall i :: 0 <= i < |calls| ==> !calls[i].EndEvictLeaderCall?
    ensures Terminations(calls) == []
  {
    if calls != [] {
      NoTerminations(calls[1..]);
    }
  }

  // ---------------------------------------------------------------------
  // Store-to-pod correlation

  /** `name` is the first label of the host part of `address`: a prefix of
      the address without `:` or `.`, ending where the address ends or at its
      first `:` or `.`. */
  predicate IsHostLabel(name: string, address: string)
  {
    && |name| <= |address|
    && address[..|name|] == name
    && ':' !in name && '.' !in name
    && (|name| == |address| || address[|name|] == ':' || address[|name|] == '.')
  }

  /** An address has only one host label. */
  lemma HostLabelUnique(a: string, b: string, address: string)
    requires IsHostLabel(a, address) && IsHostLabel(b, address)
    ensures a == b
  {
  }

  /** The correlation key of an address is exactly its host label: a store
      correlates with a pod name if and only if the name is that label. */
  lemma CorrelationKeyIsHostLabel(address: string, podName: string)
    ensures CorrelationKey(address) == podName <==> IsHostLabel(podName, address)
  {
    var host := Split(address, ':')[0];
    var key := Split(host, '.')[0];
    FirstPiece(address, ':');
    FirstPiece(host, '.');
    assert address[..|key|] == host[..|key|];
    assert forall i :: 0 <= i < |key| ==> key[i] == host[i];
    assert IsHostLabel(key, address);
    if IsHostLabel(podName, address) {
      HostLabelUnique(podName, key, address);
    }
  }

  /** A store at `tikv-pd-1.svc.cluster:20160` correlates with the pod
      `tikv-pd-1` and with no other pod name. */
  lemma CorrelationExample(podName: string)
    ensures CorrelationKey("tikv-pd-1.svc.cluster:20160") == podName <==> podName == "tikv-pd-1"
  {
    var address := "tikv-pd-1.svc.cluster:20160";
    assert address[..9] == "tikv-pd-1";
    assert IsHostLabel("tikv-pd-1", address);
    CorrelationKeyIsHostLabel(address, "tikv-pd-1");
  }

  // ---------------------------------------------------------------------
  // Fetch failures and early approvals

  /** An unbootstrapped cluster reported by either fetch is allowed, and no
      further PD call follows. */
  lemma NotBootstrappedAllows(podName: string, pd: PDReplies, unmarshal: string -> Result<Payload>)
    requires || (pd.stores.Err? && NotBootstrapped(pd.stores.error))
             || (pd.stores.Ok? && pd.evictLeaderSchedulers.Err? && NotBootstrapped(pd.evictLeaderSchedulers.error))
    ensures Admit(podName, pd, unmarshal).response == Allow
    ensures Admit(podName, pd, unmarshal).calls == if pd.stores.Err? then [GetStoresCall] else Fetches
  {
  }

  /** Any other fetch error denies the creation with that same error, and no
      PD call follows the failing fetch. */
  lemma FetchErrorDenies(podName: string, pd: PDReplies, unmarshal: string -> Result<Payload>)
    requires || (pd.stores.Err? && !NotBootstrapped(pd.stores.error))
             || (pd.stores.Ok? && pd.evictLeaderSchedulers.Err? && !NotBootstrapped(pd.evictLeaderSchedulers.error))
    ensures Admit(podName, pd, unmarshal).response
         == Deny(if pd.stores.Err? then pd.stores.error else pd.evictLeaderSchedulers.error)
    ensures Admit(podName, pd, unmarshal).calls == if pd.stores.Err? then [GetStoresCall] else Fetches
    ensures Terminations(Admit(podName, pd, unmarshal).calls) == []
  {
    NoTerminations(Admit(podName, pd, unmarshal).calls);
  }

  /** With both fetches answered, no store reported or no scheduler active
      means allow, with neither the configuration read nor an eviction ended. */
  lemma NothingToEvictAllows(podName: string, pd: PDReplies, unmarshal: string -> Result<Payload>)
    requires pd.stores.Ok? && pd.evictLeaderSchedulers.Ok?
    requires pd.stores.value.count < 1 || pd.evictLeaderSchedulers.value == []
    ensures Admit(podName, pd, unmarshal) == Verdict(Allow, Fetches)
  {
  }

  // ---------------------------------------------------------------------
  // Resolution of the evicted store ids

  /** Shared form: the ids are the keys of the decoded `store-id-ranges`. */
  lemma SharedFormIdsAreRangeKeys(names: seq<string>, config: Result<PDConfig>,
                                   unmarshal: string -> Result<Payload>, p: Payload)
    requires names == [EvictSchedulerLeader]
    requires config.Ok? && config.value.schedule.Some?
    requires EvictSchedulerLeader in PayloadsOf(config.value.schedule.value)
    requires unmarshal(PayloadsOf(config.value.schedule.value)[EvictSchedulerLeader]) == Ok(p)
    ensures Resolve(names, config, unmarshal) == Resolved(p.storeIdRanges.Keys)
  {
  }

  /** Shared form: a missing schedule section, a nil payload map or a missing
      entry resolves to no evicted store, without an error. */
  lemma SharedFormWithoutPayloadIsEmpty(names: seq<string>, config: Result<PDConfig>,
                                        unmarshal: string -> Result<Payload>)
    requires names == [EvictSchedulerLeader]
    requires config.Ok?
    requires config.value.schedule.None?
          || EvictSchedulerLeader !in PayloadsOf(config.value.schedule.value)
    ensures Resolve(names, config, unmarshal) == Resolved({})
  {
  }

  /** Shared form: a configuration error or a decoding error is returned as
      such, never read as an empty set. */
  lemma SharedFormErrorsFail(names: seq<string>, config: Result<PDConfig>,
                             unmarshal: string -> Result<Payload>)
    requires names == [EvictSchedulerLeader]
    requires || config.Err?
             || (&& config.value.schedule.Some?
                 && EvictSchedulerLeader in PayloadsOf(config.value.schedule.value)
                 && unmarshal(PayloadsOf(config.value.schedule.value)[EvictSchedulerLeader]).Err?)
    ensures Resolve(names, config, unmarshal)
         == Failed(if config.Err? then config.error
                   else unmarshal(PayloadsOf(config.value.schedule.value)[EvictSchedulerLeader]).error)
  {
  }

  /** A scheduler name with at least four `-`-separated tokens. */
  predicate WellFormedName(name: string)
  {
    |Split(name, '-')| >= 4
  }

  /** The store id a well-formed scheduler name carries. */
  function NameStoreId(name: string): string
    requires WellFormedName(name)
  {
    Split(name, '-')[3]
  }

  /** Direct form: the resolution succeeds exactly when every name has at
      least four tokens, and then the ids are the names' token 3; otherwise it
      is the index panic of the first name that has fewer. It never fails
      with an error. */
  lemma {:induction false} DirectFormResolution(names: seq<string>)
    ensures var r := ResolveDirect(names);
      && !r.Failed?
      && (r.Resolved? <==> forall i :: 0 <= i < |names| ==> WellFormedName(names[i]))
      && (r.Resolved? ==> r.ids == set s | s in names && WellFormedName(s) :: NameStoreId(s))
      && (r.OutOfRange? ==>
            exists k :: 0 <= k < |names| && !WellFormedName(names[k])
                     && r == OutOfRange(3, |Split(names[k], '-')|)
                     && forall j :: 0 <= j < k ==> WellFormedName(names[j]))
  {
    if names != [] {
      DirectFormResolution(names[1..]);
      var r := ResolveDirect(names);
      var rest := ResolveDirect(names[1..]);
      if WellFormedName(names[0]) {
        if rest.OutOfRange? {
          var k :| 0 <= k < |names[1..]| && !WellFormedName(names[1..][k])
                   && rest == OutOfRange(3, |Split(names[1..][k], '-')|)
                   && forall j :: 0 <= j < k ==> WellFormedName(names[1..][j]);
          assert names[k + 1] == names[1..][k];
          assert forall j :: 1 <= j < k + 1 ==> names[j] == names[1..][j - 1];
        }
        if rest.Resolved? {
          assert forall i :: 1 <= i < |names| ==> names[i] == names[1..][i - 1];
          assert forall i :: 0 <= i < |names| ==> WellFormedName(names[i]);
          assert names == [names[0]] + names[1..];
          assert r.ids == {NameStoreId(names[0])} + rest.ids;
        }
      } else {
        assert r == OutOfRange(3, |Split(names[0], '-')|);
      }
    }
  }

  /** The shared scheduler's name has three `-`-separated tokens. */
  lemma SharedNameTokens()
    ensures Split(EvictSchedulerLeader, '-') == ["evict", "leader", "scheduler"]
  {
    assert Join(["evict", "leader", "scheduler"], '-') == EvictSchedulerLeader;
    SplitJoin(["evict", "leader", "scheduler"], '-');
  }

  /** A name with four or more tokens is never taken for the shared form. */
  lemma WellFormedNameIsNotShared(name: string)
    requires WellFormedName(name)
    ensures name != EvictSchedulerLeader
  {
    SharedNameTokens();
  }

  lemma ResolveOneName(name: string, tokens: seq<string>, config: Result<PDConfig>,
                       unmarshal: string -> Result<Payload>)
    requires name != EvictSchedulerLeader
    requires Split(name, '-') == tokens && |tokens| >= 4
    ensures Resolve([name], config, unmarshal) == Resolved({tokens[3]})
  {
    assert [name][1..] == [];
    assert ResolveDirect([]) == Resolved({});
    assert {tokens[3]} + {} == {tokens[3]};
  }

  /** Direct form, one name: a scheduler name made of four or more tokens
      resolves to its token 3, whatever follows it. */
  lemma DirectFormSingleName(tokens: seq<string>, config: Result<PDConfig>,
                             unmarshal: string -> Result<Payload>)
    requires |tokens| >= 4 && forall i :: 0 <= i < |tokens| ==> '-' !in tokens[i]
    ensures Resolve([Join(tokens, '-')], config, unmarshal) == Resolved({tokens[3]})
  {
    SplitJoin(tokens, '-');
    WellFormedNameIsNotShared(Join(tokens, '-'));
    ResolveOneName(Join(tokens, '-'), tokens, config, unmarshal);
  }

  /** Direct form with PD's per-store scheduler name: the id is the token
      after `evict-leader-scheduler`. */
  lemma DirectFormExample(config: Result<PDConfig>, unmarshal: string -> Result<Payload>)
    ensures Resolve(["evict-leader-scheduler-5"], config, unmarshal) == Resolved({"5"})
  {
    assert Join(["evict", "leader", "scheduler", "5"], '-') == "evict-leader-scheduler-5";
    DirectFormSingleName(["evict", "leader", "scheduler", "5"], config, unmarshal);
  }

  /** A longer name still yields token 3: `evict-leader-scheduler-v2-region-5`
      names store `v2`. */
  lemma DirectFormLongNameExample(config: Result<PDConfig>, unmarshal: string -> Result<Payload>)
    ensures Resolve(["evict-leader-scheduler-v2-region-5"], config, unmarshal) == Resolved({"v2"})
  {
    var tokens := ["evict", "leader", "scheduler", "v2", "region", "5"];
    assert Join(["evict", "leader", "scheduler", "v2", "region", "5"], '-') == "evict-leader-scheduler-v2-region-5";
    DirectFormSingleName(tokens, config, unmarshal);
  }

  /** Any resolution failure denies the creation (or panics), and no eviction
      is ended. */
  lemma ResolutionFailureDenies(podName: string, pd: PDReplies, unmarshal: string -> Result<Payload>)
    requires pd.stores.Ok? && pd.evictLeaderSchedulers.Ok?
    requires pd.stores.value.count >= 1 && pd.evictLeaderSchedulers.value != []
    requires !Resolve(pd.evictLeaderSchedulers.value, pd.config, unmarshal).Resolved?
    ensures var r := Resolve(pd.evictLeaderSchedulers.value, pd.config, unmarshal);
            Admit(podName, pd, unmarshal).response
              == if r.Failed? then Deny(r.error) else IndexPanic(r.index, r.length)
    ensures Terminations(Admit(podName, pd, unmarshal).calls) == []
  {
    NoTerminations(Admit(podName, pd, unmarshal).calls);
  }

  // ---------------------------------------------------------------------
  // The store scan and its single termination

  /** The evicted ids, when the decision gets as far as scanning the stores. */
  function ScannedIds(pd: PDReplies, unmarshal: string -> Result<Payload>): Option<set<string>>
  {
    if && pd.stores.Ok? && pd.evictLeaderSchedulers.Ok?
       && pd.stores.value.count >= 1 && pd.evictLeaderSchedulers.value != []
    then
      match Resolve(pd.evictLeaderSchedulers.value, pd.config, unmarshal)
      case Resolved(ids) => Some(ids)
      case _ => None
    else None
  }

  /** The terminations of a whole decision are those of its store scan. */
  lemma TerminationsOfAdmit(podName: string, pd: PDReplies, unmarshal: string -> Result<Payload>)
    ensures Terminations(Admit(podName, pd, unmarshal).calls)
         == match ScannedIds(pd, unmarshal)
            case None => []
            case Some(ids) => Terminations(Scan(pd.stores.value.stores, podName, ids, pd.endEvictLeader).calls)
  {
    var v := Admit(podName, pd, unmarshal);
    match ScannedIds(pd, unmarshal)
    case None =>
      NoTerminations(v.calls);
    case Some(ids) =>
      var names := pd.evictLeaderSchedulers.value;
      var before := Fetches + ResolveCalls(names);
      var scan := Scan(pd.stores.value.stores, podName, ids, pd.endEvictLeader);
      assert v.calls == before + scan.calls;
      NoTerminations(before);
      TerminationsAppend(before, scan.calls);
  }

  /** At most one eviction is ended per decision, and only when the stores
      are scanned: the one of the first store, in PD's order, that ran under
      the pod's name and is under eviction; none when no store matches. */
  lemma TerminatesOnlyFirstMatchingStore(podName: string, pd: PDReplies, unmarshal: string -> Result<Payload>)
    ensures |Terminations(Admit(podName, pd, unmarshal).calls)| <= 1
    ensures Terminations(Admit(podName, pd, unmarshal).calls) != [] ==> ScannedIds(pd, unmarshal).Some?
    ensures ScannedIds(pd, unmarshal).Some? ==>
      var ids := ScannedIds(pd, unmarshal).value;
      var stores := pd.stores.value.stores;
      var ended := Terminations(Admit(podName, pd, unmarshal).calls);
      && (ended == [] <==> forall j :: 0 <= j < |stores| ==> !Matches(stores[j], podName, ids))
      && forall k :: 0 <= k < |stores| && Matches(stores[k], podName, ids)
                     && (forall j :: 0 <= j < k ==> !Matches(stores[j], podName, ids))
                     ==> ended == [stores[k].id]
  {
    TerminationsOfAdmit(podName, pd, unmarshal);
    if ScannedIds(pd, unmarshal).Some? {
      var ids := ScannedIds(pd, unmarshal).value;
      var stores := pd.stores.value.stores;
      var scan := Scan(stores, podName, ids, pd.endEvictLeader);
      match FirstMatch(stores, podName, ids)
      case None =>
        NoTerminations(scan.calls);
      case Some(first) =>
        assert scan.calls == [EndEvictLeaderCall(stores[first].id)];
        assert Terminations(scan.calls[1..]) == [];
        forall k | 0 <= k < |stores| && Matches(stores[k], podName, ids)
                   && (forall j :: 0 <= j < k ==> !Matches(stores[j], podName, ids))
          ensures k == first
        {
        }
    }
  }

  /** Once the stores are scanned, the decision is a deny exactly when the
      one termination call fails, and then it carries that call's error;
      otherwise it is an allow, whether or not a store matched. */
  lemma ScanDeniesOnlyOnFailedTermination(podName: string, pd: PDReplies, unmarshal: string -> Result<Payload>)
    requires ScannedIds(pd, unmarshal).Some?
    ensures var v := Admit(podName, pd, unmarshal);
            var ended := Terminations(v.calls);
      && (v.response == Allow || v.response.Deny?)
      && (v.response.Deny? <==> ended != [] && pd.endEvictLeader(ended[0]).Fail?)
      && (v.response.Deny? ==> v.response.reason == pd.endEvictLeader(ended[0]).error)
  {
    TerminationsOfAdmit(podName, pd, unmarshal);
    var ids := ScannedIds(pd, unmarshal).value;
    var scan := Scan(pd.stores.value.stores, podName, ids, pd.endEvictLeader);
    if FirstMatch(pd.stores.value.stores, podName, ids).None? {
      NoTerminations(scan.calls);
    } else {
      assert Terminations(scan.calls[1..]) == [];
    }
  }

  /** A decision that reaches the scan ends with the scan's response and calls. */
  lemma AdmitWhenScanned(podName: string, pd: PDReplies, unmarshal: string -> Result<Payload>)
    requires ScannedIds(pd, unmarshal).Some?
    ensures var scan := Scan(pd.stores.value.stores, podName, ScannedIds(pd, unmarshal).value, pd.endEvictLeader);
            Admit(podName, pd, unmarshal)
              == Verdict(scan.response, Fetches + ResolveCalls(pd.evictLeaderSchedulers.value) + scan.calls)
  {
  }

  /** A scan whose first store matches ends that store's eviction. */
  lemma ScanFirstStoreMatches(stores: seq<Store>, podName: string, ids: set<string>, endEvictLeader: Uint64 -> Outcome)
    requires |stores| >= 1 && Matches(stores[0], podName, ids)
    ensures Scan(stores, podName, ids, endEvictLeader).calls == [EndEvictLeaderCall(stores[0].id)]
    ensures endEvictLeader(stores[0].id) == Pass ==> Scan(stores, podName, ids, endEvictLeader).response == Allow
  {
  }

  // ---------------------------------------------------------------------
  // End-to-end scenarios

  /** The scenario's store address correlates with pod `foo-1` only. */
  lemma ScenarioAddressKey(podName: string)
    ensures CorrelationKey("foo-1.ns:20160") == podName <==> podName == "foo-1"
  {
    var address := "foo-1.ns:20160";
    assert address[..5] == "foo-1";
    assert IsHostLabel("foo-1", address);
    CorrelationKeyIsHostLabel(address, "foo-1");
  }

  /** One store, id 5, at an address whose host label is `foo-1` (such as
      `foo-1.ns:20160`, by `ScenarioAddressKey`); PD 4.0's shared scheduler
      whose payload names store 5; ending the eviction succeeds. */
  predicate SharedFormSnapshot(pd: PDReplies, unmarshal: string -> Result<Payload>, payload: string, address: string)
  {
    && CorrelationKey(address) == "foo-1"
    && pd.stores == Ok(StoresInfo(1, [Store(5, address)]))
    && pd.evictLeaderSchedulers == Ok([EvictSchedulerLeader])
    && pd.config == Ok(PDConfig(Some(ScheduleConfig(Some(map[EvictSchedulerLeader := payload])))))
    && unmarshal(payload) == Ok(Payload(map["5" := Json("{}")]))
    && pd.endEvictLeader(5) == Pass
  }

  lemma SharedFormSnapshotResolves(pd: PDReplies, unmarshal: string -> Result<Payload>, payload: string, address: string)
    requires SharedFormSnapshot(pd, unmarshal, payload, address)
    ensures ScannedIds(pd, unmarshal) == Some({"5"})
  {
    assert map["5" := Json("{}")].Keys == {"5"};
  }

  /** Creating pod `foo-1` ends the eviction of store 5, once, and is allowed. */
  lemma SharedFormScenarioMatchingPod(pd: PDReplies, unmarshal: string -> Result<Payload>, payload: string, address: string)
    requires SharedFormSnapshot(pd, unmarshal, payload, address)
    ensures Admit("foo-1", pd, unmarshal)
         == Verdict(Allow, [GetStoresCall, GetEvictLeaderSchedulersCall, GetConfigCall, EndEvictLeaderCall(5)])
  {
    SharedFormSnapshotResolves(pd, unmarshal, payload, address);
    assert FormatDecimal(5) == "5";
    ScanFirstStoreMatches(pd.stores.value.stores, "foo-1", {"5"}, pd.endEvictLeader);
    AdmitWhenScanned("foo-1", pd, unmarshal);
  }

  /** Creating pod `bar-1`, which the store's address does not name, ends
      nothing and is allowed. */
  lemma SharedFormScenarioOtherPod(pd: PDReplies, unmarshal: string -> Result<Payload>, payload: string, address: string)
    requires SharedFormSnapshot(pd, unmarshal, payload, address)
    ensures Admit("bar-1", pd, unmarshal)
         == Verdict(Allow, [GetStoresCall, GetEvictLeaderSchedulersCall, GetConfigCall])
  {
    SharedFormSnapshotResolves(pd, unmarshal, payload, address);
    assert FirstMatch(pd.stores.value.stores, "bar-1", {"5"}) == None;
    AdmitWhenScanned("bar-1", pd, unmarshal);
  }
}
