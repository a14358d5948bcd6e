# TiKV pod-creation admission gate, in Dafny

This project models the admission check that tidb-operator runs before a TiKV
pod is created (`pkg/webhook/pod/tikv_creater.go`). The check talks to PD, the
placement driver. It reads the store list and the active evict-leader
schedulers from PD. It then works out which stores are under leader eviction.
If the store that used to run under the pod's name is one of them, the check
ends that store's eviction. The result is allow or deny.

The project also models the `VM` descriptor of the fault-trigger manager and
its `Verify` check (`tests/pkg/fault-trigger/manager/types.go`).

Layout:

- `wrappers.dfy` (`Wrappers`): `Option`, `Result` and `Outcome`. A Go error is
  the text its `Error()` method returns.
- `go_strings.dfy` (`GoStrings`): `strings.Split` on a one-character
  separator, with its inverse `Join`, plus `HasSuffix` and `fmt.Sprintf("%d")`
  (`FormatDecimal`, with `DecimalValue` as the reading that inverts it).
- `pdapi.dfy` (`PdApi`): the PD data (`Store`, `StoresInfo`, `PDConfig`) and
  the client class `PDClient`. The client's answers are fixed by a `PDReplies`
  value, one snapshot per decision. The client appends each call it receives
  to the ghost log `calls`.
- `tikv_creater.dfy` (`TiKVCreater`): the gate. `Resolve` specifies the set of
  evicted store ids and `Admit` specifies the whole decision, giving both the
  response and the ordered PD calls. The methods `FilterLeaderEvictScheduler`,
  `EndMatchingEviction` and `AdmitCreateTiKVPod` follow the Go code's steps
  and loops. Each is proved equal to its specification.
- `admission_properties.dfy` (`AdmissionProperties`): the decision table, the
  two scheduler-list forms, the single termination and two end-to-end
  scenarios, all proved over `Admit` and `Resolve`.
- `fault_trigger_vm.dfy` (`FaultTriggerManager`): `VM` and `Verify`.

The Go code panics when a direct-form scheduler name has fewer than four
`-`-separated tokens (`strings.Split(s, "-")[3]`). The model makes that panic
explicit: resolution returns `OutOfRange(3, n)` and the decision returns
`IndexPanic(3, n)`, a third outcome besides allow and deny.

Notes on the code's behaviour:

- The code fetches the scheduler list before it checks the store count
  (`tikv_creater.go:53-64`). An error from that fetch is handled even when the
  count is 0. A store count below 1 allows the pod only after both fetches
  have succeeded.
- The not-bootstrapped rule applies only to `GetStores` and
  `GetEvictLeaderSchedulers`. A `GetConfig` or `EndEvictLeader` error always
  denies. The marker constant ends in a literal `"` character, and the code
  adds `"\n"` before it matches the suffix.
- Token 3 of `evict-leader-scheduler-v2-region-5` is `v2`
  (`tikv_creater.go:120`, `DirectFormLongNameExample`).

## Model

| member | source | states |
|---|---|---|
| `TiKVCreater.AdmitCreateTiKVPod` | pkg/webhook/pod/tikv_creater.go:40-91 | The response and the PD calls (in order) equal the specification `Admit`, whose properties are the lemmas below |
| `TiKVCreater.FilterLeaderEvictScheduler` | pkg/webhook/pod/tikv_creater.go:95-125 | The result equals `Resolve`. The method reads PD's configuration exactly in the shared form. Its two loops collect the payload keys and the token-3 ids |
| `TiKVCreater.EndMatchingEviction` | pkg/webhook/pod/tikv_creater.go:77-88 | The scan over the stores ends the eviction of the first matching store and then stops. It denies only when that call fails |
| `TiKVCreater.NotBootstrapped` | pkg/webhook/pod/tikv_creater.go:47 | The suffix test on PD's error text: a match means the text ends with the marker and a newline. `NotBootstrappedAllows` and `FetchErrorDenies` state what the decision does with it |
| `TiKVCreater.CorrelationKey` | pkg/webhook/pod/tikv_creater.go:78-79 | The pod name derived from a store address is a prefix of the address that contains no `:` and no `.`. `CorrelationKeyIsHostLabel` characterises it exactly |
| `TiKVCreater.FirstMatch` | pkg/webhook/pod/tikv_creater.go:77-80 | Gives the least store position whose address names the pod and whose printed id is evicted. Gives none exactly when no store qualifies |
| `PdApi.PDClient.GetStores` | pkg/webhook/pod/tikv_creater.go:45 | Returns PD's store reply and logs one call |
| `PdApi.PDClient.GetEvictLeaderSchedulers` | pkg/webhook/pod/tikv_creater.go:53 | Returns PD's scheduler-name reply and logs one call |
| `PdApi.PDClient.GetConfig` | pkg/webhook/pod/tikv_creater.go:98 | Returns PD's configuration reply and logs one call |
| `PdApi.PDClient.EndEvictLeader` | pkg/webhook/pod/tikv_creater.go:81 | Returns PD's answer for ending that store's eviction and logs the call with the store id |
| `AdmissionProperties.NotBootstrappedAllows` | pkg/webhook/pod/tikv_creater.go:45-59 | A not-bootstrapped error from either fetch allows the pod, and no PD call follows it |
| `AdmissionProperties.FetchErrorDenies` | pkg/webhook/pod/tikv_creater.go:45-60 | Any other fetch error denies with that same error. No PD call follows the failing fetch, so no eviction is ended |
| `AdmissionProperties.NothingToEvictAllows` | pkg/webhook/pod/tikv_creater.go:62-68 | Once both fetches succeed, a store count below 1 or an empty scheduler list allows. Only the two fetches are made, with no `GetConfig` and no termination |
| `AdmissionProperties.ResolutionFailureDenies` | pkg/webhook/pod/tikv_creater.go:70-73 | A resolution error denies with that error, and an index panic yields the panic. Neither ends an eviction |
| `AdmissionProperties.SharedFormIdsAreRangeKeys` | pkg/webhook/pod/tikv_creater.go:106-115 | Shared form: the evicted ids are exactly the keys of the decoded `store-id-ranges` |
| `AdmissionProperties.SharedFormWithoutPayloadIsEmpty` | pkg/webhook/pod/tikv_creater.go:102-107 | Shared form: no schedule section, a nil payload map or no payload entry gives the empty set, without an error |
| `AdmissionProperties.SharedFormErrorsFail` | pkg/webhook/pod/tikv_creater.go:98-111 | Shared form: a `GetConfig` error or a decoding error is returned as that error, never as an empty set |
| `AdmissionProperties.DirectFormResolution` | pkg/webhook/pod/tikv_creater.go:118-122 | Direct form: resolution succeeds if and only if every name has at least 4 tokens. The ids are then exactly the names' token 3. Otherwise the result is the panic of the first short name, and never an error |
| `AdmissionProperties.WellFormedNameIsNotShared` | pkg/webhook/pod/tikv_creater.go:97 | A name with 4 or more tokens is never the shared scheduler's name |
| `AdmissionProperties.DirectFormSingleName` | pkg/webhook/pod/tikv_creater.go:119-121 | One name built from 4 or more tokens resolves to its token 3, whatever follows that token |
| `AdmissionProperties.DirectFormExample` | pkg/webhook/pod/tikv_creater.go:120 | `evict-leader-scheduler-5` resolves to store `5` |
| `AdmissionProperties.DirectFormLongNameExample` | pkg/webhook/pod/tikv_creater.go:120 | `evict-leader-scheduler-v2-region-5` resolves to `v2` |
| `AdmissionProperties.TerminatesOnlyFirstMatchingStore` | pkg/webhook/pod/tikv_creater.go:77-88 | At most one eviction is ended per decision, and only after the stores are scanned. It is the first store in PD's order that matches, and none is ended when no store matches |
| `AdmissionProperties.ScanDeniesOnlyOnFailedTermination` | pkg/webhook/pod/tikv_creater.go:81-90 | Once the stores are scanned, the decision denies exactly when the one termination fails, with that call's error. Otherwise it allows |
| `AdmissionProperties.AdmitWhenScanned` | pkg/webhook/pod/tikv_creater.go:70-90 | A decision that reaches the scan makes the two fetches, then the resolution's calls, then the scan's calls. Its response is the scan's response |
| `AdmissionProperties.HostLabelUnique` | pkg/webhook/pod/tikv_creater.go:78-79 | An address has at most one host label |
| `AdmissionProperties.CorrelationKeyIsHostLabel` | pkg/webhook/pod/tikv_creater.go:78-79 | An address correlates with a pod name if and only if that name is the address prefix up to its first `:` or `.` |
| `AdmissionProperties.CorrelationExample` | pkg/webhook/pod/tikv_creater.go:78-79 | `tikv-pd-1.svc.cluster:20160` correlates with `tikv-pd-1` and with no other name |
| `AdmissionProperties.ScenarioAddressKey` | pkg/webhook/pod/tikv_creater.go:78-79 | `foo-1.ns:20160` correlates with `foo-1` and with no other name |
| `AdmissionProperties.SharedFormScenarioMatchingPod` | pkg/webhook/pod/tikv_creater.go:40-91 | Store 5 of pod `foo-1` under shared-form eviction: creating `foo-1` ends store 5's eviction once and allows |
| `AdmissionProperties.SharedFormScenarioOtherPod` | pkg/webhook/pod/tikv_creater.go:40-91 | In the same snapshot, creating `bar-1` ends nothing and allows |
| `GoStrings.Split` | pkg/webhook/pod/tikv_creater.go:78-79 | `strings.Split` gives one piece more than there are separators, so piece 0 always exists. No piece contains the separator |
| `GoStrings.JoinSplit` | pkg/webhook/pod/tikv_creater.go:78-79 | Joining the pieces of a split restores the string |
| `GoStrings.SplitJoin` | pkg/webhook/pod/tikv_creater.go:120 | Splitting a join of separator-free pieces gives the pieces back, so the split is the exact inverse of the join |
| `GoStrings.FirstPiece` | pkg/webhook/pod/tikv_creater.go:78-79 | Piece 0 is the prefix that stops at the end of the string or at the first separator |
| `GoStrings.DecimalRoundTrip` | pkg/webhook/pod/tikv_creater.go:80 | `%d` writes only digits, with no leading zero except in `0`, and the numeral reads back as the id |
| `GoStrings.FormatDecimalInjective` | pkg/webhook/pod/tikv_creater.go:80 | Two different store ids never print the same numeral |
| `FaultTriggerManager.Verify` | tests/pkg/fault-trigger/manager/types.go:28-34 | The only error `Verify` reports is "name or ip must be provided" |
| `FaultTriggerManager.VerifyRejectsExactlyAnonymous` | tests/pkg/fault-trigger/manager/types.go:29-31 | `Verify` fails exactly when both the name and the IP are empty |
| `FaultTriggerManager.VerifyAcceptsNamed` | tests/pkg/fault-trigger/manager/types.go:29-33 | A non-empty name always passes |
| `FaultTriggerManager.VerifyAcceptsAddressed` | tests/pkg/fault-trigger/manager/types.go:29-33 | A non-empty IP always passes |
| `FaultTriggerManager.VerifyIgnoresOtherFields` | tests/pkg/fault-trigger/manager/types.go:19-33 | Host, port, roles and status never change the result |

## Left out

- `cmd/backup-manager/app/import/restore.go` as a whole: it downloads with `rclone`, runs `tidb-lightning`, unpacks archives and builds paths. All of it is process and filesystem I/O.
- PD's network behaviour: each decision sees one fixed snapshot (`PDReplies`). The model does not capture PD changing state between the calls of one decision, or a second decision seeing what the first one ended. So repeating a decision after a successful termination is not modelled.
- The JSON decoder: `json.Unmarshal` is the parameter `unmarshal`, an oracle from the payload text to a decoded `Payload` or an error text.
- The body of the package-level `endEvictLeader` helper is not among the files modelled. The model assumes it passes the store's id unchanged to PD's `EndEvictLeader` and returns that call's error.
- The replacement of a nil `SchedulersPayload` by an empty map (`tikv_creater.go:103-105`): a nil map is read as the empty map, which gives the same result.
- Logging through `klog`, the namespace (used only in log lines), the unused cluster argument, and the building of admission-response objects. The response is the datatype `Allow | Deny(reason) | IndexPanic(index, length)`.
- What the HTTP server does with the index panic: the model stops at `IndexPanic`.
- Concurrency between admission requests: each decision is independent and synchronous.
- The pointer receiver of `Verify` in Go: the model makes `Verify` a function of the descriptor's value, so it cannot modify the descriptor.
