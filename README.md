# kubefixtures, modelled in Dafny

kubefixtures loads a fixture manifest into a Kubernetes cluster and then forces the
manifest's `status` onto the live object. This project models its core:

- **the coordinate resolver** (`GetResourceInfo`): it turns a decoded manifest into group,
  version, plural resource name, namespace and name. The plural is the lower-cased kind plus
  `s`. The namespace defaults to `default`.
- **the status-document edits** (`CopyStatus`, `UpdateStatusField`): they rewrite the
  top-level `status` map of a JSON-like object in place.
- **the FixtureLoader's call sequencing** (`GetResourceDynamically`,
  `CreateResourceDynamically`, `UpdateResourceStatusDynamically`, `StatusLoad`,
  `StatusFieldLoad`), run against an abstract cluster.
- **the two commands** `load` (Create, then StatusLoad) and `transition` (StatusLoad only),
  and the `key=value` splitter `convertStatusToKeyValue`.

Files and modules:

| file | module | what |
|---|---|---|
| `wrappers.dfy` | `Wrappers`, `Errors`, `Exits` | Option/Result, the error values, how a run ends |
| `strings.dfy` | `Strings` | Go's `strings.Split` on one character, and ASCII `strings.ToLower` |
| `objects.dfy` | `Objects` | the `Json` value, `Unstructured` (a class holding the top-level map), the accessors |
| `resolver.dfy` | `Resolver` | `ResourceInfo` and `GetResourceInfo` |
| `status.dfy` | `Status` | what `CopyStatus` and `UpdateStatusField` make of an object, and `UpdateStatusField` itself |
| `cluster.dfy` | `Cluster` | the calls, the server's replies, and the `Dynamic` class that records the trace |
| `fixtures.dfy` | `Fixtures` | the `FixtureLoader` class and the functions that specify its methods |
| `load.dfy` | `LoadCmd` | the `load` workflow and `convertStatusToKeyValue` |
| `transition.dfy` | `TransitionCmd` | the `transition` workflow |

The cluster is a `Dynamic` object with two parts:
- `respond` is the server's behaviour: a function from the calls issued so far and the new
  call to a reply, either `Accepted(obj)` or `Rejected(cause)`.
- `trace` is the sequence of calls issued so far.

Each `FixtureLoader` method that talks to the cluster (`GetResourceDynamically`,
`CreateResourceDynamically`, `UpdateResourceStatusDynamically`, `StatusLoad`,
`StatusFieldLoad`), and each command, is proved against an *Effect* function of
`(respond, trace)`. That function gives the calls the method appends to the trace and the
value it returns. `FixtureLoader.CopyStatus` makes no call; it is proved against
`Status.CopiedStatus`, the object it leaves in dst. The constructor only keeps the handle.
The properties are stated on these functions. Examples: which calls happen, in which order,
with which coordinates and objects, and what happens after a failure.

A run of a command goes through the phases Start → Created (load only) → Fetched →
StatusMerged → StatusWritten → Done. Any step can go to Failed, which ends the run. No
member defines these phases, and the trace alone does not show them: it records calls, not
replies, so a rejected Get and an accepted Get followed by a missing status both leave
`[Create, Get]`. Each phase is instead the condition, in the contracts of `LoadEffect`,
`TransitionEffect` and `StatusLoadEffect`, under which the run goes on past it
(`ri` is the resolved `ResourceInfo`, `h` the calls issued before the run):
- Start → Created: `GetResourceInfo(obj).Ok?` and `server(h, CreateCall(ri, obj)).Accepted?`
  (`transition` skips this step).
- Created → Fetched: `server(h', GetCall(ri)).Accepted?`, where `h'` is the trace after the
  Create.
- Fetched → StatusMerged: `StatusMap(obj).Some?`, so that `CopiedStatus(obj, live)` is `Ok`.
- StatusMerged → StatusWritten → Done: the UpdateStatus of the merged object is accepted,
  and the run ends with `Succeeded(message)`.
- Failed: any of these conditions is false, and the run ends with `Exited(code)`.

A failed run ends with `Exited(code)`:
- code 1 for `log.Fatal` and `os.Exit(1)`;
- code 2 for the panic in `GetResourceInfo`.

Two places where the model keeps the code's literal behaviour:
- An apiVersion with more than one `/` is accepted. `"a/b/c"` resolves to group `a` and
  version `b`, and the rest is ignored. It is not rejected as malformed.
- An apiVersion with no `/` is not reported as an error. Indexing the second element of the
  split panics (pkg/crud.go:167). The model returns `InvalidManifest`, and both commands
  then end with exit status 2 before issuing any call.

## Model

| member | source | states |
|---|---|---|
| `Strings.Split` | pkg/crud.go:166-167 | `strings.Split` yields one part more than there are separators, and no part contains the separator |
| `Strings.JoinSplit` | pkg/crud.go:166-167 | joining the parts of a split with the separator gives back the input exactly |
| `Strings.SplitJoin` | cmd/load/load.go:82 | splitting separator-free parts joined by the separator gives back the parts |
| `Strings.SplitFirstTwo` | pkg/crud.go:166-167 | when the separator occurs, part 0 is the text before the first separator and part 1 the text between the first and second (or the end) |
| `Strings.ToLower` | pkg/crud.go:164 | ASCII lower-casing: same length, no upper-case ASCII letter left, upper-case letters shifted by 32, every other character unchanged |
| `Objects.StatusMap` | pkg/status.go:39-43 | the status map is found exactly when `status` is present and holds a map; `null` or any other value is not a map |
| `Resolver.GetResourceInfo` | pkg/crud.go:161-187 | resolves exactly when apiVersion contains `/`, and otherwise fails with `InvalidManifest`. Group and version are the first two `/`-fields, and further fields are ignored. The resource is lower-case(kind)+`s`. The namespace is `default` when empty and unchanged otherwise. The name is copied |
| `Resolver.FirstTwoFieldsUnique` | pkg/crud.go:166-167 | the first two fields of an apiVersion are unique, so group and version depend on the apiVersion alone |
| `Resolver.WidgetExample` | pkg/crud.go:162-187 | apiVersion `g/v`, kind `Widget`, no namespace resolves to `g`, `v`, `widgets`, `default` |
| `Resolver.ThreeFieldExample` | pkg/crud.go:166-167 | `a/b/c` resolves to group `a` and version `b` |
| `Resolver.NoGroupExample` | pkg/crud.go:167 | apiVersion `v1` or `""` does not resolve (the source's out-of-range index) |
| `Status.CopiedStatus` | pkg/status.go:36-50 | CopyStatus succeeds exactly when src has a status map. On success dst's status becomes src's status, every other key of dst keeps its value, and no other key appears. On failure the error is `MissingStatus` |
| `Status.StatusFieldSet` | pkg/status.go:53-66 | UpdateStatusField succeeds exactly when a status map exists. Then `status[field] == value`, every other status field and every other top-level key is unchanged, and no key is added or dropped except `field` in the status |
| `Status.CopyStatusIdempotent` | pkg/status.go:45 | copying the same src status twice gives the same object as copying it once |
| `Status.CopyStatusDropsStaleFields` | pkg/status.go:39-45 | a status field only dst had is gone after the copy: the status is replaced, not merged |
| `Status.ReplaceNotMergeExample` | pkg/status.go:39-45 | src status `{phase: Ready}` over dst status `{phase: Pending, extra: x}` leaves exactly `{phase: Ready}` |
| `Status.CopyStatusNeedsStatusMap` | pkg/status.go:39-43 | a src without `status`, or whose `status` is not a map, makes the copy fail |
| `Status.UpdateStatusField` | pkg/status.go:53-66 | the in-place edit yields the object `StatusFieldSet` describes, and on failure leaves the object as it was |
| `Cluster.Dynamic.Issue` | pkg/crud.go:72-73 | a remote call appends exactly that call to the trace and returns the server's reply to it |
| `Fixtures.GetEffect` | pkg/crud.go:59-85 | nil coordinates return the nil error and issue no call. Otherwise exactly one Get is issued, and its object or error is returned unchanged |
| `Fixtures.CreateEffect` | pkg/crud.go:88-113 | nil coordinates return the nil error and issue no call. Otherwise exactly one Create of the given object is issued, and its error is returned unchanged |
| `Fixtures.UpdateStatusEffect` | pkg/status.go:12-33 | exactly one UpdateStatus, with no retry, and its error propagated unchanged |
| `Fixtures.StatusLoadEffect` | pkg/crud.go:116-136 | Get first and never a Create. A failed Get ends the load with its error. A fixture without a status map ends it with `MissingStatus` and no UpdateStatus. Otherwise exactly one UpdateStatus follows, of the fetched object with its status replaced by the fixture's, and the load succeeds exactly when the server accepts it |
| `Fixtures.StatusFieldLoadEffect` | pkg/crud.go:139-159 | Get first, and a failed Get returns its error. After a successful Get the fetched object is written back unchanged with one UpdateStatus, whose error is returned unchanged |
| `Fixtures.StatusFieldLoadIgnoresFixture` | pkg/crud.go:139-152 | StatusFieldLoad's calls and result do not depend on the fixture object or the field name |
| `Fixtures.FixtureLoader.constructor` | pkg/crud.go:31-36 | SetupFixtureLoader keeps the given cluster handle |
| `Fixtures.FixtureLoader.GetResourceDynamically` | pkg/crud.go:59-85 | appends `GetEffect`'s calls to the trace and returns its result |
| `Fixtures.FixtureLoader.CreateResourceDynamically` | pkg/crud.go:88-113 | appends `CreateEffect`'s calls to the trace and returns its result |
| `Fixtures.FixtureLoader.UpdateResourceStatusDynamically` | pkg/status.go:14-33 | appends `UpdateStatusEffect`'s single call to the trace and returns its result |
| `Fixtures.FixtureLoader.CopyStatus` | pkg/status.go:36-50 | overwrites dst in place with `CopiedStatus`'s object. On failure dst is unchanged. Only dst is modified, so src is only read |
| `Fixtures.FixtureLoader.StatusLoad` | pkg/crud.go:116-136 | appends `StatusLoadEffect`'s calls to the trace and returns its result. The copy step edits the fetched object in place |
| `Fixtures.FixtureLoader.StatusFieldLoad` | pkg/crud.go:139-159 | appends `StatusFieldLoadEffect`'s calls to the trace and returns its result |
| `LoadCmd.LoadEffect` | cmd/load/load.go:66-78 | unresolvable coordinates exit with status 2 and issue no call. Otherwise the first call is Create with the resolved coordinates and the decoded object. A rejected Create ends the run with exit status 1 and nothing more. An accepted one is followed by StatusLoad with the same coordinates and the same object, and a failed StatusLoad exits with status 1. Success, with its message, happens exactly when both steps succeed |
| `LoadCmd.LoadCreatesBeforeUpdate` | cmd/load/load.go:66-73 | an UpdateStatus happens only after an accepted Create, as the third and last call, after the Get |
| `LoadCmd.LoadAgainstAcceptingServer` | cmd/load/load.go:66-78 | against a server that accepts everything, a load issues Create(manifest), Get, and UpdateStatus of the live object carrying the manifest's status, and succeeds |
| `LoadCmd.DeploymentResolves` | pkg/crud.go:162-187 | the `apps/v1` Deployment `web` in `ns1` resolves to `apps`, `v1`, `deployments`, `ns1/web` |
| `LoadCmd.DeploymentExample` | cmd/load/load.go:66-78 | that Deployment's load is Create, Get, UpdateStatus with status `{availableReplicas: 3}`, and the run succeeds |
| `LoadCmd.Load` | cmd/load/load.go:51-79 | appends `LoadEffect`'s calls to the trace and ends as it says. The flags, including `--time`, do not occur in the contract, so they are not read |
| `LoadCmd.ConvertStatusToKeyValue` | cmd/load/load.go:81-87 | succeeds exactly when the input has exactly one `=`. Then key + `=` + value is the input and neither part contains `=`. Otherwise it fails |
| `LoadCmd.ConvertStatusToKeyValueOfPair` | cmd/load/load.go:82-86 | for `k=v` with `=` in neither `k` nor `v`, the key is `k` and the value is `v` |
| `TransitionCmd.TransitionEffect` | cmd/transition/transition.go:62-69 | coordinates are resolved before any call. The calls are exactly those of one StatusLoad with them and the decoded object, so there is never a Create. Success, with its message, happens exactly when that StatusLoad succeeds, a failed StatusLoad exits with status 1, and unresolvable coordinates exit with status 2 |
| `TransitionCmd.TransitionSuccess` | cmd/transition/transition.go:62-69 | a successful transition is exactly a Get and one UpdateStatus whose object carries the fixture's status |
| `TransitionCmd.Transition` | cmd/transition/transition.go:47-70 | appends `TransitionEffect`'s calls to the trace and ends as it says; a single attempt with no delay |

## Left out

- `SetupDynamicClient` (kubeconfig and environment lookup, client construction, panic on failure): configuration and I/O. The cluster handle is an input.
- The API server: how UpdateStatus keeps non-status fields, conflict detection, not-found and already-exists. These are foreign calls. The server is the `respond` oracle, and its errors are opaque values.
- Reading the fixture file and decoding YAML or JSON: I/O. The decoded object is an input.
- Logging (pkg/log.go and every log call) and the command wiring of cmd/main.go: side effects and CLI plumbing only.
- `PointerTo` (pkg/utils.go): a generic pointer helper with nothing to state.
- `context.Context` cancellation: handled by the transport.
- `strings.ToLower` is modelled on ASCII only. Unicode case mapping is not modelled.
- JSON numbers are integers. Floating-point values are not modelled.
- Deep copies made by the unstructured helpers: Dafny values are copied implicitly.
- The unstructured accessors (`GetAPIVersion`, `GetKind`, `GetNamespace`, `GetName`, `NestedMap`, `SetNestedMap`) come from the apimachinery library, which is not part of this model. They are modelled by their documented behaviour:
  - a string accessor reads `""` when the field is absent or is not a string;
  - `NestedMap` fails when the key is absent or does not hold a map;
  - `SetNestedMap` on a one-key path cannot fail, so the second error branch of `CopyStatus` and of `UpdateStatusField` is not modelled.
- Error message texts are not modelled. `CopyStatus` and `UpdateStatusField` both report `MissingStatus`.
- Process termination in the `load` and `transition` runs is modelled as the run's outcome `Exited(code)`, not as stopping a process.
- `LoadCmd.ConvertStatusToKeyValue`: on a status string without exactly one `=`, the source calls `log.Fatalf` (cmd/load/load.go:83-85), which ends the process with status 1. The model returns `Err(InvalidStatusFormat(status))` instead, because the function has no caller in the source and so there is no run whose outcome it could end.
- `Fixtures.FixtureLoader.StatusLoad`, `StatusFieldLoad` and `UpdateResourceStatusDynamically` take non-nil coordinates. With nil coordinates the source dereferences them in its own logging (pkg/crud.go:119, pkg/status.go:17) and panics.
- `transition` has a `transitionTime` variable that no flag sets and nothing reads. `load`'s `--time` flag (default 10) is carried in `LoadFlags` and never read. No waiting or polling is modelled, because the source has none.
