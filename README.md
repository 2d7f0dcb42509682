# DBCluster lifecycle adapter, modelled in Dafny

This project models the hooks that customise Crossplane's generic managed
reconciler for the RDS `DBCluster` resource of provider-aws
(`pkg/controller/rds/dbcluster/setup.go`). The reconciler calls these hooks
around each RDS request. They shape the describe, create, modify and delete
requests, turn the described status into a Ready condition, decide whether an
update is needed, narrow a describe response to one cluster, and provision the
master password. Provisioning reads a Kubernetes secret, may generate a
password, stores it with a get-then-create-or-update upsert, and later builds
the connection details.

Layout:

- `common.dfy` (`Common`): `Option` for Go pointers, `Result`, the error kinds
  (`NotFound`, `AlreadyExists`, an opaque `Failed`, and `Wrapped` for
  `errors.Wrap`), `Cause`/`IsNotFound` as `resource.IgnoreNotFound` sees
  errors, and `aws.StringValue`/`aws.BoolValue`.
- `kube.dfy` (`Kube`): the two external collaborators. `SecretStore` is a class
  over `map<NamespacedName, map<string, string>>`. It has a `Get` that can fail
  with NotFound or an opaque error, `Create`/`Update` methods that can fail,
  and a log of the write requests it received. `PasswordGenerator` is an
  oracle: the environment fixes its next outcome, and it counts its calls.
  `GetPassword` models the lookup the hooks get from `pkg/clients/rds`.
- `types.dfy` (`Types`): the managed resource (a class whose conditions the
  hooks set), crossplane's Ready conditions, the observation and creation
  results, the SDK responses as datatypes and the SDK requests as classes
  whose fields the hooks assign in place.
- `setup.dfy` (`DbCluster`): the hooks and the lemmas about them.
- `scenarios.dfy` (`Scenarios`): end-to-end flows proved from the hooks'
  contracts alone.

External inputs become parameters. The secret store's contents and refusals,
and the generator's outcome, are fields fixed by the caller. The request
objects are built by the caller, and the RDS responses are passed in as values.

## Model

| member | source | states |
|---|---|---|
| `DbCluster.PreObserve` | pkg/controller/rds/dbcluster/setup.go:68-71 | The describe request's cluster identifier becomes the external name; no error. |
| `DbCluster.StatusCondition` | pkg/controller/rds/dbcluster/setup.go:81-88 | "available"/"modifying" give Available, "deleting"/"stopped"/"stopping" give Unavailable, "creating" gives Creating, each as an if-and-only-if. Every other status gives no condition. Every condition given is of type Ready. |
| `DbCluster.PostObserve` | pkg/controller/rds/dbcluster/setup.go:77-90 | A failed observation returns the empty observation and the same error, leaving the conditions alone. Otherwise the first cluster's status sets the Ready condition as `StatusCondition` says (conditions unchanged for an unmapped status), and the observation is returned as given, with no error. |
| `DbCluster.UpsertCases` | pkg/controller/rds/dbcluster/setup.go:182-216 | The upsert case by case. No reference means an error and no write. A refused read means the get-failed error and no write. An absent secret gets one create request carrying `{key: pw}`. A present one gets one update request carrying its existing data with `pw` set under the key. The upsert succeeds exactly when a reference is given and both the read and the write are allowed. |
| `DbCluster.SavePasswordSecret` | pkg/controller/rds/dbcluster/setup.go:181-218 | Its error, the write requests sent and the new store contents match the upsert specification. On success only the referenced secret changes. It then holds `pw` under the key, keeps its other keys, and reading the password back gives `pw`. On any failure the secrets are unchanged. |
| `DbCluster.PreCreate` | pkg/controller/rds/dbcluster/setup.go:97-118 | A read error other than NotFound aborts with the wrapped error, changing nothing and not calling the generator. The generator is called once when the retrieved password is "" and autogeneration is true, and not called otherwise. Without generation the retrieved password is used and the store is not touched. A generation error aborts with no write. A generated password is upserted, and a save error aborts with the wrapped error and no change to the request. After a successful save, the password reads back from the secret. On success the request carries the password, the external name and the spec's security groups (same length, same elements, in order). |
| `DbCluster.PreCreateGeneratesAtMostOnce` | pkg/controller/rds/dbcluster/setup.go:98-110 | For every resource, store and generator: after a create hook that succeeded, a repeated one makes at most one generator call in all, succeeds, and sends the same password. The one exception is a generator that produced "". |
| `DbCluster.PostCreate` | pkg/controller/rds/dbcluster/setup.go:120-140 | A failed create returns the empty creation and the same error. A read error other than NotFound returns the empty creation and the wrapped error. Otherwise the details have exactly the endpoint, username and password slots. The endpoint comes from the observed endpoint and the username from the spec. The password is the secret's if non-empty, else the create response's pending master password. |
| `DbCluster.IsUpToDate` | pkg/controller/rds/dbcluster/setup.go:142-153 | Never an error. True for "modifying", "upgrading" or "configuring-iam-database-auth" whatever the flags say. For any other status it is true exactly when the desired and observed IAM-auth flags agree, with nil read as false. |
| `DbCluster.PreUpdate` | pkg/controller/rds/dbcluster/setup.go:155-160 | The modify request gets the external name and the spec's apply-immediately pointer, copied verbatim; no error. |
| `DbCluster.PreDelete` | pkg/controller/rds/dbcluster/setup.go:162-167 | The delete request gets the external name, the final snapshot identifier and the skip-final-snapshot flag from the spec. The hook always returns false (not terminal) and no error. |
| `DbCluster.FirstWithIdentifierSpec` | pkg/controller/rds/dbcluster/setup.go:172-177 | The filtered list has at most one cluster. It is empty exactly when no cluster has the identifier. When index i is the first cluster with the identifier, it is exactly that cluster. |
| `DbCluster.FilterList` | pkg/controller/rds/dbcluster/setup.go:169-179 | The loop that appends and breaks returns exactly the list `FirstWithIdentifier` specifies for the external name; the input is a value and is not changed. |
| `Scenarios.AutogeneratedPasswordFlow` | pkg/controller/rds/dbcluster/setup.go:97-139 | With no secret and autogeneration on: one password is generated and one create request stores it; the create request carries it. A repeated create reuses it without generating again, and the connection details carry it. |
| `Scenarios.ExistingPasswordFlow` | pkg/controller/rds/dbcluster/setup.go:97-139 | With a secret holding "P1", the request and the connection details carry "P1"; nothing is generated and nothing is written. |
| `Scenarios.ExistingSecretWithoutPasswordFlow` | pkg/controller/rds/dbcluster/setup.go:196-212 | A secret that exists with only the key "other": the generated password is sent, and one update request stores it next to "other", which keeps its value. |
| `Scenarios.FilterListFlow` | pkg/controller/rds/dbcluster/setup.go:169-179 | Among clusters "a", "b", "c", the filter keeps exactly "b" for the target "b" and nothing for the target "z". |

The upsert's meaning is stated by `UpsertCases`, case by case in terms of the
store. `SaveError`, `SavedData` and `SaveWrites` are the functions that carry it
into the contracts of `SavePasswordSecret` and `PreCreate`.

Indexing that the source does without a check is a precondition. `PostObserve`
and `IsUpToDate` read `DBClusters[0]` unchecked, so they need a non-empty
list; the hooks rely on their caller for that. `PostCreate`
dereferences the pending master password only when the secret gave "", so it
needs that value present exactly in that case.

## Left out

- `SetupDBCluster` (setup.go:39-66): controller-runtime wiring (manager, rate limiter, poll interval, logger, event recorder), with no decision logic.
- The generic managed reconciler, the connector and the AWS SDK client: the hooks never call RDS themselves; the model takes requests and responses as inputs.
- `rds.GetPassword` is not part of this model beyond `Kube.GetPassword`, an abstract lookup: no selector or a missing key gives "", and a failed read gives the store's error. Its comparison with the connection secret (the discarded `changed` result) is not modelled.
- `password.Generate` is an oracle whose outcome the environment fixes. Randomness and password strength are not modelled.
- Kubernetes secret semantics beyond get/create/update: resource versions, update conflicts, and the split between `Data` and `StringData`. A secret is one string map. The object the upsert sends is what the get found, with `pw` set under the key, so an update keeps the secret's other keys.
- `context.Context`, cancellation, and concurrent writers between the get and the write of the upsert. The model is single-threaded.
- Reads of the secret store are functions, so "reads no secret" on the error path of `PostCreate` is not observable. The contract shows instead that the result on that path does not depend on the store.
- Connection detail values are strings; their conversion to bytes is not modelled.
- The last-transition time that crossplane stamps on a condition is not modelled. Setting a condition replaces the condition of the same type.
- Conditions are a map from condition type to condition. Crossplane keeps an ordered list, appending a new type at the end and keeping an equal condition with its old timestamp. That order is not modelled; no hook depends on it.
- Error messages are modelled as the source's constant strings placed in `Wrapped`; the text an error prints is not modelled.
