# Blacksmith service broker: lifecycle model

This project models the lifecycle core of the Blacksmith service broker
(`broker.go`). The broker serves the Open Service Broker API. It deploys
each service instance as a BOSH deployment. In the Vault it keeps one
operation record per instance: which flow wrote it (`provision` or
`deprovision`), the BOSH task id it waits on, and the credentials generated
for the instance.

The model has three modules:

- `Types` (`types.dfy`) holds the values: services and plans, provision
  details, Vault records, BOSH tasks, and the broker API replies.
  It also describes each outside call by its outcome:
  - `Director` gives the result of `GetInfo` and the results of
    `CreateDeployment`, `DeleteDeployment` and `GetTask` as functions of
    their arguments.
  - `Generator` stands for manifest generation.
- `Plans` (`plans.dfy`) holds the plan table.
  - `PlanKey` builds the composite key `"<a>/<b>"`.
  - `FindPlan` looks a key up.
  - `PlanTable` says which table loading produces: every plan of every
    service is written in order under `"<serviceID>/<planID>"`.
  - Lemmas characterise the table: which keys it holds, that the last
    write to a key wins, and the round trip from loading to the lookup
    that provisioning does.
- `Lifecycle` (`lifecycle.dfy`) holds the class `Broker`.
  - Fields: `catalog`, `plans`, and `ledger`, which is the Vault as a map
    from instance id to record.
  - Two ghost fields record what the broker did on BOSH: `requests` logs
    each deployment or teardown sent to the director, and `accepted` holds
    each request the director accepted, paired with its task id.
  - The methods follow the Go code branch by branch. A Vault write may
    fail (`trackOk`) and a Vault delete may fail (`clearOk`).
  - `TracksAcceptedWork` is an invariant that every operation preserves.
    Every provision record waits on a task the director accepted for a
    deployment. Every deprovision record waits on a task the director
    accepted for the teardown of that same instance.
- `Scenarios` (`scenarios.dfy`) drives one instance through a fresh broker.
  It provisions, binds twice, polls, deprovisions, and polls twice more.

The code's behaviour in a few places is not what one might expect. The
model keeps it:

- `Provision` calls `FindPlan(details.ServiceID, details.PlanID)`, but
  `FindPlan` names its parameters `(planID, serviceID)`. The two swaps
  cancel. The lookup key is `"<serviceID>/<planID>"`, the same key that
  loading writes (`ProvisionFindsLoadedPlan`).
- `Bind` ignores the Vault's error and never fails. With no record it
  returns the absent credentials (`Nil`); it does not report that the
  instance is missing.
- With no record, `LastOperation` sees the empty kind and fails with
  `invalid state type ''`.
- A failed `GetInfo` is reported with the manifest-generation message.
- `Provision` reports a failed Vault write. `Deprovision` ignores one.
- The two flows may name different deployments; this is read from the
  code and not proved. `Provision` passes the parameter
  `name = plan.name + "-" + instanceID` to manifest generation.
  `Deprovision` tears down the deployment named `instanceID`. If a
  template uses `name` as the deployment name, the teardown targets a
  deployment that provisioning never created. Manifests are opaque here,
  so the model cannot decide this either way.
- Keys are joined with `/`, so identifiers that contain `/` can collide.
  The plan written later then shadows the earlier one
  (`SlashInIdentifiersCollides`). Without a `/` in the service id, the key
  determines both identifiers (`KeyInjective`).

The Vault's source is not part of this model. `Broker.State` assumes that
for an instance with no record, `State` returns Go's zero values: empty
kind, task 0, nil credentials. It also assumes that a failed `Track` or
`Clear` leaves the Vault as it was.

## Model

| member | source | states |
|---|---|---|
| `Plans.FindPlan` | broker.go:33-41 | The lookup succeeds exactly when `"<planID>/<serviceID>"` (the parameters in their declared order) is a key of the table. It then returns that entry. Otherwise it fails with `plan <key> not found`. The table is only read. |
| `Plans.AddPlansKeys` | broker.go:57-60 | After one service's plans are written, a key is present exactly when it was present before or some plan of that service is written under it. |
| `Plans.AddPlansUntouched` | broker.go:57-60 | A key that none of the service's plans is written under keeps its presence and its value. |
| `Plans.AddPlansLast` | broker.go:57-60 | A key written by several plans of one service holds the last of them. |
| `Plans.PlanTableKeys` | broker.go:55-61 | The loaded table holds a key exactly when some plan `j` of some service `i` is written under it: `"<ss[i].id>/<ss[i].plans[j].id>"`. |
| `Plans.PlanTableLastWins` | broker.go:55-61 | When several service/plan pairs share a key, the table holds the plan written last, in service order and then plan order. |
| `Plans.LastPlanIndex` | broker.go:57-60 | Among one service's plans that are written under a key, there is a last one: no later plan of that service uses the key. |
| `Plans.PlanTableHasLastWriter` | broker.go:55-61 | Every key of the loaded table has a last writer, and the key holds that writer's plan. So the table holds only plans that were written under their own key. |
| `Plans.ProvisionFindsLoadedPlan` | broker.go:55-70 | Round trip. Load services, then call `FindPlan(table, s.id, p.id)` with the arguments swapped as at line 70. This always finds a plan under `"<s.id>/<p.id>"`. It finds exactly `p` unless a later write used the same key. |
| `Plans.ProvisionMissesUnloadedPlan` | broker.go:70-74 | A service/plan pair that no loaded plan is written under fails the lookup with `plan <serviceID>/<planID> not found`. |
| `Plans.KeyInjective` | broker.go:59 | If neither first component contains `/`, equal composite keys have equal service ids and equal plan ids. |
| `Plans.SlashInIdentifiersCollides` | broker.go:59 | Service `a/b` with plan `c` and service `a` with plan `b/c` share the key `a/b/c`. After loading, the lookup for the first pair returns the second pair's plan. |
| `Lifecycle.Broker.State` | broker.go:122 | This is the Vault read that `LastOperation` (broker.go:122) and `Bind` (broker.go:176) make. It returns the instance's record. With no record it returns Go's zero values: empty kind, task 0, nil credentials. The Vault's source is not part of this model, so the zero record is an assumption. Two results follow from it: `LastOperation` fails with `invalid state type ''`, and `Bind` returns `Nil`. |
| `Lifecycle.Broker.ReadServices` | broker.go:48-64 | A failed load returns its error and changes nothing. A successful load sets the catalog to the loaded services and the plan table to exactly `PlanTable` of them, which replaces any earlier table. The ledger and the BOSH log are untouched. |
| `Lifecycle.Broker.Provision` | broker.go:66-106 | The reply is always asynchronous. The steps run in order, and the first failure stops the call: a missing plan returns the lookup error; a failed `GetInfo` or a failed manifest generation returns the manifest-generation message; a failed deployment submit returns `backend BOSH deployment failed`; a failed Vault write returns `Vault tracking failed`. Every failure leaves the ledger unchanged. Generation gets `name = plan.name + "-" + instanceID` and `director_uuid = info.uuid`. Exactly one deployment request, for the generated manifest, is sent once generation succeeds, and none before. On success the record for the instance becomes `(provision, task id, generated creds)`, overwriting any earlier one, and all other records stay the same. The director's acceptance is added to `accepted`, and the invariant `TracksAcceptedWork` is preserved. |
| `Lifecycle.Broker.Deprovision` | broker.go:108-119 | The reply is always asynchronous. One teardown request is sent for the instance, and no prior record is required. A failed teardown returns the director's error and writes nothing. A successful teardown returns no error, whatever the Vault write does. If the write succeeds, the record becomes `(deprovision, task id, nil)`; other records do not change. The director's acceptance is added to `accepted`, and the invariant `TracksAcceptedWork` is preserved. |
| `Lifecycle.Broker.LastOperation` | broker.go:121-170 | A record of kind `provision` or `deprovision` has its task polled. If the poll fails, the call returns `unrecognized backend BOSH task` and changes nothing. Otherwise `done` is reported as `succeeded`, `error` as `failed`, and any other state as `in progress`. The record is removed only for a deprovision whose task is `done` or `error` (when the Vault delete succeeds). Any other kind, including a missing record, gives `invalid state type '<kind>'`. Only the ledger may change; no work is sent to the director. |
| `Lifecycle.Broker.Bind` | broker.go:172-181 | Never fails and changes nothing. Returns the recorded credentials verbatim, or nil when there is no record. |
| `Lifecycle.Broker.Unbind` | broker.go:183-185 | Always succeeds. |
| `Lifecycle.Broker.Update` | broker.go:187-190 | Always fails with `not implemented`, and reports itself as not asynchronous. |
| `Scenarios.InstanceLifecycle` | broker.go:66-170 | On a fresh broker: provisioning a loaded plan succeeds, and two binds return the generated credentials. A done deployment polls as `succeeded`. After a deprovision, a task in `error` polls as `failed` and clears the record. The next poll fails with `invalid state type ''`. |

## Left out

- Logging: `Debugf`, the `Debugging` flag read from the environment, and every `log.Printf`. They are output only.
- `Services()` is a getter that returns the catalog. It is not modelled separately.
- `ReadServices(dir...)`, the free function that loads the service files, is file input. Its result is the `loaded` argument of `Broker.ReadServices`.
- `Catalog(ss)`, the conversion to the broker API's catalog format, is not modelled. The `catalog` field holds the loaded services themselves.
- The BOSH client (`GetInfo`, `CreateDeployment`, `DeleteDeployment`, `GetTask`) is a network client. Each call is given only by its outcome in `Director`.
- `GenManifest` (template rendering and credential generation) is given only by its outcome, through the `Generator` argument. Manifests and credentials are opaque values.
- The Vault client is a network store and is modelled as the `ledger` map. Vault errors on the two `State` reads are not modelled: the Go code discards them, so a failed read shows up as the zero record.
- The `asyncAllowed` flags, the binding, unbinding and update details, and the provision fields other than the service and plan ids are all unused by the code and are left out.
- `bindingID` is kept as a parameter of `Bind` and `Unbind` but is ignored. The code uses it only in its log lines (broker.go:174, broker.go:179).
- Concurrency between requests is left out. The broker takes no locks; the model is single-threaded.
- `shield/shield.go`, the SHIELD backup client, is not part of this model. `broker.go` does not call it.
