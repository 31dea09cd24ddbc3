/** The broker's lifecycle operations on service instances. The broker
    keeps the loaded catalog and plan table and, in the Vault, one
    operation record per instance; it asks the BOSH director to deploy and
    tear down instances and polls the director's tasks to report progress.
    Every call on the director, the manifest generator or the Vault is an
    argument here, so each of its outcomes can be chosen by the caller. */
module Lifecycle {
  import opened Types
  import opened Plans

  const ManifestFailed: string := "BOSH deployment manifest generation failed"
  const DeploymentFailed: string := "backend BOSH deployment failed"
  const TrackingFailed: string := "Vault tracking failed"
  const UnrecognizedTask: string := "unrecognized backend BOSH task"
  const NotImplemented: string := "not implemented"

  /** The template parameters provisioning hands to manifest generation. */
  function TemplateParams(plan: Plan, instanceID: string, info: Info): map<string, string>
  {
    map["name" := plan.name + "-" + instanceID, "director_uuid" := info.uuid]
  }

  /** The state reported to the platform for a polled task state. */
  function Reported(taskState: string): string
  {
    if taskState == "done" then "succeeded"
    else if taskState == "error" then "failed"
    else "in progress"
  }

  /** A task state after which the director does no more work. */
  predicate Terminal(taskState: string)
  {
    taskState == "done" || taskState == "error"
  }

  /** The error for a record whose kind the broker does not know. */
  function InvalidStateType(kind: string): string
  {
    "invalid state type '" + kind + "'"
  }

  class Broker {
    var catalog: seq<Service>
    var plans: map<string, Plan>
    /** The Vault's records, by instance id. */
    var ledger: map<string, Record>
    /** The work requests sent to the director, in order. */
    ghost var requests: seq<Request>
    /** The work requests the director accepted, each with its task handle. */
    ghost var accepted: set<(Request, int)>

    /** The record was written for work the director accepted: a provision
        record waits on a task accepted for a deployment, a deprovision
        record on a task accepted for the teardown of that same instance. */
    ghost predicate RecordAccepted(instanceID: string, r: Record)
      reads this
    {
      (r.kind == ProvisionKind && exists a :: a in accepted && a.0.Deploy? && a.1 == r.taskID) ||
      (r.kind == DeprovisionKind && (Teardown(instanceID), r.taskID) in accepted)
    }

    /** Every record in the ledger was written for work the director accepted. */
    ghost predicate TracksAcceptedWork()
      reads this
    {
      forall id :: id in ledger ==> RecordAccepted(id, ledger[id])
    }

    constructor ()
      ensures catalog == [] && plans == map[] && ledger == map[]
      ensures requests == [] && accepted == {}
      ensures TracksAcceptedWork()
    {
      catalog, plans, ledger := [], map[], map[];
      requests, accepted := [], {};
    }

    /** The record the Vault reports for an instance; the zero record when
        it holds none. */
    function State(instanceID: string): (r: Record)
      reads this
      ensures instanceID in ledger ==> r == ledger[instanceID]
      ensures instanceID !in ledger ==> r.kind == "" && r.taskID == 0 && r.creds == Nil
    {
      if instanceID in ledger then ledger[instanceID] else Record("", 0, Nil)
    }

    /** Replaces the catalog and the plan table by those of the loaded
        services; a failed load changes nothing. */
    method ReadServices(loaded: Result<seq<Service>>) returns (err: Option<string>)
      modifies this`catalog, this`plans
      ensures loaded.Err? ==> err == Some(loaded.msg) && catalog == old(catalog) && plans == old(plans)
      ensures loaded.Ok? ==> err == None && catalog == loaded.value && plans == PlanTable(loaded.value)
    {
      if loaded.Err? {
        return Some(loaded.msg);
      }
      var ss := loaded.value;
      catalog := ss;
      plans := map[];
      for i := 0 to |ss|
        invariant catalog == ss
        invariant plans == PlanTable(ss[..i])
      {
        var s := ss[i];
        for j := 0 to |s.plans|
          invariant catalog == ss
          invariant plans == AddPlans(PlanTable(ss[..i]), s.id, s.plans[..j])
        {
          var p := s.plans[j];
          assert s.plans[..j + 1][..j] == s.plans[..j];
          plans := plans[PlanKey(s.id, p.id) := p];
        }
        assert s.plans[..|s.plans|] == s.plans;
        assert ss[..i + 1][..i] == ss[..i];
      }
      assert ss[..|ss|] == ss;
      return None;
    }

    /** Looks the plan up, fetches the director's info, generates the
        manifest, submits the deployment and records it in the Vault,
        stopping at the first step that fails. The reply is asynchronous
        on every path. */
    method Provision(instanceID: string, details: ProvisionDetails, director: Director,
                     generate: Generator, trackOk: bool)
      returns (spec: ProvisionedServiceSpec, err: Option<string>)
      modifies this`ledger, this`requests, this`accepted
      ensures spec.isAsync
      ensures old(TracksAcceptedWork()) ==> TracksAcceptedWork()
      ensures var found := FindPlan(plans, details.serviceID, details.planID);
        found.Err? ==>
          err == Some(found.msg) && ledger == old(ledger) && requests == old(requests) &&
          accepted == old(accepted)
      ensures var found := FindPlan(plans, details.serviceID, details.planID);
        found.Ok? && director.info.Err? ==>
          err == Some(ManifestFailed) && ledger == old(ledger) && requests == old(requests) &&
          accepted == old(accepted)
      ensures var found := FindPlan(plans, details.serviceID, details.planID);
        found.Ok? && director.info.Ok? ==>
          var gen := generate(found.value, TemplateParams(found.value, instanceID, director.info.value));
          (gen.Err? ==>
             err == Some(ManifestFailed) && ledger == old(ledger) && requests == old(requests) &&
             accepted == old(accepted)) &&
          (gen.Ok? ==>
             requests == old(requests) + [Deploy(gen.value.manifest)] &&
             var task := director.createDeployment(gen.value.manifest);
             (task.Err? ==>
                err == Some(DeploymentFailed) && ledger == old(ledger) && accepted == old(accepted)) &&
             (task.Ok? ==> accepted == old(accepted) + {(Deploy(gen.value.manifest), task.value.id)}) &&
             (task.Ok? && !trackOk ==> err == Some(TrackingFailed) && ledger == old(ledger)) &&
             (task.Ok? && trackOk ==>
                err == None &&
                ledger == old(ledger)[instanceID := Record(ProvisionKind, task.value.id, gen.value.creds)]))
    {
      spec := ProvisionedServiceSpec(true);
      var found := FindPlan(plans, details.serviceID, details.planID);
      if found.Err? {
        return spec, Some(found.msg);
      }
      var plan := found.value;
      if director.info.Err? {
        return spec, Some(ManifestFailed);
      }
      var gen := generate(plan, TemplateParams(plan, instanceID, director.info.value));
      if gen.Err? {
        return spec, Some(ManifestFailed);
      }
      requests := requests + [Deploy(gen.value.manifest)];
      var task := director.createDeployment(gen.value.manifest);
      if task.Err? {
        return spec, Some(DeploymentFailed);
      }
      accepted := accepted + {(Deploy(gen.value.manifest), task.value.id)};
      if !trackOk {
        return spec, Some(TrackingFailed);
      }
      ledger := ledger[instanceID := Record(ProvisionKind, task.value.id, gen.value.creds)];
      return spec, None;
    }

    /** Submits the teardown of the instance's deployment and records it in
        the Vault; only a failed submission is reported, a failed Vault
        write is not. No prior record is needed. */
    method Deprovision(instanceID: string, director: Director, trackOk: bool)
      returns (isAsync: bool, err: Option<string>)
      modifies this`ledger, this`requests, this`accepted
      ensures isAsync
      ensures old(TracksAcceptedWork()) ==> TracksAcceptedWork()
      ensures requests == old(requests) + [Teardown(instanceID)]
      ensures var task := director.deleteDeployment(instanceID);
        task.Err? ==> err == Some(task.msg) && ledger == old(ledger) && accepted == old(accepted)
      ensures var task := director.deleteDeployment(instanceID);
        task.Ok? ==>
          err == None &&
          accepted == old(accepted) + {(Teardown(instanceID), task.value.id)} &&
          ledger == if trackOk then old(ledger)[instanceID := Record(DeprovisionKind, task.value.id, Nil)]
                    else old(ledger)
    {
      requests := requests + [Teardown(instanceID)];
      var task := director.deleteDeployment(instanceID);
      if task.Err? {
        return true, Some(task.msg);
      }
      accepted := accepted + {(Teardown(instanceID), task.value.id)};
      if trackOk {
        ledger := ledger[instanceID := Record(DeprovisionKind, task.value.id, Nil)];
      }
      return true, None;
    }

    /** Reports the progress of the instance's recorded operation by
        polling its task; a finished or failed teardown clears the record.
        Only the ledger may change: no work is sent to the director. */
    method LastOperation(instanceID: string, director: Director, clearOk: bool)
      returns (op: LastOperationState, err: Option<string>)
      modifies this`ledger
      ensures old(TracksAcceptedWork()) ==> TracksAcceptedWork()
      ensures var r := old(State(instanceID));
        r.kind != ProvisionKind && r.kind != DeprovisionKind ==>
          op == LastOperationState("") && err == Some(InvalidStateType(r.kind)) && ledger == old(ledger)
      ensures var r := old(State(instanceID));
        (r.kind == ProvisionKind || r.kind == DeprovisionKind) && director.getTask(r.taskID).Err? ==>
          op == LastOperationState("") && err == Some(UnrecognizedTask) && ledger == old(ledger)
      ensures var r := old(State(instanceID));
        var task := director.getTask(r.taskID);
        (r.kind == ProvisionKind || r.kind == DeprovisionKind) && task.Ok? ==>
          err == None && op == LastOperationState(Reported(task.value.state)) &&
          ledger == if r.kind == DeprovisionKind && Terminal(task.value.state) && clearOk
                    then old(ledger) - {instanceID} else old(ledger)
    {
      var r := State(instanceID);
      if r.kind == ProvisionKind {
        var task := director.getTask(r.taskID);
        if task.Err? {
          return LastOperationState(""), Some(UnrecognizedTask);
        }
        if task.value.state == "done" {
          return LastOperationState("succeeded"), None;
        }
        if task.value.state == "error" {
          return LastOperationState("failed"), None;
        }
        return LastOperationState("in progress"), None;
      }
      if r.kind == DeprovisionKind {
        var task := director.getTask(r.taskID);
        if task.Err? {
          return LastOperationState(""), Some(UnrecognizedTask);
        }
        if task.value.state == "done" {
          if clearOk {
            ledger := ledger - {instanceID};
          }
          return LastOperationState("succeeded"), None;
        }
        if task.value.state == "error" {
          if clearOk {
            ledger := ledger - {instanceID};
          }
          return LastOperationState("failed"), None;
        }
        return LastOperationState("in progress"), None;
      }
      return LastOperationState(""), Some(InvalidStateType(r.kind));
    }

    /** Returns the instance's recorded credentials verbatim, or the absent
        credentials when there is no record; never fails, changes nothing. */
    method Bind(instanceID: string, bindingID: string) returns (binding: Binding, err: Option<string>)
      ensures err == None
      ensures instanceID in ledger ==> binding.credentials == ledger[instanceID].creds
      ensures instanceID !in ledger ==> binding.credentials == Nil
    {
      var r := State(instanceID);
      binding := Binding(r.creds);
      return binding, None;
    }

    /** Unbinding does nothing and always succeeds. */
    method Unbind(instanceID: string, bindingID: string) returns (err: Option<string>)
      ensures err == None
    {
      return None;
    }

    /** Updating is not supported: it always fails, synchronously. */
    method Update(instanceID: string) returns (isAsync: bool, err: Option<string>)
      ensures !isAsync && err == Some(NotImplemented)
    {
      return false, Some(NotImplemented);
    }
  }
}
