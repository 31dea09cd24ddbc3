/** A whole instance lifecycle driven through a fresh broker, with a
    director whose answers are fixed in advance: what a platform sees when
    it provisions, binds, polls, deprovisions and polls again. */
module Scenarios {
  import opened Types
  import opened Plans
  import opened Lifecycle

  /** A director that accepts deployments as task 1 and teardowns as
      task 2, reports task 1 done and task 2 failed, and knows no other task. */
  function FixedDirector(): Director
  {
    Director(
      Ok(Info("director-uuid")),
      manifest => Ok(Task(1, "queued")),
      deployment => Ok(Task(2, "queued")),
      id => if id == 1 then Ok(Task(1, "done"))
            else if id == 2 then Ok(Task(2, "error"))
            else Err("task not found"))
  }

  /** Provisions instance "i1" of plan `p` of service "s1", binds twice,
      polls the finished deployment, deprovisions, polls the failed
      teardown and polls once more after the record has been cleared. */
  method InstanceLifecycle(p: Plan, creds: Creds)
    returns (provisioned: Option<string>, bound: Creds, boundAgain: Creds,
             afterDeploy: string, afterTeardown: string, cleared: bool, lastError: Option<string>)
    ensures provisioned == None
    ensures bound == creds && boundAgain == creds
    ensures afterDeploy == "succeeded" && afterTeardown == "failed"
    ensures cleared && lastError == Some(InvalidStateType(""))
  {
    var b := new Broker();
    var ss := [Service("s1", [p])];
    var loadErr := b.ReadServices(Ok(ss));
    assert forall i, j :: WrittenAt(ss, i, j, PlanKey("s1", p.id)) ==> i == 0 && j == 0;
    ProvisionFindsLoadedPlan(ss, 0, 0);

    var director := FixedDirector();
    var generate: Generator := (plan, params) => Ok(Generated("manifest", creds));
    var spec;
    spec, provisioned := b.Provision("i1", ProvisionDetails("s1", p.id), director, generate, true);
    assert b.ledger["i1"] == Record(ProvisionKind, 1, creds);

    var binding, bindErr := b.Bind("i1", "b1");
    bound := binding.credentials;
    binding, bindErr := b.Bind("i1", "b2");
    boundAgain := binding.credentials;

    var op, pollErr := b.LastOperation("i1", director, true);
    afterDeploy := op.state;
    assert "i1" in b.ledger;

    var isAsync, deErr := b.Deprovision("i1", director, true);
    assert b.ledger["i1"] == Record(DeprovisionKind, 2, Nil);

    op, pollErr := b.LastOperation("i1", director, true);
    afterTeardown := op.state;
    cleared := "i1" !in b.ledger;

    op, lastError := b.LastOperation("i1", director, true);
  }
}
