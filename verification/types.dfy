/** Values the service broker works with: the loaded service definitions,
    the broker API's request and response shapes, the per-instance
    operation record kept in the Vault, and the results of the calls the
    broker makes on its collaborators (the BOSH director and the manifest
    generator), which are passed in rather than performed. */
module Types {

  datatype Option<+T> = None | Some(value: T)

  /** A call that either yields a value or fails with an error message. */
  datatype Result<+T> = Ok(value: T) | Err(msg: string)

  /** A plan of a service, as loaded from the service files. */
  datatype Plan = Plan(id: string, name: string, template: string)

  /** A service and the plans it offers. */
  datatype Service = Service(id: string, plans: seq<Plan>)

  /** The identifiers of a provision request that the broker reads. */
  datatype ProvisionDetails = ProvisionDetails(serviceID: string, planID: string)

  /** Generated credentials; `Nil` is the absent credentials value. */
  datatype Creds = Nil | Values(entries: map<string, string>)

  /** The Vault's record for one instance: which flow wrote it, the BOSH
      task it is waiting on, and the credentials generated at provision time. */
  datatype Record = Record(kind: string, taskID: int, creds: Creds)

  /** The kinds of record the broker writes. */
  const ProvisionKind: string := "provision"
  const DeprovisionKind: string := "deprovision"

  /** A BOSH task handle and its state ("done", "error", or anything else). */
  datatype Task = Task(id: int, state: string)

  /** What the BOSH director reports about itself. */
  datatype Info = Info(uuid: string)

  /** The outcome of each call the broker may make on the BOSH director. */
  datatype Director = Director(
    info: Result<Info>,
    createDeployment: string -> Result<Task>,
    deleteDeployment: string -> Result<Task>,
    getTask: int -> Result<Task>)

  /** A rendered deployment manifest and the credentials generated with it. */
  datatype Generated = Generated(manifest: string, creds: Creds)

  /** Manifest generation from a plan and its template parameters. */
  type Generator = (Plan, map<string, string>) -> Result<Generated>

  /** Work the broker asks the BOSH director to perform. */
  datatype Request = Deploy(manifest: string) | Teardown(deployment: string)

  /** Broker API responses. */
  datatype ProvisionedServiceSpec = ProvisionedServiceSpec(isAsync: bool)
  datatype LastOperationState = LastOperationState(state: string)
  datatype Binding = Binding(credentials: Creds)
}
