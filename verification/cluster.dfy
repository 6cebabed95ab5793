/** An abstract in-memory store standing for the Kubernetes client. A
    reconcile pass concerns one name, so the store holds one optional
    object per kind. Every call can fail: its failure, if any, is given by
    the caller as a fault, and a fault takes precedence over the store's
    own outcome. */
module Cluster {
  import opened Wrappers
  import opened ApplicationTypes
  import opened KubeObjects

  /** What a read returns: the fault, NotFound on an empty slot, or the object. */
  function GetOutcome<T>(fault: Option<Error>, value: Option<T>): (r: Result<T>)
    ensures r.Ok? <==> fault.None? && value.Some?
    ensures r.Ok? ==> r.value == value.value
    ensures r.Err? && fault.None? ==> r.error == NotFound
  {
    if fault.Some? then Err(fault.value)
    else if value.None? then Err(NotFound)
    else Ok(value.value)
  }

  /** The error of a create: the fault, or AlreadyExists on a full slot. */
  function CreateError<T>(fault: Option<Error>, value: Option<T>): (e: Option<Error>)
    ensures e.None? <==> fault.None? && value.None?
    ensures e.Some? && fault.None? ==> e.value == AlreadyExists
  {
    if fault.Some? then fault else if value.Some? then Some(AlreadyExists) else None
  }

  /** The error of an update or a delete: the fault, or NotFound on an empty slot. */
  function ExistingError<T>(fault: Option<Error>, value: Option<T>): (e: Option<Error>)
    ensures e.None? <==> fault.None? && value.Some?
    ensures e.Some? && fault.None? ==> e.value == NotFound
  {
    if fault.Some? then fault else if value.None? then Some(NotFound) else None
  }

  /** The stored Application after a status write of `app`: only the status
      is replaced, and only when the write succeeds. */
  function StatusWritten(stored: Option<Application>, app: Application, fault: Option<Error>): (r: Option<Application>)
    ensures ExistingError(fault, stored).Some? ==> r == stored
    ensures ExistingError(fault, stored).None? ==>
      r.Some? && r.value.status == app.status &&
      r.value.name == stored.value.name && r.value.namespace == stored.value.namespace &&
      r.value.labels == stored.value.labels && r.value.spec == stored.value.spec &&
      r.value.deletionRequested == stored.value.deletionRequested
  {
    if ExistingError(fault, stored).Some? then stored else Some(stored.value.(status := app.status))
  }

  /** The error of building an object and then creating it. */
  function CreatedError<T>(built: Result<T>, fault: Option<Error>, value: Option<T>): (e: Option<Error>)
    ensures e.None? <==> built.Ok? && fault.None? && value.None?
  {
    if built.Err? then Some(built.error) else CreateError(fault, value)
  }

  /** The error of building an object and then writing it over the stored one. */
  function UpdatedError<T>(built: Result<T>, fault: Option<Error>, value: Option<T>): (e: Option<Error>)
    ensures e.None? <==> built.Ok? && fault.None? && value.Some?
  {
    if built.Err? then Some(built.error) else ExistingError(fault, value)
  }

  /** Records the owning Application as controller of an object; `fault`
      is the failure of the scheme lookup, if any. */
  function SetControllerReference(meta: ObjectMeta, ownerName: string, fault: Option<Error>): (r: Result<ObjectMeta>)
    ensures r.Ok? <==> fault.None?
    ensures r.Ok? ==> r.value.owner == Some(ownerName)
    ensures r.Ok? ==> r.value.name == meta.name && r.value.namespace == meta.namespace && r.value.labels == meta.labels
  {
    if fault.Some? then Err(fault.value) else Ok(meta.(owner := Some(ownerName)))
  }

  /** What a child sync leaves behind: the stored child, the stored
      Application, the in-memory Application, and its result and error. */
  datatype SyncOutcome<T> = SyncOutcome(child: Option<T>, stored: Option<Application>, app: Application, result: Option<ReconcileResult>, err: Option<Error>)

  /** One object slot of the store. */
  class Slot<T> {
    var value: Option<T>

    constructor (init: Option<T>)
      ensures value == init
    {
      value := init;
    }

    method Get(fault: Option<Error>) returns (r: Result<T>)
      ensures r == GetOutcome(fault, value)
    {
      if fault.Some? {
        return Err(fault.value);
      }
      if value.None? {
        return Err(NotFound);
      }
      return Ok(value.value);
    }

    method Create(x: T, fault: Option<Error>) returns (err: Option<Error>)
      modifies this
      ensures err == CreateError(fault, old(value))
      ensures value == if err.None? then Some(x) else old(value)
    {
      err := CreateError(fault, value);
      if err.None? {
        value := Some(x);
      }
    }

    method Update(x: T, fault: Option<Error>) returns (err: Option<Error>)
      modifies this
      ensures err == ExistingError(fault, old(value))
      ensures value == if err.None? then Some(x) else old(value)
    {
      err := ExistingError(fault, value);
      if err.None? {
        value := Some(x);
      }
    }

    method Delete(fault: Option<Error>) returns (err: Option<Error>)
      modifies this
      ensures err == ExistingError(fault, old(value))
      ensures value == if err.None? then None else old(value)
    {
      err := ExistingError(fault, value);
      if err.None? {
        value := None;
      }
    }
  }

  /** The objects with the reconciled name, one slot per kind. */
  class Store {
    const applications: Slot<Application>
    const deployments: Slot<Deployment>
    const services: Slot<Service>
    const ingresses: Slot<Ingress>

    constructor (app: Option<Application>, deployment: Option<Deployment>, service: Option<Service>, ingress: Option<Ingress>)
      ensures applications.value == app && deployments.value == deployment
      ensures services.value == service && ingresses.value == ingress
      ensures fresh(applications) && fresh(deployments) && fresh(services) && fresh(ingresses)
    {
      applications := new Slot(app);
      deployments := new Slot(deployment);
      services := new Slot(service);
      ingresses := new Slot(ingress);
    }

    /** Writes the status subresource of the stored Application. */
    method UpdateStatus(app: Application, fault: Option<Error>) returns (err: Option<Error>)
      modifies applications
      ensures err == ExistingError(fault, old(applications.value))
      ensures applications.value == StatusWritten(old(applications.value), app, fault)
    {
      err := ExistingError(fault, applications.value);
      if err.None? {
        applications.value := Some(applications.value.value.(status := app.status));
      }
    }
  }

  /** The outcome of every store call a reconcile pass can make, each `None`
      when the call goes through. */
  datatype Faults = Faults(
    appGet: Option<Error>,
    childGet: Option<Error>,
    ownerRef: Option<Error>,
    create: Option<Error>,
    update: Option<Error>,
    delete: Option<Error>,
    refetch: Option<Error>,
    statusWrite: Option<Error>)

  const NoFaults := Faults(None, None, None, None, None, None, None, None)
}
