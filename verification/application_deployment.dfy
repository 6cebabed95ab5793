/** The Deployment of an Application: how it is built and how one
    reconcile pass brings the stored Deployment in line with it
    (internal/controller/application_deployment.go). */
module ApplicationDeployment {
  import opened Wrappers
  import opened NetworkingTypes
  import opened RuntimeTypes
  import opened Runtime
  import opened Labels
  import opened ApplicationTypes
  import opened KubeObjects
  import opened Cluster
  import opened ApplicationStatus

  const VersionKey := "app.kubernetes.io/version"
  const ContainerName := "application"

  /** The pod labels, which are also the selector: the instance, the image
      tag as version, and the two provenance labels. */
  function DeploymentLabels(app: Application): Labels {
    map[
      InstanceKey := "application-" + app.name,
      VersionKey := app.spec.runtime.image.tag,
      PartOfKey := PartOfValue,
      CreatedByKey := CreatedByValue]
  }

  /** The single container of the pod. */
  function ApplicationContainer(app: Application, resources: ResourceRequirements): Container {
    Container(
      ContainerName,
      app.spec.runtime.image.reference,
      PullIfNotPresent,
      SecurityContext(true, false, ["ALL"]),
      ContainerPorts(app.spec.endpoints),
      app.spec.launchCommand,
      resources)
  }

  /** buildDeployment: fails on an invalid runtime size and, after that,
      when the owner reference cannot be recorded. */
  function BuildDeployment(app: Application, ownerFault: Option<Error>): (r: Result<Deployment>)
    ensures r.Ok? <==> app.spec.runtime.size in RuntimeSizes && ownerFault.None?
    ensures app.spec.runtime.size !in RuntimeSizes ==> r == Err(InvalidRuntimeSize)
    ensures app.spec.runtime.size in RuntimeSizes && ownerFault.Some? ==> r == Err(ownerFault.value)
  {
    var labels := DeploymentLabels(app);
    var (resources, err) := GetResourcesForRuntimeSize(app.spec.runtime.size);
    if err.Some? then Err(err.value)
    else
      var meta := SetControllerReference(ObjectMeta(app.name, app.namespace, map[], None), app.name, ownerFault);
      if meta.Err? then Err(meta.error)
      else
        Ok(Deployment(
          meta.value,
          app.spec.replicas,
          labels,
          labels,
          PodSecurityContext(true, SeccompRuntimeDefault),
          [ApplicationContainer(app, resources)]))
  }

  /** A built Deployment carries the Application's identity and spec: its
      name, namespace, owner and replica count, its launch command, one
      container port per distinct endpoint port, and the size's quota as
      both limits and requests. */
  lemma BuiltDeploymentFollowsSpec(app: Application, ownerFault: Option<Error>)
    requires BuildDeployment(app, ownerFault).Ok?
    ensures var d := BuildDeployment(app, ownerFault).value;
            var q := GetCpuAndMemoryForRuntimeSize(app.spec.runtime.size).value;
            && d.meta.name == app.name && d.meta.namespace == app.namespace
            && d.meta.owner == Some(app.name)
            && d.replicas == app.spec.replicas
            && |d.containers| == 1
            && d.containers[0].command == app.spec.launchCommand
            && d.containers[0].image == app.spec.runtime.image.reference
            && (forall p :: p in d.containers[0].ports <==>
                  exists e :: e in app.spec.endpoints && p == ContainerPort(PortName(e.port), e.port))
            && d.containers[0].resources.limits == d.containers[0].resources.requests
            && d.containers[0].resources.limits == map[Cpu := q.cpu, Memory := q.memory]
  {
    var d := BuildDeployment(app, ownerFault).value;
    var q := GetCpuAndMemoryForRuntimeSize(app.spec.runtime.size).value;
    var r := d.containers[0].resources;
    assert r == GetResourcesForRuntimeSize(app.spec.runtime.size).0;
    assert r.limits == map[Cpu := q.cpu, Memory := q.memory];
  }

  /** The selector is the template's label set, and it identifies the
      instance and carries the version and the provenance labels. */
  lemma BuiltDeploymentSelector(app: Application, ownerFault: Option<Error>)
    requires BuildDeployment(app, ownerFault).Ok?
    ensures var d := BuildDeployment(app, ownerFault).value;
            && d.selector == d.templateLabels
            && d.selector.Keys == {InstanceKey, VersionKey, PartOfKey, CreatedByKey}
            && d.selector[InstanceKey] == "application-" + app.name
            && d.selector[VersionKey] == app.spec.runtime.image.tag
            && d.selector[PartOfKey] == PartOfValue
            && d.selector[CreatedByKey] == CreatedByValue
  {
  }

  /** The pod and its container never run as root; the container cannot
      escalate privileges and drops every capability. */
  lemma BuiltDeploymentHardened(app: Application, ownerFault: Option<Error>)
    requires BuildDeployment(app, ownerFault).Ok?
    ensures var d := BuildDeployment(app, ownerFault).value;
            && d.podSecurityContext == PodSecurityContext(true, SeccompRuntimeDefault)
            && d.containers[0].name == ContainerName
            && d.containers[0].imagePullPolicy == PullIfNotPresent
            && d.containers[0].securityContext.runAsNonRoot
            && !d.containers[0].securityContext.allowPrivilegeEscalation
            && d.containers[0].securityContext.dropCapabilities == ["ALL"]
  {
  }

  /** No two container ports share a name or a number. */
  lemma BuiltDeploymentPortsDistinct(app: Application, ownerFault: Option<Error>, p: ContainerPort, q: ContainerPort)
    requires BuildDeployment(app, ownerFault).Ok?
    requires p in BuildDeployment(app, ownerFault).value.containers[0].ports
    requires q in BuildDeployment(app, ownerFault).value.containers[0].ports
    ensures p.name == q.name <==> p == q
    ensures p.containerPort == q.containerPort <==> p == q
  {
    var a :| a in app.spec.endpoints && p == AsContainerPort(a);
    var b :| b in app.spec.endpoints && q == AsContainerPort(b);
    ContainerPortDeterminedByPort(a, b);
  }

  /** Domains and paths of the endpoints never change the Deployment. */
  lemma BuiltDeploymentIgnoresDomains(app: Application, app2: Application, ownerFault: Option<Error>)
    requires app2 == app.(spec := app.spec.(endpoints := app2.spec.endpoints))
    requires Ports(app.spec.endpoints) == Ports(app2.spec.endpoints)
    ensures BuildDeployment(app, ownerFault) == BuildDeployment(app2, ownerFault)
  {
    ContainerPortsByPort(app.spec.endpoints);
    ContainerPortsByPort(app2.spec.endpoints);
  }

  /** createDeployment: builds the Deployment and creates it in the store. */
  method CreateDeployment(store: Store, app: Application, f: Faults) returns (r: Result<Deployment>)
    modifies store.deployments
    ensures var b := BuildDeployment(app, f.ownerRef);
            var e := CreatedError(b, f.create, old(store.deployments.value));
            r == if e.Some? then Err(e.value) else b
    ensures store.deployments.value == if r.Ok? then Some(r.value) else old(store.deployments.value)
  {
    var deployment := BuildDeployment(app, f.ownerRef);
    if deployment.Err? {
      return deployment;
    }
    var err := store.deployments.Create(deployment.value, f.create);
    if err.Some? {
      return Err(err.value);
    }
    return deployment;
  }

  /** updateDeploymentSpec: overwrites `deployment` with a freshly built
      Deployment, whatever it held before; on a build failure it is kept. */
  method UpdateDeploymentSpec(app: Application, deployment: Deployment, ownerFault: Option<Error>)
    returns (deployment': Deployment, err: Option<Error>)
    ensures err.None? <==> BuildDeployment(app, ownerFault).Ok?
    ensures err.None? ==> deployment' == BuildDeployment(app, ownerFault).value
    ensures err.Some? ==> deployment' == deployment && err == Some(BuildDeployment(app, ownerFault).error)
  {
    var newDeployment := BuildDeployment(app, ownerFault);
    if newDeployment.Err? {
      return deployment, Some(newDeployment.error);
    }
    return newDeployment.value, None;
  }

  const CreateFailedPrefix := "Failed to create deployment: "

  function CreateFailedCondition(cause: Error): Condition {
    Condition(DeploymentAvailable, ConditionFalse, "ReconcileError", CreateFailedPrefix + Text(cause))
  }

  /** reconcileDeployment as a function of the stored Deployment, the
      stored Application, the in-memory Application and the store faults. */
  function DeploymentSync(child: Option<Deployment>, stored: Option<Application>, app: Application, f: Faults): (r: SyncOutcome<Deployment>)
    ensures r.err.None? ==> BuildDeployment(app, f.ownerRef).Ok? && r.child == Some(BuildDeployment(app, f.ownerRef).value)
    ensures r.stored.Some? <==> stored.Some?
    ensures r.stored.Some? ==> r.stored.value.spec == stored.value.spec && r.stored.value.name == stored.value.name
  {
    var got := GetOutcome(f.childGet, child);
    if got.Err? && got.error == NotFound then
      var built := BuildDeployment(app, f.ownerRef);
      var cause := CreatedError(built, f.create, child);
      if cause.None? then
        SyncOutcome(Some(built.value), stored, app, Some(RequeueAfterMinute), None)
      else
        var a := WithCondition(app, CreateFailedCondition(cause.value));
        var writeErr := ExistingError(f.statusWrite, stored);
        SyncOutcome(child, StatusWritten(stored, a, f.statusWrite), a, None, if writeErr.Some? then writeErr else cause)
    else if got.Err? then
      SyncOutcome(child, stored, app, None, Some(got.error))
    else
      var built := BuildDeployment(app, f.ownerRef);
      var cause := UpdatedError(built, f.update, child);
      var o := if cause.Some? then ReconcileErrorOutcome(stored, app, cause.value, f) else ReconciledOutcome(stored, app, f);
      SyncOutcome(if cause.None? then Some(built.value) else child, o.stored, o.app, o.result, o.err)
  }

  /** reconcileDeployment: creates the Deployment when it is missing and
      asks to be called again in a minute; otherwise overwrites it with the
      built one and records the outcome on the Application's status. */
  method ReconcileDeployment(store: Store, app: Application, f: Faults)
    returns (app': Application, result: Option<ReconcileResult>, err: Option<Error>)
    modifies store.deployments, store.applications
    ensures SyncOutcome(store.deployments.value, store.applications.value, app', result, err)
         == DeploymentSync(old(store.deployments.value), old(store.applications.value), app, f)
  {
    var got := store.deployments.Get(f.childGet);
    var deployment := EmptyDeployment;
    if got.Err? && got.error == NotFound {
      var created := CreateDeployment(store, app, f);
      if created.Err? {
        app' := WithCondition(app, CreateFailedCondition(created.error));
        var writeErr := store.UpdateStatus(app', f.statusWrite);
        if writeErr.Some? {
          return app', None, writeErr;
        }
        return app', None, Some(created.error);
      }
      return app, Some(RequeueAfterMinute), None;
    } else if got.Err? {
      return app, None, Some(got.error);
    }

    var specErr;
    deployment, specErr := UpdateDeploymentSpec(app, deployment, f.ownerRef);
    if specErr.Some? {
      app', result, err := SetApplicationReconcileError(store, app, specErr.value, f);
      return;
    }
    var updateErr := store.deployments.Update(deployment, f.update);
    if updateErr.Some? {
      app', result, err := SetApplicationReconcileError(store, app, updateErr.value, f);
      return;
    }
    app', result, err := SetApplicationReconciled(store, app, f);
  }

  // ---------------------------------------------------------------------
  // What one pass does, case by case.

  /** Missing and created: the store holds the built Deployment, the
      Application is untouched and the pass asks to run again in a minute. */
  lemma DeploymentCreated(child: Option<Deployment>, stored: Option<Application>, app: Application, f: Faults)
    requires GetOutcome(f.childGet, child) == Err(NotFound)
    requires CreatedError(BuildDeployment(app, f.ownerRef), f.create, child).None?
    ensures var o := DeploymentSync(child, stored, app, f);
            o.child == Some(BuildDeployment(app, f.ownerRef).value) &&
            o.stored == stored && o.app == app &&
            o.result == Some(RequeueAfterMinute) && o.err.None?
  {
  }

  /** Missing and not created (an invalid size, an owner-reference failure
      or a failed create): DeploymentAvailable=False with the error text is
      upserted on the in-memory Application, which is written without a
      re-fetch; the error returned is the create error, or the status-write
      error when that write fails. */
  lemma DeploymentCreateFailed(child: Option<Deployment>, stored: Option<Application>, app: Application, f: Faults)
    requires GetOutcome(f.childGet, child) == Err(NotFound)
    requires CreatedError(BuildDeployment(app, f.ownerRef), f.create, child).Some?
    ensures var cause := CreatedError(BuildDeployment(app, f.ownerRef), f.create, child).value;
            var o := DeploymentSync(child, stored, app, f);
            && o.child == child && o.result.None?
            && o.app == WithCondition(app, CreateFailedCondition(cause))
            && FindStatusCondition(o.app.status.conditions, DeploymentAvailable) == Some(CreateFailedCondition(cause))
            && o.stored == StatusWritten(stored, o.app, f.statusWrite)
            && o.err == (if ExistingError(f.statusWrite, stored).Some? then ExistingError(f.statusWrite, stored) else Some(cause))
            && (app.spec.runtime.size !in RuntimeSizes ==> cause == InvalidRuntimeSize)
  {
    var cause := CreatedError(BuildDeployment(app, f.ownerRef), f.create, child).value;
    SetStatusConditionLookup(app.status.conditions, CreateFailedCondition(cause), DeploymentAvailable);
  }

  /** A read error other than NotFound is returned and nothing is written. */
  lemma DeploymentGetFailed(child: Option<Deployment>, stored: Option<Application>, app: Application, f: Faults)
    requires f.childGet.Some? && f.childGet.value != NotFound
    ensures DeploymentSync(child, stored, app, f) == SyncOutcome(child, stored, app, None, f.childGet)
  {
  }

  /** Present: the written Deployment is the built one in full, and the
      status records success. */
  lemma DeploymentUpdated(child: Option<Deployment>, stored: Option<Application>, app: Application, f: Faults)
    requires GetOutcome(f.childGet, child).Ok?
    requires UpdatedError(BuildDeployment(app, f.ownerRef), f.update, child).None?
    ensures var o := DeploymentSync(child, stored, app, f);
            && o.child == Some(BuildDeployment(app, f.ownerRef).value)
            && (o.stored, o.app, o.result, o.err) == (ReconciledOutcome(stored, app, f).stored, ReconciledOutcome(stored, app, f).app, None, ExistingError(f.statusWrite, stored))
  {
  }

  /** Present but not rewritten (a build or update failure): the stored
      Deployment is kept and the error goes through the reconcile-error
      report. */
  lemma DeploymentUpdateFailed(child: Option<Deployment>, stored: Option<Application>, app: Application, f: Faults)
    requires GetOutcome(f.childGet, child).Ok?
    requires UpdatedError(BuildDeployment(app, f.ownerRef), f.update, child).Some?
    ensures var cause := UpdatedError(BuildDeployment(app, f.ownerRef), f.update, child).value;
            var o := DeploymentSync(child, stored, app, f);
            var e := ReconcileErrorOutcome(stored, app, cause, f);
            o == SyncOutcome(child, e.stored, e.app, e.result, e.err)
  {
  }

  /** With no faults, a pass over a present Deployment and a valid size
      leaves the built Deployment stored and reports no error. */
  lemma DeploymentConverges(child: Deployment, stored: Application, app: Application)
    requires app.spec.runtime.size in RuntimeSizes
    ensures var o := DeploymentSync(Some(child), Some(stored), app, NoFaults);
            o.child == Some(BuildDeployment(app, None).value) && o.err.None? && o.result.None?
  {
  }
}
