/** The top-level reconcile pass of the Application controller
    (internal/controller/application_controller.go): fetch the
    Application, skip it when it is gone or being deleted, otherwise run
    the Deployment sync. The Service and Ingress syncs are not called. */
module ApplicationController {
  import opened Wrappers
  import opened RuntimeTypes
  import opened ApplicationTypes
  import opened KubeObjects
  import opened Cluster
  import opened ApplicationStatus
  import opened ApplicationDeployment

  /** What a pass leaves behind: the stored Application and Deployment,
      and the result and error handed back to the controller runtime. */
  datatype PassOutcome = PassOutcome(stored: Option<Application>, deployment: Option<Deployment>, result: ReconcileResult, err: Option<Error>)

  /** Reconcile as a function of the stored objects and the store faults. */
  function ReconcilePass(stored: Option<Application>, deployment: Option<Deployment>, f: Faults): (r: PassOutcome)
    ensures r.err.None? && f.appGet.None? && stored.Some? && !stored.value.deletionRequested ==>
      BuildDeployment(stored.value, f.ownerRef).Ok? && r.deployment == Some(BuildDeployment(stored.value, f.ownerRef).value)
    ensures r.stored.Some? <==> stored.Some?
    ensures r.stored.Some? ==> r.stored.value.spec == stored.value.spec && r.stored.value.name == stored.value.name
  {
    var got := GetOutcome(f.appGet, stored);
    if got.Err? then
      PassOutcome(stored, deployment, EmptyResult, if got.error == NotFound then None else Some(got.error))
    else if got.value.deletionRequested then
      PassOutcome(stored, deployment, EmptyResult, None)
    else
      var o := DeploymentSync(deployment, stored, got.value, f);
      if o.err.Some? then PassOutcome(o.stored, o.child, EmptyResult, o.err)
      else if o.result.Some? then PassOutcome(o.stored, o.child, o.result.value, None)
      else PassOutcome(o.stored, o.child, EmptyResult, None)
  }

  method Reconcile(store: Store, f: Faults) returns (result: ReconcileResult, err: Option<Error>)
    modifies store.deployments, store.applications
    ensures PassOutcome(store.applications.value, store.deployments.value, result, err)
         == ReconcilePass(old(store.applications.value), old(store.deployments.value), f)
    ensures unchanged(store.services, store.ingresses)
  {
    var got := store.applications.Get(f.appGet);
    if got.Err? {
      if got.error == NotFound {
        return EmptyResult, None;
      }
      return EmptyResult, Some(got.error);
    }
    var appToReconcile := got.value;

    if appToReconcile.deletionRequested {
      return EmptyResult, None;
    }

    var _, r, e := ReconcileDeployment(store, appToReconcile, f);
    if e.Some? {
      return EmptyResult, e;
    }
    if r.Some? {
      return r.value, None;
    }
    return EmptyResult, None;
  }

  /** An Application that is gone is a quiet exit: nothing is written. */
  lemma ApplicationGone(stored: Option<Application>, deployment: Option<Deployment>, f: Faults)
    requires GetOutcome(f.appGet, stored) == Err(NotFound)
    ensures ReconcilePass(stored, deployment, f) == PassOutcome(stored, deployment, EmptyResult, None)
  {
  }

  /** Any other read error is returned, with nothing written. */
  lemma ApplicationGetFailed(stored: Option<Application>, deployment: Option<Deployment>, f: Faults)
    requires f.appGet.Some? && f.appGet.value != NotFound
    ensures ReconcilePass(stored, deployment, f) == PassOutcome(stored, deployment, EmptyResult, f.appGet)
  {
  }

  /** An Application being deleted is left alone: no child is touched. */
  lemma ApplicationBeingDeleted(stored: Option<Application>, deployment: Option<Deployment>, f: Faults)
    requires f.appGet.None? && stored.Some? && stored.value.deletionRequested
    ensures ReconcilePass(stored, deployment, f) == PassOutcome(stored, deployment, EmptyResult, None)
  {
  }

  /** Otherwise the pass is the Deployment sync of the stored Application:
      its error comes back with an empty result, its result passes through,
      and no result becomes the empty one. */
  lemma PassIsDeploymentSync(stored: Option<Application>, deployment: Option<Deployment>, f: Faults)
    requires f.appGet.None? && stored.Some? && !stored.value.deletionRequested
    ensures var o := DeploymentSync(deployment, stored, stored.value, f);
            var p := ReconcilePass(stored, deployment, f);
            && p.stored == o.stored && p.deployment == o.child && p.err == o.err
            && p.result == (if o.err.None? && o.result.Some? then o.result.value else EmptyResult)
  {
  }

  /** The first pass over a new Application with a valid size creates its
      Deployment and asks to be called again in a minute. */
  lemma FirstPassCreates(app: Application)
    requires !app.deletionRequested && app.spec.runtime.size in RuntimeSizes
    ensures ReconcilePass(Some(app), None, NoFaults)
         == PassOutcome(Some(app), Some(BuildDeployment(app, None).value), RequeueAfterMinute, None)
  {
  }

  /** A pass over an Application whose size is invalid records the error
      on its status and returns it. */
  lemma InvalidSizeReported(app: Application)
    requires !app.deletionRequested && app.spec.runtime.size !in RuntimeSizes
    ensures var p := ReconcilePass(Some(app), None, NoFaults);
            && p.err == Some(InvalidRuntimeSize) && p.deployment.None?
            && p.stored.Some?
            && FindStatusCondition(p.stored.value.status.conditions, DeploymentAvailable)
                 == Some(CreateFailedCondition(InvalidRuntimeSize))
  {
    var cond := CreateFailedCondition(InvalidRuntimeSize);
    SetStatusConditionLookup(app.status.conditions, cond, DeploymentAvailable);
  }

  /** A second pass without faults rewrites a Deployment with the same
      container ports (as a set: each pass may list them in another order),
      records success on the status, and asks for nothing more. */
  lemma SecondPassConverges(app: Application)
    requires !app.deletionRequested && app.spec.runtime.size in RuntimeSizes
    ensures var first := ReconcilePass(Some(app), None, NoFaults);
            var second := ReconcilePass(first.stored, first.deployment, NoFaults);
            && second.deployment == first.deployment
            && second.result == EmptyResult && second.err.None?
            && second.stored.Some?
            && FindStatusCondition(second.stored.value.status.conditions, DeploymentAvailable)
                 == Some(ReconciledCondition(app))
  {
    FirstPassCreates(app);
    SetStatusConditionLookup(app.status.conditions, ReconciledCondition(app), DeploymentAvailable);
  }
}
