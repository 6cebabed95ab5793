/** The two status helpers of the reconciler: recording a reconcile error
    on the Application (internal/controller/application_controller.go) and
    recording success (setApplicationReconciled, which is called at
    application_deployment.go:75 but defined in none of the files modelled
    here; it is taken to behave as the success branch of the controller's
    earlier inline deployment sync). */
module ApplicationStatus {
  import opened Wrappers
  import opened NetworkingTypes
  import opened ApplicationTypes
  import opened KubeObjects
  import opened Cluster

  const DeploymentAvailable := "DeploymentAvailable"

  const ReconcileErrorPrefix := "Failed to update the application resource ("

  /** The message of a reconcile-error condition: the Application's name and
      the error's text, each in parentheses. */
  function ReconcileErrorMessage(name: string, cause: Error): string {
    ReconcileErrorPrefix + name + "): (" + Text(cause) + ")"
  }

  function ReconcileErrorCondition(name: string, cause: Error): Condition {
    Condition(DeploymentAvailable, ConditionFalse, "ReconcileError", ReconcileErrorMessage(name, cause))
  }

  /** The message names the Application and carries the error text verbatim. */
  lemma ReconcileErrorMessageParts(name: string, cause: Error)
    ensures var m := ReconcileErrorMessage(name, cause);
            |m| == 43 + |name| + 4 + |Text(cause)| + 1 &&
            m[..43] == ReconcileErrorPrefix &&
            m[43..43 + |name|] == name &&
            m[43 + |name| + 4..|m| - 1] == Text(cause)
  {
    var x := ReconcileErrorPrefix + name;
    var y := x + "): (";
    var z := y + Text(cause);
    var m := z + ")";
    assert m == ReconcileErrorMessage(name, cause);
    SliceOfConcat(ReconcileErrorPrefix, name, 0, 43);
    SliceOfConcat(x, "): (", 43, 43 + |name|);
    SliceOfConcat(y, Text(cause), 43, 43 + |name|);
    SliceOfConcat(z, ")", 43, 43 + |name|);
    SliceOfConcat(y, Text(cause), 0, 43);
    SliceOfConcat(x, "): (", 0, 43);
    SliceOfConcat(z, ")", 0, 43);
    SliceOfConcat(z, ")", |y|, |z|);
    assert z[|y|..|z|] == Text(cause);
  }

  /** A slice that lies within the left operand of a concatenation. */
  lemma SliceOfConcat(a: string, b: string, i: int, j: int)
    requires 0 <= i <= j <= |a|
    ensures (a + b)[i..j] == a[i..j]
  {
  }

  /** What a status helper leaves behind: the stored Application, the
      in-memory Application, and the result and error it returns. */
  datatype Outcome = Outcome(stored: Option<Application>, app: Application, result: Option<ReconcileResult>, err: Option<Error>)

  /** setApplicationReconcileError as a function of the stored Application,
      the in-memory one, the error being reported and the store faults. */
  function ReconcileErrorOutcome(stored: Option<Application>, app: Application, cause: Error, f: Faults): (r: Outcome)
    ensures r.err.Some?
    ensures r.result.None? || r.result == Some(EmptyResult)
    ensures r.stored.Some? <==> stored.Some?
    ensures r.stored.Some? ==> r.stored.value.spec == stored.value.spec && r.stored.value.name == stored.value.name
  {
    var fetched := GetOutcome(f.refetch, stored);
    if fetched.Err? then
      Outcome(stored, app, Some(EmptyResult), Some(fetched.error))
    else
      var a := WithCondition(fetched.value, ReconcileErrorCondition(fetched.value.name, cause));
      var writeErr := ExistingError(f.statusWrite, stored);
      Outcome(StatusWritten(stored, a, f.statusWrite), a, None, if writeErr.Some? then writeErr else Some(cause))
  }

  /** Re-fetches the Application, upserts DeploymentAvailable=False with
      reason ReconcileError, and writes the status. Returns the original
      error, or the error of the re-fetch or of the status write. */
  method SetApplicationReconcileError(store: Store, app: Application, cause: Error, f: Faults)
    returns (app': Application, result: Option<ReconcileResult>, err: Option<Error>)
    modifies store.applications
    ensures Outcome(store.applications.value, app', result, err)
         == ReconcileErrorOutcome(old(store.applications.value), app, cause, f)
  {
    var fetched := store.applications.Get(f.refetch);
    if fetched.Err? {
      return app, Some(EmptyResult), Some(fetched.error);
    }
    app' := fetched.value;
    app' := WithCondition(app', ReconcileErrorCondition(app'.name, cause));
    var writeErr := store.UpdateStatus(app', f.statusWrite);
    if writeErr.Some? {
      return app', None, writeErr;
    }
    return app', None, Some(cause);
  }

  /** A failed re-fetch writes nothing and returns an empty result with the
      fetch error; the in-memory Application is left as it was. */
  lemma RefetchFailureWritesNothing(stored: Option<Application>, app: Application, cause: Error, f: Faults)
    requires GetOutcome(f.refetch, stored).Err?
    ensures var o := ReconcileErrorOutcome(stored, app, cause, f);
            o.stored == stored && o.app == app && o.result == Some(EmptyResult) &&
            o.err == Some(GetOutcome(f.refetch, stored).error) &&
            (f.refetch.None? ==> o.err == Some(NotFound))
  {
  }

  /** After a successful re-fetch and status write, the stored Application
      is the re-fetched one with the error condition upserted, and the
      original error is returned. */
  lemma ReconcileErrorRecorded(stored: Option<Application>, app: Application, cause: Error, f: Faults)
    requires f.refetch.None? && f.statusWrite.None? && stored.Some?
    ensures var o := ReconcileErrorOutcome(stored, app, cause, f);
            o.stored == Some(o.app) && o.err == Some(cause) && o.result.None? &&
            o.app.spec == stored.value.spec && o.app.name == stored.value.name &&
            FindStatusCondition(o.app.status.conditions, DeploymentAvailable)
              == Some(Condition(DeploymentAvailable, ConditionFalse, "ReconcileError", ReconcileErrorMessage(stored.value.name, cause)))
  {
    var s := stored.value;
    var a := WithCondition(s, ReconcileErrorCondition(s.name, cause));
    SetStatusConditionLookup(s.status.conditions, ReconcileErrorCondition(s.name, cause), DeploymentAvailable);
    assert s.(status := a.status) == a;
  }

  /** Conditions of other types survive the error report. */
  lemma ReconcileErrorKeepsOtherConditions(stored: Option<Application>, app: Application, cause: Error, f: Faults, t: string)
    requires GetOutcome(f.refetch, stored).Ok? && t != DeploymentAvailable
    ensures FindStatusCondition(ReconcileErrorOutcome(stored, app, cause, f).app.status.conditions, t)
         == FindStatusCondition(stored.value.status.conditions, t)
  {
    SetStatusConditionLookup(stored.value.status.conditions, ReconcileErrorCondition(stored.value.name, cause), t);
  }

  /** A failed status write leaves the store as it was and returns the
      write error instead of the original one. */
  lemma ReconcileErrorWriteFails(stored: Option<Application>, app: Application, cause: Error, f: Faults)
    requires GetOutcome(f.refetch, stored).Ok? && f.statusWrite.Some?
    ensures var o := ReconcileErrorOutcome(stored, app, cause, f);
            o.stored == stored && o.err == f.statusWrite && o.result.None?
  {
  }

  // ---------------------------------------------------------------------
  // Success

  /** The message of the success condition. */
  function ReconciledMessage(app: Application): string {
    "Deployment for custom resource (" + app.name + ") with " + Decimal(app.spec.replicas as int) + " replicas created successfully"
  }

  function ReconciledCondition(app: Application): Condition {
    Condition(DeploymentAvailable, ConditionTrue, "Reconciled", ReconciledMessage(app))
  }

  /** setApplicationReconciled as a function: upsert of the success
      condition on the in-memory Application, then a status write whose
      error, if any, is returned. */
  function ReconciledOutcome(stored: Option<Application>, app: Application, f: Faults): (r: Outcome)
    ensures r.result.None?
    ensures r.err.None? <==> f.statusWrite.None? && stored.Some?
    ensures r.stored.Some? <==> stored.Some?
    ensures r.stored.Some? ==> r.stored.value.spec == stored.value.spec && r.stored.value.name == stored.value.name
  {
    var a := WithCondition(app, ReconciledCondition(app));
    Outcome(StatusWritten(stored, a, f.statusWrite), a, None, ExistingError(f.statusWrite, stored))
  }

  method SetApplicationReconciled(store: Store, app: Application, f: Faults)
    returns (app': Application, result: Option<ReconcileResult>, err: Option<Error>)
    modifies store.applications
    ensures Outcome(store.applications.value, app', result, err)
         == ReconciledOutcome(old(store.applications.value), app, f)
  {
    app' := WithCondition(app, ReconciledCondition(app));
    err := store.UpdateStatus(app', f.statusWrite);
    result := None;
  }

  /** A successful write records DeploymentAvailable=True with reason
      Reconciled, and nothing is returned. */
  lemma ReconciledRecorded(stored: Option<Application>, app: Application, f: Faults)
    requires f.statusWrite.None? && stored.Some?
    ensures var o := ReconciledOutcome(stored, app, f);
            o.err.None? && o.result.None? && o.stored.Some? &&
            FindStatusCondition(o.stored.value.status.conditions, DeploymentAvailable)
              == Some(Condition(DeploymentAvailable, ConditionTrue, "Reconciled", ReconciledMessage(app)))
  {
    SetStatusConditionLookup(app.status.conditions, ReconciledCondition(app), DeploymentAvailable);
  }
}
