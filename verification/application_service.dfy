/** The Service of an Application: how it is built and how one reconcile
    pass creates, rewrites or deletes it (internal/controller/application_service.go).
    A Service is wanted exactly when the Application declares an endpoint. */
module ApplicationService {
  import opened Wrappers
  import opened NetworkingTypes
  import opened Labels
  import opened ApplicationTypes
  import opened KubeObjects
  import opened Cluster
  import opened ApplicationStatus
  import opened ApplicationDeployment

  /** The labels of the Service, also its selector: the Application's
      labels, then its instance, then the provenance labels. */
  function ServiceLabels(app: Application): Labels {
    MergedLabels([app.labels, map[InstanceKey := app.name]])
  }

  /** buildService: fails only when the owner reference cannot be recorded. */
  function BuildService(app: Application, ownerFault: Option<Error>): (r: Result<Service>)
    ensures r.Ok? <==> ownerFault.None?
    ensures r.Err? ==> r.error == ownerFault.value
  {
    var labels := ServiceLabels(app);
    var meta := SetControllerReference(ObjectMeta(app.name, app.namespace, labels, None), app.name, ownerFault);
    if meta.Err? then Err(meta.error)
    else Ok(Service(meta.value, labels, ClusterIP, ServicePorts(app.spec.endpoints)))
  }

  /** A built Service is named after the Application, owned by it, of type
      ClusterIP, selects on its own labels, and has one port per distinct
      endpoint port, each targeting that same port over TCP. */
  lemma BuiltServiceFollowsSpec(app: Application, ownerFault: Option<Error>)
    requires BuildService(app, ownerFault).Ok?
    ensures var s := BuildService(app, ownerFault).value;
            && s.meta.name == app.name && s.meta.namespace == app.namespace
            && s.meta.owner == Some(app.name)
            && s.serviceType == ClusterIP
            && s.selector == s.meta.labels
            && (forall p :: p in s.ports <==>
                  exists e :: e in app.spec.endpoints && p == ServicePort(PortName(e.port), e.port, e.port as int, TCP))
  {
  }

  /** The instance label is the Application's name, whatever instance value
      the Application's own labels carry; the provenance labels are present
      and every other label of the Application is kept. */
  lemma BuiltServiceLabels(app: Application, ownerFault: Option<Error>)
    requires BuildService(app, ownerFault).Ok?
    ensures var l := BuildService(app, ownerFault).value.meta.labels;
            && InstanceKey in l && l[InstanceKey] == app.name
            && PartOfKey in l && l[PartOfKey] == PartOfValue
            && CreatedByKey in l && l[CreatedByKey] == CreatedByValue
            && l.Keys == app.labels.Keys + {InstanceKey, PartOfKey, CreatedByKey}
            && (forall k :: k in app.labels && k !in {InstanceKey, PartOfKey, CreatedByKey} ==> l[k] == app.labels[k])
  {
    var list := [app.labels, map[InstanceKey := app.name]];
    MergedLastWriter(list, 1, InstanceKey);
    MergedKeys(list);
    assert AllKeys(list) == app.labels.Keys + {InstanceKey} by {
      forall k | k in AllKeys(list)
        ensures k in app.labels.Keys + {InstanceKey}
      {
        var i :| 0 <= i < |list| && k in list[i];
      }
      assert forall k :: k in app.labels ==> k in list[0];
      assert InstanceKey in list[1];
    }
    forall k | k in app.labels && k !in {InstanceKey, PartOfKey, CreatedByKey}
      ensures MergedLabels(list)[k] == app.labels[k]
    {
      MergedLastWriter(list, 0, k);
    }
  }

  /** No two service ports share a name or a number. */
  lemma BuiltServicePortsDistinct(app: Application, ownerFault: Option<Error>, p: ServicePort, q: ServicePort)
    requires BuildService(app, ownerFault).Ok?
    requires p in BuildService(app, ownerFault).value.ports
    requires q in BuildService(app, ownerFault).value.ports
    ensures p.name == q.name <==> p == q
    ensures p.port == q.port <==> p == q
  {
    var a :| a in app.spec.endpoints && p == AsServicePort(a);
    var b :| b in app.spec.endpoints && q == AsServicePort(b);
    ServicePortDeterminedByPort(a, b);
  }

  /** createService: builds the Service and creates it in the store. */
  method CreateService(store: Store, app: Application, f: Faults) returns (r: Result<Service>)
    modifies store.services
    ensures var b := BuildService(app, f.ownerRef);
            var e := CreatedError(b, f.create, old(store.services.value));
            r == if e.Some? then Err(e.value) else b
    ensures store.services.value == if r.Ok? then Some(r.value) else old(store.services.value)
  {
    var service := BuildService(app, f.ownerRef);
    if service.Err? {
      return service;
    }
    var err := store.services.Create(service.value, f.create);
    if err.Some? {
      return Err(err.value);
    }
    return service;
  }

  /** updateServiceSpec: overwrites `service` with a freshly built Service;
      on a build failure it is kept. */
  method UpdateServiceSpec(app: Application, service: Service, ownerFault: Option<Error>)
    returns (service': Service, err: Option<Error>)
    ensures err.None? <==> BuildService(app, ownerFault).Ok?
    ensures err.None? ==> service' == BuildService(app, ownerFault).value
    ensures err.Some? ==> service' == service && err == Some(BuildService(app, ownerFault).error)
  {
    var newService := BuildService(app, ownerFault);
    if newService.Err? {
      return service, Some(newService.error);
    }
    return newService.value, None;
  }

  /** The reconcile-error report of `cause`, with the stored Service kept. */
  function ReportError(child: Option<Service>, stored: Option<Application>, app: Application, cause: Error, f: Faults): SyncOutcome<Service> {
    var e := ReconcileErrorOutcome(stored, app, cause, f);
    SyncOutcome(child, e.stored, e.app, e.result, e.err)
  }

  /** reconcileService as a function of the stored Service, the stored
      Application, the in-memory Application and the store faults. */
  function ServiceSync(child: Option<Service>, stored: Option<Application>, app: Application, f: Faults): (r: SyncOutcome<Service>)
    ensures r.err.None? && |app.spec.endpoints| > 0 ==>
      BuildService(app, f.ownerRef).Ok? && r.child == Some(BuildService(app, f.ownerRef).value)
    ensures r.err.None? && |app.spec.endpoints| == 0 && f.childGet.None? ==> r.child.None?
    ensures r.stored.Some? <==> stored.Some?
    ensures r.stored.Some? ==> r.stored.value.spec == stored.value.spec && r.stored.value.name == stored.value.name
  {
    var got := GetOutcome(f.childGet, child);
    var noEndpointsDefined := |app.spec.endpoints| == 0;
    if got.Err? && got.error == NotFound then
      if noEndpointsDefined then SyncOutcome(child, stored, app, None, None)
      else
        var built := BuildService(app, f.ownerRef);
        var cause := CreatedError(built, f.create, child);
        if cause.Some? then SyncOutcome(child, stored, app, None, cause)
        else SyncOutcome(Some(built.value), stored, app, Some(EmptyResult), None)
    else if got.Err? then
      SyncOutcome(child, stored, app, None, Some(got.error))
    else if noEndpointsDefined then
      var deleteErr := ExistingError(f.delete, child);
      if deleteErr.Some? then ReportError(child, stored, app, deleteErr.value, f)
      else SyncOutcome(None, stored, app, None, None)
    else
      var built := BuildService(app, f.ownerRef);
      var cause := UpdatedError(built, f.update, child);
      if cause.Some? then ReportError(child, stored, app, cause.value, f)
      else SyncOutcome(Some(built.value), stored, app, None, None)
  }

  /** reconcileService: with endpoints, creates or rewrites the Service;
      without, deletes it if there is one. */
  method ReconcileService(store: Store, app: Application, f: Faults)
    returns (app': Application, result: Option<ReconcileResult>, err: Option<Error>)
    modifies store.services, store.applications
    ensures SyncOutcome(store.services.value, store.applications.value, app', result, err)
         == ServiceSync(old(store.services.value), old(store.applications.value), app, f)
  {
    var got := store.services.Get(f.childGet);
    var noEndpointsDefined := |app.spec.endpoints| == 0;

    if got.Err? && got.error == NotFound {
      if noEndpointsDefined {
        return app, None, None;
      }
      var created := CreateService(store, app, f);
      if created.Err? {
        return app, None, Some(created.error);
      }
      return app, Some(EmptyResult), None;
    } else if got.Err? {
      return app, None, Some(got.error);
    }
    var service := got.value;

    if noEndpointsDefined {
      var deleteErr := store.services.Delete(f.delete);
      if deleteErr.Some? {
        app', result, err := SetApplicationReconcileError(store, app, deleteErr.value, f);
        return;
      }
      return app, None, None;
    }

    var specErr;
    service, specErr := UpdateServiceSpec(app, service, f.ownerRef);
    if specErr.Some? {
      app', result, err := SetApplicationReconcileError(store, app, specErr.value, f);
      return;
    }
    var updateErr := store.services.Update(service, f.update);
    if updateErr.Some? {
      app', result, err := SetApplicationReconcileError(store, app, updateErr.value, f);
      return;
    }
    return app, None, None;
  }

  // ---------------------------------------------------------------------
  // What one pass does, case by case.

  /** Missing and not wanted: nothing is written and nothing returned. */
  lemma ServiceNotWanted(child: Option<Service>, stored: Option<Application>, app: Application, f: Faults)
    requires GetOutcome(f.childGet, child) == Err(NotFound) && |app.spec.endpoints| == 0
    ensures ServiceSync(child, stored, app, f) == SyncOutcome(child, stored, app, None, None)
  {
  }

  /** Missing and wanted: the built Service is created and an empty result
      returned; a build or create error is returned as it is, with no
      status written. */
  lemma ServiceCreate(child: Option<Service>, stored: Option<Application>, app: Application, f: Faults)
    requires GetOutcome(f.childGet, child) == Err(NotFound) && |app.spec.endpoints| > 0
    ensures var cause := CreatedError(BuildService(app, f.ownerRef), f.create, child);
            var o := ServiceSync(child, stored, app, f);
            && o.stored == stored && o.app == app
            && (cause.None? ==> o.child == Some(BuildService(app, f.ownerRef).value) && o.result == Some(EmptyResult) && o.err.None?)
            && (cause.Some? ==> o.child == child && o.result.None? && o.err == cause)
  {
  }

  /** A read error other than NotFound is returned and nothing is written. */
  lemma ServiceGetFailed(child: Option<Service>, stored: Option<Application>, app: Application, f: Faults)
    requires f.childGet.Some? && f.childGet.value != NotFound
    ensures ServiceSync(child, stored, app, f) == SyncOutcome(child, stored, app, None, f.childGet)
  {
  }

  /** Present and no longer wanted: the Service is deleted; a failed delete
      is reported through the reconcile-error path. */
  lemma ServiceDelete(child: Option<Service>, stored: Option<Application>, app: Application, f: Faults)
    requires GetOutcome(f.childGet, child).Ok? && |app.spec.endpoints| == 0
    ensures var o := ServiceSync(child, stored, app, f);
            && (f.delete.None? ==> o == SyncOutcome(None, stored, app, None, None))
            && (f.delete.Some? ==> o == ReportError(child, stored, app, f.delete.value, f))
  {
  }

  /** Present and wanted: the written Service is the built one in full; a
      build or update failure is reported through the reconcile-error path. */
  lemma ServiceUpdate(child: Option<Service>, stored: Option<Application>, app: Application, f: Faults)
    requires GetOutcome(f.childGet, child).Ok? && |app.spec.endpoints| > 0
    ensures var cause := UpdatedError(BuildService(app, f.ownerRef), f.update, child);
            var o := ServiceSync(child, stored, app, f);
            && (cause.None? ==> o == SyncOutcome(Some(BuildService(app, f.ownerRef).value), stored, app, None, None))
            && (cause.Some? ==> o == ReportError(child, stored, app, cause.value, f))
  {
  }

  /** Without faults, one pass leaves a Service exactly when the
      Application declares an endpoint, and then it is the built one. */
  lemma ServiceWantedIffEndpoints(child: Option<Service>, stored: Option<Application>, app: Application)
    ensures var o := ServiceSync(child, stored, app, NoFaults);
            && (o.child.Some? <==> |app.spec.endpoints| > 0)
            && (o.child.Some? ==> o.child.value == BuildService(app, None).value)
            && o.err.None? && o.stored == stored
  {
  }

  // ---------------------------------------------------------------------
  // Which pods the Service selects.

  /** As written, the Service selects none of the Application's pods: it
      asks for the instance value `name`, while every pod of the Deployment
      carries the instance value `application-name`. */
  lemma ServiceSelectsNoPods(app: Application, ownerFault: Option<Error>)
    requires BuildService(app, ownerFault).Ok?
    ensures !Selects(BuildService(app, ownerFault).value.selector, DeploymentLabels(app))
    ensures BuildDeployment(app, ownerFault).Ok? ==>
      !Selects(BuildService(app, ownerFault).value.selector, BuildDeployment(app, ownerFault).value.templateLabels)
  {
    var list := [app.labels, map[InstanceKey := app.name]];
    MergedLastWriter(list, 1, InstanceKey);
    var selector := BuildService(app, ownerFault).value.selector;
    assert selector[InstanceKey] == app.name;
    assert |DeploymentLabels(app)[InstanceKey]| != |app.name|;
    if BuildDeployment(app, ownerFault).Ok? {
      BuiltDeploymentSelector(app, ownerFault);
    }
  }

  /** The selector evidently meant: the labels every pod of the Application
      carries, whatever its image version. */
  function CorrectedServiceSelector(app: Application): Labels {
    map[InstanceKey := "application-" + app.name, PartOfKey := PartOfValue, CreatedByKey := CreatedByValue]
  }

  /** buildService with the corrected selector; the rest of the Service is
      the one built as written. */
  function BuildServiceCorrected(app: Application, ownerFault: Option<Error>): (r: Result<Service>)
    ensures r.Ok? <==> BuildService(app, ownerFault).Ok?
    ensures r.Ok? ==> r.value == BuildService(app, ownerFault).value.(selector := CorrectedServiceSelector(app))
  {
    var s := BuildService(app, ownerFault);
    if s.Err? then s else Ok(s.value.(selector := CorrectedServiceSelector(app)))
  }

  /** The corrected Service selects the pods of the Deployment of any
      Application of the same name, whatever image version they run. */
  lemma CorrectedServiceSelectsPods(app: Application, ownerFault: Option<Error>, running: Application)
    requires BuildServiceCorrected(app, ownerFault).Ok?
    requires running.name == app.name
    ensures Selects(BuildServiceCorrected(app, ownerFault).value.selector, DeploymentLabels(running))
    ensures BuildDeployment(running, ownerFault).Ok? ==>
      Selects(BuildServiceCorrected(app, ownerFault).value.selector, BuildDeployment(running, ownerFault).value.templateLabels)
  {
    if BuildDeployment(running, ownerFault).Ok? {
      BuiltDeploymentSelector(running, ownerFault);
    }
  }
}
