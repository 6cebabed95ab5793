/** The Ingress of an Application: how it is built and how one reconcile
    pass creates, rewrites or deletes it (internal/controller/application_ingress.go).
    An Ingress is wanted exactly when some endpoint carries a domain. */
module ApplicationIngress {
  import opened Wrappers
  import opened NetworkingTypes
  import opened Labels
  import opened Endpoints
  import opened ApplicationTypes
  import opened KubeObjects
  import opened Cluster
  import opened ApplicationStatus

  const IngressClassKey := "kubernetes.io/ingress.class"
  const IngressClass := "k4indie-ingress"

  /** The labels of the Ingress: the Application's labels, then its
      instance and the ingress class, then the provenance labels. */
  function IngressLabels(app: Application): Labels {
    MergedLabels([app.labels, map[InstanceKey := app.name, IngressClassKey := IngressClass]])
  }

  /** buildIngress: records no owner reference, and its error result is
      always nil, so it is modelled as a total function. */
  function BuildIngress(app: Application, endpoints: seq<Endpoint>): (r: Ingress)
    ensures r.meta.name == app.name && r.meta.namespace == app.namespace && r.meta.owner.None?
    ensures forall rule :: rule in r.rules ==> exists e :: e in endpoints && rule.host == e.domain
  {
    Ingress(ObjectMeta(app.name, app.namespace, IngressLabels(app), None), IngressRules(app.name, endpoints))
  }

  /** A built Ingress is named after the Application, has no owner, and
      routes each given endpoint's domain to the Application's Service. */
  lemma BuiltIngressFollowsSpec(app: Application, endpoints: seq<Endpoint>)
    ensures var ing := BuildIngress(app, endpoints);
            && ing.meta.name == app.name && ing.meta.namespace == app.namespace
            && ing.meta.owner.None?
            && ing.rules == IngressRules(app.name, endpoints)
            && (forall r :: r in ing.rules ==> r.host in Domains(endpoints))
            && (forall e :: e in endpoints ==> exists r :: r in ing.rules && r.host == e.domain)
  {
    var ing := BuildIngress(app, endpoints);
    forall e | e in endpoints
      ensures exists r :: r in ing.rules && r.host == e.domain
    {
      assert e.domain in Domains(endpoints);
      assert RuleFor(app.name, endpoints, e.domain) in ing.rules;
    }
  }

  /** The instance label is the Application's name and the ingress class is
      the operator's, whatever the Application's labels say; the provenance
      labels are present. */
  lemma BuiltIngressLabels(app: Application, endpoints: seq<Endpoint>)
    ensures var l := BuildIngress(app, endpoints).meta.labels;
            && InstanceKey in l && l[InstanceKey] == app.name
            && IngressClassKey in l && l[IngressClassKey] == IngressClass
            && PartOfKey in l && l[PartOfKey] == PartOfValue
            && CreatedByKey in l && l[CreatedByKey] == CreatedByValue
  {
    var list := [app.labels, map[InstanceKey := app.name, IngressClassKey := IngressClass]];
    MergedLastWriter(list, 1, InstanceKey);
    MergedLastWriter(list, 1, IngressClassKey);
  }

  /** createIngress: builds the Ingress and creates it in the store. */
  method CreateIngress(store: Store, app: Application, endpoints: seq<Endpoint>, f: Faults) returns (r: Result<Ingress>)
    modifies store.ingresses
    ensures var e := CreateError(f.create, old(store.ingresses.value));
            r == if e.Some? then Err(e.value) else Ok(BuildIngress(app, endpoints))
    ensures store.ingresses.value == if r.Ok? then Some(r.value) else old(store.ingresses.value)
  {
    var ingress := BuildIngress(app, endpoints);
    var err := store.ingresses.Create(ingress, f.create);
    if err.Some? {
      return Err(err.value);
    }
    return Ok(ingress);
  }

  /** updateIngressSpec on a live object: overwrites it with a freshly built
      Ingress, whatever it held. Since the build cannot fail, neither can
      this. Called on a nil object, the copy dereferences nil; callers
      model that case before the call. */
  method UpdateIngressSpec(app: Application, endpoints: seq<Endpoint>, ingress: Ingress)
    returns (ingress': Ingress)
    ensures ingress' == BuildIngress(app, endpoints)
    ensures ingress'.rules == IngressRules(app.name, endpoints)
  {
    ingress' := BuildIngress(app, endpoints);
  }

  function ReportError(child: Option<Ingress>, stored: Option<Application>, app: Application, cause: Error, f: Faults): SyncOutcome<Ingress> {
    var e := ReconcileErrorOutcome(stored, app, cause, f);
    SyncOutcome(child, e.stored, e.app, e.result, e.err)
  }

  /** The rewrite step shared by both versions of the pass: `ingress` is
      the object in hand (None for a nil pointer), `child` the stored one. */
  function RewriteStep(ingress: Option<Ingress>, child: Option<Ingress>, stored: Option<Application>, app: Application, filtered: seq<Endpoint>, f: Faults): SyncOutcome<Ingress> {
    if ingress.None? then SyncOutcome(child, stored, app, None, Some(NilPointerPanic))
    else
      var built := BuildIngress(app, filtered);
      var updateErr := ExistingError(f.update, child);
      if updateErr.Some? then ReportError(child, stored, app, updateErr.value, f)
      else SyncOutcome(Some(built), stored, app, None, None)
  }

  /** reconcileIngress as written. After a create the pass falls through to
      the rewrite; the create's error is overwritten unchecked, so a failed
      create leaves a nil object that the rewrite dereferences. */
  function IngressSync(child: Option<Ingress>, stored: Option<Application>, app: Application, f: Faults): (r: SyncOutcome<Ingress>)
    ensures r.err.None? && |WithDomains(app.spec.endpoints)| > 0 ==>
      r.child == Some(BuildIngress(app, WithDomains(app.spec.endpoints)))
    ensures r.err.None? && |WithDomains(app.spec.endpoints)| == 0 && f.childGet.None? ==> r.child.None?
    ensures r.stored.Some? <==> stored.Some?
    ensures r.stored.Some? ==> r.stored.value.spec == stored.value.spec && r.stored.value.name == stored.value.name
  {
    var got := GetOutcome(f.childGet, child);
    var filtered := WithDomains(app.spec.endpoints);
    var noEndpointsDefined := |filtered| == 0;
    if got.Err? && got.error == NotFound then
      if noEndpointsDefined then SyncOutcome(child, stored, app, None, None)
      else
        var createErr := CreateError(f.create, child);
        var afterCreate := if createErr.None? then Some(BuildIngress(app, filtered)) else child;
        var inHand := if createErr.None? then afterCreate else None;
        RewriteStep(inHand, afterCreate, stored, app, filtered, f)
    else if got.Err? then
      SyncOutcome(child, stored, app, None, Some(got.error))
    else if noEndpointsDefined then
      var deleteErr := ExistingError(f.delete, child);
      if deleteErr.Some? then ReportError(child, stored, app, deleteErr.value, f)
      else SyncOutcome(None, stored, app, None, None)
    else
      RewriteStep(Some(got.value), child, stored, app, filtered, f)
  }

  /** reconcileIngress: with domain endpoints, creates or rewrites the
      Ingress; without, deletes it if there is one. */
  method ReconcileIngress(store: Store, app: Application, f: Faults)
    returns (app': Application, result: Option<ReconcileResult>, err: Option<Error>)
    modifies store.ingresses, store.applications
    ensures SyncOutcome(store.ingresses.value, store.applications.value, app', result, err)
         == IngressSync(old(store.ingresses.value), old(store.applications.value), app, f)
  {
    var got := store.ingresses.Get(f.childGet);
    var domainEndpoint := EndpointsWithDomains(app.spec.endpoints);
    var noEndpointsDefined := |domainEndpoint| == 0;
    var ingress: Option<Ingress> := if got.Ok? then Some(got.value) else None;

    if got.Err? && got.error == NotFound {
      if noEndpointsDefined {
        return app, None, None;
      }
      var created := CreateIngress(store, app, domainEndpoint, f);
      ingress := if created.Ok? then Some(created.value) else None;
    } else if got.Err? {
      return app, None, Some(got.error);
    }

    if noEndpointsDefined {
      var deleteErr := store.ingresses.Delete(f.delete);
      if deleteErr.Some? {
        app', result, err := SetApplicationReconcileError(store, app, deleteErr.value, f);
        return;
      }
      return app, None, None;
    }

    if ingress.None? {
      // updateIngressSpec copies into a nil object: a nil dereference
      return app, None, Some(NilPointerPanic);
    }
    var rewritten := UpdateIngressSpec(app, domainEndpoint, ingress.value);
    var updateErr := store.ingresses.Update(rewritten, f.update);
    if updateErr.Some? {
      app', result, err := SetApplicationReconcileError(store, app, updateErr.value, f);
      return;
    }
    return app, None, None;
  }

  /** The discrepancy: whenever the Ingress is missing and wanted and the
      create fails, the pass ends in a nil dereference instead of
      reporting the create error, and nothing is written. */
  lemma IngressCreateFailurePanics(child: Option<Ingress>, stored: Option<Application>, app: Application, f: Faults)
    requires GetOutcome(f.childGet, child) == Err(NotFound)
    requires |WithDomains(app.spec.endpoints)| > 0
    requires CreateError(f.create, child).Some?
    ensures IngressSync(child, stored, app, f) == SyncOutcome(child, stored, app, None, Some(NilPointerPanic))
  {
  }

  /** A concrete case: a quota failure on create of a one-endpoint
      Application. */
  lemma IngressCreateFailureExample(stored: Option<Application>, app: Application)
    requires app.spec.endpoints == [Endpoint(80, "a.com", "/")]
    ensures var f := NoFaults.(create := Some(Failure("exceeded quota")));
            IngressSync(None, stored, app, f).err == Some(NilPointerPanic)
  {
    var es := app.spec.endpoints;
    assert es[..0] == [];
    assert WithDomains(es) == [es[0]];
  }

  // ---------------------------------------------------------------------
  // The pass with the create error checked.

  /** reconcileIngress with the create error returned as the service sync
      returns it; a successful create still falls through to the rewrite. */
  function IngressSyncChecked(child: Option<Ingress>, stored: Option<Application>, app: Application, f: Faults): (r: SyncOutcome<Ingress>)
    ensures r.err.None? && |WithDomains(app.spec.endpoints)| > 0 ==>
      r.child == Some(BuildIngress(app, WithDomains(app.spec.endpoints)))
    ensures r.err.None? && |WithDomains(app.spec.endpoints)| == 0 && f.childGet.None? ==> r.child.None?
    ensures r.stored.Some? <==> stored.Some?
    ensures r.stored.Some? ==> r.stored.value.spec == stored.value.spec && r.stored.value.name == stored.value.name
  {
    var got := GetOutcome(f.childGet, child);
    var filtered := WithDomains(app.spec.endpoints);
    if got.Err? && got.error == NotFound && |filtered| > 0 && CreateError(f.create, child).Some? then
      SyncOutcome(child, stored, app, None, CreateError(f.create, child))
    else
      IngressSync(child, stored, app, f)
  }

  method ReconcileIngressChecked(store: Store, app: Application, f: Faults)
    returns (app': Application, result: Option<ReconcileResult>, err: Option<Error>)
    modifies store.ingresses, store.applications
    ensures SyncOutcome(store.ingresses.value, store.applications.value, app', result, err)
         == IngressSyncChecked(old(store.ingresses.value), old(store.applications.value), app, f)
  {
    var got := store.ingresses.Get(f.childGet);
    var domainEndpoint := EndpointsWithDomains(app.spec.endpoints);
    var noEndpointsDefined := |domainEndpoint| == 0;
    var ingress: Ingress;

    if got.Err? && got.error == NotFound {
      if noEndpointsDefined {
        return app, None, None;
      }
      var created := CreateIngress(store, app, domainEndpoint, f);
      if created.Err? {
        return app, None, Some(created.error);
      }
      ingress := created.value;
    } else if got.Err? {
      return app, None, Some(got.error);
    } else {
      ingress := got.value;
    }

    if noEndpointsDefined {
      var deleteErr := store.ingresses.Delete(f.delete);
      if deleteErr.Some? {
        app', result, err := SetApplicationReconcileError(store, app, deleteErr.value, f);
        return;
      }
      return app, None, None;
    }

    var rewritten := UpdateIngressSpec(app, domainEndpoint, ingress);
    var updateErr := store.ingresses.Update(rewritten, f.update);
    if updateErr.Some? {
      app', result, err := SetApplicationReconcileError(store, app, updateErr.value, f);
      return;
    }
    return app, None, None;
  }

  /** Once the create's error is checked, a failed create is reported and nothing is written. */
  lemma IngressCreateFailureReported(child: Option<Ingress>, stored: Option<Application>, app: Application, f: Faults)
    requires GetOutcome(f.childGet, child) == Err(NotFound)
    requires |WithDomains(app.spec.endpoints)| > 0
    requires CreateError(f.create, child).Some?
    ensures IngressSyncChecked(child, stored, app, f) == SyncOutcome(child, stored, app, None, CreateError(f.create, child))
  {
  }

  /** The checked pass never dereferences nil. */
  lemma IngressSyncCheckedNeverPanics(child: Option<Ingress>, stored: Option<Application>, app: Application, f: Faults)
    requires f.childGet != Some(NilPointerPanic) && f.create != Some(NilPointerPanic)
    requires f.delete != Some(NilPointerPanic) && f.update != Some(NilPointerPanic)
    requires f.refetch != Some(NilPointerPanic) && f.statusWrite != Some(NilPointerPanic)
    ensures IngressSyncChecked(child, stored, app, f).err != Some(NilPointerPanic)
  {
  }

  /** The two versions differ only on a failed create of a wanted Ingress:
      in every other case the checked pass is the pass as written, so the
      case lemmas below hold of both. */
  lemma IngressSyncCheckedAgrees(child: Option<Ingress>, stored: Option<Application>, app: Application, f: Faults)
    requires !(GetOutcome(f.childGet, child) == Err(NotFound) && |WithDomains(app.spec.endpoints)| > 0 && CreateError(f.create, child).Some?)
    ensures IngressSyncChecked(child, stored, app, f) == IngressSync(child, stored, app, f)
  {
  }

  // ---------------------------------------------------------------------
  // What one pass does, case by case, as written. IngressSyncCheckedAgrees
  // carries each case over to the checked pass.

  /** Missing and not wanted: nothing is written and nothing returned. */
  lemma IngressNotWanted(child: Option<Ingress>, stored: Option<Application>, app: Application, f: Faults)
    requires GetOutcome(f.childGet, child) == Err(NotFound)
    requires forall e :: e in app.spec.endpoints ==> e.domain == ""
    ensures IngressSync(child, stored, app, f) == SyncOutcome(child, stored, app, None, None)
  {
    WithDomainsMembers(app.spec.endpoints);
  }

  /** Missing, wanted and created: the pass goes on to rewrite the object
      it just created, so a failing rewrite is reported as a reconcile
      error while the created Ingress stays. */
  lemma IngressCreatedThenRewritten(child: Option<Ingress>, stored: Option<Application>, app: Application, f: Faults)
    requires GetOutcome(f.childGet, child) == Err(NotFound)
    requires |WithDomains(app.spec.endpoints)| > 0
    requires CreateError(f.create, child).None?
    ensures var built := BuildIngress(app, WithDomains(app.spec.endpoints));
            var o := IngressSync(child, stored, app, f);
            && (f.update.None? ==> o == SyncOutcome(Some(built), stored, app, None, None))
            && (f.update.Some? ==> o == ReportError(Some(built), stored, app, f.update.value, f))
  {
  }

  /** A read error other than NotFound is returned and nothing is written. */
  lemma IngressGetFailed(child: Option<Ingress>, stored: Option<Application>, app: Application, f: Faults)
    requires f.childGet.Some? && f.childGet.value != NotFound
    ensures IngressSync(child, stored, app, f) == SyncOutcome(child, stored, app, None, f.childGet)
  {
  }

  /** Present and no longer wanted: the Ingress is deleted; a failed delete
      is reported through the reconcile-error path. */
  lemma IngressDelete(child: Option<Ingress>, stored: Option<Application>, app: Application, f: Faults)
    requires GetOutcome(f.childGet, child).Ok?
    requires forall e :: e in app.spec.endpoints ==> e.domain == ""
    ensures var o := IngressSync(child, stored, app, f);
            && (f.delete.None? ==> o == SyncOutcome(None, stored, app, None, None))
            && (f.delete.Some? ==> o == ReportError(child, stored, app, f.delete.value, f))
  {
    WithDomainsMembers(app.spec.endpoints);
  }

  /** Present and wanted: the written Ingress is the one built from the
      domain endpoints; an update failure is reported. */
  lemma IngressUpdate(child: Option<Ingress>, stored: Option<Application>, app: Application, f: Faults)
    requires GetOutcome(f.childGet, child).Ok?
    requires |WithDomains(app.spec.endpoints)| > 0
    ensures var built := BuildIngress(app, WithDomains(app.spec.endpoints));
            var o := IngressSync(child, stored, app, f);
            && (f.update.None? ==> o == SyncOutcome(Some(built), stored, app, None, None))
            && (f.update.Some? ==> o == ReportError(child, stored, app, f.update.value, f))
  {
  }

  /** Without faults, one pass leaves an Ingress exactly when some endpoint
      has a domain, and then it routes exactly those endpoints. */
  lemma IngressWantedIffDomains(child: Option<Ingress>, stored: Option<Application>, app: Application)
    ensures var o := IngressSync(child, stored, app, NoFaults);
            && (o.child.Some? <==> exists e :: e in app.spec.endpoints && e.domain != "")
            && (o.child.Some? ==> o.child.value.rules == IngressRules(app.name, WithDomains(app.spec.endpoints)))
            && o.err.None? && o.stored == stored
  {
    WithDomainsMembers(app.spec.endpoints);
  }
}
