/** The Application resource (api/v1alpha1/application_types.go) and the
    status-condition upsert the controller applies to it. */
module ApplicationTypes {
  import opened Wrappers
  import opened NetworkingTypes
  import opened RuntimeTypes
  import opened Labels

  /** A container image reference. `reference` stands for the image's
      `String()` rendering and `tag` for its `Tag()`; both are defined
      outside this model and are taken as given. */
  datatype RuntimeImage = RuntimeImage(reference: string, tag: string)

  datatype ApplicationRuntime = ApplicationRuntime(size: RuntimeSize, image: RuntimeImage)

  datatype ApplicationSpec = ApplicationSpec(
    replicas: int32,
    runtime: ApplicationRuntime,
    endpoints: seq<Endpoint>,
    launchCommand: seq<string>)

  datatype ConditionStatus = ConditionTrue | ConditionFalse | ConditionUnknown

  /** A status condition; transition times and generations are not modelled. */
  datatype Condition = Condition(conditionType: string, status: ConditionStatus, reason: string, message: string)

  datatype ApplicationStatus = ApplicationStatus(conditions: seq<Condition>)

  /** `deletionRequested` stands for a set deletion timestamp. */
  datatype Application = Application(
    name: string,
    namespace: string,
    labels: Labels,
    deletionRequested: bool,
    spec: ApplicationSpec,
    status: ApplicationStatus)

  /** The first condition of the given type, if any. */
  function FindStatusCondition(conds: seq<Condition>, conditionType: string): (r: Option<Condition>)
    ensures r.Some? ==> r.value in conds && r.value.conditionType == conditionType
    ensures r.None? <==> forall c :: c in conds ==> c.conditionType != conditionType
  {
    if conds == [] then None
    else if conds[0].conditionType == conditionType then Some(conds[0])
    else FindStatusCondition(conds[1..], conditionType)
  }

  /** Upsert keyed by type: the first condition of `c`'s type is replaced
      by `c`, in place; without one, `c` is appended. */
  function SetStatusCondition(conds: seq<Condition>, c: Condition): (r: seq<Condition>)
    ensures c in r
    ensures |conds| <= |r| <= |conds| + 1
    ensures forall x :: x in r ==> x == c || x in conds
  {
    if conds == [] then [c]
    else if conds[0].conditionType == c.conditionType then [c] + conds[1..]
    else [conds[0]] + SetStatusCondition(conds[1..], c)
  }

  ghost predicate UniqueTypes(conds: seq<Condition>) {
    forall i, j :: 0 <= i < j < |conds| ==> conds[i].conditionType != conds[j].conditionType
  }

  /** After the upsert, looking up `c`'s type finds `c`; every other type
      finds what it found before. */
  lemma {:induction false} SetStatusConditionLookup(conds: seq<Condition>, c: Condition, t: string)
    ensures FindStatusCondition(SetStatusCondition(conds, c), t)
         == if t == c.conditionType then Some(c) else FindStatusCondition(conds, t)
    decreases |conds|
  {
    if conds != [] && conds[0].conditionType != c.conditionType {
      SetStatusConditionLookup(conds[1..], c, t);
    }
  }

  /** The upsert grows the list by one exactly when no condition of that
      type was present, and keeps its length otherwise. */
  lemma {:induction false} SetStatusConditionLength(conds: seq<Condition>, c: Condition)
    ensures |SetStatusCondition(conds, c)|
         == if FindStatusCondition(conds, c.conditionType).None? then |conds| + 1 else |conds|
    decreases |conds|
  {
    if conds != [] && conds[0].conditionType != c.conditionType {
      SetStatusConditionLength(conds[1..], c);
    }
  }

  /** Conditions of other types are kept, and nothing else is added. */
  lemma {:induction false} SetStatusConditionMembers(conds: seq<Condition>, c: Condition)
    ensures c in SetStatusCondition(conds, c)
    ensures forall d :: d in conds && d.conditionType != c.conditionType ==> d in SetStatusCondition(conds, c)
    ensures forall d :: d in SetStatusCondition(conds, c) ==> d == c || d in conds
    decreases |conds|
  {
    if conds != [] && conds[0].conditionType != c.conditionType {
      SetStatusConditionMembers(conds[1..], c);
    }
  }

  /** A list with one condition per type keeps that shape. */
  lemma {:induction false} SetStatusConditionUnique(conds: seq<Condition>, c: Condition)
    requires UniqueTypes(conds)
    ensures UniqueTypes(SetStatusCondition(conds, c))
    decreases |conds|
  {
    if conds != [] {
      var rest := conds[1..];
      assert UniqueTypes(rest) by {
        forall i, j | 0 <= i < j < |rest|
          ensures rest[i].conditionType != rest[j].conditionType
        {
          assert rest[i] == conds[i + 1] && rest[j] == conds[j + 1];
        }
      }
      if conds[0].conditionType != c.conditionType {
        SetStatusConditionUnique(rest, c);
        SetStatusConditionMembers(rest, c);
        var r := SetStatusCondition(conds, c);
        forall j | 0 < j < |r|
          ensures r[0].conditionType != r[j].conditionType
        {
          var d := r[j];
          assert d in SetStatusCondition(rest, c);
          if d != c {
            var k :| 0 <= k < |rest| && rest[k] == d;
            assert conds[k + 1] == d;
          }
        }
      } else {
        var r := SetStatusCondition(conds, c);
        forall j | 0 < j < |r|
          ensures r[0].conditionType != r[j].conditionType
        {
          assert r[j] == conds[j];
        }
      }
    }
  }

  /** Upserting the same condition twice is upserting it once. */
  lemma {:induction false} SetStatusConditionIdempotent(conds: seq<Condition>, c: Condition)
    ensures SetStatusCondition(SetStatusCondition(conds, c), c) == SetStatusCondition(conds, c)
    decreases |conds|
  {
    if conds != [] && conds[0].conditionType != c.conditionType {
      SetStatusConditionIdempotent(conds[1..], c);
    }
  }

  /** The application with `c` upserted into its status conditions. */
  function WithCondition(app: Application, c: Condition): (r: Application)
    ensures r.name == app.name && r.namespace == app.namespace && r.spec == app.spec
    ensures r.labels == app.labels && r.deletionRequested == app.deletionRequested
  {
    app.(status := ApplicationStatus(SetStatusCondition(app.status.conditions, c)))
  }
}
