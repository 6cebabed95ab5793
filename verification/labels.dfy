/** Label merging with the operator's provenance labels
    (internal/controller/resolvers/labels.go). */
module Labels {

  type Labels = map<string, string>

  /** The key naming the instance a child object belongs to. */
  const InstanceKey := "app.kubernetes.io/instance"

  const PartOfKey := "app.kubernetes.io/part-of"
  const PartOfValue := "k4indie-operator"
  const CreatedByKey := "app.kubernetes.io/created-by"
  const CreatedByValue := "controller-manager"

  /** The provenance labels every merge ends with. */
  const DefaultLabels: Labels := map[PartOfKey := PartOfValue, CreatedByKey := CreatedByValue]

  /** Copies the maps of `list` one after the other into one map: a later
      map's value for a key replaces an earlier one. */
  function Fold(list: seq<Labels>): Labels
  {
    if list == [] then map[] else Fold(list[..|list| - 1]) + list[|list| - 1]
  }

  /** The labels MergeDefaultLabels computes: the inputs, then the defaults. */
  function MergedLabels(list: seq<Labels>): (r: Labels)
    ensures PartOfKey in r && r[PartOfKey] == PartOfValue
    ensures CreatedByKey in r && r[CreatedByKey] == CreatedByValue
  {
    Fold(list + [DefaultLabels])
  }

  /** Every key of every input. */
  function AllKeys(list: seq<Labels>): set<string>
  {
    set i, k | 0 <= i < |list| && k in list[i] :: k
  }

  /** Merges the label maps of `labelsList` and the provenance labels into a
      fresh map, later maps winning on a shared key. */
  method MergeDefaultLabels(labelsList: seq<Labels>) returns (result: Labels)
    ensures result == MergedLabels(labelsList)
  {
    result := map[];
    var all := labelsList + [DefaultLabels];
    for i := 0 to |all|
      invariant result == Fold(all[..i])
    {
      var labels := all[i];
      ghost var before := result;
      var rest := labels.Keys;
      while rest != {}
        invariant rest <= labels.Keys
        invariant result == before + Restrict(labels, labels.Keys - rest)
        decreases rest
      {
        var k :| k in rest;
        RestrictGrow(before, labels, rest, k);
        result := result[k := labels[k]];
        rest := rest - {k};
      }
      FoldStep(all, i, result);
    }
    assert all[..|all|] == all;
  }

  /** The entries of `m` whose keys are in `ks`. */
  function Restrict(m: Labels, ks: set<string>): Labels
    requires ks <= m.Keys
  {
    map k | k in ks :: m[k]
  }

  lemma RestrictGrow(base: Labels, m: Labels, rest: set<string>, k: string)
    requires rest <= m.Keys && k in rest
    ensures (base + Restrict(m, m.Keys - rest))[k := m[k]] == base + Restrict(m, m.Keys - (rest - {k}))
  {
    assert m.Keys - (rest - {k}) == (m.Keys - rest) + {k};
  }

  lemma FoldStep(all: seq<Labels>, i: int, result: Labels)
    requires 0 <= i < |all|
    requires result == Fold(all[..i]) + Restrict(all[i], all[i].Keys - {})
    ensures result == Fold(all[..i + 1])
  {
    assert all[i] == Restrict(all[i], all[i].Keys - {});
    assert all[..i + 1][..i] == all[..i];
  }

  /** The merge's keys are the inputs' keys and the two provenance keys. */
  lemma {:induction false} FoldKeys(list: seq<Labels>)
    ensures Fold(list).Keys == AllKeys(list)
  {
    if list != [] {
      var init := list[..|list| - 1];
      FoldKeys(init);
      forall k | k in AllKeys(list) ensures k in Fold(list) {
        var i :| 0 <= i < |list| && k in list[i];
        if i < |list| - 1 { assert k in init[i]; }
      }
      forall k | k in Fold(list) ensures k in AllKeys(list) {
        if k !in list[|list| - 1] {
          var i :| 0 <= i < |init| && k in init[i];
          assert k in list[i];
        }
      }
    }
  }

  /** A key's value comes from the last map that holds it. */
  lemma {:induction false} FoldLastWriter(list: seq<Labels>, i: int, k: string)
    requires 0 <= i < |list| && k in list[i]
    requires forall j :: i < j < |list| ==> k !in list[j]
    ensures k in Fold(list) && Fold(list)[k] == list[i][k]
  {
    if i < |list| - 1 {
      var init := list[..|list| - 1];
      FoldLastWriter(init, i, k);
    }
  }

  lemma FoldSnoc(list: seq<Labels>, m: Labels)
    ensures Fold(list + [m]) == Fold(list) + m
  {
    assert (list + [m])[..|list|] == list;
  }

  /** The merged keys are the union of the input keys and the default keys. */
  lemma MergedKeys(list: seq<Labels>)
    ensures MergedLabels(list).Keys == AllKeys(list) + {PartOfKey, CreatedByKey}
  {
    var all := list + [DefaultLabels];
    FoldKeys(all);
    forall k | k in AllKeys(all) ensures k in AllKeys(list) + {PartOfKey, CreatedByKey} {
      var i :| 0 <= i < |all| && k in all[i];
      if i < |list| { assert k in list[i]; }
    }
    forall k | k in AllKeys(list) ensures k in AllKeys(all) {
      var i :| 0 <= i < |list| && k in list[i];
      assert k in all[i];
    }
    assert PartOfKey in all[|list|] && CreatedByKey in all[|list|];
  }

  /** For a key other than the two provenance keys, the merged value is the
      one of the last input map holding it. */
  lemma MergedLastWriter(list: seq<Labels>, i: int, k: string)
    requires k != PartOfKey && k != CreatedByKey
    requires 0 <= i < |list| && k in list[i]
    requires forall j :: i < j < |list| ==> k !in list[j]
    ensures k in MergedLabels(list) && MergedLabels(list)[k] == list[i][k]
  {
    var all := list + [DefaultLabels];
    assert all[i] == list[i];
    FoldLastWriter(all, i, k);
  }

  /** The provenance labels win over any input value for their keys. */
  lemma DefaultsWin(list: seq<Labels>, i: int)
    requires 0 <= i < |list|
    ensures PartOfKey in list[i] ==> MergedLabels(list)[PartOfKey] == PartOfValue
    ensures CreatedByKey in list[i] ==> MergedLabels(list)[CreatedByKey] == CreatedByValue
  {
  }

  /** Merging nothing gives exactly the provenance labels. */
  lemma MergeNothing()
    ensures MergedLabels([]) == DefaultLabels
  {
    FoldSnoc([], DefaultLabels);
    assert [] + [DefaultLabels] == [DefaultLabels];
  }

  /** Merging the result of a merge again changes nothing. */
  lemma MergeIdempotent(list: seq<Labels>)
    ensures MergedLabels([MergedLabels(list)]) == MergedLabels(list)
  {
    var m := MergedLabels(list);
    FoldSnoc([], m);
    FoldSnoc([m], DefaultLabels);
    assert [] + [m] == [m];
    assert Fold([m, DefaultLabels]) == m + DefaultLabels;
    assert m + DefaultLabels == m;
  }

  /** The label test: instance and version kept, provenance labels added. */
  lemma MergeExample()
    ensures MergedLabels([map["app.kubernetes.io/instance" := "test", "app.kubernetes.io/version" := "test"]])
         == map["app.kubernetes.io/instance" := "test", "app.kubernetes.io/version" := "test",
                PartOfKey := PartOfValue, CreatedByKey := CreatedByValue]
  {
    var m := map["app.kubernetes.io/instance" := "test", "app.kubernetes.io/version" := "test"];
    FoldSnoc([], m);
    FoldSnoc([m], DefaultLabels);
    assert [] + [m] == [m];
  }

  /** A label selector matches an object when every label it names is on
      the object with the same value. */
  predicate Selects(selector: Labels, labels: Labels) {
    forall k :: k in selector ==> k in labels && labels[k] == selector[k]
  }
}
