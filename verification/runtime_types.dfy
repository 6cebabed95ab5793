/** The runtime size tags of an Application (api/v1alpha1/runtime_types.go). */
module RuntimeTypes {

  /** A size tag is a plain string: admission may let any value through. */
  type RuntimeSize = string

  const BasicMachineType: RuntimeSize := "basic"
  const Basic2xMachineType: RuntimeSize := "basic-2x"
  const StandardMachineType: RuntimeSize := "standard"
  const Standard2xMachineType: RuntimeSize := "standard-2x"
  const PerformanceMachineType: RuntimeSize := "performance"

  /** The tags the operator accepts, from the smallest to the largest. */
  const SizeOrder: seq<RuntimeSize> :=
    [BasicMachineType, Basic2xMachineType, StandardMachineType, Standard2xMachineType, PerformanceMachineType]

  /** The set of all valid runtime sizes. */
  const RuntimeSizes: set<RuntimeSize> :=
    {BasicMachineType, Basic2xMachineType, StandardMachineType, Standard2xMachineType, PerformanceMachineType}

  /** The values the admission enum annotation on the type lets through. */
  const AdmissionEnum: set<RuntimeSize> :=
    {BasicMachineType, Basic2xMachineType, Standard2xMachineType, PerformanceMachineType}

  /** The admission enum with every valid size, as evidently intended. */
  const AdmissionEnumCorrected: set<RuntimeSize> := set s | s in SizeOrder

  /** The five tags are five different strings, so the set has five members
      and the order lists each tag once. */
  lemma TagsDistinct()
    ensures forall i, j :: 0 <= i < j < |SizeOrder| ==> SizeOrder[i] != SizeOrder[j]
    ensures |RuntimeSizes| == 5
    ensures forall s :: s in RuntimeSizes <==> s in SizeOrder
  {
  }

  /** The enum annotation omits "standard": a size the controller accepts
      is refused at admission. */
  lemma AdmissionEnumOmitsStandard()
    ensures AdmissionEnum < RuntimeSizes
    ensures RuntimeSizes - AdmissionEnum == {StandardMachineType}
  {
  }

  /** The corrected enum admits exactly the valid sizes. */
  lemma AdmissionEnumCorrectedIsRuntimeSizes()
    ensures AdmissionEnumCorrected == RuntimeSizes
  {
  }
}
