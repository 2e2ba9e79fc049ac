/** The parameter record of CoupledOscillators/parameters.hpp: the simulation's settings,
    with a numeric code per field, a `set`/`get` pair that moves uniform values in and out
    of the numeric and boolean fields, and a string `set` for the labels. The 22 fields the
    uniform switch lists are held as a table keyed by their codes and the 11 `Label` fields as
    a map keyed by theirs; the selection lists and the image-record flag, which neither switch
    lists, are named fields. Floats are held as exact reals. The empty line-divider members
    hold no data and are not modelled. */
module CoupledParameters {

  import opened Uniforms
  import opened UniformTable

  datatype SimParams = SimParams(
    values: Table,
    labels: map<int, string>,
    boundaryType: SelectionList,
    displayType: SelectionList,
    clickActionNormal: SelectionList,
    presetDispersionRelation: SelectionList,
    imageRecord: bool)

  /** The field codes (CoupledOscillators/parameters.hpp:69-113). */
  const StepsPerFrame: int := 0
  const Dt: int := 1
  const T: int := 2
  const StepCount: int := 3
  const NumberOfOscillators: int := 4
  const BoundaryType: int := 5
  const LineDivMonteCarlo: int := 6
  const LabelMonteCarlo: int := 7
  const RelativeDelta: int := 8
  const AcceptanceRateLabel: int := 9
  const AcceptanceRate: int := 10
  const NumberOfMCSteps: int := 11
  const LineDivSampleColor: int := 12
  const LabelSamples: int := 13
  const AlphaBrightness: int := 14
  const ColorOfSamples1: int := 15
  const ColorOfSamples2: int := 16
  const DisplayType: int := 17
  const ShowNormalCoordSamples: int := 18
  const LineDivNormalModeWaveFunc: int := 19
  const LabelNormalModeWaveFunc: int := 20
  const ColorPhase: int := 21
  const ModesBrightness: int := 22
  const LineDivWaveFuncOptions: int := 23
  const WaveFuncConfigLabel: int := 24
  const UseCoherentStates: int := 25
  const UseSqueezed: int := 26
  const UseStationary: int := 27
  const UseSingleExcitations: int := 28
  const NoteForUseSingleExcitations: int := 29
  const CoherentOrSqueezedSelectedLabel: int := 30
  const ClickActionNormal: int := 31
  const SqueezedSelectedLabel: int := 32
  const SqueezedFactorGlobal: int := 33
  const SqueezedFactor: int := 34
  const SqueezedStateRelStDevLabel: int := 35
  const EnergyEigenstatesSelectedLabel: int := 36
  const AddEnergy: int := 37
  const RemoveEnergy: int := 38
  const LineDivAdditionalOptions: int := 39
  const DispersionOptionsLabel: int := 40
  const PresetDispersionRelation: int := 41
  const ImageRecord: int := 42

  /** Every code in the order its field is declared. */
  const Declared: seq<int> := [
    StepsPerFrame, Dt, T, StepCount, NumberOfOscillators, BoundaryType, LineDivMonteCarlo,
    LabelMonteCarlo, RelativeDelta, AcceptanceRateLabel, AcceptanceRate, NumberOfMCSteps,
    LineDivSampleColor, LabelSamples, AlphaBrightness, ColorOfSamples1, ColorOfSamples2,
    DisplayType, ShowNormalCoordSamples, LineDivNormalModeWaveFunc, LabelNormalModeWaveFunc,
    ColorPhase, ModesBrightness, LineDivWaveFuncOptions, WaveFuncConfigLabel,
    UseCoherentStates, UseSqueezed, UseStationary, UseSingleExcitations,
    NoteForUseSingleExcitations, CoherentOrSqueezedSelectedLabel, ClickActionNormal,
    SqueezedSelectedLabel, SqueezedFactorGlobal, SqueezedFactor, SqueezedStateRelStDevLabel,
    EnergyEigenstatesSelectedLabel, AddEnergy, RemoveEnergy, LineDivAdditionalOptions,
    DispersionOptionsLabel, PresetDispersionRelation, ImageRecord]

  /** The codes the uniform `set` and `get` switch on, with the type of each one's field. */
  function FieldType(code: int): Option<UniformType> {
    if code == StepsPerFrame || code == StepCount || code == NumberOfOscillators || code == NumberOfMCSteps then
      Some(Int32Type)
    else if code == Dt || code == T || code == RelativeDelta || code == AcceptanceRate || code == AlphaBrightness
         || code == ModesBrightness || code == SqueezedFactorGlobal || code == SqueezedFactor then
      Some(Float32Type)
    else if code == ColorOfSamples1 || code == ColorOfSamples2 then Some(Vec3Type)
    else if code == ShowNormalCoordSamples || code == ColorPhase || code == UseCoherentStates || code == UseSqueezed
         || code == UseStationary || code == UseSingleExcitations || code == AddEnergy || code == RemoveEnergy then
      Some(Bool32Type)
    else None
  }

  /** The codes of the label fields the string `set` writes. */
  predicate IsLabelCode(code: int) {
    code == LabelMonteCarlo || code == AcceptanceRateLabel || code == LabelSamples
    || code == LabelNormalModeWaveFunc || code == WaveFuncConfigLabel || code == NoteForUseSingleExcitations
    || code == CoherentOrSqueezedSelectedLabel || code == SqueezedSelectedLabel
    || code == SqueezedStateRelStDevLabel || code == EnergyEigenstatesSelectedLabel || code == DispersionOptionsLabel
  }

  /** Every table entry is typed as its field and every label code has its label. */
  ghost predicate Valid(p: SimParams) {
    Typed(FieldType, p.values) && forall c :: c in p.labels <==> IsLabelCode(c)
  }

  /** The initialisers of the int fields (CoupledOscillators/parameters.hpp:26-68). */
  function IntDefault(code: int): int {
    if code == StepsPerFrame then 1
    else if code == NumberOfOscillators then 64
    else if code == NumberOfMCSteps then 20000
    else 0
  }

  /** The initialisers of the float fields. */
  function FloatDefault(code: int): real {
    if code == Dt then 0.1
    else if code == RelativeDelta then 0.66
    else if code == AlphaBrightness then 0.01
    else if code == ModesBrightness then 1.25
    else if code == SqueezedFactorGlobal || code == SqueezedFactor then 1.0
    else 0.0
  }

  /** The initialisers of the two colour fields. */
  function Vec3Default(code: int): Vec3 {
    if code == ColorOfSamples1 then (0.0, 0.85, 1.0) else (0.0, 1.0, 0.0)
  }

  /** The initialisers of the boolean fields: three are set, the rest clear. */
  function BoolDefault(code: int): bool {
    code == ShowNormalCoordSamples || code == UseCoherentStates || code == AddEnergy
  }

  /** The initial value of the field of type t with the given code. */
  function Initialiser(code: int, t: UniformType): (u: Uniform)
    ensures TypeOf(u) == t
  {
    match t
    case Int32Type => Int32(IntDefault(code))
    case Float32Type => Float32(FloatDefault(code))
    case Vec3Type => Vec3U(Vec3Default(code))
    case Bool32Type => Bool32(BoolDefault(code))
    case _ => Retag(ZeroInt, t)
  }

  /** The record as its field initialisers leave it: every listed code holds its initial
      value, every label is empty. */
  const Defaults: SimParams := SimParams(
    map c | 0 <= c < |Declared| && FieldType(c).Some? :: Initialiser(c, FieldType(c).value),
    map c | 0 <= c < |Declared| && IsLabelCode(c) :: "",
    SelectionList(0, ["Zero at endpoints", "Periodic"]),
    SelectionList(1, ["Lines", "Scatter", "Multi-coloured histogram"]),
    SelectionList(0, ["Change selected while setting others to zero", "Modify selection only"]),
    SelectionList(0, ["2*sin((pi/2)*(abs(k)/k_max))", "pi*(abs(k)/k_max)"]),
    false)

  /** The uniform `set` (CoupledOscillators/parameters.hpp:114-183): only the table entry of
      a listed code changes. */
  function Set(p: SimParams, code: int, val: Uniform): (r: SimParams)
    ensures FieldType(code).None? ==> r == p
    ensures r.labels == p.labels && r.boundaryType == p.boundaryType && r.displayType == p.displayType
    ensures r.clickActionNormal == p.clickActionNormal && r.presetDispersionRelation == p.presetDispersionRelation
    ensures r.imageRecord == p.imageRecord
    ensures Valid(p) ==> Valid(r)
  {
    p.(values := UniformTable.Set(FieldType, p.values, code, val))
  }

  /** The uniform `get` (CoupledOscillators/parameters.hpp:184-232). */
  function Get(p: SimParams, code: int): (u: Uniform)
    ensures FieldType(code).Some? ==> TypeOf(u) == FieldType(code).value
    ensures FieldType(code).None? ==> u == ZeroInt
  {
    UniformTable.Get(FieldType, p.values, code)
  }

  /** The label a label code names, and "" for any other code. */
  function LabelOf(p: SimParams, code: int): string {
    if code in p.labels then p.labels[code] else ""
  }

  /** The string `set` (CoupledOscillators/parameters.hpp:233-269). Its index argument is
      not read. */
  function SetLabel(p: SimParams, code: int, index: int, val: string): (r: SimParams)
    ensures !IsLabelCode(code) ==> r == p
    ensures IsLabelCode(code) ==> LabelOf(r, code) == val
    ensures r.values == p.values && r.boundaryType == p.boundaryType && r.displayType == p.displayType
    ensures r.clickActionNormal == p.clickActionNormal && r.presetDispersionRelation == p.presetDispersionRelation
    ensures r.imageRecord == p.imageRecord
    ensures Valid(p) ==> Valid(r)
  {
    if IsLabelCode(code) then p.(labels := p.labels[code := val]) else p
  }

  /** Reading a field back after setting it gives the value set, as the field's type. */
  lemma GetAfterSet(p: SimParams, code: int, val: Uniform)
    requires FieldType(code).Some?
    ensures Get(Set(p, code, val), code) == Retag(val, FieldType(code).value)
  {
    UniformTable.GetAfterSet(FieldType, p.values, code, val);
  }

  /** Setting a field to the value read from it changes nothing. */
  lemma SetAfterGet(p: SimParams, code: int)
    requires Valid(p)
    ensures Set(p, code, Get(p, code)) == p
  {
    UniformTable.SetAfterGet(FieldType, p.values, code);
  }

  /** A second set of the same code overrides the first. */
  lemma SetTwice(p: SimParams, code: int, v1: Uniform, v2: Uniform)
    ensures Set(Set(p, code, v1), code, v2) == Set(p, code, v2)
  {
    UniformTable.SetTwice(FieldType, p.values, code, v1, v2);
  }

  /** Setting one code leaves every other code's value and every label as they were. */
  lemma SetFrame(p: SimParams, code: int, other: int, val: Uniform)
    requires other != code
    ensures Get(Set(p, code, val), other) == Get(p, other)
    ensures LabelOf(Set(p, code, val), other) == LabelOf(p, other)
  {
    UniformTable.SetFrame(FieldType, p.values, code, other, val);
  }

  /** `set` and `get` list the same codes: the 22 of FieldType. */
  lemma SetAndGetListSameCodes(p: SimParams, code: int)
    ensures FieldType(code).None? <==> forall v :: Set(p, code, v) == p
    ensures FieldType(code).None? <==> forall v :: Get(Set(p, code, v), code) == ZeroInt
  {
    UniformTable.SetAndGetListSameCodes(FieldType, p.values, code);
    if FieldType(code).Some? {
      var v :| UniformTable.Set(FieldType, p.values, code, v) != p.values;
      assert Set(p, code, v) != p;
      var w := Other(Retag(ZeroInt, FieldType(code).value));
      UniformTable.GetAfterSet(FieldType, p.values, code, w);
      assert Get(Set(p, code, w), code) != ZeroInt;
    }
  }

  /** The string set writes the named label and nothing a uniform code reads, nor any other
      label. */
  lemma SetLabelFrame(p: SimParams, code: int, other: int, index: int, val: string)
    ensures other != code ==> LabelOf(SetLabel(p, code, index, val), other) == LabelOf(p, other)
    ensures Get(SetLabel(p, code, index, val), other) == Get(p, other)
  {
  }

  /** The 22 codes the uniform switch lists, in order. */
  const ValueCodes: seq<int> := [
    StepsPerFrame, Dt, T, StepCount, NumberOfOscillators, RelativeDelta, AcceptanceRate,
    NumberOfMCSteps, AlphaBrightness, ColorOfSamples1, ColorOfSamples2, ShowNormalCoordSamples,
    ColorPhase, ModesBrightness, UseCoherentStates, UseSqueezed, UseStationary,
    UseSingleExcitations, SqueezedFactorGlobal, SqueezedFactor, AddEnergy, RemoveEnergy]

  /** The codes are 0 to 42 in declaration order. */
  lemma CodesInDeclarationOrder()
    ensures |Declared| == 43
    ensures forall i :: 0 <= i < |Declared| ==> Declared[i] == i
  {
  }

  /** 22 distinct codes carry a uniform value. */
  lemma ValueCodesListed()
    ensures |ValueCodes| == 22 && forall i, j :: 0 <= i < j < |ValueCodes| ==> ValueCodes[i] < ValueCodes[j]
    ensures forall c :: FieldType(c).Some? <==> c in ValueCodes
  {
  }

  /** The codes the string set writes carry no uniform value. */
  lemma LabelCodesCarryNoValue()
    ensures forall c :: IsLabelCode(c) ==> 0 <= c < 43 && FieldType(c).None?
  {
  }

  /** Every code either switch lists is declared. */
  lemma ListedCodesDeclared()
    ensures forall c :: FieldType(c).Some? || IsLabelCode(c) ==> 0 <= c < |Declared|
  {
  }

  /** A fresh record is well formed. */
  lemma DefaultsValid()
    ensures Valid(Defaults)
  {
    ListedCodesDeclared();
  }

  /** A fresh record reads each listed field's initial value. */
  lemma DefaultsRead(code: int)
    requires FieldType(code).Some?
    ensures Get(Defaults, code) == Initialiser(code, FieldType(code).value)
  {
    ListedCodesDeclared();
  }

  /** A fresh record samples 64 oscillators with 20000 Monte Carlo steps of relative size
      0.66. */
  lemma DefaultSampling()
    ensures Get(Defaults, NumberOfOscillators) == Int32(64)
    ensures Get(Defaults, NumberOfMCSteps) == Int32(20000)
    ensures Get(Defaults, RelativeDelta) == Float32(0.66)
  {
    DefaultsRead(NumberOfOscillators);
    DefaultsRead(NumberOfMCSteps);
    DefaultsRead(RelativeDelta);
  }

  /** A fresh record starts from coherent states, with none of the other initial wave
      function families chosen. */
  lemma DefaultWaveFunctionFamily()
    ensures Get(Defaults, UseCoherentStates) == Bool32(true)
    ensures Get(Defaults, UseSqueezed) == Bool32(false)
    ensures Get(Defaults, UseStationary) == Bool32(false)
    ensures Get(Defaults, UseSingleExcitations) == Bool32(false)
  {
    DefaultsRead(UseCoherentStates);
    DefaultsRead(UseSqueezed);
    DefaultsRead(UseStationary);
    DefaultsRead(UseSingleExcitations);
  }
}
