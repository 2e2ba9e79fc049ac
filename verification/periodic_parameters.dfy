/** The parameter record of Periodic2DSystem/parameters.hpp, laid out as the CoupledOscillators
    record is: the 19 fields the uniform switch lists are held as a table keyed by their codes,
    the two `Label` fields as a map keyed by theirs, and the text-entry boxes, the drop-down
    lists and the screenshot record as named fields. Floats are held as exact reals. The empty
    divider, button and image-upload members hold no data and are not modelled. */
module PeriodicParameters {

  import opened Uniforms
  import opened UniformTable
  import opened Factorisation

  /** BMPRecord: whether screenshots are being taken, and their size. */
  datatype BMPRecord = BMPRecord(isRecording: bool, width: int, height: int)

  datatype SimParams = SimParams(
    values: Table,
    labels: map<int, string>,
    userTextEntry: seq<string>,
    mouseUsageEntry: SelectionList,
    presetPotentialDropdown: SelectionList,
    takeScreenshots: BMPRecord)

  /** The field codes (Periodic2DSystem/parameters.hpp:62-92). */
  const T: int := 0
  const StepsPerFrame: int := 1
  const Brightness: int := 2
  const BrightnessV: int := 3
  const BrightnessParticles: int := 4
  const Hbar: int := 5
  const WaveFuncSize: int := 6
  const M: int := 7
  const Dt: int := 8
  const MouseUsageEntry: int := 9
  const NumberOfParticles: int := 10
  const ShowTrails: int := 11
  const LineDiv: int := 12
  const SliderSetWaveFuncTitle: int := 13
  const SliderNewWaveFuncMomentum: int := 14
  const SliderNewWaveFuncPosition: int := 15
  const EnterWaveFunc: int := 16
  const LineDiv2: int := 17
  const WaveDiscretizationDimensions: int := 18
  const PotentialGridWidth: int := 19
  const PotentialGridHeight: int := 20
  const WaveSimulationDimensions: int := 21
  const PresetPotentialDropdown: int := 22
  const UserTextEntry: int := 23
  const UserWarningLabel: int := 24
  const AddAbsorbingBoundaries: int := 25
  const ImagePotential: int := 26
  const TakeScreenshots: int := 27
  const DummyValue: int := 28

  /** Every code in the order its field is declared. */
  const Declared: seq<int> := [
    T, StepsPerFrame, Brightness, BrightnessV, BrightnessParticles, Hbar, WaveFuncSize, M, Dt,
    MouseUsageEntry, NumberOfParticles, ShowTrails, LineDiv, SliderSetWaveFuncTitle,
    SliderNewWaveFuncMomentum, SliderNewWaveFuncPosition, EnterWaveFunc, LineDiv2,
    WaveDiscretizationDimensions, PotentialGridWidth, PotentialGridHeight,
    WaveSimulationDimensions, PresetPotentialDropdown, UserTextEntry, UserWarningLabel,
    AddAbsorbingBoundaries, ImagePotential, TakeScreenshots, DummyValue]

  /** The codes the uniform `set` and `get` switch on, with the type of each one's field. */
  function FieldType(code: int): Option<UniformType> {
    if code == StepsPerFrame || code == NumberOfParticles || code == PotentialGridWidth
       || code == PotentialGridHeight || code == DummyValue then
      Some(Int32Type)
    else if code == T || code == Brightness || code == BrightnessV || code == BrightnessParticles
         || code == Hbar || code == WaveFuncSize || code == M || code == Dt then
      Some(Float32Type)
    else if code == ShowTrails || code == AddAbsorbingBoundaries then Some(Bool32Type)
    else if code == SliderNewWaveFuncMomentum || code == SliderNewWaveFuncPosition
         || code == WaveSimulationDimensions then
      Some(Vec2Type)
    else if code == WaveDiscretizationDimensions then Some(IVec2Type)
    else None
  }

  /** The codes of the two label fields the string `set` writes. */
  predicate IsLabelCode(code: int) {
    code == SliderSetWaveFuncTitle || code == UserWarningLabel
  }

  /** Every table entry is typed as its field and both label codes have their label. */
  ghost predicate Valid(p: SimParams) {
    Typed(FieldType, p.values) && forall c :: c in p.labels <==> IsLabelCode(c)
  }

  /** The initialisers of the int fields (Periodic2DSystem/parameters.hpp:32-61). */
  function IntDefault(code: int): int {
    if code == StepsPerFrame then 6
    else if code == NumberOfParticles then 65536
    else if code == PotentialGridWidth || code == PotentialGridHeight then 512
    else 0
  }

  /** The initialisers of the float fields. */
  function FloatDefault(code: int): real {
    if code == WaveFuncSize then 0.025
    else if code == Dt then 0.3
    else if code == T then 0.0
    else 1.0
  }

  /** The initialisers of the three two-component float fields. */
  function Vec2Default(code: int): Vec2 {
    if code == SliderNewWaveFuncMomentum then (0.0, 40.0)
    else if code == SliderNewWaveFuncPosition then (128.0, 128.0)
    else (512.0, 512.0)
  }

  /** The initial value of the field of type t with the given code: both boolean fields
      start clear and the wave grid is 512 by 512. */
  function Initialiser(code: int, t: UniformType): (u: Uniform)
    ensures TypeOf(u) == t
  {
    match t
    case Int32Type => Int32(IntDefault(code))
    case Float32Type => Float32(FloatDefault(code))
    case Bool32Type => Bool32(false)
    case Vec2Type => Vec2U(Vec2Default(code))
    case IVec2Type => IVec2U((512, 512))
    case Vec3Type => Retag(ZeroInt, t)
  }

  /** The record as its field initialisers leave it: every listed code holds its initial
      value, both labels are empty, and there is one text box holding "0". */
  const Defaults: SimParams := SimParams(
    map c | 0 <= c < |Declared| && FieldType(c).Some? :: Initialiser(c, FieldType(c).value),
    map c | 0 <= c < |Declared| && IsLabelCode(c) :: "",
    ["0"],
    SelectionList(0, ["Create new wave function", "Draw potential barrier", "Erase potential barrier"]),
    SelectionList(0, [
      "((x/width)^2 + (y/height)^2)", "0", "amp*((x/width)^2 + (y/height)^2)",
      "0.4*(step(-y^2+(height*0.04)^2)+step(y^2-(height*0.06)^2))*step(-x^2+(width*0.01)^2)",
      "1.0/sqrt(x^2+y^2)+1.0/sqrt((x-0.25*width)^2+(y-0.25*height)^2)",
      "(x*cos(w*t/200) + y*sin(w*t/200))/500+0.01",
      "0.5*(tanh(75.0*(((x/width)^2+(y/height)^2)^0.5-0.45))+1.0)"]),
    BMPRecord(false, 2160, 2160))

  /** The uniform `set` (Periodic2DSystem/parameters.hpp:93-153): only the table entry of a
      listed code changes. */
  function Set(p: SimParams, code: int, val: Uniform): (r: SimParams)
    ensures FieldType(code).None? ==> r == p
    ensures r.labels == p.labels && r.userTextEntry == p.userTextEntry
    ensures r.mouseUsageEntry == p.mouseUsageEntry && r.presetPotentialDropdown == p.presetPotentialDropdown
    ensures r.takeScreenshots == p.takeScreenshots
    ensures Valid(p) ==> Valid(r)
  {
    p.(values := UniformTable.Set(FieldType, p.values, code, val))
  }

  /** The uniform `get` (Periodic2DSystem/parameters.hpp:154-196). */
  function Get(p: SimParams, code: int): (u: Uniform)
    ensures FieldType(code).Some? ==> TypeOf(u) == FieldType(code).value
    ensures FieldType(code).None? ==> u == ZeroInt
  {
    UniformTable.Get(FieldType, p.values, code)
  }

  /** The label a label code names, and "" for any other code. */
  function LabelOf(p: SimParams, code: int): string {
    if code in p.labels then p.labels[code] else ""
  }

  /** The string `set` (Periodic2DSystem/parameters.hpp:197-209). USER_TEXT_ENTRY writes the
      entry box at `index`, which must exist; the other codes ignore `index`. */
  function SetLabel(p: SimParams, code: int, index: int, val: string): (r: SimParams)
    requires code == UserTextEntry ==> 0 <= index < |p.userTextEntry|
    ensures !IsLabelCode(code) && code != UserTextEntry ==> r == p
    ensures IsLabelCode(code) ==> LabelOf(r, code) == val && r.userTextEntry == p.userTextEntry
    ensures code == UserTextEntry ==>
              && r.labels == p.labels
              && |r.userTextEntry| == |p.userTextEntry| && r.userTextEntry[index] == val
              && forall i :: 0 <= i < |p.userTextEntry| && i != index ==> r.userTextEntry[i] == p.userTextEntry[i]
    ensures r.values == p.values && r.mouseUsageEntry == p.mouseUsageEntry
    ensures r.presetPotentialDropdown == p.presetPotentialDropdown && r.takeScreenshots == p.takeScreenshots
    ensures Valid(p) ==> Valid(r)
  {
    if IsLabelCode(code) then p.(labels := p.labels[code := val])
    else if code == UserTextEntry then p.(userTextEntry := p.userTextEntry[index := val])
    else p
  }

  /** Reading a field back after setting it gives the value set, as the field's type. */
  lemma GetAfterSet(p: SimParams, code: int, val: Uniform)
    requires FieldType(code).Some?
    ensures Get(Set(p, code, val), code) == Retag(val, FieldType(code).value)
  {
    UniformTable.GetAfterSet(FieldType, p.values, code, val);
  }

  /** Setting a field to the value read from it changes nothing. */
  lemma SetAfterGet(p: SimParams, code: int)
    requires Valid(p)
    ensures Set(p, code, Get(p, code)) == p
  {
    UniformTable.SetAfterGet(FieldType, p.values, code);
  }

  /** A second set of the same code overrides the first. */
  lemma SetTwice(p: SimParams, code: int, v1: Uniform, v2: Uniform)
    ensures Set(Set(p, code, v1), code, v2) == Set(p, code, v2)
  {
    UniformTable.SetTwice(FieldType, p.values, code, v1, v2);
  }

  /** Setting one code leaves every other code's value and every label as they were. */
  lemma SetFrame(p: SimParams, code: int, other: int, val: Uniform)
    requires other != code
    ensures Get(Set(p, code, val), other) == Get(p, other)
    ensures LabelOf(Set(p, code, val), other) == LabelOf(p, other)
  {
    UniformTable.SetFrame(FieldType, p.values, code, other, val);
  }

  /** `set` and `get` list the same codes: the 19 of FieldType. */
  lemma SetAndGetListSameCodes(p: SimParams, code: int)
    ensures FieldType(code).None? <==> forall v :: Set(p, code, v) == p
    ensures FieldType(code).None? <==> forall v :: Get(Set(p, code, v), code) == ZeroInt
  {
    UniformTable.SetAndGetListSameCodes(FieldType, p.values, code);
    if FieldType(code).Some? {
      var v :| UniformTable.Set(FieldType, p.values, code, v) != p.values;
      assert Set(p, code, v) != p;
      var w := Other(Retag(ZeroInt, FieldType(code).value));
      UniformTable.GetAfterSet(FieldType, p.values, code, w);
      assert Get(Set(p, code, w), code) != ZeroInt;
    }
  }

  /** The string set writes the named label or entry box and nothing a uniform code reads,
      nor any other label. */
  lemma SetLabelFrame(p: SimParams, code: int, other: int, index: int, val: string)
    requires code == UserTextEntry ==> 0 <= index < |p.userTextEntry|
    ensures other != code ==> LabelOf(SetLabel(p, code, index, val), other) == LabelOf(p, other)
    ensures Get(SetLabel(p, code, index, val), other) == Get(p, other)
  {
  }

  /** The 19 codes the uniform switch lists, in order. */
  const ValueCodes: seq<int> := [
    T, StepsPerFrame, Brightness, BrightnessV, BrightnessParticles, Hbar, WaveFuncSize, M, Dt,
    NumberOfParticles, ShowTrails, SliderNewWaveFuncMomentum, SliderNewWaveFuncPosition,
    WaveDiscretizationDimensions, PotentialGridWidth, PotentialGridHeight,
    WaveSimulationDimensions, AddAbsorbingBoundaries, DummyValue]

  /** The codes are 0 to 28 in declaration order. */
  lemma CodesInDeclarationOrder()
    ensures |Declared| == 29
    ensures forall i :: 0 <= i < |Declared| ==> Declared[i] == i
  {
  }

  /** 19 distinct codes carry a uniform value. */
  lemma ValueCodesListed()
    ensures |ValueCodes| == 19 && forall i, j :: 0 <= i < j < |ValueCodes| ==> ValueCodes[i] < ValueCodes[j]
    ensures forall c :: FieldType(c).Some? <==> c in ValueCodes
  {
  }

  /** The codes the string set writes carry no uniform value. */
  lemma LabelCodesCarryNoValue()
    ensures forall c :: IsLabelCode(c) || c == UserTextEntry ==> 0 <= c < 29 && FieldType(c).None?
  {
  }

  /** Every code either switch lists is declared. */
  lemma ListedCodesDeclared()
    ensures forall c :: FieldType(c).Some? || IsLabelCode(c) ==> 0 <= c < |Declared|
  {
  }

  /** A fresh record is well formed. */
  lemma DefaultsValid()
    ensures Valid(Defaults)
  {
    ListedCodesDeclared();
  }

  /** A fresh record reads each listed field's initial value. */
  lemma DefaultsRead(code: int)
    requires FieldType(code).Some?
    ensures Get(Defaults, code) == Initialiser(code, FieldType(code).value)
  {
    ListedCodesDeclared();
  }

  /** What the interface reads from a fresh record: one text box holding "0", a 512 by 512
      wave grid, a time step of 0.3, and 65536 particles. */
  lemma DefaultValues()
    ensures Defaults.userTextEntry == ["0"]
    ensures Get(Defaults, WaveDiscretizationDimensions) == IVec2U((512, 512))
    ensures Get(Defaults, Dt) == Float32(0.3)
    ensures Get(Defaults, NumberOfParticles) == Int32(65536)
  {
    DefaultsRead(WaveDiscretizationDimensions);
    DefaultsRead(Dt);
    DefaultsRead(NumberOfParticles);
  }

  /** The particle count in the defaults table is laid out by `decompose` on a 256 by 256 grid. */
  lemma DefaultParticleGrid()
    ensures Decompose(AsInt(Get(Defaults, NumberOfParticles))) == Dims2(256, 256)
  {
    DefaultsRead(NumberOfParticles);
    Factorisation.DefaultParticleGrid();
  }
}
