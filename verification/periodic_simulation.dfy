/** The bookkeeping of Periodic2DSystem/simulation.cpp: texture dimensions of the trajectory
    and wave-function buffers, the particle initialisation through the Metropolis sampler,
    and the rotation of the three wave-function buffers in `time_step`. The GPU draws
    themselves are not modelled; `time_step` reports which of them it issues. */
module PeriodicSimulation {

  import opened Factorisation
  import opened Metropolis
  import opened Layout

  datatype TexParams = TexParams(width: int, height: int)

  /** The texture-dimension state of `Frames`, plus the grid the trajectory wire frame is
      built for. */
  datatype Frames = Frames(waveSim: TexParams, trajectories: TexParams, wireFrameGrid: Dims2)

  /** reset_trajectories_dimensions (Periodic2DSystem/simulation.cpp:142-151). */
  function ResetTrajectoriesDimensions(f: Frames, numberOfParticles: nat): (f': Frames)
    ensures f'.trajectories.width * f'.trajectories.height == numberOfParticles
    ensures f'.trajectories.width >= f'.trajectories.height
    ensures f'.wireFrameGrid.first == f'.trajectories.width
    ensures f'.wireFrameGrid.second == f'.trajectories.height
    ensures f'.waveSim == f.waveSim
  {
    var d := Decompose(numberOfParticles);
    f.(trajectories := TexParams(d.first, d.second), wireFrameGrid := d)
  }

  /** The trajectory texture is the most nearly square grid holding every particle. */
  lemma TrajectoryGridMostSquare(f: Frames, numberOfParticles: nat)
    requires numberOfParticles >= 1
    ensures var t := ResetTrajectoriesDimensions(f, numberOfParticles).trajectories;
            MostSquare(numberOfParticles, Dims2(t.width, t.height))
  {
    DecomposeMostSquare(numberOfParticles);
  }

  /** reset_wave_function_dimensions as written (Periodic2DSystem/simulation.cpp:132-140):
      both assignments target the width, so the height is never updated. */
  function ResetWaveFunctionDimensionsAsWritten(f: Frames, texel: Dims2): (f': Frames)
    ensures f'.waveSim.width == texel.first
    ensures f'.waveSim.height == f.waveSim.height
    ensures f'.trajectories == f.trajectories && f'.wireFrameGrid == f.wireFrameGrid
  {
    var first := f.waveSim.(width := texel.first);
    f.(waveSim := first.(width := texel.first))
  }

  /** reset_wave_function_dimensions as evidently intended: the second assignment sets the
      height. */
  function ResetWaveFunctionDimensions(f: Frames, texel: Dims2): (f': Frames)
    ensures f'.waveSim == TexParams(texel.first, texel.second)
    ensures f'.trajectories == f.trajectories && f'.wireFrameGrid == f.wireFrameGrid
  {
    f.(waveSim := f.waveSim.(width := texel.first).(height := texel.second))
  }

  /** Resizing a 512 by 512 wave texture to 256 by 128 as written leaves a 256 by 512 texture. */
  lemma ResetWaveFunctionDimensionsKeepsHeight()
    ensures var f := Frames(TexParams(512, 512), TexParams(256, 256), Dims2(256, 256));
            && ResetWaveFunctionDimensionsAsWritten(f, Dims2(256, 128)).waveSim == TexParams(256, 512)
            && ResetWaveFunctionDimensions(f, Dims2(256, 128)).waveSim == TexParams(256, 128)
  {
  }

  /** The simulation parameters `new_particles` reads. */
  datatype ParticleParams = ParticleParams(numberOfParticles: nat, waveFuncSize: real,
                                           waveSimulationDimensions: (real, real), showTrails: bool)

  /** Step sizes of the sampler in `new_particles`: 1.5 wave-packet widths in both directions. */
  function ParticleDelta(p: ParticleParams): (d: seq<real>)
    ensures |d| == 2 && d[0] == d[1] == 1.5 * p.waveFuncSize
  {
    [1.5 * p.waveFuncSize, 1.5 * p.waveFuncSize]
  }

  /** The conversion of one sampled coordinate to a float texture coordinate: through float,
      scaled by the simulation size along its axis, through float again. */
  function ToTexture(toFloat: real -> real, x: real, scale: real): real {
    toFloat(toFloat(x) * scale)
  }

  /** The simulation size along the axis of flat coordinate k (x for even k, y for odd k). */
  function AxisScale(dims: (real, real), k: nat): real {
    if k % 2 == 0 then dims.0 else dims.1
  }

  /** The conversion loop of new_particles: the x coordinate of every particle is scaled by
      the simulation width, the y coordinate by its height. */
  function ScaleConfigs(configs: seq<real>, n: nat, dims: (real, real), toFloat: real -> real): (r: seq<real>)
    requires |configs| == 2 * n
    ensures |r| == 2 * n
    ensures forall i :: 0 <= i < n ==> r[2 * i] == ToTexture(toFloat, configs[2 * i], dims.0)
    ensures forall i :: 0 <= i < n ==> r[2 * i + 1] == ToTexture(toFloat, configs[2 * i + 1], dims.1)
  {
    var r := seq(2 * n, k requires 0 <= k < 2 * n => ToTexture(toFloat, configs[k], AxisScale(dims, k)));
    ScaledPairs(r, configs, n, dims, toFloat);
    r
  }

  lemma ScaledPairs(r: seq<real>, configs: seq<real>, n: nat, dims: (real, real), toFloat: real -> real)
    requires |r| == 2 * n && |configs| == 2 * n
    requires forall k :: 0 <= k < 2 * n ==> r[k] == ToTexture(toFloat, configs[k], AxisScale(dims, k))
    ensures forall i :: 0 <= i < n ==> r[2 * i] == ToTexture(toFloat, configs[2 * i], dims.0)
    ensures forall i :: 0 <= i < n ==> r[2 * i + 1] == ToTexture(toFloat, configs[2 * i + 1], dims.1)
  {
    forall i | 0 <= i < n
      ensures r[2 * i] == ToTexture(toFloat, configs[2 * i], dims.0)
      ensures r[2 * i + 1] == ToTexture(toFloat, configs[2 * i + 1], dims.1)
    {
      assert AxisScale(dims, 2 * i) == dims.0 && AxisScale(dims, 2 * i + 1) == dims.1;
    }
  }

  /** Particle i's two coordinates sit at 2i and 2i+1 of the sampler's buffer. */
  lemma SnapshotCoordinates(snaps: seq<Point>, out: seq<real>, n: nat)
    requires |snaps| == n && forall t :: 0 <= t < n ==> |snaps[t]| == 2
    requires out == Flatten(snaps)
    ensures |out| == 2 * n
    ensures forall i :: 0 <= i < n ==> out[2 * i] == snaps[i][0] && out[2 * i + 1] == snaps[i][1]
  {
    FlattenLength(snaps, 2);
    forall i | 0 <= i < n
      ensures out[2 * i] == snaps[i][0] && out[2 * i + 1] == snaps[i][1]
    {
      FlattenIndex(snaps, 2, i, 0);
      FlattenIndex(snaps, 2, i, 1);
      FlatIsProduct(i, 0, 2);
      FlatIsProduct(i, 1, 2);
    }
  }

  /** new_particles (Periodic2DSystem/simulation.cpp:196-230). The Gaussian density centred on
      the start position and the random draws are parameters. */
  method NewParticles(f: Frames, p: ParticleParams, texPosition: (real, real), gaussian: Point -> real,
                      draws: seq<real>, toFloat: real -> real)
    returns (f': Frames, configsF: seq<real>, samplerResized: bool)
    requires DrawBudget(2, p.numberOfParticles) <= |draws|
    ensures f'.trajectories.width * f'.trajectories.height == p.numberOfParticles
    ensures f.trajectories.width * f.trajectories.height == p.numberOfParticles ==> f' == f
    ensures f'.waveSim == f.waveSim
    ensures !samplerResized
    ensures |configsF| == 2 * p.numberOfParticles
    ensures var x0 := [texPosition.0, texPosition.1];
            var snaps := Snapshots(Start(x0, gaussian), ParticleDelta(p), gaussian, draws, p.numberOfParticles);
            forall i :: 0 <= i < p.numberOfParticles ==>
              && configsF[2 * i] == ToTexture(toFloat, snaps[i][0], p.waveSimulationDimensions.0)
              && configsF[2 * i + 1] == ToTexture(toFloat, snaps[i][1], p.waveSimulationDimensions.1)
  {
    var n := p.numberOfParticles;
    f' := f;
    if f.trajectories.width * f.trajectories.height != n {
      f' := ResetTrajectoriesDimensions(f, n);
    }
    var x0 := [texPosition.0, texPosition.1];
    var delta := ParticleDelta(p);
    var configs := seq(2 * n, _ => 0.0);
    var out, _, _, resized := Sample(configs, x0, delta, gaussian, n, draws);
    samplerResized := resized;
    configsF := ScaleConfigs(out, n, p.waveSimulationDimensions, toFloat);
    SnapshotCoordinates(Snapshots(Start(x0, gaussian), delta, gaussian, draws, n), out, n);
  }

  /** The three wave-function buffer pointers and the step counter of `Simulation`. */
  datatype Stepper = Stepper(psi: (nat, nat, nat), count: nat)

  /** The pointer set the constructor installs (Periodic2DSystem/simulation.cpp:156-158) and the
      counter `new_wave_function` resets. */
  const Initial: Stepper := Stepper((0, 1, 2), 0)

  /** The draws one call of `time_step` issues, besides the leapfrog step into psi[2]. */
  datatype StepReport = StepReport(initialEuler: bool, rk4: bool)

  predicate IsPermutationOfBuffers(psi: (nat, nat, nat)) {
    {psi.0, psi.1, psi.2} == {0, 1, 2}
  }

  /** time_step (Periodic2DSystem/simulation.cpp:400-438). */
  function TimeStep(s: Stepper): (r: (Stepper, StepReport))
    ensures r.0.psi == (s.psi.1, s.psi.2, s.psi.0)
    ensures r.0.count == if s.count == 0 then 2 else s.count + 1
    ensures r.1.initialEuler <==> s.count == 0
    ensures r.1.rk4 <==> s.count == 0 || s.count % 2 == 1
  {
    var euler := s.count == 0;
    var count := if euler then s.count + 1 else s.count;
    var rk4 := count % 2 != 0 && count != 0;
    (Stepper((s.psi.1, s.psi.2, s.psi.0), count + 1), StepReport(euler, rk4))
  }

  /** The rotation keeps the three buffers in use, and three steps restore the original
      assignment. */
  lemma RotationPreservesBuffers(s: Stepper)
    requires IsPermutationOfBuffers(s.psi)
    ensures IsPermutationOfBuffers(TimeStep(s).0.psi)
    ensures TimeStep(TimeStep(TimeStep(s).0).0).0.psi == s.psi
  {
  }

  function Iterate(s: Stepper, k: nat): Stepper
    decreases k
  {
    if k == 0 then s else Iterate(TimeStep(s).0, k - 1)
  }

  /** Starting from a counter of zero, the counter stays 0 after no calls and reads k + 1
      after k >= 1 calls: the first call takes it to 2, each later call adds one. */
  lemma {:induction false} CounterAfterCalls(s: Stepper, k: nat)
    requires s.count == 0
    ensures k >= 1 ==> Iterate(s, k).count == k + 1
    ensures k == 0 ==> Iterate(s, k).count == 0
  {
    if k >= 1 {
      CounterFrom(TimeStep(s).0, k - 1);
    }
  }

  lemma {:induction false} CounterFrom(s: Stepper, k: nat)
    ensures Iterate(s, k).count == if s.count == 0 && k > 0 then k + 1 else s.count + k
    decreases k
  {
    if k > 0 {
      CounterFrom(TimeStep(s).0, k - 1);
    }
  }

  lemma RK4OnOddCalls(s: Stepper, j: nat)
    requires s.count == 0 && j >= 1
    ensures TimeStep(Iterate(s, j - 1)).1.rk4 <==> j % 2 == 1
  {
    CounterAfterCalls(s, j - 1);
  }
}
