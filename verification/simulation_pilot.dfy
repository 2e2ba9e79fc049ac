/** The integer layout helpers of CoupledOscillators/simulation_pilot.cpp: the texture
    dimensions chosen for the trajectory buffer, and how `load_config_to_texture` slices the
    configurations into column blocks. */
module SimulationPilot {

  import opened Factorisation

  function Size(d: Dims2): nat {
    d.first + d.second
  }

  function Mul(a: nat, b: nat): nat { a * b }

  /** The three candidate layouts d1, d2, d3: one factor of n_large times n_small for the
      width, the product of the other two for the height. */
  function Candidates(nLarge: nat, nSmall: nat): (cs: seq<Dims2>)
    ensures |cs| == 3
    ensures forall j :: 0 <= j < 3 ==> cs[j].first * cs[j].second == nLarge * nSmall
  {
    var p := Decompose3(nLarge);
    var d1 := Dims2(Mul(p.first, nSmall), Mul(p.second, p.third));
    var d2 := Dims2(Mul(p.second, nSmall), Mul(p.first, p.third));
    var d3 := Dims2(Mul(p.third, nSmall), Mul(p.first, p.second));
    Rearrange(p.first, p.second, p.third, nSmall, nLarge);
    assert d1.first * d1.second == nLarge * nSmall;
    assert d2.first * d2.second == nLarge * nSmall;
    assert d3.first * d3.second == nLarge * nSmall;
    [d1, d2, d3]
  }

  lemma Rearrange(a: nat, b: nat, c: nat, s: nat, m: nat)
    requires a * b * c == m
    ensures a * s * (b * c) == m * s
    ensures b * s * (a * c) == m * s
    ensures c * s * (a * b) == m * s
  {
    var abc := a * b * c;
    assert a * s * (b * c) == (a * (b * c)) * s;
    assert b * s * (a * c) == (b * (a * c)) * s;
    assert c * s * (a * b) == (c * (a * b)) * s;
    assert a * (b * c) == abc && b * (a * c) == abc && c * (a * b) == abc;
  }

  /** Reference definition: the first entry of a list with the smallest perimeter. */
  function FirstMinimal(cs: seq<Dims2>): (r: Dims2)
    requires |cs| > 0
    ensures r in cs
    ensures forall j :: 0 <= j < |cs| ==> Size(r) <= Size(cs[j])
  {
    if |cs| == 1 then cs[0]
    else
      var rest := FirstMinimal(cs[1..]);
      assert forall j :: 1 <= j < |cs| ==> cs[j] == cs[1..][j - 1];
      if Size(cs[0]) <= Size(rest) then cs[0] else rest
  }

  /** get_dimensions (CoupledOscillators/simulation_pilot.cpp:29-44). */
  function GetDimensions(nLarge: nat, nSmall: nat): (d: Dims2)
    ensures d.first * d.second == nLarge * nSmall
    ensures d in Candidates(nLarge, nSmall)
    ensures forall c :: c in Candidates(nLarge, nSmall) ==> Size(d) <= Size(c)
  {
    var cs := Candidates(nLarge, nSmall);
    var d1, d2, d3 := cs[0], cs[1], cs[2];
    if Size(d1) <= Size(d2) && Size(d1) <= Size(d3) then d1
    else if Size(d2) <= Size(d1) && Size(d2) <= Size(d3) then d2
    else d3
  }

  /** The if-chain of get_dimensions is the first-minimum scan over [d1, d2, d3], so ties
      go to d1, then d2. */
  lemma GetDimensionsIsFirstMinimal(nLarge: nat, nSmall: nat)
    ensures GetDimensions(nLarge, nSmall) == FirstMinimal(Candidates(nLarge, nSmall))
  {
    var cs := Candidates(nLarge, nSmall);
    assert cs[1..][1..] == [cs[2]];
    assert cs[1..] == [cs[1], cs[2]];
  }

  /** The width is a whole number of oscillator columns. */
  lemma WidthIsMultiple(nLarge: nat, nSmall: nat)
    requires nSmall > 0
    ensures GetDimensions(nLarge, nSmall).first % nSmall == 0
  {
    var p := Decompose3(nLarge);
    MultipleMod(p.first, nSmall);
    MultipleMod(p.second, nSmall);
    MultipleMod(p.third, nSmall);
  }

  /** The texture state `load_config_to_texture` leaves behind: the column blocks uploaded
      into the first trajectory buffer, and the prev/next buffer indices. */
  datatype Upload = Upload(blocks: seq<seq<real>>, prev: nat, next: nat)

  function Concat(bs: seq<seq<real>>): seq<real> {
    if |bs| == 0 then [] else Concat(bs[..|bs| - 1]) + bs[|bs| - 1]
  }

  lemma ConcatSnoc(bs: seq<seq<real>>, b: seq<real>)
    ensures Concat(bs + [b]) == Concat(bs) + b
  {
    assert (bs + [b])[..|bs|] == bs;
  }

  function MapFloat(toFloat: real -> real, v: seq<real>): (r: seq<real>)
    ensures |r| == |v|
    ensures forall k :: 0 <= k < |v| ==> r[k] == toFloat(v[k])
  {
    seq(|v|, k requires 0 <= k < |v| => toFloat(v[k]))
  }

  lemma MapFloatAppend(toFloat: real -> real, u: seq<real>, v: seq<real>)
    ensures MapFloat(toFloat, u + v) == MapFloat(toFloat, u) + MapFloat(toFloat, v)
  {
  }

  lemma BlockFits(i: nat, stackW: nat, sub: nat)
    requires i < stackW
    ensures i * sub + sub == (i + 1) * sub <= stackW * sub
  {
    assert (i + 1) * sub <= stackW * sub;
  }

  /** load_config_to_texture (CoupledOscillators/simulation_pilot.cpp:129-149): block i holds
      `number_of_oscillators*h` consecutive configuration values from offset
      `i*number_of_oscillators*h`, converted to float. */
  method LoadConfigToTexture(configs: seq<real>, w: nat, h: nat, n: nat, toFloat: real -> real)
    returns (u: Upload)
    requires n > 0
    requires (w / n) * (n * h) <= |configs|
    ensures |u.blocks| == w / n
    ensures forall i :: 0 <= i < |u.blocks| ==> |u.blocks[i]| == n * h
    ensures Concat(u.blocks) == MapFloat(toFloat, configs[..(w / n) * (n * h)])
    ensures u.prev == 0 && u.next == 1
  {
    var stackW := w / n;
    var blocks: seq<seq<real>> := [];
    var i := 0;
    while i < stackW
      invariant 0 <= i <= stackW
      invariant |blocks| == i
      invariant forall t :: 0 <= t < i ==> |blocks[t]| == n * h
      invariant i * (n * h) <= stackW * (n * h)
      invariant Concat(blocks) == MapFloat(toFloat, configs[..i * (n * h)])
    {
      var subSize := n * h;
      var offset := i * subSize;
      BlockFits(i, stackW, subSize);
      var sub: seq<real> := seq(subSize, _ => 0.0);
      var k := 0;
      while k < subSize
        invariant 0 <= k <= subSize && |sub| == subSize
        invariant forall j :: 0 <= j < k ==> sub[j] == toFloat(configs[j + offset])
      {
        sub := sub[k := toFloat(configs[k + offset])];
        k := k + 1;
      }
      assert sub == MapFloat(toFloat, configs[offset..offset + subSize]);
      ConcatSnoc(blocks, sub);
      assert configs[..offset + subSize] == configs[..offset] + configs[offset..offset + subSize];
      MapFloatAppend(toFloat, configs[..offset], configs[offset..offset + subSize]);
      blocks := blocks + [sub];
      i := i + 1;
    }
    u := Upload(blocks, 0, 1);
  }

  lemma Associate(a: nat, b: nat, c: nat)
    ensures a * (b * c) == a * b * c
  {
  }

  /** With the dimensions the frames are built with, `get_dimensions(steps, n)`, and a
      configuration buffer of `steps*n` values, the blocks tile the whole buffer: nothing is
      left over and nothing is read out of range. */
  lemma BlocksTileConfigs(steps: nat, n: nat)
    requires n > 0
    ensures var d := GetDimensions(steps, n);
            (d.first / n) * (n * d.second) == steps * n
  {
    var d := GetDimensions(steps, n);
    WidthIsMultiple(steps, n);
    TileArithmetic(d.first, d.second, n, steps * n);
  }

  lemma TileArithmetic(w: nat, h: nat, n: nat, m: nat)
    requires n > 0 && w % n == 0 && w * h == m
    ensures (w / n) * (n * h) == m
  {
    DivExact(w, n);
    Associate(w / n, n, h);
  }
}
