/** The single-chain random-walk Metropolis sampler of Periodic2DSystem/metropolis.cpp.

    Doubles are exact reals, the density is a function value handed in by the caller,
    and the random engine is an explicit sequence of draws consumed front to back:
    `|x0|` draws for the proposal of every step, then one more draw only when the
    proposal's density is below the current one. */
module Metropolis {

  import opened Layout

  type Point = seq<real>

  /** The sampler's running state: current position and its density, the two counters,
      and how many draws have been consumed. */
  datatype Chain = Chain(x: Point, prob: real, accepted: nat, rejected: nat, used: nat)

  /** State before the first step: `accepted_count` starts at 1, `rejection_count` at 0. */
  function Start(x0: Point, dist: Point -> real): Chain {
    Chain(x0, dist(x0), 1, 0, 0)
  }

  /** Number of draws `steps` iterations may consume at most. */
  function DrawBudget(size: nat, steps: nat): nat {
    Rows(size + 1, steps)
  }

  /** Coordinate k of the proposal: `x[k] + delta[k]*(u - 0.5)`. The proposal keeps the
      dimension, leaves every coordinate with a zero step size or a draw of exactly 0.5 where
      it was, and with draws in [0, 1) moves no coordinate by more than half its step size. */
  function Propose(x: Point, delta: seq<real>, draws: seq<real>, used: nat): (y: Point)
    requires |delta| >= |x| && used + |x| <= |draws|
    ensures |y| == |x|
    ensures forall k :: 0 <= k < |x| && (delta[k] == 0.0 || draws[used + k] == 0.5) ==> y[k] == x[k]
    ensures DrawsInUnitInterval(draws) ==>
              forall k :: 0 <= k < |x| && delta[k] >= 0.0 ==> x[k] - delta[k] / 2.0 <= y[k] <= x[k] + delta[k] / 2.0
  {
    var y := seq(|x|, k requires 0 <= k < |x| => x[k] + Offset(delta[k], draws[used + k]));
    assert DrawsInUnitInterval(draws) ==>
             forall k :: 0 <= k < |x| && delta[k] >= 0.0 ==> x[k] - delta[k] / 2.0 <= y[k] <= x[k] + delta[k] / 2.0 by {
      if DrawsInUnitInterval(draws) {
        forall k | 0 <= k < |x| && delta[k] >= 0.0 {
          OffsetBounds(delta[k], draws[used + k]);
        }
      }
    }
    y
  }

  /** The displacement `delta*(u - 0.5)` of one coordinate. */
  function Offset(d: real, u: real): real {
    d * (u - 0.5)
  }

  /** The ratio test `u <= prob_next/prob_curr`. A zero current density only reaches this
      test with a negative proposal density, where the double quotient is minus infinity
      and the test fails. */
  predicate RatioTest(u: real, probNext: real, probCurr: real) {
    probCurr != 0.0 && u <= probNext / probCurr
  }

  /** The acceptance decision of one iteration (Periodic2DSystem/metropolis.cpp:38-46), given the proposal
      and its density; the proposal's own draws are already consumed. */
  function Advance(c: Chain, y: Point, probNext: real, draws: seq<real>): (c': Chain)
    requires c.used + |c.x| + 1 <= |draws|
    ensures c'.accepted + c'.rejected == c.accepted + c.rejected + 1
  {
    var afterProposal := c.used + |c.x|;
    if probNext >= c.prob || RatioTest(draws[afterProposal], probNext, c.prob) then
      Chain(y, probNext, c.accepted + 1, c.rejected, if probNext >= c.prob then afterProposal else afterProposal + 1)
    else
      Chain(c.x, c.prob, c.accepted, c.rejected + 1, afterProposal + 1)
  }

  /** One iteration of the loop body (Periodic2DSystem/metropolis.cpp:34-46). */
  function Step(c: Chain, delta: seq<real>, dist: Point -> real, draws: seq<real>): (c': Chain)
    requires |delta| >= |c.x| && c.used + |c.x| + 1 <= |draws|
    ensures |c'.x| == |c.x|
    ensures c'.accepted + c'.rejected == c.accepted + c.rejected + 1
    ensures c'.accepted >= c.accepted
    ensures c.used + |c.x| <= c'.used <= c.used + |c.x| + 1
    ensures c'.prob == dist(c'.x) || (c'.x == c.x && c'.prob == c.prob)
  {
    var y := Propose(c.x, delta, draws, c.used);
    Advance(c, y, dist(y), draws)
  }

  lemma BudgetStep(used: nat, used': nat, size: nat, steps: nat, n: nat)
    requires steps > 0 && used + DrawBudget(size, steps) <= n
    requires used' <= used + size + 1
    ensures used' + DrawBudget(size, steps - 1) <= n
    ensures used + size + 1 <= n
  {
  }

  /** The chain after `steps` iterations. */
  function Run(c: Chain, delta: seq<real>, dist: Point -> real, draws: seq<real>, steps: nat): (r: Chain)
    requires |delta| >= |c.x| && c.used + DrawBudget(|c.x|, steps) <= |draws|
    ensures |r.x| == |c.x|
    ensures r.accepted + r.rejected == c.accepted + c.rejected + steps
    ensures r.accepted >= c.accepted
    ensures r.used <= c.used + DrawBudget(|c.x|, steps)
    ensures c.prob == dist(c.x) ==> r.prob == dist(r.x)
    decreases steps
  {
    if steps == 0 then c
    else
      BudgetStep(c.used, c.used + |c.x| + 1, |c.x|, steps, |draws|);
      var c' := Step(c, delta, dist, draws);
      BudgetStep(c.used, c'.used, |c.x|, steps, |draws|);
      Run(c', delta, dist, draws, steps - 1)
  }

  /** The positions recorded by `steps` iterations: each iteration records the position
      it starts from, before its proposal is evaluated. */
  function Snapshots(c: Chain, delta: seq<real>, dist: Point -> real, draws: seq<real>, steps: nat): (ps: seq<Point>)
    requires |delta| >= |c.x| && c.used + DrawBudget(|c.x|, steps) <= |draws|
    ensures |ps| == steps
    ensures steps > 0 ==> ps[0] == c.x
    ensures forall s :: 0 <= s < steps ==> |ps[s]| == |c.x|
    decreases steps
  {
    if steps == 0 then []
    else
      BudgetStep(c.used, c.used + |c.x| + 1, |c.x|, steps, |draws|);
      var c' := Step(c, delta, dist, draws);
      BudgetStep(c.used, c'.used, |c.x|, steps, |draws|);
      [c.x] + Snapshots(c', delta, dist, draws, steps - 1)
  }

  /** Snapshots laid end to end, as they sit in `configs`. */
  function Flatten(ps: seq<Point>): seq<real> {
    if |ps| == 0 then [] else Flatten(ps[..|ps| - 1]) + ps[|ps| - 1]
  }

  /** C++ `vector::resize`: keeps the prefix and fills with zeros. */
  function Resize(v: seq<real>, n: nat): (r: seq<real>)
    ensures |r| == n
  {
    if |v| >= n then v[..n] else v + seq(n - |v|, _ => 0.0)
  }

  lemma FlattenLength(ps: seq<Point>, size: nat)
    requires forall s :: 0 <= s < |ps| ==> |ps[s]| == size
    ensures |Flatten(ps)| == |ps| * size
  {
    if |ps| > 0 {
      FlattenLength(ps[..|ps| - 1], size);
    }
  }

  /** Entry `s*size + k` of the flattened snapshots is coordinate k of snapshot s. */
  lemma {:induction false} FlattenIndex(ps: seq<Point>, size: nat, s: nat, k: nat)
    requires forall t :: 0 <= t < |ps| ==> |ps[t]| == size
    requires s < |ps| && k < size
    ensures |Flatten(ps)| == |ps| * size
    ensures Flat(s, k, size) < |Flatten(ps)|
    ensures Flatten(ps)[Flat(s, k, size)] == ps[s][k]
  {
    FlattenLength(ps, size);
    FlatBounds(s, k, size, |ps|);
    RowsIsProduct(size, |ps|);
    var init := ps[..|ps| - 1];
    FlattenLength(init, size);
    if s < |ps| - 1 {
      FlattenIndex(init, size, s, k);
    } else {
      FlatIsProduct(s, k, size);
    }
  }

  /** The inner loop of one iteration (Periodic2DSystem/metropolis.cpp:34-37): records the current position
      at `base` and builds the proposal from the next `|x|` draws. */
  method RecordAndPropose(out: seq<real>, base: nat, x: Point, delta: seq<real>, draws: seq<real>, used: nat)
    returns (out': seq<real>, y: Point)
    requires base + |x| <= |out|
    requires |delta| >= |x| && used + |x| <= |draws|
    ensures |out'| == |out|
    ensures out'[..base] == out[..base]
    ensures out'[base..base + |x|] == x
    ensures y == Propose(x, delta, draws, used)
  {
    out' := out;
    y := seq(|x|, _ => 0.0);
    var k := 0;
    while k < |x|
      invariant 0 <= k <= |x|
      invariant |out'| == |out| && |y| == |x|
      invariant out'[..base] == out[..base]
      invariant out'[base..base + k] == x[..k]
      invariant forall j :: 0 <= j < k ==> y[j] == x[j] + Offset(delta[j], draws[used + j])
    {
      out' := out'[base + k := x[k]];
      y := y[k := x[k] + Offset(delta[k], draws[used + k])];
      k := k + 1;
      assert out'[base..base + k] == out'[base..base + k - 1] + [x[k - 1]];
    }
    assert x[..|x|] == x;
    assert forall j :: 0 <= j < |x| ==> y[j] == Propose(x, delta, draws, used)[j];
  }

  /** One pass of the outer loop: record the current position at `base`, propose, decide. */
  method Iteration(out: seq<real>, base: nat, chain: Chain, delta: seq<real>, dist: Point -> real, draws: seq<real>)
    returns (out': seq<real>, chain': Chain)
    requires base + |chain.x| <= |out|
    requires |delta| >= |chain.x| && chain.used + |chain.x| + 1 <= |draws|
    ensures |out'| == |out|
    ensures out'[..base + |chain.x|] == out[..base] + chain.x
    ensures chain' == Step(chain, delta, dist, draws)
  {
    var xNext;
    out', xNext := RecordAndPropose(out, base, chain.x, delta, draws, chain.used);
    assert out'[..base + |chain.x|] == out'[..base] + out'[base..base + |chain.x|];
    chain' := Advance(chain, xNext, dist(xNext), draws);
  }

  lemma SnapshotsUnfold(c: Chain, delta: seq<real>, dist: Point -> real, draws: seq<real>, steps: nat)
    requires |delta| >= |c.x| && c.used + DrawBudget(|c.x|, steps) <= |draws|
    requires steps > 0
    ensures c.used + |c.x| + 1 <= |draws|
    ensures Step(c, delta, dist, draws).used + DrawBudget(|c.x|, steps - 1) <= |draws|
    ensures Snapshots(c, delta, dist, draws, steps)
         == [c.x] + Snapshots(Step(c, delta, dist, draws), delta, dist, draws, steps - 1)
    ensures Run(c, delta, dist, draws, steps)
         == Run(Step(c, delta, dist, draws), delta, dist, draws, steps - 1)
  {
    BudgetStep(c.used, c.used + |c.x| + 1, |c.x|, steps, |draws|);
    BudgetStep(c.used, Step(c, delta, dist, draws).used, |c.x|, steps, |draws|);
  }

  lemma FlattenSnoc(ps: seq<Point>, p: Point)
    ensures Flatten(ps + [p]) == Flatten(ps) + p
  {
    assert (ps + [p])[..|ps|] == ps;
  }

  /** The sampler (Periodic2DSystem/metropolis.cpp:17-52). Returns the configuration buffer, the two
      counters, and whether the buffer had to be resized. */
  method Sample(configs: seq<real>, x0: Point, delta: seq<real>, dist: Point -> real,
                steps: nat, draws: seq<real>)
    returns (out: seq<real>, acceptedCount: nat, rejectionCount: nat, resized: bool)
    requires |delta| >= |x0|
    requires DrawBudget(|x0|, steps) <= |draws|
    ensures |out| == |x0| * steps
    ensures resized <==> |configs| != |x0| * steps
    ensures out == Flatten(Snapshots(Start(x0, dist), delta, dist, draws, steps))
    ensures acceptedCount == Run(Start(x0, dist), delta, dist, draws, steps).accepted
    ensures rejectionCount == Run(Start(x0, dist), delta, dist, draws, steps).rejected
    ensures acceptedCount + rejectionCount == steps + 1
  {
    var size := |x0|;
    var total := size * steps;
    var chain := Start(x0, dist);
    ghost var start := chain;
    out := configs;
    resized := false;
    if |out| != total {
      out := Resize(out, total);
      resized := true;
    }
    RowsIsProduct(size, steps);
    ghost var done: seq<Point> := [];
    var base: nat := 0;
    var remaining: nat := steps;
    while remaining > 0
      invariant SampleInv(start, delta, dist, draws, steps, out, total, base, chain, done, remaining)
    {
      out, base, chain, done, remaining := Round(start, delta, dist, draws, steps, total, out, base, chain, done, remaining);
    }
    assert out[..base] == out;
    assert Snapshots(chain, delta, dist, draws, 0) == [];
    assert done == Snapshots(start, delta, dist, draws, steps);
    acceptedCount := chain.accepted;
    rejectionCount := chain.rejected;
  }

  /** One round of the sampler's loop: record the current configuration, take one step of
      the chain. */
  method Round(ghost start: Chain, delta: seq<real>, dist: Point -> real, draws: seq<real>, ghost steps: nat,
               ghost total: nat, out: seq<real>, base: nat, chain: Chain, ghost done: seq<Point>, remaining: nat)
    returns (out': seq<real>, base': nat, chain': Chain, ghost done': seq<Point>, remaining': nat)
    requires SampleInv(start, delta, dist, draws, steps, out, total, base, chain, done, remaining)
    requires remaining > 0
    ensures SampleInv(start, delta, dist, draws, steps, out', total, base', chain', done', remaining')
    ensures remaining' == remaining - 1
  {
    SampleInvNext(start, delta, dist, draws, steps, out, total, base, chain, done, remaining);
    out', chain' := Iteration(out, base, chain, delta, dist, draws);
    done' := done + [chain.x];
    base' := base + |chain.x|;
    remaining' := remaining - 1;
    SampleInvStep(start, delta, dist, draws, steps, total, out, base, chain, done, remaining,
                  out', base', chain', done', remaining');
  }

  /** The sampler's loop invariant: the buffer holds the snapshots recorded so far, and the
      rest of the run continues from the current chain state. */
  ghost predicate SampleInv(start: Chain, delta: seq<real>, dist: Point -> real, draws: seq<real>, steps: nat,
                            out: seq<real>, total: nat, base: nat, chain: Chain, done: seq<Point>, remaining: nat)
  {
    && |delta| >= |start.x| && start.used + DrawBudget(|start.x|, steps) <= |draws|
    && |out| == total
    && base + Rows(|start.x|, remaining) == total
    && |chain.x| == |start.x|
    && chain.used + DrawBudget(|start.x|, remaining) <= |draws|
    && out[..base] == Flatten(done)
    && Snapshots(start, delta, dist, draws, steps) == done + Snapshots(chain, delta, dist, draws, remaining)
    && Run(start, delta, dist, draws, steps) == Run(chain, delta, dist, draws, remaining)
  }

  lemma SampleInvNext(start: Chain, delta: seq<real>, dist: Point -> real, draws: seq<real>, steps: nat,
                      out: seq<real>, total: nat, base: nat, chain: Chain, done: seq<Point>, remaining: nat)
    requires SampleInv(start, delta, dist, draws, steps, out, total, base, chain, done, remaining)
    requires remaining > 0
    ensures base + |chain.x| <= |out|
    ensures |delta| >= |chain.x| && chain.used + |chain.x| + 1 <= |draws|
  {
  }

  lemma SampleInvStep(start: Chain, delta: seq<real>, dist: Point -> real, draws: seq<real>, steps: nat, total: nat,
                      out: seq<real>, base: nat, chain: Chain, done: seq<Point>, remaining: nat,
                      out': seq<real>, base': nat, chain': Chain, done': seq<Point>, remaining': nat)
    requires SampleInv(start, delta, dist, draws, steps, out, total, base, chain, done, remaining)
    requires remaining > 0 && base + |chain.x| <= |out|
    requires |out'| == |out| && out'[..base + |chain.x|] == out[..base] + chain.x
    requires chain.used + |chain.x| + 1 <= |draws|
    requires chain' == Step(chain, delta, dist, draws)
    requires base' == base + |start.x| && done' == done + [chain.x] && remaining' == remaining - 1
    ensures SampleInv(start, delta, dist, draws, steps, out', total, base', chain', done', remaining')
  {
    ChainStep(start, delta, dist, draws, steps, chain, done, remaining);
    FlattenSnoc(done, chain.x);
  }

  lemma ChainStep(start: Chain, delta: seq<real>, dist: Point -> real, draws: seq<real>, steps: nat,
                  chain: Chain, done: seq<Point>, remaining: nat)
    requires remaining > 0
    requires |delta| >= |chain.x| && |delta| >= |start.x|
    requires chain.used + DrawBudget(|chain.x|, remaining) <= |draws|
    requires start.used + DrawBudget(|start.x|, steps) <= |draws|
    requires Snapshots(start, delta, dist, draws, steps) == done + Snapshots(chain, delta, dist, draws, remaining)
    requires Run(start, delta, dist, draws, steps) == Run(chain, delta, dist, draws, remaining)
    ensures chain.used + |chain.x| + 1 <= |draws|
    ensures Step(chain, delta, dist, draws).used + DrawBudget(|chain.x|, remaining - 1) <= |draws|
    ensures Snapshots(start, delta, dist, draws, steps)
         == (done + [chain.x]) + Snapshots(Step(chain, delta, dist, draws), delta, dist, draws, remaining - 1)
    ensures Run(start, delta, dist, draws, steps)
         == Run(Step(chain, delta, dist, draws), delta, dist, draws, remaining - 1)
  {
    SnapshotsUnfold(chain, delta, dist, draws, remaining);
    var rest := Snapshots(Step(chain, delta, dist, draws), delta, dist, draws, remaining - 1);
    assert done + ([chain.x] + rest) == (done + [chain.x]) + rest;
  }

  // ---------------------------------------------------------------------------------
  // Properties of the chain.

  /** `accepted_count + rejection_count == steps + 1`, because the accepted counter starts
      at one; the acceptance rate's denominator is therefore never zero. */
  lemma CountersAddUp(x0: Point, delta: seq<real>, dist: Point -> real, draws: seq<real>, steps: nat)
    requires |delta| >= |x0| && DrawBudget(|x0|, steps) <= |draws|
    ensures Run(Start(x0, dist), delta, dist, draws, steps).accepted
          + Run(Start(x0, dist), delta, dist, draws, steps).rejected == steps + 1
    ensures Run(Start(x0, dist), delta, dist, draws, steps).accepted >= 1
  {
  }

  /** Snapshot 0 is the starting point, and snapshot s+1 is snapshot s moved by the
      proposal of step s when it is accepted and repeated when it is rejected. */
  lemma {:induction false} SnapshotSuccessor(c: Chain, delta: seq<real>, dist: Point -> real, draws: seq<real>,
                                            steps: nat, s: nat)
    requires |delta| >= |c.x| && c.used + DrawBudget(|c.x|, steps) <= |draws|
    requires s + 1 < steps
    decreases steps
    ensures Snapshots(c, delta, dist, draws, steps)[s + 1] == Snapshots(c, delta, dist, draws, steps)[s]
         || exists used: nat :: used + |c.x| <= |draws| &&
              Snapshots(c, delta, dist, draws, steps)[s + 1]
                == Propose(Snapshots(c, delta, dist, draws, steps)[s], delta, draws, used)
  {
    BudgetStep(c.used, c.used + |c.x| + 1, |c.x|, steps, |draws|);
    var c' := Step(c, delta, dist, draws);
    BudgetStep(c.used, c'.used, |c.x|, steps, |draws|);
    if s == 0 {
      var ps := Snapshots(c, delta, dist, draws, steps);
      assert ps[0] == c.x;
      assert ps[1] == c'.x;
      if c'.x != c.x {
        assert c'.x == Propose(c.x, delta, draws, c.used);
      }
    } else {
      SnapshotSuccessor(c', delta, dist, draws, steps - 1, s - 1);
    }
  }

  predicate DrawsInUnitInterval(draws: seq<real>) {
    forall i :: 0 <= i < |draws| ==> 0.0 <= draws[i] < 1.0
  }

  /** With draws in [0,1) and a non-negative step size, consecutive snapshots differ in
      coordinate k by at most delta[k]/2 (strictly less than that in the upward direction). */
  lemma ConsecutiveSnapshotsClose(x0: Point, delta: seq<real>, dist: Point -> real, draws: seq<real>,
                                  steps: nat, s: nat, k: nat)
    requires |delta| >= |x0| && DrawBudget(|x0|, steps) <= |draws|
    requires DrawsInUnitInterval(draws)
    requires s + 1 < steps && k < |x0| && delta[k] >= 0.0
    ensures var ps := Snapshots(Start(x0, dist), delta, dist, draws, steps);
            ps[s][k] - delta[k] / 2.0 <= ps[s + 1][k] < ps[s][k] + delta[k] / 2.0
            || ps[s + 1][k] == ps[s][k]
  {
    var ps := Snapshots(Start(x0, dist), delta, dist, draws, steps);
    SnapshotSuccessor(Start(x0, dist), delta, dist, draws, steps, s);
    if ps[s + 1] != ps[s] {
      var used: nat :| used + |x0| <= |draws| && ps[s + 1] == Propose(ps[s], delta, draws, used);
      ProposalClose(ps[s], delta, draws, used, k);
    }
  }

  lemma ProposalClose(x: Point, delta: seq<real>, draws: seq<real>, used: nat, k: nat)
    requires |delta| >= |x| && used + |x| <= |draws| && k < |x|
    requires DrawsInUnitInterval(draws) && delta[k] >= 0.0
    ensures x[k] - delta[k] / 2.0 <= Propose(x, delta, draws, used)[k] <= x[k] + delta[k] / 2.0
    ensures delta[k] > 0.0 ==> Propose(x, delta, draws, used)[k] < x[k] + delta[k] / 2.0
  {
    OffsetBounds(delta[k], draws[used + k]);
  }

  lemma OffsetBounds(d: real, u: real)
    requires d >= 0.0 && 0.0 <= u < 1.0
    ensures -(d / 2.0) <= Offset(d, u) <= d / 2.0
    ensures d > 0.0 ==> Offset(d, u) < d / 2.0
    ensures d == 0.0 ==> Offset(d, u) == 0.0
  {
    var above := 0.5 - (u - 0.5);
    var below := (u - 0.5) + 0.5;
    assert above > 0.0 && below >= 0.0;
    assert d * above >= 0.0 && d * below >= 0.0;
    assert d > 0.0 ==> d * above > 0.0;
    assert Offset(d, u) == d * 0.5 - d * above;
    assert Offset(d, u) == d * below - d * 0.5;
  }

  /** A coordinate whose step size is zero never moves: it keeps x0's value in every snapshot. */
  lemma {:induction false} FrozenCoordinate(c: Chain, delta: seq<real>, dist: Point -> real, draws: seq<real>,
                                           steps: nat, k: nat)
    requires |delta| >= |c.x| && c.used + DrawBudget(|c.x|, steps) <= |draws|
    requires k < |c.x| && delta[k] == 0.0
    ensures forall s :: 0 <= s < steps ==> Snapshots(c, delta, dist, draws, steps)[s][k] == c.x[k]
    decreases steps
  {
    if steps > 0 {
      BudgetStep(c.used, c.used + |c.x| + 1, |c.x|, steps, |draws|);
      var c' := Step(c, delta, dist, draws);
      BudgetStep(c.used, c'.used, |c.x|, steps, |draws|);
      assert c'.x[k] == c.x[k];
      FrozenCoordinate(c', delta, dist, draws, steps - 1, k);
      var ps := Snapshots(c, delta, dist, draws, steps);
      assert ps == [c.x] + Snapshots(c', delta, dist, draws, steps - 1);
      forall s | 0 <= s < steps
        ensures ps[s][k] == c.x[k]
      {
        if s > 0 {
          assert ps[s] == Snapshots(c', delta, dist, draws, steps - 1)[s - 1];
        }
      }
    }
  }

  /** The acceptance rule of one step, and when the extra draw is consumed. */
  lemma StepAcceptance(c: Chain, delta: seq<real>, dist: Point -> real, draws: seq<real>)
    requires |delta| >= |c.x| && c.used + |c.x| + 1 <= |draws|
    ensures var y := Propose(c.x, delta, draws, c.used);
            var c' := Step(c, delta, dist, draws);
            var u := draws[c.used + |c.x|];
            && (c'.accepted == c.accepted + 1 <==> dist(y) >= c.prob || RatioTest(u, dist(y), c.prob))
            && (c'.used == c.used + |c.x| + 1 <==> dist(y) < c.prob)
            && (c'.rejected == c.rejected + 1 ==> c'.x == c.x && c'.prob == c.prob)
            && (c'.accepted == c.accepted + 1 ==> c'.x == y && c'.prob == dist(y))
  {
  }

  /** With a constant density every proposal is accepted. */
  lemma {:induction false} ConstantDensityAlwaysAccepts(c: Chain, delta: seq<real>, dist: Point -> real,
                                                       draws: seq<real>, steps: nat, p: real)
    requires |delta| >= |c.x| && c.used + DrawBudget(|c.x|, steps) <= |draws|
    requires forall y :: dist(y) == p
    requires c.prob == p
    ensures Run(c, delta, dist, draws, steps).rejected == c.rejected
    ensures Run(c, delta, dist, draws, steps).accepted == c.accepted + steps
    decreases steps
  {
    if steps > 0 {
      BudgetStep(c.used, c.used + |c.x| + 1, |c.x|, steps, |draws|);
      var c' := Step(c, delta, dist, draws);
      BudgetStep(c.used, c'.used, |c.x|, steps, |draws|);
      ConstantDensityAlwaysAccepts(c', delta, dist, draws, steps - 1, p);
    }
  }

  /** One step with a constant density returns accepted 2, rejected 0. */
  lemma OneStepConstantDensity(x0: Point, delta: seq<real>, draws: seq<real>)
    requires |delta| >= |x0| && DrawBudget(|x0|, 1) <= |draws|
    ensures Run(Start(x0, _ => 1.0), delta, _ => 1.0, draws, 1).accepted == 2
    ensures Run(Start(x0, _ => 1.0), delta, _ => 1.0, draws, 1).rejected == 0
  {
    ConstantDensityAlwaysAccepts(Start(x0, _ => 1.0), delta, _ => 1.0, draws, 1, 1.0);
  }
}
