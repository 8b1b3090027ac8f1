/** The numeric core of the Particle Swarm panel: building the first
    population, scoring it, and one running step, each as a loop over values,
    proved against specification functions.

    Two facts about the panel's arrays shape this module. The personal-best
    array is the very array that holds the positions, so a particle's personal
    best is always where it is now and is not stored separately. The global
    best is the coordinate array of one live particle, so it is kept as that
    particle's index, next to the fitness recorded when it was chosen. */
module Swarm {

  type Point = seq<real>

  datatype Weights = Weights(w: real, c1: real, c2: real)

  /** `NoBest` is the empty state (and the state after scoring no particles). */
  datatype Best = NoBest | Best(index: nat, fitness: real)

  datatype Population = Population(
    positions: seq<Point>,
    velocities: seq<Point>,
    personalBestFitness: seq<real>,
    globalBest: Best)

  const Empty := Population([], [], [], NoBest)

  /** `n` points of `arity` coordinates each. */
  predicate Shaped(ps: seq<Point>, n: nat, arity: nat)
  {
    |ps| == n && forall i :: 0 <= i < n ==> |ps[i]| == arity
  }

  /** Draws of a unit uniform generator. */
  predicate UnitDraws(ds: seq<Point>)
  {
    forall i, j :: 0 <= i < |ds| && 0 <= j < |ds[i]| ==> 0.0 <= ds[i][j] <= 1.0
  }

  /** The arrays of a population agree in length, and there is a global best,
      naming one of the particles, exactly when there are particles. */
  predicate Sized(s: Population)
  {
    var n := |s.positions|;
    |s.velocities| == n && |s.personalBestFitness| == n
    && (n > 0 <==> s.globalBest.Best?) && (s.globalBest.Best? ==> s.globalBest.index < n)
  }

  /** Sized, and every position and velocity has `arity` coordinates. */
  predicate WellFormed(s: Population, arity: nat)
  {
    Sized(s) && Shaped(s.positions, |s.positions|, arity) && Shaped(s.velocities, |s.positions|, arity)
  }

  function Min(a: real, b: real): real { if b < a then b else a }

  // ---------------------------------------------------------------------------
  // Random draws

  /** `randomNumberInRange(lo, hi)`: the point of [lo, hi] a unit uniform draw selects. */
  function Uniform(lo: real, hi: real, u: real): real { lo + (hi - lo) * u }

  /** `gaussianRandom(mean, sd)`: a standard normal draw, scaled and shifted. */
  function Gaussian(mean: real, sd: real, z: real): real { mean + sd * z }

  function Scatter(lo: real, hi: real, us: Point): (p: Point)
    ensures |p| == |us|
  {
    seq(|us|, j requires 0 <= j < |us| => Uniform(lo, hi, us[j]))
  }

  function Jitter(lo: real, hi: real, zs: Point): (v: Point)
    ensures |v| == |zs|
  {
    seq(|zs|, j requires 0 <= j < |zs| => Gaussian(0.0, (hi - lo) / 100.0, zs[j]))
  }

  lemma ScaleUnit(d: real, u: real)
    requires 0.0 <= d && 0.0 <= u <= 1.0
    ensures 0.0 <= d * u <= d
  {
    assert d - d * u == d * (1.0 - u);
  }

  /** With ordered bounds, every uniform draw lands inside them. */
  lemma ScatterWithinBounds(lo: real, hi: real, us: Point)
    requires lo <= hi
    requires forall j :: 0 <= j < |us| ==> 0.0 <= us[j] <= 1.0
    ensures forall j :: 0 <= j < |us| ==> lo <= Scatter(lo, hi, us)[j] <= hi
  {
    forall j | 0 <= j < |us|
      ensures lo <= Scatter(lo, hi, us)[j] <= hi
    {
      ScaleUnit(hi - lo, us[j]);
    }
  }

  // ---------------------------------------------------------------------------
  // First evolve: initializePopulation and the scoring pass

  /** `initializePopulation`: one position and one velocity per particle, with
      `dimension - 1` coordinates each (the plot dimension counts the value axis). */
  method InitializePopulation(n: nat, dimension: int, lo: real, hi: real, spread: seq<Point>, normal: seq<Point>)
    returns (positions: seq<Point>, velocities: seq<Point>)
    requires dimension == 2 || dimension == 3
    requires Shaped(spread, n, dimension - 1) && Shaped(normal, n, dimension - 1)
    ensures Shaped(positions, n, dimension - 1) && Shaped(velocities, n, dimension - 1)
    ensures forall i :: 0 <= i < n ==> positions[i] == Scatter(lo, hi, spread[i])
    ensures forall i :: 0 <= i < n ==> velocities[i] == Jitter(lo, hi, normal[i])
  {
    positions, velocities := [], [];
    for i := 0 to n
      invariant |positions| == |velocities| == i
      invariant forall k :: 0 <= k < i ==> positions[k] == Scatter(lo, hi, spread[k])
      invariant forall k :: 0 <= k < i ==> velocities[k] == Jitter(lo, hi, normal[k])
    {
      var sd := (hi - lo) / 100.0;
      if dimension == 2 {
        positions := positions + [[Uniform(lo, hi, spread[i][0])]];
        velocities := velocities + [[Gaussian(0.0, sd, normal[i][0])]];
      } else {
        positions := positions + [[Uniform(lo, hi, spread[i][0]), Uniform(lo, hi, spread[i][1])]];
        velocities := velocities + [[Gaussian(0.0, sd, normal[i][0]), Gaussian(0.0, sd, normal[i][1])]];
      }
    }
  }

  /** `b` names the first particle of least fitness. */
  predicate IsFirstMinimum(fitness: seq<real>, b: Best)
  {
    if |fitness| == 0 then b == NoBest
    else
      b.Best? && b.index < |fitness| && b.fitness == fitness[b.index]
      && (forall k :: 0 <= k < |fitness| ==> b.fitness <= fitness[k])
      && (forall k :: 0 <= k < b.index ==> b.fitness < fitness[k])
  }

  /** IsFirstMinimum pins the global best down completely. */
  lemma FirstMinimumIsUnique(fitness: seq<real>, b1: Best, b2: Best)
    requires IsFirstMinimum(fitness, b1) && IsFirstMinimum(fitness, b2)
    ensures b1 == b2
  {
  }

  /** The scoring pass of the first evolve: every particle's fitness becomes its
      personal-best fitness, and the first particle of least fitness becomes the
      global best (a later particle replaces it only when strictly better). */
  method ScoreInitial(f: Point -> real, positions: seq<Point>) returns (fitness: seq<real>, best: Best)
    ensures |fitness| == |positions|
    ensures forall i :: 0 <= i < |positions| ==> fitness[i] == f(positions[i])
    ensures IsFirstMinimum(fitness, best)
  {
    fitness := [];
    if |positions| == 0 {
      // with no particle the source reads an undefined first position; no best exists
      best := NoBest;
      return;
    }
    var g, gf := 0, f(positions[0]);
    for i := 0 to |positions|
      invariant |fitness| == i
      invariant forall k :: 0 <= k < i ==> fitness[k] == f(positions[k])
      invariant g < |positions| && gf == f(positions[g]) && g <= i && (i > 0 ==> g < i)
      invariant forall k :: 0 <= k < i ==> gf <= fitness[k]
      invariant forall k :: 0 <= k < g ==> gf < fitness[k]
    {
      fitness := fitness + [f(positions[i])];
      if fitness[i] < gf {
        g, gf := i, fitness[i];
      }
    }
    best := Best(g, gf);
  }

  // ---------------------------------------------------------------------------
  // Running evolve

  /** One axis of the velocity update: inertia, a pull toward the personal best
      `pb` and a pull toward the global best `g`, each pull scaled by a fresh
      draw from [0, 2]. */
  function Velocity(wt: Weights, v: real, pb: real, p: real, g: real, u1: real, u2: real): real
  {
    wt.w * v + wt.c1 * Uniform(0.0, 2.0, u1) * (pb - p) + wt.c2 * Uniform(0.0, 2.0, u2) * (g - p)
  }

  /** Coordinate `j` of a point, or 0 past its end. Points of a well-formed
      population all have the same number of coordinates, so the default is
      never read there; it keeps the step functions total. */
  function Coordinate(x: Point, j: nat): real
  {
    if j < |x| then x[j] else 0.0
  }

  /** A particle's new velocity; its personal best is its own position `p`,
      because the two arrays are one. */
  function NewVelocity(wt: Weights, p: Point, v: Point, g: Point, u1: Point, u2: Point): (r: Point)
    ensures |r| == |p|
  {
    seq(|p|, j requires 0 <= j < |p| =>
      Velocity(wt, Coordinate(v, j), p[j], p[j], Coordinate(g, j), Coordinate(u1, j), Coordinate(u2, j)))
  }

  function Moved(p: Point, v: Point): (r: Point)
    ensures |r| == |p|
  {
    seq(|p|, j requires 0 <= j < |p| => p[j] + Coordinate(v, j))
  }

  /** Particle `i`'s turn in a running step begun with global best `start`. The
      attractor is the start particle's coordinates as they are at this turn:
      already moved when that particle came earlier, its own position when it
      is particle `i` itself. The global best is replaced whenever the new
      fitness beats the fitness recorded at the START of the step. */
  function ParticleStep(f: Point -> real, wt: Weights, start: Best, s: Population, i: nat, u1: Point, u2: Point): Population
    requires Sized(s) && i < |s.positions|
    requires start.Best? && start.index < |s.positions|
  {
    var p := s.positions[i];
    var v := NewVelocity(wt, p, s.velocities[i], s.positions[start.index], u1, u2);
    var moved := Moved(p, v);
    var fit := f(moved);
    Population(
      s.positions[i := moved],
      s.velocities[i := v],
      if fit < s.personalBestFitness[i] then s.personalBestFitness[i := fit] else s.personalBestFitness,
      if fit < start.fitness then Best(i, fit) else s.globalBest)
  }

  /** A particle's turn changes only that particle's entries, and leaves its
      personal best at the smaller of the old one and its new fitness. */
  lemma ParticleStepAt(f: Point -> real, wt: Weights, start: Best, s: Population, i: nat, m: nat, u1: Point, u2: Point)
    requires Sized(s) && i < |s.positions| && m < |s.positions|
    requires start.Best? && start.index < |s.positions|
    ensures var r := ParticleStep(f, wt, start, s, i, u1, u2);
      && (m == i ==> r.personalBestFitness[m] == Min(s.personalBestFitness[m], f(r.positions[m])))
      && (m != i ==> r.positions[m] == s.positions[m] && r.velocities[m] == s.velocities[m]
                     && r.personalBestFitness[m] == s.personalBestFitness[m])
  {
  }

  /** The personal bests of a running step begun from `s` after `k` turns:
      each of the first `k` particles holds the smaller of its old personal-best
      fitness and the fitness where it now stands (so it never grew), and every
      later particle is exactly as it was. */
  ghost predicate PersonalBestsSoFar(f: Point -> real, s: Population, r: Population, k: nat)
  {
    Sized(r) && |r.positions| == |s.positions| && |s.velocities| == |s.positions| && |s.personalBestFitness| == |s.positions|
    && forall m :: 0 <= m < |s.positions| ==>
         (m < k ==> r.personalBestFitness[m] == Min(s.personalBestFitness[m], f(r.positions[m])))
         && (k <= m ==> r.positions[m] == s.positions[m] && r.velocities[m] == s.velocities[m]
                        && r.personalBestFitness[m] == s.personalBestFitness[m])
  }

  /** The global best of a running step begun from `s` after `k` turns: its
      fitness is never above the starting one; if it changed, it names one of
      the first `k` particles, whose current position has exactly that fitness
      and beats the start; and every one of the first `k` particles after it
      (all of them, if it did not change) failed to beat the START fitness.
      So the last particle to beat the recorded fitness wins, not the best. */
  ghost predicate GlobalBestSoFar(f: Point -> real, s: Population, r: Population, k: nat)
  {
    var g0, g := s.globalBest, r.globalBest;
    Sized(r) && k <= |r.positions|
    && (g0.Best? ==>
         && g.Best? && g.fitness <= g0.fitness
         && (g == g0 || (g.index < k && g.fitness < g0.fitness && g.fitness == f(r.positions[g.index])))
         && forall i :: 0 <= i < k && (g == g0 || g.index < i) ==> g0.fitness <= f(r.positions[i]))
  }

  /** One turn extends the personal-best invariant by one particle. */
  lemma TurnKeepsPersonalBests(f: Point -> real, wt: Weights, s: Population, r: Population, k: nat, u1: Point, u2: Point)
    requires Sized(s) && k < |s.positions| && PersonalBestsSoFar(f, s, r, k)
    ensures PersonalBestsSoFar(f, s, ParticleStep(f, wt, s.globalBest, r, k, u1, u2), k + 1)
  {
    var r' := ParticleStep(f, wt, s.globalBest, r, k, u1, u2);
    forall m | 0 <= m < |s.positions|
      ensures (m < k + 1 ==> r'.personalBestFitness[m] == Min(s.personalBestFitness[m], f(r'.positions[m])))
           && (k + 1 <= m ==> r'.positions[m] == s.positions[m] && r'.velocities[m] == s.velocities[m]
                              && r'.personalBestFitness[m] == s.personalBestFitness[m])
    {
      ParticleStepAt(f, wt, s.globalBest, r, k, m, u1, u2);
    }
  }

  /** One turn extends the global-best invariant by one particle: the mover
      either beats the start fitness and becomes the global best, or leaves
      it alone, and nobody else moves. */
  lemma TurnKeepsGlobalBest(f: Point -> real, wt: Weights, s: Population, r: Population, k: nat, u1: Point, u2: Point)
    requires Sized(s) && k < |s.positions| && |r.positions| == |s.positions| && GlobalBestSoFar(f, s, r, k)
    ensures GlobalBestSoFar(f, s, ParticleStep(f, wt, s.globalBest, r, k, u1, u2), k + 1)
  {
    var r' := ParticleStep(f, wt, s.globalBest, r, k, u1, u2);
    forall i | 0 <= i < k
      ensures r'.positions[i] == r.positions[i]
    {
      ParticleStepAt(f, wt, s.globalBest, r, k, i, u1, u2);
    }
  }

  /** Turns `k`, `k + 1`, ... of a running step begun with global best
      `start`, taken from state `r`: the rest of the outer loop. */
  function Run(f: Point -> real, wt: Weights, start: Best, r: Population, k: nat, pull1: seq<Point>, pull2: seq<Point>): (r': Population)
    requires Sized(r) && k <= |r.positions|
    requires start.Best? ==> start.index < |r.positions|
    requires k < |r.positions| ==> start.Best?
    requires |pull1| == |r.positions| && |pull2| == |r.positions|
    ensures Sized(r') && |r'.positions| == |r.positions|
    decreases |r.positions| - k
  {
    if k == |r.positions| then r
    else Run(f, wt, start, ParticleStep(f, wt, start, r, k, pull1[k], pull2[k]), k + 1, pull1, pull2)
  }

  /** A whole running step: every particle takes its turn, in order, against
      the global best recorded before the step. */
  function Step(f: Point -> real, wt: Weights, s: Population, pull1: seq<Point>, pull2: seq<Point>): (r: Population)
    requires Sized(s) && |pull1| == |s.positions| && |pull2| == |s.positions|
    ensures Sized(r) && |r.positions| == |s.positions|
  {
    Run(f, wt, s.globalBest, s, 0, pull1, pull2)
  }

  /** The rest of a running step completes the personal-best invariant. */
  lemma {:induction false} RunKeepsPersonalBests(f: Point -> real, wt: Weights, s: Population, r: Population, k: nat, pull1: seq<Point>, pull2: seq<Point>)
    requires Sized(s) && k <= |s.positions| && PersonalBestsSoFar(f, s, r, k)
    requires |pull1| == |s.positions| && |pull2| == |s.positions|
    ensures PersonalBestsSoFar(f, s, Run(f, wt, s.globalBest, r, k, pull1, pull2), |s.positions|)
    decreases |s.positions| - k
  {
    if k < |s.positions| {
      TurnKeepsPersonalBests(f, wt, s, r, k, pull1[k], pull2[k]);
      RunKeepsPersonalBests(f, wt, s, ParticleStep(f, wt, s.globalBest, r, k, pull1[k], pull2[k]), k + 1, pull1, pull2);
    }
  }

  /** The rest of a running step completes the global-best invariant. */
  lemma {:induction false} RunKeepsGlobalBest(f: Point -> real, wt: Weights, s: Population, r: Population, k: nat, pull1: seq<Point>, pull2: seq<Point>)
    requires Sized(s) && k <= |s.positions| && |r.positions| == |s.positions| && GlobalBestSoFar(f, s, r, k)
    requires |pull1| == |s.positions| && |pull2| == |s.positions|
    ensures GlobalBestSoFar(f, s, Run(f, wt, s.globalBest, r, k, pull1, pull2), |s.positions|)
    decreases |s.positions| - k
  {
    if k < |s.positions| {
      TurnKeepsGlobalBest(f, wt, s, r, k, pull1[k], pull2[k]);
      RunKeepsGlobalBest(f, wt, s, ParticleStep(f, wt, s.globalBest, r, k, pull1[k], pull2[k]), k + 1, pull1, pull2);
    }
  }

  /** What a whole running step guarantees: every particle keeps the smaller
      of its old personal-best fitness and the fitness where it now stands,
      and the global best is the last particle to beat the fitness recorded
      before the step (or unchanged if none did). */
  lemma StepBests(f: Point -> real, wt: Weights, s: Population, pull1: seq<Point>, pull2: seq<Point>)
    requires Sized(s) && |pull1| == |s.positions| && |pull2| == |s.positions|
    ensures var r := Step(f, wt, s, pull1, pull2);
      PersonalBestsSoFar(f, s, r, |s.positions|) && GlobalBestSoFar(f, s, r, |s.positions|)
  {
    RunKeepsPersonalBests(f, wt, s, s, 0, pull1, pull2);
    RunKeepsGlobalBest(f, wt, s, s, 0, pull1, pull2);
  }

  /** The inner loop of a running evolve: particle `i`'s velocity and position
      updated axis by axis, in place. The attractor is read from `positions[g]`
      as it stands at each axis, which is its value at the start of the turn
      because only particle `i`'s coordinates change and each one after it is read. */
  method MoveParticle(wt: Weights, arity: nat, positions: seq<Point>, velocities: seq<Point>, i: nat, g: nat, u1: Point, u2: Point)
    returns (positions': seq<Point>, velocities': seq<Point>)
    requires Shaped(positions, |positions|, arity) && Shaped(velocities, |positions|, arity)
    requires i < |positions| && g < |positions| && |u1| == arity && |u2| == arity
    ensures var v := NewVelocity(wt, positions[i], velocities[i], positions[g], u1, u2);
      positions' == positions[i := Moved(positions[i], v)] && velocities' == velocities[i := v]
  {
    ghost var p0, v0 := positions[i], velocities[i];
    ghost var v1 := NewVelocity(wt, p0, v0, positions[g], u1, u2);
    ghost var p1 := Moved(p0, v1);
    positions', velocities' := positions, velocities;
    for j := 0 to arity
      invariant |positions'| == |positions| && |velocities'| == |positions|
      invariant forall k :: 0 <= k < |positions| && k != i ==> positions'[k] == positions[k] && velocities'[k] == velocities[k]
      invariant |positions'[i]| == arity && |velocities'[i]| == arity
      invariant forall m :: 0 <= m < j ==> positions'[i][m] == p1[m] && velocities'[i][m] == v1[m]
      invariant forall m :: j <= m < arity ==> positions'[i][m] == p0[m] && velocities'[i][m] == v0[m]
    {
      // personalBest[i] is positions[i], so the c1 pull is taken toward the particle itself
      var vij := wt.w * velocities'[i][j]
        + wt.c1 * Uniform(0.0, 2.0, u1[j]) * (positions'[i][j] - positions'[i][j])
        + wt.c2 * Uniform(0.0, 2.0, u2[j]) * (positions'[g][j] - positions'[i][j]);
      assert positions'[g][j] == positions[g][j];
      assert vij == v1[j];
      velocities' := velocities'[i := velocities'[i][j := vij]];
      positions' := positions'[i := positions'[i][j := positions'[i][j] + velocities'[i][j]]];
    }
    assert positions'[i] == p1 && velocities'[i] == v1;
  }

  /** One iteration of the outer loop of a running evolve: particle `i` moves,
      then its fitness is compared with its personal best and with the global
      best fitness recorded at the start of the step. */
  method TakeTurn(f: Point -> real, wt: Weights, start: Best, s: Population, arity: nat, i: nat, u1: Point, u2: Point)
    returns (r: Population)
    requires WellFormed(s, arity) && i < |s.positions|
    requires start.Best? && start.index < |s.positions|
    requires |u1| == arity && |u2| == arity
    ensures r == ParticleStep(f, wt, start, s, i, u1, u2)
    ensures WellFormed(r, arity)
  {
    var positions, velocities := MoveParticle(wt, arity, s.positions, s.velocities, i, start.index, u1, u2);
    var fitness, best := s.personalBestFitness, s.globalBest;
    var newFitness := f(positions[i]);
    // personalBest[i] = positions[i] assigns the array to itself: nothing to do
    if newFitness < fitness[i] {
      fitness := fitness[i := newFitness];
    }
    if newFitness < start.fitness {
      best := Best(i, newFitness);
    }
    r := Population(positions, velocities, fitness, best);
  }

  /** The nested loops of a running evolve: every particle in turn, every axis
      in turn, updating the coordinate arrays in place. */
  method MoveSwarm(f: Point -> real, wt: Weights, arity: nat, s: Population, pull1: seq<Point>, pull2: seq<Point>)
    returns (r: Population)
    requires WellFormed(s, arity)
    requires Shaped(pull1, |s.positions|, arity) && Shaped(pull2, |s.positions|, arity)
    ensures r == Step(f, wt, s, pull1, pull2)
    ensures WellFormed(r, arity)
  {
    r := s;
    for i := 0 to |s.positions|
      invariant WellFormed(r, arity) && |r.positions| == |s.positions|
      invariant Run(f, wt, s.globalBest, r, i, pull1, pull2) == Step(f, wt, s, pull1, pull2)
    {
      r := TakeTurn(f, wt, s.globalBest, r, arity, i, pull1[i], pull2[i]);
    }
  }



  // ---------------------------------------------------------------------------
  // What a running step guarantees

  /** With the personal best equal to the position, the `c1` term of every
      axis is zero. */
  lemma NewVelocityIgnoresCognitive(w: real, c1: real, c1': real, c2: real, p: Point, v: Point, g: Point, u1: Point, u2: Point)
    ensures NewVelocity(Weights(w, c1, c2), p, v, g, u1, u2) == NewVelocity(Weights(w, c1', c2), p, v, g, u1, u2)
  {
    forall j | 0 <= j < |p|
      ensures Velocity(Weights(w, c1, c2), Coordinate(v, j), p[j], p[j], Coordinate(g, j), Coordinate(u1, j), Coordinate(u2, j))
           == Velocity(Weights(w, c1', c2), Coordinate(v, j), p[j], p[j], Coordinate(g, j), Coordinate(u1, j), Coordinate(u2, j))
    {
      assert p[j] - p[j] == 0.0;
    }
  }

  /** A single turn does not depend on the `c1` weight. */
  lemma TurnIgnoresCognitive(f: Point -> real, w: real, c1: real, c1': real, c2: real, start: Best, s: Population, i: nat, u1: Point, u2: Point)
    requires Sized(s) && i < |s.positions|
    requires start.Best? && start.index < |s.positions|
    ensures ParticleStep(f, Weights(w, c1, c2), start, s, i, u1, u2) == ParticleStep(f, Weights(w, c1', c2), start, s, i, u1, u2)
  {
    NewVelocityIgnoresCognitive(w, c1, c1', c2, s.positions[i], s.velocities[i], s.positions[start.index], u1, u2);
  }

  /** Because the personal best is the position itself, the `c1` weight has no
      effect at all on the rest of a running step. */
  lemma {:induction false} CognitiveWeightIgnored(f: Point -> real, w: real, c1: real, c1': real, c2: real, start: Best, r: Population, k: nat, pull1: seq<Point>, pull2: seq<Point>)
    requires Sized(r) && k <= |r.positions|
    requires start.Best? ==> start.index < |r.positions|
    requires k < |r.positions| ==> start.Best?
    requires |pull1| == |r.positions| && |pull2| == |r.positions|
    ensures Run(f, Weights(w, c1, c2), start, r, k, pull1, pull2) == Run(f, Weights(w, c1', c2), start, r, k, pull1, pull2)
    decreases |r.positions| - k
  {
    if k < |r.positions| {
      TurnIgnoresCognitive(f, w, c1, c1', c2, start, r, k, pull1[k], pull2[k]);
      CognitiveWeightIgnored(f, w, c1, c1', c2, start, ParticleStep(f, Weights(w, c1, c2), start, r, k, pull1[k], pull2[k]), k + 1, pull1, pull2);
    }
  }

  /** The first coordinate, as a total objective for the examples below. */
  function FirstCoordinate(p: Point): real { if |p| > 0 then p[0] else 0.0 }

  /** An earlier particle's improvement is overwritten by a later, smaller one:
      particle 0 reaches fitness 1 and particle 1 reaches fitness 2, both below
      the starting 5, and the step records particle 1 with fitness 2 although
      particle 0's personal best is 1. */
  lemma LaterImprovementOverwrites()
    ensures var s := Population([[5.0], [6.0]], [[-4.0], [-4.0]], [5.0, 6.0], Best(0, 5.0));
      var r := Step(FirstCoordinate, Weights(1.0, 0.0, 0.0), s, [[0.0], [0.0]], [[0.0], [0.0]]);
      r.globalBest == Best(1, 2.0) && r.personalBestFitness == [1.0, 2.0]
  {
    var s := Population([[5.0], [6.0]], [[-4.0], [-4.0]], [5.0, 6.0], Best(0, 5.0));
    var wt, pull := Weights(1.0, 0.0, 0.0), [[0.0], [0.0]];
    var r1 := ParticleStep(FirstCoordinate, wt, s.globalBest, s, 0, [0.0], [0.0]);
    assert NewVelocity(wt, [5.0], [-4.0], [5.0], [0.0], [0.0]) == [-4.0];
    assert Moved([5.0], [-4.0]) == [1.0];
    assert r1 == Population([[1.0], [6.0]], [[-4.0], [-4.0]], [1.0, 6.0], Best(0, 1.0));
    assert NewVelocity(wt, [6.0], [-4.0], [1.0], [0.0], [0.0]) == [-4.0];
    assert Moved([6.0], [-4.0]) == [2.0];
  }

  /** The global best is a live particle: when that particle moves and nobody
      improves, the recorded fitness no longer matches the position it names. */
  lemma GlobalBestPositionDrifts()
    ensures var s := Population([[5.0], [6.0]], [[4.0], [1.0]], [5.0, 6.0], Best(0, 5.0));
      var r := Step(FirstCoordinate, Weights(1.0, 0.0, 0.0), s, [[0.0], [0.0]], [[0.0], [0.0]]);
      r.globalBest == Best(0, 5.0) && FirstCoordinate(r.positions[0]) == 9.0
  {
    var s := Population([[5.0], [6.0]], [[4.0], [1.0]], [5.0, 6.0], Best(0, 5.0));
    var wt, pull := Weights(1.0, 0.0, 0.0), [[0.0], [0.0]];
    var r1 := ParticleStep(FirstCoordinate, wt, s.globalBest, s, 0, [0.0], [0.0]);
    assert NewVelocity(wt, [5.0], [4.0], [5.0], [0.0], [0.0]) == [4.0];
    assert Moved([5.0], [4.0]) == [9.0];
    assert r1 == Population([[9.0], [6.0]], [[4.0], [1.0]], [5.0, 6.0], Best(0, 5.0));
    assert NewVelocity(wt, [6.0], [1.0], [9.0], [0.0], [0.0]) == [1.0];
    assert Moved([6.0], [1.0]) == [7.0];
  }
}
