/** The Particle Swarm Optimization panel: its form fields and validity flags,
    its population, and the handlers that change them. Each handler runs to
    completion as one update of the panel's state; the effect that recomputes
    `parametersValid` is run at the end of every handler that can change one of
    its inputs. */
module ParticleSwarmOptimization {
  import opened Decimal
  import opened Fields
  import opened Swarm

  /** An opaque handle the renderer returns for a drawn point. */
  type Label = string

  /** What the panel asks of the plot renderer. */
  datatype Request = AddPoints(equation: string, points: seq<Point>) | RemovePoints(labels: seq<Label>)

  /** The form: every tunable field with its validity flag. */
  datatype Settings = Settings(
    lowerBound: Entry<real>, lowerBoundValid: bool,
    upperBound: Entry<real>, upperBoundValid: bool,
    boundsValid: bool,
    populationSize: Entry<nat>, populationSizeValid: bool,
    w: Entry<real>, wValid: bool,
    c1: Entry<real>, c1Valid: bool,
    c2: Entry<real>, c2Valid: bool)

  const InitialSettings := Settings(
    Num(0.0), true, Num(0.0), true, true, Num(100), true,
    Num(0.65), true, Num(0.1), true, Num(0.1), true)

  /** Each flag says whether its field holds a number, and the bounds flag is
      false exactly when both bounds are numbers and the lower exceeds the upper. */
  predicate Consistent(s: Settings)
  {
    (s.lowerBoundValid <==> s.lowerBound.Num?) && (s.upperBoundValid <==> s.upperBound.Num?)
    && (s.populationSizeValid <==> s.populationSize.Num?)
    && (s.wValid <==> s.w.Num?) && (s.c1Valid <==> s.c1.Num?) && (s.c2Valid <==> s.c2.Num?)
    && s.boundsValid == (s.lowerBound.Num? && s.upperBound.Num? ==> s.lowerBound.value <= s.upperBound.value)
  }

  /** What `parametersValid` is meant to hold: every flag at once. */
  predicate Ready(functionValid: bool, s: Settings)
  {
    functionValid && s.lowerBoundValid && s.upperBoundValid && s.populationSizeValid
    && s.wValid && s.c1Valid && s.c2Valid && s.boundsValid
  }

  /** A ready form has numbers in every field and its bounds in order. */
  lemma ReadyForm(functionValid: bool, s: Settings)
    requires Consistent(s) && Ready(functionValid, s)
    ensures s.lowerBound.Num? && s.upperBound.Num? && s.lowerBound.value <= s.upperBound.value
    ensures s.populationSize.Num? && s.w.Num? && s.c1.Num? && s.c2.Num?
  {
  }

  lemma InitialSettingsConsistent()
    ensures Consistent(InitialSettings) && Ready(true, InitialSettings) && !Ready(false, InitialSettings)
  {
  }

  /** The form after `processLowerBound` reads `text`: a number when the text
      is a decimal numeral, the raw text otherwise. The bounds flag is compared
      against the upper bound only while that bound is valid, keeps its old
      value otherwise, and is set whenever the lower bound is refused. */
  function LowerBoundEntered(s: Settings, text: string): (r: Settings)
    requires Consistent(s)
    ensures Consistent(r)
    ensures r.lowerBound == ReadBound(text) && (r.lowerBoundValid <==> ParseDecimal(text).Some?)
    ensures r == s.(lowerBound := r.lowerBound, lowerBoundValid := r.lowerBoundValid, boundsValid := r.boundsValid)
    ensures r.lowerBoundValid && !s.upperBoundValid ==> r.boundsValid == s.boundsValid
  {
    var e := ReadBound(text);
    if e.Num? then
      s.(lowerBound := e, lowerBoundValid := true,
         boundsValid := if s.upperBoundValid then e.value <= s.upperBound.value else s.boundsValid)
    else
      s.(lowerBound := e, lowerBoundValid := false, boundsValid := true)
  }

  /** The form after `processUpperBound` reads `text`, the mirror image of
      LowerBoundEntered. */
  function UpperBoundEntered(s: Settings, text: string): (r: Settings)
    requires Consistent(s)
    ensures Consistent(r)
    ensures r.upperBound == ReadBound(text) && (r.upperBoundValid <==> ParseDecimal(text).Some?)
    ensures r == s.(upperBound := r.upperBound, upperBoundValid := r.upperBoundValid, boundsValid := r.boundsValid)
    ensures r.upperBoundValid && !s.lowerBoundValid ==> r.boundsValid == s.boundsValid
  {
    var e := ReadBound(text);
    if e.Num? then
      s.(upperBound := e, upperBoundValid := true,
         boundsValid := if s.lowerBoundValid then s.lowerBound.value <= e.value else s.boundsValid)
    else
      s.(upperBound := e, upperBoundValid := false, boundsValid := true)
  }

  /** `reset` asks the renderer to remove the drawn points only when a
      population exists. */
  function ResetRequests(iterations: nat, labels: seq<Label>): (r: seq<Request>)
    ensures iterations == 0 <==> r == []
  {
    if iterations == 0 then [] else [RemovePoints(labels)]
  }

  /** The objective: the evaluator applied to the current equation. */
  function Objective(evaluate: (string, Point) -> real, equation: string): Point -> real
  {
    p => evaluate(equation, p)
  }

  /** The population the first `evolve` creates: `n` particles scattered
      uniformly inside the bounds, velocities drawn around 0 with a hundredth of
      the range as deviation, every personal best at its own fitness and the
      global best at the first fittest particle. */
  ghost predicate Spawned(s: Population, f: Point -> real, n: nat, arity: nat, lo: real, hi: real,
                          spread: seq<Point>, normal: seq<Point>)
  {
    && Swarm.WellFormed(s, arity) && |s.positions| == n && |spread| == n && |normal| == n
    && (forall i :: 0 <= i < n ==>
          s.positions[i] == Scatter(lo, hi, spread[i]) && s.velocities[i] == Jitter(lo, hi, normal[i]))
    && (forall i, j :: 0 <= i < n && 0 <= j < |s.positions[i]| ==> lo <= s.positions[i][j] <= hi)
    && (forall i :: 0 <= i < n ==> s.personalBestFitness[i] == f(s.positions[i]))
    && IsFirstMinimum(s.personalBestFitness, s.globalBest)
  }

  /** The branch of `evolve` taken when there is no population:
      `initializePopulation` followed by the scoring pass. */
  method SpawnPopulation(f: Point -> real, n: nat, dimension: int, lo: real, hi: real,
                         spread: seq<Point>, normal: seq<Point>) returns (s: Population)
    requires (dimension == 2 || dimension == 3) && lo <= hi
    requires Shaped(spread, n, dimension - 1) && Shaped(normal, n, dimension - 1) && UnitDraws(spread)
    ensures Spawned(s, f, n, dimension - 1, lo, hi, spread, normal)
  {
    var positions, velocities := InitializePopulation(n, dimension, lo, hi, spread, normal);
    // setPositions and setPersonalBest receive the same array
    var fitness, best := ScoreInitial(f, positions);
    s := Population(positions, velocities, fitness, best);
    forall i | 0 <= i < n
      ensures forall j :: 0 <= j < |positions[i]| ==> lo <= positions[i][j] <= hi
    {
      ScatterWithinBounds(lo, hi, spread[i]);
    }
  }

  class Panel {
    // Props received from the shell
    var functionEquation: string
    var functionValid: bool
    var dimension: int

    /** The form: one state variable per field and per flag, kept together. */
    var form: Settings
    var parametersValid: bool

    // The population; `iterations == 0` means there is none
    var iterations: nat
    var positions: seq<Point>
    var velocities: seq<Point>
    var personalBestFitness: seq<real>
    var globalBest: Best
    var populationLabels: seq<Label>

    /** Every request sent to the renderer, oldest first. */
    var requests: seq<Request>

    function Props(): (string, bool, int)
      reads this`functionEquation, this`functionValid, this`dimension
    {
      (functionEquation, functionValid, dimension)
    }

    function Particles(): Population
      reads this`positions, this`velocities, this`personalBestFitness, this`globalBest
    {
      Population(positions, velocities, personalBestFitness, globalBest)
    }

    /** No population at all while the counter is 0; otherwise one of
        `populationSize` particles of `dimension - 1` coordinates. */
    ghost predicate PopulationValid()
      reads this`dimension, this`iterations, this`populationLabels
      reads this`positions, this`velocities, this`personalBestFitness, this`globalBest
    {
      (dimension == 2 || dimension == 3)
      && (iterations == 0 ==> Particles() == Empty && populationLabels == [])
      && (iterations > 0 ==> Swarm.WellFormed(Particles(), dimension - 1))
    }

    /** The flags agree with the fields, and `parametersValid` with the flags. */
    ghost predicate FormValid()
      reads this`form, this`functionValid, this`parametersValid
    {
      Consistent(form) && parametersValid == Ready(functionValid, form)
    }

    ghost predicate Valid()
      reads this`form, this`functionValid, this`parametersValid, this`dimension, this`iterations, this`populationLabels
      reads this`positions, this`velocities, this`personalBestFitness, this`globalBest
    {
      FormValid() && PopulationValid()
      && (iterations > 0 ==> form.populationSize.Num? && |positions| == form.populationSize.value)
    }

    /** The population was cleared by `reset`, with a removal request only if
        there was a population. */
    twostate predicate WasReset()
      reads this`iterations, this`positions, this`velocities, this`personalBestFitness, this`globalBest
      reads this`populationLabels, this`requests
    {
      iterations == 0 && Particles() == Empty && populationLabels == []
      && requests == old(requests) + ResetRequests(old(iterations), old(populationLabels))
    }

    /** Mounting the panel, followed by the effect that computes `parametersValid`. */
    constructor (equation: string, valid: bool, dim: int)
      requires dim == 2 || dim == 3
      ensures Valid()
      ensures Props() == (equation, valid, dim)
      ensures form == InitialSettings && parametersValid == valid
      ensures iterations == 0 && requests == []
    {
      functionEquation, functionValid, dimension := equation, valid, dim;
      form := InitialSettings;
      iterations := 0;
      positions, velocities, personalBestFitness, globalBest := [], [], [], NoBest;
      populationLabels := [];
      requests := [];
      parametersValid := false;
      new;
      UpdateParametersValid();
    }

    /** The effect that keeps `parametersValid` equal to the conjunction of the flags. */
    method UpdateParametersValid()
      modifies this`parametersValid
      ensures parametersValid == Ready(functionValid, form)
    {
      parametersValid := functionValid && form.lowerBoundValid && form.upperBoundValid && form.populationSizeValid
        && form.wValid && form.c1Valid && form.c2Valid && form.boundsValid;
    }

    /** The setters of the population arrays, called together. */
    method SetParticles(p: Population)
      modifies this`positions, this`velocities, this`personalBestFitness, this`globalBest
      ensures Particles() == p
    {
      positions, velocities, personalBestFitness, globalBest := p.positions, p.velocities, p.personalBestFitness, p.globalBest;
    }

    /** The setters that empty the population and zero the counter. */
    method Clear()
      modifies this`iterations, this`positions, this`velocities, this`personalBestFitness, this`globalBest,
               this`populationLabels
      ensures iterations == 0 && Particles() == Empty && populationLabels == []
    {
      SetParticles(Empty);
      populationLabels := [];
      iterations := 0;
    }

    /** `reset` and `processReset`: clears a population if there is one; a no-op
        otherwise, so a second reset changes nothing. */
    method Reset()
      requires PopulationValid()
      modifies this`iterations, this`positions, this`velocities, this`personalBestFitness, this`globalBest,
               this`populationLabels, this`requests
      ensures PopulationValid() && WasReset()
      ensures old(iterations) == 0 ==> unchanged(this)
      ensures form == old(form) && Props() == old(Props()) && parametersValid == old(parametersValid)
    {
      if iterations != 0 {
        requests := requests + [RemovePoints(populationLabels)];
        Clear();
      }
    }

    /** What every field handler does after storing the field: `reset`, then
        the effect that recomputes `parametersValid`. */
    method ResetAndRevalidate()
      requires Consistent(form) && PopulationValid()
      modifies this`parametersValid
      modifies this`iterations, this`positions, this`velocities, this`personalBestFitness, this`globalBest,
               this`populationLabels, this`requests
      ensures Valid() && WasReset()
      ensures form == old(form) && Props() == old(Props()) && parametersValid == Ready(functionValid, form)
    {
      Reset();
      UpdateParametersValid();
    }

    /** The effect on a new equation from the shell: the population is dropped
        without a removal request (the shell has already deleted every object),
        and `parametersValid` follows the new validity. */
    method FunctionChanged(equation: string, valid: bool, dim: int)
      requires Valid() && (dim == 2 || dim == 3)
      requires equation == functionEquation ==> dim == dimension
      modifies this`functionEquation, this`functionValid, this`dimension, this`parametersValid,
               this`iterations, this`positions, this`velocities, this`personalBestFitness, this`globalBest,
               this`populationLabels
      ensures Valid()
      ensures Props() == (equation, valid, dim) && form == old(form)
      ensures parametersValid == Ready(valid, form)
      ensures requests == old(requests)
      ensures equation != old(functionEquation) ==> iterations == 0 && Particles() == Empty && populationLabels == []
      ensures equation == old(functionEquation) ==>
        iterations == old(iterations) && Particles() == old(Particles()) && populationLabels == old(populationLabels)
    {
      var changed := equation != functionEquation;
      functionEquation, functionValid, dimension := equation, valid, dim;
      if changed {
        Clear();
      }
      UpdateParametersValid();
    }

    /** `processLowerBound`: the field is read, then `reset` and the effect
        that recomputes `parametersValid` run. */
    method ProcessLowerBound(text: string)
      requires Valid()
      modifies this`form, this`parametersValid
      modifies this`iterations, this`positions, this`velocities, this`personalBestFitness, this`globalBest,
               this`populationLabels, this`requests
      ensures Valid() && WasReset()
      ensures form == LowerBoundEntered(old(form), text)
      ensures Props() == old(Props()) && parametersValid == Ready(functionValid, form)
    {
      form := LowerBoundEntered(form, text);
      ResetAndRevalidate();
    }

    /** `processUpperBound`, the mirror image of ProcessLowerBound. */
    method ProcessUpperBound(text: string)
      requires Valid()
      modifies this`form, this`parametersValid
      modifies this`iterations, this`positions, this`velocities, this`personalBestFitness, this`globalBest,
               this`populationLabels, this`requests
      ensures Valid() && WasReset()
      ensures form == UpperBoundEntered(old(form), text)
      ensures Props() == old(Props()) && parametersValid == Ready(functionValid, form)
    {
      form := UpperBoundEntered(form, text);
      ResetAndRevalidate();
    }

    /** `processPopulationSize`: a digit string becomes its value, anything else stays text. */
    method ProcessPopulationSize(text: string)
      requires Valid()
      modifies this`form, this`parametersValid
      modifies this`iterations, this`positions, this`velocities, this`personalBestFitness, this`globalBest,
               this`populationLabels, this`requests
      ensures Valid() && WasReset()
      ensures form.populationSize == ReadCount(text) && form.populationSizeValid == IsCountText(text)
      ensures form == old(form).(populationSize := form.populationSize, populationSizeValid := form.populationSizeValid)
      ensures Props() == old(Props()) && parametersValid == Ready(functionValid, form)
    {
      if IsCountText(text) {
        form := form.(populationSize := ReadCount(text), populationSizeValid := true);
      } else {
        form := form.(populationSize := ReadCount(text), populationSizeValid := false);
      }
      ResetAndRevalidate();
    }

    /** `processW`: the inertia weight. */
    method ProcessW(text: string)
      requires Valid()
      modifies this`form, this`parametersValid
      modifies this`iterations, this`positions, this`velocities, this`personalBestFitness, this`globalBest,
               this`populationLabels, this`requests
      ensures Valid() && WasReset()
      ensures form.w == ReadWeight(text) && form.wValid == IsWeightText(text)
      ensures form == old(form).(w := form.w, wValid := form.wValid)
      ensures Props() == old(Props()) && parametersValid == Ready(functionValid, form)
    {
      if IsWeightText(text) {
        form := form.(w := ReadWeight(text), wValid := true);
      } else {
        form := form.(w := ReadWeight(text), wValid := false);
      }
      ResetAndRevalidate();
    }

    /** `processC1`: the weight of the pull toward the personal best. */
    method ProcessC1(text: string)
      requires Valid()
      modifies this`form, this`parametersValid
      modifies this`iterations, this`positions, this`velocities, this`personalBestFitness, this`globalBest,
               this`populationLabels, this`requests
      ensures Valid() && WasReset()
      ensures form.c1 == ReadWeight(text) && form.c1Valid == IsWeightText(text)
      ensures form == old(form).(c1 := form.c1, c1Valid := form.c1Valid)
      ensures Props() == old(Props()) && parametersValid == Ready(functionValid, form)
    {
      if IsWeightText(text) {
        form := form.(c1 := ReadWeight(text), c1Valid := true);
      } else {
        form := form.(c1 := ReadWeight(text), c1Valid := false);
      }
      ResetAndRevalidate();
    }

    /** `processC2`: the weight of the pull toward the global best. */
    method ProcessC2(text: string)
      requires Valid()
      modifies this`form, this`parametersValid
      modifies this`iterations, this`positions, this`velocities, this`personalBestFitness, this`globalBest,
               this`populationLabels, this`requests
      ensures Valid() && WasReset()
      ensures form.c2 == ReadWeight(text) && form.c2Valid == IsWeightText(text)
      ensures form == old(form).(c2 := form.c2, c2Valid := form.c2Valid)
      ensures Props() == old(Props()) && parametersValid == Ready(functionValid, form)
    {
      if IsWeightText(text) {
        form := form.(c2 := ReadWeight(text), c2Valid := true);
      } else {
        form := form.(c2 := ReadWeight(text), c2Valid := false);
      }
      ResetAndRevalidate();
    }

    /** `processEvolve` from no population: `evolve` creates and scores one,
        asks for it to be drawn, and the counter becomes 1. */
    method Populate(evaluate: (string, Point) -> real, spread: seq<Point>, normal: seq<Point>, drawn: seq<Label>)
      requires Valid() && parametersValid && iterations == 0
      requires Shaped(spread, form.populationSize.value, dimension - 1) && Shaped(normal, form.populationSize.value, dimension - 1)
      requires UnitDraws(spread)
      modifies this`positions, this`velocities, this`personalBestFitness, this`globalBest
      modifies this`requests, this`populationLabels, this`iterations
      ensures Valid()
      ensures Spawned(Particles(), Objective(evaluate, functionEquation), form.populationSize.value, dimension - 1,
                      form.lowerBound.value, form.upperBound.value, spread, normal)
      ensures iterations == 1 && populationLabels == drawn
      ensures requests == old(requests) + [AddPoints(functionEquation, positions)]
    {
      ReadyForm(functionValid, form);
      var spawned := SpawnPopulation(Objective(evaluate, functionEquation), form.populationSize.value, dimension,
                                     form.lowerBound.value, form.upperBound.value, spread, normal);
      requests := requests + [AddPoints(functionEquation, spawned.positions)];
      populationLabels := drawn;
      iterations := 1;
      SetParticles(spawned);
    }

    /** `processEvolve` with a population: the drawn points are removed, every
        particle moves once, the new positions are drawn and the counter grows. */
    method Advance(evaluate: (string, Point) -> real, pull1: seq<Point>, pull2: seq<Point>, drawn: seq<Label>)
      requires Valid() && parametersValid && iterations > 0
      requires Shaped(pull1, |positions|, dimension - 1) && Shaped(pull2, |positions|, dimension - 1)
      modifies this`positions, this`velocities, this`personalBestFitness, this`globalBest
      modifies this`requests, this`populationLabels, this`iterations
      ensures Valid()
      ensures Particles() == Step(Objective(evaluate, functionEquation), Weights(form.w.value, form.c1.value, form.c2.value),
                                  old(Particles()), pull1, pull2)
      ensures iterations == old(iterations) + 1 && populationLabels == drawn
      ensures requests == old(requests) + [RemovePoints(old(populationLabels)), AddPoints(functionEquation, positions)]
    {
      ReadyForm(functionValid, form);
      var moved := MoveSwarm(Objective(evaluate, functionEquation), Weights(form.w.value, form.c1.value, form.c2.value),
                             dimension - 1, Particles(), pull1, pull2);
      requests := requests + [RemovePoints(populationLabels), AddPoints(functionEquation, moved.positions)];
      populationLabels := drawn;
      iterations := iterations + 1;
      SetParticles(moved);
    }

    /** `processEvolve` (the button is enabled only while `parametersValid`):
        `evolve` followed by one more iteration. From no population it creates
        one inside the bounds and scores it; otherwise it moves every particle
        once. `spread` and `pull1`, `pull2` are unit uniform draws, `normal`
        standard normal draws, `drawn` the labels the renderer returns. */
    method ProcessEvolve(evaluate: (string, Point) -> real, spread: seq<Point>, normal: seq<Point>,
                         pull1: seq<Point>, pull2: seq<Point>, drawn: seq<Label>)
      requires Valid() && parametersValid
      requires iterations == 0 ==>
        Shaped(spread, form.populationSize.value, dimension - 1) && Shaped(normal, form.populationSize.value, dimension - 1)
      requires iterations > 0 ==>
        Shaped(pull1, |positions|, dimension - 1) && Shaped(pull2, |positions|, dimension - 1)
      requires UnitDraws(spread)
      modifies this`iterations, this`positions, this`velocities, this`personalBestFitness, this`globalBest,
               this`populationLabels, this`requests
      ensures Valid() && parametersValid
      ensures iterations == old(iterations) + 1
      ensures form == old(form) && Props() == old(Props())
      ensures populationLabels == drawn
      ensures requests == old(requests) + ResetRequests(old(iterations), old(populationLabels))
                          + [AddPoints(functionEquation, positions)]
      ensures old(iterations) == 0 ==>
        Spawned(Particles(), Objective(evaluate, functionEquation), form.populationSize.value, dimension - 1,
                form.lowerBound.value, form.upperBound.value, spread, normal)
      ensures old(iterations) > 0 ==>
        Particles() == Step(Objective(evaluate, functionEquation), Weights(form.w.value, form.c1.value, form.c2.value),
                            old(Particles()), pull1, pull2)
    {
      if iterations == 0 {
        Populate(evaluate, spread, normal, drawn);
      } else {
        Advance(evaluate, pull1, pull2, drawn);
      }
    }
  }
}
