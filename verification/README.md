# Optiview: the Particle Swarm panel and the application shell

Optiview plots a user-entered function of `x` (or of `x` and `y`) and lets an
optimiser search it for a minimum. This project models two parts in Dafny:

- **The Particle Swarm Optimization panel** (`src/ParticleSwarmOptimization.js`):
  - its form, with validity flags for the bounds, the population size and the weights `w`, `c1` and `c2`;
  - the regular expressions each field is tested against;
  - `parametersValid`, the flag that enables the Evolve button;
  - `reset`, and the effect that drops the population when the equation changes;
  - `initializePopulation` and both branches of `evolve`;
  - `processEvolve` and `processReset`.
- **The application shell** (`src/App.js`):
  - `changeFunction`, which infers the plot dimension from the equation, sets the renderer perspective and probes the equation for validity;
  - `changeAlgorithm`;
  - `renderAlgorithm`.

The files, in dependency order:

- `decimal.dfy` (module `Decimal`) covers the decimal numerals the fields accept, a parser for them and the exact value each one denotes.
- `fields.dfy` (module `Fields`) holds the three field grammars. Each is proved equal to, or contained in, the decimal parser. It also defines what a field holds after an edit: `Num(value)` or `Raw(text)`.
- `swarm.dfy` (module `Swarm`) holds the population and the specification functions of a running step:
  - `ParticleStep` is one particle's turn;
  - `Run` is the rest of the outer loop;
  - `Step` is the whole step.

  The loops of the source are methods proved against those functions: `InitializePopulation`, `ScoreInitial`, `MoveParticle`, `TakeTurn` and `MoveSwarm`.
- `panel.dfy` (module `ParticleSwarmOptimization`) contains `class Panel`. It holds the component's state variables as fields, and each handler is a method.
- `shell.dfy` (module `App`) contains `class Shell`, which holds the App component's state.

The model records three aliasing facts of the source:

- `personalBest` is the very array that holds the positions. So the `c1` pull is always toward the particle's own position and contributes nothing. `Swarm.CognitiveWeightIgnored` proves this.
- `globalBest` is the coordinate array of one live particle. So the model keeps it as that particle's index, and the attractor moves when that particle moves.
- Each particle's fitness is compared against the global-best fitness recorded before the step. So the recorded global best is the last particle to beat that number, not the best one (`Swarm.StepBests`, `Swarm.LaterImprovementOverwrites`).

Points where the code behaves differently from what one might expect; the model follows the code:

- **Dimension.** The dimension is the plot dimension, 2 or 3, counting the value axis. It is not the number of variables, 1 or 2. A point has `dimension - 1` coordinates.
- **Validity probe.** It accepts any result that is neither the empty text nor NaN, so an infinite result counts as valid.
- **Global best.** The global best of a running step is the last improver, not the minimum. The global-best fitness stays as recorded even when the particle it names moves away (`Swarm.GlobalBestPositionDrifts`).
- **Reset trigger.** The population is dropped when the equation text changes, not when the dimension changes. The dimension is a function of the equation, so a dimension change always comes with a text change.

Randomness, the expression evaluator and the plot renderer are parameters of the model:

- Unit uniform draws map `randomNumberInRange(lo, hi)` to `lo + (hi - lo) * u`.
- Standard normal draws map `gaussianRandom(0, sd)` to `sd * z`.
- The evaluator is a function from equation and point to its result.
- What the components ask of the renderer is kept as request logs. The labels it hands back are inputs.

## Model

| member | source | states |
|---|---|---|
| Decimal.ParseText | src/ParticleSwarmOptimization.js:59 | every well-formed numeral reads back as itself, so the text a field accepts determines its parsed value uniquely |
| Fields.BoundTextIsDecimal | src/ParticleSwarmOptimization.js:58 | the bound test `^[-]?\d+(\.)?\d+$` or `^[-]?\d+$` accepts exactly the texts the decimal parser reads: optional minus sign, digits, and optionally a point followed by digits |
| Fields.ReadBound | src/ParticleSwarmOptimization.js:58-68 | a bound field holds the number an accepted text denotes, and the typed text when the text is refused |
| Fields.BoundTextAccepted | src/ParticleSwarmOptimization.js:58 | "-12", "3.25", "-0.5" and "7" are valid bounds |
| Fields.BoundTextRefusedAroundPoint | src/ParticleSwarmOptimization.js:58 | "1." and ".5" are refused: the point needs digits on both sides |
| Fields.BoundTextRefusedOthers | src/ParticleSwarmOptimization.js:58 | "+1", "1e3", "" and "-" are refused |
| Fields.ReadCount | src/ParticleSwarmOptimization.js:88-93 | the population size holds the base-ten value of a non-empty digit string, and the text otherwise |
| Fields.CountTextAccepted | src/ParticleSwarmOptimization.js:88-89 | "0", "007" and "100" hold 0, 7 and 100 |
| Fields.CountTextRefused | src/ParticleSwarmOptimization.js:88-93 | "", "-1" and "1.0" are refused and kept as text |
| Fields.WeightTextIsDecimal | src/ParticleSwarmOptimization.js:99-100 | every accepted weight text is a non-negative decimal numeral; with a point its value is at most 1 |
| Fields.ReadWeight | src/ParticleSwarmOptimization.js:99-104 | a weight holds a number exactly when the text passes the weight test; that number is never negative, and is at most 1 when the text has a point |
| Fields.WeightTextRefusals | src/ParticleSwarmOptimization.js:99 | "0", "1.", ".5" and "2" are refused |
| Fields.WeightOneAccepted | src/ParticleSwarmOptimization.js:99-100 | "1" and "1.00" hold 1 |
| Fields.WeightHalfAccepted | src/ParticleSwarmOptimization.js:99-100 | "0.5" holds one half |
| Fields.WeightDoubleZeroAccepted | src/ParticleSwarmOptimization.js:99-100 | "00" is accepted and holds 0, although "0" is refused |
| Fields.LeadingZeroWeight | src/ParticleSwarmOptimization.js:99-100 | "05" is accepted and holds 5, outside [0, 1] |
| ParticleSwarmOptimization.InitialSettingsConsistent | src/ParticleSwarmOptimization.js:6-19 | the initial form is consistent, and every field flag starts true, so the parameters are valid exactly when the function is |
| ParticleSwarmOptimization.ReadyForm | src/ParticleSwarmOptimization.js:289 | when the Evolve button is enabled, every field holds a number and the lower bound does not exceed the upper |
| ParticleSwarmOptimization.LowerBoundEntered | src/ParticleSwarmOptimization.js:57-68 | the form after a lower-bound edit: the field is read, the flag says whether it parsed, and the bounds flag is set on refusal. Otherwise it is compared with the upper bound only while that bound is valid, and keeps its old value if not. Nothing else changes and the form stays consistent |
| ParticleSwarmOptimization.UpperBoundEntered | src/ParticleSwarmOptimization.js:72-83 | the mirror image for the upper bound |
| ParticleSwarmOptimization.ResetRequests | src/ParticleSwarmOptimization.js:28-30 | `reset` asks the renderer to remove points exactly when a population exists |
| ParticleSwarmOptimization.SpawnPopulation | src/ParticleSwarmOptimization.js:150-176 | the first evolve gives `n` particles of `dimension - 1` coordinates. Each lies inside the bounds and has jittered velocities and a personal-best fitness equal to its fitness. The global best is the first fittest particle |
| ParticleSwarmOptimization.Panel.constructor | src/ParticleSwarmOptimization.js:5-26 | the panel mounts with the initial form, no population and `parametersValid` equal to the function's validity |
| ParticleSwarmOptimization.Panel.UpdateParametersValid | src/ParticleSwarmOptimization.js:53-55 | `parametersValid` becomes the conjunction of the function's validity and every field flag |
| ParticleSwarmOptimization.Panel.Reset | src/ParticleSwarmOptimization.js:28-40 | with a population: one removal request for its labels, everything emptied and the counter zeroed. Without one: nothing changes, so resetting twice is resetting once. The form and props are untouched |
| ParticleSwarmOptimization.Panel.ResetAndRevalidate | src/ParticleSwarmOptimization.js:53-55 | a field handler's tail: reset, then `parametersValid` recomputed; the panel invariant holds afterwards |
| ParticleSwarmOptimization.Panel.FunctionChanged | src/ParticleSwarmOptimization.js:42-51 | a new equation drops the population without a removal request. An unchanged equation keeps it. `parametersValid` follows the new validity |
| ParticleSwarmOptimization.Panel.ProcessLowerBound | src/ParticleSwarmOptimization.js:57-70 | the form becomes `LowerBoundEntered(old form, text)`, the population is reset and `parametersValid` is recomputed |
| ParticleSwarmOptimization.Panel.ProcessUpperBound | src/ParticleSwarmOptimization.js:72-85 | the same for the upper bound |
| ParticleSwarmOptimization.Panel.ProcessPopulationSize | src/ParticleSwarmOptimization.js:87-96 | only the population-size field and its flag change, to what `ReadCount` gives; the population is reset and `parametersValid` is recomputed |
| ParticleSwarmOptimization.Panel.ProcessW | src/ParticleSwarmOptimization.js:98-107 | only `w` and its flag change, to what `ReadWeight` gives; reset and revalidation follow |
| ParticleSwarmOptimization.Panel.ProcessC1 | src/ParticleSwarmOptimization.js:109-118 | only `c1` and its flag change, to what `ReadWeight` gives; reset and revalidation follow |
| ParticleSwarmOptimization.Panel.ProcessC2 | src/ParticleSwarmOptimization.js:120-129 | only `c2` and its flag change, to what `ReadWeight` gives; reset and revalidation follow |
| ParticleSwarmOptimization.Panel.Populate | src/ParticleSwarmOptimization.js:150-181 | from no population: a spawned population (as in SpawnPopulation) of the form's size inside the form's bounds, one drawing request, and a counter of 1 |
| ParticleSwarmOptimization.Panel.Advance | src/ParticleSwarmOptimization.js:183-222 | with a population: it becomes `Step` of the old one under the form's weights. The old points are removed and the new ones drawn, and the counter grows by one |
| ParticleSwarmOptimization.Panel.ProcessEvolve | src/ParticleSwarmOptimization.js:225-228 | `evolve` then one more iteration: the counter grows by exactly one, the form and props stay, the panel invariant holds, and the population is spawned or stepped by the branch taken |
| Swarm.ScatterWithinBounds | src/ParticleSwarmOptimization.js:137-140 | with ordered bounds every uniformly drawn coordinate lies inside them |
| Swarm.InitializePopulation | src/ParticleSwarmOptimization.js:131-146 | `n` positions and `n` velocities of `dimension - 1` coordinates: positions uniform in the bounds, velocities Gaussian with a hundredth of the range as deviation |
| Swarm.ScoreInitial | src/ParticleSwarmOptimization.js:159-171 | each fitness is the objective at its position, and the global best is the first particle of least fitness |
| Swarm.FirstMinimumIsUnique | src/ParticleSwarmOptimization.js:161-171 | "the first particle of least fitness" determines the global best completely |
| Swarm.MoveParticle | src/ParticleSwarmOptimization.js:195-198 | the axis loop updates only particle `i`: its velocity becomes `NewVelocity` and its position moves by it. The attractor is read as it stands at the start of the turn |
| Swarm.TakeTurn | src/ParticleSwarmOptimization.js:194-211 | one outer iteration equals `ParticleStep`: move, lower the personal-best fitness if improved, and take the global best if the start fitness is beaten |
| Swarm.MoveSwarm | src/ParticleSwarmOptimization.js:194-211 | the nested loops compute exactly `Step` and keep every array's length and every point's arity |
| Swarm.ParticleStepAt | src/ParticleSwarmOptimization.js:194-205 | a turn changes only its own particle, whose personal-best fitness becomes the smaller of the old one and its new fitness |
| Swarm.TurnKeepsPersonalBests | src/ParticleSwarmOptimization.js:202-205 | one turn extends the personal-best invariant by one particle |
| Swarm.TurnKeepsGlobalBest | src/ParticleSwarmOptimization.js:207-210 | one turn extends the global-best invariant by one particle |
| Swarm.RunKeepsPersonalBests | src/ParticleSwarmOptimization.js:202-205 | the rest of a step completes the personal-best invariant |
| Swarm.RunKeepsGlobalBest | src/ParticleSwarmOptimization.js:207-210 | the rest of a step completes the global-best invariant |
| Swarm.StepBests | src/ParticleSwarmOptimization.js:194-211 | after a step, each personal-best fitness is the smaller of the old one and the fitness at the particle's new position. The global-best fitness never grows. If it changed, it names the last particle whose new fitness beat the fitness recorded before the step, and that fitness is exact |
| Swarm.NewVelocityIgnoresCognitive | src/ParticleSwarmOptimization.js:196 | a particle's new velocity does not depend on `c1`, because its personal best is its own position |
| Swarm.TurnIgnoresCognitive | src/ParticleSwarmOptimization.js:194-211 | a whole turn does not depend on `c1` |
| Swarm.CognitiveWeightIgnored | src/ParticleSwarmOptimization.js:183-222 | the `c1` weight has no effect on a running step |
| Swarm.LaterImprovementOverwrites | src/ParticleSwarmOptimization.js:207-210 | two particles reach fitness 1 and then 2, both below the start's 5; the step records 2 |
| Swarm.GlobalBestPositionDrifts | src/ParticleSwarmOptimization.js:191-196 | the global best names a live particle: when it moves and nobody improves, its recorded fitness no longer matches its position |
| App.Usable | src/App.js:64-66 | a probe result makes the function valid exactly when it is a number, finite or infinite: the empty text and NaN are refused |
| App.InferredDimension | src/App.js:59 | the dimension is 2 or 3, and 3 exactly when some character of the equation is `y` |
| App.ProbePoint | src/App.js:64-76 | the probe point has one coordinate per free variable (`dimension - 1`), every one of them 0 |
| App.PerspectiveFor | src/App.js:60-72 | the requested perspective is "G" or "T", and "G" exactly for dimension 2 |
| App.RenderedPanel | src/App.js:98-114 | the genetic-algorithm panel is rendered exactly when its option is chosen, and the particle-swarm option renders the particle-swarm panel |
| App.Shell.constructor | src/App.js:26-31 | the shell starts with no equation, an invalid function, dimension 2, the genetic-algorithm panel and perspective "G" |
| App.Shell.ChangeFunction | src/App.js:44-82 | deletes every object listed, in order. Stores the equation and its label. Sets dimension 3 exactly when the text contains `y`, else 2, and requests a perspective only when the dimension changes. Sets validity from probing at the origin of that dimension: neither empty text nor NaN. Keeps the perspective matching the dimension |
| App.Shell.ChangeAlgorithm | src/App.js:84-114 | stores the choice, so the genetic-algorithm panel is rendered exactly when it is chosen, and deletes, in order, exactly the objects that are not the function |
| App.Shell.DeleteAll | src/App.js:47-51 | one deletion request per listed object, in order |
| App.Shell.DeleteAllBut | src/App.js:91-95 | one deletion request per listed object other than the function, in order |
| App.Unlabelled | src/App.js:91-95 | the deleted names are exactly the listed names other than the function's label |
| App.Kept | src/App.js:91-95 | the names left are exactly the listed copies of the function's label |
| App.DeletedAndKeptPartition | src/App.js:91-95 | every listed name is deleted or kept, never both and never lost, so what stays on the plot is only the function |

## Left out

- The JSX layout, the CSS classes and the disabled state of the inputs while the renderer loads (`appletLoaded`) are left out. They change no state of the model.
- The GeoGebra renderer is outside the model. Its calls are logged requests (`AddPoints`, `RemovePoints`, `deleteObject`, `setPerspective`). The labels and object names it returns are parameters. `setGridVisible` is not modelled.
- `evaluate`, `randomNumberInRange`, `gaussianRandom`, `addPoints` and `removePoints` (src/Components.js) are not part of this model. They appear as parameters: an evaluator function, unit uniform and standard normal draws, and returned labels.
- The Genetic Algorithm panel (src/GeneticAlgorithm.js) is not part of this model. Only the choice between it and this panel is modelled.
- The window-size hook and the remount of the renderer it causes are left out, and so are input focus and console output. They only affect presentation.
- React batches state updates and re-runs effects. Each handler is modelled as one atomic update followed by the effect that recomputes `parametersValid`. Mounting a fresh panel when the algorithm choice changes is not modelled.
- Shell and panel are separate classes. Passing the shell's equation, validity and dimension to the panel is what `Panel.FunctionChanged` receives, and is not composed in one method.
- Fields.ReadBound: the value is the exact rational the numeral denotes, not the nearest IEEE double that `parseFloat` returns. The same holds for `ReadWeight`, and all arithmetic is on exact reals.
- ParticleSwarmOptimization.Objective: the objective returns a real. A NaN fitness, which compares false with everything in the source, is not modelled.
- Fields.ReadCount: the population size is an unbounded natural number. `parseInt` returns a double, which rounds digit strings above 2^53, and `new Array(populationSize)` throws a RangeError for a size of 2^32 or more, so for such a size `evolve` fails before the counter changes. Neither the rounding nor that failure is modelled: `Panel.Populate` builds a population of any size the field accepts.
- Swarm.ScoreInitial: with a population size of 0 the source evaluates the objective at an undefined first position. The model records no global best (`NoBest`) instead.
- Swarm.NewVelocity: points of a well-formed population all have the same arity, but the function also gives 0 for a coordinate past the end of a shorter velocity or attractor, so that it is total. No well-formed population reaches that case.
- App.Shell.ChangeFunction: the evaluator's result is abstracted to a finite number, an infinity, NaN or the empty text.
