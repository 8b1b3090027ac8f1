/** The application shell: the equation field, the dimension and validity it
    infers from the equation, the plot perspective, and the choice of which
    optimiser panel to show. The plot itself is a renderer outside the model;
    what the shell asks of it is kept as logs of requests. */
module App {

  /** What the expression evaluator hands back when the equation is probed:
      a finite number, an infinity, NaN, or the empty text it uses for an
      equation it cannot read. */
  datatype Evaluation = Finite(value: real) | Infinite(negative: bool) | NotANumber | EmptyText

  /** The validity test of `changeFunction`: the result is not the empty text
      and is not NaN. An infinity passes. */
  predicate Usable(e: Evaluation): (r: bool)
    ensures r <==> e.Finite? || e.Infinite?
  {
    !e.EmptyText? && !e.NotANumber?
  }

  /** Plot dimension: 3 (a surface) when the equation mentions `y`, else 2. */
  function InferredDimension(equation: string): (d: int)
    ensures d == 2 || d == 3
    ensures d == 3 <==> exists i :: 0 <= i < |equation| && equation[i] == 'y'
  {
    if 'y' in equation then 3 else 2
  }

  /** The point at which a new equation is probed: one coordinate per free
      variable. */
  function ProbePoint(dimension: int): (p: seq<real>)
    ensures dimension == 2 || dimension == 3 ==> |p| == dimension - 1
    ensures forall j :: 0 <= j < |p| ==> p[j] == 0.0
  {
    if dimension == 2 then [0.0] else [0.0, 0.0]
  }

  /** The renderer perspective for a dimension: "G" (graphics) for 2, "T"
      (3D graphics) otherwise. */
  function PerspectiveFor(dimension: int): (p: string)
    ensures p == "G" || p == "T"
    ensures p == "G" <==> dimension == 2
  {
    if dimension == 2 then "G" else "T"
  }

  const GeneticAlgorithmChoice := "Genetic Algorithm"
  const ParticleSwarmChoice := "Particle Swarm Optimization"

  datatype PanelKind = GeneticAlgorithmPanel | ParticleSwarmPanel

  /** `renderAlgorithm`: the genetic-algorithm panel for its own option, the
      particle-swarm panel for anything else. */
  function RenderedPanel(algorithm: string): (k: PanelKind)
    ensures k == GeneticAlgorithmPanel <==> algorithm == GeneticAlgorithmChoice
    ensures algorithm == ParticleSwarmChoice ==> k == ParticleSwarmPanel
  {
    if algorithm == GeneticAlgorithmChoice then GeneticAlgorithmPanel else ParticleSwarmPanel
  }

  /** The object names `changeAlgorithm` deletes: those that are not the
      function's label, in their order. */
  function Unlabelled(names: seq<string>, functionLabel: string): (r: seq<string>)
    ensures forall x :: x in r <==> x in names && x != functionLabel
    ensures |r| <= |names|
  {
    if names == [] then []
    else
      var last := names[|names| - 1];
      Unlabelled(names[..|names| - 1], functionLabel) + (if last != functionLabel then [last] else [])
  }

  /** The object names `changeAlgorithm` leaves on the plot. */
  function Kept(names: seq<string>, functionLabel: string): (r: seq<string>)
    ensures forall x :: x in r <==> x in names && x == functionLabel
    ensures |r| <= |names|
  {
    if names == [] then []
    else
      var last := names[|names| - 1];
      Kept(names[..|names| - 1], functionLabel) + (if last == functionLabel then [last] else [])
  }

  /** Every name is either deleted or kept, never both and never lost: what
      is left on the plot is some copies of the function's label. */
  lemma {:induction false} DeletedAndKeptPartition(names: seq<string>, functionLabel: string)
    ensures multiset(names) == multiset(Unlabelled(names, functionLabel)) + multiset(Kept(names, functionLabel))
    ensures |Unlabelled(names, functionLabel)| + |Kept(names, functionLabel)| == |names|
  {
    if names != [] {
      var init, last := names[..|names| - 1], names[|names| - 1];
      DeletedAndKeptPartition(init, functionLabel);
      assert names == init + [last];
      if last == functionLabel {
        assert Unlabelled(names, functionLabel) == Unlabelled(init, functionLabel);
        assert Kept(names, functionLabel) == Kept(init, functionLabel) + [last];
      } else {
        assert Unlabelled(names, functionLabel) == Unlabelled(init, functionLabel) + [last];
        assert Kept(names, functionLabel) == Kept(init, functionLabel);
      }
    }
  }

  class Shell {
    var functionEquation: string
    var functionEquationLabel: string
    var functionValid: bool
    var dimension: int
    var algorithm: string

    /** Every `deleteObject` request, oldest first. */
    var deletions: seq<string>
    /** Every `setPerspective` request, oldest first. */
    var perspectives: seq<string>

    /** The renderer's perspective: the last one requested, or "G", the one
        the applet is created with. */
    function Perspective(): string
      reads this`perspectives
    {
      if perspectives == [] then "G" else perspectives[|perspectives| - 1]
    }

    /** The dimension follows the equation and the perspective follows the
        dimension. */
    ghost predicate Valid()
      reads this`functionEquation, this`dimension, this`perspectives
    {
      dimension == InferredDimension(functionEquation) && Perspective() == PerspectiveFor(dimension)
    }

    /** The shell as first rendered: no equation, a 2-dimensional plot and the
        genetic-algorithm panel. */
    constructor ()
      ensures Valid()
      ensures functionEquation == "" && functionEquationLabel == "" && !functionValid && dimension == 2
      ensures algorithm == GeneticAlgorithmChoice && RenderedPanel(algorithm) == GeneticAlgorithmPanel
      ensures deletions == [] && perspectives == []
    {
      functionEquation, functionEquationLabel, functionValid := "", "", false;
      dimension := 2;
      algorithm := GeneticAlgorithmChoice;
      deletions, perspectives := [], [];
    }

    /** `changeFunction`: every object on the plot is deleted, the new equation
        and the label the renderer gives it are stored, the dimension is
        inferred from the text (with a perspective request only when it
        changes) and the equation is probed at the origin of that dimension.
        `objectNames` is what the renderer lists, `functionLabel` what it returns for
        the new equation, `evaluate` the expression evaluator. */
    method ChangeFunction(newEquation: string, objectNames: seq<string>, functionLabel: string,
                          evaluate: (string, seq<real>) -> Evaluation)
      requires Valid()
      modifies this`functionEquation, this`functionEquationLabel, this`functionValid, this`dimension,
               this`deletions, this`perspectives
      ensures Valid()
      ensures deletions == old(deletions) + objectNames
      ensures functionEquation == newEquation && functionEquationLabel == functionLabel
      ensures dimension == InferredDimension(newEquation)
      ensures |ProbePoint(dimension)| == dimension - 1
      ensures functionValid <==> Usable(evaluate(newEquation, ProbePoint(dimension)))
      ensures perspectives == old(perspectives) + (if dimension == old(dimension) then [] else [PerspectiveFor(dimension)])
    {
      DeleteAll(objectNames);
      functionEquation := newEquation;
      functionEquationLabel := functionLabel;
      if 'y' !in newEquation {
        if dimension != 2 {
          dimension := 2;
          perspectives := perspectives + ["G"];
        }
        var probe := evaluate(newEquation, [0.0]);
        functionValid := probe != EmptyText && probe != NotANumber;
      } else {
        if dimension == 2 {
          dimension := 3;
          perspectives := perspectives + ["T"];
        }
        var probe := evaluate(newEquation, [0.0, 0.0]);
        functionValid := probe != EmptyText && probe != NotANumber;
      }
    }

    /** `changeAlgorithm`: the choice is stored and every object on the plot
        other than the function itself is deleted. */
    method ChangeAlgorithm(choice: string, objectNames: seq<string>)
      modifies this`algorithm, this`deletions
      ensures algorithm == choice
      ensures RenderedPanel(algorithm) == GeneticAlgorithmPanel <==> choice == GeneticAlgorithmChoice
      ensures deletions == old(deletions) + Unlabelled(objectNames, functionEquationLabel)
    {
      DeleteAllBut(objectNames, functionEquationLabel);
      algorithm := choice;
    }

    /** Asks the renderer to delete each of `names`, in order. */
    method DeleteAll(names: seq<string>)
      modifies this`deletions
      ensures deletions == old(deletions) + names
    {
      for i := 0 to |names|
        invariant deletions == old(deletions) + names[..i]
      {
        deletions := deletions + [names[i]];
        assert names[..i + 1] == names[..i] + [names[i]];
      }
      assert names[..|names|] == names;
    }

    /** Asks the renderer to delete each of `names` other than `keep`, in order. */
    method DeleteAllBut(names: seq<string>, keep: string)
      modifies this`deletions
      ensures deletions == old(deletions) + Unlabelled(names, keep)
    {
      for i := 0 to |names|
        invariant deletions == old(deletions) + Unlabelled(names[..i], keep)
      {
        assert names[..i + 1][..i] == names[..i];
        if names[i] != keep {
          deletions := deletions + [names[i]];
        }
      }
      assert names[..|names|] == names;
    }
  }
}
