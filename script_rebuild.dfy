/**
 * The step structure of `setupDivisions` in the synchronous script (`script.js`): which objects
 * a rebuild with `n` divisions creates, in which order, and the text of the `s_G` command,
 * assuming every listener that creates a further object runs.
 */
module ScriptRebuild {
  import opened Wrappers
  import opened Host
  import opened Strings
  import opened Rebuild

  /**
   * `setupDivision(d, previous, current)`: the secant segment (always, unlike in the applet),
   * its slope, the `μ` point, the tangent there, and the `f'` ordinate.
   */
  function DivisionSetup(d: nat, previous: nat, current: nat): seq<Step>
  {
    [DivisionSecant(d, previous, current), SecantSlope(d, previous, current), MuPoint(Division(d))]
    + Tangent(Division(d))
    + [MuOrdinatePoint(d), MuOrdinateLine(d)]
  }

  /** The setup of iteration `i`, over the points `i - 1` and `i`, if it has one. */
  function SetupOf(i: nat): seq<Step>
  {
    if i >= 2 then DivisionSetup(i - 1, i - 1, i) else []
  }

  /** The level-term block: `S_G`, `s_G`, the `μ` point and the tangent there. */
  function LevelTermBlock(n: nat): seq<Step>
  {
    [IntervalSecant(1, n + 1), LevelTermSlope(Range(1, n + 1), n), MuPoint(LevelTerm)] + Tangent(LevelTerm)
  }

  /** What follows the setup of iteration `i`: the level-term block, on the last iteration when `n != 1`. */
  function Tail(n: nat, i: nat): seq<Step>
  {
    if n != 1 && i == n + 1 then LevelTermBlock(n) else []
  }

  /** Iteration `i` of the loop over `1..n+1`. */
  function Iteration(n: nat, i: nat): seq<Step>
  {
    Markers(i) + SetupOf(i) + Tail(n, i)
  }

  /** Iterations `1..m`, in order. */
  function Iterations(n: nat, m: nat): seq<Step>
  {
    if m == 0 then [] else Iterations(n, m - 1) + Iteration(n, m)
  }

  /** The `abscissaPointLabel` the loop leaves: the solved `μ`, or the literal `"μ_1"`. */
  function Abscissa(n: nat): Part
  {
    if n != 1 then LevelTerm else Division(1)
  }

  /**
   * The steps after the loop: the `f'` point and its segment above `at`, then `Q_{B'}`, whose
   * listener creates `Q_{A'}`, whose listener creates the polygon `Q_{f'}`.
   */
  function Quadrature(at: Part): seq<Step>
  {
    [DerivativePoint(at), DerivativeLine(at), QuadratureCornerB, QuadratureCornerA, QuadraturePolygon]
  }

  /** The whole rebuild for `n` divisions. */
  function Plan(n: nat): seq<Step>
  {
    Iterations(n, n + 1) + Quadrature(Abscissa(n))
  }

  const SlopeOpen: string := "s_{D"
  const SlopeClose: string := "}"

  /** The label `s_{Dd}` that division `d`'s slope command assigns. */
  function SlopeLabel(d: nat): Label
  {
    SlopeOpen + NatToString(d) + SlopeClose
  }

  /** The labels `s_{D1}, …, s_{Dn}`. */
  function Summands(n: nat): seq<Label>
  {
    seq(n, k requires 0 <= k => SlopeLabel(k + 1))
  }

  const LevelTermOpen: string := "s_G = ("
  const LevelTermClose: string := ")/"

  /** The `s_G` command over the slope labels `summands`, divided by `n`. */
  function LevelTermText(summands: seq<Label>, n: nat): string
  {
    LevelTermOpen + Join(summands, '+') + LevelTermClose + NatToString(n)
  }

  /** The `s_G` command of a rebuild for `n` divisions. */
  function LevelTermCommand(n: nat): string
  {
    LevelTermText(Summands(n), n)
  }

  /** The inner loop of `setupDivisions` that collects the slope labels for the `s_G` command. */
  method SlopeValueLabels(numberOfDivisions: nat) returns (slopeValueLabels: seq<Label>)
    ensures slopeValueLabels == Summands(numberOfDivisions)
  {
    slopeValueLabels := [];
    var divisionIndex := 1;
    while divisionIndex <= numberOfDivisions
      invariant 1 <= divisionIndex <= numberOfDivisions + 1
      invariant slopeValueLabels == Summands(divisionIndex - 1)
    {
      slopeValueLabels := slopeValueLabels + [SlopeLabel(divisionIndex)];
      divisionIndex := divisionIndex + 1;
    }
  }

  /**
   * The branch of the last iteration when `n != 1`: `S_G` from the first to the last division
   * point, the `s_G` command over the collected slope labels, `μ` and the tangent there.
   */
  method SetupLevelTerm(n: nat, firstPointLabel: nat, pointLabel: nat) returns (steps: seq<Step>, command: string)
    ensures firstPointLabel == 1 && pointLabel == n + 1 ==> steps == LevelTermBlock(n)
    ensures command == LevelTermCommand(n)
  {
    var slopeValueLabels := SlopeValueLabels(n);
    command := LevelTermText(slopeValueLabels, n);
    steps := [IntervalSecant(firstPointLabel, pointLabel), LevelTermSlope(Range(1, n + 1), n), MuPoint(LevelTerm)]
             + Tangent(LevelTerm);
  }

  /**
   * One pass of the `setupDivisions` loop body for division point `i`: its markers, the setup of
   * the division ending there when there is a previous point, and the level-term branch on the
   * last pass when `n != 1`; the previous and the first point and the abscissa come out updated.
   */
  method DivisionPass(n: nat, i: nat, steps: seq<Step>, previousPointLabel: Option<nat>, firstPointLabel: Option<nat>)
    returns (after: seq<Step>, previous: Option<nat>, first: Option<nat>, abscissaPointLabel: Part, command: Option<string>)
    requires 1 <= i <= n + 1 && steps == Iterations(n, i - 1)
    requires previousPointLabel == if i == 1 then None else Some(i - 1)
    requires firstPointLabel == if i == 1 then None else Some(1)
    ensures after == Iterations(n, i)
    ensures previous == Some(i) && first == Some(1)
    ensures abscissaPointLabel == if n != 1 && i == n + 1 then LevelTerm else Division(1)
    ensures command == if n != 1 && i == n + 1 then Some(LevelTermCommand(n)) else None
  {
    var setupSteps := [];
    if previousPointLabel.Some? {
      setupSteps := DivisionSetup(i - 1, previousPointLabel.value, i);
    }
    previous := Some(i);
    first := firstPointLabel;
    if first.None? {
      first := Some(i);
    }
    var levelTermSteps := [];
    command := None;
    if n != 1 && i == n + 1 {
      var text;
      levelTermSteps, text := SetupLevelTerm(n, first.value, i);
      command := Some(text);
      abscissaPointLabel := LevelTerm;
    } else {
      abscissaPointLabel := Division(1);
    }
    assert setupSteps == SetupOf(i) && levelTermSteps == Tail(n, i);
    IterationsGrow(n, i, steps);
    after := steps + (Markers(i) + setupSteps + levelTermSteps);
  }

  /**
   * `setupDivisions(numberOfDivisions)`: the counting loop over the points `1..n+1`, with the
   * previous and the first division point and the abscissa used after the loop carried from one
   * pass to the next; the `s_G` command is returned beside the steps.
   */
  method SetupDivisions(numberOfDivisions: nat) returns (steps: seq<Step>, levelTermCommand: Option<string>)
    ensures steps == Plan(numberOfDivisions)
    ensures levelTermCommand == if numberOfDivisions != 1 then Some(LevelTermCommand(numberOfDivisions)) else None
  {
    var n := numberOfDivisions;
    var previousPointLabel: Option<nat> := None;
    var firstPointLabel: Option<nat> := None;
    var abscissaPointLabel: Option<Part> := None;
    steps := [];
    levelTermCommand := None;
    var i := 1;
    while i <= n + 1
      invariant Carried(n, i, steps, previousPointLabel, firstPointLabel, abscissaPointLabel, levelTermCommand)
    {
      var abscissa, command;
      steps, previousPointLabel, firstPointLabel, abscissa, command := DivisionPass(n, i, steps, previousPointLabel, firstPointLabel);
      abscissaPointLabel := Some(abscissa);
      levelTermCommand := command;
      i := i + 1;
    }
    PlanAfterLoop(n, steps);
    steps := steps + Quadrature(abscissaPointLabel.value);
  }

  /** What the loop of `setupDivisions` has built and carries before pass `i`. */
  predicate Carried(n: nat, i: nat, steps: seq<Step>, previousPointLabel: Option<nat>, firstPointLabel: Option<nat>,
                    abscissaPointLabel: Option<Part>, levelTermCommand: Option<string>)
  {
    && 1 <= i <= n + 2
    && steps == Iterations(n, i - 1)
    && previousPointLabel == (if i == 1 then None else Some(i - 1))
    && firstPointLabel == (if i == 1 then None else Some(1))
    && (i >= 2 ==> abscissaPointLabel == Some(if i == n + 2 then Abscissa(n) else Division(1)))
    && levelTermCommand == if i == n + 2 && n != 1 then Some(LevelTermCommand(n)) else None
  }

  /** After the loop the steps after it complete the plan. */
  lemma PlanAfterLoop(n: nat, steps: seq<Step>)
    requires steps == Iterations(n, n + 1)
    ensures steps + Quadrature(Abscissa(n)) == Plan(n)
  {
  }

  /** The loop appends one iteration at a time. */
  lemma IterationsGrow(n: nat, i: nat, steps: seq<Step>)
    requires i >= 1 && steps == Iterations(n, i - 1)
    ensures steps + (Markers(i) + SetupOf(i) + Tail(n, i)) == Iterations(n, i)
  {
  }

  /** Every step of a setup block is a secant, slope, `μ`, tangent or ordinate step. */
  lemma SetupMembers(i: nat)
    ensures forall x :: x in SetupOf(i) ==>
              x.DivisionSecant? || x.SecantSlope? || (x.MuPoint? && x.part.Division?) || x.TangentFunction?
              || x.TangentDeltaX? || x.TangentSegment? || x.TangentPoint? || x.MuOrdinatePoint? || x.MuOrdinateLine?
  {
  }

  /** A setup block holds no step of any kind but division secants and slopes. */
  lemma SetupNone(i: nat, sel: Selection)
    requires sel != DivisionSecants && sel != SecantSlopes
    ensures Select(SetupOf(i), sel) == []
  {
    SetupMembers(i);
    SelectNone(SetupOf(i), sel);
  }

  /** The setup of iteration `i >= 2` draws the secant over the points `i - 1` and `i`. */
  lemma SetupSecants(i: nat)
    ensures Select(SetupOf(i), DivisionSecants) == if i >= 2 then [DivisionSecant(i - 1, i - 1, i)] else []
  {
    var s := SetupOf(i);
    if i >= 2 {
      var d := i - 1;
      var rest := [SecantSlope(d, d, i), MuPoint(Division(d))] + Tangent(Division(d)) + [MuOrdinatePoint(d), MuOrdinateLine(d)];
      assert s == [] + [DivisionSecant(d, d, i)] + rest;
      SelectExactly([], [DivisionSecant(d, d, i)], rest, DivisionSecants);
    } else {
      SelectNone(s, DivisionSecants);
    }
  }

  /** The setup of iteration `i >= 2` computes the slope over the points `i - 1` and `i`. */
  lemma SetupSlopes(i: nat)
    ensures Select(SetupOf(i), SecantSlopes) == if i >= 2 then [SecantSlope(i - 1, i - 1, i)] else []
  {
    var s := SetupOf(i);
    if i >= 2 {
      var d := i - 1;
      var rest := [MuPoint(Division(d))] + Tangent(Division(d)) + [MuOrdinatePoint(d), MuOrdinateLine(d)];
      assert s == [DivisionSecant(d, d, i)] + [SecantSlope(d, d, i)] + rest;
      SelectExactly([DivisionSecant(d, d, i)], [SecantSlope(d, d, i)], rest, SecantSlopes);
    } else {
      SelectNone(s, SecantSlopes);
    }
  }

  /** Every step of the level-term block is `S_G`, `s_G`, `μ` or a tangent step. */
  lemma TailMembers(n: nat, i: nat)
    ensures forall x :: x in Tail(n, i) ==>
              x.IntervalSecant? || x.LevelTermSlope? || x == MuPoint(LevelTerm) || x.TangentFunction?
              || x.TangentDeltaX? || x.TangentSegment? || x.TangentPoint?
  {
  }

  /** The level-term block holds no step of any kind but `S_G` and the level-term steps. */
  lemma TailNone(n: nat, i: nat, sel: Selection)
    requires sel != IntervalSecants && sel != LevelTermSteps
    ensures Select(Tail(n, i), sel) == []
  {
    TailMembers(n, i);
    SelectNone(Tail(n, i), sel);
  }

  /** `S_G` comes only from the last iteration, and only when `n != 1`. */
  lemma TailInterval(n: nat, i: nat)
    ensures Select(Tail(n, i), IntervalSecants) == if n != 1 && i == n + 1 then [IntervalSecant(1, n + 1)] else []
  {
    var t := Tail(n, i);
    if n != 1 && i == n + 1 {
      var rest := [LevelTermSlope(Range(1, n + 1), n), MuPoint(LevelTerm)] + Tangent(LevelTerm);
      assert t == [] + [IntervalSecant(1, n + 1)] + rest;
      SelectExactly([], [IntervalSecant(1, n + 1)], rest, IntervalSecants);
    } else {
      SelectNone(t, IntervalSecants);
    }
  }

  /** `s_G` and `μ` come only from the last iteration, and only when `n != 1`. */
  lemma TailLevelTerm(n: nat, i: nat)
    ensures Select(Tail(n, i), LevelTermSteps)
            == if n != 1 && i == n + 1 then [LevelTermSlope(Range(1, n + 1), n), MuPoint(LevelTerm)] else []
  {
    var t := Tail(n, i);
    if n != 1 && i == n + 1 {
      var mid := [LevelTermSlope(Range(1, n + 1), n), MuPoint(LevelTerm)];
      assert t == [IntervalSecant(1, n + 1)] + mid + Tangent(LevelTerm);
      SelectExactly([IntervalSecant(1, n + 1)], mid, Tangent(LevelTerm), LevelTermSteps);
    } else {
      SelectNone(t, LevelTermSteps);
    }
  }

  /** Selecting from one iteration selects from its markers, its setup and its tail in turn. */
  lemma IterationSelect(n: nat, i: nat, sel: Selection)
    ensures Select(Iteration(n, i), sel) == Select(Markers(i), sel) + Select(SetupOf(i), sel) + Select(Tail(n, i), sel)
  {
    SelectAppend(Markers(i) + SetupOf(i), Tail(n, i), sel);
    SelectAppend(Markers(i), SetupOf(i), sel);
  }

  /** Iteration `i` creates the abscissa, point and line of division `i` and no other. */
  lemma IterationMarker(n: nat, i: nat, sel: Selection)
    requires sel == DivisionAbscissas || sel == DivisionPoints || sel == DivisionLines
    ensures Select(Iteration(n, i), sel) == Select(Markers(i), sel)
  {
    IterationSelect(n, i, sel);
    SetupNone(i, sel);
    TailNone(n, i, sel);
  }

  /** The first `m` iterations create the abscissas of divisions `1..m`, in order. */
  lemma {:induction false} IterationsAbscissas(n: nat, m: nat)
    ensures Select(Iterations(n, m), DivisionAbscissas) == seq(m, k => DivisionAbscissa(k + 1))
  {
    if m > 0 {
      IterationsAbscissas(n, m - 1);
      SelectAppend(Iterations(n, m - 1), Iteration(n, m), DivisionAbscissas);
      IterationMarker(n, m, DivisionAbscissas);
      MarkersSelected(m);
      MarkersGrow(m);
    }
  }

  /** The first `m` iterations create the points of divisions `1..m`, in order. */
  lemma {:induction false} IterationsPoints(n: nat, m: nat)
    ensures Select(Iterations(n, m), DivisionPoints) == seq(m, k => DivisionPoint(k + 1))
  {
    if m > 0 {
      IterationsPoints(n, m - 1);
      SelectAppend(Iterations(n, m - 1), Iteration(n, m), DivisionPoints);
      IterationMarker(n, m, DivisionPoints);
      MarkersSelected(m);
      MarkersGrow(m);
    }
  }

  /** The first `m` iterations create the vertical lines of divisions `1..m`, in order. */
  lemma {:induction false} IterationsLines(n: nat, m: nat)
    ensures Select(Iterations(n, m), DivisionLines) == seq(m, k => DivisionLine(k + 1))
  {
    if m > 0 {
      IterationsLines(n, m - 1);
      SelectAppend(Iterations(n, m - 1), Iteration(n, m), DivisionLines);
      IterationMarker(n, m, DivisionLines);
      MarkersSelected(m);
      MarkersGrow(m);
    }
  }

  /** Iteration `i >= 2` draws the secant over the points `i - 1` and `i`. */
  lemma IterationSecant(n: nat, i: nat)
    ensures Select(Iteration(n, i), DivisionSecants) == if i >= 2 then [DivisionSecant(i - 1, i - 1, i)] else []
  {
    IterationSelect(n, i, DivisionSecants);
    MarkersNone(i, DivisionSecants);
    SetupSecants(i);
    TailNone(n, i, DivisionSecants);
  }

  /** Iteration `i >= 2` computes the slope over the points `i - 1` and `i`. */
  lemma IterationSlope(n: nat, i: nat)
    ensures Select(Iteration(n, i), SecantSlopes) == if i >= 2 then [SecantSlope(i - 1, i - 1, i)] else []
  {
    IterationSelect(n, i, SecantSlopes);
    MarkersNone(i, SecantSlopes);
    SetupSlopes(i);
    TailNone(n, i, SecantSlopes);
  }

  /** Only the last iteration draws `S_G`, and only when `n != 1`. */
  lemma IterationInterval(n: nat, i: nat)
    ensures Select(Iteration(n, i), IntervalSecants) == if n != 1 && i == n + 1 then [IntervalSecant(1, n + 1)] else []
  {
    IterationSelect(n, i, IntervalSecants);
    MarkersNone(i, IntervalSecants);
    SetupNone(i, IntervalSecants);
    TailInterval(n, i);
  }

  /** Only the last iteration creates `s_G` and `μ`, and only when `n != 1`. */
  lemma IterationLevelTerm(n: nat, i: nat)
    ensures Select(Iteration(n, i), LevelTermSteps)
            == if n != 1 && i == n + 1 then [LevelTermSlope(Range(1, n + 1), n), MuPoint(LevelTerm)] else []
  {
    IterationSelect(n, i, LevelTermSteps);
    MarkersNone(i, LevelTermSteps);
    SetupNone(i, LevelTermSteps);
    TailLevelTerm(n, i);
  }

  /** No iteration creates an `f'` step. */
  lemma IterationNoDerivative(n: nat, i: nat)
    ensures Select(Iteration(n, i), DerivativeSteps) == []
  {
    IterationSelect(n, i, DerivativeSteps);
    MarkersNone(i, DerivativeSteps);
    SetupNone(i, DerivativeSteps);
    TailNone(n, i, DerivativeSteps);
  }

  /** Iterations `2..m` each draw the secant over two adjacent division points, in order. */
  lemma {:induction false} IterationsSecants(n: nat, m: nat)
    requires m >= 1
    ensures Select(Iterations(n, m), DivisionSecants) == seq(m - 1, k => DivisionSecant(k + 1, k + 1, k + 2))
  {
    SelectAppend(Iterations(n, m - 1), Iteration(n, m), DivisionSecants);
    IterationSecant(n, m);
    if m == 1 {
      assert Iterations(n, 0) == [];
    } else {
      IterationsSecants(n, m - 1);
      SetupsGrow(m - 1);
    }
  }

  /** Iterations `2..m` each compute the slope over two adjacent division points, in order. */
  lemma {:induction false} IterationsSlopes(n: nat, m: nat)
    requires m >= 1
    ensures Select(Iterations(n, m), SecantSlopes) == seq(m - 1, k => SecantSlope(k + 1, k + 1, k + 2))
  {
    SelectAppend(Iterations(n, m - 1), Iteration(n, m), SecantSlopes);
    IterationSlope(n, m);
    if m == 1 {
      assert Iterations(n, 0) == [];
    } else {
      IterationsSlopes(n, m - 1);
      SetupsGrow(m - 1);
    }
  }

  /** Up to iteration `m`, `S_G` exists only if `m` is the last iteration and `n != 1`. */
  lemma {:induction false} IterationsInterval(n: nat, m: nat)
    requires m <= n + 1
    ensures Select(Iterations(n, m), IntervalSecants) == if n != 1 && m == n + 1 then [IntervalSecant(1, n + 1)] else []
  {
    if m > 0 {
      IterationsInterval(n, m - 1);
      SelectAppend(Iterations(n, m - 1), Iteration(n, m), IntervalSecants);
      IterationInterval(n, m);
    }
  }

  /** Up to iteration `m`, `s_G` and `μ` exist only if `m` is the last iteration and `n != 1`. */
  lemma {:induction false} IterationsLevelTerm(n: nat, m: nat)
    requires m <= n + 1
    ensures Select(Iterations(n, m), LevelTermSteps)
            == if n != 1 && m == n + 1 then [LevelTermSlope(Range(1, n + 1), n), MuPoint(LevelTerm)] else []
  {
    if m > 0 {
      IterationsLevelTerm(n, m - 1);
      SelectAppend(Iterations(n, m - 1), Iteration(n, m), LevelTermSteps);
      IterationLevelTerm(n, m);
    }
  }

  /** No iteration creates an `f'` step: those come after the loop. */
  lemma {:induction false} IterationsNoDerivative(n: nat, m: nat)
    ensures Select(Iterations(n, m), DerivativeSteps) == []
  {
    if m > 0 {
      IterationsNoDerivative(n, m - 1);
      SelectAppend(Iterations(n, m - 1), Iteration(n, m), DerivativeSteps);
      IterationNoDerivative(n, m);
    }
  }

  /** The steps after the loop hold no step of any kind but `f'` steps. */
  lemma QuadratureNone(at: Part, sel: Selection)
    requires sel != DerivativeSteps
    ensures Select(Quadrature(at), sel) == []
  {
    var q := Quadrature(at);
    assert forall x :: x in q ==> x.DerivativePoint? || x.DerivativeLine? || x.QuadratureCornerB?
                                  || x.QuadratureCornerA? || x.QuadraturePolygon?;
    SelectNone(q, sel);
  }

  /** What the plan holds of a kind other than `f'` steps, the loop holds. */
  lemma PlanSelect(n: nat, sel: Selection)
    requires sel != DerivativeSteps
    ensures Select(Plan(n), sel) == Select(Iterations(n, n + 1), sel)
  {
    SelectAppend(Iterations(n, n + 1), Quadrature(Abscissa(n)), sel);
    QuadratureNone(Abscissa(n), sel);
  }

  /** A rebuild for `n` divisions creates `x_{Di}`, `F_{Di}` and `V_{Di}` for `i = 1..n+1`, in order. */
  lemma PlanDivisions(n: nat)
    ensures Select(Plan(n), DivisionAbscissas) == seq(n + 1, k => DivisionAbscissa(k + 1))
    ensures Select(Plan(n), DivisionPoints) == seq(n + 1, k => DivisionPoint(k + 1))
    ensures Select(Plan(n), DivisionLines) == seq(n + 1, k => DivisionLine(k + 1))
  {
    IterationsAbscissas(n, n + 1);
    IterationsPoints(n, n + 1);
    IterationsLines(n, n + 1);
    PlanSelect(n, DivisionAbscissas);
    PlanSelect(n, DivisionPoints);
    PlanSelect(n, DivisionLines);
  }

  /** It runs `setupDivision` `n` times, setup `d` over the points `d` and `d + 1`, secant included even when `n == 1`. */
  lemma PlanSetups(n: nat)
    ensures Select(Plan(n), DivisionSecants) == seq(n, k => DivisionSecant(k + 1, k + 1, k + 2))
    ensures Select(Plan(n), SecantSlopes) == seq(n, k => SecantSlope(k + 1, k + 1, k + 2))
  {
    IterationsSecants(n, n + 1);
    IterationsSlopes(n, n + 1);
    PlanSelect(n, DivisionSecants);
    PlanSelect(n, SecantSlopes);
  }

  /** `S_G`, `s_G` and `μ` are created only when `n != 1`, and then only by the last iteration. */
  lemma PlanLevelTerm(n: nat)
    ensures Select(Iterations(n, n), IntervalSecants) == []
    ensures Select(Iterations(n, n), LevelTermSteps) == []
    ensures Select(Plan(n), IntervalSecants) == if n != 1 then [IntervalSecant(1, n + 1)] else []
    ensures Select(Plan(n), LevelTermSteps)
            == if n != 1 then [LevelTermSlope(Range(1, n + 1), n), MuPoint(LevelTerm)] else []
  {
    IterationsInterval(n, n);
    IterationsInterval(n, n + 1);
    IterationsLevelTerm(n, n);
    IterationsLevelTerm(n, n + 1);
    PlanSelect(n, IntervalSecants);
    PlanSelect(n, LevelTermSteps);
  }

  /** The steps after the loop begin with the `f'` point and segment above `at`. */
  lemma QuadratureDerivative(at: Part)
    ensures Select(Quadrature(at), DerivativeSteps) == [DerivativePoint(at), DerivativeLine(at)]
  {
    var corners := [QuadratureCornerB, QuadratureCornerA, QuadraturePolygon];
    assert Quadrature(at) == [] + [DerivativePoint(at), DerivativeLine(at)] + corners;
    SelectExactly([], [DerivativePoint(at), DerivativeLine(at)], corners, DerivativeSteps);
  }

  /**
   * The `f'` point and segment come after the loop and stand above `μ`, or above `μ_1` when
   * `n == 1`; the plan ends with them and the quadrature corners and polygon.
   */
  lemma PlanDerivative(n: nat)
    ensures Select(Iterations(n, n + 1), DerivativeSteps) == []
    ensures Select(Plan(n), DerivativeSteps) == [DerivativePoint(Abscissa(n)), DerivativeLine(Abscissa(n))]
    ensures Plan(n)[|Plan(n)| - 5..] == Quadrature(Abscissa(n))
  {
    IterationsNoDerivative(n, n + 1);
    SelectAppend(Iterations(n, n + 1), Quadrature(Abscissa(n)), DerivativeSteps);
    QuadratureDerivative(Abscissa(n));
  }

  /** A slope label determines its division. */
  lemma SlopeLabelInjective(a: nat, b: nat)
    requires SlopeLabel(a) == SlopeLabel(b)
    ensures a == b
  {
    var sa, sb := NatToString(a), NatToString(b);
    assert |sa| == |sb|;
    assert sa == SlopeLabel(a)[4..4 + |sa|];
    assert sb == SlopeLabel(b)[4..4 + |sb|];
    NatToStringInjective(a, b);
  }

  /** No slope label holds the `+` the summands are joined with. */
  lemma SlopeLabelPlusFree(d: nat)
    ensures '+' !in SlopeLabel(d)
  {
    var s := SlopeLabel(d);
    forall k | 0 <= k < |s|
      ensures s[k] != '+'
    {
      if 4 <= k < |s| - 1 {
        assert s[k] == NatToString(d)[k - 4];
      }
    }
  }

  /** The summands of the `s_G` command split back out of it, and no two of them are equal. */
  lemma SummandsRoundTrip(n: nat)
    requires n >= 1
    ensures Split(Join(Summands(n), '+'), '+') == Summands(n)
    ensures forall j, k :: 0 <= j < k < n ==> Summands(n)[j] != Summands(n)[k]
  {
    var labels := Summands(n);
    forall k | 0 <= k < |labels|
      ensures '+' !in labels[k]
    {
      SlopeLabelPlusFree(k + 1);
    }
    SplitJoin(labels, '+');
    forall j, k | 0 <= j < k < n
      ensures labels[j] != labels[k]
    {
      if labels[j] == labels[k] {
        SlopeLabelInjective(j + 1, k + 1);
      }
    }
  }

  /**
   * `summands` names the slopes `slopes` of divisions `1..|slopes|`, one label per slope, in
   * order, and no label twice.
   */
  predicate SumsEachOnce(slopes: seq<Step>, summands: seq<string>)
  {
    && |summands| == |slopes|
    && (forall k :: 0 <= k < |slopes| ==> slopes[k].SecantSlope? && slopes[k].d == k + 1 && summands[k] == SlopeLabel(k + 1))
    && (forall j, k :: 0 <= j < k < |summands| ==> summands[j] != summands[k])
  }

  /**
   * When `n >= 1` the `s_G` command sums exactly the labels of the `n` slopes the rebuild
   * computes, each once and in order, and divides by their number.
   */
  lemma LevelTermSumsSlopes(n: nat)
    requires n >= 1
    ensures LevelTermCommand(n) == LevelTermText(Summands(n), |Select(Plan(n), SecantSlopes)|)
    ensures SumsEachOnce(Select(Plan(n), SecantSlopes), Split(Join(Summands(n), '+'), '+'))
  {
    var slopes := Select(Plan(n), SecantSlopes);
    assert |slopes| == n && forall k :: 0 <= k < n ==> slopes[k] == SecantSlope(k + 1, k + 1, k + 2) by {
      PlanSetups(n);
    }
    var summands := Split(Join(Summands(n), '+'), '+');
    assert summands == Summands(n) && forall j, k :: 0 <= j < k < n ==> summands[j] != summands[k] by {
      SummandsRoundTrip(n);
    }
  }
}
