/**
 * The step structure of `setupDivisions` in the applet script
 * (`mvt_applet/geogebra_javascript.js`): which objects a rebuild with `n` divisions creates,
 * and in which order, assuming every creation resolves.
 */
module AppletRebuild {
  import opened Wrappers
  import opened Rebuild

  /**
   * `setupDivisionAndGetSecantSlopeLabel(d, n, previous, current)`: the secant segment (left
   * out when `n == 1`), its slope, the `μ` point, the tangent there, and the `f'` ordinate.
   */
  function DivisionSetup(d: nat, n: nat, previous: nat, current: nat): seq<Step>
  {
    (if n != 1 then [DivisionSecant(d, previous, current)] else [])
    + [SecantSlope(d, previous, current), MuPoint(Division(d))]
    + Tangent(Division(d))
    + [MuOrdinatePoint(d), MuOrdinateLine(d)]
  }

  /**
   * `setupQuadraturePolygonAndPossiblyMuSegment(at)`: the `f'` point above `at`, its vertical
   * segment unless `at` is `μ_1`, the two upper corners, the polygon and the two area texts.
   */
  function Quadrature(at: Part): seq<Step>
  {
    [DerivativePoint(at)]
    + (if at != Division(1) then [DerivativeLine(at)] else [])
    + [QuadratureCornerA, QuadratureCornerB, QuadraturePolygon, QuadratureAreaText, IrregularAreaText]
  }

  /** What the last iteration adds after its division setup. */
  function Final(n: nat): seq<Step>
  {
    [IntervalSecant(1, n + 1)]
    + if n != 1 then [LevelTermSlope(Range(1, n + 1), n), MuPoint(LevelTerm)] + Quadrature(LevelTerm) + Tangent(LevelTerm)
      else Quadrature(Division(1))
  }

  /** The setup of iteration `i`, over the points `i - 1` and `i`, if it has one. */
  function SetupOf(n: nat, i: nat): seq<Step>
  {
    if i >= 2 then DivisionSetup(i - 1, n, i - 1, i) else []
  }

  /** What follows the division setup of iteration `i`: the final steps, on the last iteration. */
  function Tail(n: nat, i: nat): seq<Step>
  {
    if i == n + 1 then Final(n) else []
  }

  /** Iteration `i` of the loop over `1..n+1`. */
  function Iteration(n: nat, i: nat): seq<Step>
  {
    Markers(i) + SetupOf(n, i) + Tail(n, i)
  }

  /** Iterations `1..m`, in order. */
  function Iterations(n: nat, m: nat): seq<Step>
  {
    if m == 0 then [] else Iterations(n, m - 1) + Iteration(n, m)
  }

  /** The whole rebuild for `n` divisions. */
  function Plan(n: nat): seq<Step>
  {
    Iterations(n, n + 1)
  }

  /**
   * The branch of the last iteration: `S_I` from the first to the last division point, then
   * either `s_G` over the collected slope labels, `μ`, the quadrature above `μ` and the tangent
   * there, or, when `n == 1`, the quadrature above `μ_1`.
   */
  method SetupFinal(n: nat, firstPointLabel: nat, pointLabel: nat, secantSlopeLabels: seq<nat>) returns (finalSteps: seq<Step>)
    ensures firstPointLabel == 1 && pointLabel == n + 1 && secantSlopeLabels == Range(1, n + 1) ==> finalSteps == Final(n)
  {
    finalSteps := [IntervalSecant(firstPointLabel, pointLabel)];
    if n != 1 {
      finalSteps := finalSteps + ([LevelTermSlope(secantSlopeLabels, n), MuPoint(LevelTerm)]
                                  + Quadrature(LevelTerm) + Tangent(LevelTerm));
      return;
    }
    finalSteps := finalSteps + Quadrature(Division(1));
  }

  /**
   * `setupDivisions(numberOfDivisions)`: the counting loop over the points `1..n+1`, with the
   * previous and the first division point and the collected secant slopes carried from one
   * pass to the next; when `n != 1` the last pass returns straight after its final steps.
   */
  method SetupDivisions(numberOfDivisions: nat) returns (steps: seq<Step>)
    ensures steps == Plan(numberOfDivisions)
  {
    var n := numberOfDivisions;
    var secantSlopeLabels: seq<nat> := [];
    var previousPointLabel: Option<nat> := None;
    var firstPointLabel: Option<nat> := None;
    steps := [];
    var i := 1;
    while i <= n + 1
      invariant 1 <= i <= n + 2
      invariant steps == Iterations(n, i - 1)
      invariant previousPointLabel == if i == 1 then None else Some(i - 1)
      invariant firstPointLabel == if i == 1 then None else Some(1)
      invariant secantSlopeLabels == Range(1, if i == 1 then 1 else i - 1)
    {
      var setupSteps := [];
      if previousPointLabel.Some? {
        setupSteps := DivisionSetup(i - 1, n, previousPointLabel.value, i);
        secantSlopeLabels := secantSlopeLabels + [i - 1];
      }
      previousPointLabel := Some(i);
      if firstPointLabel.None? {
        firstPointLabel := Some(i);
      }
      var finalSteps := [];
      if i == n + 1 {
        finalSteps := SetupFinal(n, firstPointLabel.value, i, secantSlopeLabels);
      }
      assert setupSteps == SetupOf(n, i) && finalSteps == Tail(n, i);
      IterationsGrow(n, i, steps);
      steps := steps + (Markers(i) + setupSteps + finalSteps);
      if i == n + 1 && n != 1 {
        return;
      }
      i := i + 1;
    }
  }

  /** The loop appends one iteration at a time. */
  lemma IterationsGrow(n: nat, i: nat, steps: seq<Step>)
    requires i >= 1 && steps == Iterations(n, i - 1)
    ensures steps + (Markers(i) + SetupOf(n, i) + Tail(n, i)) == Iterations(n, i)
  {
  }

  /** Every step of a setup block is a secant, slope, `μ`, tangent or ordinate step. */
  lemma SetupMembers(n: nat, i: nat)
    ensures forall x :: x in SetupOf(n, i) ==>
              x.DivisionSecant? || x.SecantSlope? || (x.MuPoint? && x.part.Division?) || x.TangentFunction?
              || x.TangentDeltaX? || x.TangentSegment? || x.TangentPoint? || x.MuOrdinatePoint? || x.MuOrdinateLine?
  {
  }

  /** A setup block holds no step of any kind but division secants and slopes. */
  lemma SetupNone(n: nat, i: nat, sel: Selection)
    requires sel != DivisionSecants && sel != SecantSlopes
    ensures Select(SetupOf(n, i), sel) == []
  {
    SetupMembers(n, i);
    SelectNone(SetupOf(n, i), sel);
  }

  /** The setup of iteration `i >= 2` computes the slope over the points `i - 1` and `i`. */
  lemma SetupSlopes(n: nat, i: nat)
    ensures Select(SetupOf(n, i), SecantSlopes) == if i >= 2 then [SecantSlope(i - 1, i - 1, i)] else []
  {
    var s := SetupOf(n, i);
    if i >= 2 {
      var d := i - 1;
      var head := if n != 1 then [DivisionSecant(d, d, i)] else [];
      var rest := [MuPoint(Division(d))] + Tangent(Division(d)) + [MuOrdinatePoint(d), MuOrdinateLine(d)];
      assert s == head + [SecantSlope(d, d, i)] + rest;
      SelectExactly(head, [SecantSlope(d, d, i)], rest, SecantSlopes);
    } else {
      SelectNone(s, SecantSlopes);
    }
  }

  /** The setup of iteration `i >= 2` draws the secant over the points `i - 1` and `i` unless `n == 1`. */
  lemma SetupSecants(n: nat, i: nat)
    ensures Select(SetupOf(n, i), DivisionSecants) == if i >= 2 && n != 1 then [DivisionSecant(i - 1, i - 1, i)] else []
  {
    var s := SetupOf(n, i);
    if i >= 2 {
      var d := i - 1;
      var head := if n != 1 then [DivisionSecant(d, d, i)] else [];
      var rest := [SecantSlope(d, d, i), MuPoint(Division(d))] + Tangent(Division(d)) + [MuOrdinatePoint(d), MuOrdinateLine(d)];
      assert s == [] + head + rest;
      SelectExactly([], head, rest, DivisionSecants);
    } else {
      SelectNone(s, DivisionSecants);
    }
  }

  /** Every step the last iteration adds is the interval secant, a level-term, quadrature or tangent step. */
  lemma FinalMembers(n: nat)
    ensures forall x :: x in Final(n) ==>
              x.IntervalSecant? || x.LevelTermSlope? || x == MuPoint(LevelTerm) || x.DerivativePoint?
              || x.DerivativeLine? || x.QuadratureCornerA? || x.QuadratureCornerB? || x.QuadraturePolygon?
              || x.QuadratureAreaText? || x.IrregularAreaText? || x.TangentFunction? || x.TangentDeltaX?
              || x.TangentSegment? || x.TangentPoint?
  {
  }

  /** What follows the setups holds no step of any kind but `S_I`, level-term and `f'` steps. */
  lemma TailNone(n: nat, i: nat, sel: Selection)
    requires sel != IntervalSecants && sel != LevelTermSteps && sel != DerivativeSteps
    ensures Select(Tail(n, i), sel) == []
  {
    FinalMembers(n);
    SelectNone(Tail(n, i), sel);
  }

  /** The rest of the last iteration after its interval secant. */
  function AfterInterval(n: nat): seq<Step>
  {
    if n != 1 then [LevelTermSlope(Range(1, n + 1), n), MuPoint(LevelTerm)] + Quadrature(LevelTerm) + Tangent(LevelTerm)
    else Quadrature(Division(1))
  }

  lemma FinalInterval(n: nat)
    ensures Select(Final(n), IntervalSecants) == [IntervalSecant(1, n + 1)]
  {
    var rest := AfterInterval(n);
    assert forall x :: x in rest ==> x in Final(n) && x != IntervalSecant(1, n + 1);
    FinalMembers(n);
    assert Final(n) == [] + [IntervalSecant(1, n + 1)] + rest;
    SelectExactly([], [IntervalSecant(1, n + 1)], rest, IntervalSecants);
  }

  lemma FinalLevelTerm(n: nat)
    ensures Select(Final(n), LevelTermSteps)
            == if n != 1 then [LevelTermSlope(Range(1, n + 1), n), MuPoint(LevelTerm)] else []
  {
    if n != 1 {
      var mid := [LevelTermSlope(Range(1, n + 1), n), MuPoint(LevelTerm)];
      var rest := Quadrature(LevelTerm) + Tangent(LevelTerm);
      assert Final(n) == [IntervalSecant(1, n + 1)] + mid + rest;
      SelectExactly([IntervalSecant(1, n + 1)], mid, rest, LevelTermSteps);
    } else {
      FinalMembers(n);
      SelectNone(Final(n), LevelTermSteps);
    }
  }

  /** The `f'` point and line the rebuild creates: above `μ`, or only the point above `μ_1`. */
  function DerivativeOf(n: nat): seq<Step>
  {
    if n != 1 then [DerivativePoint(LevelTerm), DerivativeLine(LevelTerm)] else [DerivativePoint(Division(1))]
  }

  lemma FinalDerivative(n: nat)
    ensures Select(Final(n), DerivativeSteps) == DerivativeOf(n)
  {
    var corners := [QuadratureCornerA, QuadratureCornerB, QuadraturePolygon, QuadratureAreaText, IrregularAreaText];
    if n != 1 {
      var before := [IntervalSecant(1, n + 1), LevelTermSlope(Range(1, n + 1), n), MuPoint(LevelTerm)];
      assert Final(n) == before + DerivativeOf(n) + (corners + Tangent(LevelTerm));
      SelectExactly(before, DerivativeOf(n), corners + Tangent(LevelTerm), DerivativeSteps);
    } else {
      assert Final(n) == [IntervalSecant(1, n + 1)] + DerivativeOf(n) + corners;
      SelectExactly([IntervalSecant(1, n + 1)], DerivativeOf(n), corners, DerivativeSteps);
    }
  }

  /** Selecting from one iteration selects from its markers, its setup and its tail in turn. */
  lemma IterationSelect(n: nat, i: nat, sel: Selection)
    ensures Select(Iteration(n, i), sel)
            == Select(Markers(i), sel) + Select(SetupOf(n, i), sel) + Select(Tail(n, i), sel)
  {
    SelectAppend(Markers(i) + SetupOf(n, i), Tail(n, i), sel);
    SelectAppend(Markers(i), SetupOf(n, i), sel);
  }

  /** Iteration `i` creates the abscissa, point and line of division `i` and no other. */
  lemma IterationMarker(n: nat, i: nat, sel: Selection)
    requires sel == DivisionAbscissas || sel == DivisionPoints || sel == DivisionLines
    ensures Select(Iteration(n, i), sel) == Select(Markers(i), sel)
  {
    IterationSelect(n, i, sel);
    SetupNone(n, i, sel);
    TailNone(n, i, sel);
  }

  /** Iteration `i >= 2` computes the slope over the points `i - 1` and `i`. */
  lemma IterationSlope(n: nat, i: nat)
    ensures Select(Iteration(n, i), SecantSlopes) == if i >= 2 then [SecantSlope(i - 1, i - 1, i)] else []
  {
    IterationSelect(n, i, SecantSlopes);
    MarkersNone(i, SecantSlopes);
    SetupSlopes(n, i);
    TailNone(n, i, SecantSlopes);
  }

  /** Iteration `i >= 2` draws the secant over the points `i - 1` and `i`, unless `n == 1`. */
  lemma IterationSecant(n: nat, i: nat)
    ensures Select(Iteration(n, i), DivisionSecants) == if i >= 2 && n != 1 then [DivisionSecant(i - 1, i - 1, i)] else []
  {
    IterationSelect(n, i, DivisionSecants);
    MarkersNone(i, DivisionSecants);
    SetupSecants(n, i);
    TailNone(n, i, DivisionSecants);
  }

  /** Only the last iteration draws `S_I`. */
  lemma IterationInterval(n: nat, i: nat)
    ensures Select(Iteration(n, i), IntervalSecants) == if i == n + 1 then [IntervalSecant(1, n + 1)] else []
  {
    IterationSelect(n, i, IntervalSecants);
    MarkersNone(i, IntervalSecants);
    SetupNone(n, i, IntervalSecants);
    if i == n + 1 {
      FinalInterval(n);
    }
  }

  /** Only the last iteration creates `s_G` and `μ`, and only when `n != 1`. */
  lemma IterationLevelTerm(n: nat, i: nat)
    ensures Select(Iteration(n, i), LevelTermSteps)
            == if i == n + 1 && n != 1 then [LevelTermSlope(Range(1, n + 1), n), MuPoint(LevelTerm)] else []
  {
    IterationSelect(n, i, LevelTermSteps);
    MarkersNone(i, LevelTermSteps);
    SetupNone(n, i, LevelTermSteps);
    if i == n + 1 {
      FinalLevelTerm(n);
    }
  }

  /** Only the last iteration creates `f'` steps. */
  lemma IterationDerivative(n: nat, i: nat)
    ensures Select(Iteration(n, i), DerivativeSteps) == if i == n + 1 then DerivativeOf(n) else []
  {
    IterationSelect(n, i, DerivativeSteps);
    MarkersNone(i, DerivativeSteps);
    SetupNone(n, i, DerivativeSteps);
    if i == n + 1 {
      FinalDerivative(n);
    }
  }

  /** The first `m` iterations create the abscissas of divisions `1..m`, in order. */
  lemma {:induction false} IterationsAbscissas(n: nat, m: nat)
    ensures Select(Iterations(n, m), DivisionAbscissas) == seq(m, k => DivisionAbscissa(k + 1))
  {
    if m > 0 {
      IterationsAbscissas(n, m - 1);
      SelectAppend(Iterations(n, m - 1), Iteration(n, m), DivisionAbscissas);
      IterationMarker(n, m, DivisionAbscissas);
      MarkersSelected(m);
      MarkersGrow(m);
    }
  }

  /** The first `m` iterations create the points of divisions `1..m`, in order. */
  lemma {:induction false} IterationsPoints(n: nat, m: nat)
    ensures Select(Iterations(n, m), DivisionPoints) == seq(m, k => DivisionPoint(k + 1))
  {
    if m > 0 {
      IterationsPoints(n, m - 1);
      SelectAppend(Iterations(n, m - 1), Iteration(n, m), DivisionPoints);
      IterationMarker(n, m, DivisionPoints);
      MarkersSelected(m);
      MarkersGrow(m);
    }
  }

  /** The first `m` iterations create the vertical lines of divisions `1..m`, in order. */
  lemma {:induction false} IterationsLines(n: nat, m: nat)
    ensures Select(Iterations(n, m), DivisionLines) == seq(m, k => DivisionLine(k + 1))
  {
    if m > 0 {
      IterationsLines(n, m - 1);
      SelectAppend(Iterations(n, m - 1), Iteration(n, m), DivisionLines);
      IterationMarker(n, m, DivisionLines);
      MarkersSelected(m);
      MarkersGrow(m);
    }
  }

  /** Iterations `2..m` each compute the slope over two adjacent division points, in order. */
  lemma {:induction false} IterationsSlopes(n: nat, m: nat)
    requires m >= 1
    ensures Select(Iterations(n, m), SecantSlopes) == seq(m - 1, k => SecantSlope(k + 1, k + 1, k + 2))
  {
    var earlier, here := Select(Iterations(n, m - 1), SecantSlopes), Select(Iteration(n, m), SecantSlopes);
    assert Select(Iterations(n, m), SecantSlopes) == earlier + here by {
      SelectAppend(Iterations(n, m - 1), Iteration(n, m), SecantSlopes);
    }
    IterationSlope(n, m);
    if m == 1 {
      assert Iterations(n, 0) == [];
    } else {
      IterationsSlopes(n, m - 1);
      SetupsGrow(m - 1);
    }
  }

  /** Iterations `2..m` each draw the secant over two adjacent division points, unless `n == 1`. */
  lemma {:induction false} IterationsSecants(n: nat, m: nat)
    requires m >= 1
    ensures Select(Iterations(n, m), DivisionSecants)
            == if n == 1 then [] else seq(m - 1, k => DivisionSecant(k + 1, k + 1, k + 2))
  {
    SelectAppend(Iterations(n, m - 1), Iteration(n, m), DivisionSecants);
    IterationSecant(n, m);
    if m == 1 {
      assert Iterations(n, 0) == [];
    } else {
      IterationsSecants(n, m - 1);
      SetupsGrow(m - 1);
    }
  }

  /** Up to iteration `m`, `S_I` exists only if `m` is the last iteration. */
  lemma {:induction false} IterationsInterval(n: nat, m: nat)
    requires m <= n + 1
    ensures Select(Iterations(n, m), IntervalSecants) == if m == n + 1 then [IntervalSecant(1, n + 1)] else []
  {
    if m > 0 {
      IterationsInterval(n, m - 1);
      SelectAppend(Iterations(n, m - 1), Iteration(n, m), IntervalSecants);
      IterationInterval(n, m);
    }
  }

  /** Up to iteration `m`, `s_G` and `μ` exist only if `m` is the last iteration and `n != 1`. */
  lemma {:induction false} IterationsLevelTerm(n: nat, m: nat)
    requires m <= n + 1
    ensures Select(Iterations(n, m), LevelTermSteps)
            == if m == n + 1 && n != 1 then [LevelTermSlope(Range(1, n + 1), n), MuPoint(LevelTerm)] else []
  {
    if m > 0 {
      IterationsLevelTerm(n, m - 1);
      SelectAppend(Iterations(n, m - 1), Iteration(n, m), LevelTermSteps);
      IterationLevelTerm(n, m);
    }
  }

  /** Up to iteration `m`, `f'` steps exist only if `m` is the last iteration. */
  lemma {:induction false} IterationsDerivative(n: nat, m: nat)
    requires m <= n + 1
    ensures Select(Iterations(n, m), DerivativeSteps) == if m == n + 1 then DerivativeOf(n) else []
  {
    if m > 0 {
      IterationsDerivative(n, m - 1);
      SelectAppend(Iterations(n, m - 1), Iteration(n, m), DerivativeSteps);
      IterationDerivative(n, m);
    }
  }

  /** A rebuild for `n` divisions creates `x_{Di}`, `F_{Di}` and `V_{Di}` for `i = 1..n+1`, in order. */
  lemma PlanDivisions(n: nat)
    ensures Select(Plan(n), DivisionAbscissas) == seq(n + 1, k => DivisionAbscissa(k + 1))
    ensures Select(Plan(n), DivisionPoints) == seq(n + 1, k => DivisionPoint(k + 1))
    ensures Select(Plan(n), DivisionLines) == seq(n + 1, k => DivisionLine(k + 1))
  {
    IterationsAbscissas(n, n + 1);
    IterationsPoints(n, n + 1);
    IterationsLines(n, n + 1);
  }

  /**
   * It runs the division setup `n` times, setup `d` over the points `d` and `d + 1`, and draws
   * the division secants only when `n != 1`.
   */
  lemma PlanSetups(n: nat)
    ensures Select(Plan(n), SecantSlopes) == seq(n, k => SecantSlope(k + 1, k + 1, k + 2))
    ensures Select(Plan(n), DivisionSecants) == if n == 1 then [] else seq(n, k => DivisionSecant(k + 1, k + 1, k + 2))
  {
    IterationsSlopes(n, n + 1);
    IterationsSecants(n, n + 1);
  }

  /**
   * `S_I` is created exactly once, from the first to the last division point; `s_G` and `μ`
   * only when `n != 1`; the `f'` point stands above `μ`, or above `μ_1` without its segment;
   * and none of these exists before the last iteration begins.
   */
  lemma PlanLastIteration(n: nat)
    ensures Plan(n) == Iterations(n, n) + Iteration(n, n + 1)
    ensures Select(Iterations(n, n), IntervalSecants) == []
    ensures Select(Iterations(n, n), LevelTermSteps) == []
    ensures Select(Iterations(n, n), DerivativeSteps) == []
    ensures Select(Plan(n), IntervalSecants) == [IntervalSecant(1, n + 1)]
    ensures Select(Plan(n), LevelTermSteps)
            == if n != 1 then [LevelTermSlope(Range(1, n + 1), n), MuPoint(LevelTerm)] else []
    ensures Select(Plan(n), DerivativeSteps) == DerivativeOf(n)
  {
    IterationsInterval(n, n);
    IterationsInterval(n, n + 1);
    IterationsLevelTerm(n, n);
    IterationsLevelTerm(n, n + 1);
    IterationsDerivative(n, n);
    IterationsDerivative(n, n + 1);
  }

  /** When `n != 1`, `s_G` averages exactly the `n` secant slopes the rebuild computed, in order. */
  lemma LevelTermAveragesSlopes(n: nat)
    requires n != 1
    ensures var slopes := Select(Plan(n), SecantSlopes);
            var level := Select(Plan(n), LevelTermSteps);
            && |level| == 2 && level[0].LevelTermSlope?
            && level[0].divisor == |slopes| == |level[0].terms|
            && forall k :: 0 <= k < |slopes| ==> slopes[k].SecantSlope? && level[0].terms[k] == slopes[k].d
  {
    PlanSetups(n);
    PlanLastIteration(n);
  }
}
