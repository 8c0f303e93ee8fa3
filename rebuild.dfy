/**
 * The vocabulary of a division rebuild: one `Step` per object a rebuild asks the host to
 * create, named by the object it stands for rather than by the label the host returns.
 */
module Rebuild {

  /** Whose tangent or `μ` point: division `d`'s (`D{d}`, `μ_{d}`) or the level term's (`G`, `μ`). */
  datatype Part = Division(d: int) | LevelTerm

  datatype Step =
    | DivisionAbscissa(i: int)                       // x_{Di}
    | DivisionPoint(i: int)                          // F_{Di}
    | DivisionLine(i: int)                           // V_{Di}
    | DivisionSecant(d: int, from: int, to: int)     // S_{Dd}, from F_{D from} to F_{D to}
    | SecantSlope(d: int, from: int, to: int)        // s_{Dd}, the slope of that secant
    | MuPoint(part: Part)                            // μ_{d} or μ, where f' takes the slope
    | TangentFunction(part: Part)                    // t_{…}
    | TangentDeltaX(part: Part)                      // a_{…}
    | TangentSegment(part: Part)                     // t_s_{…}
    | TangentPoint(part: Part)                       // T_{…}
    | MuOrdinatePoint(d: int)                        // F_{μd}
    | MuOrdinateLine(d: int)                         // V_{μd}
    | IntervalSecant(from: int, to: int)             // S_I (or S_G), from F_{D from} to F_{D to}
    | LevelTermSlope(terms: seq<nat>, divisor: nat)  // s_G, the mean of the slopes s_{D t}
    | DerivativePoint(at: Part)                      // L_{f'} above the chosen μ point
    | DerivativeLine(at: Part)                       // V_{f'}
    | QuadratureCornerA                              // Q_{A'}
    | QuadratureCornerB                              // Q_{B'}
    | QuadraturePolygon                              // Q_{f'}
    | QuadratureAreaText                             // A_{Qf'}
    | IrregularAreaText                              // A_{If'}

  /** The kinds of step the rebuild properties pick out of a plan. */
  datatype Selection =
    | DivisionAbscissas | DivisionPoints | DivisionLines | DivisionSecants | SecantSlopes
    | IntervalSecants | LevelTermSteps | DerivativeSteps

  /** Whether `x` is a step of kind `sel`; the level-term kind is the slope `s_G` and the `μ` point. */
  predicate Selected(x: Step, sel: Selection)
  {
    match sel
    case DivisionAbscissas => x.DivisionAbscissa?
    case DivisionPoints => x.DivisionPoint?
    case DivisionLines => x.DivisionLine?
    case DivisionSecants => x.DivisionSecant?
    case SecantSlopes => x.SecantSlope?
    case IntervalSecants => x.IntervalSecant?
    case LevelTermSteps => x.LevelTermSlope? || x == MuPoint(LevelTerm)
    case DerivativeSteps => x.DerivativePoint? || x.DerivativeLine?
  }

  /** The steps of `s` of kind `sel`, in order. */
  function Select(s: seq<Step>, sel: Selection): seq<Step>
  {
    if s == [] then [] else (if Selected(s[0], sel) then [s[0]] else []) + Select(s[1..], sel)
  }

  /** Selection keeps only steps of the kind and only steps of the plan. */
  lemma {:induction false} SelectSound(s: seq<Step>, sel: Selection)
    ensures forall x :: x in Select(s, sel) ==> Selected(x, sel) && x in s
  {
    if s != [] {
      SelectSound(s[1..], sel);
    }
  }

  lemma {:induction false} SelectAppend(a: seq<Step>, b: seq<Step>, sel: Selection)
    ensures Select(a + b, sel) == Select(a, sel) + Select(b, sel)
  {
    if a != [] {
      assert (a + b)[0] == a[0];
      assert (a + b)[1..] == a[1..] + b;
      SelectAppend(a[1..], b, sel);
    } else {
      assert a + b == b;
    }
  }

  /** Selecting a kind no step has leaves nothing. */
  lemma {:induction false} SelectNone(s: seq<Step>, sel: Selection)
    requires forall x :: x in s ==> !Selected(x, sel)
    ensures Select(s, sel) == []
  {
    if s != [] {
      assert s[0] in s;
      SelectNone(s[1..], sel);
    }
  }

  /** Selecting a kind every step has keeps everything. */
  lemma {:induction false} SelectAll(s: seq<Step>, sel: Selection)
    requires forall x :: x in s ==> Selected(x, sel)
    ensures Select(s, sel) == s
  {
    if s != [] {
      assert s[0] in s;
      SelectAll(s[1..], sel);
      assert s == [s[0]] + s[1..];
    }
  }

  /** When only the middle part of a sequence has the kind, selection yields exactly that part. */
  lemma SelectExactly(a: seq<Step>, mid: seq<Step>, b: seq<Step>, sel: Selection)
    requires forall x :: x in a ==> !Selected(x, sel)
    requires forall x :: x in mid ==> Selected(x, sel)
    requires forall x :: x in b ==> !Selected(x, sel)
    ensures Select(a + mid + b, sel) == mid
  {
    SelectAppend(a + mid, b, sel);
    SelectAppend(a, mid, sel);
    SelectNone(a, sel);
    SelectAll(mid, sel);
    SelectNone(b, sel);
  }

  /** `lo, lo + 1, …, hi - 1`. */
  function Range(lo: nat, hi: nat): (r: seq<nat>)
    ensures |r| == if lo <= hi then hi - lo else 0
    ensures forall k :: 0 <= k < |r| ==> r[k] == lo + k
    decreases hi
  {
    if hi <= lo then [] else Range(lo, hi - 1) + [hi - 1]
  }

  /** `makeTangentSegment`: the tangent function, its half-width, the segment and the point of tangency. */
  function Tangent(part: Part): seq<Step>
  {
    [TangentFunction(part), TangentDeltaX(part), TangentSegment(part), TangentPoint(part)]
  }

  /** The abscissa, point and vertical line every iteration `i` creates. */
  function Markers(i: nat): seq<Step>
  {
    [DivisionAbscissa(i), DivisionPoint(i), DivisionLine(i)]
  }

  /** The markers of iteration `i` are its abscissa, point and line. */
  lemma MarkersSelected(i: nat)
    ensures Select(Markers(i), DivisionAbscissas) == [DivisionAbscissa(i)]
    ensures Select(Markers(i), DivisionPoints) == [DivisionPoint(i)]
    ensures Select(Markers(i), DivisionLines) == [DivisionLine(i)]
  {
    var a, p, l := DivisionAbscissa(i), DivisionPoint(i), DivisionLine(i);
    assert Markers(i) == [] + [a] + [p, l];
    SelectExactly([], [a], [p, l], DivisionAbscissas);
    assert Markers(i) == [a] + [p] + [l];
    SelectExactly([a], [p], [l], DivisionPoints);
    assert Markers(i) == [a, p] + [l] + [];
    SelectExactly([a, p], [l], [], DivisionLines);
  }

  /** The markers of divisions `1..m` are those of `1..m-1` followed by division `m`'s. */
  lemma MarkersGrow(m: nat)
    requires m >= 1
    ensures seq(m, k => DivisionAbscissa(k + 1)) == seq(m - 1, k => DivisionAbscissa(k + 1)) + [DivisionAbscissa(m)]
    ensures seq(m, k => DivisionPoint(k + 1)) == seq(m - 1, k => DivisionPoint(k + 1)) + [DivisionPoint(m)]
    ensures seq(m, k => DivisionLine(k + 1)) == seq(m - 1, k => DivisionLine(k + 1)) + [DivisionLine(m)]
  {
  }

  /** The markers hold no step of any kind but abscissas, points and lines. */
  lemma MarkersNone(i: nat, sel: Selection)
    requires sel != DivisionAbscissas && sel != DivisionPoints && sel != DivisionLines
    ensures Select(Markers(i), sel) == []
  {
    var m := Markers(i);
    assert forall x :: x in m ==> x.DivisionAbscissa? || x.DivisionPoint? || x.DivisionLine?;
    SelectNone(m, sel);
  }

  /** The secants and slopes of divisions `1..m` are those of `1..m-1` followed by division `m`'s. */
  lemma SetupsGrow(m: nat)
    requires m >= 1
    ensures seq(m, k => DivisionSecant(k + 1, k + 1, k + 2))
            == seq(m - 1, k => DivisionSecant(k + 1, k + 1, k + 2)) + [DivisionSecant(m, m, m + 1)]
    ensures seq(m, k => SecantSlope(k + 1, k + 1, k + 2))
            == seq(m - 1, k => SecantSlope(k + 1, k + 1, k + 2)) + [SecantSlope(m, m, m + 1)]
  {
  }
}
