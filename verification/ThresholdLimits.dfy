/** The limits in force for one resource (app/threshold_effective.py, app/threshold_defaults.py, and the guard rails and
    size floor of app/collector/alert_evaluator.py). Limits and readings are reals; what the evaluator computes from a
    baseline is a parameter. */
module ThresholdLimits {
  import opened Options

  datatype Comparison = Above | Below | AtLeast | AtMost

  datatype Line = Line(warning: real, critical: real, comparison: Comparison)

  const PLACEHOLDER := Line(1000000.0, 5000000.0, Above)
  const NEAR: real := 0.000000001
  const MAX_TIGHTEN_FACTOR: real := 0.5
  const PERCENT_CAP: real := 99.9

  predicate Upward(c: Comparison) {
    c == Above || c == AtLeast
  }

  predicate Breaches(reading: real, limit: real, c: Comparison) {
    match c
    case Above => reading > limit
    case Below => reading < limit
    case AtLeast => reading >= limit
    case AtMost => reading <= limit
  }

  // ---- whole-number limits --------------------------------------------------------------------------------

  function Ceiling(x: real): int {
    -((-x).Floor)
  }

  lemma FloorExactly(n: int, x: real)
    ensures n as real <= x <==> n <= x.Floor
  {
  }

  lemma CeilingExactly(n: int, x: real)
    ensures x <= n as real <==> Ceiling(x) <= n
  {
    FloorExactly(-n, -x);
    assert (-n) as real == -(n as real);
  }

  predicate RoundsUp(c: Comparison) {
    c == Below || c == AtLeast
  }

  /** '<' and '>=' limits are rounded up, '>' and '<=' limits down, with a tolerance of 1e-9. */
  function IntegerizedLimit(v: real, c: Comparison): int {
    if RoundsUp(c) then Ceiling(v - NEAR) else (v + NEAR).Floor
  }

  function IntegerizeLimit(v: real, c: Comparison): real {
    IntegerizedLimit(v, c) as real
  }

  /** n lies within 1e-9 of v, strictly on the side where the tolerance reaches over it. */
  predicate JustPast(n: int, v: real, c: Comparison) {
    if RoundsUp(c) then v - NEAR <= n as real < v else v < n as real <= v + NEAR
  }

  predicate BreachesAt(n: int, limit: real, c: Comparison) {
    Breaches(n as real, limit, c)
  }

  lemma VerdictAtWhole(n: int, limit: int, c: Comparison)
    ensures BreachesAt(n, limit as real, c) <==>
              match c
              case Above => n > limit
              case AtMost => n <= limit
              case Below => n < limit
              case AtLeast => n >= limit
  {
  }

  lemma JustPastDisagrees(n: int, v: real, c: Comparison)
    requires JustPast(n, v, c)
    ensures BreachesAt(n, v, c) != BreachesAt(n, IntegerizeLimit(v, c), c)
  {
    VerdictAtWhole(n, IntegerizedLimit(v, c), c);
    if RoundsUp(c) { CeilingExactly(n, v - NEAR); } else { FloorExactly(n, v + NEAR); }
  }

  lemma DisagreementIsJustPast(n: int, v: real, c: Comparison)
    requires BreachesAt(n, v, c) != BreachesAt(n, IntegerizeLimit(v, c), c)
    ensures JustPast(n, v, c)
  {
    VerdictAtWhole(n, IntegerizedLimit(v, c), c);
    if RoundsUp(c) {
      CeilingExactly(n, v - NEAR);
      CeilingExactly(n, v);
    } else {
      FloorExactly(n, v + NEAR);
      FloorExactly(n, v);
    }
  }

  /** The whole-number form of a learned limit gives the same verdict on every whole-number reading exactly when no
      integer lies within 1e-9 of the limit on the side it is rounded over. */
  lemma IntegerizeAgreesExactly(v: real, c: Comparison)
    ensures (forall n: int :: BreachesAt(n, v, c) <==> BreachesAt(n, IntegerizeLimit(v, c), c)) <==>
              !exists n: int :: JustPast(n, v, c)
  {
    forall n: int ensures JustPast(n, v, c) <==> BreachesAt(n, v, c) != BreachesAt(n, IntegerizeLimit(v, c), c) {
      if JustPast(n, v, c) { JustPastDisagrees(n, v, c); }
      if BreachesAt(n, v, c) != BreachesAt(n, IntegerizeLimit(v, c), c) { DisagreementIsJustPast(n, v, c); }
    }
    if n :| JustPast(n, v, c) { assert BreachesAt(n, v, c) != BreachesAt(n, IntegerizeLimit(v, c), c); }
  }

  lemma IntegerizeIsMonotone(v: real, w: real, c: Comparison)
    requires v <= w
    ensures IntegerizeLimit(v, c) <= IntegerizeLimit(w, c)
  {
    if RoundsUp(c) {
      CeilingExactly(IntegerizedLimit(w, c), v - NEAR);
      CeilingExactly(IntegerizedLimit(w, c), w - NEAR);
    }
    else { FloorExactly(IntegerizedLimit(v, c), w + NEAR); FloorExactly(IntegerizedLimit(v, c), v + NEAR); }
  }

  // ---- guard rails -------------------------------------------------------------------------------------------

  function Max(x: real, y: real): real { if x >= y then x else y }

  function Min(x: real, y: real): real { if x <= y then x else y }

  function ClampDynamicBounds(dynW: real, dynC: real, sw: real, sc: real, comparison: Comparison,
                              percent: bool): (real, real) {
    if Upward(comparison) then
      var w0, c0 := Max(dynW, sw * MAX_TIGHTEN_FACTOR), Max(dynC, sc);
      var capped := percent && sc <= 100.0;
      var cap := if sc <= PERCENT_CAP then PERCENT_CAP else sc;
      var w, c := if capped then Min(w0, cap) else w0, if capped then Min(c0, cap) else c0;
      (if w > c then c else w, c)
    else
      var w := Min(dynW, if sw > 0.0 then sw / MAX_TIGHTEN_FACTOR else sw);
      var c := Min(dynC, sc);
      (w, if c > w then w else c)
  }

  /** Warning comes no later than critical. */
  predicate Ordered(w: real, c: real, comparison: Comparison) {
    if Upward(comparison) then w <= c else c <= w
  }

  /** Whatever the learned band says: the two lines are in order, and critical is never tighter than the
      configured one. */
  lemma ClampedBoundsAreSafe(dynW: real, dynC: real, sw: real, sc: real, comparison: Comparison, percent: bool,
                             reading: real)
    ensures var (w, c) := ClampDynamicBounds(dynW, dynC, sw, sc, comparison, percent);
            && Ordered(w, c, comparison)
            && (Breaches(reading, c, comparison) ==> Breaches(reading, sc, comparison))
            && (percent && Upward(comparison) && sc <= 100.0 ==> w <= c <= 100.0)
  {
  }

  // ---- the size floor ------------------------------------------------------------------------------------------

  /** floor 0 means none. */
  function ApplyFloor(warning: real, critical: real, comparison: Comparison, floor: real): (real, real) {
    if floor != 0.0 && Upward(comparison) then (Max(warning, floor), Max(critical, floor)) else (warning, critical)
  }

  lemma FloorKeepsOrder(w: real, c: real, comparison: Comparison, floor: real)
    requires Ordered(w, c, comparison)
    ensures Ordered(ApplyFloor(w, c, comparison, floor).0, ApplyFloor(w, c, comparison, floor).1, comparison)
  {
  }

  /** The evaluator's verdict: a reading at or below the floor never breaches an upward line. */
  predicate Fires(reading: real, line: real, comparison: Comparison, floor: real) {
    Breaches(reading, line, comparison) && !(floor != 0.0 && Upward(comparison) && reading <= floor)
  }

  /** The limit shown for a line gives the evaluator's verdict on a reading, except for a '>=' line at or below the
      floor and a reading of exactly the floor, which is shown as a breach and is none. */
  lemma ShownLimitAgreesExactly(reading: real, line: real, comparison: Comparison, floor: real)
    ensures var shown := ApplyFloor(line, line, comparison, floor).0;
            (Breaches(reading, shown, comparison) <==> Fires(reading, line, comparison, floor)) <==>
              !(comparison == AtLeast && floor != 0.0 && reading == floor && line <= floor)
  {
  }

  // ---- the limits of one resource ----------------------------------------------------------------------------------

  datatype Row = Row(line: Line, useDynamic: bool, k: real, whole: bool, percent: bool, staticOnly: bool, floor: real)

  datatype Mode = Anomaly | Dynamic | Static

  /** What the evaluator makes of a baseline bucket; None: no limit yet. */
  datatype Evaluator<!B> = Evaluator(anomalyBound: (real, B) -> Option<real>,
                                     dynamicBounds: (Line, real, B) -> Option<(real, real)>)

  function ThresholdMode(row: Row): Mode {
    if row.line == PLACEHOLDER then Anomaly else if row.useDynamic && !row.staticOnly then Dynamic else Static
  }

  function Whole(row: Row, v: real): real {
    if row.whole then IntegerizeLimit(v, row.line.comparison) else v
  }

  /** The two lines before the size floor. */
  function LearnedLines<B>(ev: Evaluator<B>, row: Row, bucket: B): Option<(real, real)> {
    var k := if row.k == 0.0 then 3.0 else row.k;
    match ThresholdMode(row)
    case Anomaly =>
      var line := ev.anomalyBound(k, bucket);
      if line.None? then None else Some((Whole(row, line.value), Whole(row, line.value)))
    case Dynamic =>
      var dyn := ev.dynamicBounds(row.line, k, bucket);
      if dyn.None? then None else
      var (w, c) := ClampDynamicBounds(dyn.value.0, dyn.value.1, row.line.warning, row.line.critical,
                                       row.line.comparison, row.percent);
      Some((Whole(row, w), Whole(row, c)))
    case Static => None
  }

  function LimitsForResource<B>(ev: Evaluator<B>, row: Row, bucket: B): Option<(real, real)> {
    var lines := LearnedLines(ev, row, bucket);
    if lines.None? then None else Some(ApplyFloor(lines.value.0, lines.value.1, row.line.comparison, row.floor))
  }

  /** For any evaluator and any baseline: rounding to whole numbers and lifting to the floor never put warning past
      critical. */
  lemma LimitsAreOrdered<B>(ev: Evaluator<B>, row: Row, bucket: B)
    requires LimitsForResource(ev, row, bucket).Some?
    ensures Ordered(LimitsForResource(ev, row, bucket).value.0, LimitsForResource(ev, row, bucket).value.1,
                    row.line.comparison)
  {
    var cmp := row.line.comparison;
    var k := if row.k == 0.0 then 3.0 else row.k;
    var lines := LearnedLines(ev, row, bucket).value;
    if ThresholdMode(row) == Dynamic {
      var dyn := ev.dynamicBounds(row.line, k, bucket).value;
      var (w, c) := ClampDynamicBounds(dyn.0, dyn.1, row.line.warning, row.line.critical, cmp, row.percent);
      ClampedBoundsAreSafe(dyn.0, dyn.1, row.line.warning, row.line.critical, cmp, row.percent, 0.0);
      if Upward(cmp) { IntegerizeIsMonotone(w, c, cmp); } else { IntegerizeIsMonotone(c, w, cmp); }
    }
    FloorKeepsOrder(lines.0, lines.1, cmp, row.floor);
  }

  /** A whole-number reading gets the verdict that the unrounded line, with the floor, would give it. */
  lemma WholeLimitsKeepTheVerdict(row: Row, v: real, reading: int)
    requires row.whole && !exists n: int :: JustPast(n, v, row.line.comparison)
    ensures Fires(reading as real, Whole(row, v), row.line.comparison, row.floor) <==>
              Fires(reading as real, v, row.line.comparison, row.floor)
  {
    IntegerizeAgreesExactly(v, row.line.comparison);
    assert BreachesAt(reading, v, row.line.comparison) <==>
        BreachesAt(reading, IntegerizeLimit(v, row.line.comparison), row.line.comparison);
  }
}
