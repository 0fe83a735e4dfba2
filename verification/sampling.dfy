/**
 Checkpoint sampling of a route step (`get_checkpoints`, service.py:46-51):
 `num_points` indices spread evenly over the step's decoded points, each
 `int(i * (n - 1) / (num_points - 1))`. For the non-negative operands that
 occur, truncation of the quotient is floor division.
 */
module Sampling {
  import opened Basics

  /** The default `num_points`, the count `predict_route_risks` uses. */
  const CHECKPOINT_COUNT: nat := 3

  lemma DivMonotone(a: nat, b: nat, d: nat)
    requires a <= b && d > 0
    ensures a / d <= b / d
  {
    var qa, qb := a / d, b / d;
    assert a == d * qa + a % d && b == d * qb + b % d;
    if qa > qb {
      MulMonotone(qb + 1, qa, d);
      assert false;
    }
  }

  lemma MulMonotone(a: nat, b: nat, c: nat)
    requires a <= b
    ensures a * c <= b * c
  {
  }

  lemma DivExact(m: nat, d: nat)
    requires d > 0
    ensures (d * m) / d == m
  {
    var q := (d * m) / d;
    assert d * m == d * q + (d * m) % d;
    if q > m {
      MulMonotone(m + 1, q, d);
      assert false;
    } else if q < m {
      MulMonotone(q + 1, m, d);
      assert false;
    }
  }

  /** Index of the `i`-th of `k` checkpoints among `n` points: within the
      point list, the first checkpoint is the first point and the last
      checkpoint the last point. */
  function CheckpointIndex(i: nat, n: nat, k: nat): (idx: nat)
    requires n >= 1 && k >= 2 && i < k
    ensures idx <= n - 1
    ensures i == 0 ==> idx == 0
    ensures i == k - 1 ==> idx == n - 1
  {
    MulMonotone(i, k - 1, n - 1);
    DivMonotone(i * (n - 1), (k - 1) * (n - 1), k - 1);
    DivExact(n - 1, k - 1);
    i * (n - 1) / (k - 1)
  }

  /** Later checkpoints never come before earlier ones. */
  lemma CheckpointIndexMonotone(i: nat, j: nat, n: nat, k: nat)
    requires n >= 1 && k >= 2 && i <= j < k
    ensures CheckpointIndex(i, n, k) <= CheckpointIndex(j, n, k)
  {
    MulMonotone(i, j, n - 1);
    DivMonotone(i * (n - 1), j * (n - 1), k - 1);
  }

  /** The successful case of `get_checkpoints`: exactly `k` points, each one
      a point of the step, the `j`-th at the `j`-th evenly spaced index, the
      first and last being the step's own endpoints. */
  function Sample<T>(pts: seq<T>, k: nat): (r: seq<T>)
    requires |pts| >= 1 && k >= 2
    ensures |r| == k
    ensures forall j :: 0 <= j < k ==> r[j] == pts[CheckpointIndex(j, |pts|, k)]
    ensures forall j :: 0 <= j < k ==> r[j] in pts
    ensures r[0] == pts[0] && r[k - 1] == pts[|pts| - 1]
  {
    seq(k, j requires 0 <= j < k => pts[CheckpointIndex(j, |pts|, k)])
  }

  /** `get_checkpoints(step_points, num_points)` with its failures: no
      checkpoints for `num_points <= 0` (an empty `range`), division by zero
      for `num_points == 1`, and an index error on a step with no points. */
  function GetCheckpoints<T>(pts: seq<T>, numPoints: int): (r: Result<seq<T>>)
    ensures r.Ok? <==> numPoints <= 0 || (numPoints >= 2 && |pts| >= 1)
    ensures numPoints == 1 ==> r == Err(ZeroDivisionError)
    ensures numPoints >= 2 && |pts| == 0 ==> r == Err(IndexError)
    ensures r.Ok? ==> |r.value| == if numPoints <= 0 then 0 else numPoints
    ensures r.Ok? ==> forall j :: 0 <= j < |r.value| ==> r.value[j] in pts
    ensures r.Ok? && numPoints >= 2 ==> r.value == Sample(pts, numPoints)
  {
    if numPoints <= 0 then Ok([])
    else if numPoints == 1 then Err(ZeroDivisionError)
    else if |pts| == 0 then Err(IndexError)
    else Ok(Sample(pts, numPoints))
  }

  /** With the default count, a step with at least one point yields three
      checkpoints whose first and last are the step's endpoints, and a step
      with no points fails; the service's `len(checkpoints) == 0` guard
      (service.py:67) can therefore never fire. */
  lemma DefaultCheckpoints<T>(pts: seq<T>)
    ensures GetCheckpoints(pts, CHECKPOINT_COUNT).Ok? <==> |pts| >= 1
    ensures |pts| == 0 ==> GetCheckpoints(pts, CHECKPOINT_COUNT) == Err(IndexError)
    ensures |pts| >= 1 ==>
              var cps := GetCheckpoints(pts, CHECKPOINT_COUNT).value;
              |cps| == 3 && cps[0] == pts[0] && cps[2] == pts[|pts| - 1]
              && cps[1] == pts[(|pts| - 1) / 2]
  {
  }

  /** A step of two points has the first repeated: `[p0, p0, p1]`. */
  lemma ShortStepRepeats<T>(p0: T, p1: T)
    ensures GetCheckpoints([p0, p1], CHECKPOINT_COUNT) == Ok([p0, p0, p1])
  {
    var r := Sample([p0, p1], 3);
    assert r[1] == [p0, p1][CheckpointIndex(1, 2, 3)];
    assert r == [p0, p0, p1];
  }
}
