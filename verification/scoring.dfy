/**
 Risk scoring of one route (`predict_route_risks`, service.py:54-144).
 Every step of every leg is sampled into checkpoints, the inference model's
 class probabilities for those checkpoints are blended into one step score,
 and a step whose score passes the reporting threshold becomes a segment.

 Polyline decoding and the inference query are not part of this model: a
 step carries its decoded points and the rows the model answered with.
 */
module Scoring {
  import opened Basics
  import opened Sampling
  import opened Weather

  datatype Point = Point(lat: real, lng: real)

  /** One inference row: the probabilities of a severe, moderate or minor
      incident. */
  datatype Probs = Probs(severe: real, moderate: real, minor: real)

  /** The two descriptions the service attaches (service.py:132, 134). */
  datatype Level = Moderate | High

  datatype Segment = Segment(start: Point, end: Point, riskScore: real, description: Level)

  datatype Step = Step(points: seq<Point>, rows: seq<Probs>)
  datatype Leg = Leg(steps: seq<Step>)
  datatype Route = Route(legs: seq<Leg>)

  const SEVERE_WEIGHT: real := 1.0
  const MODERATE_WEIGHT: real := 0.5
  const MINOR_WEIGHT: real := 0.2

  /** A step is reported only above this score ... */
  const REPORT_THRESHOLD: real := 0.4
  /** ... and described as high risk only above this one. */
  const HIGH_THRESHOLD: real := 0.6

  // ---------------------------------------------------------------------
  // Enrichment of checkpoints (service.py:70-81)
  // ---------------------------------------------------------------------

  /** A checkpoint with the features sent to the inference model. */
  datatype Enriched = Enriched(lat: real, lng: real, hour: int, dayOfWeek: int,
                               weather: Option<Category>)

  /** Attach the clock reading and each checkpoint's weather, in order; the
      weather provider is the function `weatherAt`. */
  method EnrichCheckpoints(checkpoints: seq<Point>, weatherAt: (real, real) -> Reply,
                           hour: int, dayOfWeek: int)
    returns (enriched: seq<Enriched>)
    ensures |enriched| == |checkpoints|
    ensures forall j :: 0 <= j < |enriched| ==>
              enriched[j].lat == checkpoints[j].lat && enriched[j].lng == checkpoints[j].lng
    ensures forall j :: 0 <= j < |enriched| ==>
              enriched[j].hour == hour && enriched[j].dayOfWeek == dayOfWeek
    ensures forall j :: 0 <= j < |enriched| ==>
              enriched[j].weather == GetWeather(weatherAt(checkpoints[j].lat, checkpoints[j].lng))
  {
    enriched := [];
    for i := 0 to |checkpoints|
      invariant |enriched| == i
      invariant forall j :: 0 <= j < i ==>
                  enriched[j] == Enriched(checkpoints[j].lat, checkpoints[j].lng, hour, dayOfWeek,
                                          GetWeather(weatherAt(checkpoints[j].lat, checkpoints[j].lng)))
    {
      var p := checkpoints[i];
      var weather := GetWeather(weatherAt(p.lat, p.lng));
      enriched := enriched + [Enriched(p.lat, p.lng, hour, dayOfWeek, weather)];
    }
  }

  // ---------------------------------------------------------------------
  // Step score (service.py:107-129)
  // ---------------------------------------------------------------------

  function RowScore(p: Probs): real
  {
    p.severe * SEVERE_WEIGHT + p.moderate * MODERATE_WEIGHT + p.minor * MINOR_WEIGHT
  }

  /** What the inference model promises of a row: a probability distribution. */
  predicate IsDistribution(p: Probs)
  {
    0.0 <= p.severe && 0.0 <= p.moderate && 0.0 <= p.minor
    && p.severe + p.moderate + p.minor == 1.0
  }

  /** A distribution scores between the smallest and the largest weight. */
  lemma RowScoreBounds(p: Probs)
    requires IsDistribution(p)
    ensures MINOR_WEIGHT <= RowScore(p) <= SEVERE_WEIGHT
  {
  }

  function RowScores(rows: seq<Probs>): seq<real>
  {
    seq(|rows|, i requires 0 <= i < |rows| => RowScore(rows[i]))
  }

  /** The step score: the mean of the rows' weighted scores; no rows is a
      division by zero, not a score of 0. */
  function StepScore(rows: seq<Probs>): (r: Result<real>)
    ensures r.Err? <==> |rows| == 0
    ensures r.Err? ==> r.error == ZeroDivisionError
  {
    if |rows| == 0 then Err(ZeroDivisionError)
    else Ok(Sum(RowScores(rows)) / |rows| as real)
  }

  /** Rows that are distributions give a step score in [0.2, 1]. */
  lemma StepScoreBounds(rows: seq<Probs>)
    requires |rows| > 0
    requires forall i :: 0 <= i < |rows| ==> IsDistribution(rows[i])
    ensures MINOR_WEIGHT <= StepScore(rows).value <= SEVERE_WEIGHT
  {
    var s := RowScores(rows);
    forall i | 0 <= i < |s|
      ensures MINOR_WEIGHT <= s[i] <= SEVERE_WEIGHT
    {
      RowScoreBounds(rows[i]);
    }
    MeanBounds(s, MINOR_WEIGHT, SEVERE_WEIGHT);
  }

  /** The accumulation loop of service.py:109-129. */
  method ComputeStepScore(rows: seq<Probs>) returns (r: Result<real>)
    ensures r == StepScore(rows)
  {
    var riskScore := 0.0;
    for i := 0 to |rows|
      invariant riskScore == Sum(RowScores(rows[..i]))
    {
      assert RowScores(rows[..i + 1]) == RowScores(rows[..i]) + [RowScore(rows[i])];
      riskScore := riskScore + RowScore(rows[i]);
    }
    assert rows[..|rows|] == rows;
    if |rows| == 0 {
      return Err(ZeroDivisionError);
    }
    r := Ok(riskScore / |rows| as real);
  }

  // ---------------------------------------------------------------------
  // Reporting (service.py:131-142)
  // ---------------------------------------------------------------------

  /** The description of a step score, or `None` when it is not reported. */
  function Classify(score: real): (d: Option<Level>)
    ensures d.Some? <==> score > REPORT_THRESHOLD
    ensures d == Some(High) <==> score > HIGH_THRESHOLD
    ensures d == Some(Moderate) <==> REPORT_THRESHOLD < score <= HIGH_THRESHOLD
  {
    if score > REPORT_THRESHOLD then
      if score > HIGH_THRESHOLD then Some(High) else Some(Moderate)
    else None
  }

  /** The outcome of one step: a failure, no segment, or a segment. */
  function StepSegment(step: Step): Result<Option<Segment>>
  {
    match GetCheckpoints(step.points, CHECKPOINT_COUNT)
    case Err(e) => Err(e)
    case Ok(cps) =>
      match StepScore(step.rows)
      case Err(e) => Err(e)
      case Ok(score) =>
        match Classify(score)
        case None => Ok(None)
        case Some(level) => Ok(Some(Segment(cps[0], cps[|cps| - 1], score, level)))
  }

  /** A step fails exactly when it has no points (an index error) or, having
      points, no inference rows (a division by zero). Otherwise it yields a
      segment exactly when its score passes 0.4, spanning the step's first
      and last decoded points, scored by its rows and described by its
      score. */
  lemma StepSegmentSpec(step: Step)
    ensures StepSegment(step).Err? <==> |step.points| == 0 || |step.rows| == 0
    ensures |step.points| == 0 ==> StepSegment(step) == Err(IndexError)
    ensures |step.points| > 0 && |step.rows| == 0 ==> StepSegment(step) == Err(ZeroDivisionError)
    ensures StepSegment(step).Ok? ==>
              (StepSegment(step).value.Some? <==> StepScore(step.rows).value > REPORT_THRESHOLD)
    ensures StepSegment(step).Ok? && StepSegment(step).value.Some? ==>
              var seg := StepSegment(step).value.value;
              seg.start == step.points[0] && seg.end == step.points[|step.points| - 1]
              && seg.riskScore == StepScore(step.rows).value
              && Classify(seg.riskScore) == Some(seg.description)
  {
  }

  // ---------------------------------------------------------------------
  // All segments of a route, leg by leg and step by step
  // ---------------------------------------------------------------------

  /** The steps of a route in leg-then-step order. */
  function AllSteps(legs: seq<Leg>): (steps: seq<Step>)
  {
    if |legs| == 0 then [] else AllSteps(legs[..|legs| - 1]) + legs[|legs| - 1].steps
  }

  /** The segments of a run of steps; the first failing step's failure aborts. */
  function StepsRisks(steps: seq<Step>): Result<seq<Segment>>
  {
    if |steps| == 0 then Ok([])
    else
      match StepsRisks(steps[..|steps| - 1])
      case Err(e) => Err(e)
      case Ok(prefix) =>
        match StepSegment(steps[|steps| - 1])
        case Err(e) => Err(e)
        case Ok(None) => Ok(prefix)
        case Ok(Some(seg)) => Ok(prefix + [seg])
  }

  function RouteRisks(route: Route): Result<seq<Segment>>
  {
    StepsRisks(AllSteps(route.legs))
  }

  /** Joining two runs of steps: the earlier run's failure wins, then the
      later one's; otherwise the segments are the earlier run's followed by
      the later run's. */
  function Concat(a: Result<seq<Segment>>, b: Result<seq<Segment>>): Result<seq<Segment>>
  {
    match a
    case Err(e) => Err(e)
    case Ok(x) =>
      match b
      case Err(e) => Err(e)
      case Ok(y) => Ok(x + y)
  }

  /** Segments keep step order and never interleave: the risks of `a + b`
      are those of `a` followed by those of `b`. */
  lemma {:induction false} StepsRisksAppend(a: seq<Step>, b: seq<Step>)
    ensures StepsRisks(a + b) == Concat(StepsRisks(a), StepsRisks(b))
  {
    if |b| == 0 {
      assert a + b == a;
      if StepsRisks(a).Ok? {
        assert StepsRisks(a).value + [] == StepsRisks(a).value;
      }
    } else {
      var b', last := b[..|b| - 1], b[|b| - 1];
      assert (a + b)[..|a + b| - 1] == a + b';
      assert (a + b)[|a + b| - 1] == last;
      StepsRisksAppend(a, b');
      match StepsRisks(a + b')
      case Err(_) =>
      case Ok(xy) =>
        var x, y := StepsRisks(a).value, StepsRisks(b').value;
        assert xy == x + y;
        match StepSegment(last)
        case Err(_) =>
        case Ok(None) =>
        case Ok(Some(seg)) =>
          assert xy + [seg] == x + (y + [seg]);
    }
  }

  /** Over a route, the legs' step risks are concatenated in leg order. */
  lemma {:induction false} RouteRisksByLeg(legs: seq<Leg>, leg: Leg)
    ensures StepsRisks(AllSteps(legs + [leg])) == Concat(StepsRisks(AllSteps(legs)), StepsRisks(leg.steps))
  {
    assert (legs + [leg])[..|legs|] == legs;
    StepsRisksAppend(AllSteps(legs), leg.steps);
  }

  /** A run of steps is scored without failure exactly when every step has
      points and inference rows. */
  lemma {:induction false} StepsRisksOk(steps: seq<Step>)
    ensures StepsRisks(steps).Ok? <==>
              forall i :: 0 <= i < |steps| ==> |steps[i].points| > 0 && |steps[i].rows| > 0
  {
    if |steps| > 0 {
      var init := steps[..|steps| - 1];
      StepsRisksOk(init);
      StepSegmentSpec(steps[|steps| - 1]);
      assert forall i :: 0 <= i < |init| ==> init[i] == steps[i];
    }
  }

  /** A segment as reported: above 0.4, and high exactly when above 0.6. */
  predicate Reported(seg: Segment)
  {
    seg.riskScore > REPORT_THRESHOLD
    && (seg.description == High <==> seg.riskScore > HIGH_THRESHOLD)
  }

  /** Every segment of a route is reported, there is at most one per step,
      and, when every row is a distribution, its score is at most 1. */
  lemma {:induction false} StepsRisksReported(steps: seq<Step>)
    requires StepsRisks(steps).Ok?
    ensures |StepsRisks(steps).value| <= |steps|
    ensures forall k :: 0 <= k < |StepsRisks(steps).value| ==> Reported(StepsRisks(steps).value[k])
    ensures (forall i, j :: 0 <= i < |steps| && 0 <= j < |steps[i].rows| ==> IsDistribution(steps[i].rows[j]))
            ==> forall k :: 0 <= k < |StepsRisks(steps).value| ==>
                  StepsRisks(steps).value[k].riskScore <= SEVERE_WEIGHT
  {
    if |steps| > 0 {
      var init, last := steps[..|steps| - 1], steps[|steps| - 1];
      StepsRisksReported(init);
      StepSegmentSpec(last);
      if forall i, j :: 0 <= i < |steps| && 0 <= j < |steps[i].rows| ==> IsDistribution(steps[i].rows[j]) {
        assert forall i, j :: 0 <= i < |init| && 0 <= j < |init[i].rows| ==> IsDistribution(init[i].rows[j]) by {
          assert forall i :: 0 <= i < |init| ==> init[i] == steps[i];
        }
        if StepSegment(last).value.Some? {
          StepScoreBounds(last.rows);
        }
      }
    }
  }

  lemma {:induction false} AllStepsAppend(a: seq<Leg>, b: seq<Leg>)
    ensures AllSteps(a + b) == AllSteps(a) + AllSteps(b)
  {
    if |b| == 0 {
      assert a + b == a;
    } else {
      var b' := b[..|b| - 1];
      assert (a + b)[..|a + b| - 1] == a + b';
      AllStepsAppend(a, b');
    }
  }

  lemma AllStepsSplit(legs: seq<Leg>, li: nat)
    requires li < |legs|
    ensures AllSteps(legs) == AllSteps(legs[..li]) + legs[li].steps + AllSteps(legs[li + 1..])
  {
    var pre := legs[..li + 1];
    assert pre[..|pre| - 1] == legs[..li];
    assert AllSteps(pre) == AllSteps(legs[..li]) + legs[li].steps;
    SplitAt(legs, li + 1);
    AllStepsAppend(pre, legs[li + 1..]);
  }

  /** A failure at step `si` of leg `li` is the failure of the whole route. */
  lemma AbortRoute(legs: seq<Leg>, li: nat, si: nat)
    requires li < |legs| && si < |legs[li].steps|
    requires StepsRisks(AllSteps(legs[..li]) + legs[li].steps[..si + 1]).Err?
    ensures RouteRisks(Route(legs)) == StepsRisks(AllSteps(legs[..li]) + legs[li].steps[..si + 1])
  {
    var steps := legs[li].steps;
    var failed := AllSteps(legs[..li]) + steps[..si + 1];
    var rest := steps[si + 1..] + AllSteps(legs[li + 1..]);
    AllStepsSplit(legs, li);
    assert steps == steps[..si + 1] + steps[si + 1..];
    assert AllSteps(legs) == failed + rest;
    StepsRisksAppend(failed, rest);
  }

  /** One more step of a leg extends the segments by that step's outcome. */
  lemma ExtendRisks(done: seq<Step>, steps: seq<Step>, si: nat, risks: seq<Segment>)
    requires si < |steps|
    requires StepsRisks(done + steps[..si]) == Ok(risks)
    ensures StepSegment(steps[si]).Err? ==>
              StepsRisks(done + steps[..si + 1]) == Err(StepSegment(steps[si]).error)
    ensures StepSegment(steps[si]) == Ok(None) ==> StepsRisks(done + steps[..si + 1]) == Ok(risks)
    ensures StepSegment(steps[si]).Ok? && StepSegment(steps[si]).value.Some? ==>
              StepsRisks(done + steps[..si + 1]) == Ok(risks + [StepSegment(steps[si]).value.value])
  {
    var upTo := done + steps[..si + 1];
    assert steps[..si + 1] == steps[..si] + [steps[si]];
    assert upTo[..|upTo| - 1] == done + steps[..si];
    assert upTo[|upTo| - 1] == steps[si];
  }

  /** After the last step of leg `li`, the steps done are those of the
      first `li + 1` legs. */
  lemma FinishLeg(legs: seq<Leg>, li: nat)
    requires li < |legs|
    ensures AllSteps(legs[..li + 1]) == AllSteps(legs[..li]) + legs[li].steps[..|legs[li].steps|]
  {
    var next := legs[..li + 1];
    assert next[..|next| - 1] == legs[..li];
    assert legs[li].steps[..|legs[li].steps|] == legs[li].steps;
  }

  /** The body of the step loop of `predict_route_risks`: sample the
      checkpoints, score the rows, and build the segment when the score is
      reported. */
  method ScoreStep(step: Step) returns (outcome: Result<Option<Segment>>)
    ensures outcome == StepSegment(step)
  {
    var checkpoints := GetCheckpoints(step.points, CHECKPOINT_COUNT);
    if checkpoints.Err? {
      return Err(checkpoints.error);
    }
    var cps := checkpoints.value;
    var score := ComputeStepScore(step.rows);
    if score.Err? {
      return Err(score.error);
    }
    var riskScore := score.value;
    outcome := Ok(None);
    if riskScore > REPORT_THRESHOLD {
      var description := Moderate;
      if riskScore > HIGH_THRESHOLD {
        description := High;
      }
      outcome := Ok(Some(Segment(cps[0], cps[|cps| - 1], riskScore, description)));
    }
  }

  /** The loops of `predict_route_risks`: legs, then steps, appending each
      reported segment; the first failing step aborts the route. */
  method PredictRouteRisks(route: Route) returns (res: Result<seq<Segment>>)
    ensures res == RouteRisks(route)
  {
    var risks: seq<Segment> := [];
    for li := 0 to |route.legs|
      invariant StepsRisks(AllSteps(route.legs[..li])) == Ok(risks)
    {
      var leg := route.legs[li];
      ghost var done := AllSteps(route.legs[..li]);
      assert done + leg.steps[..0] == done;
      for si := 0 to |leg.steps|
        invariant StepsRisks(done + leg.steps[..si]) == Ok(risks)
      {
        var outcome := ScoreStep(leg.steps[si]);
        ExtendRisks(done, leg.steps, si, risks);
        match outcome
        case Err(e) =>
          AbortRoute(route.legs, li, si);
          return Err(e);
        case Ok(None) =>
        case Ok(Some(segment)) =>
          risks := risks + [segment];
      }
      FinishLeg(route.legs, li);
    }
    assert route.legs[..|route.legs|] == route.legs;
    res := Ok(risks);
  }
}
