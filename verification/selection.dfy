/**
 Choosing the safest alternative (`get_directions_with_avoidance`,
 service.py:147-177): every candidate route is scored, its average segment
 risk taken, the first route of least average chosen, and its segments
 re-filtered at the significance threshold. The directions request itself
 is not part of this model: the alternatives are an input.
 */
module Selection {
  import opened Basics
  import opened Scoring

  /** The final report keeps only segments above this score. */
  const SIGNIFICANCE_THRESHOLD: real := 0.3

  function Scores(segs: seq<Segment>): seq<real>
  {
    seq(|segs|, k requires 0 <= k < |segs| => segs[k].riskScore)
  }

  /** A route's `avg_risk`: the mean segment score, or 0 without segments. */
  function AvgRisk(segs: seq<Segment>): real
  {
    if |segs| == 0 then 0.0 else Sum(Scores(segs)) / |segs| as real
  }

  /** For reported segments the average is 0 exactly when there are none,
      and above 0.4 otherwise; it is at most 1 when every score is. */
  lemma AvgRiskOfReported(segs: seq<Segment>)
    requires forall k :: 0 <= k < |segs| ==> Reported(segs[k])
    ensures AvgRisk(segs) == 0.0 <==> |segs| == 0
    ensures |segs| > 0 ==> AvgRisk(segs) > REPORT_THRESHOLD
    ensures (forall k :: 0 <= k < |segs| ==> segs[k].riskScore <= SEVERE_WEIGHT)
            ==> AvgRisk(segs) <= SEVERE_WEIGHT
  {
    if |segs| > 0 {
      MeanAbove(Scores(segs), REPORT_THRESHOLD);
      if forall k :: 0 <= k < |segs| ==> segs[k].riskScore <= SEVERE_WEIGHT {
        MeanBounds(Scores(segs), REPORT_THRESHOLD, SEVERE_WEIGHT);
      }
    }
  }

  /** Two segments scored 0.5 and 0.7 average to 0.6. */
  lemma AvgRiskExample(a: Segment, b: Segment)
    requires a.riskScore == 0.5 && b.riskScore == 0.7
    ensures AvgRisk([a, b]) == 0.6
  {
    var s := Scores([a, b]);
    assert s == [0.5, 0.7];
    assert s[..1] == [0.5] && [0.5][..0] == [];
    assert Sum(s) == 1.2;
  }

  /** Python's `min`: the index of the first least element. */
  function FirstMinIndex(xs: seq<real>): (m: nat)
    requires |xs| > 0
    ensures m < |xs|
    ensures forall j :: 0 <= j < |xs| ==> xs[m] <= xs[j]
    ensures forall j :: 0 <= j < m ==> xs[j] > xs[m]
  {
    if |xs| == 1 then 0
    else
      var m := FirstMinIndex(xs[..|xs| - 1]);
      if xs[|xs| - 1] < xs[m] then |xs| - 1 else m
  }

  /** Of averages 0.6, 0.2, 0.2 the second is chosen. */
  lemma FirstMinIndexExample()
    ensures FirstMinIndex([0.6, 0.2, 0.2]) == 1
  {
    assert [0.6, 0.2, 0.2][..2] == [0.6, 0.2];
    assert [0.6, 0.2][..1] == [0.6];
  }

  /** The final `segmentRisks`: the segments above 0.3, in their order. */
  function Significant(segs: seq<Segment>): (r: seq<Segment>)
    ensures |r| <= |segs|
    ensures forall k :: 0 <= k < |r| ==> r[k].riskScore > SIGNIFICANCE_THRESHOLD
    ensures forall seg :: seg in r <==> seg in segs && seg.riskScore > SIGNIFICANCE_THRESHOLD
  {
    if |segs| == 0 then []
    else
      var init, last := segs[..|segs| - 1], segs[|segs| - 1];
      assert forall seg :: seg in segs <==> seg in init || seg == last;
      if last.riskScore > SIGNIFICANCE_THRESHOLD then Significant(init) + [last]
      else Significant(init)
  }

  /** The filter keeps order: filtering `a + b` filters `a`, then `b`. */
  lemma {:induction false} SignificantAppend(a: seq<Segment>, b: seq<Segment>)
    ensures Significant(a + b) == Significant(a) + Significant(b)
  {
    if |b| == 0 {
      assert a + b == a;
    } else {
      var b' := b[..|b| - 1];
      assert (a + b)[..|a + b| - 1] == a + b';
      assert (a + b)[|a + b| - 1] == b[|b| - 1];
      SignificantAppend(a, b');
    }
  }

  /** Segments that pass the 0.3 filter are all kept. */
  lemma {:induction false} SignificantKeepsAll(segs: seq<Segment>)
    requires forall k :: 0 <= k < |segs| ==> segs[k].riskScore > SIGNIFICANCE_THRESHOLD
    ensures Significant(segs) == segs
  {
    if |segs| > 0 {
      var init := segs[..|segs| - 1];
      SignificantKeepsAll(init);
      assert init + [segs[|segs| - 1]] == segs;
    }
  }

  /** One scored alternative: the route, its segments and their average. */
  datatype Candidate = Candidate(route: Route, segmentRisks: seq<Segment>, avgRisk: real)

  /** The response: the chosen route and its significant segments. */
  datatype Choice = Choice(route: Route, segmentRisks: seq<Segment>)

  /** `route_risks`: every alternative scored in order; the first route whose
      scoring fails aborts the request. */
  function Candidates(routes: seq<Route>): Result<seq<Candidate>>
  {
    if |routes| == 0 then Ok([])
    else
      match Candidates(routes[..|routes| - 1])
      case Err(e) => Err(e)
      case Ok(cs) =>
        var route := routes[|routes| - 1];
        match RouteRisks(route)
        case Err(e) => Err(e)
        case Ok(segs) => Ok(cs + [Candidate(route, segs, AvgRisk(segs))])
  }

  function AvgRisks(cs: seq<Candidate>): seq<real>
  {
    seq(|cs|, k requires 0 <= k < |cs| => cs[k].avgRisk)
  }

  /** The whole selection: no alternatives is the `ValueError` of `min`. */
  function Directions(routes: seq<Route>): Result<Choice>
  {
    match Candidates(routes)
    case Err(e) => Err(e)
    case Ok(cs) =>
      if |cs| == 0 then Err(ValueError)
      else
        var safest := cs[FirstMinIndex(AvgRisks(cs))];
        Ok(Choice(safest.route, Significant(safest.segmentRisks)))
  }

  /** Candidates are the routes, in order, each with its own segments and
      their average; they exist exactly when every route scores. */
  lemma {:induction false} CandidatesSpec(routes: seq<Route>)
    ensures Candidates(routes).Ok? <==> forall j :: 0 <= j < |routes| ==> RouteRisks(routes[j]).Ok?
    ensures Candidates(routes).Ok? ==>
              var cs := Candidates(routes).value;
              |cs| == |routes|
              && forall j :: 0 <= j < |routes| ==>
                   cs[j] == Candidate(routes[j], RouteRisks(routes[j]).value,
                                      AvgRisk(RouteRisks(routes[j]).value))
  {
    if |routes| > 0 {
      var init := routes[..|routes| - 1];
      CandidatesSpec(init);
      assert forall j :: 0 <= j < |init| ==> init[j] == routes[j];
    }
  }

  /** A failure among the first `n` routes is the failure of the request. */
  lemma {:induction false} CandidatesAbort(routes: seq<Route>, n: nat)
    requires n <= |routes|
    requires Candidates(routes[..n]).Err?
    ensures Candidates(routes) == Candidates(routes[..n])
    decreases |routes| - n
  {
    if n < |routes| {
      var init := routes[..|routes| - 1];
      assert init[..n] == routes[..n];
      CandidatesAbort(init, n);
    } else {
      assert routes[..n] == routes;
    }
  }

  /** The loop of `get_directions_with_avoidance`, then `min` and the filter. */
  method GetDirectionsWithAvoidance(routes: seq<Route>) returns (res: Result<Choice>)
    ensures res == Directions(routes)
  {
    var routeRisks: seq<Candidate> := [];
    for i := 0 to |routes|
      invariant Candidates(routes[..i]) == Ok(routeRisks)
    {
      var risks := PredictRouteRisks(routes[i]);
      ghost var upTo := routes[..i + 1];
      assert upTo[..|upTo| - 1] == routes[..i];
      assert upTo[|upTo| - 1] == routes[i];
      if risks.Err? {
        CandidatesAbort(routes, i + 1);
        return Err(risks.error);
      }
      var avgRisk := AvgRisk(risks.value);
      routeRisks := routeRisks + [Candidate(routes[i], risks.value, avgRisk)];
    }
    assert routes[..|routes|] == routes;
    if |routeRisks| == 0 {
      return Err(ValueError);
    }
    var safest := routeRisks[FirstMinIndex(AvgRisks(routeRisks))];
    res := Ok(Choice(safest.route, Significant(safest.segmentRisks)));
  }

  /** A route's average risk; defined when the route scores. */
  function RouteAvg(route: Route): real
    requires RouteRisks(route).Ok?
  {
    AvgRisk(RouteRisks(route).value)
  }

  /** The request fails exactly when there are no alternatives (a
      `ValueError`) or some alternative fails to score (that failure). */
  lemma DirectionsFails(routes: seq<Route>)
    ensures Directions(routes).Err? <==>
              |routes| == 0 || exists j :: 0 <= j < |routes| && RouteRisks(routes[j]).Err?
    ensures |routes| == 0 ==> Directions(routes) == Err(ValueError)
  {
    CandidatesSpec(routes);
  }

  /** The chosen route is an alternative of least average risk, every
      alternative before it is strictly riskier, and the reported segments
      are its significant ones. */
  lemma DirectionsSelectsSafest(routes: seq<Route>, choice: Choice)
    requires Directions(routes) == Ok(choice)
    ensures |routes| > 0 && forall j :: 0 <= j < |routes| ==> RouteRisks(routes[j]).Ok?
    ensures exists i :: 0 <= i < |routes| && choice.route == routes[i]
              && choice.segmentRisks == Significant(RouteRisks(routes[i]).value)
              && (forall j :: 0 <= j < |routes| ==> RouteAvg(routes[i]) <= RouteAvg(routes[j]))
              && (forall j :: 0 <= j < i ==> RouteAvg(routes[j]) > RouteAvg(routes[i]))
  {
    CandidatesSpec(routes);
    var cs := Candidates(routes).value;
    var i := FirstMinIndex(AvgRisks(cs));
    assert forall j :: 0 <= j < |routes| ==> AvgRisks(cs)[j] == RouteAvg(routes[j]);
    assert choice.route == routes[i];
  }

  /** Every segment the route reported passes the 0.3 filter, so the final
      report is the chosen route's segments in full. */
  lemma DirectionsReportsAllSegments(routes: seq<Route>, choice: Choice)
    requires Directions(routes) == Ok(choice)
    ensures exists i :: 0 <= i < |routes| && choice.route == routes[i]
              && RouteRisks(routes[i]) == Ok(choice.segmentRisks)
  {
    DirectionsSelectsSafest(routes, choice);
    var i :| 0 <= i < |routes| && choice.route == routes[i]
             && choice.segmentRisks == Significant(RouteRisks(routes[i]).value);
    var segs := RouteRisks(routes[i]).value;
    StepsRisksReported(AllSteps(routes[i].legs));
    SignificantKeepsAll(segs);
  }

  /** A route with no reported segment beats every route with one: if any
      alternative has none, the first such alternative is chosen and nothing
      is reported. */
  lemma DirectionsPrefersNoRisk(routes: seq<Route>, choice: Choice)
    requires Directions(routes) == Ok(choice)
    requires exists j :: 0 <= j < |routes| && RouteRisks(routes[j]) == Ok([])
    ensures choice.segmentRisks == []
    ensures exists i :: 0 <= i < |routes| && choice.route == routes[i]
              && RouteRisks(routes[i]) == Ok([])
              && forall j :: 0 <= j < i ==> RouteRisks(routes[j]) != Ok([])
  {
    DirectionsSelectsSafest(routes, choice);
    var i :| 0 <= i < |routes| && choice.route == routes[i]
             && choice.segmentRisks == Significant(RouteRisks(routes[i]).value)
             && (forall j :: 0 <= j < |routes| ==> RouteAvg(routes[i]) <= RouteAvg(routes[j]))
             && (forall j :: 0 <= j < i ==> RouteAvg(routes[j]) > RouteAvg(routes[i]));
    var z :| 0 <= z < |routes| && RouteRisks(routes[z]) == Ok([]);
    forall j | 0 <= j < |routes|
      ensures RouteAvg(routes[j]) == 0.0 <==> RouteRisks(routes[j]) == Ok([])
      ensures RouteAvg(routes[j]) >= 0.0
    {
      StepsRisksReported(AllSteps(routes[j].legs));
      AvgRiskOfReported(RouteRisks(routes[j]).value);
    }
    assert RouteAvg(routes[z]) == 0.0;
    assert RouteRisks(routes[i]) == Ok([]);
  }
}
