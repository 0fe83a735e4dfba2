# Route-risk scoring and selection, modelled in Dafny

This project models the core of a "safest route" service: for each
alternative driving route, it samples checkpoints on every step, blends the
inference model's incident probabilities into a step risk score, reports the
risky steps as segments, averages each route's segment scores, chooses the
first route of least average risk and filters its segments for the response
(`service.py`).

Modules, one per component:

- `Basics` (basics.dfy): the failures the service raises (`IndexError`,
  `ZeroDivisionError`, `ValueError`), `Result`/`Option`, and the
  left-to-right `Sum` with bounds on means.
- `Weather` (weather.dfy): the fixed description-to-category table and the
  reading of the weather provider's reply.
- `Sampling` (sampling.dfy): `get_checkpoints`, with its index arithmetic and
  its failures.
- `Scoring` (scoring.dfy): checkpoint enrichment, row and step scores, the
  reporting thresholds, and the leg/step loops of `predict_route_risks`.
- `Selection` (selection.dfy): per-route averages, `min` with its
  first-wins tie-break, the 0.3 filter, and the loop of
  `get_directions_with_avoidance`.

The loops of the source are methods with loops. The score accumulation,
the nested leg/step loop and the loop over routes are each proved equal to a
specification function (`ComputeStepScore` to `StepScore`,
`PredictRouteRisks` to `RouteRisks`, `GetDirectionsWithAvoidance` to
`Directions`); the body of the step loop, `ScoreStep`, is proved equal to
`StepSegment`; the enrichment loop, `EnrichCheckpoints`, states its result
element by element. The properties are lemmas about those functions. The
source mutates only local lists, so there are no classes. Scores are `real`.

Behaviours of the code worth knowing, all modelled as written:

- A step with fewer points than checkpoints still yields three checkpoints:
  its indices repeat (two points give `[p0, p0, p1]`, `ShortStepRepeats`). A
  step with no points raises an `IndexError` inside `get_checkpoints`, so the
  `len(checkpoints) == 0` guard (service.py:67) never fires; the model omits
  that dead branch and `DefaultCheckpoints` proves it dead.
- Checkpoint indices are truncated quotients (`int(...)`).
- A weather reply with a status other than 200 gives no category (`None`).
- The clock is read once per step. The hour and weekday are features of the
  inference query, so they reach the score only through the inference rows,
  which the model takes as input.

## Model

| member | source | states |
|---|---|---|
| `Weather.LookupByCategory` | service.py:22-41 | a description is sunny, cloudy or rainy exactly when it is one of that category's listed keys, and unknown exactly when it is none of the nine |
| `Weather.TableShape` | service.py:22-32 | the table has exactly the nine listed keys and never maps to unknown itself |
| `Weather.GetWeather` | service.py:38-43 | a category is returned exactly on status 200, and it is the table lookup of the description |
| `Sampling.CheckpointIndex` | service.py:48-50 | the i-th checkpoint index lies in [0, n-1], the first is 0 and the last is n-1 |
| `Sampling.CheckpointIndexMonotone` | service.py:48-50 | checkpoint indices never decrease |
| `Sampling.Sample` | service.py:46-51 | exactly k checkpoints, each an element of the step's points, the first and last being the step's first and last points |
| `Sampling.GetCheckpoints` | service.py:46-51 | succeeds exactly for num_points <= 0 (empty result) or num_points >= 2 with at least one point; num_points = 1 is a division by zero; no points is an index error; a success with num_points >= 2 is exactly the evenly spaced sample |
| `Sampling.DefaultCheckpoints` | service.py:61-68 | with three checkpoints, sampling succeeds exactly for a non-empty step, giving the first, middle and last points; an empty step is an index error, so the empty-checkpoint guard is dead |
| `Sampling.ShortStepRepeats` | service.py:48-51 | a two-point step yields its first point twice, then its second |
| `Scoring.EnrichCheckpoints` | service.py:70-81 | one enriched checkpoint per checkpoint, in order, with its coordinates, the shared hour and weekday, and its weather category |
| `Scoring.RowScoreBounds` | service.py:107-127 | a row that is a probability distribution scores between 0.2 and 1 |
| `Scoring.StepScore` | service.py:109-129 | the step score fails with a division by zero exactly when there are no rows |
| `Scoring.StepScoreBounds` | service.py:107-129 | the mean of distribution rows lies in [0.2, 1] |
| `Scoring.ComputeStepScore` | service.py:109-129 | the accumulation loop computes the sum of row scores divided by the row count, or the division-by-zero failure |
| `Scoring.Classify` | service.py:131-134 | a score is reported exactly when above 0.4, high exactly when above 0.6, moderate exactly when in (0.4, 0.6] |
| `Scoring.StepSegmentSpec` | service.py:60-142 | a step fails exactly when it has no points (index error) or no rows (division by zero); otherwise it yields a segment exactly when its score exceeds 0.4, running from the step's first to its last point, carrying its score and the score's description |
| `Scoring.ScoreStep` | service.py:60-142 | the step body computes the step's outcome as specified |
| `Scoring.StepsRisksAppend` | service.py:58-59 | the segments of two runs of steps are those of the first followed by those of the second; the first failure wins |
| `Scoring.RouteRisksByLeg` | service.py:58-59 | a route's segments are its legs' segments concatenated in leg order |
| `Scoring.StepsRisksOk` | service.py:58-129 | a route scores without failure exactly when each step has points and rows |
| `Scoring.StepsRisksReported` | service.py:131-142 | at most one segment per step; every segment scores above 0.4 and is high exactly when above 0.6; with distribution rows every score is at most 1 |
| `Scoring.PredictRouteRisks` | service.py:54-144 | the nested leg/step loop returns the route's segments in leg-then-step order, or the first step's failure |
| `Selection.AvgRiskOfReported` | service.py:156 | for reported segments the average is 0 exactly when there are none, above 0.4 otherwise, and at most 1 when each score is |
| `Selection.AvgRiskExample` | service.py:156 | segments scored 0.5 and 0.7 average to 0.6 |
| `Selection.FirstMinIndex` | service.py:161 | the chosen index holds a least value and every earlier value is strictly greater |
| `Selection.FirstMinIndexExample` | service.py:161 | of averages 0.6, 0.2, 0.2 the second is chosen |
| `Selection.Significant` | service.py:165-174 | the result holds exactly the segments scoring above 0.3 and is no longer than the input |
| `Selection.SignificantAppend` | service.py:165-174 | the filter preserves order |
| `Selection.SignificantKeepsAll` | service.py:165-174 | segments that all score above 0.3 are kept unchanged |
| `Selection.CandidatesSpec` | service.py:153-159 | the candidates are the routes in order, each with its own segments and average, and exist exactly when every route scores |
| `Selection.GetDirectionsWithAvoidance` | service.py:147-177 | the loop over routes, the `min` and the filter compute the specified choice or failure |
| `Selection.DirectionsFails` | service.py:153-161 | the request fails exactly when there are no routes (a value error) or some route fails to score |
| `Selection.DirectionsSelectsSafest` | service.py:153-175 | the chosen route has least average risk, every earlier route is strictly riskier, and the reported segments are its segments above 0.3 |
| `Selection.DirectionsReportsAllSegments` | service.py:131-174 | since every reported segment exceeds 0.4, the 0.3 filter keeps all of the chosen route's segments |
| `Selection.DirectionsPrefersNoRisk` | service.py:156-161 | if some route has no segments, the first such route is chosen and nothing is reported |

## Left out

- Polyline decoding (`googlemaps.convert.decode_polyline`, service.py:60): a library call; a step carries its decoded points.
- The weather HTTP request (service.py:36-37, 39-40): network I/O; the reply's status and description are an input (`Weather.Reply`, and a function from coordinates to replies in `EnrichCheckpoints`).
- The inference query (client, SQL text, `ML.PREDICT`, service.py:56, 83-105): a step carries the probability rows the model returned, so the enriched checkpoints are computed but not consumed by anything in the model.
- The clock (`datetime.now()`, service.py:63-65): the hour and weekday are parameters of `EnrichCheckpoints`.
- Environment and credential loading (service.py:11-20): configuration.
- The directions request (service.py:148-151): network I/O; the alternatives are an input, and a route is represented only by its legs and steps.
- The HTTP wrapper (app.py): outside the scoring core.
- Floating point: scores are exact reals and indices exact integers, so IEEE rounding in the blend, the averages and `int(i * (n - 1) / (num_points - 1))` is not modelled.
- The rebuilding of each segment dictionary in the response (service.py:166-171) copies the same four fields, so the model returns the segments themselves.
- The `len(checkpoints) == 0` guard (service.py:67): unreachable, see `Sampling.DefaultCheckpoints`.
