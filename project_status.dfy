/** The project timeline (`components/ProjectStatus.tsx`): for each phase, the
    points it concerns, how many are in each status, the share completed and
    the phase's own status. Progress is an exact percentage. */
module ProjectStatus {
  import opened Types
  import opened Collections

  /** The points a phase concerns: every point when the phase lists no types
      (the final-tests phase), otherwise those of a listed type, in order. */
  function RelevantPoints(phase: ProjectPhase, points: seq<ProjectPoint>): (r: seq<ProjectPoint>)
    ensures |phase.relevantPointTypes| == 0 ==> r == points
    ensures |phase.relevantPointTypes| > 0 ==>
      (forall i :: 0 <= i < |r| ==> r[i] in points && r[i].pointType in phase.relevantPointTypes)
      && (forall i :: 0 <= i < |points| && points[i].pointType in phase.relevantPointTypes ==> points[i] in r)
    ensures |phase.relevantPointTypes| > 0 ==>
      && Subsequence(r, points)
      && forall p :: multiset(r)[p] == if p.pointType in phase.relevantPointTypes then multiset(points)[p] else 0
  {
    if |phase.relevantPointTypes| > 0 then
      var keep := (p: ProjectPoint) => p.pointType in phase.relevantPointTypes;
      FilterSelects(points, keep);
      Filter(points, keep)
    else points
  }

  /** How many of the points have status `s`. */
  function CountStatus(points: seq<ProjectPoint>, s: PointStatus): (n: nat)
    ensures n <= |points|
  {
    if |points| == 0 then 0
    else CountStatus(points[..|points| - 1], s) + (if points[|points| - 1].status == s then 1 else 0)
  }

  /** Every point has status `s` exactly when all of them are counted. */
  lemma {:induction false} CountStatusAll(points: seq<ProjectPoint>, s: PointStatus)
    ensures CountStatus(points, s) == |points| <==> forall i :: 0 <= i < |points| ==> points[i].status == s
  {
    if |points| > 0 {
      var init := points[..|points| - 1];
      CountStatusAll(init, s);
      if forall i :: 0 <= i < |points| ==> points[i].status == s {
        assert forall i :: 0 <= i < |init| ==> init[i].status == s by {
          forall i | 0 <= i < |init| ensures init[i].status == s { assert init[i] == points[i]; }
        }
      } else if CountStatus(points, s) == |points| {
        forall i | 0 <= i < |points| ensures points[i].status == s {
          if i < |init| { assert points[i] == init[i]; }
        }
      }
    }
  }

  /** Some point has status `s` exactly when the count is positive. */
  lemma {:induction false} CountStatusSome(points: seq<ProjectPoint>, s: PointStatus)
    ensures CountStatus(points, s) > 0 <==> exists i :: 0 <= i < |points| && points[i].status == s
  {
    if |points| > 0 {
      var init := points[..|points| - 1];
      CountStatusSome(init, s);
      if CountStatus(init, s) > 0 {
        var i :| 0 <= i < |init| && init[i].status == s;
        assert points[i] == init[i];
      }
      if exists i :: 0 <= i < |points| && points[i].status == s {
        var i :| 0 <= i < |points| && points[i].status == s;
        if i < |init| { assert init[i] == points[i]; }
      }
    }
  }

  /** The four counts together cover every point once. */
  lemma {:induction false} CountsCoverAll(points: seq<ProjectPoint>)
    ensures CountStatus(points, Completed) + CountStatus(points, InProgress)
      + CountStatus(points, Pending) + CountStatus(points, Alert) == |points|
  {
    if |points| > 0 {
      CountsCoverAll(points[..|points| - 1]);
    }
  }

  /** The `stats` record of one phase. */
  datatype StatusCounts = StatusCounts(completed: nat, inProgress: nat, pending: nat, alert: nat)

  /** The counts of each status among the points. */
  function Counts(points: seq<ProjectPoint>): StatusCounts
  {
    StatusCounts(CountStatus(points, Completed), CountStatus(points, InProgress),
                 CountStatus(points, Pending), CountStatus(points, Alert))
  }

  /** The `forEach` that bumps one counter per point. */
  method TallyStatuses(points: seq<ProjectPoint>) returns (stats: StatusCounts)
    ensures stats == Counts(points)
    ensures stats.completed + stats.inProgress + stats.pending + stats.alert == |points|
  {
    stats := StatusCounts(0, 0, 0, 0);
    var k := 0;
    while k < |points|
      invariant k <= |points|
      invariant stats == Counts(points[..k])
    {
      var p := points[k];
      assert points[..k + 1][..k] == points[..k];
      match p.status {
        case Completed => stats := stats.(completed := stats.completed + 1);
        case InProgress => stats := stats.(inProgress := stats.inProgress + 1);
        case Pending => stats := stats.(pending := stats.pending + 1);
        case Alert => stats := stats.(alert := stats.alert + 1);
      }
      k := k + 1;
    }
    assert points[..k] == points;
    CountsCoverAll(points);
  }

  /** `pct` is `completed / total * 100` whenever there is a total. */
  predicate IsPercentage(pct: real, completed: nat, total: nat)
  {
    total > 0 ==> pct * (total as real) == 100.0 * (completed as real)
  }

  /** The completed share in percent; 0 for an empty phase. */
  function Progress(completed: nat, total: nat): (pct: real)
    requires completed <= total
    ensures IsPercentage(pct, completed, total)
    ensures 0.0 <= pct <= 100.0
    ensures pct == 100.0 <==> total > 0 && completed == total
    ensures total == 0 ==> pct == 0.0
  {
    if total > 0 then
      var q := completed as real / total as real;
      assert q * total as real == completed as real;
      assert q <= 1.0 && (q == 1.0 <==> completed == total);
      assert (q * 100.0) * (total as real) == 100.0 * (q * total as real);
      q * 100.0
    else 0.0
  }

  datatype PhaseState = PhasePending | PhaseInProgress | PhaseCompleted

  /** One entry of `phaseStats`. */
  datatype PhaseStat = PhaseStat(name: string, progress: real, totalPoints: nat, stats: StatusCounts, status: PhaseState)

  /** Some point has been started or finished. */
  predicate HasActivity(points: seq<ProjectPoint>)
  {
    exists i :: 0 <= i < |points| && (points[i].status == InProgress || points[i].status == Completed)
  }

  /** The record for one phase: completed at 100% of a non-empty phase,
      otherwise in progress when some relevant point is started or finished,
      otherwise pending. */
  function PhaseStatOf(phase: ProjectPhase, points: seq<ProjectPoint>): (r: PhaseStat)
    ensures r.name == phase.name && r.totalPoints == |RelevantPoints(phase, points)|
    ensures r.stats == Counts(RelevantPoints(phase, points))
    ensures 0.0 <= r.progress <= 100.0
    ensures IsPercentage(r.progress, r.stats.completed, r.totalPoints)
  {
    var relevant := RelevantPoints(phase, points);
    var total := |relevant|;
    var stats := Counts(relevant);
    var progress := Progress(stats.completed, total);
    var status :=
      if progress == 100.0 && total > 0 then PhaseCompleted
      else if HasActivity(relevant) then PhaseInProgress
      else PhasePending;
    PhaseStat(phase.name, progress, total, stats, status)
  }

  /** The counts of a phase add up to its number of points. */
  lemma PhaseCountsSum(phase: ProjectPhase, points: seq<ProjectPoint>)
    ensures var r := PhaseStatOf(phase, points);
      r.stats.completed + r.stats.inProgress + r.stats.pending + r.stats.alert == r.totalPoints
  {
    CountsCoverAll(RelevantPoints(phase, points));
  }

  /** A phase is completed exactly when it has points and all are completed;
      its progress is then 100. */
  lemma PhaseCompletedIff(phase: ProjectPhase, points: seq<ProjectPoint>)
    ensures var rel := RelevantPoints(phase, points);
      PhaseStatOf(phase, points).status == PhaseCompleted
      <==> |rel| > 0 && forall i :: 0 <= i < |rel| ==> rel[i].status == Completed
    ensures PhaseStatOf(phase, points).status == PhaseCompleted ==> PhaseStatOf(phase, points).progress == 100.0
  {
    CountStatusAll(RelevantPoints(phase, points), Completed);
  }

  /** A phase that is not completed is in progress exactly when one of its
      points is started or finished, that is, when its in-progress and
      completed counts are not both zero; it is pending otherwise. */
  lemma PhaseInProgressIff(phase: ProjectPhase, points: seq<ProjectPoint>)
    ensures var r := PhaseStatOf(phase, points);
      r.status != PhaseCompleted ==> (r.status == PhaseInProgress <==> HasActivity(RelevantPoints(phase, points)))
    ensures var r := PhaseStatOf(phase, points);
      r.status != PhaseCompleted ==> (r.status == PhaseInProgress <==> r.stats.inProgress + r.stats.completed > 0)
    ensures var r := PhaseStatOf(phase, points);
      r.status != PhaseCompleted ==> (r.status == PhasePending <==> r.stats.inProgress == 0 && r.stats.completed == 0)
  {
    var rel := RelevantPoints(phase, points);
    CountStatusSome(rel, InProgress);
    CountStatusSome(rel, Completed);
  }

  /** A phase without points shows 0% and is pending. */
  lemma EmptyPhasePending(phase: ProjectPhase, points: seq<ProjectPoint>)
    requires |RelevantPoints(phase, points)| == 0
    ensures PhaseStatOf(phase, points).progress == 0.0 && PhaseStatOf(phase, points).status == PhasePending
  {
  }

  /** One point in Alert keeps its phase from completing. */
  lemma AlertBlocksCompletion(phase: ProjectPhase, points: seq<ProjectPoint>, i: nat)
    requires i < |RelevantPoints(phase, points)| && RelevantPoints(phase, points)[i].status == Alert
    ensures PhaseStatOf(phase, points).status != PhaseCompleted
  {
    PhaseCompletedIff(phase, points);
  }

  /** The per-phase body of the `useMemo`, with the counting loop. */
  method ComputePhaseStat(phase: ProjectPhase, points: seq<ProjectPoint>) returns (r: PhaseStat)
    ensures r == PhaseStatOf(phase, points)
  {
    var relevant := RelevantPoints(phase, points);
    var total := |relevant|;
    var stats := TallyStatuses(relevant);
    var progress := Progress(stats.completed, total);
    var status := PhasePending;
    if progress == 100.0 && total > 0 {
      status := PhaseCompleted;
    } else if HasActivity(relevant) {
      status := PhaseInProgress;
    }
    r := PhaseStat(phase.name, progress, total, stats, status);
  }

  /** Appending the record of the next phase extends a correct prefix. */
  lemma PhaseStatsStep(phases: seq<ProjectPhase>, points: seq<ProjectPoint>, out: seq<PhaseStat>, r: PhaseStat)
    requires |out| < |phases| && r == PhaseStatOf(phases[|out|], points)
    requires forall i :: 0 <= i < |out| ==> out[i] == PhaseStatOf(phases[i], points)
    ensures forall i :: 0 <= i < |out| + 1 ==> (out + [r])[i] == PhaseStatOf(phases[i], points)
  {
  }

  /** `phaseStats`: one record per phase, in phase order. */
  method PhaseStats(phases: seq<ProjectPhase>, points: seq<ProjectPoint>) returns (out: seq<PhaseStat>)
    ensures |out| == |phases|
    ensures forall i :: 0 <= i < |phases| ==> out[i] == PhaseStatOf(phases[i], points)
    ensures forall i :: 0 <= i < |phases| ==> out[i].name == phases[i].name
  {
    out := [];
    var k := 0;
    while k < |phases|
      invariant k <= |phases| && |out| == k
      invariant forall i :: 0 <= i < k ==> out[i] == PhaseStatOf(phases[i], points)
    {
      var r := ComputePhaseStat(phases[k], points);
      PhaseStatsStep(phases, points, out, r);
      out := out + [r];
      k := k + 1;
    }
  }
}
