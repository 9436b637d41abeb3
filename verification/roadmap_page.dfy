/**
 * The founder roadmap (src/pages/RoadmapPage.tsx): each step cycles through three statuses
 * on a tap, and the header shows how many steps are completed as a rounded percentage.
 */
module RoadmapPage {
  import opened Optional
  import opened JsArray

  datatype Status = NotStarted | InProgress | Completed

  datatype RoadmapStep = RoadmapStep(id: string, title: string, description: string, status: Status)

  /** `statusCycle`. */
  const StatusCycle: seq<Status> := [NotStarted, InProgress, Completed]

  /** `statusCycle.indexOf(status)`; every status is in the cycle. */
  function CycleIndex(s: Status): (r: nat)
    ensures r < |StatusCycle| && StatusCycle[r] == s
  {
    match s
    case NotStarted => 0
    case InProgress => 1
    case Completed => 2
  }

  /** `statusCycle[(idx + 1) % 3]`: the status after `s`. */
  function NextStatus(s: Status): (r: Status)
    ensures r != s
  {
    StatusCycle[(CycleIndex(s) + 1) % 3]
  }

  /** The cycle goes not started, in progress, completed, and back to not started. */
  lemma NextStatusOrder()
    ensures NextStatus(NotStarted) == InProgress
    ensures NextStatus(InProgress) == Completed
    ensures NextStatus(Completed) == NotStarted
  {
  }

  /** `cycleStatus(id)`: every step with that id moves to its next status; nothing else changes. */
  function CycleStatus(steps: seq<RoadmapStep>, id: string): (r: seq<RoadmapStep>)
    ensures |r| == |steps|
    ensures forall i :: 0 <= i < |steps| && steps[i].id != id ==> r[i] == steps[i]
    ensures forall i :: 0 <= i < |steps| && steps[i].id == id ==>
      r[i] == steps[i].(status := NextStatus(steps[i].status))
  {
    seq(|steps|, i requires 0 <= i < |steps| =>
      if steps[i].id != id then steps[i] else steps[i].(status := NextStatus(steps[i].status)))
  }

  /** Three taps on the same step bring the whole list back to where it was. */
  lemma CycleThreeTimes(steps: seq<RoadmapStep>, id: string)
    ensures CycleStatus(CycleStatus(CycleStatus(steps, id), id), id) == steps
  {
    var r := CycleStatus(CycleStatus(CycleStatus(steps, id), id), id);
    forall i | 0 <= i < |steps|
      ensures r[i] == steps[i]
    {
      NextStatusOrder();
    }
  }

  predicate IsCompleted(s: RoadmapStep) {
    s.status == Completed
  }

  /** `completed`: how many steps are completed. */
  function CompletedCount(steps: seq<RoadmapStep>): (r: nat)
    ensures r <= |steps|
  {
    |Filter(steps, IsCompleted)|
  }

  /**
   * `Math.round(c / n * 100)` on integers: the percentage `c` is of `n`, rounded to the
   * nearest whole number with halves going up.
   */
  function RoundPercent(c: int, n: int): (p: int)
    requires 0 <= c <= n && 0 < n
    ensures 0 <= p <= 100
    ensures -n <= 200 * c - 2 * n * p < n
  {
    var p := (200 * c + n) / (2 * n);
    RoundPercentBounds(c, n, p);
    p
  }

  lemma RoundPercentBounds(c: int, n: int, p: int)
    requires 0 <= c <= n && 0 < n && p == (200 * c + n) / (2 * n)
    ensures 0 <= p <= 100
    ensures -n <= 200 * c - 2 * n * p < n
  {
    var a, d := 200 * c + n, 2 * n;
    DivBounds(a, d);
    assert 2 * n * p == d * p;
    assert d * p < d * 101;
    assert d * (-1) < d * p;
    ScaleCancels(d, p, 101);
    ScaleCancels(d, -1, p);
  }

  /** Euclidean division: `d * (a / d)` lies in `(a - d, a]`. */
  lemma DivBounds(a: int, d: int)
    requires 0 < d
    ensures a - d < d * (a / d) <= a
  {
  }

  /** Multiplying by a positive number keeps a strict order. */
  lemma ScaleCancels(d: int, x: int, y: int)
    requires 0 < d && d * x < d * y
    ensures x < y
  {
  }

  /**
   * `progress`: `Math.round(completed / steps.length * 100)`. With no steps the division
   * gives NaN, here no value.
   */
  function Progress(steps: seq<RoadmapStep>): (r: Option<int>)
    ensures r.None? <==> steps == []
    ensures r.Some? ==> 0 <= r.value <= 100
    ensures r.Some? ==> r.value == RoundPercent(CompletedCount(steps), |steps|)
  {
    if steps == [] then None else Some(RoundPercent(CompletedCount(steps), |steps|))
  }

  /** Rounding half up is exact at the ends: 100 for all steps, 0 for none. */
  lemma RoundPercentEnds(n: nat)
    requires 0 < n
    ensures RoundPercent(n, n) == 100 && RoundPercent(0, n) == 0
  {
    DivExact(200 * n + n, 2 * n, 100, n);
    DivExact(n, 2 * n, 0, n);
  }

  /** A quotient is pinned down by any remainder below the divisor. */
  lemma DivExact(a: int, d: int, q: int, r: int)
    requires 0 <= r < d && a == d * q + r
    ensures a / d == q
  {
    DivBounds(a, d);
    var k := a / d;
    assert d * (q - 1) < d * k by {
      assert d * (q - 1) == d * q - d;
    }
    assert d * k < d * (q + 1) by {
      assert d * (q + 1) == d * q + d;
    }
    ScaleCancels(d, q - 1, k);
    ScaleCancels(d, k, q + 1);
  }

  /** The two ends of the bar: 100 when every step is completed, 0 when none is. */
  lemma ProgressEnds(steps: seq<RoadmapStep>)
    requires steps != []
    ensures (forall i :: 0 <= i < |steps| ==> IsCompleted(steps[i])) ==> Progress(steps) == Some(100)
    ensures (forall i :: 0 <= i < |steps| ==> !IsCompleted(steps[i])) ==> Progress(steps) == Some(0)
  {
    RoundPercentEnds(|steps|);
    if forall i :: 0 <= i < |steps| ==> IsCompleted(steps[i]) {
      FilterKeepsAll(steps, IsCompleted);
    }
    if forall i :: 0 <= i < |steps| ==> !IsCompleted(steps[i]) {
      FilterKeepsNone(steps, IsCompleted);
    }
  }
}
