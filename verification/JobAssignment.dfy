/**
 Assigning a job to an agent worker (pkg/service/agentservice.go): workers are picked at random, weighted by the
 capacity they have left, until one takes the job. Loads are exact numbers here.
 */
module JobAssignment {
  import opened Common
  import opened AgentRegistry

  /** How a worker looks at one moment. */
  datatype Condition = Condition(available: bool, load: real)

  function Capacity(c: Condition): real {
    if 1.0 - c.load > 0.0 then 1.0 - c.load else 0.0
  }

  /** A worker that is available and was not tried yet. */
  predicate Candidate(conditions: Worker -> Condition, ignore: set<Worker>, w: Worker) {
    w !in ignore && conditions(w).available
  }

  /** The capacity of the candidates in a list, which counts a worker as often as it is listed. */
  function Total(conditions: Worker -> Condition, ignore: set<Worker>, workers: seq<Worker>): (sum: real)
    ensures sum >= 0.0
  {
    if workers == [] then 0.0
    else
      var w := workers[|workers| - 1];
      Total(conditions, ignore, workers[..|workers| - 1]) +
      if Candidate(conditions, ignore, w) then Capacity(conditions(w)) else 0.0
  }

  /** There is no capacity only if every candidate is full. */
  lemma {:induction false} NoCapacityIff(conditions: Worker -> Condition, ignore: set<Worker>, workers: seq<Worker>)
    ensures Total(conditions, ignore, workers) == 0.0 <==>
            forall w <- workers | Candidate(conditions, ignore, w) :: conditions(w).load >= 1.0
    decreases |workers|
  {
    if workers != [] {
      assert workers == workers[..|workers| - 1] + [workers[|workers| - 1]];
      NoCapacityIff(conditions, ignore, workers[..|workers| - 1]);
    }
  }

  /** The capacities of the workers looked at, in order. */
  function Share(conditions: Worker -> Condition, order: seq<Worker>): (share: real)
    ensures share >= 0.0
  {
    if order == [] then 0.0
    else Share(conditions, order[..|order| - 1]) + Capacity(conditions(order[|order| - 1]))
  }

  /** The walk: the first worker at which the capacities passed so far reach the point, if there is one. */
  function Walk(conditions: Worker -> Condition, order: seq<Worker>, point: real): Option<Worker> {
    if order == [] then None
    else
      var before := Walk(conditions, order[..|order| - 1], point);
      if before.Some? then before
      else if point <= Share(conditions, order) then Some(order[|order| - 1])
      else None
  }

  /** The candidates of a list, each once: an order in which a map of them may be walked. */
  ghost predicate IsOrder(
    conditions: Worker -> Condition, ignore: set<Worker>, workers: seq<Worker>, order: seq<Worker>)
  {
    Distinct(order) && forall w :: w in order <==> w in workers && Candidate(conditions, ignore, w)
  }

  // ---------- what the walk picks ----------

  lemma WalkOneMore(conditions: Worker -> Condition, order: seq<Worker>, w: Worker, point: real)
    ensures Share(conditions, order + [w]) == Share(conditions, order) + Capacity(conditions(w))
    ensures Share(conditions, order + [w]) - Share(conditions, order) ==
            if conditions(w).load < 1.0 then 1.0 - conditions(w).load else 0.0
    ensures Walk(conditions, order + [w], point) ==
            if Walk(conditions, order, point).Some? then Walk(conditions, order, point)
            else if point <= Share(conditions, order + [w]) then Some(w)
            else None
  {
    assert (order + [w])[..|order|] == order;
  }

  lemma {:induction false} WalkStaysAtPick(
    conditions: Worker -> Condition, order: seq<Worker>, more: seq<Worker>, point: real)
    requires Walk(conditions, order, point).Some?
    ensures Walk(conditions, order + more, point) == Walk(conditions, order, point)
    decreases |more|
  {
    if more == [] {
      assert order + more == order;
    } else {
      WalkStaysAtPick(conditions, order, more[..|more| - 1], point);
      assert (order + more)[..|order + more| - 1] == order + more[..|more| - 1];
    }
  }

  /** The walk passes everyone exactly when the point lies beyond the whole share. */
  lemma {:induction false} PassesAllIff(conditions: Worker -> Condition, order: seq<Worker>, point: real)
    ensures Walk(conditions, order, point).None? <==> order == [] || Share(conditions, order) < point
    decreases |order|
  {
    if order != [] { PassesAllIff(conditions, order[..|order| - 1], point); }
  }

  /**
   The worker picked is the one whose own stretch the point falls in, right after the stretches of those before it: that
   of a worker with load to spare is as long as what it can spare, that of a full one is empty, but for zero.
   */
  lemma {:induction false} PickedIffInOwnStretch(
    conditions: Worker -> Condition, order: seq<Worker>, k: nat, point: real)
    requires k < |order| && Distinct(order)
    ensures Walk(conditions, order, point) == Some(order[k]) <==>
              && (if conditions(order[k]).load < 1.0
                  then point <= Share(conditions, order[..k]) + (1.0 - conditions(order[k]).load)
                  else point <= Share(conditions, order[..k]))
              && (k > 0 ==> Share(conditions, order[..k]) < point)
  {
    var upTo := order[..k] + [order[k]];
    WalkOneMore(conditions, order[..k], order[k], point);
    PassesAllIff(conditions, order[..k], point);
    assert order == upTo + order[k + 1..];
    if Walk(conditions, upTo, point).Some? {
      WalkStaysAtPick(conditions, upTo, order[k + 1..], point);
      if k > 0 { PickedIsLookedAt(conditions, order[..k], point); }
    } else {
      PassesAllIff(conditions, upTo, point);
      PickedComesLater(conditions, upTo, order[k + 1..], point);
    }
  }

  lemma {:induction false} PickedIsLookedAt(conditions: Worker -> Condition, order: seq<Worker>, point: real)
    ensures Walk(conditions, order, point).Some? ==> Walk(conditions, order, point).value in order
    decreases |order|
  {
    if order != [] { PickedIsLookedAt(conditions, order[..|order| - 1], point); }
  }

  lemma {:induction false} PickedComesLater(
    conditions: Worker -> Condition, order: seq<Worker>, more: seq<Worker>, point: real)
    requires Walk(conditions, order, point).None?
    ensures Walk(conditions, order + more, point).Some? ==> Walk(conditions, order + more, point).value in more
    decreases |more|
  {
    if more == [] {
      assert order + more == order;
    } else {
      PickedComesLater(conditions, order, more[..|more| - 1], point);
      assert (order + more)[..|order + more| - 1] == order + more[..|more| - 1];
    }
  }

  /** Only the point at zero can fall on a full worker. */
  lemma {:induction false} PickedHasCapacity(conditions: Worker -> Condition, order: seq<Worker>, point: real)
    requires Walk(conditions, order, point).Some? && point > 0.0
    ensures conditions(Walk(conditions, order, point).value).load < 1.0
    decreases |order|
  {
    var init := order[..|order| - 1];
    if Walk(conditions, init, point).Some? {
      PickedHasCapacity(conditions, init, point);
    } else {
      PassesAllIff(conditions, init, point);
    }
  }

  /** And there it falls on the first worker looked at, so the pick has capacity exactly if that one has. */
  lemma {:induction false} ZeroPicksTheFirst(conditions: Worker -> Condition, order: seq<Worker>)
    requires order != []
    ensures Walk(conditions, order, 0.0) == Some(order[0])
    decreases |order|
  {
    if |order| > 1 { ZeroPicksTheFirst(conditions, order[..|order| - 1]); }
  }

  /** An available worker without capacity is what zero picks if the map yields it first, though another has some. */
  lemma ZeroMayPickAFullWorker(full: Worker, idle: Worker, conditions: Worker -> Condition) returns (order: seq<Worker>)
    requires full != idle && conditions(full) == Condition(true, 1.0) && conditions(idle) == Condition(true, 0.0)
    ensures IsOrder(conditions, {}, [idle, full], order) && Total(conditions, {}, [idle, full]) > 0.0
    ensures Walk(conditions, order, Point(0.0, Total(conditions, {}, [idle, full]))) == Some(full)
  {
    order := [full, idle];
    ZeroPicksTheFirst(conditions, order);
    assert [idle, full][..1] == [idle];
    assert Total(conditions, {}, [idle]) == 1.0;
  }

  // ---------- when the walk passes everyone ----------

  /** A worker that takes part is listed twice, with capacity to spare. */
  ghost predicate CountedTwice(conditions: Worker -> Condition, ignore: set<Worker>, workers: seq<Worker>, w: Worker) {
    Candidate(conditions, ignore, w) && conditions(w).load < 1.0 && multiset(workers)[w] > 1
  }

  /** Taking a worker out of the sum takes out its capacity once for each time it is listed. */
  lemma {:induction false} TakenOut(
    conditions: Worker -> Condition, ignore: set<Worker>, workers: seq<Worker>, w: Worker)
    requires Candidate(conditions, ignore, w)
    ensures var taken := Total(conditions, ignore, workers) - Total(conditions, ignore + {w}, workers);
            var c := Capacity(conditions(w));
            && (w !in workers ==> taken == 0.0)
            && (w in workers ==> taken >= c)
            && (w in workers ==> (taken == c <==> c == 0.0 || multiset(workers)[w] == 1))
    decreases |workers|
  {
    if workers != [] {
      var init, last := workers[..|workers| - 1], workers[|workers| - 1];
      assert workers == init + [last];
      TakenOut(conditions, ignore, init, w);
      assert w in init <==> multiset(init)[w] > 0;
    }
  }

  /** The sum counts every candidate at least once, and exactly once unless one with capacity is listed twice. */
  lemma {:induction false} TotalAgainstShare(
    conditions: Worker -> Condition, ignore: set<Worker>, workers: seq<Worker>, order: seq<Worker>)
    requires Distinct(order) && forall w <- order :: w in workers && Candidate(conditions, ignore, w)
    ensures var left := Total(conditions, ignore + Elements(order), workers);
            && Total(conditions, ignore, workers) >= Share(conditions, order) + left
            && (Total(conditions, ignore, workers) == Share(conditions, order) + left <==>
                forall w <- order :: !CountedTwice(conditions, ignore, workers, w))
    decreases |order|
  {
    if order == [] {
      assert ignore + Elements(order) == ignore;
    } else {
      var init, w := order[..|order| - 1], order[|order| - 1];
      TotalAgainstShare(conditions, ignore, workers, init);
      assert order == init + [w] && w in order && w !in init;
      TakenOut(conditions, ignore + Elements(init), workers, w);
      assert ignore + Elements(order) == ignore + Elements(init) + {w};
      assert multiset(workers)[w] >= 1;
    }
  }

  lemma ShareIsTotalIff(
    conditions: Worker -> Condition, ignore: set<Worker>, workers: seq<Worker>, order: seq<Worker>)
    requires IsOrder(conditions, ignore, workers, order)
    ensures Share(conditions, order) <= Total(conditions, ignore, workers)
    ensures Share(conditions, order) == Total(conditions, ignore, workers) <==>
              forall w :: !CountedTwice(conditions, ignore, workers, w)
  {
    TotalAgainstShare(conditions, ignore, workers, order);
    NoCapacityIff(conditions, ignore + Elements(order), workers);
    forall w | CountedTwice(conditions, ignore, workers, w) ensures w in order { assert w in workers; }
  }

  /**
   The fallback after the walk, the first worker listed whatever it is, is reached for some random number if and only if
   an untried, available worker with capacity is listed twice.
   */
  lemma FallbackReachableIff(
    conditions: Worker -> Condition, ignore: set<Worker>, workers: seq<Worker>, order: seq<Worker>)
    requires IsOrder(conditions, ignore, workers, order) && Total(conditions, ignore, workers) > 0.0
    ensures (exists random: real ::
               0.0 <= random < 1.0 &&
               Walk(conditions, order, Point(random, Total(conditions, ignore, workers))).None?) <==>
            exists w :: CountedTwice(conditions, ignore, workers, w)
  {
    var total, share := Total(conditions, ignore, workers), Share(conditions, order);
    ShareIsTotalIff(conditions, ignore, workers, order);
    OrderIsNotEmpty(conditions, ignore, workers, order);
    forall random: real | 0.0 <= random < 1.0
      ensures Walk(conditions, order, Point(random, total)).None? ==> share < total
    {
      PassesAllIff(conditions, order, Point(random, total));
    }
    if share < total {
      var random := PointBetween(share, total);
      PassesAllIff(conditions, order, Point(random, total));
    }
  }

  lemma OrderIsNotEmpty(
    conditions: Worker -> Condition, ignore: set<Worker>, workers: seq<Worker>, order: seq<Worker>)
    requires IsOrder(conditions, ignore, workers, order) && Total(conditions, ignore, workers) > 0.0
    ensures order != []
  {
    NoCapacityIff(conditions, ignore, workers);
  }

  lemma PointBetween(share: real, total: real) returns (random: real)
    requires 0.0 <= share < total
    ensures 0.0 <= random < 1.0 && Point(random, total) > share
  {
    random := (share + total) / (2.0 * total);
    assert random * (2.0 * total) == share + total;
    assert random >= 1.0 ==> random * (2.0 * total) >= 2.0 * total;
    assert random * total == (share + total) / 2.0;
  }

  lemma PointIsInside(random: real, sum: real)
    requires 0.0 <= random < 1.0 && sum > 0.0
    ensures 0.0 <= random * sum < sum && (random > 0.0 ==> random * sum > 0.0)
  {
    assert (1.0 - random) * sum > 0.0;
  }

  /** The random point in the whole capacity. */
  function Point(random: real, sum: real): (point: real)
    requires 0.0 <= random < 1.0
    ensures sum > 0.0 ==> 0.0 <= point < sum && (random > 0.0 ==> point > 0.0)
  {
    if sum > 0.0 then PointIsInside(random, sum); random * sum else random * sum
  }

  /** What all workers together can spare. */
  function Spare(conditions: Worker -> Condition, order: seq<Worker>): real {
    if order == [] then 0.0
    else
      var load := conditions(order[|order| - 1]).load;
      Spare(conditions, order[..|order| - 1]) + if load < 1.0 then 1.0 - load else 0.0
  }

  lemma {:induction false} ShareIsSpare(conditions: Worker -> Condition, order: seq<Worker>)
    ensures Share(conditions, order) == Spare(conditions, order)
    decreases |order|
  {
    if order != [] { ShareIsSpare(conditions, order[..|order| - 1]); }
  }

  lemma DistinctTotal(
    conditions: Worker -> Condition, ignore: set<Worker>, workers: seq<Worker>, order: seq<Worker>)
    requires Distinct(workers) && IsOrder(conditions, ignore, workers, order)
    ensures Total(conditions, ignore, workers) == Share(conditions, order) == Spare(conditions, order)
  {
    forall w ensures !CountedTwice(conditions, ignore, workers, w) { DistinctCountsOnce(workers, w); }
    ShareIsTotalIff(conditions, ignore, workers, order);
    ShareIsSpare(conditions, order);
  }

  /**
   Weighted by load: of distinct workers each is picked for the points, out of what all can spare, that fall within its
   own 1 - load, right after what those before it can spare;
   */
  lemma PickedInProportion(
    conditions: Worker -> Condition, ignore: set<Worker>, workers: seq<Worker>, order: seq<Worker>, k: nat, point: real)
    requires Distinct(workers) && IsOrder(conditions, ignore, workers, order) && k < |order| && point > 0.0
    ensures Total(conditions, ignore, workers) == Spare(conditions, order)
    ensures Walk(conditions, order, point) == Some(order[k]) <==>
            Spare(conditions, order[..k]) < point <= Spare(conditions, order[..k + 1])
  {
    DistinctTotal(conditions, ignore, workers, order);
    ShareIsSpare(conditions, order[..k]);
    PickedIffInOwnStretch(conditions, order, k, point);
    assert order[..k + 1][..k] == order[..k];
  }

  /** and the random numbers that fall within a stretch are in proportion to it. */
  lemma PointFallsInIff(random: real, sum: real, from: real, to: real)
    requires 0.0 <= random < 1.0 && sum > 0.0
    ensures from < Point(random, sum) <= to <==> from / sum < random <= to / sum
  {
    Unscaled(from, sum);
    Unscaled(to, sum);
    OrderScales(from / sum, random, sum);
    OrderScales(to / sum, random, sum);
  }

  lemma Unscaled(x: real, sum: real)
    requires sum > 0.0
    ensures x / sum * sum == x
  {
  }

  lemma OrderScales(a: real, b: real, sum: real)
    requires sum > 0.0
    ensures a < b <==> a * sum < b * sum
  {
    assert a * sum - b * sum == (a - b) * sum;
  }

  /** The loads that are chosen from. */
  method NormalizeLoads(conditions: Worker -> Condition, workers: seq<Worker>, ignore: set<Worker>)
    returns (normalizedLoads: map<Worker, real>, availableSum: real)
    ensures forall w :: w in normalizedLoads <==> w in workers && Candidate(conditions, ignore, w)
    ensures forall w <- normalizedLoads :: normalizedLoads[w] == Capacity(conditions(w))
    ensures availableSum == Total(conditions, ignore, workers)
  {
    normalizedLoads, availableSum := map[], 0.0;
    for i := 0 to |workers|
      invariant forall w :: w in normalizedLoads <==> w in workers[..i] && Candidate(conditions, ignore, w)
      invariant forall w <- normalizedLoads :: normalizedLoads[w] == Capacity(conditions(w))
      invariant availableSum == Total(conditions, ignore, workers[..i])
    {
      var w := workers[i];
      assert workers[..i + 1] == workers[..i] + [w];
      if w !in ignore && conditions(w).available {
        normalizedLoads := normalizedLoads[w := Capacity(conditions(w))];
        availableSum := availableSum + normalizedLoads[w];
      }
    }
    assert workers[..|workers|] == workers;
  }

  /** Any order for the workers not looked at. */
  lemma {:induction false} Rest(left: set<Worker>) returns (rest: seq<Worker>)
    ensures Distinct(rest) && Elements(rest) == left
    decreases left
  {
    if left == {} {
      rest := [];
    } else {
      var w :| w in left;
      rest := Rest(left - {w});
      rest := rest + [w];
      assert Elements(rest) == (left - {w}) + {w};
    }
  }

  lemma OrderCompleted(seen: seq<Worker>, rest: seq<Worker>, all: set<Worker>)
    requires Distinct(seen) && Distinct(rest) && Elements(rest) == all - Elements(seen) && Elements(seen) <= all
    ensures Distinct(seen + rest) && Elements(seen + rest) == all
  {
    forall i, k | 0 <= i < k < |seen + rest| ensures (seen + rest)[i] != (seen + rest)[k] {
      if i < |seen| <= k { assert seen[i] in Elements(seen) && rest[k - |seen|] in Elements(rest); }
    }
    forall w ensures w in Elements(seen + rest) <==> w in all {
      assert w in seen + rest <==> w in Elements(seen) || w in Elements(rest);
    }
  }

  /** The walk over the loads, which a map yields in any order. */
  method WalkLoads(conditions: Worker -> Condition, normalizedLoads: map<Worker, real>, point: real)
    returns (picked: Option<Worker>, ghost order: seq<Worker>)
    requires forall w <- normalizedLoads :: normalizedLoads[w] == Capacity(conditions(w))
    ensures Distinct(order) && Elements(order) == normalizedLoads.Keys
    ensures picked == Walk(conditions, order, point)
    ensures picked.Some? ==>
              picked.value in normalizedLoads && (point > 0.0 ==> normalizedLoads[picked.value] > 0.0)
  {
    order := [];
    var currentSum := point;
    var left := normalizedLoads.Keys;
    while left != {}
      invariant Distinct(order) && Elements(order) <= normalizedLoads.Keys
      invariant left == normalizedLoads.Keys - Elements(order)
      invariant currentSum == point - Share(conditions, order) && Walk(conditions, order, point).None?
      decreases left
    {
      var w :| w in left;
      WalkOneMore(conditions, order, w, point);
      assert w !in order;
      left := left - {w};
      order := order + [w];
      currentSum := currentSum - normalizedLoads[w];
      if currentSum <= 0.0 {
        ghost var rest := Rest(left);
        WalkStaysAtPick(conditions, order, rest, point);
        OrderCompleted(order, rest, normalizedLoads.Keys);
        if point > 0.0 { PickedHasCapacity(conditions, order, point); }
        return Some(w), order + rest;
      }
    }
    assert forall w <- normalizedLoads.Keys :: w in left + Elements(order);
    return None, order;
  }

  method SelectWorkerWeightedByLoad(
    conditions: Worker -> Condition, listed: Option<seq<Worker>>, ignore: set<Worker>, random: real)
    returns (picked: Option<Worker>, ghost order: seq<Worker>)
    requires listed.Some? ==> listed.value != []
    requires 0.0 <= random < 1.0
    ensures picked.None? <==>
              || listed.None?
              || forall w <- listed.value | Candidate(conditions, ignore, w) :: conditions(w).load >= 1.0
    ensures picked.Some? ==>
              picked.value in listed.value && IsOrder(conditions, ignore, listed.value, order)
    ensures picked.Some? ==>
              var point := Point(random, Total(conditions, ignore, listed.value));
              var walked := Walk(conditions, order, point);
              picked == if walked.Some? then walked else Some(listed.value[0])
    ensures picked.Some? && Distinct(listed.value) ==>
              && Candidate(conditions, ignore, picked.value)
              && (random > 0.0 ==> conditions(picked.value).load < 1.0)
  {
    order := [];
    if listed.None? {
      return None, [];
    }
    var workers := listed.value;
    var normalizedLoads, availableSum := NormalizeLoads(conditions, workers, ignore);
    NoCapacityIff(conditions, ignore, workers);
    if availableSum == 0.0 {
      return None, [];
    }
    var point := Point(random, availableSum);
    var w;
    w, order := WalkLoads(conditions, normalizedLoads, point);
    forall k ensures k in order <==> k in workers && Candidate(conditions, ignore, k) {
      assert k in order <==> k in Elements(order);
    }
    PickedIsLookedAt(conditions, order, point);
    if Distinct(workers) { DistinctIsPicked(conditions, ignore, workers, order, point); }
    return Some(if w.Some? then w.value else workers[0]), order;
  }

  /** Of distinct workers the walk picks one, available and untried, with capacity unless the point is zero. */
  lemma DistinctIsPicked(
    conditions: Worker -> Condition, ignore: set<Worker>, workers: seq<Worker>, order: seq<Worker>, point: real)
    requires Distinct(workers) && IsOrder(conditions, ignore, workers, order)
    requires 0.0 <= point < Total(conditions, ignore, workers)
    ensures var picked := Walk(conditions, order, point);
            && picked.Some? && picked.value in workers && Candidate(conditions, ignore, picked.value)
            && (point > 0.0 ==> conditions(picked.value).load < 1.0)
  {
    DistinctTotal(conditions, ignore, workers, order);
    OrderIsNotEmpty(conditions, ignore, workers, order);
    PassesAllIff(conditions, order, point);
    PickedIsLookedAt(conditions, order, point);
    if point > 0.0 { PickedHasCapacity(conditions, order, point); }
  }

  lemma {:induction false} DistinctCountsOnce(workers: seq<Worker>, w: Worker)
    requires Distinct(workers)
    ensures multiset(workers)[w] <= 1
    decreases |workers|
  {
    if workers != [] {
      var init := workers[..|workers| - 1];
      assert workers == init + [workers[|workers| - 1]];
      DistinctCountsOnce(init, w);
      assert multiset(init)[w] > 0 ==> w in init;
    }
  }

  // ---------- until a worker takes the job ----------

  datatype Outcome = Running | Succeeded | Refused(retry: bool)

  /** What the world answers at one attempt. */
  datatype Moment = Moment(conditions: Worker -> Condition, random: real, outcome: Worker -> Outcome)

  datatype Response = Assigned(w: Worker) | Failed(w: Worker) | NoWorkers

  /** The workers tried before the last all asked to try another. */
  ghost predicate Retried(moments: nat -> Moment, tried: seq<Worker>) {
    forall i :: 0 <= i < |tried| ==> moments(i).outcome(tried[i]) == Refused(true)
  }

  ghost predicate TriedProperly(moments: nat -> Moment, workers: seq<Worker>, tried: seq<Worker>) {
    Distinct(tried) && forall i :: 0 <= i < |tried| ==> tried[i] in workers && moments(i).conditions(tried[i]).available
  }

  lemma DistinctIsNoLonger(tried: seq<Worker>, workers: seq<Worker>)
    requires Distinct(tried) && forall w <- tried :: w in workers
    ensures |tried| == |Elements(tried)| && |tried| <= |Elements(workers)| <= |workers|
  {
    ElementsSize(tried);
    ElementsSize(workers);
    SubsetSize(Elements(tried), Elements(workers));
  }

  lemma TryOneMore(moments: nat -> Moment, workers: seq<Worker>, tried: seq<Worker>, w: Worker)
    requires TriedProperly(moments, workers, tried) && w in workers && w !in tried
    requires moments(|tried|).conditions(w).available
    ensures TriedProperly(moments, workers, tried + [w]) && |tried| < |workers|
    ensures Elements(tried + [w]) == Elements(tried) + {w}
  {
    DistinctIsNoLonger(tried + [w], workers);
  }

  /** Everyone not tried is unavailable or full at this moment. */
  ghost predicate NoOneLeft(m: Moment, workers: seq<Worker>, tried: seq<Worker>) {
    forall w <- workers | w !in tried && m.conditions(w).available :: m.conditions(w).load >= 1.0
  }

  /** With the workers of the key fixed, but not their conditions: each is tried at most once, and the search ends. */
  method JobRequest(listed: Option<seq<Worker>>, moments: nat -> Moment) returns (r: Response, tried: seq<Worker>)
    requires listed.Some? ==> listed.value != [] && Distinct(listed.value)
    requires forall n: nat :: 0.0 <= moments(n).random < 1.0
    ensures listed.None? ==> r == NoWorkers && tried == []
    ensures listed.Some? ==> |tried| <= |listed.value| && TriedProperly(moments, listed.value, tried)
    ensures listed.Some? && r.NoWorkers? ==> Retried(moments, tried) && NoOneLeft(moments(|tried|), listed.value, tried)
    ensures !r.NoWorkers? ==>
              && tried != [] && tried[|tried| - 1] == r.w && Retried(moments, tried[..|tried| - 1])
              && moments(|tried| - 1).outcome(r.w).Refused? == r.Failed?
              && (r.Failed? ==> !moments(|tried| - 1).outcome(r.w).retry)
  {
    tried := [];
    if listed.None? {
      return NoWorkers, tried;
    }
    var attempted, n := {}, 0;
    DistinctIsNoLonger(tried, listed.value);
    while true
      invariant attempted == Elements(tried) && n == |tried| <= |listed.value|
      invariant TriedProperly(moments, listed.value, tried) && Retried(moments, tried)
      decreases |listed.value| - |tried|
    {
      var m := moments(n);
      var picked, order := SelectWorkerWeightedByLoad(m.conditions, listed, attempted, m.random);
      if picked.None? {
        return NoWorkers, tried;
      }
      var w := picked.value;
      TryOneMore(moments, listed.value, tried, w);
      attempted := attempted + {w};
      ghost var before := tried;
      tried, n := tried + [w], n + 1;
      assert tried[..|tried| - 1] == before;
      match m.outcome(w)
      case Running => return Assigned(w), tried;
      case Succeeded => return Assigned(w), tried;
      case Refused(retry) =>
        if !retry {
          return Failed(w), tried;
        }
    }
  }
}
