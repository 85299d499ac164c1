/** The idle reaper (`lambda_stop_idle.lambda_handler`): for every running
    instance of the listed types, read three metric series over the last
    half hour and stop the instance when it is idle. The EC2 and CloudWatch
    calls are abstract outcomes. */
module Reaper {
  import opened Wrappers
  import opened Envelope

  /** Average CPU utilisation, in percent, above which an instance is busy. */
  const CpuThreshold: real := 10.0
  /** Bytes of NetworkIn or NetworkOut over the window above which an instance is busy (1 MiB). */
  const NetworkThreshold: real := 1048576.0

  /** The values of the returned `Datapoints`, in the order CloudWatch gives
      them: `Average` for CPUUtilization, `Sum` for NetworkIn and NetworkOut. */
  datatype Datapoints = Datapoints(cpu: seq<real>, networkIn: seq<real>, networkOut: seq<real>)

  /** The stop decision, evaluated in the order the handler evaluates it:
      missing CPU data keeps the instance, then each check may only clear
      the flag. */
  function ShouldStop(d: Datapoints): (stop: bool)
    ensures stop <==>
      && |d.cpu| > 0 && d.cpu[0] <= CpuThreshold
      && (|d.networkIn| == 0 || d.networkIn[0] <= NetworkThreshold)
      && (|d.networkOut| == 0 || d.networkOut[0] <= NetworkThreshold)
  {
    var afterCpu :=
      if |d.cpu| > 0 then (if d.cpu[0] > CpuThreshold then false else true)
      else false;
    var afterIn :=
      if |d.networkIn| > 0 && afterCpu then (if d.networkIn[0] > NetworkThreshold then false else afterCpu)
      else afterCpu;
    var afterOut :=
      if |d.networkOut| > 0 && afterIn then (if d.networkOut[0] > NetworkThreshold then false else afterIn)
      else afterIn;
    afterOut
  }

  /** The first datapoint of a series, if any. */
  function First(s: seq<real>): Option<real> {
    if |s| > 0 then Some(s[0]) else None
  }

  /** Only `Datapoints[0]` of each metric influences the decision. */
  lemma OnlyFirstDatapointMatters(d1: Datapoints, d2: Datapoints)
    requires First(d1.cpu) == First(d2.cpu)
    requires First(d1.networkIn) == First(d2.networkIn)
    requires First(d1.networkOut) == First(d2.networkOut)
    ensures ShouldStop(d1) == ShouldStop(d2)
  {
  }

  /** Missing CPU data keeps the instance running whatever the network
      shows; a missing network series never keeps it running: it decides
      exactly as a quiet series (a zero sum) would. */
  lemma MissingDataAsymmetry(d: Datapoints)
    ensures |d.cpu| == 0 ==> !ShouldStop(d)
    ensures |d.cpu| > 0 && d.cpu[0] <= CpuThreshold && |d.networkIn| == 0 && |d.networkOut| == 0 ==> ShouldStop(d)
    ensures |d.networkIn| == 0 ==> ShouldStop(d) == ShouldStop(d.(networkIn := [0.0]))
    ensures |d.networkOut| == 0 ==> ShouldStop(d) == ShouldStop(d.(networkOut := [0.0]))
  {
  }

  /** The thresholds are strict: any value above 10 % CPU or above 1 MiB in
      either direction keeps the instance, values at or below stop it, and
      sample rows spell out the edges. */
  lemma DecisionTable(d: Datapoints, c: real, n: real)
    ensures c > CpuThreshold ==> !ShouldStop(d.(cpu := [c]))
    ensures n > NetworkThreshold ==> !ShouldStop(d.(networkIn := [n])) && !ShouldStop(d.(networkOut := [n]))
    ensures c <= CpuThreshold && n <= NetworkThreshold ==> ShouldStop(Datapoints([c], [n], [n]))
    ensures ShouldStop(Datapoints([5.0], [512000.0], [512000.0]))
    ensures !ShouldStop(Datapoints([15.0], [512000.0], [512000.0]))
    ensures !ShouldStop(Datapoints([], [0.0], [0.0]))
    ensures ShouldStop(Datapoints([10.0], [1048576.0], [1048576.0]))
    ensures !ShouldStop(Datapoints([10.0], [1048577.0], []))
    ensures !ShouldStop(Datapoints([10.0], [], [1048576.5]))
  {
  }

  /** One instance as the collaborators report it: its id, the three metric
      series (`None` when a `get_metric_statistics` call raised) and whether
      `stop_instances` raises for it. */
  datatype Observed = Observed(instanceId: string, datapoints: Option<Datapoints>, stopFails: bool)

  /** The instance is stopped by the handler. */
  predicate Idle(o: Observed) {
    o.datapoints.Some? && ShouldStop(o.datapoints.value)
  }

  /** Visiting the instance raises: a metric query raised, or the stop call did. */
  predicate Raises(o: Observed) {
    o.datapoints.None? || (ShouldStop(o.datapoints.value) && o.stopFails)
  }

  /** The `stop_instances` calls issued, in order, and whether the run
      completed or an exception ended it. */
  datatype RunOutcome = Completed(stopped: seq<string>) | Aborted(stopped: seq<string>)

  /** Sequencing: an aborted first part ends the run. */
  function AndThen(first: RunOutcome, rest: RunOutcome): RunOutcome {
    match first
    case Aborted(s) => first
    case Completed(s) =>
      match rest
      case Completed(t) => Completed(s + t)
      case Aborted(t) => Aborted(s + t)
  }

  /** The effect of one iteration of the inner loop. */
  function Visit(o: Observed): (r: RunOutcome)
    ensures r.Aborted? <==> Raises(o)
    ensures r.stopped == (if Idle(o) then [o.instanceId] else [])
  {
    match o.datapoints
    case None => Aborted([])
    case Some(d) =>
      if !ShouldStop(d) then Completed([])
      else if o.stopFails then Aborted([o.instanceId])
      else Completed([o.instanceId])
  }

  /** Ids of the idle instances, in order. */
  function IdleIds(insts: seq<Observed>): (ids: seq<string>)
    ensures |ids| <= |insts|
  {
    if |insts| == 0 then []
    else (if Idle(insts[0]) then [insts[0].instanceId] else []) + IdleIds(insts[1..])
  }

  /** An id is in `IdleIds` exactly when some idle instance carries it. */
  lemma {:induction false} IdleIdsMembership(insts: seq<Observed>, id: string)
    ensures id in IdleIds(insts) <==> exists j :: 0 <= j < |insts| && insts[j].instanceId == id && Idle(insts[j])
    decreases |insts|
  {
    if |insts| > 0 {
      IdleIdsMembership(insts[1..], id);
      if id in IdleIds(insts[1..]) {
        var j :| 0 <= j < |insts[1..]| && insts[1..][j].instanceId == id && Idle(insts[1..][j]);
        assert insts[j + 1] == insts[1..][j];
      }
      if exists j :: 0 <= j < |insts| && insts[j].instanceId == id && Idle(insts[j]) {
        var j :| 0 <= j < |insts| && insts[j].instanceId == id && Idle(insts[j]);
        if j > 0 {
          assert insts[1..][j - 1] == insts[j];
        }
      }
    }
  }

  /** No visit raises. */
  predicate NoneRaises(insts: seq<Observed>) {
    forall j :: 0 <= j < |insts| ==> !Raises(insts[j])
  }

  /** The run over the flattened instance list. */
  function Reap(insts: seq<Observed>): (r: RunOutcome)
    ensures r.Completed? <==> NoneRaises(insts)
    ensures r.Completed? ==> r.stopped == IdleIds(insts)
  {
    if |insts| == 0 then Completed([])
    else AndThen(Visit(insts[0]), Reap(insts[1..]))
  }

  /** All instances of all reservations, in order. */
  function Flatten(reservations: seq<seq<Observed>>): seq<Observed> {
    if |reservations| == 0 then [] else reservations[0] + Flatten(reservations[1..])
  }

  lemma AndThenAssociative(a: RunOutcome, b: RunOutcome, c: RunOutcome)
    ensures AndThen(AndThen(a, b), c) == AndThen(a, AndThen(b, c))
  {
    match a
    case Aborted(_) =>
    case Completed(s) =>
      match b
      case Aborted(_) =>
      case Completed(t) =>
        match c
        case Aborted(u) => assert s + t + u == s + (t + u);
        case Completed(u) => assert s + t + u == s + (t + u);
  }

  /** The run over two consecutive stretches of instances is the first run
      followed, if it completed, by the second. */
  lemma {:induction false} ReapAppend(a: seq<Observed>, b: seq<Observed>)
    ensures Reap(a + b) == AndThen(Reap(a), Reap(b))
    decreases |a|
  {
    if |a| == 0 {
      assert a + b == b;
      match Reap(b)
      case Completed(t) => assert [] + t == t;
      case Aborted(t) => assert [] + t == t;
    } else {
      assert (a + b)[1..] == a[1..] + b;
      ReapAppend(a[1..], b);
      AndThenAssociative(Visit(a[0]), Reap(a[1..]), Reap(b));
    }
  }

  /** There is no per-instance isolation: the first instance whose visit
      raises ends the run, and no instance after it is evaluated or stopped. */
  lemma {:induction false} FirstFailureEndsRun(insts: seq<Observed>, k: nat)
    requires k < |insts| && Raises(insts[k])
    requires NoneRaises(insts[..k])
    ensures Reap(insts) == Aborted(IdleIds(insts[..k + 1]))
    decreases k
  {
    var v := Visit(insts[0]);
    assert insts[..k + 1][0] == insts[0];
    if k == 0 {
      assert insts[..1][1..] == [];
      assert v.Aborted?;
    } else {
      assert !Raises(insts[..k][0]);
      var tail := insts[1..];
      var before := tail[..k - 1];
      var prefix := insts[..k];
      assert NoneRaises(before) by {
        forall j | 0 <= j < |before|
          ensures !Raises(before[j])
        {
          assert before[j] == prefix[j + 1];
        }
      }
      FirstFailureEndsRun(tail, k - 1);
      assert insts[..k + 1][1..] == tail[..k];
    }
  }

  /** The idle ids of two consecutive stretches are those of the first
      followed by those of the second. */
  lemma {:induction false} IdleIdsAppend(a: seq<Observed>, b: seq<Observed>)
    ensures IdleIds(a + b) == IdleIds(a) + IdleIds(b)
    decreases |a|
  {
    if |a| == 0 {
      assert a + b == b;
    } else {
      var ab := a + b;
      assert ab[0] == a[0];
      assert ab[1..] == a[1..] + b;
      IdleIdsAppend(a[1..], b);
      var head := if Idle(a[0]) then [a[0].instanceId] else [];
      assert IdleIds(ab) == head + IdleIds(ab[1..]);
      assert IdleIds(a) == head + IdleIds(a[1..]);
      assert head + (IdleIds(a[1..]) + IdleIds(b)) == (head + IdleIds(a[1..])) + IdleIds(b);
    }
  }

  /** The idle instances of each reservation in turn, in listing order. */
  function ReservationStops(reservations: seq<seq<Observed>>): (ids: seq<string>)
    ensures |ids| <= |Flatten(reservations)|
    decreases |reservations|
  {
    if |reservations| == 0 then []
    else
      var rest := ReservationStops(reservations[1..]);
      IdleIdsAppend(reservations[0], Flatten(reservations[1..]));
      IdleIds(reservations[0]) + rest
  }

  /** Stopping the idle instances of the flattened list is stopping each
      reservation's idle instances, reservation by reservation. */
  lemma {:induction false} FlattenedStops(reservations: seq<seq<Observed>>)
    ensures IdleIds(Flatten(reservations)) == ReservationStops(reservations)
    decreases |reservations|
  {
    if |reservations| > 0 {
      FlattenedStops(reservations[1..]);
      IdleIdsAppend(reservations[0], Flatten(reservations[1..]));
    }
  }

  /** The response of a completed run. */
  const Completion := Response(200, None, JsonString("Idle check completed"), None)

  /** `lambda_handler` of the reaper, looping over reservations and their
      instances as the handler does. `listing` is `None` when
      `describe_instances` raised. */
  method IdleCheck(listing: Option<seq<seq<Observed>>>) returns (outcome: RunOutcome, response: Option<Response>)
    ensures listing.None? ==> outcome == Aborted([])
    ensures listing.Some? ==> outcome == Reap(Flatten(listing.value))
    ensures listing.Some? && outcome.Completed? ==> outcome.stopped == ReservationStops(listing.value)
    ensures response.Some? <==> outcome.Completed?
    ensures response.Some? ==> response.value.statusCode == 200
                               && response.value.body == JsonString("Idle check completed")
  {
    if listing.None? {
      return Aborted([]), None;
    }
    var reservations := listing.value;
    var stops: seq<string> := [];
    var r := 0;
    while r < |reservations|
      invariant 0 <= r <= |reservations|
      invariant Reap(Flatten(reservations[..r])) == Completed(stops)
    {
      var after := VisitReservation(reservations[r], stops);
      FlattenPrefix(reservations, r);
      ReapAppend(Flatten(reservations[..r]), reservations[r]);
      if after.Aborted? {
        FlattenAppend(reservations[..r + 1], reservations[r + 1..]);
        assert reservations == reservations[..r + 1] + reservations[r + 1..];
        ReapAppend(Flatten(reservations[..r + 1]), Flatten(reservations[r + 1..]));
        return after, None;
      }
      stops := after.stopped;
      r := r + 1;
    }
    assert reservations[..r] == reservations;
    FlattenedStops(reservations);
    return Completed(stops), Some(Completion);
  }

  /** The inner loop over one reservation's instances, after `stops` were
      issued for the earlier ones. */
  method VisitReservation(instances: seq<Observed>, stops0: seq<string>) returns (after: RunOutcome)
    ensures after == AndThen(Completed(stops0), Reap(instances))
  {
    var stops := stops0;
    var i := 0;
    while i < |instances|
      invariant 0 <= i <= |instances|
      invariant AndThen(Completed(stops0), Reap(instances[..i])) == Completed(stops)
    {
      var o := instances[i];
      if Raises(o) {
        assert instances == instances[..i] + [o] + instances[i + 1..];
        RaisingVisit(stops0, instances[..i], o, instances[i + 1..], stops);
      } else {
        CompletedStep(stops0, instances, i, stops);
      }
      if o.datapoints.None? {
        assert stops + [] == stops;
        return Aborted(stops);
      }
      if ShouldStop(o.datapoints.value) {
        if o.stopFails {
          return Aborted(stops + [o.instanceId]);
        }
        stops := stops + [o.instanceId];
      } else {
        assert stops + [] == stops;
      }
      i := i + 1;
    }
    assert instances[..i] == instances;
    return Completed(stops);
  }

  /** A raising visit decides the whole reservation. */
  lemma RaisingVisit(stops0: seq<string>, pre: seq<Observed>, o: Observed, rest: seq<Observed>, stops: seq<string>)
    requires Raises(o)
    requires AndThen(Completed(stops0), Reap(pre)) == Completed(stops)
    ensures AndThen(Completed(stops0), Reap(pre + [o] + rest)) == Aborted(stops + Visit(o).stopped)
  {
    VisitStep(stops0, pre, o, rest, stops);
    assert AndThen(Visit(o), Reap(rest)) == Visit(o);
  }

  /** Any other visit extends the completed prefix by one instance. */
  lemma CompletedStep(stops0: seq<string>, instances: seq<Observed>, i: nat, stops: seq<string>)
    requires i < |instances| && !Raises(instances[i])
    requires AndThen(Completed(stops0), Reap(instances[..i])) == Completed(stops)
    ensures AndThen(Completed(stops0), Reap(instances[..i + 1])) == Completed(stops + Visit(instances[i]).stopped)
  {
    assert instances[..i + 1] == instances[..i] + [instances[i]];
    VisitLast(stops0, instances[..i], instances[i], stops);
  }

  /** One more instance visited after a prefix whose visits all completed. */
  lemma VisitStep(stops0: seq<string>, pre: seq<Observed>, o: Observed, rest: seq<Observed>, stops: seq<string>)
    requires AndThen(Completed(stops0), Reap(pre)) == Completed(stops)
    ensures AndThen(Completed(stops0), Reap(pre + [o] + rest)) == AndThen(Completed(stops), AndThen(Visit(o), Reap(rest)))
  {
    assert pre + [o] + rest == pre + ([o] + rest);
    ReapAppend(pre, [o] + rest);
    assert ([o] + rest)[1..] == rest;
    AndThenAssociative(Completed(stops0), Reap(pre), AndThen(Visit(o), Reap(rest)));
  }

  lemma VisitLast(stops0: seq<string>, pre: seq<Observed>, o: Observed, stops: seq<string>)
    requires AndThen(Completed(stops0), Reap(pre)) == Completed(stops)
    ensures AndThen(Completed(stops0), Reap(pre + [o])) == AndThen(Completed(stops), Visit(o))
  {
    assert pre + [o] == pre + [o] + [];
    VisitStep(stops0, pre, o, [], stops);
    assert Visit(o).stopped + [] == Visit(o).stopped;
    assert AndThen(Visit(o), Reap([])) == Visit(o);
  }

  lemma {:induction false} FlattenAppend(a: seq<seq<Observed>>, b: seq<seq<Observed>>)
    ensures Flatten(a + b) == Flatten(a) + Flatten(b)
    decreases |a|
  {
    if |a| == 0 {
      assert a + b == b;
    } else {
      assert (a + b)[1..] == a[1..] + b;
      FlattenAppend(a[1..], b);
    }
  }

  lemma FlattenPrefix(reservations: seq<seq<Observed>>, r: nat)
    requires r < |reservations|
    ensures Flatten(reservations[..r + 1]) == Flatten(reservations[..r]) + reservations[r]
  {
    assert reservations[..r + 1] == reservations[..r] + [reservations[r]];
    FlattenAppend(reservations[..r], [reservations[r]]);
    assert Flatten([reservations[r]]) == reservations[r] + Flatten([]);
  }
}
