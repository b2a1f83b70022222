/** The blue/green deployment orchestrator: which environment is live, how healthy it is,
    and the switch protocol (scale the standby up, wait for a healthy instance, validate,
    switch, retire the old group) with its rollback. */
module BlueGreen {
  import opened Common

  datatype Env = Blue | Green

  function Other(e: Env): (o: Env)
    ensures o != e
  {
    if e == Blue then Green else Blue
  }

  /** The `HealthStatus` an auto-scaling group reports for an instance; only the exact
      value 'Healthy' counts as healthy. */
  datatype HealthStatus = Healthy | Unhealthy

  datatype Instance = Instance(id: string, health: HealthStatus)

  predicate IsHealthy(i: Instance) {
    i.health == Healthy
  }

  /** MinSize, MaxSize and DesiredCapacity of an auto-scaling group. */
  datatype Capacity = Capacity(minSize: int, maxSize: int, desired: int)

  /** The settings a group serving traffic is given, and those of a dormant group. */
  const SCALED_UP := Capacity(1, 3, 1)
  const SCALED_DOWN := Capacity(0, 0, 0)

  /** The two groups' describe_auto_scaling_groups instance lists at one moment. */
  datatype FleetView = FleetView(blue: Read<seq<Instance>>, green: Read<seq<Instance>>) {
    function Of(e: Env): Read<seq<Instance>> {
      if e == Blue then blue else green
    }
  }

  // ---------------------------------------------------------------------------
  // Active environment

  /** `any(instance_id in target_instance_ids for instance_id in group)`. */
  function AnyRouted(group: seq<Instance>, targets: seq<string>): (b: bool)
    ensures b <==> exists k :: 0 <= k < |group| && group[k].id in targets
  {
    if group == [] then false
    else group[0].id in targets || AnyRouted(group[1..], targets)
  }

  /** get_active_deployment: `targets` is the target group's registered instance ids,
      `blue` the blue group's instances. No targets, or any failed read, gives None;
      otherwise Blue when a blue instance is registered and Green in every other case. */
  function ActiveDeployment(targets: Read<seq<string>>, blue: Read<seq<Instance>>): (r: Option<Env>)
    ensures r.None? <==> targets.ReadFailed? || targets.value == [] || blue.ReadFailed?
    ensures r == Some(Blue) <==>
      targets.Got? && targets.value != [] && blue.Got? &&
      exists k :: 0 <= k < |blue.value| && blue.value[k].id in targets.value
  {
    if targets.ReadFailed? || targets.value == [] then None
    else if blue.ReadFailed? then None
    else if AnyRouted(blue.value, targets.value) then Some(Blue)
    else Some(Green)
  }

  // ---------------------------------------------------------------------------
  // Health

  /** `[i for i in instances if i['HealthStatus'] == 'Healthy']`. */
  function HealthyInstances(s: seq<Instance>): (r: seq<Instance>)
    ensures |r| <= |s|
    ensures forall x :: x in r ==> x in s && IsHealthy(x)
    ensures forall k :: 0 <= k < |s| && IsHealthy(s[k]) ==> s[k] in r
    ensures |r| == |s| <==> forall k :: 0 <= k < |s| ==> IsHealthy(s[k])
    ensures |r| > 0 <==> exists k :: 0 <= k < |s| && IsHealthy(s[k])
  {
    if s == [] then []
    else
      var n := |s| - 1;
      var prefix := s[..n];
      var init := HealthyInstances(prefix);
      assert forall k :: 0 <= k < n ==> s[k] == prefix[k];
      assert forall x :: x in prefix ==> x in s;
      if IsHealthy(s[n]) then
        assert forall x :: x in init + [s[n]] ==> x in init || x == s[n];
        init + [s[n]]
      else init
  }

  /** The positions of the healthy instances in `s`. */
  ghost function HealthyPositions(s: seq<Instance>): set<int> {
    set k | 0 <= k < |s| && IsHealthy(s[k])
  }

  /** Appending one instance adds its position exactly when it is healthy. */
  lemma HealthyPositionsSnoc(s: seq<Instance>, x: Instance)
    ensures HealthyPositions(s + [x]) ==
      HealthyPositions(s) + (if IsHealthy(x) then {|s|} else {})
    ensures |s| !in HealthyPositions(s)
  {
    var t := s + [x];
    assert forall k :: 0 <= k < |s| ==> t[k] == s[k];
  }

  /** The filter keeps one element per healthy instance: its length is the number of
      healthy positions of the input. */
  lemma {:induction false} HealthyCount(s: seq<Instance>)
    ensures |HealthyInstances(s)| == |HealthyPositions(s)|
    decreases |s|
  {
    if s == [] {
      assert HealthyPositions(s) == {};
    } else {
      var n := |s| - 1;
      var init := s[..n];
      assert s == init + [s[n]];
      HealthyCount(init);
      HealthyPositionsSnoc(init, s[n]);
    }
  }

  /** The test shared by the health poll and validate_new_deployment_health: the read
      succeeded and shows at least one healthy instance. A failed read is false. */
  predicate HasHealthyInstance(read: Read<seq<Instance>>)
    ensures HasHealthyInstance(read) <==>
      read.Got? && exists k :: 0 <= k < |read.value| && IsHealthy(read.value[k])
  {
    read.Got? && |HealthyInstances(read.value)| >= 1
  }

  datatype Verdict = StatusUnknown | StatusUnhealthy | StatusHealthy | StatusDegraded | StatusError

  /** The report of perform_health_checks. */
  datatype HealthReport =
    | NoActiveDeployment                                 // status 'unknown'
    | NoInstances                                        // status 'unhealthy'
    | Measured(healthy: nat, total: nat, percentage: real)
    | QueryError                                         // status 'error'
  {
    function Status(): Verdict {
      match this
      case NoActiveDeployment => StatusUnknown
      case NoInstances => StatusUnhealthy
      case Measured(_, _, p) => if p >= 100.0 then StatusHealthy else StatusDegraded
      case QueryError => StatusError
    }
  }

  /** 100 * k / n reaches 100 exactly when every one of the n instances is healthy. */
  lemma PercentageFull(k: nat, n: nat)
    requires 0 < n && k <= n
    ensures 0.0 <= (k as real) / (n as real) * 100.0 <= 100.0
    ensures (k as real) / (n as real) * 100.0 >= 100.0 <==> k == n
  {
  }

  /** perform_health_checks on the live environment, as seen in `view`. */
  function PerformHealthChecks(active: Option<Env>, view: FleetView): (r: HealthReport)
    ensures active.None? ==> r == NoActiveDeployment
    ensures active.Some? && view.Of(active.value).ReadFailed? ==> r == QueryError
    ensures active.Some? && view.Of(active.value) == Got([]) ==> r == NoInstances
    ensures active.Some? && view.Of(active.value).Got? && view.Of(active.value).value != [] ==>
      var instances := view.Of(active.value).value;
      && r.Measured?
      && r.total == |instances|
      && r.healthy == |HealthyPositions(instances)|
      && r.healthy <= r.total
      && r.percentage == (r.healthy as real) / (r.total as real) * 100.0
      && 0.0 <= r.percentage <= 100.0
      && (r.Status() == StatusHealthy <==> forall k :: 0 <= k < |instances| ==> IsHealthy(instances[k]))
      && (r.Status() == StatusDegraded <==> exists k :: 0 <= k < |instances| && !IsHealthy(instances[k]))
  {
    match active
    case None => NoActiveDeployment
    case Some(e) =>
      match view.Of(e)
      case ReadFailed => QueryError
      case Got(instances) =>
        if instances == [] then NoInstances
        else
          var k := |HealthyInstances(instances)|;
          var n := |instances|;
          HealthyCount(instances);
          PercentageFull(k, n);
          Measured(k, n, (k as real) / (n as real) * 100.0)
  }

  // ---------------------------------------------------------------------------
  // Waiting for the new group

  const POLL_INTERVAL := 30
  const HEALTH_TIMEOUT := 600
  /** The number of polls that fit in the timeout. */
  const MAX_POLLS := HEALTH_TIMEOUT / POLL_INTERVAL

  /** Some poll within the timeout sees a healthy instance. */
  predicate PollsSucceed(polls: seq<Read<seq<Instance>>>) {
    exists j :: 0 <= j < |polls| && j < MAX_POLLS && HasHealthyInstance(polls[j])
  }

  /** wait_for_healthy_instances: `polls` holds the answers of the successive polls of the
      new group. Returns the first poll that sees a healthy instance, or None when the
      timeout elapses first; a failed poll is retried like an unhealthy one. */
  method WaitForHealthyInstances(polls: seq<Read<seq<Instance>>>) returns (r: Option<nat>)
    ensures r.Some? ==>
      && r.value < |polls| && r.value < MAX_POLLS
      && HasHealthyInstance(polls[r.value])
      && forall j :: 0 <= j < r.value ==> !HasHealthyInstance(polls[j])
    ensures r.None? <==> !PollsSucceed(polls)
  {
    var i := 0;
    while i < |polls| && i < MAX_POLLS
      invariant 0 <= i <= |polls|
      invariant i <= MAX_POLLS
      invariant forall j :: 0 <= j < i ==> !HasHealthyInstance(polls[j])
    {
      if HasHealthyInstance(polls[i]) {
        return Some(i);
      }
      i := i + 1;
    }
    return None;
  }

  // ---------------------------------------------------------------------------
  // The switch protocol as a function of the starting fleet

  datatype Fleet = Fleet(blue: Capacity, green: Capacity) {
    function Of(e: Env): Capacity {
      if e == Blue then blue else green
    }

    function With(e: Env, c: Capacity): (f: Fleet)
      ensures f.Of(e) == c && f.Of(Other(e)) == Of(Other(e))
    {
      if e == Blue then this.(blue := c) else this.(green := c)
    }
  }

  /** `e` serves (scaled up) while the other group is dormant. */
  predicate LiveOn(f: Fleet, e: Env) {
    f.Of(e) == SCALED_UP && f.Of(Other(e)) == SCALED_DOWN
  }

  /** The update_auto_scaling_group calls of the protocol; a step in the fault set raises. */
  datatype Step = ScaleUpNew | ScaleDownOld | RollbackRestoreOld | RollbackRetireNew

  datatype SwitchError = UpdateFailed(step: Step) | HealthTimeout(group: Env)

  datatype Alert =
    | SwitchCompleted(from: Option<Env>, to: Env)
    | SwitchFailed(error: SwitchError)
    | RolledBack
    | RollbackFailed(failedStep: Step)
    | OrchestratorError(cause: SwitchError)

  /** How handle_deployment_switch ends: a 200 result, the 500 rollback result, or an
      exception re-raised to the handler. */
  datatype Outcome = Switched(from: Option<Env>, to: Env) | ValidationFailed | Raised(error: SwitchError)

  datatype Run = Run(fleet: Fleet, alerts: seq<Alert>, outcome: Outcome)

  /** The group to bring up and the group to retire: (new, old). */
  function SwitchRoles(current: Option<Env>): (roles: (Env, Env))
    ensures roles.1 == Other(roles.0)
    ensures roles.0 == Green <==> current == Some(Blue)
  {
    if current == Some(Blue) then (Green, Blue) else (Blue, Green)
  }

  /** rollback_deployment: restore old, retire new, alert; a failing call ends the
      attempt with a "Rollback failed" alert and nothing is raised. */
  function RollbackRun(f: Fleet, oldEnv: Env, newEnv: Env, faults: set<Step>): (Fleet, seq<Alert>) {
    if RollbackRestoreOld in faults then (f, [RollbackFailed(RollbackRestoreOld)])
    else if RollbackRetireNew in faults then (f.With(oldEnv, SCALED_UP), [RollbackFailed(RollbackRetireNew)])
    else (f.With(oldEnv, SCALED_UP).With(newEnv, SCALED_DOWN), [RolledBack])
  }

  /** handle_deployment_switch from fleet `f`: the final fleet, the alerts sent and the
      outcome. `validation` is the read validate_new_deployment_health makes. */
  function SwitchRun(f: Fleet, current: Option<Env>, polls: seq<Read<seq<Instance>>>,
                     validation: Read<seq<Instance>>, faults: set<Step>): Run
  {
    var (newEnv, oldEnv) := SwitchRoles(current);
    if ScaleUpNew in faults then
      Run(f, [SwitchFailed(UpdateFailed(ScaleUpNew))], Raised(UpdateFailed(ScaleUpNew)))
    else
      var up := f.With(newEnv, SCALED_UP);
      if !PollsSucceed(polls) then
        Run(up, [SwitchFailed(HealthTimeout(newEnv))], Raised(HealthTimeout(newEnv)))
      else if !HasHealthyInstance(validation) then
        var (back, alerts) := RollbackRun(up, oldEnv, newEnv, faults);
        Run(back, alerts, ValidationFailed)
      else if ScaleDownOld in faults then
        Run(up, [SwitchFailed(UpdateFailed(ScaleDownOld))], Raised(UpdateFailed(ScaleDownOld)))
      else
        Run(up.With(oldEnv, SCALED_DOWN), [SwitchCompleted(current, newEnv)], Switched(current, newEnv))
  }

  /** A switch succeeds exactly when both updates go through and the new group has a
      healthy instance in time and at validation; it then leaves new live and old dormant
      and sends one success alert. */
  lemma SwitchSucceeds(f: Fleet, current: Option<Env>, polls: seq<Read<seq<Instance>>>,
                       validation: Read<seq<Instance>>, faults: set<Step>)
    ensures var run := SwitchRun(f, current, polls, validation, faults);
      var (newEnv, oldEnv) := SwitchRoles(current);
      && (run.outcome.Switched? <==>
            ScaleUpNew !in faults && PollsSucceed(polls) && HasHealthyInstance(validation) && ScaleDownOld !in faults)
      && (run.outcome.Switched? ==>
            && run.outcome == Switched(current, newEnv)
            && run.fleet.Of(newEnv) == SCALED_UP && run.fleet.Of(oldEnv) == SCALED_DOWN
            && LiveOn(run.fleet, newEnv)
            && run.alerts == [SwitchCompleted(current, newEnv)])
  {
  }

  /** A validation failure rolls back and returns the 500 result; the old group is never
      scaled down, and when the rollback's calls succeed old is live again and new dormant. */
  lemma ValidationFailureRollsBack(f: Fleet, current: Option<Env>, polls: seq<Read<seq<Instance>>>,
                                   validation: Read<seq<Instance>>, faults: set<Step>)
    requires ScaleUpNew !in faults && PollsSucceed(polls) && !HasHealthyInstance(validation)
    ensures var run := SwitchRun(f, current, polls, validation, faults);
      var (newEnv, oldEnv) := SwitchRoles(current);
      && run.outcome == ValidationFailed
      && (run.fleet.Of(oldEnv) == f.Of(oldEnv) || run.fleet.Of(oldEnv) == SCALED_UP)
      && (RollbackRestoreOld !in faults && RollbackRetireNew !in faults ==>
            LiveOn(run.fleet, oldEnv) && run.alerts == [RolledBack])
      && (RollbackRestoreOld in faults || RollbackRetireNew in faults ==>
            |run.alerts| == 1 && run.alerts[0].RollbackFailed?)
  {
  }

  /** A health timeout raises after one failure alert: new stays scaled up, old is untouched
      and there is no rollback. */
  lemma TimeoutLeavesOldUntouched(f: Fleet, current: Option<Env>, polls: seq<Read<seq<Instance>>>,
                                  validation: Read<seq<Instance>>, faults: set<Step>)
    requires ScaleUpNew !in faults && !PollsSucceed(polls)
    ensures var run := SwitchRun(f, current, polls, validation, faults);
      var (newEnv, oldEnv) := SwitchRoles(current);
      && run.outcome == Raised(HealthTimeout(newEnv))
      && run.fleet.Of(newEnv) == SCALED_UP
      && run.fleet.Of(oldEnv) == f.Of(oldEnv)
      && run.alerts == [SwitchFailed(HealthTimeout(newEnv))]
  {
  }

  /** Every switch sends exactly one alert, and what it raises never comes from the
      rollback: rollback failures are reported, not raised. */
  lemma SwitchRaisesOnlyBeforeRollback(f: Fleet, current: Option<Env>, polls: seq<Read<seq<Instance>>>,
                                       validation: Read<seq<Instance>>, faults: set<Step>)
    ensures var run := SwitchRun(f, current, polls, validation, faults);
      && |run.alerts| == 1
      && (run.outcome.Raised? ==>
            run.outcome.error in {UpdateFailed(ScaleUpNew), UpdateFailed(ScaleDownOld), HealthTimeout(SwitchRoles(current).0)}
            && run.alerts == [SwitchFailed(run.outcome.error)])
  {
  }

  // ---------------------------------------------------------------------------
  // The gateway and the imperative protocol

  /** The two groups' capacity settings and the log of published alerts. */
  class DeploymentGateway {
    var fleet: Fleet
    var alerts: seq<Alert>

    constructor (start: Fleet)
      ensures fleet == start && alerts == []
    {
      fleet := start;
      alerts := [];
    }

    method UpdateAutoScalingGroup(e: Env, c: Capacity)
      modifies this
      ensures fleet == old(fleet).With(e, c) && alerts == old(alerts)
    {
      fleet := fleet.With(e, c);
    }

    /** send_alert; its own publish failures are swallowed, so it always returns. */
    method SendAlert(a: Alert)
      modifies this
      ensures alerts == old(alerts) + [a] && fleet == old(fleet)
    {
      alerts := alerts + [a];
    }
  }

  method RollbackDeployment(gw: DeploymentGateway, oldEnv: Env, newEnv: Env, faults: set<Step>)
    modifies gw
    ensures var (f, a) := RollbackRun(old(gw.fleet), oldEnv, newEnv, faults);
      gw.fleet == f && gw.alerts == old(gw.alerts) + a
  {
    if RollbackRestoreOld in faults {
      gw.SendAlert(RollbackFailed(RollbackRestoreOld));
      return;
    }
    gw.UpdateAutoScalingGroup(oldEnv, SCALED_UP);
    if RollbackRetireNew in faults {
      gw.SendAlert(RollbackFailed(RollbackRetireNew));
      return;
    }
    gw.UpdateAutoScalingGroup(newEnv, SCALED_DOWN);
    gw.SendAlert(RolledBack);
  }

  /** switch_traffic only logs: the target group is left as it is. */
  method SwitchTraffic(gw: DeploymentGateway, newEnv: Env) {
  }

  method HandleDeploymentSwitch(gw: DeploymentGateway, current: Option<Env>, polls: seq<Read<seq<Instance>>>,
                                validation: Read<seq<Instance>>, faults: set<Step>)
    returns (outcome: Outcome)
    modifies gw
    ensures var run := SwitchRun(old(gw.fleet), current, polls, validation, faults);
      gw.fleet == run.fleet && gw.alerts == old(gw.alerts) + run.alerts && outcome == run.outcome
  {
    var (newEnv, oldEnv) := SwitchRoles(current);
    if ScaleUpNew in faults {
      gw.SendAlert(SwitchFailed(UpdateFailed(ScaleUpNew)));
      return Raised(UpdateFailed(ScaleUpNew));
    }
    gw.UpdateAutoScalingGroup(newEnv, SCALED_UP);
    var healthyAt := WaitForHealthyInstances(polls);
    if healthyAt.None? {
      gw.SendAlert(SwitchFailed(HealthTimeout(newEnv)));
      return Raised(HealthTimeout(newEnv));
    }
    if !HasHealthyInstance(validation) {
      RollbackDeployment(gw, oldEnv, newEnv, faults);
      return ValidationFailed;
    }
    SwitchTraffic(gw, newEnv);
    if ScaleDownOld in faults {
      gw.SendAlert(SwitchFailed(UpdateFailed(ScaleDownOld)));
      return Raised(UpdateFailed(ScaleDownOld));
    }
    gw.UpdateAutoScalingGroup(oldEnv, SCALED_DOWN);
    gw.SendAlert(SwitchCompleted(current, newEnv));
    return Switched(current, newEnv);
  }

  // ---------------------------------------------------------------------------
  // The handler

  datatype Response =
    | HealthCheckCompleted(active: Option<Env>, health: HealthReport)
    | SwitchSucceeded(from: Option<Env>, to: Env)
    | SwitchRolledBack
    | OrchestratorFailed(error: SwitchError)
  {
    function StatusCode(): int {
      if HealthCheckCompleted? || SwitchSucceeded? then 200 else 500
    }
  }

  /** The handler's answer once the switch has ended. */
  function SwitchResponse(o: Outcome): (r: Response)
    ensures r.StatusCode() == 200 <==> o.Switched?
  {
    match o
    case Switched(from, to) => SwitchSucceeded(from, to)
    case ValidationFailed => SwitchRolledBack
    case Raised(e) => OrchestratorFailed(e)
  }

  /** handler: `action` is the event's 'action' entry, `targets` the target group read,
      `blue` the blue group read that get_active_deployment makes, and `health` the groups'
      instance lists as the later describe of perform_health_checks sees them. Without a 'switch' request it only reports health
      and changes nothing; with one it runs the switch, and an exception the switch
      re-raises becomes a second alert and a 500 response. */
  method Handler(gw: DeploymentGateway, action: Option<string>, targets: Read<seq<string>>,
                 blue: Read<seq<Instance>>, health: FleetView,
                 polls: seq<Read<seq<Instance>>>, validation: Read<seq<Instance>>, faults: set<Step>)
    returns (resp: Response)
    modifies gw
    ensures var active := ActiveDeployment(targets, blue);
      if action != Some("switch") then
        && resp == HealthCheckCompleted(active, PerformHealthChecks(active, health))
        && gw.fleet == old(gw.fleet) && gw.alerts == old(gw.alerts)
      else
        var run := SwitchRun(old(gw.fleet), active, polls, validation, faults);
        && resp == SwitchResponse(run.outcome)
        && gw.fleet == run.fleet
        && gw.alerts == old(gw.alerts) + run.alerts +
             (if run.outcome.Raised? then [OrchestratorError(run.outcome.error)] else [])
  {
    var active := ActiveDeployment(targets, blue);
    if action == Some("switch") {
      var outcome := HandleDeploymentSwitch(gw, active, polls, validation, faults);
      if outcome.Raised? {
        gw.SendAlert(OrchestratorError(outcome.error));
      }
      return SwitchResponse(outcome);
    }
    return HealthCheckCompleted(active, PerformHealthChecks(active, health));
  }
}
