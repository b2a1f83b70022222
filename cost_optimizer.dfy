/** The horizontal capacity advisor of the cost optimizer: a first-match rule chain from
    the Jenkins queue and executor counts, the worker group's current capacity and the
    clock to a target capacity, and the single capacity call that applies it. */
module CostOptimizer {
  import opened Common

  const MIN_WORKERS := 0
  const MAX_WORKERS := 10
  const SCALE_UP_THRESHOLD := 3

  datatype JenkinsMetrics = JenkinsMetrics(queueLength: int, activeExecutors: int, idleExecutors: int)

  /** The local clock: weekday as Python's `weekday()` (0 is Monday) and hour 0-23. */
  datatype Clock = Clock(weekday: int, hour: int)

  predicate IsOffHours(c: Clock) {
    c.weekday >= 5 || c.hour < 8 || c.hour > 19
  }

  /** Business hours are Monday to Friday, from hour 8 through hour 19. */
  lemma BusinessHours(c: Clock)
    requires 0 <= c.weekday < 7 && 0 <= c.hour < 24
    ensures !IsOffHours(c) <==> c.weekday in {0, 1, 2, 3, 4} && 8 <= c.hour <= 19
  {
  }

  datatype Action = ScaleUp | ScaleDown | NoChange

  datatype Reason = QueueBacklog(jobs: int) | OffHoursIdle | ExcessIdle(idle: int) | Optimal

  datatype ScalingDecision =
    ScalingDecision(current: int, target: int, action: Action, reason: Reason, isOffHours: bool)

  /** The group's DesiredCapacity, or 0 when the describe call lists no group. */
  function CurrentCapacity(group: Option<int>): int {
    group.GetOr(0)
  }

  /** `(queue_length + 1) // 2`: two jobs per worker, rounded up. */
  function NeededWorkers(queueLength: int): (w: int)
    requires queueLength >= 0
    ensures 2 * w >= queueLength && 2 * (w - 1) < queueLength
  {
    (queueLength + 1) / 2
  }

  function Min(a: int, b: int): int {
    if a <= b then a else b
  }

  function Max(a: int, b: int): int {
    if a >= b then a else b
  }

  /** make_scaling_decision; the rules are tried in order and the first that applies wins. */
  function MakeScalingDecision(m: JenkinsMetrics, group: Option<int>, clock: Clock): (d: ScalingDecision)
    ensures d.current == CurrentCapacity(group) && d.isOffHours == IsOffHours(clock)
    // 1. a backlog of more than three jobs
    ensures m.queueLength > SCALE_UP_THRESHOLD ==>
      && d.action == ScaleUp && d.reason == QueueBacklog(m.queueLength)
      && d.target <= MAX_WORKERS
      && d.target == Min(d.current + NeededWorkers(m.queueLength), MAX_WORKERS)
    // 2. nothing queued or running off-hours
    ensures m.queueLength <= SCALE_UP_THRESHOLD && IsOffHours(clock) && m.queueLength == 0 && m.activeExecutors == 0 ==>
      d.action == ScaleDown && d.target == MIN_WORKERS && d.reason == OffHoursIdle
    // 3. more than two idle executors with nothing queued
    ensures m.queueLength == 0 && !(IsOffHours(clock) && m.activeExecutors == 0) &&
            m.idleExecutors > 2 && d.current > 1 ==>
      d.action == ScaleDown && d.target == d.current - 1 && d.reason == ExcessIdle(m.idleExecutors)
    // 4. otherwise keep the capacity
    ensures d.action == NoChange <==>
      !(m.queueLength > SCALE_UP_THRESHOLD) &&
      !(IsOffHours(clock) && m.queueLength == 0 && m.activeExecutors == 0) &&
      !(m.queueLength == 0 && m.idleExecutors > 2 && d.current > 1)
    ensures d.action == NoChange ==> d.target == d.current && d.reason == Optimal
    // capacity bounds are kept, and each action moves the capacity its own way
    ensures MIN_WORKERS <= d.current <= MAX_WORKERS ==> MIN_WORKERS <= d.target <= MAX_WORKERS
    ensures d.action == ScaleUp && d.current <= MAX_WORKERS ==> d.current <= d.target
    ensures d.action == ScaleUp && d.current < MAX_WORKERS ==> d.current < d.target
    ensures d.action == ScaleDown && d.current >= MIN_WORKERS ==> d.target <= d.current
    ensures d.current >= MIN_WORKERS ==> d.target >= MIN_WORKERS
  {
    var current := CurrentCapacity(group);
    var offHours := IsOffHours(clock);
    if m.queueLength > SCALE_UP_THRESHOLD then
      ScalingDecision(current, Min(current + NeededWorkers(m.queueLength), MAX_WORKERS), ScaleUp,
                      QueueBacklog(m.queueLength), offHours)
    else if offHours && m.queueLength == 0 && m.activeExecutors == 0 then
      ScalingDecision(current, MIN_WORKERS, ScaleDown, OffHoursIdle, offHours)
    else if m.queueLength == 0 && m.idleExecutors > 2 && current > 1 then
      ScalingDecision(current, Max(current - 1, MIN_WORKERS), ScaleDown, ExcessIdle(m.idleExecutors), offHours)
    else
      ScalingDecision(current, current, NoChange, Optimal, offHours)
  }

  /** Any group already above the cap is cut back to ten workers by a 'scale_up' decision. */
  lemma ScaleUpAboveCapShrinks(m: JenkinsMetrics, current: int, clock: Clock)
    requires m.queueLength > SCALE_UP_THRESHOLD && current > MAX_WORKERS
    ensures var d := MakeScalingDecision(m, Some(current), clock);
      d.action == ScaleUp && d.target == MAX_WORKERS && d.target < d.current
  {
  }

  /** The worked examples: a backlog of five on one worker asks for four; an idle
      weekend night asks for none; three idle executors on two workers drop one. */
  lemma DecisionExamples()
    ensures var d := MakeScalingDecision(JenkinsMetrics(5, 1, 0), Some(1), Clock(1, 11));
      d.target == 4 && d.action == ScaleUp
    ensures var d := MakeScalingDecision(JenkinsMetrics(0, 0, 0), Some(3), Clock(6, 23));
      d.target == 0 && d.action == ScaleDown
    ensures var d := MakeScalingDecision(JenkinsMetrics(0, 1, 3), Some(2), Clock(2, 12));
      d.target == 1 && d.action == ScaleDown
    ensures var d := MakeScalingDecision(JenkinsMetrics(0, 0, 0), None, Clock(2, 12));
      d.current == 0 && d.target == 0 && d.action == NoChange
  {
  }

  // ---------------------------------------------------------------------------
  // Executing the decision

  datatype CapacityRequest = CapacityRequest(desired: int, honorCooldown: bool)

  /** The part of `cost_impact` that is not float cost arithmetic. */
  datatype CostImpact = CostImpact(capacityChange: int, actionTaken: bool, error: bool)

  /** The worker group's DesiredCapacity and the set_desired_capacity calls issued to it. */
  class WorkerGroup {
    var desired: int
    var requests: seq<CapacityRequest>

    constructor (desired: int)
      ensures this.desired == desired && requests == []
    {
      this.desired := desired;
      requests := [];
    }

    /** One set_desired_capacity call; `fails` says whether it raises, leaving the
        capacity as it was. */
    method SetDesiredCapacity(r: CapacityRequest, fails: bool) returns (ok: bool)
      modifies this
      ensures ok == !fails
      ensures requests == old(requests) + [r]
      ensures desired == if fails then old(desired) else r.desired
    {
      requests := requests + [r];
      if !fails {
        desired := r.desired;
      }
      return !fails;
    }
  }

  /** execute_scaling: one capacity call, honouring the cooldown, exactly when the target
      differs from the current capacity; `callFails` says whether that call raises.
      A failing call is recorded as an error and not re-raised. */
  method ExecuteScaling(group: WorkerGroup, d: ScalingDecision, callFails: bool) returns (impact: CostImpact)
    modifies group
    ensures impact.capacityChange == d.target - d.current
    ensures impact.actionTaken <==> d.target != d.current && !callFails
    ensures impact.error <==> d.target != d.current && callFails
    ensures group.requests == old(group.requests) +
      (if d.target != d.current then [CapacityRequest(d.target, true)] else [])
    ensures group.desired == if impact.actionTaken then d.target else old(group.desired)
  {
    impact := CostImpact(d.target - d.current, false, false);
    if d.target != d.current {
      var ok := group.SetDesiredCapacity(CapacityRequest(d.target, true), callFails);
      if ok {
        impact := impact.(actionTaken := true);
      } else {
        impact := impact.(error := true);
      }
    }
  }

  /** The capacity part of lambda_handler: decide from the group's current capacity, then
      execute. Unless the call fails, the group ends at the decided target. */
  method OptimizeCapacity(group: WorkerGroup, m: JenkinsMetrics, clock: Clock, callFails: bool)
    returns (d: ScalingDecision, impact: CostImpact)
    modifies group
    ensures d == MakeScalingDecision(m, Some(old(group.desired)), clock)
    ensures !callFails ==> group.desired == d.target
    ensures callFails ==> group.desired == old(group.desired)
    ensures group.requests == old(group.requests) +
      (if d.target != d.current then [CapacityRequest(d.target, true)] else [])
  {
    d := MakeScalingDecision(m, Some(group.desired), clock);
    impact := ExecuteScaling(group, d, callFails);
  }
}
