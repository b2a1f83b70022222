/** The vertical scaler: step the live group's instance type one rung up or down an
    ordered ladder of instance types, and roll the change out through a new launch
    template version and a rolling instance refresh. */
module VerticalScaling {
  import opened Common

  const CPU_SCALE_UP_THRESHOLD: real := 75.0
  const CPU_SCALE_DOWN_THRESHOLD: real := 30.0
  const MEMORY_SCALE_UP_THRESHOLD: real := 80.0
  const MEMORY_SCALE_DOWN_THRESHOLD: real := 40.0

  // ---------------------------------------------------------------------------
  // The ladder decision

  /** `INSTANCE_TYPES.index(t)`: the first position of `t`, None where Python raises. */
  function IndexOf(ladder: seq<string>, t: string): (r: Option<nat>)
    ensures r.None? <==> t !in ladder
    ensures r.Some? ==>
      r.value < |ladder| && ladder[r.value] == t && forall j :: 0 <= j < r.value ==> ladder[j] != t
  {
    if ladder == [] then None
    else if ladder[0] == t then Some(0)
    else
      match IndexOf(ladder[1..], t)
      case None => None
      case Some(i) => Some(i + 1)
  }

  /** One metric over its threshold asks for a bigger type. */
  predicate WantsUp(cpu: real, memory: real) {
    cpu > CPU_SCALE_UP_THRESHOLD || memory > MEMORY_SCALE_UP_THRESHOLD
  }

  /** Both metrics under their thresholds ask for a smaller type. */
  predicate WantsDown(cpu: real, memory: real) {
    cpu < CPU_SCALE_DOWN_THRESHOLD && memory < MEMORY_SCALE_DOWN_THRESHOLD
  }

  /** The index arithmetic of determine_scaling_action on a ladder of `n` rungs: one rung
      up under high load unless at the top, one rung down under low load unless at the
      bottom, else stay. The two moves are exclusive, so each happens exactly when its
      own condition holds. */
  function NextRung(i: nat, n: nat, cpu: real, memory: real): (j: nat)
    requires i < n
    ensures j < n
    ensures j == i || j == i + 1 || j + 1 == i
    ensures j == i + 1 <==> WantsUp(cpu, memory) && i + 1 < n
    ensures j + 1 == i <==> WantsDown(cpu, memory) && i > 0
  {
    if WantsUp(cpu, memory) && i < n - 1 then i + 1
    else if WantsDown(cpu, memory) && i > 0 then i - 1
    else i
  }

  datatype ScalingError = UnknownInstanceType(instanceType: string)

  datatype Result<T> = Ok(value: T) | Err(error: ScalingError)

  /** determine_scaling_action: the type to run next. */
  function DetermineScalingAction(ladder: seq<string>, current: string, cpu: real, memory: real)
    : (r: Result<string>)
    ensures r.Err? <==> current !in ladder
    ensures r.Err? ==> r.error == UnknownInstanceType(current)
    ensures r.Ok? ==>
      var i := IndexOf(ladder, current).value;
      && r.value in ladder
      && (WantsUp(cpu, memory) && i + 1 < |ladder| ==> r.value == ladder[i + 1])
      && (WantsDown(cpu, memory) && i > 0 ==> r.value == ladder[i - 1])
      && (!(WantsUp(cpu, memory) && i + 1 < |ladder|) && !(WantsDown(cpu, memory) && i > 0) ==>
            r.value == current)
  {
    match IndexOf(ladder, current)
    case None => Err(UnknownInstanceType(current))
    case Some(i) => Ok(ladder[NextRung(i, |ladder|, cpu, memory)])
  }

  predicate Distinct(ladder: seq<string>) {
    forall i, j :: 0 <= i < j < |ladder| ==> ladder[i] != ladder[j]
  }

  /** On a ladder without duplicates the result is the current type exactly when neither
      move applies (high load at the top rung and low load at the bottom rung included),
      and otherwise an adjacent rung. */
  lemma UnchangedIffNoMove(ladder: seq<string>, current: string, cpu: real, memory: real)
    requires Distinct(ladder) && current in ladder
    ensures var i := IndexOf(ladder, current).value;
      var r := DetermineScalingAction(ladder, current, cpu, memory);
      && (r.value == current <==>
            !(WantsUp(cpu, memory) && i + 1 < |ladder|) && !(WantsDown(cpu, memory) && i > 0))
      && (r.value != current ==>
            exists j :: 0 <= j < |ladder| && (j == i + 1 || j + 1 == i) && r.value == ladder[j])
  {
  }

  /** The three-rung ladder: up from the middle under high CPU, down under low load, stay
      in between, and stay put at either end. */
  lemma SmallMediumLargeLadder()
    ensures var ladder := ["small", "medium", "large"];
      && DetermineScalingAction(ladder, "medium", 80.0, 50.0) == Ok("large")
      && DetermineScalingAction(ladder, "medium", 20.0, 20.0) == Ok("small")
      && DetermineScalingAction(ladder, "medium", 50.0, 50.0) == Ok("medium")
      && DetermineScalingAction(ladder, "large", 90.0, 50.0) == Ok("large")
      && DetermineScalingAction(ladder, "small", 5.0, 5.0) == Ok("small")
      && DetermineScalingAction(ladder, "xlarge", 5.0, 5.0) == Err(UnknownInstanceType("xlarge"))
  {
    var ladder := ["small", "medium", "large"];
    assert IndexOf(ladder, "medium") == Some(1);
    assert IndexOf(ladder, "large") == Some(2);
    assert IndexOf(ladder, "small") == Some(0);
    assert "xlarge" !in ladder;
  }

  /** A metric without datapoints (or whose query failed) reads as 0. */
  function MetricOrZero(average: Option<real>): real {
    average.GetOr(0.0)
  }

  /** With both metrics missing, the scaler reads idle load and steps down. */
  lemma MissingMetricsStepDown(ladder: seq<string>, current: string)
    requires current in ladder && IndexOf(ladder, current).value > 0
    ensures var i := IndexOf(ladder, current).value;
      DetermineScalingAction(ladder, current, MetricOrZero(None), MetricOrZero(None)) == Ok(ladder[i - 1])
  {
  }

  // ---------------------------------------------------------------------------
  // The live group

  datatype VersionRef = VersionRef(templateId: string, version: string)

  /** One describe_auto_scaling_groups entry. */
  datatype AutoScalingGroup = AutoScalingGroup(name: string, desired: int, launchTemplate: VersionRef)

  /** The group exists (the describe call listed it) and wants instances. */
  predicate IsActive(g: Option<AutoScalingGroup>) {
    g.Some? && g.value.desired > 0
  }

  /** Which group get_active_asg settles on, blue before green. */
  function ActiveGroup(blue: Option<AutoScalingGroup>, green: Option<AutoScalingGroup>)
    : (r: Option<AutoScalingGroup>)
    ensures r.Some? ==> IsActive(r) && (r == blue || r == green)
    ensures r.None? <==> !IsActive(blue) && !IsActive(green)
    ensures IsActive(blue) ==> r == blue
  {
    if IsActive(blue) then blue else if IsActive(green) then green else None
  }

  /** get_active_asg: the first of [blue, green] that exists with non-zero desired capacity. */
  method GetActiveAsg(blue: Option<AutoScalingGroup>, green: Option<AutoScalingGroup>)
    returns (r: Option<AutoScalingGroup>)
    ensures r == ActiveGroup(blue, green)
  {
    var candidates := [blue, green];
    for k := 0 to |candidates|
      invariant forall j :: 0 <= j < k ==> !IsActive(candidates[j])
    {
      if IsActive(candidates[k]) {
        assert k == 1 ==> !IsActive(candidates[0]);
        return candidates[k];
      }
    }
    assert !IsActive(candidates[0]) && !IsActive(candidates[1]);
    return None;
  }

  // ---------------------------------------------------------------------------
  // Rolling out a new type

  const LATEST := "$Latest"

  /** The data of one launch template version: its instance type and every other setting. */
  datatype TemplateData = TemplateData(instanceType: string, settings: map<string, string>)

  datatype RefreshRequest =
    RefreshRequest(group: string, strategy: string, minHealthyPercentage: int, instanceWarmup: int)

  /** The refresh perform_vertical_scaling starts: never below full capacity while rolling. */
  function RollingRefresh(group: string): RefreshRequest {
    RefreshRequest(group, "Rolling", 100, 300)
  }

  /** Launch template versions by template id (the last one is $Latest), the template each
      group launches from, and the instance refreshes started. */
  datatype ScalingState = ScalingState(
    templates: map<string, seq<TemplateData>>,
    groupTemplates: map<string, VersionRef>,
    refreshes: seq<RefreshRequest>)

  /** The four gateway calls of perform_vertical_scaling, in order; one in the fault set raises. */
  datatype ScalingStep = DescribeLatest | CreateVersion | UpdateGroup | StartRefresh

  datatype ScalingResult = Success(oldType: string, newType: string, group: string) | ScalingFailed(step: ScalingStep) {
    function Status(): string {
      if Success? then "success" else "error"
    }
  }

  /** How many of the four calls complete before one raises. Describing $Latest also
      raises when the template has no versions. */
  function CompletedSteps(s: ScalingState, asg: AutoScalingGroup, faults: set<ScalingStep>): (n: nat)
    ensures n <= 4
  {
    var id := asg.launchTemplate.templateId;
    if DescribeLatest in faults || id !in s.templates || s.templates[id] == [] then 0
    else if CreateVersion in faults then 1
    else if UpdateGroup in faults then 2
    else if StartRefresh in faults then 3
    else 4
  }

  function StepAt(n: nat): ScalingStep
    requires n < 4
  {
    [DescribeLatest, CreateVersion, UpdateGroup, StartRefresh][n]
  }

  /** A version made from $Latest with only the instance type overridden. */
  function Retyped(versions: seq<TemplateData>, newType: string): TemplateData
    requires versions != []
  {
    versions[|versions| - 1].(instanceType := newType)
  }

  /** perform_vertical_scaling from state `s`: each call that completes leaves its effect,
      the first failing call ends the attempt with an 'error' result. */
  function ScalingRun(s: ScalingState, asg: AutoScalingGroup, oldType: string, newType: string,
                      faults: set<ScalingStep>): (ScalingState, ScalingResult)
  {
    var n := CompletedSteps(s, asg, faults);
    var id := asg.launchTemplate.templateId;
    var s1 := if n >= 2 then s.(templates := s.templates[id := s.templates[id] + [Retyped(s.templates[id], newType)]]) else s;
    var s2 := if n >= 3 then s1.(groupTemplates := s1.groupTemplates[asg.name := VersionRef(id, LATEST)]) else s1;
    var s3 := if n == 4 then s2.(refreshes := s2.refreshes + [RollingRefresh(asg.name)]) else s2;
    (s3, if n == 4 then Success(oldType, newType, asg.name) else ScalingFailed(StepAt(n)))
  }

  /** After a successful run the group launches from $Latest, $Latest is the previous
      latest version with only the instance type replaced, and one rolling refresh at
      100% minimum healthy and 300 s warm-up was started. */
  lemma ScalingSuccessRollsOut(s: ScalingState, asg: AutoScalingGroup, oldType: string, newType: string,
                               faults: set<ScalingStep>)
    requires ScalingRun(s, asg, oldType, newType, faults).1.Success?
    ensures var (s', _) := ScalingRun(s, asg, oldType, newType, faults);
      var id := asg.launchTemplate.templateId;
      && id in s.templates && s.templates[id] != [] && id in s'.templates
      && s'.templates[id] == s.templates[id] + [s.templates[id][|s.templates[id]| - 1].(instanceType := newType)]
      && s'.templates[id][|s'.templates[id]| - 1].instanceType == newType
      && s'.templates[id][|s'.templates[id]| - 1].settings == s.templates[id][|s.templates[id]| - 1].settings
      && s'.groupTemplates == s.groupTemplates[asg.name := VersionRef(id, LATEST)]
      && s'.refreshes == s.refreshes + [RefreshRequest(asg.name, "Rolling", 100, 300)]
  {
  }

  /** The calls happen in order: a refresh is started only after the group was pointed
      at $Latest, which happens only after the new version was created; a failed run
      reports the call that raised and starts no refresh. */
  lemma ScalingStepsInOrder(s: ScalingState, asg: AutoScalingGroup, oldType: string, newType: string,
                            faults: set<ScalingStep>)
    ensures var (s', r) := ScalingRun(s, asg, oldType, newType, faults);
      var id := asg.launchTemplate.templateId;
      && (s'.refreshes != s.refreshes ==> s'.groupTemplates != s.groupTemplates || s.groupTemplates[asg.name] == VersionRef(id, LATEST))
      && (s'.refreshes != s.refreshes ==> r.Success?)
      && (s'.groupTemplates != s.groupTemplates ==> s'.templates != s.templates)
      && (r.ScalingFailed? ==> s'.refreshes == s.refreshes && r.step in faults + {DescribeLatest})
      && (s'.templates != s.templates ==>
            id in s.templates && id in s'.templates && |s'.templates[id]| == |s.templates[id]| + 1)
  {
  }

  /** The position of each call in perform_vertical_scaling. */
  function Rank(step: ScalingStep): (n: nat)
    ensures n < 4 && StepAt(n) == step
  {
    match step
    case DescribeLatest => 0
    case CreateVersion => 1
    case UpdateGroup => 2
    case StartRefresh => 3
  }

  /** Any call that raises, or a template without versions, turns the result into
      'error'; the failure reported is the first call that raised (describing a missing
      template raises at the first call), and every call before it completed. */
  lemma ScalingFailsAtFirstFault(s: ScalingState, asg: AutoScalingGroup, oldType: string, newType: string,
                                 faults: set<ScalingStep>)
    ensures var (_, r) := ScalingRun(s, asg, oldType, newType, faults);
      var id := asg.launchTemplate.templateId;
      && (r.Success? <==>
            faults * {DescribeLatest, CreateVersion, UpdateGroup, StartRefresh} == {} &&
            id in s.templates && s.templates[id] != [])
      && (r.Success? ==> r == Success(oldType, newType, asg.name))
      && (r.ScalingFailed? ==>
            && (r.step in faults || (r.step == DescribeLatest && (id !in s.templates || s.templates[id] == [])))
            && forall st :: Rank(st) < Rank(r.step) ==> st !in faults)
  {
    var calls := {DescribeLatest, CreateVersion, UpdateGroup, StartRefresh};
    forall st | st in faults
      ensures st in faults * calls
    {
      match st
      case DescribeLatest =>
      case CreateVersion =>
      case UpdateGroup =>
      case StartRefresh =>
    }
  }

  datatype Notification = Notification(oldType: string, newType: string, cpu: real, memory: real, status: string)

  class ScalingGateway {
    var state: ScalingState
    var notifications: seq<Notification>

    constructor (start: ScalingState)
      ensures state == start && notifications == []
    {
      state := start;
      notifications := [];
    }

    /** create_launch_template_version from $Latest with a new InstanceType. */
    method CreateLaunchTemplateVersion(id: string, newType: string)
      requires id in state.templates && state.templates[id] != []
      modifies this
      ensures state == old(state).(templates := old(state).templates[id := old(state).templates[id] + [Retyped(old(state).templates[id], newType)]])
      ensures notifications == old(notifications)
    {
      var versions := state.templates[id];
      state := state.(templates := state.templates[id := versions + [Retyped(versions, newType)]]);
    }

    method UpdateAutoScalingGroup(group: string, template: VersionRef)
      modifies this
      ensures state == old(state).(groupTemplates := old(state).groupTemplates[group := template])
      ensures notifications == old(notifications)
    {
      state := state.(groupTemplates := state.groupTemplates[group := template]);
    }

    method StartInstanceRefresh(request: RefreshRequest)
      modifies this
      ensures state == old(state).(refreshes := old(state).refreshes + [request])
      ensures notifications == old(notifications)
    {
      state := state.(refreshes := state.refreshes + [request]);
    }

    /** send_notification; publish errors are swallowed. */
    method SendNotification(n: Notification)
      modifies this
      ensures notifications == old(notifications) + [n] && state == old(state)
    {
      notifications := notifications + [n];
    }
  }

  method PerformVerticalScaling(gw: ScalingGateway, asg: AutoScalingGroup, oldType: string, newType: string,
                                faults: set<ScalingStep>)
    returns (r: ScalingResult)
    modifies gw
    ensures (gw.state, r) == ScalingRun(old(gw.state), asg, oldType, newType, faults)
    ensures gw.notifications == old(gw.notifications)
  {
    var id := asg.launchTemplate.templateId;
    if DescribeLatest in faults || id !in gw.state.templates || gw.state.templates[id] == [] {
      return ScalingFailed(DescribeLatest);
    }
    if CreateVersion in faults {
      return ScalingFailed(CreateVersion);
    }
    gw.CreateLaunchTemplateVersion(id, newType);
    if UpdateGroup in faults {
      return ScalingFailed(UpdateGroup);
    }
    gw.UpdateAutoScalingGroup(asg.name, VersionRef(id, LATEST));
    if StartRefresh in faults {
      return ScalingFailed(StartRefresh);
    }
    gw.StartInstanceRefresh(RollingRefresh(asg.name));
    return Success(oldType, newType, asg.name);
  }

  // ---------------------------------------------------------------------------
  // The handler

  datatype HandlerResult =
    | NoActiveAsg
    | NoInstanceType
    | ConfigurationError(error: ScalingError)     // the ValueError of list.index escapes
    | NoAction(currentType: string, cpu: real, memory: real)
    | Scaled(result: ScalingResult)

  /** lambda_handler: `currentType` is the instance type of the launch template version the
      active group uses, `cpuAverage` and `memoryAverage` the metric averages (None without
      datapoints). Only a changed type touches the gateway, and then exactly one
      notification carries the rollout's status. */
  method LambdaHandler(gw: ScalingGateway, ladder: seq<string>, blue: Option<AutoScalingGroup>,
                       green: Option<AutoScalingGroup>, currentType: Option<string>,
                       cpuAverage: Option<real>, memoryAverage: Option<real>, faults: set<ScalingStep>)
    returns (res: HandlerResult)
    modifies gw
    ensures var active := ActiveGroup(blue, green);
      var cpu := MetricOrZero(cpuAverage);
      var memory := MetricOrZero(memoryAverage);
      if active.None? then res == NoActiveAsg && unchanged(gw)
      else if !Truthy(currentType) then res == NoInstanceType && unchanged(gw)
      else
        match DetermineScalingAction(ladder, currentType.value, cpu, memory)
        case Err(e) => res == ConfigurationError(e) && unchanged(gw)
        case Ok(t) =>
          if t == currentType.value then res == NoAction(t, cpu, memory) && unchanged(gw)
          else
            var (s', r) := ScalingRun(old(gw.state), active.value, currentType.value, t, faults);
            && res == Scaled(r)
            && gw.state == s'
            && gw.notifications == old(gw.notifications) + [Notification(currentType.value, t, cpu, memory, r.Status())]
  {
    var active := GetActiveAsg(blue, green);
    if active.None? {
      return NoActiveAsg;
    }
    if !Truthy(currentType) {
      return NoInstanceType;
    }
    var current := currentType.value;
    var cpu := MetricOrZero(cpuAverage);
    var memory := MetricOrZero(memoryAverage);
    var decision := DetermineScalingAction(ladder, current, cpu, memory);
    if decision.Err? {
      return ConfigurationError(decision.error);
    }
    var newType := decision.value;
    if newType == current {
      return NoAction(current, cpu, memory);
    }
    var result := PerformVerticalScaling(gw, active.value, current, newType, faults);
    gw.SendNotification(Notification(current, newType, cpu, memory, result.Status()));
    return Scaled(result);
  }
}
