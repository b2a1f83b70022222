# Jenkins Enterprise Platform: verified model of the Lambda decision logic

This project models, in Dafny, the four AWS Lambda handlers that run the platform's automation, and proves what each one decides and what it changes.

- **Blue/green deployment orchestrator** (`deployment_orchestrator.dfy`, module `BlueGreen`). The handler works out which environment is live from target-group membership and reports its health. On a `switch` request it runs the switch protocol:
  1. Scale the standby group up to min 1 / max 3 / desired 1.
  2. Poll the standby group until one instance is healthy, for at most 600 s at 30 s intervals.
  3. Validate the standby group.
  4. Run `switch_traffic`, which only logs.
  5. Scale the old group to 0 / 0 / 0.

  If validation fails, the handler rolls back.
- **Vertical scaler** (`vertical_scaler.dfy`, module `VerticalScaling`). It moves the live group one rung up or down an ordered ladder of instance types, using CPU and memory thresholds. It rolls the change out in three steps: a new launch template version, pointing the group at `$Latest`, then a rolling instance refresh. After a rollout it sends one notification.
- **Cost optimizer** (`cost_optimizer.dfy`, module `CostOptimizer`). A first-match rule chain maps the Jenkins queue and executor counts, the worker group's capacity and the time of day to a target capacity. One `set_desired_capacity` call applies the target when it differs from the current capacity.
- **Security responder** (`security_responder.dfy`, module `SecurityResponder`). It picks at most one response to a GuardDuty finding from its severity and type. It isolates or terminates the named instance. Before terminating, it finds the instance's auto-scaling group by a first-match tag search. After the termination it sets that group's DesiredCapacity to 1, without honouring the cooldown, whatever the group's size was: a group of three drops to one. It publishes an alert that lists the actions.

`common.dfy` (module `Common`) holds the shared `Option` and `Read` types.

## How the cloud is modelled

The handlers talk to AWS through boto3. Calls into AWS are modelled as follows:

- **Reads** in the orchestrator and the security responder (describe calls, target health, instance tags) are inputs of type `Read<T>`: `Got(value)` or `ReadFailed`, where `ReadFailed` stands for any exception the call raises.
- **Reads** in the vertical scaler and the cost optimizer are `Option` inputs with no failure case:
  - the group describes of `get_active_asg` and `make_scaling_decision`, where None means the call listed no group;
  - the launch template describe of `get_current_instance_type`;
  - the metric averages, where None means no datapoints or a query the source catches.
  An exception from these describe calls escapes the source's handler. That path is not modelled; see "## Left out".
- **Writes** that can raise are status inputs:
  - a set of the steps that fail (`set<Step>`, `set<ScalingStep>`);
  - a boolean such as `callFails`;
  - the fields of `ResponseEnv`.
- **State changed in place** is held by a class with fields and `modifies` clauses:
  - `DeploymentGateway`: the two groups' capacity settings, plus the alerts sent;
  - `ScalingGateway`: launch template versions, group template pointers and instance refreshes, plus the notifications;
  - `WorkerGroup`: the desired capacity and the capacity calls;
  - `SecurityGateway`: the isolations, terminations and capacity calls, plus the published alerts.

Most imperative operations are proved to leave the gateway in the state that a pure function gives:

- `HandleDeploymentSwitch` follows `SwitchRun`, and `RollbackDeployment` follows `RollbackRun`.
- `PerformVerticalScaling` follows `ScalingRun`.
- `DispatchActions` follows `Dispatch`, `ActOn` follows `ActionEffects`, `IsolateInstanceCall` follows `IsolationEffects`, and `TerminateInstanceCall` follows `TerminationEffects`.

The properties are lemmas about those functions. The remaining methods state their new state directly in their `ensures`:

- The single gateway calls (`UpdateAutoScalingGroup`, `SendAlert`, `CreateLaunchTemplateVersion`, `StartInstanceRefresh`, `SendNotification`, `SetDesiredCapacity`, `Publish`) give their field updates and frame the rest.
- The cost optimizer's `ExecuteScaling` and `OptimizeCapacity` give the final capacity and the calls recorded.
- `BlueGreen.Handler` and the two `LambdaHandler`s give their result and new state per branch, through the functions above.

The health poll loop runs over a sequence of poll answers and stops after `MAX_POLLS = 600 / 30 = 20` polls. This models the wall-clock timeout.

## Behaviour of note

- `get_active_deployment` swallows every exception and returns None, so a failed read looks the same as "no deployment" (`BlueGreen.ActiveDeployment`). With targets registered but no blue instance among them, it answers 'green' without looking at the green group.
- `rollback_deployment` sets the old group to 1/3/1 whatever its current settings are. A failure inside it is reported by an alert and never raised.
- `switch_traffic` only logs and changes nothing (`BlueGreen.SwitchTraffic` has an empty body).
- `handle_deployment_switch` re-raises errors, and `handler` catches them. The result is a 500 response and a second alert (`BlueGreen.Handler`).
- A health-check timeout raises before any rollback. The new group stays scaled up and the old group is untouched.
- The vertical scaler sends a notification only when the instance type changes. That notification carries 'success' or 'error'.

## A note on the security responder's type tests

The responder's type tests are case-sensitive substring tests. GuardDuty spells its type 'CryptoCurrency:EC2/BitcoinTool.B', which does not contain 'Cryptocurrency'. So the terminate rule does not fire for it at any severity (`SecurityResponder.CryptoCurrencySpellingMatchesNoRule`). The model keeps the test as the code writes it.

## Model

| member | source | states |
|---|---|---|
| BlueGreen.AnyRouted | modules/blue-green-deployment/deployment_orchestrator.py:92 | true exactly when some instance of the group has its id among the target ids |
| BlueGreen.ActiveDeployment | modules/blue-green-deployment/deployment_orchestrator.py:75-99 | None exactly when there are no targets or a read raised; Blue exactly when a blue instance is registered; Green otherwise |
| BlueGreen.HealthyInstances | modules/blue-green-deployment/deployment_orchestrator.py:188 | the healthy sub-list: only healthy members of the input, every healthy instance kept, full length exactly when every instance is healthy, non-empty exactly when one is |
| BlueGreen.HealthyCount | modules/blue-green-deployment/deployment_orchestrator.py:188-191 | the healthy sub-list has one element per healthy position of the input, so `len(healthy_instances)` is the number of healthy instances |
| BlueGreen.HasHealthyInstance | modules/blue-green-deployment/deployment_orchestrator.py:236-248 | the shared poll and validation test holds exactly when the read succeeded and shows a healthy instance; a failed read is false |
| BlueGreen.PercentageFull | modules/blue-green-deployment/deployment_orchestrator.py:190-193 | 100·k/n lies in [0, 100] and reaches 100 exactly when k = n |
| BlueGreen.PerformHealthChecks | modules/blue-green-deployment/deployment_orchestrator.py:172-201 | 'unknown' without a live environment, 'error' on a failed read, 'unhealthy' for no instances, otherwise the total, the healthy count equal to the number of healthy positions, the percentage 100·healthy/total, 'healthy' iff every instance is healthy and 'degraded' iff one is not |
| BlueGreen.WaitForHealthyInstances | modules/blue-green-deployment/deployment_orchestrator.py:203-229 | returns the first poll within the 20-poll limit that sees a healthy instance (failed polls are retried), and None exactly when no such poll exists |
| BlueGreen.SwitchRoles | modules/blue-green-deployment/deployment_orchestrator.py:105-114 | old is the other environment from new; new is green exactly when the current environment is blue |
| BlueGreen.RollbackRun | modules/blue-green-deployment/deployment_orchestrator.py:256-282 | reference function of the rollback: restore old to 1/3/1, then retire new to 0/0/0, then one 'rolled back' alert; a failing call keeps what was done before it and ends with one 'Rollback failed' alert, raising nothing |
| BlueGreen.SwitchRun | modules/blue-green-deployment/deployment_orchestrator.py:101-167 | reference function of the switch: the final fleet, the alerts and the outcome of each path (scale-up failure, timeout, failed validation with rollback, scale-down failure, success); its properties are the four lemmas below |
| BlueGreen.SwitchSucceeds | modules/blue-green-deployment/deployment_orchestrator.py:118-162 | the switch succeeds exactly when both updates go through and the new group is healthy in time and at validation; then new is 1/3/1, old is 0/0/0 and one success alert is sent |
| BlueGreen.ValidationFailureRollsBack | modules/blue-green-deployment/deployment_orchestrator.py:131-138 | a failed validation returns the rollback result, never scales the old group down, and with working calls leaves old at 1/3/1 and new at 0/0/0 |
| BlueGreen.TimeoutLeavesOldUntouched | modules/blue-green-deployment/deployment_orchestrator.py:127-167 | a health timeout raises after one failure alert, leaves new scaled up and old unchanged, and does not roll back |
| BlueGreen.SwitchRaisesOnlyBeforeRollback | modules/blue-green-deployment/deployment_orchestrator.py:256-282 | every switch sends exactly one alert, and what it raises is a scale-up failure, a scale-down failure or the timeout, never a rollback failure |
| BlueGreen.DeploymentGateway.UpdateAutoScalingGroup | modules/blue-green-deployment/deployment_orchestrator.py:120-125 | sets one group's min/max/desired and leaves the other group and the alerts unchanged |
| BlueGreen.DeploymentGateway.SendAlert | modules/blue-green-deployment/deployment_orchestrator.py:308-318 | appends one alert and leaves the capacities unchanged |
| BlueGreen.SwitchTraffic | modules/blue-green-deployment/deployment_orchestrator.py:250-254 | changes neither fleet nor alerts: the source only logs |
| BlueGreen.RollbackDeployment | modules/blue-green-deployment/deployment_orchestrator.py:256-282 | the groups and alerts end as RollbackRun gives: restore old, retire new, alert, or stop at the failing call with a "Rollback failed" alert |
| BlueGreen.HandleDeploymentSwitch | modules/blue-green-deployment/deployment_orchestrator.py:101-167 | the groups, alerts and outcome end as SwitchRun gives |
| BlueGreen.SwitchResponse | modules/blue-green-deployment/deployment_orchestrator.py:135-162 | the status code is 200 exactly when the switch succeeded |
| BlueGreen.Handler | modules/blue-green-deployment/deployment_orchestrator.py:17-70 | the live environment comes from the resolver's own blue read, the health report from the second, separate describe; without a 'switch' action it returns that report and changes nothing; with one it runs the switch, and a raised error adds an orchestrator alert and a 500 |
| VerticalScaling.IndexOf | modules/blue-green-deployment/vertical_scaler.py:168 | None exactly when the type is not on the ladder, else the first position holding it |
| VerticalScaling.WantsUp | modules/blue-green-deployment/vertical_scaler.py:171 | CPU above 75 or memory above 80 |
| VerticalScaling.WantsDown | modules/blue-green-deployment/vertical_scaler.py:176 | CPU below 30 and memory below 40 |
| VerticalScaling.NextRung | modules/blue-green-deployment/vertical_scaler.py:168-180 | stays within the ladder, moves at most one rung, goes up exactly under high load below the top and down exactly under low load above the bottom |
| VerticalScaling.DetermineScalingAction | modules/blue-green-deployment/vertical_scaler.py:165-180 | an error exactly when the current type is off the ladder; otherwise a ladder member: the next rung under high load below the top, the previous one under low load above the bottom, else the current type |
| VerticalScaling.UnchangedIffNoMove | modules/blue-green-deployment/vertical_scaler.py:172-180 | on a ladder without duplicates the type stays exactly when neither move applies (high load at the top, low load at the bottom stay put), and otherwise is an adjacent rung |
| VerticalScaling.SmallMediumLargeLadder | modules/blue-green-deployment/vertical_scaler.py:165-180 | worked cases on small/medium/large: up, down, stay, clamped at either end, unknown type |
| VerticalScaling.MetricOrZero | modules/blue-green-deployment/vertical_scaler.py:135-140 | the average when there are datapoints, else 0 |
| VerticalScaling.MissingMetricsStepDown | modules/blue-green-deployment/vertical_scaler.py:135-140 | metrics without datapoints read as 0, which steps down from any rung above the bottom |
| VerticalScaling.ActiveGroup | modules/blue-green-deployment/vertical_scaler.py:92-102 | a group that exists with desired capacity above 0, blue preferred; None exactly when neither qualifies |
| VerticalScaling.GetActiveAsg | modules/blue-green-deployment/vertical_scaler.py:90-102 | the loop with early return yields ActiveGroup |
| VerticalScaling.ScalingSuccessRollsOut | modules/blue-green-deployment/vertical_scaler.py:197-233 | a successful run adds a version equal to the previous $Latest with only the instance type replaced, points the group at $Latest and starts one rolling refresh at 100% minimum healthy and 300 s warm-up |
| VerticalScaling.ScalingRun | modules/blue-green-deployment/vertical_scaler.py:182-240 | reference function of the rollout: each of the four calls that completes leaves its effect, and the first that raises ends the run with 'error' |
| VerticalScaling.ScalingFailsAtFirstFault | modules/blue-green-deployment/vertical_scaler.py:185-240 | 'success' exactly when none of the four calls raises and the template has versions; otherwise 'error' naming the first call that raised, every earlier call having completed |
| VerticalScaling.ScalingStepsInOrder | modules/blue-green-deployment/vertical_scaler.py:185-240 | a refresh starts only after the group was repointed, the group is repointed only after a version was created, and a failed run reports the failing call and starts no refresh |
| VerticalScaling.ScalingGateway.CreateLaunchTemplateVersion | modules/blue-green-deployment/vertical_scaler.py:197-203 | appends to the template's versions a copy of $Latest with the new instance type |
| VerticalScaling.ScalingGateway.UpdateAutoScalingGroup | modules/blue-green-deployment/vertical_scaler.py:208-214 | repoints one group's launch template and changes nothing else |
| VerticalScaling.ScalingGateway.StartInstanceRefresh | modules/blue-green-deployment/vertical_scaler.py:217-224 | records one refresh request and changes nothing else |
| VerticalScaling.ScalingGateway.SendNotification | modules/blue-green-deployment/vertical_scaler.py:242-271 | appends one notification and leaves the templates unchanged |
| VerticalScaling.PerformVerticalScaling | modules/blue-green-deployment/vertical_scaler.py:182-240 | state and result as ScalingRun gives; no notification |
| VerticalScaling.LambdaHandler | modules/blue-green-deployment/vertical_scaler.py:28-88 | no active group, no instance type, an off-ladder type or an unchanged type each leave the gateway untouched; a changed type rolls out as ScalingRun gives and sends exactly one notification with the result's status |
| CostOptimizer.BusinessHours | modules/cost-optimization/cost_optimizer.py:196-198 | not off-hours exactly on weekdays from hour 8 through hour 19 |
| CostOptimizer.IsOffHours | modules/cost-optimization/cost_optimizer.py:196-198 | Saturday or Sunday, before hour 8 or after hour 19 |
| CostOptimizer.CurrentCapacity | modules/cost-optimization/cost_optimizer.py:181-184 | the group's DesiredCapacity, or 0 when the describe call lists no group |
| CostOptimizer.NeededWorkers | modules/cost-optimization/cost_optimizer.py:202 | the fewest workers at two jobs each that cover the queue |
| CostOptimizer.MakeScalingDecision | modules/cost-optimization/cost_optimizer.py:174-225 | the first-match rules (backlog above 3 scales up to at most 10; idle off-hours goes to 0; excess idle drops one), no change exactly when no rule applies, bounds 0..10 kept, each action moving the capacity its own way |
| CostOptimizer.ScaleUpAboveCapShrinks | modules/cost-optimization/cost_optimizer.py:201-205 | for every queue above 3, clock and capacity above 10, the 'scale_up' decision lowers the capacity to 10 |
| CostOptimizer.DecisionExamples | modules/cost-optimization/cost_optimizer.py:200-217 | worked cases for each rule and the missing-group default of 0 |
| CostOptimizer.WorkerGroup.SetDesiredCapacity | modules/cost-optimization/cost_optimizer.py:244-248 | records the call and changes the capacity only when it does not raise |
| CostOptimizer.ExecuteScaling | modules/cost-optimization/cost_optimizer.py:227-274 | capacity_change is target minus current; one call honouring the cooldown exactly when target differs; action_taken only after it succeeds, error exactly when it raised |
| CostOptimizer.OptimizeCapacity | modules/cost-optimization/cost_optimizer.py:33-36 | decides from the group's capacity, then executes; the group ends at the target unless the call raised |
| SecurityResponder.Contains | modules/security-automation/security_responder.py:36-41 | Python's case-sensitive substring test; a contained string is no longer than its container |
| SecurityResponder.ContainsAtSomeOffset | modules/security-automation/security_responder.py:36-41 | the substring test holds exactly when some window of the type equals the pattern |
| SecurityResponder.SelectActions | modules/security-automation/security_responder.py:33-41 | at most one action; none below severity 8; at or above it isolate for Malware/Trojan, else terminate for Cryptocurrency, else isolate for Backdoor, and none exactly when no rule matches |
| SecurityResponder.MissingSeverityNoResponse | modules/security-automation/security_responder.py:25-35 | a finding without a severity reads as 0 and gets no response |
| SecurityResponder.FindingType | modules/security-automation/security_responder.py:24 | the finding's type, or 'Unknown' when it has none |
| SecurityResponder.Severity | modules/security-automation/security_responder.py:25 | the finding's severity, or 0 when it has none |
| SecurityResponder.InstanceId | modules/security-automation/security_responder.py:26-30 | the instance id only when 'resource' and 'instanceDetails' are both present, else None |
| SecurityResponder.LateCharMissing | modules/security-automation/security_responder.py:36-41 | a substring test fails when the pattern's character at offset d is absent from everything after the type's first d characters |
| SecurityResponder.MalwareRuleMissesCryptoCurrency | modules/security-automation/security_responder.py:36 | 'Malware' is not in 'CryptoCurrency:EC2/BitcoinTool.B' |
| SecurityResponder.TrojanRuleMissesCryptoCurrency | modules/security-automation/security_responder.py:36 | 'Trojan' is not in 'CryptoCurrency:EC2/BitcoinTool.B' |
| SecurityResponder.TerminationRuleMissesCryptoCurrency | modules/security-automation/security_responder.py:38 | 'Cryptocurrency' is not in 'CryptoCurrency:EC2/BitcoinTool.B' |
| SecurityResponder.BackdoorRuleMissesCryptoCurrency | modules/security-automation/security_responder.py:40 | 'Backdoor' is not in 'CryptoCurrency:EC2/BitcoinTool.B' |
| SecurityResponder.CryptoCurrencySpellingMatchesNoRule | modules/security-automation/security_responder.py:35-41 | a 'CryptoCurrency:EC2/BitcoinTool.B' finding gets no action at any severity |
| SecurityResponder.FirstAsgTag | modules/security-automation/security_responder.py:104-108 | None exactly when no tag has the group-name key, else the value of the first such tag |
| SecurityResponder.FindAsgName | modules/security-automation/security_responder.py:104-108 | the loop with break yields FirstAsgTag |
| SecurityResponder.NoInstanceNoEffects | modules/security-automation/security_responder.py:44-48 | without an instance id no chosen action isolates, terminates or changes capacity |
| SecurityResponder.IsolationEffects | modules/security-automation/security_responder.py:76-95 | the instance is isolated unless the call raised; nothing is raised |
| SecurityResponder.TerminationEffects | modules/security-automation/security_responder.py:97-124 | nothing when the describe or the terminate call raised; otherwise the instance is terminated, and the first group-name tag, when non-empty, gets capacity 1 without cooldown unless that call raised |
| SecurityResponder.Dispatch | modules/security-automation/security_responder.py:43-48 | reference function of the dispatch loop: the effects of the actions in order, each with the finding's instance id |
| SecurityResponder.InstancePresentActs | modules/security-automation/security_responder.py:44-48 | with an instance id the chosen action is carried out on that instance |
| SecurityResponder.TerminationCapacityCall | modules/security-automation/security_responder.py:110-119 | termination asks for capacity 1, without cooldown, of the tagged group exactly when a non-empty group tag exists and the calls succeed; it terminates this instance, and only it, exactly when describe and terminate succeed |
| SecurityResponder.JoinLines | modules/security-automation/security_responder.py:143 | one '- ACTION' line per action, joined by newlines; its inverse is stated by JoinLinesRoundTrip |
| SecurityResponder.RenderActionList | modules/security-automation/security_responder.py:143 | the joined lines, or '- No automated actions taken' for no actions; its inverse is stated by RenderRoundTrip |
| SecurityResponder.JoinLinesNotEmptyLine | modules/security-automation/security_responder.py:143 | a non-empty action list never renders as the "no actions" line |
| SecurityResponder.JoinLinesRoundTrip | modules/security-automation/security_responder.py:143 | the joined "- ACTION" lines parse back to the same action list |
| SecurityResponder.RenderRoundTrip | modules/security-automation/security_responder.py:143 | the rendered action list, "- No automated actions taken" for none, parses back to exactly the actions taken |
| SecurityResponder.SecurityGateway.Publish | modules/security-automation/security_responder.py:52-57 | appends one alert and changes nothing else |
| SecurityResponder.IsolateInstanceCall | modules/security-automation/security_responder.py:76-95 | records the isolation unless the call raised; the error is swallowed |
| SecurityResponder.TerminateInstanceCall | modules/security-automation/security_responder.py:97-124 | effects as TerminationEffects gives, including the tag search; errors are swallowed |
| SecurityResponder.ActionEffects | modules/security-automation/security_responder.py:45-48 | no effect without an instance id; otherwise the isolation or termination effects of the action |
| SecurityResponder.ActOn | modules/security-automation/security_responder.py:45-48 | one pass of the loop: the action's effects with an instance id, none without |
| SecurityResponder.DispatchActions | modules/security-automation/security_responder.py:43-48 | the loop carries out the actions in order, with effects as Dispatch gives |
| SecurityResponder.LambdaHandler | modules/security-automation/security_responder.py:21-74 | effects as Dispatch gives for the selected actions; an alert with the rendered list is published when a topic is set; 500 exactly when that publish raised, otherwise 200 with the actions, type and severity |

## Left out

- The boto3 calls, environment variables, logging, `print` and message text other than the action list. They are replaced by the gateway classes and inputs described above.
- The wall-clock time. `time.time` and `time.sleep` are replaced by a bound on the number of polls. `datetime.now()` becomes an explicit `Clock` (weekday, hour). Timestamps are not modelled.
- `log_deployment_status`, `send_alert`'s SNS call, `store_optimization_data`, `check_cost_alerts`, `publish_cost_metrics`, `send_error_alert` and `get_infrastructure_costs`: these are I/O and float cost arithmetic with no bearing on the decisions.
- Cost optimizer: the hourly, daily and monthly cost figures, with their float rounding, are not modelled. `CostImpact` keeps only the capacity change, whether the action was taken, and whether there was an error.
- `get_jenkins_metrics` is a simulated placeholder. The model takes the queue and executor counts as inputs.
- Vertical scaler: `get_cpu_utilization` and `get_memory_utilization` are CloudWatch queries rounded to two decimals. The model takes the averages as inputs, with None for no datapoints or a failed query. `get_current_instance_type` is a describe call, so the model takes its answer as an input. An exception it raises, which would escape the handler, is not modelled.
- `BlueGreen.Handler`: the missing-environment-variable error raised before the switch is not modelled.
- `BlueGreen.PerformHealthChecks`: `health_percentage` is a Python float, but the model computes it as an exact real. Float rounding is not modelled. It could only matter for groups of more than 2^53 instances, where k/n might round to 1.0 for k < n.
- `VerticalScaling.ActiveGroup` and `VerticalScaling.GetActiveAsg`: an exception from the describe calls of `get_active_asg` is not modelled. The source does not catch it, so it escapes `lambda_handler`.
- `CostOptimizer.MakeScalingDecision` and `CostOptimizer.OptimizeCapacity`: an exception from the describe call of `make_scaling_decision` is not modelled. In the source it reaches `lambda_handler`, which sends one error alert and re-raises.
- Security responder: `isolate_instance` creates a security group, a foreign call. The model keeps only whether the isolation took effect.
- Security responder: the subject line, timestamp, description and region fields of the alert are not modelled.
- Security responder: a tag without a 'Key' or 'Value' entry is not modelled.
- `generate_enterprise_diagram.py` and `scripts/create_animated_architecture.py` draw pictures and contain no decision logic.
