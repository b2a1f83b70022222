/** The security incident responder: choose at most one response to a threat finding
    from its severity and type, carry it out on the instance named in the finding, and
    publish an alert that lists what was done. */
module SecurityResponder {
  import opened Common

  const HIGH_SEVERITY: real := 8.0
  const ASG_TAG_KEY := "aws:autoscaling:groupName"

  datatype ResponseAction = IsolateInstance | TerminateInstance

  function ActionName(a: ResponseAction): string {
    match a
    case IsolateInstance => "ISOLATE_INSTANCE"
    case TerminateInstance => "TERMINATE_INSTANCE"
  }

  // ---------------------------------------------------------------------------
  // The finding

  datatype InstanceDetails = InstanceDetails(instanceId: Option<string>)
  datatype Resource = Resource(instanceDetails: Option<InstanceDetails>)

  /** The event's 'detail' object; a missing key is None (a missing 'detail' is all None). */
  datatype Detail = Detail(findingType: Option<string>, severity: Option<real>, resource: Option<Resource>)

  function FindingType(d: Detail): string {
    d.findingType.GetOr("Unknown")
  }

  function Severity(d: Detail): real {
    d.severity.GetOr(0.0)
  }

  /** `detail['resource']['instanceDetails'].get('instanceId')` when both keys are present. */
  function InstanceId(d: Detail): Option<string> {
    if d.resource.Some? && d.resource.value.instanceDetails.Some? then
      d.resource.value.instanceDetails.value.instanceId
    else None
  }

  /** Python's `sub in s` on strings (case-sensitive). */
  predicate Contains(s: string, sub: string)
    ensures Contains(s, sub) ==> |sub| <= |s|
  {
    sub <= s || (s != [] && Contains(s[1..], sub))
  }

  /** `sub` is the window of `s` that starts at position `k`. */
  predicate OccursAt(s: string, sub: string, k: int) {
    0 <= k && k + |sub| <= |s| && s[k..k + |sub|] == sub
  }

  /** A window of `s[1..]` is the window of `s` one position later. */
  lemma OccursAtShift(s: string, sub: string, j: int)
    requires s != [] && 0 <= j
    ensures OccursAt(s[1..], sub, j) <==> OccursAt(s, sub, j + 1)
  {
    if 0 <= j && j + |sub| <= |s| - 1 {
      assert s[1..][j..j + |sub|] == s[j + 1..j + 1 + |sub|];
    }
  }

  /** The substring test agrees with its definition by slices: `sub` occurs in `s`
      exactly when some window of `s` equals it. */
  lemma {:induction false} ContainsAtSomeOffset(s: string, sub: string)
    ensures Contains(s, sub) <==> exists k :: OccursAt(s, sub, k)
    decreases |s|
  {
    if s == [] {
      if sub == [] {
        assert OccursAt(s, sub, 0);
      }
    } else {
      ContainsAtSomeOffset(s[1..], sub);
      assert OccursAt(s, sub, 0) <==> sub <= s;
      if Contains(s[1..], sub) {
        var j :| OccursAt(s[1..], sub, j);
        OccursAtShift(s, sub, j);
      }
      if exists k :: OccursAt(s, sub, k) {
        var k :| OccursAt(s, sub, k);
        if k > 0 {
          OccursAtShift(s, sub, k - 1);
        }
      }
    }
  }

  /** The response rules: nothing below severity 8; above it the first rule whose
      substring occurs in the type decides, so at most one action is chosen. */
  function SelectActions(severity: real, findingType: string): (actions: seq<ResponseAction>)
    ensures |actions| <= 1
    ensures severity < HIGH_SEVERITY ==> actions == []
    ensures severity >= HIGH_SEVERITY && (Contains(findingType, "Malware") || Contains(findingType, "Trojan")) ==>
      actions == [IsolateInstance]
    ensures severity >= HIGH_SEVERITY && !Contains(findingType, "Malware") && !Contains(findingType, "Trojan") &&
            Contains(findingType, "Cryptocurrency") ==>
      actions == [TerminateInstance]
    ensures severity >= HIGH_SEVERITY && !Contains(findingType, "Malware") && !Contains(findingType, "Trojan") &&
            !Contains(findingType, "Cryptocurrency") && Contains(findingType, "Backdoor") ==>
      actions == [IsolateInstance]
    ensures actions == [] <==>
      severity < HIGH_SEVERITY ||
      (!Contains(findingType, "Malware") && !Contains(findingType, "Trojan") &&
       !Contains(findingType, "Cryptocurrency") && !Contains(findingType, "Backdoor"))
  {
    if severity >= HIGH_SEVERITY then
      if Contains(findingType, "Malware") || Contains(findingType, "Trojan") then [IsolateInstance]
      else if Contains(findingType, "Cryptocurrency") then [TerminateInstance]
      else if Contains(findingType, "Backdoor") then [IsolateInstance]
      else []
    else []
  }

  /** A finding without a severity reads as severity 0 and gets no response. */
  lemma MissingSeverityNoResponse(t: Option<string>, r: Option<Resource>)
    ensures SelectActions(Severity(Detail(t, None, r)), FindingType(Detail(t, None, r))) == []
  {
  }

  /** When the character at offset `d` of `sub` does not occur in `q`, `sub` occurs
      nowhere in `p + q` for a prefix `p` of at most `d` characters: every occurrence
      would put that character inside `q`. */
  lemma {:induction false} LateCharMissing(p: string, q: string, sub: string, d: nat)
    requires |p| <= d < |sub| && sub[d] !in q
    ensures !Contains(p + q, sub)
    decreases |p| + |q|
  {
    var s := p + q;
    if d < |s| {
      assert s[d] == q[d - |p|];
    }
    if p != [] {
      assert s[1..] == p[1..] + q;
      LateCharMissing(p[1..], q, sub, d);
    } else if q != [] {
      assert s[1..] == [] + q[1..];
      assert forall k :: 0 <= k < |q[1..]| ==> q[1..][k] == q[k + 1];
      LateCharMissing([], q[1..], sub, d);
    }
  }

  /** GuardDuty's type for a Bitcoin-mining instance, split where the proof below splits it. */
  const CRYPTO_CURRENCY_TYPE := "C" + ("ryptoCurre" + "ncy:EC2/BitcoinTool.B")

  lemma CryptoCurrencyTypeSpelling()
    ensures CRYPTO_CURRENCY_TYPE == "CryptoCurrency:EC2/BitcoinTool.B"
  {
  }

  lemma MalwareRuleMissesCryptoCurrency()
    ensures !Contains(CRYPTO_CURRENCY_TYPE, "Malware")
  {
    assert [] + CRYPTO_CURRENCY_TYPE == CRYPTO_CURRENCY_TYPE;
    LateCharMissing([], CRYPTO_CURRENCY_TYPE, "Malware", 4);   // no 'w'
  }

  lemma TrojanRuleMissesCryptoCurrency()
    ensures !Contains(CRYPTO_CURRENCY_TYPE, "Trojan")
  {
    assert [] + CRYPTO_CURRENCY_TYPE == CRYPTO_CURRENCY_TYPE;
    LateCharMissing([], CRYPTO_CURRENCY_TYPE, "Trojan", 3);    // no 'j'
  }

  lemma BackdoorRuleMissesCryptoCurrency()
    ensures !Contains(CRYPTO_CURRENCY_TYPE, "Backdoor")
  {
    assert [] + CRYPTO_CURRENCY_TYPE == CRYPTO_CURRENCY_TYPE;
    LateCharMissing([], CRYPTO_CURRENCY_TYPE, "Backdoor", 1);  // no 'a'
  }

  /** 'Cryptocurrency' cannot start at offset 0 (the seventh characters differ) nor later
      (no 'e' lies far enough on). */
  lemma TerminationRuleMissesCryptoCurrency()
    ensures !Contains(CRYPTO_CURRENCY_TYPE, "Cryptocurrency")
  {
    var p, q := "ryptoCurre", "ncy:EC2/BitcoinTool.B";
    LateCharMissing(p, q, "Cryptocurrency", 10);
    assert CRYPTO_CURRENCY_TYPE[1..] == p + q;
    assert CRYPTO_CURRENCY_TYPE[6] == p[5] == 'C';
  }

  /** The type test is case-sensitive: GuardDuty's own spelling 'CryptoCurrency' matches
      no rule, so such a finding gets no response at any severity. */
  lemma CryptoCurrencySpellingMatchesNoRule(severity: real)
    ensures SelectActions(severity, CRYPTO_CURRENCY_TYPE) == []
  {
    MalwareRuleMissesCryptoCurrency();
    TrojanRuleMissesCryptoCurrency();
    BackdoorRuleMissesCryptoCurrency();
    TerminationRuleMissesCryptoCurrency();
  }

  // ---------------------------------------------------------------------------
  // Carrying the action out

  datatype Tag = Tag(key: string, value: string)

  /** The value of the first tag keyed 'aws:autoscaling:groupName'. */
  function FirstAsgTag(tags: seq<Tag>): (name: Option<string>)
    ensures name.None? <==> forall k :: 0 <= k < |tags| ==> tags[k].key != ASG_TAG_KEY
    ensures name.Some? ==>
      exists k :: 0 <= k < |tags| && tags[k].key == ASG_TAG_KEY && tags[k].value == name.value &&
        forall j :: 0 <= j < k ==> tags[j].key != ASG_TAG_KEY
  {
    if tags == [] then None
    else if tags[0].key == ASG_TAG_KEY then Some(tags[0].value)
    else
      var rest := FirstAsgTag(tags[1..]);
      assert forall k :: 1 <= k < |tags| ==> tags[k] == tags[1..][k - 1];
      rest
  }

  /** The tag search loop of terminate_instance, stopping at the first group-name tag. */
  method FindAsgName(tags: seq<Tag>) returns (name: Option<string>)
    ensures name == FirstAsgTag(tags)
  {
    name := None;
    var i := 0;
    while i < |tags|
      invariant 0 <= i <= |tags|
      invariant name.None?
      invariant forall j :: 0 <= j < i ==> tags[j].key != ASG_TAG_KEY
    {
      if tags[i].key == ASG_TAG_KEY {
        name := Some(tags[i].value);
        break;
      }
      i := i + 1;
    }
  }

  datatype CapacityRequest = CapacityRequest(group: string, desired: int, honorCooldown: bool)

  /** What the responses changed: instances isolated, instances terminated and the
      set_desired_capacity calls that went through. */
  datatype Effects = Effects(isolated: seq<string>, terminated: seq<string>, capacityRequests: seq<CapacityRequest>) {
    function Then(later: Effects): Effects {
      Effects(isolated + later.isolated, terminated + later.terminated, capacityRequests + later.capacityRequests)
    }
  }

  const NO_EFFECTS := Effects([], [], [])

  /** Adding no effects leaves the record as it was. */
  lemma ThenNoEffects(e: Effects)
    ensures e.Then(NO_EFFECTS) == e
  {
    assert e.isolated + [] == e.isolated;
    assert e.terminated + [] == e.terminated;
    assert e.capacityRequests + [] == e.capacityRequests;
  }

  /** The gateway answers the responses meet: whether isolation raises, the instance's
      tags (the describe call may raise), and whether the terminate and capacity calls raise. */
  datatype ResponseEnv = ResponseEnv(isolateFails: bool, tags: Read<seq<Tag>>, terminateFails: bool, capacityFails: bool)

  /** terminate_instance: a failing call ends it quietly; the group named by the tag, if
      any and not empty, is asked for one instance without honouring the cooldown. */
  function TerminationEffects(id: string, env: ResponseEnv): Effects {
    match env.tags
    case ReadFailed => NO_EFFECTS
    case Got(tags) =>
      if env.terminateFails then NO_EFFECTS
      else
        var name := FirstAsgTag(tags);
        if Truthy(name) && !env.capacityFails then Effects([], [id], [CapacityRequest(name.value, 1, false)])
        else Effects([], [id], [])
  }

  /** isolate_instance: a failing call ends it quietly. */
  function IsolationEffects(id: string, env: ResponseEnv): Effects {
    if env.isolateFails then NO_EFFECTS else Effects([id], [], [])
  }

  /** One response action: nothing happens without an instance id. */
  function ActionEffects(a: ResponseAction, id: Option<string>, env: ResponseEnv): Effects {
    if !Truthy(id) then NO_EFFECTS
    else
      match a
      case IsolateInstance => IsolationEffects(id.value, env)
      case TerminateInstance => TerminationEffects(id.value, env)
  }

  /** The dispatch loop over `actions`, in order. */
  function Dispatch(actions: seq<ResponseAction>, id: Option<string>, env: ResponseEnv): Effects
    decreases |actions|
  {
    if actions == [] then NO_EFFECTS
    else Dispatch(actions[..|actions| - 1], id, env).Then(ActionEffects(actions[|actions| - 1], id, env))
  }

  /** Without an instance id no action has any effect, however many are chosen. */
  lemma {:induction false} NoInstanceNoEffects(actions: seq<ResponseAction>, id: Option<string>, env: ResponseEnv)
    requires !Truthy(id)
    ensures Dispatch(actions, id, env) == NO_EFFECTS
  {
    if actions != [] {
      NoInstanceNoEffects(actions[..|actions| - 1], id, env);
    }
  }

  /** With an instance id, the one chosen action is carried out on that instance:
      isolation unless it fails, termination as TerminationEffects describes. */
  lemma InstancePresentActs(a: ResponseAction, id: Option<string>, env: ResponseEnv)
    requires Truthy(id)
    ensures Dispatch([a], id, env) ==
      if a == IsolateInstance then
        (if env.isolateFails then NO_EFFECTS else Effects([id.value], [], []))
      else TerminationEffects(id.value, env)
  {
  }

  /** Termination asks the group for capacity 1 exactly when the instance's tags name a
      group and all calls go through; it never touches any other group. */
  lemma TerminationCapacityCall(id: string, env: ResponseEnv)
    ensures var e := TerminationEffects(id, env);
      && |e.capacityRequests| <= 1
      && (e.capacityRequests != [] <==>
            env.tags.Got? && !env.terminateFails && Truthy(FirstAsgTag(env.tags.value)) && !env.capacityFails)
      && (e.capacityRequests != [] ==>
            e.capacityRequests == [CapacityRequest(FirstAsgTag(env.tags.value).value, 1, false)])
      && e.terminated == (if env.tags.Got? && !env.terminateFails then [id] else [])
      && e.isolated == []
  {
  }

  // ---------------------------------------------------------------------------
  // The alert's action list

  const NO_ACTIONS_LINE := "- No automated actions taken"

  function ActionLine(a: ResponseAction): string {
    "- " + ActionName(a)
  }

  /** `chr(10).join(...)` of the action lines. */
  function JoinLines(actions: seq<ResponseAction>): string
    requires actions != []
  {
    if |actions| == 1 then ActionLine(actions[0])
    else ActionLine(actions[0]) + "\n" + JoinLines(actions[1..])
  }

  /** The "Actions Taken" part of create_alert_message. */
  function RenderActionList(actions: seq<ResponseAction>): string {
    if actions == [] then NO_ACTIONS_LINE else JoinLines(actions)
  }

  /** Reads an action list back: the inverse of RenderActionList. */
  function ParseActionList(s: string): Option<seq<ResponseAction>> {
    if s == NO_ACTIONS_LINE then Some([]) else ParseLines(s)
  }

  function ParseLines(s: string): Option<seq<ResponseAction>>
    decreases |s|
  {
    if ActionLine(IsolateInstance) <= s then ParseRest(IsolateInstance, s[|ActionLine(IsolateInstance)|..])
    else if ActionLine(TerminateInstance) <= s then ParseRest(TerminateInstance, s[|ActionLine(TerminateInstance)|..])
    else None
  }

  function ParseRest(a: ResponseAction, rest: string): Option<seq<ResponseAction>>
    decreases |rest|, 1
  {
    if rest == [] then Some([a])
    else if rest[0] == '\n' then
      match ParseLines(rest[1..])
      case Some(more) => Some([a] + more)
      case None => None
    else None
  }

  /** Parsing a line followed by `tail` reads the line's action and continues with `tail`. */
  lemma ParseLineThen(a: ResponseAction, tail: string)
    ensures ParseLines(ActionLine(a) + tail) == ParseRest(a, tail)
  {
    var s := ActionLine(a) + tail;
    assert s[..|ActionLine(a)|] == ActionLine(a);
    assert s[|ActionLine(a)|..] == tail;
    if a == TerminateInstance {
      assert s[2] == 'T';
      assert !(ActionLine(IsolateInstance) <= s) by {
        assert ActionLine(IsolateInstance)[2] == 'I';
      }
    }
  }

  /** A rendered list starts with its first action's line. */
  lemma JoinLinesStart(actions: seq<ResponseAction>)
    requires actions != []
    ensures JoinLines(actions) == ActionLine(actions[0]) + RestLines(actions[1..])
  {
  }

  /** What follows the first line: nothing, or a newline and the remaining lines. */
  function RestLines(rest: seq<ResponseAction>): string {
    if rest == [] then [] else "\n" + JoinLines(rest)
  }

  lemma JoinLinesNotEmptyLine(actions: seq<ResponseAction>)
    requires actions != []
    ensures JoinLines(actions) != NO_ACTIONS_LINE
  {
  }

  /** A newline followed by lines that parse continues the list. */
  lemma ParseRestNewline(a: ResponseAction, more: seq<ResponseAction>)
    requires more != [] && ParseLines(JoinLines(more)) == Some(more)
    ensures ParseRest(a, RestLines(more)) == Some([a] + more)
  {
    var tail := RestLines(more);
    assert tail[0] == '\n';
    assert tail[1..] == JoinLines(more);
  }

  /** A single line parses back to its action. */
  lemma OneLineRoundTrip(a: ResponseAction)
    ensures ParseLines(JoinLines([a])) == Some([a])
  {
    ParseLineThen(a, []);
    assert ActionLine(a) + [] == ActionLine(a);
  }

  /** Parsing the first line and then the rest: the step of the round trip. */
  lemma JoinLinesRoundTripStep(a: ResponseAction, more: seq<ResponseAction>)
    requires more != [] && ParseLines(JoinLines(more)) == Some(more)
    ensures ParseLines(JoinLines([a] + more)) == Some([a] + more)
  {
    var actions := [a] + more;
    assert actions[0] == a && actions[1..] == more;
    JoinLinesStart(actions);
    ParseLineThen(a, RestLines(more));
    ParseRestNewline(a, more);
  }

  /** The lines parse back to the same list. */
  lemma {:induction false} JoinLinesRoundTrip(actions: seq<ResponseAction>)
    requires actions != []
    ensures ParseLines(JoinLines(actions)) == Some(actions)
  {
    if |actions| > 1 {
      JoinLinesRoundTrip(actions[1..]);
      JoinLinesRoundTripStep(actions[0], actions[1..]);
      assert [actions[0]] + actions[1..] == actions;
    } else {
      OneLineRoundTrip(actions[0]);
      assert [actions[0]] == actions;
    }
  }

  /** The alert's action list determines the actions taken: it reads back exactly. */
  lemma RenderRoundTrip(actions: seq<ResponseAction>)
    ensures ParseActionList(RenderActionList(actions)) == Some(actions)
  {
    if actions != [] {
      JoinLinesNotEmptyLine(actions);
      JoinLinesRoundTrip(actions);
    }
  }

  // ---------------------------------------------------------------------------
  // The handler

  /** The published alert: the finding type in the subject and the rendered action list. */
  datatype SecurityAlert = SecurityAlert(findingType: string, actionList: string)

  datatype Response = ResponseCompleted(actions: seq<ResponseAction>, findingType: string, severity: real) | ResponseFailed {
    function StatusCode(): int {
      if ResponseCompleted? then 200 else 500
    }
  }

  class SecurityGateway {
    var effects: Effects
    var alerts: seq<SecurityAlert>

    constructor ()
      ensures effects == NO_EFFECTS && alerts == []
    {
      effects := NO_EFFECTS;
      alerts := [];
    }

    method Apply(e: Effects)
      modifies this
      ensures effects == old(effects).Then(e) && alerts == old(alerts)
    {
      effects := effects.Then(e);
    }

    method Publish(a: SecurityAlert)
      modifies this
      ensures alerts == old(alerts) + [a] && effects == old(effects)
    {
      alerts := alerts + [a];
    }
  }

  /** isolate_instance: quarantining the instance behind a fresh security group. */
  method IsolateInstanceCall(gw: SecurityGateway, id: string, env: ResponseEnv)
    modifies gw
    ensures gw.effects == old(gw.effects).Then(IsolationEffects(id, env)) && gw.alerts == old(gw.alerts)
  {
    if env.isolateFails {
      ThenNoEffects(gw.effects);
    } else {
      gw.Apply(Effects([id], [], []));
    }
  }

  /** terminate_instance, including its tag search loop. */
  method TerminateInstanceCall(gw: SecurityGateway, id: string, env: ResponseEnv)
    modifies gw
    ensures gw.effects == old(gw.effects).Then(TerminationEffects(id, env)) && gw.alerts == old(gw.alerts)
  {
    if env.tags.ReadFailed? || env.terminateFails {
      ThenNoEffects(gw.effects);
      return;
    }
    var name := FindAsgName(env.tags.value);
    if Truthy(name) && !env.capacityFails {
      gw.Apply(Effects([], [id], [CapacityRequest(name.value, 1, false)]));
    } else {
      gw.Apply(Effects([], [id], []));
    }
  }

  lemma DispatchStep(actions: seq<ResponseAction>, i: nat, id: Option<string>, env: ResponseEnv)
    requires i < |actions|
    ensures Dispatch(actions[..i + 1], id, env) == Dispatch(actions[..i], id, env).Then(ActionEffects(actions[i], id, env))
  {
    assert actions[..i + 1][..i] == actions[..i];
  }

  lemma ThenAssociative(x: Effects, y: Effects, z: Effects)
    ensures x.Then(y).Then(z) == x.Then(y.Then(z))
  {
  }

  /** One pass of the dispatch loop: the action runs only with an instance id. */
  method ActOn(gw: SecurityGateway, a: ResponseAction, id: Option<string>, env: ResponseEnv)
    modifies gw
    ensures gw.effects == old(gw.effects).Then(ActionEffects(a, id, env)) && gw.alerts == old(gw.alerts)
  {
    if a == IsolateInstance && Truthy(id) {
      IsolateInstanceCall(gw, id.value, env);
    } else if a == TerminateInstance && Truthy(id) {
      TerminateInstanceCall(gw, id.value, env);
    } else {
      ThenNoEffects(gw.effects);
    }
  }

  /** The dispatch loop of lambda_handler. */
  method DispatchActions(gw: SecurityGateway, actions: seq<ResponseAction>, id: Option<string>, env: ResponseEnv)
    modifies gw
    ensures gw.effects == old(gw.effects).Then(Dispatch(actions, id, env)) && gw.alerts == old(gw.alerts)
  {
    var i := 0;
    while i < |actions|
      invariant 0 <= i <= |actions|
      invariant gw.effects == old(gw.effects).Then(Dispatch(actions[..i], id, env))
      invariant gw.alerts == old(gw.alerts)
    {
      ActOn(gw, actions[i], id, env);
      ThenAssociative(old(gw.effects), Dispatch(actions[..i], id, env), ActionEffects(actions[i], id, env));
      DispatchStep(actions, i, id, env);
      i := i + 1;
    }
    assert actions[..|actions|] == actions;
  }

  /** lambda_handler: the chosen actions are carried out; the alert goes out when a topic
      is configured, and a publish that raises turns the answer into a 500. */
  method LambdaHandler(gw: SecurityGateway, detail: Detail, topic: Option<string>, env: ResponseEnv,
                       publishFails: bool)
    returns (resp: Response)
    modifies gw
    ensures var actions := SelectActions(Severity(detail), FindingType(detail));
      && gw.effects == old(gw.effects).Then(Dispatch(actions, InstanceId(detail), env))
      && gw.alerts == old(gw.alerts) +
           (if Truthy(topic) && !publishFails then [SecurityAlert(FindingType(detail), RenderActionList(actions))] else [])
      && resp == (if Truthy(topic) && publishFails then ResponseFailed
                  else ResponseCompleted(actions, FindingType(detail), Severity(detail)))
  {
    var findingType := FindingType(detail);
    var severity := Severity(detail);
    var id := InstanceId(detail);
    var actions := SelectActions(severity, findingType);
    DispatchActions(gw, actions, id, env);
    if Truthy(topic) {
      if publishFails {
        return ResponseFailed;
      }
      gw.Publish(SecurityAlert(findingType, RenderActionList(actions)));
    }
    return ResponseCompleted(actions, findingType, severity);
  }
}
