/** What register() asks of the runtime's collaborators: the bind center publishes the
    service, the address pool receives the address set and the flow-control body, and each
    route script that is not blank is refreshed, level by level. */
module Registration {
  import opened RsfTypes
  import opened Text
  import opened ServiceConfig

  /** The refreshRouteScript call register() makes for one level: one call carrying the
      body when it is not blank, none when it is null or blank. */
  function RouteScriptCall(d: ServiceDefine, level: RouteLevel, body: Option<string>): seq<Call> {
    if IsNotBlank(body) then [RefreshRouteScript(d, level, body.value)] else []
  }

  /** The calls register() makes before it looks at the route scripts. */
  function RegisterHead(s: BuilderState): seq<Call> {
    [ PublishService(s.define, s.define.customerProvider),
      NewAddress(s.define, s.addresses),
      RefreshFlowControl(s.flowControl, s.define) ]
  }

  /** The calls register() makes, in order. */
  function RegisterTrace(s: BuilderState): seq<Call> {
    RegisterHead(s)
    + RouteScriptCall(s.define, ServiceLevel, s.scripts.serviceLevel)
    + RouteScriptCall(s.define, MethodLevel, s.scripts.methodLevel)
    + RouteScriptCall(s.define, ArgsLevel, s.scripts.argsLevel)
  }

  // ---------------------------------------------------------------------------------
  // Views of a trace

  function ScriptAt(r: ScriptRef, level: RouteLevel): Option<string> {
    match level
    case ServiceLevel => r.serviceLevel
    case MethodLevel => r.methodLevel
    case ArgsLevel => r.argsLevel
  }

  function LevelRank(level: RouteLevel): nat {
    match level
    case ServiceLevel => 0
    case MethodLevel => 1
    case ArgsLevel => 2
  }

  /** The refreshRouteScript calls of a trace that target one level, in order. */
  function RouteCallsAt(calls: seq<Call>, level: RouteLevel): seq<Call>
    decreases |calls|
  {
    if calls == [] then []
    else if calls[0].RefreshRouteScript? && calls[0].level == level then [calls[0]] + RouteCallsAt(calls[1..], level)
    else RouteCallsAt(calls[1..], level)
  }

  /** How many of the three route scripts are not blank. */
  function NonBlankScripts(r: ScriptRef): nat {
    (if IsNotBlank(r.serviceLevel) then 1 else 0)
    + (if IsNotBlank(r.methodLevel) then 1 else 0)
    + (if IsNotBlank(r.argsLevel) then 1 else 0)
  }

  // ---------------------------------------------------------------------------------
  // Lemmas

  lemma {:induction false} RouteCallsAtAppend(a: seq<Call>, b: seq<Call>, level: RouteLevel)
    ensures RouteCallsAt(a + b, level) == RouteCallsAt(a, level) + RouteCallsAt(b, level)
    decreases |a|
  {
    if a == [] {
      assert a + b == b;
    } else {
      assert (a + b)[0] == a[0];
      assert (a + b)[1..] == a[1..] + b;
      RouteCallsAtAppend(a[1..], b, level);
    }
  }

  /** A trace without refreshRouteScript calls has none at any level. */
  lemma {:induction false} RouteCallsAtNone(calls: seq<Call>, level: RouteLevel)
    requires forall k :: 0 <= k < |calls| ==> !calls[k].RefreshRouteScript?
    ensures RouteCallsAt(calls, level) == []
    decreases |calls|
  {
    if calls != [] {
      RouteCallsAtNone(calls[1..], level);
    }
  }

  /** The call for one level targets that level only. */
  lemma RouteCallsAtOneLevel(d: ServiceDefine, body: Option<string>, at: RouteLevel, level: RouteLevel)
    ensures RouteCallsAt(RouteScriptCall(d, at, body), level)
      == if at == level then RouteScriptCall(d, at, body) else []
  {
    var c := RouteScriptCall(d, at, body);
    if c != [] {
      assert c[1..] == [];
    }
  }

  /** Every call is a refreshRouteScript for d, at a level of rank n. */
  predicate RouteCallsOfRank(calls: seq<Call>, d: ServiceDefine, n: nat) {
    forall k :: 0 <= k < |calls| ==>
      calls[k].RefreshRouteScript? && calls[k].define == d && LevelRank(calls[k].level) == n
  }

  /** Every call is a refreshRouteScript for d, and the levels strictly rise along calls. */
  predicate RouteCallsRise(calls: seq<Call>, d: ServiceDefine) {
    (forall k :: 0 <= k < |calls| ==> calls[k].RefreshRouteScript? && calls[k].define == d)
    && (forall k, m :: 0 <= k < m < |calls| ==>
          calls[k].RefreshRouteScript? && calls[m].RefreshRouteScript?
          && LevelRank(calls[k].level) < LevelRank(calls[m].level))
  }

  /** Rising calls of ranks below n, followed by at most one call of rank n, still rise. */
  lemma RouteCallsRiseSnoc(a: seq<Call>, b: seq<Call>, d: ServiceDefine, n: nat)
    requires RouteCallsRise(a, d) && RouteCallsOfRank(b, d, n) && |b| <= 1
    requires forall k :: 0 <= k < |a| ==> a[k].RefreshRouteScript? && LevelRank(a[k].level) < n
    ensures RouteCallsRise(a + b, d)
    ensures forall k :: 0 <= k < |a + b| ==> (a + b)[k].RefreshRouteScript? && LevelRank((a + b)[k].level) <= n
  {
    var c := a + b;
    forall k | 0 <= k < |c|
      ensures c[k].RefreshRouteScript? && c[k].define == d && LevelRank(c[k].level) <= n
    {
      if k < |a| { assert c[k] == a[k]; } else { assert c[k] == b[k - |a|]; }
    }
    forall k, m | 0 <= k < m < |c|
      ensures c[k].RefreshRouteScript? && c[m].RefreshRouteScript?
      ensures LevelRank(c[k].level) < LevelRank(c[m].level)
    {
      if m < |a| { assert c[k] == a[k] && c[m] == a[m]; }
      else { assert c[k] == a[k] && c[m] == b[m - |a|]; }
    }
  }

  /** The call for one level is at most one refreshRouteScript, at that level. */
  lemma RouteScriptCallOfRank(d: ServiceDefine, level: RouteLevel, body: Option<string>)
    ensures var c := RouteScriptCall(d, level, body);
      RouteCallsOfRank(c, d, LevelRank(level)) && |c| == if IsNotBlank(body) then 1 else 0
  {
  }

  /** The trace of register() is its three fixed calls followed by the route-script calls. */
  lemma RegisterTraceSplit(s: BuilderState)
    ensures var d, r := s.define, s.scripts;
      RegisterTrace(s)[3..]
      == RouteScriptCall(d, ServiceLevel, r.serviceLevel)
         + RouteScriptCall(d, MethodLevel, r.methodLevel)
         + RouteScriptCall(d, ArgsLevel, r.argsLevel)
  {
    var d, r := s.define, s.scripts;
    var tail := RouteScriptCall(d, ServiceLevel, r.serviceLevel)
         + RouteScriptCall(d, MethodLevel, r.methodLevel)
         + RouteScriptCall(d, ArgsLevel, r.argsLevel);
    assert RegisterTrace(s) == RegisterHead(s) + tail;
  }

  /** The route-script calls of register() are refreshRouteScript calls, one per non-blank
      script, with rising levels. */
  lemma RouteScriptCallsOfRegister(s: BuilderState)
    ensures var calls := RegisterTrace(s)[3..];
      |calls| == NonBlankScripts(s.scripts) && RouteCallsRise(calls, s.define)
  {
    var d, r := s.define, s.scripts;
    var c0, c1, c2 := RouteScriptCall(d, ServiceLevel, r.serviceLevel),
                      RouteScriptCall(d, MethodLevel, r.methodLevel),
                      RouteScriptCall(d, ArgsLevel, r.argsLevel);
    RegisterTraceSplit(s);
    RouteScriptCallOfRank(d, ServiceLevel, r.serviceLevel);
    RouteScriptCallOfRank(d, MethodLevel, r.methodLevel);
    RouteScriptCallOfRank(d, ArgsLevel, r.argsLevel);
    assert [] + c0 == c0;
    RouteCallsRiseSnoc([], c0, d, 0);
    RouteCallsRiseSnoc(c0, c1, d, 1);
    RouteCallsRiseSnoc(c0 + c1, c2, d, 2);
  }

  /** The shape of the register() trace: publishService first, newAddress second,
      refreshFlowControl third (whether or not the body is blank), then one
      refreshRouteScript per non-blank script, Service before Method before Args. */
  lemma RegisterTraceShape(s: BuilderState)
    ensures var t := RegisterTrace(s);
      |t| == 3 + NonBlankScripts(s.scripts)
      && t[0] == PublishService(s.define, s.define.customerProvider)
      && t[1] == NewAddress(s.define, s.addresses)
      && t[2] == RefreshFlowControl(s.flowControl, s.define)
      && RouteCallsRise(t[3..], s.define)
  {
    RouteScriptCallsOfRegister(s);
  }

  /** refreshFlowControl is called exactly once, and with the body as it stands,
      null or blank included. */
  lemma FlowControlRefreshedOnce(s: BuilderState)
    ensures var t := RegisterTrace(s);
      forall k :: 0 <= k < |t| ==> (t[k].RefreshFlowControl? <==> k == 2)
    ensures RegisterTrace(s)[2].flowControl == s.flowControl
  {
    RegisterTraceShape(s);
    var t := RegisterTrace(s);
    forall k | 3 <= k < |t| ensures !t[k].RefreshFlowControl? {
      assert t[k] == t[3..][k - 3];
    }
  }

  /** For each level, register() refreshes that level's route script once, with its exact
      body, when the body is not blank, and not at all when it is null or blank. */
  lemma RegisterRoutesPerLevel(s: BuilderState, level: RouteLevel)
    ensures RouteCallsAt(RegisterTrace(s), level)
      == if IsNotBlank(ScriptAt(s.scripts, level))
         then [RefreshRouteScript(s.define, level, ScriptAt(s.scripts, level).value)]
         else []
  {
    var d, r := s.define, s.scripts;
    var head := RegisterHead(s);
    var c0, c1, c2 := RouteScriptCall(d, ServiceLevel, r.serviceLevel),
                      RouteScriptCall(d, MethodLevel, r.methodLevel),
                      RouteScriptCall(d, ArgsLevel, r.argsLevel);
    RouteCallsAtNone(head, level);
    RouteCallsAtAppend(head + c0 + c1, c2, level);
    RouteCallsAtAppend(head + c0, c1, level);
    RouteCallsAtAppend(head, c0, level);
    RouteCallsAtOneLevel(d, r.serviceLevel, ServiceLevel, level);
    RouteCallsAtOneLevel(d, r.methodLevel, MethodLevel, level);
    RouteCallsAtOneLevel(d, r.argsLevel, ArgsLevel, level);
  }
}
