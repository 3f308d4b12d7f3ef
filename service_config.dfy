/** The configuration a per-service builder (LinkedBuilderImpl) accumulates, and the effect
    of each of its setters on it. The class LinkedBuilder in module Binder is proved to
    follow Step; the lemmas here say what any sequence of setter calls leaves behind. */
module ServiceConfig {
  import opened RsfTypes

  /** Everything a LinkedBuilderImpl holds: its service define, its address set, its
      flow-control body and its route scripts. */
  datatype BuilderState = BuilderState(
    define: ServiceDefine,
    addresses: set<Uri>,
    flowControl: Option<string>,
    scripts: ScriptRef)

  /** A builder right after its constructor: the domain takes the declared defaults
      unchecked, no provider, no filter, no address, null flow control and null scripts. */
  function InitialState(serviceType: ClassRef, info: ServiceInfo): BuilderState {
    BuilderState(
      ServiceDefine(
        ServiceDomain(serviceType, info.group, info.name, info.version, info.serializeType, info.clientTimeout),
        None, []),
      {}, None, ScriptRef(None, None, None))
  }

  /** s with filters appended to its filter chain, as rsfService seeds a new builder. */
  function Seeded(s: BuilderState, filters: seq<FilterDefine>): BuilderState {
    s.(define := s.define.(filters := s.define.filters + filters))
  }

  /** One call on the builder's configuration surface. */
  datatype Op =
    | SetGroup(group: Option<string>)
    | SetName(name: Option<string>)
    | SetVersion(version: Option<string>)
    | SetTimeout(timeout: int)
    | SetSerialize(serializeType: Option<string>)
    | BindFilter(filter: FilterDefine)
    | To(implementation: ClassRef)
    | ToInstance(instance: Option<ObjRef>)
    | ToProvider(provider: ObjRef)
    | BindAddress(uri: Uri)
    | UpdateRoute(flowControl: Option<string>)
    | UpdateServiceScript(body: Option<string>)
    | UpdateMethodScript(body: Option<string>)
    | UpdateArgsScript(body: Option<string>)

  /** The part of the state an operation is allowed to write. */
  datatype Part =
    | GroupPart | NamePart | VersionPart | TimeoutPart | SerializePart
    | FiltersPart | ProviderPart | AddressesPart | FlowControlPart
    | ServiceScriptPart | MethodScriptPart | ArgsScriptPart

  function Writes(op: Op): Part {
    match op
    case SetGroup(_) => GroupPart
    case SetName(_) => NamePart
    case SetVersion(_) => VersionPart
    case SetTimeout(_) => TimeoutPart
    case SetSerialize(_) => SerializePart
    case BindFilter(_) => FiltersPart
    case To(_) => ProviderPart
    case ToInstance(_) => ProviderPart
    case ToProvider(_) => ProviderPart
    case BindAddress(_) => AddressesPart
    case UpdateRoute(_) => FlowControlPart
    case UpdateServiceScript(_) => ServiceScriptPart
    case UpdateMethodScript(_) => MethodScriptPart
    case UpdateArgsScript(_) => ArgsScriptPart
  }

  /** s and t hold the same value everywhere except possibly in part p. */
  predicate AgreeExcept(s: BuilderState, t: BuilderState, p: Part) {
    var d, e := s.define.domain, t.define.domain;
    d.serviceType == e.serviceType
    && (p != GroupPart ==> d.bindGroup == e.bindGroup)
    && (p != NamePart ==> d.bindName == e.bindName)
    && (p != VersionPart ==> d.bindVersion == e.bindVersion)
    && (p != TimeoutPart ==> d.clientTimeout == e.clientTimeout)
    && (p != SerializePart ==> d.serializeType == e.serializeType)
    && (p != FiltersPart ==> s.define.filters == t.define.filters)
    && (p != ProviderPart ==> s.define.customerProvider == t.define.customerProvider)
    && (p != AddressesPart ==> s.addresses == t.addresses)
    && (p != FlowControlPart ==> s.flowControl == t.flowControl)
    && (p != ServiceScriptPart ==> s.scripts.serviceLevel == t.scripts.serviceLevel)
    && (p != MethodScriptPart ==> s.scripts.methodLevel == t.scripts.methodLevel)
    && (p != ArgsScriptPart ==> s.scripts.argsLevel == t.scripts.argsLevel)
  }

  /** The provider that to, toInstance and toProvider pass to setCustomerProvider. */
  function ProviderSet(op: Op): Option<Provider> {
    match op
    case To(c) => Some(ClassProvider(c))
    case ToInstance(i) => Some(InstanceProvider(i))
    case ToProvider(p) => Some(CustomProvider(p))
    case _ => None
  }

  /** A group, name, version or serialize type the builder accepts: not null, no '/'. */
  predicate ValidIdentifier(v: Option<string>) {
    v.Some? && '/' !in v.value
  }

  /** The checks of group, name, version and serialize: assertIsNotNull, then no '/'. */
  function CheckIdentifier(what: string, v: Option<string>): (r: Outcome)
    ensures r.Pass? <==> ValidIdentifier(v)
    ensures r.Fail? ==> (r.error.NullArgument? <==> v.None?)
    ensures r.Fail? ==> r.error.NullArgument? || r.error.FormatError?
  {
    if v.None? then Fail(NullArgument(NullMessage(what)))
    else if '/' in v.value then Fail(FormatError(SlashMessage(v.value)))
    else Pass
  }

  /** The outcome of one call and the state it leaves. */
  datatype Stepped = Stepped(outcome: Outcome, state: BuilderState)

  function WithDomain(s: BuilderState, d: ServiceDomain): BuilderState {
    s.(define := s.define.(domain := d))
  }

  /** The effect of one setter of LinkedBuilderImpl. */
  function Step(s: BuilderState, op: Op, formats: AddressFormats): (r: Stepped)
    // a rejected call leaves everything as it was
    ensures r.outcome.Fail? ==> r.state == s
  {
    var d := s.define.domain;
    match op
    case SetGroup(g) =>
      var c := CheckIdentifier("group", g);
      if c.Fail? then Stepped(c, s) else Stepped(Pass, WithDomain(s, d.(bindGroup := g.value)))
    case SetName(n) =>
      var c := CheckIdentifier("name", n);
      if c.Fail? then Stepped(c, s) else Stepped(Pass, WithDomain(s, d.(bindName := n.value)))
    case SetVersion(v) =>
      var c := CheckIdentifier("version", v);
      if c.Fail? then Stepped(c, s) else Stepped(Pass, WithDomain(s, d.(bindVersion := v.value)))
    case SetTimeout(t) =>
      if t < 1 then Stepped(Fail(FormatError(TimeoutMessage)), s)
      else Stepped(Pass, WithDomain(s, d.(clientTimeout := t)))
    case SetSerialize(v) =>
      var c := CheckIdentifier("serializeType", v);
      if c.Fail? then Stepped(c, s) else Stepped(Pass, WithDomain(s, d.(serializeType := v.value)))
    case BindFilter(f) =>
      Stepped(Pass, s.(define := s.define.(filters := s.define.filters + [f])))
    case To(_) =>
      Stepped(Pass, s.(define := s.define.(customerProvider := ProviderSet(op))))
    case ToInstance(_) =>
      Stepped(Pass, s.(define := s.define.(customerProvider := ProviderSet(op))))
    case ToProvider(_) =>
      Stepped(Pass, s.(define := s.define.(customerProvider := ProviderSet(op))))
    case BindAddress(u) =>
      if formats.Accepts(u) then Stepped(Pass, s.(addresses := s.addresses + {u}))
      else Stepped(Fail(FormatError(CheckFailMessage(u))), s)
    case UpdateRoute(body) =>
      Stepped(Pass, s.(flowControl := body))
    case UpdateServiceScript(body) =>
      Stepped(Pass, s.(scripts := s.scripts.(serviceLevel := body)))
    case UpdateMethodScript(body) =>
      Stepped(Pass, s.(scripts := s.scripts.(methodLevel := body)))
    case UpdateArgsScript(body) =>
      Stepped(Pass, s.(scripts := s.scripts.(argsLevel := body)))
  }

  /** Every setter writes its own part of the state and nothing else. */
  lemma StepWritesOwnPart(s: BuilderState, op: Op, formats: AddressFormats)
    ensures AgreeExcept(s, Step(s, op, formats).state, Writes(op))
  {
  }

  /** group, name, version and serialize accept exactly the non-null values without '/',
      and an accepted value is stored as given. */
  lemma IdentitySettersValidate(s: BuilderState, v: Option<string>, formats: AddressFormats)
    ensures var r := Step(s, SetGroup(v), formats);
      (r.outcome.Pass? <==> ValidIdentifier(v)) && (r.outcome.Pass? ==> r.state.define.domain.bindGroup == v.value)
    ensures var r := Step(s, SetName(v), formats);
      (r.outcome.Pass? <==> ValidIdentifier(v)) && (r.outcome.Pass? ==> r.state.define.domain.bindName == v.value)
    ensures var r := Step(s, SetVersion(v), formats);
      (r.outcome.Pass? <==> ValidIdentifier(v)) && (r.outcome.Pass? ==> r.state.define.domain.bindVersion == v.value)
    ensures var r := Step(s, SetSerialize(v), formats);
      (r.outcome.Pass? <==> ValidIdentifier(v)) && (r.outcome.Pass? ==> r.state.define.domain.serializeType == v.value)
    // a rejection is the error of the check: null-argument for null, FormatException for '/'
    ensures Step(s, SetGroup(v), formats).outcome.Fail? ==> Step(s, SetGroup(v), formats).outcome.error == CheckIdentifier("group", v).error
    ensures Step(s, SetName(v), formats).outcome.Fail? ==> Step(s, SetName(v), formats).outcome.error == CheckIdentifier("name", v).error
    ensures Step(s, SetVersion(v), formats).outcome.Fail? ==> Step(s, SetVersion(v), formats).outcome.error == CheckIdentifier("version", v).error
    ensures Step(s, SetSerialize(v), formats).outcome.Fail? ==> Step(s, SetSerialize(v), formats).outcome.error == CheckIdentifier("serializeType", v).error
  {
  }

  /** timeout accepts exactly the values of at least 1, and stores them. */
  lemma TimeoutValidates(s: BuilderState, t: int, formats: AddressFormats)
    ensures var r := Step(s, SetTimeout(t), formats);
      (r.outcome.Pass? <==> t >= 1)
      && (r.outcome.Fail? ==> r.outcome.error.FormatError?)
      && (r.outcome.Pass? ==> r.state.define.domain.clientTimeout == t)
  {
  }

  /** to, toInstance and toProvider never fail and make their provider the customer provider. */
  lemma ProviderSettersStore(s: BuilderState, op: Op, formats: AddressFormats)
    requires ProviderSet(op).Some?
    ensures var r := Step(s, op, formats);
      r.outcome.Pass? && r.state.define.customerProvider == ProviderSet(op)
  {
  }

  /** bindAddress adds the URI exactly when one of the two formats accepts it. */
  lemma BindAddressAccepts(s: BuilderState, u: Uri, formats: AddressFormats)
    ensures var r := Step(s, BindAddress(u), formats);
      (r.outcome.Pass? <==> formats.Accepts(u))
      && (r.outcome.Fail? ==> r.outcome.error.FormatError?)
      && r.state.addresses == if r.outcome.Pass? then s.addresses + {u} else s.addresses
  {
  }

  /** bindFilter appends one filter; updateRoute and the three script setters store their
      body as given, null and blank included. None of them fails. */
  lemma UnvalidatedSettersStore(s: BuilderState, f: FilterDefine, body: Option<string>, formats: AddressFormats)
    ensures var r := Step(s, BindFilter(f), formats);
      r.outcome.Pass? && r.state.define.filters == s.define.filters + [f]
    ensures var r := Step(s, UpdateRoute(body), formats);
      r.outcome.Pass? && r.state.flowControl == body
    ensures var r := Step(s, UpdateServiceScript(body), formats);
      r.outcome.Pass? && r.state.scripts.serviceLevel == body
    ensures var r := Step(s, UpdateMethodScript(body), formats);
      r.outcome.Pass? && r.state.scripts.methodLevel == body
    ensures var r := Step(s, UpdateArgsScript(body), formats);
      r.outcome.Pass? && r.state.scripts.argsLevel == body
  {
  }

  /** The state after calling ops in order on s. A rejected call throws and changes nothing,
      so the calls after it see the same state (a caller that catches and goes on). */
  function Run(s: BuilderState, ops: seq<Op>, formats: AddressFormats): BuilderState
    decreases |ops|
  {
    if ops == [] then s
    else Step(Run(s, ops[..|ops| - 1], formats), ops[|ops| - 1], formats).state
  }

  // ---------------------------------------------------------------------------------
  // Provider: last writer wins

  /** The provider written by the last of to / toInstance / toProvider in ops,
      or initial when ops holds none of them. */
  function LastProvider(ops: seq<Op>, initial: Option<Provider>): Option<Provider>
    decreases |ops|
  {
    if ops == [] then initial
    else if ProviderSet(ops[|ops| - 1]).Some? then ProviderSet(ops[|ops| - 1])
    else LastProvider(ops[..|ops| - 1], initial)
  }

  /** to, toInstance and toProvider all go through setCustomerProvider: after any sequence
      of calls the provider is the one the last of them set. */
  lemma {:induction false} ProviderLastWriterWins(s: BuilderState, ops: seq<Op>, formats: AddressFormats)
    ensures Run(s, ops, formats).define.customerProvider == LastProvider(ops, s.define.customerProvider)
    decreases |ops|
  {
    if ops != [] {
      ProviderLastWriterWins(s, ops[..|ops| - 1], formats);
    }
  }

  // ---------------------------------------------------------------------------------
  // Addresses: a set of the accepted URIs

  /** Every URI that some bindAddress call in ops passes to a format check that accepts it. */
  function AcceptedAddresses(ops: seq<Op>, formats: AddressFormats): set<Uri> {
    set i | 0 <= i < |ops| && ops[i].BindAddress? && formats.Accepts(ops[i].uri) :: ops[i].uri
  }

  lemma AcceptedAddressesSnoc(ops: seq<Op>, op: Op, formats: AddressFormats)
    ensures AcceptedAddresses(ops + [op], formats)
      == AcceptedAddresses(ops, formats)
         + (if op.BindAddress? && formats.Accepts(op.uri) then {op.uri} else {})
  {
    var all := ops + [op];
    assert forall i :: 0 <= i < |ops| ==> all[i] == ops[i];
    assert all[|ops|] == op;
  }

  /** hostAddressSet is exactly the initial set plus the URIs of the accepted bindAddress calls:
      a rejected URI is never added, and binding the same URI again adds nothing new. */
  lemma {:induction false} AddressesAreAcceptedBinds(s: BuilderState, ops: seq<Op>, formats: AddressFormats)
    ensures Run(s, ops, formats).addresses == s.addresses + AcceptedAddresses(ops, formats)
    decreases |ops|
  {
    if ops == [] {
      assert AcceptedAddresses(ops, formats) == {};
    } else {
      var init := ops[..|ops| - 1];
      AddressesAreAcceptedBinds(s, init, formats);
      AcceptedAddressesSnoc(init, ops[|ops| - 1], formats);
      assert init + [ops[|ops| - 1]] == ops;
    }
  }

  /** Binding a URI a second time changes neither the outcome nor the state. */
  lemma BindAddressIdempotent(s: BuilderState, u: Uri, formats: AddressFormats)
    ensures var once := Step(s, BindAddress(u), formats);
            Step(once.state, BindAddress(u), formats) == once
  {
    var once := Step(s, BindAddress(u), formats);
    if formats.Accepts(u) {
      assert once.state.addresses + {u} == once.state.addresses;
    }
  }

  // ---------------------------------------------------------------------------------
  // Filters: appended in call order

  /** The filters of the bindFilter calls in ops, in order. */
  function FiltersOf(ops: seq<Op>): seq<FilterDefine>
    decreases |ops|
  {
    if ops == [] then []
    else if ops[0].BindFilter? then [ops[0].filter] + FiltersOf(ops[1..])
    else FiltersOf(ops[1..])
  }

  lemma {:induction false} FiltersOfSnoc(ops: seq<Op>, op: Op)
    ensures FiltersOf(ops + [op]) == FiltersOf(ops) + (if op.BindFilter? then [op.filter] else [])
    decreases |ops|
  {
    if ops != [] {
      assert (ops + [op])[1..] == ops[1..] + [op];
      FiltersOfSnoc(ops[1..], op);
    }
  }

  /** The filter chain of the service define is the chain it started with followed by
      the filters of every bindFilter call, in call order. */
  lemma {:induction false} FiltersAppendInOrder(s: BuilderState, ops: seq<Op>, formats: AddressFormats)
    ensures Run(s, ops, formats).define.filters == s.define.filters + FiltersOf(ops)
    decreases |ops|
  {
    if ops != [] {
      var init := ops[..|ops| - 1];
      FiltersAppendInOrder(s, init, formats);
      FiltersOfSnoc(init, ops[|ops| - 1]);
      assert init + [ops[|ops| - 1]] == ops;
    }
  }

  // ---------------------------------------------------------------------------------
  // The descriptor invariant the setters keep

  /** Identity and serialize type free of '/', client timeout at least 1. */
  predicate WellFormed(s: BuilderState) {
    var d := s.define.domain;
    '/' !in d.bindGroup && '/' !in d.bindName && '/' !in d.bindVersion
    && '/' !in d.serializeType && d.clientTimeout >= 1
  }

  /** The setters validate eagerly, so no sequence of calls breaks WellFormed. The
      constructor takes the declared defaults without checking them, which is why the
      invariant is only kept, not established. */
  lemma {:induction false} RunKeepsWellFormed(s: BuilderState, ops: seq<Op>, formats: AddressFormats)
    requires WellFormed(s)
    ensures WellFormed(Run(s, ops, formats))
    decreases |ops|
  {
    if ops != [] {
      RunKeepsWellFormed(s, ops[..|ops| - 1], formats);
    }
  }
}
