/** The service binder: the root RsfBindBuilder with its global filter list, and the
    per-service builder LinkedBuilderImpl that rsfService creates, configures step by step
    and registers with the runtime. */
module Binder {
  import opened RsfTypes
  import opened Text
  import opened ServiceConfig
  import opened Registration

  /** The runtime context the builders share. Its bind center and address pool are not
      modelled: each call register() makes on them is appended to log. */
  class RsfContext {
    /** The address library's format checks. */
    const formats: AddressFormats
    var log: seq<Call>

    constructor (formats: AddressFormats)
      ensures this.formats == formats && log == []
    {
      this.formats := formats;
      log := [];
    }
  }

  /** LinkedBuilderImpl: the configuration of one service under construction. */
  class LinkedBuilder {
    const context: RsfContext
    var serviceDefine: ServiceDefine
    var hostAddressSet: set<Uri>
    var flowControl: Option<string>
    var scriptRef: ScriptRef

    /** Everything the builder holds, as one value. */
    function State(): BuilderState
      reads this
    {
      BuilderState(serviceDefine, hostAddressSet, flowControl, scriptRef)
    }

    /** A new builder: the domain takes the declared defaults of the service type; no
        address, no flow-control body, no route script. */
    constructor (context: RsfContext, serviceType: ClassRef, info: ServiceInfo)
      ensures this.context == context
      ensures State() == InitialState(serviceType, info)
      ensures hostAddressSet == {} && flowControl == None && scriptRef == ScriptRef(None, None, None)
    {
      this.context := context;
      serviceDefine := ServiceDefine(
        ServiceDomain(serviceType, info.group, info.name, info.version, info.serializeType, info.clientTimeout),
        None, []);
      hostAddressSet := {};
      flowControl := None;
      scriptRef := ScriptRef(None, None, None);
    }

    method Group(group: Option<string>) returns (r: Outcome)
      modifies this
      ensures Stepped(r, State()) == Step(old(State()), SetGroup(group), context.formats)
    {
      r := CheckIdentifier("group", group);
      if r.Pass? {
        serviceDefine := serviceDefine.(domain := serviceDefine.domain.(bindGroup := group.value));
      }
    }

    method Name(name: Option<string>) returns (r: Outcome)
      modifies this
      ensures Stepped(r, State()) == Step(old(State()), SetName(name), context.formats)
    {
      r := CheckIdentifier("name", name);
      if r.Pass? {
        serviceDefine := serviceDefine.(domain := serviceDefine.domain.(bindName := name.value));
      }
    }

    method Version(version: Option<string>) returns (r: Outcome)
      modifies this
      ensures Stepped(r, State()) == Step(old(State()), SetVersion(version), context.formats)
    {
      r := CheckIdentifier("version", version);
      if r.Pass? {
        serviceDefine := serviceDefine.(domain := serviceDefine.domain.(bindVersion := version.value));
      }
    }

    method Timeout(clientTimeout: int) returns (r: Outcome)
      modifies this
      ensures Stepped(r, State()) == Step(old(State()), SetTimeout(clientTimeout), context.formats)
    {
      if clientTimeout < 1 {
        r := Fail(FormatError(TimeoutMessage));
        return;
      }
      serviceDefine := serviceDefine.(domain := serviceDefine.domain.(clientTimeout := clientTimeout));
      r := Pass;
    }

    method Serialize(serializeType: Option<string>) returns (r: Outcome)
      modifies this
      ensures Stepped(r, State()) == Step(old(State()), SetSerialize(serializeType), context.formats)
    {
      r := CheckIdentifier("serializeType", serializeType);
      if r.Pass? {
        serviceDefine := serviceDefine.(domain := serviceDefine.domain.(serializeType := serializeType.value));
      }
    }

    /** bindFilter(filterID, provider): hands the filter to the service define. */
    method BindFilter(filterID: string, provider: FilterProvider)
      modifies this
      ensures State() == Step(old(State()), ServiceConfig.BindFilter(FilterDefine(filterID, provider)), context.formats).state
    {
      serviceDefine := serviceDefine.(filters := serviceDefine.filters + [FilterDefine(filterID, provider)]);
    }

    /** bindFilter(filterID, instance): the filter object, wrapped as an instance provider. */
    method BindFilterInstance(filterID: string, filter: ObjRef)
      modifies this
      ensures State() == Step(old(State()), ServiceConfig.BindFilter(FilterDefine(filterID, FilterInstance(filter))), context.formats).state
    {
      BindFilter(filterID, FilterInstance(filter));
    }

    /** setCustomerProvider, the one writer of the provider. */
    method SetCustomerProvider(provider: Provider)
      modifies this
      ensures State() == old(State()).(define := old(serviceDefine).(customerProvider := Some(provider)))
    {
      serviceDefine := serviceDefine.(customerProvider := Some(provider));
    }

    /** to(implementation): a provider that instantiates the class on each get(). */
    method To(implementation: ClassRef)
      modifies this
      ensures State() == Step(old(State()), ServiceConfig.To(implementation), context.formats).state
    {
      SetCustomerProvider(ClassProvider(implementation));
    }

    method ToInstance(instance: Option<ObjRef>)
      modifies this
      ensures State() == Step(old(State()), ServiceConfig.ToInstance(instance), context.formats).state
    {
      SetCustomerProvider(InstanceProvider(instance));
    }

    method ToProvider(provider: ObjRef)
      modifies this
      ensures State() == Step(old(State()), ServiceConfig.ToProvider(provider), context.formats).state
    {
      SetCustomerProvider(CustomProvider(provider));
    }

    /** bindAddress(URI): added when either address format accepts it, else FormatException. */
    method BindAddress(rsfUri: Uri) returns (r: Outcome)
      modifies this
      ensures Stepped(r, State()) == Step(old(State()), ServiceConfig.BindAddress(rsfUri), context.formats)
    {
      if context.formats.isServiceAddress(rsfUri) || context.formats.isInterAddress(rsfUri) {
        hostAddressSet := hostAddressSet + {rsfUri};
        return Pass;
      }
      r := Fail(FormatError(CheckFailMessage(rsfUri)));
    }

    method UpdateRoute(flowControl: Option<string>)
      modifies this
      ensures State() == Step(old(State()), ServiceConfig.UpdateRoute(flowControl), context.formats).state
    {
      this.flowControl := flowControl;
    }

    method UpdateAddresServiceScript(scriptBody: Option<string>)
      modifies this
      ensures State() == Step(old(State()), UpdateServiceScript(scriptBody), context.formats).state
    {
      scriptRef := scriptRef.(serviceLevel := scriptBody);
    }

    method UpdateAddresMethodScript(scriptBody: Option<string>)
      modifies this
      ensures State() == Step(old(State()), UpdateMethodScript(scriptBody), context.formats).state
    {
      scriptRef := scriptRef.(methodLevel := scriptBody);
    }

    method UpdateAddresArgsScript(scriptBody: Option<string>)
      modifies this
      ensures State() == Step(old(State()), UpdateArgsScript(scriptBody), context.formats).state
    {
      scriptRef := scriptRef.(argsLevel := scriptBody);
    }

    /** register(): publishes the service, installs its addresses, refreshes the flow control
        and the non-blank route scripts, and returns the service define. The builder itself
        is left as it was, so it can be configured and registered again. */
    method Register() returns (define: ServiceDefine)
      modifies context
      ensures context.log == old(context.log) + RegisterTrace(State())
      ensures define == serviceDefine
    {
      ghost var s := State();
      context.log := context.log + [PublishService(serviceDefine, serviceDefine.customerProvider)];
      context.log := context.log + [NewAddress(serviceDefine, hostAddressSet)];
      context.log := context.log + [RefreshFlowControl(flowControl, serviceDefine)];
      ghost var l0 := context.log;
      assert l0 == old(context.log) + RegisterHead(s);
      if IsNotBlank(scriptRef.serviceLevel) {
        context.log := context.log + [RefreshRouteScript(serviceDefine, ServiceLevel, scriptRef.serviceLevel.value)];
      }
      ghost var c0 := RouteScriptCall(serviceDefine, ServiceLevel, scriptRef.serviceLevel);
      assert context.log == l0 + c0;
      assert context.log == old(context.log) + (RegisterHead(s) + c0);
      ghost var l1 := context.log;
      if IsNotBlank(scriptRef.methodLevel) {
        context.log := context.log + [RefreshRouteScript(serviceDefine, MethodLevel, scriptRef.methodLevel.value)];
      }
      ghost var c1 := RouteScriptCall(serviceDefine, MethodLevel, scriptRef.methodLevel);
      assert context.log == l1 + c1;
      assert context.log == old(context.log) + (RegisterHead(s) + c0 + c1);
      ghost var l2 := context.log;
      if IsNotBlank(scriptRef.argsLevel) {
        context.log := context.log + [RefreshRouteScript(serviceDefine, ArgsLevel, scriptRef.argsLevel.value)];
      }
      ghost var c2 := RouteScriptCall(serviceDefine, ArgsLevel, scriptRef.argsLevel);
      assert context.log == l2 + c2;
      assert RegisterTrace(s) == RegisterHead(s) + c0 + c1 + c2;
      assert context.log == old(context.log) + (RegisterHead(s) + c0 + c1 + c2);
      assert State() == s;
      define := serviceDefine;
    }
  }

  /** RsfBindBuilder: the root binder with the global filter list. */
  class RsfBindBuilder {
    const context: RsfContext
    var filterList: seq<FilterDefine>
    /** Read by the duplicate check in bindFilter, but never added to. */
    var filterIDs: set<string>

    /** The state every root binder is in: filterIDs stays as the constructor left it. */
    predicate Valid()
      reads this
    {
      filterIDs == {}
    }

    constructor (context: RsfContext)
      ensures this.context == context && filterList == [] && filterIDs == {}
      ensures Valid()
    {
      this.context := context;
      filterList := [];
      filterIDs := {};
    }

    /** bindFilter(filterID, provider): a RepeateException for an id in filterIDs, otherwise
        the filter goes to the end of filterList. As filterIDs is never written, a valid
        binder accepts every id, a repeated one included. */
    method BindFilter(filterID: string, provider: FilterProvider) returns (r: Outcome)
      modifies this`filterList
      ensures r == if filterID in filterIDs then Fail(RepeateError(RepeateMessage(filterID))) else Pass
      ensures filterList == if r.Pass? then old(filterList) + [FilterDefine(filterID, provider)] else old(filterList)
      ensures filterIDs == old(filterIDs)
      ensures Valid() ==> r.Pass?
    {
      if filterID in filterIDs {
        return Fail(RepeateError(RepeateMessage(filterID)));
      }
      filterList := filterList + [FilterDefine(filterID, provider)];
      r := Pass;
    }

    /** bindFilter(filterID, instance): a null filter fails assertIsNotNull; any other is
        bound through an instance provider. */
    method BindFilterInstance(filterID: string, instance: Option<ObjRef>) returns (r: Outcome)
      modifies this`filterList
      ensures instance.None? ==> r == Fail(NullArgument("")) && filterList == old(filterList)
      ensures instance.Some? ==>
        r == (if filterID in filterIDs then Fail(RepeateError(RepeateMessage(filterID))) else Pass)
        && filterList == if r.Pass? then old(filterList) + [FilterDefine(filterID, FilterInstance(instance.value))] else old(filterList)
    {
      if instance.None? {
        return Fail(NullArgument(""));
      }
      r := BindFilter(filterID, FilterInstance(instance.value));
    }

    /** rsfService(type): a new builder for the service, seeded with the filters bound to the
        root so far, in order. The builder holds a copy: filters bound to the root later do
        not reach it. */
    method RsfService(serviceType: ClassRef, info: ServiceInfo) returns (builder: LinkedBuilder)
      ensures fresh(builder) && builder.context == context
      ensures builder.State() == Seeded(InitialState(serviceType, info), filterList)
    {
      builder := new LinkedBuilder(context, serviceType, info);
      var i := 0;
      while i < |filterList|
        invariant 0 <= i <= |filterList|
        invariant fresh(builder) && builder.context == context
        invariant builder.State() == Seeded(InitialState(serviceType, info), filterList[..i])
      {
        var filter := filterList[i];
        builder.BindFilter(filter.filterID, filter.provider);
        assert filterList[..i + 1] == filterList[..i] + [filter];
        i := i + 1;
      }
      assert filterList[..i] == filterList;
    }

    /** rsfService(type, instance): rsfService(type).toInstance(instance). */
    method RsfServiceWithInstance(serviceType: ClassRef, info: ServiceInfo, instance: Option<ObjRef>)
      returns (builder: LinkedBuilder)
      ensures fresh(builder) && builder.context == context
      ensures builder.State()
        == Step(Seeded(InitialState(serviceType, info), filterList), ServiceConfig.ToInstance(instance), context.formats).state
    {
      builder := RsfService(serviceType, info);
      builder.ToInstance(instance);
    }

    /** rsfService(type, implementation): rsfService(type).to(implementation). */
    method RsfServiceWithClass(serviceType: ClassRef, info: ServiceInfo, implementation: ClassRef)
      returns (builder: LinkedBuilder)
      ensures fresh(builder) && builder.context == context
      ensures builder.State()
        == Step(Seeded(InitialState(serviceType, info), filterList), ServiceConfig.To(implementation), context.formats).state
    {
      builder := RsfService(serviceType, info);
      builder.To(implementation);
    }

    /** rsfService(type, provider): rsfService(type).toProvider(provider). */
    method RsfServiceWithProvider(serviceType: ClassRef, info: ServiceInfo, provider: ObjRef)
      returns (builder: LinkedBuilder)
      ensures fresh(builder) && builder.context == context
      ensures builder.State()
        == Step(Seeded(InitialState(serviceType, info), filterList), ServiceConfig.ToProvider(provider), context.formats).state
    {
      builder := RsfService(serviceType, info);
      builder.ToProvider(provider);
    }
  }

  // ---------------------------------------------------------------------------------
  // What callers can rely on

  /** A builder created before a filter is bound to the root keeps the filters it was
      seeded with; one created afterwards has the new filter at the end. */
  method SnapshotAtCreation(root: RsfBindBuilder, serviceType: ClassRef, info: ServiceInfo, filterID: string, provider: FilterProvider)
    returns (before: LinkedBuilder, after: LinkedBuilder)
    requires root.Valid()
    modifies root
    ensures before.State().define.filters == old(root.filterList)
    ensures after.State().define.filters == old(root.filterList) + [FilterDefine(filterID, provider)]
  {
    before := root.RsfService(serviceType, info);
    var r := root.BindFilter(filterID, provider);
    after := root.RsfService(serviceType, info);
  }

  /** The root accepts the same filter id twice: both copies end up in filterList. */
  method RepeatedRootFilterAccepted(root: RsfBindBuilder, filterID: string, p: FilterProvider, q: FilterProvider)
    returns (first: Outcome, second: Outcome)
    requires root.Valid()
    modifies root
    ensures first == Pass && second == Pass
    ensures root.filterList == old(root.filterList) + [FilterDefine(filterID, p), FilterDefine(filterID, q)]
  {
    first := root.BindFilter(filterID, p);
    second := root.BindFilter(filterID, q);
  }

  /** register() leaves no committed state behind: a second call publishes again. */
  method RegisterTwice(builder: LinkedBuilder)
    modifies builder.context
    ensures builder.context.log
      == old(builder.context.log) + RegisterTrace(builder.State()) + RegisterTrace(builder.State())
  {
    var d1 := builder.Register();
    var d2 := builder.Register();
  }
}
