/** Values shared by the service binder: Java references the model does not look inside,
    filter and provider descriptions, the service domain, route scripts, errors and the
    calls that register() makes on the runtime's collaborators. */
module RsfTypes {

  /** A Java reference that may be null: None is null. */
  datatype Option<+T> = None | Some(value: T)

  /** A Java Class object (a service interface or an implementation class), by name. */
  datatype ClassRef = ClassRef(name: string)

  /** The identity of a Java object (a filter, a service instance, a provider). */
  datatype ObjRef = ObjRef(id: nat)

  /** A Provider<? extends RsfFilter>: an InstanceProvider around one filter object,
      or a provider the caller supplied. */
  datatype FilterProvider =
    | FilterInstance(filter: ObjRef)
    | FilterFromProvider(provider: ObjRef)

  /** FilterDefine: one named filter. */
  datatype FilterDefine = FilterDefine(filterID: string, provider: FilterProvider)

  /** The customer provider of a service, by the setter that built it. */
  datatype Provider =
    | ClassProvider(implementation: ClassRef)  // to(): instantiates the class on each get()
    | InstanceProvider(instance: Option<ObjRef>)  // toInstance(): the object is wrapped unchecked
    | CustomProvider(provider: ObjRef)  // toProvider()

  /** A java.net.URI, by its text. */
  datatype Uri = Uri(text: string)

  /** The two address-format checks of the address library:
      InterServiceAddress.checkFormat and InterAddress.checkFormat. */
  datatype AddressFormats = AddressFormats(isServiceAddress: Uri -> bool, isInterAddress: Uri -> bool)
  {
    /** bindAddress accepts a URI when either check accepts it. */
    predicate Accepts(u: Uri) {
      isServiceAddress(u) || isInterAddress(u)
    }
  }

  /** The defaults a service interface declares (its RsfService annotation or the settings). */
  datatype ServiceInfo = ServiceInfo(
    group: string, name: string, version: string, serializeType: string, clientTimeout: int)

  /** ServiceDomain: the identity and client settings of one service. */
  datatype ServiceDomain = ServiceDomain(
    serviceType: ClassRef,
    bindGroup: string,
    bindName: string,
    bindVersion: string,
    serializeType: string,
    clientTimeout: int)

  /** BindServiceDefine: the domain, the customer provider and the filters added to it. */
  datatype ServiceDefine = ServiceDefine(
    domain: ServiceDomain,
    customerProvider: Option<Provider>,
    filters: seq<FilterDefine>)

  /** ScriptResourceRef: the three route-script bodies, each possibly null. */
  datatype ScriptRef = ScriptRef(
    serviceLevel: Option<string>,
    methodLevel: Option<string>,
    argsLevel: Option<string>)

  /** RouteScriptTypeEnum. */
  datatype RouteLevel = ServiceLevel | MethodLevel | ArgsLevel

  /** The exceptions the binder throws: NullPointerException from Hasor.assertIsNotNull,
      FormatException and RepeateException, each with its message. */
  datatype Error =
    | NullArgument(message: string)
    | FormatError(message: string)
    | RepeateError(message: string)

  /** The messages of those exceptions. */
  function NullMessage(what: string): string { what + " is null." }
  function SlashMessage(value: string): string { value + " contain '/'" }
  const TimeoutMessage: string := "clientTimeout must be greater than 0"
  function CheckFailMessage(u: Uri): string { u.text + " check fail." }
  function RepeateMessage(filterID: string): string { "repeate filterID :" + filterID }

  /** A call that either returns normally or throws. */
  datatype Outcome = Pass | Fail(error: Error)

  /** A call that register() makes on the bind center or on the address pool.
      The bind ID is derived from the service define, so a call records the define itself. */
  datatype Call =
    | PublishService(define: ServiceDefine, provider: Option<Provider>)
    | NewAddress(define: ServiceDefine, addresses: set<Uri>)
    | RefreshFlowControl(flowControl: Option<string>, define: ServiceDefine)
    | RefreshRouteScript(define: ServiceDefine, level: RouteLevel, script: string)
}
