# Service binding in RSF, modelled in Dafny

This project models the service binder of the RSF remote-service framework
(`RsfBindBuilder` and its inner per-service builder `LinkedBuilderImpl`) and proves
what its code promises.

- The root binder (`Binder.RsfBindBuilder`) keeps a global list of filters and a set of
  filter ids. `rsfService` creates a per-service builder and seeds it by binding, in
  order, each filter registered so far.
- The per-service builder (`Binder.LinkedBuilder`) is a fluent configuration object:
  - group, name, version and serialize type are checked eagerly: non-null, no `/`;
  - the client timeout must be at least 1;
  - an address is accepted when one of the two address-format checks accepts it;
  - the implementation provider is last-writer-wins;
  - it keeps a flow-control body and three route-script bodies.
- `register()` publishes the service to the bind center, then makes a fixed sequence of
  calls on the address pool.

Layout, one module per concern:

- `rsf_types.dfy` (`RsfTypes`): the values. These are Java references the model does not
  look inside, filter and provider descriptions, the service domain, route scripts, the
  exceptions with their messages, and the calls made on collaborators.
- `string_utils.dfy` (`Text`): `StringUtils.isNotBlank` over `Character.isWhitespace`.
- `service_config.dfy` (`ServiceConfig`): the builder's state as a value. `Step` gives the
  effect of each setter and `Run` the effect of a sequence of setter calls. The lemmas cover
  validation, the frame of each setter, provider last-writer-wins, the address set, the
  filter order and the descriptor invariant.
- `registration.dfy` (`Registration`): `RegisterTrace`, the calls `register()` makes, and
  lemmas about their order and their conditions.
- `binder.dfy` (`Binder`): the classes. `RsfContext` is the shared runtime. It keeps a log
  of collaborator calls and the address-format checks. `LinkedBuilder`'s fields mirror
  `LinkedBuilderImpl`'s. Each setter is proved to change `State()` exactly as `Step` says.
  The exceptions are `SetCustomerProvider`, which specifies its change directly, and
  `Register`, which leaves `State()` unchanged and only appends to the log.
  `RsfBindBuilder` holds `filterList` and `filterIDs`. Three client methods show what
  callers can rely on.

Four behaviours of the code that a reader might not expect; the model follows the code:

- `filterIDs` is created empty and never added to. So the root's duplicate-id check never
  rejects, and the same id can be bound twice (`Binder.RepeatedRootFilterAccepted`).
- `register()` calls `refreshFlowControl` every time, even when the body is null or blank.
  One would expect a blank body to be skipped, as the route scripts are.
- There is no committed state. After `register()` the builder can still be configured and
  registered again, and a second `register()` publishes again (`Binder.RegisterTwice`).
  In the source, a later setter also changes the define already published, because it is
  the same object; the model does not capture this (see `Binder.LinkedBuilder.Register`
  under "## Left out").
- The constructor copies the declared defaults without checking them. So "no `/` and
  timeout at least 1" is an invariant the setters keep (`RunKeepsWellFormed`), not one the
  constructor sets up.

## Model

| member | source | states |
|---|---|---|
| `Text.HasNonWhitespaceIff` | rsf-core/src/main/java/net/hasor/rsf/binder/RsfBindBuilder.java:225-230 | The not-blank scan used by register() is true exactly when the string holds a character that is not Java whitespace |
| `ServiceConfig.CheckIdentifier` | rsf-core/src/main/java/net/hasor/rsf/binder/RsfBindBuilder.java:121-124 | The check passes exactly for a non-null value without `/`; a null value gives the null-argument error, any other failure is a FormatException |
| `ServiceConfig.Step` | rsf-core/src/main/java/net/hasor/rsf/binder/RsfBindBuilder.java:119-248 | Every setter that throws leaves the whole builder state unchanged |
| `ServiceConfig.StepWritesOwnPart` | rsf-core/src/main/java/net/hasor/rsf/binder/RsfBindBuilder.java:119-248 | Each setter writes only its own field (group, name, version, timeout, serialize type, filters, provider, addresses, flow control, or one script level); every other field keeps its value |
| `ServiceConfig.IdentitySettersValidate` | rsf-core/src/main/java/net/hasor/rsf/binder/RsfBindBuilder.java:120-166 | group, name, version and serialize succeed exactly for a non-null value without `/`, and then store that value; a rejection is the null-argument error for null and a FormatException for a value with `/` |
| `ServiceConfig.TimeoutValidates` | rsf-core/src/main/java/net/hasor/rsf/binder/RsfBindBuilder.java:150-156 | timeout(t) succeeds exactly when t >= 1 and then stores t; otherwise it is a FormatException |
| `ServiceConfig.ProviderSettersStore` | rsf-core/src/main/java/net/hasor/rsf/binder/RsfBindBuilder.java:179-200 | to, toInstance and toProvider never fail and make their provider the customer provider |
| `ServiceConfig.BindAddressAccepts` | rsf-core/src/main/java/net/hasor/rsf/binder/RsfBindBuilder.java:213-219 | bindAddress succeeds exactly when one of the two format checks accepts the URI; the URI is then added to the set, and otherwise the set is unchanged and a FormatException is raised |
| `ServiceConfig.UnvalidatedSettersStore` | rsf-core/src/main/java/net/hasor/rsf/binder/RsfBindBuilder.java:173-248 | bindFilter (173-176) appends exactly its filter; updateRoute and the three script setters (233-248) store their body as given, null or blank included; none of them fails |
| `ServiceConfig.ProviderLastWriterWins` | rsf-core/src/main/java/net/hasor/rsf/binder/RsfBindBuilder.java:179-200 | After any sequence of calls, the customer provider is the one set by the last of to / toInstance / toProvider, or the initial one if none was called |
| `ServiceConfig.AddressesAreAcceptedBinds` | rsf-core/src/main/java/net/hasor/rsf/binder/RsfBindBuilder.java:213-219 | After any sequence of calls, the address set is the initial set plus exactly the URIs of the accepted bindAddress calls |
| `ServiceConfig.BindAddressIdempotent` | rsf-core/src/main/java/net/hasor/rsf/binder/RsfBindBuilder.java:213-219 | Binding the same URI a second time gives the same outcome and the same state as binding it once |
| `ServiceConfig.FiltersAppendInOrder` | rsf-core/src/main/java/net/hasor/rsf/binder/RsfBindBuilder.java:168-176 | After any sequence of calls, the service's filters are the seeded ones followed by those of each bindFilter call, in call order |
| `ServiceConfig.RunKeepsWellFormed` | rsf-core/src/main/java/net/hasor/rsf/binder/RsfBindBuilder.java:120-166 | If identity and serialize type hold no `/` and the timeout is at least 1, no sequence of setter calls breaks this |
| `Registration.RouteScriptCallsOfRegister` | rsf-core/src/main/java/net/hasor/rsf/binder/RsfBindBuilder.java:225-230 | After the first three calls, register() makes one refreshRouteScript call per non-blank script, for this service, with levels strictly rising |
| `Registration.RegisterTraceShape` | rsf-core/src/main/java/net/hasor/rsf/binder/RsfBindBuilder.java:221-232 | register() calls publishService, then newAddress with the address set, then refreshFlowControl with the body as it stands, then the route-script calls in Service, Method, Args order; the trace has 3 + (number of non-blank scripts) entries |
| `Registration.FlowControlRefreshedOnce` | rsf-core/src/main/java/net/hasor/rsf/binder/RsfBindBuilder.java:224 | refreshFlowControl is called exactly once, as the third call, with the flow-control body unchanged, null or blank included |
| `Registration.RegisterRoutesPerLevel` | rsf-core/src/main/java/net/hasor/rsf/binder/RsfBindBuilder.java:225-230 | For each level, register() makes one refreshRouteScript call with that level's exact body if it is not blank, and none if it is null or blank |
| `Binder.LinkedBuilder.constructor` | rsf-core/src/main/java/net/hasor/rsf/binder/RsfBindBuilder.java:103-117 | A new builder holds the declared defaults, no provider, no filter, an empty address set, a null flow-control body and null route scripts |
| `Binder.LinkedBuilder.Group` | rsf-core/src/main/java/net/hasor/rsf/binder/RsfBindBuilder.java:120-127 | The outcome and the new state are those of Step for group |
| `Binder.LinkedBuilder.Name` | rsf-core/src/main/java/net/hasor/rsf/binder/RsfBindBuilder.java:130-137 | The outcome and the new state are those of Step for name |
| `Binder.LinkedBuilder.Version` | rsf-core/src/main/java/net/hasor/rsf/binder/RsfBindBuilder.java:140-147 | The outcome and the new state are those of Step for version |
| `Binder.LinkedBuilder.Timeout` | rsf-core/src/main/java/net/hasor/rsf/binder/RsfBindBuilder.java:150-156 | The outcome and the new state are those of Step for timeout |
| `Binder.LinkedBuilder.Serialize` | rsf-core/src/main/java/net/hasor/rsf/binder/RsfBindBuilder.java:159-166 | The outcome and the new state are those of Step for serialize |
| `Binder.LinkedBuilder.BindFilter` | rsf-core/src/main/java/net/hasor/rsf/binder/RsfBindBuilder.java:173-176 | The new state is that of Step for bindFilter: the filter is appended to the service's filters |
| `Binder.LinkedBuilder.BindFilterInstance` | rsf-core/src/main/java/net/hasor/rsf/binder/RsfBindBuilder.java:168-171 | The filter object is appended to the service's filters, wrapped as an instance provider |
| `Binder.LinkedBuilder.SetCustomerProvider` | rsf-core/src/main/java/net/hasor/rsf/binder/RsfBindBuilder.java:198 | Only the customer provider changes, and it becomes the given provider |
| `Binder.LinkedBuilder.To` | rsf-core/src/main/java/net/hasor/rsf/binder/RsfBindBuilder.java:179-189 | The new state is that of Step for to: the provider becomes the class-instantiating provider |
| `Binder.LinkedBuilder.ToInstance` | rsf-core/src/main/java/net/hasor/rsf/binder/RsfBindBuilder.java:192-194 | The new state is that of Step for toInstance: the provider wraps the object, null included |
| `Binder.LinkedBuilder.ToProvider` | rsf-core/src/main/java/net/hasor/rsf/binder/RsfBindBuilder.java:197-200 | The new state is that of Step for toProvider |
| `Binder.LinkedBuilder.BindAddress` | rsf-core/src/main/java/net/hasor/rsf/binder/RsfBindBuilder.java:213-219 | The outcome and the new state are those of Step for bindAddress |
| `Binder.LinkedBuilder.UpdateRoute` | rsf-core/src/main/java/net/hasor/rsf/binder/RsfBindBuilder.java:234-236 | The new state is that of Step for updateRoute: only the flow-control body changes |
| `Binder.LinkedBuilder.UpdateAddresServiceScript` | rsf-core/src/main/java/net/hasor/rsf/binder/RsfBindBuilder.java:238-240 | Only the service-level script changes |
| `Binder.LinkedBuilder.UpdateAddresMethodScript` | rsf-core/src/main/java/net/hasor/rsf/binder/RsfBindBuilder.java:242-244 | Only the method-level script changes |
| `Binder.LinkedBuilder.UpdateAddresArgsScript` | rsf-core/src/main/java/net/hasor/rsf/binder/RsfBindBuilder.java:246-248 | Only the args-level script changes |
| `Binder.LinkedBuilder.Register` | rsf-core/src/main/java/net/hasor/rsf/binder/RsfBindBuilder.java:221-232 | The collaborator log grows by exactly RegisterTrace of the builder's state; the service define is returned and the builder is left unchanged |
| `Binder.RsfBindBuilder.constructor` | rsf-core/src/main/java/net/hasor/rsf/binder/RsfBindBuilder.java:52-57 | A new root binder has an empty filter list and an empty filter-id set |
| `Binder.RsfBindBuilder.BindFilter` | rsf-core/src/main/java/net/hasor/rsf/binder/RsfBindBuilder.java:66-73 | An id in filterIDs gives a RepeateException and leaves the list unchanged; otherwise exactly one entry is appended at the end. filterIDs never changes, so a valid binder always accepts |
| `Binder.RsfBindBuilder.BindFilterInstance` | rsf-core/src/main/java/net/hasor/rsf/binder/RsfBindBuilder.java:62-64 | A null filter fails the not-null check and changes nothing; any other filter is bound like bindFilter with an instance provider |
| `Binder.RsfBindBuilder.RsfService` | rsf-core/src/main/java/net/hasor/rsf/binder/RsfBindBuilder.java:75-81 | Returns a fresh builder in its initial state, seeded with the filters of filterList as it is at call time, in list order |
| `Binder.RsfBindBuilder.RsfServiceWithInstance` | rsf-core/src/main/java/net/hasor/rsf/binder/RsfBindBuilder.java:83-85 | A seeded builder followed by toInstance |
| `Binder.RsfBindBuilder.RsfServiceWithClass` | rsf-core/src/main/java/net/hasor/rsf/binder/RsfBindBuilder.java:87-89 | A seeded builder followed by to |
| `Binder.RsfBindBuilder.RsfServiceWithProvider` | rsf-core/src/main/java/net/hasor/rsf/binder/RsfBindBuilder.java:91-93 | A seeded builder followed by toProvider |
| `Binder.SnapshotAtCreation` | rsf-core/src/main/java/net/hasor/rsf/binder/RsfBindBuilder.java:75-81 | A builder created before a root bindFilter keeps the filters it was seeded with; one created after it has the new filter at the end |
| `Binder.RepeatedRootFilterAccepted` | rsf-core/src/main/java/net/hasor/rsf/binder/RsfBindBuilder.java:55 | Because filterIDs stays empty, binding the same filter id twice at the root succeeds both times and appends both entries |
| `Binder.RegisterTwice` | rsf-core/src/main/java/net/hasor/rsf/binder/RsfBindBuilder.java:221-232 | A second register() on the same builder repeats the whole trace, publishService included; nothing marks the builder as committed |

## Left out

- Concurrency: the `synchronized (filterLock)` block in the root's bindFilter. The model is sequential.
- The annotation and settings lookup that supplies the defaults (`AnnoRsfServiceValue`). The defaults are a constructor parameter (`ServiceInfo`).
- `bindAddress(String)` and `bindAddress(host, port)`: they parse a URI or build one from the unit name, which is code of the URI and address libraries.
- The bodies of `InterServiceAddress.checkFormat` and `InterAddress.checkFormat`: they are library code. They are the two function values of `AddressFormats`, and every address property holds for any pair of them.
- Collaborator internals: `BindServiceDefine` (its `addRsfFilter`, `setCustomerProvider` and bind-ID computation), the bind center's `publishService` and the address pool's methods. Each call is a log entry, and the bind ID is represented by the service define it is computed from.
- `Binder.LinkedBuilder.BindFilter`: the duplicate handling inside `BindServiceDefine.addRsfFilter` is not visible; the model records each filter as appended and never throws.
- `Binder.RsfBindBuilder.RsfService`: its contract assumes the seeding calls to `addRsfFilter` never throw. If `addRsfFilter` rejects an id the chain already holds, a root holding a repeated id (possible, see `Binder.RepeatedRootFilterAccepted`) would make the loop throw partway and `rsfService` would not return; that case is not modelled.
- `Binder.SnapshotAtCreation`, `ServiceConfig.FiltersAppendInOrder`: rest on the same assumption that every per-service bindFilter appends and none throws.
- `Binder.LinkedBuilder.Register`: the define passed to `publishService`, the address set passed to `newAddress` and the returned `RegisterReference` are the builder's own live objects in the source, so a setter called after `register()` changes what the bind center, the address pool and the caller hold. The model logs and returns the values as they are at call time, so it does not capture this aliasing.
- `Binder.LinkedBuilder.Register`: the collaborators never fail in the model. In the source an exception from a later call propagates after the earlier calls have taken effect, with no rollback.
- The reflection inside `to()`: instantiating the class, and wrapping a failure in `RsfException` with code 0, happens in the provider's `get()`, after binding. The provider is a `ClassProvider` tag.
- Null arguments other than strings: a null filter id, filter provider, class or provider is excluded by the parameter types. So is a null `RsfFilter` passed to the per-service `bindFilter` (`Binder.LinkedBuilder.BindFilterInstance` takes an `ObjRef`), which the source forwards to `addRsfFilter` without a check, and a null `URI` passed to `bindAddress(URI)` (`Binder.LinkedBuilder.BindAddress` takes a `Uri`). `toInstance(null)` is modelled, since the source wraps it unchecked.
- `Text.IsWhitespace` follows the current Java definition of `Character.isWhitespace`. Older Java versions also treated U+180E as whitespace.
- `java.net.URI` equality is modelled as equality of the URI text.
- `RsfCommandSession`, the console session wrapper, is not part of this model.
