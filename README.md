# Reconfigurable OpenTelemetry for Jenkins, in Dafny

This project models the core of the Jenkins OpenTelemetry API plugin:

- Instrumentation code takes tracers, loggers, meters and event loggers from
  **reconfigurable providers**. Each provider wraps the current real provider.
  It keeps a table from instrumentation scope (name, schema URL, version) to a
  long-lived **handle**.
- When the OpenTelemetry SDK is reconfigured, `setDelegate` rebuilds every
  handle's inner object from the new real provider. The handles callers already
  hold keep working and follow the new SDK.
- The facade, `ReconfigurableOpenTelemetry`, owns one provider per signal.
  - `configure` picks no-op or real mode from the property map.
  - It shuts the old SDK down and installs the new implementation in the four
    providers, then notifies the lifecycle listeners.
- Three helpers complete the core:
  - the boolean switches of `OpenTelemetryUtils`;
  - the one-line configuration summaries of `ConfigPropertiesUtils`;
  - the Jenkins resource of `JenkinsResourceProvider`.

Modules:

| file | module | models |
|---|---|---|
| `wrappers.dfy` | `Wrappers` | `Option`, `Result`, and `Outcome` (a `void` call that may throw) |
| `scope.dfy` | `Scope` | instrumentation scopes, real providers and real builders as values |
| `reconfigurable.dfy` | `Reconfigurable` | `ReconfigurableTracerProvider` and `ReconfigurableLoggerProvider` as one `Registry` class, with `Handle` and `Builder` |
| `facade.dfy` | `Facade` | `ReconfigurableOpenTelemetry` |
| `otel_utils.dfy` | `OtelUtils` | `OpenTelemetryUtils` |
| `config_printing.dfy` | `ConfigPrinting` | `ConfigPropertiesUtils` |
| `jenkins_resource.dfy` | `JenkinsResource` | `JenkinsResourceProvider` |
| `provider_scenarios.dfy`, `facade_scenarios.dfy` | `ProviderScenarios`, `FacadeScenarios` | client runs whose results follow from the contracts alone |

Modelling choices:

- **Real providers.** A real provider is a value `RealProvider(id, plainScopes, enabled)`.
  - The object it issues for a scope is `Inner(providerId, scope, extended, enabled)`.
  - `extended` is false exactly for the scope names in `plainScopes`. So a
    provider that hands out a non-`ExtendedTracer` for some scope makes the
    capability check throw. In the model that is a `Failure` value.
- **Tracer and logger providers.** The two have the same shape, so they are one
  class. The meter and event-logger providers are further instances.
- **`setDelegate`** visits the table in an unspecified order, as
  `ConcurrentHashMap.forEach` does. It returns a ghost set of the keys it has
  rebuilt, so a swap that stops at a failing key is described exactly.
- **Collaborator calls.** The facade records them in a `trace` of effects:
  shutting down an SDK, a `setDelegate` call per signal, and each listener
  notification. The order of the calls is therefore part of the contracts.
- **Inputs the model takes as parameters:**
  - the SDK that auto-configuration builds (`SdkBuild`: its id, providers, resolved configuration and detected resource);
  - whether a shutdown succeeds within its timeout;
  - the listeners, in their sorted order;
  - the system properties and the environment.
- **Behaviour the contracts state outright:**
  - The old SDK is shut down before the new providers are installed (ReconfigurableOpenTelemetry.java:156-167).
  - A listener exception is not caught. It stops the later listeners and propagates out of `configure` (ReconfigurableOpenTelemetry.java:261-264).
  - `close()` keeps the implementation, so a second call shuts the same SDK down again (ReconfigurableOpenTelemetry.java:170-184).

## Model

| member | source | states |
|---|---|---|
| Reconfigurable.RequiresExtended | src/main/java/io/jenkins/plugins/opentelemetry/api/ReconfigurableTracerProvider.java:168-184 | succeeds iff the object is an extended one, returning that object unchanged; otherwise fails with `IllegalState` naming it (same as `requiresExtendedLogger`, ReconfigurableLoggerProvider.java:162-178) |
| Reconfigurable.Rebuild | src/main/java/io/jenkins/plugins/opentelemetry/api/ReconfigurableTracerProvider.java:70-74 | the builder derived for a registered key comes from the new provider and reproduces the key exactly, so what it builds is what the new provider issues for that scope |
| Reconfigurable.Handle.constructor | src/main/java/io/jenkins/plugins/opentelemetry/api/ReconfigurableTracerProvider.java:163-166 | a new handle holds the extended object it was given; the throw for a plain object happens before construction, in `ComputeIfAbsent` |
| Reconfigurable.Handle.SetDelegate | src/main/java/io/jenkins/plugins/opentelemetry/api/ReconfigurableTracerProvider.java:196-203 | an extended object replaces the delegate; a plain one throws `IllegalState` and leaves the old delegate in place (same as ReconfigurableLoggerProvider.java:143-150) |
| Reconfigurable.Handle.GetDelegate | src/main/java/io/jenkins/plugins/opentelemetry/api/ReconfigurableTracerProvider.java:205-212 | returns the object the handle currently forwards to |
| Reconfigurable.Handle.SpanBuilderFor | src/main/java/io/jenkins/plugins/opentelemetry/api/ReconfigurableTracerProvider.java:186-194 | the span builder comes from the current tracer, for the span name given |
| Reconfigurable.Handle.LogRecordBuilderFor | src/main/java/io/jenkins/plugins/opentelemetry/api/ReconfigurableLoggerProvider.java:133-141 | the log-record builder comes from the current logger |
| Reconfigurable.Handle.IsEnabled | src/main/java/io/jenkins/plugins/opentelemetry/api/ReconfigurableTracerProvider.java:214-222 | answers what the current delegate answers (same as ReconfigurableLoggerProvider.java:152-160) |
| Reconfigurable.Registry.constructor | src/main/java/io/jenkins/plugins/opentelemetry/api/ReconfigurableTracerProvider.java:44-50 | starts bound to the given provider (the no-op one by default) with no handles, satisfying the registry invariant |
| Reconfigurable.Registry.ComputeIfAbsent | src/main/java/io/jenkins/plugins/opentelemetry/api/ReconfigurableTracerProvider.java:149-150 | a hit returns the cached handle and changes nothing; a miss registers one fresh handle holding the new object, or throws and registers nothing if that object is plain; the provider never changes |
| Reconfigurable.Registry.Get | src/main/java/io/jenkins/plugins/opentelemetry/api/ReconfigurableTracerProvider.java:52-63 | `get(name)` returns the handle cached under (name, none, none), creating it from the current provider only on a miss (same as ReconfigurableLoggerProvider.java:62-71) |
| Reconfigurable.Registry.GetVersioned | src/main/java/io/jenkins/plugins/opentelemetry/api/ReconfigurableTracerProvider.java:81-92 | `get(name, version)` returns the handle cached under (name, none, version), creating it only on a miss |
| Reconfigurable.Registry.NewBuilder | src/main/java/io/jenkins/plugins/opentelemetry/api/ReconfigurableTracerProvider.java:94-103 | a fresh builder for the name, with no schema URL or version, over a real builder from the provider current now (same as ReconfigurableLoggerProvider.java:52-60) |
| Reconfigurable.Registry.GetDelegate | src/main/java/io/jenkins/plugins/opentelemetry/api/ReconfigurableTracerProvider.java:105-112 | returns the installed provider, which after `SetDelegate(p)` is `p` |
| Reconfigurable.Registry.SetDelegate | src/main/java/io/jenkins/plugins/opentelemetry/api/ReconfigurableTracerProvider.java:65-79 | installs `p` first. It keeps the key set and every handle's identity. Each rebuilt key now holds what `p` issues for that exact scope, and untouched keys keep their old object. It succeeds iff `p` issues an extended object for every registered scope, and then all handles follow `p`. On failure the offending key is one not yet rebuilt (same as ReconfigurableLoggerProvider.java:73-86) |
| Reconfigurable.Builder.constructor | src/main/java/io/jenkins/plugins/opentelemetry/api/ReconfigurableTracerProvider.java:122-127 | a builder for a name with no schema URL or version, whose real builder has seen no setter call |
| Reconfigurable.Builder.SetSchemaUrl | src/main/java/io/jenkins/plugins/opentelemetry/api/ReconfigurableTracerProvider.java:129-134 | last write wins, the version is untouched, and the same value reaches the real builder (same as ReconfigurableLoggerProvider.java:102-107) |
| Reconfigurable.Builder.SetInstrumentationVersion | src/main/java/io/jenkins/plugins/opentelemetry/api/ReconfigurableTracerProvider.java:136-141 | last write wins, the schema URL is untouched, and the same value reaches the real builder (same as ReconfigurableLoggerProvider.java:109-114) |
| Reconfigurable.Builder.Build | src/main/java/io/jenkins/plugins/opentelemetry/api/ReconfigurableTracerProvider.java:143-154 | returns the handle cached under (name, schemaUrl, version), or registers a new one holding what the builder's own provider issues for that key; equal builders get the identical handle (same as ReconfigurableLoggerProvider.java:116-120) |
| ProviderScenarios.BuildTwoScopes | src/test/java/io/jenkins/plugins/opentelemetry/api/ReconfigurableExtendedTracerProviderTest.java:29-58 | the two scopes built through builders carry exactly their name, schema URL and version and provider 1; building the second again yields the same handle |
| ProviderScenarios.TwoSwaps | src/test/java/io/jenkins/plugins/opentelemetry/api/ReconfigurableExtendedTracerProviderTest.java:22-79 | after swapping provider 1 for provider 2, both handles hold objects of provider 2 with their scope metadata unchanged |
| ProviderScenarios.StaleBuilder | src/main/java/io/jenkins/plugins/opentelemetry/api/ReconfigurableLoggerProvider.java:116-120 | a builder made before a swap and built after it produces a handle on the retired provider while the registry reports the new one |
| ProviderScenarios.PartialSwap | src/main/java/io/jenkins/plugins/opentelemetry/api/ReconfigurableTracerProvider.java:65-79 | a swap to a provider issuing a plain tracer for scope "b" throws for "b", leaves the new provider installed and "b" on the old one |
| Facade.UsesSdk | src/main/java/io/jenkins/plugins/opentelemetry/api/ReconfigurableOpenTelemetry.java:107-110 | true iff the properties contain at least one of the four trigger keys |
| Facade.MergeResource | src/main/java/io/jenkins/plugins/opentelemetry/api/ReconfigurableOpenTelemetry.java:127-129 | the kept resource has the keys of both; a caller-supplied attribute overrides the SDK-derived one |
| Facade.ProvidersOf | src/main/java/io/jenkins/plugins/opentelemetry/api/ReconfigurableOpenTelemetry.java:164-167 | an implementation supplies exactly four providers, in installation order: its meter provider, its tracer provider, its logs bridge, and the event-logger provider over that logs bridge |
| Facade.Delegations | src/main/java/io/jenkins/plugins/opentelemetry/api/ReconfigurableOpenTelemetry.java:164-167 | the i-th `setDelegate` call goes to the i-th signal in the order metrics, traces, logs, events, with that signal's provider |
| Facade.Resolve | src/main/java/io/jenkins/plugins/opentelemetry/api/ReconfigurableOpenTelemetry.java:104-150 | an SDK is chosen iff a trigger key is present. In SDK mode: the built SDK's id and providers, its resolved configuration, its resource with the caller's attributes winning, and a shutdown hook iff not disabled. In no-op mode: the no-op implementation with empty configuration and resource |
| Facade.FirstThrowing | src/main/java/io/jenkins/plugins/opentelemetry/api/ReconfigurableOpenTelemetry.java:261-264 | every listener before the result returns normally, and the listener at the result (if any) throws |
| Facade.NotifiedCount | src/main/java/io/jenkins/plugins/opentelemetry/api/ReconfigurableOpenTelemetry.java:261-264 | all listeners are called iff none throws except possibly the last |
| Facade.Notifications | src/main/java/io/jenkins/plugins/opentelemetry/api/ReconfigurableOpenTelemetry.java:263 | one notification per listener, in order, each with the given configuration |
| Facade.SwapPart | src/main/java/io/jenkins/plugins/opentelemetry/api/ReconfigurableOpenTelemetry.java:139-152 | a `configure` failure is a swap failure exactly when it is `SwapFailed`, and it carries the `setDelegate` exception unchanged; a listener failure counts as a successful swap |
| Facade.ReconfigurableOpenTelemetry.constructor | src/main/java/io/jenkins/plugins/opentelemetry/api/ReconfigurableOpenTelemetry.java:62-88 | starts in no-op mode: four fresh, disjoint registries, all bound to the no-op provider, with empty handle tables and empty resource and configuration |
| Facade.ReconfigurableOpenTelemetry.Swap | src/main/java/io/jenkins/plugins/opentelemetry/api/ReconfigurableOpenTelemetry.java:164 | one `setDelegate` seen from the facade: the same footprint, the table kept, the provider installed. It succeeds iff no registered scope is one for which the provider hands out a plain object, and then every handle follows the provider. A failure names such a registered scope and the plain object issued for it. After a failure each handle holds its old object or the one the provider issues for its scope, and the handle that threw keeps its old object |
| Facade.ReconfigurableOpenTelemetry.InstallMetricsAndTraces | src/main/java/io/jenkins/plugins/opentelemetry/api/ReconfigurableOpenTelemetry.java:164-165 | the meter swap, then the tracer swap only if the first succeeded; each call is recorded before it runs. Once the tracer swap is attempted, the meter registry and all its handles follow the new meter provider. Success holds iff neither registry has a plain scope, and a failure names a plain scope of the registry that threw. That registry is left partly swapped as `Swap` states. The logger and event-logger registries are untouched |
| Facade.ReconfigurableOpenTelemetry.InstallLogsAndEvents | src/main/java/io/jenkins/plugins/opentelemetry/api/ReconfigurableOpenTelemetry.java:166-167 | the logs-bridge swap, then the event-logger swap over the same logs bridge only if the first succeeded. Once the event-logger swap is attempted, the logger registry and all its handles follow the logs bridge. Success holds iff neither registry has a plain scope, and a failure names a plain scope of the registry that threw. That registry is left partly swapped as `Swap` states |
| Facade.ReconfigurableOpenTelemetry.Install | src/main/java/io/jenkins/plugins/opentelemetry/api/ReconfigurableOpenTelemetry.java:164-167 | the four swaps in signal order, up to the first failure, and no handle table changes. The attempted registries hold the new providers and the later ones are untouched. Every registry before the last one attempted follows the new implementation with all its handles (`SwapOutcome`). Success means every registry and handle follows the new implementation, and it holds iff no registry has a handle whose scope its new provider makes plain. A failure names such a scope in the registry that threw. In that registry each handle holds its old object or its new one, and the handle that threw keeps its old object |
| Facade.ReconfigurableOpenTelemetry.InstallRest | src/main/java/io/jenkins/plugins/opentelemetry/api/ReconfigurableOpenTelemetry.java:166-167 | the last two swaps, once the meter and tracer registries follow the new implementation: the same outcome as `Install` for the whole sequence, with the tracer registry untouched, including the partly swapped state of a registry that threw |
| Facade.ReconfigurableOpenTelemetry.AllExtendedSwappable | src/main/java/io/jenkins/plugins/opentelemetry/api/ReconfigurableOpenTelemetry.java:164-167 | an implementation whose providers never hand out plain objects can replace any handles in all four registries |
| Facade.ReconfigurableOpenTelemetry.SetOpenTelemetryImpl | src/main/java/io/jenkins/plugins/opentelemetry/api/ReconfigurableOpenTelemetry.java:155-168 | an SDK being replaced is shut down first, whatever the shutdown's outcome. Then the new implementation is stored and installed as `Install` states, including where the swaps stopped and why (`SwapOutcome`). In the registry that threw, each handle holds its old object or its new one, and the handle that threw keeps its old object. Resource and configuration are untouched |
| Facade.ReconfigurableOpenTelemetry.Retire | src/main/java/io/jenkins/plugins/opentelemetry/api/ReconfigurableOpenTelemetry.java:156-163 | an SDK being replaced is shut down, whatever the outcome, before the new implementation is stored; no registry or handle changes |
| Facade.ReconfigurableOpenTelemetry.PostOpenTelemetrySdkConfiguration | src/main/java/io/jenkins/plugins/opentelemetry/api/ReconfigurableOpenTelemetry.java:259-265 | listeners are called in order with the current configuration until one throws. That exception propagates, so it succeeds iff no listener throws |
| Facade.ReconfigurableOpenTelemetry.Configure | src/main/java/io/jenkins/plugins/opentelemetry/api/ReconfigurableOpenTelemetry.java:104-153 | implementation, configuration and resource end as `Resolve` chooses, and no handle table changes. The first `attempted` registries hold the new implementation's providers and the later ones are untouched. Every registry before the last one attempted follows the new implementation with all its handles. A swap fails iff some registry has a handle whose scope its new provider makes plain, and `SwapFailed` names such a scope in the registry that threw (`SwapOutcome`). Success is guaranteed when the providers issue only extended objects and no listener throws, and then all four registries are installed. The recorded calls are the old-SDK shutdown, the installs, then the listener notifications. A failing install stops before the listeners. A throwing listener is the first one that throws, is named in the error, and is the last one notified. After a failed swap, each handle of the registry that threw holds its old object or its new one, and the handle that threw keeps its old object |
| Facade.ReconfigurableOpenTelemetry.NotifyListeners | src/main/java/io/jenkins/plugins/opentelemetry/api/ReconfigurableOpenTelemetry.java:152 | the listener walk leaves the installed registries as they are. It succeeds iff no listener throws; otherwise it names the first one that throws, after notifying exactly the listeners up to it |
| Facade.ReconfigurableOpenTelemetry.ApplySettings | src/main/java/io/jenkins/plugins/opentelemetry/api/ReconfigurableOpenTelemetry.java:139-152 | after the mode decision, the chosen settings are kept and installed, and listeners are notified only if every swap succeeded. On a failed swap, exactly the first `attempted` registries hold the new providers, those before the failing one follow it with all their handles, and the error names the plain scope of the registry that threw (`SwapOutcome`). The registry that threw is left partly swapped as for `Configure`. The recorded calls and the errors are as for `Configure` |
| Facade.ReconfigurableOpenTelemetry.SwitchTo | src/main/java/io/jenkins/plugins/opentelemetry/api/ReconfigurableOpenTelemetry.java:139-147 | the chosen configuration, resource and implementation are stored, and no handle table changes. The first `attempted` registries receive the new providers and the later ones are untouched. Those before the last one attempted follow the implementation with all their handles. It succeeds iff no registry has a plain scope for its new provider, and then every registry follows the implementation. A failed swap surfaces as `SwapFailed`, naming a plain scope of the registry that threw (`SwapOutcome`). In that registry each handle holds its old object or its new one, and the handle that threw keeps its old object |
| Facade.ReconfigurableOpenTelemetry.ConfigureWithoutShutdownHook | src/main/java/io/jenkins/plugins/opentelemetry/api/ReconfigurableOpenTelemetry.java:98-102 | the two-argument `configure` promises everything the three-argument one does with the shutdown hook disabled: the same settings, handle tables, registry state, where the swaps stopped and why, the partly swapped registry, success guarantee, errors and recorded calls. An SDK it installs has no hook |
| Facade.ReconfigurableOpenTelemetry.ShutDownCurrent | src/main/java/io/jenkins/plugins/opentelemetry/api/ReconfigurableOpenTelemetry.java:156-162 | only an SDK is shut down, and a failed shutdown is recorded, never raised |
| Facade.ReconfigurableOpenTelemetry.Close | src/main/java/io/jenkins/plugins/opentelemetry/api/ReconfigurableOpenTelemetry.java:170-184 | shuts the current SDK down and keeps it as the implementation, so a second `close()` shuts it down again |
| Facade.ReconfigurableOpenTelemetry.GetTracerProvider | src/main/java/io/jenkins/plugins/opentelemetry/api/ReconfigurableOpenTelemetry.java:186-189 | always the same tracer registry object, whatever reconfiguration has happened |
| Facade.ReconfigurableOpenTelemetry.GetMeterProvider | src/main/java/io/jenkins/plugins/opentelemetry/api/ReconfigurableOpenTelemetry.java:206-209 | always the same meter registry object |
| Facade.ReconfigurableOpenTelemetry.GetEventLoggerProvider | src/main/java/io/jenkins/plugins/opentelemetry/api/ReconfigurableOpenTelemetry.java:211-214 | always the same event-logger registry object |
| Facade.ReconfigurableOpenTelemetry.GetLogsBridge | src/main/java/io/jenkins/plugins/opentelemetry/api/ReconfigurableOpenTelemetry.java:249-252 | always the same logger registry object |
| FacadeScenarios.JenkinsTracer | src/main/java/io/jenkins/plugins/opentelemetry/api/ReconfigurableOpenTelemetry.java:186-189 | a tracer taken from the facade's tracer provider is registered there and holds what the installed provider issues |
| FacadeScenarios.ConfigureAndRead | src/main/java/io/jenkins/plugins/opentelemetry/api/ReconfigurableOpenTelemetry.java:104-153 | after `configure`, a tracer handle taken earlier is still the registered one and holds what the newly chosen tracer provider issues |
| FacadeScenarios.TracerFollowsConfigure | src/main/java/io/jenkins/plugins/opentelemetry/api/ReconfigurableOpenTelemetry.java:143-150 | a tracer taken in no-op mode follows an SDK `configure` to the SDK's tracer, and a later `configure` without trigger keys brings it back to the no-op tracer |
| FacadeScenarios.TakeJenkinsHandles | src/main/java/io/jenkins/plugins/opentelemetry/api/ReconfigurableOpenTelemetry.java:186-209 | taking a "jenkins" meter and a "jenkins" tracer from a new facade registers exactly those handles, in no-op mode and with nothing recorded; the tracer handle holds the no-op tracer |
| FacadeScenarios.ConfigurePlainJenkinsTracer | src/main/java/io/jenkins/plugins/opentelemetry/api/ReconfigurableOpenTelemetry.java:139-167 | with only those handles registered, an SDK `configure` whose tracer provider makes "jenkins" plain fails with `SwapFailed` naming that tracer. The only recorded calls are the meter and tracer `setDelegate`, and the meter handle already follows the new meter provider. The "jenkins" tracer handle keeps the no-op tracer |
| FacadeScenarios.TracerSwapFails | src/main/java/io/jenkins/plugins/opentelemetry/api/ReconfigurableOpenTelemetry.java:164-167 | the two steps above run together: a swap that throws midway leaves the earlier registries switched, the handle that threw on its old object, and the later ones never attempted |
| OtelUtils.UpperAscii | src/main/java/io/jenkins/plugins/opentelemetry/api/util/OpenTelemetryUtils.java:39 | lower-case ASCII letters map to their upper-case letter; everything else is kept |
| OtelUtils.LowerAscii | src/main/java/io/jenkins/plugins/opentelemetry/api/util/OpenTelemetryUtils.java:37 | upper-case ASCII letters map to their lower-case letter; everything else is kept |
| OtelUtils.EnvVarName | src/main/java/io/jenkins/plugins/opentelemetry/api/util/OpenTelemetryUtils.java:39 | the environment name has the property's length, maps each character on its own ('.' and '-' to '_', then upper case), and contains no '.', '-' or lower-case letter |
| OtelUtils.EnvVarNameIdempotent | src/main/java/io/jenkins/plugins/opentelemetry/api/util/OpenTelemetryUtils.java:39 | mangling an already mangled name changes nothing |
| OtelUtils.EnvVarNameConcat | src/main/java/io/jenkins/plugins/opentelemetry/api/util/OpenTelemetryUtils.java:39 | mangling distributes over concatenation, so the name of `prefix + instrumentation + suffix` is built from the parts' names |
| OtelUtils.IsTrueSpellings | src/main/java/io/jenkins/plugins/opentelemetry/api/util/OpenTelemetryUtils.java:37 | a value reads as true iff it is "true" in any mix of cases; every other value reads as false |
| OtelUtils.GetProperty | src/main/java/io/jenkins/plugins/opentelemetry/api/util/OpenTelemetryUtils.java:34-45 | a present system property decides. Otherwise the environment variable under the mangled name decides. Otherwise the default applies. A present value gives true iff it spells "true" |
| OtelUtils.DefaultOnlyWhenAbsent | src/main/java/io/jenkins/plugins/opentelemetry/api/util/OpenTelemetryUtils.java:44 | the default affects the answer iff neither the system property nor the environment variable is present |
| OtelUtils.SystemPropertyWins | src/main/java/io/jenkins/plugins/opentelemetry/api/util/OpenTelemetryUtils.java:35-38 | with the system property set, no environment change alters the answer |
| OtelUtils.OnlyMangledNameInEnv | src/main/java/io/jenkins/plugins/opentelemetry/api/util/OpenTelemetryUtils.java:39-43 | only the mangled name is read from the environment |
| OtelUtils.EnabledWhenNothingConfigured | src/main/java/io/jenkins/plugins/opentelemetry/api/util/OpenTelemetryUtils.java:22-25 | with no property and no environment variable, every instrumentation is enabled |
| OtelUtils.SpecificSwitchOverridesCommon | src/main/java/io/jenkins/plugins/opentelemetry/api/util/OpenTelemetryUtils.java:22-25 | a per-instrumentation system property decides alone, whatever the common switch says |
| OtelUtils.CommonSwitchApplies | src/main/java/io/jenkins/plugins/opentelemetry/api/util/OpenTelemetryUtils.java:22-25 | without a per-instrumentation switch, the common switch (default true) decides |
| OtelUtils.CommonSwitchOff | src/main/java/io/jenkins/plugins/opentelemetry/api/util/OpenTelemetryUtils.java:22-25 | setting the common switch to "false" disables every instrumentation without a switch of its own |
| OtelUtils.IsInstrumentationEnabled | src/main/java/io/jenkins/plugins/opentelemetry/api/util/OpenTelemetryUtils.java:22-25 | when the per-instrumentation switch `otel.instrumentation.<name>.enabled` is set, as a system property or in the environment, its value alone decides and the common switch is ignored. Otherwise the common switch `otel.instrumentation.common.default-enabled` decides, itself defaulting to true; the lemmas above spell out these cases |
| ConfigPrinting.EmptyConfig | src/main/java/io/jenkins/plugins/opentelemetry/api/ConfigPropertiesUtils.java:32-34 | the empty configuration has no property set |
| ConfigPrinting.Put | src/main/java/io/jenkins/plugins/opentelemetry/api/ConfigPropertiesUtils.java:47 | `LinkedHashMap.put` adds the key with its value, and a new key goes at the end |
| ConfigPrinting.SelectedMembership | src/main/java/io/jenkins/plugins/opentelemetry/api/ConfigPropertiesUtils.java:42-49 | an entry is listed iff its key is a noteworthy name that has a value, and the entry carries that value |
| ConfigPrinting.SelectedAppend | src/main/java/io/jenkins/plugins/opentelemetry/api/ConfigPropertiesUtils.java:44-49 | entries appear in the order of the name list |
| ConfigPrinting.SelectedOnlyReadsNames | src/main/java/io/jenkins/plugins/opentelemetry/api/ConfigPropertiesUtils.java:44-45 | only the values of the listed names affect the summary |
| ConfigPrinting.SelectedNone | src/main/java/io/jenkins/plugins/opentelemetry/api/ConfigPropertiesUtils.java:46 | a map with none of the names lists nothing |
| ConfigPrinting.JoinSnoc | src/main/java/io/jenkins/plugins/opentelemetry/api/ConfigPropertiesUtils.java:50-54 | entries render as `key=value`, and ", " goes only between two entries |
| ConfigPrinting.Join | src/main/java/io/jenkins/plugins/opentelemetry/api/ConfigPropertiesUtils.java:50-54 | `joining(", ")` yields the empty text iff there are no entries, and otherwise starts with the first entry rendered as `key=value` |
| ConfigPrinting.NoteworthyNamesDistinct | src/main/java/io/jenkins/plugins/opentelemetry/api/ConfigPropertiesUtils.java:75-83 | neither noteworthy list repeats a name, so every `put` in the loops adds a new key |
| ConfigPrinting.EmptyConfigurationText | src/main/java/io/jenkins/plugins/opentelemetry/api/ConfigPropertiesUtils.java:32-34 | the empty configuration prints as exactly "..." |
| ConfigPrinting.SummaryShape | src/main/java/io/jenkins/plugins/opentelemetry/api/ConfigPropertiesUtils.java:50-55 | a summary always ends in "...", and is "..." alone iff no listed name has a value |
| ConfigPrinting.SummaryAppendName | src/main/java/io/jenkins/plugins/opentelemetry/api/ConfigPropertiesUtils.java:44-54 | a listed name that has a value contributes its `key=value` last, after the earlier entries and a ", " separator (no separator when it is the first), just before the "..." |
| ConfigPrinting.ConfigurationTextReadsNoteworthyNames | src/main/java/io/jenkins/plugins/opentelemetry/api/ConfigPropertiesUtils.java:42-56 | configurations that agree on the ten noteworthy names print the same |
| ConfigPrinting.ResourceTextReadsServiceAttributes | src/main/java/io/jenkins/plugins/opentelemetry/api/ConfigPropertiesUtils.java:57-74 | resources that agree on `service.name`, `service.namespace` and `service.version` print the same |
| ConfigPrinting.ResourceWithoutServiceAttributes | src/main/java/io/jenkins/plugins/opentelemetry/api/ConfigPropertiesUtils.java:61-73 | a resource without `service.name`, `service.namespace` and `service.version` prints as "..." |
| ConfigPrinting.CollectNoteworthy | src/main/java/io/jenkins/plugins/opentelemetry/api/ConfigPropertiesUtils.java:43-49 | the loop builds exactly the ordered selection of listed names that have a value |
| ConfigPrinting.PrettyPrintConfiguration | src/main/java/io/jenkins/plugins/opentelemetry/api/ConfigPropertiesUtils.java:42-56 | returns the configuration summary: the noteworthy names with a value, in list order, as `key=value` joined by ", ", then "..." |
| ConfigPrinting.PrettyPrintResource | src/main/java/io/jenkins/plugins/opentelemetry/api/ConfigPropertiesUtils.java:57-74 | a null resource prints "#null#"; otherwise the summary of the three service attributes, in that order |
| ConfigPrinting.PrettyPrintOtelSdkConfig | src/main/java/io/jenkins/plugins/opentelemetry/api/ConfigPropertiesUtils.java:36-41 | "SDK [config: " + configuration summary + ", resource: " + resource summary + "]" |
| JenkinsResource.ResourceBuilder.constructor | src/main/java/io/jenkins/plugins/opentelemetry/api/instrumentation/resource/JenkinsResourceProvider.java:24 | a builder starts with no attributes |
| JenkinsResource.ResourceBuilder.Put | src/main/java/io/jenkins/plugins/opentelemetry/api/instrumentation/resource/JenkinsResourceProvider.java:25 | `put` sets one attribute, replacing an earlier value of the same key |
| JenkinsResource.ResourceBuilder.PutIfPresent | src/main/java/io/jenkins/plugins/opentelemetry/api/instrumentation/resource/JenkinsResourceProvider.java:30 | `ifPresent(put)` adds the attribute only when there is a value |
| JenkinsResource.ResourceBuilder.Build | src/main/java/io/jenkins/plugins/opentelemetry/api/instrumentation/resource/JenkinsResourceProvider.java:41 | the resource holds exactly the attributes put |
| JenkinsResource.AttributeKeysDistinct | src/main/java/io/jenkins/plugins/opentelemetry/api/semconv/JenkinsAttributes.java:20-24 | the six attribute keys written are pairwise distinct, so no `put` overwrites another |
| JenkinsResource.ServiceIdentityFixed | src/main/java/io/jenkins/plugins/opentelemetry/api/instrumentation/resource/JenkinsResourceProvider.java:25-26 | `service.name` and `service.namespace` are always "jenkins", whatever the configuration |
| JenkinsResource.JenkinsVersionReportedTwice | src/main/java/io/jenkins/plugins/opentelemetry/api/instrumentation/resource/JenkinsResourceProvider.java:28-32 | `service.version` and `jenkins.version` are present iff `jenkins.version` is configured, and then both equal it |
| JenkinsResource.CopiedWhenConfigured | src/main/java/io/jenkins/plugins/opentelemetry/api/instrumentation/resource/JenkinsResourceProvider.java:34-40 | `jenkins.url` and `service.instance.id` are present iff configured, with the configured value |
| JenkinsResource.NoOtherAttributes | src/main/java/io/jenkins/plugins/opentelemetry/api/instrumentation/resource/JenkinsResourceProvider.java:24-41 | only the six known keys can appear, and an empty configuration yields just the two fixed ones |
| JenkinsResource.OnlyThreeKeysRead | src/main/java/io/jenkins/plugins/opentelemetry/api/instrumentation/resource/JenkinsResourceProvider.java:28-38 | only `jenkins.version`, `jenkins.url` and `service.instance.id` of the configuration affect the resource |
| JenkinsResource.CreateResource | src/main/java/io/jenkins/plugins/opentelemetry/api/instrumentation/resource/JenkinsResourceProvider.java:22-44 | the resource built is the expected one, so the lemmas above hold of it |

## Left out

- Read/write locks and `ConcurrentHashMap` atomicity: every operation runs to completion on its own. Claims about torn state and blocking are not modelled.
- Auto-configuration of the SDK (`AutoConfiguredOpenTelemetrySdk` and its customizers) is a foreign library. What it builds is the `SdkBuild` parameter, and a build that throws is not modelled.
- The one-second bounded wait on shutdown is the boolean `shutdownSucceeds`. The JUL log messages are not modelled.
- The shutdown hook is a flag on the implementation. Registering it belongs to the SDK library.
- `GlobalOpenTelemetry` and `GlobalEventLoggerProvider` registration and `resetForTest` (ReconfigurableOpenTelemetry.java:73-88, 182-183) are process-wide singletons outside the model.
- The listener lookup through Jenkins' `ExtensionList` and its sorting are not modelled. The listeners arrive as a sequence already in sorted order.
- Null arguments are not modelled.
- The meter provider's instrument and callback sub-registry is not modelled.
- `InstrumentationScope` is a datatype with structural equality.
- The own source of `ReconfigurableMeterProvider` and `ReconfigurableEventLoggerProvider` is not modelled: the facade uses a `Registry`, the model of the tracer and logger providers, in place of each. `OpenTelemetryLifecycleListener` is not part of this model beyond the `Listener` value (an id and whether its callback throws).
- The logger provider has no `get(name, version)`. `Registry.GetVersioned` is used for tracers only.
- The no-op providers are `NoopProvider`. It issues extended, disabled objects and is never the cause of a failed swap.
- Facade.EventLoggerProviderOver: the model identifies the event-logger provider built over the logs bridge with the logs bridge itself. `SdkEventLoggerProvider.create` hands out event loggers that wrap the bridge's loggers, and that wrapping is not modelled.
- The convenience forwarders `getTracer`, `tracerBuilder`, `getMeter`, `meterBuilder` and `eventLoggerBuilder` (ReconfigurableOpenTelemetry.java:191-229) are one call each to `Registry.Get`, `Registry.GetVersioned` or `Registry.NewBuilder`. Those registry methods are modelled.
- The accessors `getImplementation`, `getResource` and `getConfig` read the class's fields, which are public state in the model. `getPropagators` is not modelled.
- `configure` with the SDK skips the INFO log line built by `prettyPrintOtelSdkConfig`.
- Case conversion (`toUpperCase`, `equalsIgnoreCase`) is ASCII only. The locale-dependent and non-ASCII mappings of the JDK are not modelled.
- The configuration is a string map. `DefaultConfigProperties` key normalisation and typed getters are not modelled.
- Resource attribute values are strings. Typed values and `Objects.toString` of other types are not modelled.
- The SDK-mode configuration and resource are stored before `setOpenTelemetryImpl`, as the customizers in the source do during the build.
