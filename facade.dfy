/**
 * `ReconfigurableOpenTelemetry`: owns one registry per signal, the resolved
 * configuration and resource, and the current implementation (the no-op one
 * or an SDK). `configure` picks a mode from the property map, shuts the old SDK
 * down, installs the new implementation in the four registries and notifies
 * the lifecycle listeners.
 *
 * The SDK-construction library is outside the model: what it returns is a
 * parameter (`SdkBuild`), as is whether a shutdown succeeds. Calls made on
 * collaborators are recorded, in order, in `trace`.
 */
module Facade {
  import opened Wrappers
  import opened Scope
  import opened Reconfigurable

  /** The property keys whose presence selects the real SDK. */
  const SdkTriggerKeys: set<string> :=
    {"otel.exporter.otlp.endpoint", "otel.traces.exporter", "otel.metrics.exporter", "otel.logs.exporter"}

  /** The mode decision of `configure`: real SDK iff some trigger key is present. */
  function UsesSdk(props: map<string, string>): (b: bool)
    ensures b <==> exists k :: k in SdkTriggerKeys && k in props
  {
    "otel.exporter.otlp.endpoint" in props || "otel.traces.exporter" in props
    || "otel.metrics.exporter" in props || "otel.logs.exporter" in props
  }

  /**
   * The resource `configure` keeps: the SDK-derived attributes, then the
   * caller's attributes put over them.
   */
  function MergeResource(detected: map<string, string>, supplied: map<string, string>): (r: map<string, string>)
    ensures r.Keys == detected.Keys + supplied.Keys
    ensures forall k :: k in supplied ==> r[k] == supplied[k]
    ensures forall k :: k in detected && k !in supplied ==> r[k] == detected[k]
  {
    detected + supplied
  }

  datatype Signal = Metrics | Traces | Logs | Events

  /** `OpenTelemetry.noop()` or an `OpenTelemetrySdk`. */
  datatype Implementation =
    | Noop
    | Sdk(id: nat, meters: RealProvider, tracers: RealProvider, logs: RealProvider, shutdownHook: bool)
  {
    function MeterProvider(): RealProvider
    {
      if Noop? then NoopProvider else meters
    }

    function TracerProvider(): RealProvider
    {
      if Noop? then NoopProvider else tracers
    }

    function LogsBridge(): RealProvider
    {
      if Noop? then NoopProvider else logs
    }
  }

  /**
   * `SdkEventLoggerProvider.create(logsBridge)`: event loggers are the logs
   * bridge's loggers, so the provider issues what the logs bridge issues.
   */
  function EventLoggerProviderOver(logsBridge: RealProvider): RealProvider
  {
    logsBridge
  }

  /** What the SDK-construction library hands back for one `configure`. */
  datatype SdkBuild = SdkBuild(id: nat, meters: RealProvider, tracers: RealProvider, logs: RealProvider,
                               resolvedConfig: map<string, string>, detectedResource: map<string, string>)

  function SdkOf(b: SdkBuild, disableShutdownHook: bool): Implementation
  {
    Sdk(b.id, b.meters, b.tracers, b.logs, !disableShutdownHook)
  }

  /** What `configure` settles on before installing anything. */
  datatype Settings = Settings(impl: Implementation, config: map<string, string>, resource: map<string, string>)

  /**
   * The choice `configure` makes: an SDK built from the properties, keeping its
   * resolved configuration and its resource with the caller's attributes on
   * top, when a trigger property is present; otherwise the no-op implementation
   * with an empty configuration and an empty resource.
   */
  function Resolve(props: map<string, string>, supplied: map<string, string>, disableShutdownHook: bool,
                   build: SdkBuild): (s: Settings)
    ensures s.impl.Sdk? <==> UsesSdk(props)
    ensures s.impl.Sdk? ==>
              && s.impl.id == build.id && s.impl.shutdownHook == !disableShutdownHook
              && s.impl.MeterProvider() == build.meters && s.impl.TracerProvider() == build.tracers
              && s.impl.LogsBridge() == build.logs
              && s.config == build.resolvedConfig
              && (forall k :: k in supplied ==> k in s.resource && s.resource[k] == supplied[k])
              && (forall k :: k in build.detectedResource && k !in supplied ==> k in s.resource && s.resource[k] == build.detectedResource[k])
              && s.resource.Keys == build.detectedResource.Keys + supplied.Keys
    ensures !s.impl.Sdk? ==> s == Settings(Noop, map[], map[])
  {
    if UsesSdk(props) then
      Settings(SdkOf(build, disableShutdownHook), build.resolvedConfig, MergeResource(build.detectedResource, supplied))
    else
      Settings(Noop, map[], map[])
  }

  /** An `OpenTelemetryLifecycleListener`; `throws` says whether its callback throws. */
  datatype Listener = Listener(id: nat, throws: bool)

  /** A call made on a collaborator. */
  datatype Effect =
    | ShutdownSdk(sdkId: nat, succeeded: bool)
    | Delegated(signal: Signal, provider: RealProvider)
    | Notified(listener: nat, config: map<string, string>)

  datatype ConfigureError = SwapFailed(cause: Failure) | ListenerThrew(listener: nat)

  /** The `setDelegate` outcome inside a `configure` outcome: a listener failure comes after a successful swap. */
  function SwapPart(res: Outcome<ConfigureError>): (r: Outcome<Failure>)
    ensures r.Fail? <==> res.Fail? && res.error.SwapFailed?
    ensures r.Fail? ==> r.error == res.error.cause
  {
    if res.Fail? && res.error.SwapFailed? then Fail(res.error.cause) else Pass
  }

  /** Shutting `impl` down: only an SDK is shut down; the outcome is only logged. */
  function ShutdownEffects(impl: Implementation, succeeded: bool): seq<Effect>
  {
    if impl.Sdk? then [ShutdownSdk(impl.id, succeeded)] else []
  }

  /** The four real providers of `impl`, in the order `setOpenTelemetryImpl` installs them. */
  function ProvidersOf(impl: Implementation): (ps: seq<RealProvider>)
    ensures |ps| == 4
    ensures ps[0] == impl.MeterProvider() && ps[1] == impl.TracerProvider() && ps[2] == impl.LogsBridge()
    ensures ps[3] == EventLoggerProviderOver(impl.LogsBridge())
  {
    [impl.MeterProvider(), impl.TracerProvider(), impl.LogsBridge(), EventLoggerProviderOver(impl.LogsBridge())]
  }

  /** No provider of `impl` hands out plain (non-extended) objects. */
  predicate AllExtended(impl: Implementation)
  {
    forall p :: p in ProvidersOf(impl) ==> p.plainScopes == {}
  }

  /** No scope registered in `handles` is one for which `p` hands out a plain object. */
  predicate NoPlainScope(handles: map<ScopeKey, Handle>, p: RealProvider)
  {
    forall k :: k in handles ==> k.name !in p.plainScopes
  }

  /**
   * `e` is an exception `setDelegate(p)` can throw over `handles`: it names a
   * registered scope for which `p` hands out a plain object.
   */
  predicate RaisedBy(e: Failure, handles: map<ScopeKey, Handle>, p: RealProvider)
  {
    && e.offending.scope in handles
    && e.offending.scope.name in p.plainScopes
    && e == IllegalState(Issue(p, e.offending.scope))
  }

  /**
   * What a `setDelegate(p)` that threw `e` leaves behind in `handles`: every
   * handle holds its old object or the one `p` issues for its scope, and the
   * handle of the offending scope keeps its old object.
   */
  twostate predicate PartlySwapped(handles: map<ScopeKey, Handle>, p: RealProvider, e: Failure)
    reads handles.Values
  {
    && (forall k :: k in handles ==> handles[k].delegate == old(handles[k].delegate) || handles[k].delegate == Issue(p, k))
    && (e.offending.scope in handles ==> handles[e.offending.scope].delegate == old(handles[e.offending.scope].delegate))
  }

  const SignalOrder: seq<Signal> := [Metrics, Traces, Logs, Events]

  /** The four `setDelegate` calls installing `impl`, in order. */
  function Delegations(impl: Implementation): (es: seq<Effect>)
    ensures |es| == 4
    ensures forall i :: 0 <= i < 4 ==> es[i] == Delegated(SignalOrder[i], ProvidersOf(impl)[i])
  {
    var ps := ProvidersOf(impl);
    [Delegated(Metrics, ps[0]), Delegated(Traces, ps[1]), Delegated(Logs, ps[2]), Delegated(Events, ps[3])]
  }

  /** Index of the first listener that throws, or the number of listeners. */
  function FirstThrowing(ls: seq<Listener>): (r: nat)
    ensures r <= |ls|
    ensures forall i :: 0 <= i < r ==> !ls[i].throws
    ensures r < |ls| ==> ls[r].throws
  {
    if ls == [] then 0
    else if ls[0].throws then 0
    else 1 + FirstThrowing(ls[1..])
  }

  /** How many listeners get called: all up to and including the first that throws. */
  function NotifiedCount(ls: seq<Listener>): (n: nat)
    ensures n <= |ls|
    ensures n == |ls| <==> FirstThrowing(ls) >= |ls| - 1
  {
    if FirstThrowing(ls) < |ls| then FirstThrowing(ls) + 1 else |ls|
  }

  /** Each listener of `ls`, in order, called with `config`. */
  function Notifications(ls: seq<Listener>, config: map<string, string>): (es: seq<Effect>)
    ensures |es| == |ls|
    ensures forall i :: 0 <= i < |ls| ==> es[i] == Notified(ls[i].id, config)
  {
    seq(|ls|, i requires 0 <= i < |ls| => Notified(ls[i].id, config))
  }

  class ReconfigurableOpenTelemetry {
    var resource: map<string, string>
    var config: map<string, string>
    var impl: Implementation
    var trace: seq<Effect>
    const meters: Registry
    const tracers: Registry
    const loggers: Registry
    const events: Registry

    /** Everything the four registries own. */
    ghost function Repr(): set<object>
      reads meters, tracers, loggers, events
    {
      meters.Repr + tracers.Repr + loggers.Repr + events.Repr
    }

    /** Each registry is valid and owns a footprint shared with no other. */
    ghost predicate Valid()
      reads meters, tracers, loggers, events, Repr()
    {
      && this !in Repr()
      && meters.Valid() && tracers.Valid() && loggers.Valid() && events.Valid()
      && meters.Repr !! tracers.Repr && meters.Repr !! loggers.Repr && meters.Repr !! events.Repr
      && tracers.Repr !! loggers.Repr && tracers.Repr !! events.Repr
      && loggers.Repr !! events.Repr
    }

    /** The providers the four registries currently delegate to, in order. */
    ghost function Delegates(): seq<RealProvider>
      reads meters, tracers, loggers, events
    {
      [meters.delegate, tracers.delegate, loggers.delegate, events.delegate]
    }

    /** The handle tables of the four registries, in order. */
    ghost function Tables(): seq<map<ScopeKey, Handle>>
      reads meters, tracers, loggers, events
    {
      [meters.handles, tracers.handles, loggers.handles, events.handles]
    }

    /** Every registry and all its handles follow the providers of `impl`. */
    ghost predicate Installed(impl: Implementation)
      reads meters, tracers, loggers, events, Repr()
      requires Valid()
    {
      && meters.BoundTo(impl.MeterProvider())
      && tracers.BoundTo(impl.TracerProvider())
      && loggers.BoundTo(impl.LogsBridge())
      && events.BoundTo(EventLoggerProviderOver(impl.LogsBridge()))
    }

    /**
     * The first `n` registries, in installation order, and all their handles
     * follow the providers of `impl`.
     */
    ghost predicate BoundUpTo(impl: Implementation, n: nat)
      reads meters, tracers, loggers, events, Repr()
      requires Valid()
    {
      && (1 <= n ==> meters.BoundTo(impl.MeterProvider()))
      && (2 <= n ==> tracers.BoundTo(impl.TracerProvider()))
      && (3 <= n ==> loggers.BoundTo(impl.LogsBridge()))
      && (4 <= n ==> events.BoundTo(EventLoggerProviderOver(impl.LogsBridge())))
    }

    /**
     * No handle of the first `n` registries has a scope for which the
     * matching provider of `impl` hands out a plain object.
     */
    ghost predicate SwappableUpTo(impl: Implementation, n: nat)
      reads meters, tracers, loggers, events
    {
      && (1 <= n ==> NoPlainScope(meters.handles, impl.MeterProvider()))
      && (2 <= n ==> NoPlainScope(tracers.handles, impl.TracerProvider()))
      && (3 <= n ==> NoPlainScope(loggers.handles, impl.LogsBridge()))
      && (4 <= n ==> NoPlainScope(events.handles, EventLoggerProviderOver(impl.LogsBridge())))
    }

    /**
     * Where the `setDelegate` calls of `setOpenTelemetryImpl(impl)` stopped
     * after `attempted` of them, with outcome `res`: the registries before the
     * last one attempted follow `impl` and had no plain scope; the calls pass
     * exactly when no registry has one; a failure names a scope registered in
     * the registry that threw, for which its new provider is plain.
     */
    ghost predicate SwapOutcome(impl: Implementation, attempted: nat, res: Outcome<Failure>)
      reads meters, tracers, loggers, events, Repr()
      requires Valid()
    {
      && 1 <= attempted <= 4
      && BoundUpTo(impl, attempted - 1) && SwappableUpTo(impl, attempted - 1)
      && (res.Pass? <==> SwappableUpTo(impl, 4))
      && (res.Fail? ==> RaisedBy(res.error, Tables()[attempted - 1], ProvidersOf(impl)[attempted - 1]))
    }

    /** Starts in no-op mode with empty resource and configuration. */
    constructor ()
      ensures Valid() && fresh(Repr())
      ensures impl == Noop && resource == map[] && config == map[] && trace == []
      ensures Installed(Noop)
      ensures Tables() == [map[], map[], map[], map[]]
    {
      resource := map[];
      config := map[];
      impl := Noop;
      trace := [];
      var m := new Registry(NoopProvider);
      var t := new Registry(NoopProvider);
      var l := new Registry(NoopProvider);
      var e := new Registry(NoopProvider);
      meters, tracers, loggers, events := m, t, l, e;
    }

    /**
     * One `setDelegate` call on a registry, seen from the facade: the registry
     * stays valid over the same footprint, and on success every handle follows
     * the new provider; on failure each handle holds its old object or its new
     * one, and the handle that threw keeps its old object.
     */
    static method Swap(r: Registry, p: RealProvider) returns (res: Outcome<Failure>)
      requires r.Valid()
      modifies r.Repr
      ensures r.Valid() && r.Repr == old(r.Repr) && r.delegate == p && r.handles == old(r.handles)
      ensures res.Pass? ==> r.BoundTo(p)
      ensures res.Pass? <==> NoPlainScope(r.handles, p)
      ensures res.Fail? ==> RaisedBy(res.error, r.handles, p)
      ensures res.Fail? ==> PartlySwapped(r.handles, p, res.error)
    {
      ghost var swapped;
      res, swapped := r.SetDelegate(p);
    }

    /**
     * The first half of the installation: the meter provider, then (if that
     * succeeded) the tracer provider, each `setDelegate` recorded before it runs.
     */
    method InstallMetricsAndTraces(next: Implementation) returns (res: Outcome<Failure>, ghost attempted: nat)
      requires Valid()
      modifies this`trace, meters.Repr, tracers.Repr
      ensures Valid() && Repr() == old(Repr())
      ensures 1 <= attempted <= 2
      ensures trace == old(trace) + Delegations(next)[..attempted]
      ensures meters.delegate == next.MeterProvider()
      ensures meters.handles == old(meters.handles) && tracers.handles == old(tracers.handles)
      ensures attempted == 2 ==> tracers.delegate == next.TracerProvider()
      ensures attempted < 2 ==> unchanged(tracers.Repr)
      ensures unchanged(loggers.Repr) && unchanged(events.Repr)
      ensures res.Pass? ==> attempted == 2 && meters.BoundTo(next.MeterProvider()) && tracers.BoundTo(next.TracerProvider())
      ensures attempted == 2 ==> meters.BoundTo(next.MeterProvider())
      ensures res.Pass? <==> NoPlainScope(meters.handles, next.MeterProvider()) && NoPlainScope(tracers.handles, next.TracerProvider())
      ensures res.Fail? && attempted == 1 ==> RaisedBy(res.error, meters.handles, next.MeterProvider())
      ensures res.Fail? && attempted == 2 ==> RaisedBy(res.error, tracers.handles, next.TracerProvider())
      ensures res.Fail? && attempted == 1 ==> PartlySwapped(meters.handles, next.MeterProvider(), res.error)
      ensures res.Fail? && attempted == 2 ==> PartlySwapped(tracers.handles, next.TracerProvider(), res.error)
    {
      assert Delegations(next)[..1] == [Delegated(Metrics, next.MeterProvider())];
      assert Delegations(next)[..2] == [Delegated(Metrics, next.MeterProvider()), Delegated(Traces, next.TracerProvider())];
      attempted := 1;
      trace := trace + [Delegated(Metrics, next.MeterProvider())];
      res := Swap(meters, next.MeterProvider());
      if res.Fail? {
        return;
      }
      attempted := 2;
      trace := trace + [Delegated(Traces, next.TracerProvider())];
      res := Swap(tracers, next.TracerProvider());
    }

    /**
     * The second half of the installation: the logs bridge, then (if that
     * succeeded) the event-logger provider built over it.
     */
    method InstallLogsAndEvents(next: Implementation) returns (res: Outcome<Failure>, ghost attempted: nat)
      requires Valid()
      modifies this`trace, loggers.Repr, events.Repr
      ensures Valid() && Repr() == old(Repr())
      ensures 1 <= attempted <= 2
      ensures trace == old(trace) + Delegations(next)[2..2 + attempted]
      ensures loggers.delegate == next.LogsBridge()
      ensures loggers.handles == old(loggers.handles) && events.handles == old(events.handles)
      ensures attempted == 2 ==> events.delegate == EventLoggerProviderOver(next.LogsBridge())
      ensures attempted < 2 ==> unchanged(events.Repr)
      ensures res.Pass? ==>
                attempted == 2 && loggers.BoundTo(next.LogsBridge()) && events.BoundTo(EventLoggerProviderOver(next.LogsBridge()))
      ensures attempted == 2 ==> loggers.BoundTo(next.LogsBridge())
      ensures res.Pass? <==>
                NoPlainScope(loggers.handles, next.LogsBridge()) && NoPlainScope(events.handles, EventLoggerProviderOver(next.LogsBridge()))
      ensures res.Fail? && attempted == 1 ==> RaisedBy(res.error, loggers.handles, next.LogsBridge())
      ensures res.Fail? && attempted == 2 ==> RaisedBy(res.error, events.handles, EventLoggerProviderOver(next.LogsBridge()))
      ensures res.Fail? && attempted == 1 ==> PartlySwapped(loggers.handles, next.LogsBridge(), res.error)
      ensures res.Fail? && attempted == 2 ==> PartlySwapped(events.handles, EventLoggerProviderOver(next.LogsBridge()), res.error)
    {
      assert Delegations(next)[2..3] == [Delegated(Logs, next.LogsBridge())];
      assert Delegations(next)[2..4] == [Delegated(Logs, next.LogsBridge()), Delegated(Events, EventLoggerProviderOver(next.LogsBridge()))];
      attempted := 1;
      trace := trace + [Delegated(Logs, next.LogsBridge())];
      res := Swap(loggers, next.LogsBridge());
      if res.Fail? {
        return;
      }
      attempted := 2;
      trace := trace + [Delegated(Events, EventLoggerProviderOver(next.LogsBridge()))];
      res := Swap(events, EventLoggerProviderOver(next.LogsBridge()));
    }

    /**
     * The four `setDelegate` calls of `setOpenTelemetryImpl`, in order, each
     * recorded before it runs. The first failure propagates: the registries
     * after it keep their old providers and handles, and the registry that
     * threw is left partly swapped.
     */
    method Install(next: Implementation) returns (res: Outcome<Failure>, ghost attempted: nat)
      requires Valid()
      modifies this`trace, Repr()
      ensures Valid() && Repr() == old(Repr())
      ensures 1 <= attempted <= 4
      ensures trace == old(trace) + Delegations(next)[..attempted]
      ensures Delegates()[..attempted] == ProvidersOf(next)[..attempted]
      ensures res.Pass? ==> attempted == 4 && Installed(next)
      ensures Tables() == old(Tables())
      ensures AllExtended(next) ==> res.Pass?
      ensures attempted < 2 ==> unchanged(tracers.Repr)
      ensures attempted < 3 ==> unchanged(loggers.Repr)
      ensures attempted < 4 ==> unchanged(events.Repr)
      ensures SwapOutcome(next, attempted, res)
      ensures res.Fail? && attempted == 1 ==> PartlySwapped(meters.handles, next.MeterProvider(), res.error)
      ensures res.Fail? && attempted == 2 ==> PartlySwapped(tracers.handles, next.TracerProvider(), res.error)
      ensures res.Fail? && attempted == 3 ==> PartlySwapped(loggers.handles, next.LogsBridge(), res.error)
      ensures res.Fail? && attempted == 4 ==> PartlySwapped(events.handles, EventLoggerProviderOver(next.LogsBridge()), res.error)
    {
      ghost var first;
      res, first := InstallMetricsAndTraces(next);
      attempted := first;
      if res.Fail? {
        return;
      }
      res, attempted := InstallRest(next, old(trace));
      if AllExtended(next) {
        AllExtendedSwappable(next);
      }
    }

    /** An implementation whose providers never hand out plain objects can replace any handles. */
    lemma AllExtendedSwappable(impl: Implementation)
      requires AllExtended(impl)
      ensures SwappableUpTo(impl, 4)
    {
      var ps := ProvidersOf(impl);
      assert ps[0] in ps && ps[1] in ps && ps[2] in ps && ps[3] in ps;
    }

    /**
     * The rest of `Install` once the meter and tracer registries follow
     * `next`: the logs bridge and the event-logger provider.
     */
    method InstallRest(next: Implementation, ghost before: seq<Effect>) returns (res: Outcome<Failure>, ghost attempted: nat)
      requires Valid() && BoundUpTo(next, 2) && SwappableUpTo(next, 2)
      requires trace == before + Delegations(next)[..2]
      modifies this`trace, loggers.Repr, events.Repr
      ensures Valid() && Repr() == old(Repr())
      ensures 3 <= attempted <= 4
      ensures trace == before + Delegations(next)[..attempted]
      ensures Delegates()[..attempted] == ProvidersOf(next)[..attempted]
      ensures res.Pass? ==> attempted == 4 && Installed(next)
      ensures Tables() == old(Tables())
      ensures unchanged(tracers.Repr)
      ensures attempted < 4 ==> unchanged(events.Repr)
      ensures SwapOutcome(next, attempted, res)
      ensures res.Fail? && attempted == 3 ==> PartlySwapped(loggers.handles, next.LogsBridge(), res.error)
      ensures res.Fail? && attempted == 4 ==> PartlySwapped(events.handles, EventLoggerProviderOver(next.LogsBridge()), res.error)
    {
      ghost var second;
      res, second := InstallLogsAndEvents(next);
      attempted := 2 + second;
      assert Delegations(next)[..attempted] == Delegations(next)[..2] + Delegations(next)[2..attempted];
    }

    /**
     * `setOpenTelemetryImpl`: shut the current implementation down if it is an
     * SDK, then store the new one and install its providers.
     */
    method SetOpenTelemetryImpl(newImpl: Implementation, shutdownSucceeds: bool)
      returns (res: Outcome<Failure>, ghost attempted: nat)
      requires Valid()
      modifies this, Repr()
      ensures Valid() && Repr() == old(Repr())
      ensures impl == newImpl && resource == old(resource) && config == old(config)
      ensures 1 <= attempted <= 4
      ensures trace == old(trace) + ShutdownEffects(old(impl), shutdownSucceeds) + Delegations(newImpl)[..attempted]
      ensures Delegates()[..attempted] == ProvidersOf(newImpl)[..attempted]
      ensures res.Pass? ==> attempted == 4 && Installed(newImpl)
      ensures Tables() == old(Tables())
      ensures AllExtended(newImpl) ==> res.Pass?
      ensures attempted < 2 ==> unchanged(tracers.Repr)
      ensures attempted < 3 ==> unchanged(loggers.Repr)
      ensures attempted < 4 ==> unchanged(events.Repr)
      ensures SwapOutcome(newImpl, attempted, res)
      ensures res.Fail? && attempted == 1 ==> PartlySwapped(meters.handles, newImpl.MeterProvider(), res.error)
      ensures res.Fail? && attempted == 2 ==> PartlySwapped(tracers.handles, newImpl.TracerProvider(), res.error)
      ensures res.Fail? && attempted == 3 ==> PartlySwapped(loggers.handles, newImpl.LogsBridge(), res.error)
      ensures res.Fail? && attempted == 4 ==> PartlySwapped(events.handles, EventLoggerProviderOver(newImpl.LogsBridge()), res.error)
    {
      Retire(newImpl, shutdownSucceeds);
      res, attempted := Install(newImpl);
    }

    /** The first two steps of `setOpenTelemetryImpl`: shut the current implementation down, then store the new one. */
    method Retire(newImpl: Implementation, shutdownSucceeds: bool)
      requires Valid()
      modifies this`trace, this`impl
      ensures impl == newImpl && trace == old(trace) + ShutdownEffects(old(impl), shutdownSucceeds)
      ensures unchanged(Repr())
    {
      ShutDownCurrent(shutdownSucceeds);
      impl := newImpl;
    }

    /**
     * `postOpenTelemetrySdkConfiguration`: call every listener, in the given
     * (sorted) order, with the current configuration. An exception is not
     * caught, so the first listener that throws is the last one called.
     */
    method PostOpenTelemetrySdkConfiguration(listeners: seq<Listener>) returns (res: Outcome<ConfigureError>)
      modifies this`trace
      ensures trace == old(trace) + Notifications(listeners[..NotifiedCount(listeners)], config)
      ensures res.Pass? <==> FirstThrowing(listeners) == |listeners|
      ensures res.Fail? ==> res.error == ListenerThrew(listeners[FirstThrowing(listeners)].id)
    {
      var i := 0;
      while i < |listeners|
        invariant 0 <= i <= |listeners| && i <= FirstThrowing(listeners)
        invariant trace == old(trace) + Notifications(listeners[..i], config)
      {
        trace := trace + [Notified(listeners[i].id, config)];
        assert Notifications(listeners[..i + 1], config) == Notifications(listeners[..i], config) + [Notified(listeners[i].id, config)];
        if listeners[i].throws {
          return Fail(ListenerThrew(listeners[i].id));
        }
        i := i + 1;
      }
      return Pass;
    }

    /**
     * `configure(properties, resource, disableShutdownHook)`. In SDK mode the
     * configuration and resource come from the SDK build, with the caller's
     * resource attributes over the detected ones; in no-op mode both are
     * emptied. Either way the new implementation is installed and then, if
     * that succeeded, the listeners are notified. `attempted` counts the
     * registries that received the new implementation's provider: the later
     * ones are untouched when a swap throws.
     */
    method Configure(props: map<string, string>, supplied: map<string, string>, disableShutdownHook: bool,
                     build: SdkBuild, shutdownSucceeds: bool, listeners: seq<Listener>)
      returns (res: Outcome<ConfigureError>, ghost attempted: nat)
      requires Valid()
      modifies this, Repr()
      ensures Settings(impl, config, resource) == Resolve(props, supplied, disableShutdownHook, build)
      ensures Valid() && Repr() == old(Repr())
      ensures Tables() == old(Tables())
      ensures 1 <= attempted <= 4
      ensures Delegates()[..attempted] == ProvidersOf(impl)[..attempted]
      ensures attempted < 2 ==> unchanged(tracers.Repr)
      ensures attempted < 3 ==> unchanged(loggers.Repr)
      ensures attempted < 4 ==> unchanged(events.Repr)
      ensures AllExtended(impl) && FirstThrowing(listeners) == |listeners| ==> res.Pass?
      ensures res.Pass? ==>
                && attempted == 4 && Installed(impl)
                && trace == old(trace) + ShutdownEffects(old(impl), shutdownSucceeds) + Delegations(impl)
                                       + Notifications(listeners, config)
      ensures res.Fail? && res.error.ListenerThrew? ==>
                && attempted == 4 && Installed(impl)
                && FirstThrowing(listeners) < |listeners|
                && res.error == ListenerThrew(listeners[FirstThrowing(listeners)].id)
                && trace == old(trace) + ShutdownEffects(old(impl), shutdownSucceeds) + Delegations(impl)
                                       + Notifications(listeners[..NotifiedCount(listeners)], config)
      ensures res.Fail? && res.error.SwapFailed? ==>
                trace == old(trace) + ShutdownEffects(old(impl), shutdownSucceeds) + Delegations(impl)[..attempted]
      ensures SwapOutcome(impl, attempted, SwapPart(res))
      ensures SwapPart(res).Fail? && attempted == 1 ==> PartlySwapped(meters.handles, impl.MeterProvider(), SwapPart(res).error)
      ensures SwapPart(res).Fail? && attempted == 2 ==> PartlySwapped(tracers.handles, impl.TracerProvider(), SwapPart(res).error)
      ensures SwapPart(res).Fail? && attempted == 3 ==> PartlySwapped(loggers.handles, impl.LogsBridge(), SwapPart(res).error)
      ensures SwapPart(res).Fail? && attempted == 4 ==> PartlySwapped(events.handles, EventLoggerProviderOver(impl.LogsBridge()), SwapPart(res).error)
    {
      var settings := Resolve(props, supplied, disableShutdownHook, build);
      res, attempted := ApplySettings(settings, shutdownSucceeds, listeners);
    }

    /**
     * The part of `configure` after the mode decision: keep the configuration
     * and resource, switch to the new implementation, then notify the
     * listeners unless the switch threw.
     */
    method ApplySettings(settings: Settings, shutdownSucceeds: bool, listeners: seq<Listener>)
      returns (res: Outcome<ConfigureError>, ghost attempted: nat)
      requires Valid()
      modifies this, Repr()
      ensures Settings(impl, config, resource) == settings
      ensures Valid() && Repr() == old(Repr())
      ensures Tables() == old(Tables())
      ensures 1 <= attempted <= 4
      ensures Delegates()[..attempted] == ProvidersOf(impl)[..attempted]
      ensures attempted < 2 ==> unchanged(tracers.Repr)
      ensures attempted < 3 ==> unchanged(loggers.Repr)
      ensures attempted < 4 ==> unchanged(events.Repr)
      ensures AllExtended(impl) && FirstThrowing(listeners) == |listeners| ==> res.Pass?
      ensures res.Pass? ==>
                && attempted == 4 && Installed(impl)
                && trace == old(trace) + ShutdownEffects(old(impl), shutdownSucceeds) + Delegations(impl)
                                       + Notifications(listeners, config)
      ensures res.Fail? && res.error.ListenerThrew? ==>
                && attempted == 4 && Installed(impl)
                && FirstThrowing(listeners) < |listeners|
                && res.error == ListenerThrew(listeners[FirstThrowing(listeners)].id)
                && trace == old(trace) + ShutdownEffects(old(impl), shutdownSucceeds) + Delegations(impl)
                                       + Notifications(listeners[..NotifiedCount(listeners)], config)
      ensures res.Fail? && res.error.SwapFailed? ==>
                trace == old(trace) + ShutdownEffects(old(impl), shutdownSucceeds) + Delegations(impl)[..attempted]
      ensures SwapOutcome(impl, attempted, SwapPart(res))
      ensures SwapPart(res).Fail? && attempted == 1 ==> PartlySwapped(meters.handles, impl.MeterProvider(), SwapPart(res).error)
      ensures SwapPart(res).Fail? && attempted == 2 ==> PartlySwapped(tracers.handles, impl.TracerProvider(), SwapPart(res).error)
      ensures SwapPart(res).Fail? && attempted == 3 ==> PartlySwapped(loggers.handles, impl.LogsBridge(), SwapPart(res).error)
      ensures SwapPart(res).Fail? && attempted == 4 ==> PartlySwapped(events.handles, EventLoggerProviderOver(impl.LogsBridge()), SwapPart(res).error)
    {
      res, attempted := SwitchTo(settings, shutdownSucceeds);
      if res.Fail? {
        return;
      }
      assert Delegations(impl)[..attempted] == Delegations(impl);
      res := NotifyListeners(listeners);
    }

    /**
     * The listener walk once the new implementation is installed: the
     * registries are left as they are.
     */
    method NotifyListeners(listeners: seq<Listener>) returns (res: Outcome<ConfigureError>)
      requires Valid() && Installed(impl)
      modifies this`trace
      ensures Valid() && Installed(impl)
      ensures res.Pass? ==> FirstThrowing(listeners) == |listeners| && trace == old(trace) + Notifications(listeners, config)
      ensures res.Fail? ==>
                && res.error.ListenerThrew?
                && FirstThrowing(listeners) < |listeners|
                && res.error == ListenerThrew(listeners[FirstThrowing(listeners)].id)
                && trace == old(trace) + Notifications(listeners[..NotifiedCount(listeners)], config)
    {
      res := PostOpenTelemetrySdkConfiguration(listeners);
      assert listeners[..|listeners|] == listeners;
    }

    /**
     * Keep the configuration and resource of `settings`, then switch to its
     * implementation; a failed `setDelegate` surfaces as `SwapFailed`.
     */
    method SwitchTo(settings: Settings, shutdownSucceeds: bool) returns (res: Outcome<ConfigureError>, ghost attempted: nat)
      requires Valid()
      modifies this, Repr()
      ensures Valid() && Repr() == old(Repr())
      ensures Settings(impl, config, resource) == settings
      ensures Tables() == old(Tables())
      ensures 1 <= attempted <= 4
      ensures trace == old(trace) + ShutdownEffects(old(impl), shutdownSucceeds) + Delegations(impl)[..attempted]
      ensures Delegates()[..attempted] == ProvidersOf(impl)[..attempted]
      ensures attempted < 2 ==> unchanged(tracers.Repr)
      ensures attempted < 3 ==> unchanged(loggers.Repr)
      ensures attempted < 4 ==> unchanged(events.Repr)
      ensures AllExtended(impl) ==> res.Pass?
      ensures res.Pass? ==> attempted == 4 && Installed(impl)
      ensures res.Fail? ==> res.error.SwapFailed?
      ensures SwapOutcome(impl, attempted, SwapPart(res))
      ensures SwapPart(res).Fail? && attempted == 1 ==> PartlySwapped(meters.handles, impl.MeterProvider(), SwapPart(res).error)
      ensures SwapPart(res).Fail? && attempted == 2 ==> PartlySwapped(tracers.handles, impl.TracerProvider(), SwapPart(res).error)
      ensures SwapPart(res).Fail? && attempted == 3 ==> PartlySwapped(loggers.handles, impl.LogsBridge(), SwapPart(res).error)
      ensures SwapPart(res).Fail? && attempted == 4 ==> PartlySwapped(events.handles, EventLoggerProviderOver(impl.LogsBridge()), SwapPart(res).error)
    {
      config, resource := settings.config, settings.resource;
      var swap;
      swap, attempted := SetOpenTelemetryImpl(settings.impl, shutdownSucceeds);
      if swap.Fail? {
        return Fail(SwapFailed(swap.error)), attempted;
      }
      return Pass, attempted;
    }

    /** The deprecated two-argument `configure`: the three-argument one with the shutdown hook disabled. */
    method ConfigureWithoutShutdownHook(props: map<string, string>, supplied: map<string, string>,
                                        build: SdkBuild, shutdownSucceeds: bool, listeners: seq<Listener>)
      returns (res: Outcome<ConfigureError>, ghost attempted: nat)
      requires Valid()
      modifies this, Repr()
      ensures Settings(impl, config, resource) == Resolve(props, supplied, true, build)
      ensures impl.Sdk? ==> !impl.shutdownHook
      ensures Valid() && Repr() == old(Repr())
      ensures Tables() == old(Tables())
      ensures 1 <= attempted <= 4
      ensures Delegates()[..attempted] == ProvidersOf(impl)[..attempted]
      ensures attempted < 2 ==> unchanged(tracers.Repr)
      ensures attempted < 3 ==> unchanged(loggers.Repr)
      ensures attempted < 4 ==> unchanged(events.Repr)
      ensures AllExtended(impl) && FirstThrowing(listeners) == |listeners| ==> res.Pass?
      ensures res.Pass? ==>
                && attempted == 4 && Installed(impl)
                && trace == old(trace) + ShutdownEffects(old(impl), shutdownSucceeds) + Delegations(impl)
                                       + Notifications(listeners, config)
      ensures res.Fail? && res.error.ListenerThrew? ==>
                && attempted == 4 && Installed(impl)
                && FirstThrowing(listeners) < |listeners|
                && res.error == ListenerThrew(listeners[FirstThrowing(listeners)].id)
                && trace == old(trace) + ShutdownEffects(old(impl), shutdownSucceeds) + Delegations(impl)
                                       + Notifications(listeners[..NotifiedCount(listeners)], config)
      ensures res.Fail? && res.error.SwapFailed? ==>
                trace == old(trace) + ShutdownEffects(old(impl), shutdownSucceeds) + Delegations(impl)[..attempted]
      ensures SwapOutcome(impl, attempted, SwapPart(res))
      ensures SwapPart(res).Fail? && attempted == 1 ==> PartlySwapped(meters.handles, impl.MeterProvider(), SwapPart(res).error)
      ensures SwapPart(res).Fail? && attempted == 2 ==> PartlySwapped(tracers.handles, impl.TracerProvider(), SwapPart(res).error)
      ensures SwapPart(res).Fail? && attempted == 3 ==> PartlySwapped(loggers.handles, impl.LogsBridge(), SwapPart(res).error)
      ensures SwapPart(res).Fail? && attempted == 4 ==> PartlySwapped(events.handles, EventLoggerProviderOver(impl.LogsBridge()), SwapPart(res).error)
    {
      res, attempted := Configure(props, supplied, true, build, shutdownSucceeds, listeners);
    }

    /**
     * The shutdown step shared by `setOpenTelemetryImpl` and `close()`: an SDK
     * is shut down (the outcome of waiting for it is only logged); a no-op
     * implementation has nothing to shut down.
     */
    method ShutDownCurrent(shutdownSucceeds: bool)
      modifies this`trace
      ensures trace == old(trace) + ShutdownEffects(impl, shutdownSucceeds)
    {
      if impl.Sdk? {
        trace := trace + [ShutdownSdk(impl.id, shutdownSucceeds)];
      }
    }

    /**
     * `close()`: shut the current implementation down. The implementation is
     * kept, so closing twice shuts the same SDK down twice.
     */
    method Close(shutdownSucceeds: bool)
      modifies this`trace
      ensures impl == old(impl)
      ensures trace == old(trace) + ShutdownEffects(impl, shutdownSucceeds)
    {
      ShutDownCurrent(shutdownSucceeds);
    }

    method GetMeterProvider() returns (r: Registry)
      ensures r == meters
    {
      r := meters;
    }

    method GetTracerProvider() returns (r: Registry)
      ensures r == tracers
    {
      r := tracers;
    }

    method GetLogsBridge() returns (r: Registry)
      ensures r == loggers
    {
      r := loggers;
    }

    method GetEventLoggerProvider() returns (r: Registry)
      ensures r == events
    {
      r := events;
    }
  }
}
