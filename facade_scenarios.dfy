/**
 * The plugin's central promise seen from the facade: a tracer obtained from
 * `getTracerProvider()` before `configure` is the same object afterwards, and
 * it follows the SDK into real mode and back into no-op mode.
 */
module FacadeScenarios {
  import opened Wrappers
  import opened Scope
  import opened Reconfigurable
  import opened Facade

  /** An SDK whose providers issue extended, enabled objects only. */
  function SampleBuild(): SdkBuild
  {
    SdkBuild(7, RealProvider(1, {}, true), RealProvider(2, {}, true), RealProvider(3, {}, true),
             map["otel.traces.exporter" := "otlp"], map["service.name" := "jenkins"])
  }

  /** Obtains the "jenkins" tracer of a registry bound to `p`, which issues only extended tracers. */
  method JenkinsTracer(otel: ReconfigurableOpenTelemetry, ghost p: RealProvider) returns (h: Handle)
    requires otel.Valid() && otel.tracers.BoundTo(p) && p.plainScopes == {}
    modifies otel.tracers
    ensures otel.Valid() && otel.tracers.BoundTo(p)
    ensures otel.tracers.delegate == old(otel.tracers.delegate)
    ensures NameOnly("jenkins") in otel.tracers.handles && otel.tracers.handles[NameOnly("jenkins")] == h
    ensures h.delegate == Issue(p, NameOnly("jenkins"))
    ensures fresh(otel.Repr() - old(otel.Repr()))
  {
    var tracers := otel.GetTracerProvider();
    var got := tracers.Get("jenkins");
    h := got.value;
  }

  /**
   * `configure(props, {}, false)` with the sample SDK and no listeners, then a
   * look at what the "jenkins" tracer handle now delegates to.
   */
  method ConfigureAndRead(otel: ReconfigurableOpenTelemetry, h: Handle, props: map<string, string>) returns (d: Inner)
    requires otel.Valid()
    requires NameOnly("jenkins") in otel.tracers.handles && otel.tracers.handles[NameOnly("jenkins")] == h
    requires AllExtended(Resolve(props, map[], false, SampleBuild()).impl)
    modifies otel, otel.Repr()
    ensures otel.Valid() && otel.Repr() == old(otel.Repr())
    ensures NameOnly("jenkins") in otel.tracers.handles && otel.tracers.handles[NameOnly("jenkins")] == h
    ensures d == Issue(Resolve(props, map[], false, SampleBuild()).impl.TracerProvider(), NameOnly("jenkins"))
  {
    var res, _ := otel.Configure(props, map[], false, SampleBuild(), true, []);
    assert otel.Tables()[1] == old(otel.Tables())[1];
    d := h.GetDelegate();
  }

  /**
   * A tracer taken in no-op mode is the no-op tracer; after an SDK `configure`
   * the same handle holds the SDK's tracer; after a `configure` without
   * trigger properties it holds the no-op tracer again.
   */
  method TracerFollowsConfigure() returns (before: Inner, during: Inner, after: Inner)
    ensures before == Inner(0, NameOnly("jenkins"), true, false)
    ensures during == Inner(2, NameOnly("jenkins"), true, true)
    ensures after == before
  {
    var otel := new ReconfigurableOpenTelemetry();
    var h := JenkinsTracer(otel, NoopProvider);
    before := h.GetDelegate();
    assert UsesSdk(map["otel.traces.exporter" := "otlp"]);
    during := ConfigureAndRead(otel, h, map["otel.traces.exporter" := "otlp"]);
    after := ConfigureAndRead(otel, h, map[]);
  }

  /** An SDK whose tracer provider hands the "jenkins" scope a plain (non-extended) tracer. */
  function PlainJenkinsTracerBuild(): SdkBuild
  {
    SdkBuild(8, RealProvider(1, {}, true), RealProvider(2, {"jenkins"}, true), RealProvider(3, {}, true),
             map["otel.traces.exporter" := "otlp"], map[])
  }

  /** A fresh facade, with a "jenkins" meter and a "jenkins" tracer taken in no-op mode. */
  method TakeJenkinsHandles() returns (otel: ReconfigurableOpenTelemetry, m: Handle, t: Handle)
    ensures fresh(otel) && fresh(otel.Repr())
    ensures otel.Valid() && otel.impl == Noop && otel.trace == []
    ensures otel.meters.handles == map[NameOnly("jenkins") := m]
    ensures otel.tracers.handles == map[NameOnly("jenkins") := t]
    ensures t.delegate == Inner(0, NameOnly("jenkins"), true, false)
  {
    otel := new ReconfigurableOpenTelemetry();
    var meters := otel.GetMeterProvider();
    var got := meters.Get("jenkins");
    m := got.value;
    var tracers := otel.GetTracerProvider();
    got := tracers.Get("jenkins");
    t := got.value;
  }

  /**
   * `configure` in SDK mode with `PlainJenkinsTracerBuild`, over a facade in
   * no-op mode whose only meter and only tracer are the "jenkins" ones.
   */
  method ConfigurePlainJenkinsTracer(otel: ReconfigurableOpenTelemetry, m: Handle, t: Handle)
    returns (res: Outcome<ConfigureError>, effects: seq<Effect>, meter: Inner, tracer: Inner)
    requires otel.Valid() && otel.impl == Noop && otel.trace == []
    requires otel.meters.handles == map[NameOnly("jenkins") := m]
    requires otel.tracers.handles == map[NameOnly("jenkins") := t]
    requires t.delegate == Inner(0, NameOnly("jenkins"), true, false)
    modifies otel, otel.Repr()
    ensures res == Fail(SwapFailed(IllegalState(Inner(2, NameOnly("jenkins"), false, true))))
    ensures effects == [Delegated(Metrics, RealProvider(1, {}, true)), Delegated(Traces, RealProvider(2, {"jenkins"}, true))]
    ensures meter == Inner(1, NameOnly("jenkins"), true, true)
    ensures tracer == Inner(0, NameOnly("jenkins"), true, false)
  {
    var props := map["otel.traces.exporter" := "otlp"];
    assert UsesSdk(props);
    ghost var attempted;
    res, attempted := otel.Configure(props, map[], false, PlainJenkinsTracerBuild(), true, []);
    ghost var next := otel.impl;
    assert next.TracerProvider() == RealProvider(2, {"jenkins"}, true);
    assert !NoPlainScope(otel.tracers.handles, next.TracerProvider());
    assert attempted == 2;
    assert res.Fail? && res.error.SwapFailed?;
    assert res.error.cause.offending.scope == NameOnly("jenkins");
    assert otel.meters.BoundTo(next.MeterProvider());
    assert next.MeterProvider() == RealProvider(1, {}, true);
    assert otel.meters.handles[NameOnly("jenkins")] == m;
    assert m.delegate == Issue(next.MeterProvider(), NameOnly("jenkins"));
    assert Delegations(next)[..2] == [Delegated(Metrics, next.MeterProvider()), Delegated(Traces, next.TracerProvider())];
    meter := m.GetDelegate();
    tracer := t.GetDelegate();
    effects := otel.trace;
  }

  /**
   * A "jenkins" meter and a "jenkins" tracer are taken in no-op mode, then
   * `configure` installs an SDK whose tracer provider hands that scope a plain
   * tracer. The meter registry has switched, and its handle follows the new
   * meter provider, when the tracer swap throws naming the "jenkins" scope;
   * the "jenkins" tracer handle keeps its no-op tracer, and the logs bridge
   * and the event-logger provider are never installed.
   */
  method TracerSwapFails() returns (res: Outcome<ConfigureError>, effects: seq<Effect>, meter: Inner, tracer: Inner)
    ensures res == Fail(SwapFailed(IllegalState(Inner(2, NameOnly("jenkins"), false, true))))
    ensures effects == [Delegated(Metrics, RealProvider(1, {}, true)), Delegated(Traces, RealProvider(2, {"jenkins"}, true))]
    ensures meter == Inner(1, NameOnly("jenkins"), true, true)
    ensures tracer == Inner(0, NameOnly("jenkins"), true, false)
  {
    var otel, m, t := TakeJenkinsHandles();
    res, effects, meter, tracer := ConfigurePlainJenkinsTracer(otel, m, t);
  }
}
