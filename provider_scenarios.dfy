/**
 * Client runs of the registry, each on a fresh registry, showing what callers
 * can rely on from the contracts alone.
 */
module ProviderScenarios {
  import opened Wrappers
  import opened Scope
  import opened Reconfigurable

  /**
   * On an empty registry bound to provider 1, build an
   * "io.jenkins.authentication" tracer at version 1.0.0 and an "io.jenkins.build"
   * tracer with a schema URL, then build the latter a second time.
   */
  method BuildTwoScopes(tracers: Registry) returns (auth: Handle, build: Handle, sameInstance: bool)
    requires tracers.Valid() && tracers.handles == map[] && tracers.delegate == RealProvider(1, {}, true)
    modifies tracers
    ensures tracers.Valid() && fresh(tracers.Repr - old(tracers.Repr))
    ensures tracers.delegate == old(tracers.delegate)
    ensures tracers.handles == map[AuthKey() := auth, BuildKey() := build]
    ensures auth.delegate == Inner(1, AuthKey(), true, true)
    ensures build.delegate == Inner(1, BuildKey(), true, true)
    ensures sameInstance
  {
    assert AuthKey() != BuildKey() by { assert AuthKey().name[11] != BuildKey().name[11]; }
    var authBuilder := tracers.NewBuilder("io.jenkins.authentication");
    authBuilder.SetInstrumentationVersion("1.0.0");
    assert ScopeKey(authBuilder.name, authBuilder.schemaUrl, authBuilder.version) == AuthKey();
    var authRes := authBuilder.Build();
    auth := authRes.value;
    assert tracers.handles == map[AuthKey() := auth];
    assert fresh(tracers.Repr - old(tracers.Repr));

    var buildBuilder := tracers.NewBuilder("io.jenkins.build");
    buildBuilder.SetSchemaUrl("https://jenkins.io/build");
    assert ScopeKey(buildBuilder.name, buildBuilder.schemaUrl, buildBuilder.version) == BuildKey();
    assert BuildKey() !in tracers.handles;
    var buildRes := buildBuilder.Build();
    build := buildRes.value;
    assert tracers.handles == map[AuthKey() := auth, BuildKey() := build];
    assert fresh(tracers.Repr - old(tracers.Repr));

    var againBuilder := tracers.NewBuilder("io.jenkins.build");
    againBuilder.SetSchemaUrl("https://jenkins.io/build");
    assert ScopeKey(againBuilder.name, againBuilder.schemaUrl, againBuilder.version) == BuildKey();
    assert BuildKey() in tracers.handles;
    var again := againBuilder.Build();
    sameInstance := again == Success(build);
    assert fresh(tracers.Repr - old(tracers.Repr));
  }

  function AuthKey(): ScopeKey
  {
    ScopeKey("io.jenkins.authentication", None, Some("1.0.0"))
  }

  function BuildKey(): ScopeKey
  {
    ScopeKey("io.jenkins.build", Some("https://jenkins.io/build"), None)
  }

  /**
   * Start from the no-op provider, install provider 1, register the two
   * scopes of BuildTwoScopes, install provider 2: both handles now hold objects
   * of provider 2 with the same scope metadata as before.
   */
  method TwoSwaps() returns (authBefore: Inner, buildBefore: Inner, sameInstance: bool,
                             authAfter: Inner, buildAfter: Inner)
    ensures authBefore == Inner(1, ScopeKey("io.jenkins.authentication", None, Some("1.0.0")), true, true)
    ensures buildBefore == Inner(1, ScopeKey("io.jenkins.build", Some("https://jenkins.io/build"), None), true, true)
    ensures sameInstance
    ensures authAfter.providerId == 2 && authAfter.scope == authBefore.scope
    ensures buildAfter.providerId == 2 && buildAfter.scope == buildBefore.scope
  {
    var tracers := new Registry(NoopProvider);
    var _, _ := tracers.SetDelegate(RealProvider(1, {}, true));
    var auth, build;
    auth, build, sameInstance := BuildTwoScopes(tracers);
    authBefore := auth.GetDelegate();
    buildBefore := build.GetDelegate();

    var res, _ := tracers.SetDelegate(RealProvider(2, {}, true));
    assert AuthKey() in tracers.handles && BuildKey() in tracers.handles;
    authAfter := auth.GetDelegate();
    buildAfter := build.GetDelegate();
  }

  /**
   * A builder keeps the real builder of the provider current when it was made:
   * built after a swap, its new handle holds an object of the retired provider.
   */
  method StaleBuilder() returns (current: RealProvider, bound: Inner)
    ensures current.id == 2 && bound.providerId == 1
  {
    var loggers := new Registry(RealProvider(1, {}, true));
    var builder := loggers.NewBuilder("io.jenkins.build");
    var _, _ := loggers.SetDelegate(RealProvider(2, {}, true));
    var built := builder.Build();
    current := loggers.GetDelegate();
    bound := built.value.GetDelegate();
  }

  /**
   * A swap to a provider that hands out a non-extended object for one
   * registered scope fails, yet leaves the new provider installed and that
   * scope's handle on the old provider; other handles may or may not have been
   * rebuilt, depending on the visiting order.
   */
  method PartialSwap() returns (res: Outcome<Failure>, current: RealProvider, a: Inner, b: Inner)
    ensures res == Fail(IllegalState(Inner(2, NameOnly("b"), false, true)))
    ensures current.id == 2
    ensures b.providerId == 1
    ensures a.providerId == 1 || a.providerId == 2
  {
    var tracers := new Registry(RealProvider(1, {}, true));
    var ha := tracers.Get("a");
    var hb := tracers.Get("b");
    assert NameOnly("a") != NameOnly("b") by { assert "a"[0] != "b"[0]; }
    assert tracers.handles == map[NameOnly("a") := ha.value, NameOnly("b") := hb.value];
    assert ha.value.delegate.providerId == 1;
    ghost var swapped;
    res, swapped := tracers.SetDelegate(RealProvider(2, {"b"}, true));
    assert NameOnly("b") in tracers.handles && NameOnly("a") in tracers.handles;
    assert res.error.offending.scope == NameOnly("b");
    current := tracers.GetDelegate();
    a := ha.value.GetDelegate();
    b := hb.value.GetDelegate();
  }
}
