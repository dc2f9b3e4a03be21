/**
 * Instrumentation scopes and the real (swappable) providers behind the
 * reconfigurable facade. The real providers belong to the OpenTelemetry SDK;
 * here each is an immutable record, and the objects it hands out are records
 * that remember which provider made them and for which scope.
 */
module Scope {
  import opened Wrappers

  /** The map key of every registry: (name, schemaUrl, version), compared structurally. */
  datatype ScopeKey = ScopeKey(name: string, schemaUrl: Option<string>, version: Option<string>)

  /** The key `get(name)` uses: no schema URL, no version. */
  function NameOnly(name: string): ScopeKey
  {
    ScopeKey(name, None, None)
  }

  /**
   * A real provider (tracer, logger, meter or event-logger provider).
   * `plainScopes` names the scopes for which it hands out an object that is not
   * an "extended" one (for instance when the API incubator is missing);
   * `enabled` is what the objects it hands out answer to `isEnabled()`.
   */
  datatype RealProvider = RealProvider(id: nat, plainScopes: set<string>, enabled: bool)

  /** The inert provider every registry starts with. */
  const NoopProvider := RealProvider(0, {}, false)

  /** An object (tracer, logger, ...) handed out by a real provider. */
  datatype Inner = Inner(providerId: nat, scope: ScopeKey, extended: bool, enabled: bool)

  /** What provider `p` hands out for `scope`. */
  function Issue(p: RealProvider, scope: ScopeKey): Inner
  {
    Inner(p.id, scope, scope.name !in p.plainScopes, p.enabled)
  }

  /** `p.get(name)`. */
  function ProviderGet(p: RealProvider, name: string): Inner
  {
    Issue(p, NameOnly(name))
  }

  /** `p.get(name, version)`. */
  function ProviderGetVersioned(p: RealProvider, name: string, version: string): Inner
  {
    Issue(p, ScopeKey(name, None, Some(version)))
  }

  /** A real builder obtained from `provider.tracerBuilder(name)` / `loggerBuilder(name)`. */
  datatype RealBuilder = RealBuilder(provider: RealProvider, name: string,
                                     schemaUrl: Option<string>, version: Option<string>)
  {
    function SetSchemaUrl(s: string): RealBuilder
    {
      this.(schemaUrl := Some(s))
    }

    function SetInstrumentationVersion(v: string): RealBuilder
    {
      this.(version := Some(v))
    }

    function Key(): ScopeKey
    {
      ScopeKey(name, schemaUrl, version)
    }

    function Build(): Inner
    {
      Issue(provider, Key())
    }
  }

  function NewRealBuilder(p: RealProvider, name: string): RealBuilder
  {
    RealBuilder(p, name, None, None)
  }
}
