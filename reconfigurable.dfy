/**
 * The reconfigurable provider registry shared by the tracer, logger, meter and
 * event-logger providers: a current real provider, a table from scope key to a
 * long-lived handle, and a swap that rebuilds every handle's inner object from
 * the new real provider.
 *
 * Locks are not modelled: every operation runs to completion on its own.
 */
module Reconfigurable {
  import opened Wrappers
  import opened Scope

  /** The `IllegalStateException` thrown when a delegate is not an extended one. */
  datatype Failure = IllegalState(offending: Inner)

  /** The span builder a tracer issues for a span name (an SDK object). */
  datatype SpanBuilder = SpanBuilder(tracer: Inner, spanName: string)

  /** The log-record builder a logger issues (an SDK object). */
  datatype LogRecordBuilder = LogRecordBuilder(logger: Inner)

  /** `requiresExtendedTracer` / `requiresExtendedLogger`: the capability check. */
  function RequiresExtended(d: Inner): (r: Result<Inner, Failure>)
    ensures r.Success? <==> d.extended
    ensures r.Success? ==> r.value == d
    ensures r.Failure? ==> r.error == IllegalState(d)
  {
    if d.extended then Success(d) else Failure(IllegalState(d))
  }

  /**
   * The real builder `setDelegate` derives for a registered key: a builder for the
   * key's name from the new provider, with the version and then the schema URL
   * reapplied when the key has them.
   */
  function Rebuild(p: RealProvider, k: ScopeKey): (b: RealBuilder)
    ensures b.provider == p && b.Key() == k
    ensures b.Build() == Issue(p, k)
  {
    var named := NewRealBuilder(p, k.name);
    var versioned := if k.version.Some? then named.SetInstrumentationVersion(k.version.value) else named;
    if k.schemaUrl.Some? then versioned.SetSchemaUrl(k.schemaUrl.value) else versioned
  }

  /** A long-lived handle (`ReconfigurableExtendedTracer` / `ReconfigurableExtendedLogger`). */
  class Handle {
    var delegate: Inner

    /** Only reached after the capability check has passed. */
    constructor (d: Inner)
      requires d.extended
      ensures delegate == d
    {
      delegate := d;
    }

    method SetDelegate(d: Inner) returns (res: Outcome<Failure>)
      modifies this
      ensures res == (if d.extended then Pass else Fail(IllegalState(d)))
      ensures delegate == (if d.extended then d else old(delegate))
    {
      var checked := RequiresExtended(d);
      if checked.Failure? {
        return Fail(checked.error);
      }
      delegate := checked.value;
      return Pass;
    }

    method GetDelegate() returns (d: Inner)
      ensures d == delegate
    {
      d := delegate;
    }

    /** A tracer handle forwards `spanBuilder` to its current tracer. */
    method SpanBuilderFor(spanName: string) returns (b: SpanBuilder)
      ensures b.tracer == delegate && b.spanName == spanName
    {
      b := SpanBuilder(delegate, spanName);
    }

    /** A logger handle forwards `logRecordBuilder` to its current logger. */
    method LogRecordBuilderFor() returns (b: LogRecordBuilder)
      ensures b.logger == delegate
    {
      b := LogRecordBuilder(delegate);
    }

    method IsEnabled() returns (e: bool)
      ensures e == delegate.enabled
    {
      e := delegate.enabled;
    }
  }

  /** `ReconfigurableTracerProvider` / `ReconfigurableLoggerProvider` and their meter and event-logger siblings. */
  class Registry {
    var delegate: RealProvider
    var handles: map<ScopeKey, Handle>
    ghost var Repr: set<object>

    /**
     * Every handle is in the footprint, holds an extended object made for
     * exactly its own key, and no handle is registered under two keys.
     */
    ghost predicate Valid()
      reads this, Repr
    {
      && this in Repr
      && (forall k :: k in handles ==> handles[k] in Repr && handles[k].delegate.extended && handles[k].delegate.scope == k)
      && (forall k, k' :: k in handles && k' in handles && k != k' ==> handles[k] != handles[k'])
    }

    /** The registry and all its handles follow provider `p`. */
    ghost predicate BoundTo(p: RealProvider)
      reads this, Repr
      requires Valid()
    {
      delegate == p && forall k :: k in handles ==> handles[k].delegate == Issue(p, k)
    }

    constructor (p: RealProvider)
      ensures Valid() && fresh(Repr)
      ensures delegate == p && handles == map[]
    {
      delegate := p;
      handles := map[];
      Repr := {this};
    }

    /**
     * `computeIfAbsent(key, k -> new Handle(make))`: the handle already cached
     * under `key`, or else a new one, registered only if `make` passes the
     * capability check.
     */
    method ComputeIfAbsent(key: ScopeKey, make: Inner) returns (res: Result<Handle, Failure>)
      requires Valid() && make.scope == key
      modifies this
      ensures Valid() && fresh(Repr - old(Repr)) && delegate == old(delegate)
      ensures key in old(handles) ==> res == Success(old(handles)[key]) && handles == old(handles)
      ensures key !in old(handles) && make.extended ==>
                && res.Success? && fresh(res.value) && res.value.delegate == make
                && handles == old(handles)[key := res.value]
      ensures key !in old(handles) && !make.extended ==>
                res == Failure(IllegalState(make)) && handles == old(handles)
    {
      if key in handles {
        return Success(handles[key]);
      }
      var checked := RequiresExtended(make);
      if checked.Failure? {
        return Failure(checked.error);
      }
      var h := new Handle(checked.value);
      handles := handles[key := h];
      Repr := Repr + {h};
      return Success(h);
    }

    /** `get(name)`: the handle cached under (name, none, none). */
    method Get(name: string) returns (res: Result<Handle, Failure>)
      requires Valid()
      modifies this
      ensures Valid() && fresh(Repr - old(Repr)) && delegate == old(delegate)
      ensures NameOnly(name) in old(handles) ==>
                res == Success(old(handles)[NameOnly(name)]) && handles == old(handles)
      ensures NameOnly(name) !in old(handles) && name !in delegate.plainScopes ==>
                && res.Success? && fresh(res.value) && res.value.delegate == ProviderGet(delegate, name)
                && handles == old(handles)[NameOnly(name) := res.value]
      ensures NameOnly(name) !in old(handles) && name in delegate.plainScopes ==>
                res == Failure(IllegalState(ProviderGet(delegate, name))) && handles == old(handles)
    {
      res := ComputeIfAbsent(NameOnly(name), ProviderGet(delegate, name));
    }

    /** `get(name, version)` (tracers): the handle cached under (name, none, version). */
    method GetVersioned(name: string, version: string) returns (res: Result<Handle, Failure>)
      requires Valid()
      modifies this
      ensures Valid() && fresh(Repr - old(Repr)) && delegate == old(delegate)
      ensures ScopeKey(name, None, Some(version)) in old(handles) ==>
                res == Success(old(handles)[ScopeKey(name, None, Some(version))]) && handles == old(handles)
      ensures ScopeKey(name, None, Some(version)) !in old(handles) && name !in delegate.plainScopes ==>
                && res.Success? && fresh(res.value)
                && res.value.delegate == ProviderGetVersioned(delegate, name, version)
                && handles == old(handles)[ScopeKey(name, None, Some(version)) := res.value]
      ensures ScopeKey(name, None, Some(version)) !in old(handles) && name in delegate.plainScopes ==>
                && res == Failure(IllegalState(ProviderGetVersioned(delegate, name, version)))
                && handles == old(handles)
    {
      res := ComputeIfAbsent(ScopeKey(name, None, Some(version)), ProviderGetVersioned(delegate, name, version));
    }

    /** `tracerBuilder(name)` / `loggerBuilder(name)`: a builder over the current provider's builder. */
    method NewBuilder(name: string) returns (b: Builder)
      ensures fresh(b) && b.Valid()
      ensures b.registry == this && b.name == name && b.inner == NewRealBuilder(delegate, name)
      ensures b.schemaUrl == None && b.version == None
    {
      b := new Builder(this, delegate, name);
    }

    method GetDelegate() returns (p: RealProvider)
      ensures p == delegate
    {
      p := delegate;
    }

    /**
     * `setDelegate(p)`: installs `p` first, then visits the registered keys in
     * an unspecified order and swaps a rebuilt object into each handle. If a
     * rebuilt object fails the capability check the loop stops there: `p` stays
     * installed and only the keys in `swapped` have been rebuilt.
     */
    method SetDelegate(p: RealProvider) returns (res: Outcome<Failure>, ghost swapped: set<ScopeKey>)
      requires Valid()
      modifies Repr
      ensures Valid() && Repr == old(Repr)
      ensures delegate == p && handles == old(handles)
      ensures swapped <= handles.Keys
      ensures forall k :: k in swapped ==> handles[k].delegate == Issue(p, k)
      ensures forall k :: k in handles && k !in swapped ==> handles[k].delegate == old(handles[k].delegate)
      ensures res.Pass? <==> swapped == handles.Keys
      ensures res.Pass? <==> forall k :: k in handles ==> k.name !in p.plainScopes
      ensures res.Pass? ==> BoundTo(p)
      ensures res.Fail? ==> && res.error.offending.scope in handles.Keys - swapped
                            && res.error.offending.scope.name in p.plainScopes
                            && res.error == IllegalState(Issue(p, res.error.offending.scope))
    {
      delegate := p;
      var todo := handles.Keys;
      swapped := {};
      while todo != {}
        invariant Valid() && Repr == old(Repr) && delegate == p && handles == old(handles)
        invariant todo <= handles.Keys && swapped == handles.Keys - todo
        invariant forall k :: k in swapped ==> handles[k].delegate == Issue(p, k)
        invariant forall k :: k in todo ==> handles[k].delegate == old(handles[k].delegate)
        decreases todo
      {
        var k :| k in todo;
        var rebuilt := Rebuild(p, k).Build();
        var r := handles[k].SetDelegate(rebuilt);
        if r.Fail? {
          return r, swapped;
        }
        todo := todo - {k};
        swapped := swapped + {k};
      }
      return Pass, swapped;
    }
  }

  /** `ReconfigurableTracerBuilder` / `ReconfigurableLoggerBuilder`. */
  class Builder {
    const registry: Registry
    const name: string
    /** The real builder, taken from the provider current when this builder was made. */
    var inner: RealBuilder
    var schemaUrl: Option<string>
    var version: Option<string>

    /** The real builder has seen exactly the setter calls recorded here. */
    ghost predicate Valid()
      reads this
    {
      inner.name == name && inner.schemaUrl == schemaUrl && inner.version == version
    }

    constructor (registry: Registry, provider: RealProvider, name: string)
      ensures Valid()
      ensures this.registry == registry && this.name == name && inner == NewRealBuilder(provider, name)
      ensures schemaUrl == None && version == None
    {
      this.registry := registry;
      this.name := name;
      inner := NewRealBuilder(provider, name);
      schemaUrl := None;
      version := None;
    }

    method SetSchemaUrl(s: string)
      requires Valid()
      modifies this
      ensures Valid()
      ensures schemaUrl == Some(s) && version == old(version)
      ensures inner == old(inner).SetSchemaUrl(s)
    {
      inner := inner.SetSchemaUrl(s);
      schemaUrl := Some(s);
    }

    method SetInstrumentationVersion(v: string)
      requires Valid()
      modifies this
      ensures Valid()
      ensures version == Some(v) && schemaUrl == old(schemaUrl)
      ensures inner == old(inner).SetInstrumentationVersion(v)
    {
      inner := inner.SetInstrumentationVersion(v);
      version := Some(v);
    }

    /**
     * `build()`: the handle cached under (name, schemaUrl, version), or a new
     * one wrapping what the real builder builds. The real builder comes from
     * the provider that was current when this builder was made, not
     * necessarily the registry's current one.
     */
    method Build() returns (res: Result<Handle, Failure>)
      requires Valid() && registry.Valid()
      modifies registry
      ensures registry.Valid() && fresh(registry.Repr - old(registry.Repr))
      ensures registry.delegate == old(registry.delegate)
      ensures ScopeKey(name, schemaUrl, version) in old(registry.handles) ==>
                && res == Success(old(registry.handles)[ScopeKey(name, schemaUrl, version)])
                && registry.handles == old(registry.handles)
      ensures ScopeKey(name, schemaUrl, version) !in old(registry.handles) && name !in inner.provider.plainScopes ==>
                && res.Success? && fresh(res.value)
                && res.value.delegate == Issue(inner.provider, ScopeKey(name, schemaUrl, version))
                && registry.handles == old(registry.handles)[ScopeKey(name, schemaUrl, version) := res.value]
      ensures ScopeKey(name, schemaUrl, version) !in old(registry.handles) && name in inner.provider.plainScopes ==>
                && res == Failure(IllegalState(Issue(inner.provider, ScopeKey(name, schemaUrl, version))))
                && registry.handles == old(registry.handles)
    {
      res := registry.ComputeIfAbsent(ScopeKey(name, schemaUrl, version), inner.Build());
    }
  }
}
