/**
 * `ConfigPropertiesUtils`: one-line summaries of the SDK configuration and
 * resource for the log. Each summary lists the noteworthy keys that have a
 * value, in a fixed order, as `key=value` joined by ", ", followed by "...".
 *
 * A configuration and a resource are both string maps here; the resource
 * attributes printed (`service.*`) are string-valued.
 */
module ConfigPrinting {
  import opened Wrappers

  type Entry = (string, string)

  const NoteworthyConfigurationPropertyNames: seq<string> := [
    "otel.resource.attributes", "otel.service.name",
    "otel.traces.exporter", "otel.metrics.exporter", "otel.logs.exporter",
    "otel.exporter.otlp.endpoint", "otel.exporter.otlp.traces.endpoint", "otel.exporter.otlp.metrics.endpoint",
    "otel.exporter.jaeger.endpoint", "otel.exporter.prometheus.port"]

  const NoteworthyResourceAttributeKeys: seq<string> := ["service.name", "service.namespace", "service.version"]

  predicate NoDuplicates(names: seq<string>)
  {
    forall i, j :: 0 <= i < j < |names| ==> names[i] != names[j]
  }

  /** `emptyConfig()`: a configuration with no property set. */
  function EmptyConfig(): (c: map<string, string>)
    ensures forall name :: name !in c
  {
    map[]
  }

  /** The keys of an insertion-ordered map kept as its list of entries. */
  function KeysOf(m: seq<Entry>): set<string>
  {
    set e | e in m :: e.0
  }

  /**
   * `LinkedHashMap.put`: a new key goes at the end; an existing key keeps its
   * place and takes the new value.
   */
  function Put(m: seq<Entry>, k: string, v: string): (r: seq<Entry>)
    ensures KeysOf(r) == KeysOf(m) + {k}
    ensures (k, v) in r
    ensures k !in KeysOf(m) ==> r == m + [(k, v)]
  {
    if m == [] then [(k, v)]
    else if m[0].0 == k then [(k, v)] + m[1..]
    else
      assert KeysOf(m) == {m[0].0} + KeysOf(m[1..]);
      var rest := Put(m[1..], k, v);
      assert KeysOf([m[0]] + rest) == {m[0].0} + KeysOf(rest);
      [m[0]] + rest
  }

  /** The entries for the names that have a value, in the order of `names`. */
  function Selected(names: seq<string>, values: map<string, string>): seq<Entry>
  {
    if names == [] then []
    else (if names[0] in values then [(names[0], values[names[0]])] else []) + Selected(names[1..], values)
  }

  /** An entry is selected iff its key is one of the names and it carries that key's value. */
  lemma {:induction false} SelectedMembership(names: seq<string>, values: map<string, string>, e: Entry)
    ensures e in Selected(names, values) <==> e.0 in names && e.0 in values && e.1 == values[e.0]
  {
    if names != [] {
      SelectedMembership(names[1..], values, e);
      assert names == [names[0]] + names[1..];
    }
  }

  /** Selection respects the order of the names: the entries of a prefix come first. */
  lemma {:induction false} SelectedAppend(a: seq<string>, b: seq<string>, values: map<string, string>)
    ensures Selected(a + b, values) == Selected(a, values) + Selected(b, values)
  {
    if a != [] {
      SelectedAppend(a[1..], b, values);
      assert (a + b)[1..] == a[1..] + b;
    } else {
      assert a + b == b;
    }
  }

  /** Only the values of the listed names matter. */
  lemma {:induction false} SelectedOnlyReadsNames(names: seq<string>, values: map<string, string>, values': map<string, string>)
    requires forall n :: n in names ==> (n in values <==> n in values')
    requires forall n :: n in names && n in values ==> values[n] == values'[n]
    ensures Selected(names, values) == Selected(names, values')
  {
    if names != [] {
      assert names[0] in names;
      SelectedOnlyReadsNames(names[1..], values, values');
    }
  }

  /** Nothing is selected from a map with none of the names. */
  lemma {:induction false} SelectedNone(names: seq<string>, values: map<string, string>)
    requires forall n :: n in names ==> n !in values
    ensures Selected(names, values) == []
  {
    if names != [] {
      assert names[0] in names;
      SelectedNone(names[1..], values);
    }
  }

  function Render(e: Entry): string
  {
    e.0 + "=" + e.1
  }

  /**
   * `Collectors.joining(", ")` over the rendered entries: empty iff there is
   * nothing to join, and otherwise starting with the first rendered entry.
   */
  function Join(entries: seq<Entry>): (r: string)
    ensures r == "" <==> entries == []
    ensures entries != [] ==> Render(entries[0]) <= r
  {
    if entries == [] then ""
    else if |entries| == 1 then Render(entries[0])
    else Render(entries[0]) + ", " + Join(entries[1..])
  }

  /** Joining one more entry adds a separator only after an existing entry. */
  lemma {:induction false} JoinSnoc(entries: seq<Entry>, e: Entry)
    ensures Join(entries + [e]) == if entries == [] then Render(e) else Join(entries) + ", " + Render(e)
  {
    if |entries| > 1 {
      JoinSnoc(entries[1..], e);
      assert (entries + [e])[1..] == entries[1..] + [e];
    } else if |entries| == 1 {
      assert (entries + [e])[1..] == [e];
    }
  }

  /** The summary of a selection: the joined entries, then "...". */
  function Summary(names: seq<string>, values: map<string, string>): string
  {
    Join(Selected(names, values)) + "..."
  }

  /** What `prettyPrintConfiguration` returns. */
  function ConfigurationText(config: map<string, string>): string
  {
    Summary(NoteworthyConfigurationPropertyNames, config)
  }

  /** What `prettyPrintResource` returns; `None` stands for a null resource. */
  function ResourceText(resource: Option<map<string, string>>): string
  {
    match resource
    case None => "#null#"
    case Some(attributes) => Summary(NoteworthyResourceAttributeKeys, attributes)
  }

  lemma NoteworthyNamesDistinct()
    ensures NoDuplicates(NoteworthyConfigurationPropertyNames)
    ensures NoDuplicates(NoteworthyResourceAttributeKeys)
  {
  }

  /** The summary of the empty configuration is exactly "...". */
  lemma EmptyConfigurationText()
    ensures ConfigurationText(EmptyConfig()) == "..."
  {
    SelectedNone(NoteworthyConfigurationPropertyNames, EmptyConfig());
  }

  /** A summary always ends in "..." and is "..." alone iff no listed name has a value. */
  lemma {:induction false} SummaryShape(names: seq<string>, values: map<string, string>)
    ensures var s := Summary(names, values); |s| >= 3 && s[|s| - 3..] == "..."
    ensures Summary(names, values) == "..." <==> forall n :: n in names ==> n !in values
  {
    var s := Summary(names, values);
    if forall n :: n in names ==> n !in values {
      SelectedNone(names, values);
    } else {
      var n :| n in names && n in values;
      SelectedMembership(names, values, (n, values[n]));
      assert Selected(names, values) != [];
      assert |s| > 3;
    }
  }

  /**
   * A later name in the list contributes its entry last: after the entries of
   * the earlier names and a ", " separator, just before the "...".
   */
  lemma SummaryAppendName(names: seq<string>, name: string, values: map<string, string>)
    requires name in values
    ensures Selected(names, values) == [] ==>
              Summary(names + [name], values) == Render((name, values[name])) + "..."
    ensures Selected(names, values) != [] ==>
              Summary(names + [name], values) == Join(Selected(names, values)) + ", " + Render((name, values[name])) + "..."
  {
    var e := (name, values[name]);
    SelectedAppend(names, [name], values);
    assert Selected([name], values) == [e];
    JoinSnoc(Selected(names, values), e);
  }

  /** The configuration summary reads only the noteworthy property names. */
  lemma ConfigurationTextReadsNoteworthyNames(config: map<string, string>, config': map<string, string>)
    requires forall n :: n in NoteworthyConfigurationPropertyNames ==>
               (n in config <==> n in config') && (n in config ==> config[n] == config'[n])
    ensures ConfigurationText(config) == ConfigurationText(config')
  {
    SelectedOnlyReadsNames(NoteworthyConfigurationPropertyNames, config, config');
  }

  /** The resource summary reads only `service.name`, `service.namespace` and `service.version`. */
  lemma ResourceTextReadsServiceAttributes(attributes: map<string, string>, attributes': map<string, string>)
    requires forall k :: k in NoteworthyResourceAttributeKeys ==>
               (k in attributes <==> k in attributes') && (k in attributes ==> attributes[k] == attributes'[k])
    ensures ResourceText(Some(attributes)) == ResourceText(Some(attributes'))
  {
    SelectedOnlyReadsNames(NoteworthyResourceAttributeKeys, attributes, attributes');
  }

  /** A resource with none of the service attributes prints as "...". */
  lemma ResourceWithoutServiceAttributes(attributes: map<string, string>)
    requires forall k :: k in NoteworthyResourceAttributeKeys ==> k !in attributes
    ensures ResourceText(Some(attributes)) == "..."
  {
    SelectedNone(NoteworthyResourceAttributeKeys, attributes);
  }

  /**
   * The loop shared by both printers: fill an insertion-ordered map with the
   * listed names that have a value, in list order.
   */
  method CollectNoteworthy(names: seq<string>, values: map<string, string>) returns (message: seq<Entry>)
    requires NoDuplicates(names)
    ensures message == Selected(names, values)
  {
    message := [];
    for i := 0 to |names|
      invariant message == Selected(names[..i], values)
      invariant KeysOf(message) <= set n | n in names[..i]
    {
      var name := names[i];
      assert names[..i + 1] == names[..i] + [name];
      SelectedAppend(names[..i], [name], values);
      if name in values {
        assert name !in KeysOf(message);
        message := Put(message, name, values[name]);
      }
    }
    assert names[..|names|] == names;
  }

  /** `prettyPrintConfiguration(config)`. */
  method PrettyPrintConfiguration(config: map<string, string>) returns (s: string)
    ensures s == ConfigurationText(config)
  {
    NoteworthyNamesDistinct();
    var message := CollectNoteworthy(NoteworthyConfigurationPropertyNames, config);
    s := Join(message) + "...";
  }

  /** `prettyPrintResource(resource)`. */
  method PrettyPrintResource(resource: Option<map<string, string>>) returns (s: string)
    ensures s == ResourceText(resource)
  {
    if resource.None? {
      return "#null#";
    }
    NoteworthyNamesDistinct();
    var message := CollectNoteworthy(NoteworthyResourceAttributeKeys, resource.value);
    s := Join(message) + "...";
  }

  /** `prettyPrintOtelSdkConfig(config, resource)`. */
  method PrettyPrintOtelSdkConfig(config: map<string, string>, resource: Option<map<string, string>>) returns (s: string)
    ensures s == "SDK [config: " + ConfigurationText(config) + ", resource: " + ResourceText(resource) + "]"
  {
    var c := PrettyPrintConfiguration(config);
    var r := PrettyPrintResource(resource);
    s := "SDK [config: " + c + ", resource: " + r + "]";
  }
}
