/**
 * `JenkinsResourceProvider`: the resource attributes describing the Jenkins
 * controller, read from the SDK configuration (a string map here).
 */
module JenkinsResource {
  import opened Wrappers

  const Jenkins: string := "jenkins"
  const ServiceName: string := "service.name"
  const ServiceNamespace: string := "service.namespace"
  const ServiceVersion: string := "service.version"
  const ServiceInstanceId: string := "service.instance.id"
  const JenkinsVersion: string := "jenkins.version"
  const JenkinsUrl: string := "jenkins.url"

  /** `Resource.builder()`: attributes accumulated by successive `put` calls. */
  class ResourceBuilder {
    var attributes: map<string, string>

    constructor ()
      ensures attributes == map[]
    {
      attributes := map[];
    }

    /** `put(key, value)`: a later `put` of the same key replaces the value. */
    method Put(key: string, value: string)
      modifies this
      ensures attributes == old(attributes)[key := value]
    {
      attributes := attributes[key := value];
    }

    /** `value.ifPresent(v -> put(key, v))`. */
    method PutIfPresent(key: string, value: Option<string>)
      modifies this
      ensures attributes == old(attributes) + IfPresent(key, value)
    {
      if value.Some? {
        Put(key, value.value);
      }
    }

    /** `build()`: the attributes put so far. */
    method Build() returns (resource: map<string, string>)
      ensures resource == attributes
    {
      resource := attributes;
    }
  }

  /** `Optional.ofNullable(config.getString(key))`. */
  function Lookup(config: map<string, string>, key: string): Option<string>
  {
    if key in config then Some(config[key]) else None
  }

  /** The attribute `key` with the value, if there is one. */
  function IfPresent(key: string, value: Option<string>): map<string, string>
  {
    if value.Some? then map[key := value.value] else map[]
  }

  /**
   * The resource `createResource` produces: the service name and namespace
   * "jenkins", the Jenkins version both as `service.version` and as
   * `jenkins.version`, the Jenkins URL and the service instance id, each of
   * the last three only when configured.
   */
  function ExpectedResource(config: map<string, string>): map<string, string>
  {
    map[ServiceName := Jenkins, ServiceNamespace := Jenkins]
    + IfPresent(ServiceVersion, Lookup(config, JenkinsVersion))
    + IfPresent(JenkinsVersion, Lookup(config, JenkinsVersion))
    + IfPresent(JenkinsUrl, Lookup(config, JenkinsUrl))
    + IfPresent(ServiceInstanceId, Lookup(config, ServiceInstanceId))
  }

  lemma AttributeKeysDistinct()
    ensures ServiceName != ServiceNamespace && ServiceName != ServiceVersion && ServiceName != JenkinsVersion
    ensures ServiceName != JenkinsUrl && ServiceName != ServiceInstanceId
    ensures ServiceNamespace != ServiceVersion && ServiceNamespace != JenkinsVersion
    ensures ServiceNamespace != JenkinsUrl && ServiceNamespace != ServiceInstanceId
    ensures ServiceVersion != JenkinsVersion && ServiceVersion != JenkinsUrl && ServiceVersion != ServiceInstanceId
    ensures JenkinsVersion != JenkinsUrl && JenkinsVersion != ServiceInstanceId && JenkinsUrl != ServiceInstanceId
  {
    assert ServiceVersion[0] != JenkinsVersion[0];
  }

  /** The configuration cannot override the service name or namespace. */
  lemma ServiceIdentityFixed(config: map<string, string>)
    ensures ExpectedResource(config)[ServiceName] == Jenkins
    ensures ExpectedResource(config)[ServiceNamespace] == Jenkins
  {
    AttributeKeysDistinct();
  }

  /** The Jenkins version, when configured, is reported both as `service.version` and as `jenkins.version`. */
  lemma JenkinsVersionReportedTwice(config: map<string, string>)
    ensures var r := ExpectedResource(config);
      && (ServiceVersion in r <==> JenkinsVersion in config)
      && (JenkinsVersion in r <==> JenkinsVersion in config)
      && (JenkinsVersion in config ==> r[ServiceVersion] == config[JenkinsVersion] && r[JenkinsVersion] == config[JenkinsVersion])
  {
    AttributeKeysDistinct();
  }

  /** The Jenkins URL and the service instance id are copied exactly when configured. */
  lemma CopiedWhenConfigured(config: map<string, string>)
    ensures var r := ExpectedResource(config);
      && (JenkinsUrl in r <==> JenkinsUrl in config)
      && (JenkinsUrl in config ==> r[JenkinsUrl] == config[JenkinsUrl])
      && (ServiceInstanceId in r <==> ServiceInstanceId in config)
      && (ServiceInstanceId in config ==> r[ServiceInstanceId] == config[ServiceInstanceId])
  {
    AttributeKeysDistinct();
  }

  /** No other attribute is produced; with nothing configured, only the two fixed ones. */
  lemma NoOtherAttributes(config: map<string, string>)
    ensures ExpectedResource(config).Keys <= {ServiceName, ServiceNamespace, ServiceVersion, JenkinsVersion, JenkinsUrl, ServiceInstanceId}
    ensures ExpectedResource(map[]) == map[ServiceName := Jenkins, ServiceNamespace := Jenkins]
  {
  }

  /** Only the three copied keys of the configuration matter. */
  lemma OnlyThreeKeysRead(config: map<string, string>, config': map<string, string>)
    requires forall k :: k in {JenkinsVersion, JenkinsUrl, ServiceInstanceId} ==>
               (k in config <==> k in config') && (k in config ==> config[k] == config'[k])
    ensures ExpectedResource(config) == ExpectedResource(config')
  {
    assert JenkinsVersion in {JenkinsVersion, JenkinsUrl, ServiceInstanceId};
    assert JenkinsUrl in {JenkinsVersion, JenkinsUrl, ServiceInstanceId};
    assert ServiceInstanceId in {JenkinsVersion, JenkinsUrl, ServiceInstanceId};
  }

  /** `createResource(config)`. */
  method CreateResource(config: map<string, string>) returns (resource: map<string, string>)
    ensures resource == ExpectedResource(config)
  {
    var builder := new ResourceBuilder();
    builder.Put(ServiceName, Jenkins);
    builder.Put(ServiceNamespace, Jenkins);
    var jenkinsVersion := Lookup(config, JenkinsVersion);
    builder.PutIfPresent(ServiceVersion, jenkinsVersion);
    builder.PutIfPresent(JenkinsVersion, jenkinsVersion);
    var jenkinsUrl := Lookup(config, JenkinsUrl);
    builder.PutIfPresent(JenkinsUrl, jenkinsUrl);
    var serviceInstanceId := Lookup(config, ServiceInstanceId);
    builder.PutIfPresent(ServiceInstanceId, serviceInstanceId);
    resource := builder.Build();
  }
}
