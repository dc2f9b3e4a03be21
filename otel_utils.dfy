/**
 * `OpenTelemetryUtils`: boolean switches read from the system properties, then
 * from the environment, then from a default.
 *
 * The two lookups are parameters: `sys` holds the JVM system properties and
 * `env` the process environment. Case conversion is ASCII only.
 */
module OtelUtils {

  /** ASCII upper-casing of one character; every other character is kept. */
  function UpperAscii(c: char): (u: char)
    ensures 'a' <= c <= 'z' ==> u as int == c as int - 32
    ensures !('a' <= c <= 'z') ==> u == c
  {
    if 'a' <= c <= 'z' then (c as int - 32) as char else c
  }

  /** ASCII lower-casing of one character; every other character is kept. */
  function LowerAscii(c: char): (l: char)
    ensures 'A' <= c <= 'Z' ==> l as int == c as int + 32
    ensures !('A' <= c <= 'Z') ==> l == c
  {
    if 'A' <= c <= 'Z' then (c as int + 32) as char else c
  }

  /** One character of the environment-variable name: '.' and '-' become '_', then upper case. */
  function EnvChar(c: char): char
  {
    if c == '.' || c == '-' then '_' else UpperAscii(c)
  }

  /**
   * The environment variable consulted for a property: `replace('.', '_')`,
   * then `replace('-', '_')`, then `toUpperCase()`.
   */
  function EnvVarName(name: string): (r: string)
    ensures |r| == |name|
    ensures forall i :: 0 <= i < |name| ==> r[i] == EnvChar(name[i])
    ensures forall i :: 0 <= i < |r| ==> r[i] != '.' && r[i] != '-' && !('a' <= r[i] <= 'z')
  {
    if name == [] then [] else [EnvChar(name[0])] + EnvVarName(name[1..])
  }

  /** Mangling an already mangled name changes nothing. */
  lemma EnvVarNameIdempotent(name: string)
    ensures EnvVarName(EnvVarName(name)) == EnvVarName(name)
  {
    var once := EnvVarName(name);
    var twice := EnvVarName(once);
    assert forall i :: 0 <= i < |once| ==> twice[i] == once[i] by {
      forall i | 0 <= i < |once|
        ensures twice[i] == once[i]
      {
        assert twice[i] == EnvChar(once[i]);
      }
    }
  }

  /** Mangling works character by character, so it distributes over concatenation. */
  lemma EnvVarNameConcat(a: string, b: string)
    ensures EnvVarName(a + b) == EnvVarName(a) + EnvVarName(b)
  {
    var lhs := EnvVarName(a + b);
    var rhs := EnvVarName(a) + EnvVarName(b);
    forall i | 0 <= i < |lhs|
      ensures lhs[i] == rhs[i]
    {
      assert lhs[i] == EnvChar((a + b)[i]);
    }
  }

  /** `String.equalsIgnoreCase` on ASCII: same length, and each pair of characters equal up to case. */
  predicate EqualsIgnoreCase(a: string, b: string)
  {
    |a| == |b| &&
    forall i :: 0 <= i < |a| ==>
      a[i] == b[i] || UpperAscii(a[i]) == UpperAscii(b[i]) || LowerAscii(a[i]) == LowerAscii(b[i])
  }

  /** `"true".equalsIgnoreCase(value)`. */
  predicate IsTrue(value: string)
  {
    EqualsIgnoreCase("true", value)
  }

  /** The values read as true are exactly the sixteen spellings of "true" in mixed case. */
  lemma IsTrueSpellings(value: string)
    ensures IsTrue(value) <==>
              && |value| == 4
              && (value[0] == 't' || value[0] == 'T') && (value[1] == 'r' || value[1] == 'R')
              && (value[2] == 'u' || value[2] == 'U') && (value[3] == 'e' || value[3] == 'E')
  {
    if |value| == 4 {
      var t := "true";
      forall i | 0 <= i < 4
        ensures (t[i] == value[i] || UpperAscii(t[i]) == UpperAscii(value[i]) || LowerAscii(t[i]) == LowerAscii(value[i]))
                <==> (value[i] == t[i] || value[i] == UpperAscii(t[i]))
      {
      }
    }
  }

  const CommonDefaultEnabled: string := "otel.instrumentation.common.default-enabled"

  /** The per-instrumentation switch, e.g. `otel.instrumentation.jdbc.enabled`. */
  function EnabledProperty(instrumentation: string): string
  {
    "otel.instrumentation." + instrumentation + ".enabled"
  }

  /**
   * `getProperty(name, default)`: a system property wins; otherwise the
   * environment variable under the mangled name; otherwise the default. A
   * value that is present yields true only if it spells "true".
   */
  function GetProperty(sys: map<string, string>, env: map<string, string>, name: string, default: bool): (b: bool)
    ensures name in sys ==> (b <==> IsTrue(sys[name]))
    ensures name !in sys && EnvVarName(name) in env ==> (b <==> IsTrue(env[EnvVarName(name)]))
    ensures name !in sys && EnvVarName(name) !in env ==> b == default
  {
    if name in sys then IsTrue(sys[name])
    else if EnvVarName(name) in env then IsTrue(env[EnvVarName(name)])
    else default
  }

  /** The default only matters when neither source has the property. */
  lemma DefaultOnlyWhenAbsent(sys: map<string, string>, env: map<string, string>, name: string)
    ensures (name in sys || EnvVarName(name) in env) <==>
            GetProperty(sys, env, name, true) == GetProperty(sys, env, name, false)
  {
  }

  /** With the system property set, the environment is not consulted at all. */
  lemma SystemPropertyWins(sys: map<string, string>, env: map<string, string>, env': map<string, string>,
                           name: string, default: bool)
    requires name in sys
    ensures GetProperty(sys, env, name, default) == GetProperty(sys, env', name, default)
  {
  }

  /** Only the mangled name is looked up in the environment: other entries are irrelevant. */
  lemma OnlyMangledNameInEnv(sys: map<string, string>, env: map<string, string>, env': map<string, string>,
                             name: string, default: bool)
    requires (EnvVarName(name) in env) == (EnvVarName(name) in env')
    requires EnvVarName(name) in env ==> env[EnvVarName(name)] == env'[EnvVarName(name)]
    ensures GetProperty(sys, env, name, default) == GetProperty(sys, env', name, default)
  {
  }

  /** The property is set, either as a system property or in the environment. */
  predicate IsSet(sys: map<string, string>, env: map<string, string>, name: string)
  {
    name in sys || EnvVarName(name) in env
  }

  /**
   * `isOtelInstrumentationEnabled(instrumentation)`: the per-instrumentation
   * switch, defaulting to the common switch, which itself defaults to true.
   */
  function IsInstrumentationEnabled(sys: map<string, string>, env: map<string, string>, instrumentation: string): (b: bool)
    ensures IsSet(sys, env, EnabledProperty(instrumentation)) ==>
              b == GetProperty(sys, env, EnabledProperty(instrumentation), false)
    ensures !IsSet(sys, env, EnabledProperty(instrumentation)) ==>
              b == GetProperty(sys, env, CommonDefaultEnabled, true)
  {
    var defaultEnabled := GetProperty(sys, env, CommonDefaultEnabled, true);
    GetProperty(sys, env, EnabledProperty(instrumentation), defaultEnabled)
  }

  /** With nothing configured every instrumentation is enabled. */
  lemma EnabledWhenNothingConfigured(instrumentation: string)
    ensures IsInstrumentationEnabled(map[], map[], instrumentation)
  {
  }

  /** A per-instrumentation system property decides alone, whatever the common switch says. */
  lemma SpecificSwitchOverridesCommon(sys: map<string, string>, env: map<string, string>, instrumentation: string)
    requires EnabledProperty(instrumentation) in sys
    ensures IsInstrumentationEnabled(sys, env, instrumentation) <==> IsTrue(sys[EnabledProperty(instrumentation)])
  {
  }

  /** Without a per-instrumentation switch, the common switch decides. */
  lemma CommonSwitchApplies(sys: map<string, string>, env: map<string, string>, instrumentation: string)
    requires EnabledProperty(instrumentation) !in sys && EnvVarName(EnabledProperty(instrumentation)) !in env
    ensures IsInstrumentationEnabled(sys, env, instrumentation) == GetProperty(sys, env, CommonDefaultEnabled, true)
  {
  }

  /** Turning the common switch off disables every instrumentation that has no switch of its own. */
  lemma CommonSwitchOff(sys: map<string, string>, env: map<string, string>, instrumentation: string)
    requires CommonDefaultEnabled in sys && sys[CommonDefaultEnabled] == "false"
    requires EnabledProperty(instrumentation) !in sys && EnvVarName(EnabledProperty(instrumentation)) !in env
    ensures !IsInstrumentationEnabled(sys, env, instrumentation)
  {
    IsTrueSpellings("false");
  }
}
