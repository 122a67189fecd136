/** The base of the service clients: a configuration read from the
    environment variables that share a prefix, and a client that keeps the
    configuration it is given or loads its own. */
module Services {
  import opened Wrappers
  import opened Strings
  import opened Json

  /** One environment variable: its name and its value, in the order the
      environment lists them. */
  type Variable = (string, string)

  /** A configuration: the service name and the keyword arguments its
      dataclass was built with. */
  datatype ServiceConfig = ServiceConfig(serviceName: string, settings: map<string, Json>)

  /** The variable at `i` starts with the prefix and names `key` once the
      prefix is cut off and the rest lowercased. */
  predicate Contributes(env: seq<Variable>, prefix: string, i: int, key: string)
    requires 0 <= i < |env|
  {
    StartsWith(env[i].0, prefix) && Lower(env[i].0[|prefix|..]) == key
  }

  /** The settings the environment gives, variable after variable; a later
      variable that lowercases to the same key wins. */
  function EnvSettings(env: seq<Variable>, prefix: string): (r: map<string, Json>)
    decreases |env|
  {
    if |env| == 0 then map[]
    else
      var last := env[|env| - 1];
      var before := EnvSettings(env[..|env| - 1], prefix);
      if StartsWith(last.0, prefix) then before[Lower(last.0[|prefix|..]) := JStr(last.1)] else before
  }

  /** A key is set exactly when some variable contributes it, and its value
      is that of the last variable that does. */
  lemma {:induction false} EnvSettingsSource(env: seq<Variable>, prefix: string, key: string)
    ensures key in EnvSettings(env, prefix) <==> exists i :: 0 <= i < |env| && Contributes(env, prefix, i, key)
    ensures key in EnvSettings(env, prefix) ==>
      exists i :: (0 <= i < |env| && Contributes(env, prefix, i, key) &&
                   EnvSettings(env, prefix)[key] == JStr(env[i].1) &&
                   forall j :: i < j < |env| ==> !Contributes(env, prefix, j, key))
    decreases |env|
  {
    if |env| > 0 {
      var n := |env| - 1;
      var init := env[..n];
      EnvSettingsSource(init, prefix, key);
      assert forall i :: 0 <= i < n ==> (Contributes(init, prefix, i, key) <==> Contributes(env, prefix, i, key));
      if Contributes(env, prefix, n, key) {
        assert EnvSettings(env, prefix)[key] == JStr(env[n].1);
      } else if key in EnvSettings(init, prefix) {
        var i :| 0 <= i < n && Contributes(init, prefix, i, key) &&
          EnvSettings(init, prefix)[key] == JStr(init[i].1) &&
          forall j :: i < j < n ==> !Contributes(init, prefix, j, key);
        assert EnvSettings(env, prefix)[key] == JStr(env[i].1);
      }
    }
  }

  /** `prefix.strip('_').lower()`. */
  function ServiceName(prefix: string): (r: string)
    ensures |r| <= |prefix|
    ensures r == [] || (r[0] != '_' && r[|r| - 1] != '_')
    ensures forall i :: 0 <= i < |r| ==> !IsAsciiUpper(r[i])
  {
    StripEnds(prefix, '_');
    Lower(Strip(prefix, '_'))
  }

  /** A prefix written as a name and one trailing underscore, such as
      `AZURE_SPEECH_`, names the service by the lowercased name,
      `azure_speech`; inner underscores are kept. */
  lemma ServiceNameOfPrefix(name: string)
    requires name != [] && name[0] != '_' && name[|name| - 1] != '_'
    ensures ServiceName(name + "_") == Lower(name)
  {
    var prefix := name + "_";
    assert StripStart(prefix, '_') == prefix;
    assert prefix[..|prefix| - 1] == name;
    assert StripEnd(prefix, '_') == StripEnd(name, '_');
  }

  /** `ServiceConfig.from_env(prefix, **kwargs)` for a configuration class
      whose fields besides `service_name` are `fields`, `required` of them
      without a default: the keyword arguments over the environment's
      settings; a setting named `service_name`, one the class has no field
      for, or a missing required field is a TypeError. */
  function FromEnv(env: seq<Variable>, prefix: string, kwargs: map<string, Json>,
                   fields: set<string>, required: set<string>): (r: Result<ServiceConfig>)
    ensures r.Ok? ==> r.value.serviceName == ServiceName(prefix)
    ensures r.Ok? <==> var merged := EnvSettings(env, prefix) + kwargs;
      "service_name" !in merged && merged.Keys <= fields && required <= merged.Keys
  {
    var merged := EnvSettings(env, prefix) + kwargs;
    if "service_name" in merged || !(merged.Keys <= fields) || !(required <= merged.Keys) then Err("TypeError")
    else Ok(ServiceConfig(ServiceName(prefix), merged))
  }

  /** An explicit keyword argument overrides the environment; any other
      setting comes from the environment. */
  lemma KwargsOverride(env: seq<Variable>, prefix: string, kwargs: map<string, Json>,
                       fields: set<string>, required: set<string>, key: string)
    requires FromEnv(env, prefix, kwargs, fields, required).Ok?
    ensures var s := FromEnv(env, prefix, kwargs, fields, required).value.settings;
      (key in kwargs ==> s[key] == kwargs[key]) &&
      (key !in kwargs ==> (key in s <==> key in EnvSettings(env, prefix)) &&
                          (key in s ==> s[key] == EnvSettings(env, prefix)[key]))
  {
  }

  /** `from_env`'s loop over the environment, then the class built from the
      merged settings. */
  method ConfigFromEnv(env: seq<Variable>, prefix: string, kwargs: map<string, Json>,
                       fields: set<string>, required: set<string>)
    returns (r: Result<ServiceConfig>)
    ensures r == FromEnv(env, prefix, kwargs, fields, required)
  {
    var configDict: map<string, Json> := map[];
    for i := 0 to |env|
      invariant configDict == EnvSettings(env[..i], prefix)
    {
      assert env[..i + 1][..i] == env[..i];
      var (key, value) := env[i];
      if StartsWith(key, prefix) {
        configDict := configDict[Lower(key[|prefix|..]) := JStr(value)];
      }
    }
    assert env[..|env|] == env;
    var merged := configDict + kwargs;
    if "service_name" in merged || !(merged.Keys <= fields) || !(required <= merged.Keys) {
      return Err("TypeError");
    }
    r := Ok(ServiceConfig(ServiceName(prefix), merged));
  }

  // ---------------------------------------------------------------------
  // ServiceBase

  /** A service client and the configuration it holds. */
  datatype ServiceBase = ServiceBase(config: Option<ServiceConfig>)

  /** `config or self._load_config()`: a configuration object is always
      truthy, so a given one is kept and only a missing one is loaded;
      `load` is what the subclass's loader returns or raises (the base
      class raises NotImplementedError). */
  function NewService(config: Option<ServiceConfig>, load: Result<Option<ServiceConfig>>): (r: Result<ServiceBase>)
    ensures config.Some? ==> r == Ok(ServiceBase(config))
    ensures config.None? ==> (r.Ok? <==> load.Ok?)
    ensures config.None? && r.Ok? ==> r.value.config == load.value
    ensures config.None? && r.Err? ==> r.error == load.error
  {
    if config.Some? then Ok(ServiceBase(config))
    else
      match load
      case Err(e) => Err(e)
      case Ok(c) => Ok(ServiceBase(c))
  }

  /** `is_configured`: a configuration is held. */
  predicate IsConfigured(s: ServiceBase)
  {
    s.config.Some?
  }

  /** A client given a configuration is configured whatever its loader
      does; one left to the base loader is never built. */
  lemma ConfiguredWhenGiven(config: Option<ServiceConfig>, load: Result<Option<ServiceConfig>>)
    ensures config.Some? ==> IsConfigured(NewService(config, load).value)
    ensures config.None? && load.Ok? ==> (IsConfigured(NewService(config, load).value) <==> load.value.Some?)
    ensures config.None? && load == Err("NotImplementedError") ==> NewService(config, load) == Err("NotImplementedError")
  {
  }
}
