/** `load_config` of the add-on connector: the options file must exist and
    parse to an object whose required fields are truthy; two TLS options are
    then given defaults without touching anything else. */
module Config {
  import opened Py

  /** The fields that must be present and truthy, in the order they are reported. */
  const RequiredFields: seq<string> := ["server_url", "enrollment_code"]

  /** Why `load_config` ended the process (always with exit status 1). */
  datatype ExitReason = OptionsNotFound | FieldsMissing(fields: seq<string>) | LoadError

  /** The outcome of `load_config`: the options, or `sys.exit(1)`. */
  datatype Loaded = Config(options: Dict) | Exit(status: int, reason: ExitReason)

  /** The missing-field comprehension: the fields of `fields`, in order, whose
      value in `config` is absent or falsy. */
  function MissingFields(config: Dict, fields: seq<string>): (r: seq<string>)
    ensures |r| <= |fields|
    ensures forall f :: f in r <==> f in fields && !Truthy(Get(config, f, Null))
  {
    if fields == [] then []
    else
      var rest := MissingFields(config, fields[1..]);
      assert forall f :: f in fields <==> f == fields[0] || f in fields[1..];
      if Truthy(Get(config, fields[0], Null)) then rest else [fields[0]] + rest
  }

  /** The missing list for the two required fields, case by case: it keeps
      the order `server_url`, `enrollment_code`. */
  lemma {:induction false} MissingRequiredFields(config: Dict)
    ensures var missing := MissingFields(config, RequiredFields);
            var url := Truthy(Get(config, "server_url", Null));
            var code := Truthy(Get(config, "enrollment_code", Null));
            && (url && code ==> missing == [])
            && (!url && code ==> missing == ["server_url"])
            && (url && !code ==> missing == ["enrollment_code"])
            && (!url && !code ==> missing == ["server_url", "enrollment_code"])
  {
    assert RequiredFields[1..] == ["enrollment_code"];
    assert RequiredFields[1..][1..] == [];
  }

  /** `dict.setdefault(key, value)` for its effect: the key gets `value` only
      if it was absent, and every other key keeps its value. */
  function SetDefault(d: Dict, key: string, value: Value): (r: Dict)
    ensures r.Keys == d.Keys + {key}
    ensures key in d ==> r[key] == d[key]
    ensures key !in d ==> r[key] == value
    ensures forall k | k in d && k != key :: r[k] == d[k]
  {
    if key in d then d else d[key := value]
  }

  /** `load_config`. `found` is whether the options file is there; `parsed`
      is what `json.load` made of it, None when opening or parsing raised. */
  method LoadConfig(found: bool, parsed: Option<Value>) returns (r: Loaded)
    ensures !found ==> r == Exit(1, OptionsNotFound)
    ensures found && (parsed.None? || !parsed.value.Obj?) ==> r == Exit(1, LoadError)
    ensures found && parsed.Some? && parsed.value.Obj? ==>
              var config := parsed.value.fields;
              var missing := MissingFields(config, RequiredFields);
              && (r.Exit? <==> missing != [])
              && (r.Exit? ==> r == Exit(1, FieldsMissing(missing)))
    ensures r.Config? ==>
              found && parsed.Some? && parsed.value.Obj? &&
              var config := parsed.value.fields;
              && r.options.Keys == config.Keys + {"grpc_tls_skip_verify", "grpc_tls_ca_cert"}
              && (forall k | k in config :: r.options[k] == config[k])
              && ("grpc_tls_skip_verify" !in config ==> r.options["grpc_tls_skip_verify"] == Bool(false))
              && ("grpc_tls_ca_cert" !in config ==> r.options["grpc_tls_ca_cert"] == Str(""))
              && Truthy(Get(r.options, "server_url", Null)) && Truthy(Get(r.options, "enrollment_code", Null))
  {
    if !found {
      return Exit(1, OptionsNotFound);
    }
    if parsed.None? || !parsed.value.Obj? {
      // a failed read or parse, or `.get` on a value that is not a dict
      return Exit(1, LoadError);
    }
    var config := parsed.value.fields;
    var missing := MissingFields(config, RequiredFields);
    if missing != [] {
      return Exit(1, FieldsMissing(missing));
    }
    assert "server_url" !in missing && "enrollment_code" !in missing;
    config := SetDefault(config, "grpc_tls_skip_verify", Bool(false));
    config := SetDefault(config, "grpc_tls_ca_cert", Str(""));
    return Config(config);
  }
}
