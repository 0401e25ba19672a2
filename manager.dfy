/** The gateway manager: resolves a driver name to an adapter built from
    that adapter's own slice of the application configuration. */
module Manager {
  import opened Php

  /** An adapter, with the configuration it was constructed with. */
  datatype Driver =
    | InterswitchDriver(config: Json)
    | FlutterwaveDriver(config: Json)
    | PaystackDriver(config: Json)

  /** `$name ?: config('billing.default')`: an absent, empty or "0" name
      gives way to the configured default, whatever its type. */
  function DriverName(appConfig: Json, name: Option<string>): (n: Json)
    ensures name.Some? && TruthyString(name.value) ==> n == JStr(name.value)
    ensures !(name.Some? && TruthyString(name.value)) ==> n == ArrGet(appConfig, "billing.default", JNull)
  {
    if name.Some? && TruthyString(name.value) then JStr(name.value) else ArrGet(appConfig, "billing.default", JNull)
  }

  /** `config('billing.providers.<name>', [])`. */
  function ProviderConfig(appConfig: Json, name: string): Json {
    ArrGet(appConfig, "billing.providers." + name, EmptyArray)
  }

  /** The adapters take an `array $config`; anything else is a TypeError. */
  function Construct(name: string, config: Json): Result<Driver> {
    if !IsArray(config) then Err(TypeError("array expected"))
    else if name == "interswitch" then Ok(InterswitchDriver(config))
    else if name == "flutterwave" then Ok(FlutterwaveDriver(config))
    else Ok(PaystackDriver(config))
  }

  predicate Known(n: Json) {
    n == JStr("interswitch") || n == JStr("flutterwave") || n == JStr("paystack_bills")
  }

  /** `driver`: a strict match on the three names. The `default` arm
      interpolates the name into its message, which warns on an array. */
  function Resolve(appConfig: Json, name: Option<string>): Result<Driver> {
    var n := DriverName(appConfig, name);
    if Known(n) then Construct(n.s, ProviderConfig(appConfig, n.s))
    else
      var text :- Cast(n);
      Err(InvalidArgument("Unsupported billing driver [" + text + "]."))
  }

  /** Each known name builds its own adapter from its own configuration
      slice, which is `[]` when the slice is absent. */
  lemma KnownNamesResolve(appConfig: Json, name: string)
    requires TruthyString(name)
    ensures var cfg := ProviderConfig(appConfig, name);
      var r := Resolve(appConfig, Some(name));
      (name == "interswitch" && IsArray(cfg) ==> r == Ok(InterswitchDriver(cfg))) &&
      (name == "flutterwave" && IsArray(cfg) ==> r == Ok(FlutterwaveDriver(cfg))) &&
      (name == "paystack_bills" && IsArray(cfg) ==> r == Ok(PaystackDriver(cfg)))
    ensures !IsArray(appConfig) ==> ProviderConfig(appConfig, name) == EmptyArray
  {
  }

  /** Resolution succeeds exactly for a known name whose slice is an array;
      any other name raises InvalidArgument naming it, except an array
      name, whose interpolation raises the "Array to string conversion"
      ErrorException before the exception is built. */
  lemma ResolveOutcomes(appConfig: Json, name: Option<string>)
    ensures var n := DriverName(appConfig, name);
      var r := Resolve(appConfig, name);
      (r.Ok? <==> (Known(n) && IsArray(ProviderConfig(appConfig, n.s)))) &&
      (!Known(n) && !IsArray(n) ==> r == Err(InvalidArgument("Unsupported billing driver [" + ToStr(n) + "]."))) &&
      (IsArray(n) ==> r == Err(ErrorException(ArrayToString))) &&
      (Known(n) && !IsArray(ProviderConfig(appConfig, n.s)) ==> r.Err? && r.error.TypeError?)
    ensures var n := DriverName(appConfig, name);
      var r := Resolve(appConfig, name);
      r.Ok? ==>
        (r.value.config == ProviderConfig(appConfig, n.s) &&
         (r.value.InterswitchDriver? <==> n.s == "interswitch") &&
         (r.value.FlutterwaveDriver? <==> n.s == "flutterwave") &&
         (r.value.PaystackDriver? <==> n.s == "paystack_bills"))
  {
  }

  /** A missing, empty or "0" name resolves as the default driver does; the
      manager's forwarded calls use that driver. */
  lemma FalsyNameUsesDefault(appConfig: Json, name: Option<string>)
    requires name.None? || name.value == "" || name.value == "0"
    ensures Resolve(appConfig, name) == Resolve(appConfig, None)
  {
  }

  /** A default that is not one of the three names makes every default
      resolution raise: InvalidArgument for a scalar (null included), and
      the interpolation's ErrorException for an array. */
  lemma UnknownDefaultRaises(appConfig: Json)
    requires !Known(ArrGet(appConfig, "billing.default", JNull))
    ensures Resolve(appConfig, None).Err?
    ensures !IsArray(ArrGet(appConfig, "billing.default", JNull)) ==> Resolve(appConfig, None).error.InvalidArgument?
    ensures IsArray(ArrGet(appConfig, "billing.default", JNull)) ==> Resolve(appConfig, None).error == ErrorException(ArrayToString)
  {
  }

  /** Example: a `billing.default` that is a list raises the warning, not
      InvalidArgument. */
  lemma ArrayDefaultWarns()
    ensures Resolve(ListDefaultConfig, None) == Err(ErrorException(ArrayToString))
  {
    var cfg := ListDefaultConfig;
    assert "billing" + "." + "default" == "billing.default";
    ArrGetDotted(cfg, "billing", "default", JNull);
    UnknownDefaultRaises(cfg);
  }

  const ListDefaultConfig: Json := JObj([("billing", JObj([("default", JList([JStr("x")]))]))])
}
