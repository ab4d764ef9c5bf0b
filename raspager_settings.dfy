/**
 * The RasPager proxy's Settings: a frontend address, an optional frontend
 * key and a backend address, read from a property file whose name defaults
 * to `RaspagerProxy.properties`.  Loading the file is not modelled; the
 * constructor starts from the loaded property map.
 */
module RaspagerSettings {
  import opened Wrappers
  import opened Props
  import Decimal

  const DefaultConfig: string := "RaspagerProxy.properties"

  datatype Settings = Settings(frontendAddress: Address, frontendKey: Option<string>, backendAddress: Address)

  /** The file the constructor opens: the given name, or the default one for `null`. */
  function ConfigFile(filename: Option<string>): (f: string)
    ensures filename.Some? ==> f == filename.value
    ensures filename.None? ==> f == DefaultConfig
  {
    filename.GetOr(DefaultConfig)
  }

  /** A host/port key pair that `GetAddress` accepts. */
  predicate AddressAccepted(props: Properties, host: string, port: string) {
    && host in props && port in props
    && Decimal.ParseInt(props[port]).Some?
    && 0 <= Decimal.ParseInt(props[port]).value <= MaxPort
  }

  /** `new Settings(filename)` after `props.load`; `Failure` is the exception thrown. */
  function FromProperties(props: Properties): (r: Result<Settings, SettingsError>)
    ensures r.Success? <==> AddressAccepted(props, "frontend.host", "frontend.port")
                            && AddressAccepted(props, "backend.host", "backend.port")
    ensures r.Success? ==> && r.value.frontendAddress.host == props["frontend.host"]
                           && Decimal.ParseInt(props["frontend.port"]) == Some(r.value.frontendAddress.port)
                           && r.value.backendAddress.host == props["backend.host"]
                           && Decimal.ParseInt(props["backend.port"]) == Some(r.value.backendAddress.port)
    ensures r.Success? ==> r.value.frontendKey == (if "frontend.key" in props then Some(props["frontend.key"]) else None)
    ensures !AddressAccepted(props, "frontend.host", "frontend.port")
            ==> r == Failure(GetAddress(props, "frontend.host", "frontend.port").error)
    ensures AddressAccepted(props, "frontend.host", "frontend.port")
            && !AddressAccepted(props, "backend.host", "backend.port")
            ==> r == Failure(GetAddress(props, "backend.host", "backend.port").error)
  {
    var frontendAddress :- GetAddress(props, "frontend.host", "frontend.port");
    var frontendKey := GetStringOr(props, "frontend.key", None);
    var backendAddress :- GetAddress(props, "backend.host", "backend.port");
    Success(Settings(frontendAddress, frontendKey, backendAddress))
  }

  /** The frontend key is optional: adding or removing it never changes whether loading succeeds. */
  lemma FrontendKeyOptional(props: Properties, key: string)
    ensures FromProperties(props).Success? <==> FromProperties(props["frontend.key" := key]).Success?
    ensures FromProperties(props - {"frontend.key"}).Success? <==> FromProperties(props).Success?
  {
  }
}
