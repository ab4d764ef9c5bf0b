/**
 * Property lookups shared by both Settings classes: each declares the same
 * private `getString`/`getInt` helpers, and an address is an unresolved
 * host/port pair whose port the `InetSocketAddress` constructor range-checks.
 */
module Props {
  import opened Wrappers
  import Decimal

  type Properties = map<string, string>

  const MaxPort: int := 0xFFFF

  /** An `InetSocketAddress` built from a host name; name resolution is not modelled. */
  datatype Address = Address(host: string, port: int)

  /** The exceptions a Settings constructor can throw. */
  datatype SettingsError =
    | KeyNotFound(key: string)       // the exception getString throws for a missing key
    | NumberFormat(input: string)    // NumberFormatException from parseInt/parseLong
    | NegativeReconnectSleepTime     // IllegalArgumentException from the range check
    | PortOutOfRange(port: int)      // IllegalArgumentException from InetSocketAddress

  /** The message of the exception, where the repository's code writes it. */
  function Message(e: SettingsError): string
    requires e.KeyNotFound? || e.NegativeReconnectSleepTime?
  {
    match e
    case KeyNotFound(key) => "Key not found: " + key
    case NegativeReconnectSleepTime => "Reconnect sleep time cannot be negative."
  }

  /** `getString(props, key)`: the value, or KeyNotFound. Empty values are accepted. */
  function GetString(props: Properties, key: string): (r: Result<string, SettingsError>)
    ensures r.Success? <==> key in props
    ensures r.Success? ==> r.value == props[key]
    ensures r.Failure? ==> r.error == KeyNotFound(key)
  {
    if key in props then Success(props[key]) else Failure(KeyNotFound(key))
  }

  /** `getString(props, key, defaultValue)`: never fails. */
  function GetStringOr(props: Properties, key: string, default: Option<string>): (r: Option<string>)
    ensures key in props ==> r == Some(props[key])
    ensures key !in props ==> r == default
  {
    if key in props then Some(props[key]) else default
  }

  /** `getInt(props, key)`: `Integer.parseInt` of the value. */
  function GetInt(props: Properties, key: string): (r: Result<int, SettingsError>)
    ensures key !in props ==> r == Failure(KeyNotFound(key))
    ensures key in props ==> (r.Success? <==> Decimal.ParseInt(props[key]).Some?)
    ensures r.Success? ==> Decimal.ParseInt(props[key]) == Some(r.value)
    ensures key in props && r.Failure? ==> r.error == NumberFormat(props[key])
  {
    var s :- GetString(props, key);
    match Decimal.ParseInt(s)
    case Some(v) => Success(v)
    case None => Failure(NumberFormat(s))
  }

  /** `getLong(props, key)`: `Long.parseLong` of the value. */
  function GetLong(props: Properties, key: string): (r: Result<int, SettingsError>)
    ensures key !in props ==> r == Failure(KeyNotFound(key))
    ensures key in props ==> (r.Success? <==> Decimal.ParseLong(props[key]).Some?)
    ensures r.Success? ==> Decimal.ParseLong(props[key]) == Some(r.value)
    ensures key in props && r.Failure? ==> r.error == NumberFormat(props[key])
  {
    var s :- GetString(props, key);
    match Decimal.ParseLong(s)
    case Some(v) => Success(v)
    case None => Failure(NumberFormat(s))
  }

  /**
   * `new InetSocketAddress(getString(props, host), getInt(props, port))`: the
   * host is looked up first, then the port, which must lie in 0..65535.
   */
  function GetAddress(props: Properties, host: string, port: string): (r: Result<Address, SettingsError>)
    ensures host !in props ==> r == Failure(KeyNotFound(host))
    ensures r.Success? ==> host in props && r.value.host == props[host]
    ensures r.Success? ==> GetInt(props, port) == Success(r.value.port) && 0 <= r.value.port <= MaxPort
    ensures host in props && GetInt(props, port).Failure? ==> r == Failure(GetInt(props, port).error)
    ensures host in props && GetInt(props, port).Success? && !(0 <= GetInt(props, port).value <= MaxPort)
            ==> r == Failure(PortOutOfRange(GetInt(props, port).value))
  {
    var h :- GetString(props, host);
    var p :- GetInt(props, port);
    if 0 <= p <= MaxPort then Success(Address(h, p)) else Failure(PortOutOfRange(p))
  }
}
