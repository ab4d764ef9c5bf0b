/**
 * The DAPNET proxy's Settings, built from a loaded property map.  Every key is
 * required; the reconnect sleep time must not be negative; the values are
 * looked up and checked in the order the constructor assigns its fields,
 * so the first failing key decides the error.
 */
module DapnetSettings {
  import opened Wrappers
  import opened Props
  import Decimal

  datatype Settings = Settings(
    profileName: string,
    reconnectSleepTime: int,
    frontendName: string,
    frontendKey: string,
    frontendAddress: Address,
    backendAddress: Address,
    backendTimeout: int)

  /** The keys in the order the constructor reads them. */
  const RequiredKeys: seq<string> := ["profileName", "reconnectSleepTime"] + EndpointKeys

  /** The keys read after the reconnect sleep time has been checked. */
  const EndpointKeys: seq<string> := [
    "frontend.name", "frontend.key", "frontend.host", "frontend.port",
    "backend.host", "backend.port", "backend.timeout"]

  /** `new Settings(props)`; `Failure` is the exception the constructor throws. */
  function FromProperties(props: Properties): (r: Result<Settings, SettingsError>)
    ensures r.Success? ==> "profileName" in props && r.value.profileName == props["profileName"]
    ensures r.Success? ==> && "reconnectSleepTime" in props
                           && Decimal.ParseLong(props["reconnectSleepTime"]) == Some(r.value.reconnectSleepTime)
                           && r.value.reconnectSleepTime >= 0
    ensures r.Success? ==> r == Endpoints(props, r.value.profileName, r.value.reconnectSleepTime)
  {
    var profileName :- GetString(props, "profileName");
    var reconnectSleepTime :- GetLong(props, "reconnectSleepTime");
    if reconnectSleepTime < 0 then Failure(NegativeReconnectSleepTime)
    else Endpoints(props, profileName, reconnectSleepTime)
  }

  /** The rest of the constructor: the frontend credentials and both addresses. */
  function Endpoints(props: Properties, profileName: string, reconnectSleepTime: int)
    : (r: Result<Settings, SettingsError>)
    ensures r.Success? ==> r.value.profileName == profileName && r.value.reconnectSleepTime == reconnectSleepTime
    ensures r.Success? ==> && "frontend.name" in props && "frontend.key" in props
                           && "frontend.host" in props && "frontend.port" in props
                           && "backend.host" in props && "backend.port" in props && "backend.timeout" in props
    ensures r.Success? ==> && r.value.frontendName == props["frontend.name"]
                           && r.value.frontendKey == props["frontend.key"]
                           && r.value.frontendAddress.host == props["frontend.host"]
                           && r.value.backendAddress.host == props["backend.host"]
    ensures r.Success? ==> && Decimal.ParseInt(props["frontend.port"]) == Some(r.value.frontendAddress.port)
                           && Decimal.ParseInt(props["backend.port"]) == Some(r.value.backendAddress.port)
                           && Decimal.ParseLong(props["backend.timeout"]) == Some(r.value.backendTimeout)
  {
    var frontendName :- GetString(props, "frontend.name");
    var frontendKey :- GetString(props, "frontend.key");
    var frontendAddress :- GetAddress(props, "frontend.host", "frontend.port");
    var backendAddress :- GetAddress(props, "backend.host", "backend.port");
    var backendTimeout :- GetLong(props, "backend.timeout");
    Success(Settings(profileName, reconnectSleepTime, frontendName, frontendKey,
                     frontendAddress, backendAddress, backendTimeout))
  }

  /**
   * The check one key's value must pass: strings only need to be present, the
   * sleep time is a non-negative long, ports are ints in 0..65535, and the
   * backend timeout is any long.
   */
  predicate ValueAccepted(key: string, value: string) {
    if key == "reconnectSleepTime" then
      Decimal.ParseLong(value).Some? && Decimal.ParseLong(value).value >= 0
    else if key == "frontend.port" || key == "backend.port" then
      Decimal.ParseInt(value).Some? && 0 <= Decimal.ParseInt(value).value <= MaxPort
    else if key == "backend.timeout" then
      Decimal.ParseLong(value).Some?
    else
      true
  }

  /** The exception a refused value raises. */
  function ValueError(key: string, value: string): SettingsError {
    if key == "reconnectSleepTime" && Decimal.ParseLong(value).Some? then NegativeReconnectSleepTime
    else if (key == "frontend.port" || key == "backend.port") && Decimal.ParseInt(value).Some? then
      PortOutOfRange(Decimal.ParseInt(value).value)
    else NumberFormat(value)
  }

  /** The error of the first key, in `keys` order, that is missing or refused. */
  function FirstProblem(props: Properties, keys: seq<string>): Option<SettingsError> {
    if keys == [] then None
    else if keys[0] !in props then Some(KeyNotFound(keys[0]))
    else if !ValueAccepted(keys[0], props[keys[0]]) then Some(ValueError(keys[0], props[keys[0]]))
    else FirstProblem(props, keys[1..])
  }

  lemma FirstProblemNone(props: Properties, keys: seq<string>)
    ensures FirstProblem(props, keys).None?
            <==> forall k :: k in keys ==> k in props && ValueAccepted(k, props[k])
  {
  }

  /** Outcome of a settings load as an optional error. */
  function Outcome(r: Result<Settings, SettingsError>): Option<SettingsError> {
    if r.Success? then None else Some(r.error)
  }

  lemma EndpointsInDeclarationOrder(props: Properties, profileName: string, reconnectSleepTime: int)
    ensures FirstProblem(props, EndpointKeys) == Outcome(Endpoints(props, profileName, reconnectSleepTime))
  {
    var t := EndpointKeys;
    assert t[0] == "frontend.name";
    if "frontend.name" in props {
      t := t[1..];
      assert t[0] == "frontend.key";
      assert FirstProblem(props, EndpointKeys) == FirstProblem(props, t);
      if "frontend.key" in props {
        t := t[1..];
        assert t[0] == "frontend.host";
        assert FirstProblem(props, EndpointKeys) == FirstProblem(props, t);
        if "frontend.host" in props {
          t := t[1..];
          assert t[0] == "frontend.port";
          assert FirstProblem(props, EndpointKeys) == FirstProblem(props, t);
          if "frontend.port" in props && ValueAccepted("frontend.port", props["frontend.port"]) {
            t := t[1..];
            assert FirstProblem(props, EndpointKeys) == FirstProblem(props, t);
            assert t == EndpointKeys[4..];
            BackendInDeclarationOrder(props, profileName, reconnectSleepTime);
          }
        }
      }
    }
  }

  /** Once the frontend keys pass, the backend keys decide in their order. */
  lemma BackendInDeclarationOrder(props: Properties, profileName: string, reconnectSleepTime: int)
    requires "frontend.name" in props && "frontend.key" in props && "frontend.host" in props
    requires "frontend.port" in props && ValueAccepted("frontend.port", props["frontend.port"])
    ensures FirstProblem(props, EndpointKeys[4..]) == Outcome(Endpoints(props, profileName, reconnectSleepTime))
  {
    var t := EndpointKeys[4..];
    assert t[0] == "backend.host";
    if "backend.host" in props {
      t := t[1..];
      assert t[0] == "backend.port";
      assert FirstProblem(props, EndpointKeys[4..]) == FirstProblem(props, t);
      if "backend.port" in props && ValueAccepted("backend.port", props["backend.port"]) {
        t := t[1..];
        assert t[0] == "backend.timeout" && t[1..] == [];
        assert FirstProblem(props, EndpointKeys[4..]) == FirstProblem(props, t);
        var r := Endpoints(props, profileName, reconnectSleepTime);
        if "backend.timeout" !in props {
          assert r == Failure(KeyNotFound("backend.timeout"));
        } else if Decimal.ParseLong(props["backend.timeout"]).None? {
          assert r == Failure(NumberFormat(props["backend.timeout"]));
        } else {
          assert r.Success?;
          assert FirstProblem(props, t) == None;
        }
      }
    }
  }

  /**
   * The constructor's checks run key by key in declaration order: it fails
   * exactly when some key is missing or refused, with the error of the first.
   */
  lemma ChecksInDeclarationOrder(props: Properties)
    ensures FirstProblem(props, RequiredKeys) == Outcome(FromProperties(props))
  {
    var ks := RequiredKeys;
    assert ks[0] == "profileName" && ks[1..][0] == "reconnectSleepTime" && ks[1..][1..] == EndpointKeys;
    if "profileName" in props && "reconnectSleepTime" in props
       && ValueAccepted("reconnectSleepTime", props["reconnectSleepTime"]) {
      assert FirstProblem(props, ks) == FirstProblem(props, EndpointKeys);
      EndpointsInDeclarationOrder(props, props["profileName"], Decimal.ParseLong(props["reconnectSleepTime"]).value);
    }
  }

  /** Settings succeed exactly when every key is present and accepted. */
  lemma AcceptsExactly(props: Properties)
    ensures FromProperties(props).Success?
            <==> forall k :: k in RequiredKeys ==> k in props && ValueAccepted(k, props[k])
  {
    ChecksInDeclarationOrder(props);
    FirstProblemNone(props, RequiredKeys);
  }

  /** When every key before position `i` passes, the key at `i` decides the outcome. */
  lemma {:induction false} FirstProblemAt(props: Properties, keys: seq<string>, i: nat)
    requires i < |keys|
    requires forall j :: 0 <= j < i ==> keys[j] in props && ValueAccepted(keys[j], props[keys[j]])
    ensures keys[i] !in props ==> FirstProblem(props, keys) == Some(KeyNotFound(keys[i]))
    ensures keys[i] in props && !ValueAccepted(keys[i], props[keys[i]])
            ==> FirstProblem(props, keys) == Some(ValueError(keys[i], props[keys[i]]))
  {
    if i > 0 {
      FirstProblemAt(props, keys[1..], i - 1);
    }
  }

  /** The first missing key, in declaration order, is the one reported. */
  lemma FirstMissingKeyReported(props: Properties, i: nat)
    requires i < |RequiredKeys| && RequiredKeys[i] !in props
    requires forall j :: 0 <= j < i ==> RequiredKeys[j] in props && ValueAccepted(RequiredKeys[j], props[RequiredKeys[j]])
    ensures FromProperties(props) == Failure(KeyNotFound(RequiredKeys[i]))
    ensures Message(FromProperties(props).error) == "Key not found: " + RequiredKeys[i]
  {
    FirstProblemAt(props, RequiredKeys, i);
    ChecksInDeclarationOrder(props);
  }

  /** A negative sleep time is reported before any frontend or backend key is read. */
  lemma NegativeSleepTimeFirst(props: Properties)
    requires "profileName" in props && "reconnectSleepTime" in props
    requires Decimal.ParseLong(props["reconnectSleepTime"]).Some?
    requires Decimal.ParseLong(props["reconnectSleepTime"]).value < 0
    ensures FromProperties(props) == Failure(NegativeReconnectSleepTime)
    ensures Message(FromProperties(props).error) == "Reconnect sleep time cannot be negative."
  {
  }

  /** The properties of the settings unit test. */
  const TestProps: Properties := map[
    "profileName" := "testProfile", "reconnectSleepTime" := "0",
    "frontend.name" := "proxyTest", "frontend.key" := "test1",
    "frontend.host" := "localhost", "frontend.port" := "43434",
    "backend.host" := "localhost", "backend.port" := "43435",
    "backend.timeout" := "30000"]

  /** The properties of the settings unit test load into the expected record. */
  lemma TestProperties()
    ensures FromProperties(TestProps)
      == Success(Settings("testProfile", 0, "proxyTest", "test1",
                          Address("localhost", 43434), Address("localhost", 43435), 30000))
  {
    TestStrings();
    TestNumbers();
    TestAddresses();
    assert Endpoints(TestProps, "testProfile", 0)
        == Success(Settings("testProfile", 0, "proxyTest", "test1",
                            Address("localhost", 43434), Address("localhost", 43435), 30000));
  }

  lemma TestStrings()
    ensures GetString(TestProps, "profileName") == Success("testProfile")
    ensures GetString(TestProps, "frontend.name") == Success("proxyTest")
    ensures GetString(TestProps, "frontend.key") == Success("test1")
  {
  }

  lemma TestNumbers()
    ensures GetLong(TestProps, "reconnectSleepTime") == Success(0)
    ensures GetLong(TestProps, "backend.timeout") == Success(30000)
  {
    TestValues();
  }

  lemma TestAddresses()
    ensures GetAddress(TestProps, "frontend.host", "frontend.port") == Success(Address("localhost", 43434))
    ensures GetAddress(TestProps, "backend.host", "backend.port") == Success(Address("localhost", 43435))
  {
    TestValues();
  }

  lemma TestValues()
    ensures Decimal.ParseLong("0") == Some(0)
    ensures Decimal.ParseInt("43434") == Some(43434)
    ensures Decimal.ParseInt("43435") == Some(43435)
    ensures Decimal.ParseLong("30000") == Some(30000)
  {
    DigitsValues();
    assert Decimal.Unsigned("0") == "0";
    assert Decimal.Unsigned("43434") == "43434";
    assert Decimal.Unsigned("43435") == "43435";
    assert Decimal.Unsigned("30000") == "30000";
  }

  lemma DigitsValues()
    ensures Decimal.DigitsValue("0") == 0
    ensures Decimal.DigitsValue("43434") == 43434
    ensures Decimal.DigitsValue("43435") == 43435
    ensures Decimal.DigitsValue("30000") == 30000
  {
    assert "0"[..0] == [];
    assert "43434"[..4] == "4343" && "4343"[..3] == "434" && "434"[..2] == "43" && "43"[..1] == "4" && "4"[..0] == [];
    assert "43435"[..4] == "4343";
    assert "30000"[..4] == "3000" && "3000"[..3] == "300" && "300"[..2] == "30" && "30"[..1] == "3" && "3"[..0] == [];
  }
}
