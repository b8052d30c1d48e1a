// The SCADA bridge's settings, computed from the process environment: integer
// settings with defaults, boolean flags, the Modbus IP whitelist and the OPC UA
// endpoint.

module BridgeConfig {
  import opened PyValues

  type Env = map<string, string>

  /** `os.getenv(name, default)` */
  function Getenv(env: Env, name: string, default: string): string
  {
    if name in env then env[name] else default
  }

  /** `value.lower() == "true"` */
  predicate Flag(value: string)
  {
    Lower(value) == "true"
  }

  /** An integer setting: `int(os.getenv(name, default))`; None where `int` raises
      ValueError, which aborts loading the settings. */
  function IntSetting(env: Env, name: string, default: string): Option<int>
  {
    ParseIntText(Getenv(env, name, default))
  }

  /** `[ip.strip() for ip in text.split(",") if ip.strip()]` over the segments. */
  function StrippedNonEmpty(parts: seq<string>): (r: seq<string>)
    ensures |r| <= |parts|
  {
    if parts == [] then []
    else
      var t := Strip(parts[0]);
      (if t != [] then [t] else []) + StrippedNonEmpty(parts[1..])
  }

  function Whitelist(text: string): seq<string>
  {
    StrippedNonEmpty(Split(text, ','))
  }

  function Endpoint(port: int): string
  {
    "opc.tcp://0.0.0.0:" + IntText(port) + "/freeopcua/server/"
  }

  datatype Settings = Settings(
    mqttBroker: string, mqttPort: int, mqttKeepalive: int, mqttRetryDelay: int,
    opcuaPort: int, opcuaEndpoint: string, opcuaAllowAnonymous: bool,
    opcuaUsername: string, opcuaPassword: string,
    modbusPort: int, modbusHost: string, modbusUnitId: int, modbusIpWhitelist: seq<string>,
    dnp3Enabled: bool, dnp3Port: int, dnp3Host: string,
    logLevel: string)

  const PredictionsTopic := "predictions/#"
  const ConfigTopicPrefix := "config/"
  const AgentIds: seq<string> := ["pm_agent", "energy_agent", "cyber_agent", "hazard_agent", "ppe_agent"]

  /** The module's settings, or None when an integer setting is not integer text. */
  function Load(env: Env): Option<Settings>
  {
    var mqttPort := IntSetting(env, "MQTT_PORT", "1883");
    var keepalive := IntSetting(env, "MQTT_KEEPALIVE", "60");
    var retry := IntSetting(env, "MQTT_RETRY_DELAY", "5");
    var opcuaPort := IntSetting(env, "OPCUA_PORT", "4840");
    var modbusPort := IntSetting(env, "MODBUS_PORT", "502");
    var unitId := IntSetting(env, "MODBUS_UNIT_ID", "1");
    var dnp3Port := IntSetting(env, "DNP3_PORT", "20000");
    if mqttPort.None? || keepalive.None? || retry.None? || opcuaPort.None?
       || modbusPort.None? || unitId.None? || dnp3Port.None? then None
    else
      Some(Settings(
        Getenv(env, "MQTT_BROKER", "localhost"), mqttPort.value, keepalive.value, retry.value,
        opcuaPort.value, Endpoint(opcuaPort.value), Flag(Getenv(env, "OPCUA_ALLOW_ANONYMOUS", "true")),
        Getenv(env, "OPCUA_USERNAME", "admin"), Getenv(env, "OPCUA_PASSWORD", "admin123"),
        modbusPort.value, Getenv(env, "MODBUS_HOST", "0.0.0.0"), unitId.value,
        Whitelist(Getenv(env, "MODBUS_IP_WHITELIST", "")),
        Flag(Getenv(env, "DNP3_ENABLED", "false")), dnp3Port.value, Getenv(env, "DNP3_HOST", "0.0.0.0"),
        Upper(Getenv(env, "LOG_LEVEL", "INFO"))))
  }

  // ---------------------------------------------------------------- properties

  /** Every whitelist entry is a stripped, non-empty segment of the text. */
  lemma {:induction false} WhitelistEntries(parts: seq<string>)
    ensures forall e :: e in StrippedNonEmpty(parts) ==>
      e != [] && exists i :: 0 <= i < |parts| && e == Strip(parts[i])
  {
    if parts != [] {
      WhitelistEntries(parts[1..]);
      var r := StrippedNonEmpty(parts);
      forall e | e in r
        ensures e != [] && exists i :: 0 <= i < |parts| && e == Strip(parts[i])
      {
        if e in StrippedNonEmpty(parts[1..]) {
          var j :| 0 <= j < |parts[1..]| && e == Strip(parts[1..][j]);
          assert e == Strip(parts[j + 1]);
        } else {
          assert e == Strip(parts[0]);
        }
      }
    }
  }

  /** Every segment that is not blank is kept, stripped, in the order of the text. */
  lemma {:induction false} WhitelistKeeps(a: seq<string>, b: seq<string>)
    ensures StrippedNonEmpty(a + b) == StrippedNonEmpty(a) + StrippedNonEmpty(b)
  {
    if a == [] {
      assert a + b == b;
    } else {
      assert (a + b)[1..] == a[1..] + b;
      WhitelistKeeps(a[1..], b);
    }
  }

  /** Splitting at a comma: the whitelist of "a,b" is the whitelist of a followed by
      that of b. */
  lemma WhitelistConcat(a: string, b: string)
    ensures Whitelist(a + [','] + b) == Whitelist(a) + Whitelist(b)
  {
    SplitAppend(a, ',', b);
    WhitelistKeeps(Split(a, ','), Split(b, ','));
  }

  /** A single address without commas is the whole whitelist, stripped; a blank or
      empty text gives an empty whitelist. */
  lemma WhitelistSingle(s: string)
    requires ',' !in s
    ensures Strip(s) != [] ==> Whitelist(s) == [Strip(s)]
    ensures Strip(s) == [] ==> Whitelist(s) == []
  {
    SplitNoSep(s, ',');
  }

  /** Only the exact word "true", in any letter case, turns a flag on. */
  lemma FlagCases()
    ensures Flag("true") && Flag("TRUE") && Flag("True")
    ensures !Flag("false") && !Flag("1") && !Flag("yes") && !Flag("") && !Flag(" true")
  {
    assert Lower("TRUE") == "true";
    assert Lower("True") == "true";
    assert Lower("false")[0] == 'f';
    assert |Lower(" true")| == 5;
  }

  /** Digit text reads as the number its digits spell. */
  lemma DigitText(t: string)
    requires t != [] && AllDigits(t)
    ensures ParseIntText(t) == Some(DigitsValue(t) as int)
  {
    StripDigits(t);
  }

  /** Appending a digit multiplies by ten and adds it. */
  lemma DigitStep(t: string, c: char)
    requires AllDigits(t) && IsDigit(c)
    ensures AllDigits(t + [c]) && DigitsValue(t + [c]) == DigitsValue(t) * 10 + DigitValue(c)
  {
    assert (t + [c])[..|t|] == t;
  }

  lemma Parse1883()
    ensures ParseIntText("1883") == Some(1883)
  {
    DigitStep("1", '8');
    assert "1" + ['8'] == "18";
    DigitStep("18", '8');
    assert "18" + ['8'] == "188";
    DigitStep("188", '3');
    assert "188" + ['3'] == "1883";
    DigitText("1883");
  }

  lemma Parse60()
    ensures ParseIntText("60") == Some(60)
  {
    DigitStep("6", '0');
    assert "6" + ['0'] == "60";
    DigitText("60");
  }

  lemma Parse5()
    ensures ParseIntText("5") == Some(5)
  {
    DigitText("5");
  }

  lemma Parse4840()
    ensures ParseIntText("4840") == Some(4840)
  {
    DigitStep("4", '8');
    assert "4" + ['8'] == "48";
    DigitStep("48", '4');
    assert "48" + ['4'] == "484";
    DigitStep("484", '0');
    assert "484" + ['0'] == "4840";
    DigitText("4840");
  }

  lemma Parse502()
    ensures ParseIntText("502") == Some(502)
  {
    DigitStep("5", '0');
    assert "5" + ['0'] == "50";
    DigitStep("50", '2');
    assert "50" + ['2'] == "502";
    DigitText("502");
  }

  lemma Parse1()
    ensures ParseIntText("1") == Some(1)
  {
    DigitText("1");
  }

  lemma Parse20000()
    ensures ParseIntText("20000") == Some(20000)
  {
    DigitStep("2", '0');
    assert "2" + ['0'] == "20";
    DigitStep("20", '0');
    assert "20" + ['0'] == "200";
    DigitStep("200", '0');
    assert "200" + ['0'] == "2000";
    DigitStep("2000", '0');
    assert "2000" + ['0'] == "20000";
    DigitText("20000");
  }

  lemma MqttIntDefaults()
    ensures IntSetting(map[], "MQTT_PORT", "1883") == Some(1883)
    ensures IntSetting(map[], "MQTT_KEEPALIVE", "60") == Some(60)
    ensures IntSetting(map[], "MQTT_RETRY_DELAY", "5") == Some(5)
  {
    Parse1883();
    Parse60();
    Parse5();
  }

  lemma ServerIntDefaults()
    ensures IntSetting(map[], "OPCUA_PORT", "4840") == Some(4840)
    ensures IntSetting(map[], "MODBUS_PORT", "502") == Some(502)
    ensures IntSetting(map[], "MODBUS_UNIT_ID", "1") == Some(1)
    ensures IntSetting(map[], "DNP3_PORT", "20000") == Some(20000)
  {
    Parse4840();
    Parse502();
    Parse1();
    Parse20000();
  }

  lemma TextDefaults()
    ensures Flag("true") && !Flag("false") && Upper("INFO") == "INFO" && Whitelist("") == []
  {
    WhitelistSingle("");
    assert Lower("true") == "true";
    assert Lower("false")[0] == 'f';
  }

  /** The settings of an empty environment. */
  lemma {:induction false} Defaults()
    ensures Load(map[]).Some?
    ensures var s := Load(map[]).value;
      s.mqttBroker == "localhost" && s.mqttPort == 1883 && s.mqttKeepalive == 60 && s.mqttRetryDelay == 5
      && s.opcuaPort == 4840 && s.opcuaEndpoint == Endpoint(4840)
      && s.opcuaAllowAnonymous
      && s.modbusPort == 502 && s.modbusUnitId == 1 && s.modbusIpWhitelist == []
      && !s.dnp3Enabled && s.dnp3Port == 20000
      && s.logLevel == "INFO"
  {
    MqttIntDefaults();
    ServerIntDefaults();
    TextDefaults();
  }

  /** The OPC UA endpoint carries the configured port, read back from its text. */
  lemma EndpointPort(port: int)
    ensures var e := Endpoint(port);
      e[..18] == "opc.tcp://0.0.0.0:"
      && e[|e| - 18..] == "/freeopcua/server/"
      && ParseIntText(e[18..|e| - 18]) == Some(port)
  {
    IntTextRoundTrip(port);
    var e := Endpoint(port);
    assert e[18..|e| - 18] == IntText(port);
  }

  /** A configured port is read as the integer it spells. */
  lemma PortSetting(env: Env, port: int)
    requires "OPCUA_PORT" in env && env["OPCUA_PORT"] == IntText(port)
    ensures IntSetting(env, "OPCUA_PORT", "4840") == Some(port)
  {
    IntTextRoundTrip(port);
  }
}
