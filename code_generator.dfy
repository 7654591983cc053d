/**
 * The dispatcher of the code generator: a fixed two-level table from a device
 * family and a template name to a template, consulted by `generate_code`, which
 * falls back to the ESP32 basic-sensor template whenever the lookup misses.
 */
module CodeGenerator {
  import opened Options
  import opened Template
  import opened DeviceConfig
  import opened Firmware

  /** The six template methods the table can name. */
  datatype TemplateRef =
    | Esp32Basic | Esp32Advanced | Esp32Relay
    | PicoBasic | PicoAdvanced | PicoRelay

  const DefaultDeviceType := "ESP32"
  const DefaultTemplateType := "basic_sensor"

  /** The table built by the constructor; it is never changed afterwards. */
  const Templates: map<string, map<string, TemplateRef>> := map[
    "ESP32" := map["basic_sensor" := Esp32Basic, "advanced_iot" := Esp32Advanced, "relay_control" := Esp32Relay],
    "PICO_WH" := map["basic_sensor" := PicoBasic, "advanced_iot" := PicoAdvanced, "relay_control" := PicoRelay]]

  /** Calls the template a table entry names. */
  function Run(t: TemplateRef, cfg: Config, stamp: string): (code: string)
  {
    match t
    case Esp32Basic => Esp32BasicSensor(cfg, stamp)
    case Esp32Advanced => Esp32AdvancedIot(cfg, stamp)
    case Esp32Relay => Esp32RelayControl(cfg, stamp)
    case PicoBasic => PicoBasicSensor(cfg, stamp)
    case PicoAdvanced => PicoAdvancedIot(cfg, stamp)
    case PicoRelay => PicoRelayControl(cfg, stamp)
  }

  /**
   * The template `generate_code` calls: the table entry when both keys are
   * present, and the ESP32 basic-sensor template otherwise.
   */
  function Resolve(deviceType: string, templateType: string): (t: TemplateRef)
  {
    if deviceType in Templates && templateType in Templates[deviceType]
    then Templates[deviceType][templateType]
    else Esp32Basic
  }

  /** `generate_code`: the device type defaults to `ESP32`. */
  function GenerateCode(cfg: Config, templateType: string, stamp: string): (code: string)
  {
    Run(Resolve(GetOr(cfg.deviceType, DefaultDeviceType), templateType), cfg, stamp)
  }

  /** `generate_code` called without a template name. */
  function GenerateDefaultCode(cfg: Config, stamp: string): (code: string)
  {
    GenerateCode(cfg, DefaultTemplateType, stamp)
  }

  /** The three template names each family registers. */
  predicate KnownTemplate(templateType: string)
  {
    templateType == "basic_sensor" || templateType == "advanced_iot" || templateType == "relay_control"
  }

  /**
   * The lookup, stated without the table: a Pico template only for the family
   * `PICO_WH` with a registered name; every other pair, `PICO_WH` with an
   * unknown name included, lands on an ESP32 template, and on the basic one
   * unless the family is `ESP32` with a registered name.
   */
  lemma ResolveCases(deviceType: string, templateType: string)
    ensures Resolve(deviceType, templateType) in {PicoBasic, PicoAdvanced, PicoRelay}
        <==> deviceType == "PICO_WH" && KnownTemplate(templateType)
    ensures Resolve(deviceType, templateType) != Esp32Basic
        ==> KnownTemplate(templateType) && deviceType in {"ESP32", "PICO_WH"}
    ensures !(deviceType in {"ESP32", "PICO_WH"} && KnownTemplate(templateType))
        ==> Resolve(deviceType, templateType) == Esp32Basic
  {
  }

  /** Each registered name is bound to the template of that name in its family. */
  lemma TableEntries()
    ensures Templates.Keys == {"ESP32", "PICO_WH"}
    ensures forall d | d in Templates :: Templates[d].Keys == {"basic_sensor", "advanced_iot", "relay_control"}
    ensures Resolve("ESP32", "basic_sensor") == Esp32Basic && Resolve("PICO_WH", "basic_sensor") == PicoBasic
    ensures Resolve("ESP32", "advanced_iot") == Esp32Advanced && Resolve("PICO_WH", "advanced_iot") == PicoAdvanced
    ensures Resolve("ESP32", "relay_control") == Esp32Relay && Resolve("PICO_WH", "relay_control") == PicoRelay
  {
  }

  /** The alias templates give exactly the basic template's text of their family. */
  lemma AliasTemplatesMatchBasic(cfg: Config, stamp: string)
    ensures Esp32AdvancedIot(cfg, stamp) == Esp32BasicSensor(cfg, stamp)
    ensures Esp32RelayControl(cfg, stamp) == Esp32BasicSensor(cfg, stamp)
    ensures PicoAdvancedIot(cfg, stamp) == PicoBasicSensor(cfg, stamp)
    ensures PicoRelayControl(cfg, stamp) == PicoBasicSensor(cfg, stamp)
  {
  }

  /**
   * What `generate_code` returns, for every configuration and name: the Pico
   * basic text for `PICO_WH` with a registered name, and the ESP32 basic text
   * for everything else.
   */
  lemma GenerateCodeResult(cfg: Config, templateType: string, stamp: string)
    ensures GetOr(cfg.deviceType, DefaultDeviceType) == "PICO_WH" && KnownTemplate(templateType)
        ==> GenerateCode(cfg, templateType, stamp) == PicoBasicSensor(cfg, stamp)
    ensures !(GetOr(cfg.deviceType, DefaultDeviceType) == "PICO_WH" && KnownTemplate(templateType))
        ==> GenerateCode(cfg, templateType, stamp) == Esp32BasicSensor(cfg, stamp)
  {
    var t := Resolve(GetOr(cfg.deviceType, DefaultDeviceType), templateType);
    ResolveCases(GetOr(cfg.deviceType, DefaultDeviceType), templateType);
    AliasTemplatesMatchBasic(cfg, stamp);
    assert t.PicoBasic? || t.PicoAdvanced? || t.PicoRelay? ==> Run(t, cfg, stamp) == PicoBasicSensor(cfg, stamp);
  }

  /** With no device type set and no template named, the ESP32 basic text comes out. */
  lemma MissingTypeIsEsp32Basic(cfg: Config, stamp: string)
    requires cfg.deviceType.None?
    ensures GenerateDefaultCode(cfg, stamp) == Esp32BasicSensor(cfg, stamp)
  {
    GenerateCodeResult(cfg, DefaultTemplateType, stamp);
  }

  /** A Pico configuration with an unregistered template name falls back to the ESP32 text. */
  lemma UnknownPicoTemplateIsEsp32(cfg: Config, templateType: string, stamp: string)
    requires cfg.deviceType == Some("PICO_WH") && !KnownTemplate(templateType)
    ensures GenerateCode(cfg, templateType, stamp) == Esp32BasicSensor(cfg, stamp)
  {
    GenerateCodeResult(cfg, templateType, stamp);
  }

  /**
   * Whatever the dispatch picks, the text names the device in its header line
   * and in its `DEVICE_NAME` assignment, with the default of the family picked.
   */
  lemma GenerateCodeNamesDevice(cfg: Config, templateType: string, stamp: string)
    ensures var name := GetOr(cfg.deviceName,
                          if GetOr(cfg.deviceType, DefaultDeviceType) == "PICO_WH" && KnownTemplate(templateType)
                          then PicoDefaultName else Esp32DefaultName);
            var code := GenerateCode(cfg, templateType, stamp);
            Contains(code, "\n# Device: " + name + "\n") && Contains(code, "\nDEVICE_NAME = \"" + name + "\"")
  {
    GenerateCodeResult(cfg, templateType, stamp);
    if GetOr(cfg.deviceType, DefaultDeviceType) == "PICO_WH" && KnownTemplate(templateType) {
      PicoNamesDevice(cfg, stamp);
    } else {
      Esp32NamesDevice(cfg, stamp);
    }
  }

  /** Every text `generate_code` returns holds the `connect_wifi` docstring `"""Connect to WiFi"""`. */
  lemma GenerateCodeHasDocstring(cfg: Config, templateType: string, stamp: string)
    ensures Contains(GenerateCode(cfg, templateType, stamp), WifiDocstring)
  {
    GenerateCodeResult(cfg, templateType, stamp);
    FirmwareHasTripleQuotes(cfg, stamp);
  }
}
