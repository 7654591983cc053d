/**
 * The two firmware templates of the code generator (`esp32_basic_sensor_template`
 * and `pico_basic_sensor_template`). Each is one f-string: its literal text is
 * kept here verbatim as the `Text` pieces of a layout, and its replacement
 * fields are the `Hole` pieces. The generation time, read from the clock in the
 * source, is the `stamp` argument.
 */
module Firmware {
  import opened Options
  import opened Template
  import opened DeviceConfig

  /** The replacement fields of the firmware templates. */
  datatype Slot = Timestamp | DeviceName | WifiSsid | WifiPassword | LedPin | TempPin | LightPin

  const Esp32DefaultName := "ESP32_Device"
  const PicoDefaultName := "PICO_Device"
  const DefaultSsid := "YOUR_WIFI_SSID"
  const DefaultPassword := "YOUR_WIFI_PASSWORD"
  const DefaultLedPin := Numeric(2)
  const DefaultTempPin := Numeric(4)
  const DefaultLightPin := Numeric(32)

  function LedPinOf(cfg: Config): (p: PinValue) { PinOr(PinsOf(cfg), "led_pin", DefaultLedPin) }
  function TempPinOf(cfg: Config): (p: PinValue) { PinOr(PinsOf(cfg), "temperature_pin", DefaultTempPin) }
  function LightPinOf(cfg: Config): (p: PinValue) { PinOr(PinsOf(cfg), "light_pin", DefaultLightPin) }

  /**
   * The text a replacement field receives: each key read with `.get` and its
   * default. Only the default device name differs between the two templates.
   */
  function FieldText(cfg: Config, stamp: string, defaultName: string, s: Slot): (text: string)
  {
    match s
    case Timestamp => stamp
    case DeviceName => GetOr(cfg.deviceName, defaultName)
    case WifiSsid => GetOr(cfg.wifiSsid, DefaultSsid)
    case WifiPassword => GetOr(cfg.wifiPassword, DefaultPassword)
    case LedPin => RenderPin(LedPinOf(cfg))
    case TempPin => RenderPin(TempPinOf(cfg))
    case LightPin => RenderPin(LightPinOf(cfg))
  }

  /** The lines that name the device and its network, the same in both templates. */
  const ConfigurationLines: seq<Piece<Slot>> := [
    Text("\nDEVICE_NAME = \""), Hole(DeviceName),
    Text("\"\nWIFI_SSID = \""), Hole(WifiSsid),
    Text("\"\nWIFI_PASSWORD = \""), Hole(WifiPassword),
    Text("\"")]

  const Imports: string :=
    "\n"
      + "import network\n"
      + "import urequests as requests\n"
      + "import ujson as json\n"
      + "import time\n"
      + "import machine\n"
      + "from machine import Pin, ADC\n"
      + "import dht\n"
      + "\n"
      + "# Configuration"

  /** The docstring of `connect_wifi`, a triple-quoted string inside the generated program. */
  const WifiDocstring: string := "\"\"\"Connect to WiFi\"\"\""
  const DocstringLine: string := "\n        " + WifiDocstring

  const Esp32ServerLines: string :=
    "\n"
      + "SERVER_URL = \"http://YOUR_SERVER_IP:4000/api/esp32/data\"\n"
      + "\n"
      + "# Pin Setup"

  const Esp32Hardware: string :=
    "\n"
      + "# Initialize hardware\n"
      + "led = Pin(LED_PIN, Pin.OUT)\n"
      + "dht_sensor = dht.DHT22(Pin(TEMP_PIN))\n"
      + "light_adc = ADC(Pin(LIGHT_PIN))\n"
      + "light_adc.atten(ADC.ATTN_11DB)\n"
      + "\n"
      + "class ESP32Sensor:\n"
      + "    def __init__(self):\n"
      + "        self.wifi = network.WLAN(network.STA_IF)\n"
      + "        self.connected = False\n"
      + "        \n"
      + "    def connect_wifi(self):"

  const Esp32Program: string :=
    "\n"
      + "        print(f\"Connecting to {WIFI_SSID}\")\n"
      + "        self.wifi.active(True)\n"
      + "        self.wifi.connect(WIFI_SSID, WIFI_PASSWORD)\n"
      + "        \n"
      + "        timeout = 0\n"
      + "        while not self.wifi.isconnected() and timeout < 20:\n"
      + "            print(\".\", end=\"\")\n"
      + "            time.sleep(1)\n"
      + "            timeout += 1\n"
      + "            \n"
      + "        if self.wifi.isconnected():\n"
      + "            self.connected = True\n"
      + "            print(f\"\\nConnected! IP: {self.wifi.ifconfig()[0]}\")\n"
      + "            return True\n"
      + "        else:\n"
      + "            print(\"\\nFailed to connect\")\n"
      + "            return False\n"
      + "    \n"
      + "    def read_sensors(self):\n"
      + "        \"\"\"Read sensor data\"\"\"\n"
      + "        data = {\n"
      + "            \"sensor_id\": DEVICE_NAME,\n"
      + "            \"temperature\": 0.0,\n"
      + "            \"humidity\": 0.0,\n"
      + "            \"light\": 0.0\n"
      + "        }\n"
      + "        \n"
      + "        try:\n"
      + "            dht_sensor.measure()\n"
      + "            time.sleep(0.5)\n"
      + "            data[\"temperature\"] = dht_sensor.temperature()\n"
      + "            data[\"humidity\"] = dht_sensor.humidity()\n"
      + "        except Exception as e:\n"
      + "            print(f\"DHT Error: {e}\")\n"
      + "            \n"
      + "        try:\n"
      + "            light_raw = light_adc.read()\n"
      + "            data[\"light\"] = (light_raw / 4095) * 1000\n"
      + "        except Exception as e:\n"
      + "            print(f\"Light Error: {e}\")\n"
      + "            \n"
      + "        return data\n"
      + "    \n"
      + "    def send_data(self, data):\n"
      + "        \"\"\"Send data to server\"\"\"\n"
      + "        try:\n"
      + "            headers = {'Content-Type': 'application/json'}\n"
      + "            response = requests.post(SERVER_URL, data=json.dumps(data), headers=headers)\n"
      + "            \n"
      + "            if response.status_code == 200:\n"
      + "                print(\"Data sent successfully\")\n"
      + "                return True\n"
      + "            else:\n"
      + "                print(f\"HTTP Error: {response.status_code}\")\n"
      + "                return False\n"
      + "        except Exception as e:\n"
      + "            print(f\"Send error: {e}\")\n"
      + "            return False\n"
      + "    \n"
      + "    def run(self):\n"
      + "        \"\"\"Main loop\"\"\"\n"
      + "        if not self.connect_wifi():\n"
      + "            return\n"
      + "            \n"
      + "        while True:\n"
      + "            try:\n"
      + "                sensor_data = self.read_sensors()\n"
      + "                self.send_data(sensor_data)\n"
      + "                time.sleep(30)\n"
      + "            except KeyboardInterrupt:\n"
      + "                break\n"
      + "            except Exception as e:\n"
      + "                print(f\"Error: {e}\")\n"
      + "                time.sleep(5)\n"
      + "\n"
      + "# Run\n"
      + "if __name__ == \"__main__\":\n"
      + "    sensor = ESP32Sensor()\n"
      + "    sensor.run()\n"

  const PicoServerLines: string :=
    "\n"
      + "SERVER_URL = \"http://YOUR_SERVER_IP:4000/api/esp32/data\"\n"
      + "\n"
      + "# Pin Setup for Pico WH"

  const PicoPinLines: string := "\nLED_PIN = \"LED\"\nTEMP_PIN = 2\nLIGHT_PIN = 26\n"

  const PicoHardware: string :=
    "\n"
      + "# Initialize hardware\n"
      + "led = Pin(LED_PIN, Pin.OUT)\n"
      + "dht_sensor = dht.DHT22(Pin(TEMP_PIN))\n"
      + "light_adc = ADC(LIGHT_PIN)\n"
      + "\n"
      + "class PicoSensor:\n"
      + "    def __init__(self):\n"
      + "        self.wlan = network.WLAN(network.STA_IF)\n"
      + "        self.connected = False\n"
      + "        \n"
      + "    def connect_wifi(self):"

  const PicoProgram: string :=
    "\n"
      + "        self.wlan.active(True)\n"
      + "        self.wlan.connect(WIFI_SSID, WIFI_PASSWORD)\n"
      + "        \n"
      + "        max_wait = 20\n"
      + "        while max_wait > 0:\n"
      + "            if self.wlan.status() < 0 or self.wlan.status() >= 3:\n"
      + "                break\n"
      + "            max_wait -= 1\n"
      + "            time.sleep(1)\n"
      + "        \n"
      + "        if self.wlan.status() == 3:\n"
      + "            self.connected = True\n"
      + "            print(f\"Connected! IP: {self.wlan.ifconfig()[0]}\")\n"
      + "            return True\n"
      + "        else:\n"
      + "            print(\"WiFi connection failed\")\n"
      + "            return False\n"
      + "    \n"
      + "    def read_sensors(self):\n"
      + "        \"\"\"Read sensor data\"\"\"\n"
      + "        data = {\n"
      + "            \"sensor_id\": DEVICE_NAME,\n"
      + "            \"device_type\": \"PICO_WH\",\n"
      + "            \"temperature\": 0.0,\n"
      + "            \"humidity\": 0.0,\n"
      + "            \"light\": 0.0\n"
      + "        }\n"
      + "        \n"
      + "        try:\n"
      + "            dht_sensor.measure()\n"
      + "            time.sleep(2)\n"
      + "            data[\"temperature\"] = dht_sensor.temperature()\n"
      + "            data[\"humidity\"] = dht_sensor.humidity()\n"
      + "        except Exception as e:\n"
      + "            print(f\"DHT Error: {e}\")\n"
      + "            \n"
      + "        try:\n"
      + "            light_raw = light_adc.read_u16()\n"
      + "            data[\"light\"] = (light_raw / 65535) * 100\n"
      + "        except Exception as e:\n"
      + "            print(f\"Light Error: {e}\")\n"
      + "            \n"
      + "        return data\n"
      + "    \n"
      + "    def send_data(self, data):\n"
      + "        \"\"\"Send data to server\"\"\"\n"
      + "        try:\n"
      + "            headers = {'Content-Type': 'application/json'}\n"
      + "            response = requests.post(SERVER_URL, data=json.dumps(data), headers=headers)\n"
      + "            \n"
      + "            if response.status_code == 200:\n"
      + "                print(\"Data sent successfully\")\n"
      + "                return True\n"
      + "            else:\n"
      + "                print(f\"HTTP Error: {response.status_code}\")\n"
      + "                return False\n"
      + "        except Exception as e:\n"
      + "            print(f\"Send error: {e}\")\n"
      + "            return False\n"
      + "    \n"
      + "    def run(self):\n"
      + "        \"\"\"Main loop\"\"\"\n"
      + "        if not self.connect_wifi():\n"
      + "            return\n"
      + "            \n"
      + "        while True:\n"
      + "            try:\n"
      + "                sensor_data = self.read_sensors()\n"
      + "                self.send_data(sensor_data)\n"
      + "                time.sleep(30)\n"
      + "            except KeyboardInterrupt:\n"
      + "                break\n"
      + "            except Exception as e:\n"
      + "                print(f\"Error: {e}\")\n"
      + "                time.sleep(5)\n"
      + "\n"
      + "# Run\n"
      + "if __name__ == \"__main__\":\n"
      + "    sensor = PicoSensor()\n"
      + "    sensor.run()\n"

  const Esp32HeaderLines: seq<Piece<Slot>> := [
    Text("# ESP32 Basic Sensor Code - Generated on "), Hole(Timestamp),
    Text("\n# Device: "), Hole(DeviceName), Text("\n")]

  const Esp32PinLines: seq<Piece<Slot>> := [
    Text("\nLED_PIN = "), Hole(LedPin),
    Text("\nTEMP_PIN = "), Hole(TempPin),
    Text("\nLIGHT_PIN = "), Hole(LightPin), Text("\n")]

  const PicoHeaderLines: seq<Piece<Slot>> := [
    Text("# Raspberry Pi Pico WH Basic Sensor Code - Generated on "), Hole(Timestamp),
    Text("\n# Device: "), Hole(DeviceName), Text("\n")]

  /**
   * The long stretches of fixed text of a firmware template: the imports, the
   * server address, the hardware class up to `connect_wifi`'s docstring, and
   * the rest of the program after it.
   */
  datatype Body = Body(imports: string, server: string, hardware: string, program: string)

  const Esp32Body := Body(Imports, Esp32ServerLines, Esp32Hardware, Esp32Program)
  const PicoBody := Body(Imports, PicoServerLines, PicoHardware, PicoProgram)

  /** The f-string of `esp32_basic_sensor_template`, around its fixed text. */
  function Esp32Frame(b: Body): (frame: seq<Piece<Slot>>)
  {
    Esp32HeaderLines + [Text(b.imports)] + ConfigurationLines + [Text(b.server)]
    + Esp32PinLines + [Text(b.hardware), Text(DocstringLine), Text(b.program)]
  }

  /** The f-string of `pico_basic_sensor_template`: its pin lines are fixed text. */
  function PicoFrame(b: Body): (frame: seq<Piece<Slot>>)
  {
    PicoHeaderLines + [Text(b.imports)] + ConfigurationLines + [Text(b.server), Text(PicoPinLines)]
    + [Text(b.hardware), Text(DocstringLine), Text(b.program)]
  }

  /** Where each named part sits in the two layouts. */
  lemma Esp32Shape(b: Body)
    ensures |Esp32Frame(b)| == 24
    ensures Esp32Frame(b)[..5] == Esp32HeaderLines && Esp32Frame(b)[6..13] == ConfigurationLines
    ensures Esp32Frame(b)[14..21] == Esp32PinLines && Esp32Frame(b)[22..23] == [Text(DocstringLine)]
  {
  }

  lemma PicoShape(b: Body)
    ensures |PicoFrame(b)| == 18
    ensures PicoFrame(b)[..5] == PicoHeaderLines && PicoFrame(b)[6..13] == ConfigurationLines
    ensures PicoFrame(b)[14..15] == [Text(PicoPinLines)] && PicoFrame(b)[16..17] == [Text(DocstringLine)]
  {
  }

  function Esp32Fill(cfg: Config, stamp: string): (fill: Slot -> string)
  {
    s => FieldText(cfg, stamp, Esp32DefaultName, s)
  }

  function PicoFill(cfg: Config, stamp: string): (fill: Slot -> string)
  {
    s => FieldText(cfg, stamp, PicoDefaultName, s)
  }

  function Esp32BasicSensor(cfg: Config, stamp: string): (code: string)
  {
    Render(Esp32Frame(Esp32Body), Esp32Fill(cfg, stamp))
  }

  function PicoBasicSensor(cfg: Config, stamp: string): (code: string)
  {
    Render(PicoFrame(PicoBody), PicoFill(cfg, stamp))
  }

  /** `esp32_advanced_iot_template`: returns the basic template's text. */
  function Esp32AdvancedIot(cfg: Config, stamp: string): (code: string)
  {
    Esp32BasicSensor(cfg, stamp)
  }

  /** `esp32_relay_control_template`: returns the basic template's text. */
  function Esp32RelayControl(cfg: Config, stamp: string): (code: string)
  {
    Esp32BasicSensor(cfg, stamp)
  }

  /** `pico_advanced_iot_template`: returns the basic template's text. */
  function PicoAdvancedIot(cfg: Config, stamp: string): (code: string)
  {
    PicoBasicSensor(cfg, stamp)
  }

  /** `pico_relay_control_template`: returns the basic template's text. */
  function PicoRelayControl(cfg: Config, stamp: string): (code: string)
  {
    PicoBasicSensor(cfg, stamp)
  }

  /** The configuration lines render to the three quoted assignments, in order. */
  lemma RenderConfiguration(fill: Slot -> string)
    ensures Render(ConfigurationLines, fill)
         == "\nDEVICE_NAME = \"" + fill(DeviceName) + "\"\nWIFI_SSID = \"" + fill(WifiSsid)
            + "\"\nWIFI_PASSWORD = \"" + fill(WifiPassword) + "\""
  {
    RenderSuffixes(ConfigurationLines, fill);
  }

  lemma RenderEsp32Header(fill: Slot -> string)
    ensures Render(Esp32HeaderLines, fill)
         == "# ESP32 Basic Sensor Code - Generated on " + fill(Timestamp) + "\n# Device: " + fill(DeviceName) + "\n"
  {
    RenderSuffixes(Esp32HeaderLines, fill);
  }

  lemma RenderPicoHeader(fill: Slot -> string)
    ensures Render(PicoHeaderLines, fill)
         == "# Raspberry Pi Pico WH Basic Sensor Code - Generated on " + fill(Timestamp) + "\n# Device: "
            + fill(DeviceName) + "\n"
  {
    RenderSuffixes(PicoHeaderLines, fill);
  }

  lemma RenderEsp32Pins(fill: Slot -> string)
    ensures Render(Esp32PinLines, fill)
         == "\nLED_PIN = " + fill(LedPin) + "\nTEMP_PIN = " + fill(TempPin) + "\nLIGHT_PIN = " + fill(LightPin) + "\n"
  {
    RenderSuffixes(Esp32PinLines, fill);
  }

  /** The docstring line holds a triple-quoted string. */
  lemma DocstringQuotes()
    ensures Contains(DocstringLine, WifiDocstring)
  {
    assert DocstringLine + "" == DocstringLine;
    ContainsMiddle("\n        ", WifiDocstring, "");
  }

  lemma RenderText(t: string, fill: Slot -> string)
    ensures Render([Text(t)], fill) == t
  {
    var one: seq<Piece<Slot>> := [Text(t)];
    assert one[1..] == [];
  }

  // What every filling of the ESP32 layout shows.

  lemma Esp32HeaderIn(b: Body, fill: Slot -> string)
    ensures "# ESP32 Basic Sensor Code - Generated on " + fill(Timestamp) + "\n# Device: " + fill(DeviceName) + "\n"
            <= Render(Esp32Frame(b), fill)
  {
    Esp32Shape(b);
    RenderPrefix(Esp32Frame(b), 5, fill);
    RenderEsp32Header(fill);
  }

  lemma Esp32ConfigurationIn(b: Body, fill: Slot -> string)
    ensures Contains(Render(Esp32Frame(b), fill),
              "\nDEVICE_NAME = \"" + fill(DeviceName) + "\"\nWIFI_SSID = \"" + fill(WifiSsid)
              + "\"\nWIFI_PASSWORD = \"" + fill(WifiPassword) + "\"")
  {
    Esp32Shape(b);
    RenderSlice(Esp32Frame(b), 6, 13, fill);
    RenderConfiguration(fill);
  }

  lemma Esp32PinsIn(b: Body, fill: Slot -> string)
    ensures Contains(Render(Esp32Frame(b), fill),
              "\nLED_PIN = " + fill(LedPin) + "\nTEMP_PIN = " + fill(TempPin) + "\nLIGHT_PIN = " + fill(LightPin) + "\n")
  {
    Esp32Shape(b);
    RenderSlice(Esp32Frame(b), 14, 21, fill);
    RenderEsp32Pins(fill);
  }

  lemma Esp32DocstringIn(b: Body, fill: Slot -> string)
    ensures Contains(Render(Esp32Frame(b), fill), WifiDocstring)
  {
    Esp32Shape(b);
    RenderSlice(Esp32Frame(b), 22, 23, fill);
    RenderText(DocstringLine, fill);
    DocstringQuotes();
    ContainsTrans(Render(Esp32Frame(b), fill), DocstringLine, WifiDocstring);
  }

  // What every filling of the Pico layout shows.

  lemma PicoHeaderIn(b: Body, fill: Slot -> string)
    ensures "# Raspberry Pi Pico WH Basic Sensor Code - Generated on " + fill(Timestamp) + "\n# Device: "
            + fill(DeviceName) + "\n" <= Render(PicoFrame(b), fill)
  {
    PicoShape(b);
    RenderPrefix(PicoFrame(b), 5, fill);
    RenderPicoHeader(fill);
  }

  lemma PicoConfigurationIn(b: Body, fill: Slot -> string)
    ensures Contains(Render(PicoFrame(b), fill),
              "\nDEVICE_NAME = \"" + fill(DeviceName) + "\"\nWIFI_SSID = \"" + fill(WifiSsid)
              + "\"\nWIFI_PASSWORD = \"" + fill(WifiPassword) + "\"")
  {
    PicoShape(b);
    RenderSlice(PicoFrame(b), 6, 13, fill);
    RenderConfiguration(fill);
  }

  lemma PicoPinsIn(b: Body, fill: Slot -> string)
    ensures Contains(Render(PicoFrame(b), fill), "\nLED_PIN = \"LED\"\nTEMP_PIN = 2\nLIGHT_PIN = 26\n")
  {
    PicoShape(b);
    RenderSlice(PicoFrame(b), 14, 15, fill);
    RenderText(PicoPinLines, fill);
  }

  lemma PicoDocstringIn(b: Body, fill: Slot -> string)
    ensures Contains(Render(PicoFrame(b), fill), WifiDocstring)
  {
    PicoShape(b);
    RenderSlice(PicoFrame(b), 16, 17, fill);
    RenderText(DocstringLine, fill);
    DocstringQuotes();
    ContainsTrans(Render(PicoFrame(b), fill), DocstringLine, WifiDocstring);
  }

  /** The Pico layout's only replacement fields are the time, the name, the SSID and the password. */
  lemma PicoHoles(b: Body, f: Slot -> string, g: Slot -> string)
    requires f(Timestamp) == g(Timestamp) && f(DeviceName) == g(DeviceName)
    requires f(WifiSsid) == g(WifiSsid) && f(WifiPassword) == g(WifiPassword)
    ensures Render(PicoFrame(b), f) == Render(PicoFrame(b), g)
  {
    forall i | 0 <= i < |PicoFrame(b)| && PicoFrame(b)[i].Hole?
      ensures PicoFrame(b)[i].slot in {Timestamp, DeviceName, WifiSsid, WifiPassword}
    {
    }
    RenderAgree(PicoFrame(b), f, g);
  }

  // The properties of the two templates, for a configuration and a generation time.

  /** The ESP32 text starts with the generation time and the device name (default `ESP32_Device`). */
  lemma Esp32Header(cfg: Config, stamp: string)
    ensures "# ESP32 Basic Sensor Code - Generated on " + stamp + "\n# Device: "
            + GetOr(cfg.deviceName, Esp32DefaultName) + "\n" <= Esp32BasicSensor(cfg, stamp)
  {
    Esp32HeaderIn(Esp32Body, Esp32Fill(cfg, stamp));
  }

  /** The ESP32 text assigns the device name, SSID and password, each defaulted as `.get` does. */
  lemma Esp32Configuration(cfg: Config, stamp: string)
    ensures Contains(Esp32BasicSensor(cfg, stamp),
              "\nDEVICE_NAME = \"" + GetOr(cfg.deviceName, Esp32DefaultName)
              + "\"\nWIFI_SSID = \"" + GetOr(cfg.wifiSsid, DefaultSsid)
              + "\"\nWIFI_PASSWORD = \"" + GetOr(cfg.wifiPassword, DefaultPassword) + "\"")
  {
    Esp32ConfigurationIn(Esp32Body, Esp32Fill(cfg, stamp));
  }

  /** The ESP32 pin lines show `led_pin`, `temperature_pin` and `light_pin` of the pin table. */
  lemma Esp32PinSetup(cfg: Config, stamp: string)
    ensures Contains(Esp32BasicSensor(cfg, stamp),
              "\nLED_PIN = " + RenderPin(LedPinOf(cfg))
              + "\nTEMP_PIN = " + RenderPin(TempPinOf(cfg))
              + "\nLIGHT_PIN = " + RenderPin(LightPinOf(cfg)) + "\n")
  {
    Esp32PinsIn(Esp32Body, Esp32Fill(cfg, stamp));
  }

  /**
   * Setting `led_pin` in the pin table changes the `LED_PIN` line to the new
   * pin and leaves the other two pin lines as they were; setting it to the pin
   * already in use leaves the whole text unchanged.
   */
  lemma Esp32SetLedPin(cfg: Config, v: PinValue, stamp: string)
    ensures var updated := cfg.(pinConfig := Some(PinsOf(cfg)["led_pin" := v]));
            Contains(Esp32BasicSensor(updated, stamp),
              "\nLED_PIN = " + RenderPin(v)
              + "\nTEMP_PIN = " + RenderPin(TempPinOf(cfg))
              + "\nLIGHT_PIN = " + RenderPin(LightPinOf(cfg)) + "\n")
    ensures LedPinOf(cfg) == v
        ==> Esp32BasicSensor(cfg.(pinConfig := Some(PinsOf(cfg)["led_pin" := v])), stamp) == Esp32BasicSensor(cfg, stamp)
  {
    var updated := cfg.(pinConfig := Some(PinsOf(cfg)["led_pin" := v]));
    PinOrSet(PinsOf(cfg), "led_pin", v, DefaultLedPin);
    PinOrOther(PinsOf(cfg), "led_pin", v, "temperature_pin", DefaultTempPin);
    PinOrOther(PinsOf(cfg), "led_pin", v, "light_pin", DefaultLightPin);
    Esp32PinSetup(updated, stamp);
    if LedPinOf(cfg) == v {
      Esp32DeterminedBy(updated, cfg, stamp);
    }
  }

  /** Without those three roles in the pin table (or without a table) the pins are 2, 4 and 32. */
  lemma Esp32DefaultPins(cfg: Config, stamp: string)
    requires "led_pin" !in PinsOf(cfg) && "temperature_pin" !in PinsOf(cfg) && "light_pin" !in PinsOf(cfg)
    ensures Contains(Esp32BasicSensor(cfg, stamp), "\nLED_PIN = 2\nTEMP_PIN = 4\nLIGHT_PIN = 32\n")
  {
    Esp32PinSetup(cfg, stamp);
    DefaultPinLines();
  }

  /** The default pins print as 2, 4 and 32. */
  lemma DefaultPinLines()
    ensures "\nLED_PIN = " + RenderPin(DefaultLedPin) + "\nTEMP_PIN = " + RenderPin(DefaultTempPin)
            + "\nLIGHT_PIN = " + RenderPin(DefaultLightPin) + "\n"
         == "\nLED_PIN = 2\nTEMP_PIN = 4\nLIGHT_PIN = 32\n"
  {
    LedPinText();
    TempPinText();
    LightPinText();
  }

  lemma LedPinText()
    ensures RenderPin(DefaultLedPin) == "2"
  {
  }

  lemma TempPinText()
    ensures RenderPin(DefaultTempPin) == "4"
  {
  }

  lemma LightPinText()
    ensures RenderPin(DefaultLightPin) == "32"
  {
    assert Decimal.NatToString(32) == Decimal.NatToString(3) + [Decimal.DigitChar(2)];
  }

  /**
   * The ESP32 text is a function of the time, the device name, SSID and
   * password, and the three pins: nothing else of the configuration matters.
   */
  lemma Esp32DeterminedBy(c1: Config, c2: Config, stamp: string)
    requires GetOr(c1.deviceName, Esp32DefaultName) == GetOr(c2.deviceName, Esp32DefaultName)
    requires GetOr(c1.wifiSsid, DefaultSsid) == GetOr(c2.wifiSsid, DefaultSsid)
    requires GetOr(c1.wifiPassword, DefaultPassword) == GetOr(c2.wifiPassword, DefaultPassword)
    requires LedPinOf(c1) == LedPinOf(c2) && TempPinOf(c1) == TempPinOf(c2) && LightPinOf(c1) == LightPinOf(c2)
    ensures Esp32BasicSensor(c1, stamp) == Esp32BasicSensor(c2, stamp)
  {
    var f, g := Esp32Fill(c1, stamp), Esp32Fill(c2, stamp);
    forall s: Slot ensures f(s) == g(s) {}
    RenderAgree(Esp32Frame(Esp32Body), f, g);
  }

  /** The Pico text starts with the generation time and the device name (default `PICO_Device`). */
  lemma PicoHeader(cfg: Config, stamp: string)
    ensures "# Raspberry Pi Pico WH Basic Sensor Code - Generated on " + stamp + "\n# Device: "
            + GetOr(cfg.deviceName, PicoDefaultName) + "\n" <= PicoBasicSensor(cfg, stamp)
  {
    PicoHeaderIn(PicoBody, PicoFill(cfg, stamp));
  }

  /** The Pico text assigns the device name, SSID and password, each defaulted as `.get` does. */
  lemma PicoConfiguration(cfg: Config, stamp: string)
    ensures Contains(PicoBasicSensor(cfg, stamp),
              "\nDEVICE_NAME = \"" + GetOr(cfg.deviceName, PicoDefaultName)
              + "\"\nWIFI_SSID = \"" + GetOr(cfg.wifiSsid, DefaultSsid)
              + "\"\nWIFI_PASSWORD = \"" + GetOr(cfg.wifiPassword, DefaultPassword) + "\"")
  {
    PicoConfigurationIn(PicoBody, PicoFill(cfg, stamp));
  }

  /** The Pico pin lines are fixed: the on-board LED, pin 2 and pin 26. */
  lemma PicoPinSetup(cfg: Config, stamp: string)
    ensures Contains(PicoBasicSensor(cfg, stamp), "\nLED_PIN = \"LED\"\nTEMP_PIN = 2\nLIGHT_PIN = 26\n")
  {
    PicoPinsIn(PicoBody, PicoFill(cfg, stamp));
  }

  /** The Pico text is a function of the time, the device name, SSID and password only. */
  lemma PicoDeterminedBy(c1: Config, c2: Config, stamp: string)
    requires GetOr(c1.deviceName, PicoDefaultName) == GetOr(c2.deviceName, PicoDefaultName)
    requires GetOr(c1.wifiSsid, DefaultSsid) == GetOr(c2.wifiSsid, DefaultSsid)
    requires GetOr(c1.wifiPassword, DefaultPassword) == GetOr(c2.wifiPassword, DefaultPassword)
    ensures PicoBasicSensor(c1, stamp) == PicoBasicSensor(c2, stamp)
  {
    PicoHoles(PicoBody, PicoFill(c1, stamp), PicoFill(c2, stamp));
  }

  /** In particular the Pico text does not depend on the pin table at all. */
  lemma PicoIgnoresPinConfig(cfg: Config, pins: Option<PinConfig>, stamp: string)
    ensures PicoBasicSensor(cfg.(pinConfig := pins), stamp) == PicoBasicSensor(cfg, stamp)
  {
    PicoDeterminedBy(cfg.(pinConfig := pins), cfg, stamp);
  }

  /** Both firmware texts hold a triple-quoted docstring, in `connect_wifi`. */
  lemma FirmwareHasTripleQuotes(cfg: Config, stamp: string)
    ensures Contains(Esp32BasicSensor(cfg, stamp), WifiDocstring)
    ensures Contains(PicoBasicSensor(cfg, stamp), WifiDocstring)
  {
    Esp32DocstringIn(Esp32Body, Esp32Fill(cfg, stamp));
    PicoDocstringIn(PicoBody, PicoFill(cfg, stamp));
  }

  /** The ESP32 text names the device in its header line and in its `DEVICE_NAME` assignment. */
  lemma Esp32NamesDevice(cfg: Config, stamp: string)
    ensures var name := GetOr(cfg.deviceName, Esp32DefaultName);
            Contains(Esp32BasicSensor(cfg, stamp), "\n# Device: " + name + "\n")
            && Contains(Esp32BasicSensor(cfg, stamp), "\nDEVICE_NAME = \"" + name + "\"")
  {
    Esp32Header(cfg, stamp);
    Esp32Configuration(cfg, stamp);
    NamedTwice(Esp32BasicSensor(cfg, stamp), "# ESP32 Basic Sensor Code - Generated on " + stamp,
      GetOr(cfg.deviceName, Esp32DefaultName), GetOr(cfg.wifiSsid, DefaultSsid), GetOr(cfg.wifiPassword, DefaultPassword));
  }

  /** The Pico text names the device in its header line and in its `DEVICE_NAME` assignment. */
  lemma PicoNamesDevice(cfg: Config, stamp: string)
    ensures var name := GetOr(cfg.deviceName, PicoDefaultName);
            Contains(PicoBasicSensor(cfg, stamp), "\n# Device: " + name + "\n")
            && Contains(PicoBasicSensor(cfg, stamp), "\nDEVICE_NAME = \"" + name + "\"")
  {
    PicoHeader(cfg, stamp);
    PicoConfiguration(cfg, stamp);
    NamedTwice(PicoBasicSensor(cfg, stamp), "# Raspberry Pi Pico WH Basic Sensor Code - Generated on " + stamp,
      GetOr(cfg.deviceName, PicoDefaultName), GetOr(cfg.wifiSsid, DefaultSsid), GetOr(cfg.wifiPassword, DefaultPassword));
  }

  /** The header line and the configuration lines each name the device. */
  lemma NamedTwice(text: string, title: string, name: string, ssid: string, password: string)
    requires title + "\n# Device: " + name + "\n" <= text
    requires Contains(text, "\nDEVICE_NAME = \"" + name + "\"\nWIFI_SSID = \"" + ssid
                            + "\"\nWIFI_PASSWORD = \"" + password + "\"")
    ensures Contains(text, "\n# Device: " + name + "\n")
    ensures Contains(text, "\nDEVICE_NAME = \"" + name + "\"")
  {
    HeaderSplit(title, name);
    PrefixContains(text, title + ("\n# Device: " + name + "\n") + "");
    ContainsPart(text, title, "\n# Device: " + name + "\n", "");
    ConfigurationSplit(name, ssid, password);
    ContainsPart(text, "", "\nDEVICE_NAME = \"" + name + "\"",
      "\nWIFI_SSID = \"" + ssid + "\"\nWIFI_PASSWORD = \"" + password + "\"");
  }

  lemma HeaderSplit(title: string, name: string)
    ensures title + "\n# Device: " + name + "\n" == title + ("\n# Device: " + name + "\n") + ""
  {
  }

  lemma ConfigurationSplit(name: string, ssid: string, password: string)
    ensures "\nDEVICE_NAME = \"" + name + "\"\nWIFI_SSID = \"" + ssid + "\"\nWIFI_PASSWORD = \"" + password + "\""
         == "" + ("\nDEVICE_NAME = \"" + name + "\"")
            + ("\nWIFI_SSID = \"" + ssid + "\"\nWIFI_PASSWORD = \"" + password + "\"")
  {
    var q := "\"";
    assert "\"\nWIFI_SSID = \"" == q + "\nWIFI_SSID = \"";
  }
}
