# Firmware code generator, modelled in Dafny

This project models `CodeGenerator` from `code_generator.py`. It generates MicroPython firmware for ESP32 and
Raspberry Pi Pico WH boards from a device configuration, and it generates a Python script that uploads such
firmware to a board. The generator is a total, side-effect-free map from a configuration to text, so the model
is made of datatypes, functions and lemmas. There are no classes: the template table is built once and never
changed.

- `Options`: `Option` and `GetOr`, which models `dict.get(key, default)`.
- `Decimal`: how `str()` prints an integer, and a parser that reads it back.
- `DeviceConfig`: the configuration.
  - Each of `device_type`, `device_name`, `wifi_ssid`, `wifi_password` and `pin_config` may be absent.
  - `pin_config` maps a role (`led_pin`, ...) to a pin, which is a number or a name.
- `Template`: an f-string as data. It is a sequence of literal `Text` pieces and replacement-field `Hole`
  pieces. `Render` concatenates the pieces. Lemmas about `Render` cover concatenation, slices, prefixes and
  containment.
- `Firmware`: the two firmware f-strings, `esp32_basic_sensor_template` and `pico_basic_sensor_template`.
  - Their literal text is kept verbatim.
  - The four alias templates are also here.
- `CodeGenerator`: the template table and `generate_code`.
- `PythonLiteral`: how Python reads the body of a `"""..."""` literal, and an escaping function that
  survives that reading.
- `Uploader`: `generate_python_uploader`, and what Python makes of the `DEVICE_CODE` literal in its output.

The generation time, which the source reads from the clock, is an explicit `stamp` argument. With it, every
generated text is a function of the configuration alone.

Where the design description of the system and the code disagree, the model follows the code:

- The design asks for a per-family fallback template. In the code, every lookup miss falls back to the ESP32
  basic-sensor template, even for `PICO_WH`.
- The design asks for the firmware to be embedded in the uploader escape-safe and to round-trip. The code
  pastes the firmware unescaped; see Findings.

## Model

| member | source | states |
|---|---|---|
| `DeviceConfig.PinOrSet` | code_generator.py:40-42 | After a role is set in the pin table, looking that role up gives the new pin, whatever the default. |
| `DeviceConfig.PinOrOther` | code_generator.py:40-42 | Setting one role in the pin table leaves the lookup of every other role as it was. |
| `DeviceConfig.NumericPinReadsBack` | code_generator.py:62-64 | A numeric pin prints as a numeral that parses back to the same integer. For a pin that is not negative, the numeral is all digits. |
| `Decimal.IntRoundTrip` | code_generator.py:62-64 | The integer printing used for pin fields is inverted by the parser, for every integer. |
| `Firmware.Esp32Header` | code_generator.py:44-45 | The ESP32 text starts with the title, the generation time and `# Device: <name>`. The name defaults to `ESP32_Device`. |
| `Firmware.Esp32Configuration` | code_generator.py:35-37 | The ESP32 text contains the `DEVICE_NAME`, `WIFI_SSID` and `WIFI_PASSWORD` assignments, in that order. Each value is the configured one or its default (`ESP32_Device`, `YOUR_WIFI_SSID`, `YOUR_WIFI_PASSWORD`). |
| `Firmware.Esp32PinSetup` | code_generator.py:38-42 | The ESP32 text contains `LED_PIN`, `TEMP_PIN` and `LIGHT_PIN` lines. They print the pin table's `led_pin`, `temperature_pin` and `light_pin`. |
| `Firmware.Esp32DefaultPins` | code_generator.py:40-42 | With none of those roles in the table, or with no table at all, the pin lines read 2, 4 and 32. |
| `Firmware.Esp32SetLedPin` | code_generator.py:38-42 | Setting only `led_pin` in the pin table makes the `LED_PIN` line print the new pin. The `TEMP_PIN` and `LIGHT_PIN` lines keep their pins. Setting `led_pin` to the pin it already gives leaves the whole text unchanged. |
| `Firmware.Esp32DeterminedBy` | code_generator.py:33-44 | Two configurations that agree on the defaulted name, SSID, password and three pins give the same ESP32 text. |
| `Firmware.Esp32NamesDevice` | code_generator.py:56 | The ESP32 text names the device both in its `# Device:` line and in `DEVICE_NAME = "<name>"`. |
| `Firmware.PicoHeader` | code_generator.py:167-168 | The Pico text starts with its title, the generation time and `# Device: <name>`. The name defaults to `PICO_Device`. |
| `Firmware.PicoConfiguration` | code_generator.py:163-165 | The Pico text contains the three assignments, with the configured values or their defaults. |
| `Firmware.PicoPinSetup` | code_generator.py:185-187 | The Pico pin lines are always `LED_PIN = "LED"`, `TEMP_PIN = 2` and `LIGHT_PIN = 26`. |
| `Firmware.PicoDeterminedBy` | code_generator.py:161-167 | The Pico text depends only on the defaulted name, SSID and password and on the time. |
| `Firmware.PicoIgnoresPinConfig` | code_generator.py:161-187 | Replacing the pin table, or removing it, never changes the Pico text. |
| `Firmware.PicoNamesDevice` | code_generator.py:179 | The Pico text names the device in its `# Device:` line and in `DEVICE_NAME`. |
| `Firmware.FirmwareHasTripleQuotes` | code_generator.py:78 | Both firmware texts contain the docstring `"""Connect to WiFi"""`. It is at line 78 for the ESP32 and line 200 for the Pico. |
| `CodeGenerator.TableEntries` | code_generator.py:11-22 | The table has exactly the families `ESP32` and `PICO_WH`. Each family has exactly the three names `basic_sensor`, `advanced_iot` and `relay_control`, bound to the template of that name. |
| `CodeGenerator.ResolveCases` | code_generator.py:28-31 | The lookup gives a Pico template if and only if the family is `PICO_WH` and the name is registered. Any pair outside the table gives the ESP32 basic template. |
| `CodeGenerator.AliasTemplatesMatchBasic` | code_generator.py:284-298 | `advanced_iot` and `relay_control` give the same text as `basic_sensor` of their family. |
| `CodeGenerator.GenerateCodeResult` | code_generator.py:24-31 | For every configuration and name: `PICO_WH` with a registered name gives the Pico basic text. Everything else, including `PICO_WH` with an unknown name, gives the ESP32 basic text. |
| `CodeGenerator.MissingTypeIsEsp32Basic` | code_generator.py:24-26 | With no `device_type` and the default template name, the result is the ESP32 basic text. |
| `CodeGenerator.UnknownPicoTemplateIsEsp32` | code_generator.py:28-31 | A `PICO_WH` configuration with an unregistered name falls back to the ESP32 text, not to a Pico one. |
| `CodeGenerator.GenerateCodeNamesDevice` | code_generator.py:24-31 | Whatever the dispatch picks, the text names the device in both places. The default name is the one of the family picked. |
| `Uploader.EmbedsCodeVerbatim` | code_generator.py:328 | The uploader is its head, then the code unchanged and unescaped, then `"""` and the rest of the script. The head does not depend on the code. |
| `Uploader.HeadOpensLiteral` | code_generator.py:328 | The head ends with `DEVICE_CODE = """`. |
| `Uploader.ExtractRoundTrip` | code_generator.py:328 | Cutting the head and the closing part off the uploader gives back exactly the code that was put in. |
| `Uploader.UploaderTitle` | code_generator.py:305-308 | The script starts with the interpreter line and a docstring title. The title holds the device type, the name and the time. |
| `Uploader.UploaderConfiguration` | code_generator.py:302-303 | The script contains `DEVICE_TYPE = "<type>"` and `DEVICE_NAME = "<name>"`, with the defaults `ESP32` and `Device`. |
| `Uploader.ReadsPastedCode` | code_generator.py:328 | Python reads `DEVICE_CODE` starting at the first character of the pasted code. |
| `Uploader.PlainCodeReadsBack` | code_generator.py:328 | As written, the literal reads back exactly as the code when the code has no backslash, double quote, carriage return or NUL. |
| `Uploader.TripleQuoteCutsCode` | code_generator.py:328 | As written, a `"""` in the code with no backslash before it ends the literal early. The value Python reads is then not the code. |
| `Uploader.DocstringClosesDeviceCode` | code_generator.py:328 | As written, for a code that is exactly the docstring `"""Connect to WiFi"""` (line 78), `DEVICE_CODE` reads as empty. The script then continues with the bare words `Connect to WiFi`. |
| `Uploader.BackslashEscapeIsDecoded` | code_generator.py:91 | As written, for a code that is exactly the two characters backslash and `n` (as in the message at line 91), `DEVICE_CODE` reads as one newline. |
| `CodeGenerator.GenerateCodeHasDocstring` | code_generator.py:24-31 | Every text `generate_code` returns holds the docstring `"""Connect to WiFi"""`. |
| `Uploader.GeneratedCodeIsCut` | code_generator.py:328 | Every text `generate_code` returns holds the docstring `"""Connect to WiFi"""`. At every `"""` in that text with no backslash before it, the uploader as written does not read the text back. |
| `Uploader.EscapedUploaderRoundTrip` | code_generator.py:328 | With the code escaped, Python reads back exactly the code, for every code, and the script after the literal is unchanged. |
| `Uploader.EscapedMatchesPlain` | code_generator.py:328 | For code that needs no escaping, the escaped uploader is identical to the one as written. |
| `PythonLiteral.EscapeRoundTrip` | code_generator.py:328 | Reading `Escape(code)` followed by `"""` gives back `code` and the text after the quotes. |
| `PythonLiteral.ReadStopsAtTripleQuote` | code_generator.py:328 | The value read from a triple-quoted literal is no longer than the text before any `"""` that no backslash precedes. |
| `PythonLiteral.ReadsToTripleQuote` | code_generator.py:328 | A triple-quoted literal ends at its first `"""` when no backslash, carriage return or NUL comes before it. Its value is exactly the text before the quotes, and reading goes on right after them. |

## Left out

- `database.py`, `setup_device_tables.py`, `app.py`, `config.py` and `test_app.py` are not part of this model. They are storage, HTTP routing and settings.
- The generation time's format (`strftime('%Y-%m-%d %H:%M:%S')`) is not modelled. The time is any string passed in as `stamp`.
- What the generated firmware and uploader scripts do when they run is not modelled. Their fixed text is kept verbatim, as opaque literal text.
- Configuration values are modelled as strings, standing for the text `str()` gives them. A `pin_config` that is present but not a dictionary would make the source raise; it is not modelled.
- Pins are numbers or names. Any other pin value is not modelled.
- `generate_code` with a `device_type` that is not a string is not modelled.
- `Uploader.ReadsPastedCode`: the model assumes that Python reads the script's head as it is written. That fails when the device type, the device name or the time holds a `"`, a backslash, a carriage return or a newline. These are pasted unescaped into the docstring title (code_generator.py:307-308) and into the `"..."` literals (code_generator.py:323-324). A name like `a"b` then makes the script a syntax error. `Uploader.PlainCodeReadsBack`, `Uploader.EscapedUploaderRoundTrip`, `Uploader.GeneratedCodeIsCut` and the other read-back lemmas rest on this assumption.
- `Uploader.GeneratedCodeIsCut`: the model does not prove that no backslash comes before the docstring in the generated firmware. The lemma therefore states the cut for every `"""` with no backslash before it, but it does not name an index in the generated text where that condition is proved. The fixed firmware text is too long for a character-by-character proof.
- `PythonLiteral.ReadTripleQuoted`: some features of Python's reader are not modelled.
  - It does not model the `\x`, `\N`, `\u` and `\U` escapes, or a raw carriage return or NUL. For these it gives `None`.
  - It does not model the newline translation of the source file.
  - None of these occur in what `Escape` produces.

## Findings

| source | as written | input that shows it | evidently intended | confidence | as-written member | corrected member |
|---|---|---|---|---|---|---|
| code_generator.py:328 | The firmware is pasted between `"""` and `"""` unescaped. | The code `"""Connect to WiFi"""`, the docstring both firmware texts hold (lines 78 and 200): `DEVICE_CODE` reads as empty and the script goes on with bare words. Every generated firmware holds it, so its opening quotes end the literal unless a backslash comes before them. The code backslash-`n` (as at line 91) reads as one newline. | The uploader carries the firmware byte for byte, so the firmware text needs escaping first. | high; not executed | `Uploader.DocstringClosesDeviceCode` | `Uploader.EscapedUploaderRoundTrip` |
