/**
 * `generate_python_uploader`: a Python script that carries a firmware text in
 * its `DEVICE_CODE` constant and copies it to the board. The script is one
 * f-string; the firmware text is pasted between `"""` and `"""` exactly as it
 * is. The generation time, read from the clock in the source, is the `stamp`
 * argument.
 */
module Uploader {
  import opened Options
  import opened Template
  import opened DeviceConfig
  import opened PythonLiteral
  import Firmware
  import CodeGenerator

  /** The replacement fields of the uploader script. */
  datatype Field = DeviceType | DeviceName | Timestamp | DeviceCode

  /**
   * The uploader defaults the device name to `Device`; its device type
   * defaults to `ESP32`, as in `generate_code` (`CodeGenerator.DefaultDeviceType`).
   */
  const DefaultDeviceName := "Device"

  /** The interpreter line and the start of the module docstring. */
  const TitleStart: string := "#!/usr/bin/env python3\n" + TripleQuote + "\nDevice Code Uploader for "

  /** The docstring's title: device type and name, then the generation time. */
  const TitleLines: seq<Piece<Field>> := [
    Text(TitleStart), Hole(DeviceType),
    Text(" - "), Hole(DeviceName),
    Text("\nGenerated on "), Hole(Timestamp)]

  /** The lines that record the device for the script, before the firmware text. */
  const DeviceRecordLines: seq<Piece<Field>> := [
    Text("\nDEVICE_TYPE = \""), Hole(DeviceType),
    Text("\"\nDEVICE_NAME = \""), Hole(DeviceName),
    Text("\"")]

  const BaudLines: string := "\nBAUD_RATE = 115200\n\n# Device code to upload"

  /** The assignment that opens the firmware literal. */
  const OpeningLine: string := "\nDEVICE_CODE = " + TripleQuote

  /** The rest of the docstring (requirements and usage) and the imports. */
  const Preamble: string :=
    "\n"
      + "\n"
      + "Requirements:\n"
      + "    pip install esptool ampy pyserial\n"
      + "\n"
      + "Usage:\n"
      + "    python uploader.py [PORT]\n"
      + TripleQuote + "\n"
      + "\n"
      + "import os\n"
      + "import sys\n"
      + "import subprocess\n"
      + "import time\n"
      + "\n"
      + "# Configuration"

  /** The script after the firmware literal's closing quotes: port discovery, upload and `main`. */
  const AfterDeviceCode: string :=
    "\n"
    + "\n"
    + "def find_device_port():\n"
    + "    \"\"\"Find device port automatically\"\"\"\n"
    + "    import serial.tools.list_ports\n"
    + "    \n"
    + "    ports = serial.tools.list_ports.comports()\n"
    + "    for port in ports:\n"
    + "        if any(vid in port.hwid.upper() for vid in ['10C4:EA60', '1A86:7523']):\n"
    + "            print(f\"Found device on: {port.device}\")\n"
    + "            return port.device\n"
    + "    \n"
    + "    # Common ports\n"
    + "    common_ports = ['/dev/cu.usbserial-0001', '/dev/ttyUSB0', 'COM3']\n"
    + "    for port in common_ports:\n"
    + "        try:\n"
    + "            import serial\n"
    + "            ser = serial.Serial(port, BAUD_RATE, timeout=1)\n"
    + "            ser.close()\n"
    + "            return port\n"
    + "        except:\n"
    + "            continue\n"
    + "    \n"
    + "    return None\n"
    + "\n"
    + "def upload_code(port):\n"
    + "    \"\"\"Upload code to device\"\"\"\n"
    + "    print(f\"Uploading to {port}...\")\n"
    + "    \n"
    + "    # Write code to file\n"
    + "    with open('main.py', 'w') as f:\n"
    + "        f.write(DEVICE_CODE)\n"
    + "    \n"
    + "    # Upload using ampy\n"
    + "    try:\n"
    + "        cmd = f\"ampy --port {port} --baud {BAUD_RATE} put main.py\"\n"
    + "        result = subprocess.run(cmd.split(), capture_output=True, text=True)\n"
    + "        \n"
    + "        if result.returncode == 0:\n"
    + "            print(\"\U{2713} Code uploaded successfully!\")\n"
    + "            return True\n"
    + "        else:\n"
    + "            print(f\"\U{2717} Upload failed: {result.stderr}\")\n"
    + "            return False\n"
    + "    except Exception as e:\n"
    + "        print(f\"\U{2717} Upload error: {e}\")\n"
    + "        return False\n"
    + "\n"
    + "def main():\n"
    + "    port = sys.argv[1] if len(sys.argv) > 1 else find_device_port()\n"
    + "    \n"
    + "    if not port:\n"
    + "        port = input(\"Enter device port: \")\n"
    + "    \n"
    + "    if port and upload_code(port):\n"
    + "        print(f\"{DEVICE_NAME} is ready!\")\n"
    + "    else:\n"
    + "        print(\"Upload failed!\")\n"
    + "\n"
    + "if __name__ == \"__main__\":\n"
    + "    main()\n"

  /** Everything up to the opening quotes of the firmware literal. */
  function HeadFrame(preamble: string): (frame: seq<Piece<Field>>)
  {
    TitleLines + [Text(preamble)] + DeviceRecordLines + [Text(BaudLines), Text(OpeningLine)]
  }

  /** The f-string of `generate_python_uploader`, around its long fixed texts. */
  function UploaderFrame(preamble: string, rest: string): (frame: seq<Piece<Field>>)
  {
    HeadFrame(preamble) + [Hole(DeviceCode), Text(TripleQuote + rest)]
  }

  /** The value of a field: each key read with `.get` and its default. */
  function ScriptFieldText(cfg: Config, code: string, stamp: string, f: Field): (text: string)
  {
    match f
    case DeviceType => GetOr(cfg.deviceType, CodeGenerator.DefaultDeviceType)
    case DeviceName => GetOr(cfg.deviceName, DefaultDeviceName)
    case Timestamp => stamp
    case DeviceCode => code
  }

  function UploaderFill(cfg: Config, code: string, stamp: string): (fill: Field -> string)
  {
    f => ScriptFieldText(cfg, code, stamp, f)
  }

  function GeneratePythonUploader(cfg: Config, code: string, stamp: string): (script: string)
  {
    Render(UploaderFrame(Preamble, AfterDeviceCode), UploaderFill(cfg, code, stamp))
  }

  /** The script up to and including the quotes that open `DEVICE_CODE`; it does not depend on the code. */
  function UploaderHead(cfg: Config, stamp: string): (head: string)
  {
    Render(HeadFrame(Preamble), UploaderFill(cfg, "", stamp))
  }

  // Shape of the layout, for any fixed texts.

  lemma HeadShape(preamble: string)
    ensures |HeadFrame(preamble)| == 14
    ensures HeadFrame(preamble)[..6] == TitleLines && HeadFrame(preamble)[7..12] == DeviceRecordLines
    ensures HeadFrame(preamble)[13..] == [Text(OpeningLine)]
    ensures forall i | 0 <= i < 14 && HeadFrame(preamble)[i].Hole? :: HeadFrame(preamble)[i].slot != DeviceCode
  {
  }

  lemma RenderTitle(fill: Field -> string)
    ensures Render(TitleLines, fill)
         == TitleStart + fill(DeviceType)
            + " - " + fill(DeviceName) + "\nGenerated on " + fill(Timestamp)
  {
    RenderAlternating(TitleStart, DeviceType, " - ", DeviceName, "\nGenerated on ", Timestamp, fill);
  }

  lemma RenderDeviceRecord(fill: Field -> string)
    ensures Render(DeviceRecordLines, fill)
         == "\nDEVICE_TYPE = \"" + fill(DeviceType) + "\"\nDEVICE_NAME = \"" + fill(DeviceName) + "\""
  {
    RenderSuffixes(DeviceRecordLines, fill);
  }

  /** The script is its head, the code, the closing quotes and the rest, in that order. */
  lemma FrameSplit(preamble: string, rest: string, fill: Field -> string)
    ensures Render(UploaderFrame(preamble, rest), fill)
         == Render(HeadFrame(preamble), fill) + fill(DeviceCode) + TripleQuote + rest
  {
    RenderFieldThenText(HeadFrame(preamble), DeviceCode, TripleQuote + rest, fill);
  }

  /** The head ends with the quotes that open the firmware literal. */
  lemma HeadEndsWithOpening(preamble: string, fill: Field -> string)
    ensures |Render(HeadFrame(preamble), fill)| >= |OpeningLine|
    ensures Render(HeadFrame(preamble), fill)[|Render(HeadFrame(preamble), fill)| - |OpeningLine|..] == OpeningLine
  {
    HeadShape(preamble);
    var h := HeadFrame(preamble);
    assert h == h[..13] + [Text(OpeningLine)];
    RenderAppend(h[..13], [Text(OpeningLine)], fill);
    RenderSuffixes([Text(OpeningLine)], fill);
  }

  /** The head does not depend on the code. */
  lemma HeadIgnoresCode(preamble: string, cfg: Config, code: string, stamp: string)
    ensures Render(HeadFrame(preamble), UploaderFill(cfg, code, stamp))
         == Render(HeadFrame(preamble), UploaderFill(cfg, "", stamp))
  {
    HeadShape(preamble);
    RenderAgree(HeadFrame(preamble), UploaderFill(cfg, code, stamp), UploaderFill(cfg, "", stamp));
  }

  /** The script is the code-free head, the code, the closing quotes and the rest. */
  lemma EmbedsIn(preamble: string, rest: string, cfg: Config, code: string, stamp: string)
    ensures Render(UploaderFrame(preamble, rest), UploaderFill(cfg, code, stamp))
         == Render(HeadFrame(preamble), UploaderFill(cfg, "", stamp)) + code + TripleQuote + rest
  {
    FrameSplit(preamble, rest, UploaderFill(cfg, code, stamp));
    HeadIgnoresCode(preamble, cfg, code, stamp);
  }

  lemma TitleIn(preamble: string, rest: string, fill: Field -> string)
    ensures Render(TitleLines, fill) <= Render(UploaderFrame(preamble, rest), fill)
  {
    HeadShape(preamble);
    FrameSplit(preamble, rest, fill);
    RenderPrefix(HeadFrame(preamble), 6, fill);
  }

  /** The second of four parts, cut out by the lengths of the parts around it. */
  lemma MiddleSlice(a: string, b: string, c: string, d: string)
    ensures Between(a + b + c + d, |a|, |c + d|) == b
  {
    assert a + b + c + d == a + b + (c + d);
  }

  // What the uploader script says.

  /**
   * The firmware text is pasted between the quotes unchanged and unescaped:
   * the script is the head, the code, `"""` and the rest of the script.
   */
  lemma EmbedsCodeVerbatim(cfg: Config, code: string, stamp: string)
    ensures GeneratePythonUploader(cfg, code, stamp) == UploaderHead(cfg, stamp) + code + TripleQuote + AfterDeviceCode
  {
    EmbedsIn(Preamble, AfterDeviceCode, cfg, code, stamp);
  }

  /** The head ends with `DEVICE_CODE = """`: the code starts right after the opening quotes. */
  lemma HeadOpensLiteral(cfg: Config, stamp: string)
    ensures |UploaderHead(cfg, stamp)| >= |OpeningLine|
    ensures UploaderHead(cfg, stamp)[|UploaderHead(cfg, stamp)| - |OpeningLine|..] == OpeningLine
  {
    HeadEndsWithOpening(Preamble, UploaderFill(cfg, "", stamp));
  }

  /** The text between the head and the closing part: what the script carries as code. */
  function ExtractDeviceCode(script: string, cfg: Config, stamp: string): (code: string)
  {
    Between(script, |UploaderHead(cfg, stamp)|, |TripleQuote + AfterDeviceCode|)
  }

  /** What lies between the first `front` and the last `back` characters of a text. */
  function Between(text: string, front: nat, back: nat): (middle: string)
  {
    if front <= |text| - back then text[front..|text| - back] else ""
  }

  /** Taking the code back out of the script gives exactly the code put in. */
  lemma ExtractRoundTrip(cfg: Config, code: string, stamp: string)
    ensures ExtractDeviceCode(GeneratePythonUploader(cfg, code, stamp), cfg, stamp) == code
  {
    EmbedsCodeVerbatim(cfg, code, stamp);
    MiddleSlice(UploaderHead(cfg, stamp), code, TripleQuote, AfterDeviceCode);
  }

  /** The script starts with its docstring title: the device type and name, then the time. */
  lemma UploaderTitle(cfg: Config, code: string, stamp: string)
    ensures TitleStart + GetOr(cfg.deviceType, CodeGenerator.DefaultDeviceType) + " - " + GetOr(cfg.deviceName, DefaultDeviceName)
            + "\nGenerated on " + stamp <= GeneratePythonUploader(cfg, code, stamp)
  {
    var fill := UploaderFill(cfg, code, stamp);
    TitleIn(Preamble, AfterDeviceCode, fill);
    RenderTitle(fill);
  }

  /** The script records the device type and name, defaulting to `ESP32` and `Device`. */
  lemma UploaderConfiguration(cfg: Config, code: string, stamp: string)
    ensures Contains(GeneratePythonUploader(cfg, code, stamp),
              "\nDEVICE_TYPE = \"" + GetOr(cfg.deviceType, CodeGenerator.DefaultDeviceType)
              + "\"\nDEVICE_NAME = \"" + GetOr(cfg.deviceName, DefaultDeviceName) + "\"")
  {
    var fill := UploaderFill(cfg, code, stamp);
    DeviceRecordIn(Preamble, AfterDeviceCode, fill);
  }

  lemma DeviceRecordIn(preamble: string, rest: string, fill: Field -> string)
    ensures Contains(Render(UploaderFrame(preamble, rest), fill),
              "\nDEVICE_TYPE = \"" + fill(DeviceType) + "\"\nDEVICE_NAME = \"" + fill(DeviceName) + "\"")
  {
    HeadShape(preamble);
    var frame := UploaderFrame(preamble, rest);
    assert frame[7..12] == DeviceRecordLines;
    RenderSlice(frame, 7, 12, fill);
    RenderDeviceRecord(fill);
  }

  // How Python reads the firmware literal of the script.

  /** The value Python gives the literal that the head opens, and the script text after it. */
  function ReadDeviceCode(script: string, cfg: Config, stamp: string): (read: Option<(string, string)>)
  {
    ReadTripleQuoted(Between(script, |UploaderHead(cfg, stamp)|, 0))
  }

  lemma AfterFirst(a: string, b: string, c: string, d: string)
    ensures Between(a + b + c + d, |a|, 0) == b + c + d
  {
    assert a + b + c + d == a + (b + c + d);
  }

  /** Python starts reading `DEVICE_CODE` at the first character of the pasted code. */
  lemma ReadsPastedCode(cfg: Config, code: string, stamp: string)
    ensures ReadDeviceCode(GeneratePythonUploader(cfg, code, stamp), cfg, stamp)
         == ReadTripleQuoted(code + TripleQuote + AfterDeviceCode)
  {
    EmbedsCodeVerbatim(cfg, code, stamp);
    AfterFirst(UploaderHead(cfg, stamp), code, TripleQuote, AfterDeviceCode);
  }

  /**
   * As written, the script carries a code faithfully when the code has no
   * backslash, double quote, carriage return or NUL.
   */
  lemma PlainCodeReadsBack(cfg: Config, code: string, stamp: string)
    requires forall k | 0 <= k < |code| :: !NeedsEscape(code[k])
    ensures ReadDeviceCode(GeneratePythonUploader(cfg, code, stamp), cfg, stamp) == Some((code, AfterDeviceCode))
  {
    ReadsPastedCode(cfg, code, stamp);
    EscapePlain(code);
    EscapeRoundTrip(code, AfterDeviceCode);
  }

  /**
   * As written, a `"""` inside the code that no backslash precedes ends the
   * literal early: Python's `DEVICE_CODE` is not the code.
   */
  lemma TripleQuoteCutsCode(cfg: Config, code: string, stamp: string, k: nat)
    requires OccursAt(code, TripleQuote, k)
    requires forall j | 0 <= j < k :: code[j] != '\\'
    ensures ReadDeviceCode(GeneratePythonUploader(cfg, code, stamp), cfg, stamp).Some?
        ==> ReadDeviceCode(GeneratePythonUploader(cfg, code, stamp), cfg, stamp).value.0 != code
  {
    ReadsPastedCode(cfg, code, stamp);
    TripleQuoteCuts(code, AfterDeviceCode, k);
  }

  /**
   * The firmware texts hold the docstring `"""Connect to WiFi"""`; pasted as
   * written, its opening quotes close `DEVICE_CODE`, which is then empty, and
   * the script goes on with the bare words `Connect to WiFi`.
   */
  lemma DocstringClosesDeviceCode(cfg: Config, stamp: string)
    ensures ReadDeviceCode(GeneratePythonUploader(cfg, Firmware.WifiDocstring, stamp), cfg, stamp)
         == Some(("", "Connect to WiFi" + TripleQuote + TripleQuote + AfterDeviceCode))
  {
    ReadsPastedCode(cfg, Firmware.WifiDocstring, stamp);
    DocstringRead(AfterDeviceCode);
  }

  /**
   * Every text `generate_code` returns holds the `connect_wifi` docstring, and
   * every `"""` in it with no backslash before it (the docstring's opening
   * quotes among them, when that holds of them) keeps the uploader as written
   * from carrying the text.
   */
  lemma GeneratedCodeIsCut(cfg: Config, templateType: string, stamp: string)
    ensures var code := CodeGenerator.GenerateCode(cfg, templateType, stamp);
            Contains(code, Firmware.WifiDocstring)
            && CutByTripleQuote(code, ReadDeviceCode(GeneratePythonUploader(cfg, code, stamp), cfg, stamp))
  {
    var code := CodeGenerator.GenerateCode(cfg, templateType, stamp);
    CodeGenerator.GenerateCodeHasDocstring(cfg, templateType, stamp);
    CodeIsCut(cfg, code, stamp);
  }

  /**
   * At every index `k` where `code` holds a `"""` that no backslash precedes,
   * `read` does not give back `code`.
   */
  predicate CutByTripleQuote(code: string, read: Option<(string, string)>)
  {
    forall k | 0 <= k <= |code| - 3 && OccursAt(code, TripleQuote, k) && (forall j | 0 <= j < k :: code[j] != '\\') ::
      read.Some? ==> read.value.0 != code
  }

  /** Every unescaped `"""` of a code cuts it short in the uploader as written. */
  lemma CodeIsCut(cfg: Config, code: string, stamp: string)
    ensures CutByTripleQuote(code, ReadDeviceCode(GeneratePythonUploader(cfg, code, stamp), cfg, stamp))
  {
    forall k | 0 <= k <= |code| - 3 && OccursAt(code, TripleQuote, k) && (forall j | 0 <= j < k :: code[j] != '\\')
      ensures var read := ReadDeviceCode(GeneratePythonUploader(cfg, code, stamp), cfg, stamp);
              read.Some? ==> read.value.0 != code
    {
      TripleQuoteCutsCode(cfg, code, stamp, k);
    }
  }

  lemma TripleQuoteCuts(code: string, rest: string, k: nat)
    requires OccursAt(code, TripleQuote, k)
    requires forall j | 0 <= j < k :: code[j] != '\\'
    ensures ReadTripleQuoted(code + TripleQuote + rest).Some?
        ==> ReadTripleQuoted(code + TripleQuote + rest).value.0 != code
  {
    var s := code + TripleQuote + rest;
    assert s[k..k + 3] == code[k..k + 3];
    assert s[k..][..3] == s[k..k + 3];
    ReadStopsAtTripleQuote(s, k);
  }

  lemma DocstringRead(rest: string)
    ensures ReadTripleQuoted(Firmware.WifiDocstring + TripleQuote + rest)
         == Some(("", "Connect to WiFi" + TripleQuote + TripleQuote + rest))
  {
    var s := Firmware.WifiDocstring + TripleQuote + rest;
    assert StartsTripleQuote(s);
    assert s[3..] == "Connect to WiFi" + TripleQuote + TripleQuote + rest;
  }

  /**
   * The firmware texts print messages that start with the two characters
   * backslash and `n`; pasted as written, Python turns them into one newline.
   */
  lemma BackslashEscapeIsDecoded(cfg: Config, stamp: string)
    ensures ReadDeviceCode(GeneratePythonUploader(cfg, "\\n", stamp), cfg, stamp) == Some(("\n", AfterDeviceCode))
  {
    ReadsPastedCode(cfg, "\\n", stamp);
    BackslashRead(AfterDeviceCode);
  }

  lemma BackslashRead(rest: string)
    ensures ReadTripleQuoted("\\n" + TripleQuote + rest) == Some(("\n", rest))
  {
    var s := "\\n" + TripleQuote + rest;
    assert s[1..][0] == 'n';
    assert Unescape(s[1..]) == Some(("\n", 1));
    assert s[2..] == TripleQuote + rest;
    assert s[2..][3..] == rest;
    assert ReadTripleQuoted(s[2..]) == Some(("", rest));
    assert "\n" + "" == "\n";
  }

  // The uploader with the code escaped.

  /** The uploader script with the code escaped for the literal it is pasted into. */
  function GenerateEscapedUploader(cfg: Config, code: string, stamp: string): (script: string)
  {
    GeneratePythonUploader(cfg, Escape(code), stamp)
  }

  /** With escaping, Python reads back exactly the code, for every code, and the script goes on unchanged. */
  lemma EscapedUploaderRoundTrip(cfg: Config, code: string, stamp: string)
    ensures ReadDeviceCode(GenerateEscapedUploader(cfg, code, stamp), cfg, stamp) == Some((code, AfterDeviceCode))
  {
    ReadsPastedCode(cfg, Escape(code), stamp);
    EscapeRoundTrip(code, AfterDeviceCode);
  }

  /** Escaping changes nothing for codes that the unescaped script already carries faithfully. */
  lemma EscapedMatchesPlain(cfg: Config, code: string, stamp: string)
    requires forall k | 0 <= k < |code| :: !NeedsEscape(code[k])
    ensures GenerateEscapedUploader(cfg, code, stamp) == GeneratePythonUploader(cfg, code, stamp)
  {
    EscapePlain(code);
  }
}
