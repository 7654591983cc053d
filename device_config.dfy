/**
 * The device configuration a generator call receives (a dictionary in the
 * source). Every key may be absent. A present value is held as the text that
 * `str()` gives for it, except the pin table, whose entries are numbers or names.
 */
module DeviceConfig {
  import opened Options
  import Decimal

  /** A pin identifier: numeric for ESP32 boards, a named constant on the Pico. */
  datatype PinValue = Numeric(number: int) | Named(name: string)

  /** Pin assignment: role name (`led_pin`, `temperature_pin`, ...) to pin. */
  type PinConfig = map<string, PinValue>

  datatype Config = Config(
    deviceType: Option<string>,
    deviceName: Option<string>,
    wifiSsid: Option<string>,
    wifiPassword: Option<string>,
    pinConfig: Option<PinConfig>)

  /** `pin_config.get(role, default)`. */
  function PinOr(pins: PinConfig, role: string, default: PinValue): (p: PinValue)
    ensures role in pins ==> p == pins[role]
    ensures role !in pins ==> p == default
  {
    if role in pins then pins[role] else default
  }

  /** `config.get('pin_config', {})`: an absent table reads as the empty one. */
  function PinsOf(cfg: Config): (pins: PinConfig)
    ensures cfg.pinConfig.None? ==> pins == map[]
    ensures cfg.pinConfig.Some? ==> pins == cfg.pinConfig.value
  {
    GetOr(cfg.pinConfig, map[])
  }

  /** Setting a role in the table makes the lookup of that role give the new pin, whatever the default. */
  lemma PinOrSet(pins: PinConfig, role: string, v: PinValue, default: PinValue)
    ensures PinOr(pins[role := v], role, default) == v
  {
  }

  /** Setting one role leaves the lookup of every other role as it was. */
  lemma PinOrOther(pins: PinConfig, other: string, v: PinValue, role: string, default: PinValue)
    requires other != role
    ensures PinOr(pins[other := v], role, default) == PinOr(pins, role, default)
  {
  }

  /** How an f-string replacement field shows a pin: `str()` of a number or of a name. */
  function RenderPin(p: PinValue): (text: string)
  {
    match p
    case Numeric(n) => Decimal.IntToString(n)
    case Named(s) => s
  }

  /** A numeric pin is shown as its canonical numeral, which reads back as the same number. */
  lemma NumericPinReadsBack(n: int)
    ensures Decimal.ParseInt(RenderPin(Numeric(n))) == Some(n)
    ensures n >= 0 ==> Decimal.AllDigits(RenderPin(Numeric(n)))
  {
    Decimal.IntRoundTrip(n);
  }
}
