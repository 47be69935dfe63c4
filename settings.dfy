/** src/hooks/useSettings.ts: the field updaters of the settings form. Each is an updater
    `settings => ({...settings, field})`, so the settings are an object: a map from keys to
    JSON values, where a spread copies every key and the written key replaces its value. */
module SettingsHooks {

  datatype Json = Str(text: string) | Num(value: int) | Obj(fields: map<string, Json>)

  type Settings = map<string, Json>

  /** `DEFAULT_SETTINGS` of src/constants.ts. */
  const DefaultSettings: Settings := map[
    "temperatureAddress" := Obj(map["top" := Num(101), "bottom" := Num(100)]),
    "usbPort" := Str(""),
    "unitId" := Num(10),
    "baudrate" := Num(9600),
    "count" := Num(1),
    "timeout" := Num(1000),
    "numberPlates" := Num(1)
  ]

  /** `after` is `before` with `key` set to `value`, every other key as it was. */
  predicate OnlyChanged(before: map<string, Json>, after: map<string, Json>, key: string, value: Json)
  {
    && key in after && after[key] == value
    && (forall k :: k in after && k != key ==> k in before && after[k] == before[k])
    && (forall k :: k in before && k != key ==> k in after)
  }

  function SetUsbPort(settings: Settings, port: string): (r: Settings)
    ensures OnlyChanged(settings, r, "usbPort", Str(port))
  {
    settings["usbPort" := Str(port)]
  }

  /** Writes the key `baudrate`, which is not the `baudRate` field the settings type declares. */
  function SetBaudrate(settings: Settings, baud: int): (r: Settings)
    ensures OnlyChanged(settings, r, "baudrate", Num(baud))
    ensures "baudRate" in settings ==> "baudRate" in r && r["baudRate"] == settings["baudRate"]
  {
    settings["baudrate" := Num(baud)]
  }

  function SetTheme(settings: Settings, theme: string): (r: Settings)
    ensures OnlyChanged(settings, r, "theme", Str(theme))
  {
    settings["theme" := Str(theme)]
  }

  /** `{...settings.temperatureAddress}`: the fields of an object, none for a missing key or a number. */
  function AddressFields(settings: Settings): map<string, Json>
  {
    if "temperatureAddress" in settings && settings["temperatureAddress"].Obj? then settings["temperatureAddress"].fields
    else map[]
  }

  function SetTopAddress(settings: Settings, address: int): (r: Settings)
    ensures OnlyChanged(settings, r, "temperatureAddress", Obj(AddressFields(settings)["top" := Num(address)]))
    ensures OnlyChanged(AddressFields(settings), AddressFields(r), "top", Num(address))
  {
    settings["temperatureAddress" := Obj(AddressFields(settings)["top" := Num(address)])]
  }

  function SetBottomAddress(settings: Settings, address: int): (r: Settings)
    ensures OnlyChanged(settings, r, "temperatureAddress", Obj(AddressFields(settings)["bottom" := Num(address)]))
    ensures OnlyChanged(AddressFields(settings), AddressFields(r), "bottom", Num(address))
  {
    settings["temperatureAddress" := Obj(AddressFields(settings)["bottom" := Num(address)])]
  }

  /** Applying a setter twice with the same value is applying it once. */
  lemma SettersIdempotent(s: Settings, port: string, baud: int, theme: string, address: int)
    ensures SetUsbPort(SetUsbPort(s, port), port) == SetUsbPort(s, port)
    ensures SetBaudrate(SetBaudrate(s, baud), baud) == SetBaudrate(s, baud)
    ensures SetTheme(SetTheme(s, theme), theme) == SetTheme(s, theme)
    ensures SetTopAddress(SetTopAddress(s, address), address) == SetTopAddress(s, address)
    ensures SetBottomAddress(SetBottomAddress(s, address), address) == SetBottomAddress(s, address)
  {
    TopAddressIdempotent(s, address);
    BottomAddressIdempotent(s, address);
  }

  lemma TopAddressIdempotent(s: Settings, address: int)
    ensures SetTopAddress(SetTopAddress(s, address), address) == SetTopAddress(s, address)
  {
    var fields := AddressFields(s)["top" := Num(address)];
    var top := SetTopAddress(s, address);
    assert AddressFields(top) == fields;
    assert fields["top" := Num(address)] == fields;
    assert top["temperatureAddress" := Obj(fields)] == top;
  }

  lemma BottomAddressIdempotent(s: Settings, address: int)
    ensures SetBottomAddress(SetBottomAddress(s, address), address) == SetBottomAddress(s, address)
  {
    var fields := AddressFields(s)["bottom" := Num(address)];
    var bottom := SetBottomAddress(s, address);
    assert AddressFields(bottom) == fields;
    assert fields["bottom" := Num(address)] == fields;
    assert bottom["temperatureAddress" := Obj(fields)] == bottom;
  }

  /** The two address setters touch different fields of the same object, so their order does
      not matter. */
  lemma AddressSettersCommute(s: Settings, top: int, bottom: int)
    ensures SetBottomAddress(SetTopAddress(s, top), bottom) == SetTopAddress(SetBottomAddress(s, bottom), top)
  {
    var fields := AddressFields(s);
    assert AddressFields(SetTopAddress(s, top)) == fields["top" := Num(top)];
    assert AddressFields(SetBottomAddress(s, bottom)) == fields["bottom" := Num(bottom)];
    assert fields["top" := Num(top)]["bottom" := Num(bottom)] == fields["bottom" := Num(bottom)]["top" := Num(top)];
  }

  /** Setters of different top-level fields commute. */
  lemma FieldSettersCommute(s: Settings, port: string, baud: int, theme: string)
    ensures SetUsbPort(SetBaudrate(s, baud), port) == SetBaudrate(SetUsbPort(s, port), baud)
    ensures SetUsbPort(SetTheme(s, theme), port) == SetTheme(SetUsbPort(s, port), theme)
    ensures SetBaudrate(SetTheme(s, theme), baud) == SetTheme(SetBaudrate(s, baud), theme)
  {
  }

  /** The address setters commute with the setters of the other fields. */
  lemma AddressCommutesWithFields(s: Settings, port: string, baud: int, theme: string, address: int)
    ensures SetUsbPort(SetTopAddress(s, address), port) == SetTopAddress(SetUsbPort(s, port), address)
    ensures SetBaudrate(SetTopAddress(s, address), baud) == SetTopAddress(SetBaudrate(s, baud), address)
    ensures SetTheme(SetTopAddress(s, address), theme) == SetTopAddress(SetTheme(s, theme), address)
  {
    var x := Obj(AddressFields(s)["top" := Num(address)]);
    assert AddressFields(SetUsbPort(s, port)) == AddressFields(s);
    assert AddressFields(SetBaudrate(s, baud)) == AddressFields(s);
    assert AddressFields(SetTheme(s, theme)) == AddressFields(s);
    assert s["temperatureAddress" := x]["usbPort" := Str(port)] == s["usbPort" := Str(port)]["temperatureAddress" := x];
    assert s["temperatureAddress" := x]["baudrate" := Num(baud)] == s["baudrate" := Num(baud)]["temperatureAddress" := x];
    assert s["temperatureAddress" := x]["theme" := Str(theme)] == s["theme" := Str(theme)]["temperatureAddress" := x];
  }

  /** Starting from the defaults, setting the top address keeps the bottom one (100). */
  lemma DefaultsKeepBottom(address: int)
    ensures var r := SetTopAddress(DefaultSettings, address);
      r["temperatureAddress"] == Obj(map["top" := Num(address), "bottom" := Num(100)])
  {
    assert AddressFields(DefaultSettings) == map["top" := Num(101), "bottom" := Num(100)];
    assert map["top" := Num(101), "bottom" := Num(100)]["top" := Num(address)] == map["top" := Num(address), "bottom" := Num(100)];
  }
}
