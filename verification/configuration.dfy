/** The gateway's configuration: the coils and holding registers it may write,
    looked up by name, and the validation and construction of these from the
    parsed YAML document. */
module Configuration {
  import opened Wrappers
  import opened Errors
  import opened PyValue
  import opened Endianness
  import Dict

  /** A coil entry. Names and addresses are kept as the YAML values they were
      read from; `address[0]` is evaluated only when the coil is written. */
  datatype Coil = Coil(name: Json, address: Json)

  /** A holding-register entry. */
  datatype HoldingRegister = HoldingRegister(
    name: Json, memoryOrder: MemoryOrder, dataType: Json, scale: Json, address: Json)

  datatype MqttSettings = MqttSettings(host: Json, port: Json, commandTopic: Json)

  datatype ModbusSettings = ModbusSettings(host: Json, port: Json)

  /** A Configuration object: two dicts keyed by name, and the two settings records. */
  datatype Config = Config(
    coilsMap: Dict.Entries<Json, Coil>,
    registerMap: Dict.Entries<Json, HoldingRegister>,
    mqtt: MqttSettings,
    modbus: ModbusSettings)

  // ---------------------------------------------------------------------------
  // Construction and lookup

  /** `{x.name: x for x in xs}`, as the log of its insertions. */
  function ByName<T>(xs: seq<T>, name: T -> Json): (d: Dict.Entries<Json, T>)
    ensures |d| == |xs|
    ensures forall i :: 0 <= i < |xs| ==> d[i] == (name(xs[i]), xs[i])
  {
    seq(|xs|, i requires 0 <= i < |xs| => (name(xs[i]), xs[i]))
  }

  /** `Configuration(coils, holding_registers, mqtt_settings, modbus_settings)`. */
  function New(coils: seq<Coil>, regs: seq<HoldingRegister>, mqtt: MqttSettings, modbus: ModbusSettings): (c: Config)
    ensures c.mqtt == mqtt && c.modbus == modbus
    ensures forall n :: Dict.HasKey(c.coilsMap, n) <==> exists i :: 0 <= i < |coils| && coils[i].name == n
    ensures forall n :: Dict.HasKey(c.registerMap, n) <==> exists i :: 0 <= i < |regs| && regs[i].name == n
  {
    Config(ByName(coils, (c: Coil) => c.name), ByName(regs, (r: HoldingRegister) => r.name), mqtt, modbus)
  }

  /** `get_coil(name)`: a dict subscript, so an unknown name raises KeyError. */
  function GetCoil(c: Config, name: Json): (r: Result<Coil, PyError>)
    ensures r.Ok? <==> Dict.HasKey(c.coilsMap, name)
    ensures r.Ok? ==> Dict.Get(c.coilsMap, name) == Some(r.value)
    ensures r.Err? ==> r.error == PyError(KeyError, ReprOf(name))
  {
    match Dict.Get(c.coilsMap, name)
    case Some(coil) => Ok(coil)
    case None => Err(PyError(KeyError, ReprOf(name)))
  }

  /** `get_holding_register(name)`. */
  function GetHoldingRegister(c: Config, name: Json): (r: Result<HoldingRegister, PyError>)
    ensures r.Ok? <==> Dict.HasKey(c.registerMap, name)
    ensures r.Ok? ==> Dict.Get(c.registerMap, name) == Some(r.value)
    ensures r.Err? ==> r.error == PyError(KeyError, ReprOf(name))
  {
    match Dict.Get(c.registerMap, name)
    case Some(reg) => Ok(reg)
    case None => Err(PyError(KeyError, ReprOf(name)))
  }

  /** `get_coils()`: the dict's values. */
  function GetCoils(c: Config): (cs: seq<Coil>)
    ensures |cs| == |Dict.Keys(c.coilsMap)|
    ensures forall i :: 0 <= i < |cs| ==> GetCoil(c, Dict.Keys(c.coilsMap)[i]) == Ok(cs[i])
  {
    Dict.Values(c.coilsMap)
  }

  /** `get_holding_registers()`. */
  function GetHoldingRegisters(c: Config): (rs: seq<HoldingRegister>)
    ensures |rs| == |Dict.Keys(c.registerMap)|
    ensures forall i :: 0 <= i < |rs| ==> GetHoldingRegister(c, Dict.Keys(c.registerMap)[i]) == Ok(rs[i])
  {
    Dict.Values(c.registerMap)
  }

  function GetMqttSettings(c: Config): MqttSettings {
    c.mqtt
  }

  /** `get_modbus_settings()` returns a fresh record with the same fields. */
  function GetModbusSettings(c: Config): (s: ModbusSettings)
    ensures s == c.modbus
  {
    ModbusSettings(c.modbus.host, c.modbus.port)
  }

  /** Looking a coil up by name finds the LAST coil of that name given to the
      constructor, and raises KeyError when no coil has that name. */
  lemma CoilLookup(coils: seq<Coil>, regs: seq<HoldingRegister>, mqtt: MqttSettings, modbus: ModbusSettings, name: Json)
    ensures var r := GetCoil(New(coils, regs, mqtt, modbus), name);
            (r.Ok? <==> exists i :: 0 <= i < |coils| && coils[i].name == name)
            && (r.Ok? ==> exists i :: 0 <= i < |coils| && coils[i] == r.value && coils[i].name == name
                                      && forall j :: i < j < |coils| ==> coils[j].name != name)
            && (r.Err? ==> r.error == PyError(KeyError, ReprOf(name)))
  {
    var d := New(coils, regs, mqtt, modbus).coilsMap;
    var r := GetCoil(New(coils, regs, mqtt, modbus), name);
    if r.Ok? {
      var i :| 0 <= i < |d| && d[i] == (name, r.value) && forall j :: i < j < |d| ==> d[j].0 != name;
      assert coils[i] == r.value && coils[i].name == name;
    } else {
      assert forall i :: 0 <= i < |coils| ==> d[i].0 == coils[i].name;
    }
  }

  /** The same for holding registers: the last register of a name wins. */
  lemma RegisterLookup(coils: seq<Coil>, regs: seq<HoldingRegister>, mqtt: MqttSettings, modbus: ModbusSettings, name: Json)
    ensures var r := GetHoldingRegister(New(coils, regs, mqtt, modbus), name);
            (r.Ok? <==> exists i :: 0 <= i < |regs| && regs[i].name == name)
            && (r.Ok? ==> exists i :: 0 <= i < |regs| && regs[i] == r.value && regs[i].name == name
                                      && forall j :: i < j < |regs| ==> regs[j].name != name)
            && (r.Err? ==> r.error == PyError(KeyError, ReprOf(name)))
  {
    var d := New(coils, regs, mqtt, modbus).registerMap;
    var r := GetHoldingRegister(New(coils, regs, mqtt, modbus), name);
    if r.Ok? {
      var i :| 0 <= i < |d| && d[i] == (name, r.value) && forall j :: i < j < |d| ==> d[j].0 != name;
      assert regs[i] == r.value && regs[i].name == name;
    } else {
      assert forall i :: 0 <= i < |regs| ==> d[i].0 == regs[i].name;
    }
  }

  /** With unique names, `get_coils` and `get_holding_registers` give back the
      constructor's lists unchanged. */
  lemma UniqueNamesKept(coils: seq<Coil>, regs: seq<HoldingRegister>, mqtt: MqttSettings, modbus: ModbusSettings)
    requires forall i, j :: 0 <= i < j < |coils| ==> coils[i].name != coils[j].name
    requires forall i, j :: 0 <= i < j < |regs| ==> regs[i].name != regs[j].name
    ensures GetCoils(New(coils, regs, mqtt, modbus)) == coils
    ensures GetHoldingRegisters(New(coils, regs, mqtt, modbus)) == regs
  {
    var c := New(coils, regs, mqtt, modbus);
    Dict.ValuesOfDistinct(c.coilsMap);
    Dict.ValuesOfDistinct(c.registerMap);
  }

  /** The settings records come back as they were given. */
  lemma SettingsKept(coils: seq<Coil>, regs: seq<HoldingRegister>, mqtt: MqttSettings, modbus: ModbusSettings)
    ensures GetMqttSettings(New(coils, regs, mqtt, modbus)) == mqtt
    ensures GetModbusSettings(New(coils, regs, mqtt, modbus)) == modbus
  {
  }

  // ---------------------------------------------------------------------------
  // Validation of the parsed document

  /** The sections a configuration must have, in the order they are checked,
      with the items each must contain. */
  const RequiredSettings: seq<(string, seq<string>)> := [
    ("mqtt_settings", MqttKeys),
    ("modbus_settings", ModbusKeys),
    ("modbus_mapping", [])]

  const MqttKeys: seq<string> := ["host", "port", "command_topic"]
  const ModbusKeys: seq<string> := ["host", "port"]
  const CoilKeys: seq<string> := ["name", "address"]
  const RegisterKeys: seq<string> := ["name", "address", "byte_order", "data_type"]

  const NoKeysDefined: string := "No keys defined in holding_registers or coils"

  /** How the validator's try block ends: normally, on a failed assert with its
      message, or with some other exception that is not caught. */
  datatype Validation = Valid | Invalid(message: string) | Crashed(error: PyError)

  function MissingSection(key: string): string {
    "No " + Repr(key) + " section provided in configuration"
  }

  function MissingItem(item: string, key: string): string {
    "No " + Repr(item) + " provided in " + Repr(key) + " section of configuration"
  }

  function MissingEntryKey(entry: string, index: nat, key: string): string {
    entry + " reference #" + NatToString(index) + " has no config setting for " + Repr(key)
  }

  /** `assert item in section` for each required item, in order. */
  function CheckItems(section: Json, key: string, items: seq<string>): (v: Validation)
    ensures section.JObject? ==> (v.Valid? <==> forall i :: 0 <= i < |items| ==> Dict.HasKey(section.fields, items[i]))
    ensures section.JObject? ==> !v.Crashed?
    ensures v.Crashed? ==> LookupFailure(v.error.kind)
    decreases |items|
  {
    if |items| == 0 then Valid
    else
      match In(items[0], section)
      case Err(e) => Crashed(e)
      case Ok(present) =>
        if !present then Invalid(MissingItem(items[0], key)) else CheckItems(section, key, items[1..])
  }

  /** The loop over the required sections. `config[req_key]` is evaluated once
      per item, so a section with no required items is never subscripted. */
  function CheckSections(config: Json, reqs: seq<(string, seq<string>)>): (v: Validation)
    ensures v.Crashed? ==> LookupFailure(v.error.kind)
    decreases |reqs|
  {
    if |reqs| == 0 then Valid
    else
      var key := reqs[0].0;
      var items := reqs[0].1;
      match In(key, config)
      case Err(e) => Crashed(e)
      case Ok(present) =>
        if !present then Invalid(MissingSection(key))
        else if |items| == 0 then CheckSections(config, reqs[1..])
        else
          match Subscript(config, key)
          case Err(e) => Crashed(e)
          case Ok(section) =>
            var v := CheckItems(section, key, items);
            if v.Valid? then CheckSections(config, reqs[1..]) else v
  }

  /** `sum(len(mapping.get(k, [])) for k in ("holding_registers", "coils"))`. */
  function KeysDefined(mapping: Json): (r: Result<int, PyError>)
    ensures r.Err? ==> LookupFailure(r.error.kind)
  {
    var regs :- GetOr(mapping, "holding_registers", JArray([]));
    var nRegs :- Len(regs);
    // mapping answered `.get` once, so it is a dict and answers it again
    var coils := GetOr(mapping, "coils", JArray([])).value;
    var nCoils :- Len(coils);
    Ok(nRegs + nCoils)
  }

  /** The items of `mapping.get(key, [])`, as a for loop visits them. */
  function Listed(mapping: Json, key: string): (r: Result<seq<Json>, PyError>)
    ensures mapping.JObject? && !Dict.HasKey(mapping.fields, key) ==> r == Ok([])
    ensures r.Err? ==> LookupFailure(r.error.kind)
  {
    var list :- GetOr(mapping, key, JArray([]));
    Iterate(list)
  }

  /** `assert key in ref` for each key of one entry. */
  function CheckEntry(ref: Json, entry: string, index: nat, keys: seq<string>): (v: Validation)
    ensures ref.JObject? ==> (v.Valid? <==> forall k :: 0 <= k < |keys| ==> Dict.HasKey(ref.fields, keys[k]))
    ensures ref.JObject? ==> !v.Crashed?
    ensures v.Crashed? ==> LookupFailure(v.error.kind)
    decreases |keys|
  {
    if |keys| == 0 then Valid
    else
      match In(keys[0], ref)
      case Err(e) => Crashed(e)
      case Ok(present) =>
        if !present then Invalid(MissingEntryKey(entry, index, keys[0]))
        else CheckEntry(ref, entry, index, keys[1..])
  }

  /** The loop over `enumerate(refs)`, starting at index `from`. */
  function CheckEntries(refs: seq<Json>, entry: string, from: nat, keys: seq<string>): (v: Validation)
    ensures v.Crashed? ==> LookupFailure(v.error.kind)
    decreases |refs|
  {
    if |refs| == 0 then Valid
    else
      var v := CheckEntry(refs[0], entry, from, keys);
      if v.Valid? then CheckEntries(refs[1..], entry, from + 1, keys) else v
  }

  /** The body of the validator's try block. */
  function CheckConfig(config: Json): (v: Validation)
    ensures v.Crashed? ==> LookupFailure(v.error.kind)
  {
    var sections := CheckSections(config, RequiredSettings);
    if !sections.Valid? then sections
    else
      match Subscript(config, "modbus_mapping")
      case Err(e) => Crashed(e)
      case Ok(mapping) => CheckMapping(mapping)
  }

  /** The checks on the mapping section: at least one entry, then every coil,
      then every holding register. */
  function CheckMapping(mapping: Json): (v: Validation)
    ensures v.Crashed? ==> LookupFailure(v.error.kind)
  {
    match KeysDefined(mapping)
    case Err(e) => Crashed(e)
    case Ok(n) =>
      if n <= 0 then Invalid(NoKeysDefined)
      else
        match Listed(mapping, "coils")
        case Err(e) => Crashed(e)
        case Ok(coils) =>
          var vc := CheckEntries(coils, "Coil", 0, CoilKeys);
          if !vc.Valid? then vc
          else
            match Listed(mapping, "holding_registers")
            case Err(e) => Crashed(e)
            case Ok(regs) => CheckEntries(regs, "Holding register", 0, RegisterKeys)
  }

  /** `_validate_config`: a failed assert becomes ConfigurationFileInvalidError
      carrying the assert's message; any other exception escapes unchanged. */
  function ValidateConfig(config: Json): (r: Result<(), PyError>)
    ensures r.Err? ==> r.error.kind == ConfigurationFileInvalidError || LookupFailure(r.error.kind)
  {
    match CheckConfig(config)
    case Valid => Ok(())
    case Invalid(m) => Err(PyError(ConfigurationFileInvalidError, m))
    case Crashed(e) => Err(e)
  }

  // ---------------------------------------------------------------------------
  // What validation accepts, stated over dicts and lists

  /** The value bound to key in a dict, if any. */
  function Field(o: Json, key: string): Option<Json>
    requires o.JObject?
  {
    Dict.Get(o.fields, key)
  }

  predicate ListOfDicts(j: Json) {
    j.JArray? && forall i :: 0 <= i < |j.items| ==> j.items[i].JObject?
  }

  /** The entries listed under key, or none when key is absent. */
  function EntriesUnder(mapping: Json, key: string): seq<Json>
    requires mapping.JObject?
  {
    var f := Field(mapping, key);
    if f.Some? && f.value.JArray? then f.value.items else []
  }

  /** A document of the expected types: a dict whose sections, when present,
      are dicts, and whose coil and register lists, when present, hold dicts. */
  predicate Shaped(config: Json) {
    && config.JObject?
    && (Field(config, "mqtt_settings").Some? ==> Field(config, "mqtt_settings").value.JObject?)
    && (Field(config, "modbus_settings").Some? ==> Field(config, "modbus_settings").value.JObject?)
    && (Field(config, "modbus_mapping").Some? ==> MappingShaped(Field(config, "modbus_mapping").value))
  }

  /** A mapping section of the expected types: a dict whose coil and register
      lists, when present, hold dicts. */
  predicate MappingShaped(mapping: Json) {
    && mapping.JObject?
    && (Field(mapping, "coils").Some? ==> ListOfDicts(Field(mapping, "coils").value))
    && (Field(mapping, "holding_registers").Some? ==> ListOfDicts(Field(mapping, "holding_registers").value))
  }

  /** On a mapping of the expected types nothing raises: it lists its entries
      and the entry checks run on them. */
  lemma MappingOfShaped(mapping: Json)
    requires MappingShaped(mapping)
    ensures Listed(mapping, "coils") == Ok(EntriesUnder(mapping, "coils"))
    ensures Listed(mapping, "holding_registers") == Ok(EntriesUnder(mapping, "holding_registers"))
    ensures KeysDefined(mapping) == Ok(|EntriesUnder(mapping, "holding_registers")| + |EntriesUnder(mapping, "coils")|)
    ensures var coils := EntriesUnder(mapping, "coils");
            var regs := EntriesUnder(mapping, "holding_registers");
            CheckMapping(mapping) ==
              if |coils| + |regs| == 0 then Invalid(NoKeysDefined)
              else if !CheckEntries(coils, "Coil", 0, CoilKeys).Valid? then CheckEntries(coils, "Coil", 0, CoilKeys)
              else CheckEntries(regs, "Holding register", 0, RegisterKeys)
  {
  }

  /** A section is present and holds every one of the given items. */
  predicate Complete(config: Json, key: string, items: seq<string>)
    requires config.JObject?
  {
    Field(config, key).Some? && Has(Field(config, key).value, items)
  }

  /** The three sections are present and the two settings sections hold their items. */
  predicate SectionsComplete(config: Json)
    requires config.JObject?
  {
    && Complete(config, "mqtt_settings", MqttKeys)
    && Complete(config, "modbus_settings", ModbusKeys)
    && Complete(config, "modbus_mapping", [])
  }

  /** An entry is a dict with every one of the keys. */
  predicate Has(ref: Json, keys: seq<string>) {
    ref.JObject? && forall k :: 0 <= k < |keys| ==> Dict.HasKey(ref.fields, keys[k])
  }

  /** Every entry has every key. */
  predicate AllHave(refs: seq<Json>, keys: seq<string>) {
    forall i :: 0 <= i < |refs| ==> Has(refs[i], keys)
  }

  /** What a configuration must satisfy: the two settings sections with their
      items, a mapping section, at least one coil or register, and every coil
      and register with its required keys. */
  predicate Conforms(config: Json)
    requires Shaped(config)
  {
    && SectionsComplete(config)
    && var mapping := Field(config, "modbus_mapping").value;
       && |EntriesUnder(mapping, "coils")| + |EntriesUnder(mapping, "holding_registers")| > 0
       && AllHave(EntriesUnder(mapping, "coils"), ["name", "address"])
       && AllHave(EntriesUnder(mapping, "holding_registers"), ["name", "address", "byte_order", "data_type"])
  }

  /** On a list of dicts the entry loop succeeds exactly when every entry has
      every key, and never raises. */
  lemma {:induction false} CheckEntriesDicts(refs: seq<Json>, entry: string, from: nat, keys: seq<string>)
    requires forall i :: 0 <= i < |refs| ==> refs[i].JObject?
    ensures var v := CheckEntries(refs, entry, from, keys);
            (v.Valid? <==> AllHave(refs, keys)) && !v.Crashed?
    decreases |refs|
  {
    if |refs| > 0 {
      CheckEntriesDicts(refs[1..], entry, from + 1, keys);
      assert forall i :: 1 <= i < |refs| ==> refs[i] == refs[1..][i - 1];
    }
  }

  /** On a dict whose present sections are dicts, the section loop succeeds
      exactly when every section is complete, and never raises. */
  lemma {:induction false} SectionsChecked(config: Json, reqs: seq<(string, seq<string>)>)
    requires config.JObject?
    requires forall m :: 0 <= m < |reqs| ==> Field(config, reqs[m].0).Some? ==> Field(config, reqs[m].0).value.JObject?
    ensures var v := CheckSections(config, reqs);
            (v.Valid? <==> forall m :: 0 <= m < |reqs| ==> Complete(config, reqs[m].0, reqs[m].1))
            && !v.Crashed?
    decreases |reqs|
  {
    if |reqs| > 0 {
      assert forall m :: 1 <= m < |reqs| ==> reqs[m] == reqs[1..][m - 1];
      SectionsChecked(config, reqs[1..]);
    }
  }

  /** The section loop on a configuration of the expected types. */
  lemma SectionsOfShaped(config: Json)
    requires Shaped(config)
    ensures var v := CheckSections(config, RequiredSettings);
            (v.Valid? <==> SectionsComplete(config))
            && !v.Crashed?
  {
    var reqs := RequiredSettings;
    assert |reqs| == 3;
    assert reqs[0] == ("mqtt_settings", MqttKeys);
    assert reqs[1] == ("modbus_settings", ModbusKeys);
    assert reqs[2] == ("modbus_mapping", []);
    assert forall m :: 0 <= m < |reqs| ==> Field(config, reqs[m].0).Some? ==> Field(config, reqs[m].0).value.JObject?;
    SectionsChecked(config, reqs);
    if SectionsComplete(config) {
      forall m | 0 <= m < |reqs|
        ensures Complete(config, reqs[m].0, reqs[m].1)
      {
        assert m == 0 || m == 1 || m == 2;
      }
    } else {
      assert !Complete(config, reqs[0].0, reqs[0].1) || !Complete(config, reqs[1].0, reqs[1].1)
          || !Complete(config, reqs[2].0, reqs[2].1);
    }
  }

  /** Once the sections are complete, validation is the mapping check. */
  lemma ConfigAfterSections(config: Json)
    requires Shaped(config) && SectionsComplete(config)
    ensures CheckConfig(config) == CheckMapping(Field(config, "modbus_mapping").value)
  {
    SectionsOfShaped(config);
  }

  /** On a dict of the expected types, validation accepts exactly the
      conforming documents and reports every other one as an invalid
      configuration: nothing else is raised. */
  lemma ValidateShaped(config: Json)
    requires Shaped(config)
    ensures ValidateConfig(config).Ok? <==> Conforms(config)
    ensures ValidateConfig(config).Err? ==> ValidateConfig(config).error.kind == ConfigurationFileInvalidError
  {
    SectionsOfShaped(config);
    if CheckSections(config, RequiredSettings).Valid? {
      var mapping := Field(config, "modbus_mapping").value;
      MappingOfShaped(mapping);
      CheckEntriesDicts(EntriesUnder(mapping, "coils"), "Coil", 0, CoilKeys);
      CheckEntriesDicts(EntriesUnder(mapping, "holding_registers"), "Holding register", 0, RegisterKeys);
    }
  }

  /** The first required item missing from a dict section is the one reported. */
  lemma {:induction false} ItemsReportFirstMissing(section: Json, key: string, items: seq<string>, j: nat)
    requires section.JObject?
    requires j < |items|
    requires forall i :: 0 <= i < j ==> Dict.HasKey(section.fields, items[i])
    requires !Dict.HasKey(section.fields, items[j])
    ensures CheckItems(section, key, items) == Invalid(MissingItem(items[j], key))
    decreases j
  {
    if j > 0 {
      ItemsReportFirstMissing(section, key, items[1..], j - 1);
    }
  }

  /** Sections are checked in order: the first one that is missing, or that
      lacks an item, is the one reported. */
  lemma {:induction false} SectionsReportFirstProblem(config: Json, reqs: seq<(string, seq<string>)>, n: nat, j: nat)
    requires config.JObject?
    requires n < |reqs|
    requires forall m :: 0 <= m < n ==> Complete(config, reqs[m].0, reqs[m].1)
    requires Dict.HasKey(config.fields, reqs[n].0) ==>
               && Field(config, reqs[n].0).value.JObject?
               && j < |reqs[n].1|
               && (forall i :: 0 <= i < j ==> Dict.HasKey(Field(config, reqs[n].0).value.fields, reqs[n].1[i]))
               && !Dict.HasKey(Field(config, reqs[n].0).value.fields, reqs[n].1[j])
    ensures CheckSections(config, reqs) ==
              if Dict.HasKey(config.fields, reqs[n].0) then Invalid(MissingItem(reqs[n].1[j], reqs[n].0))
              else Invalid(MissingSection(reqs[n].0))
    decreases n
  {
    if n > 0 {
      assert Complete(config, reqs[0].0, reqs[0].1);
      SectionsReportFirstProblem(config, reqs[1..], n - 1, j);
    } else if Dict.HasKey(config.fields, reqs[0].0) {
      ItemsReportFirstMissing(Field(config, reqs[0].0).value, reqs[0].0, reqs[0].1, j);
    }
  }

  /** A missing section is reported by name, in the order mqtt_settings,
      modbus_settings, modbus_mapping. */
  lemma MissingSectionReported(config: Json, n: nat)
    requires config.JObject?
    requires n < |RequiredSettings|
    requires forall m :: 0 <= m < n ==> Complete(config, RequiredSettings[m].0, RequiredSettings[m].1)
    requires !Dict.HasKey(config.fields, RequiredSettings[n].0)
    ensures ValidateConfig(config) == Err(PyError(ConfigurationFileInvalidError, MissingSection(RequiredSettings[n].0)))
  {
    SectionsReportFirstProblem(config, RequiredSettings, n, 0);
  }

  /** A section that lacks a required item is reported with both names, for
      example "No 'host' provided in 'mqtt_settings' section of configuration". */
  lemma MissingItemReported(config: Json, n: nat, j: nat)
    requires config.JObject?
    requires n < |RequiredSettings|
    requires forall m :: 0 <= m < n ==> Complete(config, RequiredSettings[m].0, RequiredSettings[m].1)
    requires Field(config, RequiredSettings[n].0).Some? && Field(config, RequiredSettings[n].0).value.JObject?
    requires j < |RequiredSettings[n].1|
    requires forall i :: 0 <= i < j ==> Dict.HasKey(Field(config, RequiredSettings[n].0).value.fields, RequiredSettings[n].1[i])
    requires !Dict.HasKey(Field(config, RequiredSettings[n].0).value.fields, RequiredSettings[n].1[j])
    ensures ValidateConfig(config) ==
              Err(PyError(ConfigurationFileInvalidError, MissingItem(RequiredSettings[n].1[j], RequiredSettings[n].0)))
  {
    SectionsReportFirstProblem(config, RequiredSettings, n, j);
  }

  /** A mapping with neither coils nor holding registers is rejected. */
  lemma EmptyMappingRejected(config: Json)
    requires Shaped(config)
    requires SectionsComplete(config)
    requires EntriesUnder(Field(config, "modbus_mapping").value, "coils") == []
    requires EntriesUnder(Field(config, "modbus_mapping").value, "holding_registers") == []
    ensures ValidateConfig(config) == Err(PyError(ConfigurationFileInvalidError, NoKeysDefined))
  {
    ConfigAfterSections(config);
    MappingOfShaped(Field(config, "modbus_mapping").value);
  }

  /** Entries are checked in order, and within an entry the keys in order: the
      first missing key of the first incomplete entry is reported with its index. */
  lemma {:induction false} EntriesReportFirstMissing(refs: seq<Json>, entry: string, from: nat, keys: seq<string>, i: nat, k: nat)
    requires i < |refs| && k < |keys|
    requires AllHave(refs[..i], keys)
    requires refs[i].JObject?
    requires forall m :: 0 <= m < k ==> Dict.HasKey(refs[i].fields, keys[m])
    requires !Dict.HasKey(refs[i].fields, keys[k])
    ensures CheckEntries(refs, entry, from, keys) == Invalid(MissingEntryKey(entry, from + i, keys[k]))
    decreases i
  {
    if i > 0 {
      assert refs[0] == refs[..i][0];
      assert CheckEntry(refs[0], entry, from, keys).Valid?;
      assert refs[1..][..i - 1] == refs[1..i];
      EntriesReportFirstMissing(refs[1..], entry, from + 1, keys, i - 1, k);
    } else {
      EntryReportsFirstMissing(refs[0], entry, from, keys, k);
    }
  }

  lemma {:induction false} EntryReportsFirstMissing(ref: Json, entry: string, index: nat, keys: seq<string>, k: nat)
    requires ref.JObject?
    requires k < |keys|
    requires forall m :: 0 <= m < k ==> Dict.HasKey(ref.fields, keys[m])
    requires !Dict.HasKey(ref.fields, keys[k])
    ensures CheckEntry(ref, entry, index, keys) == Invalid(MissingEntryKey(entry, index, keys[k]))
    decreases k
  {
    if k > 0 {
      EntryReportsFirstMissing(ref, entry, index, keys[1..], k - 1);
    }
  }

  /** A coil without `name` or `address` is reported by its index and the key. */
  lemma IncompleteCoilReported(config: Json, i: nat, k: nat)
    requires Shaped(config) && SectionsComplete(config)
    requires var coils := EntriesUnder(Field(config, "modbus_mapping").value, "coils");
             && i < |coils| && k < |CoilKeys|
             && AllHave(coils[..i], CoilKeys)
             && (forall m :: 0 <= m < k ==> Dict.HasKey(coils[i].fields, CoilKeys[m]))
             && !Dict.HasKey(coils[i].fields, CoilKeys[k])
    ensures ValidateConfig(config) ==
              Err(PyError(ConfigurationFileInvalidError, MissingEntryKey("Coil", i, CoilKeys[k])))
  {
    ConfigAfterSections(config);
    var mapping := Field(config, "modbus_mapping").value;
    var coils := EntriesUnder(mapping, "coils");
    MappingOfShaped(mapping);
    EntriesReportFirstMissing(coils, "Coil", 0, CoilKeys, i, k);
    assert CheckEntries(coils, "Coil", 0, CoilKeys) == Invalid(MissingEntryKey("Coil", i, CoilKeys[k]));
    assert |coils| > 0;
    assert CheckConfig(config) == Invalid(MissingEntryKey("Coil", i, CoilKeys[k]));
  }

  /** A holding register without `name`, `address`, `byte_order` or `data_type`
      is reported by its index and the key, once every coil is complete. */
  lemma IncompleteRegisterReported(config: Json, i: nat, k: nat)
    requires Shaped(config) && SectionsComplete(config)
    requires AllHave(EntriesUnder(Field(config, "modbus_mapping").value, "coils"), CoilKeys)
    requires var regs := EntriesUnder(Field(config, "modbus_mapping").value, "holding_registers");
             && i < |regs| && k < |RegisterKeys|
             && AllHave(regs[..i], RegisterKeys)
             && (forall m :: 0 <= m < k ==> Dict.HasKey(regs[i].fields, RegisterKeys[m]))
             && !Dict.HasKey(regs[i].fields, RegisterKeys[k])
    ensures ValidateConfig(config) ==
              Err(PyError(ConfigurationFileInvalidError, MissingEntryKey("Holding register", i, RegisterKeys[k])))
  {
    ConfigAfterSections(config);
    var mapping := Field(config, "modbus_mapping").value;
    var coils := EntriesUnder(mapping, "coils");
    var regs := EntriesUnder(mapping, "holding_registers");
    MappingOfShaped(mapping);
    CheckEntriesDicts(coils, "Coil", 0, CoilKeys);
    assert CheckEntries(coils, "Coil", 0, CoilKeys).Valid?;
    EntriesReportFirstMissing(regs, "Holding register", 0, RegisterKeys, i, k);
    assert CheckEntries(regs, "Holding register", 0, RegisterKeys)
             == Invalid(MissingEntryKey("Holding register", i, RegisterKeys[k]));
    assert |regs| > 0;
    assert CheckConfig(config) == Invalid(MissingEntryKey("Holding register", i, RegisterKeys[k]));
  }

  // ---------------------------------------------------------------------------
  // Building the configuration from the parsed document

  /** The code `MemoryOrder` receives: a str is matched against the codes,
      anything else falls through to the default like None does. */
  function CodeText(j: Json): (code: Option<string>)
    ensures StrToEndian(code) == (if j.JString? then StrToEndian(Some(j.s)) else Order(Big, Big))
  {
    if j.JString? then Some(j.s) else None
  }

  /** `Coil(coil["name"], coil["address"])`. */
  function CoilOf(ref: Json): (r: Result<Coil, PyError>)
    ensures r.Err? ==> LookupFailure(r.error.kind)
  {
    var name :- Subscript(ref, "name");
    var address :- Subscript(ref, "address");
    Ok(Coil(name, address))
  }

  /** One holding register, its fields read in the order the source reads them:
      byte_order, name, data_type, scale (default 1.0), address. */
  function RegisterOf(ref: Json): (r: Result<HoldingRegister, PyError>)
    ensures r.Err? ==> LookupFailure(r.error.kind)
  {
    var byteOrder :- Subscript(ref, "byte_order");
    var memoryOrder := Endianness.New(CodeText(byteOrder));
    var name :- Subscript(ref, "name");
    var dataType :- Subscript(ref, "data_type");
    // ref was subscripted, so it is a dict and `.get` cannot fail
    var scale := GetOr(ref, "scale", JFloat(Finite(1.0))).value;
    var address :- Subscript(ref, "address");
    Ok(HoldingRegister(name, memoryOrder, dataType, scale, address))
  }

  function BuildCoils(refs: seq<Json>): (r: Result<seq<Coil>, PyError>)
    ensures r.Ok? ==> |r.value| == |refs|
    ensures r.Err? ==> LookupFailure(r.error.kind)
    decreases |refs|
  {
    if |refs| == 0 then Ok([])
    else
      var coil :- CoilOf(refs[0]);
      var rest :- BuildCoils(refs[1..]);
      Ok([coil] + rest)
  }

  function BuildRegisters(refs: seq<Json>): (r: Result<seq<HoldingRegister>, PyError>)
    ensures r.Ok? ==> |r.value| == |refs|
    ensures r.Err? ==> LookupFailure(r.error.kind)
    decreases |refs|
  {
    if |refs| == 0 then Ok([])
    else
      var reg :- RegisterOf(refs[0]);
      var rest :- BuildRegisters(refs[1..]);
      Ok([reg] + rest)
  }

  /** `_coils_data_from_yaml_data`. */
  function CoilsFromYaml(data: Json): (r: Result<seq<Coil>, PyError>)
    ensures r.Err? ==> LookupFailure(r.error.kind)
    ensures data.JObject? && !Dict.HasKey(data.fields, "modbus_mapping") ==> r == Ok([])
    ensures (&& data.JObject? && Field(data, "modbus_mapping").Some? && Field(data, "modbus_mapping").value.JObject?
             && !Dict.HasKey(Field(data, "modbus_mapping").value.fields, "coils")) ==> r == Ok([])
  {
    var mapping :- GetOr(data, "modbus_mapping", JObject([]));
    var refs :- Listed(mapping, "coils");
    BuildCoils(refs)
  }

  /** `_holding_register_from_yaml_data`. */
  function RegistersFromYaml(data: Json): (r: Result<seq<HoldingRegister>, PyError>)
    ensures r.Err? ==> LookupFailure(r.error.kind)
    ensures data.JObject? && !Dict.HasKey(data.fields, "modbus_mapping") ==> r == Ok([])
    ensures (&& data.JObject? && Field(data, "modbus_mapping").Some? && Field(data, "modbus_mapping").value.JObject?
             && !Dict.HasKey(Field(data, "modbus_mapping").value.fields, "holding_registers")) ==> r == Ok([])
  {
    var mapping :- GetOr(data, "modbus_mapping", JObject([]));
    var refs :- Listed(mapping, "holding_registers");
    BuildRegisters(refs)
  }

  /** `_mqtt_settings_from_yaml_data`. */
  function MqttFromYaml(data: Json): (r: Result<MqttSettings, PyError>)
    ensures r.Err? ==> LookupFailure(r.error.kind)
    ensures r.Ok? <==> data.JObject? && Complete(data, "mqtt_settings", MqttKeys)
    ensures r.Ok? ==> r.value == ExpectedMqtt(Field(data, "mqtt_settings").value)
  {
    assert MqttKeys[0] == "host" && MqttKeys[1] == "port" && MqttKeys[2] == "command_topic";
    var section :- Subscript(data, "mqtt_settings");
    var host :- Subscript(section, "host");
    var port :- Subscript(section, "port");
    var topic :- Subscript(section, "command_topic");
    Ok(MqttSettings(host, port, topic))
  }

  /** `_modbus_settings_from_yaml_data`. */
  function ModbusFromYaml(data: Json): (r: Result<ModbusSettings, PyError>)
    ensures r.Err? ==> LookupFailure(r.error.kind)
    ensures r.Ok? <==> data.JObject? && Complete(data, "modbus_settings", ModbusKeys)
    ensures r.Ok? ==> r.value == ExpectedModbus(Field(data, "modbus_settings").value)
  {
    assert ModbusKeys[0] == "host" && ModbusKeys[1] == "port";
    var section :- Subscript(data, "modbus_settings");
    var host :- Subscript(section, "host");
    var port :- Subscript(section, "port");
    Ok(ModbusSettings(host, port))
  }

  /** Validation followed by construction, on an already-parsed document. */
  function FromParsed(data: Json): (r: Result<Config, PyError>)
    ensures r.Ok? ==> ValidateConfig(data).Ok?
    ensures ValidateConfig(data).Err? ==> r == Err(ValidateConfig(data).error)
    ensures r.Err? ==> r.error.kind == ConfigurationFileInvalidError || LookupFailure(r.error.kind)
  {
    var checked :- ValidateConfig(data);
    var coils :- CoilsFromYaml(data);
    var regs :- RegistersFromYaml(data);
    var mqtt :- MqttFromYaml(data);
    var modbus :- ModbusFromYaml(data);
    Ok(New(coils, regs, mqtt, modbus))
  }

  /** The coil a complete entry describes. */
  function ExpectedCoil(ref: Json): Coil
    requires Has(ref, CoilKeys)
  {
    assert Dict.HasKey(ref.fields, CoilKeys[0]) && Dict.HasKey(ref.fields, CoilKeys[1]);
    Coil(Field(ref, "name").value, Field(ref, "address").value)
  }

  /** The register a complete entry describes, stated field by field. */
  function ExpectedRegister(ref: Json): HoldingRegister
    requires Has(ref, RegisterKeys)
  {
    assert Dict.HasKey(ref.fields, RegisterKeys[0]) && Dict.HasKey(ref.fields, RegisterKeys[1]);
    assert Dict.HasKey(ref.fields, RegisterKeys[2]) && Dict.HasKey(ref.fields, RegisterKeys[3]);
    HoldingRegister(
      Field(ref, "name").value,
      MemoryOrder(StrToEndian(CodeText(Field(ref, "byte_order").value))),
      Field(ref, "data_type").value,
      if Dict.HasKey(ref.fields, "scale") then Field(ref, "scale").value else JFloat(Finite(1.0)),
      Field(ref, "address").value)
  }

  /** Complete coil entries build one coil each, in order, from their name and address. */
  lemma {:induction false} CoilsBuilt(refs: seq<Json>)
    requires AllHave(refs, CoilKeys)
    ensures BuildCoils(refs).Ok?
    ensures forall i :: 0 <= i < |refs| ==> BuildCoils(refs).value[i] == ExpectedCoil(refs[i])
    decreases |refs|
  {
    if |refs| > 0 {
      assert Dict.HasKey(refs[0].fields, CoilKeys[0]) && Dict.HasKey(refs[0].fields, CoilKeys[1]);
      assert CoilOf(refs[0]) == Ok(ExpectedCoil(refs[0]));
      assert AllHave(refs[1..], CoilKeys) by {
        forall i | 0 <= i < |refs[1..]| ensures Has(refs[1..][i], CoilKeys) {
          assert refs[1..][i] == refs[i + 1];
        }
      }
      CoilsBuilt(refs[1..]);
    }
  }

  /** Complete register entries build one register each, in order, with the
      memory order decoded from byte_order and scale defaulting to 1.0. */
  lemma {:induction false} RegistersBuilt(refs: seq<Json>)
    requires AllHave(refs, RegisterKeys)
    ensures BuildRegisters(refs).Ok?
    ensures forall i :: 0 <= i < |refs| ==> BuildRegisters(refs).value[i] == ExpectedRegister(refs[i])
    decreases |refs|
  {
    if |refs| > 0 {
      var ref := refs[0];
      assert Dict.HasKey(ref.fields, RegisterKeys[0]) && Dict.HasKey(ref.fields, RegisterKeys[1]);
      assert Dict.HasKey(ref.fields, RegisterKeys[2]) && Dict.HasKey(ref.fields, RegisterKeys[3]);
      assert RegisterOf(ref) == Ok(ExpectedRegister(ref));
      assert AllHave(refs[1..], RegisterKeys) by {
        forall i | 0 <= i < |refs[1..]| ensures Has(refs[1..][i], RegisterKeys) {
          assert refs[1..][i] == refs[i + 1];
        }
      }
      RegistersBuilt(refs[1..]);
    }
  }

  /** On a document of the expected types, loading succeeds exactly when the
      document conforms, and then builds one coil and one register per entry
      and the settings the sections give. */
  lemma FromParsedShaped(data: Json)
    requires Shaped(data)
    ensures FromParsed(data).Ok? <==> Conforms(data)
    ensures FromParsed(data).Ok? ==>
              var mapping := Field(data, "modbus_mapping").value;
              && CoilsFromYaml(data).Ok?
              && RegistersFromYaml(data).Ok?
              && |CoilsFromYaml(data).value| == |EntriesUnder(mapping, "coils")|
              && |RegistersFromYaml(data).value| == |EntriesUnder(mapping, "holding_registers")|
              && GetMqttSettings(FromParsed(data).value) == ExpectedMqtt(Field(data, "mqtt_settings").value)
              && GetModbusSettings(FromParsed(data).value) == ExpectedModbus(Field(data, "modbus_settings").value)
              && FromParsed(data).value ==
                   New(CoilsFromYaml(data).value, RegistersFromYaml(data).value,
                       ExpectedMqtt(Field(data, "mqtt_settings").value), ExpectedModbus(Field(data, "modbus_settings").value))
  {
    ValidateShaped(data);
    if Conforms(data) {
      SettingsOfComplete(data);
      ListsOfConforming(data);
    }
  }

  /** The MQTT settings a complete section describes. */
  function ExpectedMqtt(section: Json): MqttSettings
    requires Has(section, MqttKeys)
  {
    assert Dict.HasKey(section.fields, MqttKeys[0]) && Dict.HasKey(section.fields, MqttKeys[1]);
    assert Dict.HasKey(section.fields, MqttKeys[2]);
    MqttSettings(Field(section, "host").value, Field(section, "port").value, Field(section, "command_topic").value)
  }

  /** The Modbus settings a complete section describes. */
  function ExpectedModbus(section: Json): ModbusSettings
    requires Has(section, ModbusKeys)
  {
    assert Dict.HasKey(section.fields, ModbusKeys[0]) && Dict.HasKey(section.fields, ModbusKeys[1]);
    ModbusSettings(Field(section, "host").value, Field(section, "port").value)
  }

  /** Complete settings sections give settings holding their items. */
  lemma SettingsOfComplete(data: Json)
    requires data.JObject? && SectionsComplete(data)
    ensures MqttFromYaml(data) == Ok(ExpectedMqtt(Field(data, "mqtt_settings").value))
    ensures ModbusFromYaml(data) == Ok(ExpectedModbus(Field(data, "modbus_settings").value))
  {
    var mqtt := Field(data, "mqtt_settings").value;
    assert Dict.HasKey(mqtt.fields, MqttKeys[0]) && Dict.HasKey(mqtt.fields, MqttKeys[1]);
    assert Dict.HasKey(mqtt.fields, MqttKeys[2]);
    var modbus := Field(data, "modbus_settings").value;
    assert Dict.HasKey(modbus.fields, ModbusKeys[0]) && Dict.HasKey(modbus.fields, ModbusKeys[1]);
  }

  /** A conforming document builds one coil and one register per entry, each
      the one its entry describes. */
  lemma ListsOfConforming(data: Json)
    requires Shaped(data) && Conforms(data)
    ensures var mapping := Field(data, "modbus_mapping").value;
            && CoilsFromYaml(data).Ok?
            && RegistersFromYaml(data).Ok?
            && |CoilsFromYaml(data).value| == |EntriesUnder(mapping, "coils")|
            && |RegistersFromYaml(data).value| == |EntriesUnder(mapping, "holding_registers")|
    ensures var coils := EntriesUnder(Field(data, "modbus_mapping").value, "coils");
            forall i :: 0 <= i < |coils| ==> CoilsFromYaml(data).value[i] == ExpectedCoil(coils[i])
    ensures var regs := EntriesUnder(Field(data, "modbus_mapping").value, "holding_registers");
            forall i :: 0 <= i < |regs| ==> RegistersFromYaml(data).value[i] == ExpectedRegister(regs[i])
  {
    var mapping := Field(data, "modbus_mapping").value;
    MappingOfShaped(mapping);
    CoilsBuilt(EntriesUnder(mapping, "coils"));
    RegistersBuilt(EntriesUnder(mapping, "holding_registers"));
  }

  /** The name an entry gives, if it is a dict with one. */
  function EntryName(ref: Json): Option<Json> {
    if ref.JObject? then Field(ref, "name") else None
  }

  /** Coils built one per complete entry are looked up by the entries' names. */
  lemma BuiltCoilLookup(refs: seq<Json>, built: seq<Coil>, regs: seq<HoldingRegister>,
                        mqtt: MqttSettings, modbus: ModbusSettings, name: Json)
    requires AllHave(refs, CoilKeys)
    requires |built| == |refs|
    requires forall i :: 0 <= i < |refs| ==> built[i] == ExpectedCoil(refs[i])
    ensures var r := GetCoil(New(built, regs, mqtt, modbus), name);
            && (r.Ok? <==> exists i :: 0 <= i < |refs| && EntryName(refs[i]) == Some(name))
            && (r.Ok? ==> exists i :: 0 <= i < |refs| && EntryName(refs[i]) == Some(name) && r.value == ExpectedCoil(refs[i])
                                      && forall j :: i < j < |refs| ==> EntryName(refs[j]) != Some(name))
            && (r.Err? ==> r.error == PyError(KeyError, ReprOf(name)))
  {
    assert forall i :: 0 <= i < |refs| ==> Dict.HasKey(refs[i].fields, CoilKeys[0]);
    assert forall i :: 0 <= i < |refs| ==> Some(built[i].name) == EntryName(refs[i]);
    CoilLookup(built, regs, mqtt, modbus, name);
  }

  /** Registers built one per complete entry are looked up by the entries' names. */
  lemma BuiltRegisterLookup(coils: seq<Coil>, refs: seq<Json>, built: seq<HoldingRegister>,
                            mqtt: MqttSettings, modbus: ModbusSettings, name: Json)
    requires AllHave(refs, RegisterKeys)
    requires |built| == |refs|
    requires forall i :: 0 <= i < |refs| ==> built[i] == ExpectedRegister(refs[i])
    ensures var r := GetHoldingRegister(New(coils, built, mqtt, modbus), name);
            && (r.Ok? <==> exists i :: 0 <= i < |refs| && EntryName(refs[i]) == Some(name))
            && (r.Ok? ==> exists i :: 0 <= i < |refs| && EntryName(refs[i]) == Some(name) && r.value == ExpectedRegister(refs[i])
                                      && forall j :: i < j < |refs| ==> EntryName(refs[j]) != Some(name))
            && (r.Err? ==> r.error == PyError(KeyError, ReprOf(name)))
  {
    assert forall i :: 0 <= i < |refs| ==> Dict.HasKey(refs[i].fields, RegisterKeys[0]);
    assert forall i :: 0 <= i < |refs| ==> Some(built[i].name) == EntryName(refs[i]);
    RegisterLookup(coils, built, mqtt, modbus, name);
  }

  /** A conforming document loads as the configuration built from its coil
      list, its register list and its two settings sections. */
  lemma LoadedParts(data: Json)
    requires Shaped(data) && Conforms(data)
    ensures var mapping := Field(data, "modbus_mapping").value;
            var coils := EntriesUnder(mapping, "coils");
            var regs := EntriesUnder(mapping, "holding_registers");
            && AllHave(coils, CoilKeys) && AllHave(regs, RegisterKeys)
            && CoilsFromYaml(data).Ok? && |CoilsFromYaml(data).value| == |coils|
            && (forall i :: 0 <= i < |coils| ==> CoilsFromYaml(data).value[i] == ExpectedCoil(coils[i]))
            && RegistersFromYaml(data).Ok? && |RegistersFromYaml(data).value| == |regs|
            && (forall i :: 0 <= i < |regs| ==> RegistersFromYaml(data).value[i] == ExpectedRegister(regs[i]))
            && FromParsed(data) ==
                 Ok(New(CoilsFromYaml(data).value, RegistersFromYaml(data).value,
                        ExpectedMqtt(Field(data, "mqtt_settings").value), ExpectedModbus(Field(data, "modbus_settings").value)))
  {
    FromParsedShaped(data);
    ListsOfConforming(data);
  }

  /** In a loaded configuration a coil is found exactly when some coil entry of
      the document has that name, and it is the coil the last such entry
      describes; otherwise KeyError with the repr of the name. */
  lemma LoadedCoilLookup(data: Json, name: Json)
    requires Shaped(data) && Conforms(data)
    ensures FromParsed(data).Ok?
    ensures var coils := EntriesUnder(Field(data, "modbus_mapping").value, "coils");
            var r := GetCoil(FromParsed(data).value, name);
            && (r.Ok? <==> exists i :: 0 <= i < |coils| && EntryName(coils[i]) == Some(name))
            && (r.Ok? ==> exists i :: 0 <= i < |coils| && EntryName(coils[i]) == Some(name) && r.value == ExpectedCoil(coils[i])
                                      && forall j :: i < j < |coils| ==> EntryName(coils[j]) != Some(name))
            && (r.Err? ==> r.error == PyError(KeyError, ReprOf(name)))
  {
    var mapping := Field(data, "modbus_mapping").value;
    LoadedParts(data);
    BuiltCoilLookup(EntriesUnder(mapping, "coils"), CoilsFromYaml(data).value, RegistersFromYaml(data).value,
                    ExpectedMqtt(Field(data, "mqtt_settings").value), ExpectedModbus(Field(data, "modbus_settings").value), name);
  }

  /** The same for holding registers: the last register entry of a name wins. */
  lemma LoadedRegisterLookup(data: Json, name: Json)
    requires Shaped(data) && Conforms(data)
    ensures FromParsed(data).Ok?
    ensures var regs := EntriesUnder(Field(data, "modbus_mapping").value, "holding_registers");
            var r := GetHoldingRegister(FromParsed(data).value, name);
            && (r.Ok? <==> exists i :: 0 <= i < |regs| && EntryName(regs[i]) == Some(name))
            && (r.Ok? ==> exists i :: 0 <= i < |regs| && EntryName(regs[i]) == Some(name) && r.value == ExpectedRegister(regs[i])
                                      && forall j :: i < j < |regs| ==> EntryName(regs[j]) != Some(name))
            && (r.Err? ==> r.error == PyError(KeyError, ReprOf(name)))
  {
    var mapping := Field(data, "modbus_mapping").value;
    LoadedParts(data);
    BuiltRegisterLookup(CoilsFromYaml(data).value, EntriesUnder(mapping, "holding_registers"), RegistersFromYaml(data).value,
                        ExpectedMqtt(Field(data, "mqtt_settings").value), ExpectedModbus(Field(data, "modbus_settings").value), name);
  }
}
