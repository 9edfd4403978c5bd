# Remote commands handler: a Dafny model

The remote commands handler is a gateway. It receives commands over MQTT and
writes them to a Modbus device. A command is a JSON object such as
`{"action": "evgBatteryModeCoil", "value": true}`. Its `action` names a coil or
a holding register from the YAML configuration. A coil command writes one coil,
or a list of coils. A register command encodes its value with the payload
builder and writes the resulting 16-bit registers. The data type tag and the
byte/word order of the register's entry decide the encoding. Every failure is
meant to end as one report on the error channel.

This project models that core as pure Dafny functions over immutable data:

- `Endianness` (memory_order.dfy): the `MemoryOrder` letter codes
  (AB, ABCD, BA, CDAB, BADC) and the byte/word layout each one names.
- `Registers` (registers.dfy): big-endian byte strings, 16-bit words, padding.
- `PayloadBuilder` (payload_builder.dfy): the three setters and `build`.
  Integers are packed as pymodbus's `BinaryPayloadBuilder` packs them:
  - big-endian two's-complement bytes of the declared width;
  - words reversed for word order Little;
  - the two bytes of each word swapped for byte order Little;
  - an odd length padded with a zero byte.
- `Message` (message.dfy): `CommandMessage.read`.
- `Configuration` (configuration.dfy):
  - the `Configuration` lookups;
  - `_validate_config`;
  - the builders that turn the parsed YAML document into coils, holding
    registers and settings.
- `ModbusClient` (modbus_client.dfy): `_write_coil`, `_write_coils`,
  `_write_register`, `write_command` and `_build_register_payload`. The Modbus
  transport is a parameter: a function from each request (connect, write,
  close) to what the call does, which is to return a response or raise.
- `MqttReader` (mqtt_reader.dfy): `add_message_callback` and the message
  handler that `_on_message` returns.
- Support modules:
  - `Wrappers` (`Option`, `Result`);
  - `Errors` (exception kinds, report categories);
  - `PyValue` (parsed JSON/YAML values with the Python operations the code
    applies to them);
  - `Dict` (a Python dict as its insertion log, where the last binding of a
    key wins).

Python exceptions are values: every operation that can raise returns
`Result<_, PyError>`, and the error carries the exception class and its `str`.
The calls into the error handler's `publish` are recorded as a sequence of
`Report`s. The transport's requests are recorded in call order.

## Model

| member | source | states |
|---|---|---|
| Endianness.StrToEndian | app/memory_order.py:9-36 | `None` and every string outside the recognised codes decode to (byte Big, word Big); construction never fails, and `order()` returns the decoded pair |
| Endianness.New | app/memory_order.py:9-36 | constructing from a recognised code lays out the bytes A, B (, C, D) of a value exactly as the code spells them; `None` and any other string give big-endian bytes and words |
| Endianness.NamedCodes | app/memory_order.py:22-34 | AB and ABCD give (Big, Big), BA gives (Little, Little), CDAB gives byte Big / word Little, BADC gives byte Little / word Big |
| Endianness.CodeRoundTrip | app/memory_order.py:22-34 | each of the four orders is decoded from its canonical code, so AB, BA, CDAB and BADC name four different orders |
| Endianness.DefaultOrder | app/memory_order.py:16-20 | `None`, ABCD, an unknown code such as FOO, and the empty string all give (Big, Big) |
| Endianness.CodeSpellsLayout | app/memory_order.py:22-34 | laying out the bytes A, B (, C, D) of a value in a code's decoded order spells that code: CDAB swaps the words, BADC swaps the bytes within each word, BA reverses |
| Endianness.FourByteLayouts | app/payload_builder.py:25-26 | a 32-bit value's bytes ABCD are laid out as ABCD, CDAB, BADC and DCBA under the four orders |
| Endianness.ArrangeRoundTrip | app/payload_builder.py:25-26 | every layout the builder's byte and word orders produce can be undone, so no two byte strings share a layout |
| PayloadBuilder.SetDataType | app/payload_builder.py:6-7 | sets the data type and leaves the value and the memory order as they were |
| PayloadBuilder.SetValue | app/payload_builder.py:9-10 | sets the value and leaves the data type and the memory order as they were |
| PayloadBuilder.SetMemoryOrder | app/payload_builder.py:12-13 | sets the memory order and leaves the data type and the value as they were |
| PayloadBuilder.SettersCommute | app/payload_builder.py:6-13 | each setter changes only its own setting, so the setters commute |
| PayloadBuilder.Build | app/payload_builder.py:15-54 | reports a missing memory order, then data type, then value, as AttributeError with the source's text; AttributeError exactly when a setting is missing or a STRING value is a list or dict; with all settings and a tag outside the thirteen accepted ones, RuntimeError "unknown data type <tag>"; success only with all settings and an accepted tag; every failure is AttributeError, RuntimeError, struct.error, OverflowError or TypeError |
| PayloadBuilder.ParseTag | app/payload_builder.py:28-54 | a tag selects an encoder exactly when it is one of the thirteen strings the match lists |
| PayloadBuilder.TagName | app/payload_builder.py:28-52 | every data type has a tag that selects it |
| PayloadBuilder.BuildSelects | app/payload_builder.py:28-52 | with all settings made and an accepted tag, `build` runs that tag's encoder on the value in the memory order |
| PayloadBuilder.Float32Alias | app/payload_builder.py:31-32 | FLOAT32 and FLOAT32-IEEE produce the same result for every builder |
| PayloadBuilder.IntegerRange | app/payload_builder.py:35-50 | an int value builds exactly when it lies in the declared type's range; outside it, struct.error with the format's range text |
| PayloadBuilder.IntegerRanges | app/payload_builder.py:35-50 | the ranges are INT8 -128..127, UINT8 0..255, INT16 -32768..32767, UINT16 0..65535, and the 32- and 64-bit two's-complement and unsigned ranges |
| PayloadBuilder.IntegerRoundTrip | app/payload_builder.py:35-56 | every in-range integer of every integer type builds into the type's number of registers (1, 1, 1, 1, 2, 2, 4, 4), and decoding them with the same type and memory order gives the integer back, for all four orders |
| PayloadBuilder.PackRoundTrip | app/payload_builder.py:25-56 | unsigned packing of any width in any order is undone by unpacking |
| PayloadBuilder.TwosComplement | app/payload_builder.py:35-50 | an in-range integer's two's complement fits its width and reads back as the integer |
| PayloadBuilder.PackByte | app/payload_builder.py:35-38 | an 8-bit value occupies the high byte of its single register, in every memory order |
| PayloadBuilder.SmallValuesUnderAB | tests/app/test_payload_builder.py:38-131 | under AB, a non-negative value below 2^16 of a 16-, 32- or 64-bit type fills the last register and the others are zero; an 8-bit value sits in the high byte |
| PayloadBuilder.ExampleInt16UnderAB | tests/app/test_payload_builder.py:98-107 | INT16 5 under AB is the single register 5 |
| PayloadBuilder.ExamplesUnderAB8 | tests/app/test_payload_builder.py:62-95 | UINT8 0 and INT8 0 under AB are the single register 0 |
| PayloadBuilder.EncodeInteger | app/payload_builder.py:35-50 | packs exactly the ints and bools that lie in the type's range; the result has the type's register count and decodes, with the same type and order, back to the value; every failure is struct.error |
| PayloadBuilder.EncodeFloat | app/payload_builder.py:29-34 | packs exactly the numbers (ints, bools, finite floats, -0.0, the infinities and NaN) whose IEEE encoding does not overflow; the registers hold that bit pattern in the memory order; every failure is struct.error or OverflowError |
| PayloadBuilder.FloatBits | app/payload_builder.py:29-34 | a float's registers hold its IEEE bit pattern in the memory order, unless packing a finite value overflows; -0.0, the infinities and NaN always pack; a value that is not a number raises struct.error |
| PayloadBuilder.Bits | app/payload_builder.py:29-34 | -0.0, the infinities and NaN always have a bit pattern, whatever the finite-value encoding |
| PayloadBuilder.SpecialPattern | app/payload_builder.py:29-34 | the patterns of -0.0, the infinities and NaN fit the type's width and have the sign bit set exactly for -0.0 and -Infinity |
| PayloadBuilder.EncodeSpecial | app/payload_builder.py:29-34 | -0.0, the infinities and NaN are packed as their fixed pattern, unreduced, in the memory order |
| PayloadBuilder.SignedZerosDiffer | app/payload_builder.py:29-34 | for every float type and memory order, -0.0 and 0.0 are sent as different registers |
| PayloadBuilder.Float32UnderAB | app/payload_builder.py:31-32 | under AB, FLOAT32 sends the pattern of -0.0, an infinity or NaN high half first |
| PayloadBuilder.Float32Patterns | app/payload_builder.py:31-32 | the FLOAT32 patterns: -0.0 is 0x80000000, Infinity 0x7f800000, -Infinity 0xff800000, NaN 0x7fc00000 |
| PayloadBuilder.Float32NegativeZeroUnderAB | app/payload_builder.py:31-32 | FLOAT32 -0.0 under AB is sent as [0x8000, 0] |
| PayloadBuilder.Float32NaNUnderAB | app/payload_builder.py:31-32 | FLOAT32 NaN under AB is sent as [0x7fc0, 0] |
| PayloadBuilder.Float32InfinityUnderAB | app/payload_builder.py:31-32 | FLOAT32 Infinity under AB is sent as [0x7f80, 0] |
| PayloadBuilder.Float32NegativeInfinityUnderAB | app/payload_builder.py:31-32 | FLOAT32 -Infinity under AB is sent as [0xff80, 0] |
| PayloadBuilder.StringLayout | app/payload_builder.py:51-52 | a str of n characters fills (n + 1) / 2 registers, two bytes each, with the first n bytes of its UTF-8 encoding, zero bytes following when the encoding is shorter; the memory order plays no part |
| PayloadBuilder.StringWhole | app/payload_builder.py:51-52 | a str whose characters each take one UTF-8 byte is sent whole, padded with a zero byte to a whole register |
| PayloadBuilder.ExampleTwoByteCharacter | app/payload_builder.py:51-52 | "é", UTF-8 C3 A9, is sent as the single register 0xC300: its second byte is cut |
| PayloadBuilder.StringOfContainer | app/payload_builder.py:51-52 | a list or dict value for STRING raises AttributeError "'list' object has no attribute 'encode'" (or 'dict') |
| PayloadBuilder.EncodeString | app/payload_builder.py:51-52 | `add_string` fails exactly on a non-str value: AttributeError exactly for a list or dict, TypeError otherwise; a str of n characters gives (n + 1) / 2 registers holding its first n UTF-8 bytes, zero bytes after them |
| PayloadBuilder.UnknownTag | app/payload_builder.py:53-54 | the tag FOO raises RuntimeError "unknown data type FOO" |
| Message.Read | app/message.py:15-28 | returns the parsed document unchanged exactly when it parses and has a truthy `action` and a `value` key; every failure is InvalidMessageError; a syntax error, a dict missing a component, and a non-dict each get the text of their own handler; any other exception of `json.loads` becomes "Invalid message: <its text>" |
| Message.FalsyActionRejected | app/message.py:18-26 | an absent `action`, or one that is "", 0, false or null, is reported as a missing component |
| Message.ValueMayBeFalsy | app/message.py:19-20 | only the presence of `value` is checked: null and false are accepted |
| Message.MissingValueRejected | app/message.py:19-26 | an object without `value` is reported as a missing component |
| Message.NonObjectRejected | app/message.py:27-28 | a JSON list, string or number is rejected as "Invalid message: '<type>' object has no attribute 'get'" |
| Configuration.New | app/configuration.py:61-71 | the coil map holds a name exactly when some coil in the list has it, the register map likewise, and the settings are kept as given |
| Configuration.GetCoil | app/configuration.py:94-95 | finds a coil exactly when the map holds the name, and returns the map's entry; otherwise KeyError with the repr of the name |
| Configuration.GetHoldingRegister | app/configuration.py:103-104 | the same for holding registers |
| Configuration.CoilLookup | app/configuration.py:68 | after construction a coil is found exactly when some coil has that name, and it is the last coil of that name in the list |
| Configuration.RegisterLookup | app/configuration.py:69 | the same for holding registers: the last register of a name wins |
| Configuration.GetCoils | app/configuration.py:97-98 | one coil per distinct name in the map, each the coil `get_coil` returns for that name, in the map's key order |
| Configuration.GetHoldingRegisters | app/configuration.py:100-101 | one register per distinct name in the map, each the register `get_holding_register` returns for that name, in the map's key order |
| Configuration.GetModbusSettings | app/configuration.py:109-110 | the fresh record equals the stored Modbus settings |
| Configuration.UniqueNamesKept | app/configuration.py:97-101 | with unique names, `get_coils` and `get_holding_registers` return the constructor's lists unchanged |
| Configuration.SettingsKept | app/configuration.py:106-110 | both settings records come back equal to the ones given |
| Configuration.CheckItems | app/configuration.py:168-171 | on a dict section the item loop passes exactly when every required item is present, and never raises |
| Configuration.CheckEntry | app/configuration.py:181-184 | on a dict entry the key loop passes exactly when every key is present, and never raises |
| Configuration.SectionsChecked | app/configuration.py:164-171 | when the present sections are dicts, the section loop passes exactly when every required section is present with all of its items, and never raises |
| Configuration.ValidateConfig | app/configuration.py:157-193 | on any document, validation raises only ConfigurationFileInvalidError, for a failed assert, or the TypeError, KeyError or AttributeError of a lookup on a value of the wrong type |
| Configuration.ValidateShaped | app/configuration.py:157-193 | on a document of the expected types, validation passes exactly when it conforms (settings sections with their items, a mapping, at least one entry, every entry with its keys); every rejection is ConfigurationFileInvalidError |
| Configuration.MappingOfShaped | app/configuration.py:173-191 | on a mapping of the expected types nothing raises: empty mappings are rejected, then the first incomplete coil is reported, then the first incomplete register |
| Configuration.MissingSectionReported | app/configuration.py:164-167 | the first missing section, in the order mqtt_settings, modbus_settings, modbus_mapping, is reported as "No '<key>' section provided in configuration" |
| Configuration.MissingItemReported | app/configuration.py:168-171 | the first missing item of the first incomplete section is reported as "No '<item>' provided in '<key>' section of configuration" |
| Configuration.EmptyMappingRejected | app/configuration.py:173-177 | a mapping with neither coils nor holding registers is rejected with "No keys defined in holding_registers or coils" |
| Configuration.IncompleteCoilReported | app/configuration.py:179-184 | the first missing key of the first incomplete coil is reported with the coil's index |
| Configuration.IncompleteRegisterReported | app/configuration.py:186-191 | once every coil is complete, the first missing key among name, address, byte_order and data_type of the first incomplete register is reported with its index |
| Configuration.CodeText | app/configuration.py:144 | a str `byte_order` is decoded as its code; any other value gives the default order |
| Configuration.CoilsBuilt | app/configuration.py:130-136 | complete coil entries build one coil each, in order, from their name and address |
| Configuration.RegistersBuilt | app/configuration.py:139-154 | complete register entries build one register each, in order, with the memory order decoded from byte_order and scale defaulting to 1.0 |
| Configuration.CoilsFromYaml | app/configuration.py:130-136 | an absent mapping section, or a mapping without `coils`, gives no coils; any failure is a lookup's TypeError, KeyError or AttributeError |
| Configuration.RegistersFromYaml | app/configuration.py:139-154 | an absent mapping section, or a mapping without `holding_registers`, gives no registers; any failure is a lookup's TypeError, KeyError or AttributeError |
| Configuration.MqttFromYaml | app/configuration.py:123-127 | succeeds exactly when the document is a dict whose mqtt_settings section holds host, port and command_topic, and then gives those three values; otherwise a lookup error |
| Configuration.ModbusFromYaml | app/configuration.py:118-120 | succeeds exactly when the document is a dict whose modbus_settings section holds host and port, and then gives those two values; otherwise a lookup error |
| Configuration.SettingsOfComplete | app/configuration.py:118-127 | complete settings sections give records holding their host, port and command topic |
| Configuration.FromParsed | app/configuration.py:86-92 | validation runs first: loading never succeeds on a document validation rejects, and then raises validation's exception; every failure is ConfigurationFileInvalidError or a lookup's TypeError, KeyError or AttributeError |
| Configuration.FromParsedShaped | app/configuration.py:86-92 | on a document of the expected types, loading succeeds exactly when it conforms; it then builds one coil per coil entry and one register per register entry, and the configuration is the one constructed from those lists and the settings the sections give |
| Configuration.ListsOfConforming | app/configuration.py:130-154 | on a conforming document each built coil and register is the one its entry describes |
| Configuration.LoadedParts | app/configuration.py:86-92 | a conforming document loads as the configuration constructed from the coils and registers its entries describe and the settings its sections give |
| Configuration.LoadedCoilLookup | app/configuration.py:86-95 | in a loaded configuration `get_coil` finds a name exactly when some coil entry of the document has it, and returns the coil the last such entry describes; otherwise KeyError with the repr of the name |
| Configuration.LoadedRegisterLookup | app/configuration.py:86-104 | the same for `get_holding_register`: the last register entry of a name wins |
| PyValue.Subscript | app/configuration.py:119-126 | `x[key]` succeeds exactly on a dict that holds the key, and gives its value; on a dict without the key it raises KeyError; every failure is TypeError, KeyError or AttributeError |
| PyValue.SubscriptErrors | app/configuration.py:119-126 | the KeyError of a missing key carries the repr of the key; on a str, TypeError "string indices must be integers, not 'str'" |
| PyValue.Repr | app/configuration.py:94-95 | the repr of a str opens and closes with the quote Python picks: `"` when the str holds `'` and no `"`, otherwise `'` |
| PyValue.ReprRoundTrip | app/configuration.py:94-95 | the repr of every str reads back as that str when its quotes are stripped and its escapes undone, so two different names never share a KeyError text |
| PyValue.ReprPlain | app/configuration.py:94-95 | a str without quotes, backslashes or control characters has the repr `'` + s + `'` |
| PyValue.ReprSingleQuote | app/configuration.py:94-95 | `it's` is shown as `"it's"` |
| PyValue.ReprBothQuotes | app/configuration.py:94-95 | a str holding both quotes is delimited by `'` and escapes the `'` inside |
| PyValue.ReprEscapes | app/configuration.py:94-95 | a backslash is doubled and a newline is shown as `\n` |
| ModbusClient.Wrapped | app/modbus_client.py:62-63 | a ModbusException becomes ModbusClientError with the same text; any other exception passes unchanged |
| ModbusClient.WriteCoilList | app/modbus_client.py:49-63 | an unknown name raises its KeyError before any request; otherwise the list is written as given to the coil's first address after connect; success returns the number of coils; no ModbusException leaves |
| ModbusClient.WriteSingleCoil | app/modbus_client.py:65-79 | an unknown name raises its KeyError before any request; otherwise the bit is written to the coil's first address with slave 1 after connect; success returns 1; no ModbusException leaves |
| ModbusClient.RegisterPayload | app/modbus_client.py:135-140 | AttributeError exactly when the register's data type or the value is None, the data type reported first, or when a STRING register is given a list or dict; success only for an accepted tag; every failure is one of the exceptions `build` raises |
| ModbusClient.Transmit | app/modbus_client.py:52-63 | connect is always the first request; the write is requested only after connect returned and `address[0]` was evaluated, and it goes to that address; nothing leaves as a bare ModbusException |
| ModbusClient.TransmitProtocol | app/modbus_client.py:68-79 | requests come in the order connect, write, close; close is sent exactly when connect and the write returned; the count is returned exactly when the device accepted the write and nothing raised |
| ModbusClient.WriteRegister | app/modbus_client.py:81-99 | nothing is sent unless the entry is found and the payload builds; a payload failure keeps its text and becomes InvalidMessageError exactly when it is AttributeError, RuntimeError or struct.error; no ModbusException leaves the method |
| ModbusClient.WriteCommand | app/modbus_client.py:101-132 | an input type other than coil or register does nothing and returns 0; at most one report, and a report means 0 is returned; whatever escapes is neither ModbusClientError nor ModbusException |
| ModbusClient.CommandProtocol | app/modbus_client.py:101-132 | every call requests connect, write, close in that order, stopping early only on an exception; it returns without a report exactly when the device accepted the write, and then returns the count of what was written |
| ModbusClient.UnknownNameEscapes | app/modbus_client.py:101-132 | a name with no entry raises KeyError out of `write_command` before any request, and only then |
| ModbusClient.EncodingFailureReported | app/modbus_client.py:118-125 | a value the builder rejects with AttributeError, RuntimeError or struct.error is reported once as an invalid message with the builder's text; nothing is sent and 0 is returned |
| ModbusClient.TransportFailureReported | app/modbus_client.py:112-130 | a ModbusException from the last request made, or an error response to the write, is reported once as a Modbus error with its text, and 0 is returned |
| ModbusClient.AddressFailureEscapes | app/modbus_client.py:65-73 | an address that cannot be subscripted raises out of `write_command` after the connect request |
| ModbusClient.CoilRequests | app/modbus_client.py:106-111 | a list value is written as given to the coil's first address; any other value is written as its truth value with slave 1 |
| ModbusClient.RegisterRequests | app/modbus_client.py:81-92 | once connect returns, the write is requested exactly when the payload builds and the address can be subscripted; it carries the builder's registers for the configured data type and memory order, sent to the register's first address with slave 1 |
| ModbusClient.RegisterValueRoundTrip | app/modbus_client.py:135-140 | an in-range integer for an integer-typed register is sent as registers that decode, with the same type and memory order, back to the integer |
| ModbusClient.ExampleRegisterWrite | tests/app/test_modbus_client.py:87-92 | INT16 0 to the register at [1] in AB order sends connect, write [0] to address 1 with slave 1, close, and returns 1 |
| MqttReader.AddMessageCallback | app/mqtt_reader.py:38-39 | the callback is appended after the existing ones, which keep their order |
| MqttReader.AddedCallbackRunsLast | app/mqtt_reader.py:86-87 | an added callback runs after the earlier ones, and only if none of them raised |
| MqttReader.RunCallbacks | app/mqtt_reader.py:86-87 | callbacks run in registration order; the loop stops at the first one that raises; if none raises, all ran |
| MqttReader.FirstRaise | app/mqtt_reader.py:86-87 | the callbacks up to and including the first that raises are run, and no others |
| MqttReader.Lookup | app/error_handler.py:11-16 | looking up a category fails exactly for UNHANDLED on a class that does not define it |
| MqttReader.PrepareStages | app/mqtt_reader.py:69-75 | preparation fails only in decoding, `read`, the constructor or `validate`; after `read` accepts a document the constructor gets its last `action` and `value` bindings |
| MqttReader.OnMessage | app/mqtt_reader.py:67-95 | at most one report per message; callbacks run only for a command that was read, built and validated |
| MqttReader.MessageErrorsReported | app/mqtt_reader.py:76-85 | an invalid message or an unknown command is published once under its own category with its text, and no callback runs |
| MqttReader.RejectedPayloadReported | app/mqtt_reader.py:70-80 | a payload `read` rejects is published as an invalid message with `read`'s text |
| MqttReader.CallbackFailureReported | app/mqtt_reader.py:86-95 | a raising callback ends the loop: the callbacks before it ran and the ones after it do not; with UNHANDLED defined its exception is published under UNHANDLED with its text; as written, the AttributeError of the category lookup leaves the handler and nothing is published |
| MqttReader.Boundary | app/mqtt_reader.py:67-95 | with the category the catch-all names, nothing escapes the handler, and there is no report exactly when preparation and every callback succeed, in which case all callbacks ran |
| MqttReader.UnhandledEscapesAsWritten | app/mqtt_reader.py:92-95 | as written, a raising callback makes the handler raise AttributeError and publish nothing |
| MqttReader.PrepareFailureEscapesAsWritten | app/mqtt_reader.py:68-95 | a failure of the first try block other than InvalidMessageError and UnknownCommandError (a payload that does not decode, a constructor or `validate` raising something else) escapes as AttributeError as written, and is published as UNHANDLED with its text once the category is defined; no callback runs |
| MqttReader.ConstructorAsWritten | app/mqtt_reader.py:72-74 | with the constructor as app/message.py:11-28 defines it, which takes no arguments, no callback runs for any message; a message `read` accepts escapes as AttributeError with the category class as written, and is published as UNHANDLED "CommandMessage() takes no arguments" once the category is defined |
| MqttReader.AcceptedCommandRunsCallbacks | app/mqtt_reader.py:68-87 | once `read` accepts a message and the constructor and `validate` accept the command, every callback runs in order, and when none raises nothing is published or escapes, whichever category class is used |
| MqttReader.SameOutsideCatchAll | app/error_handler.py:11-16 | the class as written and the intended one differ only where the catch-all publishes UNHANDLED |

## Findings

| source | as written | input that shows it | evidently intended | confidence | as-written member | corrected member |
|---|---|---|---|---|---|---|
| app/mqtt_reader.py:92-95 | the catch-all handler publishes under `ErrorHandler.Category.UNHANDLED`, but the `Category` class (app/error_handler.py:11-16) defines only MODBUS_ERROR, MQTT_ERROR, INVALID_MESSAGE, UNKNOWN_COMMAND and RUNTIME_ERROR. The attribute lookup raises AttributeError inside the `except` clause, and it leaves the handler | a well-formed command for a configured coil, with a registered callback that raises `RuntimeError("didn't expect that!")` | one report in the UNHANDLED category carrying the exception's text, and nothing leaves the handler | high; not executed. The unit test mocks the error handler, so the mock's `Category` accepts any attribute name | MqttReader.UnhandledEscapesAsWritten | MqttReader.Boundary |
| app/mqtt_reader.py:72-75 | the handler builds `CommandMessage(action, value, configuration)` and calls `validate()`, but `CommandMessage` (app/message.py:11-28) defines neither `__init__` nor `validate`. The call raises TypeError "CommandMessage() takes no arguments", which reaches the catch-all | `{"action": "evgBatteryModeCoil", "value": true}` with a registered callback | the three-argument constructor and `validate` that tests/app/test_message.py:26-57 use, so an accepted command reaches the callbacks | medium; not executed. The tests also import names app/message.py does not define, so the file may be from another revision than its callers | MqttReader.ConstructorAsWritten | MqttReader.AcceptedCommandRunsCallbacks |

## Left out

- Network and process I/O are not modelled:
  - the MQTT client's connect, subscribe and loop;
  - `run`, `stop`, and the `_on_connect` / `_on_disconnect` callbacks (logging only);
  - `mqtt_client.py`, `mqtt_writer.py`, `remote_command_handler.py` and `main.py`.
- `ErrorHandler.publish` and `from_config` are not modelled. A report is the publish call; whether the handler forwards it to MQTT is not part of this model.
- `json.loads`, `payload.decode()`, the `CommandMessage` constructor, `CommandMessage.validate` and the callbacks are parameters of the reader. The parser and the callbacks are not part of this model. The `CommandMessage` class as written takes no constructor arguments and has no `validate` (app/message.py:11-28); `MqttReader.ConstructorAsWritten` covers that constructor. Everywhere else the parameters stand for the three-argument constructor and the `validate` method that tests/app/test_message.py:26-57 use, whose checks are not modelled.
- app/exceptions.py defines only `ConfigurationFileNotFoundError`. The other exception classes the code imports (`ConfigurationFileInvalidError`, `InvalidMessageError`, `UnknownCommandError`, `ModbusClientError`) are not defined there; they are treated as distinct classes, none a subclass of another.
- ModbusClient.Command and ModbusClient.InputType stand in for the command message. app/modbus_client.py:30 imports `InputTypes` from app.configuration, which does not define it, and the `CommandMessage` attributes `name`, `value` and `input_type` that `write_command` reads are not defined in the source. The model takes those three attributes as given, with the input type a coil, a register or anything else.
- The IEEE-754 bit patterns of finite floats and the UTF-8 bytes of strings are parameters (`PayloadBuilder.Codecs`). Float rounding is not modelled. The patterns of -0.0, the infinities and NaN are fixed in the model (`PayloadBuilder.Bits`).
- PyValue.Json: a float is a real number, -0.0, an infinity or NaN. It is not rounded to a double, and the NaN payloads other than the quiet NaN `json.loads` produces are not modelled. As a dict key, NaN compares equal to itself in the model; Python's NaN is never equal to another NaN object.
- PyValue.Json: a Dafny string cannot hold a lone surrogate such as the one `json.loads` reads from `"\ud800"`. For such a value `str.encode()` in `add_string` raises UnicodeEncodeError, which `_write_register` does not catch, so it leaves `write_command`. The model does not cover that value.
- PayloadBuilder.EncodeString: for the same reason, a str holding a lone surrogate, which raises UnicodeEncodeError, is not covered.
- PayloadBuilder.StringLayout: does not cover a str holding a lone surrogate; that str has no UTF-8 encoding and raises UnicodeEncodeError.
- PayloadBuilder.Build: does not cover a STRING value holding a lone surrogate, which raises UnicodeEncodeError.
- PyValue.Repr: characters above U+00FF are copied unchanged. Python escapes the non-printable ones among them as \uXXXX or \UXXXXXXXX, so the KeyError text of `Configuration.GetCoil`, `Configuration.GetHoldingRegister`, `Configuration.LoadedCoilLookup` and `Configuration.LoadedRegisterLookup` differs from Python's for names holding them.
- Configuration.GetCoil: a name that is a float, list or dict is shown by type name in the KeyError text (`PyValue.ReprOf`), not by Python's repr.
- Configuration.New: a coil or register name that is a list or dict is unhashable. `{x.name: x for x in coils}` (app/configuration.py:68-69) and `self.coils_map[name]` (app/configuration.py:95) raise TypeError "unhashable type: 'list'" (or 'dict') for it. The model builds the map and reports KeyError instead; `Configuration.GetHoldingRegister`, `Configuration.CoilLookup` and `Configuration.RegisterLookup` share that gap.
- `PyValue.Str` renders floats, lists and dicts by type name only. Python's exact text for those is not modelled.
- Dict keys compare by model equality. Python's cross-type equality (`1 == 1.0 == True`) and hashing are not modelled.
- `Configuration.from_file` is not modelled: opening the file, the missing-file error and YAML parse errors. The model starts from the parsed document (`Configuration.FromParsed`).
- `Configuration.ValidateShaped` and `Configuration.FromParsedShaped`: stated for documents of the expected types, where sections are dicts and entry lists hold dicts. On other shapes the model gives the exception Python raises; the contracts of `Configuration.ValidateConfig` and `Configuration.FromParsed` only say which classes it can have.
- The `if coil_configuration:` / `if holding_register_configuration:` guards are always true for a found entry, so the implicit `None` return is not reachable.
- `PayloadBuilder.Build`: a setting that was never set and a setting set to `None` are both "not set". For a never-set attribute Python's message is "'PayloadBuilder' object has no attribute ...", not the source's "set ..." text; the class, AttributeError, is the same.
- PayloadBuilder.IntegerRange: the out-of-range failure is modelled as struct.error with the text "'<c>' format requires <lo> <= number <= <hi>" for every integer format, including the 64-bit ones. This is how CPython 3.12's `struct` module reports it for pymodbus's big-endian formats. Other versions word some of these failures differently (for example "byte format requires …" for the 8-bit formats, or "argument out of range"), and may raise OverflowError for the 64-bit formats. Under such a version a 64-bit overflow is not caught by `_write_register` and leaves `write_command`; the model does not cover that.
- PayloadBuilder.EncodeInteger: the same assumption about the failure text and class applies.
- PayloadBuilder.EncodeString: assumes the `add_string` of pymodbus 3.0 to 3.4, the versions that have the `pymodbus.client` module and `Endian.Big` the source imports. That version takes `len(value)`, then packs `value.encode()` with struct's `<len(value)>s` format. Other pymodbus versions build strings differently and are not modelled.
- `PayloadBuilder.SmallValuesUnderAB`: the UINT64 10, UINT32 10, INT32 10, INT64 10 and UINT16 10 cases of the tests are covered by this general lemma, not by literal examples.
- The tests and the code disagree in places; the model follows the code:
  - the tests send commands wrapped in JSON lists and expect "Message object must be a dict";
  - they import a `SiteSettings` class and pass five arguments to `Configuration`;
  - the memory-order tests expect an error for unknown codes.
