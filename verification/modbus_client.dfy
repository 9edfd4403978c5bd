/** `ModbusClient`: turn a validated command into Modbus writes. A coil command
    writes one coil or a list of coils, a register command encodes its value
    with the payload builder and writes the resulting registers. The transport
    is a parameter: what the device answers to each write request. */
module ModbusClient {
  import opened Wrappers
  import opened Errors
  import opened PyValue
  import opened Registers
  import opened Endianness
  import Configuration
  import PayloadBuilder
  import Dict

  /** A command's `input_type`: a coil, a holding register, or anything else. */
  datatype InputType = CoilInput | RegisterInput | OtherInput

  /** The three attributes of a command message that `write_command` reads. */
  datatype Command = Command(name: Json, value: Json, inputType: InputType)

  /** One call on the Modbus transport, in the order the client makes them. */
  datatype Request =
    | Connect
    | WriteCoil(address: Json, bit: bool, slave: nat)
    | WriteCoils(address: Json, bits: seq<Json>)
    | WriteRegisters(address: Json, words: seq<Word>, slave: nat)
    | Close

  predicate IsWrite(r: Request) {
    r.WriteCoil? || r.WriteCoils? || r.WriteRegisters?
  }

  /** What a transport call does: it returns, or it raises. A write returns a
      response (`isError()` and `str(response)`); for `connect` and `close` a
      Response only says that the call returned, its fields are not read. */
  datatype Reply = Response(isError: bool, text: string) | Raises(error: PyError)

  type Transport = Request -> Reply

  /** The requests a private write method made and how it ended: the count it
      returns, or the exception it raises. */
  datatype Step = Step(requests: seq<Request>, outcome: Result<nat, PyError>)

  /** How `write_command` ends. */
  datatype Completion = Returned(sent: nat) | Escaped(error: PyError)

  /** The requests made, the reports published to the error handler, and the
      completion of one `write_command` call. */
  datatype Outcome = Outcome(requests: seq<Request>, reports: seq<Report>, completion: Completion)

  /** The number a successful write of `r` adds to the count: one per coil, and
      one for a register write whatever the number of registers. */
  function Units(r: Request): nat {
    match r
    case WriteCoils(_, bits) => |bits|
    case _ => 1
  }

  /** The exception a transport exception becomes: a ModbusException is wrapped
      in a ModbusClientError with the same text, anything else is not caught. */
  function Wrapped(e: PyError): (w: PyError)
    ensures w.kind == ModbusClientError <==> e.kind == ModbusException || e.kind == ModbusClientError
    ensures w.text == e.text
    ensures e.kind != ModbusException ==> w == e
  {
    if e.kind == ModbusException then PyError(ModbusClientError, e.text) else e
  }

  /** The part the three write methods share once the entry is found, inside
      their `try`: connect, evaluate `address[0]`, send the write, close, and
      raise a ModbusClientError for an error response. */
  function Transmit(address: Json, request: Json -> Request, count: nat, transport: Transport): (s: Step)
    ensures |s.requests| >= 1 && s.requests[0] == Connect
    ensures |s.requests| == 1 <==> transport(Connect).Raises? || First(address).Err?
    ensures transport(Connect).Response? && First(address).Err? ==> s.outcome == Err(First(address).error)
    ensures |s.requests| > 1 ==> First(address).Ok? && s.requests[1] == request(First(address).value)
    ensures s.outcome.Err? ==> s.outcome.error.kind != ModbusException
    ensures s.outcome.Ok? ==> s.outcome.value == count
  {
    match transport(Connect)
    case Raises(e) => Step([Connect], Err(Wrapped(e)))
    case Response(_, _) =>
      match First(address)
      case Err(e) => Step([Connect], Err(e))
      case Ok(a) =>
        var req := request(a);
        match transport(req)
        case Raises(e) => Step([Connect, req], Err(Wrapped(e)))
        case Response(isError, text) =>
          match transport(Close)
          case Raises(e) => Step([Connect, req, Close], Err(Wrapped(e)))
          case Response(_, _) =>
            Step([Connect, req, Close], if isError then Err(PyError(ModbusClientError, text)) else Ok(count))
  }

  /** `_write_coils(name, value)`: write a list of coils from the named coil's address. */
  function WriteCoilList(config: Configuration.Config, name: Json, bits: seq<Json>, transport: Transport): (s: Step)
    ensures s.outcome.Err? ==> s.outcome.error.kind != ModbusException
    ensures s.requests == [] <==> Configuration.GetCoil(config, name).Err?
    ensures Configuration.GetCoil(config, name).Err? ==> s.outcome == Err(Configuration.GetCoil(config, name).error)
    ensures |s.requests| > 1 ==>
              var a := First(Configuration.GetCoil(config, name).value.address);
              a.Ok? && s.requests[1] == WriteCoils(a.value, bits)
    ensures s.outcome.Ok? ==> s.outcome.value == |bits|
  {
    match Configuration.GetCoil(config, name)
    case Err(e) => Step([], Err(e))
    case Ok(coil) => Transmit(coil.address, a => WriteCoils(a, bits), |bits|, transport)
  }

  /** `_write_coil(name, value)`: write one coil. */
  function WriteSingleCoil(config: Configuration.Config, name: Json, bit: bool, transport: Transport): (s: Step)
    ensures s.outcome.Err? ==> s.outcome.error.kind != ModbusException
    ensures s.requests == [] <==> Configuration.GetCoil(config, name).Err?
    ensures Configuration.GetCoil(config, name).Err? ==> s.outcome == Err(Configuration.GetCoil(config, name).error)
    ensures |s.requests| > 1 ==>
              var a := First(Configuration.GetCoil(config, name).value.address);
              a.Ok? && s.requests[1] == WriteCoil(a.value, bit, 1)
    ensures s.outcome.Ok? ==> s.outcome.value == 1
  {
    match Configuration.GetCoil(config, name)
    case Err(e) => Step([], Err(e))
    case Ok(coil) => Transmit(coil.address, a => WriteCoil(a, bit, 1), 1, transport)
  }

  /** `_build_register_payload`: data type, then value, then memory order, then build. */
  function RegisterPayload(reg: Configuration.HoldingRegister, value: Json, codecs: PayloadBuilder.Codecs): (r: Result<seq<Word>, PyError>)
    ensures r.Err? ==> PayloadBuilder.BuildFailure(r.error.kind)
    ensures r.Err? && r.error.kind == AttributeError <==>
              reg.dataType.JNull? || value.JNull?
              || (reg.dataType == JString("STRING") && (value.JArray? || value.JObject?))
    ensures reg.dataType.JNull? ==> r == Err(PyError(AttributeError, "set data type"))
    ensures !reg.dataType.JNull? && value.JNull? ==> r == Err(PyError(AttributeError, "set value"))
    ensures r.Ok? ==> reg.dataType.JString? && reg.dataType.s in PayloadBuilder.AcceptedTags
  {
    PayloadBuilder.Build(PayloadBuilder.Configured(reg.dataType, value, reg.memoryOrder), codecs)
  }

  /** The payload failures `_write_register` reports as an invalid message. */
  predicate EncodingFailure(k: Kind) {
    k == AttributeError || k == RuntimeError || k == StructError
  }

  /** `_write_register(name, value)`: encode before connecting; an encoding
      failure becomes InvalidMessageError, other exceptions pass through. */
  function WriteRegister(config: Configuration.Config, name: Json, value: Json, codecs: PayloadBuilder.Codecs, transport: Transport): (s: Step)
    ensures s.outcome.Err? ==> s.outcome.error.kind != ModbusException
    ensures s.requests != [] ==>
              && Configuration.GetHoldingRegister(config, name).Ok?
              && RegisterPayload(Configuration.GetHoldingRegister(config, name).value, value, codecs).Ok?
    ensures Configuration.GetHoldingRegister(config, name).Ok? ==>
              var p := RegisterPayload(Configuration.GetHoldingRegister(config, name).value, value, codecs);
              p.Err? ==> && s.requests == [] && s.outcome.Err? && s.outcome.error.text == p.error.text
                         && (s.outcome.error.kind == InvalidMessageError <==> EncodingFailure(p.error.kind))
  {
    match Configuration.GetHoldingRegister(config, name)
    case Err(e) => Step([], Err(e))
    case Ok(reg) =>
      match RegisterPayload(reg, value, codecs)
      case Err(e) =>
        Step([], Err(if EncodingFailure(e.kind) then PyError(InvalidMessageError, e.text) else e))
      case Ok(words) => Transmit(reg.address, a => WriteRegisters(a, words, 1), 1, transport)
  }

  /** The coil branch of `write_command`: a list value goes to `_write_coils`,
      anything else to `_write_coil` as its truth value. */
  function CoilStep(config: Configuration.Config, cmd: Command, transport: Transport): (s: Step)
    ensures s.outcome.Err? ==> s.outcome.error.kind != ModbusException
  {
    if cmd.value.JArray? then WriteCoilList(config, cmd.name, cmd.value.items, transport)
    else WriteSingleCoil(config, cmd.name, Truthy(cmd.value), transport)
  }

  /** The caught exceptions of a branch of `write_command`, with the category
      each is reported under. */
  function Caught(inputType: InputType, k: Kind): Option<Category> {
    if k == ModbusClientError then Some(ModbusError)
    else if inputType == RegisterInput && k == InvalidMessageError then Some(InvalidMessage)
    else None
  }

  /** Finish a branch: return its count, or report a caught exception and
      return 0, or let any other exception escape. */
  function Finish(inputType: InputType, s: Step): (o: Outcome)
    ensures o.requests == s.requests
    ensures |o.reports| <= 1
    ensures |o.reports| == 1 ==> o.completion == Returned(0) && s.outcome.Err?
    ensures o.completion.Escaped? ==> o.reports == [] && s.outcome == Err(o.completion.error)
    ensures o.completion.Escaped? ==> Caught(inputType, o.completion.error.kind).None?
  {
    match s.outcome
    case Ok(n) => Outcome(s.requests, [], Returned(n))
    case Err(e) =>
      match Caught(inputType, e.kind)
      case Some(c) => Outcome(s.requests, [Report(c, e.text)], Returned(0))
      case None => Outcome(s.requests, [], Escaped(e))
  }

  /** `write_command(message)`. The error handler's `publish` calls are the
      reports; whether it forwards them is not part of this model. */
  function WriteCommand(config: Configuration.Config, codecs: PayloadBuilder.Codecs, cmd: Command, transport: Transport): (o: Outcome)
    ensures cmd.inputType == OtherInput ==> o == Outcome([], [], Returned(0))
    ensures |o.reports| <= 1
    ensures |o.reports| == 1 ==> o.completion == Returned(0)
    ensures o.completion.Escaped? ==> o.reports == []
    ensures o.completion.Escaped? ==>
              o.completion.error.kind != ModbusClientError && o.completion.error.kind != ModbusException
  {
    match cmd.inputType
    case CoilInput => Finish(CoilInput, CoilStep(config, cmd, transport))
    case RegisterInput => Finish(RegisterInput, WriteRegister(config, cmd.name, cmd.value, codecs, transport))
    case OtherInput => Outcome([], [], Returned(0))
  }

  // ---------------------------------------------------------------------------
  // Reference description of a call

  /** The request sequences a call can make: nothing, a connect, a connect and
      a write, or a connect, a write and a close. */
  predicate WellOrdered(rs: seq<Request>) {
    || rs == []
    || rs == [Connect]
    || (|rs| == 2 && rs[0] == Connect && IsWrite(rs[1]))
    || (|rs| == 3 && rs[0] == Connect && IsWrite(rs[1]) && rs[2] == Close)
  }

  /** A connect-write-close sequence in which the device accepted the write
      and nothing raised. */
  predicate Accepted(rs: seq<Request>, transport: Transport) {
    && |rs| == 3
    && transport(rs[0]).Response?
    && transport(rs[1]).Response? && !transport(rs[1]).isError
    && transport(rs[2]).Response?
  }

  /** The entry a command names, when there is one. */
  predicate NameConfigured(config: Configuration.Config, cmd: Command) {
    match cmd.inputType
    case CoilInput => Dict.HasKey(config.coilsMap, cmd.name)
    case RegisterInput => Dict.HasKey(config.registerMap, cmd.name)
    case OtherInput => false
  }

  // ---------------------------------------------------------------------------
  // Properties

  /** The shared tail makes well-ordered requests, closes exactly when the
      write got a response, and returns its count exactly when the device
      accepted the write. */
  lemma TransmitProtocol(address: Json, request: Json -> Request, count: nat, transport: Transport)
    requires forall a :: IsWrite(request(a))
    ensures var s := Transmit(address, request, count, transport);
            && WellOrdered(s.requests)
            && (|s.requests| == 3 <==>
                  transport(Connect).Response? && First(address).Ok? && transport(request(First(address).value)).Response?)
            && (s.outcome.Ok? <==> Accepted(s.requests, transport))
            && (s.outcome.Ok? ==> s.outcome.value == count)
  {
    if First(address).Ok? {
      assert IsWrite(request(First(address).value));
    }
  }

  /** Every call makes its requests in the order connect, write, close, stopping
      early only on an exception; and it returns a positive count only after a
      write the device accepted, the count being what that write carried. */
  lemma CommandProtocol(config: Configuration.Config, codecs: PayloadBuilder.Codecs, cmd: Command, transport: Transport)
    ensures var o := WriteCommand(config, codecs, cmd, transport);
            && WellOrdered(o.requests)
            && (o.completion.Returned? && o.reports == [] && cmd.inputType != OtherInput <==> Accepted(o.requests, transport))
            && (Accepted(o.requests, transport) ==> o.completion == Returned(Units(o.requests[1])))
  {
    match cmd.inputType {
      case CoilInput =>
        if cmd.value.JArray? {
          var bits := cmd.value.items;
          match Configuration.GetCoil(config, cmd.name) {
            case Err(_) =>
            case Ok(coil) => TransmitProtocol(coil.address, a => WriteCoils(a, bits), |bits|, transport);
          }
        } else {
          var bit := Truthy(cmd.value);
          match Configuration.GetCoil(config, cmd.name) {
            case Err(_) =>
            case Ok(coil) => TransmitProtocol(coil.address, a => WriteCoil(a, bit, 1), 1, transport);
          }
        }
      case RegisterInput =>
        match Configuration.GetHoldingRegister(config, cmd.name) {
          case Err(_) =>
          case Ok(reg) =>
            match RegisterPayload(reg, cmd.value, codecs) {
              case Err(_) =>
              case Ok(words) => TransmitProtocol(reg.address, a => WriteRegisters(a, words, 1), 1, transport);
            }
        }
      case OtherInput =>
    }
  }

  /** A name with no coil or register entry raises KeyError out of
      `write_command` before any request is made. */
  lemma UnknownNameEscapes(config: Configuration.Config, codecs: PayloadBuilder.Codecs, cmd: Command, transport: Transport)
    requires cmd.inputType != OtherInput
    ensures var o := WriteCommand(config, codecs, cmd, transport);
            !NameConfigured(config, cmd) <==> o.completion == Escaped(PyError(KeyError, ReprOf(cmd.name))) && o.requests == []
  {
  }

  /** A register value the builder rejects with AttributeError, RuntimeError or
      struct.error is reported once as an invalid message with the builder's
      text, nothing is sent, and 0 is returned. */
  lemma EncodingFailureReported(config: Configuration.Config, codecs: PayloadBuilder.Codecs, cmd: Command, transport: Transport)
    requires cmd.inputType == RegisterInput
    requires Dict.HasKey(config.registerMap, cmd.name)
    requires var reg := Dict.Get(config.registerMap, cmd.name).value;
             RegisterPayload(reg, cmd.value, codecs).Err? && EncodingFailure(RegisterPayload(reg, cmd.value, codecs).error.kind)
    ensures var reg := Dict.Get(config.registerMap, cmd.name).value;
            WriteCommand(config, codecs, cmd, transport) ==
              Outcome([], [Report(InvalidMessage, RegisterPayload(reg, cmd.value, codecs).error.text)], Returned(0))
  {
  }

  /** A ModbusException from any transport call, or an error response to the
      write, is reported once as a Modbus error with its text, and 0 is
      returned; the calls after the failing one are not made. */
  lemma TransportFailureReported(config: Configuration.Config, codecs: PayloadBuilder.Codecs, cmd: Command, transport: Transport)
    ensures var o := WriteCommand(config, codecs, cmd, transport);
            o.requests != [] ==>
              var last := transport(o.requests[|o.requests| - 1]);
              && (last.Raises? && last.error.kind == ModbusException
                  ==> o.reports == [Report(ModbusError, last.error.text)] && o.completion == Returned(0))
              && (|o.requests| == 3 && transport(o.requests[1]).Response? && transport(o.requests[1]).isError && last.Response?
                  ==> o.reports == [Report(ModbusError, transport(o.requests[1]).text)] && o.completion == Returned(0))
  {
    CommandProtocol(config, codecs, cmd, transport);
  }

  /** `address[0]` is evaluated after connecting: an address that cannot be
      subscripted raises out of `write_command` with one request made. */
  lemma AddressFailureEscapes(config: Configuration.Config, codecs: PayloadBuilder.Codecs, cmd: Command, transport: Transport)
    requires cmd.inputType == CoilInput
    requires Dict.HasKey(config.coilsMap, cmd.name)
    requires transport(Connect).Response?
    requires First(Dict.Get(config.coilsMap, cmd.name).value.address).Err?
    ensures WriteCommand(config, codecs, cmd, transport) ==
              Outcome([Connect], [], Escaped(First(Dict.Get(config.coilsMap, cmd.name).value.address).error))
  {
  }

  /** A coil command with a list value writes the list as given from the coil's
      first address and counts one per item; any other value writes its truth value. */
  lemma CoilRequests(config: Configuration.Config, codecs: PayloadBuilder.Codecs, cmd: Command, transport: Transport)
    requires cmd.inputType == CoilInput
    requires Dict.HasKey(config.coilsMap, cmd.name)
    requires transport(Connect).Response? && First(Dict.Get(config.coilsMap, cmd.name).value.address).Ok?
    ensures var a := First(Dict.Get(config.coilsMap, cmd.name).value.address).value;
            var o := WriteCommand(config, codecs, cmd, transport);
            && |o.requests| >= 2
            && o.requests[1] == (if cmd.value.JArray? then WriteCoils(a, cmd.value.items) else WriteCoil(a, Truthy(cmd.value), 1))
  {
  }

  /** A register command makes its write request exactly when the payload
      builds and the address can be subscripted, and it sends the registers the
      payload builder makes from the configured data type and memory order, to
      the register's first address. */
  lemma RegisterRequests(config: Configuration.Config, codecs: PayloadBuilder.Codecs, cmd: Command, transport: Transport)
    requires cmd.inputType == RegisterInput
    requires Dict.HasKey(config.registerMap, cmd.name)
    requires transport(Connect).Response?
    ensures var reg := Dict.Get(config.registerMap, cmd.name).value;
            var p := RegisterPayload(reg, cmd.value, codecs);
            var o := WriteCommand(config, codecs, cmd, transport);
            && (|o.requests| >= 2 <==> p.Ok? && First(reg.address).Ok?)
            && (|o.requests| >= 2 ==> o.requests[1] == WriteRegisters(First(reg.address).value, p.value, 1))
  {
  }

  /** An in-range integer for a register of an integer type is sent as registers
      that the device, decoding with the same type and memory order, reads back
      as that integer. */
  lemma RegisterValueRoundTrip(config: Configuration.Config, codecs: PayloadBuilder.Codecs, cmd: Command, transport: Transport,
                               dt: PayloadBuilder.DataType, v: int)
    requires cmd.inputType == RegisterInput && cmd.value == JInt(v)
    requires Dict.HasKey(config.registerMap, cmd.name)
    requires var reg := Dict.Get(config.registerMap, cmd.name).value;
             reg.dataType == JString(PayloadBuilder.TagName(dt)) && First(reg.address).Ok?
    requires transport(Connect).Response?
    requires PayloadBuilder.IsInteger(dt) && PayloadBuilder.Lo(dt) <= v <= PayloadBuilder.Hi(dt)
    ensures var reg := Dict.Get(config.registerMap, cmd.name).value;
            var o := WriteCommand(config, codecs, cmd, transport);
            && |o.requests| >= 2 && o.requests[1].WriteRegisters?
            && |o.requests[1].words| == PayloadBuilder.WordCount(dt)
            && PayloadBuilder.Decode(dt, reg.memoryOrder.order, o.requests[1].words) == v
  {
    var reg := Dict.Get(config.registerMap, cmd.name).value;
    PayloadBuilder.IntegerRoundTrip(dt, reg.memoryOrder, v, codecs);
    RegisterRequests(config, codecs, cmd, transport);
  }

  /** A configuration with one INT16 register at address [1] in AB order,
      commanded to 0 on a device that accepts it: connect, write [0] to
      address 1, close, and a count of 1. */
  lemma ExampleRegisterWrite(codecs: PayloadBuilder.Codecs, transport: Transport)
    requires transport(Connect).Response? && transport(Close).Response?
    requires transport(WriteRegisters(JInt(1), [0], 1)) == Response(false, "")
    ensures var reg := Configuration.HoldingRegister(JString("int_register"), New(Some("AB")), JString("INT16"), JFloat(Finite(1.0)), JArray([JInt(1)]));
            var config := Configuration.New([], [reg], Configuration.MqttSettings(JNull, JNull, JNull), Configuration.ModbusSettings(JNull, JNull));
            WriteCommand(config, codecs, Command(JString("int_register"), JInt(0), RegisterInput), transport)
              == Outcome([Connect, WriteRegisters(JInt(1), [0], 1), Close], [], Returned(1))
  {
    var reg := Configuration.HoldingRegister(JString("int_register"), New(Some("AB")), JString("INT16"), JFloat(Finite(1.0)), JArray([JInt(1)]));
    var config := Configuration.New([], [reg], Configuration.MqttSettings(JNull, JNull, JNull), Configuration.ModbusSettings(JNull, JNull));
    PayloadBuilder.ExampleInt16Zero(codecs);
    assert RegisterPayload(reg, JInt(0), codecs) == Ok([0]);
    assert Dict.Get(config.registerMap, JString("int_register")) == Some(reg);
  }
}
