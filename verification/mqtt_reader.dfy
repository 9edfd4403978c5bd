/** `MqttReader`: the error boundary between the MQTT broker and the command
    pipeline. A received payload is decoded, read as a command, turned into a
    command object and validated; on success every registered callback gets the
    command, in registration order. Every failure is classified into one
    published report. */
module MqttReader {
  import opened Wrappers
  import opened Errors
  import opened PyValue
  import Message
  import Dict
  import ModbusClient

  type Command = ModbusClient.Command

  /** The reader's list of message callbacks; a callback of type C stands for
      the function object, what it does when called is `Collaborators.run`. */
  datatype Reader<C> = Reader(callbacks: seq<C>)

  /** `add_message_callback(f)`. */
  function AddMessageCallback<C>(r: Reader<C>, f: C): (r': Reader<C>)
    ensures |r'.callbacks| == |r.callbacks| + 1
    ensures r'.callbacks[..|r.callbacks|] == r.callbacks && r'.callbacks[|r.callbacks|] == f
  {
    Reader(r.callbacks + [f])
  }

  /** What the handler calls but does not define: `json.loads`, the
      `CommandMessage(action, value, configuration)` constructor, its
      `validate()`, and the callbacks, each of which returns or raises. */
  datatype Collaborators<!C> = Collaborators(
    loads: string -> Message.Loaded,
    construct: (Json, Json) -> Result<Command, PyError>,
    validate: Command -> Result<(), PyError>,
    run: (C, Command) -> Option<PyError>)

  /** The attributes of `ErrorHandler.Category`: whether it defines UNHANDLED.
      The other four categories the handler uses are always defined. */
  datatype CategoryTable = CategoryTable(hasUnhandled: bool)

  /** `ErrorHandler.Category` as app/error_handler.py defines it. */
  const Defined: CategoryTable := CategoryTable(false)

  /** The class with the UNHANDLED category the handler expects. */
  const Intended: CategoryTable := CategoryTable(true)

  const MissingUnhandled: PyError := PyError(AttributeError, "type object 'Category' has no attribute 'UNHANDLED'")

  /** `self.error_handler.Category.<NAME>`: an attribute lookup on the class. */
  function Lookup(table: CategoryTable, c: Category): (r: Result<Category, PyError>)
    ensures r.Ok? ==> r.value == c
    ensures r.Err? <==> c == Unhandled && !table.hasUnhandled
  {
    if c == Unhandled && !table.hasUnhandled then Err(MissingUnhandled) else Ok(c)
  }

  /** How one call of the handler ends: the reports published, the callbacks
      called (in call order), and an exception that left the handler, if any. */
  datatype Outcome<C> = Outcome(reports: seq<Report>, invoked: seq<C>, escaped: Option<PyError>)

  /** The first try block up to `msg_obj.validate()`: the command object, or
      the first exception raised. */
  function Prepare<C>(decoded: Result<string, PyError>, env: Collaborators<C>): Result<Command, PyError> {
    var text :- decoded;
    var doc :- Message.Read(env.loads(text));
    var action :- Subscript(doc, "action");
    var value :- Subscript(doc, "value");
    var cmd :- env.construct(action, value);
    var checked :- env.validate(cmd);
    Ok(cmd)
  }

  /** Which callbacks ran, and the exception that stopped the loop, if one did. */
  datatype Fanout<C> = Fanout(invoked: seq<C>, raised: Option<PyError>)

  /** `for callback in callbacks: callback(msg_obj)`: callbacks run in order
      and the first one that raises ends the loop. */
  function RunCallbacks<C>(callbacks: seq<C>, cmd: Command, run: (C, Command) -> Option<PyError>): (f: Fanout<C>)
    ensures |f.invoked| <= |callbacks| && f.invoked == callbacks[..|f.invoked|]
    ensures forall i :: 0 <= i < |f.invoked| - 1 ==> run(f.invoked[i], cmd).None?
    ensures f.raised.None? ==> f.invoked == callbacks && forall i :: 0 <= i < |callbacks| ==> run(callbacks[i], cmd).None?
    ensures f.raised.Some? ==> |f.invoked| > 0 && run(f.invoked[|f.invoked| - 1], cmd) == f.raised
    decreases |callbacks|
  {
    if |callbacks| == 0 then Fanout([], None)
    else
      match run(callbacks[0], cmd)
      case Some(e) => Fanout([callbacks[0]], Some(e))
      case None =>
        var rest := RunCallbacks(callbacks[1..], cmd, run);
        assert forall i :: 1 <= i < |callbacks| ==> callbacks[i] == callbacks[1..][i - 1];
        Fanout([callbacks[0]] + rest.invoked, rest.raised)
  }

  /** `self.error_handler.publish(self.error_handler.Category.<c>, text)`: one
      report, unless looking up the category itself raises. */
  function Publish<C>(table: CategoryTable, c: Category, text: string, invoked: seq<C>): Outcome<C> {
    match Lookup(table, c)
    case Ok(category) => Outcome([Report(category, text)], invoked, None)
    case Err(e) => Outcome([], invoked, Some(e))
  }

  /** The category the inner handlers give a failure of the first try block;
      anything other than the two message errors reaches the outer handler. */
  function Classify(k: Kind): Category {
    if k == InvalidMessageError then InvalidMessage
    else if k == UnknownCommandError then UnknownCommand
    else Unhandled
  }

  /** The inner function `_on_message` returns, applied to one received message
      whose payload decodes to `decoded`. */
  function OnMessage<C>(table: CategoryTable, r: Reader<C>, decoded: Result<string, PyError>, env: Collaborators<C>): (o: Outcome<C>)
    ensures |o.reports| <= 1
    ensures o.invoked != [] ==> Prepare(decoded, env).Ok?
  {
    match Prepare(decoded, env)
    case Err(e) => Publish(table, Classify(e.kind), e.text, [])
    case Ok(cmd) =>
      var f := RunCallbacks(r.callbacks, cmd, env.run);
      match f.raised
      case None => Outcome([], f.invoked, None)
      case Some(e) => Publish(table, Unhandled, e.text, f.invoked)
  }

  // ---------------------------------------------------------------------------
  // Properties

  /** Preparation fails only in decoding, `read`, the constructor or
      `validate`: once `read` accepts a document, subscripting its `action`
      and `value` cannot raise, and the constructor gets their last bindings. */
  lemma PrepareStages<C>(decoded: Result<string, PyError>, env: Collaborators<C>)
    ensures decoded.Err? ==> Prepare(decoded, env) == Err(decoded.error)
    ensures decoded.Ok? && Message.Read(env.loads(decoded.value)).Err? ==>
              Prepare(decoded, env) == Err(Message.Read(env.loads(decoded.value)).error)
    ensures decoded.Ok? && Message.Read(env.loads(decoded.value)).Ok? ==>
              var doc := Message.Read(env.loads(decoded.value)).value;
              var action := Dict.Get(doc.fields, "action").value;
              var value := Dict.Get(doc.fields, "value").value;
              var cmd := env.construct(action, value);
              Prepare(decoded, env) ==
                if cmd.Err? then Err(cmd.error)
                else if env.validate(cmd.value).Err? then Err(env.validate(cmd.value).error)
                else Ok(cmd.value)
  {
    if decoded.Ok? && Message.Read(env.loads(decoded.value)).Ok? {
      var doc := Message.Read(env.loads(decoded.value)).value;
      assert Message.WellFormed(doc);
    }
  }

  /** With the category class as intended, the handler is a boundary: nothing
      escapes, and exactly one report is published unless preparation and
      every callback succeed, in which case every callback ran, in order. */
  lemma {:induction false} Boundary<C>(r: Reader<C>, decoded: Result<string, PyError>, env: Collaborators<C>)
    ensures var o := OnMessage(Intended, r, decoded, env);
            && o.escaped == None
            && (o.reports == [] <==>
                  Prepare(decoded, env).Ok? && forall i :: 0 <= i < |r.callbacks| ==> env.run(r.callbacks[i], Prepare(decoded, env).value).None?)
            && (o.reports == [] ==> o.invoked == r.callbacks)
  {
    match Prepare(decoded, env)
    case Err(e) =>
    case Ok(cmd) =>
      var f := RunCallbacks(r.callbacks, cmd, env.run);
      if f.raised.Some? {
        var k := |f.invoked| - 1;
        assert f.invoked[k] == r.callbacks[k];
      }
  }

  /** An InvalidMessageError or UnknownCommandError raised while preparing the
      command is published once under its own category with its text, and no
      callback runs; this holds for the category class as written too. */
  lemma MessageErrorsReported<C>(table: CategoryTable, r: Reader<C>, decoded: Result<string, PyError>, env: Collaborators<C>)
    requires Prepare(decoded, env).Err?
    requires var k := Prepare(decoded, env).error.kind; k == InvalidMessageError || k == UnknownCommandError
    ensures var e := Prepare(decoded, env).error;
            OnMessage(table, r, decoded, env) ==
              Outcome([Report(if e.kind == InvalidMessageError then InvalidMessage else UnknownCommand, e.text)], [], None)
  {
  }

  /** A payload `read` rejects is published as an invalid message carrying
      `read`'s text: for instance a syntax error gives "Message is invalid
      JSON syntax: " followed by the parser's detail. */
  lemma RejectedPayloadReported<C>(table: CategoryTable, r: Reader<C>, text: string, env: Collaborators<C>)
    requires Message.Read(env.loads(text)).Err?
    ensures OnMessage(table, r, Ok(text), env) ==
              Outcome([Report(InvalidMessage, Message.Read(env.loads(text)).error.text)], [], None)
    ensures env.loads(text).SyntaxError? ==>
              OnMessage(table, r, Ok(text), env).reports ==
                [Report(InvalidMessage, "Message is invalid JSON syntax: " + env.loads(text).detail)]
  {
    PrepareStages(Ok(text), env);
  }

  /** A callback that raises ends the loop: the callbacks before it ran and the
      ones after it do not. With the UNHANDLED category defined, the exception
      is published under it with its text; with the class as written, the
      lookup of the category raises AttributeError, which leaves the handler
      and nothing is published. */
  lemma CallbackFailureReported<C>(table: CategoryTable, r: Reader<C>, decoded: Result<string, PyError>, env: Collaborators<C>, j: nat)
    requires Prepare(decoded, env).Ok?
    requires j < |r.callbacks|
    requires forall i :: 0 <= i < j ==> env.run(r.callbacks[i], Prepare(decoded, env).value).None?
    requires env.run(r.callbacks[j], Prepare(decoded, env).value).Some?
    ensures var e := env.run(r.callbacks[j], Prepare(decoded, env).value).value;
            OnMessage(table, r, decoded, env) ==
              if table.hasUnhandled then Outcome([Report(Unhandled, e.text)], r.callbacks[..j + 1], None)
              else Outcome([], r.callbacks[..j + 1], Some(MissingUnhandled))
  {
    var cmd := Prepare(decoded, env).value;
    FirstRaise(r.callbacks, cmd, env.run, j);
  }

  /** The loop stops at the first callback that raises. */
  lemma {:induction false} FirstRaise<C>(callbacks: seq<C>, cmd: Command, run: (C, Command) -> Option<PyError>, j: nat)
    requires j < |callbacks|
    requires forall i :: 0 <= i < j ==> run(callbacks[i], cmd).None?
    requires run(callbacks[j], cmd).Some?
    ensures RunCallbacks(callbacks, cmd, run) == Fanout(callbacks[..j + 1], run(callbacks[j], cmd))
    decreases j
  {
    if j > 0 {
      assert run(callbacks[0], cmd).None?;
      assert forall i :: 0 <= i < j - 1 ==> callbacks[1..][i] == callbacks[i + 1];
      FirstRaise(callbacks[1..], cmd, run, j - 1);
      assert [callbacks[0]] + callbacks[1..][..j] == callbacks[..j + 1];
    }
  }

  /** Adding a callback keeps the earlier ones and their order: on the next
      message they run as before, and the new one runs after them only if
      none of them raised. */
  lemma {:induction false} AddedCallbackRunsLast<C>(callbacks: seq<C>, f: C, cmd: Command, run: (C, Command) -> Option<PyError>)
    ensures var before := RunCallbacks(callbacks, cmd, run);
            RunCallbacks(callbacks + [f], cmd, run) ==
              if before.raised.Some? then before else Fanout(callbacks + [f], run(f, cmd))
    decreases |callbacks|
  {
    if |callbacks| == 0 {
      assert callbacks + [f] == [f];
      assert [f][1..] == [];
    } else {
      assert (callbacks + [f])[1..] == callbacks[1..] + [f];
      AddedCallbackRunsLast(callbacks[1..], f, cmd, run);
      if run(callbacks[0], cmd).None? {
        assert [callbacks[0]] + (callbacks[1..] + [f]) == callbacks + [f];
      }
    }
  }

  // ---------------------------------------------------------------------------
  // The UNHANDLED category

  /** As written, the catch-all handler names a category the class does not
      define: a callback that raises makes the handler itself raise
      AttributeError, so the exception leaves the handler and nothing is
      published, which is what the catch-all was there to prevent. */
  lemma UnhandledEscapesAsWritten<C>(r: Reader<C>, decoded: Result<string, PyError>, env: Collaborators<C>)
    requires Prepare(decoded, env).Ok?
    requires 0 < |r.callbacks| && env.run(r.callbacks[0], Prepare(decoded, env).value).Some?
    ensures OnMessage(Defined, r, decoded, env) == Outcome([], r.callbacks[..1], Some(MissingUnhandled))
  {
    FirstRaise(r.callbacks, Prepare(decoded, env).value, env.run, 0);
  }

  /** Any failure of the first try block other than the two message errors (a
      payload that does not decode, a constructor or `validate` raising some
      other exception) reaches the catch-all: as written it escapes the same
      way, and with the category defined it is published as UNHANDLED. */
  lemma PrepareFailureEscapesAsWritten<C>(r: Reader<C>, decoded: Result<string, PyError>, env: Collaborators<C>)
    requires Prepare(decoded, env).Err?
    requires Prepare(decoded, env).error.kind != InvalidMessageError
    requires Prepare(decoded, env).error.kind != UnknownCommandError
    ensures OnMessage(Defined, r, decoded, env) == Outcome([], [], Some(MissingUnhandled))
    ensures OnMessage(Intended, r, decoded, env) == Outcome([Report(Unhandled, Prepare(decoded, env).error.text)], [], None)
  {
  }

  /** The two classes differ only on the catch-all path: everywhere else the
      handler publishes and calls the same things. */
  lemma SameOutsideCatchAll<C>(r: Reader<C>, decoded: Result<string, PyError>, env: Collaborators<C>)
    ensures var asWritten := OnMessage(Defined, r, decoded, env);
            var intended := OnMessage(Intended, r, decoded, env);
            && asWritten.invoked == intended.invoked
            && (asWritten.escaped.None? <==> intended.reports == [] || intended.reports[0].category != Unhandled)
            && (asWritten.escaped.None? ==> asWritten == intended)
            && (asWritten.escaped.Some? ==> asWritten.escaped == Some(MissingUnhandled) && asWritten.reports == [])
  {
  }

  // ---------------------------------------------------------------------------
  // The constructor

  /** What `CommandMessage(action, value, configuration)` raises with the class
      as app/message.py defines it: there is no `__init__`, so `object`'s
      rejects the arguments. */
  const NoArguments: PyError := PyError(TypeError, "CommandMessage() takes no arguments")

  /** With that constructor no callback ever runs. A message `read` accepts
      fails at construction: as written the TypeError reaches the catch-all
      and escapes as the missing UNHANDLED attribute; with the category
      defined it is published under UNHANDLED. */
  lemma ConstructorAsWritten<C>(r: Reader<C>, decoded: Result<string, PyError>, env: Collaborators<C>)
    requires forall action, value :: env.construct(action, value) == Err(NoArguments)
    ensures OnMessage(Defined, r, decoded, env).invoked == []
    ensures OnMessage(Intended, r, decoded, env).invoked == []
    ensures decoded.Ok? && Message.Read(env.loads(decoded.value)).Ok? ==>
              && OnMessage(Defined, r, decoded, env) == Outcome([], [], Some(MissingUnhandled))
              && OnMessage(Intended, r, decoded, env) == Outcome([Report(Unhandled, NoArguments.text)], [], None)
  {
    PrepareStages(decoded, env);
  }

  /** With a constructor and `validate` that accept the command, as the
      callers expect, a message `read` accepts reaches the callbacks: all of
      them run, in order, and nothing is published or escapes when none of
      them raises. */
  lemma AcceptedCommandRunsCallbacks<C>(table: CategoryTable, r: Reader<C>, text: string, env: Collaborators<C>)
    requires Message.Read(env.loads(text)).Ok?
    requires var doc := Message.Read(env.loads(text)).value;
             var cmd := env.construct(Dict.Get(doc.fields, "action").value, Dict.Get(doc.fields, "value").value);
             && cmd.Ok? && env.validate(cmd.value).Ok?
             && forall i :: 0 <= i < |r.callbacks| ==> env.run(r.callbacks[i], cmd.value).None?
    ensures OnMessage(table, r, Ok(text), env) == Outcome([], r.callbacks, None)
  {
    PrepareStages(Ok(text), env);
  }
}
