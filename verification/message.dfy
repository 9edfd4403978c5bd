/** `CommandMessage.read`: parse an MQTT payload as JSON and check that it has
    the shape of a command, a truthy `action` and a `value` key. Every failure
    becomes an InvalidMessageError. */
module Message {
  import opened Wrappers
  import opened Errors
  import opened PyValue
  import Dict

  /** What `json.loads` makes of the payload text: a document, a
      JSONDecodeError whose text is `detail`, or any other exception it raises
      (a ValueError for an integer literal past the digit limit, a
      RecursionError for deep nesting) whose text is `text`. The parser itself
      is not modelled. */
  datatype Loaded = Parsed(doc: Json) | SyntaxError(detail: string) | LoadFailed(text: string)

  const MissingComponents: string := "Message is missing required components 'action' and/or 'value'"

  /** The command shape, stated over the dict directly: the last `action` binding
      is truthy and some binding of `value` exists. */
  predicate WellFormed(doc: Json) {
    doc.JObject?
    && Dict.Get(doc.fields, "action").Some?
    && Truthy(Dict.Get(doc.fields, "action").value)
    && Dict.HasKey(doc.fields, "value")
  }

  /** `read`: the parsed document when it is a well-formed command; otherwise an
      InvalidMessageError whose text says which handler caught the failure. */
  function Read(loaded: Loaded): (r: Result<Json, PyError>)
    ensures r.Ok? <==> loaded.Parsed? && WellFormed(loaded.doc)
    ensures r.Ok? ==> r.value == loaded.doc
    ensures r.Err? ==> r.error.kind == InvalidMessageError
    ensures loaded.SyntaxError? ==>
              r == Err(PyError(InvalidMessageError, "Message is invalid JSON syntax: " + loaded.detail))
    ensures loaded.LoadFailed? ==> r == Err(PyError(InvalidMessageError, "Invalid message: " + loaded.text))
    ensures loaded.Parsed? && loaded.doc.JObject? && !WellFormed(loaded.doc) ==>
              r == Err(PyError(InvalidMessageError, MissingComponents))
    ensures loaded.Parsed? && !loaded.doc.JObject? ==>
              r == Err(PyError(InvalidMessageError,
                               "Invalid message: '" + TypeName(loaded.doc) + "' object has no attribute 'get'"))
  {
    match loaded
    case SyntaxError(detail) =>
      Err(PyError(InvalidMessageError, "Message is invalid JSON syntax: " + detail))
    case LoadFailed(text) =>
      Err(PyError(InvalidMessageError, "Invalid message: " + text))
    case Parsed(doc) =>
      match GetOr(doc, "action", JNull)
      case Err(e) =>
        assert "Invalid message: " + e.text
            == "Invalid message: '" + TypeName(doc) + "' object has no attribute 'get'";
        Err(PyError(InvalidMessageError, "Invalid message: " + e.text))
      case Ok(action) =>
        if !Truthy(action) then Err(PyError(InvalidMessageError, MissingComponents))
        else
          match In("value", doc)
          case Err(e) => Err(PyError(InvalidMessageError, "Invalid message: " + e.text))
          case Ok(present) =>
            if present then Ok(doc) else Err(PyError(InvalidMessageError, MissingComponents))
  }

  // ---------------------------------------------------------------------------
  // Properties

  /** An absent action, or one that is "", 0, false or null, is reported as a
      missing component whatever else the object holds. */
  lemma FalsyActionRejected(fields: seq<(string, Json)>)
    requires var a := Dict.Get(fields, "action");
             a.None? || a == Some(JString("")) || a == Some(JInt(0)) || a == Some(JBool(false)) || a == Some(JNull)
    ensures Read(Parsed(JObject(fields))) == Err(PyError(InvalidMessageError, MissingComponents))
  {
  }

  /** Only the presence of `value` is checked: null or false is accepted. */
  lemma ValueMayBeFalsy(action: Json, value: Json)
    requires Truthy(action)
    ensures var doc := JObject([("action", action), ("value", value)]);
            Read(Parsed(doc)) == Ok(doc)
  {
    var fields := [("action", action), ("value", value)];
    assert fields[1].0 == "value";
    assert Dict.Get(fields, "action") == Some(action);
  }

  /** A command without a `value` key is reported as a missing component. */
  lemma MissingValueRejected(action: Json)
    ensures Read(Parsed(JObject([("action", action)]))) == Err(PyError(InvalidMessageError, MissingComponents))
  {
    var fields := [("action", action)];
    assert !Dict.HasKey(fields, "value") by {
      assert forall i :: 0 <= i < |fields| ==> fields[i].0 == "action";
    }
  }

  /** A JSON list, string or number is rejected because it has no `.get`. */
  lemma NonObjectRejected(doc: Json)
    requires doc.JArray? || doc.JString? || doc.JInt?
    ensures var t := if doc.JArray? then "list" else if doc.JString? then "str" else "int";
            Read(Parsed(doc)) == Err(PyError(InvalidMessageError, "Invalid message: '" + t + "' object has no attribute 'get'"))
  {
  }
}
