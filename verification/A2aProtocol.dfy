// What a remote agent's responses mean.
module A2aProtocol {
  import opened Wrappers
  import T = Text
  import opened DsmlParser

  datatype Version = V1 | V03

  datatype Binding = JsonRpc | HttpJson

  datatype Interface = Interface(version: Version, binding: Binding)

  datatype Disposition = InProgress | Interrupted | Success | Failure

  datatype Meaning =
    | Message(contextId: Option<string>)
    | Task(taskId: string, contextId: Option<string>, state: string, disposition: Disposition)
    | RemoteError(message: string)

  datatype ProtocolError = ProtocolError(message: string)

  type Parsed = Result<Meaning, ProtocolError>

  function Get(value: Json, key: string): Option<Json> {
    if value.Object? && key in value.members then Some(value.members[key]) else None
  }

  function AsString(value: Option<Json>): Option<string> {
    if value.Some? && value.value.String? then Some(value.value.s) else None
  }

  function StringField(value: Json, key: string): Option<string> {
    AsString(Get(value, key))
  }

  // ----------------------------------------------------------------------------- task states

  function TaskDisposition(interface: Interface, state: string): Result<Disposition, ProtocolError> {
    if interface.version == V03 && interface.binding == JsonRpc then
      if state in {"unknown", "submitted", "working"} then Ok(InProgress)
      else if state in {"input-required", "auth-required"} then Ok(Interrupted)
      else if state == "completed" then Ok(Success)
      else if state in {"failed", "canceled", "rejected"} then Ok(Failure)
      else Err(ProtocolError("unsupported task state"))
    else if state in {"TASK_STATE_UNSPECIFIED", "TASK_STATE_SUBMITTED", "TASK_STATE_WORKING"} then Ok(InProgress)
    else if state in {"TASK_STATE_INPUT_REQUIRED", "TASK_STATE_AUTH_REQUIRED"} then Ok(Interrupted)
    else if state == "TASK_STATE_COMPLETED" then Ok(Success)
    else if state in {"TASK_STATE_FAILED", "TASK_STATE_REJECTED"}
            || state == (if interface.version == V1 then "TASK_STATE_CANCELED" else "TASK_STATE_CANCELLED")
                then Ok(Failure)
    else Err(ProtocolError("unsupported task state"))
  }

  function ParseTask(value: Json, interface: Interface): Parsed {
    var id := StringField(value, "id");
    if id.None? || id.value == "" then Err(ProtocolError("A2A Task has no id"))
    else
      var status := Get(value, "status");
      var state := if status.Some? then StringField(status.value, "state") else None;
      if state.None? then Err(ProtocolError("A2A Task has no status.state"))
      else
        match TaskDisposition(interface, state.value)
        case Err(e) => Err(e)
        case Ok(disposition) => Ok(Task(id.value, StringField(value, "contextId"), state.value, disposition))
  }

  function ParseMessage(value: Json, interface: Interface): Parsed {
    var id := StringField(value, "messageId");
    var role := if interface == Interface(V03, JsonRpc) then "agent" else "ROLE_AGENT";
    var content := Get(value, if interface == Interface(V03, HttpJson) then "content" else "parts");
    if !value.Object? then Err(ProtocolError("A2A Message must be an object"))
    else if id.None? || id.value == "" then Err(ProtocolError("A2A Message has no messageId"))
    else if StringField(value, "role") != Some(role) then Err(ProtocolError("A2A Message role must be " + role))
    else if content.None? || !content.value.Array? || content.value.items == [] then
      Err(ProtocolError("A2A Message content must be a non-empty array"))
    else Ok(Message(StringField(value, "contextId")))
  }

  // ------------------------------------------------------------------------------- transport

  /** JSON-RPC 2.0, section 5: version, id and exactly the members of one response; REST has no envelope. */
  function ValidateTransport(binding: Binding, payload: Json, expectedId: Option<string>): Result<Option<Meaning>,
      ProtocolError> {
    if binding == HttpJson then Ok(None)
    else if !payload.Object? then Err(ProtocolError("response must be an object"))
    else if StringField(payload, "jsonrpc") != Some("2.0")
        then Err(ProtocolError("response has invalid jsonrpc version"))
    else if expectedId.None? then Err(ProtocolError("no local JSON-RPC request id"))
    else if StringField(payload, "id") != expectedId then Err(ProtocolError("response id does not match the request"))
    else if Get(payload, "error").Some? then
      var message := StringField(Get(payload, "error").value, "message");
      Ok(Some(RemoteError("JSON-RPC error: " + if message.Some? then message.value else "remote JSON-RPC error")))
    else if Get(payload, "result").None? then Err(ProtocolError("response has neither result nor error"))
    else Ok(None)
  }

  function SuccessValue(binding: Binding, payload: Json): Json {
    if binding == HttpJson then payload
    else if Get(payload, "result").Some? then Get(payload, "result").value else Null
  }

  function ParseUnion(value: Json, interface: Interface): Parsed {
    var message, task := Get(value, "message"), Get(value, "task");
    if !value.Object? then Err(ProtocolError("SendMessage result must be an object"))
    else if message.Some? && task.None? then ParseMessage(message.value, interface)
    else if message.None? && task.Some? then ParseTask(task.value, interface)
    else Err(ProtocolError("SendMessage result must contain exactly one of message or task"))
  }

  function ParseDirect(value: Json): Parsed {
    match StringField(value, "kind")
    case Some("message") => ParseMessage(value, Interface(V03, JsonRpc))
    case Some("task") => ParseTask(value, Interface(V03, JsonRpc))
    case _ => Err(ProtocolError("send result must be a message or task"))
  }

  function ParseSendResponse(interface: Interface, payload: Json, expectedId: Option<string>): Parsed {
    match ValidateTransport(interface.binding, payload, expectedId)
    case Err(e) => Err(e)
    case Ok(Some(remote)) => Ok(remote)
    case Ok(None) =>
      var value := SuccessValue(interface.binding, payload);
      if interface == Interface(V03, JsonRpc) then ParseDirect(value) else ParseUnion(value, interface)
  }

  predicate IsControl(c: char) {
    (c as int) < 0x20 || 0x7f <= (c as int) < 0xa0
  }

  /** A direct task that the registry policy tolerates: no union member, a safe id, a state. */
  predicate TolerableDirectTask(value: Json) {
    && value.Object? && "message" !in value.members && "task" !in value.members
    && (var id := StringField(value, "id");
        id.Some? && T.Trim(id.value) != "" && T.ByteLen(id.value) <= 512 && forall c <- id.value :: !IsControl(c))
    && (var status := Get(value, "status");
        && status.Some? && status.value.Object?
        && StringField(status.value, "state").Some? && T.Trim(StringField(status.value, "state").value) != "")
  }

  /** The strict reading first; only a v1 result without either union member may be read as a direct task. */
  function ParseRegistrySendResponse(interface: Interface, payload: Json, expectedId: Option<string>)
    : Result<(Meaning, bool), ProtocolError>
  {
    match ParseSendResponse(interface, payload, expectedId)
    case Ok(meaning) => Ok((meaning, false))
    case Err(strict) =>
      if interface.version != V1 then Err(strict)
      else
        match ValidateTransport(interface.binding, payload, expectedId)
        case Err(e) => Err(e)
        case Ok(Some(_)) => Err(strict)
        case Ok(None) =>
          var value := SuccessValue(interface.binding, payload);
          if !TolerableDirectTask(value) then Err(strict)
          else
            match ParseTask(value, interface)
            case Err(e) => Err(e)
            case Ok(meaning) => Ok((meaning, true))
  }

  function ParseTaskResponse(interface: Interface, payload: Json, expectedId: Option<string>): Parsed {
    match ValidateTransport(interface.binding, payload, expectedId)
    case Err(e) => Err(e)
    case Ok(Some(remote)) => Ok(remote)
    case Ok(None) => ParseTask(SuccessValue(interface.binding, payload), interface)
  }

  // ------------------------------------------------------------------------------ properties

  /** A well-formed JSON-RPC response to exactly this request. */
  predicate Correlated(payload: Json, expectedId: Option<string>) {
    expectedId.Some? && StringField(payload, "jsonrpc") == Some("2.0") && StringField(payload, "id") == expectedId
  }

  predicate WellFormedTask(interface: Interface, meaning: Meaning) {
    meaning.Task? ==> meaning.taskId != "" && TaskDisposition(interface, meaning.state) == Ok(meaning.disposition)
  }

  /** Nothing is believed over JSON-RPC that does not answer the request; an error object is never a success. */
  lemma MeaningsAreCorrelated(interface: Interface, payload: Json, expectedId: Option<string>)
    ensures var send := ParseSendResponse(interface, payload, expectedId);
            send.Ok? ==>
              && WellFormedTask(interface, send.value)
              && (interface.binding == JsonRpc ==>
                    Correlated(payload, expectedId) && (send.value.RemoteError? <==> Get(payload, "error").Some?))
    ensures var task := ParseTaskResponse(interface, payload, expectedId);
            task.Ok? ==>
              && !task.value.Message? && WellFormedTask(interface, task.value)
              && (interface.binding == JsonRpc ==>
                    Correlated(payload, expectedId) && (task.value.RemoteError? <==> Get(payload, "error").Some?))
  {
    hide TaskDisposition;
  }

  /** The registry reading never changes what the strict reading accepts, and adds only direct v1 tasks. */
  lemma RegistryExtendsStrict(interface: Interface, payload: Json, expectedId: Option<string>)
    ensures var strict, lenient := ParseSendResponse(interface, payload, expectedId),
              ParseRegistrySendResponse(interface, payload, expectedId);
            && (strict.Ok? ==> lenient == Ok((strict.value, false)))
            && (lenient.Ok? && !lenient.value.1 ==> strict == Ok(lenient.value.0))
            && (lenient.Ok? && lenient.value.1 ==>
                  && strict.Err? && interface.version == V1 && lenient.value.0.Task?
                  && WellFormedTask(interface, lenient.value.0)
                  && (interface.binding == JsonRpc ==> Correlated(payload, expectedId) && Get(payload, "error").None?)
                  && Get(SuccessValue(interface.binding, payload), "message").None?
                  && Get(SuccessValue(interface.binding, payload), "task").None?)
  {
    hide TaskDisposition;
  }
}
