/** The relay bridge's state and its atomic transitions: the single renderer
    connection, the cached scene snapshot, and every command handed to a connection.
    Each WebSocket event and each tool call is one `Event`; `Step` is its effect.
    `Dispatch` is the tool-call handler: it reads the connection and the snapshot and
    yields the reply and at most one command to send. */
module Relay {
  import opened SceneJson
  import opened ToolCatalog

  /** Identity of one renderer socket, as the listener hands it out. */
  datatype ConnId = ConnId(id: nat)

  /** The object that is serialised and sent to the renderer. */
  type Command = map<string, Json>

  /** One send: the command and the socket it was handed to. */
  datatype Delivery = Delivery(to: ConnId, command: Command)

  /** A tool reply is a single text item. `SceneData(d)` is the text
      `JSON.stringify(d, null, 2)` of the snapshot's `data` member; `SceneData(None)`
      stands for stringifying `undefined`, which yields no string at all. */
  datatype Reply = Text(text: string) | SceneData(data: Option<Json>)

  const NoConnectionText: string := "No client connection available"
  const SentText: string := "sent"
  const NoSceneStateText: string := "No scene state available"
  const NotFoundText: string := "Tool not found"

  /** The two process-wide variables of the bridge, plus the record of every send. */
  datatype State = State(conn: Option<ConnId>, snapshot: Option<Json>, outbox: seq<Delivery>)

  /** Both variables start as `null`; nothing has been sent. */
  const Initial: State := State(None, None, [])

  /** What a tool call yields: its reply, and the delivery it performed, if any. */
  datatype Outcome = Outcome(reply: Reply, sent: Option<Delivery>)

  /** The events that drive the bridge. `Received(c, None)` is a message whose text
      `JSON.parse` rejects. */
  datatype Event =
    | Connected(c: ConnId)
    | Received(c: ConnId, parsed: Option<Json>)
    | Closed(c: ConnId)
    | Called(name: string, input: map<string, Json>)

  /** `{ action: tag, ...input }`: the tag is laid down first and every input member,
      an `action` member included, is written over it. */
  function SpreadCommand(tag: string, input: map<string, Json>): (cmd: Command)
    ensures cmd.Keys == input.Keys + {"action"}
    ensures forall k :: k in input ==> cmd[k] == input[k]
    ensures "action" !in input ==> cmd["action"] == Str(tag)
  {
    map["action" := Str(tag)] + input
  }

  /** `{ action: tag, f1: input?.f1, ... }` for the given fields: a field the input
      lacks is `undefined` and so vanishes when the command is serialised; every other
      input member is dropped and the tag cannot be overridden. */
  function FieldCommand(tag: string, fields: set<string>, input: map<string, Json>): (cmd: Command)
    requires "action" !in fields
    ensures cmd.Keys == {"action"} + (fields * input.Keys)
    ensures cmd["action"] == Str(tag)
    ensures forall k :: k in fields && k in input ==> cmd[k] == input[k]
  {
    (map k | k in input && k in fields :: input[k])[ "action" := Str(tag)]
  }

  /** The command a tool call builds, for the five mutating tools. */
  function CommandFor(name: string, input: map<string, Json>): (cmd: Option<Command>)
    ensures cmd.Some? <==> name in MutatingTools
    ensures cmd.Some? ==> "action" in cmd.value
  {
    if name in SpreadTools then Some(SpreadCommand(name, input))
    else if name == StartRotation then Some(FieldCommand(name, {"id", "speed"}, input))
    else if name == StopRotation then Some(FieldCommand(name, {"id"}, input))
    else None
  }

  /** A mutating tool: without a connection it answers so and sends nothing; with one it
      hands the command to that connection and answers "sent", whatever becomes of it. */
  function Mutate(conn: Option<ConnId>, cmd: Command): (o: Outcome)
    ensures conn.None? ==> o == Outcome(Text(NoConnectionText), None)
    ensures conn.Some? ==> o.reply == Text(SentText) && o.sent == Some(Delivery(conn.value, cmd))
  {
    match conn
    case None => Outcome(Text(NoConnectionText), None)
    case Some(c) => Outcome(Text(SentText), Some(Delivery(c, cmd)))
  }

  /** The tool-call handler: an if/else-if chain on the tool name. */
  function Dispatch(conn: Option<ConnId>, snapshot: Option<Json>, name: string, input: map<string, Json>): (o: Outcome)
    // a command is sent exactly when a mutating tool is called while connected,
    // to the current connection, and then the answer is "sent"
    ensures o.sent.Some? <==> name in MutatingTools && conn.Some?
    ensures o.sent.Some? ==> o.sent.value.to == conn.value
    ensures o.sent.Some? ==> o.sent == Some(Delivery(conn.value, CommandFor(name, input).value))
    ensures o.sent.Some? ==> o.reply == Text(SentText)
    ensures name in MutatingTools && conn.None? ==> o.reply == Text(NoConnectionText)
    // the snapshot query answers with data exactly when the cache holds a truthy value,
    // and then with that value's `data` member, not the whole snapshot
    ensures o.reply.SceneData? <==> name == GetSceneState && snapshot.Some? && Truthy(snapshot.value)
    ensures o.reply.SceneData? ==> o.reply.data == Member(snapshot.value, "data")
    ensures name == GetSceneState && !o.reply.SceneData? ==> o.reply == Text(NoSceneStateText)
    // every unknown name, and only an unknown name, is answered "Tool not found"
    ensures o.reply == Text(NotFoundText) <==> name !in ToolNames
    ensures name !in ToolNames ==> o.sent.None?
  {
    if name == AddObject || name == MoveObject || name == RemoveObject then
      Mutate(conn, SpreadCommand(name, input))
    else if name == GetSceneState then
      if snapshot.Some? && Truthy(snapshot.value) then
        Outcome(SceneData(Member(snapshot.value, "data")), None)
      else
        Outcome(Text(NoSceneStateText), None)
    else if name == StartRotation then
      Mutate(conn, FieldCommand(name, {"id", "speed"}, input))
    else if name == StopRotation then
      Mutate(conn, FieldCommand(name, {"id"}, input))
    else
      Outcome(Text(NotFoundText), None)
  }

  /** The deliveries a tool call appends to the record of sends. */
  function Sends(o: Outcome): seq<Delivery>
  {
    if o.sent.Some? then [o.sent.value] else []
  }

  /** The effect of one event on the bridge state. */
  function Step(s: State, e: Event): (t: State)
    // only a connect event installs a connection; any other event keeps or clears it
    ensures t.conn.Some? ==> t.conn == s.conn || e == Connected(t.conn.value)
    // a snapshot is only ever the previous one or the value a message just parsed to
    ensures t.snapshot.Some? ==> t.snapshot == s.snapshot || (e.Received? && e.parsed == t.snapshot)
    // the record of sends only grows, by at most one delivery, and only on a tool call
    ensures s.outbox <= t.outbox && |t.outbox| <= |s.outbox| + 1
    ensures !e.Called? ==> t.outbox == s.outbox
    // a tool call never changes the connection or the snapshot
    ensures e.Called? ==> t.conn == s.conn && t.snapshot == s.snapshot
  {
    match e
    case Connected(c) => s.(conn := Some(c))
    case Received(_, parsed) => if parsed.Some? then s.(snapshot := parsed) else s
    case Closed(_) => s.(conn := None, snapshot := None)
    case Called(name, input) => s.(outbox := s.outbox + Sends(Dispatch(s.conn, s.snapshot, name, input)))
  }

  // ---------------------------------------------------------------------------
  // Properties of single events

  /** Connecting makes `c` the connection, whatever was stored before, and touches
      nothing else. */
  lemma ConnectReplaces(s: State, c: ConnId)
    ensures Step(s, Connected(c)) == State(Some(c), s.snapshot, s.outbox)
  {
  }

  /** A message that parses replaces the snapshot wholesale, from any socket, even a
      superseded one; one that does not parse changes nothing. */
  lemma MessageReplacesOrIgnores(s: State, c: ConnId, parsed: Option<Json>)
    ensures parsed.Some? ==> Step(s, Received(c, parsed)) == State(s.conn, parsed, s.outbox)
    ensures parsed.None? ==> Step(s, Received(c, parsed)) == s
  {
  }

  /** A close from any socket, current or not, clears both the connection and the
      snapshot. */
  lemma CloseClearsBoth(s: State, c: ConnId)
    ensures Step(s, Closed(c)).conn == None && Step(s, Closed(c)).snapshot == None
    ensures Step(s, Closed(c)).outbox == s.outbox
  {
  }

  // ---------------------------------------------------------------------------
  // Properties of the commands

  /** For the three spread tools the command is the input with the action tag beneath
      it: every input member, an `action` member included, reaches the renderer as is. */
  lemma SpreadToolCommand(name: string, input: map<string, Json>)
    requires name in SpreadTools
    ensures CommandFor(name, input).Some?
    ensures CommandFor(name, input).value.Keys == input.Keys + {"action"}
    ensures forall k :: k in input ==> CommandFor(name, input).value[k] == input[k]
    ensures CommandFor(name, input).value["action"] ==
              if "action" in input then input["action"] else Str(name)
  {
  }

  /** For the rotation tools the command is exactly the tag plus the present `id` (and,
      for startRotation, `speed`) members; everything else in the input is dropped. */
  lemma RotationToolCommand(name: string, input: map<string, Json>)
    requires name in RotationTools
    ensures CommandFor(name, input).Some?
    ensures CommandFor(name, input).value["action"] == Str(name)
    ensures name == StartRotation ==>
              CommandFor(name, input).value.Keys == {"action"} + ({"id", "speed"} * input.Keys)
    ensures name == StopRotation ==>
              CommandFor(name, input).value.Keys == {"action"} + ({"id"} * input.Keys)
    ensures forall k :: k in input && k in CommandFor(name, input).value && k != "action" ==>
              CommandFor(name, input).value[k] == input[k]
  {
  }

  /** When the arguments are what the tool's schema requires (and, for the spread
      tools, nothing more), the command is exactly the tag plus those arguments. */
  lemma SchemaConformingCommand(name: string, input: map<string, Json>)
    requires name in MutatingTools
    requires "action" !in input && RequiredArgs(name) <= input.Keys
    requires name in SpreadTools ==> input.Keys == RequiredArgs(name)
    ensures CommandFor(name, input).Some?
    ensures CommandFor(name, input).value.Keys == RequiredArgs(name) + {"action"}
    ensures CommandFor(name, input).value["action"] == Str(name)
    ensures forall k :: k in RequiredArgs(name) ==> CommandFor(name, input).value[k] == input[k]
  {
  }

  /** A tool call with an unknown name and a prompt lookup with an unknown name differ:
      the first is answered normally and changes nothing, the second is an error. */
  lemma UnknownToolVersusUnknownPrompt(s: State, name: string, input: map<string, Json>)
    requires name !in ToolNames && name != PromptName
    ensures Dispatch(s.conn, s.snapshot, name, input) == Outcome(Text(NotFoundText), None)
    ensures Step(s, Called(name, input)) == s
    ensures GetPrompt(name) == Err(UnknownPrompt)
  {
  }
}
