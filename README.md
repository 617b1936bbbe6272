# Three.js MCP relay bridge, modelled in Dafny

The server in `src/main.ts` bridges two transports. On one side a tool-invocation
client (an MCP client) calls six named tools. On the other side renderers
connect over a WebSocket. Any number of renderers may connect; the bridge
registers only the latest, but every socket keeps its own message and close
handlers. Renderers push full scene snapshots; the bridge keeps the latest one.
Five tools turn their arguments into a command object and send it to the
registered renderer; `getSceneState` answers from the cached snapshot. A single guidance prompt can be fetched by name.

The model has five modules:

- `SceneJson` (`scene_json.dfy`): `Option`, `Result`, a parsed JSON value `Json`,
  JavaScript truthiness of a value (`Truthy`) and optional member access `v?.key`
  (`Member`).
- `ToolCatalog` (`tool_catalog.dfy`): the advertised tool names, the arguments each
  tool's input schema requires, and the prompt lookup `GetPrompt`.
- `Relay` (`relay.dfy`): the bridge state (`conn`, `snapshot` and the record
  `outbox` of every send), the events that drive it, the effect `Step` of one
  event, the tool-call handler `Dispatch`, and the command builders.
- `RelayTrace` (`relay_trace.dfy`): runs of many events. The connection and the
  snapshot after a run are characterised by reference definitions that look at
  the latest relevant event. The file also proves facts about the record of sends
  and a few concrete runs.
- `Server` (`server.dfy`): the class `Bridge` whose fields the handlers assign in
  place. Each handler method is proved to have exactly the effect `Step` gives it.

Where the bridge's intended design and its code differ, the model follows the code:

- A close event clears the connection and the snapshot whichever socket closes.
  The intended design clears only when the current socket closes. In the code a
  superseded socket's close disconnects the newer renderer
  (`RelayTrace.SupersededCloseClearsNewer`).
- A superseded socket's messages still replace the snapshot. So the snapshot can
  be present while no connection is registered
  (`RelayTrace.StaleSnapshotWithoutConnection`). The intended rule "no snapshot
  without a live connection" does not hold.
- `getSceneState` tests the snapshot for truthiness. It answers with the
  snapshot's `data` member, not the whole snapshot.
- Tool arguments are never checked against the input schemas. For `addObject`,
  `moveObject` and `removeObject` every argument reaches the renderer, extra ones
  too, and an `action` argument overrides the tag. `startRotation` and
  `stopRotation` keep only their own fields.
- There is no handling of a failing send: with a connection registered, every
  mutating tool answers "sent".

## Model

| member | source | states |
|---|---|---|
| `SceneJson.Truthy` | src/main.ts:200 | a snapshot is falsy exactly when it is `null`, `false`, `0` or `""`; every array and object is truthy |
| `SceneJson.Member` | src/main.ts:205 | `v?.data` is present exactly when `v` is an object with a `data` member, and is then that member's value |
| `ToolCatalog.RequiredArgs` | src/main.ts:48-107 | only the five mutating tools require arguments; all but addObject require `id`; no schema requires `action` |
| `Relay.Mutate` | src/main.ts:137-156 | without a connection the reply is "No client connection available" and nothing is sent; with one the command goes to that connection and the reply is "sent" |
| `ToolCatalog.GetPrompt` | src/main.ts:279-282 | the lookup succeeds exactly for "asset-creation-strategy"; every other name is the error UnknownPrompt |
| `ToolCatalog.CatalogShape` | src/main.ts:48-113 | six distinct tool names: the five mutating tools and getSceneState; the prompt name is not a tool |
| `Relay.SpreadCommand` | src/main.ts:147 | `{ action, ...input }` has the input's keys plus `action`, every input value unchanged, and the tag only when the input has no `action` |
| `Relay.FieldCommand` | src/main.ts:230-234 | the command holds `action` = the tag plus exactly the listed fields the input has, with their values; nothing else |
| `Relay.CommandFor` | src/main.ts:136-267 | a command is built exactly for the five mutating tools and always carries an `action` member |
| `Relay.Dispatch` | src/main.ts:130-277 | a send happens iff a mutating tool is called while connected, to the current connection, with the tool's command, and then the reply is "sent"; unconnected mutating tools reply "No client connection available"; scene data is replied iff the tool is getSceneState and the snapshot is truthy, and it is the snapshot's `data` member; otherwise getSceneState replies "No scene state available"; "Tool not found" is replied iff the name is not a listed tool, and then nothing is sent |
| `Relay.Step` | src/main.ts:11-28 | only a connect installs a connection; a snapshot is the previous one or the value a message just parsed to; sends only grow, by at most one, and only on a tool call; a tool call never changes the connection or the snapshot |
| `Relay.ConnectReplaces` | src/main.ts:11-13 | after a connect the connection is that socket, whatever was stored; snapshot and sends untouched |
| `Relay.MessageReplacesOrIgnores` | src/main.ts:15-21 | a parsed message from any socket replaces the snapshot with exactly the parsed value; an unparseable one changes nothing |
| `Relay.CloseClearsBoth` | src/main.ts:24-28 | a close from any socket, current or not, clears connection and snapshot and sends nothing |
| `Relay.SpreadToolCommand` | src/main.ts:136-198 | for addObject, moveObject and removeObject the command is the input over the tag: all input keys plus `action`, input values win, `action` is the input's if it has one |
| `Relay.RotationToolCommand` | src/main.ts:219-267 | startRotation sends exactly `action`, `id`, `speed` (those present); stopRotation exactly `action`, `id`; the tag is never overridden |
| `Relay.SchemaConformingCommand` | src/main.ts:48-107 | with exactly the schema's required arguments (at least them, for the rotation tools), the command is the tag plus those arguments |
| `Relay.UnknownToolVersusUnknownPrompt` | src/main.ts:269-282 | an unknown tool name is answered "Tool not found" and leaves the state unchanged, while an unknown prompt name is an error |
| `RelayTrace.RunConn` | src/main.ts:11-28 | after any run the connection is the socket of the latest connect unless a close (from any socket) came after it |
| `RelayTrace.RunSnapshot` | src/main.ts:15-28 | after any run the snapshot is the latest parsed message unless a close came after it; bad messages and tool calls do not affect it |
| `RelayTrace.RunOutbox` | src/main.ts:148 | sends are append-only, at most one per event, and each goes to a socket connected at the start or during the run |
| `RelayTrace.ToolCallsOnlyRead` | src/main.ts:130-277 | removing every tool call from a run leaves the final connection and snapshot the same |
| `RelayTrace.CallsAfterClose` | src/main.ts:24-28 | after a close, any number of tool calls send nothing and leave connection and snapshot absent |
| `RelayTrace.CallsKeepState` | src/main.ts:137-146 | with no connection, tool calls change nothing, the record of sends included |
| `RelayTrace.SupersededCloseClearsNewer` | src/main.ts:24-27 | connect a, message, connect b, close a: no connection and no snapshot remain although b is open |
| `RelayTrace.StaleSnapshotWithoutConnection` | src/main.ts:13-27 | connect a, connect b, close b, then a message from the superseded a: a snapshot is cached with no connection |
| `RelayTrace.AddCubeRoundTrip` | src/main.ts:136-156 | addObject with a red cube at (1, 2, 3) while connected replies "sent" and sends exactly the arguments plus `action: "addObject"` |
| `RelayTrace.NoSnapshotEverCached` | src/main.ts:199-218 | in a run whose messages all fail to parse (or that has none) getSceneState replies "No scene state available" |
| `Server.Bridge.constructor` | src/main.ts:8-9 | the bridge starts with no connection, no snapshot and no sends |
| `Server.Bridge.OnConnect` | src/main.ts:11-13 | the connection becomes `c`; snapshot and sends unchanged; equals `Step` on a connect |
| `Server.Bridge.OnMessage` | src/main.ts:15-21 | a parsed message replaces the snapshot, a failed parse keeps it; connection and sends unchanged; equals `Step` |
| `Server.Bridge.OnClose` | src/main.ts:24-28 | connection and snapshot cleared, whoever closes; sends unchanged; equals `Step` |
| `Server.Bridge.Send` | src/main.ts:148 | a send appends one delivery to the record and changes nothing else |
| `Server.Bridge.SendOrRefuse` | src/main.ts:137-156 | without a connection reply "No client connection available" and send nothing; otherwise send the command to the connection and reply "sent" |
| `Server.Bridge.CallTool` | src/main.ts:130-277 | the reply is `Dispatch`'s reply for the state before the call, the new state is `Step` of the call, and connection and snapshot are unchanged |

## Left out

- The WebSocket server and its port, the MCP `Server` object and the stdio
  transport (src/main.ts:7, 32-39, 315-323) are library plumbing. A socket is an
  opaque `ConnId`; a send is a delivery appended to `outbox`.
- What `send` does on a socket that has closed belongs to the WebSocket library.
  The model records the delivery and answers "sent".
- The SIGINT shutdown (src/main.ts:41-45) and the interleaving of the event loop.
  Each handler runs as one atomic step; a run is a sequence of such steps.
- Error logging (`console.error`) only reports and changes no state.
- JSON text. `JSON.parse` is an input: `Some(v)` for a parse to `v`, `None` when it
  throws. `JSON.stringify` and its pretty-printing are not modelled. The
  getSceneState reply is `SceneData(d)` with `d` the value that is stringified;
  `SceneData(None)` is stringifying `undefined`, which yields no text (what the MCP
  library then does with such a reply is not modelled). A command is the object
  value that is stringified; member order is not modelled, and members whose
  value is `undefined` are absent, as they are in the serialised text.
- JSON numbers are reals, standing for the double that `JSON.parse` produced, not
  the exact value of the literal: `1e-400` parses to `0`, which is falsy, so the
  caller supplies `Num(0.0)` for it.
- `Infinity` and `-Infinity`, which `JSON.parse` yields for literals such as `1e400`
  and `-1e400`, have no `Json` value. At the top of a snapshot every non-zero number
  behaves alike (truthy, with no `data` member), so a snapshot of `Num(1.0)` stands
  for them there; inside arrays and objects they are not modelled.
- The listing handlers return static data (src/main.ts:124-125). Only the tool
  names and the prompt name are modelled, with each schema's required argument
  names. Descriptions, property types and the prompt text are not.
- An absent `arguments` object is the empty map. Spreading `undefined` adds no
  member and `undefined?.id` is `undefined`, so the two behave the same.
