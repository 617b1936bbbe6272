/** The bridge as the server runs it: two variables that the WebSocket handlers
    assign in place, and the tool-call handler that reads them and sends commands.
    Each handler runs to completion before the next event is handled. */
module Server {
  import opened SceneJson
  import opened ToolCatalog
  import opened Relay

  class Bridge {
    /** The renderer socket commands go to (`clientConnection`). */
    var conn: Option<ConnId>
    /** The latest parsed scene snapshot (`sceneState`). */
    var snapshot: Option<Json>
    /** Every command handed to a socket, in order. */
    var outbox: seq<Delivery>

    function Abstract(): State
      reads this
    {
      State(conn, snapshot, outbox)
    }

    /** Server start: no renderer, no snapshot. */
    constructor ()
      ensures Abstract() == Initial
    {
      conn := None;
      snapshot := None;
      outbox := [];
    }

    /** A renderer connects: it becomes the connection, replacing any previous one. */
    method OnConnect(c: ConnId)
      modifies this
      ensures Abstract() == Step(old(Abstract()), Connected(c))
      ensures conn == Some(c) && snapshot == old(snapshot) && outbox == old(outbox)
    {
      conn := Some(c);
    }

    /** A message arrives on socket `c` (current or superseded); `parsed` is its parse,
        None when parsing throws. */
    method OnMessage(c: ConnId, parsed: Option<Json>)
      modifies this
      ensures Abstract() == Step(old(Abstract()), Received(c, parsed))
      ensures snapshot == (if parsed.Some? then parsed else old(snapshot))
      ensures conn == old(conn) && outbox == old(outbox)
    {
      if parsed.Some? {
        snapshot := parsed;
      }
    }

    /** Socket `c` closes: both variables are cleared, without comparing `c` with the
        current connection. */
    method OnClose(c: ConnId)
      modifies this
      ensures Abstract() == Step(old(Abstract()), Closed(c))
      ensures conn == None && snapshot == None && outbox == old(outbox)
    {
      conn := None;
      snapshot := None;
    }

    /** `send` on socket `c`: fire and forget. */
    method Send(c: ConnId, cmd: Command)
      modifies this
      ensures outbox == old(outbox) + [Delivery(c, cmd)]
      ensures conn == old(conn) && snapshot == old(snapshot)
    {
      outbox := outbox + [Delivery(c, cmd)];
    }

    /** A mutating tool: answer "no connection", or send the command and answer "sent". */
    method SendOrRefuse(cmd: Command) returns (reply: Reply)
      modifies this
      ensures reply == Mutate(old(conn), cmd).reply
      ensures outbox == old(outbox) + Sends(Mutate(old(conn), cmd))
      ensures conn == old(conn) && snapshot == old(snapshot)
    {
      if conn.None? {
        return Text(NoConnectionText);
      }
      Send(conn.value, cmd);
      return Text(SentText);
    }

    /** The tool-call handler, branch for branch. */
    method CallTool(name: string, input: map<string, Json>) returns (reply: Reply)
      modifies this
      ensures reply == Dispatch(old(conn), old(snapshot), name, input).reply
      ensures Abstract() == Step(old(Abstract()), Called(name, input))
      ensures conn == old(conn) && snapshot == old(snapshot)
    {
      if name == AddObject {
        reply := SendOrRefuse(SpreadCommand(AddObject, input));
      } else if name == MoveObject {
        reply := SendOrRefuse(SpreadCommand(MoveObject, input));
      } else if name == RemoveObject {
        reply := SendOrRefuse(SpreadCommand(RemoveObject, input));
      } else if name == GetSceneState {
        if snapshot.Some? && Truthy(snapshot.value) {
          reply := SceneData(Member(snapshot.value, "data"));
        } else {
          reply := Text(NoSceneStateText);
        }
      } else if name == StartRotation {
        reply := SendOrRefuse(FieldCommand(StartRotation, {"id", "speed"}, input));
      } else if name == StopRotation {
        reply := SendOrRefuse(FieldCommand(StopRotation, {"id"}, input));
      } else {
        reply := Text(NotFoundText);
      }
    }
  }
}
