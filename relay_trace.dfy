/** Runs of the bridge: a sequence of events applied one after another, as the event
    loop delivers them. The connection and the snapshot after a run are characterised
    by reference definitions that look only at the latest relevant event. */
module RelayTrace {
  import opened SceneJson
  import opened ToolCatalog
  import opened Relay

  /** Apply the events in order. */
  function Run(s: State, evs: seq<Event>): State
    decreases |evs|
  {
    if evs == [] then s else Run(Step(s, evs[0]), evs[1..])
  }

  /** Reference definition of the connection after `evs`: the socket of the latest
      connect, unless a close came after it; `init` if neither occurred. */
  function LatestConn(init: Option<ConnId>, evs: seq<Event>): Option<ConnId>
    decreases |evs|
  {
    if evs == [] then init
    else match evs[|evs| - 1]
      case Connected(c) => Some(c)
      case Closed(_) => None
      case _ => LatestConn(init, evs[..|evs| - 1])
  }

  /** Reference definition of the snapshot after `evs`: the value of the latest message
      that parsed, unless a close came after it; `init` if neither occurred. */
  function LatestSnapshot(init: Option<Json>, evs: seq<Event>): Option<Json>
    decreases |evs|
  {
    if evs == [] then init
    else match evs[|evs| - 1]
      case Received(_, Some(v)) => Some(v)
      case Closed(_) => None
      case _ => LatestSnapshot(init, evs[..|evs| - 1])
  }

  /** The sockets a run can send to: the one connected at its start and every socket
      that connects during it. */
  function Reachable(init: Option<ConnId>, evs: seq<Event>): set<ConnId>
  {
    (if init.Some? then {init.value} else {}) + set i | 0 <= i < |evs| && evs[i].Connected? :: evs[i].c
  }

  /** The events of a run that reach the relay socket rather than the tool transport. */
  function RelayEvents(evs: seq<Event>): seq<Event>
    decreases |evs|
  {
    if evs == [] then []
    else if evs[0].Called? then RelayEvents(evs[1..])
    else [evs[0]] + RelayEvents(evs[1..])
  }

  /** Running one more event is one more step. */
  lemma {:induction false} RunSnoc(s: State, evs: seq<Event>, e: Event)
    ensures Run(s, evs + [e]) == Step(Run(s, evs), e)
    decreases |evs|
  {
    if evs == [] {
      assert [e][1..] == [];
    } else {
      assert (evs + [e])[0] == evs[0];
      assert (evs + [e])[1..] == evs[1..] + [e];
      RunSnoc(Step(s, evs[0]), evs[1..], e);
    }
  }

  /** The connection after a run is the one the latest connect installed, unless a
      close followed: a close from any socket counts, not only from the current one. */
  lemma {:induction false} RunConn(s: State, evs: seq<Event>)
    ensures Run(s, evs).conn == LatestConn(s.conn, evs)
    decreases |evs|
  {
    if evs != [] {
      var front, e := evs[..|evs| - 1], evs[|evs| - 1];
      assert evs == front + [e];
      RunSnoc(s, front, e);
      RunConn(s, front);
    }
  }

  /** The snapshot after a run is the latest parsed message, unless a close followed;
      messages that fail to parse and tool calls leave it alone. */
  lemma {:induction false} RunSnapshot(s: State, evs: seq<Event>)
    ensures Run(s, evs).snapshot == LatestSnapshot(s.snapshot, evs)
    decreases |evs|
  {
    if evs != [] {
      var front, e := evs[..|evs| - 1], evs[|evs| - 1];
      assert evs == front + [e];
      RunSnoc(s, front, e);
      RunSnapshot(s, front);
    }
  }

  /** Sends are only appended, at most one per event, and each goes to a socket that
      was connected at the start or connected during the run. */
  lemma {:induction false} RunOutbox(s: State, evs: seq<Event>)
    ensures s.outbox <= Run(s, evs).outbox
    ensures |Run(s, evs).outbox| <= |s.outbox| + |evs|
    ensures forall i :: |s.outbox| <= i < |Run(s, evs).outbox| ==>
              Run(s, evs).outbox[i].to in Reachable(s.conn, evs)
    decreases |evs|
  {
    if evs != [] {
      var t := Step(s, evs[0]);
      RunOutbox(t, evs[1..]);
      var r := Run(s, evs);
      assert r == Run(t, evs[1..]);
      forall i | |s.outbox| <= i < |r.outbox|
        ensures r.outbox[i].to in Reachable(s.conn, evs)
      {
        if i < |t.outbox| {
          // the one delivery `evs[0]` made went to the connection current at the start
          assert t.outbox[i] == r.outbox[i];
          var o := Dispatch(s.conn, s.snapshot, evs[0].name, evs[0].input);
          assert t.outbox == s.outbox + Sends(o);
          assert r.outbox[i] == o.sent.value;
        } else {
          var x := r.outbox[i].to;
          assert x in Reachable(t.conn, evs[1..]);
          if t.conn.Some? && x == t.conn.value {
            if t.conn != s.conn {
              assert evs[0] == Connected(x);
            }
          } else {
            var j :| 0 <= j < |evs[1..]| && evs[1..][j].Connected? && evs[1..][j].c == x;
            assert evs[j + 1].Connected? && evs[j + 1].c == x;
          }
        }
      }
    }
  }

  /** Tool calls only read the bridge: the connection and the snapshot after a run are
      those after the same run with every tool call removed. */
  lemma {:induction false} ToolCallsOnlyRead(s1: State, s2: State, evs: seq<Event>)
    requires s1.conn == s2.conn && s1.snapshot == s2.snapshot
    ensures Run(s1, evs).conn == Run(s2, RelayEvents(evs)).conn
    ensures Run(s1, evs).snapshot == Run(s2, RelayEvents(evs)).snapshot
    decreases |evs|
  {
    if evs != [] {
      if evs[0].Called? {
        ToolCallsOnlyRead(Step(s1, evs[0]), s2, evs[1..]);
      } else {
        var rest := RelayEvents(evs[1..]);
        assert ([evs[0]] + rest)[0] == evs[0] && ([evs[0]] + rest)[1..] == rest;
        ToolCallsOnlyRead(Step(s1, evs[0]), Step(s2, evs[0]), evs[1..]);
      }
    }
  }

  /** After a close, until the next connect or message, every tool call is answered
      without sending: the mutating tools find no connection and the snapshot query
      finds no snapshot. */
  lemma {:induction false} CallsAfterClose(s: State, c: ConnId, calls: seq<Event>)
    requires forall i :: 0 <= i < |calls| ==> calls[i].Called?
    ensures Run(s, [Closed(c)] + calls) == State(None, None, s.outbox)
  {
    var t := Step(s, Closed(c));
    assert ([Closed(c)] + calls)[1..] == calls;
    assert Run(s, [Closed(c)] + calls) == Run(t, calls);
    CallsKeepState(t, calls);
  }

  /** Tool calls on a disconnected bridge change nothing at all. */
  lemma {:induction false} CallsKeepState(t: State, calls: seq<Event>)
    requires t.conn == None
    requires forall i :: 0 <= i < |calls| ==> calls[i].Called?
    ensures Run(t, calls) == t
    decreases |calls|
  {
    if calls != [] {
      assert Step(t, calls[0]) == t;
      CallsKeepState(t, calls[1..]);
    }
  }

  // ---------------------------------------------------------------------------
  // Concrete runs

  /** A close from a superseded socket disconnects the newer one: after `a` then `b`
      connect, `a` closing leaves no connection although `b` is still open. */
  lemma SupersededCloseClearsNewer(a: ConnId, b: ConnId, v: Json)
    requires a != b
    ensures Run(Initial, [Connected(a), Received(a, Some(v)), Connected(b), Closed(a)])
              == State(None, None, [])
  {
    var evs := [Connected(a), Received(a, Some(v)), Connected(b), Closed(a)];
    var s1 := State(Some(a), None, []);
    var s2 := State(Some(a), Some(v), []);
    var s3 := State(Some(b), Some(v), []);
    assert evs[1..][1..][1..][1..] == [];
    calc {
      Run(Initial, evs);
      Run(s1, evs[1..]);
      Run(s2, evs[1..][1..]);
      Run(s3, evs[1..][1..][1..]);
      Run(State(None, None, []), evs[1..][1..][1..][1..]);
    }
  }

  /** A superseded socket that is still open keeps feeding the bridge snapshots: after
      `a` then `b` connect and `b` closes, a message from `a` fills the cache while no
      connection is registered. */
  lemma StaleSnapshotWithoutConnection(a: ConnId, b: ConnId, v: Json)
    requires a != b
    ensures Run(Initial, [Connected(a), Connected(b), Closed(b), Received(a, Some(v))])
              == State(None, Some(v), [])
  {
    var evs := [Connected(a), Connected(b), Closed(b), Received(a, Some(v))];
    assert evs[1..][1..][1..][1..] == [];
    calc {
      Run(Initial, evs);
      Run(State(Some(a), None, []), evs[1..]);
      Run(State(Some(b), None, []), evs[1..][1..]);
      Run(State(None, None, []), evs[1..][1..][1..]);
      Run(State(None, Some(v), []), evs[1..][1..][1..][1..]);
    }
  }

  /** Adding a red cube at (1, 2, 3) while connected sends exactly one command, the
      arguments tagged with the action, and answers "sent". */
  lemma AddCubeRoundTrip(c: ConnId, snapshot: Option<Json>)
    ensures var input := map["type" := Str("cube"),
                             "position" := Arr([Num(1.0), Num(2.0), Num(3.0)]),
                             "color" := Str("red")];
            var o := Dispatch(Some(c), snapshot, AddObject, input);
            o.reply == Text(SentText) &&
            o.sent == Some(Delivery(c, map["action" := Str("addObject"), "type" := Str("cube"),
                                           "position" := Arr([Num(1.0), Num(2.0), Num(3.0)]),
                                           "color" := Str("red")]))
  {
    var input := map["type" := Str("cube"),
                     "position" := Arr([Num(1.0), Num(2.0), Num(3.0)]),
                     "color" := Str("red")];
    var cmd := SpreadCommand(AddObject, input);
    assert cmd == map["action" := Str("addObject"), "type" := Str("cube"),
                      "position" := Arr([Num(1.0), Num(2.0), Num(3.0)]),
                      "color" := Str("red")];
  }

  /** A run in which no snapshot is ever cached (every message, if any, fails to parse)
      answers the snapshot query with the fixed text. */
  lemma NoSnapshotEverCached(evs: seq<Event>)
    requires forall i :: 0 <= i < |evs| ==> !(evs[i].Received? && evs[i].parsed.Some?)
    ensures Dispatch(Run(Initial, evs).conn, Run(Initial, evs).snapshot, GetSceneState, map[])
              == Outcome(Text(NoSceneStateText), None)
  {
    RunSnapshot(Initial, evs);
    NeverReceivedLatest(evs);
  }

  /** Without any message that parses, the reference snapshot stays absent. */
  lemma {:induction false} NeverReceivedLatest(evs: seq<Event>)
    requires forall i :: 0 <= i < |evs| ==> !(evs[i].Received? && evs[i].parsed.Some?)
    ensures LatestSnapshot(None, evs) == None
    decreases |evs|
  {
    if evs != [] {
      NeverReceivedLatest(evs[..|evs| - 1]);
    }
  }
}
