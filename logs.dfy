/**
  The logs panel (`LogsPanel`): a push connection per (user id, request id) whose
  frames are decoded into a text and a level and appended, one entry per frame,
  to an ordered list. Unlike the story panel it does not reconnect: the calls to
  its `scheduleReconnect` are commented out, so that function is dead code here.
 */
module LogsSection {

  import opened Json
  import opened Browser
  import RealTimeData

  datatype Level = Info | Success | Error

  /** What `onmessage` derives from one frame. */
  datatype LogLine = LogLine(text: string, level: Level)

  /** A list entry; `id` (`Date.now() + Math.random()`) and `time` (the ISO time of
      receipt) come from the clock and the random source, so they are inputs. */
  datatype LogEntry = LogEntry(id: int, text: string, time: string, level: Level)

  /** `parsed.status === "success" ? "success" : parsed.status ? "error" : "info"`. */
  function StatusLevel(status: Option<Value>): Level {
    if status == Some(Str("success")) then Success
    else if status.Some? && Truthy(status.value) then Error
    else Info
  }

  /** The decoding rule of `onmessage`, tried top-down: an object with a `message`
      key; then a value with truthy `time` and `msg`; then the JSON text of the parsed
      value; and the raw text when the frame is not JSON. */
  function DecodeLog(f: Frame): (line: LogLine)
    // only the `message` rule sets a level other than info
    ensures line.level == Success <==>
              f.JsonObject? && "message" in f.fields && Get(f.fields, "status") == Some(Str("success"))
    ensures line.level == Error <==>
              f.JsonObject? && "message" in f.fields && TruthyField(f.fields, "status")
              && f.fields["status"] != Str("success")
    ensures f.JsonObject? && "message" in f.fields ==> line.text == Text(f.fields["message"])
    ensures f.NotJson? ==> line == LogLine(f.raw, Info)
    ensures f.JsonNonObject? ==> line == LogLine(f.stringified, Info)
    ensures f.JsonObject? && "message" !in f.fields && TruthyField(f.fields, "time") && TruthyField(f.fields, "msg") ==>
              line == LogLine("[" + Text(f.fields["time"]) + "] " + Text(f.fields["msg"]), Info)
    ensures f.JsonObject? && "message" !in f.fields && !(TruthyField(f.fields, "time") && TruthyField(f.fields, "msg")) ==>
              line == LogLine(f.stringified, Info)
  {
    match f
    case NotJson(raw) => LogLine(raw, Info)
    case JsonNonObject(_, stringified) => LogLine(stringified, Info)
    case JsonObject(fields, stringified) =>
      if "message" in fields then
        LogLine(Text(fields["message"]), StatusLevel(Get(fields, "status")))
      else if TruthyField(fields, "time") && TruthyField(fields, "msg") then
        LogLine("[" + Text(fields["time"]) + "] " + Text(fields["msg"]), Info)
      else
        LogLine(stringified, Info)
  }

  /** The arithmetic of the panel's own `scheduleReconnect`, which is never called: the
      counter goes up by one, saturating at 6, and the delay is computed from the count
      BEFORE the increment, 1000 ms times 2 to that count, at most 30000 ms. */
  function LogsNextBackoff(attempt: nat): RealTimeData.Backoff {
    RealTimeData.Backoff(
      RealTimeData.Min(attempt + 1, RealTimeData.MaxAttempts),
      RealTimeData.Min(RealTimeData.BaseDelay * RealTimeData.Pow2(attempt), RealTimeData.MaxDelay))
  }

  /** The two panels write their backoff differently (the story panel uses the count
      after the increment minus one, this one the count before it) but agree on every
      counter value: the same new count and the same delay. */
  lemma BackoffPoliciesAgree(attempt: nat)
    ensures LogsNextBackoff(attempt) == RealTimeData.NextBackoff(attempt)
  {
    RealTimeData.Pow2Threshold(attempt);
  }

  /** The subscription key the effect depends on, `[userId, requestId]`; the request id
      is absent (`undefined`) when the host does not pass one. */
  datatype Key = Key(userId: Value, requestId: Option<Value>)

  /** Everything a `LogsPanel` holds, as one value. */
  datatype LogsState = LogsState(
    logs: seq<LogEntry>, connected: bool, attempt: nat, ws: Option<nat>,
    key: Option<Key>, live: Option<nat>, runs: nat, sockets: Sockets)

  class LogsPanel {
    // React state
    var logs: seq<LogEntry>
    var connected: bool
    var attempt: nat
    // ref: wsRef
    var ws: Option<nat>
    // the effect: the key of its last run (None before the first render), the run
    // whose `mounted` flag is still true, and the number of runs so far
    var key: Option<Key>
    var live: Option<nat>
    var runs: nat
    // the browser: sockets created
    var sockets: Sockets

    function State(): LogsState
      reads this
    {
      LogsState(logs, connected, attempt, ws, key, live, runs, sockets)
    }

    /** The handlers of socket `s` belong to the effect run that is still mounted. */
    predicate Mounted(s: nat)
      reads this
    {
      s < |sockets.owner| && live == Some(sockets.owner[s])
    }

    /** Socket `s` exists and its effect run has been cleaned up. */
    predicate Stale(s: nat)
      reads this
    {
      s < |sockets.owner| && live != Some(sockets.owner[s])
    }

    /** Counters bound the ids in use and only the latest effect run can be mounted. */
    ghost predicate Wired()
      reads this
    {
      && (live.Some? ==> live.value + 1 == runs)
      && (forall s :: 0 <= s < |sockets.owner| ==> sockets.owner[s] < runs)
      && (ws.Some? ==> ws.value < |sockets.owner|)
    }

    /** A run is mounted exactly when the key's user id is truthy; without one the list
        is empty and the panel disconnected; and, since nothing schedules a reconnect,
        the attempt counter never leaves 0. */
    ghost predicate Valid()
      reads this
    {
      && Wired()
      && attempt == 0
      && (live.Some? <==> key.Some? && Truthy(key.value.userId))
      && (live.None? ==> logs == [] && !connected && ws.None?)
    }

    /** The first render, before the effect has run. */
    constructor ()
      ensures Valid()
      ensures State() == LogsState([], false, 0, None, None, None, 0, NoSockets)
    {
      logs, connected, attempt, ws := [], false, 0, None;
      key, live, runs, sockets := None, None, 0, NoSockets;
    }

    /** The cleanup the effect returns: the run is no longer mounted and the socket held
        is closed (the ref keeps it; no timer is ever set). */
    method Cleanup()
      requires Valid() && live.Some?
      modifies this
      ensures Wired()
      ensures State() == old(State()).(live := None, sockets := old(sockets).Close(old(ws)))
    {
      live := None;
      sockets := sockets.Close(ws);
    }

    /** A render with the given ids. React runs the effect only when the key differs
        from the last run's: first the previous run's cleanup, then the effect body. A
        falsy user id closes and drops the socket, disconnects, resets the counter and
        empties the list; a truthy one starts a new mounted run and connects. The list
        is not cleared when one truthy key replaces another. */
    method Render(userId: Value, requestId: Option<Value>, ctorThrows: bool)
      requires Valid()
      modifies this
      ensures Valid()
      ensures key == Some(Key(userId, requestId))
      ensures old(key) == Some(Key(userId, requestId)) ==> State() == old(State())
      ensures old(key) != Some(Key(userId, requestId)) ==>
                (forall s :: 0 <= s < |old(sockets.owner)| ==> Stale(s))
                && sockets.closeRequested == old(sockets).Close(old(ws)).closeRequested
      ensures old(key) != Some(Key(userId, requestId)) && !Truthy(userId) ==>
                State() == old(State()).(
                  logs := [], connected := false, attempt := 0, ws := None,
                  key := Some(Key(userId, requestId)), live := None,
                  sockets := old(sockets).Close(old(ws)))
      ensures old(key) != Some(Key(userId, requestId)) && Truthy(userId) ==>
                State() == old(State()).(
                  key := Some(Key(userId, requestId)), live := Some(old(runs)), runs := old(runs) + 1,
                  sockets := if ctorThrows then old(sockets).Close(old(ws))
                             else old(sockets).Close(old(ws)).Create(old(runs)).0,
                  ws := if ctorThrows then old(ws) else Some(|old(sockets.owner)|))
    {
      var k := Key(userId, requestId);
      if key == Some(k) {
        return;
      }
      if live.Some? {
        Cleanup();
      }
      key := Some(k);
      if !Truthy(userId) {
        sockets := sockets.Close(ws);
        ws := None;
        connected, attempt, logs := false, 0, [];
        return;
      }
      live := Some(runs);
      runs := runs + 1;
      // `connect()`: when the constructor throws, the catch block does nothing
      if !ctorThrows {
        var (next, s) := sockets.Create(live.value);
        sockets := next;
        ws := Some(s);
      }
    }

    /** `ws.onopen`: connected and the counter at 0, unless the run is gone. */
    method OnOpen(s: nat)
      requires Valid()
      modifies this
      ensures Valid()
      ensures State() == if old(Mounted(s)) then old(State()).(connected := true, attempt := 0)
                         else old(State())
    {
      if !Mounted(s) {
        return;
      }
      connected := true;
      attempt := 0;
    }

    /** `ws.onmessage`: exactly one entry, decoded from the frame, added at the end of the
        list, unless the run is gone. */
    method OnMessage(s: nat, frame: Frame, id: int, time: string)
      requires Valid()
      modifies this
      ensures Valid()
      ensures old(Mounted(s)) ==>
                State() == old(State()).(
                  logs := old(logs) + [LogEntry(id, DecodeLog(frame).text, time, DecodeLog(frame).level)])
      ensures !old(Mounted(s)) ==> State() == old(State())
    {
      if !Mounted(s) {
        return;
      }
      var line := DecodeLog(frame);
      logs := logs + [LogEntry(id, line.text, time, line.level)];
    }

    /** `ws.onclose`: disconnected, and nothing else. The assignment comes before the
        `mounted` check, so the close of a superseded socket also clears `connected`;
        no reconnect is scheduled. */
    method OnClose(s: nat)
      requires Valid()
      modifies this
      ensures Valid()
      ensures State() == old(State()).(connected := false)
    {
      connected := false;
      if !Mounted(s) {
        return;
      }
      connected := false;
    }

    /** `ws.onerror`: closes that socket; its close event follows. */
    method OnError(s: nat)
      requires Valid()
      modifies this
      ensures Valid()
      ensures State() == old(State()).(sockets := old(sockets).Close(Some(s)))
    {
      sockets := sockets.Close(Some(s));
    }

    /** The Clear button: the list emptied, the connection untouched. */
    method ClearLogs()
      requires Valid()
      modifies this
      ensures Valid()
      ensures State() == old(State()).(logs := [])
    {
      logs := [];
    }
  }
}
