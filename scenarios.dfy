/**
  End-to-end runs of the two stream panels, each from a fresh panel through a short
  sequence of events, with the observable outcome stated as the result.
 */
module Scenarios {

  import opened Json
  import RealTimeData
  import LogsSection

  /** User "42"; the first socket opens and receives a story frame, then a script frame:
      each buffer holds its one fragment. */
  method StoryThenScript() returns (story: string, script: string)
    ensures story == "Once upon a time" && script == "INT. CITY - DAY"
  {
    var p := new RealTimeData.StoryPanel();
    p.Render(Str("42"), false);
    p.OnOpen(0);
    p.OnMessage(0, JsonObject(map["story" := Str("Once upon a time")], "{\"story\":\"Once upon a time\"}"));
    p.OnMessage(0, JsonObject(map["script" := Str("INT. CITY - DAY")], "{\"script\":\"INT. CITY - DAY\"}"));
    story, script := p.story, p.script;
  }

  /** User "7", request "100": a success message, then a timed message, give two entries
      in arrival order. */
  method TwoLogLines() returns (logs: seq<LogsSection.LogEntry>)
    ensures |logs| == 2
    ensures logs[0].text == "render started" && logs[0].level == LogsSection.Success
    ensures logs[1].text == "[12:00:00] queued" && logs[1].level == LogsSection.Info
  {
    var p := new LogsSection.LogsPanel();
    p.Render(Str("7"), Some(Str("100")), false);
    p.OnMessage(0, JsonObject(map["message" := Str("render started"), "status" := Str("success")],
                              "{\"message\":\"render started\",\"status\":\"success\"}"), 1, "t1");
    p.OnMessage(0, JsonObject(map["time" := Str("12:00:00"), "msg" := Str("queued")],
                              "{\"time\":\"12:00:00\",\"msg\":\"queued\"}"), 2, "t2");
    logs := p.logs;
  }

  /** The id is cleared while the story buffer is non-empty: the buffer empties, and a
      frame, a close and an open arriving late on the superseded socket change nothing. */
  method ClearedIdIgnoresLateEvents() returns (story: string, connected: bool, pendingTimers: nat)
    ensures story == "" && !connected && pendingTimers == 0
  {
    var p := new RealTimeData.StoryPanel();
    p.Render(Str("42"), false);
    p.OnOpen(0);
    p.OnMessage(0, NotJson("hello"));
    p.Render(Str(""), false);
    p.OnMessage(0, NotJson("late"));
    p.OnClose(0);
    p.OnOpen(0);
    story, connected, pendingTimers := p.story, p.connected, |p.pending|;
  }
}
