/**
  The realtime story and script panel (`RealTimeData`): a push connection per
  user id whose frames are decoded into story and script fragments and appended
  to two text buffers, with reconnection after an unexpected close.

  The pure parts (the append updater, the frame decoder, the backoff arithmetic)
  are functions with lemmas; the component, whose effect and handlers update refs
  and state step by step, is the class `StoryPanel`.
 */
module RealTimeData {

  import opened Json
  import opened Browser

  // ---------------------------------------------------------------------------
  // Text buffers

  /** The blank line that separates two fragments in a buffer. */
  const Separator: string := "\n\n"

  /** The state updater `prev ? prev + "\n\n" + x : x`. */
  function Append(buf: string, frag: string): string {
    if buf == "" then frag else buf + Separator + frag
  }

  /** Appends the fragments one after the other, in arrival order. */
  function Accumulate(buf: string, frags: seq<string>): string
    decreases |frags|
  {
    if frags == [] then buf else Accumulate(Append(buf, frags[0]), frags[1..])
  }

  /** Reference definition of a buffer's contents: the fragments joined by blank lines. */
  function Join(parts: seq<string>): string
    decreases |parts|
  {
    if parts == [] then ""
    else if |parts| == 1 then parts[0]
    else parts[0] + Separator + Join(parts[1..])
  }

  /** The fragments without the empty ones at the front, which leave an empty
      buffer empty and so never show up in it. */
  function DropLeadingEmpty(frags: seq<string>): (r: seq<string>)
    ensures r == [] || r[0] != ""
    ensures |r| <= |frags| && r == frags[|frags| - |r|..]
    decreases |frags|
  {
    if frags == [] then []
    else if frags[0] == "" then DropLeadingEmpty(frags[1..])
    else frags
  }

  lemma {:induction false} AccumulateConcat(buf: string, xs: seq<string>, ys: seq<string>)
    ensures Accumulate(buf, xs + ys) == Accumulate(Accumulate(buf, xs), ys)
    decreases |xs|
  {
    if xs == [] {
      assert xs + ys == ys;
    } else {
      assert (xs + ys)[1..] == xs[1..] + ys;
      AccumulateConcat(Append(buf, xs[0]), xs[1..], ys);
    }
  }

  /** Appending to a non-empty buffer puts a blank line before every fragment. */
  lemma {:induction false} AccumulateOnto(buf: string, frags: seq<string>)
    requires buf != ""
    ensures Accumulate(buf, frags) == if frags == [] then buf else buf + Separator + Join(frags)
    decreases |frags|
  {
    if frags != [] {
      var next := buf + Separator + frags[0];
      AccumulateOnto(next, frags[1..]);
      if |frags| > 1 {
        calc {
          Accumulate(buf, frags);
          next + Separator + Join(frags[1..]);
          buf + Separator + (frags[0] + Separator + Join(frags[1..]));
        }
      }
    }
  }

  /** A buffer that starts empty holds the join of its fragments, apart from the empty
      fragments that arrived while it was still empty. */
  lemma {:induction false} AccumulateJoins(frags: seq<string>)
    ensures Accumulate("", frags) == Join(DropLeadingEmpty(frags))
    decreases |frags|
  {
    if frags != [] {
      if frags[0] == "" {
        AccumulateJoins(frags[1..]);
      } else {
        AccumulateOnto(frags[0], frags[1..]);
      }
    }
  }

  /** For non-empty fragments a buffer that starts empty is exactly their join. */
  lemma AccumulateNonEmptyJoins(frags: seq<string>)
    requires forall k :: 0 <= k < |frags| ==> frags[k] != ""
    ensures Accumulate("", frags) == Join(frags)
  {
    AccumulateJoins(frags);
    assert frags == [] || DropLeadingEmpty(frags) == frags;
  }

  // ---------------------------------------------------------------------------
  // Frame decoding

  /** `String(parsed[key] || "")`. */
  function FieldText(fields: map<string, Value>, key: string): string
    requires key in fields
  {
    if Truthy(fields[key]) then Text(fields[key]) else ""
  }

  /** The fragments one frame appends to the story buffer: the `story` field; the
      `message` field when neither `story` nor `script` is present; the raw frame
      when it is not JSON or parses to a primitive or null; nothing for any other
      object. */
  function StoryParts(f: Frame): (parts: seq<string>)
    ensures |parts| <= 1
    ensures f.JsonObject? ==>
              (parts != [] <==> "story" in f.fields || ("script" !in f.fields && "message" in f.fields))
    ensures !f.JsonObject? ==> parts == [f.raw]
    ensures f.JsonObject? && "story" in f.fields ==> parts == [FieldText(f.fields, "story")]
    ensures f.JsonObject? && "story" !in f.fields && "script" !in f.fields && "message" in f.fields ==>
              parts == [Text(f.fields["message"])]
  {
    match f
    case NotJson(raw) => [raw]
    case JsonNonObject(raw, _) => [raw]
    case JsonObject(fields, _) =>
      if "story" in fields then [FieldText(fields, "story")]
      else if "script" !in fields && "message" in fields then [Text(fields["message"])]
      else []
  }

  /** The fragments one frame appends to the script buffer: the `script` field of an
      object, nothing otherwise. */
  function ScriptParts(f: Frame): (parts: seq<string>)
    ensures |parts| <= 1
    ensures parts != [] <==> f.JsonObject? && "script" in f.fields
    ensures parts != [] ==> parts == [FieldText(f.fields, "script")]
  {
    if f.JsonObject? && "script" in f.fields then [FieldText(f.fields, "script")] else []
  }

  datatype Buffers = Buffers(story: string, script: string)

  /** What `onmessage` does to the two buffers for one frame: a `story` and a `script`
      key each append to their own buffer, both from the same frame when both are
      present; a lone `message` appends to the story only; an object with none of the
      three keys changes nothing; a frame that is not a JSON object appends its raw
      text to the story only. */
  function ApplyFrame(b: Buffers, f: Frame): (r: Buffers)
    ensures f.JsonObject? && "story" in f.fields ==> r.story == Append(b.story, FieldText(f.fields, "story"))
    ensures f.JsonObject? && "script" in f.fields ==> r.script == Append(b.script, FieldText(f.fields, "script"))
    ensures f.JsonObject? && "story" !in f.fields && "script" !in f.fields && "message" in f.fields ==>
              r == Buffers(Append(b.story, Text(f.fields["message"])), b.script)
    ensures f.JsonObject? && "story" !in f.fields && "script" !in f.fields && "message" !in f.fields ==>
              r == b
    ensures f.JsonObject? && "story" in f.fields && "script" !in f.fields ==> r.script == b.script
    ensures f.JsonObject? && "story" !in f.fields && "script" in f.fields ==> r.story == b.story
    ensures !f.JsonObject? ==> r == Buffers(Append(b.story, f.raw), b.script)
  {
    var story := StoryParts(f);
    var script := ScriptParts(f);
    AccumulateOne(b.story, story);
    AccumulateOne(b.script, script);
    Buffers(Accumulate(b.story, story), Accumulate(b.script, script))
  }

  /** At most one fragment: nothing, or a single `Append`. */
  lemma AccumulateOne(buf: string, frags: seq<string>)
    requires |frags| <= 1
    ensures Accumulate(buf, frags) == if frags == [] then buf else Append(buf, frags[0])
  {
    if frags != [] {
      assert frags[1..] == [];
    }
  }

  /** The frames of one session applied in arrival order. */
  function Feed(b: Buffers, frames: seq<Frame>): Buffers
    decreases |frames|
  {
    if frames == [] then b else Feed(ApplyFrame(b, frames[0]), frames[1..])
  }

  function StoryFragments(frames: seq<Frame>): seq<string>
    decreases |frames|
  {
    if frames == [] then [] else StoryParts(frames[0]) + StoryFragments(frames[1..])
  }

  function ScriptFragments(frames: seq<Frame>): seq<string>
    decreases |frames|
  {
    if frames == [] then [] else ScriptParts(frames[0]) + ScriptFragments(frames[1..])
  }

  /** Feeding frames appends every story fragment and every script fragment they carry,
      in arrival order, each to its own buffer. */
  lemma {:induction false} FeedAccumulates(b: Buffers, frames: seq<Frame>)
    ensures Feed(b, frames)
         == Buffers(Accumulate(b.story, StoryFragments(frames)), Accumulate(b.script, ScriptFragments(frames)))
    decreases |frames|
  {
    if frames != [] {
      var f := frames[0];
      FeedAccumulates(ApplyFrame(b, f), frames[1..]);
      AccumulateConcat(b.story, StoryParts(f), StoryFragments(frames[1..]));
      AccumulateConcat(b.script, ScriptParts(f), ScriptFragments(frames[1..]));
    }
  }

  /** Starting from empty buffers, each buffer is the blank-line join of its fragments in
      arrival order (empty fragments received while the buffer was still empty leave no
      trace). */
  lemma FeedJoins(frames: seq<Frame>)
    ensures Feed(Buffers("", ""), frames)
         == Buffers(Join(DropLeadingEmpty(StoryFragments(frames))), Join(DropLeadingEmpty(ScriptFragments(frames))))
  {
    FeedAccumulates(Buffers("", ""), frames);
    AccumulateJoins(StoryFragments(frames));
    AccumulateJoins(ScriptFragments(frames));
  }

  // ---------------------------------------------------------------------------
  // Reconnect backoff

  function Pow2(n: nat): (r: nat)
    ensures r >= 1
  {
    if n == 0 then 1 else 2 * Pow2(n - 1)
  }

  function Min(a: int, b: int): int {
    if a <= b then a else b
  }

  const MaxAttempts: nat := 6
  const BaseDelay: nat := 1000
  const MaxDelay: nat := 30000

  /** 2^n is at most 16 below 5 and at least 32 from 5 on. */
  lemma {:induction false} Pow2Threshold(n: nat)
    ensures n < 5 ==> Pow2(n) <= 16
    ensures n >= 5 ==> Pow2(n) >= 32
  {
    if n > 5 {
      Pow2Threshold(n - 1);
    } else if n > 0 {
      Pow2Threshold(n - 1);
    }
  }

  /** The capped exponential delay after the given number of earlier failures. */
  function BackoffDelay(failures: nat): nat {
    if failures < 5 then BaseDelay * Pow2(failures) else MaxDelay
  }

  datatype Backoff = Backoff(attempts: nat, delay: nat)

  /** The arithmetic of `scheduleReconnect`: the counter goes up by one, saturating at 6,
      and the delay is 1000 ms times 2 to the new count minus one, at most 30000 ms. */
  function NextBackoff(attempts: nat): (b: Backoff)
    ensures 1 <= b.attempts <= MaxAttempts
    ensures b.attempts == if attempts < MaxAttempts then attempts + 1 else MaxAttempts
    ensures b.delay == BackoffDelay(attempts)
    ensures BaseDelay <= b.delay <= MaxDelay
  {
    var next := Min(attempts + 1, MaxAttempts);
    Pow2Threshold(next - 1);
    Pow2Threshold(attempts);
    Backoff(next, Min(BaseDelay * Pow2(next - 1), MaxDelay))
  }

  /** The delays of `failures` consecutive reconnects starting from counter `attempts`. */
  function Delays(attempts: nat, failures: nat): (ds: seq<nat>)
    ensures |ds| == failures
    decreases failures
  {
    if failures == 0 then []
    else
      var b := NextBackoff(attempts);
      [b.delay] + Delays(b.attempts, failures - 1)
  }

  /** The counter after `failures` consecutive reconnects. */
  function AttemptsAfter(attempts: nat, failures: nat): nat
    decreases failures
  {
    if failures == 0 then attempts else AttemptsAfter(NextBackoff(attempts).attempts, failures - 1)
  }

  /** The i-th of consecutive reconnects from a counter within bounds waits
      BackoffDelay(attempts + i), and the counter ends at attempts + failures, capped at 6. */
  lemma {:induction false} DelaysGrow(attempts: nat, failures: nat)
    requires attempts <= MaxAttempts
    ensures forall i :: 0 <= i < failures ==> Delays(attempts, failures)[i] == BackoffDelay(attempts + i)
    ensures AttemptsAfter(attempts, failures) == Min(attempts + failures, MaxAttempts)
    decreases failures
  {
    if failures > 0 {
      var b := NextBackoff(attempts);
      DelaysGrow(b.attempts, failures - 1);
      forall i | 0 <= i < failures
        ensures Delays(attempts, failures)[i] == BackoffDelay(attempts + i)
      {
        if i > 0 {
          assert Delays(attempts, failures)[i] == Delays(b.attempts, failures - 1)[i - 1];
          if attempts == MaxAttempts {
            assert BackoffDelay(b.attempts + i - 1) == MaxDelay == BackoffDelay(attempts + i);
          }
        }
      }
    }
  }

  /** From a reset counter the delays are 1000, 2000, 4000, 8000, 16000 ms and then
      30000 ms for every further failure. */
  lemma DelaysFromReset(failures: nat)
    ensures forall i :: 0 <= i < failures ==>
              Delays(0, failures)[i] == if i < 5 then BaseDelay * Pow2(i) else MaxDelay
    ensures failures >= 7 ==> Delays(0, failures)[..7] == [1000, 2000, 4000, 8000, 16000, 30000, 30000]
  {
    DelaysGrow(0, failures);
    if failures >= 7 {
      var ds := Delays(0, failures);
      assert Pow2(4) == 16 && Pow2(3) == 8 && Pow2(2) == 4 && Pow2(1) == 2 && Pow2(0) == 1;
      assert ds[0] == 1000 && ds[1] == 2000 && ds[2] == 4000 && ds[3] == 8000;
      assert ds[4] == 16000 && ds[5] == 30000 && ds[6] == 30000;
    }
  }

  // ---------------------------------------------------------------------------
  // The component

  /** A pending `setTimeout` from `scheduleReconnect`: the effect run that armed it
      (its callback consults that run's `mounted` flag) and its delay in ms. */
  datatype Timer = Timer(gen: nat, delay: nat)

  /** Everything a `StoryPanel` holds, as one value. */
  datatype PanelState = PanelState(
    story: string, script: string, connected: bool,
    ws: Option<nat>, timer: Option<nat>, attempts: nat,
    userId: Option<Value>, live: Option<nat>, runs: nat,
    sockets: Sockets, pending: map<nat, Timer>, timersMade: nat)

  /** `clearTimeout(reconnectTimer.current)` when the ref holds a timer. */
  function ClearTimeout(pending: map<nat, Timer>, timer: Option<nat>): map<nat, Timer> {
    if timer.Some? then pending - {timer.value} else pending
  }

  class StoryPanel {
    // React state
    var story: string
    var script: string
    var connected: bool
    // refs: wsRef, reconnectTimer, attemptsRef
    var ws: Option<nat>
    var timer: Option<nat>
    var attempts: nat
    // the effect: the `userId` of its last run (None before the first render), the run
    // whose `mounted` flag is still true, and the number of runs so far
    var userId: Option<Value>
    var live: Option<nat>
    var runs: nat
    // the browser: sockets created, timers armed and not yet fired or cleared
    var sockets: Sockets
    var pending: map<nat, Timer>
    var timersMade: nat

    function State(): PanelState
      reads this
    {
      PanelState(story, script, connected, ws, timer, attempts, userId, live, runs,
                 sockets, pending, timersMade)
    }

    /** The handlers of socket `s` belong to the effect run that is still mounted. */
    predicate Mounted(s: nat)
      reads this
    {
      s < |sockets.owner| && live == Some(sockets.owner[s])
    }

    /** Socket `s` exists and its effect run has been cleaned up. */
    predicate Stale(s: nat)
      reads this
    {
      s < |sockets.owner| && live != Some(sockets.owner[s])
    }

    /** The bookkeeping invariant: counters bound the ids in use, only the latest effect
        run can be mounted, and at most one timer is pending, the one in the ref, armed
        by the mounted run. */
    ghost predicate Wired()
      reads this
    {
      && attempts <= MaxAttempts
      && (live.Some? ==> live.value + 1 == runs)
      && (forall s :: 0 <= s < |sockets.owner| ==> sockets.owner[s] < runs)
      && (ws.Some? ==> ws.value < |sockets.owner|)
      && (forall t :: t in pending ==> t < timersMade && timer == Some(t) && live == Some(pending[t].gen))
      && (timer.Some? ==> timer.value < timersMade)
    }

    /** A run is mounted exactly when the last user id is truthy, and without a mounted
        run the panel is idle and empty. */
    ghost predicate Valid()
      reads this
    {
      && Wired()
      && (live.Some? <==> userId.Some? && Truthy(userId.value))
      && (live.None? ==> story == "" && script == "" && !connected && attempts == 0
                         && ws.None? && pending == map[])
    }

    /** The first render, before the effect has run. */
    constructor ()
      ensures Valid()
      ensures State() == PanelState("", "", false, None, None, 0, None, None, 0, NoSockets, map[], 0)
    {
      story, script, connected := "", "", false;
      ws, timer, attempts := None, None, 0;
      userId, live, runs := None, None, 0;
      sockets, pending, timersMade := NoSockets, map[], 0;
    }

    /** `scheduleReconnect`: bumps the counter and arms a timer for the mounted run,
        cancelling the one the ref held. */
    method ScheduleReconnect()
      requires Valid() && live.Some?
      modifies this
      ensures Valid()
      ensures State() == old(State()).(
                attempts := NextBackoff(old(attempts)).attempts,
                timer := Some(old(timersMade)), timersMade := old(timersMade) + 1,
                pending := map[old(timersMade) := Timer(old(live).value, NextBackoff(old(attempts)).delay)])
    {
      var b := NextBackoff(attempts);
      attempts := b.attempts;
      pending := ClearTimeout(pending, timer);
      pending := pending[timersMade := Timer(live.value, b.delay)];
      timer := Some(timersMade);
      timersMade := timersMade + 1;
    }

    /** `connect`: a new socket for the mounted run held in `wsRef`, or, when the
        constructor throws, a scheduled reconnect. */
    method Connect(ctorThrows: bool)
      requires Valid() && live.Some?
      modifies this
      ensures Valid()
      ensures !ctorThrows ==> State() == old(State()).(
                sockets := old(sockets).Create(old(live).value).0,
                ws := Some(|old(sockets.owner)|))
      ensures ctorThrows ==> State() == old(State()).(
                attempts := NextBackoff(old(attempts)).attempts,
                timer := Some(old(timersMade)), timersMade := old(timersMade) + 1,
                pending := map[old(timersMade) := Timer(old(live).value, NextBackoff(old(attempts)).delay)])
    {
      if ctorThrows {
        ScheduleReconnect();
      } else {
        var (next, s) := sockets.Create(live.value);
        sockets := next;
        ws := Some(s);
      }
    }

    /** The cleanup the effect returns: the run is no longer mounted, its timer is
        cancelled and the socket held is closed (the ref keeps it). */
    method Cleanup()
      requires Valid() && live.Some?
      modifies this
      ensures Wired()
      ensures State() == old(State()).(live := None, pending := map[], sockets := old(sockets).Close(old(ws)))
    {
      live := None;
      pending := ClearTimeout(pending, timer);
      sockets := sockets.Close(ws);
    }

    /** A render with the given `userId`. React runs the effect only when the id differs
        from the last run's: first the previous run's cleanup (mounted := false, cancel
        the timer, close the socket), then the effect body. A falsy id tears everything
        down and empties both buffers; a truthy id starts a new mounted run and connects.
        The buffers are not cleared when one truthy id replaces another. */
    method Render(id: Value, ctorThrows: bool)
      requires Valid()
      modifies this
      ensures Valid()
      ensures userId == Some(id)
      ensures old(userId) == Some(id) ==> State() == old(State())
      // the cleanup: no socket of an earlier run is mounted any more, and the socket held is closed
      ensures old(userId) != Some(id) ==>
                (forall s :: 0 <= s < |old(sockets.owner)| ==> Stale(s))
                && sockets.closeRequested == old(sockets).Close(old(ws)).closeRequested
      ensures old(userId) != Some(id) && !Truthy(id) ==>
                State() == old(State()).(
                  story := "", script := "", connected := false, ws := None, attempts := 0,
                  userId := Some(id), live := None, pending := map[],
                  sockets := old(sockets).Close(old(ws)))
      ensures old(userId) != Some(id) && Truthy(id) && !ctorThrows ==>
                State() == old(State()).(
                  userId := Some(id), live := Some(old(runs)), runs := old(runs) + 1, pending := map[],
                  sockets := old(sockets).Close(old(ws)).Create(old(runs)).0,
                  ws := Some(|old(sockets.owner)|))
      ensures old(userId) != Some(id) && Truthy(id) && ctorThrows ==>
                State() == old(State()).(
                  userId := Some(id), live := Some(old(runs)), runs := old(runs) + 1,
                  sockets := old(sockets).Close(old(ws)),
                  attempts := NextBackoff(old(attempts)).attempts,
                  timer := Some(old(timersMade)), timersMade := old(timersMade) + 1,
                  pending := map[old(timersMade) := Timer(old(runs), NextBackoff(old(attempts)).delay)])
    {
      if userId == Some(id) {
        return;
      }
      if live.Some? {
        Cleanup();
      }
      userId := Some(id);
      if !Truthy(id) {
        TearDown();
      } else {
        Start(ctorThrows);
      }
    }

    /** The effect body for a falsy id: cancel the timer, close and drop the socket,
        reset the counter, disconnected, both buffers empty. */
    method TearDown()
      requires Wired() && live.None? && pending == map[]
      modifies this
      ensures Wired()
      ensures State() == old(State()).(
                story := "", script := "", connected := false, ws := None, attempts := 0,
                pending := map[], sockets := old(sockets).Close(old(ws)))
    {
      pending := ClearTimeout(pending, timer);
      sockets := sockets.Close(ws);
      ws := None;
      attempts := 0;
      connected, story, script := false, "", "";
    }

    /** The effect body for a truthy id: a new mounted run, then `connect()`. */
    method Start(ctorThrows: bool)
      requires Wired() && live.None? && pending == map[]
      requires userId.Some? && Truthy(userId.value)
      modifies this
      ensures Valid()
      ensures !ctorThrows ==> State() == old(State()).(
                live := Some(old(runs)), runs := old(runs) + 1,
                sockets := old(sockets).Create(old(runs)).0,
                ws := Some(|old(sockets.owner)|))
      ensures ctorThrows ==> State() == old(State()).(
                live := Some(old(runs)), runs := old(runs) + 1,
                attempts := NextBackoff(old(attempts)).attempts,
                timer := Some(old(timersMade)), timersMade := old(timersMade) + 1,
                pending := map[old(timersMade) := Timer(old(runs), NextBackoff(old(attempts)).delay)])
    {
      live := Some(runs);
      runs := runs + 1;
      Connect(ctorThrows);
    }

    /** `ws.onopen`: connected, and the counter back to 0, unless the run is gone. */
    method OnOpen(s: nat)
      requires Valid()
      modifies this
      ensures Valid()
      ensures State() == if old(Mounted(s)) then old(State()).(connected := true, attempts := 0)
                         else old(State())
    {
      if !Mounted(s) {
        return;
      }
      connected := true;
      attempts := 0;
    }

    /** `ws.onmessage`: the decoded frame appended to the buffers, unless the run is gone. */
    method OnMessage(s: nat, frame: Frame)
      requires Valid()
      modifies this
      ensures Valid()
      ensures old(Mounted(s)) ==>
                Buffers(story, script) == ApplyFrame(Buffers(old(story), old(script)), frame)
                && State() == old(State()).(story := story, script := script)
      ensures !old(Mounted(s)) ==> State() == old(State())
    {
      if !Mounted(s) {
        return;
      }
      var b := ApplyFrame(Buffers(story, script), frame);
      story, script := b.story, b.script;
    }

    /** `ws.onclose`: disconnected and a reconnect scheduled, unless the run is gone. */
    method OnClose(s: nat)
      requires Valid()
      modifies this
      ensures Valid()
      ensures old(Mounted(s)) ==>
                State() == old(State()).(
                  connected := false,
                  attempts := NextBackoff(old(attempts)).attempts,
                  timer := Some(old(timersMade)), timersMade := old(timersMade) + 1,
                  pending := map[old(timersMade) := Timer(old(live).value, NextBackoff(old(attempts)).delay)])
      ensures !old(Mounted(s)) ==> State() == old(State())
    {
      if !Mounted(s) {
        return;
      }
      connected := false;
      ScheduleReconnect();
    }

    /** `ws.onerror`: closes that socket (its close event follows); there is no
        `mounted` check here. */
    method OnError(s: nat)
      requires Valid()
      modifies this
      ensures Valid()
      ensures State() == old(State()).(sockets := old(sockets).Close(Some(s)))
    {
      sockets := sockets.Close(Some(s));
    }

    /** Timer `t` fires. A cleared timer never fires; a fired one is no longer pending,
        and its callback connects again if the run that armed it is still mounted. */
    method TimerFires(t: nat, ctorThrows: bool)
      requires Valid()
      modifies this
      ensures Valid()
      ensures t !in old(pending) ==> State() == old(State())
      ensures t in old(pending) && !ctorThrows ==>
                old(live) == Some(old(pending)[t].gen)
                && State() == old(State()).(
                     pending := map[],
                     sockets := old(sockets).Create(old(live).value).0,
                     ws := Some(|old(sockets.owner)|))
      ensures t in old(pending) && ctorThrows ==>
                old(live) == Some(old(pending)[t].gen)
                && State() == old(State()).(
                     attempts := NextBackoff(old(attempts)).attempts,
                     timer := Some(old(timersMade)), timersMade := old(timersMade) + 1,
                     pending := map[old(timersMade) := Timer(old(live).value, NextBackoff(old(attempts)).delay)])
    {
      if t !in pending {
        return;
      }
      var gen := pending[t].gen;
      pending := pending - {t};
      if live != Some(gen) {
        return;
      }
      Connect(ctorThrows);
    }

    /** The Clear button: both buffers emptied, nothing else touched. */
    method Clear()
      requires Valid()
      modifies this
      ensures Valid()
      ensures State() == old(State()).(story := "", script := "")
    {
      story, script := "", "";
    }
  }
}
