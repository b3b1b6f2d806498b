# genai-short-movie-fe: the streaming panels and the submission form

This project models the client-side logic of a "generate a short movie" web front
end and proves properties of that model. It covers three React components:

- **RealTimeData** (`src/real_time_data.js`), the story and script panel. It opens a
  push connection per user id. It decodes each frame into story and script fragments
  and appends them to two text buffers, joined by a blank line. After an unexpected
  close it reconnects with capped exponential backoff. When the user id becomes falsy
  it tears everything down.
- **LogsPanel** (`src/logs_section.js`). It opens one push connection per
  (user id, request id). It decodes each frame into a text and a level and appends
  exactly one entry per frame to an ordered list. It never reconnects.
- **Entrypoint** (`src/entrypoint.js`), the submission form. It validates the email,
  checks the topic, sends the trimmed fields, and handles the server's reply. It also
  handles the Reset button.

The modules are:

- `Json`: server values after coercion (truthiness, `String(v)`, equality with a string) and the three frame shapes.
- `JsText`: JavaScript white space, `trim` and `indexOf`.
- `Browser`: the sockets a component has created and the ones it has closed.
- `RealTimeData`: the story and script panel.
- `LogsSection`: the logs panel.
- `Entrypoint`: the form.
- `Scenarios`: three end-to-end runs of the panels.

Each panel is a class. Its fields are the component's React state and refs plus the
browser objects it owns. Every run of the `useEffect` body gets a generation number.
`live` is the generation whose `mounted` flag is still true. A socket remembers the
generation that created it, so its handlers act only while that generation is live.
Socket events (open, message, close, error) and timer expiry are methods that take
the socket or timer number. The panel's `Valid()` invariant has two parts. First, a
generation is live exactly when the user id is truthy. Second, with no live
generation the panel is idle: empty buffers or list, disconnected, counter 0, no
socket held, no timer pending.

Some behaviours of the code are easy to miss; the model follows the code:

- Neither panel clears its buffers or its list when one truthy id replaces another. Only a falsy id clears them (`src/real_time_data.js:17-25`, `src/logs_section.js:14-26`).
- A JSON object with none of `story`, `script` and `message` changes no buffer. There is no raw-text fallback for it (`src/real_time_data.js:48-62`).
- The log level is `error` when `status` is truthy and not `"success"`. A present but falsy status (`""`, `0`, `false`) gives `info` (`src/logs_section.js:56`).
- The `time`/`msg` envelope needs both values truthy (`src/logs_section.js:57`).
- The logs panel's `onclose` clears `connected` before its `mounted` check. So the late close of a superseded socket also clears it (`src/logs_section.js:78-81`).
- A failing `new WebSocket` schedules a reconnect in the story panel. In the logs panel the catch block is empty (`src/real_time_data.js:81-83`, `src/logs_section.js:90-92`).
- A socket is only asked to close. The model records the request and does not wait for the close to finish.
- A log entry's id is `Date.now() + Math.random()`, not a counter.

## Model

| member | source | states |
|---|---|---|
| JsText.Trim | src/entrypoint.js:12 | the result is the infix of the input left after removing white space at both ends; what is removed is all white space, and the result neither starts nor ends with white space |
| JsText.TrimEmptyIffAllSpace | src/entrypoint.js:60 | `!topic.trim()` holds exactly when the topic is all white space |
| Entrypoint.EmailShapeIsPattern | src/entrypoint.js:11-12 | splitting at the first '@' into a non-empty local part and a domain with an inner '.', both free of white space and '@', is equivalent to matching `^[^\s@]+@[^\s@]+\.[^\s@]+$` |
| Entrypoint.ValidateEmail | src/entrypoint.js:11-12 | true exactly when the trimmed input matches the email pattern |
| Entrypoint.CheckInputOutcomes | src/entrypoint.js:52-63 | no problem exactly when the email is valid and the topic not all white space; the email message exactly when the email is invalid; the topic message exactly when the email is valid and the topic all white space |
| Entrypoint.UserIdOf | src/entrypoint.js:30-31 | the user id is truthy exactly when one of `user_id`, `userId`, `id` is; it is the first truthy one in that order, else null |
| Entrypoint.RequestIdOf | src/entrypoint.js:32 | the request id is the first truthy of `request_id`, `requestId`, else null |
| Entrypoint.ReplyStatus | src/entrypoint.js:22-46 | success exactly for a 2xx reply; the message is always truthy: the reply's `message` or "Request submitted successfully.", or for a failure the response's `message`, else the error's `message`, else "Network error." |
| Entrypoint.ReplyNotice | src/entrypoint.js:30-40 | `onSuccess` is called exactly for a success naming a truthy user id under one of the three keys, with that truthy user id and the extracted request id |
| Entrypoint.SubmissionForm.constructor | src/entrypoint.js:5-9 | empty fields, not loading, no status, unlocked |
| Entrypoint.SubmissionForm.EditEmail | src/entrypoint.js:205-213 | the email changes unless the form is locked; nothing else changes |
| Entrypoint.SubmissionForm.EditTopic | src/entrypoint.js:224-233 | the topic changes unless the form is locked; nothing else changes |
| Entrypoint.SubmissionForm.Submit | src/entrypoint.js:52-67 | disabled while loading or locked (line 241); otherwise a failed check shows its message and sends nothing, and when both checks pass the status is cleared, loading starts and the trimmed email and topic are sent |
| Entrypoint.SubmissionForm.Settle | src/entrypoint.js:14-50 | the status becomes the reply's status, loading ends, a success locks the form, and the `onSuccess` call is the one the reply names |
| Entrypoint.SubmissionForm.Reset | src/entrypoint.js:257-265 | email, topic and status cleared, unlocked, loading untouched, and `onSuccess(null)` |
| RealTimeData.AccumulateOnto | src/real_time_data.js:50-60 | appending fragments to a non-empty buffer puts a blank line before each of them |
| RealTimeData.AccumulateJoins | src/real_time_data.js:50-69 | a buffer that starts empty ends as the blank-line join of its fragments in arrival order, less the empty ones that arrived while it was empty |
| RealTimeData.AccumulateNonEmptyJoins | src/real_time_data.js:50-69 | for non-empty fragments a buffer that starts empty is exactly their blank-line join |
| RealTimeData.AccumulateConcat | src/real_time_data.js:50-69 | appending two runs of fragments is appending the first and then the second |
| RealTimeData.StoryParts | src/real_time_data.js:44-69 | at most one story fragment per frame; an object gives one exactly when it has `story` (its text, empty when falsy), or `message` without `script` (the message's text); anything that is not a JSON object gives its raw text |
| RealTimeData.ScriptParts | src/real_time_data.js:54-57 | a script fragment exactly when the frame is an object with a `script` key, and then it is that field's text, empty when falsy |
| RealTimeData.ApplyFrame | src/real_time_data.js:42-70 | `story` and `script` each append their text (empty when falsy) to their own buffer, both from one frame when both are present; a lone `message` appends to the story only; an object with none of the keys changes nothing; a non-object frame appends its raw text to the story only |
| RealTimeData.FeedAccumulates | src/real_time_data.js:42-70 | a sequence of frames appends all of its story fragments and all of its script fragments, in arrival order, each to its own buffer |
| RealTimeData.FeedJoins | src/real_time_data.js:42-70 | from empty buffers, each buffer is the blank-line join of its fragments in arrival order, less the empty fragments that arrived while that buffer was still empty |
| RealTimeData.NextBackoff | src/real_time_data.js:86-88 | the counter becomes `min(attempts + 1, 6)`, stays in 1..6, and the delay is `min(1000 * 2^attempts, 30000)` ms, between 1000 and 30000 |
| RealTimeData.DelaysGrow | src/real_time_data.js:86-93 | the i-th consecutive reconnect waits the capped delay for `attempts + i`, and the counter ends at `min(attempts + failures, 6)` |
| RealTimeData.DelaysFromReset | src/real_time_data.js:86-88 | from 0 the delays are 1000, 2000, 4000, 8000, 16000 ms and then 30000 ms |
| RealTimeData.StoryPanel.constructor | src/real_time_data.js:4-9 | empty buffers, disconnected, no socket, no timer, counter 0 |
| RealTimeData.StoryPanel.ScheduleReconnect | src/real_time_data.js:86-94 | the counter advances as `NextBackoff` says, and the ref's timer is replaced by a single new timer for the live run with the backoff delay |
| RealTimeData.StoryPanel.Connect | src/real_time_data.js:30-84 | a new socket owned by the live run is held in the ref, or, when the constructor throws, a reconnect is scheduled |
| RealTimeData.StoryPanel.Cleanup | src/real_time_data.js:98-102 | the run is no longer mounted, its timer is cancelled and the socket held is closed |
| RealTimeData.StoryPanel.Render | src/real_time_data.js:15-103 | an unchanged id changes nothing; otherwise every earlier socket is stale and the held one closed, then a falsy id empties both buffers, disconnects, resets the counter and drops socket and timer, and a truthy id mounts a new run and connects |
| RealTimeData.StoryPanel.TearDown | src/real_time_data.js:17-25 | timer cancelled, socket closed and dropped, counter 0, disconnected, both buffers empty |
| RealTimeData.StoryPanel.Start | src/real_time_data.js:28-96 | a new generation becomes live and `connect()` runs |
| RealTimeData.StoryPanel.OnOpen | src/real_time_data.js:36-40 | from the live run: connected and counter 0; from a stale socket: nothing changes |
| RealTimeData.StoryPanel.OnMessage | src/real_time_data.js:42-70 | from the live run: the buffers become `ApplyFrame` of the old buffers and the frame, nothing else changes; from a stale socket: nothing changes |
| RealTimeData.StoryPanel.OnClose | src/real_time_data.js:72-76 | from the live run: disconnected and a reconnect scheduled; from a stale socket: nothing changes |
| RealTimeData.StoryPanel.OnError | src/real_time_data.js:78-80 | the socket is asked to close, and nothing else changes |
| RealTimeData.StoryPanel.TimerFires | src/real_time_data.js:90-93 | a cancelled timer never fires; a pending timer belongs to the live run and its expiry connects again |
| RealTimeData.StoryPanel.Clear | src/real_time_data.js:123-126 | both buffers empty, nothing else changes |
| LogsSection.DecodeLog | src/logs_section.js:46-67 | level `success` exactly for an object with `message` and `status === "success"`; `error` exactly for `message` with a truthy other status; the text is `String(message)` then; without `message`, truthy `time` and `msg` give `"[" + time + "] " + msg` at `info`; any other object and any other JSON value give their JSON text, and non-JSON keeps the raw text, all at level `info` |
| LogsSection.BackoffPoliciesAgree | src/logs_section.js:95-103 | the panel's unused backoff gives the same new counter and delay as the story panel's for every counter value |
| LogsSection.LogsPanel.constructor | src/logs_section.js:4-10 | empty list, disconnected, counter 0, no socket |
| LogsSection.LogsPanel.Cleanup | src/logs_section.js:108-114 | the run is no longer mounted and the socket held is closed |
| LogsSection.LogsPanel.Render | src/logs_section.js:12-115 | an unchanged (user id, request id) changes nothing; otherwise every earlier socket is stale and the held one closed, then a falsy user id empties the list, disconnects, resets the counter and drops the socket, and a truthy one mounts a new run with a new socket, or, when the socket constructor throws, with no new socket and the ref still holding the old one |
| LogsSection.LogsPanel.OnOpen | src/logs_section.js:38-42 | from the live run: connected and counter 0; from a stale socket: nothing changes |
| LogsSection.LogsPanel.OnMessage | src/logs_section.js:44-76 | from the live run: exactly one entry with the decoded text and level is added at the end, earlier entries unchanged; from a stale socket: nothing changes |
| LogsSection.LogsPanel.OnClose | src/logs_section.js:78-83 | disconnected, whichever socket closed, and no reconnect |
| LogsSection.LogsPanel.OnError | src/logs_section.js:85-89 | the socket is asked to close, and nothing else changes |
| LogsSection.LogsPanel.ClearLogs | src/logs_section.js:127 | the list is emptied, and the connection is untouched |
| Scenarios.StoryThenScript | src/real_time_data.js:42-57 | user "42" receives a story frame and then a script frame; each buffer holds its one fragment |
| Scenarios.TwoLogLines | src/logs_section.js:44-76 | a success message and then a timed message give two entries in order: "render started" at `success`, "[12:00:00] queued" at `info` |
| Scenarios.ClearedIdIgnoresLateEvents | src/real_time_data.js:15-43 | after the id is cleared, the story is empty, and a late frame, close and open from the old socket leave it empty, disconnected and with no timer |

## Left out

- Transport: URLs, `encodeURIComponent`, the WebSocket protocol and axios. Socket creation, events and the HTTP reply are inputs. A failing `new WebSocket` is the flag `ctorThrows`.
- `JSON.parse`, `JSON.stringify` and `String()`. A frame arrives already classified, as not JSON, a JSON non-object, or a JSON object, with its values coerced.
- The clock and the random source. A log entry's `id` and `time` are inputs to `OnMessage`.
- Presentation: auto-scroll, the auto-scroll toggle, styles, the status dot and the "Sending..." spinner.
- `console.log` calls and the `try`/`catch` around `close()`. Closing is modelled as never throwing.
- The `typeof onSuccess === "function"` test. The host always passes a function. An exception thrown by `onSuccess` is caught and changes nothing, so it is not modelled.
- `Submit`: the form's `noValidate` and `required` attributes have no effect on the handler. `ev.preventDefault()` is not modelled.
- `JsText.IsSpace`: characters are Unicode code points here, while JavaScript strings are UTF-16. No white-space character lies outside the Basic Multilingual Plane, so `trim` and `\s` agree.
- `RealTimeData.StoryPanel.Render`, `LogsSection.LogsPanel.Render`: React compares effect dependencies with `Object.is`. The model compares ids by value, which is the same for strings and may differ for object ids.
- The Admin, AdminDrawer, BgStatusDropdown and Login components. They are REST calls, token storage and presentation.
- App wiring (`src/App.js`). `setUserId` drops the request id, so the logs panel gets none there. The model keeps the request id optional.
- End-to-end runs of the submission form. Its steps are covered by the form's method contracts.
