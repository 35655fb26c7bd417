# Fleet dashboard: voice session and dashboard rules

This project models the operator dashboard of an autonomous excavator fleet. The dashboard does three things:

- It receives machine telemetry and agent messages over a WebSocket.
- It decides what the operator sees: the alert banner, the telemetry panels, the fleet health view, the agent's command log and the 3-D excavator.
- It opens a live voice session with the procurement agent.

The centre of the model is that voice session (`GeminiLiveAudio`). It covers:

- the session lifecycle: start, open, remote close, remote error and disconnect;
- the playback scheduler, which queues each audio chunk of the agent's reply at `max(now, cursor)` and moves the cursor to that chunk's end;
- the set of audio sources still playing;
- the agent transcript, and the request that persists it.

The rest of the model covers the dashboard's pure display rules, one module per component:

- the page reducer and the actions the page offers (`Dashboard`);
- the two telemetry panels (`TelemetryPanel`, `TelemetryPanelCopy`);
- the two fleet command views (`FleetCommandV2`, `FleetCommandV1`);
- the agent terminal (`AgentTerminal`);
- the excavator's per-frame shading (`ExcavatorModel`).

Three shared modules support them:

- `Js` models the JavaScript semantics the components rely on: truthiness, `=== true` and `x || 100`.
- `Strings` models `String.replace`, `includes` and `toLowerCase`.
- `Feed` holds the telemetry and agent message shapes.

Browser and network facts become parameters of the model. These are the clock reading, the decoded chunk duration, the fetched responses, the random draws and whether speech synthesis exists. The page's and the voice session's outgoing requests are effects that the transitions return.

Behaviours of the code worth noting:

- The callbacks of a React component see the state of the render that created them, while refs are read live. The model keeps both: `captured` is the transcript as the `onclose` callback sees it.
- `onclose` saves the transcript shown when the orb was clicked, before line 100 emptied it. It saves it under the new session id from line 101. A session's own lines are therefore never saved by its close (`VoiceSession.RemoteCloseSavesPreviousLines`).
- `disconnect` runs only from the cleanup of the mount effect, whose closure holds the transcript of the first render, which is empty. Its own `saveTranscript` call therefore sends nothing (`VoiceSession.UnmountNeverSaves`). Closing the held handle makes the server end the session, and that close reaches `onclose` as a separate `RemoteClosed` event. That event saves the transcript captured at the last click, which is non-empty from the second session on (`VoiceSession.UnmountThenCloseSavesCapture`).
- `startSession` neither tears down a session still held nor resets the playback cursor.
- After a remote close the status is "Session Closed", and the session handle is kept.

## Model

| member | source | states |
|---|---|---|
| VoiceSession.Mount | components/GeminiLiveAudio.tsx:36-43 | A mounted component is idle and silent. It holds no session, no transcript and no playing source. It carries the session id generated on mount. |
| VoiceSession.SaveTranscript | components/GeminiLiveAudio.tsx:53-61 | No request is sent exactly when the transcript is empty. Otherwise one request carries the current session id, the user id, asset "HB-001" and the whole transcript. |
| VoiceSession.StartSession | components/GeminiLiveAudio.tsx:93-104 | As written: without a key, only the status becomes "Missing Key". With a key, the transcript is emptied and a fresh session id is assigned even if setup then fails. The cursor and the playing sources are carried over. A successful setup holds the handle, ends Connecting, and its callbacks capture the transcript shown at the click. A failed setup ends "Setup Failed". |
| VoiceSession.StartSessionFresh | components/GeminiLiveAudio.tsx:93-104 | Corrected start: the same as StartSession, except that the cursor goes back to the new output clock's origin, 0. |
| VoiceSession.StartClearsTranscript | components/GeminiLiveAudio.tsx:99-101 | A start with a key leaves an empty transcript and the new session id. |
| VoiceSession.Open | components/GeminiLiveAudio.tsx:143-146 | Opening lights the orb and sets the status to live. Nothing else changes. |
| VoiceSession.Receive | components/GeminiLiveAudio.tsx:161-191 | An audio part is started at a time that is at least both the clock reading and the cursor, and equals one of them. The cursor moves to that chunk's end, and exactly one new source joins the playing set. A truthy agent text is appended as one agent entry. Nothing else changes: status, handle, session id and the captured transcript are untouched. |
| VoiceSession.FreshSourceNotPlaying | components/GeminiLiveAudio.tsx:168-177 | The source started for a chunk was not already playing, so the playing set grows by exactly one. |
| VoiceSession.Ended | components/GeminiLiveAudio.tsx:171 | A source's ended event removes exactly that source and keeps every other one. |
| VoiceSession.RemoteError | components/GeminiLiveAudio.tsx:199-202 | The error callback changes the status to "Connection Error" and nothing else. |
| VoiceSession.RemoteClose | components/GeminiLiveAudio.tsx:193-198 | A remote close sets "Session Closed" and darkens the orb. It saves exactly when the transcript captured at the last start is non-empty, and then saves that transcript under the current session id. It neither stops sources nor closes the handle. |
| VoiceSession.Disconnect | components/GeminiLiveAudio.tsx:36-91 | Disconnect's own `saveTranscript` call sends nothing. It closes the handle exactly when one is held, and stops exactly the playing sources. It ends "Disconnected" with the orb dark, and keeps the transcript, the captured transcript, the session id and the cursor. |
| VoiceSession.DisconnectIdempotent | components/GeminiLiveAudio.tsx:75-91 | A second disconnect changes nothing, stops nothing and closes nothing. |
| VoiceSession.Step | components/GeminiLiveAudio.tsx:36-211 | Every event preserves that playing sources have already been created. Only a remote close saves, only a received message schedules audio, and only a start changes the session id. |
| VoiceSession.Run | components/GeminiLiveAudio.tsx:75-211 | Any run of events preserves that playing sources have already been created. |
| VoiceSession.TranscriptAppendsInOrder | components/GeminiLiveAudio.tsx:182-188 | Within one session the transcript only grows at its end. It grows by the agent texts of the run, in arrival order. |
| VoiceSession.RunSchedulesLikePlayback | components/GeminiLiveAudio.tsx:173-176 | Within one session the component starts each chunk at the time the reference scheduler `Playback.Starts` gives for the run's chunks. |
| VoiceSession.RunCursorLikePlayback | components/GeminiLiveAudio.tsx:174-176 | Within one session the final cursor is where the reference scheduler leaves it. |
| VoiceSession.ScheduledDurations | components/GeminiLiveAudio.tsx:166-176 | The scheduled playback calls carry the durations of the run's audio chunks, in order. |
| VoiceSession.SessionPlaybackNoOverlap | components/GeminiLiveAudio.tsx:173-176 | Within one session no scheduled chunk starts before the previous one ends, and the cursor never moves backwards. |
| VoiceSession.CloseThenUnmountSavesOnlyTheCapture | components/GeminiLiveAudio.tsx:193-198 | A remote close followed by the unmount saves at most once, and only what the close saves: the transcript captured at the last start. |
| VoiceSession.OneLineTrace | components/GeminiLiveAudio.tsx:93-198 | In a session that starts, opens and hears one agent line, the start, the open and the line neither save nor play, so the run's only effect is the close's save. |
| VoiceSession.RemoteCloseSavesPreviousLines | components/GeminiLiveAudio.tsx:99-198 | As written, a session that hears one agent line and is then closed remotely does not save that line. It saves nothing when the transcript shown at the click was empty, and otherwise saves that earlier transcript under the new session id. It ends holding the line, "Session Closed" and silent. |
| VoiceSession.RemoteCloseLive | components/GeminiLiveAudio.tsx:193-198 | Corrected close: the same next state as RemoteClose, but it saves exactly when the live transcript is non-empty, and then saves the live transcript under the current session id. |
| VoiceSession.LiveCloseSavesSessionLines | components/GeminiLiveAudio.tsx:193-198 | With the corrected close, the one-line session saves exactly its own line under its own session id. |
| VoiceSession.DisconnectLive | components/GeminiLiveAudio.tsx:75-91 | Corrected teardown: the same state change, stops and close as Disconnect, but it saves exactly when the live transcript is non-empty, and then saves that transcript under the current session id. |
| VoiceSession.UnmountNeverSaves | components/GeminiLiveAudio.tsx:36-77 | As written, disconnect's own `saveTranscript` call sends nothing even for a non-empty transcript, which the corrected teardown would save. |
| VoiceSession.UnmountThenCloseSavesCapture | components/GeminiLiveAudio.tsx:79-81 | The close that the unmount's `close()` triggers arrives as a remote close. It saves nothing when the transcript captured at the last click is empty, and otherwise saves exactly that transcript under the current session id. |
| VoiceSession.StaleCursorDelaysFirstChunk | components/GeminiLiveAudio.tsx:104 | As written, after a restart the first chunk arriving at the new clock's 0 starts at the old cursor, not at 0. |
| VoiceSession.FreshSessionPlaysOnArrival | components/GeminiLiveAudio.tsx:174-175 | With the corrected start, the first chunk of a new session starts at the clock reading at which it arrives. |
| Playback.StartAt | components/GeminiLiveAudio.tsx:174 | A chunk starts no earlier than now and no earlier than the cursor, and at one of the two. |
| Playback.Advance | components/GeminiLiveAudio.tsx:174-176 | The cursor never moves backwards, and it ends after the chunk that just arrived. |
| Playback.Starts | components/GeminiLiveAudio.tsx:173-176 | One start time per chunk. Each start is no earlier than that chunk's arrival and no earlier than the initial cursor. |
| Playback.FinalCursor | components/GeminiLiveAudio.tsx:176 | After any batch the cursor is no earlier than where it began. |
| Playback.StartsRecurrence | components/GeminiLiveAudio.tsx:173-176 | Each start is `max(arrival, previous start + previous duration)`. The first start is `max(arrival, cursor)`. |
| Playback.NoOverlap | components/GeminiLiveAudio.tsx:173-176 | No chunk starts before the previous chunk ends. |
| Playback.Gapless | components/GeminiLiveAudio.tsx:173-176 | A chunk that arrives before the previous one ends starts exactly when the previous one ends. |
| Playback.BurstIsGapless | components/GeminiLiveAudio.tsx:173-176 | A burst of chunks that all arrive before the first one starts plays back to back. |
| Playback.StartsFromFirst | components/GeminiLiveAudio.tsx:173-176 | No chunk starts before the first chunk of its batch. |
| Playback.FinalCursorIsLastEnd | components/GeminiLiveAudio.tsx:176 | After a non-empty batch the cursor is exactly the end of the last chunk. |
| Playback.FinalCursorAppend | components/GeminiLiveAudio.tsx:176 | Scheduling two batches one after the other leaves the cursor where scheduling them as one batch does. |
| Playback.StartsAppend | components/GeminiLiveAudio.tsx:173-176 | Scheduling two batches one after the other gives the same start times as scheduling them as one batch. |
| Playback.CursorMonotone | components/GeminiLiveAudio.tsx:176 | The cursor after a longer prefix of chunks is no earlier than after a shorter one. |
| Playback.ThreeChunkBurst | components/GeminiLiveAudio.tsx:173-176 | Three chunks of 0.5, 0.3 and 0.2 s arriving together at t0 play at t0, t0+0.5 and t0+0.8, and leave the cursor at t0+1. |
| Playback.Cons | components/GeminiLiveAudio.tsx:173-176 | Scheduling one chunk and then a batch equals scheduling the combined batch. |
| Playback.ScheduleAll | components/GeminiLiveAudio.tsx:173-176 | The loop over a batch computes exactly the reference start times and final cursor. Every start is no earlier than its arrival, and the cursor never moves backwards. |
| Js.OrNumber | components/FleetCommand-v2.tsx:36 | `x \|\| d` yields x when x is a non-zero number. It yields d when x is missing or 0, so with a non-zero default it is never 0. |
| Js.StrictTrueIsStrongerThanTruthy | components/ExcavatorModel.tsx:23 | `=== true` implies truthiness but not conversely: the number 1 is truthy and not `=== true`. |
| Strings.ReplaceFirst | components/AgentTerminal.tsx:28 | A string replace with a string pattern changes only the first occurrence and keeps the text around it. Without an occurrence the text is unchanged. |
| Strings.IndexOf | components/AgentTerminal.tsx:28 | The index found is an occurrence, and no earlier one exists. No index means no occurrence. |
| Strings.ReplaceLeading | app/page.tsx:11 | A `/^p/` replace rewrites the prefix exactly when the string starts with it. |
| Strings.Lower | components/ExcavatorModel.tsx:55 | Lower-casing keeps the length and maps each letter on its own. |
| Strings.NatToDecimal | components/TelemetryPanel.tsx:130-132 | The decimal text of a natural number is non-empty, all digits, and starts with '0' exactly for zero, so it has no leading zeros. |
| Strings.NatToDecimalValue | components/TelemetryPanel.tsx:130-132 | Reading the decimal text of a natural number back as digits gives the number. |
| Strings.IntToDecimal | components/TelemetryPanel.tsx:130-132 | The decimal text of an integer ends in a digit, and starts with '-' exactly when the integer is negative. |
| Strings.IntToDecimalValue | components/TelemetryPanel.tsx:130-132 | Reading the decimal text of any integer back, sign included, gives the integer. |
| Dashboard.ApiUrl | app/page.tsx:10 | The configured URL is used when it is non-empty. The localhost default is used otherwise. |
| Dashboard.WsUrl | app/page.tsx:11 | A URL that starts with "http" has those four letters replaced by "ws". Any other URL is kept. |
| Dashboard.SecondReplaceIsDead | app/page.tsx:11 | The second replace, https to wss, never fires, because the first has already consumed the "http". |
| Dashboard.WsUrlSchemes | app/page.tsx:11 | "http://" becomes "ws://", and "https://" still becomes "wss://" through the first replace. |
| Dashboard.Initial | app/page.tsx:16-24 | The page starts with no telemetry and no decision, not critical, in human mode on the field view. |
| Dashboard.Receive | app/page.tsx:40-57 | The page becomes critical exactly when it already was or the message raises it. Each message kind changes only its own field. Unparseable and unknown messages change nothing. |
| Dashboard.CriticalLatches | app/page.tsx:40-57 | After any run of messages the page is critical exactly when it was before or some message raised it. No message clears it. |
| Dashboard.SwitchMode | app/page.tsx:75-80 | A mode switch sets the mode and clears the agent status and decision. Nothing else changes. |
| Dashboard.TriggerFault | app/page.tsx:82-94 | Triggering a fault makes the page critical and clears the decision, the agent status and the camera feed. Nothing else changes. It POSTs the current demo mode and operator id to the simulator's fault endpoint. |
| Dashboard.ModeReachesSimulator | app/page.tsx:75-92 | After a mode switch, the next fault request carries the chosen mode and the same operator id. The page state differs from a fault without the switch only in the mode. |
| Dashboard.VisionFetch | app/page.tsx:46-49 | The vision GET is sent exactly for the CRITICAL_FAULT event, to the vision feed endpoint. |
| Dashboard.VisionFetchOnlyWhenCritical | app/page.tsx:46-49 | A message that sends the vision GET also raises the critical flag, so the page is critical when the image is requested. No DATA message sends it. |
| Dashboard.VisionArrived | app/page.tsx:64-72 | A truthy image replaces the camera feed. An empty one changes nothing. |
| Dashboard.ResolveUserId | app/page.tsx:27-32 | A stored id is reused. Otherwise the generated id is used and stored. |
| Dashboard.UserIdIsStable | app/page.tsx:27-32 | Once resolved and stored, the id survives a reload whatever is generated then. |
| Dashboard.ResetSystem | app/page.tsx:96-108 | The reset POST is always sent. A rejected fetch, which means a network failure, changes nothing. A resolved one, whatever its HTTP status, clears the critical flag, decision, agent status and camera feed, and installs and stores the new user id. It keeps the telemetry and the mode. |
| Dashboard.BannerFor | app/page.tsx:110-130 | The derating banner shows exactly when the derated flag is truthy. The red alert shows exactly when critical or at high risk and not derated. The normal banner shows otherwise. |
| Dashboard.DeratingOverridesCritical | app/page.tsx:110-130 | While derated, even a critical page shows the cooling label and the clean image, never the red alert. |
| Dashboard.FireImageIffRedAlert | app/page.tsx:110-130 | The fire image is shown exactly when the red alert condition holds. |
| Dashboard.RiskOfFiftyIsNormal | app/page.tsx:110-130 | A risk of exactly 50 is not high: the comparison is strict. |
| TelemetryPanel.StatusColour | components/TelemetryPanel.tsx:17-26 | Red exactly at or above the critical threshold, orange exactly in the warning band, green below both. |
| TelemetryPanel.BarMatchesText | components/TelemetryPanel.tsx:28-36 | A reading's bar always has the same colour as its text. |
| TelemetryPanel.StatusColourMonotone | components/TelemetryPanel.tsx:17-26 | A larger reading is never shown in a less severe colour. |
| TelemetryPanel.BadgeColour | components/TelemetryPanel.tsx:38-44 | The badge is red exactly when critical and not derated, orange exactly when critical and derated, and green exactly when not critical. |
| TelemetryPanel.BadgeText | components/TelemetryPanel.tsx:62 | A derated machine reads "LIMP MODE ACTIVE". Otherwise the badge shows the reported state. |
| TelemetryPanel.CoreTempWidth | components/TelemetryPanel.tsx:83 | The bar is capped at 100%. It is full exactly from 120 degrees up, and proportional below that. |
| TelemetryPanel.CoreTempWidthMonotone | components/TelemetryPanel.tsx:83 | A hotter core never gives a shorter bar. |
| TelemetryPanel.EngineLabel | components/TelemetryPanel.tsx:130-132 | The engine reads "DERATED" exactly when derated. Otherwise it shows the RPM in decimal. |
| TelemetryPanel.EngineLabelShowsRpm | components/TelemetryPanel.tsx:130-132 | When not derated, the label ends in " RPM" and the text before it reads back as the RPM. |
| TelemetryPanel.Render | components/TelemetryPanel.tsx:5-14 | The uplink placeholder shows exactly when there is no telemetry. Otherwise each reading is coloured by its thresholds, and the badge and engine follow the derated flag. |
| TelemetryPanelCopy.StatusColour | components/TelemetryPanel-copy.tsx:18-22 | Derating turns every reading orange. Otherwise a reading is red exactly above its threshold and green exactly at or below it. |
| TelemetryPanelCopy.TempBar | components/TelemetryPanel-copy.tsx:49 | The temperature bar is red exactly above 90 degrees, and blue otherwise. |
| TelemetryPanelCopy.RiskBar | components/TelemetryPanel-copy.tsx:64 | The risk bar is red exactly above 50, and green otherwise. |
| TelemetryPanelCopy.BadgeAgreesWithMainPanel | components/TelemetryPanel-copy.tsx:32-33 | The copy's badge colour and text agree with the main panel's for every state. |
| TelemetryPanelCopy.TempTextAgreesWithBar | components/TelemetryPanel-copy.tsx:43-49 | When not derated, the temperature text is red exactly when its bar is. |
| TelemetryPanelCopy.Derate | components/TelemetryPanel-copy.tsx:81-86 | The derate block reads ENGAGED with a 1200 RPM limit exactly when derated, and IDLE with no limit otherwise. |
| TelemetryPanelCopy.Render | components/TelemetryPanel-copy.tsx:4-86 | Without telemetry the copy shows the uplink placeholder. With telemetry, derating turns both readings orange, and each bar's colour follows its threshold. The temperature bar's width is the main panel's capped width. The risk bar's width is the risk itself, with no cap. The badge agrees with the main panel, and the derate block follows the flag. |
| FleetCommandV2.HealthColour | components/FleetCommand-v2.tsx:87-88 | A score is red exactly below 50, yellow exactly from 50 up to 80, and green exactly from 80. |
| FleetCommandV2.Hef | components/FleetCommand-v2.tsx:36 | The efficiency factor is the reported score, or 100 when it is missing or 0. |
| FleetCommandV2.ComponentScores | components/FleetCommand-v2.tsx:128-131 | Each component score is its reported value, or 100 when it is missing or 0. |
| FleetCommandV2.ZeroScoreShowsHealthy | components/FleetCommand-v2.tsx:128-131 | A dead component reported as 0 is displayed as 100, in green. |
| FleetCommandV2.HefStyleOf | components/FleetCommand-v2.tsx:116 | The efficiency factor pulses red exactly below 45. |
| FleetCommandV2.InventoryLabel | components/FleetCommand-v2.tsx:168-169 | The label reads "--" exactly without a check, "IN STOCK" exactly for an available part, and "0 UNITS" exactly for an unavailable one. |
| FleetCommandV2.InventoryColour | components/FleetCommand-v2.tsx:168 | The label is green exactly when it reads "IN STOCK". Otherwise it is red, "--" included. |
| FleetCommandV2.InventoryFollowsDecision | components/FleetCommand-v2.tsx:168-169 | The inventory cell reads "--" exactly when there is no decision or the decision has no inventory check, and "IN STOCK" exactly when the check says available. |
| FleetCommandV2.VoicePanelFollowsPage | components/FleetCommand-v2.tsx:150-156 | After a fault the voice panel is mounted. After a resolved reset it is not. After a mode switch it is mounted exactly when the page is critical. |
| FleetCommandV2.StockLabel | components/FleetCommand-v2.tsx:242-243 | An ERP row reads "IN STOCK" exactly for a positive stock level, and "OUT OF STOCK" otherwise. |
| FleetCommandV2.RenderTable | components/FleetCommand-v2.tsx:225 | Every record is drawn, and the placeholder is drawn exactly when there are none. |
| FleetCommandV2.RenderRecords | components/FleetCommand-v2.tsx:225-272 | Each table shows its own placeholder text: "No Active Cases", "Loading ERP Data..." or "No Active Dispatches". |
| FleetCommandV2.ApplyPoll | components/FleetCommand-v2.tsx:59-79 | A rejected fetch changes no table. A not-ok response keeps that table. A well-formed body replaces it, unless an earlier body failed to decode, which keeps that table and every later one. |
| FleetCommandV2.NotOkPollKeepsEverything | components/FleetCommand-v2.tsx:68-70 | A poll in which no table answered ok keeps all three. |
| FleetCommandV2.ApplyPollIdempotent | components/FleetCommand-v2.tsx:59-79 | Applying the same poll twice equals applying it once, so repeated polls never duplicate rows. |
| FleetCommandV2.FullPollReplacesEverything | components/FleetCommand-v2.tsx:68-70 | Three well-formed bodies replace all three tables, whatever they held before. |
| FleetCommandV1.GetHealthColour | components/FleetCommand-v1.tsx:30 | The helper's colour is one of red, yellow and green. |
| FleetCommandV1.HealthBandsAgree | components/FleetCommand-v1.tsx:30 | The unused helper bands every score exactly as the `HealthStat` component does (lines 175-176, the same expression as the current view's). A score is red exactly below 50. |
| FleetCommandV1.NoScoreShowsZero | components/FleetCommand-v1.tsx:14-63 | No score is ever displayed as 0%. |
| FleetCommandV1.InventoryLabel | components/FleetCommand-v1.tsx:136-137 | This view's inventory label is the current view's three-way label. |
| FleetCommandV1.VendorQuoteIffZeroUnits | components/FleetCommand-v1.tsx:140 | The vendor quote is shown exactly when the label reads "0 UNITS". |
| FleetCommandV1.TicketRows | components/FleetCommand-v1.tsx:76-93 | The incident table has two rows. The first is the live ticket exactly when there is one, and the no-incidents row otherwise. The second is always the resolved INC-8821. |
| FleetCommandV1.VoicePanelAsCurrentView | components/FleetCommand-v1.tsx:118 | The voice panel is mounted on the same condition as in the current view, and always when a ticket is shown. |
| AgentTerminal.StatusColour | components/AgentTerminal.tsx:78-84 | Each known status has its own colour, given exactly for that status. Blue is given exactly to unknown statuses. |
| AgentTerminal.SpokenAreColouredButComplete | components/AgentTerminal.tsx:39 | The spoken statuses are exactly the known ones except COMPLETE. |
| AgentTerminal.Persona | components/AgentTerminal.tsx:17-25 | The vendor's offer gets pitch 0.8 and rate 0.9. Every other status gets 1.1 and 1.1. |
| AgentTerminal.VendorVoiceIsLowerAndSlower | components/AgentTerminal.tsx:17-25 | Pitch and rate fall below normal exactly for the vendor's offer. |
| AgentTerminal.Cleanup | components/AgentTerminal.tsx:28 | The cleaned text is never longer. A text without any tag is unchanged. |
| Strings.RemoveFirst | components/AgentTerminal.tsx:28 | Removing a tag at its first occurrence keeps the text before and after it. |
| AgentTerminal.CleanupCutsFirstUrgent | components/AgentTerminal.tsx:28 | When "URGENT:" first occurs at i and no other tag is left once it is cut, the cleaned text is exactly the text with those seven characters at i removed. |
| AgentTerminal.LaterUrgentSurvives | components/AgentTerminal.tsx:28 | Only the first "URGENT:" is removed: a later occurrence stays in the cleaned text, shifted left by seven. |
| AgentTerminal.OnStatus | components/AgentTerminal.tsx:34-43 | A report appends exactly one line and keeps the earlier lines. It is spoken exactly when it is a negotiation step and speech exists, with the cleaned text in the status's persona. No report changes nothing. |
| AgentTerminal.LogKeepsOrder | components/AgentTerminal.tsx:36 | After any run of reports the log keeps its earlier lines, followed by one line per report in arrival order. |
| AgentTerminal.SilentWithoutSpeech | components/AgentTerminal.tsx:9 | Without speech synthesis nothing is spoken. |
| ExcavatorModel.LookFor | components/ExcavatorModel.tsx:22-42 | The look is red and shaking exactly at high risk when not derated. It is orange exactly when derated, and green exactly otherwise. |
| ExcavatorModel.ShakeOnlyWhenRed | components/ExcavatorModel.tsx:33-42 | The machine shakes exactly when it is red, and never while derated. |
| ExcavatorModel.NextPosition | components/ExcavatorModel.tsx:45-50 | A shaking frame moves x and y within 0.05 of the origin and keeps z. A calm frame returns to the origin. |
| ExcavatorModel.Shade | components/ExcavatorModel.tsx:53-71 | Parts that are not meshes with a material are untouched. Battery meshes store their load colour once and show the frame's colour. Other meshes with a stored colour are restored to it. |
| ExcavatorModel.Traverse | components/ExcavatorModel.tsx:53-71 | The shaded scene has exactly as many parts as the loaded one. |
| ExcavatorModel.TraverseEffects | components/ExcavatorModel.tsx:53-71 | After a frame every battery mesh shows the frame's colour. Stored originals are never overwritten. A part that is not a battery and has no original is left exactly as it was. |
| ExcavatorModel.TraverseAt | components/ExcavatorModel.tsx:53-71 | The traversal shades each part as shading that part alone would. |
| ExcavatorModel.ShadeIdempotent | components/ExcavatorModel.tsx:53-71 | Shading a part twice with one colour equals shading it once. |
| ExcavatorModel.TraverseIdempotent | components/ExcavatorModel.tsx:53-71 | Repeating a frame's traversal with the same look changes nothing. |
| ExcavatorModel.OriginalSurvivesFrames | components/ExcavatorModel.tsx:58-63 | Through successive looks, a battery part keeps its load-time colour as its original and shows the latest look. |
| ExcavatorModel.DeratedFlagDisagreement | components/ExcavatorModel.tsx:22-23 | With the flag reported as 1 and high risk, the page shows the cooling banner while the excavator shakes in red. The page reads the flag by truthiness; the excavator requires `=== true`. |

## Left out

- Microphone capture, the script processor and the `createAudioBlob` and `decode`/`decodeAudioData` helpers are not modelled. They are browser audio plumbing, and `utils/audio-utils` is not part of this model. A decoded chunk enters the model only as its duration.
- The Gemini SDK connection, its model name, voice configuration and system prompt are left out, because they are a foreign call. Whether setup succeeds is a parameter of `StartSession`.
- `AudioContext` creation, `resume` and `close` are left out, because they are browser effects. The output clock reading is a parameter of each received message.
- `fetch`, the WebSocket, `localStorage`, `crypto.randomUUID` and `Math.random` are not modelled. Their results are parameters. The transcript save, the fault and reset POSTs and the vision GET are returned as requests. The fleet view's polling GETs go to fixed URLs and are left out; only their responses are modelled.
- Asynchronous interleavings are not modelled. The awaits inside `startSession` and the `await decodeAudioData` in `onmessage` are treated as completing in event order.
- `Orb.tsx` is not modelled. It only draws the analyser level, with no logic of its own.
- JSX layout, CSS classes, time formatting and the auto-scroll effects are presentation only. They are left out.
- The vision-scan simulation in the fleet views is left out. It is a timer that writes a fixed result.
- The `isConnected` flag of the page is left out, because it only drives a label.
- `window.location.reload` after a reset is left out. Reloading is a browser effect.
- The inverter card's alert border is left out. It is a style on the critical flag.
- `next.config.mjs` is not modelled, because it holds build configuration only.
- The page imports `components/FleetCommand`, which is not part of this model. The two versions that are modelled do not pass the agent status stream to `AgentTerminal`, so the terminal's log is modelled on its own input.
- JSON decoding of poll bodies is abstracted to a well-formed or malformed response.
- Dashboard.Receive: a message that fails `JSON.parse` is one `Unparseable` message, and the console logging is left out.
- VoiceSession.Receive: the model omits the user transcription, which this version of the code never reads.
- Playback.ScheduleAll: it works on exact reals, not the browser's floating-point clock, so rounding in `currentTime` and `duration` is not modelled.
- ExcavatorModel.Shade: the model gives each mesh its own material. The code writes `child.material.color`, and three.js meshes loaded from one glTF material share a material object. On a shared material, a non-battery mesh would be recoloured along with a battery mesh, and a second battery mesh would store the already tinted colour as its original. `TraverseEffects` and `OriginalSurvivesFrames` hold only for meshes with their own material.
- Strings.Lower: it lower-cases ASCII letters only. JavaScript's `toLowerCase` also maps non-ASCII letters, and can change a string's length. The part names the excavator lower-cases and searches for "battery" are unaffected when they are ASCII.
- TelemetryPanel.EngineLabel: the RPM is an integer, so a non-integer JSON number such as 1200.5, which the code would print as is, is not modelled. `Feed.Telemetry` carries `rpm` as an integer for the same reason.
- VoiceSession.Step: the event dispatcher follows the code as written, with `StartSession`, `RemoteClose` and `Disconnect`. The corrected `StartSessionFresh`, `RemoteCloseLive` and `DisconnectLive` appear only in the findings' lemmas.
- Callbacks of an older session that fire after a new start are not modelled. The model holds one session handle, and a new start replaces its captured transcript.

## Findings

| source | as written | input that shows it | evidently intended | confidence | as-written member | corrected member |
|---|---|---|---|---|---|---|
| components/GeminiLiveAudio.tsx:104 | `startSession` creates a new output `AudioContext`, whose clock restarts at 0. It keeps `nextStartTimeRef`, the cursor on the old context's clock (line 174). | A second start after the first session played audio, leaving the cursor at 5.0. The first chunk of the new session then arrives at clock reading 0 and starts at 5.0, after 5 s of silence. | The cursor is reset with the new context, so the first chunk of a new session plays on arrival. | not executed | VoiceSession.StaleCursorDelaysFirstChunk | VoiceSession.FreshSessionPlaysOnArrival |
| components/GeminiLiveAudio.tsx:193-198 | The `onclose` callback calls `saveTranscript` from the closure of the render where the orb was clicked. That closure holds the transcript from before `setTranscripts([])` at line 100, while `sessionIdRef` (line 101) is already the new id. | A first session hears the agent say "Part ordered" and is then closed by the server. Its close sees an empty transcript and saves nothing. A second session then saves the first session's lines under the second session's id. | A close saves the lines of the session that closed, under that session's id. | not executed | VoiceSession.RemoteCloseSavesPreviousLines | VoiceSession.LiveCloseSavesSessionLines |
| components/GeminiLiveAudio.tsx:36-77 | `disconnect` is called only from the cleanup of the mount effect (line 41, no dependencies). That cleanup holds the first render's `disconnect`, whose `transcripts` is the empty initial state, so its `saveTranscript` returns at once. | In the first session the operator hears several lines and navigates away. Disconnect's own call sends nothing. The close it triggers sees the transcript captured at the click, which is empty, so the session's lines are never saved. | Disconnect's own call saves the transcript shown at that time. | not executed | VoiceSession.UnmountNeverSaves | VoiceSession.DisconnectLive |
