/**
 The live voice session of the fleet dashboard (`GeminiLiveAudio`): its
 lifecycle (start, open, remote close, remote error, disconnect), the
 playback of the agent's audio chunks through one cursor, the set of audio
 sources still playing, the agent transcript and its persistence request.

 The browser and the remote agent are outside the model. The output clock
 reading, the decoded chunk's duration, the fresh session id, the API key
 and whether setup succeeds are inputs; the POST to the transcript store is
 an effect the transitions return.

 React callbacks see the state of the render that created them. The model
 keeps what that means for the transcript: the session's callbacks are
 created when the orb is clicked and keep the transcript shown at that
 moment, and the unmount teardown is created by the first render, when the
 transcript is still empty.
 */
module VoiceSession {
  import opened Js
  import Playback

  /** Who spoke a line. The log renders both roles, but this version of the
      component never appends a user line: it does not read the user's
      transcription. */
  datatype Role = User | Agent

  /** One line of the conversation log. */
  datatype Entry = Entry(role: Role, text: string)

  /** The status line under the orb. */
  datatype Status =
    | Idle
    | MissingKey
    | Connecting
    | Live
    | SessionClosed
    | ConnectionError
    | Disconnected
    | SetupFailed

  function StatusText(s: Status): string
  {
    match s
    case Idle => "Click Orb to Start"
    case MissingKey => "Missing Key"
    case Connecting => "Connecting..."
    case Live => "\U{1F534} Live: Speak"
    case SessionClosed => "Session Closed"
    case ConnectionError => "Connection Error"
    case Disconnected => "Disconnected"
    case SetupFailed => "Setup Failed"
  }

  /** The component's state. `connected` says whether the session handle is
      held; `captured` is the transcript the live session's callbacks closed
      over, the one on screen when the orb was clicked; audio sources are
      named by the order in which they were created, and `nextSource` is the
      name the next one will get. */
  datatype Session = Session(
    status: Status,
    speaking: bool,
    transcript: seq<Entry>,
    captured: seq<Entry>,
    sessionId: string,
    connected: bool,
    cursor: real,
    active: set<nat>,
    nextSource: nat)

  /** Every playing source has been created already. */
  predicate Valid(s: Session)
  {
    forall id :: id in s.active ==> id < s.nextSource
  }

  /** The component as mounted, with the session id generated on mount. */
  function Mount(sessionId: string): (s: Session)
    ensures Valid(s) && s.status == Idle && !s.speaking && !s.connected
    ensures s.transcript == [] && s.captured == [] && s.active == {} && s.cursor == 0.0
    ensures s.sessionId == sessionId
  {
    Session(Idle, false, [], [], sessionId, false, 0.0, {}, 0)
  }

  /** The asset every transcript is filed against. */
  const AssetId := "HB-001"

  /** The body of the POST to `/api/save-transcript`. */
  datatype SaveRequest = SaveRequest(sessionId: string, userId: string, assetId: string, transcript: seq<Entry>)

  /** `saveTranscript`: nothing is sent for an empty transcript; otherwise one
      request carrying the whole transcript as it stands. */
  function SaveTranscript(s: Session, userId: string): (r: Option<SaveRequest>)
    ensures r.None? <==> |s.transcript| == 0
    ensures r.Some? ==> r.value.sessionId == s.sessionId && r.value.userId == userId
    ensures r.Some? ==> r.value.assetId == "HB-001" && r.value.transcript == s.transcript
  {
    if |s.transcript| == 0 then None
    else Some(SaveRequest(s.sessionId, userId, AssetId, s.transcript))
  }

  /** `startSession`, as written. Without an API key only the status changes.
      Otherwise the transcript is emptied and a fresh session id assigned
      before any await, so a failed setup keeps both; a successful setup
      holds the new session handle, whose callbacks keep the transcript as it
      was shown at the click, before it was emptied. The playback cursor and
      the set of playing sources are left as they were. */
  function StartSession(s: Session, apiKey: string, freshId: string, setupOk: bool): (r: Session)
    ensures apiKey == "" ==> r == s.(status := MissingKey)
    ensures apiKey != "" ==> r.transcript == [] && r.sessionId == freshId
    ensures apiKey != "" ==> r.cursor == s.cursor && r.active == s.active && r.nextSource == s.nextSource
    ensures apiKey != "" ==> r.speaking == s.speaking
    ensures apiKey != "" && setupOk ==> r.status == Connecting && r.connected && r.captured == s.transcript
    ensures apiKey != "" && !setupOk ==> r.status == SetupFailed && r.connected == s.connected && r.captured == s.captured
  {
    if apiKey == "" then s.(status := MissingKey)
    else
      var reset := s.(status := Connecting, transcript := [], sessionId := freshId);
      if setupOk then reset.(connected := true, captured := s.transcript) else reset.(status := SetupFailed)
  }

  /** `startSession` corrected: a new session also opens a new output audio
      context, whose clock starts again from zero, so the cursor is reset to
      that origin together with the transcript and the session id. */
  function StartSessionFresh(s: Session, apiKey: string, freshId: string, setupOk: bool): (r: Session)
    ensures apiKey == "" ==> r == s.(status := MissingKey)
    ensures apiKey != "" ==> r == StartSession(s, apiKey, freshId, setupOk).(cursor := 0.0)
  {
    if apiKey == "" then s.(status := MissingKey)
    else StartSession(s, apiKey, freshId, setupOk).(cursor := 0.0)
  }

  /** The `onopen` callback: the orb lights up and the status goes live. */
  function Open(s: Session): (r: Session)
    ensures r.speaking && r.status == Live
    ensures r.(speaking := s.speaking, status := s.status) == s
  {
    s.(speaking := true, status := Live)
  }

  /** The part of a server message the component reads: the decoded duration
      of the first part's inline audio (present when the audio payload is
      non-empty) and the first part's text. */
  datatype ServerMessage = ServerMessage(audio: Option<real>, text: Option<string>)

  /** A decoded audio buffer never has a negative duration. */
  predicate WellFormed(m: ServerMessage)
  {
    m.audio.Some? ==> m.audio.value >= 0.0
  }

  /** One `source.start(t)` call: which source, when, and for how long. */
  datatype Scheduled = Scheduled(source: nat, start: real, duration: real)

  datatype Delivery = Delivery(next: Session, scheduled: Option<Scheduled>)

  /** The `onmessage` callback at output clock reading `now`. An audio part
      is scheduled at `max(now, cursor)`, the cursor moves to its end, and
      its new source joins the playing set; a truthy agent text is appended
      to the transcript. Nothing else changes. */
  function Receive(s: Session, now: real, m: ServerMessage): (r: Delivery)
    requires WellFormed(m)
    ensures m.audio.None? ==> r.scheduled.None?
    ensures m.audio.None? ==>
      r.next.cursor == s.cursor && r.next.active == s.active && r.next.nextSource == s.nextSource
    ensures m.audio.Some? ==> (
      && r.scheduled.Some?
      && var p := r.scheduled.value;
      && p.source == s.nextSource && p.duration == m.audio.value
      && p.start >= now && p.start >= s.cursor && (p.start == now || p.start == s.cursor)
      && r.next.cursor == p.start + p.duration
      && r.next.active == s.active + {p.source}
      && r.next.nextSource == s.nextSource + 1)
    ensures TruthyString(m.text) ==> r.next.transcript == s.transcript + [Entry(Agent, m.text.value)]
    ensures !TruthyString(m.text) ==> r.next.transcript == s.transcript
    ensures r.next.status == s.status && r.next.speaking == s.speaking
    ensures r.next.sessionId == s.sessionId && r.next.connected == s.connected
    ensures r.next == s.(cursor := r.next.cursor, active := r.next.active, nextSource := r.next.nextSource,
                         transcript := r.next.transcript)
  {
    var (afterAudio, scheduled) :=
      match m.audio
      case None => (s, None)
      case Some(d) =>
        var start := Playback.StartAt(s.cursor, now);
        var source := s.nextSource;
        (s.(cursor := start + d, active := s.active + {source}, nextSource := source + 1),
         Some(Scheduled(source, start, d)));
    var afterText :=
      if TruthyString(m.text) then afterAudio.(transcript := afterAudio.transcript + [Entry(Agent, m.text.value)])
      else afterAudio;
    Delivery(afterText, scheduled)
  }

  /** A source's `ended` event removes that source and nothing else. */
  function Ended(s: Session, source: nat): (r: Session)
    ensures r.active == s.active - {source}
    ensures source !in r.active && forall id :: id in s.active && id != source ==> id in r.active
    ensures r.(active := s.active) == s
  {
    s.(active := s.active - {source})
  }

  /** The `onerror` callback changes only the status. */
  function RemoteError(s: Session): (r: Session)
    ensures r.status == ConnectionError
    ensures r.(status := s.status) == s
  {
    s.(status := ConnectionError)
  }

  /** What a teardown leaves behind: the new state, the save request it
      issues, the sources it stops, and whether it closed the session handle. */
  datatype Teardown = Teardown(next: Session, save: Option<SaveRequest>, stopped: set<nat>, closed: bool)

  /** The `onclose` callback, as written: status "Session Closed" and the
      orb goes dark. It saves through the `saveTranscript` of the render in
      which the orb was clicked, so it offers the transcript captured then,
      under the current session id. The handle and the playing sources are
      left alone. */
  function RemoteClose(s: Session, userId: string): (r: Teardown)
    ensures r.next == s.(status := SessionClosed, speaking := false)
    ensures StatusText(r.next.status) == "Session Closed"
    ensures r.save.None? <==> |s.captured| == 0
    ensures r.save.Some? ==> r.save.value == SaveRequest(s.sessionId, userId, AssetId, s.captured)
    ensures r.stopped == {} && !r.closed
  {
    Teardown(s.(status := SessionClosed, speaking := false), SaveTranscript(s.(transcript := s.captured), userId), {}, false)
  }

  /** The `onclose` callback corrected: the same teardown, saving the
      transcript of the session that has just closed. */
  function RemoteCloseLive(s: Session, userId: string): (r: Teardown)
    ensures r.next == RemoteClose(s, userId).next && r.stopped == {} && !r.closed
    ensures r.save.None? <==> |s.transcript| == 0
    ensures r.save.Some? ==> r.save.value == SaveRequest(s.sessionId, userId, AssetId, s.transcript)
  {
    Teardown(s.(status := SessionClosed, speaking := false), SaveTranscript(s, userId), {}, false)
  }

  /** `disconnect`, as written. It runs only when the component unmounts,
      through the cleanup the first render registered, so its
      `saveTranscript` sees that render's empty transcript and sends
      nothing. It closes and drops the session handle if one is held, stops
      every playing source and empties the set, and ends with the orb dark
      and status "Disconnected". */
  function Disconnect(s: Session): (r: Teardown)
    ensures r.save.None?
    ensures r.closed <==> s.connected
    ensures r.stopped == s.active
    ensures r.next.active == {} && !r.next.connected
    ensures !r.next.speaking && StatusText(r.next.status) == "Disconnected"
    ensures r.next.transcript == s.transcript && r.next.sessionId == s.sessionId
    ensures r.next.cursor == s.cursor && r.next.nextSource == s.nextSource
    ensures r.next.captured == s.captured
  {
    Teardown(
      s.(connected := false, active := {}, speaking := false, status := Disconnected),
      SaveTranscript(s.(transcript := []), ""),
      s.active,
      s.connected)
  }

  /** `disconnect` corrected: the same teardown, saving the transcript on
      screen when the component goes away. */
  function DisconnectLive(s: Session, userId: string): (r: Teardown)
    ensures r.next == Disconnect(s).next && r.stopped == s.active && (r.closed <==> s.connected)
    ensures r.save.None? <==> |s.transcript| == 0
    ensures r.save.Some? ==> r.save.value == SaveRequest(s.sessionId, userId, AssetId, s.transcript)
  {
    Disconnect(s).(save := SaveTranscript(s, userId))
  }

  /** A second `disconnect` leaves the state as the first left it, stops
      nothing and closes nothing. */
  lemma DisconnectIdempotent(s: Session)
    ensures var once := Disconnect(s);
      var twice := Disconnect(once.next);
      twice.next == once.next && twice.stopped == {} && !twice.closed
  {
  }

  /** The events the component reacts to, in the order it sees them. */
  datatype Event =
    | Start(apiKey: string, freshId: string, setupOk: bool)
    | Opened
    | Received(now: real, message: ServerMessage)
    | SourceEnded(source: nat)
    | RemoteClosed
    | RemoteErrored
    | Unmount

  predicate WellFormedEvent(e: Event)
  {
    e.Received? ==> WellFormed(e.message)
  }

  predicate WellFormedEvents(es: seq<Event>)
  {
    forall i :: 0 <= i < |es| ==> WellFormedEvent(es[i])
  }

  /** Everything one event does. */
  datatype Effects = Effects(next: Session, save: Option<SaveRequest>, scheduled: Option<Scheduled>, stopped: set<nat>)

  /** One event, as the code handles it. */
  function Step(s: Session, userId: string, e: Event): (r: Effects)
    requires WellFormedEvent(e)
    ensures Valid(s) ==> Valid(r.next)
    ensures r.save.Some? ==> e.RemoteClosed?
    ensures r.scheduled.Some? ==> e.Received?
    ensures !e.Start? ==> r.next.sessionId == s.sessionId
  {
    match e
    case Start(key, id, ok) => Effects(StartSession(s, key, id, ok), None, None, {})
    case Opened => Effects(Open(s), None, None, {})
    case Received(now, m) =>
      var d := Receive(s, now, m);
      Effects(d.next, None, d.scheduled, {})
    case SourceEnded(id) => Effects(Ended(s, id), None, None, {})
    case RemoteClosed =>
      var t := RemoteClose(s, userId);
      Effects(t.next, t.save, None, t.stopped)
    case RemoteErrored => Effects(RemoteError(s), None, None, {})
    case Unmount =>
      var t := Disconnect(s);
      Effects(t.next, t.save, None, t.stopped)
  }

  function OptionToSeq<T>(o: Option<T>): seq<T>
  {
    if o.Some? then [o.value] else []
  }

  /** The result of a run of events: the final state, the save requests
      issued and the playback calls made, each in order. */
  datatype Trace = Trace(final: Session, saves: seq<SaveRequest>, scheduled: seq<Scheduled>)

  function Run(s: Session, userId: string, es: seq<Event>): (r: Trace)
    requires WellFormedEvents(es)
    ensures Valid(s) ==> Valid(r.final)
    decreases |es|
  {
    if |es| == 0 then Trace(s, [], [])
    else
      var eff := Step(s, userId, es[0]);
      var rest := Run(eff.next, userId, es[1..]);
      Trace(rest.final, OptionToSeq(eff.save) + rest.saves, OptionToSeq(eff.scheduled) + rest.scheduled)
  }

  predicate NoStart(es: seq<Event>)
  {
    forall i :: 0 <= i < |es| ==> !es[i].Start?
  }

  /** The agent text one event appends, if any. */
  function TextOf(e: Event): seq<Entry>
  {
    if e.Received? && TruthyString(e.message.text) then [Entry(Agent, e.message.text.value)] else []
  }

  /** The agent texts a run appends, in the order their messages arrive. */
  function AgentTexts(es: seq<Event>): seq<Entry>
    decreases |es|
  {
    if |es| == 0 then [] else TextOf(es[0]) + AgentTexts(es[1..])
  }

  /** The audio chunk one event hands to the scheduler, if any. */
  function ChunkOf(e: Event): (r: seq<Playback.Chunk>)
    requires WellFormedEvent(e)
    ensures Playback.NonNegative(r)
  {
    if e.Received? && e.message.audio.Some? then [Playback.Chunk(e.now, e.message.audio.value)] else []
  }

  /** The audio chunks a run hands to the scheduler, in arrival order. */
  function ChunksOf(es: seq<Event>): (r: seq<Playback.Chunk>)
    requires WellFormedEvents(es)
    ensures Playback.NonNegative(r)
    decreases |es|
  {
    if |es| == 0 then []
    else
      TailFacts(es);
      ChunkOf(es[0]) + ChunksOf(es[1..])
  }

  function StartTimes(ps: seq<Scheduled>): (r: seq<real>)
    ensures |r| == |ps|
    ensures forall i :: 0 <= i < |ps| ==> r[i] == ps[i].start
  {
    seq(|ps|, i requires 0 <= i < |ps| => ps[i].start)
  }

  lemma TailFacts(es: seq<Event>)
    requires |es| > 0
    requires WellFormedEvents(es)
    ensures WellFormedEvents(es[1..]) && WellFormedEvent(es[0])
    ensures NoStart(es) ==> NoStart(es[1..]) && !es[0].Start?
  {
    assert forall i :: 0 <= i < |es| - 1 ==> es[1..][i] == es[i + 1];
  }

  /** Running `e` and then `es` is running `[e] + es`. */
  lemma RunCons(s: Session, userId: string, e: Event, es: seq<Event>)
    requires WellFormedEvent(e) && WellFormedEvents(es)
    ensures WellFormedEvents([e] + es)
    ensures var eff := Step(s, userId, e);
      var rest := Run(eff.next, userId, es);
      Run(s, userId, [e] + es) == Trace(rest.final, OptionToSeq(eff.save) + rest.saves, OptionToSeq(eff.scheduled) + rest.scheduled)
  {
    assert forall i :: 0 < i < |[e] + es| ==> ([e] + es)[i] == es[i - 1];
    assert ([e] + es)[1..] == es;
  }

  /** `Run` over a non-empty run, one step unfolded. */
  lemma RunUnfold(s: Session, userId: string, es: seq<Event>)
    requires |es| > 0 && WellFormedEvents(es)
    ensures WellFormedEvent(es[0]) && WellFormedEvents(es[1..])
    ensures var eff := Step(s, userId, es[0]);
      var rest := Run(eff.next, userId, es[1..]);
      Run(s, userId, es) == Trace(rest.final, OptionToSeq(eff.save) + rest.saves, OptionToSeq(eff.scheduled) + rest.scheduled)
  {
    TailFacts(es);
  }

  /** The state a non-empty run ends in is the one its tail ends in. */
  lemma RunFinal(s: Session, userId: string, es: seq<Event>)
    requires |es| > 0 && WellFormedEvents(es)
    ensures WellFormedEvent(es[0]) && WellFormedEvents(es[1..])
    ensures Run(s, userId, es).final == Run(Step(s, userId, es[0]).next, userId, es[1..]).final
  {
    TailFacts(es);
  }

  /** What one event other than a start does to the transcript. */
  lemma StepTranscript(s: Session, userId: string, e: Event)
    requires WellFormedEvent(e) && !e.Start?
    ensures Step(s, userId, e).next.transcript == s.transcript + TextOf(e)
  {
  }

  /** What one event other than a start does to the transcript and the
      playback cursor. */
  lemma StepPlayback(s: Session, userId: string, e: Event)
    requires WellFormedEvent(e) && !e.Start?
    ensures var eff := Step(s, userId, e);
      && eff.next.transcript == s.transcript + TextOf(e)
      && (ChunkOf(e) == [] ==> eff.scheduled.None? && eff.next.cursor == s.cursor)
      && (ChunkOf(e) != [] ==>
            && eff.scheduled.Some?
            && eff.scheduled.value.start == Playback.StartAt(s.cursor, ChunkOf(e)[0].now)
            && eff.scheduled.value.duration == ChunkOf(e)[0].duration
            && eff.next.cursor == Playback.Advance(s.cursor, ChunkOf(e)[0]))
  {
  }

  /** Within a session the transcript only grows at the end: a run without
      a new start appends exactly the agent texts of its messages, in the
      order they arrived, and leaves the earlier entries untouched. */
  lemma {:induction false} TranscriptAppendsInOrder(s: Session, userId: string, es: seq<Event>)
    requires WellFormedEvents(es)
    requires NoStart(es)
    ensures Run(s, userId, es).final.transcript == s.transcript + AgentTexts(es)
    decreases |es|
  {
    if |es| == 0 {
      assert s.transcript + [] == s.transcript;
    } else {
      TailFacts(es);
      RunFinal(s, userId, es);
      StepTranscript(s, userId, es[0]);
      var next := Step(s, userId, es[0]).next;
      TranscriptAppendsInOrder(next, userId, es[1..]);
      assert s.transcript + TextOf(es[0]) + AgentTexts(es[1..]) == s.transcript + (TextOf(es[0]) + AgentTexts(es[1..]));
    }
  }

  /** The start times of a run of playback calls, one call split off. */
  lemma StartTimesCons(p: Option<Scheduled>, ps: seq<Scheduled>)
    ensures StartTimes(OptionToSeq(p) + ps) ==
      (if p.Some? then [p.value.start] else []) + StartTimes(ps)
  {
    var all := OptionToSeq(p) + ps;
    if p.Some? {
      assert forall i :: 0 < i < |all| ==> all[i] == ps[i - 1];
    } else {
      assert all == ps;
    }
  }

  /** Within a session the component leaves the cursor where the playback
      scheduler leaves it after the audio chunks of the run. */
  lemma {:induction false} RunCursorLikePlayback(s: Session, userId: string, es: seq<Event>)
    requires WellFormedEvents(es)
    requires NoStart(es)
    ensures Run(s, userId, es).final.cursor == Playback.FinalCursor(s.cursor, ChunksOf(es))
    decreases |es|
  {
    if |es| > 0 {
      TailFacts(es);
      RunUnfold(s, userId, es);
      StepPlayback(s, userId, es[0]);
      var next := Step(s, userId, es[0]).next;
      RunCursorLikePlayback(next, userId, es[1..]);
      var tail := ChunksOf(es[1..]);
      assert ChunksOf(es) == ChunkOf(es[0]) + tail;
      if ChunkOf(es[0]) != [] {
        Playback.Cons(s.cursor, ChunkOf(es[0])[0], tail);
      } else {
        assert ChunksOf(es) == tail;
      }
    }
  }

  /** Within a session the component starts each audio chunk when the
      playback scheduler would start it. */
  lemma {:induction false} RunSchedulesLikePlayback(s: Session, userId: string, es: seq<Event>)
    requires WellFormedEvents(es)
    requires NoStart(es)
    ensures StartTimes(Run(s, userId, es).scheduled) == Playback.Starts(s.cursor, ChunksOf(es))
    decreases |es|
  {
    if |es| > 0 {
      TailFacts(es);
      RunUnfold(s, userId, es);
      StepPlayback(s, userId, es[0]);
      var eff := Step(s, userId, es[0]);
      var rest := Run(eff.next, userId, es[1..]);
      RunSchedulesLikePlayback(eff.next, userId, es[1..]);
      StartTimesCons(eff.scheduled, rest.scheduled);
      var tail := ChunksOf(es[1..]);
      assert ChunksOf(es) == ChunkOf(es[0]) + tail;
      if ChunkOf(es[0]) != [] {
        Playback.Cons(s.cursor, ChunkOf(es[0])[0], tail);
        assert ChunkOf(es[0]) == [ChunkOf(es[0])[0]];
      } else {
        assert ChunksOf(es) == tail;
      }
    }
  }

  /** Within a session no two chunks overlap and the cursor never moves
      backwards. */
  lemma SessionPlaybackNoOverlap(s: Session, userId: string, es: seq<Event>)
    requires WellFormedEvents(es)
    requires NoStart(es)
    ensures var ps := Run(s, userId, es).scheduled;
      forall i :: 0 < i < |ps| ==> ps[i].start >= ps[i - 1].start + ps[i - 1].duration
    ensures Run(s, userId, es).final.cursor >= s.cursor
  {
    RunSchedulesLikePlayback(s, userId, es);
    RunCursorLikePlayback(s, userId, es);
    ScheduledDurations(s, userId, es);
    Playback.NoOverlap(s.cursor, ChunksOf(es));
    var ps := Run(s, userId, es).scheduled;
    assert forall i :: 0 <= i < |ps| ==> ps[i].duration == Durations(ps)[i];
  }

  function Durations(ps: seq<Scheduled>): (r: seq<real>)
    ensures |r| == |ps|
    ensures forall i :: 0 <= i < |ps| ==> r[i] == ps[i].duration
  {
    seq(|ps|, i requires 0 <= i < |ps| => ps[i].duration)
  }

  lemma DurationsCons(p: Option<Scheduled>, ps: seq<Scheduled>)
    ensures Durations(OptionToSeq(p) + ps) ==
      (if p.Some? then [p.value.duration] else []) + Durations(ps)
  {
    var all := OptionToSeq(p) + ps;
    if p.Some? {
      assert forall i :: 0 < i < |all| ==> all[i] == ps[i - 1];
    } else {
      assert all == ps;
    }
  }

  /** The durations of the playback calls are those of the chunks. */
  lemma {:induction false} ScheduledDurations(s: Session, userId: string, es: seq<Event>)
    requires WellFormedEvents(es)
    requires NoStart(es)
    ensures Durations(Run(s, userId, es).scheduled) == Playback.Durations(ChunksOf(es))
    decreases |es|
  {
    if |es| > 0 {
      TailFacts(es);
      RunUnfold(s, userId, es);
      StepPlayback(s, userId, es[0]);
      var eff := Step(s, userId, es[0]);
      var rest := Run(eff.next, userId, es[1..]);
      ScheduledDurations(eff.next, userId, es[1..]);
      DurationsCons(eff.scheduled, rest.scheduled);
      assert ChunksOf(es) == ChunkOf(es[0]) + ChunksOf(es[1..]);
      Playback.DurationsAppend(ChunkOf(es[0]), ChunksOf(es[1..]));
      if ChunkOf(es[0]) != [] {
        assert Playback.Durations(ChunkOf(es[0])) == [ChunkOf(es[0])[0].duration];
      } else {
        assert Playback.Durations(ChunkOf(es[0])) == [];
      }
    }
  }

  /** Starting a session (with a key) followed immediately by reading the
      transcript yields the empty transcript. */
  lemma StartClearsTranscript(s: Session, userId: string, key: string, id: string, ok: bool)
    requires key != ""
    ensures Step(s, userId, Start(key, id, ok)).next.transcript == []
    ensures Step(s, userId, Start(key, id, ok)).next.sessionId == id
  {
  }

  /** A remote close followed by the unmount saves at most once, and only
      what the close offers: the transcript captured at the last start. */
  lemma CloseThenUnmountSavesOnlyTheCapture(s: Session, userId: string)
    ensures WellFormedEvents([RemoteClosed, Unmount])
    ensures Run(s, userId, [RemoteClosed, Unmount]).saves == OptionToSeq(RemoteClose(s, userId).save)
  {
    var es := [RemoteClosed, Unmount];
    assert es[1..] == [Unmount];
    assert [Unmount][1..] == [];
  }

  /** The state after a session is started, opened and hears one agent line. */
  function AfterOneLine(s: Session, key: string, id: string, now: real, line: string): Session
  {
    Receive(Open(StartSession(s, key, id, true)), now, ServerMessage(None, Some(line))).next
  }

  /** The events of that session followed by a remote close. */
  function OneLineEvents(key: string, id: string, now: real, line: string): (es: seq<Event>)
    ensures WellFormedEvents(es) && |es| == 4 && es[3] == RemoteClosed
  {
    [Start(key, id, true), Opened, Received(now, ServerMessage(None, Some(line))), RemoteClosed]
  }

  /** The three steps before the close neither save nor play. */
  lemma OneLineTrace(s: Session, userId: string, key: string, id: string, now: real, line: string)
    ensures var t := RemoteClose(AfterOneLine(s, key, id, now, line), userId);
      Run(s, userId, OneLineEvents(key, id, now, line)) == Trace(t.next, OptionToSeq(t.save), [])
  {
    var m := ServerMessage(None, Some(line));
    var s1 := StartSession(s, key, id, true);
    var s2 := Open(s1);
    var s3 := AfterOneLine(s, key, id, now, line);
    var t := RemoteClose(s3, userId);
    var tr := Trace(t.next, OptionToSeq(t.save), []);
    var e3 := [RemoteClosed];
    var e2 := [Received(now, m)] + e3;
    var e1 := [Opened] + e2;
    RunRemoteCloseOnly(s3, userId);
    SilentStep(s2, userId, Received(now, m), e3, tr);
    SilentStep(s1, userId, Opened, e2, tr);
    SilentStep(s, userId, Start(key, id, true), e1, tr);
    assert [Start(key, id, true)] + e1 == OneLineEvents(key, id, now, line);
  }

  /** As written, a session that hears one agent line and is then closed by
      the remote side does not save that line: it saves the transcript shown
      when the orb was clicked, under the new session's id, and nothing at
      all when that transcript was empty, as it is for the first session. */
  lemma RemoteCloseSavesPreviousLines(s: Session, userId: string, key: string, id: string, now: real, line: string)
    requires key != "" && line != ""
    ensures var t := Run(s, userId, OneLineEvents(key, id, now, line));
      && (|s.transcript| == 0 ==> t.saves == [])
      && (|s.transcript| > 0 ==> t.saves == [SaveRequest(id, userId, "HB-001", s.transcript)])
      && t.final.transcript == [Entry(Agent, line)]
      && t.final.status == SessionClosed && !t.final.speaking
  {
    OneLineTrace(s, userId, key, id, now, line);
    var s3 := AfterOneLine(s, key, id, now, line);
    assert s3.transcript == [Entry(Agent, line)] && s3.sessionId == id && s3.captured == s.transcript;
  }

  /** With the corrected close, the same session saves exactly the line it
      heard, under its own id. */
  lemma LiveCloseSavesSessionLines(s: Session, userId: string, key: string, id: string, now: real, line: string)
    requires key != "" && line != ""
    ensures RemoteCloseLive(AfterOneLine(s, key, id, now, line), userId).save ==
      Some(SaveRequest(id, userId, "HB-001", [Entry(Agent, line)]))
  {
    var s3 := AfterOneLine(s, key, id, now, line);
    assert s3.transcript == [Entry(Agent, line)] && s3.sessionId == id;
  }

  /** As written, the unmount never saves, even a transcript that the
      corrected teardown would save. */
  lemma UnmountNeverSaves(s: Session, userId: string)
    requires |s.transcript| > 0
    ensures Disconnect(s).save.None?
    ensures DisconnectLive(s, userId).save == Some(SaveRequest(s.sessionId, userId, "HB-001", s.transcript))
  {
  }

  /** Closing the held handle at unmount makes the server close the
      session, which reaches the `onclose` callback as a remote close of its
      own. That close saves the transcript captured at the last start, under
      the current session id, even though the disconnect itself saved nothing. */
  lemma UnmountThenCloseSavesCapture(s: Session, userId: string)
    ensures WellFormedEvents([Unmount, RemoteClosed])
    ensures var saves := Run(s, userId, [Unmount, RemoteClosed]).saves;
      && (|s.captured| == 0 ==> saves == [])
      && (|s.captured| > 0 ==> saves == [SaveRequest(s.sessionId, userId, "HB-001", s.captured)])
  {
    var es := [Unmount, RemoteClosed];
    RunCons(s, userId, Unmount, [RemoteClosed]);
    assert [Unmount] + [RemoteClosed] == es;
    RunRemoteCloseOnly(Disconnect(s).next, userId);
  }

  /** A run of a single remote close. */
  lemma RunRemoteCloseOnly(s: Session, userId: string)
    ensures WellFormedEvents([RemoteClosed])
    ensures Run(s, userId, [RemoteClosed]) ==
      Trace(RemoteClose(s, userId).next, OptionToSeq(RemoteClose(s, userId).save), [])
  {
    RunCons(s, userId, RemoteClosed, []);
    assert [RemoteClosed] + [] == [RemoteClosed];
  }

  /** An event that neither saves nor plays adds nothing to the trace of
      the run it starts. */
  lemma SilentStep(s: Session, userId: string, e: Event, es: seq<Event>, tr: Trace)
    requires WellFormedEvent(e) && WellFormedEvents(es)
    requires Step(s, userId, e).save.None? && Step(s, userId, e).scheduled.None?
    requires Run(Step(s, userId, e).next, userId, es) == tr
    ensures WellFormedEvents([e] + es)
    ensures Run(s, userId, [e] + es) == tr
  {
    RunCons(s, userId, e, es);
    assert [] + tr.saves == tr.saves && [] + tr.scheduled == tr.scheduled;
  }

  /** The source started for an audio chunk was not already playing. */
  lemma FreshSourceNotPlaying(s: Session, now: real, m: ServerMessage)
    requires Valid(s) && WellFormed(m) && m.audio.Some?
    ensures Receive(s, now, m).scheduled.value.source !in s.active
    ensures |Receive(s, now, m).next.active| == |s.active| + 1
  {
  }

  /** As written, a second session keeps the previous session's cursor while
      its new output clock starts again at zero: its first chunk, arriving at
      clock reading 0, waits until the old cursor instead of playing at once. */
  lemma StaleCursorDelaysFirstChunk(s: Session, key: string, id: string, d: real)
    requires key != "" && s.cursor > 0.0 && d >= 0.0
    ensures var restarted := StartSession(s, key, id, true);
      var first := Receive(restarted, 0.0, ServerMessage(Some(d), None)).scheduled.value;
      first.start == s.cursor && first.start > 0.0
  {
  }

  /** With the cursor reset, the first chunk of a new session plays at the
      clock reading at which it arrives. */
  lemma FreshSessionPlaysOnArrival(s: Session, key: string, id: string, ok: bool, now: real, d: real)
    requires key != "" && now >= 0.0 && d >= 0.0
    ensures var restarted := StartSessionFresh(s, key, id, ok);
      Receive(restarted, now, ServerMessage(Some(d), None)).scheduled.value.start == now
  {
  }
}
