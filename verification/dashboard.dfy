/**
 The dashboard page: where the telemetry socket URL comes from, how each
 socket message changes the page's state, the operator's mode switch and
 fault trigger, the persisted operator id, and the alert banner derived
 from telemetry and the critical flag.
 */
module Dashboard {
  import opened Js
  import opened Strings
  import opened Feed

  const DefaultApiUrl := "http://localhost:8080"

  /** `process.env.NEXT_PUBLIC_API_URL || "http://localhost:8080"`: an unset
      or empty variable gives the default. */
  function ApiUrl(env: Option<string>): (r: string)
    ensures TruthyString(env) ==> r == env.value
    ensures !TruthyString(env) ==> r == DefaultApiUrl
  {
    if TruthyString(env) then env.value else DefaultApiUrl
  }

  /** `API_URL.replace(/^http/, "ws").replace(/^https/, "wss")`. */
  function WsUrl(apiUrl: string): (r: string)
    ensures "http" <= apiUrl ==> r == "ws" + apiUrl[4..]
    ensures !("http" <= apiUrl) ==> r == apiUrl
  {
    SecondReplaceIsDead(apiUrl);
    ReplaceLeading(ReplaceLeading(apiUrl, "http", "ws"), "https", "wss")
  }

  /** The second replacement never fires: after the first one a URL starts
      with "ws" if it started with "http", and one that did not start with
      "http" cannot start with "https". */
  lemma SecondReplaceIsDead(apiUrl: string)
    ensures ReplaceLeading(ReplaceLeading(apiUrl, "http", "ws"), "https", "wss")
         == ReplaceLeading(apiUrl, "http", "ws")
  {
    var once := ReplaceLeading(apiUrl, "http", "ws");
    HttpsStartsWithHttp(apiUrl);
    if "http" <= apiUrl {
      assert once[0] == 'w' != "https"[0];
    }
  }

  lemma HttpsStartsWithHttp(s: string)
    ensures "https" <= s ==> "http" <= s
  {
    if "https" <= s {
      assert s[..4] == "https"[..4] == "http";
    }
  }

  /** Plain HTTP becomes `ws://` and HTTPS becomes `wss://`, host and path kept. */
  lemma WsUrlSchemes(rest: string)
    ensures WsUrl("http://" + rest) == "ws://" + rest
    ensures WsUrl("https://" + rest) == "wss://" + rest
  {
    var plain := "http://" + rest;
    assert plain[..4] == "http";
    assert plain[4..] == "://" + rest;
    assert "ws" + plain[4..] == "ws://" + rest;
    var secure := "https://" + rest;
    assert secure[..4] == "http";
    assert secure[4..] == "s://" + rest;
    assert "ws" + secure[4..] == "wss://" + rest;
  }

  datatype Mode = Human | AiAuto
  datatype View = Field | Command

  /** The page's state. */
  datatype State = State(
    telemetry: Option<Telemetry>,
    mode: Mode,
    decision: Option<AgentDecision>,
    agentStatus: Option<AgentStatus>,
    critical: bool,
    view: View,
    userId: string,
    cameraFeed: Option<string>)

  function Initial(): (st: State)
    ensures st.telemetry.None? && !st.critical && st.mode == Human && st.view == Field
    ensures st.decision.None? && st.agentStatus.None? && st.cameraFeed.None?
  {
    State(None, Human, None, None, false, Field, "", None)
  }

  /** The message raises the critical flag: DATA whose state is CRITICAL,
      or the CRITICAL_FAULT event. */
  predicate RaisesCritical(m: Message)
  {
    || (m.Data? && m.telemetry.Some? && m.telemetry.value.state == CriticalState)
    || (m.Event? && m.name == "CRITICAL_FAULT")
  }

  /** The socket's `onmessage`. DATA replaces the telemetry (a null payload
      clears it, and the ensuing TypeError is swallowed before the critical
      test); each of the other handled types touches only its own field; an
      unparseable or unknown message changes nothing. No message clears the
      critical flag. The vision fetch an event starts is a separate step. */
  function Receive(st: State, m: Message): (r: State)
    ensures r.critical <==> st.critical || RaisesCritical(m)
    ensures m.Data? ==> r == st.(telemetry := m.telemetry, critical := r.critical)
    ensures m.Event? ==> r == st.(critical := r.critical)
    ensures m.Decision? ==> r == st.(decision := m.decision)
    ensures m.Status? ==> r == st.(agentStatus := m.status)
    ensures m.Unparseable? || m.Ignored? ==> r == st
  {
    match m
    case Unparseable => st
    case Ignored => st
    case Data(t) =>
      var withTelemetry := st.(telemetry := t);
      if t.Some? && t.value.state == CriticalState then withTelemetry.(critical := true) else withTelemetry
    case Event(name) => if name == "CRITICAL_FAULT" then st.(critical := true) else st
    case Decision(d) => st.(decision := d)
    case Status(a) => st.(agentStatus := a)
  }

  function ReceiveAll(st: State, ms: seq<Message>): State
    decreases |ms|
  {
    if |ms| == 0 then st else ReceiveAll(Receive(st, ms[0]), ms[1..])
  }

  /** Over any stream of messages the critical flag ends set exactly when it
      was set before or some message raised it: it latches. */
  lemma {:induction false} CriticalLatches(st: State, ms: seq<Message>)
    ensures ReceiveAll(st, ms).critical <==>
      st.critical || exists i :: 0 <= i < |ms| && RaisesCritical(ms[i])
    decreases |ms|
  {
    if |ms| > 0 {
      CriticalLatches(Receive(st, ms[0]), ms[1..]);
      assert forall i :: 0 < i < |ms| ==> ms[1..][i - 1] == ms[i];
      if exists i :: 0 <= i < |ms| && RaisesCritical(ms[i]) {
        var i :| 0 <= i < |ms| && RaisesCritical(ms[i]);
        if i > 0 { assert RaisesCritical(ms[1..][i - 1]); }
      }
    }
  }

  /** `handleModeSwitch`: the new mode, with the previous mode's agent status
      and decision cleared. */
  function SwitchMode(st: State, mode: Mode): (r: State)
    ensures r.mode == mode && r.agentStatus.None? && r.decision.None?
    ensures r.(mode := st.mode, agentStatus := st.agentStatus, decision := st.decision) == st
  {
    st.(mode := mode, agentStatus := None, decision := None)
  }

  /** An HTTP request the page sends; its response, if the page reads one,
      comes back as a later step. The fault POST's JSON body carries the
      demo mode and the operator id. */
  datatype Request =
    | FaultPost(url: string, mode: Mode, userId: string)
    | ResetPost(url: string)
    | VisionGet(url: string)

  /** What a page action does: the state it leaves and the request it sends. */
  datatype Action = Action(next: State, request: Request)

  /** `triggerFault`: the page goes critical at once and forgets the agent's
      decision, its status and the camera feed, then POSTs the current demo
      mode and operator id to the simulator without waiting on the reply. */
  function TriggerFault(st: State, apiUrl: string): (r: Action)
    ensures r.next.critical && r.next.decision.None? && r.next.agentStatus.None? && r.next.cameraFeed.None?
    ensures r.next.(critical := st.critical, decision := st.decision, agentStatus := st.agentStatus,
                    cameraFeed := st.cameraFeed) == st
    ensures r.request == FaultPost(apiUrl + "/simulate/fault", st.mode, st.userId)
  {
    Action(st.(critical := true, decision := None, agentStatus := None, cameraFeed := None),
           FaultPost(apiUrl + "/simulate/fault", st.mode, st.userId))
  }

  /** The demo mode matters only through the fault request: after a mode
      switch, the next fault tells the simulator the mode chosen, and the
      page state it leaves differs from the one without the switch only in
      the mode. */
  lemma ModeReachesSimulator(st: State, mode: Mode, apiUrl: string)
    ensures TriggerFault(SwitchMode(st, mode), apiUrl).request.mode == mode
    ensures TriggerFault(SwitchMode(st, mode), apiUrl).request.userId == st.userId
    ensures TriggerFault(SwitchMode(st, mode), apiUrl).next == TriggerFault(st, apiUrl).next.(mode := mode)
  {
  }

  /** The socket handler's `fetchVision()` call: only the CRITICAL_FAULT
      event sends the vision GET. */
  function VisionFetch(m: Message, apiUrl: string): (r: Option<Request>)
    ensures r.Some? <==> m.Event? && m.name == "CRITICAL_FAULT"
    ensures r.Some? ==> r.value == VisionGet(apiUrl + "/api/vision/feed")
  {
    if m.Event? && m.name == "CRITICAL_FAULT" then Some(VisionGet(apiUrl + "/api/vision/feed")) else None
  }

  /** A vision fetch is only ever sent by a message that also raises the
      critical flag, so the page is critical whenever the image is asked for. */
  lemma VisionFetchOnlyWhenCritical(st: State, m: Message, apiUrl: string)
    ensures VisionFetch(m, apiUrl).Some? ==> RaisesCritical(m) && Receive(st, m).critical
    ensures m.Data? ==> VisionFetch(m, apiUrl).None?
  {
  }

  /** `fetchVision` once its response is decoded: a truthy `image_data`
      becomes the camera feed; anything else leaves the page alone. */
  function VisionArrived(st: State, imageData: Option<string>): (r: State)
    ensures TruthyString(imageData) ==> r == st.(cameraFeed := imageData)
    ensures !TruthyString(imageData) ==> r == st
  {
    if TruthyString(imageData) then st.(cameraFeed := imageData) else st
  }

  /** The operator id and what local storage holds afterwards. */
  datatype Identity = Identity(userId: string, stored: Option<string>)

  /** The mount effect: a stored id is reused; only when none is stored (or
      it is empty) a freshly generated one is used and stored. */
  function ResolveUserId(stored: Option<string>, generated: string): (r: Identity)
    ensures TruthyString(stored) ==> r == Identity(stored.value, stored)
    ensures !TruthyString(stored) ==> r == Identity(generated, Some(generated))
  {
    if TruthyString(stored) then Identity(stored.value, stored) else Identity(generated, Some(generated))
  }

  /** Remounting keeps the operator: whatever new id is offered the second
      time, the id resolved first is reused and storage is not rewritten. */
  lemma UserIdIsStable(stored: Option<string>, generated: string, another: string)
    requires generated != ""
    ensures var first := ResolveUserId(stored, generated);
      ResolveUserId(first.stored, another) == first
  {
  }

  /** What a reset does: the state it leaves, what it writes to local
      storage, and the request it sends. */
  datatype Reset = Reset(next: State, stored: Option<string>, request: Request)

  /** `resetSystem`. The reset POST is always sent. When the fetch resolves,
      whatever the HTTP status of the reply, the page leaves the critical
      state, forgets the agent and the camera, and takes a new operator id,
      which is stored. Only a rejected fetch (a network failure) leaves the
      page as it was. The page reload that follows is not modelled. */
  function ResetSystem(st: State, apiUrl: string, resolved: bool, newId: string): (r: Reset)
    ensures r.request == ResetPost(apiUrl + "/simulate/reset")
    ensures !resolved ==> r.next == st && r.stored.None?
    ensures resolved ==> !r.next.critical && r.next.decision.None? && r.next.agentStatus.None?
    ensures resolved ==> r.next.cameraFeed.None? && r.next.userId == newId && r.stored == Some(newId)
    ensures resolved ==> r.next.telemetry == st.telemetry && r.next.mode == st.mode
  {
    var request := ResetPost(apiUrl + "/simulate/reset");
    if !resolved then Reset(st, None, request)
    else Reset(st.(critical := false, decision := None, agentStatus := None, cameraFeed := None, userId := newId),
               Some(newId), request)
  }

  /** `showRedAlert`: high risk or critical, unless the machine is derated. */
  predicate ShowRedAlert(t: Option<Telemetry>, critical: bool)
  {
    (HighRisk(t) || critical) && !DeratedFlag(t)
  }

  /** The live-vision banner. */
  datatype Banner = Derating | Hazard | Normal

  function BannerLabel(b: Banner): string
  {
    match b
    case Derating => "DERATING ACTIVE (COOLING)"
    case Hazard => "HAZARD DETECTED"
    case Normal => "NORMAL MONITORING"
  }

  function BannerImage(b: Banner): string
  {
    match b
    case Derating => "/clean.jpg"
    case Hazard => "/fire.jpg"
    case Normal => "/clean.jpg"
  }

  /** Banner priority: derating wins over everything, then the red alert,
      and otherwise normal monitoring. */
  function BannerFor(t: Option<Telemetry>, critical: bool): (b: Banner)
    ensures b == Derating <==> DeratedFlag(t)
    ensures b == Hazard <==> ShowRedAlert(t, critical)
    ensures b == Normal <==> !DeratedFlag(t) && !HighRisk(t) && !critical
  {
    if DeratedFlag(t) then Derating
    else if ShowRedAlert(t, critical) then Hazard
    else Normal
  }

  /** A derated machine shows the cooling banner and the clean image even when
      the page is critical and the risk is high. */
  lemma DeratingOverridesCritical(t: Option<Telemetry>)
    requires DeratedFlag(t)
    ensures BannerLabel(BannerFor(t, true)) == "DERATING ACTIVE (COOLING)"
    ensures BannerImage(BannerFor(t, true)) == "/clean.jpg"
    ensures !ShowRedAlert(t, true)
  {
  }

  /** The fire image is shown exactly when the red alert (red background,
      smoke overlay) is. */
  lemma FireImageIffRedAlert(t: Option<Telemetry>, critical: bool)
    ensures BannerImage(BannerFor(t, critical)) == "/fire.jpg" <==> ShowRedAlert(t, critical)
  {
  }

  /** The risk test is strict: a risk of exactly 50 on a page that is not
      critical does not raise the alert. */
  lemma RiskOfFiftyIsNormal(t: Telemetry)
    requires t.risk == 50.0 && !Truthy(t.isDerated)
    ensures BannerFor(Some(t), false) == Normal
  {
  }
}
