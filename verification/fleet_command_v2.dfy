/**
 The fleet command view (current version): health banding of the machine's
 efficiency factor and component scores, the ERP inventory label, the voice
 panel's visibility, and the three system-of-record tables it polls.
 */
module FleetCommandV2 {
  import opened Js
  import opened Palette
  import opened Feed
  import Dashboard

  /** `HealthStat`'s colour: red below 50, yellow below 80, green otherwise. */
  function HealthColour(score: real): (c: Colour)
    ensures c == Red <==> score < 50.0
    ensures c == Yellow <==> 50.0 <= score < 80.0
    ensures c == Green <==> score >= 80.0
  {
    if score < 50.0 then Red else if score < 80.0 then Yellow else Green
  }

  /** `telemetry?.hef_score || 100`. */
  function Hef(t: Option<Telemetry>): (h: real)
    ensures t.None? ==> h == 100.0
    ensures t.Some? ==> h == OrNumber(t.value.hefScore, 100.0)
  {
    if t.None? then 100.0 else OrNumber(t.value.hefScore, 100.0)
  }

  /** The four component scores, each `telemetry?.x_health || 100`. */
  datatype Components = Components(capacitor: real, inverter: real, pump: real, valve: real)

  function ComponentScores(t: Option<Telemetry>): (c: Components)
    ensures t.None? ==> c == Components(100.0, 100.0, 100.0, 100.0)
    ensures t.Some? ==> c == Components(
      OrNumber(t.value.capHealth, 100.0), OrNumber(t.value.invHealth, 100.0),
      OrNumber(t.value.pumpHealth, 100.0), OrNumber(t.value.valveHealth, 100.0))
  {
    match t
    case None => Components(100.0, 100.0, 100.0, 100.0)
    case Some(x) =>
      Components(OrNumber(x.capHealth, 100.0), OrNumber(x.invHealth, 100.0),
                 OrNumber(x.pumpHealth, 100.0), OrNumber(x.valveHealth, 100.0))
  }

  /** Because `||` treats 0 as missing, a machine reporting a dead component
      (score 0) shows it as fully healthy, in green. */
  lemma ZeroScoreShowsHealthy(x: Telemetry)
    requires x.invHealth == Some(0.0) && x.hefScore == Some(0.0)
    ensures ComponentScores(Some(x)).inverter == 100.0
    ensures HealthColour(ComponentScores(Some(x)).inverter) == Green
    ensures Hef(Some(x)) == 100.0
  {
  }

  /** The efficiency factor's style: red and pulsing below 45, green otherwise. */
  datatype HefStyle = Alarm | Steady

  function HefStyleOf(hef: real): (s: HefStyle)
    ensures s == Alarm <==> hef < 45.0
  {
    if hef < 45.0 then Alarm else Steady
  }

  /** The ERP live-check label: "--" before any inventory check, then
      "IN STOCK" or "0 UNITS". */
  function InventoryLabel(inv: Option<InventoryCheck>): (s: string)
    ensures inv.None? <==> s == "--"
    ensures s == "IN STOCK" <==> inv.Some? && inv.value.available
    ensures s == "0 UNITS" <==> inv.Some? && !inv.value.available
  {
    match inv
    case None => "--"
    case Some(c) => if c.available then "IN STOCK" else "0 UNITS"
  }

  /** The label's colour: green only for an available part; "--" is red too. */
  function InventoryColour(inv: Option<InventoryCheck>): (c: Colour)
    ensures c == Green <==> InventoryLabel(inv) == "IN STOCK"
    ensures c == Red <==> InventoryLabel(inv) != "IN STOCK"
  {
    if inv.Some? && inv.value.available then Green else Red
  }

  /** `agentDecision?.inventory_check`. */
  function InventoryOf(d: Option<AgentDecision>): Option<InventoryCheck>
  {
    if d.Some? then d.value.inventoryCheck else None
  }

  /** The ERP label follows the agent's decision: "--" until a decision
      arrives that carries an inventory check, then that check's answer. */
  lemma InventoryFollowsDecision(d: Option<AgentDecision>)
    ensures InventoryLabel(InventoryOf(d)) == "--" <==> d.None? || d.value.inventoryCheck.None?
    ensures d.Some? && d.value.inventoryCheck.Some? ==>
      (InventoryLabel(InventoryOf(d)) == "IN STOCK" <==> d.value.inventoryCheck.value.available)
  {
  }

  /** The voice panel is mounted when the page is critical or the agent has
      decided something; otherwise the standby placeholder is shown. */
  predicate VoicePanelVisible(critical: bool, decision: Option<AgentDecision>)
  {
    critical || decision.Some?
  }

  /** Triggering a fault on the page mounts the voice panel; a successful
      reset takes it down again, and so does a mode switch on a page that
      is not critical. */
  lemma VoicePanelFollowsPage(st: Dashboard.State, apiUrl: string, newId: string, mode: Dashboard.Mode)
    ensures var f := Dashboard.TriggerFault(st, apiUrl).next; VoicePanelVisible(f.critical, f.decision)
    ensures var r := Dashboard.ResetSystem(st, apiUrl, true, newId).next; !VoicePanelVisible(r.critical, r.decision)
    ensures var m := Dashboard.SwitchMode(st, mode); VoicePanelVisible(m.critical, m.decision) <==> st.critical
  {
  }

  /** The rows of the three system-of-record tables. */
  datatype CaseRecord = CaseRecord(ticketRef: string, issueType: string, createdAt: string, priority: string)
  datatype InventoryRecord = InventoryRecord(partNumber: string, name: string, stockLevel: real)
  datatype DispatchRecord = DispatchRecord(
    workOrderRef: string, technicianName: string, destination: string, eta: string, createdAt: string)

  /** The ERP row's stock badge: "IN STOCK" for a positive level only. */
  function StockLabel(r: InventoryRecord): (s: string)
    ensures s == "IN STOCK" <==> r.stockLevel > 0.0
    ensures s == "OUT OF STOCK" <==> r.stockLevel <= 0.0
  {
    if r.stockLevel > 0.0 then "IN STOCK" else "OUT OF STOCK"
  }

  /** A rendered table: its rows, and the placeholder text if it shows one. */
  datatype Table<T> = Table(rows: seq<T>, placeholder: Option<string>)

  /** Every row is drawn; the placeholder is drawn exactly when there are none. */
  function RenderTable<T>(rows: seq<T>, emptyText: string): (t: Table<T>)
    ensures t.rows == rows
    ensures t.placeholder.Some? <==> |rows| == 0
    ensures t.placeholder.Some? ==> t.placeholder.value == emptyText
  {
    Table(rows, if |rows| == 0 then Some(emptyText) else None)
  }

  datatype Tables = Tables(
    cases: Table<CaseRecord>, inventory: Table<InventoryRecord>, dispatches: Table<DispatchRecord>)

  /** The polled records the view holds. */
  datatype Records = Records(
    cases: seq<CaseRecord>, inventory: seq<InventoryRecord>, dispatches: seq<DispatchRecord>)

  function RenderRecords(rec: Records): (t: Tables)
    ensures t.cases == RenderTable(rec.cases, "No Active Cases")
    ensures t.inventory == RenderTable(rec.inventory, "Loading ERP Data...")
    ensures t.dispatches == RenderTable(rec.dispatches, "No Active Dispatches")
  {
    Tables(
      RenderTable(rec.cases, "No Active Cases"),
      RenderTable(rec.inventory, "Loading ERP Data..."),
      RenderTable(rec.dispatches, "No Active Dispatches"))
  }

  /** One table's response: not ok, a decoded body, or a body whose JSON
      decoding throws. */
  datatype Response<T> = NotOk | Body(rows: seq<T>) | Malformed

  /** One poll: either a fetch rejected (all three run together, so nothing is
      applied), or all three responded. */
  datatype Poll =
    | Rejected
    | Settled(cases: Response<CaseRecord>, inventory: Response<InventoryRecord>, dispatches: Response<DispatchRecord>)

  /** `fetchData`. The three responses are applied in order; a not-ok response
      keeps that table's previous contents, and a body that fails to decode
      throws, so it and every later table keep theirs. */
  function ApplyPoll(rec: Records, p: Poll): (r: Records)
    ensures p.Rejected? ==> r == rec
    ensures p.Settled? && !p.cases.Body? ==> r.cases == rec.cases
    ensures p.Settled? && p.cases.Body? ==> r.cases == p.cases.rows
    ensures p.Settled? && (p.cases.Malformed? || !p.inventory.Body?) ==> r.inventory == rec.inventory
    ensures p.Settled? && !p.cases.Malformed? && p.inventory.Body? ==> r.inventory == p.inventory.rows
    ensures p.Settled? && (p.cases.Malformed? || p.inventory.Malformed? || !p.dispatches.Body?) ==>
      r.dispatches == rec.dispatches
    ensures p.Settled? && !p.cases.Malformed? && !p.inventory.Malformed? && p.dispatches.Body? ==>
      r.dispatches == p.dispatches.rows
  {
    match p
    case Rejected => rec
    case Settled(c, i, d) =>
      if c.Malformed? then rec
      else
        var r1 := if c.Body? then rec.(cases := c.rows) else rec;
        if i.Malformed? then r1
        else
          var r2 := if i.Body? then r1.(inventory := i.rows) else r1;
          if d.Malformed? then r2
          else if d.Body? then r2.(dispatches := d.rows) else r2
  }

  /** A poll in which nothing answered ok changes nothing. */
  lemma NotOkPollKeepsEverything(rec: Records)
    ensures ApplyPoll(rec, Settled(NotOk, NotOk, NotOk)) == rec
  {
  }

  /** Polling is idempotent: the same three answers applied twice leave the
      tables as applying them once did, so a repeated poll never duplicates rows. */
  lemma ApplyPollIdempotent(rec: Records, p: Poll)
    ensures ApplyPoll(ApplyPoll(rec, p), p) == ApplyPoll(rec, p)
  {
  }

  /** A poll in which all three tables answered with well-formed bodies
      replaces all three, whatever was held before. */
  lemma FullPollReplacesEverything(rec: Records, c: seq<CaseRecord>, i: seq<InventoryRecord>, d: seq<DispatchRecord>)
    ensures ApplyPoll(rec, Settled(Body(c), Body(i), Body(d))) == Records(c, i, d)
  {
  }
}
