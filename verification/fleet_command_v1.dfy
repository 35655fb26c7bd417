/**
 The first fleet command view: the same health banding, written twice
 (a `getHealthColor` helper and the `HealthStat` component), the ERP label
 with its vendor quote, and the CRM incident table with one live row.
 */
module FleetCommandV1 {
  import opened Js
  import opened Palette
  import opened Feed
  import FleetCommandV2

  /** `getHealthColor`, used for nothing but kept beside the component. */
  function GetHealthColour(score: real): (c: Colour)
    ensures c == Red || c == Yellow || c == Green
  {
    if score < 50.0 then Red else if score < 80.0 then Yellow else Green
  }

  /** The `HealthStat` component of this view bands a score with the same
      expression as the current view's, so it is `FleetCommandV2.HealthColour`;
      the unused helper bands every score exactly as the component does. */
  lemma HealthBandsAgree(score: real)
    ensures GetHealthColour(score) == FleetCommandV2.HealthColour(score)
    ensures GetHealthColour(score) == Red <==> score < 50.0
  {
  }

  /** The efficiency factor and the component scores are read with the same
      `telemetry?.x || 100` expressions as in the current view, so no score is
      ever displayed as 0%: a reported 0 shows as 100. */
  lemma NoScoreShowsZero(t: Option<Telemetry>)
    ensures FleetCommandV2.Hef(t) != 0.0
    ensures var c := FleetCommandV2.ComponentScores(t);
      c.capacitor != 0.0 && c.inverter != 0.0 && c.pump != 0.0 && c.valve != 0.0
  {
  }

  /** The ERP label: identical tri-state to the current view's. */
  function InventoryLabel(inv: Option<InventoryCheck>): (s: string)
    ensures s == FleetCommandV2.InventoryLabel(inv)
    ensures s == "--" || s == "IN STOCK" || s == "0 UNITS"
  {
    match inv
    case None => "--"
    case Some(c) => if c.available then "IN STOCK" else "0 UNITS"
  }

  /** The $5,500.00 vendor quote box is shown exactly when an inventory check
      came back and the part is not available. */
  predicate VendorQuoteShown(inv: Option<InventoryCheck>)
  {
    inv.Some? && !inv.value.available
  }

  /** The quote is shown exactly when the label reads "0 UNITS". */
  lemma VendorQuoteIffZeroUnits(inv: Option<InventoryCheck>)
    ensures VendorQuoteShown(inv) <==> InventoryLabel(inv) == "0 UNITS"
  {
  }

  /** A row of the CRM incident table. */
  datatype TicketRow =
    | Live(ticketId: string, status: string)
    | NoIncidents
    | Resolved(ticketId: string, status: string, component: string, priority: string)

  const ResolvedIncident := Resolved("INC-8821", "RESOLVED", "Hydraulic Filter", "P3")

  /** `agentDecision?.ticket`. */
  function TicketOf(d: Option<AgentDecision>): Option<Ticket>
  {
    if d.Some? then d.value.ticket else None
  }

  /** The table body: the live ticket's row when there is ticket data, the
      "No active incidents detected." row otherwise; the resolved INC-8821
      row always follows. */
  function TicketRows(ticket: Option<Ticket>): (rows: seq<TicketRow>)
    ensures |rows| == 2 && rows[1] == ResolvedIncident
    ensures rows[0].Live? <==> ticket.Some?
    ensures rows[0].NoIncidents? <==> ticket.None?
    ensures ticket.Some? ==> rows[0] == Live(ticket.value.ticketId, ticket.value.status)
  {
    match ticket
    case Some(t) => [Live(t.ticketId, t.status), ResolvedIncident]
    case None => [NoIncidents, ResolvedIncident]
  }

  /** The voice panel is mounted on the same condition as in the current view. */
  predicate VoicePanelVisible(critical: bool, decision: Option<AgentDecision>)
  {
    critical || decision.Some?
  }

  lemma VoicePanelAsCurrentView(critical: bool, decision: Option<AgentDecision>)
    ensures VoicePanelVisible(critical, decision) <==> FleetCommandV2.VoicePanelVisible(critical, decision)
    ensures TicketOf(decision).Some? ==> VoicePanelVisible(critical, decision)
  {
  }
}
