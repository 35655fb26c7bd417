/**
 The payloads the dashboard receives on its telemetry WebSocket
 (`/ws/telemetry`) once `JSON.parse` has succeeded, and the two readings of
 the telemetry that several components share.
 */
module Feed {
  import opened Js

  /** One DATA payload. `isDerated` keeps its JSON type because components
      disagree on how to test it; the health scores may be absent. */
  datatype Telemetry = Telemetry(
    assetId: string,
    state: string,
    isDerated: Value,
    coreTempC: real,
    risk: real,
    capacitorCurrent: real,
    rpm: int,
    torqueNm: real,
    hefScore: Option<real>,
    capHealth: Option<real>,
    invHealth: Option<real>,
    pumpHealth: Option<real>,
    valveHealth: Option<real>)

  datatype InventoryCheck = InventoryCheck(available: bool)

  datatype Ticket = Ticket(ticketId: string, status: string)

  /** An AGENT_DECISION payload: what the agent found and filed. */
  datatype AgentDecision = AgentDecision(inventoryCheck: Option<InventoryCheck>, ticket: Option<Ticket>)

  /** An AGENT_STATUS payload: one step of the agent's negotiation. */
  datatype AgentStatus = AgentStatus(status: string, context: string)

  /** One WebSocket message. `Unparseable` is a frame `JSON.parse` rejects;
      `Ignored` is a message whose `type` is none of the four handled ones. */
  datatype Message =
    | Unparseable
    | Ignored
    | Data(telemetry: Option<Telemetry>)
    | Event(name: string)
    | Decision(decision: Option<AgentDecision>)
    | Status(status: Option<AgentStatus>)

  const CriticalState := "CRITICAL"

  /** `telemetry?.thermal_runaway_risk > 50`: strict, and false without telemetry. */
  predicate HighRisk(t: Option<Telemetry>)
  {
    t.Some? && t.value.risk > 50.0
  }

  /** `telemetry?.is_derated || false`, the truthy reading of the flag. */
  predicate DeratedFlag(t: Option<Telemetry>)
  {
    t.Some? && Truthy(t.value.isDerated)
  }
}
