/**
 The earlier telemetry panel, kept beside the current one: derating
 overrides every reading's colour, each reading has a single strict
 threshold, and a derate block shows whether the engine limit is engaged.
 */
module TelemetryPanelCopy {
  import opened Js
  import opened Palette
  import opened Feed
  import TelemetryPanel

  const TempThreshold := 90.0
  const RiskThreshold := 50.0

  /** `getStatusColor`: orange whenever derated, whatever the value; otherwise
      red strictly above the threshold and green at or below it. */
  function StatusColour(v: real, threshold: real, derated: bool): (c: Colour)
    ensures derated ==> c == Orange
    ensures !derated ==> (c == Red <==> v > threshold)
    ensures !derated ==> (c == Green <==> v <= threshold)
  {
    if derated then Orange
    else if v > threshold then Red
    else Green
  }

  /** The temperature bar: red strictly above 90 degrees, blue otherwise. */
  function TempBar(temp: real): (c: Colour)
    ensures c == Red <==> temp > TempThreshold
    ensures c == Red || c == Blue
  {
    if temp > TempThreshold then Red else Blue
  }

  /** The risk bar: red strictly above 50, green otherwise. */
  function RiskBar(risk: real): (c: Colour)
    ensures c == Red <==> risk > RiskThreshold
    ensures c == Red || c == Green
  {
    if risk > RiskThreshold then Red else Green
  }

  /** The badge colour, written out again in this panel. */
  function BadgeColour(state: string, derated: bool): (c: Colour)
    ensures c == Red || c == Orange || c == Green
  {
    if state == CriticalState then (if derated then Orange else Red) else Green
  }

  /** The badge text, written out again in this panel. */
  function BadgeText(state: string, derated: bool): (s: string)
    ensures s == "LIMP MODE ACTIVE" || s == state
  {
    if derated then "LIMP MODE ACTIVE" else state
  }

  /** Both panels show the same badge for the same telemetry. */
  lemma BadgeAgreesWithMainPanel(state: string, derated: bool)
    ensures BadgeColour(state, derated) == TelemetryPanel.BadgeColour(state, derated)
    ensures BadgeText(state, derated) == TelemetryPanel.BadgeText(state, derated)
  {
  }

  /** When not derated the temperature text turns red exactly when its bar does. */
  lemma TempTextAgreesWithBar(temp: real)
    ensures StatusColour(temp, TempThreshold, false) == Red <==> TempBar(temp) == Red
  {
  }

  /** The derate block: mode and engine limit, chosen by the flag alone. */
  datatype DerateBlock = DerateBlock(mode: string, limit: string)

  function Derate(derated: bool): (b: DerateBlock)
    ensures derated ==> b == DerateBlock("ENGAGED", "1200 RPM")
    ensures !derated ==> b == DerateBlock("IDLE", "NO LIMIT")
  {
    if derated then DerateBlock("ENGAGED", "1200 RPM") else DerateBlock("IDLE", "NO LIMIT")
  }

  /** What this panel shows. */
  datatype Panel =
    | Uplink
    | Readout(
        badgeColour: Colour,
        badgeText: string,
        tempColour: Colour,
        tempBar: Colour,
        tempWidth: real,
        riskColour: Colour,
        riskBar: Colour,
        riskWidth: real,
        derate: DerateBlock)

  /** The whole panel; `is_derated` is read by truthiness. The temperature
      bar's width uses the same capped formula as the main panel; the risk
      bar's width is the risk itself, with no cap. */
  function Render(t: Option<Telemetry>): (p: Panel)
    ensures t.None? <==> p.Uplink?
    ensures t.Some? ==> (
      var x := t.value;
      var derated := Truthy(x.isDerated);
      && (derated ==> p.tempColour == Orange && p.riskColour == Orange)
      && (!derated ==> (p.tempColour == Red <==> x.coreTempC > 90.0))
      && (!derated ==> (p.riskColour == Red <==> x.risk > 50.0))
      && (p.tempBar == Red <==> x.coreTempC > 90.0)
      && (p.riskBar == Red <==> x.risk > 50.0)
      && p.tempWidth == TelemetryPanel.CoreTempWidth(x.coreTempC) && p.tempWidth <= 100.0
      && p.riskWidth == x.risk
      && p.badgeColour == TelemetryPanel.BadgeColour(x.state, derated)
      && p.badgeText == TelemetryPanel.BadgeText(x.state, derated)
      && p.derate == Derate(derated))
  {
    match t
    case None => Uplink
    case Some(x) =>
      var derated := Truthy(x.isDerated);
      BadgeAgreesWithMainPanel(x.state, derated);
      Readout(
        BadgeColour(x.state, derated),
        BadgeText(x.state, derated),
        StatusColour(x.coreTempC, TempThreshold, derated),
        TempBar(x.coreTempC),
        TelemetryPanel.CoreTempWidth(x.coreTempC),
        StatusColour(x.risk, RiskThreshold, derated),
        RiskBar(x.risk),
        x.risk,
        Derate(derated))
  }
}
