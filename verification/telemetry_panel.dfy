/**
 The telemetry panel floating beside the excavator: three-band colouring of
 each reading against a warning and a critical threshold, the state badge,
 the capped core-temperature bar and the engine label.
 */
module TelemetryPanel {
  import opened Js
  import opened Strings
  import opened Palette
  import opened Feed

  /** Warning and critical thresholds per reading. */
  const TempWarn := 75.0
  const TempCrit := 95.0
  const RiskWarn := 30.0
  const RiskCrit := 60.0
  const CurrentWarn := 70.0
  const CurrentCrit := 100.0

  /** `getStatusColor`: red from the critical threshold up, orange from the
      warning threshold up, green below; both boundaries inclusive. */
  function StatusColour(v: real, warn: real, crit: real): (c: Colour)
    ensures c == Red <==> v >= crit
    ensures c == Orange <==> warn <= v < crit
    ensures c == Green <==> v < warn && v < crit
  {
    if v >= crit then Red
    else if v >= warn then Orange
    else Green
  }

  /** `getBarColor`: the bar's colour, decided by its own comparisons. */
  function BarColour(v: real, warn: real, crit: real): (c: Colour)
    ensures c == Red || c == Orange || c == Green
  {
    if v >= crit then Red
    else if v >= warn then Orange
    else Green
  }

  /** The bar always shows the band the reading's text shows. */
  lemma BarMatchesText(v: real, warn: real, crit: real)
    ensures BarColour(v, warn, crit) == StatusColour(v, warn, crit)
  {
  }

  /** With ordered thresholds a higher reading never shows a calmer colour. */
  lemma StatusColourMonotone(v1: real, v2: real, warn: real, crit: real)
    requires warn <= crit && v1 <= v2
    ensures Severity(StatusColour(v1, warn, crit)) <= Severity(StatusColour(v2, warn, crit))
  {
  }

  /** The badge colour: a CRITICAL state is orange while derated and red
      otherwise; any other state is green. */
  function BadgeColour(state: string, derated: bool): (c: Colour)
    ensures c == Red <==> state == CriticalState && !derated
    ensures c == Orange <==> state == CriticalState && derated
    ensures c == Green <==> state != CriticalState
  {
    if state == CriticalState then (if derated then Orange else Red) else Green
  }

  /** The badge text: the limp-mode notice while derated, else the raw state. */
  function BadgeText(state: string, derated: bool): (s: string)
    ensures derated ==> s == "LIMP MODE ACTIVE"
    ensures !derated ==> s == state
  {
    if derated then "LIMP MODE ACTIVE" else state
  }

  /** Width of the core-temperature bar in percent:
      `Math.min(100, temp / 120 * 100)`. Full at 120 degrees and above. */
  function CoreTempWidth(temp: real): (w: real)
    ensures w <= 100.0
    ensures temp >= 120.0 <==> w == 100.0
    ensures temp < 120.0 ==> w * 120.0 == temp * 100.0
  {
    var scaled := temp / 120.0 * 100.0;
    if scaled <= 100.0 then scaled else 100.0
  }

  /** A hotter core never draws a shorter bar. */
  lemma CoreTempWidthMonotone(t1: real, t2: real)
    requires t1 <= t2
    ensures CoreTempWidth(t1) <= CoreTempWidth(t2)
  {
  }

  /** The engine label: "DERATED" while derated, else the rpm, e.g. "1800 RPM". */
  function EngineLabel(rpm: int, derated: bool): (s: string)
    ensures s == "DERATED" <==> derated
    ensures !derated ==> s == IntToDecimal(rpm) + " RPM"
  {
    if derated then "DERATED"
    else
      var text := IntToDecimal(rpm) + " RPM";
      assert text[|text| - 1] == 'M' != "DERATED"[6];
      text
  }

  /** A running engine's label is its rpm read back: dropping the " RPM"
      suffix leaves a numeral that spells exactly the reported rpm. */
  lemma EngineLabelShowsRpm(rpm: int)
    ensures var s := EngineLabel(rpm, false);
      |s| > 4 && s[|s| - 4..] == " RPM" && DecimalValue(s[..|s| - 4]) == rpm
  {
    var s := EngineLabel(rpm, false);
    assert s[..|s| - 4] == IntToDecimal(rpm);
    IntToDecimalValue(rpm);
  }

  /** What the panel shows. */
  datatype Panel =
    | Uplink
    | Readout(
        assetId: string,
        badgeColour: Colour,
        badgeText: string,
        tempColour: Colour,
        tempBar: Colour,
        tempWidth: real,
        riskColour: Colour,
        riskBar: Colour,
        riskWidth: real,
        currentColour: Colour,
        engineLabel: string,
        engineColour: Colour)

  /** The whole panel. Without telemetry only the "ESTABLISHING UPLINK..."
      placeholder is shown; with it, `is_derated` is read by truthiness. */
  function Render(t: Option<Telemetry>): (p: Panel)
    ensures t.None? <==> p.Uplink?
    ensures t.Some? ==> (
      var x := t.value;
      var derated := Truthy(x.isDerated);
      && p.badgeColour == BadgeColour(x.state, derated)
      && p.badgeText == BadgeText(x.state, derated)
      && p.tempColour == p.tempBar == StatusColour(x.coreTempC, TempWarn, TempCrit)
      && p.tempWidth == CoreTempWidth(x.coreTempC)
      && p.riskColour == p.riskBar == StatusColour(x.risk, RiskWarn, RiskCrit)
      && p.riskWidth == x.risk
      && p.currentColour == StatusColour(x.capacitorCurrent, CurrentWarn, CurrentCrit)
      && p.engineLabel == EngineLabel(x.rpm, derated)
      && (p.engineColour == Orange <==> derated))
  {
    match t
    case None => Uplink
    case Some(x) =>
      var derated := Truthy(x.isDerated);
      BarMatchesText(x.coreTempC, TempWarn, TempCrit);
      BarMatchesText(x.risk, RiskWarn, RiskCrit);
      Readout(
        x.assetId,
        BadgeColour(x.state, derated),
        BadgeText(x.state, derated),
        StatusColour(x.coreTempC, TempWarn, TempCrit),
        BarColour(x.coreTempC, TempWarn, TempCrit),
        CoreTempWidth(x.coreTempC),
        StatusColour(x.risk, RiskWarn, RiskCrit),
        BarColour(x.risk, RiskWarn, RiskCrit),
        x.risk,
        StatusColour(x.capacitorCurrent, CurrentWarn, CurrentCrit),
        EngineLabel(x.rpm, derated),
        if derated then Orange else Slate)
  }
}
