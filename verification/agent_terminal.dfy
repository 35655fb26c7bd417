/**
 The agent's command log: each status the negotiation agent reports is
 appended to the log, coloured by its kind, and the negotiation steps are
 read aloud in one of two voice personas after their tag words are removed.
 */
module AgentTerminal {
  import opened Js
  import opened Strings
  import opened Palette
  import opened Feed

  /** `getColor`: the colour a status is shown in. */
  function StatusColour(status: string): (c: Colour)
    ensures c == Red <==> status == "SAFETY_INTERLOCK"
    ensures c == Purple <==> status == "NEGOTIATING" || status == "OUTBOUND_REQ"
    ensures c == Yellow <==> status == "INBOUND_OFFER"
    ensures c == Green <==> status == "PURCHASE_EXEC" || status == "COMPLETE"
    ensures c == Blue <==> status !in KnownStatuses
  {
    if status == "SAFETY_INTERLOCK" then Red
    else if status == "NEGOTIATING" || status == "OUTBOUND_REQ" then Purple
    else if status == "INBOUND_OFFER" then Yellow
    else if status == "PURCHASE_EXEC" || status == "COMPLETE" then Green
    else Blue
  }

  /** Every status `getColor` gives a colour of its own. */
  const KnownStatuses: set<string> :=
    {"SAFETY_INTERLOCK", "NEGOTIATING", "OUTBOUND_REQ", "INBOUND_OFFER", "PURCHASE_EXEC", "COMPLETE"}

  /** The negotiation steps that are read aloud. */
  const SpokenStatuses: set<string> :=
    {"NEGOTIATING", "OUTBOUND_REQ", "INBOUND_OFFER", "PURCHASE_EXEC", "SAFETY_INTERLOCK"}

  /** The spoken steps are exactly the coloured ones except COMPLETE: every
      spoken status has a colour of its own, and the completion is silent. */
  lemma SpokenAreColouredButComplete(status: string)
    ensures status in SpokenStatuses <==> status in KnownStatuses && status != "COMPLETE"
    ensures status in SpokenStatuses ==> StatusColour(status) != Blue
    ensures StatusColour("COMPLETE") == Green && "COMPLETE" !in SpokenStatuses
  {
  }

  /** The two voice personas. */
  datatype Voice = Voice(pitch: real, rate: real)

  /** The vendor's voice, lower and slower, for the vendor's offer; the
      agent's own voice, higher and faster, for everything else. */
  function Persona(status: string): (v: Voice)
    ensures status == "INBOUND_OFFER" ==> v == Voice(0.8, 0.9)
    ensures status != "INBOUND_OFFER" ==> v == Voice(1.1, 1.1)
  {
    if status == "INBOUND_OFFER" then Voice(0.8, 0.9) else Voice(1.1, 1.1)
  }

  /** Only the vendor's offer is spoken below normal pitch and rate. */
  lemma VendorVoiceIsLowerAndSlower(status: string)
    ensures Persona(status).pitch < 1.0 <==> status == "INBOUND_OFFER"
    ensures Persona(status).rate < 1.0 <==> status == "INBOUND_OFFER"
  {
  }

  /** The tag words removed before speaking, in the order they are removed. */
  const UrgentTag := "URGENT:"
  const OfferTag := "OFFER:"
  const ApprovalTag := "AUTO-APPROVAL:"

  /** The spoken text: the first occurrence of each tag is removed, one tag
      after the other; anything else in the text is kept. */
  function Cleanup(text: string): (r: string)
    ensures |r| <= |text|
    ensures !Contains(text, UrgentTag) && !Contains(text, OfferTag) && !Contains(text, ApprovalTag) ==> r == text
  {
    var a := ReplaceFirst(text, UrgentTag, "");
    var b := ReplaceFirst(a, OfferTag, "");
    ReplaceFirst(b, ApprovalTag, "")
  }

  /** When the first "URGENT:" starts at `i` and what is left once it is cut
      holds no "OFFER:" and no "AUTO-APPROVAL:", the spoken text is the text
      with exactly that occurrence cut out and everything else kept. */
  lemma CleanupCutsFirstUrgent(text: string, i: nat)
    requires OccursAt(text, UrgentTag, i)
    requires forall j: nat :: j < i ==> !OccursAt(text, UrgentTag, j)
    requires !Contains(text[..i] + text[i + |UrgentTag|..], OfferTag)
    requires !Contains(text[..i] + text[i + |UrgentTag|..], ApprovalTag)
    ensures Cleanup(text) == text[..i] + text[i + |UrgentTag|..]
  {
    RemoveFirst(text, UrgentTag, i);
  }

  /** Only the first "URGENT:" is cut: a later one, starting at `j`, is still
      spoken, moved left by the length of the tag that was removed. */
  lemma LaterUrgentSurvives(text: string, i: nat, j: nat)
    requires OccursAt(text, UrgentTag, i)
    requires forall k: nat :: k < i ==> !OccursAt(text, UrgentTag, k)
    requires !Contains(text[..i] + text[i + |UrgentTag|..], OfferTag)
    requires !Contains(text[..i] + text[i + |UrgentTag|..], ApprovalTag)
    requires i + |UrgentTag| <= j && OccursAt(text, UrgentTag, j)
    ensures OccursAt(Cleanup(text), UrgentTag, j - |UrgentTag|)
    ensures Contains(Cleanup(text), UrgentTag)
  {
    CleanupCutsFirstUrgent(text, i);
    var r := text[..i] + text[i + |UrgentTag|..];
    assert r[j - |UrgentTag|..j] == text[j..j + |UrgentTag|];
    assert OccursAt(r, UrgentTag, j - |UrgentTag|);
    assert IndexOf(r, UrgentTag).Some?;
  }

  /** One spoken utterance. */
  datatype Utterance = Utterance(text: string, voice: Voice)

  /** A line of the log: the reported status with the time it arrived. */
  datatype LogLine = LogLine(status: string, context: string, time: string)

  /** What a new status report does: appended to the log when there is one,
      and, for a negotiation step on a browser that can speak, an utterance
      that cancels whatever was being spoken. */
  datatype Reaction = Reaction(logs: seq<LogLine>, spoken: Option<Utterance>)

  /** The effect run when the reported status changes. */
  function OnStatus(logs: seq<LogLine>, report: Option<AgentStatus>, time: string, canSpeak: bool): (r: Reaction)
    ensures report.None? ==> r == Reaction(logs, None)
    ensures report.Some? ==> |r.logs| == |logs| + 1 && r.logs[..|logs|] == logs
    ensures report.Some? ==> r.logs[|logs|] == LogLine(report.value.status, report.value.context, time)
    ensures r.spoken.Some? <==> report.Some? && report.value.status in SpokenStatuses && canSpeak
    ensures r.spoken.Some? ==>
      r.spoken.value == Utterance(Cleanup(report.value.context), Persona(report.value.status))
  {
    match report
    case None => Reaction(logs, None)
    case Some(a) =>
      var line := LogLine(a.status, a.context, time);
      var spoken := if a.status in SpokenStatuses && canSpeak
        then Some(Utterance(Cleanup(a.context), Persona(a.status)))
        else None;
      Reaction(logs + [line], spoken)
  }

  /** A run of reports, each with the time it arrived. */
  function LogAll(logs: seq<LogLine>, reports: seq<AgentStatus>, times: seq<string>, canSpeak: bool): seq<LogLine>
    requires |times| == |reports|
    decreases |reports|
  {
    if |reports| == 0 then logs
    else LogAll(OnStatus(logs, Some(reports[0]), times[0], canSpeak).logs, reports[1..], times[1..], canSpeak)
  }

  /** After any run of reports the log holds the earlier lines untouched,
      followed by one line per report in the order the reports arrived. */
  lemma {:induction false} LogKeepsOrder(logs: seq<LogLine>, reports: seq<AgentStatus>, times: seq<string>, canSpeak: bool)
    requires |times| == |reports|
    ensures var r := LogAll(logs, reports, times, canSpeak);
      && |r| == |logs| + |reports|
      && r[..|logs|] == logs
      && forall k :: 0 <= k < |reports| ==>
           r[|logs| + k] == LogLine(reports[k].status, reports[k].context, times[k])
    decreases |reports|
  {
    if |reports| > 0 {
      var next := OnStatus(logs, Some(reports[0]), times[0], canSpeak).logs;
      LogKeepsOrder(next, reports[1..], times[1..], canSpeak);
      var r := LogAll(logs, reports, times, canSpeak);
      assert r == LogAll(next, reports[1..], times[1..], canSpeak);
      assert r[..|next|] == next;
      assert r[..|logs|] == next[..|logs|];
      forall k | 0 <= k < |reports|
        ensures r[|logs| + k] == LogLine(reports[k].status, reports[k].context, times[k])
      {
        if k == 0 {
          assert r[|logs|] == r[..|next|][|logs|];
        } else {
          assert r[|next| + (k - 1)] == LogLine(reports[1..][k - 1].status, reports[1..][k - 1].context, times[1..][k - 1]);
        }
      }
    }
  }

  /** Without speech synthesis nothing is ever spoken. */
  lemma SilentWithoutSpeech(logs: seq<LogLine>, report: Option<AgentStatus>, time: string)
    ensures OnStatus(logs, report, time, false).spoken.None?
  {
  }
}
