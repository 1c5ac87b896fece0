/**
 * The similarity tier rule. A percentage score is shown twice: on the gauge,
 * which picks a colour and a label, and in the text report, which picks a
 * text tag, a description tag and a message. Both branch on the same
 * thresholds, 70 and 40. Scores are compared only, so they are modelled as
 * `real` numbers.
 */
module Tiers {
  import opened Wrappers

  datatype Tier = Low | Moderate | High

  /** The lower bound of the high tier and of the moderate tier. */
  const HighThreshold: real := 70.0
  const ModerateThreshold: real := 40.0

  /**
   * The band a score falls in: at least 70 is high, from 40 up to but not
   * including 70 is moderate, anything lower (negative scores included) is low.
   */
  function Band(score: real): (t: Tier)
    ensures t == High <==> HighThreshold <= score
    ensures t == Moderate <==> ModerateThreshold <= score < HighThreshold
    ensures t == Low <==> score < ModerateThreshold
  {
    if score >= HighThreshold then High
    else if score >= ModerateThreshold then Moderate
    else Low
  }

  // Colours used for each tier, by the gauge and by the report's tags.
  const Red: string := "#ff5252"
  const Orange: string := "#ffab40"
  const Green: string := "#66bb6a"
  const Blue: string := "#4a6ee0"

  /** What the gauge draws besides the arcs: the arc and score colour, and the caption under it. */
  datatype GaugeStyle = GaugeStyle(color: string, caption: string)

  /** The gauge's choice of colour and caption for a score. */
  function GaugeStyleOf(score: real): (g: GaugeStyle)
    ensures g.caption == "High Similarity" <==> Band(score) == High
    ensures g.caption == "Moderate Similarity" <==> Band(score) == Moderate
    ensures g.caption == "Low Similarity" <==> Band(score) == Low
    ensures g.color == (match Band(score) case High => Red case Moderate => Orange case Low => Green)
  {
    if score >= 70.0 then GaugeStyle(Red, "High Similarity")
    else if score >= 40.0 then GaugeStyle(Orange, "Moderate Similarity")
    else GaugeStyle(Green, "Low Similarity")
  }

  /** What the report writes after "Content Similarity Score: ": the tag of the score and its description line. */
  datatype ReportStyle = ReportStyle(tag: string, descTag: string, message: string)

  // The verdict sentence the report writes under the score, one per tier.
  const HighMessage: string :=
    "\U{26A0}\U{FE0F} High similarity detected! These documents contain significant matching content.\n"
  const ModerateMessage: string :=
    "\U{26A0}\U{FE0F} Moderate similarity detected. Some portions of the content may be similar.\n"
  const LowMessage: string :=
    "\U{2705} Low similarity detected. The documents appear to be mostly original.\n"

  /** The report's choice of tags and message for a score. */
  function ReportStyleOf(score: real): (r: ReportStyle)
    ensures r.tag == "high" <==> Band(score) == High
    ensures r.tag == "medium" <==> Band(score) == Moderate
    ensures r.tag == "low" <==> Band(score) == Low
    ensures r.descTag == r.tag + "_desc"
    ensures r.message == (match Band(score) case High => HighMessage case Moderate => ModerateMessage case Low => LowMessage)
  {
    if score >= 70.0 then
      ReportStyle("high", "high_desc", HighMessage)
    else if score >= 40.0 then
      ReportStyle("medium", "medium_desc", ModerateMessage)
    else
      ReportStyle("low", "low_desc", LowMessage)
  }

  /** The foreground colour configured for each text tag of the report, if any. */
  function TagForeground(tag: string): (c: Option<string>)
    ensures c.Some? <==> tag in {"high", "medium", "low", "file", "high_desc", "medium_desc", "low_desc"}
  {
    if tag == "high" || tag == "high_desc" then Some(Red)
    else if tag == "medium" || tag == "medium_desc" then Some(Orange)
    else if tag == "low" || tag == "low_desc" then Some(Green)
    else if tag == "file" then Some(Blue)
    else None
  }

  /**
   * The gauge and the report agree: for every score, the report's score and
   * its description are coloured with the gauge's colour for that score.
   */
  lemma GaugeAgreesWithReport(score: real)
    ensures TagForeground(ReportStyleOf(score).tag) == Some(GaugeStyleOf(score).color)
    ensures TagForeground(ReportStyleOf(score).descTag) == Some(GaugeStyleOf(score).color)
  {
  }

  /** A higher score never lands in a lower tier. */
  lemma BandMonotone(a: real, b: real)
    requires a <= b
    ensures Rank(Band(a)) <= Rank(Band(b))
  {
  }

  function Rank(t: Tier): nat {
    match t
    case Low => 0
    case Moderate => 1
    case High => 2
  }
}
