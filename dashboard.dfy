/** The dashboard preview's display classifiers: the score bar's width and
    colour, the status badge lookup and the insight priority badge. */
module DashboardPreviewPage {
  import opened Text

  datatype Lead = Lead(
    id: string,
    name: string,
    contact: string,
    email: string,
    score: nat,
    status: string,
    value: string,
    source: string)

  const MockLeads: seq<Lead> := [
    Lead("L001", "Arjun Technologies", "Ravi Arjun", "ravi@arjuntech.in", 87, "Hot", "₹8.5L", "LinkedIn"),
    Lead("L002", "Precision Mfg Ltd", "Suresh Iyer", "suresh@precisionmfg.com", 74, "Hot", "₹15L", "Website"),
    Lead("L003", "CloudSync Solutions", "Meena Patel", "meena@cloudsync.io", 61, "Warm", "₹4.2L", "Email"),
    Lead("L004", "Delta Retail Group", "Vikram Shah", "vikram@deltaretail.com", 55, "Warm", "₹6.8L", "Referral"),
    Lead("L005", "NextGen Finance", "Anita Rao", "anita@nextgenfinance.in", 43, "Warm", "₹12L", "LinkedIn"),
    Lead("L006", "Kalyan Logistics", "Ramesh Das", "ramesh@kalyanlog.com", 28, "Cold", "₹2.1L", "Website"),
    Lead("L007", "Stellar IT Services", "Priya Joshi", "priya@stellarit.com", 91, "Hot", "₹22L", "LinkedIn"),
    Lead("L008", "Omega Healthcare", "Dr. Amit Nair", "amit@omegahc.in", 67, "Warm", "₹9.5L", "Email")
  ]

  /** Badge classes per lead status. */
  const StatusColors: map<string, string> := map[
    "Hot" := "bg-red-100 text-red-700 border-red-200",
    "Warm" := "bg-orange-100 text-orange-700 border-orange-200",
    "Cold" := "bg-blue-100 text-blue-700 border-blue-200"
  ]

  /** Every status in the sample leads has a badge style, so the lookup
      never yields `undefined`. */
  lemma StatusColorsCoverLeads(i: nat)
    requires i < |MockLeads|
    ensures MockLeads[i].status in StatusColors
  {
  }

  // ---------------------------------------------------------------------
  // Score bar
  // ---------------------------------------------------------------------

  const Navy: string := "#1F3A93"
  const Violet: string := "#6C63FF"
  const Slate: string := "#94a3b8"

  /** Which of the three colour bands a score falls in: 2 from 75 up, 1
      from 50 to 74, 0 below 50. */
  function Band(score: int): (b: nat)
    ensures b <= 2
    ensures b == 2 <==> score >= 75
    ensures b == 0 <==> score < 50
  {
    if score >= 75 then 2 else if score >= 50 then 1 else 0
  }

  /** The score bar's colour. */
  function BarColour(score: int): (c: string)
    ensures c == [Slate, Violet, Navy][Band(score)]
  {
    if score >= 75 then Navy else if score >= 50 then Violet else Slate
  }

  /** A higher score never falls in a lower band. */
  lemma BandMonotone(s: int, t: int)
    requires s <= t
    ensures Band(s) <= Band(t)
  {
  }

  /** The three colours differ, so the colour tells the band. */
  lemma ColourDeterminesBand(s: int, t: int)
    ensures BarColour(s) == BarColour(t) <==> Band(s) == Band(t)
  {
    assert Navy[1] != Violet[1] && Navy[1] != Slate[1] && Violet[1] != Slate[1];
  }

  /** The bar's CSS width, the score as a percentage. */
  function BarWidth(score: nat): (w: string)
    ensures |w| >= 2 && w[|w| - 1] == '%'
  {
    Decimal(score) + "%"
  }

  /** The width reads back as the score. */
  lemma BarWidthIsScore(score: nat)
    ensures ParseNat(BarWidth(score)[..|BarWidth(score)| - 1]) == Some(score)
  {
    assert BarWidth(score)[..|BarWidth(score)| - 1] == Decimal(score);
    ParseDecimal(score);
  }

  // ---------------------------------------------------------------------
  // Insight priority badge
  // ---------------------------------------------------------------------

  datatype Tone = Red | Orange | Blue | Grey

  /** The priority badge's tone: red for "Urgent", orange for "High",
      blue for "Medium", grey for anything else. */
  function PriorityTone(priority: string): (t: Tone)
    ensures t == Red <==> priority == "Urgent"
    ensures t == Orange <==> priority == "High"
    ensures t == Blue <==> priority == "Medium"
  {
    if priority == "Urgent" then Red
    else if priority == "High" then Orange
    else if priority == "Medium" then Blue
    else Grey
  }

  /** The badge classes for a tone: every tone but grey reuses one of the
      lead status badge styles. */
  function ToneClasses(t: Tone): (classes: string)
    ensures t != Grey ==> classes in StatusColors.Values
  {
    assert StatusColors["Hot"] in StatusColors.Values;
    assert StatusColors["Warm"] in StatusColors.Values;
    assert StatusColors["Cold"] in StatusColors.Values;
    match t
      case Red => "bg-red-100 text-red-700 border-red-200"
      case Orange => "bg-orange-100 text-orange-700 border-orange-200"
      case Blue => "bg-blue-100 text-blue-700 border-blue-200"
      case Grey => "bg-gray-100 text-gray-700 border-gray-200"
  }

  /** The priorities of the four sample insights, in order. */
  const InsightPriorities: seq<string> := ["High", "Info", "Urgent", "Medium"]

  /** The four insights get four different tones; "Info" falls through to
      grey. */
  lemma InsightTones()
    ensures PriorityTone(InsightPriorities[0]) == Orange
    ensures PriorityTone(InsightPriorities[1]) == Grey
    ensures PriorityTone(InsightPriorities[2]) == Red
    ensures PriorityTone(InsightPriorities[3]) == Blue
  {
  }

  /** The urgent, high and medium badges reuse the hot, warm and cold
      status badge styles. */
  lemma ToneMatchesStatusStyle()
    ensures ToneClasses(Red) == StatusColors["Hot"]
    ensures ToneClasses(Orange) == StatusColors["Warm"]
    ensures ToneClasses(Blue) == StatusColors["Cold"]
  {
  }
}
