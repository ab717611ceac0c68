/** The dashboard's statistic card: the trend line and the coloured top bar,
    and what the dashboard's own trend values make of them. */
module StatsCard {

  predicate IsPositive(trend: string)
  {
    trend == "up"
  }

  function Arrow(trend: string): (a: string)
    ensures a == "\U{2191}" <==> IsPositive(trend)
    ensures a == "\U{2191}" || a == "\U{2193}"
  {
    if IsPositive(trend) then "\U{2191}" else "\U{2193}"
  }

  function Label(trend: string): (l: string)
    ensures l == "Increased" <==> trend == "up"
    ensures l == "Decreased" <==> trend == "down"
    ensures l == "No change" <==> trend != "up" && trend != "down"
  {
    if trend == "up" then "Increased" else if trend == "down" then "Decreased" else "No change"
  }

  /** The text of the trend line: arrow, a space, the label. */
  function TrendText(trend: string): (r: string)
    ensures |r| >= 3 && r[1] == ' '
    ensures r[0] == '\U{2191}' <==> trend == "up"
    ensures r[0] == '\U{2193}' <==> trend != "up"
    ensures r[2..] == Label(trend)
  {
    Arrow(trend) + " " + Label(trend)
  }

  datatype Gradient = SuccessGradient | DangerGradient | PrimaryGradient

  /** The top bar of the card. */
  function TopBar(trend: string): (g: Gradient)
    ensures g == SuccessGradient <==> trend == "up"
    ensures g == DangerGradient <==> trend == "down"
    ensures g == PrimaryGradient <==> trend != "up" && trend != "down"
  {
    if trend == "up" then SuccessGradient else if trend == "down" then DangerGradient else PrimaryGradient
  }

  /** The three renderings a card can have, and which trends produce each. The
      down arrow is shared by "down" and by every unrecognised trend. */
  lemma TrendCases(trend: string)
    ensures TrendText(trend) == "\U{2191} Increased" <==> trend == "up"
    ensures TrendText(trend) == "\U{2193} Decreased" <==> trend == "down"
    ensures TrendText(trend) == "\U{2193} No change" <==> trend != "up" && trend != "down"
    ensures TopBar(trend) == PrimaryGradient <==> trend != "up" && trend != "down"
  {
    var r := TrendText(trend);
    assert r == r[..2] + r[2..];
    assert "\U{2191} Increased"[2..] == "Increased";
    assert "\U{2193} Decreased"[2..] == "Decreased";
    assert "\U{2193} No change"[2..] == "No change";
  }

  datatype Stat = Stat(title: string, value: string, trend: string, color: string)

  /** The four cards Dashboard renders. */
  const DashboardStats: seq<Stat> := [
    Stat("Total Tasks", "248", "+12%", "primary"),
    Stat("In Progress", "45", "+5%", "warning"),
    Stat("Completed", "189", "+18%", "success"),
    Stat("Overdue", "14", "-2%", "error")
  ]

  /** Dashboard passes percentages, never "up" or "down", so every card reads
      "↓ No change" under a primary bar. */
  lemma DashboardShowsNoChange()
    ensures forall i :: 0 <= i < |DashboardStats| ==>
      TrendText(DashboardStats[i].trend) == "\U{2193} No change" && TopBar(DashboardStats[i].trend) == PrimaryGradient
  {
    forall i | 0 <= i < |DashboardStats|
      ensures TrendText(DashboardStats[i].trend) == "\U{2193} No change"
    {
      TrendCases(DashboardStats[i].trend);
    }
  }
}
