/** The danger indicator of an alert card (Views/HomeView.swift,
    `dangerStatusBar`): a severity string picks a number of bars and a tint,
    and five bars are drawn, the first ones tinted. Layout is not modelled. */
module Home {

  /** The tint chosen by the severity switch. */
  datatype Tint = Red | Orange | Yellow | Green | Clear

  /** How one bar is filled: with the tint, or with the grey `#D9D9D9`. */
  datatype BarFill = Tinted(tint: Tint) | Grey

  /** The number of bars drawn, `ForEach(0..<5)`. */
  const BarSlots: nat := 5

  /** `numberOfBars`: the case-sensitive severity switch. */
  function NumberOfBars(danger: string): (n: nat)
    ensures n <= 4
    ensures n == 0 <==> danger !in {"critical", "high", "medium", "low"}
  {
    if danger == "critical" then 4
    else if danger == "high" then 3
    else if danger == "medium" then 2
    else if danger == "low" then 1
    else 0
  }

  /** `barColor`: the tint from the same switch. */
  function BarColor(danger: string): (t: Tint)
    ensures t == Clear <==> NumberOfBars(danger) == 0
  {
    if danger == "critical" then Red
    else if danger == "high" then Orange
    else if danger == "medium" then Yellow
    else if danger == "low" then Green
    else Clear
  }

  /** How many bars of `bars` are tinted. */
  function TintedCount(bars: seq<BarFill>): (n: nat)
    ensures n <= |bars|
  {
    if bars == [] then 0 else (if bars[0].Tinted? then 1 else 0) + TintedCount(bars[1..])
  }

  /** A run of `k` tinted bars followed by grey ones has `k` tinted bars. */
  lemma {:induction false} TintedPrefixCount(bars: seq<BarFill>, k: nat)
    requires k <= |bars|
    requires forall i :: 0 <= i < |bars| ==> (bars[i].Tinted? <==> i < k)
    ensures TintedCount(bars) == k
  {
    if bars != [] {
      TintedPrefixCount(bars[1..], if k == 0 then 0 else k - 1);
    }
  }

  /** The five bars, bar `i` tinted when `i < numberOfBars`: exactly five
      bars for every input; the tinted ones form a prefix whose length is
      `numberOfBars`, all in the switch's tint, and the last bar is always
      grey. */
  function Bars(danger: string): (bars: seq<BarFill>)
    ensures |bars| == BarSlots
    ensures forall i :: 0 <= i < BarSlots ==> (bars[i].Tinted? <==> i < NumberOfBars(danger))
    ensures forall i :: 0 <= i < BarSlots && bars[i].Tinted? ==> bars[i].tint == BarColor(danger) != Clear
    ensures TintedCount(bars) == NumberOfBars(danger)
    ensures bars[BarSlots - 1] == Grey
  {
    var bars := seq(BarSlots, i => if i < NumberOfBars(danger) then Tinted(BarColor(danger)) else Grey);
    TintedPrefixCount(bars, NumberOfBars(danger));
    bars
  }

  /** The severities an alert can carry, in increasing order. */
  datatype Severity = Low | Medium | High | Critical

  /** The wire string of a severity. */
  function SeverityString(s: Severity): string
  {
    match s
    case Low => "low"
    case Medium => "medium"
    case High => "high"
    case Critical => "critical"
  }

  function SeverityRank(s: Severity): nat
  {
    match s
    case Low => 1
    case Medium => 2
    case High => 3
    case Critical => 4
  }

  /** Every severity string lights as many bars as its rank, so the count
      strictly increases along low < medium < high < critical. */
  lemma BarsFollowSeverity(s: Severity, t: Severity)
    ensures NumberOfBars(SeverityString(s)) == SeverityRank(s)
    ensures SeverityRank(s) < SeverityRank(t) ==>
              NumberOfBars(SeverityString(s)) < NumberOfBars(SeverityString(t))
  {
  }

  /** The switch is case-sensitive: capitalised severities light no bar. */
  lemma CapitalisedSeveritiesLightNothing()
    ensures NumberOfBars("Critical") == 0 && NumberOfBars("High") == 0
    ensures NumberOfBars("Medium") == 0 && NumberOfBars("Low") == 0
  {
  }
}
