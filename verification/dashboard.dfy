/**
 * The pure helpers of the status dashboards (`internal/ui/dashboard.go`):
 * the ten-cell progress bar, the five-star rating, `abs`, and the threshold
 * choices of icons and colours. Styling is reduced to a colour per piece of
 * text; floats are reals, and Go's `int(...)` is truncation toward zero.
 */
module Dashboard {
  import opened Runtime

  datatype Colour = SuccessColour | WarningColour | ErrorColour | MutedColour | InfoColour

  /** Text rendered in one colour. */
  datatype Styled = Styled(colour: Colour, text: string)

  const FilledCell: char := '█'
  const EmptyCell: char := '░'
  const FullStar: char := '★'
  const HollowStar: char := '☆'

  /** Width of every bar the dashboards draw. */
  const BarWidth: int := 10

  // ---------------------------------------------------------------- bars

  function Clamp(percent: real): (c: real)
    ensures 0.0 <= c <= 1.0
    ensures 0.0 <= percent <= 1.0 ==> c == percent
    ensures percent > 1.0 ==> c == 1.0
    ensures percent < 0.0 ==> c == 0.0
  {
    if percent > 1.0 then 1.0 else if percent < 0.0 then 0.0 else percent
  }

  /** Cells filled for `percent` of `width`, before the panic check. */
  function FilledCells(percent: real, width: int): int {
    Trunc(Clamp(percent) * width as real)
  }

  /** The colour band of a clamped fraction. */
  function Band(fraction: real): (c: Colour)
    ensures c == SuccessColour <==> fraction < 0.5
    ensures c == WarningColour <==> 0.5 <= fraction < 0.8
    ensures c == ErrorColour <==> fraction >= 0.8
  {
    if fraction < 0.5 then SuccessColour
    else if fraction < 0.8 then WarningColour
    else ErrorColour
  }

  /** `[` + filled cells + empty cells + `]`, coloured by band. A negative
      width makes one of the repeat counts negative, which panics; so does a
      run of three-byte cells longer than the largest int64 in bytes. */
  function RenderProgressBar(percent: real, width: int): (r: Outcome<Styled>)
    ensures r.Panicked? <==>
              || width < 0
              || FilledCells(percent, width) > MaxInt64 / 3
              || width - FilledCells(percent, width) > MaxInt64 / 3
    ensures r.Returned? ==> |r.value.text| == width + 2
    ensures r.Returned? ==> r.value.text[0] == '[' && r.value.text[width + 1] == ']'
    ensures r.Returned? ==>
              var f := FilledCells(percent, width);
              && 0 <= f <= width
              && (forall i :: 1 <= i <= f ==> r.value.text[i] == FilledCell)
              && (forall i :: f < i <= width ==> r.value.text[i] == EmptyCell)
    ensures r.Returned? ==> r.value.colour == Band(Clamp(percent))
  {
    var filled := FilledCells(percent, width);
    FilledBounds(percent, width);
    RepeatThreeBytes(FilledCell, filled);
    RepeatThreeBytes(EmptyCell, width - filled);
    match Repeat(FilledCell, filled)
    case Panicked => Panicked
    case Returned(full) =>
      match Repeat(EmptyCell, width - filled)
      case Panicked => Panicked
      case Returned(rest) => Returned(Styled(Band(Clamp(percent)), Bracket(full, rest)))
  }

  /** A bar no wider than a third of the largest int64 never panics. */
  lemma BarWithinLimitReturns(percent: real, width: int)
    requires 0 <= width <= MaxInt64 / 3
    ensures RenderProgressBar(percent, width).Returned?
  {
    FilledBounds(percent, width);
  }

  /** `"[" + full + rest + "]"`, position by position. */
  function Bracket(full: string, rest: string): (t: string)
    ensures |t| == |full| + |rest| + 2
    ensures t[0] == '[' && t[|full| + |rest| + 1] == ']'
    ensures forall i :: 1 <= i <= |full| ==> t[i] == full[i - 1]
    ensures forall i :: |full| < i <= |full| + |rest| ==> t[i] == rest[i - 1 - |full|]
  {
    "[" + full + rest + "]"
  }

  /** The filled count lies between 0 and a non-negative width, and
      between the width and 0 for a negative one. */
  lemma FilledBounds(percent: real, width: int)
    ensures width >= 0 ==> 0 <= FilledCells(percent, width) <= width
    ensures width < 0 ==> width <= FilledCells(percent, width) <= 0
  {
    var p := Clamp(percent);
    var w := width as real;
    if width >= 0 {
      MulNonNegative(p, w);
      MulNonNegative(1.0 - p, w);
      assert w - p * w == (1.0 - p) * w;
    } else {
      MulNonNegative(p, -w);
      MulNonNegative(1.0 - p, -w);
      assert p * w - w == (1.0 - p) * (-w);
      assert p * w == -(p * (-w));
      assert Trunc(p * w) as real >= p * w;
    }
  }

  /** More load never fills fewer cells. */
  lemma FilledCellsMonotone(p: real, q: real, width: int)
    requires p <= q && width >= 0
    ensures FilledCells(p, width) <= FilledCells(q, width)
  {
    var a, b := Clamp(p), Clamp(q);
    var w := width as real;
    MulNonNegative(b - a, w);
    assert b * w - a * w == (b - a) * w;
    MulNonNegative(a, w);
  }

  lemma MulNonNegative(x: real, y: real)
    requires 0.0 <= x && 0.0 <= y
    ensures 0.0 <= x * y
  {
  }

  /** A full load fills every cell and an empty one none. */
  lemma FilledCellsAtExtremes(percent: real, width: int)
    requires width >= 0
    ensures percent >= 1.0 ==> FilledCells(percent, width) == width
    ensures percent <= 0.0 ==> FilledCells(percent, width) == 0
  {
  }

  /** `bar` is the ten-cell bar of `fraction`: cell `i` (1 to 10) is filled
      exactly when the fraction reaches `i` tenths, and the colour is green
      below one half, amber below four fifths and red from there on. */
  predicate ShowsFraction(bar: Styled, fraction: real) {
    && |bar.text| == BarWidth + 2
    && bar.text[0] == '[' && bar.text[BarWidth + 1] == ']'
    && (forall i :: 1 <= i <= BarWidth ==>
          bar.text[i] == (if i as real / 10.0 <= fraction then FilledCell else EmptyCell))
    && (bar.colour == SuccessColour <==> fraction < 0.5)
    && (bar.colour == WarningColour <==> 0.5 <= fraction < 0.8)
    && (bar.colour == ErrorColour <==> fraction >= 0.8)
  }

  /** Cell `i` of a ten-cell bar is filled exactly when the fraction reaches
      `i` tenths, whatever the fraction, clamped or not. */
  lemma TenthFilled(fraction: real, i: int)
    requires 1 <= i <= BarWidth
    ensures i <= FilledCells(fraction, BarWidth) <==> i as real / 10.0 <= fraction
  {
    var c := Clamp(fraction);
    var n := FilledCells(fraction, BarWidth);
    assert n == Trunc(c * 10.0);
    if fraction > 1.0 {
      assert n == 10;
    } else if fraction < 0.0 {
      assert n == 0;
    } else {
      assert n as real <= c * 10.0 < n as real + 1.0;
    }
  }

  /** Every bar of width ten shows its fraction, cell by cell and in colour. */
  lemma {:induction false} TenCellBar(fraction: real)
    ensures RenderProgressBar(fraction, BarWidth).Returned?
    ensures ShowsFraction(RenderProgressBar(fraction, BarWidth).value, fraction)
  {
    var bar := RenderProgressBar(fraction, BarWidth).value;
    forall i | 1 <= i <= BarWidth
      ensures bar.text[i] == (if i as real / 10.0 <= fraction then FilledCell else EmptyCell)
    {
      TenthFilled(fraction, i);
    }
  }

  /** The queue-depth bar: one cell per five queued jobs, full at 50, amber
      from 25 and red from 40 queued jobs. */
  function RenderQueueBar(queueDepth: int): (r: Outcome<Styled>)
    ensures r.Returned? && ShowsFraction(r.value, queueDepth as real / 50.0)
    ensures forall i :: 1 <= i <= BarWidth ==> (r.value.text[i] == FilledCell <==> 5 * i <= queueDepth)
    ensures r.value.colour == SuccessColour <==> queueDepth < 25
    ensures r.value.colour == WarningColour <==> 25 <= queueDepth < 40
    ensures r.value.colour == ErrorColour <==> queueDepth >= 40
  {
    TenCellBar(queueDepth as real / 50.0);
    RenderProgressBar(queueDepth as real / 50.0, BarWidth)
  }

  /** The GPU, CPU, RAM and disk bars, from utilisation in percent: each
      shows its percentage out of 100 and never panics. */
  function RenderHardwareBars(gpu: real, cpu: real, ram: real, disk: real): (r: seq<Outcome<Styled>>)
    ensures |r| == 4
    ensures forall i :: 0 <= i < 4 ==> r[i].Returned? && ShowsFraction(r[i].value, [gpu, cpu, ram, disk][i] / 100.0)
  {
    TenCellBar(gpu / 100.0);
    TenCellBar(cpu / 100.0);
    TenCellBar(ram / 100.0);
    TenCellBar(disk / 100.0);
    [RenderProgressBar(gpu / 100.0, BarWidth), RenderProgressBar(cpu / 100.0, BarWidth),
     RenderProgressBar(ram / 100.0, BarWidth), RenderProgressBar(disk / 100.0, BarWidth)]
  }

  // --------------------------------------------------------------- stars

  /** The star counts before the panic check: full stars, whether a half
      star follows, and the empty stars after it. */
  datatype StarCounts = StarCounts(full: int, half: bool, empty: int)

  function StarSplit(score: real, maxScore: real): (s: StarCounts)
    requires maxScore != 0.0
    ensures s.full + (if s.half then 1 else 0) + s.empty == 5
  {
    var rating := (score / maxScore) * 5.0;
    var full := Trunc(rating);
    var half := rating - full as real >= 0.5;
    StarCounts(full, half, if half then 5 - full - 1 else 5 - full)
  }

  /** The five-star rating of `score` out of `maxScore`. The half star is
      drawn with the same glyph as an empty one. A negative full or empty
      count panics in the repeat. */
  function RenderStars(score: real, maxScore: real): (r: Outcome<Styled>)
    requires maxScore != 0.0
    ensures var s := StarSplit(score, maxScore);
            r.Panicked? <==> s.full < 0 || s.empty < 0
    ensures r.Returned? ==> |r.value.text| == 5 && r.value.colour == WarningColour
    ensures r.Returned? ==>
              var s := StarSplit(score, maxScore);
              && (forall i :: 0 <= i < s.full ==> r.value.text[i] == FullStar)
              && (forall i :: s.full <= i < 5 ==> r.value.text[i] == HollowStar)
  {
    var s := StarSplit(score, maxScore);
    match Repeat(FullStar, s.full)
    case Panicked => Panicked
    case Returned(full) =>
      var withHalf := if s.half then full + [HollowStar] else full;
      match Repeat(HollowStar, s.empty)
      case Panicked => Panicked
      case Returned(rest) =>
        var text := withHalf + rest;
        assert forall i :: 0 <= i < s.full ==> text[i] == full[i];
        assert forall i :: |withHalf| <= i < 5 ==> text[i] == rest[i - |withHalf|];
        Returned(Styled(WarningColour, text))
  }

  /** A score between zero and a positive maximum always renders five stars
      without panicking. */
  lemma StarsWellFormed(score: real, maxScore: real)
    requires 0.0 < maxScore && 0.0 <= score <= maxScore
    ensures RenderStars(score, maxScore).Returned?
    ensures 0 <= StarSplit(score, maxScore).full <= 5
  {
    var q := score / maxScore;
    assert q * maxScore == score;
    assert 0.0 <= q <= 1.0;
    var rating := q * 5.0;
    assert 0.0 <= rating <= 5.0;
    if Trunc(rating) == 5 {
      assert rating == 5.0;
    }
  }

  /** The rating panics exactly when the score is at most minus a fifth of
      the maximum (a negative full count) or at least 1.1 times it (five
      full stars and a half, or six, leave a negative empty count). */
  lemma StarsPanicExactly(score: real, maxScore: real)
    requires maxScore != 0.0
    ensures RenderStars(score, maxScore).Panicked? <==> score / maxScore <= -0.2 || score / maxScore >= 1.1
  {
    var q := score / maxScore;
    var rating := q * 5.0;
    assert (score / maxScore) * 5.0 == rating;
  }

  /** A score above the maximum can panic: 11 out of 10 is 5.5 stars, five
      full plus a half, leaving minus one empty star. */
  lemma StarsAboveMaximumPanic()
    ensures StarSplit(11.0, 10.0) == StarCounts(5, true, -1)
    ensures RenderStars(11.0, 10.0).Panicked?
  {
    assert (11.0 / 10.0) * 5.0 == 5.5;
  }

  /** A negative score can panic too: -3 out of 10 truncates to -1 full stars. */
  lemma StarsBelowZeroPanic()
    ensures RenderStars(-3.0, 10.0).Panicked?
  {
    assert (-3.0 / 10.0) * 5.0 == -1.5;
  }

  // ------------------------------------------------------ small selectors

  function Abs(x: real): (r: real)
    ensures r >= 0.0
    ensures r == x || r == -x
    ensures x >= 0.0 ==> r == x
  {
    if x < 0.0 then -x else x
  }

  datatype Arrow = UpArrow | DownArrow

  /** Spending trend: rising costs are bad news. */
  function CreditsTrend(trendPercent: real): (r: (Arrow, Colour))
    ensures r.0 == UpArrow <==> trendPercent > 0.0
    ensures r.1 == (if r.0 == UpArrow then ErrorColour else SuccessColour)
  {
    if trendPercent > 0.0 then (UpArrow, ErrorColour) else (DownArrow, SuccessColour)
  }

  /** Earnings trend: falling earnings are bad news. */
  function EarningsTrend(weekTrend: real): (r: (Arrow, Colour))
    ensures r.0 == DownArrow <==> weekTrend < 0.0
    ensures r.1 == (if r.0 == DownArrow then ErrorColour else SuccessColour)
  {
    if weekTrend < 0.0 then (DownArrow, ErrorColour) else (UpArrow, SuccessColour)
  }

  /** Away from zero both trends point the same way in opposite colours; at
      zero spending shows a fall and earnings a rise. */
  lemma TrendsDifferOnlyAtZero(x: real)
    ensures x != 0.0 ==> CreditsTrend(x).0 == EarningsTrend(x).0 && CreditsTrend(x).1 != EarningsTrend(x).1
    ensures x == 0.0 ==> CreditsTrend(x) == (DownArrow, SuccessColour) && EarningsTrend(x) == (UpArrow, SuccessColour)
  {
  }

  /** GPU temperature colour: the second threshold overrides the first. */
  function TemperatureColour(gpu: real): (c: Colour)
    ensures c == ErrorColour <==> gpu > 85.0
    ensures c == WarningColour <==> 75.0 < gpu <= 85.0
    ensures c == SuccessColour <==> gpu <= 75.0
  {
    var c := if gpu > 75.0 then WarningColour else SuccessColour;
    if gpu > 85.0 then ErrorColour else c
  }

  function Severity(c: Colour): nat {
    match c
    case ErrorColour => 2
    case WarningColour => 1
    case _ => 0
  }

  /** A hotter GPU is never shown in a milder colour. */
  lemma TemperatureMonotone(t: real, u: real)
    requires t <= u
    ensures Severity(TemperatureColour(t)) <= Severity(TemperatureColour(u))
  {
  }

  /** Status icon of a served model. */
  function ServedStatusIcon(status: string): (r: Styled)
    ensures status == "warning" <==> r == Styled(WarningColour, "⚠")
    ensures status == "idle" <==> r == Styled(MutedColour, "○")
    ensures status != "warning" && status != "idle" <==> r == Styled(SuccessColour, "✓")
  {
    if status == "warning" then Styled(WarningColour, "⚠")
    else if status == "idle" then Styled(MutedColour, "○")
    else Styled(SuccessColour, "✓")
  }

  /** Icon of an alert. Warnings and unknown levels share the arrow and
      differ only in colour. */
  function AlertIcon(level: string): (r: Styled)
    ensures r.text == "→" <==> level != "error" && level != "info"
    ensures level == "warning" ==> r.colour == WarningColour
    ensures level == "error" <==> r == Styled(ErrorColour, "✗")
    ensures level == "info" <==> r == Styled(SuccessColour, "✓")
    ensures level !in {"warning", "error", "info"} ==> r == Styled(InfoColour, "→")
  {
    if level == "warning" then Styled(WarningColour, "→")
    else if level == "error" then Styled(ErrorColour, "✗")
    else if level == "info" then Styled(SuccessColour, "✓")
    else Styled(InfoColour, "→")
  }

  // ------------------------------------------------------------ listings

  /** A list section: a placeholder line, or one row per item. */
  datatype Listing<T> = Placeholder(text: string) | Rows(rows: seq<T>)

  datatype ModelUsage = ModelUsage(name: string, requestsToday: int, weekAvg: real, avgLatencyMs: int, creditsSpent: real)

  datatype ModelServed = ModelServed(name: string, requests: int, avgLatencyMs: int, revenue: real, status: string)

  datatype ServedRow = ServedRow(icon: Styled, name: string, requests: int, avgLatencyMs: int, revenue: real)

  datatype Alert = Alert(level: string, message: string)

  datatype AlertRow = AlertRow(icon: Styled, message: string)

  /** The developer's model table (below a header row). */
  function RenderModelTable(models: seq<ModelUsage>): (r: Listing<ModelUsage>)
    ensures r.Placeholder? <==> |models| == 0
    ensures r.Placeholder? ==> r.text == "No inference activity yet"
    ensures r.Rows? ==> r.rows == models
  {
    if |models| == 0 then Placeholder("No inference activity yet") else Rows(models)
  }

  /** The operator's served-models list, one row per model in order. */
  function RenderModelsServed(models: seq<ModelServed>): (r: Listing<ServedRow>)
    ensures r.Placeholder? <==> |models| == 0
    ensures r.Placeholder? ==> r.text == "No models being served"
    ensures r.Rows? ==> |r.rows| == |models|
    ensures r.Rows? ==> forall i :: 0 <= i < |models| ==>
              && r.rows[i].icon == ServedStatusIcon(models[i].status)
              && r.rows[i].name == models[i].name
              && r.rows[i].requests == models[i].requests
              && r.rows[i].avgLatencyMs == models[i].avgLatencyMs
              && r.rows[i].revenue == models[i].revenue
  {
    if |models| == 0 then Placeholder("No models being served")
    else Rows(seq(|models|, i requires 0 <= i < |models| =>
                  ServedRow(ServedStatusIcon(models[i].status), models[i].name, models[i].requests,
                            models[i].avgLatencyMs, models[i].revenue)))
  }

  /** The alert lines, one per alert in order. */
  function RenderAlerts(alerts: seq<Alert>): (r: seq<AlertRow>)
    ensures |r| == |alerts|
    ensures forall i :: 0 <= i < |alerts| ==> r[i] == AlertRow(AlertIcon(alerts[i].level), alerts[i].message)
  {
    seq(|alerts|, i requires 0 <= i < |alerts| => AlertRow(AlertIcon(alerts[i].level), alerts[i].message))
  }

  datatype Section =
    | InferenceMetrics | CreditsUsage | Performance | SmartInsights | NetworkHealth
    | EarningsContribution | RevenueBreakdown | Workload | HardwareUtilization | ModelsServed
    | NetworkParticipation | AlertsOptimization | QuickActions

  /** Sections of the developer dashboard, in order; insights only when there are some. */
  function DeveloperSections(insights: seq<string>): (r: seq<Section>)
    ensures |r| >= 5
    ensures SmartInsights in r <==> |insights| > 0
    ensures r[0] == InferenceMetrics && r[|r| - 1] == QuickActions
    ensures |insights| == 0 ==> r == [InferenceMetrics, CreditsUsage, Performance, NetworkHealth, QuickActions]
    ensures |insights| > 0 ==>
              r == [InferenceMetrics, CreditsUsage, Performance, SmartInsights, NetworkHealth, QuickActions]
  {
    [InferenceMetrics, CreditsUsage, Performance]
      + (if |insights| > 0 then [SmartInsights] else [])
      + [NetworkHealth, QuickActions]
  }

  /** Sections of the operator dashboard, in order; alerts only when there are some. */
  function OperatorSections(alerts: seq<Alert>): (r: seq<Section>)
    ensures |r| >= 7
    ensures AlertsOptimization in r <==> |alerts| > 0
    ensures r[0] == EarningsContribution && r[|r| - 1] == QuickActions
    ensures |alerts| == 0 ==>
              r == [EarningsContribution, RevenueBreakdown, Workload, HardwareUtilization, ModelsServed,
                    NetworkParticipation, QuickActions]
    ensures |alerts| > 0 ==>
              r == [EarningsContribution, RevenueBreakdown, Workload, HardwareUtilization, ModelsServed,
                    NetworkParticipation, AlertsOptimization, QuickActions]
  {
    [EarningsContribution, RevenueBreakdown, Workload, HardwareUtilization, ModelsServed, NetworkParticipation]
      + (if |alerts| > 0 then [AlertsOptimization] else [])
      + [QuickActions]
  }
}
