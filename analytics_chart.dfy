/**
 * `AnalyticsChart`: the date-relabelled series, the three-bucket pie data over
 * the audit scores, and the icon, label, colour and heading lookups.
 */
module AnalyticsChart {
  import opened Optional

  /** One point of `AnalyticsData`; JavaScript numbers are taken as exact reals. */
  datatype AnalyticsData = AnalyticsData(date: string, audits: real, score: real, vulnerabilities: real, gasOptimizations: real)

  datatype ChartType = LineChart | AreaChart | BarChart | PieChart
  datatype Metric = Audits | Score | Vulnerabilities | GasOptimizations

  /** The `type` and `metric` props' defaults. */
  const DefaultType: ChartType := LineChart
  const DefaultMetric: Metric := Audits

  // ---------------------------------------------------------------------------
  // chartData

  /**
   * `chartData`: each point with its date replaced by its display form. The
   * locale formatting of `toLocaleDateString` is the parameter `formatDate`.
   */
  function ChartData(data: seq<AnalyticsData>, formatDate: string -> string): (r: seq<AnalyticsData>)
  {
    seq(|data|, i requires 0 <= i < |data| => data[i].(date := formatDate(data[i].date)))
  }

  /** The series keeps its length and order and changes nothing but each date. */
  lemma ChartDataKeepsFields(data: seq<AnalyticsData>, formatDate: string -> string)
    ensures |ChartData(data, formatDate)| == |data|
    ensures forall i :: 0 <= i < |data| ==>
      var p := ChartData(data, formatDate)[i];
      && p.date == formatDate(data[i].date)
      && p.audits == data[i].audits
      && p.score == data[i].score
      && p.vulnerabilities == data[i].vulnerabilities
      && p.gasOptimizations == data[i].gasOptimizations
  {
  }

  // ---------------------------------------------------------------------------
  // pieData

  datatype Bucket = HighBucket | MediumBucket | LowBucket

  /** The three `filter` tests over `score`. */
  predicate InBucket(score: real, b: Bucket)
  {
    match b
    case HighBucket => score >= 80.0
    case MediumBucket => score >= 60.0 && score < 80.0
    case LowBucket => score < 60.0
  }

  /** The one bucket a score belongs to. */
  function BucketOf(score: real): Bucket
  {
    if score >= 80.0 then HighBucket else if score >= 60.0 then MediumBucket else LowBucket
  }

  /** The buckets are disjoint and cover every score. */
  lemma BucketsPartition(score: real)
    ensures forall b :: InBucket(score, b) <==> b == BucketOf(score)
  {
  }

  /** `data.filter(d => <test of b>).length`. */
  function Tally(data: seq<AnalyticsData>, b: Bucket): (n: nat)
    ensures n <= |data|
  {
    if data == [] then 0 else (if InBucket(data[0].score, b) then 1 else 0) + Tally(data[1..], b)
  }

  /** Every point is counted in exactly one bucket, so the three counts add up to the length. */
  lemma {:induction false} TallyTotal(data: seq<AnalyticsData>)
    ensures Tally(data, HighBucket) + Tally(data, MediumBucket) + Tally(data, LowBucket) == |data|
  {
    if data != [] {
      TallyTotal(data[1..]);
      BucketsPartition(data[0].score);
    }
  }

  datatype PieSlice = PieSlice(name: string, value: nat, color: string)

  /** The buckets in the order the slices list them. */
  const SliceOrder: seq<Bucket> := [HighBucket, MediumBucket, LowBucket]

  function SliceName(b: Bucket): string
  {
    match b
    case HighBucket => "High Score (80+)"
    case MediumBucket => "Medium Score (60-79)"
    case LowBucket => "Low Score (<60)"
  }

  function SliceColor(b: Bucket): string
  {
    match b
    case HighBucket => "#10b981"
    case MediumBucket => "#f59e0b"
    case LowBucket => "#ef4444"
  }

  /** `pieData`: no slices unless the chart is a pie, else one slice per bucket. */
  function PieData(data: seq<AnalyticsData>, chartType: ChartType): seq<PieSlice>
  {
    if chartType != PieChart then []
    else [SliceOf(data, HighBucket), SliceOf(data, MediumBucket), SliceOf(data, LowBucket)]
  }

  function SliceOf(data: seq<AnalyticsData>, b: Bucket): PieSlice
  {
    PieSlice(SliceName(b), Tally(data, b), SliceColor(b))
  }

  /** The sum of the slice values. */
  function SliceTotal(slices: seq<PieSlice>): nat
  {
    if slices == [] then 0 else slices[0].value + SliceTotal(slices[1..])
  }

  /**
   * The pie data is empty for other chart types; for a pie it lists High,
   * Medium and Low in that order, each slice counting its bucket, and the
   * slices together count every point once.
   */
  lemma PieDataShape(data: seq<AnalyticsData>, chartType: ChartType)
    ensures PieData(data, chartType) == [] <==> chartType != PieChart
    ensures chartType == PieChart ==>
      var slices := PieData(data, chartType);
      && |slices| == 3
      && slices[0].name == "High Score (80+)" && slices[0].color == "#10b981"
      && slices[1].name == "Medium Score (60-79)" && slices[1].color == "#f59e0b"
      && slices[2].name == "Low Score (<60)" && slices[2].color == "#ef4444"
      && (forall i :: 0 <= i < 3 ==> slices[i].value == Tally(data, SliceOrder[i]))
      && SliceTotal(slices) == |data|
  {
    if chartType == PieChart {
      var slices := PieData(data, chartType);
      TallyTotal(data);
      assert slices[1..][1..][1..] == [];
      assert SliceTotal(slices[1..][1..]) == slices[2].value;
    }
  }

  // ---------------------------------------------------------------------------
  // Lookups and heading

  datatype Icon = TrendingUpIcon | BarChartIcon | PieChartIcon | ActivityIcon

  /** `getIcon`. */
  function IconOf(chartType: ChartType): Icon
  {
    match chartType
    case BarChart => BarChartIcon
    case PieChart => PieChartIcon
    case AreaChart => ActivityIcon
    case LineChart => TrendingUpIcon
  }

  /** `getMetricLabel`. */
  function MetricLabel(metric: Metric): string
  {
    match metric
    case Score => "Average Score"
    case Vulnerabilities => "Vulnerabilities Found"
    case GasOptimizations => "Gas Optimizations"
    case Audits => "Total Audits"
  }

  /** `getColor`. */
  function MetricColor(metric: Metric): string
  {
    match metric
    case Score => "#10b981"
    case Vulnerabilities => "#ef4444"
    case GasOptimizations => "#8b5cf6"
    case Audits => "#3b82f6"
  }

  /**
   * Each chart type has its own icon and each metric its own label and colour;
   * the defaults, a line chart of audits, take the default branches.
   */
  lemma LookupsDistinct(t: ChartType, u: ChartType, m: Metric, n: Metric)
    ensures IconOf(t) == IconOf(u) <==> t == u
    ensures MetricLabel(m) == MetricLabel(n) <==> m == n
    ensures MetricColor(m) == MetricColor(n) <==> m == n
    ensures IconOf(DefaultType) == TrendingUpIcon
    ensures MetricLabel(DefaultMetric) == "Total Audits" && MetricColor(DefaultMetric) == "#3b82f6"
  {
  }

  /** `title || getMetricLabel()`: an absent or empty title falls back to the label. */
  function Heading(title: Option<string>, metric: Metric): string
  {
    if title.Some? && title.value != "" then title.value else MetricLabel(metric)
  }

  /** The heading is the title when it is non-empty, the metric label otherwise, and never empty. */
  lemma HeadingChoice(title: Option<string>, metric: Metric)
    ensures title.Some? && title.value != "" ==> Heading(title, metric) == title.value
    ensures title.None? || title.value == "" ==> Heading(title, metric) == MetricLabel(metric)
    ensures Heading(title, metric) != ""
  {
  }
}
