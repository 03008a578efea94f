/**
 * `AuditReport`: the report id taken from the route, the severity colour and
 * icon lookups, the summary counts, and the token id shown on the NFT panel.
 */
module AuditReport {
  import opened Optional
  import opened JsText

  datatype Vulnerability = Vulnerability(id: int, severity: string, title: string, description: string, line: int, recommendation: string)

  datatype GasOptimization = GasOptimization(id: int, title: string, description: string, currentGas: string, optimizedGas: string, savings: string)

  /** `auditData` without its sample source text. */
  datatype AuditData = AuditData(
    id: string,
    projectName: string,
    score: int,
    status: string,
    date: string,
    vulnerabilities: seq<Vulnerability>,
    gasOptimizations: seq<GasOptimization>,
    codeToIntentMatch: int)

  /** The id used when the route has none. */
  const NewAuditId: string := "audit-new"

  /** `id || "audit-new"`: an absent or empty route parameter falls back to the new audit. */
  function ReportId(param: Option<string>): string
  {
    if param.Some? && param.value != "" then param.value else NewAuditId
  }

  /** The sample findings of the report. */
  const MockVulnerabilities: seq<Vulnerability> := [
    Vulnerability(1, "High", "Reentrancy Vulnerability",
      "The withdraw function is susceptible to reentrancy attacks. The external call should be made after updating the internal state.",
      45, "Use the checks-effects-interactions pattern or implement a reentrancy guard."),
    Vulnerability(2, "Medium", "Unchecked Return Value",
      "The transfer function return value is not checked, which could lead to silent failures.",
      78, "Always check return values of external calls and handle failures appropriately."),
    Vulnerability(3, "Low", "Missing Event Emission",
      "Important state changes should emit events for transparency and monitoring.",
      120, "Add event emissions for critical operations like deposits and withdrawals.")]

  /** The sample gas optimisations of the report. */
  const MockGasOptimizations: seq<GasOptimization> := [
    GasOptimization(1, "Loop Optimization",
      "The loop in calculateInterest can be optimized to reduce gas consumption.", "45,000", "32,000", "28.9%"),
    GasOptimization(2, "Storage Optimization",
      "Pack struct variables to reduce storage slots.", "20,000", "15,000", "25%")]

  /** The sample report every id is shown with. */
  function MockReport(param: Option<string>): AuditData
  {
    AuditData(ReportId(param), "DeFi Lending Protocol", 92, "completed", "2024-01-15",
      MockVulnerabilities, MockGasOptimizations, 95)
  }

  // ---------------------------------------------------------------------------
  // Severity lookups

  datatype SeverityIcon = AlertTriangleIcon | ZapIcon | CheckCircleIcon | ShieldIcon

  /** `getSeverityColor`: a switch on the lower-cased severity. */
  function SeverityColor(severity: string): string
  {
    var s := ToLower(severity);
    if s == "high" then "bg-destructive/20 text-destructive border-destructive/30"
    else if s == "medium" then "bg-warning/20 text-warning border-warning/30"
    else if s == "low" then "bg-accent/20 text-accent border-accent/30"
    else "bg-muted/20 text-muted-foreground border-muted/30"
  }

  /** `getSeverityIcon`: the same switch, choosing an icon. */
  function SeverityIconOf(severity: string): SeverityIcon
  {
    var s := ToLower(severity);
    if s == "high" then AlertTriangleIcon
    else if s == "medium" then ZapIcon
    else if s == "low" then CheckCircleIcon
    else ShieldIcon
  }

  /**
   * Severities that differ only in the case of their letters look alike, and
   * the colour and the icon always tell the same severities apart.
   */
  lemma SeverityCaseInsensitive(a: string, b: string)
    requires ToLower(a) == ToLower(b)
    ensures SeverityColor(a) == SeverityColor(b)
    ensures SeverityIconOf(a) == SeverityIconOf(b)
  {
  }

  /** The colour and the icon split the severities the same way. */
  lemma SeverityColorMatchesIcon(a: string, b: string)
    ensures SeverityColor(a) == SeverityColor(b) <==> SeverityIconOf(a) == SeverityIconOf(b)
  {
  }

  /** Any spelling of "high" is drawn as high, and a severity outside the three gets the muted default. */
  lemma SeverityExamples()
    ensures SeverityColor("High") == SeverityColor("HIGH") == SeverityColor("high")
    ensures SeverityIconOf("High") == AlertTriangleIcon
    ensures SeverityColor("Critical") == "bg-muted/20 text-muted-foreground border-muted/30"
    ensures SeverityIconOf("Critical") == ShieldIcon
  {
    assert ToLower("High") == "high" && ToLower("HIGH") == "high";
    assert ToLower("Critical") == "critical";
  }

  // ---------------------------------------------------------------------------
  // Summary counts

  /** `vulnerabilities.filter(v => v.severity === severity).length`: an exact, case-sensitive match. */
  function CountSeverity(vs: seq<Vulnerability>, severity: string): (n: nat)
    ensures n <= |vs|
  {
    if vs == [] then 0 else (if vs[0].severity == severity then 1 else 0) + CountSeverity(vs[1..], severity)
  }

  /** A severity the summary counts. */
  predicate Summarised(severity: string)
  {
    severity == "High" || severity == "Medium" || severity == "Low"
  }

  /**
   * The three summary counts never exceed "Issues Found", and they reach it
   * exactly when every severity is spelt "High", "Medium" or "Low".
   */
  lemma {:induction false} SummaryBound(vs: seq<Vulnerability>)
    ensures CountSeverity(vs, "High") + CountSeverity(vs, "Medium") + CountSeverity(vs, "Low") <= |vs|
    ensures CountSeverity(vs, "High") + CountSeverity(vs, "Medium") + CountSeverity(vs, "Low") == |vs|
      <==> forall i :: 0 <= i < |vs| ==> Summarised(vs[i].severity)
  {
    if vs != [] {
      SummaryBound(vs[1..]);
      assert forall i :: 1 <= i < |vs| ==> vs[i] == vs[1..][i - 1];
    }
  }

  /** The "Issues Found" figure and the "Audit Summary" card. */
  datatype Summary = Summary(issuesFound: nat, high: nat, medium: nat, low: nat, gasOptimizations: nat)

  function SummaryOf(d: AuditData): Summary
  {
    Summary(|d.vulnerabilities|,
      CountSeverity(d.vulnerabilities, "High"),
      CountSeverity(d.vulnerabilities, "Medium"),
      CountSeverity(d.vulnerabilities, "Low"),
      |d.gasOptimizations|)
  }

  /** The card's severity rows add up to at most the issues found, and the gas row is the list length. */
  lemma SummaryConsistent(d: AuditData)
    ensures var s := SummaryOf(d);
      && s.high + s.medium + s.low <= s.issuesFound
      && (s.high + s.medium + s.low == s.issuesFound <==>
          forall i :: 0 <= i < |d.vulnerabilities| ==> Summarised(d.vulnerabilities[i].severity))
      && s.gasOptimizations == |d.gasOptimizations|
  {
    SummaryBound(d.vulnerabilities);
  }

  /** A "high" entry is drawn with the high colour yet left out of the "High Severity" count. */
  lemma LowerCaseNotCounted(v: Vulnerability)
    requires v.severity == "high"
    ensures SeverityColor(v.severity) == SeverityColor("High")
    ensures CountSeverity([v], "High") == 0
  {
    assert ToLower("High") == "high";
  }

  // ---------------------------------------------------------------------------
  // Token id

  /** `"#SS-" + id.substring(6)`. */
  function TokenId(id: string): string
  {
    "#SS-" + Substring(id, 6)
  }

  /** An id "audit-x" gives "#SS-x"; so the new audit is "#SS-new" and an id of six characters or fewer gives "#SS-". */
  lemma TokenIdText(x: string, id: string)
    ensures TokenId("audit-" + x) == "#SS-" + x
    ensures TokenId(ReportId(None)) == "#SS-new"
    ensures TokenId(ReportId(Some(""))) == "#SS-new"
    ensures |id| <= 6 ==> TokenId(id) == "#SS-"
  {
    assert ("audit-" + x)[6..] == x;
    assert NewAuditId == "audit-" + "new";
    assert NewAuditId[6..] == "new";
  }

  /** The sample report: three issues, one of each summarised severity, and two gas optimisations. */
  lemma MockReportFacts(param: Option<string>)
    ensures SummaryOf(MockReport(param)) == Summary(3, 1, 1, 1, 2)
    ensures MockReport(param).id == ReportId(param) && MockReport(param).score == 92
  {
    var vs := MockVulnerabilities;
    assert vs[0].severity == "High" && vs[1].severity == "Medium" && vs[2].severity == "Low";
    assert vs[1..][1..][1..] == [];
    assert CountSeverity(vs[1..][1..], "Low") == 1;
    assert CountSeverity(vs[1..][1..], "High") == 0 && CountSeverity(vs[1..][1..], "Medium") == 0;
    assert CountSeverity(vs[1..], "Medium") == 1 && CountSeverity(vs[1..], "High") == 0;
  }
}
