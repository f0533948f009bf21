/** The report generator of core/report_gen.py: a store of four record
    lists that only grow, and the Markdown sections rendered from them.

    Each section is specified by a function of the store's lists; the
    generator's methods build the same text step by step, as the tool does,
    and are proved to produce exactly the specified text. The fixed text
    the tool writes between the values it fills in (headings, labels,
    boilerplate paragraphs) is gathered in a `Wording` record, and
    `StandardWording` holds the tool's own text verbatim; the generator is
    built with it. Dates and timestamps, which the tool reads from the
    clock, are parameters. */
module Report {
  import opened Wrappers
  import opened Strings
  import opened Findings
  import opened Logging
  import Workspace

  // ---------------------------------------------------------------- fixed text

  /** The fixed text of the executive summary, in the order it is written. */
  datatype SummaryWording = SummaryWording(
    opening: string, totalLabel: string, criticalLabel: string, highLabel: string,
    mediumLabel: string, lowLabel: string, riskHeading: string,
    criticalRiskLead: string, criticalRiskText: string,
    highRiskLead: string, highRiskText: string,
    recommendations: string)

  /** The fixed text of the scope section. */
  datatype ScopeWording = ScopeWording(
    startLabel: string, endLabel: string, durationLabel: string, inScopeHeading: string,
    outOfScopeHeading: string, methodology: string)

  /** The fixed text of the findings section. */
  datatype FindingsWording = FindingsWording(
    noFindings: string, summaryTableHead: string, tableEnd: string,
    findingHeading: string, severityLabel: string, cvssLabel: string, cveLabel: string,
    affectedLabel: string, descriptionLabel: string, impactLabel: string,
    proofLabel: string, proofEnd: string, remediationLabel: string, findingRule: string)

  /** The fixed text of the appendix. */
  datatype AppendixWording = AppendixWording(
    toolsHeading: string, defaultTools: seq<string>, credentialsHead: string,
    screenshotsHeading: string, descriptionLabel: string, timestampLabel: string,
    referencesHeading: string, references: string)

  /** The fixed text of the report around its sections, of the conclusion
      and of the templates of `quick_finding`. */
  datatype ReportWording = ReportWording(
    clientLabel: string, typeLabel: string, dateLabel: string, contents: string,
    sectionRule: string, conclusionHeading: string,
    revealedLead: string, priorityActions: string, noSignificantFindings: string,
    defaultInScope: seq<string>, defaultOutScope: seq<string>,
    stepsLabel: string, commandsLabel: string, resultLabel: string,
    impactLead: string, impactText: string)

  datatype Wording = Wording(
    summary: SummaryWording, scope: ScopeWording, findings: FindingsWording,
    appendix: AppendixWording, report: ReportWording)

  /** The tool's own text, verbatim. */
  function StandardWording(): Wording {
    Wording(StandardSummary(), StandardScope(), StandardFindings(), StandardAppendix(), StandardReport())
  }

  /** The tool's own text of the executive summary. */
  function StandardSummary(): SummaryWording {
    SummaryWording(
      "## EXECUTIVE SUMMARY\n\nA comprehensive penetration test was conducted against the target environment from ",
      ".\n\n### Key Findings\n\n**Total Vulnerabilities Identified: ",
      "**\n\n- **Critical:** ",
      " findings\n- **High:** ",
      " findings\n- **Medium:** ",
      " findings\n- **Low:** ",
      " findings\n\n### Risk Assessment\n\n",
      "\U{26A0}\U{FE0F} **CRITICAL RISK**: ",
      " critical vulnerabilities require immediate attention. These vulnerabilities pose severe risk to the organization and could lead to complete system compromise, data breach, or significant operational impact.\n\n",
      "\U{26A0}\U{FE0F} **HIGH RISK**: ",
      " high-severity vulnerabilities were identified. These should be addressed within 30 days to prevent potential exploitation.\n\n",
      "### Recommendations\n\n**Immediate Actions (0-7 days):**\n- Address all critical vulnerabilities\n- Change all default credentials\n- Implement emergency patches\n\n**Short-term Actions (7-30 days):**\n- Remediate high-severity findings\n- Implement Web Application Firewall (WAF)\n- Deploy multi-factor authentication (MFA)\n\n**Long-term Actions (30-90 days):**\n- Establish vulnerability management program\n- Conduct security awareness training\n- Implement regular penetration testing schedule\n\n")
  }

  /** The tool's own text of the scope section. */
  function StandardScope(): ScopeWording {
    ScopeWording(
      "## SCOPE AND METHODOLOGY\n\n### Testing Timeline\n\n- **Start Date:** ",
      "\n- **End Date:** ",
      "\n- **Total Duration:** ",
      " systems tested\n\n### In Scope\n\n",
      "\n### Out of Scope\n\n",
      "\n### Methodology\n\nThe assessment followed industry-standard penetration testing methodologies including:\n\n- **OWASP Testing Guide** - Web application security testing\n- **PTES** (Penetration Testing Execution Standard)\n- **NIST SP 800-115** - Technical Guide to Information Security Testing\n\n#### Testing Phases\n\n1. **Reconnaissance**\n   - Network discovery and enumeration\n   - Service identification and fingerprinting\n   - Web application mapping\n\n2. **Vulnerability Assessment**\n   - Automated vulnerability scanning\n   - Manual security testing\n   - Configuration review\n\n3. **Exploitation**\n   - Proof-of-concept development\n   - Controlled exploitation of vulnerabilities\n   - Privilege escalation attempts\n\n4. **Post-Exploitation**\n   - Credential harvesting\n   - Lateral movement testing\n   - Impact assessment\n\n5. **Reporting**\n   - Comprehensive documentation\n   - Risk analysis\n   - Remediation recommendations\n\n")
  }

  /** The tool's own text of the findings section. */
  function StandardFindings(): FindingsWording {
    FindingsWording(
      NoFindingsMessage(),
      "## TECHNICAL FINDINGS\n\n### Findings Summary\n\n| # | Severity | Vulnerability | Affected Systems |\n|---|----------|---------------|------------------|\n",
      "\n---\n\n",
      "### Finding #",
      "**Severity:** ",
      "**CVSS Score:** ",
      "**CVE:** ",
      "**Affected Systems:**\n\n",
      "\n**Description:**\n\n",
      "**Impact:**\n\n",
      "**Proof of Concept:**\n\n```\n",
      "\n```\n\n",
      "**Remediation:**\n\n",
      "---\n\n")
  }

  /** The tool's own text of the appendix. */
  function StandardAppendix(): AppendixWording {
    AppendixWording(
      "## APPENDICES\n\n### Appendix A: Tools Used\n\n",
      DefaultTools(),
      "\n### Appendix B: Discovered Credentials\n\n| System | Service | Username | Password | Notes |\n|--------|---------|----------|----------|-------|\n",
      "\n### Appendix C: Screenshots\n\n",
      "- Description: ",
      "- Timestamp: ",
      "\n### Appendix D: References\n\n",
      "- OWASP Top 10: https://owasp.org/www-project-top-ten/\n- CWE Top 25: https://cwe.mitre.org/top25/\n- NIST Cybersecurity Framework: https://www.nist.gov/cyberframework\n- SANS Top 25 Software Errors: https://www.sans.org/top25-software-errors/\n- CVE Database: https://cve.mitre.org/\n\n")
  }

  /** The tool's own text of the report frame, conclusion and `quick_finding` templates. */
  function StandardReport(): ReportWording {
    ReportWording(
      "# PENETRATION TEST REPORT\n\n**Client:** ",
      "\n**Assessment Type:** ",
      "\n**Report Date:** ",
      "\n**Prepared By:** eJPT Certified Tester\n\n---\n\n## TABLE OF CONTENTS\n\n1. Executive Summary\n2. Scope and Methodology\n3. Technical Findings\n4. Conclusion\n5. Appendices\n\n---\n\n",
      "\n\n---\n\n",
      "## CONCLUSION\n\n",
      "The security assessment revealed ",
      PriorityActionsText(),
      NoSignificantFindingsMessage(),
      DefaultInScope(),
      DefaultOutScope(),
      "Steps to Reproduce:\n\n",
      "\n\nCommands Executed:\n",
      "\n\nResult:\n",
      "Successful exploitation of this ",
      "-severity vulnerability could lead to unauthorized access and potential system compromise.")
  }

  /** The tools listed when none are given. */
  function DefaultTools(): seq<string> {
    ["Nmap 7.94 - Network scanning and service enumeration",
     "Metasploit Framework 6.3 - Exploitation framework",
     "Burp Suite Community - Web application testing",
     "Gobuster 3.6 - Directory/file enumeration",
     "Hydra 9.4 - Credential brute-forcing",
     "SQLMap 1.7 - SQL injection automation",
     "Nikto 2.5 - Web server scanning"]
  }

  /** The scope lists `generate_full_report` falls back to. */
  function DefaultInScope(): seq<string> {
    ["Target network and systems as specified"]
  }

  function DefaultOutScope(): seq<string> {
    ["Physical security testing", "Social engineering", "Denial of Service attacks"]
  }

  /** The findings section of a store without findings. */
  function NoFindingsMessage(): string {
    "## TECHNICAL FINDINGS\n\nNo vulnerabilities were identified during testing.\n"
  }

  /** The conclusion body when no finding was recorded. */
  function NoSignificantFindingsMessage(): string {
    "No significant vulnerabilities were identified during testing. The tested systems demonstrated adequate security controls.\n\n"
  }

  /** The conclusion body after the number of findings, when one of them is
      critical or high. */
  function PriorityActionsText(): string {
    " vulnerabilities requiring remediation.\n\n**Priority Actions:**\n\nThe identified critical and high-severity vulnerabilities pose significant risk and should be addressed immediately. Implementing the recommended security controls will substantially improve the organization's security posture.\n\n**Next Steps:**\n\n1. Review and prioritize findings with stakeholders\n2. Develop remediation plan with timelines\n3. Implement security fixes\n4. Request re-assessment to validate remediations\n5. Establish ongoing vulnerability management program\n\n"
  }

  /** The defaults of the tool's own text: seven tools listed when none
      are given, and the scope lists of `generate_full_report`. */
  lemma StandardDefaults()
    ensures |DefaultTools()| == 7
    ensures DefaultTools()[0] == "Nmap 7.94 - Network scanning and service enumeration"
    ensures DefaultTools()[6] == "Nikto 2.5 - Web server scanning"
    ensures DefaultInScope() == ["Target network and systems as specified"]
    ensures |DefaultOutScope()| == 3 && DefaultOutScope()[2] == "Denial of Service attacks"
  {
  }

  /** A store without findings gets the fixed notice as its whole findings
      section. */
  lemma StandardEmptyFindings()
    ensures FindingsSection(StandardFindings(), []) == "## TECHNICAL FINDINGS\n\nNo vulnerabilities were identified during testing.\n"
  {
  }

  // ---------------------------------------------------------------- shared pieces

  /** "- item\n" for each item, in order. */
  function Bullets(items: seq<string>): seq<string> {
    if items == [] then [] else Bullets(items[..|items| - 1]) + ["- " + items[|items| - 1] + "\n"]
  }

  /** One bullet line per item, in the items' order. */
  lemma {:induction false} BulletsLines(items: seq<string>)
    ensures |Bullets(items)| == |items|
    ensures forall i :: 0 <= i < |items| ==> Bullets(items)[i] == "- " + items[i] + "\n"
  {
    if items != [] {
      BulletsLines(items[..|items| - 1]);
    }
  }

  /** Appends one bullet line per item to `acc`, as the tool's
      `for item in items: text += f"- {item}\n"` loops do. */
  method AppendBullets(acc: string, items: seq<string>) returns (text: string)
    ensures text == acc + Concat(Bullets(items))
  {
    text := acc;
    for i := 0 to |items|
      invariant text == acc + Concat(Bullets(items[..i]))
    {
      var line := "- " + items[i] + "\n";
      assert items[..i + 1][..i] == items[..i];
      ConcatSnoc(acc, Bullets(items[..i]), line);
      text := text + line;
    }
    assert items[..|items|] == items;
  }

  /** Occurrences survive concatenation on either side. */
  lemma {:induction false} ContainsAppendLeft(a: string, b: string, t: string)
    requires Contains(b, t)
    ensures Contains(a + b, t)
  {
    if a == [] {
      assert a + b == b;
    } else {
      assert (a + b)[1..] == a[1..] + b;
      ContainsAppendLeft(a[1..], b, t);
    }
  }

  lemma {:induction false} ContainsAppendRight(a: string, b: string, t: string)
    requires Contains(a, t)
    ensures Contains(a + b, t)
  {
    if StartsWith(a, t) {
      assert (a + b)[..|t|] == a[..|t|];
    } else {
      assert (a + b)[1..] == a[1..] + b;
      ContainsAppendRight(a[1..], b, t);
    }
  }

  // ---------------------------------------------------------------- executive summary

  /** The opening of the generated summary: the date and the counts. */
  function SummaryHead(w: SummaryWording, counts: SeverityCounts, date: string): string {
    w.opening + date + w.totalLabel + NatToString(Total(counts))
    + w.criticalLabel + NatToString(counts.critical)
    + w.highLabel + NatToString(counts.high)
    + w.mediumLabel + NatToString(counts.medium)
    + w.lowLabel + NatToString(counts.low)
    + w.riskHeading
  }

  /** The critical-risk paragraph: present exactly when there is a critical
      finding, and naming how many. */
  function CriticalRisk(w: SummaryWording, critical: nat): (text: string)
    ensures text == "" <==> critical == 0
  {
    if critical > 0 then w.criticalRiskLead + NatToString(critical) + w.criticalRiskText else ""
  }

  /** The high-risk paragraph: present exactly when there is a high
      finding, and naming how many. */
  function HighRisk(w: SummaryWording, high: nat): (text: string)
    ensures text == "" <==> high == 0
  {
    if high > 0 then w.highRiskLead + NatToString(high) + w.highRiskText else ""
  }

  /** `generate_executive_summary`: a non-empty caller summary replaces the
      generated text entirely; otherwise the counts, the risk paragraphs
      and the fixed recommendations. */
  function ExecutiveSummary(w: SummaryWording, fs: seq<Finding>, customSummary: Option<string>, date: string): string {
    if Truthy(customSummary) then customSummary.value
    else
      var counts := Tally(fs);
      SummaryHead(w, counts, date) + CriticalRisk(w, counts.critical) + HighRisk(w, counts.high) + w.recommendations
  }

  /** The tally of `generate_executive_summary`: a map from the four known
      severities to counters, where each finding's upper-cased severity
      bumps its counter when it is one of the four. */
  method CountSeverities(fs: seq<Finding>) returns (counts: map<string, nat>)
    ensures counts.Keys == {"CRITICAL", "HIGH", "MEDIUM", "LOW"}
    ensures forall s :: s in counts ==> counts[s] == CountOf(fs, s)
  {
    counts := map["CRITICAL" := 0, "HIGH" := 0, "MEDIUM" := 0, "LOW" := 0];
    for i := 0 to |fs|
      invariant counts.Keys == {"CRITICAL", "HIGH", "MEDIUM", "LOW"}
      invariant forall s :: s in counts ==> counts[s] == CountOf(fs[..i], s)
    {
      var severity := Upper(fs[i].severity);
      if severity in counts {
        counts := counts[severity := counts[severity] + 1];
      }
      assert fs[..i + 1] == fs[..i] + [fs[i]];
      forall s | s in counts ensures counts[s] == CountOf(fs[..i + 1], s) {
        CountOfAppend(fs[..i], fs[i], s);
      }
    }
    assert fs[..|fs|] == fs;
  }

  /** The four counters of `CountSeverities`, read out of its map. */
  method ReadCounts(fs: seq<Finding>) returns (tally: SeverityCounts)
    ensures tally == Tally(fs)
  {
    var counts := CountSeverities(fs);
    tally := SeverityCounts(counts["CRITICAL"], counts["HIGH"], counts["MEDIUM"], counts["LOW"]);
  }

  lemma {:induction false} CountOfPositive(fs: seq<Finding>, severity: string)
    ensures CountOf(fs, severity) > 0 <==> exists i :: 0 <= i < |fs| && Upper(fs[i].severity) == severity
  {
    if fs != [] {
      CountOfPositive(fs[1..], severity);
      if exists i :: 0 <= i < |fs[1..]| && Upper(fs[1..][i].severity) == severity {
        var i :| 0 <= i < |fs[1..]| && Upper(fs[1..][i].severity) == severity;
        assert fs[i + 1] == fs[1..][i];
      }
      if exists i :: 0 <= i < |fs| && Upper(fs[i].severity) == severity {
        var i :| 0 <= i < |fs| && Upper(fs[i].severity) == severity;
        if i > 0 {
          assert fs[1..][i - 1] == fs[i];
        }
      }
    }
  }

  /** What the executive summary states: the caller's summary verbatim when
      one is given; otherwise it opens with the counts, whose total leaves
      out findings of unknown severity, followed by the critical paragraph
      exactly when some finding is critical and the high paragraph exactly
      when some finding is high, and it ends with the recommendations. */
  lemma ExecutiveSummaryContents(w: SummaryWording, fs: seq<Finding>, customSummary: Option<string>, date: string)
    ensures Truthy(customSummary) ==> ExecutiveSummary(w, fs, customSummary, date) == customSummary.value
    ensures !Truthy(customSummary) ==>
      var counts := Tally(fs);
      var opening := SummaryHead(w, counts, date) + CriticalRisk(w, counts.critical) + HighRisk(w, counts.high);
      && ExecutiveSummary(w, fs, customSummary, date) == opening + w.recommendations
      && Total(counts) == |fs| - Unbucketed(fs)
      && (CriticalRisk(w, counts.critical) != "" <==> exists i :: 0 <= i < |fs| && Upper(fs[i].severity) == "CRITICAL")
      && (HighRisk(w, counts.high) != "" <==> exists i :: 0 <= i < |fs| && Upper(fs[i].severity) == "HIGH")
  {
    TotalDropsUnknown(fs);
    CountOfPositive(fs, "CRITICAL");
    CountOfPositive(fs, "HIGH");
  }

  // ---------------------------------------------------------------- scope

  /** The timeline of the scope section; the "duration" is the number of
      recorded targets. */
  function ScopeHead(w: ScopeWording, start: string, end: string, targetCount: nat): string {
    w.startLabel + start + w.endLabel + end + w.durationLabel + NatToString(targetCount) + w.inScopeHeading
  }

  /** `generate_scope_section`: the timeline, one bullet per in-scope and
      per out-of-scope item, then the fixed methodology. */
  function ScopeSection(w: ScopeWording, targetCount: nat, inScope: seq<string>, outScope: seq<string>,
                        start: string, end: string): string
  {
    ScopeHead(w, start, end, targetCount) + Concat(Bullets(inScope))
    + w.outOfScopeHeading + Concat(Bullets(outScope)) + w.methodology
  }

  // ---------------------------------------------------------------- findings

  /** `items[:2]`. */
  function FirstTwo(items: seq<string>): seq<string> {
    if |items| <= 2 then items else items[..2]
  }

  /** The affected-systems cell of the summary table: the first two systems
      joined by ", ", then " (+N more)" when N further systems exist. */
  function SystemsCell(systems: seq<string>): (cell: string)
    ensures |systems| <= 2 ==> cell == Join(systems, ", ")
    ensures |systems| > 2 ==> cell == Join(systems[..2], ", ") + " (+" + NatToString(|systems| - 2) + " more)"
  {
    var cell := Join(FirstTwo(systems), ", ");
    if |systems| > 2 then cell + " (+" + NatToString(|systems| - 2) + " more)" else cell
  }

  function SummaryRow(number: nat, f: Finding): string {
    "| " + NatToString(number) + " | " + f.severity + " | " + f.title + " | " + SystemsCell(f.affectedSystems) + " |\n"
  }

  /** Each item rendered with its position counted from 1; the last one
      is numbered with the count of items. */
  function Numbered<T>(render: (nat, T) -> string, xs: seq<T>): seq<string> {
    if xs == [] then [] else Numbered(render, xs[..|xs| - 1]) + [render(|xs|, xs[|xs| - 1])]
  }

  /** One rendering per item, in order, numbered from 1. */
  lemma {:induction false} NumberedInOrder<T>(render: (nat, T) -> string, xs: seq<T>)
    ensures |Numbered(render, xs)| == |xs|
    ensures forall i :: 0 <= i < |xs| ==> Numbered(render, xs)[i] == render(i + 1, xs[i])
  {
    if xs != [] {
      NumberedInOrder(render, xs[..|xs| - 1]);
    }
  }

  /** The summary table's rows. */
  function SummaryRows(fs: seq<Finding>): seq<string> {
    Numbered(SummaryRow, fs)
  }

  /** Appends the summary table's rows for `fs` to `acc`, computing each
      row's systems cell as the first loop of `generate_findings_section`
      does. */
  method AppendSummaryRows(acc: string, fs: seq<Finding>) returns (text: string)
    ensures text == acc + Concat(SummaryRows(fs))
  {
    text := acc;
    for i := 0 to |fs|
      invariant text == acc + Concat(SummaryRows(fs[..i]))
    {
      var f := fs[i];
      var systems := Join(FirstTwo(f.affectedSystems), ", ");
      if |f.affectedSystems| > 2 {
        systems := systems + " (+" + NatToString(|f.affectedSystems| - 2) + " more)";
      }
      var row := "| " + NatToString(i + 1) + " | " + f.severity + " | " + f.title + " | " + systems + " |\n";
      assert fs[..i + 1][..i] == fs[..i];
      ConcatSnoc(acc, SummaryRows(fs[..i]), row);
      text := text + row;
    }
    assert fs[..|fs|] == fs;
  }

  /** The CVSS line: emitted only for a present, non-empty score. */
  function CvssLine(w: FindingsWording, cvss: Option<string>): (line: string)
    ensures !Truthy(cvss) ==> line == ""
  {
    if Truthy(cvss) then w.cvssLabel + cvss.value + "\n\n" else ""
  }

  /** The CVE line: emitted only for a present, non-empty identifier. */
  function CveLine(w: FindingsWording, cve: Option<string>): (line: string)
    ensures !Truthy(cve) ==> line == ""
  {
    if Truthy(cve) then w.cveLabel + cve.value + "\n\n" else ""
  }

  /** The text of one detailed subsection after its CVSS and CVE lines. */
  function DetailBody(w: FindingsWording, f: Finding): string {
    w.affectedLabel
    + Concat(Bullets(f.affectedSystems))
    + (w.descriptionLabel + f.description + "\n\n")
    + (w.impactLabel + f.impact + "\n\n")
    + (w.proofLabel + f.proofOfConcept + w.proofEnd)
    + (w.remediationLabel + f.remediation + "\n\n")
    + w.findingRule
  }

  function DetailBlock(w: FindingsWording, number: nat, f: Finding): string {
    w.findingHeading + NatToString(number) + ": " + f.title + "\n\n"
    + (w.severityLabel + f.severity + "\n\n")
    + CvssLine(w, f.cvss)
    + CveLine(w, f.cve)
    + DetailBody(w, f)
  }

  /** The detailed subsection of one finding, as the body of the second
      loop of `generate_findings_section` writes it. */
  method RenderDetail(w: FindingsWording, number: nat, f: Finding) returns (block: string)
    ensures block == DetailBlock(w, number, f)
  {
    block := w.findingHeading + NatToString(number) + ": " + f.title + "\n\n";
    block := block + (w.severityLabel + f.severity + "\n\n");
    if Truthy(f.cvss) {
      block := block + (w.cvssLabel + f.cvss.value + "\n\n");
    }
    if Truthy(f.cve) {
      block := block + (w.cveLabel + f.cve.value + "\n\n");
    }
    var body := w.affectedLabel;
    body := AppendBullets(body, f.affectedSystems);
    body := body + (w.descriptionLabel + f.description + "\n\n");
    body := body + (w.impactLabel + f.impact + "\n\n");
    body := body + (w.proofLabel + f.proofOfConcept + w.proofEnd);
    body := body + (w.remediationLabel + f.remediation + "\n\n");
    body := body + w.findingRule;
    block := block + body;
  }

  /** The detailed subsections. */
  function DetailBlocks(w: FindingsWording, fs: seq<Finding>): seq<string> {
    Numbered((number: nat, f: Finding) => DetailBlock(w, number, f), fs)
  }

  /** Appends the detailed subsections for `fs` to `acc`. */
  method AppendDetails(w: FindingsWording, acc: string, fs: seq<Finding>) returns (text: string)
    ensures text == acc + Concat(DetailBlocks(w, fs))
  {
    text := acc;
    for i := 0 to |fs|
      invariant text == acc + Concat(DetailBlocks(w, fs[..i]))
    {
      var block := RenderDetail(w, i + 1, fs[i]);
      assert fs[..i + 1][..i] == fs[..i];
      ConcatSnoc(acc, DetailBlocks(w, fs[..i]), block);
      text := text + block;
    }
    assert fs[..|fs|] == fs;
  }

  /** `generate_findings_section`: the fixed notice for an empty store;
      otherwise the summary table and then the detailed subsections, both
      over the findings sorted by severity. */
  function FindingsSection(w: FindingsWording, fs: seq<Finding>): string {
    if fs == [] then w.noFindings
    else
      var sorted := SortBySeverity(fs);
      w.summaryTableHead + Concat(SummaryRows(sorted)) + w.tableEnd + Concat(DetailBlocks(w, sorted))
  }

  /** The findings section of a non-empty store has one table row and then
      one detailed subsection per finding, both in the same order and
      both numbered 1..n. That order is the findings sorted by severity
      rank: a permutation of the store that keeps insertion order within
      each rank. */
  lemma FindingsSectionLayout(w: FindingsWording, fs: seq<Finding>)
    requires fs != []
    ensures var sorted := SortBySeverity(fs);
      var rows := SummaryRows(sorted);
      var blocks := DetailBlocks(w, sorted);
      && FindingsSection(w, fs) == w.summaryTableHead + Concat(rows) + w.tableEnd + Concat(blocks)
      && |rows| == |fs| && |blocks| == |fs|
      && (forall i :: 0 <= i < |fs| ==> rows[i] == SummaryRow(i + 1, sorted[i]))
      && (forall i :: 0 <= i < |fs| ==> blocks[i] == DetailBlock(w, i + 1, sorted[i]))
      && multiset(sorted) == multiset(fs)
      && SortedByRank(sorted)
      && (forall k :: OfRank(sorted, k) == OfRank(fs, k))
  {
    var sorted := SortBySeverity(fs);
    NumberedInOrder(SummaryRow, sorted);
    NumberedInOrder((number: nat, f: Finding) => DetailBlock(w, number, f), sorted);
    forall k ensures OfRank(sorted, k) == OfRank(fs, k) {
      SortIsStable(fs, k);
    }
  }

  /** The detailed subsection of a finding carries its CVSS line exactly
      when the score is present and non-empty, and likewise its CVE line. */
  lemma DetailBlockOptionalLines(w: FindingsWording, number: nat, f: Finding)
    ensures CvssLine(w, f.cvss) == "" <==> !Truthy(f.cvss)
    ensures CveLine(w, f.cve) == "" <==> !Truthy(f.cve)
    ensures Truthy(f.cvss) ==> Contains(DetailBlock(w, number, f), w.cvssLabel + f.cvss.value)
    ensures Truthy(f.cve) ==> Contains(DetailBlock(w, number, f), w.cveLabel + f.cve.value)
  {
    var head := w.findingHeading + NatToString(number) + ": " + f.title + "\n\n"
      + (w.severityLabel + f.severity + "\n\n");
    if Truthy(f.cvss) {
      var t := w.cvssLabel + f.cvss.value;
      ContainsAt(t + "\n\n", t, 0);
      ContainsAppendLeft(head, CvssLine(w, f.cvss), t);
      ContainsAppendRight(head + CvssLine(w, f.cvss), CveLine(w, f.cve), t);
      ContainsAppendRight(head + CvssLine(w, f.cvss) + CveLine(w, f.cve), DetailBody(w, f), t);
    }
    if Truthy(f.cve) {
      var t := w.cveLabel + f.cve.value;
      ContainsAt(t + "\n\n", t, 0);
      ContainsAppendLeft(head + CvssLine(w, f.cvss), CveLine(w, f.cve), t);
      ContainsAppendRight(head + CvssLine(w, f.cvss) + CveLine(w, f.cve), DetailBody(w, f), t);
    }
  }

  // ---------------------------------------------------------------- appendix

  /** `tools_used or default_tools`. */
  function ToolsOrDefault(w: AppendixWording, toolsUsed: Option<seq<string>>): (tools: seq<string>)
    ensures TruthyList(toolsUsed) ==> tools == toolsUsed.value
    ensures !TruthyList(toolsUsed) ==> tools == w.defaultTools
  {
    ListOrElse(toolsUsed, w.defaultTools)
  }

  function CredentialRow(c: Credential): string {
    "| " + c.system + " | " + c.service + " | " + c.username + " | " + c.password + " | " + c.notes + " |\n"
  }

  /** The credentials table's rows, in insertion order. */
  function CredentialRows(cs: seq<Credential>): seq<string> {
    if cs == [] then [] else CredentialRows(cs[..|cs| - 1]) + [CredentialRow(cs[|cs| - 1])]
  }

  /** One row per credential, in insertion order. */
  lemma {:induction false} CredentialRowsInOrder(cs: seq<Credential>)
    ensures |CredentialRows(cs)| == |cs|
    ensures forall i :: 0 <= i < |cs| ==> CredentialRows(cs)[i] == CredentialRow(cs[i])
  {
    if cs != [] {
      CredentialRowsInOrder(cs[..|cs| - 1]);
    }
  }

  /** Appends the credentials table's rows to `acc`. */
  method AppendCredentialRows(acc: string, cs: seq<Credential>) returns (text: string)
    ensures text == acc + Concat(CredentialRows(cs))
  {
    text := acc;
    for i := 0 to |cs|
      invariant text == acc + Concat(CredentialRows(cs[..i]))
    {
      var c := cs[i];
      var row := "| " + c.system + " | " + c.service + " | " + c.username + " | " + c.password + " | " + c.notes + " |\n";
      assert cs[..i + 1][..i] == cs[..i];
      ConcatSnoc(acc, CredentialRows(cs[..i]), row);
      text := text + row;
    }
    assert cs[..|cs|] == cs;
  }

  /** Appendix B: present only when credentials were recorded. */
  function CredentialsAppendix(w: AppendixWording, cs: seq<Credential>): (text: string)
    ensures cs == [] ==> text == ""
  {
    if cs == [] then "" else w.credentialsHead + Concat(CredentialRows(cs))
  }

  function ScreenshotEntry(w: AppendixWording, s: Screenshot): string {
    "**" + s.filename + "**\n" + (w.descriptionLabel + s.description + "\n") + (w.timestampLabel + s.timestamp + "\n\n")
  }

  /** The screenshot entries, in insertion order. */
  function ScreenshotEntries(w: AppendixWording, ss: seq<Screenshot>): seq<string> {
    if ss == [] then [] else ScreenshotEntries(w, ss[..|ss| - 1]) + [ScreenshotEntry(w, ss[|ss| - 1])]
  }

  /** One entry per screenshot, in insertion order. */
  lemma {:induction false} ScreenshotEntriesInOrder(w: AppendixWording, ss: seq<Screenshot>)
    ensures |ScreenshotEntries(w, ss)| == |ss|
    ensures forall i :: 0 <= i < |ss| ==> ScreenshotEntries(w, ss)[i] == ScreenshotEntry(w, ss[i])
  {
    if ss != [] {
      ScreenshotEntriesInOrder(w, ss[..|ss| - 1]);
    }
  }

  /** Appends the screenshot entries to `acc`, three lines each. */
  method AppendScreenshotEntries(w: AppendixWording, acc: string, ss: seq<Screenshot>) returns (text: string)
    ensures text == acc + Concat(ScreenshotEntries(w, ss))
  {
    text := acc;
    for i := 0 to |ss|
      invariant text == acc + Concat(ScreenshotEntries(w, ss[..i]))
    {
      var s := ss[i];
      var entry := "**" + s.filename + "**\n";
      entry := entry + (w.descriptionLabel + s.description + "\n");
      entry := entry + (w.timestampLabel + s.timestamp + "\n\n");
      assert ss[..i + 1][..i] == ss[..i];
      ConcatSnoc(acc, ScreenshotEntries(w, ss[..i]), entry);
      text := text + entry;
    }
    assert ss[..|ss|] == ss;
  }

  /** Appendix C: present only when screenshots were recorded. */
  function ScreenshotsAppendix(w: AppendixWording, ss: seq<Screenshot>): (text: string)
    ensures ss == [] ==> text == ""
  {
    if ss == [] then "" else w.screenshotsHeading + Concat(ScreenshotEntries(w, ss))
  }

  /** `generate_appendix`. */
  function Appendix(w: AppendixWording, toolsUsed: Option<seq<string>>, cs: seq<Credential>, ss: seq<Screenshot>): string {
    w.toolsHeading + Concat(Bullets(ToolsOrDefault(w, toolsUsed)))
    + CredentialsAppendix(w, cs) + ScreenshotsAppendix(w, ss)
    + w.referencesHeading + w.references
  }

  predicate EndsWith(s: string, suffix: string) {
    |suffix| <= |s| && s[|s| - |suffix|..] == suffix
  }

  /** The appendix lists one bullet per tool: the caller's tools, or the
      default tools when none are given; the credentials table has one row
      per credential and appears only when there is one; the screenshot
      list likewise; and the references always close the appendix. */
  lemma AppendixLayout(w: AppendixWording, toolsUsed: Option<seq<string>>, cs: seq<Credential>, ss: seq<Screenshot>)
    ensures var tools := ToolsOrDefault(w, toolsUsed);
      && |Bullets(tools)| == |tools|
      && (forall i :: 0 <= i < |tools| ==> Bullets(tools)[i] == "- " + tools[i] + "\n")
      && (cs == [] ==> CredentialsAppendix(w, cs) == "")
      && (cs != [] ==> CredentialsAppendix(w, cs) == w.credentialsHead + Concat(CredentialRows(cs))
                       && |CredentialRows(cs)| == |cs|
                       && forall i :: 0 <= i < |cs| ==> CredentialRows(cs)[i] == CredentialRow(cs[i]))
      && (ss == [] ==> ScreenshotsAppendix(w, ss) == "")
      && (ss != [] ==> ScreenshotsAppendix(w, ss) == w.screenshotsHeading + Concat(ScreenshotEntries(w, ss))
                       && |ScreenshotEntries(w, ss)| == |ss|
                       && forall i :: 0 <= i < |ss| ==> ScreenshotEntries(w, ss)[i] == ScreenshotEntry(w, ss[i]))
      && EndsWith(Appendix(w, toolsUsed, cs, ss), w.referencesHeading + w.references)
  {
    var tools := ToolsOrDefault(w, toolsUsed);
    BulletsLines(tools);
    CredentialRowsInOrder(cs);
    ScreenshotEntriesInOrder(w, ss);
    var body := w.toolsHeading + Concat(Bullets(tools)) + CredentialsAppendix(w, cs) + ScreenshotsAppendix(w, ss);
    var tail := w.referencesHeading + w.references;
    assert Appendix(w, toolsUsed, cs, ss) == body + tail;
    assert (body + tail)[|body|..] == tail;
  }

  // ---------------------------------------------------------------- conclusion and assembly

  /** How many findings have exactly this stored severity. */
  function CountExactly(fs: seq<Finding>, severity: string): nat {
    if fs == [] then 0
    else (if fs[0].severity == severity then 1 else 0) + CountExactly(fs[1..], severity)
  }

  lemma {:induction false} CountExactlyPositive(fs: seq<Finding>, severity: string)
    ensures CountExactly(fs, severity) > 0 <==> exists i :: 0 <= i < |fs| && fs[i].severity == severity
  {
    if fs != [] {
      CountExactlyPositive(fs[1..], severity);
      if exists i :: 0 <= i < |fs[1..]| && fs[1..][i].severity == severity {
        var i :| 0 <= i < |fs[1..]| && fs[1..][i].severity == severity;
        assert fs[i + 1] == fs[1..][i];
      }
      if exists i :: 0 <= i < |fs| && fs[i].severity == severity {
        var i :| 0 <= i < |fs| && fs[i].severity == severity;
        if i > 0 {
          assert fs[1..][i - 1] == fs[i];
        }
      }
    }
  }

  predicate IsUrgent(f: Finding) {
    f.severity == "CRITICAL" || f.severity == "HIGH"
  }

  /** The three texts the conclusion can have. */
  datatype Outcome = PriorityActions | Silent | NoSignificantFindings

  /** The branch of the conclusion taken, with the source's pairing of
      `else`: the "no significant vulnerabilities" text belongs to the test
      for an empty store, not to the test for critical or high findings. */
  function ConclusionOutcome(fs: seq<Finding>): Outcome {
    if fs != [] then
      (if CountExactly(fs, "CRITICAL") > 0 || CountExactly(fs, "HIGH") > 0 then PriorityActions else Silent)
    else NoSignificantFindings
  }

  /** The body of the conclusion for an outcome and the number of findings;
      the silent outcome writes nothing. */
  function ConclusionText(w: ReportWording, outcome: Outcome, total: nat): (text: string)
    ensures outcome == Silent ==> text == ""
    ensures outcome == PriorityActions ==> text != ""
  {
    match outcome
    case PriorityActions => w.revealedLead + NatToString(total) + w.priorityActions
    case Silent => ""
    case NoSignificantFindings => w.noSignificantFindings
  }

  /** The conclusion has exactly three outcomes: priority actions iff some
      finding is CRITICAL or HIGH; the "no significant vulnerabilities" text
      iff there are no findings; and nothing at all for a non-empty store
      with neither. */
  lemma ConclusionCases(fs: seq<Finding>)
    ensures ConclusionOutcome(fs) == PriorityActions <==> exists i :: 0 <= i < |fs| && IsUrgent(fs[i])
    ensures ConclusionOutcome(fs) == NoSignificantFindings <==> fs == []
    ensures ConclusionOutcome(fs) == Silent <==> fs != [] && forall i :: 0 <= i < |fs| ==> !IsUrgent(fs[i])
  {
    CountExactlyPositive(fs, "CRITICAL");
    CountExactlyPositive(fs, "HIGH");
  }

  /** The priority-actions text names the number of findings right after
      its lead-in. */
  lemma PriorityActionsNamesTotal(w: ReportWording, total: nat)
    ensures Contains(ConclusionText(w, PriorityActions, total), NatToString(total))
  {
    var n := NatToString(total);
    var prefix := w.revealedLead + n;
    assert prefix[|w.revealedLead|..] == n;
    ContainsAt(prefix, n, |w.revealedLead|);
    ContainsAppendRight(prefix, w.priorityActions, n);
  }

  /** The conclusion block of `generate_full_report`: the two counters of
      findings stored as exactly "CRITICAL" and "HIGH", and the `if`/`else`
      on them as the tool pairs it. */
  method WriteConclusion(w: ReportWording, fs: seq<Finding>) returns (text: string)
    ensures text == ConclusionText(w, ConclusionOutcome(fs), |fs|)
  {
    text := "";
    if fs != [] {
      var criticalCount := CountExactly(fs, "CRITICAL");
      var highCount := CountExactly(fs, "HIGH");
      if criticalCount > 0 || highCount > 0 {
        text := w.revealedLead + NatToString(|fs|) + w.priorityActions;
      }
    } else {
      text := w.noSignificantFindings;
    }
  }

  /** The title block and table of contents. */
  function ReportTitle(w: ReportWording, clientName: string, testType: string, date: string): string {
    w.clientLabel + clientName + w.typeLabel + testType + w.dateLabel + date + w.contents
  }

  /** `in_scope or [...]`. */
  function InScopeOrDefault(w: ReportWording, inScope: Option<seq<string>>): (items: seq<string>)
    ensures TruthyList(inScope) ==> items == inScope.value
    ensures !TruthyList(inScope) ==> items == w.defaultInScope
  {
    ListOrElse(inScope, w.defaultInScope)
  }

  /** `out_scope or [...]`. */
  function OutScopeOrDefault(w: ReportWording, outScope: Option<seq<string>>): (items: seq<string>)
    ensures TruthyList(outScope) ==> items == outScope.value
    ensures !TruthyList(outScope) ==> items == w.defaultOutScope
  {
    ListOrElse(outScope, w.defaultOutScope)
  }

  /** The clock readings of one `generate_full_report` call that reach its
      output: the title's date, the summary's date, the scope's date (used
      for both the start and the end) and the two file-name stamps. */
  datatype Clock = Clock(reportDate: string, summaryDate: string, scopeDate: string, reportStamp: string, jsonStamp: string)

  /** The text of `generate_full_report`: title block, executive summary,
      scope, findings, conclusion and appendix, in that order, separated by
      horizontal rules. */
  function FullReport(w: Wording, fs: seq<Finding>, targetCount: nat, cs: seq<Credential>, ss: seq<Screenshot>,
                      clientName: string, testType: string, inScope: Option<seq<string>>, outScope: Option<seq<string>>,
                      customSummary: Option<string>, toolsUsed: Option<seq<string>>, clock: Clock): string
  {
    var r := w.report;
    ReportTitle(r, clientName, testType, clock.reportDate)
    + ExecutiveSummary(w.summary, fs, customSummary, clock.summaryDate) + r.sectionRule
    + ScopeSection(w.scope, targetCount, InScopeOrDefault(r, inScope), OutScopeOrDefault(r, outScope),
                   clock.scopeDate, clock.scopeDate) + r.sectionRule
    + FindingsSection(w.findings, fs) + r.sectionRule
    + r.conclusionHeading + ConclusionText(r, ConclusionOutcome(fs), |fs|) + r.sectionRule
    + Appendix(w.appendix, toolsUsed, cs, ss)
  }

  // ---------------------------------------------------------------- the generator

  /** The proof-of-concept template of `quick_finding`. */
  function QuickProofOfConcept(w: ReportWording, description: string, commands: string, result: string): string {
    w.stepsLabel + description + w.commandsLabel + commands + w.resultLabel + result + "\n"
  }

  /** The impact template of `quick_finding`, naming the severity in lower
      case. */
  function QuickImpact(w: ReportWording, severity: string): string {
    w.impactLead + Lower(severity) + w.impactText
  }

  class ReportGenerator {
    const workspace: Workspace.Workspace
    const logger: EventLog
    const wording: Wording
    var findings: seq<Finding>
    var targets: seq<Target>
    var credentials: seq<Credential>
    var screenshots: seq<Screenshot>

    /** What every stored record satisfies: severities are upper case,
        hostnames, operating systems and credential services are never
        empty, and the workspace has its layout. */
    ghost predicate Valid()
      reads this
    {
      && workspace.Layout()
      && (forall i :: 0 <= i < |findings| ==> Normalized(findings[i]))
      && (forall i :: 0 <= i < |targets| ==> targets[i].hostname != "" && targets[i].os != "")
      && (forall i :: 0 <= i < |credentials| ==> credentials[i].service != "")
    }

    /** `__init__`: an empty store over the given workspace and logger,
        writing the given fixed text (the tool's own is `StandardWording()`). */
    constructor (workspace: Workspace.Workspace, logger: EventLog, wording: Wording)
      requires workspace.Layout()
      ensures this.workspace == workspace && this.logger == logger && this.wording == wording
      ensures findings == [] && targets == [] && credentials == [] && screenshots == []
      ensures Valid()
    {
      this.workspace := workspace;
      this.logger := logger;
      this.wording := wording;
      findings := [];
      targets := [];
      credentials := [];
      screenshots := [];
    }

    /** `add_finding`: appends one normalized record, then logs the call
        with the caller's own severity and systems. */
    method AddFinding(title: string, severity: string, affected: Systems, description: string,
                      impact: string, poc: string, remediation: string, timestamp: string,
                      cvss: Option<string> := None, cve: Option<string> := None)
      requires Valid()
      modifies this`findings, logger`findings
      ensures Valid()
      ensures findings == old(findings) + [NewFinding(title, severity, affected, description, impact, poc, remediation, cvss, cve, timestamp)]
      ensures targets == old(targets) && credentials == old(credentials) && screenshots == old(screenshots)
      ensures logger.findings == old(logger.findings) + [FindingEntry(severity, affected, title)]
    {
      var finding := Finding(title, Upper(severity), SystemsList(affected), description, impact, poc,
                             remediation, cvss, cve, timestamp);
      NewFindingNormalized(title, severity, affected, description, impact, poc, remediation, cvss, cve, timestamp);
      findings := findings + [finding];
      logger.LogFinding(severity, affected, title);
    }

    /** `add_target`: appends one record, never merging with an earlier
        target of the same address. */
    method AddTarget(ip: string, hostname: Option<string> := None, os: Option<string> := None,
                     services: Option<seq<string>> := None)
      requires Valid()
      modifies this`targets
      ensures Valid()
      ensures targets == old(targets) + [NewTarget(ip, hostname, os, services)]
      ensures findings == old(findings) && credentials == old(credentials) && screenshots == old(screenshots)
    {
      targets := targets + [NewTarget(ip, hostname, os, services)];
    }

    /** `add_credential`: appends one record, without deduplication. */
    method AddCredential(system: string, username: string, password: string,
                         service: Option<string> := None, notes: Option<string> := None)
      requires Valid()
      modifies this`credentials
      ensures Valid()
      ensures credentials == old(credentials) + [NewCredential(system, username, password, service, notes)]
      ensures findings == old(findings) && targets == old(targets) && screenshots == old(screenshots)
    {
      credentials := credentials + [NewCredential(system, username, password, service, notes)];
    }

    /** `add_screenshot`: appends one record stamped with `timestamp`. */
    method AddScreenshot(filename: string, description: string, timestamp: string)
      requires Valid()
      modifies this`screenshots
      ensures Valid()
      ensures screenshots == old(screenshots) + [Screenshot(filename, description, timestamp)]
      ensures findings == old(findings) && targets == old(targets) && credentials == old(credentials)
    {
      screenshots := screenshots + [Screenshot(filename, description, timestamp)];
    }

    /** `quick_finding`: a finding whose proof of concept and impact are
        filled in from templates, with no CVSS score and no CVE. */
    method QuickFinding(title: string, severity: string, target: Systems, description: string,
                        commands: string, result: string, fix: string, timestamp: string)
      requires Valid()
      modifies this`findings, logger`findings
      ensures Valid()
      ensures findings == old(findings) + [NewFinding(title, severity, target, description, QuickImpact(wording.report, severity),
                                                      QuickProofOfConcept(wording.report, description, commands, result),
                                                      fix, None, None, timestamp)]
      ensures targets == old(targets) && credentials == old(credentials) && screenshots == old(screenshots)
      ensures logger.findings == old(logger.findings) + [FindingEntry(severity, target, title)]
    {
      var poc := QuickProofOfConcept(wording.report, description, commands, result);
      var impact := QuickImpact(wording.report, severity);
      AddFinding(title, severity, target, description, impact, poc, fix, timestamp);
    }

    /** `generate_executive_summary`. */
    method GenerateExecutiveSummary(customSummary: Option<string>, date: string) returns (summary: string)
      ensures summary == ExecutiveSummary(wording.summary, findings, customSummary, date)
    {
      if Truthy(customSummary) {
        return customSummary.value;
      }
      var w := wording.summary;
      var tally := ReadCounts(findings);
      var criticalRisk := "";
      if tally.critical > 0 {
        criticalRisk := w.criticalRiskLead + NatToString(tally.critical) + w.criticalRiskText;
      }
      var highRisk := "";
      if tally.high > 0 {
        highRisk := w.highRiskLead + NatToString(tally.high) + w.highRiskText;
      }
      summary := SummaryHead(w, tally, date) + criticalRisk + highRisk + w.recommendations;
    }

    /** `generate_scope_section`; a missing start or end date is `today`. */
    method GenerateScopeSection(inScope: seq<string>, outScope: seq<string>, startDate: Option<string>,
                                endDate: Option<string>, today: string) returns (scope: string)
      ensures scope == ScopeSection(wording.scope, |targets|, inScope, outScope, OrElse(startDate, today), OrElse(endDate, today))
    {
      var w := wording.scope;
      var start := if Truthy(startDate) then startDate.value else today;
      var end := if Truthy(endDate) then endDate.value else today;
      scope := w.startLabel + start + w.endLabel + end + w.durationLabel + NatToString(|targets|) + w.inScopeHeading;
      scope := AppendBullets(scope, inScope);
      scope := scope + w.outOfScopeHeading;
      scope := AppendBullets(scope, outScope);
      scope := scope + w.methodology;
    }

    /** `generate_findings_section`. */
    method GenerateFindingsSection() returns (md: string)
      ensures md == FindingsSection(wording.findings, findings)
    {
      var w := wording.findings;
      if findings == [] {
        return w.noFindings;
      }
      var sorted := SortBySeverity(findings);
      md := w.summaryTableHead;
      md := AppendSummaryRows(md, sorted);
      md := md + w.tableEnd;
      md := AppendDetails(w, md, sorted);
    }

    /** The counts the executive summary gives agree with the findings
        section: each count is the number of rows of that severity in the
        severity-sorted table. */
    lemma SummaryMatchesTable()
      requires Valid()
      ensures Tally(findings).critical == |OfRank(SortBySeverity(findings), 0)|
      ensures Tally(findings).high == |OfRank(SortBySeverity(findings), 1)|
      ensures Tally(findings).medium == |OfRank(SortBySeverity(findings), 2)|
      ensures Tally(findings).low == |OfRank(SortBySeverity(findings), 3)|
    {
      TallyMatchesRanks(findings);
      SortIsStable(findings, 0);
      SortIsStable(findings, 1);
      SortIsStable(findings, 2);
      SortIsStable(findings, 3);
    }

    /** `generate_appendix`. */
    method GenerateAppendix(toolsUsed: Option<seq<string>>) returns (appendix: string)
      ensures appendix == Appendix(wording.appendix, toolsUsed, credentials, screenshots)
    {
      var w := wording.appendix;
      var tools := if TruthyList(toolsUsed) then toolsUsed.value else w.defaultTools;
      var toolsPart := AppendBullets(w.toolsHeading, tools);
      var credentialsPart := "";
      if credentials != [] {
        credentialsPart := AppendCredentialRows(w.credentialsHead, credentials);
      }
      var screenshotsPart := "";
      if screenshots != [] {
        screenshotsPart := AppendScreenshotEntries(w, w.screenshotsHeading, screenshots);
      }
      appendix := toolsPart + credentialsPart + screenshotsPart + w.referencesHeading + w.references;
    }

    /** The text assembly of `generate_full_report`: the title block and
        the five sections separated by horizontal rules. */
    method RenderReport(clock: Clock, clientName: string, testType: string,
                        inScope: Option<seq<string>>, outScope: Option<seq<string>>,
                        customSummary: Option<string>, toolsUsed: Option<seq<string>>)
      returns (report: string)
      ensures report == FullReport(wording, findings, |targets|, credentials, screenshots, clientName, testType,
                                   inScope, outScope, customSummary, toolsUsed, clock)
    {
      var w := wording.report;
      var inItems := if TruthyList(inScope) then inScope.value else w.defaultInScope;
      var outItems := if TruthyList(outScope) then outScope.value else w.defaultOutScope;
      var title := w.clientLabel + clientName + w.typeLabel + testType + w.dateLabel + clock.reportDate + w.contents;
      var summary := GenerateExecutiveSummary(customSummary, clock.summaryDate);
      var scope := GenerateScopeSection(inItems, outItems, None, None, clock.scopeDate);
      var findingsText := GenerateFindingsSection();
      var conclusion := WriteConclusion(w, findings);
      var appendix := GenerateAppendix(toolsUsed);
      report := title + summary + w.sectionRule + scope + w.sectionRule + findingsText + w.sectionRule
                + w.conclusionHeading + conclusion + w.sectionRule + appendix;
    }

    /** `generate_full_report`: the report text, the report file under the
        workspace's reports directory and the JSON snapshot file beside it.
        Writing the two files is not part of this model. */
    method GenerateFullReport(clock: Clock, clientName: string := "Client", testType: string := "Penetration Test",
                              inScope: Option<seq<string>> := None, outScope: Option<seq<string>> := None,
                              customSummary: Option<string> := None, toolsUsed: Option<seq<string>> := None)
      returns (report: string, reportFile: Workspace.Path, jsonFile: Workspace.Path)
      ensures report == FullReport(wording, findings, |targets|, credentials, screenshots, clientName, testType,
                                   inScope, outScope, customSummary, toolsUsed, clock)
      ensures reportFile == workspace.reports.Child("pentest_report_" + clock.reportStamp + ".md")
      ensures jsonFile == workspace.reports.Child("findings_" + clock.jsonStamp + ".json")
    {
      report := RenderReport(clock, clientName, testType, inScope, outScope, customSummary, toolsUsed);
      reportFile := workspace.reports.Child("pentest_report_" + clock.reportStamp + ".md");
      jsonFile := workspace.reports.Child("findings_" + clock.jsonStamp + ".json");
    }
  }
}
