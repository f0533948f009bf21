# eJPT helper: report generator, scanner rules, workspace and CLI dispatch

This project models the core of the eJPT penetration-testing helper, a
command-line tool. It covers four parts.

- **Report generator** (`core/report_gen.py`): a store of findings, targets,
  credentials and screenshots that only grows, and the Markdown report built
  from it:
  - an executive summary with per-severity counts and risk paragraphs;
  - the scope section;
  - the findings section, with a summary table and numbered detailed
    subsections in severity order;
  - the conclusion;
  - the appendices;
  - the names of the report and JSON files under the workspace's `reports`
    directory.
- **Scan analysis** (`core/scanner.py`): the nmap command lines of the quick
  and full scans, and the rule table that turns a full scan's text output
  into an ordered list of attack suggestions for FTP, SSH, web, SMB and
  MySQL. Analysis happens only when the scan produced output.
- **Workspace** (`utils/workspace.py`): the root directory, its five
  subdirectories, and the names of scan and exploit files. As with
  `pathlib`, a '/' inside a file name separates further components. So a
  network range such as "10.0.0.0/24" puts its scan file in a subdirectory
  of `scans` that the workspace never creates.
- **Command line** (`ejpt_helper.py`): the `if`/`elif` chain that picks one
  action from the flags, the parsing of a reverse-shell spec
  `LHOST:LPORT:TYPE`, and the case-insensitive default-credential lookup.

## How the model is organised

Each source file becomes one Dafny file:

- `report.dfy` models `core/report_gen.py`;
- `scanner.dfy` models `core/scanner.py`;
- `workspace.dfy` models `utils/workspace.py`;
- `cli.dfy` models `ejpt_helper.py`.

Shared code:

- `findings.dfy` holds the stored records, the severity sort and the
  severity tally.
- `logging.dfy` holds the logger. It records the calls made to it.
- `base.dfy` holds the Python string operations the tool uses: `split`,
  `join`, `upper`, `lower`, `replace`, `in`, `int()` and `str()`.

The report generator is a class. Its four lists are fields that the `add_*`
methods extend. Each section is specified by a function of those lists. The
generator's methods build the text step by step, as the tool does: loops
append lines, `if` blocks append optional parts. Each method is proved to
produce exactly the specified text. Lemmas then state what that text
contains.

The fixed text between the filled-in values is gathered in a `Wording`
record: headings, labels, boilerplate paragraphs, default tools and default
scope lists. `StandardWording()` holds the tool's own text verbatim, and
the generator is constructed with a wording. Dates and timestamps are
parameters.

Two behaviours of the source are modelled as written:

- **Conclusion.** The "No significant vulnerabilities" conclusion is paired
  with the test for an empty store, not with the test for critical or high
  findings. A non-empty store with neither writes no conclusion text at all
  (`Report.ConclusionCases`).
- **Web port.** The web rule's port is never "8080", because "80/tcp" occurs
  inside "8080/tcp" (`Scanner.WebSuggestion`).

## Model

The table lists the members whose contracts state something about the
source. The functions that only compute, such as `Cli.ParseShellSpec`,
`Cli.Run`, `Scanner.Suggestions` or `Report.FindingsSection`, carry no
contract of their own; the lemmas and methods in the rows that name them
state what they compute.

| member | source | states |
|---|---|---|
| `Findings.NewFindingNormalized` | core/report_gen.py:20-35 | a stored finding's severity is the caller's severity upper-cased (so it is already upper case and keeps its length); a single affected system becomes a one-element list |
| `Findings.NewTarget` | core/report_gen.py:38-46 | a target keeps its address; a non-empty hostname or OS is kept and a missing or empty one becomes "Unknown", so neither is ever empty; given services are kept, missing ones become the empty list |
| `Findings.NewCredential` | core/report_gen.py:48-57 | a credential keeps system, user name and password; a non-empty service is kept and a missing or empty one becomes "Unknown"; given notes are kept, missing ones become the empty string |
| `Findings.SortBySeverity` | core/report_gen.py:199-200 | the sorted findings are a permutation of the store, ordered CRITICAL, HIGH, MEDIUM, LOW, then any other severity |
| `Findings.SortIsStable` | core/report_gen.py:199-200 | the sort is stable: within each severity rank the findings keep their insertion order |
| `Findings.TotalDropsUnknown` | core/report_gen.py:74-86 | the summary's total plus the number of findings whose severity is none of the four buckets equals the number of findings |
| `Findings.TallyMatchesRanks` | core/report_gen.py:81-84 | for stored (upper-cased) findings, the summary's four counters equal the sizes of the sort's ranks 0 to 3 |
| `Report.ReportGenerator.SummaryMatchesTable` | core/report_gen.py:74-200 | for the stored findings, each of the summary's four counts equals the number of findings of that severity in the severity-sorted findings table |
| `Logging.EventLog.LogCommand` | utils/logger.py:33-36 | the logger records one more command call with its command and target, nothing else |
| `Logging.EventLog.LogFinding` | utils/logger.py:38-41 | the logger records one more finding call with the caller's type, target and details |
| `Workspace.Workspace.constructor` | utils/workspace.py:8-19 | the root is the given base directory when non-empty, else "ejpt_workspace_" plus the timestamp; scans, exploits, screenshots, loot and reports are the root's children of those names |
| `Workspace.Workspace.Directories` | utils/workspace.py:23-27 | six directories are created: the root first, then five distinct directories, each directly under the root |
| `Workspace.ChildDepth` | utils/workspace.py:15-19 | `path / name` is directly inside the path if and only if the name has no '/', and is then the path with that one component added; otherwise it lies further down |
| `Workspace.ChildText` | utils/workspace.py:15-19 | the text of `path / name` is the path's text, "/" and the name as given |
| `Workspace.Workspace.ScanFile` | utils/workspace.py:29-32 | the scan file is `scans / ScanFileName(scan type, target)`; for a scan type without '/', it is directly in `scans` if and only if the target has no '/' |
| `Workspace.ScanFileNameSlash` | utils/workspace.py:31 | the scan file name contains '/' if and only if the scan type or the target does |
| `Workspace.RangeTargetNests` | utils/workspace.py:23-32 | for a target "address/prefix", the scan file is `scans / (type_address) / (prefix.txt)`, not directly in `scans`, and its directory is none of the six created ones |
| `Workspace.ScanFileNameShape` | utils/workspace.py:31 | the scan file name is the scan type, "_", the target with every '.' turned into '_' (same length, no '.' left, other characters kept), then ".txt" |
| `Workspace.SameScanFile` | utils/workspace.py:31-32 | for one scan type, two targets share a scan file if and only if they agree once every '.' is turned into '_' |
| `Workspace.ScanFileNamesCollide` | utils/workspace.py:31 | an example: targets "10.0.0.1" and "10_0_0_1" share one scan file |
| `Workspace.Workspace.ExploitFile` | utils/workspace.py:34-36 | the exploit file is `exploits / (name + ".txt")`, directly in `exploits` if and only if the name has no '/' |
| `Report.BulletsLines` | core/report_gen.py:147-152 | one "- item" line per item, in order |
| `Report.AppendBullets` | core/report_gen.py:147-152 | the bullet loop appends exactly the concatenated bullet lines of the items to the text |
| `Report.CriticalRisk` | core/report_gen.py:105-106 | the critical-risk paragraph is present if and only if the critical count is positive |
| `Report.HighRisk` | core/report_gen.py:108-109 | the high-risk paragraph is present if and only if the high count is positive |
| `Report.CountSeverities` | core/report_gen.py:74-84 | the counter map has exactly the keys CRITICAL, HIGH, MEDIUM and LOW, each counting the findings whose upper-cased severity is that key |
| `Report.ReadCounts` | core/report_gen.py:74-99 | the four counters read from the map are the tally of the findings |
| `Report.ExecutiveSummaryContents` | core/report_gen.py:68-129 | a non-empty custom summary replaces everything; otherwise the summary is the counts, then the critical paragraph exactly when some finding is critical, the high paragraph exactly when some finding is high, then the recommendations, and the total omits unknown severities |
| `Report.SystemsCell` | core/report_gen.py:210-212 | the table cell joins the first two systems with ", " and adds " (+N more)" exactly when N > 0 further systems exist |
| `Report.NumberedInOrder` | core/report_gen.py:209-213 | enumerating from 1 renders one entry per finding, in order, the i-th numbered i |
| `Report.AppendSummaryRows` | core/report_gen.py:209-213 | the table loop appends exactly the numbered summary rows of the sorted findings |
| `Report.CvssLine` | core/report_gen.py:222-223 | no CVSS line for a missing or empty score |
| `Report.CveLine` | core/report_gen.py:225-226 | no CVE line for a missing or empty identifier |
| `Report.RenderDetail` | core/report_gen.py:219-236 | one detailed subsection: heading with its number and title, severity, the optional CVSS and CVE lines, affected systems, description, impact, proof of concept in a code block, remediation, rule |
| `Report.AppendDetails` | core/report_gen.py:218-236 | the details loop appends exactly the numbered detailed subsections |
| `Report.DetailBlockOptionalLines` | core/report_gen.py:222-226 | the CVSS (CVE) line is empty if and only if the score (identifier) is missing or empty, and otherwise the subsection contains it |
| `Report.FindingsSectionLayout` | core/report_gen.py:193-238 | for a non-empty store: table head, one row per finding, rule, one subsection per finding, rows and subsections both numbered 1..n over the same order, which is a permutation of the store sorted by severity and stable within a severity |
| `Report.StandardDefaults` | core/report_gen.py:246-254 | seven default tools, from Nmap to Nikto; the default in-scope list is the one entry "Target network and systems as specified"; the default out-of-scope list has three entries, ending with denial of service |
| `Report.StandardEmptyFindings` | core/report_gen.py:195-196 | with the tool's own text, the findings section of a store without findings is exactly "## TECHNICAL FINDINGS", a blank line, and "No vulnerabilities were identified during testing." |
| `Report.ToolsOrDefault` | core/report_gen.py:246-256 | the caller's tools when given and non-empty, else the seven default tools |
| `Report.CredentialRowsInOrder` | core/report_gen.py:265-266 | one table row per credential, in insertion order |
| `Report.AppendCredentialRows` | core/report_gen.py:265-266 | the credentials loop appends exactly those rows |
| `Report.CredentialsAppendix` | core/report_gen.py:261-266 | appendix B is absent when no credential was recorded |
| `Report.ScreenshotEntriesInOrder` | core/report_gen.py:271-274 | one entry per screenshot, in insertion order |
| `Report.AppendScreenshotEntries` | core/report_gen.py:271-274 | the screenshots loop appends exactly those entries |
| `Report.ScreenshotsAppendix` | core/report_gen.py:269-274 | appendix C is absent when no screenshot was recorded |
| `Report.AppendixLayout` | core/report_gen.py:240-287 | one bullet per tool used; appendices B and C present exactly when their lists are non-empty, one row or entry per record in order; the references always close the appendix |
| `Report.CountExactlyPositive` | core/report_gen.py:329-330 | a conclusion counter is positive if and only if some finding's stored severity is exactly that word |
| `Report.ConclusionText` | core/report_gen.py:332-349 | the silent outcome writes nothing; the priority-actions outcome writes text |
| `Report.ConclusionCases` | core/report_gen.py:328-349 | priority actions if and only if some finding is CRITICAL or HIGH; "no significant vulnerabilities" if and only if there are no findings; no text if and only if findings exist but none is CRITICAL or HIGH |
| `Report.PriorityActionsNamesTotal` | core/report_gen.py:333 | the priority-actions text names the number of findings |
| `Report.WriteConclusion` | core/report_gen.py:328-349 | the conclusion block's two counters and nested `if`/`else` give the outcome `ConclusionOutcome` assigns |
| `Report.InScopeOrDefault` | core/report_gen.py:294 | the caller's in-scope list when given and non-empty, else the default |
| `Report.OutScopeOrDefault` | core/report_gen.py:295 | the caller's out-of-scope list when given and non-empty, else the three defaults |
| `Report.ReportGenerator.constructor` | core/report_gen.py:12-18 | a generator over the given workspace and logger with four empty lists |
| `Report.ReportGenerator.AddFinding` | core/report_gen.py:20-36 | appends one normalized finding and nothing else; logs the caller's own severity, systems and title; stored severities stay upper case |
| `Report.ReportGenerator.AddTarget` | core/report_gen.py:38-46 | appends one target with defaults filled in, without merging duplicates; the other lists are unchanged |
| `Report.ReportGenerator.AddCredential` | core/report_gen.py:48-57 | appends one credential with defaults filled in, without deduplication; the other lists are unchanged |
| `Report.ReportGenerator.AddScreenshot` | core/report_gen.py:59-66 | appends one screenshot with its timestamp; the other lists are unchanged |
| `Report.ReportGenerator.QuickFinding` | core/report_gen.py:373-394 | adds a finding whose proof of concept is the steps, commands and result template, whose impact names the lower-cased severity, and with no CVSS score and no CVE |
| `Report.ReportGenerator.GenerateExecutiveSummary` | core/report_gen.py:68-129 | returns exactly the specified executive summary of the stored findings |
| `Report.ReportGenerator.GenerateScopeSection` | core/report_gen.py:131-191 | returns the scope section; a missing or empty start or end date is today; the "duration" is the number of recorded targets |
| `Report.ReportGenerator.GenerateFindingsSection` | core/report_gen.py:193-238 | returns the fixed notice for an empty store, else the table and subsections over the sorted findings |
| `Report.ReportGenerator.GenerateAppendix` | core/report_gen.py:240-287 | returns exactly the specified appendix of the stored credentials and screenshots |
| `Report.ReportGenerator.RenderReport` | core/report_gen.py:294-352 | the report is the title block, executive summary, scope (both dates today), findings, conclusion and appendix, in that order, separated by rules |
| `Report.ReportGenerator.GenerateFullReport` | core/report_gen.py:289-371 | returns that report text, the report file "pentest_report_<stamp>.md" and the JSON file "findings_<stamp>.json", both under the workspace's reports directory |
| `Scanner.Make` | core/scanner.py:89-152 | each rule's suggestion names its own service with its fixed priority (FTP high, SSH medium, web and SMB critical, MySQL high) |
| `Scanner.ApplyFive` | core/scanner.py:87-153 | trying five rules in turn appends their results in that order |
| `Scanner.SuggestionsInRuleOrder` | core/scanner.py:87-153 | the suggestions are the rules tried in the order FTP, SSH, web, SMB, MySQL |
| `Scanner.TryRule` | core/scanner.py:89-152 | one `if` block tests its tokens on the output and on its lower-cased copy, and yields exactly that rule's result |
| `Scanner.AnalyzeScan` | core/scanner.py:79-153 | no suggestions for a missing or empty output; otherwise the five rules' results, in rule order |
| `Scanner.ApplyOffers` | core/scanner.py:87-153 | trying rules offers a service if and only if that service's rule is among them and fires |
| `Scanner.ApplyOrdered` | core/scanner.py:87-153 | rules tried in increasing order yield suggestions in increasing order |
| `Scanner.RulesFire` | core/scanner.py:89-152 | FTP, SSH and MySQL are suggested if and only if both their port token and (case-insensitively) their name occur; SMB if and only if "445/tcp" occurs; web if and only if one of its three port tokens occurs |
| `Scanner.SuggestionOrder` | core/scanner.py:87-153 | at most five suggestions, in rule order, no service twice, each with its service's priority |
| `Scanner.EightyInEightyEighty` | core/scanner.py:114-115 | every output containing "8080/tcp" contains "80/tcp" |
| `Scanner.WebSuggestion` | core/scanner.py:113-128 | the web port is "80" if and only if "80/tcp" occurs, "443" otherwise, never "8080"; the commands use https exactly for port 443 |
| `Scanner.ScanCommandWords` | core/scanner.py:24-44 | for a file name and target without spaces, splitting each scan command line at single spaces gives back exactly its intended words, the output file second to last and the target last |
| `Scanner.PlainCommandWords` | core/scanner.py:24-44 | with a file name and target of letters, digits and `._-/:=,+@%` only, every word of both commands is free of shell metacharacters and whitespace, and splitting at single spaces gives the intended words |
| `Scanner.SpacedTargetSplits` | core/scanner.py:24-44 | a target "first second" gives, split at single spaces, the command for target "first" with "second" as one extra word, for both the quick and the full scan |
| `Scanner.Scanner.constructor` | core/scanner.py:12-14 | a scanner over the given workspace and logger |
| `Scanner.Scanner.QuickScan` | core/scanner.py:16-34 | logs the quick command line on the workspace's "quick" scan file for the target, returns the scan output, never analyses it |
| `Scanner.Scanner.FullScan` | core/scanner.py:36-59 | logs the full command line on the "full" scan file; analyses exactly when the output is present and non-empty, and then yields the rule suggestions |
| `Cli.FirstMatch` | ejpt_helper.py:106-170 | the selected branch's test holds, every earlier branch's test fails, and any branch with both properties is the one selected |
| `Cli.ScanSwitchesNeedTarget` | ejpt_helper.py:106-113 | without a non-empty target, --quick and --full select nothing and are ignored |
| `Cli.ShellHostIsFirstField` | ejpt_helper.py:119-120 | the host is the text before the first ':' (the whole spec when there is none) |
| `Cli.ShellSpecRoundTrip` | ejpt_helper.py:119-122 | "host:port:type" parses back to that host, port and type, for a host and type without ':' |
| `Cli.ShellSpecDefaults` | ejpt_helper.py:121-122 | a bare host gets port 4444 and type "all"; "host:port" gets type "all" |
| `Cli.ShellSpecIgnoresExtraFields` | ejpt_helper.py:119-122 | fields after the third do not change the result |
| `Cli.ShellSpecBadPort` | ejpt_helper.py:121 | an empty or non-numeric port field is rejected, whatever follows |
| `Cli.FailsOnlyOnBadShellSpec` | ejpt_helper.py:105-177 | among the modelled outcomes, the run ends with exit code 1 if and only if the shell branch is selected and its spec does not parse |
| `Cli.ShellBranchUsesSpec` | ejpt_helper.py:118-124 | the shell branch passes the spec's host, port and type to the generator |
| `Cli.LookupIgnoresCase` | ejpt_helper.py:150-163 | entries are shown if and only if the lower-cased service is a key, with that key's entries; an upper-cased name finds the same result |

## Left out

- Running nmap (`_run_nmap`): subprocess, timeout and error handling are left out. The scan's captured output, or its absence, is a parameter of `QuickScan` and `FullScan`.
- Printing, colours and the banner and footer: terminal output only.
- The printing of the suggestions at the end of `_cyber_analyze_scan`: terminal output only.
- Writing the report and JSON files, and the JSON serialisation: file I/O. `GenerateFullReport` returns the report text together with both paths, while the source returns only the report path.
- Creating the workspace directories (`mkdir`): file I/O. `Directories` lists what is created.
- Reading the clock: every date and timestamp is a parameter.
  - `Clock` holds the readings of one `generate_full_report` call.
  - The scope section of the full report uses one date for both start and end, as the source's two clock readings would on the same day.
  - A second boundary between the two readings is not modelled.
- The contents of `data/default_creds.json` and `data/payloads.json`: the credentials are a parameter of `Run`. The XSS and LFI branches only print file contents, so they are modelled as the action they start.
- The web hunter (`core/web_hunter.py`), the exploit generator and the logger's file handlers are other components and are not part of this model. The logger is modelled by the calls it receives.
- Cli.FailsOnlyOnBadShellSpec: the command-line model follows the evidently intended indentation of `cyber_banner`. As written, its body at ejpt_helper.py:29-30 is not indented under the `def`, so the file does not compile and every invocation exits with status 1. A failed read of the credentials file (missing or malformed `data/default_creds.json`, or an entry without `username`) also exits with 1 through the generic handler; the model takes the file's contents as a parameter and does not express that failure.
- Exceptions raised inside the started actions, and `KeyboardInterrupt`: not modelled. `KeyboardInterrupt` exits with 0; any other exception exits with 1. Only the shell-spec `ValueError` (a non-integer port) is modelled, as `Exit(1)`.
- `Cli.LookupIgnoresCase`: "Available" lists the file's services in its key order; the model keeps them as a set.
- Strings.ParseInt: Python's `int()` also accepts surrounding whitespace, underscores between digits and non-ASCII digits; the model accepts only an optional sign and ASCII digits.
- Strings.Upper and Strings.Lower change ASCII letters only; Python's `upper()` and `lower()` also map other Unicode letters.
- Workspace.Path.Child: a name is split at every '/' as `pathlib` does, but empty components (from "//", or a leading or trailing '/') are kept where `pathlib` drops them, "." components are kept, and a name beginning with '/' does not replace the path as an absolute name would. The same holds for the base directory given to the workspace constructor, which is kept as one unnormalised component: a base of "ws/" gives the text "ws//scans" where `pathlib` gives "ws/scans".
- Scanner.ScanCommandWords: the shell (`shell=True`, so `sh -c`) is modelled as splitting at single spaces. Its other whitespace, quoting, `;`, `|`, `&`, `$(...)` and globbing are not modelled; a target like `x;id` would run a second command. `Scanner.PlainCommandWords` states the words are exact only for plain-character names and targets.
- Findings.NewFinding: in the source, the stored `affected_systems` list is the caller's own list object, so a later change to that list shows in the report; the model stores a copy.
- Report.CvssLine: the score is taken as text. A numeric score is also accepted by the source, where 0 and 0.0 are falsy and give no CVSS line; the model cannot express a numeric zero.
