/** The nmap front end of core/scanner.py: the two scan command lines, and
    the rule table that turns a full scan's text output into an ordered list
    of attack suggestions. Running nmap and printing are not part of this
    model: a scan's captured output is a parameter. */
module Scanner {
  import opened Wrappers
  import opened Strings
  import opened Logging
  import Workspace

  datatype Service = Ftp | Ssh | Web | Smb | Mysql
  datatype Priority = Critical | High | Medium

  /** One suggestion: the service, its port as text, its priority and the
      follow-up commands or notes to try. */
  datatype Suggestion = Suggestion(service: Service, port: string, priority: Priority, vectors: seq<string>)

  // ---------------------------------------------------------------- the rules

  /** The FTP rule needs the port token and the service name, the latter
      matched in the lower-cased output. */
  predicate FtpSeen(output: string) {
    Contains(output, "21/tcp") && Contains(Lower(output), "ftp")
  }

  predicate SshSeen(output: string) {
    Contains(output, "22/tcp") && Contains(Lower(output), "ssh")
  }

  /** Any of the three web port tokens triggers the web rule. */
  predicate WebSeen(output: string) {
    Contains(output, "80/tcp") || Contains(output, "443/tcp") || Contains(output, "8080/tcp")
  }

  /** The SMB rule checks its port token only. */
  predicate SmbSeen(output: string) {
    Contains(output, "445/tcp")
  }

  predicate MysqlSeen(output: string) {
    Contains(output, "3306/tcp") && Contains(Lower(output), "mysql")
  }

  /** Whether the rule for `service` fires on the output. */
  predicate Fires(service: Service, output: string) {
    match service
    case Ftp => FtpSeen(output)
    case Ssh => SshSeen(output)
    case Web => WebSeen(output)
    case Smb => SmbSeen(output)
    case Mysql => MysqlSeen(output)
  }

  /** The web port chosen: "80" when its token occurs, else "443" when its
      token occurs, else "8080". */
  function WebPort(output: string): string {
    if Contains(output, "80/tcp") then "80" else if Contains(output, "443/tcp") then "443" else "8080"
  }

  function WebProtocol(port: string): string {
    if port == "443" then "https" else "http"
  }

  function WebVectors(protocol: string, target: string): seq<string> {
    ["curl " + protocol + "://" + target + "/robots.txt",
     "gobuster dir -u " + protocol + "://" + target + " -w /usr/share/wordlists/dirb/common.txt",
     "nikto -h " + protocol + "://" + target,
     "SQL injection testing on forms",
     "File upload exploitation"]
  }

  /** The fixed priority of each service's suggestion. */
  function PriorityOf(service: Service): Priority {
    match service
    case Ftp => High
    case Ssh => Medium
    case Web => Critical
    case Smb => Critical
    case Mysql => High
  }

  /** The suggestion the rule for `service` appends. */
  function Make(service: Service, output: string, target: string): (s: Suggestion)
    ensures s.service == service && s.priority == PriorityOf(service)
  {
    match service
    case Ftp => Suggestion(Ftp, "21", High, ["ftp " + target, "hydra -L users.txt -P pass.txt ftp://" + target])
    case Ssh => Suggestion(Ssh, "22", Medium, ["ssh root@" + target, "hydra -l root -P pass.txt ssh://" + target])
    case Web =>
      var port := WebPort(output);
      Suggestion(Web, port, Critical, WebVectors(WebProtocol(port), target))
    case Smb => Suggestion(Smb, "445", Critical, ["nmap -p 445 --script smb-vuln-ms17-010 " + target,
                                                  "smbclient -L //" + target + " -N",
                                                  "enum4linux -a " + target])
    case Mysql => Suggestion(Mysql, "3306", High, ["mysql -h " + target + " -u root -p",
                                                   "Test credentials: root:(blank), root:root"])
  }

  /** One rule: its suggestion when it fires, nothing otherwise. */
  function Rule(service: Service, output: string, target: string): seq<Suggestion> {
    if Fires(service, output) then [Make(service, output, target)] else []
  }

  /** The rules for `services`, applied in that order. */
  function Apply(services: seq<Service>, output: string, target: string): seq<Suggestion> {
    if services == [] then []
    else Apply(services[..|services| - 1], output, target) + Rule(services[|services| - 1], output, target)
  }

  /** Applying one more rule appends that rule's result. */
  lemma ApplyStep(services: seq<Service>, k: nat, output: string, target: string)
    requires k < |services|
    ensures Apply(services[..k + 1], output, target) == Apply(services[..k], output, target) + Rule(services[k], output, target)
  {
    assert services[..k + 1][..k] == services[..k];
  }

  /** The order in which the tool tries its rules. */
  function RuleOrder(): seq<Service> {
    [Ftp, Ssh, Web, Smb, Mysql]
  }

  /** The suggestions for a non-empty scan output: the rules in the order
      the tool tries them. */
  function Suggestions(output: string, target: string): seq<Suggestion> {
    Rule(Ftp, output, target) + Rule(Ssh, output, target) + Rule(Web, output, target)
    + Rule(Smb, output, target) + Rule(Mysql, output, target)
  }

  /** Applying five rules is concatenating their results. */
  lemma ApplyFive(a: Service, b: Service, c: Service, d: Service, e: Service, output: string, target: string)
    ensures Apply([a, b, c, d, e], output, target)
         == Rule(a, output, target) + Rule(b, output, target) + Rule(c, output, target)
            + Rule(d, output, target) + Rule(e, output, target)
  {
    var services := [a, b, c, d, e];
    assert services[..4] == [a, b, c, d];
    assert [a, b, c, d][..3] == [a, b, c];
    assert [a, b, c][..2] == [a, b];
    assert [a, b][..1] == [a];
    assert [a][..0] == [];
    assert Apply([a], output, target) == Rule(a, output, target);
    assert Apply([a, b], output, target) == Rule(a, output, target) + Rule(b, output, target);
    assert Apply([a, b, c], output, target) == Apply([a, b], output, target) + Rule(c, output, target);
    assert Apply([a, b, c, d], output, target) == Apply([a, b, c], output, target) + Rule(d, output, target);
  }

  /** The suggestions are the rules applied in `RuleOrder()`. */
  lemma SuggestionsInRuleOrder(output: string, target: string)
    ensures Suggestions(output, target) == Apply(RuleOrder(), output, target)
  {
    ApplyFive(Ftp, Ssh, Web, Smb, Mysql, output, target);
  }

  /** One `if` block of `_cyber_analyze_scan`: the rule's tokens are
      tested on the output and its lower-cased copy, and the suggestion is
      built when they occur. */
  method TryRule(service: Service, text: string, lowered: string, target: string) returns (found: seq<Suggestion>)
    requires lowered == Lower(text)
    ensures found == Rule(service, text, target)
  {
    found := [];
    match service
    case Ftp =>
      if Contains(text, "21/tcp") && Contains(lowered, "ftp") {
        found := [Suggestion(Ftp, "21", High, ["ftp " + target, "hydra -L users.txt -P pass.txt ftp://" + target])];
      }
    case Ssh =>
      if Contains(text, "22/tcp") && Contains(lowered, "ssh") {
        found := [Suggestion(Ssh, "22", Medium, ["ssh root@" + target, "hydra -l root -P pass.txt ssh://" + target])];
      }
    case Web =>
      if Contains(text, "80/tcp") || Contains(text, "443/tcp") || Contains(text, "8080/tcp") {
        var port := if Contains(text, "80/tcp") then "80" else (if Contains(text, "443/tcp") then "443" else "8080");
        var protocol := if port == "443" then "https" else "http";
        found := [Suggestion(Web, port, Critical, WebVectors(protocol, target))];
      }
    case Smb =>
      if Contains(text, "445/tcp") {
        found := [Suggestion(Smb, "445", Critical, ["nmap -p 445 --script smb-vuln-ms17-010 " + target,
                                                    "smbclient -L //" + target + " -N",
                                                    "enum4linux -a " + target])];
      }
    case Mysql =>
      if Contains(text, "3306/tcp") && Contains(lowered, "mysql") {
        found := [Suggestion(Mysql, "3306", High, ["mysql -h " + target + " -u root -p",
                                                   "Test credentials: root:(blank), root:root"])];
      }
  }

  /** `_cyber_analyze_scan`: nothing for an absent or empty output;
      otherwise the rules are tried in turn, FTP, SSH, web, SMB and MySQL,
      each appending at most one suggestion to a growing list. */
  method AnalyzeScan(output: Option<string>, target: string) returns (suggestions: seq<Suggestion>)
    ensures !Truthy(output) ==> suggestions == []
    ensures Truthy(output) ==> suggestions == Suggestions(output.value, target)
  {
    if !Truthy(output) {
      return [];
    }
    var text := output.value;
    var lowered := Lower(text);
    suggestions := [];
    var found := TryRule(Ftp, text, lowered, target);
    suggestions := suggestions + found;
    assert suggestions == found;
    found := TryRule(Ssh, text, lowered, target);
    suggestions := suggestions + found;
    found := TryRule(Web, text, lowered, target);
    suggestions := suggestions + found;
    found := TryRule(Smb, text, lowered, target);
    suggestions := suggestions + found;
    found := TryRule(Mysql, text, lowered, target);
    suggestions := suggestions + found;
  }

  // ---------------------------------------------------------------- properties of the rules

  /** Some suggestion is for `service`. */
  predicate Offered(ss: seq<Suggestion>, service: Service) {
    exists i :: 0 <= i < |ss| && ss[i].service == service
  }

  /** The position of each service in the rule order. */
  function Ordinal(service: Service): nat {
    match service
    case Ftp => 0
    case Ssh => 1
    case Web => 2
    case Smb => 3
    case Mysql => 4
  }

  /** A list of services in strictly increasing rule position. */
  predicate Increasing(services: seq<Service>) {
    forall i, j :: 0 <= i < j < |services| ==> Ordinal(services[i]) < Ordinal(services[j])
  }

  lemma OfferedAppend(a: seq<Suggestion>, b: seq<Suggestion>, service: Service)
    ensures Offered(a + b, service) <==> Offered(a, service) || Offered(b, service)
  {
    if Offered(a, service) {
      var i :| 0 <= i < |a| && a[i].service == service;
      assert (a + b)[i] == a[i];
    }
    if Offered(b, service) {
      var i :| 0 <= i < |b| && b[i].service == service;
      assert (a + b)[|a| + i] == b[i];
    }
    if Offered(a + b, service) {
      var i :| 0 <= i < |a + b| && (a + b)[i].service == service;
      if i >= |a| {
        assert b[i - |a|] == (a + b)[i];
      } else {
        assert a[i] == (a + b)[i];
      }
    }
  }

  /** A single rule offers only its own service, and that exactly when it
      fires. */
  lemma RuleOffers(rule: Service, output: string, target: string, service: Service)
    ensures Offered(Rule(rule, output, target), service) <==> service == rule && Fires(rule, output)
  {
    if service == rule && Fires(rule, output) {
      assert Rule(rule, output, target)[0].service == service;
    }
  }

  /** Applying rules offers a service exactly when it is among the rules
      applied and its rule fires. */
  lemma {:induction false} ApplyOffers(services: seq<Service>, output: string, target: string, service: Service)
    ensures Offered(Apply(services, output, target), service) <==> service in services && Fires(service, output)
  {
    if services != [] {
      var init, last := services[..|services| - 1], services[|services| - 1];
      ApplyOffers(init, output, target, service);
      OfferedAppend(Apply(init, output, target), Rule(last, output, target), service);
      assert services == init + [last];
      assert service in services <==> service in init || service == last;
      RuleOffers(last, output, target, service);
    }
  }

  /** Applying rules yields at most one suggestion per rule, each for a
      service among the rules and with that service's priority. */
  lemma {:induction false} ApplyBounded(services: seq<Service>, output: string, target: string)
    ensures var ss := Apply(services, output, target);
      && |ss| <= |services|
      && (forall i :: 0 <= i < |ss| ==> ss[i].service in services && ss[i].priority == PriorityOf(ss[i].service))
  {
    if services != [] {
      var init, last := services[..|services| - 1], services[|services| - 1];
      ApplyBounded(init, output, target);
      var prev := Apply(init, output, target);
      assert forall i :: 0 <= i < |prev| ==> (prev + Rule(last, output, target))[i] == prev[i];
      assert forall x :: x in init ==> x in services;
    }
  }

  /** Applying rules in increasing order yields suggestions in the same
      order. */
  lemma {:induction false} ApplyOrdered(services: seq<Service>, output: string, target: string)
    requires Increasing(services)
    ensures var ss := Apply(services, output, target);
      forall i, j :: 0 <= i < j < |ss| ==> Ordinal(ss[i].service) < Ordinal(ss[j].service)
  {
    if services != [] {
      var init, last := services[..|services| - 1], services[|services| - 1];
      ApplyOrdered(init, output, target);
      ApplyBounded(init, output, target);
      var prev := Apply(init, output, target);
      var ss := prev + Rule(last, output, target);
      forall i | 0 <= i < |prev| ensures Ordinal(prev[i].service) < Ordinal(last) {
        var k :| 0 <= k < |init| && init[k] == prev[i].service;
        assert services[k] == init[k];
      }
      assert forall i :: 0 <= i < |prev| ==> ss[i] == prev[i];
    }
  }

  /** Each suggestion is present exactly when its rule fires: FTP, SSH and
      MySQL need both their port token and their service name, SMB only
      its port token, the web rule any one of its three port tokens. */
  lemma RulesFire(output: string, target: string)
    ensures var ss := Suggestions(output, target);
      && (Offered(ss, Ftp) <==> FtpSeen(output))
      && (Offered(ss, Ssh) <==> SshSeen(output))
      && (Offered(ss, Web) <==> WebSeen(output))
      && (Offered(ss, Smb) <==> SmbSeen(output))
      && (Offered(ss, Mysql) <==> MysqlSeen(output))
  {
    var order := RuleOrder();
    SuggestionsInRuleOrder(output, target);
    ApplyOffers(order, output, target, Ftp);
    ApplyOffers(order, output, target, Ssh);
    ApplyOffers(order, output, target, Web);
    ApplyOffers(order, output, target, Smb);
    ApplyOffers(order, output, target, Mysql);
  }

  /** The suggestions follow the order FTP, SSH, WEB, SMB, MYSQL, so each
      service appears at most once and there are at most five; every
      suggestion carries its service's fixed priority. */
  lemma SuggestionOrder(output: string, target: string)
    ensures var ss := Suggestions(output, target);
      && |ss| <= 5
      && (forall i, j :: 0 <= i < j < |ss| ==> Ordinal(ss[i].service) < Ordinal(ss[j].service))
      && (forall i, j :: 0 <= i < j < |ss| ==> ss[i].service != ss[j].service)
      && (forall i :: 0 <= i < |ss| ==> ss[i].priority == PriorityOf(ss[i].service))
  {
    SuggestionsInRuleOrder(output, target);
    ApplyBounded(RuleOrder(), output, target);
    ApplyOrdered(RuleOrder(), output, target);
  }

  /** Every text containing "8080/tcp" contains "80/tcp". */
  lemma EightyInEightyEighty(output: string)
    requires Contains(output, "8080/tcp")
    ensures Contains(output, "80/tcp")
  {
    assert "8080/tcp"[2..] == "80/tcp";
    ContainsSuffix(output, "8080/tcp", 2);
  }

  /** The web suggestion's port is "80" whenever "80/tcp" occurs and "443"
      otherwise; it is never "8080", because "80/tcp" occurs inside
      "8080/tcp", so the third choice of the port selection cannot be
      reached. Its commands use https exactly for port 443. */
  lemma WebSuggestion(output: string, target: string)
    requires WebSeen(output)
    ensures var port := WebPort(output);
      && Rule(Web, output, target) == [Suggestion(Web, port, Critical, WebVectors(WebProtocol(port), target))]
      && (port == "80" <==> Contains(output, "80/tcp"))
      && (port == "443" <==> !Contains(output, "80/tcp"))
      && port != "8080"
      && (WebProtocol(port) == "https" <==> port == "443")
  {
    if Contains(output, "8080/tcp") {
      EightyInEightyEighty(output);
    }
  }

  // ---------------------------------------------------------------- command lines and the scanner

  /** `sep.join(words)` split at the separator gives back the words, when
      none of them contains the separator. */
  lemma {:induction false} SplitOfJoin(words: seq<string>, c: char)
    requires |words| >= 1
    requires forall i :: 0 <= i < |words| ==> c !in words[i]
    ensures Split(Join(words, [c]), c) == words
  {
    if |words| == 1 {
      SplitNoSeparator(words[0], c);
    } else {
      SplitOfJoin(words[1..], c);
      SplitAfterField(words[0], c, Join(words[1..], [c]));
      assert [words[0]] + words[1..] == words;
    }
  }

  /** The words of the quick scan command line. */
  function QuickWords(file: string, target: string): seq<string> {
    ["nmap", "-T4", "-F", "--min-rate=1000", "-oN", file, target]
  }

  /** The words of the full scan command line. */
  function FullWords(file: string, target: string): seq<string> {
    ["nmap", "-sC", "-sV", "-p-", "--min-rate=1000", "-oN", file, target]
  }

  /** A command line: its words separated by single spaces. */
  function CommandLine(words: seq<string>): string {
    Join(words, " ")
  }

  /** The shell sees exactly the intended arguments when the file name and
      the target contain no space (the shell's word splitting is modelled
      as splitting at single spaces); the output file is always the
      second-to-last word and the target the last. */
  lemma ScanCommandWords(file: string, target: string)
    requires ' ' !in file && ' ' !in target
    ensures Split(CommandLine(QuickWords(file, target)), ' ') == QuickWords(file, target)
    ensures Split(CommandLine(FullWords(file, target)), ' ') == FullWords(file, target)
  {
    var q := QuickWords(file, target);
    var f := FullWords(file, target);
    assert forall i :: 0 <= i < |q| ==> ' ' !in q[i];
    assert forall i :: 0 <= i < |f| ==> ' ' !in f[i];
    SplitOfJoin(q, ' ');
    SplitOfJoin(f, ' ');
  }

  /** A character the shell gives no meaning to: a letter, a digit, or one
      of . _ - / : = , + @ %. */
  predicate PlainChar(ch: char) {
    || 'a' <= ch <= 'z' || 'A' <= ch <= 'Z' || '0' <= ch <= '9'
    || ch in "._-/:=,+@%"
  }

  /** A non-empty word of plain characters: the shell passes it on as one
      argument, unchanged. */
  predicate PlainWord(w: string) {
    w != [] && forall i :: 0 <= i < |w| ==> PlainChar(w[i])
  }

  /** With a plain file name and a plain target, every word of either scan
      command is plain, so the shell neither splits, expands nor chains
      anything, and its arguments are the intended words. */
  lemma PlainCommandWords(file: string, target: string)
    requires PlainWord(file) && PlainWord(target)
    ensures forall i :: 0 <= i < 7 ==> PlainWord(QuickWords(file, target)[i])
    ensures forall i :: 0 <= i < 8 ==> PlainWord(FullWords(file, target)[i])
    ensures Split(CommandLine(QuickWords(file, target)), ' ') == QuickWords(file, target)
    ensures Split(CommandLine(FullWords(file, target)), ' ') == FullWords(file, target)
  {
    FixedWordsPlain();
    ScanCommandWords(file, target);
  }

  /** The fixed words of both scan commands are plain. */
  lemma FixedWordsPlain()
    ensures PlainWord("nmap") && PlainWord("-T4") && PlainWord("-F") && PlainWord("--min-rate=1000")
    ensures PlainWord("-oN") && PlainWord("-sC") && PlainWord("-sV") && PlainWord("-p-")
  {
  }

  /** A target made of two space-separated parts reaches nmap as two
      arguments: the command has the first part as its target and the
      second part as one word more. */
  lemma SpacedTargetSplits(file: string, first: string, second: string)
    requires ' ' !in file && ' ' !in first && ' ' !in second
    ensures Split(CommandLine(QuickWords(file, first + " " + second)), ' ') == QuickWords(file, first) + [second]
    ensures Split(CommandLine(FullWords(file, first + " " + second)), ' ') == FullWords(file, first) + [second]
  {
    SpacedLastWord(QuickWords(file, first)[..6], first, second);
    assert QuickWords(file, first)[..6] + [first + " " + second] == QuickWords(file, first + " " + second);
    assert QuickWords(file, first)[..6] + [first] == QuickWords(file, first);
    SpacedLastWord(FullWords(file, first)[..7], first, second);
    assert FullWords(file, first)[..7] + [first + " " + second] == FullWords(file, first + " " + second);
    assert FullWords(file, first)[..7] + [first] == FullWords(file, first);
    var q := QuickWords(file, first) + [second];
    var f := FullWords(file, first) + [second];
    assert forall i :: 0 <= i < |q| ==> ' ' !in q[i];
    assert forall i :: 0 <= i < |f| ==> ' ' !in f[i];
    SplitOfJoin(q, ' ');
    SplitOfJoin(f, ' ');
  }

  /** A last word holding a space gives the same command line as that
      word's two parts. */
  lemma SpacedLastWord(init: seq<string>, first: string, second: string)
    requires init != []
    ensures CommandLine(init + [first + " " + second]) == CommandLine(init + [first] + [second])
  {
    JoinAppend(init, [first + " " + second], " ");
    JoinAppend(init + [first], [second], " ");
    JoinAppend(init, [first], " ");
  }

  class Scanner {
    const workspace: Workspace.Workspace
    const logger: EventLog

    constructor (workspace: Workspace.Workspace, logger: EventLog)
      ensures this.workspace == workspace && this.logger == logger
    {
      this.workspace := workspace;
      this.logger := logger;
    }

    /** `quick_scan`: logs the quick command line, whose output file is the
        workspace's "quick" scan file for the target, and returns the scan
        output, which it never analyses. */
    method QuickScan(target: string, scanOutput: Option<string>) returns (result: Option<string>)
      requires workspace.Layout()
      modifies logger`commands
      ensures result == scanOutput
      ensures logger.commands == old(logger.commands)
        + [CommandEntry(CommandLine(QuickWords(workspace.ScanFile(target, "quick").Text(), target)), Some(target))]
    {
      var outputFile := workspace.ScanFile(target, "quick");
      var cmd := CommandLine(QuickWords(outputFile.Text(), target));
      logger.LogCommand(cmd, Some(target));
      result := scanOutput;
    }

    /** `full_scan`: logs the full command line, and analyses the scan
        output only when it is present and non-empty. */
    method FullScan(target: string, scanOutput: Option<string>)
      returns (result: Option<string>, analysis: Option<seq<Suggestion>>)
      requires workspace.Layout()
      modifies logger`commands
      ensures result == scanOutput
      ensures logger.commands == old(logger.commands)
        + [CommandEntry(CommandLine(FullWords(workspace.ScanFile(target, "full").Text(), target)), Some(target))]
      ensures !Truthy(scanOutput) ==> analysis == None
      ensures Truthy(scanOutput) ==> analysis == Some(Suggestions(scanOutput.value, target))
    {
      var outputFile := workspace.ScanFile(target, "full");
      var cmd := CommandLine(FullWords(outputFile.Text(), target));
      logger.LogCommand(cmd, Some(target));
      result := scanOutput;
      analysis := None;
      if Truthy(result) {
        var suggestions := AnalyzeScan(result, target);
        analysis := Some(suggestions);
      }
    }
  }
}
