/** The command-line front end of ejpt_helper.py: which single action a set
    of flags selects, how a reverse-shell spec `LHOST:LPORT:TYPE` is read,
    and how a credential lookup finds its service. The actions themselves
    (scans, web checks, payload printing, report writing) are not part of
    this model; the credential file's contents are a parameter. */
module Cli {
  import opened Wrappers
  import opened Strings

  /** The parsed flags: an omitted option is `None`, an omitted switch
      `false`. */
  datatype Args = Args(target: Option<string>, quick: bool, full: bool, web: Option<string>,
                       shell: Option<string>, sqli: bool, xss: bool, lfi: bool,
                       creds: Option<string>, report: bool)

  /** The branches of the dispatch chain, in the order they are tested. */
  datatype Branch = QuickScan | FullScan | WebCheck | ReverseShell | SqliPayloads | XssPayloads
                  | LfiPayloads | CredentialLookup | FullReport | Help

  /** The `if`/`elif` chain of `main`: the first branch whose test holds. */
  function SelectBranch(a: Args): Branch {
    if a.quick && Truthy(a.target) then QuickScan
    else if a.full && Truthy(a.target) then FullScan
    else if Truthy(a.web) then WebCheck
    else if Truthy(a.shell) then ReverseShell
    else if a.sqli then SqliPayloads
    else if a.xss then XssPayloads
    else if a.lfi then LfiPayloads
    else if Truthy(a.creds) then CredentialLookup
    else if a.report then FullReport
    else Help
  }

  /** Each branch's own test, on its own. */
  predicate Guard(a: Args, b: Branch) {
    match b
    case QuickScan => a.quick && Truthy(a.target)
    case FullScan => a.full && Truthy(a.target)
    case WebCheck => Truthy(a.web)
    case ReverseShell => Truthy(a.shell)
    case SqliPayloads => a.sqli
    case XssPayloads => a.xss
    case LfiPayloads => a.lfi
    case CredentialLookup => Truthy(a.creds)
    case FullReport => a.report
    case Help => true
  }

  /** The position of each branch in the chain. */
  function Precedence(b: Branch): nat {
    match b
    case QuickScan => 0
    case FullScan => 1
    case WebCheck => 2
    case ReverseShell => 3
    case SqliPayloads => 4
    case XssPayloads => 5
    case LfiPayloads => 6
    case CredentialLookup => 7
    case FullReport => 8
    case Help => 9
  }

  /** Exactly one branch runs: the selected branch's test holds and the
      test of every branch before it fails. So any branch whose test holds
      and that comes first among those is the one selected. */
  lemma FirstMatch(a: Args)
    ensures Guard(a, SelectBranch(a))
    ensures forall b :: Precedence(b) < Precedence(SelectBranch(a)) ==> !Guard(a, b)
    ensures forall b :: Guard(a, b) && (forall c :: Precedence(c) < Precedence(b) ==> !Guard(a, c)) ==> b == SelectBranch(a)
  {
    var s := SelectBranch(a);
    forall b | Guard(a, b) && (forall c :: Precedence(c) < Precedence(b) ==> !Guard(a, c))
      ensures b == s
    {
      assert Precedence(s) >= Precedence(b);
      assert !(Precedence(b) < Precedence(s));
      assert forall x, y :: Precedence(x) == Precedence(y) ==> x == y;
    }
  }

  /** `--quick` or `--full` without a (non-empty) target does nothing by
      itself: the selection is as if neither switch were given, and
      neither scan runs. */
  lemma ScanSwitchesNeedTarget(a: Args)
    requires !Truthy(a.target)
    ensures SelectBranch(a) == SelectBranch(a.(quick := false, full := false))
    ensures SelectBranch(a) != QuickScan && SelectBranch(a) != FullScan
  {
  }

  // ---------------------------------------------------------------- the shell spec

  /** The reverse-shell parameters. */
  datatype ShellSpec = ShellSpec(lhost: string, lport: int, shellType: string)

  /** Parsing the `--shell` argument: split at every ':'; the host is the
      first field; the port is the second field read as an integer, 4444
      when there is no second field; the type is the third field, "all"
      when there is none. A second field that is not an integer makes
      `int()` raise: `None`. */
  function ParseShellSpec(spec: string): Option<ShellSpec> {
    var parts := Split(spec, ':');
    var lhost := parts[0];
    if |parts| > 1 then
      match ParseInt(parts[1])
      case None => None
      case Some(lport) => Some(ShellSpec(lhost, lport, if |parts| > 2 then parts[2] else "all"))
    else Some(ShellSpec(lhost, 4444, "all"))
  }

  /** The host is the text before the first ':' (all of the spec when there
      is none), and it contains no ':'. */
  lemma ShellHostIsFirstField(spec: string)
    ensures ParseShellSpec(spec).Some? ==>
      var h := ParseShellSpec(spec).value.lhost;
      && ':' !in h && StartsWith(spec, h)
      && (|h| == |spec| || spec[|h|] == ':')
  {
    SplitFirstField(spec, ':');
  }

  /** A full spec reads back as written, for a host and a type without ':'
      and any non-negative port. */
  lemma {:induction false} ShellSpecRoundTrip(host: string, port: nat, shellType: string)
    requires ':' !in host && ':' !in shellType
    ensures ParseShellSpec(host + ":" + NatToString(port) + ":" + shellType) == Some(ShellSpec(host, port, shellType))
  {
    var p := NatToString(port);
    assert ':' !in p by {
      assert forall i :: 0 <= i < |p| ==> IsDigit(p[i]);
    }
    SplitAfterField(p, ':', shellType);
    SplitNoSeparator(shellType, ':');
    assert host + ":" + p + ":" + shellType == host + [':'] + (p + [':'] + shellType);
    SplitAfterField(host, ':', p + [':'] + shellType);
    ParseIntOfNatToString(port);
  }

  /** A spec without ':' is all host, on the default port 4444 with type
      "all"; a spec with only a port takes the type "all". */
  lemma {:induction false} ShellSpecDefaults(host: string, port: nat)
    requires ':' !in host
    ensures ParseShellSpec(host) == Some(ShellSpec(host, 4444, "all"))
    ensures ParseShellSpec(host + ":" + NatToString(port)) == Some(ShellSpec(host, port, "all"))
  {
    SplitNoSeparator(host, ':');
    var p := NatToString(port);
    assert ':' !in p by {
      assert forall i :: 0 <= i < |p| ==> IsDigit(p[i]);
    }
    SplitNoSeparator(p, ':');
    SplitAfterField(host, ':', p);
    ParseIntOfNatToString(port);
  }

  /** Fields after the third are ignored. */
  lemma {:induction false} ShellSpecIgnoresExtraFields(host: string, port: string, shellType: string, rest: string)
    requires ':' !in host && ':' !in port && ':' !in shellType
    ensures ParseShellSpec(host + ":" + port + ":" + shellType + ":" + rest)
         == ParseShellSpec(host + ":" + port + ":" + shellType)
  {
    var long := host + ":" + port + ":" + shellType + ":" + rest;
    var short := host + ":" + port + ":" + shellType;
    assert long == host + [':'] + (port + [':'] + (shellType + [':'] + rest));
    assert short == host + [':'] + (port + [':'] + shellType);
    SplitAfterField(shellType, ':', rest);
    SplitNoSeparator(shellType, ':');
    SplitAfterField(port, ':', shellType + [':'] + rest);
    SplitAfterField(port, ':', shellType);
    SplitAfterField(host, ':', port + [':'] + (shellType + [':'] + rest));
    SplitAfterField(host, ':', port + [':'] + shellType);
  }

  /** An empty or non-numeric port field is rejected whatever follows. */
  lemma {:induction false} ShellSpecBadPort(host: string, port: string, rest: string)
    requires ':' !in host && ':' !in port && ParseInt(port) == None
    ensures ParseShellSpec(host + ":" + port) == None
    ensures ParseShellSpec(host + ":" + port + ":" + rest) == None
  {
    SplitNoSeparator(port, ':');
    SplitAfterField(host, ':', port);
    SplitAfterField(port, ':', rest);
    assert host + ":" + port + ":" + rest == host + [':'] + (port + [':'] + rest);
    SplitAfterField(host, ':', port + [':'] + rest);
  }

  // ---------------------------------------------------------------- the whole run

  /** A default-credential entry of the credential file. */
  datatype DefaultCredential = DefaultCredential(username: string, password: string)

  /** The actions `main` can start, with the arguments it passes them. */
  datatype Action =
    | RunQuickScan(target: string)
    | RunFullScan(target: string)
    | RunWebCheck(url: string)
    | RunReverseShell(spec: ShellSpec)
    | ShowSqliPayloads
    | ShowXssPayloads
    | ShowLfiPayloads
    | ShowCredentials(service: string, entries: seq<DefaultCredential>)
    | UnknownService(available: set<string>)
    | RunFullReport
    | ShowHelp

  /** How a run ends: an action is started, or the generic error handler
      ends the process with exit code 1. */
  datatype Outcome = Started(action: Action) | Exit(code: int)

  /** The `--creds` lookup of default credentials: the service name is
      lower-cased before it is looked up; an unknown service lists the
      services the file offers. */
  function LookupCredentials(all: map<string, seq<DefaultCredential>>, service: string): Action {
    var key := Lower(service);
    if key in all then ShowCredentials(key, all[key]) else UnknownService(all.Keys)
  }

  /** `main` after the flags are parsed, for a credential file `all`. */
  function Run(a: Args, all: map<string, seq<DefaultCredential>>): Outcome {
    match SelectBranch(a)
    case QuickScan => Started(RunQuickScan(a.target.value))
    case FullScan => Started(RunFullScan(a.target.value))
    case WebCheck => Started(RunWebCheck(a.web.value))
    case ReverseShell =>
      (match ParseShellSpec(a.shell.value)
       case None => Exit(1)
       case Some(spec) => Started(RunReverseShell(spec)))
    case SqliPayloads => Started(ShowSqliPayloads)
    case XssPayloads => Started(ShowXssPayloads)
    case LfiPayloads => Started(ShowLfiPayloads)
    case CredentialLookup => Started(LookupCredentials(all, a.creds.value))
    case FullReport => Started(RunFullReport)
    case Help => Started(ShowHelp)
  }

  /** Among the modelled outcomes, the run fails exactly when the shell
      branch is selected and its spec does not parse, and then with exit
      code 1. */
  lemma FailsOnlyOnBadShellSpec(a: Args, all: map<string, seq<DefaultCredential>>)
    ensures Run(a, all).Exit? <==> SelectBranch(a) == ReverseShell && ParseShellSpec(a.shell.value) == None
    ensures Run(a, all).Exit? ==> Run(a, all).code == 1
  {
  }

  /** The shell branch passes the parsed host, port and type on. */
  lemma ShellBranchUsesSpec(a: Args, all: map<string, seq<DefaultCredential>>, host: string, port: nat, shellType: string)
    requires !(a.quick && Truthy(a.target)) && !(a.full && Truthy(a.target)) && !Truthy(a.web)
    requires ':' !in host && ':' !in shellType
    requires a.shell == Some(host + ":" + NatToString(port) + ":" + shellType)
    ensures Run(a, all) == Started(RunReverseShell(ShellSpec(host, port, shellType)))
  {
    ShellSpecRoundTrip(host, port, shellType);
  }

  /** The lookup does not depend on the case of the service name: it finds
      the entries exactly when the lower-cased name is a key, and a name in
      capitals finds the same entries as the name itself. */
  lemma LookupIgnoresCase(all: map<string, seq<DefaultCredential>>, service: string)
    ensures LookupCredentials(all, service).ShowCredentials? <==> Lower(service) in all
    ensures LookupCredentials(all, service).ShowCredentials? ==>
      LookupCredentials(all, service) == ShowCredentials(Lower(service), all[Lower(service)])
    ensures LookupCredentials(all, Upper(service)) == LookupCredentials(all, service)
  {
    LowerOfUpper(service);
  }
}
