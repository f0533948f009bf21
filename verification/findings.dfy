/** The records the report generator stores (core/report_gen.py), the
    severity ranking it sorts by, and the per-severity tally of the
    executive summary. */
module Findings {
  import opened Wrappers
  import opened Strings

  /** The `affected_systems` argument of `add_finding`: a list, or a
      single value that the store wraps into a one-element list. */
  datatype Systems = Many(items: seq<string>) | One(item: string)

  /** A stored finding. `severity` is the caller's severity upper-cased;
      `cvss` and `cve` are `None` when omitted. */
  datatype Finding = Finding(
    title: string,
    severity: string,
    affectedSystems: seq<string>,
    description: string,
    impact: string,
    proofOfConcept: string,
    remediation: string,
    cvss: Option<string>,
    cve: Option<string>,
    timestamp: string)

  datatype Target = Target(ip: string, hostname: string, os: string, services: seq<string>)

  datatype Credential = Credential(system: string, username: string, password: string, service: string, notes: string)

  datatype Screenshot = Screenshot(filename: string, description: string, timestamp: string)

  function SystemsList(affected: Systems): seq<string> {
    match affected
    case Many(items) => items
    case One(item) => [item]
  }

  /** The record `add_finding` builds from its arguments. */
  function NewFinding(title: string, severity: string, affected: Systems, description: string,
                      impact: string, poc: string, remediation: string,
                      cvss: Option<string>, cve: Option<string>, timestamp: string): Finding
  {
    Finding(title, Upper(severity), SystemsList(affected), description, impact, poc,
            remediation, cvss, cve, timestamp)
  }

  /** A finding as the store keeps it: its severity is already upper case. */
  predicate Normalized(f: Finding) {
    Upper(f.severity) == f.severity
  }

  /** Every record `add_finding` builds is normalized, and a single system
      becomes a one-element list. */
  lemma NewFindingNormalized(title: string, severity: string, affected: Systems, description: string,
                             impact: string, poc: string, remediation: string,
                             cvss: Option<string>, cve: Option<string>, timestamp: string)
    ensures var f := NewFinding(title, severity, affected, description, impact, poc, remediation, cvss, cve, timestamp);
      Normalized(f) && |f.severity| == |severity| &&
      (affected.One? ==> f.affectedSystems == [affected.item])
  {
    UpperIdempotent(severity);
  }

  /** The record `add_target` builds: a missing or empty hostname or OS
      becomes "Unknown", missing services an empty list. */
  function NewTarget(ip: string, hostname: Option<string>, os: Option<string>, services: Option<seq<string>>): (t: Target)
    ensures t.hostname != "" && t.os != ""
    ensures t.ip == ip
    ensures t.hostname == if Truthy(hostname) then hostname.value else "Unknown"
    ensures t.os == if Truthy(os) then os.value else "Unknown"
    ensures services.Some? ==> t.services == services.value
    ensures services.None? ==> t.services == []
  {
    Target(ip, OrElse(hostname, "Unknown"), OrElse(os, "Unknown"), ListOrElse(services, []))
  }

  /** The record `add_credential` builds: a missing or empty service becomes
      "Unknown", missing notes the empty string. */
  function NewCredential(system: string, username: string, password: string,
                         service: Option<string>, notes: Option<string>): (c: Credential)
    ensures c.service != ""
    ensures c.system == system && c.username == username && c.password == password
    ensures c.service == if Truthy(service) then service.value else "Unknown"
    ensures notes.Some? ==> c.notes == notes.value
    ensures notes.None? ==> c.notes == ""
  {
    Credential(system, username, password, OrElse(service, "Unknown"), OrElse(notes, ""))
  }

  /** The position of a severity in the report's ordering:
      CRITICAL, HIGH, MEDIUM, LOW, then anything else. */
  function Rank(severity: string): (r: nat)
    ensures r <= 4
  {
    if severity == "CRITICAL" then 0
    else if severity == "HIGH" then 1
    else if severity == "MEDIUM" then 2
    else if severity == "LOW" then 3
    else 4
  }

  predicate SortedByRank(fs: seq<Finding>) {
    forall i, j :: 0 <= i < j < |fs| ==> Rank(fs[i].severity) <= Rank(fs[j].severity)
  }

  /** Puts `f` in front of the first finding whose rank is not smaller. */
  function Insert(f: Finding, fs: seq<Finding>): (r: seq<Finding>)
    ensures multiset(r) == multiset(fs) + multiset{f}
  {
    if fs == [] || Rank(f.severity) <= Rank(fs[0].severity) then [f] + fs
    else
      assert fs == [fs[0]] + fs[1..];
      [fs[0]] + Insert(f, fs[1..])
  }

  /** No finding of `fs` ranks before `k`. */
  predicate RankAtLeast(fs: seq<Finding>, k: nat) {
    forall i :: 0 <= i < |fs| ==> k <= Rank(fs[i].severity)
  }

  lemma {:induction false} InsertRankAtLeast(f: Finding, fs: seq<Finding>, k: nat)
    requires RankAtLeast(fs, k) && k <= Rank(f.severity)
    ensures RankAtLeast(Insert(f, fs), k)
  {
    if !(fs == [] || Rank(f.severity) <= Rank(fs[0].severity)) {
      InsertRankAtLeast(f, fs[1..], k);
    }
  }

  lemma {:induction false} InsertSorted(f: Finding, fs: seq<Finding>)
    requires SortedByRank(fs)
    ensures SortedByRank(Insert(f, fs))
  {
    if fs == [] || Rank(f.severity) <= Rank(fs[0].severity) {
      var r := [f] + fs;
      forall i, j | 0 <= i < j < |r| ensures Rank(r[i].severity) <= Rank(r[j].severity) {
        if i == 0 {
          assert r[j] == fs[j - 1];
          assert Rank(fs[0].severity) <= Rank(fs[j - 1].severity);
        } else {
          assert r[i] == fs[i - 1] && r[j] == fs[j - 1];
        }
      }
    } else {
      var head := fs[0];
      var rest := Insert(f, fs[1..]);
      InsertSorted(f, fs[1..]);
      assert RankAtLeast(fs[1..], Rank(head.severity)) by {
        forall i | 0 <= i < |fs[1..]| ensures Rank(head.severity) <= Rank(fs[1..][i].severity) {
          assert fs[1..][i] == fs[i + 1];
        }
      }
      InsertRankAtLeast(f, fs[1..], Rank(head.severity));
      var r := [head] + rest;
      forall i, j | 0 <= i < j < |r| ensures Rank(r[i].severity) <= Rank(r[j].severity) {
        assert r[j] == rest[j - 1];
        if i > 0 {
          assert r[i] == rest[i - 1];
        }
      }
    }
  }

  /** `sorted(findings, key=rank)`: the findings in rank order, as a
      permutation of the input. */
  function SortBySeverity(fs: seq<Finding>): (r: seq<Finding>)
    ensures multiset(r) == multiset(fs)
    ensures |r| == |fs|
    ensures SortedByRank(r)
  {
    if fs == [] then []
    else
      var sortedTail := SortBySeverity(fs[1..]);
      InsertSorted(fs[0], sortedTail);
      var r := Insert(fs[0], sortedTail);
      assert fs == [fs[0]] + fs[1..];
      assert |r| == |multiset(r)|;
      r
  }

  /** The findings of one rank, in their original order. */
  function OfRank(fs: seq<Finding>, k: nat): seq<Finding> {
    if fs == [] then []
    else (if Rank(fs[0].severity) == k then [fs[0]] else []) + OfRank(fs[1..], k)
  }

  lemma {:induction false} InsertOfRank(f: Finding, fs: seq<Finding>, k: nat)
    ensures OfRank(Insert(f, fs), k) == (if Rank(f.severity) == k then [f] else []) + OfRank(fs, k)
  {
    if fs == [] || Rank(f.severity) <= Rank(fs[0].severity) {
      assert ([f] + fs)[1..] == fs;
    } else {
      var rest := Insert(f, fs[1..]);
      assert ([fs[0]] + rest)[1..] == rest;
      InsertOfRank(f, fs[1..], k);
    }
  }

  /** The sort is stable: among findings of equal rank the sorted order is
      the insertion order. */
  lemma {:induction false} SortIsStable(fs: seq<Finding>, k: nat)
    ensures OfRank(SortBySeverity(fs), k) == OfRank(fs, k)
  {
    if fs != [] {
      InsertOfRank(fs[0], SortBySeverity(fs[1..]), k);
      SortIsStable(fs[1..], k);
    }
  }

  /** Per-severity counts of the executive summary. */
  datatype SeverityCounts = SeverityCounts(critical: nat, high: nat, medium: nat, low: nat)

  function Total(c: SeverityCounts): nat {
    c.critical + c.high + c.medium + c.low
  }

  /** The four buckets the executive summary counts. */
  predicate IsBucket(severity: string) {
    severity == "CRITICAL" || severity == "HIGH" || severity == "MEDIUM" || severity == "LOW"
  }

  /** How many findings have `severity` once upper-cased. */
  function CountOf(fs: seq<Finding>, severity: string): nat {
    if fs == [] then 0
    else (if Upper(fs[0].severity) == severity then 1 else 0) + CountOf(fs[1..], severity)
  }

  lemma {:induction false} CountOfAppend(fs: seq<Finding>, f: Finding, severity: string)
    ensures CountOf(fs + [f], severity) == CountOf(fs, severity) + (if Upper(f.severity) == severity then 1 else 0)
  {
    if fs != [] {
      assert (fs + [f])[1..] == fs[1..] + [f];
      CountOfAppend(fs[1..], f, severity);
    }
  }

  function Tally(fs: seq<Finding>): SeverityCounts {
    SeverityCounts(CountOf(fs, "CRITICAL"), CountOf(fs, "HIGH"), CountOf(fs, "MEDIUM"), CountOf(fs, "LOW"))
  }

  /** How many findings fall in no bucket. */
  function Unbucketed(fs: seq<Finding>): nat {
    if fs == [] then 0
    else (if IsBucket(Upper(fs[0].severity)) then 0 else 1) + Unbucketed(fs[1..])
  }

  /** The summary's total is the number of findings minus those whose
      severity is in no bucket: unknown severities are dropped, not
      counted. */
  lemma {:induction false} TotalDropsUnknown(fs: seq<Finding>)
    ensures Total(Tally(fs)) + Unbucketed(fs) == |fs|
  {
    if fs != [] {
      TotalDropsUnknown(fs[1..]);
    }
  }

  /** For stored findings the summary's buckets are exactly the sort's
      ranks 0 to 3. */
  lemma {:induction false} TallyMatchesRanks(fs: seq<Finding>)
    requires forall i :: 0 <= i < |fs| ==> Normalized(fs[i])
    ensures Tally(fs).critical == |OfRank(fs, 0)|
    ensures Tally(fs).high == |OfRank(fs, 1)|
    ensures Tally(fs).medium == |OfRank(fs, 2)|
    ensures Tally(fs).low == |OfRank(fs, 3)|
  {
    if fs != [] {
      TallyMatchesRanks(fs[1..]);
    }
  }
}
