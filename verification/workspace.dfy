/** The per-run directory layout of utils/workspace.py and the names of
    the files placed in it. Creating the directories is not part of this
    model. */
module Workspace {
  import opened Wrappers
  import opened Strings

  /** A filesystem path: a first component (the workspace root as given)
      followed by child names. */
  datatype Path = Path(base: string, children: seq<string>) {
    /** `path / name`: as with pathlib, a '/' inside `name` separates
        further components, so the name may reach below this path. */
    function Child(name: string): Path {
      Path(base, children + Split(name, '/'))
    }

    /** This path names an entry directly inside `dir`. */
    predicate IsChildOf(dir: Path) {
      base == dir.base && |children| == |dir.children| + 1 && children[..|dir.children|] == dir.children
    }

    /** The path as text, components separated by '/'. */
    function Text(): string {
      Join([base] + children, "/")
    }
  }

  /** A name without '/' is one component, directly inside the path. */
  lemma PlainChild(p: Path, name: string)
    requires '/' !in name
    ensures p.Child(name) == Path(p.base, p.children + [name])
    ensures p.Child(name).IsChildOf(p)
  {
    SplitNoSeparator(name, '/');
  }

  /** The five subdirectory names are one component each. */
  lemma SubdirectoryPaths(p: Path)
    ensures p.Child("scans") == Path(p.base, p.children + ["scans"])
    ensures p.Child("exploits") == Path(p.base, p.children + ["exploits"])
    ensures p.Child("screenshots") == Path(p.base, p.children + ["screenshots"])
    ensures p.Child("loot") == Path(p.base, p.children + ["loot"])
    ensures p.Child("reports") == Path(p.base, p.children + ["reports"])
  {
    PlainChild(p, "scans");
    PlainChild(p, "exploits");
    PlainChild(p, "screenshots");
    PlainChild(p, "loot");
    PlainChild(p, "reports");
  }

  /** The child is directly inside the path exactly when its name has no
      '/'; otherwise it lies further down. */
  lemma ChildDepth(p: Path, name: string)
    ensures p.Child(name).IsChildOf(p) <==> '/' !in name
    ensures |p.Child(name).children| >= |p.children| + 1
    ensures '/' !in name ==> p.Child(name).children == p.children + [name]
  {
    SplitSingle(name, '/');
    if '/' !in name {
      SplitNoSeparator(name, '/');
    }
  }

  /** The text of `path / name` is the path's text, '/', and the name as
      given: splitting the name at '/' adds components, not characters. */
  lemma ChildText(p: Path, name: string)
    ensures p.Child(name).Text() == p.Text() + "/" + name
  {
    var fields := Split(name, '/');
    assert [p.base] + (p.children + fields) == ([p.base] + p.children) + fields;
    JoinAppend([p.base] + p.children, fields, "/");
    SplitJoin(name, '/');
  }

  /** The name of the scan output file for `target`. */
  function ScanFileName(scanType: string, target: string): string {
    scanType + "_" + ReplaceChar(target, '.', '_') + ".txt"
  }

  /** The scan file name is the scan type, an underscore, the target with
      every '.' turned into '_', and ".txt"; the part taken from the target
      keeps its length and contains no '.'. */
  lemma ScanFileNameShape(scanType: string, target: string)
    ensures var middle := ReplaceChar(target, '.', '_');
      ScanFileName(scanType, target) == scanType + "_" + middle + ".txt" &&
      |middle| == |target| && '.' !in middle &&
      forall i :: 0 <= i < |target| && target[i] != '.' ==> middle[i] == target[i]
  {
  }

  /** Only '.' is replaced: the scan file name contains a '/' exactly when
      the scan type or the target does. */
  lemma ScanFileNameSlash(scanType: string, target: string)
    ensures '/' in ScanFileName(scanType, target) <==> '/' in scanType || '/' in target
  {
    var middle := ReplaceChar(target, '.', '_');
    if '/' in target {
      var i :| 0 <= i < |target| && target[i] == '/';
      assert middle[i] == '/';
    }
    if '/' in middle {
      var i :| 0 <= i < |middle| && middle[i] == '/';
      assert target[i] == '/';
    }
    assert '/' !in "_" && '/' !in ".txt";
  }

  /** Two targets share a scan file (for the same scan type) exactly when
      they agree once every '.' is turned into '_'. */
  lemma {:induction false} SameScanFile(scanType: string, t1: string, t2: string)
    ensures ScanFileName(scanType, t1) == ScanFileName(scanType, t2)
        <==> ReplaceChar(t1, '.', '_') == ReplaceChar(t2, '.', '_')
  {
    var m1, m2 := ReplaceChar(t1, '.', '_'), ReplaceChar(t2, '.', '_');
    var head := scanType + "_";
    if ScanFileName(scanType, t1) == ScanFileName(scanType, t2) {
      var n1, n2 := head + m1 + ".txt", head + m2 + ".txt";
      assert |n1| == |n2|;
      assert m1 == n1[|head|..|n1| - 4];
      assert m2 == n2[|head|..|n2| - 4];
    }
  }

  /** For example, "10.0.0.1" and "10_0_0_1" share a scan file. */
  lemma ScanFileNamesCollide()
    ensures ScanFileName("nmap", "10.0.0.1") == ScanFileName("nmap", "10_0_0_1")
  {
    assert ReplaceChar("10.0.0.1", '.', '_') == "10_0_0_1";
    assert ReplaceChar("10_0_0_1", '.', '_') == "10_0_0_1";
  }

  class Workspace {
    const root: Path
    const scans: Path
    const exploits: Path
    const screenshots: Path
    const loot: Path
    const reports: Path

    /** The layout `__init__` sets up: each subdirectory is the root with
        one more component. */
    predicate Layout() {
      && scans == Path(root.base, root.children + ["scans"])
      && exploits == Path(root.base, root.children + ["exploits"])
      && screenshots == Path(root.base, root.children + ["screenshots"])
      && loot == Path(root.base, root.children + ["loot"])
      && reports == Path(root.base, root.children + ["reports"])
    }

    /** A non-empty `baseDir` is the root as given; otherwise the root is
        "ejpt_workspace_" followed by the run's timestamp. Each subdirectory
        is the root joined with its name. */
    constructor (baseDir: Option<string>, timestamp: string)
      ensures root == if Truthy(baseDir) then Path(baseDir.value, []) else Path("ejpt_workspace_" + timestamp, [])
      ensures scans == root.Child("scans") && exploits == root.Child("exploits")
      ensures screenshots == root.Child("screenshots") && loot == root.Child("loot")
      ensures reports == root.Child("reports")
      ensures Layout()
    {
      var r := if Truthy(baseDir) then Path(baseDir.value, []) else Path("ejpt_workspace_" + timestamp, []);
      SubdirectoryPaths(r);
      root := r;
      scans := r.Child("scans");
      exploits := r.Child("exploits");
      screenshots := r.Child("screenshots");
      loot := r.Child("loot");
      reports := r.Child("reports");
    }

    /** The directories `_create_structure` creates, in order: the root and
        its five distinct subdirectories, each directly under the root. */
    function Directories(): (ds: seq<Path>)
      requires Layout()
      ensures |ds| == 6 && ds[0] == root
      ensures forall i :: 1 <= i < 6 ==> ds[i].IsChildOf(root)
      ensures forall i, j :: 0 <= i < j < 6 ==> ds[i] != ds[j]
    {
      var ds := [root, scans, exploits, screenshots, loot, reports];
      var names := ["", "scans", "exploits", "screenshots", "loot", "reports"];
      assert forall i :: 1 <= i < 6 ==> ds[i] == Path(root.base, root.children + [names[i]]);
      assert forall i :: 1 <= i < 6 ==> ds[i].children[|root.children|] == names[i];
      ds
    }

    /** `get_scan_file(target, scan_type)`: the scan file name under
        `scans`. For a scan type without '/', the file is directly in
        `scans` exactly when the target has no '/'; a network range such as
        "10.0.0.0/24" puts it in a subdirectory of `scans`. */
    function ScanFile(target: string, scanType: string := "nmap"): (p: Path)
      requires Layout()
      ensures p == scans.Child(ScanFileName(scanType, target))
      ensures '/' !in scanType ==> (p.IsChildOf(scans) <==> '/' !in target)
      ensures '/' !in scanType && '/' !in target ==> p.children == scans.children + [ScanFileName(scanType, target)]
    {
      var name := ScanFileName(scanType, target);
      ScanFileNameSlash(scanType, target);
      ChildDepth(scans, name);
      scans.Child(name)
    }

    /** `get_exploit_file(name)`: `name` + ".txt" under `exploits`,
        directly in it exactly when the name has no '/'. */
    function ExploitFile(name: string): (p: Path)
      requires Layout()
      ensures p == exploits.Child(name + ".txt")
      ensures p.IsChildOf(exploits) <==> '/' !in name
    {
      assert '/' !in ".txt";
      ChildDepth(exploits, name + ".txt");
      exploits.Child(name + ".txt")
    }
  }

  /** Replacing a character in a concatenation replaces it in each part. */
  lemma ReplaceCharAppend(a: string, b: string, x: char, y: char)
    ensures ReplaceChar(a + b, x, y) == ReplaceChar(a, x, y) + ReplaceChar(b, x, y)
  {
  }

  /** Only '.' is replaced, so the '/' of a range stays where it is. */
  lemma ReplaceCharRange(address: string, prefix: string)
    ensures ReplaceChar(address + "/" + prefix, '.', '_') ==
      ReplaceChar(address, '.', '_') + "/" + ReplaceChar(prefix, '.', '_')
  {
    ReplaceCharAppend(address + "/", prefix, '.', '_');
    ReplaceCharAppend(address, "/", '.', '_');
    assert ReplaceChar("/", '.', '_') == "/";
  }

  /** The scan file name of a range "address/prefix" is two names joined by
      '/'. */
  lemma RangeScanFileName(scanType: string, address: string, prefix: string)
    ensures ScanFileName(scanType, address + "/" + prefix) ==
      (scanType + "_" + ReplaceChar(address, '.', '_')) + ['/'] + (ReplaceChar(prefix, '.', '_') + ".txt")
  {
    ReplaceCharRange(address, prefix);
    Regroup(scanType + "_", ReplaceChar(address, '.', '_'), ReplaceChar(prefix, '.', '_'), ".txt");
  }

  lemma Regroup(s: string, a: string, p: string, t: string)
    ensures s + (a + "/" + p) + t == (s + a) + ['/'] + (p + t)
  {
  }

  /** A network range "address/prefix" as target: its scan file lands in a
      subdirectory of `scans`, named after the scan type and the address,
      that is not among the directories the workspace creates. */
  lemma RangeTargetNests(ws: Workspace, scanType: string, address: string, prefix: string)
    requires ws.Layout()
    requires '/' !in scanType && '/' !in address && '/' !in prefix
    ensures var sub := ws.scans.Child(scanType + "_" + ReplaceChar(address, '.', '_'));
      && ws.ScanFile(address + "/" + prefix, scanType) == sub.Child(ReplaceChar(prefix, '.', '_') + ".txt")
      && !ws.ScanFile(address + "/" + prefix, scanType).IsChildOf(ws.scans)
      && sub !in ws.Directories()
  {
    var head := scanType + "_" + ReplaceChar(address, '.', '_');
    var tail := ReplaceChar(prefix, '.', '_') + ".txt";
    RangeScanFileName(scanType, address, prefix);
    ScanFileNameSlash(scanType, address);
    ScanFileNameSlash("", prefix);
    assert '/' !in head && '/' !in tail;
    SplitAfterField(head, '/', tail);
    SplitNoSeparator(tail, '/');
    var sub := Path(ws.scans.base, ws.scans.children + [head]);
    PlainChild(ws.scans, head);
    PlainChild(sub, tail);
    assert ws.scans.children + [head, tail] == sub.children + [tail];
    var ds := ws.Directories();
    assert forall i :: 0 <= i < 6 ==> |ds[i].children| <= |ws.root.children| + 1;
  }
}
