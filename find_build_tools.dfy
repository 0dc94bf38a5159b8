/**
 * The Windows build-tool finder (tools/repoman/findwindowsbuildtools.py):
 * picks a Visual Studio installation from vswhere's list, finds its MSVC
 * version, reads the Windows SDK location from winsdk.bat's environment
 * output, and rewrites the source paths of the matching dependencies in
 * the host-deps file.
 *
 * The file system is a pair of parameters (`pathExists`, `listdir`); vswhere's
 * decoded JSON list, the batch file's standard output and the parsed XML
 * dependencies are inputs.
 */
module FindBuildTools {
  import opened Common

  // ---------------------------------------------------------------------------
  // Windows path joining
  // ---------------------------------------------------------------------------

  predicate IsSep(c: char) { c == '\\' || c == '/' }

  /** A component that starts with a separator replaces what came before. */
  predicate IsRooted(b: string) { |b| > 0 && IsSep(b[0]) }

  /** ntpath.join of two components without drive letters: a separator is
      inserted unless the first is empty or already ends in one. */
  function PathJoin(a: string, b: string): (r: string)
    ensures IsRooted(b) ==> r == b
    ensures !IsRooted(b) && a != "" ==> StartsWith(r, a) && EndsWith(r, b)
    ensures a != "" || b != "" ==> r != ""
  {
    if IsRooted(b) then b
    else if a == "" then b
    else
      var r := if IsSep(a[|a| - 1]) then a + b else a + "\\" + b;
      assert r[..|a|] == a && r[|r| - |b|..] == b;
      r
  }

  /** os.path.join(base, parts[0], parts[1], ...). */
  function JoinAll(base: string, parts: seq<string>): string
    decreases |parts|
  {
    if parts == [] then base else JoinAll(PathJoin(base, parts[0]), parts[1..])
  }

  /** Joining onto a non-empty path never yields the empty path. */
  lemma {:induction false} JoinAllNonEmpty(base: string, parts: seq<string>)
    requires base != ""
    ensures JoinAll(base, parts) != ""
    decreases |parts|
  {
    if parts != [] {
      JoinAllNonEmpty(PathJoin(base, parts[0]), parts[1..]);
    }
  }

  /** A join never loses its base while no later component is rooted. */
  lemma {:induction false} JoinAllKeepsBase(base: string, parts: seq<string>)
    requires base != "" && forall i :: 0 <= i < |parts| ==> !IsRooted(parts[i])
    ensures StartsWith(JoinAll(base, parts), base)
    decreases |parts|
  {
    if parts != [] {
      var next := PathJoin(base, parts[0]);
      JoinAllKeepsBase(next, parts[1..]);
      assert JoinAll(base, parts)[..|next|] == next;
    }
  }

  lemma {:induction false} JoinAllSnoc(base: string, parts: seq<string>, last: string)
    ensures JoinAll(base, parts + [last]) == PathJoin(JoinAll(base, parts), last)
    decreases |parts|
  {
    if parts == [] {
      assert [] + [last] == [last];
    } else {
      assert (parts + [last])[1..] == parts[1..] + [last];
      JoinAllSnoc(PathJoin(base, parts[0]), parts[1..], last);
    }
  }

  const VcParts: seq<string> := ["_build", "host-deps", "buildtools", "VC", "Tools", "MSVC"]

  /** The MSVC tools path of the host-deps file. */
  function VcPath(msvcVer: string): (p: string)
    ensures p != ""
  {
    JoinAllNonEmpty("..", VcParts + [msvcVer]);
    JoinAll("..", VcParts + [msvcVer])
  }

  /** For a relative version the path starts at ".." and ends in the version. */
  lemma VcPathShape(msvcVer: string)
    requires !IsRooted(msvcVer)
    ensures StartsWith(VcPath(msvcVer), "..") && EndsWith(VcPath(msvcVer), msvcVer)
  {
    var parts := VcParts + [msvcVer];
    assert forall i :: 0 <= i < |parts| ==> !IsRooted(parts[i]);
    JoinAllKeepsBase("..", parts);
    JoinAllSnoc("..", VcParts, msvcVer);
    JoinAllNonEmpty("..", VcParts);
  }

  const WinsdkBatParts: seq<string> := ["Common7", "Tools", "vsdevcmd", "core", "winsdk.bat"]
  const MsvcParts: seq<string> := ["VC", "Tools", "MSVC"]
  const VswhereParts: seq<string> := ["Microsoft Visual Studio", "Installer", "vswhere.exe"]

  function WinsdkBatPath(vsPath: string): string {
    JoinAll(vsPath, WinsdkBatParts)
  }

  function MsvcFolder(vsPath: string): string {
    JoinAll(vsPath, MsvcParts)
  }

  function VswherePath(programFiles: string): string {
    JoinAll(programFiles, VswhereParts)
  }

  // ---------------------------------------------------------------------------
  // Splitting the environment lines of winsdk.bat
  // ---------------------------------------------------------------------------

  /** Python's str.split(c): the pieces between occurrences of c. */
  function SplitOn(s: string, c: char): (parts: seq<string>)
    ensures |parts| == CountChar(s, c) + 1
    ensures forall i, j :: 0 <= i < |parts| && 0 <= j < |parts[i]| ==> parts[i][j] != c
    decreases |s|
  {
    if s == [] then [""]
    else
      var rest := SplitOn(s[1..], c);
      if s[0] == c then [""] + rest
      else
        var first := [s[0]] + rest[0];
        assert forall j :: 1 <= j < |first| ==> first[j] == rest[0][j - 1];
        [first] + rest[1..]
  }

  /** str.join with a one-character separator. */
  function JoinWith(parts: seq<string>, c: char): string
    decreases |parts|
  {
    if parts == [] then ""
    else if |parts| == 1 then parts[0]
    else parts[0] + [c] + JoinWith(parts[1..], c)
  }

  /** Splitting loses nothing: joining the pieces gives the line back. */
  lemma {:induction false} JoinSplit(s: string, c: char)
    ensures JoinWith(SplitOn(s, c), c) == s
    decreases |s|
  {
    if s != [] {
      JoinSplit(s[1..], c);
      var rest := SplitOn(s[1..], c);
      if s[0] == c {
        JoinWithEmptyHead(rest, c);
      } else {
        JoinWithCons(s[0], rest, c);
      }
      assert s == [s[0]] + s[1..];
    }
  }

  lemma JoinWithEmptyHead(rest: seq<string>, c: char)
    requires |rest| >= 1
    ensures JoinWith([""] + rest, c) == [c] + JoinWith(rest, c)
  {
    assert ([""] + rest)[1..] == rest;
  }

  lemma JoinWithCons(a: char, rest: seq<string>, c: char)
    requires |rest| >= 1
    ensures JoinWith([[a] + rest[0]] + rest[1..], c) == [a] + JoinWith(rest, c)
  {
    var parts := [[a] + rest[0]] + rest[1..];
    assert parts[1..] == rest[1..];
  }

  /** `line.split("=")[1].rstrip("\\")`; None where the index raises, that
      is when the line holds no '='. */
  function SdkField(line: string): (r: Option<string>)
    ensures r.None? <==> forall i :: 0 <= i < |line| ==> line[i] != '='
    ensures r.Some? ==> r.value == RStrip(SplitOn(line, '=')[1], '\\')
  {
    var parts := SplitOn(line, '=');
    if |parts| < 2 then None else Some(RStrip(parts[1], '\\'))
  }

  datatype EnvKey = SdkDirKey | SdkVersionKey

  /** Which variable a line sets: a line naming WindowsSDKDir sets the
      directory, otherwise one naming WindowsSdkVersion sets the version. */
  function LineKey(line: string): (k: Option<EnvKey>)
    ensures k == Some(SdkDirKey) <==> Contains(line, "WindowsSDKDir")
    ensures k == Some(SdkVersionKey) <==> !Contains(line, "WindowsSDKDir") && Contains(line, "WindowsSdkVersion")
  {
    if Contains(line, "WindowsSDKDir") then Some(SdkDirKey)
    else if Contains(line, "WindowsSdkVersion") then Some(SdkVersionKey)
    else None
  }

  datatype SdkEnv = SdkEnv(dir: string, ver: string) {
    function Get(k: EnvKey): string {
      if k == SdkDirKey then dir else ver
    }
    function Set(k: EnvKey, v: string): SdkEnv {
      if k == SdkDirKey then this.(dir := v) else this.(ver := v)
    }
  }

  /** The variables read so far, or the IndexError a keyed line without '='
      raises (it ends update_host_deps before the file is written). */
  datatype EnvResult = Env(env: SdkEnv) | IndexError

  function EnvStep(r: EnvResult, line: string): EnvResult {
    if r.IndexError? then r
    else match LineKey(line)
      case None => r
      case Some(k) =>
        match SdkField(line)
        case None => IndexError
        case Some(v) => Env(r.env.Set(k, v))
  }

  /** The result of reading `lines` in order, starting from two empty
      variables. */
  function EnvAfter(lines: seq<string>): EnvResult
    decreases |lines|
  {
    if lines == [] then Env(SdkEnv("", ""))
    else EnvStep(EnvAfter(lines[..|lines| - 1]), lines[|lines| - 1])
  }

  /** The loop over the batch file's output lines. */
  method ParseEnvLines(lines: seq<string>) returns (r: EnvResult)
    ensures r == EnvAfter(lines)
  {
    r := Env(SdkEnv("", ""));
    var k := 0;
    while k < |lines|
      invariant 0 <= k <= |lines|
      invariant r == EnvAfter(lines[..k]) && r.Env?
    {
      assert lines[..k + 1][..k] == lines[..k];
      var line := lines[k];
      var key := LineKey(line);
      if key.Some? {
        var field := SdkField(line);
        if field.None? {
          EnvErrorSticks(lines, k + 1);
          return IndexError;
        }
        r := Env(r.env.Set(key.value, field.value));
      }
      k := k + 1;
    }
    assert lines[..k] == lines;
  }

  /** Once raised, the error survives the remaining lines. */
  lemma {:induction false} EnvErrorSticks(lines: seq<string>, k: nat)
    requires k <= |lines| && EnvAfter(lines[..k]).IndexError?
    ensures EnvAfter(lines).IndexError?
    decreases |lines| - k
  {
    if k < |lines| {
      assert lines[..k + 1][..k] == lines[..k];
      EnvErrorSticks(lines, k + 1);
    } else {
      assert lines[..k] == lines;
    }
  }

  /** Reading raises exactly when some line naming one of the variables
      holds no '='. */
  lemma {:induction false} EnvErrorIff(lines: seq<string>)
    ensures EnvAfter(lines).IndexError? <==>
            exists i :: 0 <= i < |lines| && LineKey(lines[i]).Some? && SdkField(lines[i]).None?
    decreases |lines|
  {
    if lines != [] {
      var init := lines[..|lines| - 1];
      EnvErrorIff(init);
      assert forall i :: 0 <= i < |init| ==> init[i] == lines[i];
      if EnvAfter(init).IndexError? {
        var i :| 0 <= i < |init| && LineKey(init[i]).Some? && SdkField(init[i]).None?;
        assert LineKey(lines[i]).Some? && SdkField(lines[i]).None?;
      }
    }
  }

  /** One line either sets variable k to its field, or leaves k alone. */
  lemma EnvStepGet(r: EnvResult, line: string, k: EnvKey)
    requires EnvStep(r, line).Env?
    ensures r.Env?
    ensures LineKey(line) == Some(k) ==> SdkField(line).Some? && EnvStep(r, line).env.Get(k) == SdkField(line).value
    ensures LineKey(line) != Some(k) ==> EnvStep(r, line).env.Get(k) == r.env.Get(k)
  {
  }

  /** A variable no line names stays "". */
  lemma {:induction false} EnvUnsetStaysEmpty(lines: seq<string>, k: EnvKey)
    requires EnvAfter(lines).Env?
    requires forall i :: 0 <= i < |lines| ==> LineKey(lines[i]) != Some(k)
    ensures EnvAfter(lines).env.Get(k) == ""
    decreases |lines|
  {
    if lines != [] {
      var n := |lines| - 1;
      EnvStepGet(EnvAfter(lines[..n]), lines[n], k);
      assert forall i :: 0 <= i < n ==> lines[..n][i] == lines[i];
      EnvUnsetStaysEmpty(lines[..n], k);
    }
  }

  /** Line i is the last line naming variable k, so k holds its field. */
  lemma {:induction false} EnvLastSetterWins(lines: seq<string>, k: EnvKey, i: nat)
    requires EnvAfter(lines).Env?
    requires i < |lines| && LineKey(lines[i]) == Some(k)
    requires forall j :: i < j < |lines| ==> LineKey(lines[j]) != Some(k)
    ensures SdkField(lines[i]).Some? && EnvAfter(lines).env.Get(k) == SdkField(lines[i]).value
    decreases |lines|
  {
    var n := |lines| - 1;
    EnvStepGet(EnvAfter(lines[..n]), lines[n], k);
    if i < n {
      var init := lines[..n];
      assert init[i] == lines[i];
      EnvLastSetterWins(init, k, i);
    }
  }

  /** Later lines overwrite earlier ones: each variable holds the field of
      the last line that sets it, and stays "" when no line does. */
  lemma EnvLastLineWins(lines: seq<string>, k: EnvKey)
    requires EnvAfter(lines).Env?
    ensures (forall i :: 0 <= i < |lines| ==> LineKey(lines[i]) != Some(k)) ==> EnvAfter(lines).env.Get(k) == ""
    ensures forall i :: 0 <= i < |lines| && LineKey(lines[i]) == Some(k) &&
                        (forall j :: i < j < |lines| ==> LineKey(lines[j]) != Some(k)) ==>
                        SdkField(lines[i]).Some? && EnvAfter(lines).env.Get(k) == SdkField(lines[i]).value
  {
    if forall i :: 0 <= i < |lines| ==> LineKey(lines[i]) != Some(k) {
      EnvUnsetStaysEmpty(lines, k);
    }
    forall i | 0 <= i < |lines| && LineKey(lines[i]) == Some(k) &&
               (forall j :: i < j < |lines| ==> LineKey(lines[j]) != Some(k))
      ensures SdkField(lines[i]).Some? && EnvAfter(lines).env.Get(k) == SdkField(lines[i]).value
    {
      EnvLastSetterWins(lines, k, i);
    }
  }

  // ---------------------------------------------------------------------------
  // The SDK directories and the find/replace table
  // ---------------------------------------------------------------------------

  datatype SdkDirs = SdkDirs(bin: string, includeDir: string, lib: string)

  /** join(dir, "bin"/"include"/"lib", ver) when the SDK directory exists;
      all three stay "" otherwise, and always when no line named the
      directory, since os.path.exists("") is false. */
  function SdkDirsOf(env: SdkEnv, pathExists: string -> bool): SdkDirs {
    if env.dir != "" && pathExists(env.dir) then
      SdkDirs(JoinAll(env.dir, ["bin", env.ver]), JoinAll(env.dir, ["include", env.ver]), JoinAll(env.dir, ["lib", env.ver]))
    else SdkDirs("", "", "")
  }

  /** The three SDK directories lie under the SDK directory, end in its
      version, and are pairwise different. */
  lemma SdkDirsDistinct(env: SdkEnv, pathExists: string -> bool)
    requires pathExists(env.dir) && env.dir != "" && !IsRooted(env.ver)
    ensures var d := SdkDirsOf(env, pathExists);
            StartsWith(d.bin, env.dir) && StartsWith(d.includeDir, env.dir) && StartsWith(d.lib, env.dir) &&
            EndsWith(d.bin, env.ver) && EndsWith(d.includeDir, env.ver) && EndsWith(d.lib, env.ver) &&
            d.bin != d.includeDir && d.bin != d.lib && d.includeDir != d.lib
  {
    var dir := env.dir;
    var s := if IsSep(dir[|dir| - 1]) then "" else "\\";
    TwoJoin(dir, s, "bin", env.ver);
    TwoJoin(dir, s, "include", env.ver);
    TwoJoin(dir, s, "lib", env.ver);
    Affixes(dir, s, "bin", env.ver);
    Affixes(dir, s, "include", env.ver);
    Affixes(dir, s, "lib", env.ver);
    SubDirsDiffer(dir, s, "bin", "include", env.ver);
    SubDirsDiffer(dir, s, "bin", "lib", env.ver);
    SubDirsDiffer(dir, s, "include", "lib", env.ver);
  }

  lemma TwoJoin(dir: string, s: string, sub: string, ver: string)
    requires dir != "" && s == (if IsSep(dir[|dir| - 1]) then "" else "\\")
    requires |sub| > 0 && !IsSep(sub[0]) && !IsSep(sub[|sub| - 1]) && !IsRooted(ver)
    ensures JoinAll(dir, [sub, ver]) == dir + s + sub + "\\" + ver
  {
    var p := dir + s + sub;
    PathJoinRelative(dir, sub);
    assert p[|p| - 1] == sub[|sub| - 1];
    PathJoinRelative(p, ver);
    JoinTwo(dir, sub, ver);
  }

  lemma PathJoinRelative(a: string, b: string)
    requires a != "" && !IsRooted(b)
    ensures PathJoin(a, b) == a + (if IsSep(a[|a| - 1]) then "" else "\\") + b
  {
  }

  lemma JoinTwo(base: string, x: string, y: string)
    ensures JoinAll(base, [x, y]) == PathJoin(PathJoin(base, x), y)
  {
    assert [x, y][1..] == [y];
    assert [y][1..] == [];
    var q := PathJoin(PathJoin(base, x), y);
    assert JoinAll(q, []) == q;
    assert JoinAll(PathJoin(base, x), [y]) == JoinAll(q, []);
  }

  lemma Affixes(dir: string, s: string, sub: string, ver: string)
    ensures StartsWith(dir + s + sub + "\\" + ver, dir) && EndsWith(dir + s + sub + "\\" + ver, ver)
  {
    var r := dir + s + sub + "\\" + ver;
    assert r[..|dir|] == dir && r[|r| - |ver|..] == ver;
  }

  /** Sub-directories with different first letters give different paths. */
  lemma SubDirsDiffer(dir: string, s: string, a: string, b: string, ver: string)
    requires |a| > 0 && |b| > 0 && a[0] != b[0]
    ensures dir + s + a + "\\" + ver != dir + s + b + "\\" + ver
  {
    var at := |dir + s|;
    assert (dir + s + a + "\\" + ver)[at] == a[0];
    assert (dir + s + b + "\\" + ver)[at] == b[0];
  }

  /** find_replace_dict, in its insertion order. */
  function FindReplaceTable(vsPath: string, vcPath: string, env: SdkEnv, dirs: SdkDirs): seq<(string, string)> {
    [("buildtools", vsPath), ("vc", vcPath), ("winsdk", env.dir),
     ("winsdk_bin", dirs.bin), ("winsdk_include", dirs.includeDir), ("winsdk_lib", dirs.lib)]
  }

  predicate KeysDistinct(table: seq<(string, string)>) {
    forall i, j :: 0 <= i < j < |table| ==> table[i].0 != table[j].0
  }

  const TableKeys: seq<string> := ["buildtools", "vc", "winsdk", "winsdk_bin", "winsdk_include", "winsdk_lib"]

  /** Six entries keyed by TableKeys in order, so with distinct keys; the
      first two carry the Visual Studio and MSVC paths. */
  predicate TableShaped(t: seq<(string, string)>, vsPath: string, vcPath: string) {
    |t| == 6 && KeysDistinct(t) && (forall i :: 0 <= i < 6 ==> t[i].0 == TableKeys[i]) &&
    t[0].1 == vsPath && t[1].1 == vcPath
  }

  /** The table's keys are the six names above, in order, and distinct. */
  lemma FindReplaceKeysDistinct(vsPath: string, vcPath: string, env: SdkEnv, dirs: SdkDirs)
    ensures TableShaped(FindReplaceTable(vsPath, vcPath, env, dirs), vsPath, vcPath)
  {
    var t := FindReplaceTable(vsPath, vcPath, env, dirs);
    assert t[0].0[0] == 'b' && t[1].0[0] == 'v' && t[2].0[0] == 'w';
    assert |t[2].0| == 6 && |t[3].0| == 10 && |t[4].0| == 14 && |t[5].0| == 10 && |t[0].0| == 10 && |t[1].0| == 2;
    assert t[3].0[7] == 'b' && t[5].0[7] == 'l' && t[3].0[0] == 'w' && t[5].0[0] == 'w';
  }

  // ---------------------------------------------------------------------------
  // Rewriting the host-deps dependencies
  // ---------------------------------------------------------------------------

  /** A <dependency> element: its name attribute (if any) and the path
      attribute of each of its <source> children (if any). */
  datatype Dependency = Dependency(name: Option<string>, sources: seq<Option<string>>)

  /** Every source path of the dependency set to `value`. */
  function WithSourcePaths(d: Dependency, value: string): (r: Dependency)
    ensures r.name == d.name && |r.sources| == |d.sources|
    ensures forall j :: 0 <= j < |r.sources| ==> r.sources[j] == Some(value)
  {
    d.(sources := seq(|d.sources|, _ => Some(value)))
  }

  /** One key of the table applied to one dependency. */
  function ReplaceKey(d: Dependency, entry: (string, string)): Dependency {
    if d.name == Some(entry.0) && entry.1 != "" then WithSourcePaths(d, entry.1) else d
  }

  /** The keys of the table applied in order. */
  function ReplaceAll(d: Dependency, table: seq<(string, string)>): Dependency
    decreases |table|
  {
    if table == [] then d else ReplaceKey(ReplaceAll(d, table[..|table| - 1]), table[|table| - 1])
  }

  function ReplaceEach(deps: seq<Dependency>, table: seq<(string, string)>): seq<Dependency> {
    seq(|deps|, i requires 0 <= i < |deps| => ReplaceAll(deps[i], table))
  }

  /** With distinct keys, a dependency whose name is a key with a non-empty
      value gets that value on all its sources; any other dependency is left
      as it was. */
  lemma {:induction false} ReplaceAllDistinct(d: Dependency, table: seq<(string, string)>)
    requires KeysDistinct(table)
    ensures forall i :: 0 <= i < |table| && d.name == Some(table[i].0) && table[i].1 != "" ==>
                        ReplaceAll(d, table) == WithSourcePaths(d, table[i].1)
    ensures (forall i :: 0 <= i < |table| ==> !(d.name == Some(table[i].0) && table[i].1 != "")) ==>
            ReplaceAll(d, table) == d
    decreases |table|
  {
    if table != [] {
      var n := |table| - 1;
      var init := table[..n];
      assert forall i :: 0 <= i < n ==> init[i] == table[i];
      ReplaceAllDistinct(d, init);
      ReplaceAllKeepsName(d, init);
      var before := ReplaceAll(d, init);
      forall i | 0 <= i < |table| && d.name == Some(table[i].0) && table[i].1 != ""
        ensures ReplaceAll(d, table) == WithSourcePaths(d, table[i].1)
      {
        if i < n {
          assert before == WithSourcePaths(d, table[i].1);
          assert table[n].0 != table[i].0;
        }
      }
    }
  }

  lemma {:induction false} ReplaceAllKeepsName(d: Dependency, table: seq<(string, string)>)
    ensures ReplaceAll(d, table).name == d.name && |ReplaceAll(d, table).sources| == |d.sources|
    decreases |table|
  {
    if table != [] {
      ReplaceAllKeepsName(d, table[..|table| - 1]);
    }
  }

  /** The parsed host-deps file: its <dependency> elements in order. */
  class HostDeps {
    var dependencies: seq<Dependency>

    constructor (deps: seq<Dependency>)
      ensures dependencies == deps
    {
      dependencies := deps;
    }

    /** `for source in dependency.iter("source"): source.attrib["path"] = value`. */
    method SetSourcePaths(i: nat, value: string)
      requires i < |dependencies|
      modifies this
      ensures dependencies == old(dependencies)[i := WithSourcePaths(old(dependencies)[i], value)]
    {
      var j := 0;
      var d := dependencies[i];
      while j < |d.sources|
        invariant 0 <= j <= |d.sources|
        invariant |dependencies| == |old(dependencies)|
        invariant dependencies == old(dependencies)[i := dependencies[i]]
        invariant dependencies[i].name == d.name && |dependencies[i].sources| == |d.sources|
        invariant forall k :: 0 <= k < j ==> dependencies[i].sources[k] == Some(value)
        invariant forall k :: j <= k < |d.sources| ==> dependencies[i].sources[k] == d.sources[k]
      {
        var cur := dependencies[i];
        dependencies := dependencies[i := cur.(sources := cur.sources[j := Some(value)])];
        j := j + 1;
      }
      assert dependencies[i] == WithSourcePaths(d, value);
    }

    /** The loop over the table's keys for one dependency. */
    method UpdateDependency(i: nat, table: seq<(string, string)>)
      requires i < |dependencies|
      modifies this
      ensures dependencies == old(dependencies)[i := ReplaceAll(old(dependencies)[i], table)]
    {
      var k := 0;
      while k < |table|
        invariant 0 <= k <= |table|
        invariant dependencies == old(dependencies)[i := ReplaceAll(old(dependencies)[i], table[..k])]
      {
        assert table[..k + 1][..k] == table[..k];
        var name := dependencies[i].name;
        if name.Some? && table[k].0 == name.value && table[k].1 != "" {
          SetSourcePaths(i, table[k].1);
        }
        k := k + 1;
      }
      assert table[..k] == table;
    }

    /** `for dependency in root.findall("dependency"): ...` */
    method FindReplace(table: seq<(string, string)>)
      modifies this
      ensures dependencies == ReplaceEach(old(dependencies), table)
    {
      var i := 0;
      while i < |dependencies|
        invariant 0 <= i <= |dependencies| == |old(dependencies)|
        invariant forall k :: 0 <= k < i ==> dependencies[k] == ReplaceAll(old(dependencies)[k], table)
        invariant forall k :: i <= k < |dependencies| ==> dependencies[k] == old(dependencies)[k]
      {
        UpdateDependency(i, table);
        i := i + 1;
      }
    }
  }

  /** What update_host_deps writes: the find/replace table it builds, or
      None when reading the batch file's output raises. `batOutput` is the
      output winsdk.bat's wrapper prints when the batch file exists. */
  function HostDepsTable(vsPath: string, msvcVer: string, pathExists: string -> bool, batOutput: seq<string>)
    : (r: Option<seq<(string, string)>>)
    ensures r.Some? ==> TableShaped(r.value, vsPath, VcPath(msvcVer))
  {
    var envResult := if pathExists(WinsdkBatPath(vsPath)) then EnvAfter(batOutput) else Env(SdkEnv("", ""));
    if envResult.IndexError? then None
    else
      var env := envResult.env;
      var dirs := if pathExists(WinsdkBatPath(vsPath)) then SdkDirsOf(env, pathExists) else SdkDirs("", "", "");
      FindReplaceKeysDistinct(vsPath, VcPath(msvcVer), env, dirs);
      Some(FindReplaceTable(vsPath, VcPath(msvcVer), env, dirs))
  }

  /** Without winsdk.bat the update cannot fail and rewrites no SDK
      dependency: all four SDK entries of the table are empty. */
  lemma NoBatchFileNoSdk(vsPath: string, msvcVer: string, pathExists: string -> bool, batOutput: seq<string>)
    requires !pathExists(WinsdkBatPath(vsPath))
    ensures var r := HostDepsTable(vsPath, msvcVer, pathExists, batOutput);
            r.Some? && forall k :: 2 <= k < 6 ==> r.value[k].1 == ""
  {
    var vc := VcPath(msvcVer);
    assert HostDepsTable(vsPath, msvcVer, pathExists, batOutput) == Some(FindReplaceTable(vsPath, vc, SdkEnv("", ""), SdkDirs("", "", "")));
    EmptySdkEntries(vsPath, vc, SdkEnv("", ""), SdkDirs("", "", ""));
  }

  /** When no line of the batch output names WindowsSDKDir, the update
      rewrites no SDK dependency, whatever the file system says exists. */
  lemma NoSdkDirLineNoSdk(vsPath: string, msvcVer: string, pathExists: string -> bool, batOutput: seq<string>)
    requires forall i :: 0 <= i < |batOutput| ==> !Contains(batOutput[i], "WindowsSDKDir")
    requires HostDepsTable(vsPath, msvcVer, pathExists, batOutput).Some?
    ensures var t := HostDepsTable(vsPath, msvcVer, pathExists, batOutput).value;
            forall k :: 2 <= k < 6 ==> t[k].1 == ""
  {
    if pathExists(WinsdkBatPath(vsPath)) {
      EnvUnsetStaysEmpty(batOutput, SdkDirKey);
      var env := EnvAfter(batOutput).env;
      EmptySdkEntries(vsPath, VcPath(msvcVer), env, SdkDirsOf(env, pathExists));
    } else {
      NoBatchFileNoSdk(vsPath, msvcVer, pathExists, batOutput);
    }
  }

  lemma EmptySdkEntries(vsPath: string, vcPath: string, env: SdkEnv, dirs: SdkDirs)
    requires env.dir == "" && dirs.bin == "" && dirs.includeDir == "" && dirs.lib == ""
    ensures var t := FindReplaceTable(vsPath, vcPath, env, dirs);
            forall k :: 2 <= k < 6 ==> t[k].1 == ""
  {
  }

  /** update_host_deps on the parsed file with the decoded batch output:
      false when reading that output raises, leaving the file as it was. */
  method UpdateHostDeps(tree: HostDeps, vsPath: string, msvcVer: string, pathExists: string -> bool, batOutput: seq<string>)
    returns (written: bool)
    modifies tree
    ensures written <==> HostDepsTable(vsPath, msvcVer, pathExists, batOutput).Some?
    ensures written ==> tree.dependencies == ReplaceEach(old(tree.dependencies), HostDepsTable(vsPath, msvcVer, pathExists, batOutput).value)
    ensures !written ==> tree.dependencies == old(tree.dependencies)
  {
    var vcPath := VcPath(msvcVer);
    var env := SdkEnv("", "");
    var dirs := SdkDirs("", "", "");
    if pathExists(WinsdkBatPath(vsPath)) {
      var parsed := ParseEnvLines(batOutput);
      if parsed.IndexError? {
        return false;
      }
      env := parsed.env;
      dirs := SdkDirsOf(env, pathExists);
    }
    tree.FindReplace(FindReplaceTable(vsPath, vcPath, env, dirs));
    return true;
  }

  /** A "vc" dependency always gets the MSVC path; a "buildtools" one gets the
      Visual Studio path when it is non-empty. */
  lemma UpdateTargets(d: Dependency, vsPath: string, msvcVer: string, pathExists: string -> bool, batOutput: seq<string>)
    requires HostDepsTable(vsPath, msvcVer, pathExists, batOutput).Some?
    ensures var t := HostDepsTable(vsPath, msvcVer, pathExists, batOutput).value;
            (d.name == Some("vc") ==> ReplaceAll(d, t) == WithSourcePaths(d, VcPath(msvcVer))) &&
            (d.name == Some("buildtools") && vsPath != "" ==> ReplaceAll(d, t) == WithSourcePaths(d, vsPath))
  {
    var t := HostDepsTable(vsPath, msvcVer, pathExists, batOutput).value;
    ReplaceAllDistinct(d, t);
  }

  /** A dependency whose name is not a key of the table is never touched. */
  lemma OtherDependenciesUnchanged(d: Dependency, vsPath: string, msvcVer: string, pathExists: string -> bool, batOutput: seq<string>)
    requires HostDepsTable(vsPath, msvcVer, pathExists, batOutput).Some?
    requires d.name.None? || d.name.value !in TableKeys
    ensures ReplaceAll(d, HostDepsTable(vsPath, msvcVer, pathExists, batOutput).value) == d
  {
    var t := HostDepsTable(vsPath, msvcVer, pathExists, batOutput).value;
    ReplaceAllDistinct(d, t);
  }

  // ---------------------------------------------------------------------------
  // Finding Visual Studio and its MSVC version
  // ---------------------------------------------------------------------------

  /** One entry of vswhere's JSON list. */
  datatype VsInstall = VsInstall(displayName: string, installationPath: string)

  function Truthy(s: Option<string>): bool {
    s.Some? && s.value != ""
  }

  /** The test find_vs applies to each entry. */
  function SearchMatches(search: string): VsInstall -> bool {
    (v: VsInstall) => Contains(v.displayName, search)
  }

  /** find_vs: None without a Program Files (x86) directory or vswhere.exe;
      otherwise, when listing, the last entry's path, and when searching,
      the path of the first matching entry. */
  function FindVsSpec(search: string, listAll: bool, programFiles: Option<string>, pathExists: string -> bool,
                      installs: seq<VsInstall>): (r: Option<string>)
    ensures !Truthy(programFiles) ==> r.None?
  {
    if !Truthy(programFiles) || !pathExists(VswherePath(programFiles.value)) then None
    else if listAll then (if installs == [] then None else Some(installs[|installs| - 1].installationPath))
    else
      match FirstIndexWhere(installs, SearchMatches(search))
      case None => None
      case Some(i) => Some(installs[i].installationPath)
  }

  /** What find_vs selects once vswhere.exe is found: when listing, the last
      entry's path (None for no entry); when searching, the path of an entry
      whose display name contains the search string and follows only entries
      whose names do not, and None exactly when no name contains it. */
  lemma FindVsSelects(search: string, listAll: bool, programFiles: Option<string>, pathExists: string -> bool,
                      installs: seq<VsInstall>)
    requires Truthy(programFiles) && pathExists(VswherePath(programFiles.value))
    ensures var r := FindVsSpec(search, listAll, programFiles, pathExists, installs);
            (listAll ==> r == (if installs == [] then None else Some(installs[|installs| - 1].installationPath))) &&
            (!listAll && r.Some? ==>
              exists i :: 0 <= i < |installs| && r.value == installs[i].installationPath &&
                          Contains(installs[i].displayName, search) &&
                          forall j :: 0 <= j < i ==> !Contains(installs[j].displayName, search)) &&
            (!listAll ==> (r.None? <==> forall j :: 0 <= j < |installs| ==> !Contains(installs[j].displayName, search)))
  {
    if !listAll {
      var p := SearchMatches(search);
      var k := FirstIndexWhere(installs, p);
      assert forall j :: 0 <= j < |installs| ==> (p(installs[j]) <==> Contains(installs[j].displayName, search));
      if k.Some? {
        assert Contains(installs[k.value].displayName, search);
      }
    }
  }

  /** The loop of find_vs. */
  method FindVs(search: string, listAll: bool, programFiles: Option<string>, pathExists: string -> bool,
                installs: seq<VsInstall>) returns (r: Option<string>)
    ensures r == FindVsSpec(search, listAll, programFiles, pathExists, installs)
  {
    if !Truthy(programFiles) {
      return None;
    }
    if !pathExists(VswherePath(programFiles.value)) {
      return None;
    }
    ghost var p := SearchMatches(search);
    var lastVersion: Option<string> := None;
    var i := 0;
    while i < |installs|
      invariant 0 <= i <= |installs|
      invariant listAll ==> lastVersion == (if i == 0 then None else Some(installs[i - 1].installationPath))
      invariant !listAll ==> lastVersion.None? && forall j :: 0 <= j < i ==> !p(installs[j])
    {
      if listAll {
        lastVersion := Some(installs[i].installationPath);
      } else if Contains(installs[i].displayName, search) {
        assert p(installs[i]);
        FirstIndexWhereIs(installs, p, i);
        SearchSpec(search, programFiles, pathExists, installs);
        return Some(installs[i].installationPath);
      }
      i := i + 1;
    }
    if !listAll {
      assert FirstIndexWhere(installs, p).None?;
      SearchSpec(search, programFiles, pathExists, installs);
    } else {
      ListSpec(search, programFiles, pathExists, installs);
    }
    return lastVersion;
  }

  lemma SearchSpec(search: string, programFiles: Option<string>, pathExists: string -> bool, installs: seq<VsInstall>)
    requires Truthy(programFiles) && pathExists(VswherePath(programFiles.value))
    ensures FindVsSpec(search, false, programFiles, pathExists, installs) ==
            (match FirstIndexWhere(installs, SearchMatches(search))
             case None => None
             case Some(i) => Some(installs[i].installationPath))
  {
  }

  lemma ListSpec(search: string, programFiles: Option<string>, pathExists: string -> bool, installs: seq<VsInstall>)
    requires Truthy(programFiles) && pathExists(VswherePath(programFiles.value))
    ensures FindVsSpec(search, true, programFiles, pathExists, installs) ==
            (if installs == [] then None else Some(installs[|installs| - 1].installationPath))
  {
  }

  lemma FirstIndexWhereIs<T>(s: seq<T>, p: T -> bool, i: nat)
    requires i < |s| && p(s[i]) && forall j :: 0 <= j < i ==> !p(s[j])
    ensures FirstIndexWhere(s, p) == Some(i)
  {
  }

  /** find_msvc_ver: the first entry of the MSVC folder, or None when the
      folder is missing or empty. */
  function FindMsvcVer(vsPath: string, pathExists: string -> bool, listdir: string -> seq<string>): (r: Option<string>)
    ensures r.Some? <==> pathExists(MsvcFolder(vsPath)) && |listdir(MsvcFolder(vsPath))| > 0
    ensures r.Some? ==> r.value == listdir(MsvcFolder(vsPath))[0]
  {
    var folder := MsvcFolder(vsPath);
    if !pathExists(folder) then None
    else
      var vers := listdir(folder);
      if |vers| > 0 then Some(vers[0]) else None
  }

  /** How run_command ends: exit code, the Visual Studio path it found, the
      host-deps path, Visual Studio path and MSVC version it passes to
      update_host_deps when it calls it, and whether that call raised. */
  datatype CommandResult = CommandResult(exitCode: int, vsPath: Option<string>, update: Option<(string, string, string)>,
                                         updateRaised: bool)

  /** Whether update_host_deps raises: decoding the SDK batch file's output
      (when the file exists), reading its lines, or parsing the host-deps
      file. None of these is caught. */
  predicate UpdateRaises(vsPath: string, msvcVer: string, pathExists: string -> bool, batDecodes: bool,
                         batOutput: seq<string>, hostDepsParsed: bool)
  {
    (pathExists(WinsdkBatPath(vsPath)) && !batDecodes) ||
    HostDepsTable(vsPath, msvcVer, pathExists, batOutput).None? || !hostDepsParsed
  }

  /** run_command after argument parsing. `batOutput` is what the SDK batch
      file prints, as lines when `batDecodes` says it decodes; `hostDepsParsed`
      says whether ElementTree reads the host-deps file. An exception raised
      in update_host_deps is not caught, so the interpreter ends with status 1. */
  function RunCommand(vsVer: string, listAll: bool, hostDepsPath: Option<string>, programFiles: Option<string>,
                      pathExists: string -> bool, listdir: string -> seq<string>, installs: seq<VsInstall>,
                      batDecodes: bool, batOutput: seq<string>, hostDepsParsed: bool): (r: CommandResult)
    ensures var vs := FindVsSpec(vsVer, listAll, programFiles, pathExists, installs);
            r.vsPath == vs && (r.exitCode == 1 <==> !Truthy(vs) || r.updateRaised) && (r.exitCode == 0 || r.exitCode == 1)
    ensures r.update.Some? <==>
            var vs := FindVsSpec(vsVer, listAll, programFiles, pathExists, installs);
            !listAll && Truthy(vs) && Truthy(hostDepsPath) && Truthy(FindMsvcVer(vs.value, pathExists, listdir))
    ensures r.update.Some? ==> r.update.value.0 == hostDepsPath.value && Some(r.update.value.1) == r.vsPath &&
                               Some(r.update.value.2) == FindMsvcVer(r.update.value.1, pathExists, listdir) &&
                               r.update.value.2 != ""
    ensures r.updateRaised <==>
            r.update.Some? &&
            ((pathExists(WinsdkBatPath(r.update.value.1)) && !batDecodes) ||
             HostDepsTable(r.update.value.1, r.update.value.2, pathExists, batOutput).None? || !hostDepsParsed)
  {
    var vs := FindVsSpec(vsVer, listAll, programFiles, pathExists, installs);
    if !Truthy(vs) then CommandResult(1, vs, None, false)
    else if listAll then CommandResult(0, vs, None, false)
    else
      var msvc := FindMsvcVer(vs.value, pathExists, listdir);
      if Truthy(hostDepsPath) && Truthy(msvc) then
        var raised := UpdateRaises(vs.value, msvc.value, pathExists, batDecodes, batOutput, hostDepsParsed);
        CommandResult(if raised then 1 else 0, vs, Some((hostDepsPath.value, vs.value, msvc.value)), raised)
      else CommandResult(0, vs, None, false)
  }

  /** Reading the SDK batch file's output raises exactly when the file exists
      and one of the lines it prints that names an SDK variable has no '='. */
  lemma UpdateRaisesIff(vsPath: string, msvcVer: string, pathExists: string -> bool, batOutput: seq<string>)
    ensures HostDepsTable(vsPath, msvcVer, pathExists, batOutput).None? <==>
            pathExists(WinsdkBatPath(vsPath)) &&
            exists i :: 0 <= i < |batOutput| && LineKey(batOutput[i]).Some? && SdkField(batOutput[i]).None?
  {
    EnvErrorIff(batOutput);
  }

  /** Listing never rewrites the host-deps file, and a listing with no
      installation exits with status 1. */
  lemma ListAllNeverUpdates(vsVer: string, hostDepsPath: Option<string>, programFiles: Option<string>,
                            pathExists: string -> bool, listdir: string -> seq<string>, installs: seq<VsInstall>,
                            batDecodes: bool, batOutput: seq<string>, hostDepsParsed: bool)
    ensures RunCommand(vsVer, true, hostDepsPath, programFiles, pathExists, listdir, installs,
                       batDecodes, batOutput, hostDepsParsed).update.None?
    ensures installs == [] ==> RunCommand(vsVer, true, hostDepsPath, programFiles, pathExists, listdir, installs,
                                          batDecodes, batOutput, hostDepsParsed).exitCode == 1
  {
  }
}
