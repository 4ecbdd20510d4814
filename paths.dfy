/**
 * File-system paths as the tray agent builds and searches them: joining a
 * directory and a name, taking a path's directory, and picking the first
 * existing file from a fixed list of candidates. The file system is a set of
 * existing paths.
 */
module Paths {
  import opened Wrappers
  import opened Text

  /** The tool's file name and the subdirectory searched besides the application directory. */
  const ToolFileName := "dispwin.exe"
  const ScriptsDirectory := "scripts"

  predicate IsSeparator(c: char) { c == '\\' || c == '/' }

  predicate NoSeparator(s: string) { forall i :: 0 <= i < |s| ==> !IsSeparator(s[i]) }

  /** s[n..m] is made of separators only. */
  predicate SeparatorsBetween(s: string, n: nat, m: nat)
    requires n <= m <= |s|
  {
    forall i :: n <= i < m ==> IsSeparator(s[i])
  }

  /** After position n the path holds separators, then a name without any: no separator follows a character that is not one. */
  predicate NameFollows(path: string, n: nat)
  {
    forall i, j :: n <= i < j < |path| && !IsSeparator(path[i]) ==> !IsSeparator(path[j])
  }

  /** Path.Combine(first, second) for a relative `second`: adds a separator only when needed. */
  function Combine(first: string, second: string): string
  {
    if second == "" then first
    else if first == "" then second
    else if IsSeparator(first[|first| - 1]) then first + second
    else first + "\\" + second
  }

  predicate IsDriveLetter(c: char) { 'A' <= c <= 'Z' || 'a' <= c <= 'z' }

  /**
   * Length of a path's root: "X:\" is 3, "X:" without a separator 2, a
   * leading separator 1, and a relative path has none.
   */
  function RootLength(path: string): (n: nat)
    ensures n <= |path| && n <= 3
  {
    if |path| >= 2 && IsDriveLetter(path[0]) && path[1] == ':' then
      (if |path| >= 3 && IsSeparator(path[2]) then 3 else 2)
    else if |path| >= 1 && IsSeparator(path[0]) then 1
    else 0
  }

  /** A path whose root ends in a separator ("X:\..." or "\..."), as the application directory is. */
  predicate IsRooted(path: string)
  {
    RootLength(path) > 0 && IsSeparator(path[RootLength(path) - 1])
  }

  /** GetDirectoryName's first scan: the last separator in path[root..end], or `root` when there is none. */
  function LastSeparator(path: string, root: nat, end: nat): (e: nat)
    requires root <= end <= |path|
    ensures root <= e <= end
    decreases end
  {
    if end <= root then end
    else if IsSeparator(path[end - 1]) then end - 1
    else LastSeparator(path, root, end - 1)
  }

  /** The scan stops at a separator past the root, and none comes after it. */
  lemma {:induction false} LastSeparatorStops(path: string, root: nat, end: nat)
    requires root <= end <= |path|
    ensures var e := LastSeparator(path, root, end);
      && (e > root ==> e < end && IsSeparator(path[e]))
      && forall i :: e < i < end ==> !IsSeparator(path[i])
    decreases end
  {
    if end > root && !IsSeparator(path[end - 1]) {
      LastSeparatorStops(path, root, end - 1);
    }
  }

  /** GetDirectoryName's second scan: `end` moved back over the separators before it, never into the root. */
  function TrimSeparators(path: string, root: nat, end: nat): (e: nat)
    requires root <= end <= |path|
    ensures root <= e <= end
    decreases end
  {
    if end > root && IsSeparator(path[end - 1]) then TrimSeparators(path, root, end - 1) else end
  }

  /** The trimmed-off part is separators only, and what stays does not end in one unless it is the root. */
  lemma {:induction false} TrimSeparatorsStops(path: string, root: nat, end: nat)
    requires root <= end <= |path|
    ensures var e := TrimSeparators(path, root, end);
      && SeparatorsBetween(path, e, end)
      && (e > root ==> !IsSeparator(path[e - 1]))
    decreases end
  {
    if end > root && IsSeparator(path[end - 1]) {
      TrimSeparatorsStops(path, root, end - 1);
    }
  }

  /**
   * Path.GetDirectoryName: None (null) for a root or an empty path; otherwise
   * the path up to its last separator, without the separators before it,
   * but never shorter than the root, so "C:\dispwin.exe" gives "C:\".
   */
  function DirectoryName(path: string): Option<string>
  {
    var root := RootLength(path);
    if |path| <= root then None
    else Some(path[..TrimSeparators(path, root, LastSeparator(path, root, |path|))])
  }

  /**
   * What GetDirectoryName returns: null exactly for a root or an empty path;
   * otherwise a prefix at least as long as the root, not ending in a
   * separator unless it is the root, followed by separators and then a name.
   */
  lemma DirectoryNameShape(path: string)
    ensures var dir := DirectoryName(path);
      && (dir.None? <==> |path| <= RootLength(path))
      && (dir.Some? ==> RootLength(path) <= |dir.value| < |path| && dir.value == path[..|dir.value|])
      && (dir.Some? && |dir.value| > RootLength(path) ==> IsSeparator(path[|dir.value|]) && !IsSeparator(path[|dir.value| - 1]))
      && (dir.Some? ==> NameFollows(path, |dir.value|))
  {
    var root := RootLength(path);
    if |path| > root {
      LastSeparatorStops(path, root, |path|);
      TrimSeparatorsStops(path, root, LastSeparator(path, root, |path|));
    }
  }

  /**
   * DirectoryNameShape pins the result down: a cut `n` past the root,
   * with no separator just before it and one just after it unless it is the
   * root, and followed only by separators and then a name, is the directory.
   */
  lemma DirectoryNameIsUnique(path: string, n: nat)
    requires RootLength(path) <= n < |path|
    requires n > RootLength(path) ==> IsSeparator(path[n]) && !IsSeparator(path[n - 1])
    requires NameFollows(path, n)
    ensures DirectoryName(path) == Some(path[..n])
  {
    DirectoryNameShape(path);
  }

  /** Extending a rooted path keeps its root. */
  lemma RootOfExtension(dir: string, rest: string)
    requires IsRooted(dir)
    ensures RootLength(dir + rest) == RootLength(dir) && IsRooted(dir + rest)
  {
    var p := dir + rest;
    assert p[0] == dir[0];
    if RootLength(dir) == 3 {
      assert p[1] == dir[1] && p[2] == dir[2];
    }
  }

  /**
   * A file named directly inside a rooted directory has that directory as
   * its directory, without trailing separators; a bare root keeps its own.
   */
  lemma DirectoryNameOfCombine(dir: string, name: string)
    requires IsRooted(dir)
    requires name != "" && NoSeparator(name)
    ensures DirectoryName(Combine(dir, name)) == Some(dir[..TrimSeparators(dir, RootLength(dir), |dir|)])
  {
    var n := TrimSeparators(dir, RootLength(dir), |dir|);
    if IsSeparator(dir[|dir| - 1]) {
      assert Combine(dir, name) == dir + "" + name by {
        assert dir + "" == dir;
      }
      DirectoryNameOfJoin(dir, "", name, n);
    } else {
      DirectoryNameOfJoin(dir, "\\", name, n);
    }
  }

  /** The directory of `dir + sep + name`, where `sep` holds the separators Combine adds, if any. */
  lemma DirectoryNameOfJoin(dir: string, sep: string, name: string, n: nat)
    requires IsRooted(dir) && n == TrimSeparators(dir, RootLength(dir), |dir|)
    requires name != "" && NoSeparator(name)
    requires SeparatorsBetween(sep, 0, |sep|)
    requires n == |dir| && n > RootLength(dir) ==> sep != []
    ensures DirectoryName(dir + sep + name) == Some(dir[..n])
  {
    TrimSeparatorsStops(dir, RootLength(dir), |dir|);
    RootOfExtension(dir, sep);
    RootOfExtension(dir + sep, name);
    SeparatorsThenName(dir, sep, name, n);
    DirectoryNameIsUnique(dir + sep + name, n);
  }

  /**
   * `dir + sep + name` where `dir` ends in separators from `n` on, `sep` is
   * separators and `name` has none: after `n` come separators, then a name.
   */
  lemma SeparatorsThenName(dir: string, sep: string, name: string, n: nat)
    requires n <= |dir| && name != [] && NoSeparator(name)
    requires SeparatorsBetween(dir, n, |dir|) && SeparatorsBetween(sep, 0, |sep|)
    requires n == |dir| && n > 0 && !IsSeparator(dir[n - 1]) ==> sep != []
    ensures var p := dir + sep + name; n < |p| && p[..n] == dir[..n]
    ensures var p := dir + sep + name; n > 0 && !IsSeparator(dir[n - 1]) ==> IsSeparator(p[n]) && !IsSeparator(p[n - 1])
    ensures NameFollows(dir + sep + name, n)
  {
    var p := dir + sep + name;
    var m := |dir| + |sep|;
    forall i | 0 <= i < |p|
      ensures p[i] == if i < |dir| then dir[i] else if i < m then sep[i - |dir|] else name[i - m]
    {
    }
  }

  /**
   * The application directory ends in one separator: a file inside it has
   * that directory without the separator, or the root itself when the
   * application sits at a root ("C:\dispwin.exe" gives "C:\").
   */
  lemma DirectoryNameInBaseDirectory(dir: string, name: string)
    requires IsRooted(dir) && IsSeparator(dir[|dir| - 1])
    requires |dir| > RootLength(dir) ==> !IsSeparator(dir[|dir| - 2])
    requires name != "" && NoSeparator(name)
    ensures DirectoryName(Combine(dir, name)) == Some(if |dir| == RootLength(dir) then dir else dir[..|dir| - 1])
  {
    DirectoryNameOfCombine(dir, name);
    var root := RootLength(dir);
    if |dir| > root {
      assert TrimSeparators(dir, root, |dir| - 1) == |dir| - 1;
    } else {
      assert dir[..|dir|] == dir;
    }
  }

  /** A file inside a named subdirectory of a rooted directory has that subdirectory as its directory, whichever way the path was joined. */
  lemma DirectoryNameInSubdirectory(dir: string, sub: string, name: string)
    requires IsRooted(dir)
    requires sub != "" && NoSeparator(sub) && name != "" && NoSeparator(name)
    ensures DirectoryName(Combine(Combine(dir, sub), name)) == Some(Combine(dir, sub))
    ensures DirectoryName(Combine(dir, Combine(sub, name))) == Some(Combine(dir, sub))
  {
    var s := Combine(dir, sub);
    var sep := if IsSeparator(dir[|dir| - 1]) then "" else "\\";
    assert s == dir + sep + sub by {
      assert dir + "" == dir;
    }
    RootOfExtension(dir, sep);
    RootOfExtension(dir + sep, sub);
    assert !IsSeparator(s[|s| - 1]);
    assert TrimSeparators(s, RootLength(s), |s|) == |s|;
    assert s[..|s|] == s;
    DirectoryNameOfCombine(s, name);
    CombineNested(dir, sub, name);
  }

  /** Joining a subdirectory and then a name is joining the subdirectory's relative path. */
  lemma CombineNested(dir: string, sub: string, name: string)
    requires dir != "" && sub != "" && !IsSeparator(sub[|sub| - 1]) && name != ""
    ensures Combine(dir, Combine(sub, name)) == Combine(Combine(dir, sub), name)
  {
    var sep := if IsSeparator(dir[|dir| - 1]) then "" else "\\";
    assert Combine(dir, sub) == dir + sep + sub by {
      assert dir + "" == dir;
    }
    assert Combine(dir, Combine(sub, name)) == dir + sep + (sub + "\\" + name) by {
      assert dir + "" == dir;
    }
  }

  /** Index of the first candidate that exists (the search of Enumerable.FirstOrDefault(File.Exists)). */
  function FirstExisting(candidates: seq<string>, files: set<string>): (r: Option<nat>)
    ensures r.Some? ==> r.value < |candidates| && candidates[r.value] in files
    ensures r.Some? ==> forall j :: 0 <= j < r.value ==> candidates[j] !in files
    ensures r.None? ==> forall j :: 0 <= j < |candidates| ==> candidates[j] !in files
  {
    if candidates == [] then None
    else if candidates[0] in files then Some(0)
    else match FirstExisting(candidates[1..], files)
      case None => None
      case Some(i) => Some(i + 1)
  }

  /** With two candidates the search tries them in order. */
  lemma FirstOfTwo(first: string, second: string, files: set<string>)
    ensures FirstExisting([first, second], files)
      == if first in files then Some(0) else if second in files then Some(1) else None
  {
    var candidates := [first, second];
    var r := FirstExisting(candidates, files);
    assert candidates[0] == first && candidates[1] == second;
    if first in files {
      assert r == Some(0);
    } else if second in files {
      assert r == Some(1);
    } else {
      assert r == None;
    }
  }

  /** Where the calibration tool is looked for: the `scripts` subdirectory first, then the application directory. */
  function DispwinCandidates(baseDirectory: string): seq<string>
  {
    [Combine(Combine(baseDirectory, ScriptsDirectory), ToolFileName), Combine(baseDirectory, ToolFileName)]
  }

  /** FindDispwinExecutable: the first candidate that exists, or none. */
  function FindDispwinExecutable(baseDirectory: string, files: set<string>): Option<string>
  {
    var candidates := DispwinCandidates(baseDirectory);
    match FirstExisting(candidates, files)
    case None => None
    case Some(i) => Some(candidates[i])
  }

  /** The tool in `scripts` wins over the one beside the application; neither means not found. */
  lemma FindDispwinExecutableOrder(baseDirectory: string, files: set<string>)
    ensures var scripts := Combine(Combine(baseDirectory, ScriptsDirectory), ToolFileName);
            var beside := Combine(baseDirectory, ToolFileName);
            FindDispwinExecutable(baseDirectory, files)
              == if scripts in files then Some(scripts)
                 else if beside in files then Some(beside)
                 else None
  {
    FirstOfTwo(Combine(Combine(baseDirectory, ScriptsDirectory), ToolFileName), Combine(baseDirectory, ToolFileName), files);
  }

  /** Where a legacy script is looked for: the application directory first, then `scripts`. */
  function ScriptCandidates(baseDirectory: string, fileName: string): seq<string>
  {
    [Combine(baseDirectory, fileName), Combine(baseDirectory, Combine(ScriptsDirectory, fileName))]
  }

  function FindScript(baseDirectory: string, fileName: string, files: set<string>): Option<string>
  {
    var candidates := ScriptCandidates(baseDirectory, fileName);
    match FirstExisting(candidates, files)
    case None => None
    case Some(i) => Some(candidates[i])
  }

  /** The script beside the application wins over the one in `scripts`; neither means not found. */
  lemma FindScriptOrder(baseDirectory: string, fileName: string, files: set<string>)
    ensures var beside := Combine(baseDirectory, fileName);
            var scripts := Combine(baseDirectory, Combine(ScriptsDirectory, fileName));
            FindScript(baseDirectory, fileName, files)
              == if beside in files then Some(beside)
                 else if scripts in files then Some(scripts)
                 else None
  {
    FirstOfTwo(Combine(baseDirectory, fileName), Combine(baseDirectory, Combine(ScriptsDirectory, fileName)), files);
  }
}
