/**
 * Names the contract preprocessor derives from a parsed file: the proxy package name taken
 * from the file path, and the import lines the generated wrapper and proxy need.
 */
module PreprocessorNames {
  import opened Wrappers
  import opened GoErrors
  import opened PreprocessorAst
  import opened PreprocessorParse

  const FoundationPath: string := "github.com/insolar/insolar/logicrunner/goplugin/foundation"
  const ProxyctxPath: string := "github.com/insolar/insolar/logicrunner/goplugin/proxyctx"
  const CorePath: string := "github.com/insolar/insolar/insolar"

  // ---- The file-name pattern `([^/]+)/([^/]+).(go|insgoc)$` ----

  /** The start of the run of non-slash characters that ends at `p`. */
  function RunStart(s: string, p: nat): (k: nat)
    requires p <= |s|
    ensures k <= p
  {
    if p == 0 || s[p - 1] == '/' then p else RunStart(s, p - 1)
  }

  /** The run holds no slash, and starts at the beginning or right after a slash. */
  lemma {:induction false} RunStartIsRun(s: string, p: nat)
    requires p <= |s|
    ensures var k := RunStart(s, p); '/' !in s[k..p] && (k == 0 || s[k - 1] == '/')
    decreases p
  {
    if p > 0 && s[p - 1] != '/' {
      var k := RunStart(s, p - 1);
      RunStartIsRun(s, p - 1);
      assert s[k..p] == s[k..p - 1] + [s[p - 1]];
    }
  }

  /**
   * What follows the separating slash must be `([^/]+).(go|insgoc)` up to the end. The
   * greedy second group first tries the `go` ending; a text ending in `go` cannot end in
   * `insgoc`, so at most one ending applies. Returns the second group.
   */
  function ValidRest(r: string): (g: Option<string>)
    ensures g.Some? ==> g.value != [] && '/' !in g.value
  {
    var q := if |r| >= 3 && EndsInGo(r) then |r| - 3
      else if |r| >= 7 && EndsInInsgoc(r) then |r| - 7
      else 0;
    if q > 0 && '/' !in r[..q] && r[q] != '\n' then Some(r[..q]) else None
  }

  predicate EndsInGo(r: string)
    requires |r| >= 2
  {
    r[|r| - 2] == 'g' && r[|r| - 1] == 'o'
  }

  predicate EndsInInsgoc(r: string)
    requires |r| >= 6
  {
    r[|r| - 6] == 'i' && r[|r| - 5] == 'n' && r[|r| - 4] == 's'
    && r[|r| - 3] == 'g' && r[|r| - 2] == 'o' && r[|r| - 1] == 'c'
  }

  /** A match whose slash is at `p`: the whole run before it, then a valid rest. */
  function MatchAt(s: string, p: nat): Option<(string, string)>
    requires p < |s|
  {
    var k := RunStart(s, p);
    var g := ValidRest(s[p + 1..]);
    if s[p] == '/' && k < p && g.Some? then Some((s[k..p], g.value)) else None
  }

  /** The leftmost match: the first slash, from `i` on, at which a match ends its first group. */
  function FindFrom(s: string, i: nat): Option<(string, string)>
    requires i <= |s|
    decreases |s| - i
  {
    if i == |s| then None
    else if MatchAt(s, i).Some? then MatchAt(s, i)
    else FindFrom(s, i + 1)
  }

  /** `FindStringSubmatch` of the file-name pattern: the directory and file-stem groups. */
  function MatchFileName(s: string): Option<(string, string)>
  {
    FindFrom(s, 0)
  }

  /** `s` is some path prefix, `dir`, a slash, `file`, one character other than a newline, and the ending. */
  ghost predicate Matches(s: string, dir: string, file: string)
  {
    exists pre: string, c: char, ext: string ::
      (ext == "go" || ext == "insgoc") && c != '\n'
      && s == pre + dir + "/" + file + [c] + ext
      && dir != [] && '/' !in dir && file != [] && '/' !in file
      && (pre == [] || pre[|pre| - 1] == '/')
  }

  lemma {:induction false} FindFromSound(s: string, i: nat)
    requires i <= |s|
    ensures FindFrom(s, i).Some? ==> Matches(s, FindFrom(s, i).value.0, FindFrom(s, i).value.1)
    decreases |s| - i
  {
    if i < |s| {
      if MatchAt(s, i).Some? {
        MatchAtSound(s, i);
      } else {
        FindFromSound(s, i + 1);
      }
    }
  }

  /** A valid rest is the second group, one character other than a newline, and an ending. */
  lemma ValidRestShape(r: string) returns (c: char, ext: string)
    requires ValidRest(r).Some?
    ensures (ext == "go" || ext == "insgoc") && c != '\n' && r == ValidRest(r).value + [c] + ext
  {
    var q := |ValidRest(r).value|;
    c := r[q];
    ext := if |r| >= 3 && EndsInGo(r) then "go" else "insgoc";
    assert r == r[..q] + [r[q]] + r[q + 1..];
  }

  lemma MatchAtSound(s: string, i: nat)
    requires i < |s| && MatchAt(s, i).Some?
    ensures Matches(s, MatchAt(s, i).value.0, MatchAt(s, i).value.1)
  {
    var k := RunStart(s, i);
    RunStartIsRun(s, i);
    var r := s[i + 1..];
    var g := ValidRest(r).value;
    var c, ext := ValidRestShape(r);
    SplitAround(s, k, i);
    MatchesIntro(s, s[..k], s[k..i], g, c, ext);
  }

  lemma SplitAround(s: string, k: nat, i: nat)
    requires k <= i < |s|
    ensures s == s[..k] + s[k..i] + [s[i]] + s[i + 1..]
  {
  }

  lemma MatchesIntro(s: string, pre: string, dir: string, file: string, c: char, ext: string)
    requires (ext == "go" || ext == "insgoc") && c != '\n'
    requires s == pre + dir + "/" + file + [c] + ext
    requires dir != [] && '/' !in dir && file != [] && '/' !in file
    requires pre == [] || pre[|pre| - 1] == '/'
    ensures Matches(s, dir, file)
  {
  }

  /** Whatever the pattern matches has the shape it describes. */
  lemma MatchFileNameSound(s: string)
    ensures MatchFileName(s).Some? ==> Matches(s, MatchFileName(s).value.0, MatchFileName(s).value.1)
  {
    FindFromSound(s, 0);
  }

  /** A slash at which no match ends is passed over. */
  lemma FindFromNext(s: string, i: nat, m: Option<(string, string)>)
    requires i < |s| && MatchAt(s, i).None? && FindFrom(s, i + 1) == m
    ensures FindFrom(s, i) == m
  {
  }

  /** The search stops at the first slash where a match ends. */
  lemma FindFromHere(s: string, i: nat)
    requires i < |s| && MatchAt(s, i).Some?
    ensures FindFrom(s, i) == MatchAt(s, i)
  {
  }

  /** A run of non-slash characters after a slash (or at the start) starts where it seems to. */
  lemma {:induction false} RunStartOf(s: string, k: nat, p: nat)
    requires k <= p <= |s| && '/' !in s[k..p] && (k == 0 || s[k - 1] == '/')
    ensures RunStart(s, p) == k
    decreases p
  {
    if p > k {
      assert s[p - 1] == s[k..p][p - 1 - k];
      assert s[k..p - 1] == s[k..p][..p - 1 - k];
      RunStartOf(s, k, p - 1);
    }
  }

  /** The rest `file.go` or `file.insgoc` gives the group `file`. */
  lemma ValidRestOf(file: string, ext: string)
    requires ext == "go" || ext == "insgoc"
    requires file != [] && '/' !in file
    ensures ValidRest(file + "." + ext) == Some(file)
  {
    var r := file + "." + ext;
    assert r[|file| + 1..] == ext;
    if ext == "insgoc" {
      assert r[|r| - 1] == ext[5];
    }
    assert r[..|file|] == file;
    assert r[|file|] == '.';
  }

  /** The slash before the file stem ends the match `dir`, `file`. */
  lemma MatchAtStemSlash(pre: string, dir: string, file: string, ext: string)
    requires ext == "go" || ext == "insgoc"
    requires dir != [] && '/' !in dir && file != [] && '/' !in file
    requires pre == [] || pre[|pre| - 1] == '/'
    ensures |pre| + |dir| < |pre + dir + "/" + file + "." + ext|
    ensures MatchAt(pre + dir + "/" + file + "." + ext, |pre| + |dir|) == Some((dir, file))
  {
    var tail := file + "." + ext;
    ValidRestOf(file, ext);
    SlashThenTail(pre + dir, file, ext);
    SlashAfterRun(pre + dir + "/" + file + "." + ext, pre, dir, tail);
  }

  /** Regrouping `head/file.ext` as `head` then `/file.ext`. */
  lemma SlashThenTail(head: string, file: string, ext: string)
    ensures head + "/" + file + "." + ext == head + ("/" + (file + "." + ext))
  {
  }

  /** In `pre dir/tail`, the slash after `dir` ends a match with groups `dir` and the rest's group. */
  lemma SlashAfterRun(s: string, pre: string, dir: string, tail: string)
    requires s == pre + dir + ("/" + tail)
    requires dir != [] && '/' !in dir
    requires pre == [] || pre[|pre| - 1] == '/'
    requires ValidRest(tail).Some?
    ensures |pre| + |dir| < |s|
    ensures MatchAt(s, |pre| + |dir|) == Some((dir, ValidRest(tail).value))
  {
    var p := |pre| + |dir|;
    SplitAt(s, pre + dir, "/" + tail);
    SplitAt(s[..p], pre, dir);
    SplitAt(s[p..], "/", tail);
    assert s[|pre|..p] == s[..p][|pre|..];
    assert |pre| > 0 ==> s[|pre| - 1] == s[..p][|pre| - 1];
    RunStartOf(s, |pre|, p);
  }

  lemma SplitAt(s: string, a: string, b: string)
    requires s == a + b
    ensures s[..|a|] == a && s[|a|..] == b
  {
  }

  /**
   * A path `pre dir/file.go` or `pre dir/file.insgoc`, where `pre` is empty or ends in a
   * slash, yields the groups `dir` and `file`.
   */
  lemma MatchFileNameComplete(pre: string, dir: string, file: string, ext: string)
    requires ext == "go" || ext == "insgoc"
    requires dir != [] && '/' !in dir && file != [] && '/' !in file
    requires pre == [] || pre[|pre| - 1] == '/'
    ensures MatchFileName(pre + dir + "/" + file + "." + ext) == Some((dir, file))
  {
    var s := pre + dir + "/" + file + "." + ext;
    var p := |pre| + |dir|;
    StemTailIsLong(pre, dir, file, ext);
    NoMatchBefore(s, 0, p);
    MatchAtStemSlash(pre, dir, file, ext);
    FindFromSkips(s, 0, p);
  }

  /** No match ends at any slash from `i` up to `p`. */
  ghost predicate NoMatchIn(s: string, i: nat, p: nat)
    requires p <= |s|
    decreases p - i
  {
    i >= p || (MatchAt(s, i).None? && NoMatchIn(s, i + 1, p))
  }

  /** Slashes at which no match ends are passed over. */
  lemma {:induction false} FindFromSkips(s: string, i: nat, p: nat)
    requires i <= p < |s| && NoMatchIn(s, i, p) && MatchAt(s, p).Some?
    ensures FindFrom(s, i) == MatchAt(s, p)
    decreases p - i
  {
    if i < p {
      FindFromSkips(s, i + 1, p);
      FindFromNext(s, i, MatchAt(s, p));
    } else {
      FindFromHere(s, i);
    }
  }

  /**
   * What follows the slash at `p` is long enough for a match's second group to reach past `p`
   * from any earlier slash.
   */
  ghost predicate LongTail(s: string, p: nat)
  {
    |s| > p + 7 || (|s| > p + 3 && EndsInGo(s))
  }

  /**
   * No match ends before a slash followed by a long tail: the second group of such a match
   * would hold that slash.
   */
  lemma NoMatchBeforeSlash(s: string, j: nat, p: nat)
    requires j < p < |s| && s[p] == '/' && LongTail(s, p)
    ensures MatchAt(s, j).None?
  {
    if s[j] == '/' {
      var r := s[j + 1..];
      assert r[p - j - 1] == '/';
      assert EndsInGo(r) == EndsInGo(s);
      var q := if |r| >= 3 && EndsInGo(r) then |r| - 3 else |r| - 7;
      if q > p - j - 1 {
        assert r[..q][p - j - 1] == '/';
      }
    }
  }

  lemma {:induction false} NoMatchBefore(s: string, i: nat, p: nat)
    requires i <= p < |s| && s[p] == '/' && LongTail(s, p)
    ensures NoMatchIn(s, i, p)
    decreases p - i
  {
    if i < p {
      NoMatchBeforeSlash(s, i, p);
      NoMatchBefore(s, i + 1, p);
      NoMatchInStep(s, i, p);
    }
  }

  /** In `pre dir/file.ext` the tail after the stem slash is long enough. */
  lemma StemTailIsLong(pre: string, dir: string, file: string, ext: string)
    requires ext == "go" || ext == "insgoc"
    requires file != []
    ensures var s := pre + dir + "/" + file + "." + ext;
      |pre| + |dir| < |s| && s[|pre| + |dir|] == '/' && LongTail(s, |pre| + |dir|)
  {
    var s := pre + dir + "/" + file + "." + ext;
    var p := |pre| + |dir|;
    assert s[p] == '/';
    if ext == "go" {
      assert s[|s| - 2..] == ext;
    }
  }

  lemma NoMatchInStep(s: string, i: nat, p: nat)
    requires i < p <= |s| && MatchAt(s, i).None? && NoMatchIn(s, i + 1, p)
    ensures NoMatchIn(s, i, p)
  {
  }

  /** The dot is not escaped, so any character may stand before the ending: `a/bxgo` matches. */
  lemma UnescapedDotMatchesAnyCharacter()
    ensures MatchFileName("a/bxgo") == Some(("a", "b"))
  {
    var s := "a/bxgo";
    assert MatchAt(s, 0).None?;
    assert RunStart(s, 1) == 0;
    var r := s[2..];
    assert r == "bxgo";
    assert r[..1] == "b";
    assert ValidRest(r) == Some("b");
    assert s[0..1] == "a" && s[1] == '/';
    assert MatchAt(s, 1) == Some(("a", "b"));
  }

  /** Without any slash nothing matches. */
  lemma {:induction false} NoSlashNoMatch(s: string, i: nat)
    requires i <= |s| && '/' !in s
    ensures FindFrom(s, i).None?
    decreases |s| - i
  {
    if i < |s| {
      NoSlashNoMatch(s, i + 1);
    }
  }

  const NoFileNameMatch: Error := Error("couldn't match filename without extension and path")

  /**
   * `ProxyPackageName`: the package name, unless it is `main`; then the file stem; if that is
   * `main` too, the directory.
   */
  function ProxyPackageName(fileName: string, packageName: string): Result<string, Error>
  {
    match MatchFileName(fileName)
    case None => Failure(NoFileNameMatch)
    case Some((dir, file)) =>
      Success(if packageName != "main" then packageName else if file != "main" then file else dir)
  }

  lemma ProxyPackageNameRule(pre: string, dir: string, file: string, ext: string, packageName: string)
    requires ext == "go" || ext == "insgoc"
    requires dir != [] && '/' !in dir && file != [] && '/' !in file
    requires pre == [] || pre[|pre| - 1] == '/'
    ensures var name := ProxyPackageName(pre + dir + "/" + file + "." + ext, packageName);
      name.Success?
      && (packageName != "main" ==> name.value == packageName)
      && (packageName == "main" && file != "main" ==> name.value == file)
      && (packageName == "main" && file == "main" ==> name.value == dir)
  {
    MatchFileNameComplete(pre, dir, file, ext);
  }

  lemma ProxyPackageNameNeedsDirectory(fileName: string, packageName: string)
    requires '/' !in fileName
    ensures ProxyPackageName(fileName, packageName) == Failure(NoFileNameMatch)
  {
    NoSlashNoMatch(fileName, 0);
  }

  // ---- Import lines ----

  /** `strings.TrimLeft` by one character. */
  function TrimLeft(s: string, c: char): (r: string)
    ensures |r| <= |s| && r == s[|s| - |r|..]
    ensures forall k :: 0 <= k < |s| - |r| ==> s[k] == c
    ensures r == [] || r[0] != c
  {
    if s != [] && s[0] == c then TrimLeft(s[1..], c) else s
  }

  /** `strings.TrimRight` by one character. */
  function TrimRight(s: string, c: char): (r: string)
    ensures |r| <= |s| && r == s[..|r|]
    ensures forall k :: |r| <= k < |s| ==> s[k] == c
    ensures r == [] || r[|r| - 1] != c
  {
    if s != [] && s[|s| - 1] == c then TrimRight(s[..|s| - 1], c) else s
  }

  /** `strings.Trim` by one character. */
  function Trim(s: string, c: char): string
  {
    TrimRight(TrimLeft(s, c), c)
  }

  /** Whatever follows the last slash. */
  function AfterLastSlash(s: string): (r: string)
    ensures '/' !in r && |r| <= |s| && r == s[|s| - |r|..]
    ensures |r| < |s| ==> s[|s| - |r| - 1] == '/'
  {
    if s == [] || s[|s| - 1] == '/' then []
    else
      var r := AfterLastSlash(s[..|s| - 1]);
      assert s[..|s| - 1][|s| - 1 - |r|..] + [s[|s| - 1]] == s[|s| - 1 - |r|..];
      r + [s[|s| - 1]]
  }

  /** `filepath.Base` on a slash-separated path: the last element, "." for "", "/" for slashes only. */
  function Base(path: string): (b: string)
    ensures b != []
  {
    if path == [] then "."
    else
      var stripped := TrimRight(path, '/');
      var last := AfterLastSlash(stripped);
      if last == [] then "/" else last
  }

  lemma BaseOfJoin(dir: string, name: string)
    requires name != [] && '/' !in name
    ensures Base(dir + "/" + name) == name
  {
    var s := dir + "/" + name;
    assert TrimRight(s, '/') == s;
    AfterLastSlashOf(dir + "/", name);
  }

  lemma {:induction false} AfterLastSlashOf(prefix: string, name: string)
    requires prefix != [] && prefix[|prefix| - 1] == '/' && '/' !in name
    ensures AfterLastSlash(prefix + name) == name
    decreases |name|
  {
    if name == [] {
      assert prefix + name == prefix;
    } else {
      var init := name[..|name| - 1];
      var last := name[|name| - 1];
      assert name == init + [last];
      AfterLastSlashOf(prefix, init);
      AfterLastSlashSnoc(prefix + init, last);
      assert prefix + name == (prefix + init) + [last];
    }
  }

  /** A character other than a slash extends the last element. */
  lemma AfterLastSlashSnoc(s: string, c: char)
    requires c != '/'
    ensures AfterLastSlash(s + [c]) == AfterLastSlash(s) + [c]
  {
    assert (s + [c])[..|s|] == s;
  }

  /** The name an import is referred to by: its alias, or the last element of its path. */
  function ImportAlias(imp: Import): string
  {
    match imp.alias
    case Some(a) => a
    case None => Base(Trim(imp.path, '"'))
  }

  /** The import line as it is copied into the generated code. */
  function ImportValue(imp: Import): string
  {
    match imp.alias
    case Some(a) => a + " " + imp.path
    case None => imp.path
  }

  function IndexOfDot(s: string): (k: nat)
    requires '.' in s
    ensures k < |s| && s[k] == '.' && '.' !in s[..k]
  {
    if s[0] == '.' then 0
    else
      var k := IndexOfDot(s[1..]) + 1;
      assert s[..k] == [s[0]] + s[1..][..k - 1];
      k
  }

  /** The package qualifier of a type text, pointer stars trimmed: `*pkg.T` gives `pkg`. */
  function PackageOf(typeText: string): (p: Option<string>)
    ensures p.Some? ==> '.' !in p.value
  {
    var t := Trim(typeText, '*');
    if '.' in t then Some(t[..IndexOfDot(t)]) else None
  }

  /** The first file import referred to by `pkg`. */
  function MatchImport(imports: seq<Import>, pkg: string): Option<string>
  {
    if imports == [] then None
    else if ImportAlias(imports[0]) == pkg then Some(ImportValue(imports[0]))
    else MatchImport(imports[1..], pkg)
  }

  /** The match is the value of the first import whose alias is `pkg`, and there is one iff some import has that alias. */
  lemma {:induction false} MatchImportIsFirst(imports: seq<Import>, pkg: string)
    ensures MatchImport(imports, pkg).Some? <==> exists i :: 0 <= i < |imports| && ImportAlias(imports[i]) == pkg
    ensures MatchImport(imports, pkg).Some? ==> exists i :: (0 <= i < |imports| && ImportAlias(imports[i]) == pkg
      && MatchImport(imports, pkg).value == ImportValue(imports[i])
      && forall j :: 0 <= j < i ==> ImportAlias(imports[j]) != pkg)
    decreases |imports|
  {
    if imports != [] && ImportAlias(imports[0]) != pkg {
      MatchImportIsFirst(imports[1..], pkg);
      assert forall i :: 1 <= i < |imports| ==> imports[i] == imports[1..][i - 1];
      if MatchImport(imports, pkg).Some? {
        var i :| 0 <= i < |imports[1..]| && ImportAlias(imports[1..][i]) == pkg
          && MatchImport(imports, pkg).value == ImportValue(imports[1..][i])
          && forall j :: 0 <= j < i ==> ImportAlias(imports[1..][j]) != pkg;
        assert forall j :: 1 <= j < i + 1 ==> ImportAlias(imports[j]) != pkg;
      }
    }
  }

  /** `fmt.Sprintf(`"%s"`, path)`. */
  function Quoted(path: string): string
  {
    "\"" + path + "\""
  }

  /** The foundation import, when some parameter has type `error`. */
  function ErrorImport(params: seq<Field>): (keys: set<string>)
    ensures keys == {} || keys == {Quoted(FoundationPath)}
  {
    if exists i :: 0 <= i < |params| && Text(params[i].typ) == "error" then {Quoted(FoundationPath)} else {}
  }

  /** The import that one parameter's package qualifier refers to, if any. */
  function ParamImport(f: Field, imports: seq<Import>): set<string>
  {
    match PackageOf(Text(f.typ))
    case None => {}
    case Some(pkg) =>
      match MatchImport(imports, pkg)
      case None => {}
      case Some(v) => {v}
  }

  function ParamImports(params: seq<Field>, imports: seq<Import>): set<string>
  {
    if params == [] then {}
    else ParamImports(params[..|params| - 1], imports) + ParamImport(params[|params| - 1], imports)
  }

  /** The keys `extendImportsMap` sets for one field list. */
  function NeededImports(params: seq<Field>, imports: seq<Import>): set<string>
  {
    ErrorImport(params) + ParamImports(params, imports)
  }

  /** A map holding `true` for each key. */
  function AllTrue(keys: set<string>): (m: map<string, bool>)
    ensures m.Keys == keys && forall k :: k in m ==> m[k]
  {
    map k | k in keys :: true
  }

  /** A qualified parameter type brings in the first import of that package. */
  lemma QualifiedTypeImported(params: seq<Field>, imports: seq<Import>, i: nat, pkg: string)
    requires i < |params| && PackageOf(Text(params[i].typ)) == Some(pkg)
    requires MatchImport(imports, pkg).Some?
    ensures MatchImport(imports, pkg).value in NeededImports(params, imports)
  {
    ParamImportsCollect(params, imports, i);
    assert MatchImport(imports, pkg).value in ParamImport(params[i], imports);
  }

  /** Every parameter's import is among the parameters' imports. */
  lemma {:induction false} ParamImportsCollect(params: seq<Field>, imports: seq<Import>, i: nat)
    requires i < |params|
    ensures ParamImport(params[i], imports) <= ParamImports(params, imports)
    decreases |params|
  {
    var init := params[..|params| - 1];
    if i < |params| - 1 {
      assert init[i] == params[i];
      ParamImportsCollect(init, imports, i);
    }
  }

  /** Without `error` types and package-qualified types, nothing is added. */
  lemma {:induction false} PlainParamsNeedNothing(params: seq<Field>, imports: seq<Import>)
    requires forall i :: 0 <= i < |params| ==> Text(params[i].typ) != "error" && PackageOf(Text(params[i].typ)).None?
    ensures NeededImports(params, imports) == {}
    decreases |params|
  {
    if params != [] {
      PlainParamsNeedNothing(params[..|params| - 1], imports);
    }
  }

  /** The inner loop of `extendImportsMap`: the first import whose alias is `pkg`. */
  method FindImport(imports: seq<Import>, pkg: string) returns (v: Option<string>)
    ensures v == MatchImport(imports, pkg)
  {
    for i := 0 to |imports|
      invariant MatchImport(imports, pkg) == MatchImport(imports[i..], pkg)
    {
      assert imports[i..][1..] == imports[i + 1..];
      if ImportAlias(imports[i]) == pkg {
        return Some(ImportValue(imports[i]));
      }
    }
    return None;
  }

  /** Adding keys in two steps adds their union. */
  lemma MergeAllTrue(m: map<string, bool>, a: set<string>, b: set<string>)
    ensures m + AllTrue(a) + AllTrue(b) == m + AllTrue(a + b)
  {
    var l := m + AllTrue(a) + AllTrue(b);
    var r := m + AllTrue(a + b);
    assert l.Keys == r.Keys;
    forall k | k in l
      ensures l[k] == r[k]
    {
    }
  }

  /** Setting one key to `true` adds that key. */
  lemma AddKey(m: map<string, bool>, k: string)
    ensures m[k := true] == m + AllTrue({k})
  {
    assert m[k := true].Keys == (m + AllTrue({k})).Keys;
  }

  lemma AddNothing(m: map<string, bool>)
    ensures m + AllTrue({}) == m
  {
    assert (m + AllTrue({})).Keys == m.Keys;
  }

  /** The import one parameter brings in, found as the second loop of `extendImportsMap` finds it. */
  method ParamImportOf(f: Field, fileImports: seq<Import>) returns (v: Option<string>)
    ensures ParamImport(f, fileImports) == if v.Some? then {v.value} else {}
  {
    var tname := Trim(Text(f.typ), '*');
    if '.' !in tname {
      return None;
    }
    v := FindImport(fileImports, tname[..IndexOfDot(tname)]);
  }

  /** The first loop of `extendImportsMap`: the foundation import for an `error` parameter. */
  method AddErrorImport(params: seq<Field>, imports: map<string, bool>) returns (result: map<string, bool>)
    ensures result == imports + AllTrue(ErrorImport(params))
  {
    result := imports;
    assert result == imports + AllTrue({});
    for i := 0 to |params|
      invariant result == imports + AllTrue(ErrorImport(params[..i]))
    {
      assert forall j :: 0 <= j < i ==> params[..i + 1][j] == params[..i][j];
      assert params[..i + 1][i] == params[i];
      if Text(params[i].typ) == "error" {
        assert ErrorImport(params[..i + 1]) == {Quoted(FoundationPath)};
        MergeAllTrue(imports, ErrorImport(params[..i]), {Quoted(FoundationPath)});
        result := result[Quoted(FoundationPath) := true];
      } else {
        assert ErrorImport(params[..i + 1]) == ErrorImport(params[..i]);
      }
    }
    assert params[..|params|] == params;
  }

  /** The second loop of `extendImportsMap`: the import each qualified parameter type refers to. */
  method AddParamImports(params: seq<Field>, fileImports: seq<Import>, imports: map<string, bool>)
    returns (result: map<string, bool>)
    ensures result == imports + AllTrue(ParamImports(params, fileImports))
  {
    result := imports;
    AddNothing(imports);
    for i := 0 to |params|
      invariant result == imports + AllTrue(ParamImports(params[..i], fileImports))
    {
      ParamImportsStep(params, i, fileImports);
      MergeAllTrue(imports, ParamImports(params[..i], fileImports), ParamImport(params[i], fileImports));
      var v := ParamImportOf(params[i], fileImports);
      if v.Some? {
        AddKey(result, v.value);
        result := result[v.value := true];
      } else {
        AddNothing(result);
      }
    }
    assert params[..|params|] == params;
  }

  lemma ParamImportsStep(params: seq<Field>, i: nat, fileImports: seq<Import>)
    requires i < |params|
    ensures ParamImports(params[..i + 1], fileImports)
      == ParamImports(params[..i], fileImports) + ParamImport(params[i], fileImports)
  {
    assert params[..i + 1][..i] == params[..i];
    assert params[..i + 1][i] == params[i];
  }

  /**
   * `extendImportsMap`: the foundation import when some parameter is an `error`, and for each
   * package-qualified parameter type the first file import of that package.
   */
  method ExtendImportsMap(params: seq<Field>, fileImports: seq<Import>, imports: map<string, bool>)
    returns (result: map<string, bool>)
    ensures result == imports + AllTrue(NeededImports(params, fileImports))
  {
    if NumFields(params) == 0 {
      assert imports + AllTrue({}) == imports;
      return imports;
    }
    result := AddErrorImport(params, imports);
    result := AddParamImports(params, fileImports, result);
    MergeAllTrue(imports, ErrorImport(params), ParamImports(params, fileImports));
  }

  /** The keys the methods' and constructors' signatures contribute. */
  function FuncImports(fds: seq<FuncDecl>, fileImports: seq<Import>, wrapper: bool): set<string>
  {
    if fds == [] then {}
    else
      FuncImports(fds[..|fds| - 1], fileImports, wrapper) + SignatureImports(fds[|fds| - 1], fileImports, wrapper)
  }

  /** The fixed imports: proxyctx always, the core package for the proxy only. */
  function BaseImports(wrapper: bool): set<string>
  {
    {Quoted(ProxyctxPath)} + (if wrapper then {} else {Quoted(CorePath)})
  }

  function ListAt(m: map<string, seq<FuncDecl>>, k: string): seq<FuncDecl>
  {
    if k in m then m[k] else []
  }

  /** The keys one signature contributes. */
  function SignatureImports(fd: FuncDecl, fileImports: seq<Import>, wrapper: bool): set<string>
  {
    NeededImports(fd.params, fileImports) + (if wrapper then {} else NeededImports(fd.results, fileImports))
  }

  /** The body of the loops of `generateImports`: the parameters, and the results unless generating the wrapper. */
  method ExtendWithSignature(fd: FuncDecl, fileImports: seq<Import>, wrapper: bool, imports: map<string, bool>)
    returns (result: map<string, bool>)
    ensures result == imports + AllTrue(SignatureImports(fd, fileImports, wrapper))
  {
    result := ExtendImportsMap(fd.params, fileImports, imports);
    if !wrapper {
      result := ExtendImportsMap(fd.results, fileImports, result);
      MergeAllTrue(imports, NeededImports(fd.params, fileImports), NeededImports(fd.results, fileImports));
    } else {
      assert SignatureImports(fd, fileImports, wrapper) == NeededImports(fd.params, fileImports);
    }
  }

  lemma FuncImportsStep(fds: seq<FuncDecl>, i: nat, fileImports: seq<Import>, wrapper: bool)
    requires i < |fds|
    ensures FuncImports(fds[..i + 1], fileImports, wrapper)
      == FuncImports(fds[..i], fileImports, wrapper) + SignatureImports(fds[i], fileImports, wrapper)
  {
    assert fds[..i + 1][..i] == fds[..i];
    assert fds[..i + 1][i] == fds[i];
  }

  /** Adds the imports of each signature in turn. */
  method ExtendWithFuncs(fds: seq<FuncDecl>, fileImports: seq<Import>, wrapper: bool, imports: map<string, bool>)
    returns (result: map<string, bool>)
    ensures result == imports + AllTrue(FuncImports(fds, fileImports, wrapper))
  {
    result := imports;
    AddNothing(imports);
    for i := 0 to |fds|
      invariant result == imports + AllTrue(FuncImports(fds[..i], fileImports, wrapper))
    {
      FuncImportsStep(fds, i, fileImports, wrapper);
      result := ExtendWithSignature(fds[i], fileImports, wrapper, result);
      MergeAllTrue(imports, FuncImports(fds[..i], fileImports, wrapper), SignatureImports(fds[i], fileImports, wrapper));
    }
    assert fds[..|fds|] == fds;
  }

  /**
   * `generateImports`: proxyctx, the core package unless generating the wrapper, and what the
   * contract's methods and constructors use (the wrapper looks at parameters only).
   */
  method GenerateImports(pf: ParsedFile, wrapper: bool) returns (imports: map<string, bool>)
    ensures imports == AllTrue(BaseImports(wrapper)
      + FuncImports(ListAt(pf.methods, pf.contract), pf.imports, wrapper)
      + FuncImports(ListAt(pf.constructors, pf.contract), pf.imports, wrapper))
  {
    imports := BaseImportsMap(wrapper);
    ghost var base := BaseImports(wrapper);
    ghost var fromMethods := FuncImports(ListAt(pf.methods, pf.contract), pf.imports, wrapper);
    ghost var fromConstructors := FuncImports(ListAt(pf.constructors, pf.contract), pf.imports, wrapper);
    imports := ExtendWithFuncs(ListAt(pf.methods, pf.contract), pf.imports, wrapper, imports);
    AllTrueUnion(base, fromMethods);
    imports := ExtendWithFuncs(ListAt(pf.constructors, pf.contract), pf.imports, wrapper, imports);
    AllTrueUnion(base + fromMethods, fromConstructors);
  }

  /** The map `generateImports` starts from. */
  method BaseImportsMap(wrapper: bool) returns (imports: map<string, bool>)
    ensures imports == AllTrue(BaseImports(wrapper))
  {
    imports := map[Quoted(ProxyctxPath) := true];
    if !wrapper {
      imports := imports[Quoted(CorePath) := true];
    }
  }

  /** Two key sets added one after the other give their union. */
  lemma AllTrueUnion(a: set<string>, b: set<string>)
    ensures AllTrue(a) + AllTrue(b) == AllTrue(a + b)
  {
    assert (AllTrue(a) + AllTrue(b)).Keys == AllTrue(a + b).Keys;
  }
}
