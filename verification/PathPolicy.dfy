/**
 The file policy of the development autopilot: which allowlists a work order may carry, and which
 changed files a run may leave behind.
 */
module PathPolicy {
  import opened Wrappers
  import opened Text
  import opened Sorting

  const DEFAULT_FORBIDDEN_PATH_PREFIXES := ["runs/", ".agent_inbox/", ".data/", "docs/reviews/"]

  const TOO_BROAD_ALLOWED_PATHS :=
    {".", "*", "src", "src/", "tests", "tests/", "scripts", "scripts/", "docs", "docs/"}

  /** The errors of the path checks. `PathHasNoParts` is the exception the source raises on a path
      such as `"."` when it looks at the first component. */
  datatype PathError = EmptyPath | AbsolutePath | PathTraversal | AllowedFileTooBroad | AllowedFileForbidden
    | PathHasNoParts

  datatype ChangedFileReason = ChangesAllowed | ChangedFileForbiddenPath | ChangedFileNotAllowed

  function Slashes(path: string): string {
    Replace(path, '\\', "/")
  }

  /** `PurePosixPath(path).parts` without the root. */
  function Components(path: string): seq<string> {
    Kept(Split(path, '/'))
  }

  function Kept(parts: seq<string>): seq<string> {
    if parts == [] then []
    else (if parts[0] == "" || parts[0] == "." then [] else [parts[0]]) + Kept(parts[1..])
  }

  /** `PurePosixPath(path).suffix` */
  function Suffix(path: string): string {
    var parts := Components(path);
    if parts == [] then ""
    else
      var name := parts[|parts| - 1];
      var dot := LastIndex(name, '.');
      if 0 < dot < |name| - 1 then name[dot..] else ""
  }

  /** `_normalize_relative_path(path)` */
  function Normalize(path: string): string {
    Strip(Slashes(path))
  }

  /** `_normalize_relative_path(path, allow_directory=True)` */
  function NormalizeDirectory(path: string): string {
    var normalized := Normalize(path);
    if normalized != "" && Suffix(normalized) == "" && !EndsWith(normalized, "/") then normalized + "/" else normalized
  }

  function NormalizeDirectories(paths: seq<string>): (r: seq<string>)
    ensures |r| == |paths|
    ensures forall i :: 0 <= i < |paths| ==> r[i] == NormalizeDirectory(paths[i])
  {
    seq(|paths|, i requires 0 <= i < |paths| => NormalizeDirectory(paths[i]))
  }

  predicate UnderPrefix(path: string, prefix: string) {
    path == TrimEnd(prefix, '/') || StartsWith(path, prefix)
  }

  predicate UnderSome(path: string, prefixes: seq<string>) {
    exists i :: 0 <= i < |prefixes| && UnderPrefix(path, prefixes[i])
  }

  /** Operator inputs and market data in CSV form. */
  predicate IsProtectedCsv(path: string) {
    EndsWith(path, ".csv") && (Contains(Lower(path), "operator") || Contains(Lower(path), "market"))
  }

  predicate IsForbidden(path: string, forbidden: seq<string>) {
    var normalized := Normalize(path);
    || UnderSome(normalized, DEFAULT_FORBIDDEN_PATH_PREFIXES + NormalizeDirectories(forbidden))
    || IsProtectedCsv(normalized)
  }

  // ---------------------------------------------------------------- validating a work order

  function RelativePathError(path: string): Option<PathError> {
    if Strip(path) == "" then Some(EmptyPath)
    else
      var normalized := Slashes(path);
      var parts := Components(normalized);
      if StartsWith(normalized, "/") then Some(AbsolutePath)
      else if parts == [] then Some(PathHasNoParts)
      else if ':' in parts[0] then Some(AbsolutePath)
      else if ".." in parts then Some(PathTraversal)
      else None
  }

  function SingleFilePathError(path: string): Option<PathError> {
    match RelativePathError(path)
    case Some(e) => Some(e)
    case None =>
      var normalized := Normalize(path);
      if EndsWith(normalized, "/") || Suffix(normalized) == "" then Some(AllowedFileTooBroad) else None
  }

  function AllowedFileError(path: string, normalizedForbidden: seq<string>): Option<PathError> {
    match SingleFilePathError(path)
    case Some(e) => Some(e)
    case None =>
      var normalized := Normalize(path);
      if normalized in TOO_BROAD_ALLOWED_PATHS || '*' in normalized then Some(AllowedFileTooBroad)
      else if IsForbidden(normalized, normalizedForbidden) then Some(AllowedFileForbidden)
      else None
  }

  /** The first path at fault is at fault with this error. */
  ghost predicate FirstFault(paths: seq<string>, check: string -> Option<PathError>, error: PathError) {
    exists i :: 0 <= i < |paths| && check(paths[i]) == Some(error)
                && forall k :: 0 <= k < i ==> check(paths[k]) == None
  }

  /** The first error a check finds in a list of paths. */
  method FirstError(paths: seq<string>, check: string -> Option<PathError>) returns (r: Option<PathError>)
    ensures r == None <==> forall i :: 0 <= i < |paths| ==> check(paths[i]) == None
    ensures forall error :: r == Some(error) <==> FirstFault(paths, check, error)
  {
    for i := 0 to |paths|
      invariant forall k :: 0 <= k < i ==> check(paths[k]) == None
    {
      r := check(paths[i]);
      if r != None {
        return;
      }
    }
    r := None;
  }

  /** The two loops of the work-order path check: forbidden paths first, then allowed files. */
  method PathPolicyError(allowedFiles: seq<string>, forbiddenPaths: seq<string>) returns (r: Option<PathError>)
    ensures r == None <==> Validated(allowedFiles, forbiddenPaths)
    ensures forall error :: r == Some(error) <==> FaultyWith(allowedFiles, forbiddenPaths, error)
  {
    r := FirstError(forbiddenPaths, CHECK_RELATIVE);
    if r == None {
      r := FirstError(allowedFiles, CheckAllowed(forbiddenPaths));
    }
  }

  const CHECK_RELATIVE := (path: string) => RelativePathError(path)

  function CheckAllowed(forbiddenPaths: seq<string>): string -> Option<PathError> {
    (path: string) => AllowedFileError(path, NormalizeDirectories(forbiddenPaths))
  }

  /** The first fault of the two lists is of this kind: of the forbidden paths, or if they have none,
      of the allowed files. */
  ghost predicate FaultyWith(allowedFiles: seq<string>, forbiddenPaths: seq<string>, error: PathError) {
    || FirstFault(forbiddenPaths, CHECK_RELATIVE, error)
    || ((forall i :: 0 <= i < |forbiddenPaths| ==> RelativePathError(forbiddenPaths[i]) == None)
        && FirstFault(allowedFiles, CheckAllowed(forbiddenPaths), error))
  }

  /** The path lists of a work order that passed validation. */
  ghost predicate Validated(allowedFiles: seq<string>, forbiddenPaths: seq<string>) {
    && (forall i :: 0 <= i < |forbiddenPaths| ==> RelativePathError(forbiddenPaths[i]) == None)
    && (forall i :: 0 <= i < |allowedFiles| ==>
          AllowedFileError(allowedFiles[i], NormalizeDirectories(forbiddenPaths)) == None)
  }

  // ---------------------------------------------------------------- judging changed files

  function NormalizeAll(paths: seq<string>): (r: set<string>)
    ensures forall x :: x in r <==> exists i :: 0 <= i < |paths| && Normalize(paths[i]) == x
  {
    set i | 0 <= i < |paths| :: Normalize(paths[i])
  }

  predicate Unexpected(path: string, allowedFiles: seq<string>, forbiddenPaths: seq<string>) {
    var normalized := Normalize(path);
    IsForbidden(normalized, NormalizeDirectories(forbiddenPaths)) || normalized !in NormalizeAll(allowedFiles)
  }

  function UnexpectedPaths(changed: seq<string>, allowedFiles: seq<string>, forbiddenPaths: seq<string>): seq<string> {
    if changed == [] then []
    else
      (if Unexpected(changed[0], allowedFiles, forbiddenPaths) then [Normalize(changed[0])] else [])
      + UnexpectedPaths(changed[1..], allowedFiles, forbiddenPaths)
  }

  function UnexpectedChangedFiles(changed: seq<string>, allowedFiles: seq<string>,
                                  forbiddenPaths: seq<string>): seq<string>
  {
    SortStrings(UnexpectedPaths(changed, allowedFiles, forbiddenPaths))
  }

  function ChangedFilePolicyReason(changed: seq<string>, allowedFiles: seq<string>,
                                   forbiddenPaths: seq<string>): ChangedFileReason
  {
    var unexpected := UnexpectedChangedFiles(changed, allowedFiles, forbiddenPaths);
    if unexpected == [] then ChangesAllowed
    else if exists i :: 0 <= i < |unexpected| && IsForbidden(unexpected[i], NormalizeDirectories(forbiddenPaths))
    then ChangedFileForbiddenPath
    else ChangedFileNotAllowed
  }

  // ---------------------------------------------------------------- normalization

  lemma {:induction false} SlashesLeavesNone(path: string)
    ensures '\\' !in Slashes(path)
  {
    if path != "" {
      SlashesLeavesNone(path[1..]);
    }
  }

  lemma {:induction false} SlashesIdentity(path: string)
    requires '\\' !in path
    ensures Slashes(path) == path
  {
    if path != "" {
      SlashesIdentity(path[1..]);
      assert path == [path[0]] + path[1..];
    }
  }

  lemma {:induction false} StripLeftKeeps(s: string, c: char)
    requires c !in s
    ensures c !in StripLeft(s)
  {
    if s != "" && IsSpace(s[0]) {
      StripLeftKeeps(s[1..], c);
    }
  }

  lemma StripKeeps(s: string, c: char)
    requires c !in s
    ensures c !in Strip(s)
  {
    StripLeftKeeps(s, c);
    StripRightEnds(StripLeft(s));
  }

  /** Normalizing a path twice is normalizing it once. */
  lemma NormalizeIdempotent(path: string)
    ensures Normalize(Normalize(path)) == Normalize(path)
  {
    SlashesLeavesNone(path);
    StripKeeps(Slashes(path), '\\');
    SlashesIdentity(Normalize(path));
    StripTrims(Slashes(path));
    StripTrims(Normalize(path));
  }

  /** So is normalizing a directory, which gains at most one trailing slash. */
  lemma NormalizeDirectoryIdempotent(path: string)
    ensures NormalizeDirectory(NormalizeDirectory(path)) == NormalizeDirectory(path)
  {
    var n := Normalize(path);
    NormalizeIdempotent(path);
    var d := NormalizeDirectory(path);
    if d != n {
      SlashesLeavesNone(path);
      StripKeeps(Slashes(path), '\\');
      assert '\\' !in d;
      SlashesIdentity(d);
      StripTrims(Slashes(path));
      StripTrims(d);
      assert d[|d| - 1..] == "/";
    }
  }

  /** What the forbidden test means: one normalization of the path and one of each prefix decide it. */
  lemma ForbiddenMeans(path: string, forbiddenPaths: seq<string>)
    ensures IsForbidden(Normalize(path), NormalizeDirectories(forbiddenPaths))
       <==> || UnderSome(Normalize(path), DEFAULT_FORBIDDEN_PATH_PREFIXES)
            || (exists i :: 0 <= i < |forbiddenPaths|
                            && UnderPrefix(Normalize(path), NormalizeDirectory(forbiddenPaths[i])))
            || IsProtectedCsv(Normalize(path))
  {
    NormalizeIdempotent(path);
    var dirs := NormalizeDirectories(forbiddenPaths);
    forall i | 0 <= i < |dirs|
      ensures NormalizeDirectories(dirs)[i] == dirs[i]
    {
      NormalizeDirectoryIdempotent(forbiddenPaths[i]);
    }
    var n, defaults := Normalize(path), DEFAULT_FORBIDDEN_PATH_PREFIXES;
    var all := defaults + NormalizeDirectories(dirs);
    assert forall i :: 0 <= i < |defaults| ==> all[i] == defaults[i];
    assert forall i :: 0 <= i < |dirs| ==> all[|defaults| + i] == dirs[i];
  }

  // ---------------------------------------------------------------- paths without components

  predicate AllSkipped(parts: seq<string>) {
    forall i :: 0 <= i < |parts| ==> parts[i] == "" || parts[i] == "."
  }

  lemma {:induction false} KeptNothing(parts: seq<string>)
    ensures Kept(parts) == [] <==> AllSkipped(parts)
  {
    if parts != [] {
      KeptNothing(parts[1..]);
      if AllSkipped(parts[1..]) && (parts[0] == "" || parts[0] == ".") {
        forall i | 0 <= i < |parts|
          ensures parts[i] == "" || parts[i] == "."
        {
          assert i > 0 ==> parts[i] == parts[1..][i - 1];
        }
      }
      if AllSkipped(parts) {
        forall i | 0 <= i < |parts[1..]|
          ensures parts[1..][i] == "" || parts[1..][i] == "."
        {
          assert parts[1..][i] == parts[i + 1];
        }
      }
    }
  }

  /** The check raises exactly on a non-blank relative path whose parts are all empty or dots. */
  lemma RaisesIff(path: string)
    ensures RelativePathError(path) == Some(PathHasNoParts)
       <==> Strip(path) != "" && !StartsWith(Slashes(path), "/") && AllSkipped(Split(Slashes(path), '/'))
  {
    KeptNothing(Split(Slashes(path), '/'));
  }

  lemma DotRaises()
    ensures RelativePathError(".") == Some(PathHasNoParts)
  {
    StripTrims(".");
    SlashesIdentity(".");
    assert Split("", '/') == [""] && "."[1..] == "";
    assert Split(".", '/') == ["."];
    RaisesIff(".");
  }

  // ---------------------------------------------------------------- exactness

  lemma {:induction false} UnexpectedPathsEmptyIff(changed: seq<string>, allowedFiles: seq<string>,
                                                   forbiddenPaths: seq<string>)
    ensures UnexpectedPaths(changed, allowedFiles, forbiddenPaths) == []
       <==> forall i :: 0 <= i < |changed| ==> !Unexpected(changed[i], allowedFiles, forbiddenPaths)
  {
    if changed != [] {
      UnexpectedPathsEmptyIff(changed[1..], allowedFiles, forbiddenPaths);
      assert forall i :: 1 <= i < |changed| ==> changed[i] == changed[1..][i - 1];
    }
  }

  /** In a validated work order no allowlisted path is forbidden, so only the allowlist decides. */
  lemma AllowlistDecides(path: string, allowedFiles: seq<string>, forbiddenPaths: seq<string>)
    requires Validated(allowedFiles, forbiddenPaths)
    ensures !Unexpected(path, allowedFiles, forbiddenPaths) <==> Normalize(path) in NormalizeAll(allowedFiles)
  {
    if Normalize(path) in NormalizeAll(allowedFiles) {
      var i :| 0 <= i < |allowedFiles| && Normalize(allowedFiles[i]) == Normalize(path);
      assert AllowedFileError(allowedFiles[i], NormalizeDirectories(forbiddenPaths)) == None;
    }
  }

  /** For a validated work order the policy is exact: it accepts a change set if and only if every
      changed path, normalized, is an allowlisted path, normalized. */
  lemma ChangedFilePolicyIsExact(changed: seq<string>, allowedFiles: seq<string>, forbiddenPaths: seq<string>)
    requires Validated(allowedFiles, forbiddenPaths)
    ensures ChangedFilePolicyReason(changed, allowedFiles, forbiddenPaths) == ChangesAllowed
       <==> forall i :: 0 <= i < |changed| ==> Normalize(changed[i]) in NormalizeAll(allowedFiles)
  {
    SortStringsIsSort(UnexpectedPaths(changed, allowedFiles, forbiddenPaths));
    UnexpectedPathsEmptyIff(changed, allowedFiles, forbiddenPaths);
    forall i | 0 <= i < |changed|
      ensures !Unexpected(changed[i], allowedFiles, forbiddenPaths)
          <==> Normalize(changed[i]) in NormalizeAll(allowedFiles)
    {
      AllowlistDecides(changed[i], allowedFiles, forbiddenPaths);
    }
  }

  /** Whatever the lists, an accepted change set holds no path below a forbidden prefix. */
  lemma AcceptedChangesAvoidForbidden(changed: seq<string>, allowedFiles: seq<string>, forbiddenPaths: seq<string>,
                                      i: nat)
    requires ChangedFilePolicyReason(changed, allowedFiles, forbiddenPaths) == ChangesAllowed && i < |changed|
    ensures !UnderSome(Normalize(changed[i]), DEFAULT_FORBIDDEN_PATH_PREFIXES)
    ensures forall k :: 0 <= k < |forbiddenPaths| ==>
              !UnderPrefix(Normalize(changed[i]), NormalizeDirectory(forbiddenPaths[k]))
  {
    SortStringsIsSort(UnexpectedPaths(changed, allowedFiles, forbiddenPaths));
    UnexpectedPathsEmptyIff(changed, allowedFiles, forbiddenPaths);
    assert !Unexpected(changed[i], allowedFiles, forbiddenPaths);
    ForbiddenMeans(changed[i], forbiddenPaths);
  }

  // ---------------------------------------------------------------- what the checks mean

  /** Each backslash is a slash, and nothing else changes. */
  lemma {:induction false} SlashesMeans(path: string)
    ensures |Slashes(path)| == |path|
    ensures forall i :: 0 <= i < |path| ==> Slashes(path)[i] == if path[i] == '\\' then '/' else path[i]
  {
    if path != "" {
      SlashesMeans(path[1..]);
    }
  }

  /** The parts of a path hold no slash, and with slashes between them they are the path. */
  lemma SplitMeans(s: string)
    ensures Join(Split(s, '/'), "/") == s
    ensures forall i :: 0 <= i < |Split(s, '/')| ==> '/' !in Split(s, '/')[i]
  {
    SplitJoins(s);
    SplitHasNoSlash(s);
  }

  lemma {:induction false} SplitHasNoSlash(s: string)
    ensures forall i :: 0 <= i < |Split(s, '/')| ==> '/' !in Split(s, '/')[i]
  {
    if s != "" {
      SplitHasNoSlash(s[1..]);
    }
  }

  lemma {:induction false} SplitJoins(s: string)
    ensures Join(Split(s, '/'), "/") == s
  {
    if s != "" {
      SplitJoins(s[1..]);
      var rest, parts := Split(s[1..], '/'), Split(s, '/');
      if s[0] == '/' {
        assert parts[1..] == rest;
        assert s == "" + "/" + s[1..];
      } else {
        assert parts[0] == [s[0]] + rest[0] && parts[1..] == rest[1..];
        assert s == [s[0]] + s[1..];
        if |rest| > 1 {
          assert Join(parts, "/") == ([s[0]] + rest[0]) + "/" + Join(rest[1..], "/");
        }
      }
    }
  }

  predicate IsSkipped(part: string) {
    part == "" || part == "."
  }

  /** The first part that is not skipped, and the parts kept, in terms of the parts there are. */
  lemma {:induction false} KeptMeans(parts: seq<string>, part: string)
    ensures part in Kept(parts) <==> part in parts && !IsSkipped(part)
    ensures Kept(parts) != [] && Kept(parts)[0] == part <==> FirstReal(parts, part)
  {
    if parts != [] {
      KeptMeans(parts[1..], part);
      assert parts == [parts[0]] + parts[1..];
      if IsSkipped(parts[0]) {
        SkipFirst(parts, part);
      }
    }
  }

  ghost predicate FirstReal(parts: seq<string>, part: string) {
    exists i :: 0 <= i < |parts| && parts[i] == part && !IsSkipped(part)
                && forall k :: 0 <= k < i ==> IsSkipped(parts[k])
  }

  lemma SkipFirst(parts: seq<string>, part: string)
    requires parts != [] && IsSkipped(parts[0])
    ensures FirstReal(parts, part) <==> FirstReal(parts[1..], part)
  {
    if FirstReal(parts[1..], part) {
      var i :| 0 <= i < |parts[1..]| && parts[1..][i] == part && !IsSkipped(part)
               && forall k :: 0 <= k < i ==> IsSkipped(parts[1..][k]);
      assert forall k :: 1 <= k < i + 1 ==> parts[k] == parts[1..][k - 1];
      assert parts[i + 1] == part;
    }
    if FirstReal(parts, part) {
      var i :| 0 <= i < |parts| && parts[i] == part && !IsSkipped(part)
               && forall k :: 0 <= k < i ==> IsSkipped(parts[k]);
      assert forall k :: 0 <= k < i - 1 ==> parts[1..][k] == parts[k + 1];
      assert parts[1..][i - 1] == part;
    }
  }

  /** A drive letter or a scheme before the path. */
  ghost predicate StartsWithColonPart(parts: seq<string>) {
    exists part :: FirstReal(parts, part) && ':' in part
  }

  /** Every answer of the relative-path check, by the parts of the path between its slashes. */
  lemma RelativePathMeans(path: string)
    ensures var error, text := RelativePathError(path), Slashes(path);
            var parts := Split(text, '/');
            var named, rooted := Strip(path) != "", text != "" && text[0] == '/';
            && (error == Some(EmptyPath) <==> !named)
            && (error == Some(AbsolutePath) <==> named && (rooted || StartsWithColonPart(parts)))
            && (error == Some(PathHasNoParts) <==> named && !rooted && AllSkipped(parts))
            && (error == Some(PathTraversal) <==>
                  named && !rooted && !AllSkipped(parts) && !StartsWithColonPart(parts) && ".." in parts)
            && (error == None <==>
                  named && !rooted && !AllSkipped(parts) && !StartsWithColonPart(parts) && ".." !in parts)
  {
    var text := Slashes(path);
    var parts := Split(text, '/');
    KeptNothing(parts);
    KeptMeans(parts, "..");
    assert StartsWith(text, "/") <==> text != "" && text[0] == '/';
    if Kept(parts) != [] {
      KeptMeans(parts, Kept(parts)[0]);
    }
    if StartsWithColonPart(parts) {
      var part :| FirstReal(parts, part) && ':' in part;
      KeptMeans(parts, part);
    }
  }

  lemma {:induction false} LastIndexMeans(s: string, c: char)
    ensures var i := LastIndex(s, c);
            if i == -1 then c !in s else 0 <= i < |s| && s[i] == c && forall k :: i < k < |s| ==> s[k] != c
  {
    if s != "" {
      var n := |s| - 1;
      LastIndexMeans(s[..n], c);
      assert s == s[..n] + [s[n]];
    }
  }

  lemma LastIndexIs(s: string, c: char, i: nat)
    requires i < |s| && s[i] == c && c !in s[i + 1..]
    ensures LastIndex(s, c) == i
  {
    LastIndexMeans(s, c);
  }

  lemma {:induction false} SplitLast(dir: string, name: string)
    requires '/' !in name
    ensures Split(dir + "/" + name, '/') == Split(dir, '/') + [name]
  {
    if dir == "" {
      assert "" + "/" + name == "/" + name && ("/" + name)[1..] == name;
      NoSlashSplit(name);
    } else {
      SplitLast(dir[1..], name);
      assert (dir + "/" + name)[1..] == dir[1..] + "/" + name;
      var rest := Split(dir[1..], '/');
      assert (rest + [name])[0] == rest[0] && (rest + [name])[1..] == rest[1..] + [name];
    }
  }

  lemma {:induction false} NoSlashSplit(name: string)
    requires '/' !in name
    ensures Split(name, '/') == [name]
  {
    if name != "" {
      NoSlashSplit(name[1..]);
      assert [name[0]] + name[1..] == name;
    }
  }

  lemma {:induction false} KeptLast(parts: seq<string>, name: string)
    requires !IsSkipped(name)
    ensures Kept(parts + [name]) == Kept(parts) + [name]
  {
    if parts == [] {
      assert [] + [name] == [name] && [name][1..] == [];
    } else {
      KeptLast(parts[1..], name);
      assert (parts + [name])[1..] == parts[1..] + [name];
    }
  }

  lemma {:induction false} SplitAdds(s: string, c: char)
    requires c !in s
    ensures forall i :: 0 <= i < |Split(s, '/')| ==> c !in Split(s, '/')[i]
  {
    if s != "" {
      SplitAdds(s[1..], c);
    }
  }

  /** Without a dot there is no suffix, and without a name neither. */
  lemma NoSuffix(path: string)
    requires '.' !in path || Components(path) == []
    ensures Suffix(path) == ""
  {
    if Components(path) != [] {
      SplitAdds(path, '.');
      var parts := Split(path, '/');
      var name := Kept(parts)[|Kept(parts)| - 1];
      KeptMeans(parts, name);
      LastIndexMeans(name, '.');
    }
  }

  /** The suffix of a path is that of its last name: what follows the last dot, dot included, if there is
      something on either side of it. */
  lemma SuffixMeans(dir: string, name: string, dot: nat)
    requires '/' !in name && !IsSkipped(name)
    ensures '.' !in name ==> Suffix(dir + "/" + name) == ""
    ensures dot < |name| && name[dot] == '.' && '.' !in name[dot + 1..] ==>
              Suffix(dir + "/" + name) == if 0 < dot < |name| - 1 then name[dot..] else ""
  {
    SplitLast(dir, name);
    KeptLast(Split(dir, '/'), name);
    LastIndexMeans(name, '.');
    if dot < |name| && name[dot] == '.' && '.' !in name[dot + 1..] {
      LastIndexIs(name, '.', dot);
    }
  }

  /** The name of a single file: no directory, with a suffix, and without a star. */
  predicate NamesOneFile(n: string) {
    !(n != "" && n[|n| - 1] == '/') && Suffix(n) != "" && '*' !in n
  }

  /** The names listed as too broad have no suffix, so listing them changes nothing. */
  lemma TooBroadHasNoSuffix(n: string)
    requires n in TOO_BROAD_ALLOWED_PATHS
    ensures Suffix(n) == ""
  {
    if n == "." {
      assert Split("", '/') == [""] && Split(".", '/') == ["."];
      assert Kept(["."]) == Kept(["."][1..]) && ["."][1..] == [];
    }
    NoSuffix(n);
  }

  /** A work order may list a file exactly when its path is relative, it names a single file, and it is not
      forbidden; the checks are made in this order. */
  lemma AllowedFileMeans(path: string, forbiddenPaths: seq<string>)
    ensures var error := AllowedFileError(path, NormalizeDirectories(forbiddenPaths));
            if RelativePathError(path) != None then error == RelativePathError(path)
            else if !NamesOneFile(Normalize(path)) then error == Some(AllowedFileTooBroad)
            else error == if Forbidden(path, forbiddenPaths) then Some(AllowedFileForbidden) else None
  {
    ForbiddenIsForbidden(path, forbiddenPaths);
    if Normalize(path) in TOO_BROAD_ALLOWED_PATHS {
      TooBroadHasNoSuffix(Normalize(path));
    }
  }

  /** The directory itself, or something below it. */
  predicate Within(path: string, dir: string) {
    path == dir || dir + "/" <= path
  }

  /** What an entry of the forbidden list covers: a name without a suffix is a directory; anything else
      covers every path it is the beginning of. */
  predicate Covers(place: string, path: string) {
    if place != "" && Suffix(place) == "" && place[|place| - 1] != '/' then Within(path, place)
    else path == TrimEnd(place, '/') || place <= path
  }

  /** Market data and operator inputs in CSV form. */
  ghost predicate IsCsvOfMarketOrOperator(path: string) {
    && |path| >= 4 && path[|path| - 4..] == ".csv"
    && exists k :: 0 <= k <= |path| && ("market" <= Lower(path)[k..] || "operator" <= Lower(path)[k..])
  }

  ghost predicate Forbidden(path: string, forbiddenPaths: seq<string>) {
    var n := Normalize(path);
    || Within(n, "runs") || Within(n, ".agent_inbox") || Within(n, ".data") || Within(n, "docs/reviews")
    || (exists i :: 0 <= i < |forbiddenPaths| && Covers(Normalize(forbiddenPaths[i]), n))
    || IsCsvOfMarketOrOperator(n)
  }

  predicate Allowlisted(path: string, allowedFiles: seq<string>) {
    exists i :: 0 <= i < |allowedFiles| && Normalize(allowedFiles[i]) == Normalize(path)
  }

  lemma TrimOneSlash(dir: string)
    requires dir != "" && dir[|dir| - 1] != '/'
    ensures TrimEnd(dir + "/", '/') == dir
  {
    assert (dir + "/")[..|dir|] == dir;
  }

  lemma DefaultsMean(path: string)
    ensures UnderSome(path, DEFAULT_FORBIDDEN_PATH_PREFIXES) <==>
              || Within(path, "runs") || Within(path, ".agent_inbox") || Within(path, ".data")
              || Within(path, "docs/reviews")
  {
    DefaultMeans(path, 0, "runs");
    DefaultMeans(path, 1, ".agent_inbox");
    DefaultMeans(path, 2, ".data");
    DefaultMeans(path, 3, "docs/reviews");
  }

  lemma DefaultMeans(path: string, i: nat, dir: string)
    requires i < 4 && DEFAULT_FORBIDDEN_PATH_PREFIXES[i] == dir + "/" && dir != "" && dir[|dir| - 1] != '/'
    ensures UnderPrefix(path, DEFAULT_FORBIDDEN_PATH_PREFIXES[i]) <==> Within(path, dir)
  {
    TrimOneSlash(dir);
  }

  lemma CoversMeans(place: string, path: string)
    ensures UnderPrefix(path, NormalizeDirectory(place)) <==> Covers(Normalize(place), path)
  {
    var n := Normalize(place);
    assert n != "" ==> (EndsWith(n, "/") <==> n[|n| - 1] == '/');
    if n != "" && Suffix(n) == "" && n[|n| - 1] != '/' {
      TrimOneSlash(n);
    }
  }

  lemma CsvMeans(path: string)
    ensures IsProtectedCsv(path) <==> IsCsvOfMarketOrOperator(path)
  {
  }

  /** The forbidden test forbids what is meant. */
  lemma ForbiddenIsForbidden(path: string, forbiddenPaths: seq<string>)
    ensures IsForbidden(Normalize(path), NormalizeDirectories(forbiddenPaths)) <==> Forbidden(path, forbiddenPaths)
  {
    var n := Normalize(path);
    ForbiddenMeans(path, forbiddenPaths);
    DefaultsMean(n);
    CsvMeans(n);
    forall i | 0 <= i < |forbiddenPaths|
      ensures UnderPrefix(n, NormalizeDirectory(forbiddenPaths[i])) <==> Covers(Normalize(forbiddenPaths[i]), n)
    {
      CoversMeans(forbiddenPaths[i], n);
    }
  }

  lemma AllowlistMeans(path: string, allowedFiles: seq<string>)
    ensures Normalize(path) in NormalizeAll(allowedFiles) <==> Allowlisted(path, allowedFiles)
  {
  }

  lemma {:induction false} UnexpectedPathsAll(changed: seq<string>, allowedFiles: seq<string>,
                                              forbiddenPaths: seq<string>, path: string)
    requires path in changed && Unexpected(path, allowedFiles, forbiddenPaths)
    ensures Normalize(path) in UnexpectedPaths(changed, allowedFiles, forbiddenPaths)
  {
    assert changed == [changed[0]] + changed[1..];
    if path != changed[0] {
      UnexpectedPathsAll(changed[1..], allowedFiles, forbiddenPaths, path);
    }
  }

  lemma {:induction false} UnexpectedPathsOnly(changed: seq<string>, allowedFiles: seq<string>,
                                               forbiddenPaths: seq<string>, n: string) returns (path: string)
    requires n in UnexpectedPaths(changed, allowedFiles, forbiddenPaths)
    ensures path in changed && Normalize(path) == n && Unexpected(path, allowedFiles, forbiddenPaths)
  {
    if Unexpected(changed[0], allowedFiles, forbiddenPaths) && Normalize(changed[0]) == n {
      path := changed[0];
    } else {
      path := UnexpectedPathsOnly(changed[1..], allowedFiles, forbiddenPaths, n);
    }
  }

  lemma UnexpectedMeans(path: string, allowedFiles: seq<string>, forbiddenPaths: seq<string>)
    ensures Unexpected(path, allowedFiles, forbiddenPaths) <==>
              Forbidden(path, forbiddenPaths) || !Allowlisted(path, allowedFiles)
  {
    ForbiddenIsForbidden(path, forbiddenPaths);
    AllowlistMeans(path, allowedFiles);
  }

  lemma SomeUnexpected(changed: seq<string>, allowedFiles: seq<string>, forbiddenPaths: seq<string>)
    ensures UnexpectedChangedFiles(changed, allowedFiles, forbiddenPaths) == [] <==>
              forall path :: path in changed ==> !Forbidden(path, forbiddenPaths) && Allowlisted(path, allowedFiles)
  {
    SortStringsIsSort(UnexpectedPaths(changed, allowedFiles, forbiddenPaths));
    UnexpectedPathsEmptyIff(changed, allowedFiles, forbiddenPaths);
    forall i | 0 <= i < |changed|
      ensures Unexpected(changed[i], allowedFiles, forbiddenPaths) <==>
                Forbidden(changed[i], forbiddenPaths) || !Allowlisted(changed[i], allowedFiles)
    {
      UnexpectedMeans(changed[i], allowedFiles, forbiddenPaths);
    }
  }

  lemma UnexpectedMembers(changed: seq<string>, allowedFiles: seq<string>, forbiddenPaths: seq<string>, n: string)
    ensures n in UnexpectedChangedFiles(changed, allowedFiles, forbiddenPaths) <==>
              exists path :: path in changed && Normalize(path) == n && Unexpected(path, allowedFiles, forbiddenPaths)
  {
    var paths := UnexpectedPaths(changed, allowedFiles, forbiddenPaths);
    SortStringsIsSort(paths);
    SameMultisetSameMembers(UnexpectedChangedFiles(changed, allowedFiles, forbiddenPaths), paths);
    if n in paths {
      var path := UnexpectedPathsOnly(changed, allowedFiles, forbiddenPaths, n);
    }
    forall path | path in changed && Normalize(path) == n && Unexpected(path, allowedFiles, forbiddenPaths)
      ensures n in paths
    {
      UnexpectedPathsAll(changed, allowedFiles, forbiddenPaths, path);
    }
  }

  lemma SomeForbidden(changed: seq<string>, allowedFiles: seq<string>, forbiddenPaths: seq<string>)
    ensures var unexpected := UnexpectedChangedFiles(changed, allowedFiles, forbiddenPaths);
            (exists n :: n in unexpected && IsForbidden(n, NormalizeDirectories(forbiddenPaths)))
            <==> exists path :: path in changed && Forbidden(path, forbiddenPaths)
  {
    var unexpected := UnexpectedChangedFiles(changed, allowedFiles, forbiddenPaths);
    forall path | path in changed
      ensures IsForbidden(Normalize(path), NormalizeDirectories(forbiddenPaths)) <==> Forbidden(path, forbiddenPaths)
      ensures Forbidden(path, forbiddenPaths) ==> Normalize(path) in unexpected
    {
      ForbiddenIsForbidden(path, forbiddenPaths);
      UnexpectedMeans(path, allowedFiles, forbiddenPaths);
      UnexpectedMembers(changed, allowedFiles, forbiddenPaths, Normalize(path));
    }
    forall n | n in unexpected
      ensures exists path :: path in changed && Normalize(path) == n
    {
      UnexpectedMembers(changed, allowedFiles, forbiddenPaths, n);
    }
  }

  /** The verdict on a change set, for any lists: a forbidden path among the changes decides first, then a
      path outside the allowlist. */
  lemma PolicyReasonMeans(changed: seq<string>, allowedFiles: seq<string>, forbiddenPaths: seq<string>)
    ensures var reason := ChangedFilePolicyReason(changed, allowedFiles, forbiddenPaths);
            var forbidden := exists path :: path in changed && Forbidden(path, forbiddenPaths);
            var outside := exists path :: path in changed && !Allowlisted(path, allowedFiles);
            && (reason.ChangedFileForbiddenPath? <==> forbidden)
            && (reason.ChangedFileNotAllowed? <==> !forbidden && outside)
            && (reason.ChangesAllowed? <==> !forbidden && !outside)
  {
    SomeUnexpected(changed, allowedFiles, forbiddenPaths);
    SomeForbidden(changed, allowedFiles, forbiddenPaths);
    var unexpected := UnexpectedChangedFiles(changed, allowedFiles, forbiddenPaths);
    var dirs := NormalizeDirectories(forbiddenPaths);
    assert (exists i :: 0 <= i < |unexpected| && IsForbidden(unexpected[i], dirs))
        <==> (exists n :: n in unexpected && IsForbidden(n, dirs));
  }
}
