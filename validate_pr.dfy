/** scripts/validate_pr.py: the quality gates run before a pull request.
    Git's output and the repository's files are inputs: a command result per
    git invocation and a table of the paths that exist. The two parser-based
    checks (YAML and Python syntax) arrive as finished outcomes. */
module ValidatePr {
  import opened Text
  import opened PyValue

  /** The return code and standard output of one `run_command`. */
  datatype CommandResult = CommandResult(code: int, stdout: string)

  /** What is at a path under the repository: a regular file with its size
      and its text (`None` when `read_text` raises), or anything else. */
  datatype Entry = File(size: nat, content: Option<string>) | Directory

  type Fs = map<string, Entry>

  datatype ValidationResult = ValidationResult(name: string, passed: bool, message: string, details: Option<Value>)

  /** The names of the nine checks. */
  const BranchNaming := "branch_naming"
  const MergeConflicts := "merge_conflicts"
  const DebugCode := "debug_code"
  const ConfigHash := "config_hash"
  const RequiredFilesCheck := "required_files"
  const YamlSyntax := "yaml_syntax"
  const PythonSyntax := "python_syntax"
  const LargeFilesCheck := "large_files"
  const SecretsCheck := "secrets_check"

  /** `[Str(s) for s in ss]` */
  function StrList(ss: seq<string>): (v: Value)
    ensures v.List? && |v.elems| == |ss| && forall i | 0 <= i < |ss| :: v.elems[i] == Str(ss[i])
  {
    List(seq(|ss|, i requires 0 <= i < |ss| => Str(ss[i])))
  }

  /** `stdout.strip().split('\n')` */
  function Lines(stdout: string): (r: seq<string>)
    ensures |r| >= 1
  {
    Split(Strip(stdout), "\n")
  }

  // ------------------------------------------------------------ git info

  const Unknown := "unknown"

  /** `get_git_info`: the branch and the commit cut to 8 characters, each
      left as `unknown` when its command fails. */
  method GetGitInfo(branchCmd: CommandResult, commitCmd: CommandResult) returns (branch: string, commit: string)
    ensures branch == if branchCmd.code == 0 then Strip(branchCmd.stdout) else Unknown
    ensures commitCmd.code == 0 ==>
              |commit| == Min(8, |Strip(commitCmd.stdout)|) && commit == Strip(commitCmd.stdout)[..|commit|]
    ensures commitCmd.code != 0 ==> commit == Unknown
    ensures |commit| <= 8
  {
    branch, commit := Unknown, Unknown;
    if branchCmd.code == 0 {
      branch := Strip(branchCmd.stdout);
    }
    if commitCmd.code == 0 {
      commit := Take(Strip(commitCmd.stdout), 8);
    }
  }

  function Min(a: nat, b: nat): nat {
    if a < b then a else b
  }

  /** The branch and commit `get_git_info` reports. */
  function GitBranch(branchCmd: CommandResult): string {
    if branchCmd.code == 0 then Strip(branchCmd.stdout) else Unknown
  }

  function GitCommit(commitCmd: CommandResult): string {
    if commitCmd.code == 0 then Take(Strip(commitCmd.stdout), 8) else Unknown
  }

  // ------------------------------------------------------------ branch naming

  const ValidPrefixes: seq<string> := ["claude/", "feature/", "fix/", "hotfix/", "release/", "main", "master", "develop"]

  /** `any(branch.startswith(p) or branch == p for p in valid_prefixes)` */
  predicate FollowsConvention(branch: string) {
    exists i | 0 <= i < |ValidPrefixes| :: StartsWith(branch, ValidPrefixes[i]) || branch == ValidPrefixes[i]
  }

  /** The equality clause adds nothing: a branch passes exactly when it
      starts with one of the prefixes. */
  lemma ConventionIsPrefix(branch: string)
    ensures FollowsConvention(branch) <==> exists i | 0 <= i < |ValidPrefixes| :: StartsWith(branch, ValidPrefixes[i])
  {
    if FollowsConvention(branch) {
      var i :| 0 <= i < |ValidPrefixes| && (StartsWith(branch, ValidPrefixes[i]) || branch == ValidPrefixes[i]);
      assert StartsWith(branch, ValidPrefixes[i]);
    }
  }

  /** `mainline` and `developer` pass; the fallback `unknown` does not. */
  lemma ConventionExamples()
    ensures FollowsConvention("mainline") && FollowsConvention("developer")
    ensures !FollowsConvention(Unknown)
  {
    assert StartsWith("mainline", ValidPrefixes[5]);
    assert StartsWith("developer", ValidPrefixes[7]);
    forall i | 0 <= i < |ValidPrefixes| ensures !StartsWith(Unknown, ValidPrefixes[i]) {
      assert Unknown[0] != ValidPrefixes[i][0];
    }
  }

  /** `check_branch_naming` */
  function CheckBranchNaming(branch: string): (r: ValidationResult)
    ensures r.name == BranchNaming
    ensures r.passed <==> FollowsConvention(branch)
    ensures r.details == Some(Dict([("branch", Str(branch)), ("valid_prefixes", StrList(ValidPrefixes))]))
  {
    var ok := FollowsConvention(branch);
    ValidationResult(BranchNaming, ok,
      if ok then "Branch '" + branch + "' follows naming convention"
      else "Branch '" + branch + "' should use prefix: " + Join(", ", ValidPrefixes[..4]) + "...",
      Some(Dict([("branch", Str(branch)), ("valid_prefixes", StrList(ValidPrefixes))])))
  }

  // ------------------------------------------------------------ merge conflicts

  predicate HasConflictMarker(content: string) {
    Contains(content, "<<<<<<<") || Contains(content, "=======") || Contains(content, ">>>>>>>")
  }

  /** A listed path that is a readable regular file holding a marker. */
  predicate Conflicted(path: string, fs: Fs) {
    path != "" && path in fs && fs[path].File? && fs[path].content.Some? && HasConflictMarker(fs[path].content.value)
  }

  /** `files_with_conflicts`: the conflicted paths, in listing order. */
  function Conflicts(paths: seq<string>, fs: Fs): (r: seq<string>)
    ensures |r| <= |paths|
    decreases |paths|
  {
    if paths == [] then []
    else
      var n := |paths| - 1;
      Conflicts(paths[..n], fs) + if Conflicted(paths[n], fs) then [paths[n]] else []
  }

  /** No conflicted file is reported exactly when no listed path is one. */
  lemma {:induction false} ConflictsEmpty(paths: seq<string>, fs: Fs)
    ensures Conflicts(paths, fs) == [] <==> forall i | 0 <= i < |paths| :: !Conflicted(paths[i], fs)
    decreases |paths|
  {
    if paths != [] {
      var n := |paths| - 1;
      ConflictsEmpty(paths[..n], fs);
      assert forall i | 0 <= i < n :: paths[..n][i] == paths[i];
    }
  }

  function MergeResult(listed: bool, files: seq<string>): (r: ValidationResult)
    ensures r.name == MergeConflicts
    ensures r.passed <==> listed && files == []
  {
    if !listed then ValidationResult(MergeConflicts, false, "Could not list git files", None)
    else
      var ok := |files| == 0;
      ValidationResult(MergeConflicts, ok,
        if ok then "No merge conflict markers found" else "Merge conflicts in: " + Join(", ", Take(files, 3)),
        Some(Dict([("files_with_conflicts", StrList(files))])))
  }

  /** `check_no_merge_conflicts` fails when `git ls-files` fails; otherwise
      it passes exactly when no listed path holds a marker. */
  lemma MergeConflictsPass(lsFiles: CommandResult, fs: Fs)
    ensures var paths := Lines(lsFiles.stdout);
      MergeResult(lsFiles.code == 0, Conflicts(paths, fs)).passed <==>
      lsFiles.code == 0 && forall i | 0 <= i < |paths| :: !Conflicted(paths[i], fs)
  {
    ConflictsEmpty(Lines(lsFiles.stdout), fs);
  }

  /** The loop of `check_no_merge_conflicts` over the listed paths. */
  method ScanConflicts(paths: seq<string>, fs: Fs) returns (files: seq<string>)
    ensures files == Conflicts(paths, fs)
  {
    files := [];
    var i := 0;
    while i < |paths|
      invariant 0 <= i <= |paths|
      invariant files == Conflicts(paths[..i], fs)
    {
      var filepath := paths[i];
      assert paths[..i + 1][..i] == paths[..i];
      if filepath != "" && filepath in fs && fs[filepath].File? {
        match fs[filepath].content
        case Some(content) =>
          if Contains(content, "<<<<<<<") || Contains(content, "=======") || Contains(content, ">>>>>>>") {
            files := files + [filepath];
          }
        case None =>
      }
      i := i + 1;
    }
    assert paths[..i] == paths;
  }

  /** `check_no_merge_conflicts`: fails when `git ls-files` fails; otherwise
      passes exactly when no listed path holds a marker. */
  method CheckNoMergeConflicts(lsFiles: CommandResult, fs: Fs) returns (r: ValidationResult)
    ensures r == MergeResult(lsFiles.code == 0, Conflicts(Lines(lsFiles.stdout), fs))
  {
    if lsFiles.code != 0 {
      return MergeResult(false, []);
    }
    var files := ScanConflicts(Lines(lsFiles.stdout), fs);
    var ok := |files| == 0;
    r := ValidationResult(MergeConflicts, ok,
      if ok then "No merge conflict markers found" else "Merge conflicts in: " + Join(", ", Take(files, 3)),
      Some(Dict([("files_with_conflicts", StrList(files))])));
  }

  // ------------------------------------------------------------ debug code

  const DebugPatterns: seq<string> := [
    "console.log(", "debugger;", "print(\"DEBUG", "print('DEBUG", "import pdb",
    "breakpoint()", "# TODO: remove", "// TODO: remove", "FIXME: debug"]

  const ScannedSuffixes: seq<string> := [".py", ".js", ".ts", ".sh"]

  /** The index of the last `c` in `s`, as `s.rfind(c)`. */
  function RFind(s: string, c: char): (r: Option<nat>)
    ensures r.Some? ==> r.value < |s| && s[r.value] == c && forall j | r.value < j < |s| :: s[j] != c
    ensures r.None? ==> forall j | 0 <= j < |s| :: s[j] != c
    decreases |s|
  {
    if s == [] then None
    else if s[|s| - 1] == c then Some(|s| - 1)
    else RFind(s[..|s| - 1], c)
  }

  /** `Path(p).suffix`: from the last dot of the final component, when that
      dot is neither its first nor its last character. */
  function Suffix(path: string): (r: string)
    ensures r == "" || (|r| >= 2 && r[0] == '.')
  {
    var name := LastPiece(path, "/");
    match RFind(name, '.')
    case Some(i) => if 0 < i < |name| - 1 then name[i..] else ""
    case None => ""
  }

  /** The first pattern found in `content`. */
  function FirstPattern(content: string, patterns: seq<string>): Option<string>
    decreases |patterns|
  {
    if patterns == [] then None
    else if Contains(content, patterns[0]) then Some(patterns[0])
    else FirstPattern(content, patterns[1..])
  }

  /** The pattern found occurs in the content and no earlier one does; none
      is found only when none occurs. */
  lemma {:induction false} FirstPatternSpec(content: string, patterns: seq<string>)
    ensures var r := FirstPattern(content, patterns);
      (r.Some? ==>
         Contains(content, r.value) && exists i | 0 <= i < |patterns| :: patterns[i] == r.value && forall j | 0 <= j < i :: !Contains(content, patterns[j])) &&
      (r.None? ==> forall j | 0 <= j < |patterns| :: !Contains(content, patterns[j]))
    decreases |patterns|
  {
    if patterns != [] && !Contains(content, patterns[0]) {
      FirstPatternSpec(content, patterns[1..]);
      var r := FirstPattern(content, patterns[1..]);
      assert forall j | 0 <= j < |patterns| - 1 :: patterns[1..][j] == patterns[j + 1];
      if r.Some? {
        var i :| 0 <= i < |patterns[1..]| && patterns[1..][i] == r.value &&
                 forall j | 0 <= j < i :: !Contains(content, patterns[1..][j]);
        assert patterns[i + 1] == r.value && forall j | 0 <= j < i + 1 :: !Contains(content, patterns[j]);
      }
    } else if patterns != [] {
      assert patterns[0] == FirstPattern(content, patterns).value;
    }
  }

  /** The inner `for pattern in debug_patterns ... break`. */
  method FindDebugPattern(content: string) returns (r: Option<string>)
    ensures r == FirstPattern(content, DebugPatterns)
  {
    var k := 0;
    while k < |DebugPatterns|
      invariant 0 <= k <= |DebugPatterns|
      invariant FirstPattern(content, DebugPatterns) == FirstPattern(content, DebugPatterns[k..])
    {
      assert DebugPatterns[k..][1..] == DebugPatterns[k + 1..];
      if Contains(content, DebugPatterns[k]) {
        return Some(DebugPatterns[k]);
      }
      k := k + 1;
    }
    return None;
  }

  /** The entry `check_no_debug_code` records for a listed path, if any. */
  function DebugHit(path: string, fs: Fs): Option<string> {
    if path != "" && path in fs && Suffix(path) in ScannedSuffixes && fs[path].File? && fs[path].content.Some? then
      match FirstPattern(fs[path].content.value, DebugPatterns)
      case Some(p) => Some(path + " (" + p + ")")
      case None => None
    else None
  }

  function AsList(o: Option<string>): (r: seq<string>)
    ensures o.Some? ==> r == [o.value]
    ensures o.None? ==> r == []
  {
    match o
    case Some(h) => [h]
    case None => []
  }

  /** The present entries of `hits`, in order. */
  function Somes(hits: seq<Option<string>>): (r: seq<string>)
    ensures |r| <= |hits|
  {
    if hits == [] then [] else Somes(hits[..|hits| - 1]) + AsList(hits[|hits| - 1])
  }

  lemma {:induction false} SomesKeeps(hits: seq<Option<string>>, i: nat)
    requires i < |hits| && hits[i].Some?
    ensures Somes(hits) != []
  {
    var n := |hits| - 1;
    if i < n {
      assert hits[..n][i] == hits[i];
      SomesKeeps(hits[..n], i);
    }
  }

  lemma {:induction false} SomesNone(hits: seq<Option<string>>)
    requires forall i | 0 <= i < |hits| :: hits[i].None?
    ensures Somes(hits) == []
  {
    if hits != [] {
      var n := |hits| - 1;
      assert forall i | 0 <= i < n :: hits[..n][i] == hits[i];
      SomesNone(hits[..n]);
    }
  }

  /** `Somes` is empty exactly when every entry is absent. */
  lemma SomesEmpty(hits: seq<Option<string>>)
    ensures Somes(hits) == [] <==> forall i | 0 <= i < |hits| :: hits[i].None?
  {
    if forall i | 0 <= i < |hits| :: hits[i].None? {
      SomesNone(hits);
    } else {
      var i :| 0 <= i < |hits| && hits[i].Some?;
      SomesKeeps(hits, i);
    }
  }

  function HitList(paths: seq<string>, fs: Fs): (r: seq<Option<string>>)
    ensures |r| == |paths| && forall i | 0 <= i < |paths| :: r[i] == DebugHit(paths[i], fs)
  {
    seq(|paths|, i requires 0 <= i < |paths| => DebugHit(paths[i], fs))
  }

  /** `files_with_debug`: one entry per listed path that holds a pattern,
      naming the first pattern found. */
  function DebugHits(paths: seq<string>, fs: Fs): (r: seq<string>)
    ensures |r| <= |paths|
  {
    Somes(HitList(paths, fs))
  }

  /** Nothing is recorded exactly when no listed path holds a pattern. */
  lemma DebugHitsEmpty(paths: seq<string>, fs: Fs)
    ensures DebugHits(paths, fs) == [] <==> forall i | 0 <= i < |paths| :: DebugHit(paths[i], fs).None?
  {
    SomesEmpty(HitList(paths, fs));
  }

  /** One more listed path adds its entry, if it has one, at the end. */
  lemma DebugHitsStep(paths: seq<string>, i: nat, fs: Fs)
    requires i < |paths|
    ensures DebugHits(paths[..i + 1], fs) == DebugHits(paths[..i], fs) + AsList(DebugHit(paths[i], fs))
  {
    var hits := HitList(paths[..i + 1], fs);
    assert hits[..i] == HitList(paths[..i], fs);
  }

  function DebugResult(files: seq<string>): (r: ValidationResult)
    ensures r.name == DebugCode && r.passed
    ensures r.details == Some(Dict([("files", StrList(Take(files, 5)))]))
    ensures r.message == "No obvious debug code found" <==> files == []
  {
    if files == [] then ValidationResult(DebugCode, true, "No obvious debug code found", Some(Dict([("files", StrList([]))])))
    else
      var msg := "Warning: Debug patterns in " + NatToString(|files|) + " files";
      assert msg[0] == 'W';
      ValidationResult(DebugCode, true, msg, Some(Dict([("files", StrList(Take(files, 5)))])))
  }

  /** The listing `check_no_debug_code` scans: the staged files, or every
      tracked file when that command fails. */
  function DebugListing(staged: CommandResult, tracked: CommandResult): string {
    if staged.code == 0 then staged.stdout else tracked.stdout
  }

  /** The body of `check_no_debug_code`'s loop for one listed path. */
  method DebugHitOf(filepath: string, fs: Fs) returns (hit: Option<string>)
    ensures hit == DebugHit(filepath, fs)
  {
    hit := None;
    if filepath != "" && filepath in fs && Suffix(filepath) in ScannedSuffixes && fs[filepath].File? {
      match fs[filepath].content
      case Some(content) =>
        var pattern := FindDebugPattern(content);
        if pattern.Some? {
          hit := Some(filepath + " (" + pattern.value + ")");
        }
      case None =>
    }
  }

  /** The outer loop of `check_no_debug_code` over the listed paths. */
  method ScanDebug(paths: seq<string>, fs: Fs) returns (files: seq<string>)
    ensures files == DebugHits(paths, fs)
  {
    files := [];
    var i := 0;
    while i < |paths|
      invariant 0 <= i <= |paths|
      invariant files == DebugHits(paths[..i], fs)
    {
      var hit := DebugHitOf(paths[i], fs);
      DebugHitsStep(paths, i, fs);
      if hit.Some? {
        files := files + [hit.value];
      }
      i := i + 1;
    }
    assert paths[..i] == paths;
  }

  /** `check_no_debug_code`: always passes; at most five entries are kept. */
  method CheckNoDebugCode(staged: CommandResult, tracked: CommandResult, fs: Fs) returns (r: ValidationResult)
    ensures r == DebugResult(DebugHits(Lines(DebugListing(staged, tracked)), fs))
  {
    var stdout := if staged.code == 0 then staged.stdout else tracked.stdout;
    var files := ScanDebug(Lines(stdout), fs);
    r := DebugResult(files);
  }

  // ------------------------------------------------------------ config hash

  /** What `check_config_hash_integrity` depends on: whether the hasher was
      importable, whether `config/` exists, and what `hash_directory`
      returned or raised. */
  datatype ConfigInputs = ConfigInputs(hasher: bool, configDir: bool, hashes: Result<seq<(string, string)>>)

  /** `check_config_hash_integrity`: fails only when hashing the directory
      raises. */
  function CheckConfigHash(c: ConfigInputs): (r: ValidationResult)
    ensures r.name == ConfigHash
    ensures !r.passed <==> c.hasher && c.configDir && c.hashes.Err?
  {
    if !c.hasher then ValidationResult(ConfigHash, true, "Hash verification skipped (library not available)", None)
    else if !c.configDir then ValidationResult(ConfigHash, true, "No config directory to validate", None)
    else match c.hashes
      case Ok(hs) =>
        ValidationResult(ConfigHash, true, "Config hash integrity verified (" + NatToString(|hs|) + " files)",
          Some(Dict([("file_hashes", Dict(seq(|hs|, i requires 0 <= i < |hs| => (hs[i].0, Str(Take(hs[i].1, 16))))))])))
      case Err(e) => ValidationResult(ConfigHash, false, "Config hash verification failed: " + e, None)
  }

  // ------------------------------------------------------------ required files

  const RequiredFiles: seq<string> := ["README.md", "LICENSE", "AGENTS.md"]

  /** The names, in order, that do not exist. */
  function Missing(names: seq<string>, fs: Fs): (r: seq<string>)
    ensures |r| <= |names|
    decreases |names|
  {
    if names == [] then []
    else
      var n := |names| - 1;
      Missing(names[..n], fs) + if names[n] in fs then [] else [names[n]]
  }

  /** `missing` holds exactly the given names that do not exist. */
  lemma {:induction false} MissingSpec(names: seq<string>, fs: Fs)
    ensures forall k | 0 <= k < |Missing(names, fs)| :: Missing(names, fs)[k] in names && Missing(names, fs)[k] !in fs
    ensures forall k | 0 <= k < |names| :: names[k] !in fs ==> names[k] in Missing(names, fs)
    decreases |names|
  {
    if names != [] {
      var n := |names| - 1;
      MissingSpec(names[..n], fs);
      assert forall k | 0 <= k < n :: names[k] == names[..n][k];
    }
  }

  function RequiredResult(missing: seq<string>): (r: ValidationResult)
    ensures r.name == RequiredFilesCheck
    ensures r.passed <==> missing == []
    ensures r.details == Some(Dict([("required", StrList(RequiredFiles)), ("missing", StrList(missing))]))
  {
    var ok := |missing| == 0;
    ValidationResult(RequiredFilesCheck, ok,
      if ok then "All required files present" else "Missing files: " + Join(", ", missing),
      Some(Dict([("required", StrList(RequiredFiles)), ("missing", StrList(missing))])))
  }

  /** `check_required_files`: passes exactly when README.md, LICENSE and
      AGENTS.md all exist. */
  method CheckRequiredFiles(fs: Fs) returns (r: ValidationResult)
    ensures r == RequiredResult(Missing(RequiredFiles, fs))
  {
    var missing: seq<string> := [];
    var i := 0;
    while i < |RequiredFiles|
      invariant 0 <= i <= |RequiredFiles|
      invariant missing == Missing(RequiredFiles[..i], fs)
    {
      assert RequiredFiles[..i + 1][..i] == RequiredFiles[..i];
      if RequiredFiles[i] !in fs {
        missing := missing + [RequiredFiles[i]];
      }
      i := i + 1;
    }
    assert RequiredFiles[..i] == RequiredFiles;
    r := RequiredResult(missing);
  }

  /** `check_required_files` passes exactly when README.md, LICENSE and
      AGENTS.md all exist. */
  lemma RequiredFilesPass(fs: Fs)
    ensures RequiredResult(Missing(RequiredFiles, fs)).passed <==> forall k | 0 <= k < |RequiredFiles| :: RequiredFiles[k] in fs
  {
    var missing := Missing(RequiredFiles, fs);
    MissingSpec(RequiredFiles, fs);
    if missing != [] {
      assert missing[0] in RequiredFiles && missing[0] !in fs;
    }
  }

  // ------------------------------------------------------------ large files

  const MaxSizeMb: nat := 10

  /** `size / (1024 * 1024) > 10`; the division is by a power of two, so
      the float comparison is exact. */
  predicate TooLarge(path: string, fs: Fs) {
    path != "" && path in fs && fs[path].File? && fs[path].size > MaxSizeMb * 1024 * 1024
  }

  /** The large listed files, each with its size printed by `mb`. */
  function LargeFiles(paths: seq<string>, fs: Fs, mb: nat -> string): (r: seq<string>)
    ensures |r| <= |paths|
    decreases |paths|
  {
    if paths == [] then []
    else
      var n := |paths| - 1;
      var p := paths[n];
      LargeFiles(paths[..n], fs, mb) + if TooLarge(p, fs) then [p + " (" + mb(fs[p].size) + "MB)"] else []
  }

  lemma {:induction false} LargeFilesEmpty(paths: seq<string>, fs: Fs, mb: nat -> string)
    ensures LargeFiles(paths, fs, mb) == [] <==> forall i | 0 <= i < |paths| :: !TooLarge(paths[i], fs)
    decreases |paths|
  {
    if paths != [] {
      var n := |paths| - 1;
      LargeFilesEmpty(paths[..n], fs, mb);
      assert forall i | 0 <= i < n :: paths[..n][i] == paths[i];
    }
  }

  function LargeResult(large: seq<string>): (r: ValidationResult)
    ensures r.name == LargeFilesCheck
    ensures r.passed <==> large == []
  {
    var ok := |large| == 0;
    ValidationResult(LargeFilesCheck, ok,
      if ok then "No large files detected" else "Large files (>10MB): " + Join(", ", large),
      Some(Dict([("max_size_mb", Int(MaxSizeMb)), (LargeFilesCheck, StrList(large))])))
  }

  /** `check_no_large_files` passes exactly when no listed file is over
      10MB; a failing `git ls-files` scans nothing. */
  lemma LargeFilesPass(lsFiles: CommandResult, fs: Fs, mb: nat -> string)
    ensures var paths := Lines(lsFiles.stdout);
      LargeResult(if lsFiles.code == 0 then LargeFiles(paths, fs, mb) else []).passed <==>
      lsFiles.code != 0 || forall i | 0 <= i < |paths| :: !TooLarge(paths[i], fs)
  {
    LargeFilesEmpty(Lines(lsFiles.stdout), fs, mb);
  }

  /** The loop of `check_no_large_files` over the listed paths. */
  method ScanLarge(paths: seq<string>, fs: Fs, mb: nat -> string) returns (large: seq<string>)
    ensures large == LargeFiles(paths, fs, mb)
  {
    large := [];
    var i := 0;
    while i < |paths|
      invariant 0 <= i <= |paths|
      invariant large == LargeFiles(paths[..i], fs, mb)
    {
      var filepath := paths[i];
      assert paths[..i + 1][..i] == paths[..i];
      if filepath != "" && filepath in fs && fs[filepath].File? && fs[filepath].size > MaxSizeMb * 1024 * 1024 {
        large := large + [filepath + " (" + mb(fs[filepath].size) + "MB)"];
      }
      i := i + 1;
    }
    assert paths[..i] == paths;
  }

  /** `check_no_large_files`: a failing `git ls-files` scans nothing and
      passes. `mb` is the `:.1f` rendering of a size in megabytes. */
  method CheckNoLargeFiles(lsFiles: CommandResult, fs: Fs, mb: nat -> string) returns (r: ValidationResult)
    ensures r == LargeResult(if lsFiles.code == 0 then LargeFiles(Lines(lsFiles.stdout), fs, mb) else [])
  {
    var large: seq<string> := [];
    if lsFiles.code == 0 {
      large := ScanLarge(Lines(lsFiles.stdout), fs, mb);
    }
    r := LargeResult(large);
  }

  // ------------------------------------------------------------ secrets

  /** The `.env*` names that appear among the tracked paths. */
  function CommittedEnv(envFiles: seq<string>, tracked: seq<string>): (r: seq<string>)
    ensures |r| <= |envFiles|
    decreases |envFiles|
  {
    if envFiles == [] then []
    else
      var n := |envFiles| - 1;
      CommittedEnv(envFiles[..n], tracked) + if envFiles[n] in tracked then [envFiles[n]] else []
  }

  /** The committed names are exactly the `.env*` names that are tracked. */
  lemma {:induction false} CommittedEnvSpec(envFiles: seq<string>, tracked: seq<string>)
    ensures forall k | 0 <= k < |CommittedEnv(envFiles, tracked)| ::
              CommittedEnv(envFiles, tracked)[k] in envFiles && CommittedEnv(envFiles, tracked)[k] in tracked
    ensures forall k | 0 <= k < |envFiles| :: envFiles[k] in tracked ==> envFiles[k] in CommittedEnv(envFiles, tracked)
    decreases |envFiles|
  {
    if envFiles != [] {
      var n := |envFiles| - 1;
      CommittedEnvSpec(envFiles[..n], tracked);
      assert forall k | 0 <= k < n :: envFiles[k] == envFiles[..n][k];
    }
  }

  function SecretsResult(committed: seq<string>): (r: ValidationResult)
    ensures r.name == SecretsCheck
    ensures r.passed <==> committed == []
  {
    var ok := |committed| == 0;
    ValidationResult(SecretsCheck, ok,
      if ok then "No obvious secrets detected" else "Warning: .env files tracked: " + Join(", ", committed),
      Some(Dict([("env_files", StrList(committed))])))
  }

  /** `check_no_secrets`: fails exactly when a `.env*` file in the
      repository root is tracked. */
  method CheckNoSecrets(envFiles: seq<string>, lsFiles: CommandResult) returns (r: ValidationResult)
    ensures r == SecretsResult(if lsFiles.code == 0 then CommittedEnv(envFiles, Lines(lsFiles.stdout)) else [])
  {
    var committed: seq<string> := [];
    if lsFiles.code == 0 {
      var tracked := Lines(lsFiles.stdout);
      var i := 0;
      while i < |envFiles|
        invariant 0 <= i <= |envFiles|
        invariant committed == CommittedEnv(envFiles[..i], tracked)
      {
        assert envFiles[..i + 1][..i] == envFiles[..i];
        if envFiles[i] in tracked {
          committed := committed + [envFiles[i]];
        }
        i := i + 1;
      }
      assert envFiles[..i] == envFiles;
    }
    r := SecretsResult(committed);
  }

  /** `check_no_secrets` fails exactly when a `.env*` name of the
      repository root is among the tracked paths. */
  lemma SecretsPass(envFiles: seq<string>, lsFiles: CommandResult)
    ensures var tracked := Lines(lsFiles.stdout);
      !SecretsResult(if lsFiles.code == 0 then CommittedEnv(envFiles, tracked) else []).passed <==>
      lsFiles.code == 0 && exists k | 0 <= k < |envFiles| :: envFiles[k] in tracked
  {
    var tracked := Lines(lsFiles.stdout);
    var committed := CommittedEnv(envFiles, tracked);
    CommittedEnvSpec(envFiles, tracked);
    if lsFiles.code == 0 && committed != [] {
      assert committed[0] in envFiles;
    }
  }

  // ------------------------------------------------------------ report

  /** The repository as the checks see it. `mb` renders a size in
      megabytes with one decimal. */
  datatype Repo = Repo(
    branchCmd: CommandResult, commitCmd: CommandResult, lsFiles: CommandResult, staged: CommandResult,
    fs: Fs, envFiles: seq<string>, mb: nat -> string)

  /** Pass flag, message and details of a parser-based check. */
  datatype Outcome = Outcome(passed: bool, message: string, details: Option<Value>)

  datatype Report = Report(timestamp: string, branch: string, commit: string, allPassed: bool,
                           checks: seq<ValidationResult>, reportHash: string)

  /** The name of the `k`-th check. */
  function NameAt(k: nat): string
    requires k < 9
  {
    if k == 0 then BranchNaming else if k == 1 then MergeConflicts else if k == 2 then DebugCode
    else if k == 3 then ConfigHash else if k == 4 then RequiredFilesCheck else if k == 5 then YamlSyntax
    else if k == 6 then PythonSyntax else if k == 7 then LargeFilesCheck else SecretsCheck
  }

  /** The check names, in the order `run_all_validations` runs them. */
  const CheckNames: seq<string> := seq(9, k requires 0 <= k < 9 => NameAt(k))

  function NamesOf(checks: seq<ValidationResult>): (r: seq<string>)
    ensures |r| == |checks| && forall i | 0 <= i < |r| :: r[i] == checks[i].name
  {
    seq(|checks|, i requires 0 <= i < |checks| => checks[i].name)
  }

  /** The object `report_hash` serialises. */
  function HashInput(timestamp: string, branch: string, commit: string, checks: seq<ValidationResult>): Value {
    Dict([("timestamp", Str(timestamp)), ("branch", Str(branch)), ("commit", Str(commit)),
          ("checks", StrList(NamesOf(checks)))])
  }

  /** `PRValidationReport.report_hash`: the first 16 characters of the sha256
      of the JSON of the timestamp, branch, commit and check names. */
  function ReportHash(timestamp: string, branch: string, commit: string, checks: seq<ValidationResult>,
                      sha: string -> string, dumps: Value -> string): (h: string)
    ensures var digest := sha(dumps(HashInput(timestamp, branch, commit, checks)));
      |h| == Min(16, |digest|) && h == digest[..|h|]
  {
    Take(sha(dumps(HashInput(timestamp, branch, commit, checks))), 16)
  }

  /** The report hash ignores outcomes and messages: check lists with the
      same names hash alike. */
  lemma ReportHashIgnoresOutcomes(timestamp: string, branch: string, commit: string,
                                  c1: seq<ValidationResult>, c2: seq<ValidationResult>,
                                  sha: string -> string, dumps: Value -> string)
    requires |c1| == |c2| && forall i | 0 <= i < |c1| :: c1[i].name == c2[i].name
    ensures ReportHash(timestamp, branch, commit, c1, sha, dumps) == ReportHash(timestamp, branch, commit, c2, sha, dumps)
  {
    assert NamesOf(c1) == NamesOf(c2);
  }

  /** With a 64-character hex digest the report hash has 16 characters; the
      fallback `sha256` returns `unavailable`. */
  lemma ReportHashLength(timestamp: string, branch: string, commit: string, checks: seq<ValidationResult>,
                         sha: string -> string, dumps: Value -> string)
    requires forall s :: |sha(s)| == 64
    ensures |ReportHash(timestamp, branch, commit, checks, sha, dumps)| == 16
  {
  }

  /** `all(r.passed for r in results)` */
  predicate AllPassed(checks: seq<ValidationResult>) {
    forall i | 0 <= i < |checks| :: checks[i].passed
  }

  /** The `k`-th check `run_all_validations` runs. */
  function CheckAt(k: nat, repo: Repo, config: ConfigInputs, yaml: Outcome, python: Outcome): (r: ValidationResult)
    requires k < 9
  {
    if k == 0 then CheckBranchNaming(GitBranch(repo.branchCmd))
    else if k == 1 then MergeResult(repo.lsFiles.code == 0, Conflicts(Lines(repo.lsFiles.stdout), repo.fs))
    else if k == 2 then DebugResult(DebugHits(Lines(DebugListing(repo.staged, repo.lsFiles)), repo.fs))
    else if k == 3 then CheckConfigHash(config)
    else if k == 4 then RequiredResult(Missing(RequiredFiles, repo.fs))
    else if k == 5 then ValidationResult(YamlSyntax, yaml.passed, yaml.message, yaml.details)
    else if k == 6 then ValidationResult(PythonSyntax, python.passed, python.message, python.details)
    else if k == 7 then
      LargeResult(if repo.lsFiles.code == 0 then LargeFiles(Lines(repo.lsFiles.stdout), repo.fs, repo.mb) else [])
    else SecretsResult(if repo.lsFiles.code == 0 then CommittedEnv(repo.envFiles, Lines(repo.lsFiles.stdout)) else [])
  }

  /** The nine check results of `run_all_validations`, in order. */
  function Checks(repo: Repo, config: ConfigInputs, yaml: Outcome, python: Outcome): (cs: seq<ValidationResult>)
    ensures |cs| == 9
  {
    seq(9, k requires 0 <= k < 9 => CheckAt(k, repo, config, yaml, python))
  }

  /** The checks run in a fixed order under fixed names. */
  lemma CheckOrder(repo: Repo, config: ConfigInputs, yaml: Outcome, python: Outcome)
    ensures NamesOf(Checks(repo, config, yaml, python)) == CheckNames
  {
    forall k | 0 <= k < 9
      ensures CheckAt(k, repo, config, yaml, python).name == NameAt(k)
    {
      if k == 0 {} else if k == 1 {} else if k == 2 {} else if k == 3 {} else if k == 4 {}
      else if k == 5 {} else if k == 6 {} else if k == 7 {} else {}
    }
  }

  /** The report `run_all_validations` returns. */
  function ReportOf(repo: Repo, config: ConfigInputs, yaml: Outcome, python: Outcome,
                    timestamp: string, sha: string -> string, dumps: Value -> string): (r: Report)
    ensures r.checks == Checks(repo, config, yaml, python)
    ensures r.allPassed <==> AllPassed(r.checks)
    ensures r.branch == GitBranch(repo.branchCmd) && r.commit == GitCommit(repo.commitCmd) && r.timestamp == timestamp
    ensures r.reportHash == ReportHash(timestamp, r.branch, r.commit, r.checks, sha, dumps)
  {
    var checks := Checks(repo, config, yaml, python);
    var branch := GitBranch(repo.branchCmd);
    var commit := GitCommit(repo.commitCmd);
    Report(timestamp, branch, commit, AllPassed(checks), checks, ReportHash(timestamp, branch, commit, checks, sha, dumps))
  }

  /** One entry of the `checks` list of `run_all_validations`, called. */
  method RunCheck(k: nat, repo: Repo, config: ConfigInputs, yaml: Outcome, python: Outcome) returns (r: ValidationResult)
    requires k < 9
    ensures r == CheckAt(k, repo, config, yaml, python)
  {
    if k == 0 {
      var branch, _ := GetGitInfo(repo.branchCmd, repo.commitCmd);
      r := CheckBranchNaming(branch);
    } else if k == 1 {
      r := CheckNoMergeConflicts(repo.lsFiles, repo.fs);
    } else if k == 2 {
      r := CheckNoDebugCode(repo.staged, repo.lsFiles, repo.fs);
    } else if k == 3 {
      r := CheckConfigHash(config);
    } else if k == 4 {
      r := CheckRequiredFiles(repo.fs);
    } else if k == 5 {
      r := ValidationResult(YamlSyntax, yaml.passed, yaml.message, yaml.details);
    } else if k == 6 {
      r := ValidationResult(PythonSyntax, python.passed, python.message, python.details);
    } else if k == 7 {
      r := CheckNoLargeFiles(repo.lsFiles, repo.fs, repo.mb);
    } else {
      r := CheckNoSecrets(repo.envFiles, repo.lsFiles);
    }
  }

  /** `run_all_validations`: the checks in order, then the report. */
  method RunAllValidations(repo: Repo, config: ConfigInputs, yaml: Outcome, python: Outcome,
                           timestamp: string, sha: string -> string, dumps: Value -> string)
    returns (report: Report)
    ensures report == ReportOf(repo, config, yaml, python, timestamp, sha, dumps)
  {
    var branch, commit := GetGitInfo(repo.branchCmd, repo.commitCmd);
    var results: seq<ValidationResult> := [];
    var k := 0;
    while k < 9
      invariant 0 <= k <= 9 && |results| == k
      invariant forall j | 0 <= j < k :: results[j] == CheckAt(j, repo, config, yaml, python)
    {
      var result := RunCheck(k, repo, config, yaml, python);
      results := results + [result];
      k := k + 1;
    }
    assert results == Checks(repo, config, yaml, python);
    assert branch == GitBranch(repo.branchCmd) && commit == GitCommit(repo.commitCmd);
    report := Report(timestamp, branch, commit, AllPassed(results),
                     results, ReportHash(timestamp, branch, commit, results, sha, dumps));
  }

  /** The positions of the checks that passed. */
  ghost function PassedAt(checks: seq<ValidationResult>): set<int> {
    set i | 0 <= i < |checks| && checks[i].passed
  }

  /** `_print_summary`'s counts: how many checks passed and how many failed. */
  function Summary(checks: seq<ValidationResult>): (c: (nat, nat))
    ensures c.0 == |PassedAt(checks)|
    ensures c.0 + c.1 == |checks|
    ensures c.1 == 0 <==> AllPassed(checks)
    decreases |checks|
  {
    if checks == [] then (0, 0)
    else
      var n := |checks| - 1;
      var prev := Summary(checks[..n]);
      assert forall i | 0 <= i < n :: checks[..n][i] == checks[i];
      assert n !in PassedAt(checks[..n]);
      assert PassedAt(checks) == PassedAt(checks[..n]) + (if checks[n].passed then {n} else {});
      if checks[n].passed then (prev.0 + 1, prev.1) else (prev.0, prev.1 + 1)
  }

  /** `main`'s exit status. */
  function ExitCode(report: Report): (code: int)
    ensures code == 0 <==> report.allPassed
    ensures code == 0 || code == 1
  {
    if report.allPassed then 0 else 1
  }

  /** The exit status agrees with the summary: 0 exactly when nothing
      failed. */
  lemma ExitMatchesSummary(report: Report)
    requires report.allPassed <==> AllPassed(report.checks)
    ensures ExitCode(report) == 0 <==> Summary(report.checks).1 == 0
  {
  }
}
