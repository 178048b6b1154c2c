/** The gate with the surfaces of the repository and its classifier of version bumps. */
module GateRules {
  import opened Text
  import opened CommentStripper
  import opened TextLines
  import opened UnifiedDiff
  import opened VersionBump
  import Gate = ClaimReviewGate

  const CODE_SURFACES := ["src/", "scripts/", "alembic/", "e2e/", ".claude/hooks/", ".claude/workflows/",
                          ".claude/settings.json", ".github/workflows/", ".pre-commit-config.yaml",
                          "tests/unit/scripts/", "tests/unit/hooks/"]

  const GUARD_SURFACES := ["scripts/", ".claude/hooks/", ".claude/workflows/", ".claude/settings.json",
                           ".github/workflows/", ".pre-commit-config.yaml", "tests/unit/scripts/",
                           "tests/unit/hooks/"]

  predicate StartsWithAny(surfaces: seq<string>, path: string)
  {
    exists k :: 0 <= k < |surfaces| && surfaces[k] <= path
  }

  predicate IsCodeSurface(path: string) { StartsWithAny(CODE_SURFACES, path) }

  predicate LowerChar(c: char) { 'a' <= c <= 'z' || '0' <= c <= '9' || c == '_' }

  // `letter` says which characters beyond ASCII count as letters or digits.
  predicate WordChar(letter: char -> bool, c: char)
  {
    LowerChar(c) || 'A' <= c <= 'Z' || (c > '\U{7F}' && letter(c))
  }

  // "check_" and at least one more word character, or "test_" and a name that contains "guard".
  predicate IsGuardStem(letter: char -> bool, s: string)
  {
    || ("check_" <= s && |s| > 6 && forall i :: 6 <= i < |s| ==> WordChar(letter, s[i]))
    || ("test_" <= s && (forall i :: 5 <= i < |s| ==> LowerChar(s[i])) && exists i :: 5 <= i < |s| && At(s, i, "guard"))
  }

  predicate IsGuardFile(letter: char -> bool, name: string)
  {
    |name| >= 3 && name[|name| - 3..] == ".py" && IsGuardStem(letter, name[..|name| - 3])
  }

  // The file name is that of a guard.
  predicate IsGuardName(letter: char -> bool, path: string)
  {
    exists k :: 0 <= k <= |path| && (k == 0 || path[k - 1] == '/') && IsGuardFile(letter, path[k..])
  }

  predicate IsGuardSurface(letter: char -> bool, path: string)
  {
    StartsWithAny(GUARD_SURFACES, path) || IsGuardName(letter, path)
  }

  // The recognisers of seals, exemptions and traces stay open; `diff` is what git prints for some paths.
  function InUse(sealed: string -> bool, exempt: string -> bool, traced: string -> bool, letter: char -> bool,
                 diff: seq<string> -> Option<string>): Gate.Rules
  {
    Gate.Rules(sealed, exempt, traced, IsCodeSurface, path => IsGuardSurface(letter, path),
               paths => IsBump(paths, diff(paths)))
  }

  // ----- guards outside the code surfaces -----

  lemma SurfacesNested(k: nat) returns (j: nat)
    requires k < |GUARD_SURFACES|
    ensures j < |CODE_SURFACES| && CODE_SURFACES[j] == GUARD_SURFACES[k]
  {
    j := if k == 0 then 1 else k + 3;
  }

  /** The guards that lie on no code surface are those that only their name gives away. */
  lemma GuardsOutsideCode(letter: char -> bool, path: string)
    ensures IsGuardSurface(letter, path) && !IsCodeSurface(path) <==> IsGuardName(letter, path) && !IsCodeSurface(path)
  {
    if StartsWithAny(GUARD_SURFACES, path) {
      var k :| 0 <= k < |GUARD_SURFACES| && GUARD_SURFACES[k] <= path;
      var j := SurfacesNested(k);
      assert CODE_SURFACES[j] <= path;
    }
  }

  /** Code surfaces are the guard directories and files, the sources, the migrations and the end-to-end tests. */
  lemma CodeBesideGuards(path: string)
    ensures IsCodeSurface(path) <==>
      StartsWithAny(GUARD_SURFACES, path) || "src/" <= path || "alembic/" <= path || "e2e/" <= path
  {
    if IsCodeSurface(path) {
      var k :| 0 <= k < |CODE_SURFACES| && CODE_SURFACES[k] <= path;
      assert k > 3 ==> GUARD_SURFACES[k - 3] <= path;
      assert k == 1 ==> GUARD_SURFACES[0] <= path;
    }
    if StartsWithAny(GUARD_SURFACES, path) {
      var k :| 0 <= k < |GUARD_SURFACES| && GUARD_SURFACES[k] <= path;
      var j := SurfacesNested(k);
      assert CODE_SURFACES[j] <= path;
    }
    assert CODE_SURFACES[0] == "src/" && CODE_SURFACES[2] == "alembic/" && CODE_SURFACES[3] == "e2e/";
  }

  /** The files of which version bumps are accepted are guards, and code. */
  lemma WorkflowsAreGuards(letter: char -> bool, path: string)
    ensures IsWorkflow(path) ==> IsGuardSurface(letter, path) && IsCodeSurface(path)
  {
    if IsWorkflow(path) {
      assert GUARD_SURFACES[4] <= path && CODE_SURFACES[7] <= path;
    }
  }

  // ----- the names of guards -----

  /** The characters of these names. */
  lemma NameCharacters(letter: char -> bool, small: set<char>, capital: set<char>)
    requires small == {'a', 'b', 'c', 'd', 'e', 'f', 'g', 'h', 'i', 'j', 'k', 'l', 'm', 'n', 'o', 'p', 'q', 'r', 's',
                       't', 'u', 'v', 'w', 'x', 'y', 'z', '0', '1', '2', '3', '4', '5', '6', '7', '8', '9', '_'}
    requires capital == {'A', 'B', 'C', 'D', 'E', 'F', 'G', 'H', 'I', 'J', 'K', 'L', 'M', 'N', 'O', 'P', 'Q', 'R',
                         'S', 'T', 'U', 'V', 'W', 'X', 'Y', 'Z'}
    ensures forall c :: LowerChar(c) <==> c in small
    ensures forall c :: WordChar(letter, c) <==> c in small || c in capital || (c as int >= 128 && letter(c))
  {
  }

  lemma NoSlashInName(letter: char -> bool, name: string)
    requires IsGuardFile(letter, name)
    ensures '/' !in name
  {
    var n := |name| - 3;
    assert name == name[..n] + ".py";
    NoSlashInStem(letter, name[..n]);
  }

  lemma NoSlashInStem(letter: char -> bool, s: string)
    requires IsGuardStem(letter, s)
    ensures '/' !in s
  {
    if "check_" <= s && |s| > 6 && forall i :: 6 <= i < |s| ==> WordChar(letter, s[i]) {
      assert s[..6] == "check_";
      assert s == "check_" + s[6..];
    } else {
      assert s[..5] == "test_";
      assert s == "test_" + s[5..];
    }
  }

  /** The rule looks at the file name alone. */
  lemma {:induction false} GuardNameIs(letter: char -> bool, dir: string, file: string)
    requires '/' !in file && (dir == "" || dir[|dir| - 1] == '/')
    ensures IsGuardName(letter, dir + file) <==> IsGuardFile(letter, file)
  {
    var path := dir + file;
    assert path[|dir|..] == file;
    assert forall j :: |dir| <= j < |path| ==> path[j] == file[j - |dir|] != '/';
    if IsGuardName(letter, path) {
      var k :| 0 <= k <= |path| && (k == 0 || path[k - 1] == '/') && IsGuardFile(letter, path[k..]);
      assert k < |dir| ==> path[k..][|dir| - 1 - k] == '/';
      NoSlashInName(letter, path[k..]);
    }
  }

  /** A script `check_...py` is a guard exactly if one or more word characters follow. */
  lemma CheckFiles(letter: char -> bool, w: string)
    ensures IsGuardFile(letter, "check_" + w + ".py") <==>
      w != "" && forall i :: 0 <= i < |w| ==> WordChar(letter, w[i])
  {
    var s := "check_" + w;
    assert (s + ".py")[|s|..] == ".py" && (s + ".py")[..|s|] == s;
    assert forall i :: 6 <= i < |s| ==> s[i] == w[i - 6];
    assert forall i :: 0 <= i < |w| ==> s[i + 6] == w[i];
    assert s[0] == 'c' && "test_"[0] == 't';
  }

  /** A test is one exactly if its name, in small letters, digits and underscores, contains "guard". */
  lemma TestFiles(letter: char -> bool, w: string)
    ensures IsGuardFile(letter, "test_" + w + ".py") <==>
      (forall i :: 0 <= i < |w| ==> LowerChar(w[i])) && exists i :: 0 <= i < |w| && At(w, i, "guard")
  {
    var s := "test_" + w;
    assert (s + ".py")[|s|..] == ".py" && (s + ".py")[..|s|] == s;
    assert forall i :: 5 <= i < |s| ==> s[i] == w[i - 5];
    assert forall i :: 0 <= i < |w| ==> s[i + 5] == w[i];
    assert s[0] == 't' && "check_"[0] == 'c';
    forall i | 5 <= i < |s|
      ensures At(s, i, "guard") <==> At(w, i - 5, "guard")
    {
      AtShift("test_", w, i - 5, "guard");
    }
    if i :| 0 <= i < |w| && At(w, i, "guard") { assert At(s, i + 5, "guard"); }
  }

  lemma ToolIsGuard(letter: char -> bool, path: string)
    requires path == "tools/check_x.py"
    ensures IsGuardName(letter, path)
  {
    assert path == "tools/" + ("check_" + "x" + ".py");
    CheckFiles(letter, "x");
    GuardNameIs(letter, "tools/", "check_" + "x" + ".py");
  }

  lemma ToolIsNoCode(path: string)
    requires path == "tools/check_x.py"
    ensures !IsCodeSurface(path)
  {
    assert path[0] == 't' && path[1] == 'o';
    forall k | 0 <= k < |CODE_SURFACES|
      ensures CODE_SURFACES[k][0] != 't' || CODE_SURFACES[k][1] != 'o'
    {
    }
  }

  /** A person who changes the guard tools/check_x.py alone passes, whatever the body says and whatever
      counts as a trace or an exemption, as long as no seal is claimed. */
  lemma GuardOutsideCodeNeedsNoTrace(sealed: string -> bool, exempt: string -> bool, traced: string -> bool,
                                     letter: char -> bool, diff: seq<string> -> Option<string>,
                                     pr: Gate.PullRequest, path: string)
    requires path == "tools/check_x.py" && pr.codePaths == pr.allPaths == Gate.Changed([path]) && !pr.bot
    requires !sealed(Gate.Haystack(pr, Strip(pr.body)))
    ensures var rules := InUse(sealed, exempt, traced, letter, diff);
      Gate.Touches(rules.guardSurface, pr.allPaths) && Gate.Passes(rules, pr)
  {
    var rules := InUse(sealed, exempt, traced, letter, diff);
    ToolIsGuard(letter, path);
    ToolIsNoCode(path);
    assert pr.allPaths.paths[0] == path;
    Gate.GuardsNeedAVisibleTrace(rules, pr);
  }

  // ----- bots on guards -----

  // The changed guards, for which the gate asks git for the diff.
  function Guards(letter: char -> bool, pr: Gate.PullRequest): seq<string>
    requires pr.allPaths.Changed?
  {
    Gate.Select(path => IsGuardSurface(letter, path), pr.allPaths.paths)
  }

  /** A bot that changes a guard passes exactly without touching code or claiming a seal, or like a person
      with a visible trace and no exemption marker, or if the changes of all guards are an accepted version
      bump, without an exemption marker, and no seal is claimed over code. */
  lemma BotsOnGuards(sealed: string -> bool, exempt: string -> bool, traced: string -> bool, letter: char -> bool,
                     diff: seq<string> -> Option<string>, pr: Gate.PullRequest)
    requires var rules := InUse(sealed, exempt, traced, letter, diff);
      pr.bot && Gate.Touches(rules.guardSurface, pr.allPaths)
    ensures var rules, visible := InUse(sealed, exempt, traced, letter, diff), Strip(pr.body);
      var claims, code := sealed(Gate.Haystack(pr, visible)), Gate.Touches(IsCodeSurface, pr.codePaths);
      Gate.Passes(rules, pr) <==>
        || (!claims && !code)
        || (!exempt(visible) && traced(visible))
        || (!exempt(visible) && !(claims && code) && IsBump(Guards(letter, pr), diff(Guards(letter, pr))))
  {
  }

  // What is promised of an accepted version bump.
  ghost predicate Conserved(files: seq<FileDiff>)
  {
    && (AllTame(WORKFLOW, DiffLines(GitHunk, files)) ==>
      multiset(Actions(WORKFLOW, OldFiles(files))) == multiset(Actions(WORKFLOW, NewFiles(files))))
    && (forall i :: 0 <= i < |files| && AllTame(WORKFLOW, UnifiedDiff.Render(GitHunk, files[i].script)) ==>
      (OtherLines(WORKFLOW, OldFile(files[i].script)) == OtherLines(WORKFLOW, NewFile(files[i].script))
       <==> NoEscapes(files[i].script)))
  }

  // What git prints for the files.
  predicate Printed(files: seq<FileDiff>, output: Option<string>)
  {
    && (forall k :: 0 <= k < |files| ==> Opening(WORKFLOW, files[k].preamble))
    && output == Some(TextOf(DiffLines(GitHunk, files)))
  }

  lemma BumpConserves(paths: seq<string>, output: Option<string>, files: seq<FileDiff>)
    requires Printed(files, output) && IsBump(paths, output)
    ensures Conserved(files)
  {
    VersionBumpConserves(paths, files);
  }

  lemma BotNeedsBump(rules: Gate.Rules, pr: Gate.PullRequest, guards: seq<string>)
    requires BotPasses(rules, pr, guards)
    ensures rules.bumpOnly(guards)
    ensures forall p :: p in pr.allPaths.paths && rules.guardSurface(p) ==> p in guards
  {
    Gate.SelectIs(rules.guardSurface, pr.allPaths.paths, guards);
  }

  /** So where a bot passes on code or with a seal claim, but without a trace, every changed guard is a
      workflow, and what is promised of an accepted version bump holds of the diff of all of them. */
  lemma BotBumpConserves(sealed: string -> bool, exempt: string -> bool, traced: string -> bool,
                         letter: char -> bool, diff: seq<string> -> Option<string>, pr: Gate.PullRequest,
                         guards: seq<string>, files: seq<FileDiff>)
    requires BotPasses(InUse(sealed, exempt, traced, letter, diff), pr, guards)
    requires Printed(files, diff(guards))
    ensures pr.allPaths.Changed? && GuardsAreWorkflows(letter, pr.allPaths.paths) && Conserved(files)
  {
    BumpOfAll(sealed, exempt, traced, letter, diff, pr, guards);
    BumpConserves(guards, diff(guards), files);
  }

  ghost predicate GuardsAreWorkflows(letter: char -> bool, paths: seq<string>)
  {
    forall p :: p in paths && IsGuardSurface(letter, p) ==> IsWorkflow(p)
  }

  // A bot passes on code or with a seal claim, but without a trace, and these are the guards it changes.
  ghost predicate BotPasses(rules: Gate.Rules, pr: Gate.PullRequest, guards: seq<string>)
  {
    var visible := Strip(pr.body);
    && pr.bot && Gate.Touches(rules.guardSurface, pr.allPaths) && Gate.Passes(rules, pr) && !rules.traced(visible)
    && (rules.sealed(Gate.Haystack(pr, visible)) || Gate.Touches(rules.codeSurface, pr.codePaths))
    && Gate.Lists(rules.guardSurface, pr.allPaths.paths, guards)
  }

  lemma BumpOfAll(sealed: string -> bool, exempt: string -> bool, traced: string -> bool, letter: char -> bool,
                  diff: seq<string> -> Option<string>, pr: Gate.PullRequest, guards: seq<string>)
    requires BotPasses(InUse(sealed, exempt, traced, letter, diff), pr, guards)
    ensures IsBump(guards, diff(guards))
    ensures pr.allPaths.Changed? && GuardsAreWorkflows(letter, pr.allPaths.paths)
  {
    var rules := InUse(sealed, exempt, traced, letter, diff);
    BotNeedsBump(rules, pr, guards);
    BumpOf(sealed, exempt, traced, letter, diff, guards);
    forall p | p in pr.allPaths.paths && IsGuardSurface(letter, p)
      ensures IsWorkflow(p)
    {
      assert rules.guardSurface(p);
    }
  }

  lemma BumpOf(sealed: string -> bool, exempt: string -> bool, traced: string -> bool, letter: char -> bool,
               diff: seq<string> -> Option<string>, guards: seq<string>)
    requires InUse(sealed, exempt, traced, letter, diff).bumpOnly(guards)
    ensures IsBump(guards, diff(guards)) && forall p :: p in guards ==> IsWorkflow(p)
  {
  }
}
