/** Recognising a workflow change that only bumps the versions of the actions it uses. */
module VersionBump {
  import opened Text
  import opened TextLines
  import opened Counting
  import opened UnifiedDiff

  // ----- one `uses:` line -----

  // The length of the longest prefix whose characters all satisfy p.
  function Run(p: char -> bool, s: string): (n: nat)
    ensures n <= |s|
  {
    if s != "" && p(s[0]) then 1 + Run(p, s[1..]) else 0
  }

  // The list dash may come first, but only with blanks after it.
  function SkipDash(s: string): string
  {
    if s != "" && s[0] == '-' && LeftTrim(s[1..]) != s[1..] then LeftTrim(s[1..]) else s
  }

  predicate InPath(c: char) { c != '@' && !IsSpace(c) }

  predicate InRef(c: char) { c != '#' && !IsSpace(c) }

  // What may stand behind the reference: nothing, or a comment behind a blank.
  predicate IsComment(tail: string)
  {
    tail == "" || (IsSpace(tail[0]) && LeftTrim(tail) != "" && LeftTrim(tail)[0] == '#')
  }

  // A reference, and at most a comment behind it.
  predicate IsReference(s: string)
  {
    var m := Run(InRef, s);
    m > 0 && IsComment(s[m..])
  }

  // The path of `path@ref`.
  function ActionOf(t: string): Option<string>
  {
    var n := Run(InPath, t);
    if 0 < n < |t| && t[n] == '@' && IsReference(t[n + 1..]) then Some(t[..n]) else None
  }

  // The action path of a line `uses: path@ref`, with an optional comment, its sign taken off.
  function UsesAction(content: string): Option<string>
  {
    match Expect(SkipDash(LeftTrim(RightTrim(content))), "uses:")
    case None => None
    case Some(s) => ActionOf(LeftTrim(s))
  }

  lemma {:induction false} RunIs(p: char -> bool, s: string, n: nat)
    requires n <= |s| && (forall i :: 0 <= i < n ==> p(s[i])) && (n < |s| ==> !p(s[n]))
    ensures Run(p, s) == n
  {
    if n > 0 { RunIs(p, s[1..], n - 1); }
  }

  predicate IsPath(path: string) { path != "" && forall i :: 0 <= i < |path| ==> InPath(path[i]) }

  predicate IsRef(ref: string) { ref != "" && forall i :: 0 <= i < |ref| ==> InRef(ref[i]) }

  lemma ReferenceWritten(ref: string, tail: string)
    requires IsRef(ref) && (tail == "" || IsSpace(tail[0]))
    ensures IsReference(ref + tail) <==> IsComment(tail)
  {
    RunIs(InRef, ref + tail, |ref|);
    assert (ref + tail)[|ref|..] == tail;
  }

  lemma ActionWritten(path: string, rest: string)
    requires IsPath(path)
    ensures ActionOf(path + ("@" + rest)) == if IsReference(rest) then Some(path) else None
  {
    var t := path + ("@" + rest);
    RunIs(InPath, t, |path|);
    assert t[|path| + 1..] == rest && t[..|path|] == path;
  }

  lemma UsesPrefix(t: string)
    requires t != "" && !IsSpace(t[0]) && !IsSpace(t[|t| - 1])
    ensures UsesAction("uses: " + t) == ActionOf(t)
  {
    var s := "uses: " + t;
    assert s[|s| - 1] == t[|t| - 1] && s[0] == 'u';
    assert RightTrim(s) == s && LeftTrim(s) == s && SkipDash(s) == s;
    assert s == "uses:" + (" " + t);
    ExpectConcat("uses:", " " + t);
    assert (" " + t)[1..] == t;
    assert LeftTrim(" " + t) == t;
  }

  /** A written uses line gives its action path exactly when nothing but a comment follows. */
  lemma UsesWritten(path: string, ref: string, tail: string)
    requires IsPath(path) && IsRef(ref)
    requires tail == "" || (IsSpace(tail[0]) && !IsSpace(tail[|tail| - 1]))
    ensures UsesAction("uses: " + (path + ("@" + (ref + tail)))) == if IsComment(tail) then Some(path) else None
  {
    var t := path + ("@" + (ref + tail));
    assert InPath(path[0]) && InRef(ref[|ref| - 1]);
    assert t[|t| - 1] == if tail == "" then ref[|ref| - 1] else tail[|tail| - 1];
    UsesPrefix(t);
    ActionWritten(path, ref + tail);
    ReferenceWritten(ref, tail);
  }

  /** A tail is a comment exactly if it is empty, or a number sign follows its first blanks. */
  lemma CommentIs(tail: string)
    ensures IsComment(tail) <==>
      tail == "" || exists k :: 0 < k < |tail| && AllSpace(tail[..k]) && tail[k] == '#'
  {
    if IsComment(tail) && tail != "" {
      var k := SplitBlank(tail);
      assert tail[..k] + tail[k..] == tail;
      LeftTrimBlank(tail[..k], tail[k..]);
    }
    if k :| 0 < k < |tail| && AllSpace(tail[..k]) && tail[k] == '#' {
      assert tail[..k] + tail[k..] == tail && !IsSpace('#') && IsSpace(tail[..k][0]);
      LeftTrimBlank(tail[..k], tail[k..]);
    }
  }

  /** A number sign right behind the reference is no comment: the line uses no action. */
  lemma HashInReference(path: string, ref: string, more: string)
    requires IsPath(path) && ref != "" && forall i :: 0 <= i < |ref| ==> ref[i] != '#' && !IsSpace(ref[i])
    requires more == "" || !IsSpace(more[|more| - 1])
    ensures UsesAction("uses: " + (path + ("@" + (ref + ("#" + more))))) == None
  {
    var t := path + ("@" + (ref + ("#" + more)));
    assert InPath(path[0]) && !IsSpace('#');
    assert t[|t| - 1] == if more == "" then '#' else more[|more| - 1];
    UsesPrefix(t);
    RunIs(InRef, ref + ("#" + more), |ref|);
    assert (ref + ("#" + more))[|ref|..] == "#" + more;
    ActionWritten(path, ref + ("#" + more));
  }

  // Where the first blanks of a text end.
  lemma {:induction false} SplitBlank(s: string) returns (k: nat)
    ensures k <= |s| && AllSpace(s[..k]) && (k < |s| ==> !IsSpace(s[k]))
    ensures s != "" && IsSpace(s[0]) ==> k > 0
  {
    if s == "" || !IsSpace(s[0]) {
      k := 0;
    } else {
      k := SplitBlank(s[1..]);
      k := k + 1;
      assert forall i :: 0 < i < k ==> s[i] == s[1..][..k - 1][i - 1];
    }
  }

  // Nothing, or a list dash with blanks behind it.
  predicate IsDash(dash: string) { dash == "" || (|dash| > 1 && dash[0] == '-' && AllSpace(dash[1..])) }

  lemma DashSkipped(dash: string, u: string)
    requires IsDash(dash) && u != "" && u[0] == 'u'
    ensures SkipDash(dash + u) == u
  {
    if dash == "" {
      assert dash + u == u;
    } else {
      assert (dash + u)[1..] == dash[1..] + u;
      LeftTrimBlank(dash[1..], u);
    }
  }

  /** And so does a whole step, at any depth, with a list dash or without, and with blanks behind it. */
  lemma {:induction false} StepWritten(a: string, dash: string, c: string, path: string, ref: string, tail: string,
                                       z: string)
    requires AllSpace(a) && IsDash(dash) && AllSpace(c) && AllSpace(z) && IsPath(path) && IsRef(ref)
    requires tail == "" || (IsSpace(tail[0]) && !IsSpace(tail[|tail| - 1]))
    ensures UsesAction(a + (dash + ("uses:" + (c + (path + ("@" + (ref + tail)))))) + z) ==
      if IsComment(tail) then Some(path) else None
  {
    var t := path + ("@" + (ref + tail));
    var u := "uses:" + (c + t);
    EndOfReference(path, ref, tail);
    assert u[0] == 'u' && u[|u| - 1] == t[|t| - 1];
    var y := a + (dash + u);
    assert y[|y| - 1] == u[|u| - 1];
    RightTrimBlank(y, z);
    assert (dash + u)[0] == if dash == "" then 'u' else '-';
    LeftTrimBlank(a, dash + u);
    DashSkipped(dash, u);
    ExpectConcat("uses:", c + t);
    LeftTrimBlank(c, t);
    ActionWritten(path, ref + tail);
    ReferenceWritten(ref, tail);
  }

  lemma EndOfReference(path: string, ref: string, tail: string)
    requires IsPath(path) && IsRef(ref) && (tail == "" || !IsSpace(tail[|tail| - 1]))
    ensures var t := path + ("@" + (ref + tail)); !IsSpace(t[0]) && !IsSpace(t[|t| - 1])
  {
    var t := path + ("@" + (ref + tail));
    assert InPath(path[0]) && InRef(ref[|ref| - 1]);
    assert t[|t| - 1] == if tail == "" then ref[|ref| - 1] else tail[|tail| - 1];
  }

  /** And no line is read as using an action unless it is such a step. */
  lemma {:induction false} StepRead(content: string)
    returns (a: string, dash: string, c: string, ref: string, tail: string, z: string)
    requires UsesAction(content).Some?
    ensures var path := UsesAction(content).value;
      && AllSpace(a) && IsDash(dash) && AllSpace(c) && AllSpace(z) && IsPath(path) && IsRef(ref) && IsComment(tail)
      && content == a + (dash + ("uses:" + (c + (path + ("@" + (ref + tail)))))) + z
  {
    z := RightPart(content);
    a := LeftPart(RightTrim(content));
    var s := LeftTrim(RightTrim(content));
    dash := s[..|s| - |SkipDash(s)|];
    DashPart(s);
    var rest := UsesPart(SkipDash(s));
    c := LeftPart(rest);
    ref, tail := ReferencePart(LeftTrim(rest));
  }

  lemma LeftPart(s: string) returns (a: string)
    ensures s == a + LeftTrim(s) && AllSpace(a)
  {
    var k := SplitBlank(s);
    a := s[..k];
    assert s == a + s[k..];
    LeftTrimBlank(a, s[k..]);
  }

  lemma UsesPart(u: string) returns (rest: string)
    requires Expect(u, "uses:").Some?
    ensures Expect(u, "uses:").value == rest && u == "uses:" + rest
  {
    rest := u[|"uses:"|..];
  }

  lemma {:induction false} RightPart(s: string) returns (z: string)
    ensures s == RightTrim(s) + z && AllSpace(z)
  {
    if s != "" && IsSpace(s[|s| - 1]) {
      z := RightPart(s[..|s| - 1]);
      z := z + [s[|s| - 1]];
    } else {
      z := "";
    }
  }

  lemma DashPart(s: string)
    ensures var u := SkipDash(s); |u| <= |s| && s == s[..|s| - |u|] + u && IsDash(s[..|s| - |u|])
  {
    if SkipDash(s) != s {
      var k := SplitBlank(s[1..]);
      assert s[1..] == s[1..][..k] + s[1..][k..];
      LeftTrimBlank(s[1..][..k], s[1..][k..]);
      assert s[..k + 1] == [s[0]] + s[1..][..k];
      assert SkipDash(s) == s[k + 1..];
    }
  }

  lemma {:induction false} RunHolds(p: char -> bool, s: string)
    ensures forall i :: 0 <= i < Run(p, s) ==> p(s[i])
  {
    if s != "" && p(s[0]) {
      RunHolds(p, s[1..]);
      assert forall i :: 0 < i < Run(p, s) ==> s[i] == s[1..][i - 1];
    }
  }

  lemma ReferencePart(t: string) returns (ref: string, tail: string)
    requires ActionOf(t).Some?
    ensures IsPath(ActionOf(t).value) && IsRef(ref) && IsComment(tail)
    ensures t == ActionOf(t).value + ("@" + (ref + tail))
  {
    var n := Run(InPath, t);
    var rest := t[n + 1..];
    var m := Run(InRef, rest);
    RunHolds(InPath, t);
    RunHolds(InRef, rest);
    ref, tail := rest[..m], rest[m..];
    assert t == t[..n] + ([t[n]] + rest) && rest == ref + tail;
  }

  lemma SignsAreNotUses(line: string)
    ensures "--" <= line || "++" <= line ==> UsesAction(line).None?
  {
    if "--" <= line || "++" <= line {
      RightTrimKeeps(line, 2);
      var s := RightTrim(line);
      assert s[0] == line[0] && s[1] == line[1];
      assert LeftTrim(s) == s;
      assert SkipDash(s) == s;
      assert s[0] != "uses:"[0];
    }
  }

  lemma {:induction false} RightTrimKeeps(s: string, n: nat)
    requires 0 < n <= |s| && !IsSpace(s[n - 1])
    ensures n <= |RightTrim(s)| && RightTrim(s)[..n] == s[..n]
  {
    if IsSpace(s[|s| - 1]) {
      RightTrimKeeps(s[..|s| - 1], n);
    }
  }

  // ----- the scan of the diff -----

  predicate IsSigned(line: string)
  {
    line != "" && (line[0] == '+' || line[0] == '-')
  }

  // File and hunk headers, by their first characters.
  predicate IsHeader(line: string)
  {
    "+++" <= line || "---" <= line || "@@" <= line || "diff --git" <= line || "index " <= line
  }

  predicate IsSkipped(line: string)
  {
    IsHeader(line) || !IsSigned(line)
  }

  // How lines are read: the action path of a uses line, and which lines of a diff do not count.
  datatype Grammar = Grammar(act: string -> Option<string>, skip: string -> bool)

  const WORKFLOW := Grammar(UsesAction, IsSkipped)

  // Removed and added action paths from here on; nothing if some changed line is not a uses line.
  function Tally(g: Grammar, removed: seq<string>, added: seq<string>, lines: seq<string>)
    : Option<(seq<string>, seq<string>)>
    decreases lines
  {
    if lines == [] then Some((removed, added))
    else
      var line := lines[0];
      if line == "" || g.skip(line) then Tally(g, removed, added, lines[1..])
      else
        match g.act(line[1..])
        case None => None
        case Some(a) =>
          if line[0] == '+' then Tally(g, removed, added + [a], lines[1..])
          else Tally(g, removed + [a], added, lines[1..])
  }

  predicate Accepts(g: Grammar, lines: seq<string>)
  {
    var t := Tally(g, [], [], lines);
    t.Some? && t.value.0 != [] && multiset(t.value.0) == multiset(t.value.1)
  }

  method ActionVersionBumpOnly(g: Grammar, lines: seq<string>) returns (ok: bool)
    ensures ok <==> Accepts(g, lines)
  {
    var removed, added: seq<string> := [], [];
    for i := 0 to |lines|
      invariant Tally(g, removed, added, lines[i..]) == Tally(g, [], [], lines)
    {
      var line := lines[i];
      assert lines[i..][1..] == lines[i + 1..];
      if line == "" || g.skip(line) {
        continue;
      }
      var matched := g.act(line[1..]);
      if matched.None? {
        return false;
      }
      if line[0] == '+' {
        added := added + [matched.value];
      } else {
        removed := removed + [matched.value];
      }
    }
    return removed != [] && multiset(removed) == multiset(added);
  }

  // ----- what an accepted diff preserves -----

  datatype FileDiff = FileDiff(preamble: seq<string>, script: seq<Block>)

  function DiffLines(hunk: Placed -> seq<string>, files: seq<FileDiff>): seq<string>
  {
    if files == [] then []
    else files[0].preamble + Render(hunk, files[0].script) + DiffLines(hunk, files[1..])
  }

  // Lines that start a file's section: headers, or lines without a sign.
  predicate Opening(g: Grammar, lines: seq<string>)
  {
    forall k :: 0 <= k < |lines| ==> lines[k] == "" || g.skip(lines[k])
  }

  function Actions(g: Grammar, lines: seq<string>): seq<string>
  {
    if lines == [] then []
    else (if g.act(lines[0]).Some? then [g.act(lines[0]).value] else []) + Actions(g, lines[1..])
  }

  function OtherLines(g: Grammar, lines: seq<string>): seq<string>
  {
    if lines == [] then []
    else (if g.act(lines[0]).None? then [lines[0]] else []) + OtherLines(g, lines[1..])
  }

  lemma {:induction false} ActionsAppend(g: Grammar, xs: seq<string>, ys: seq<string>)
    ensures Actions(g, xs + ys) == Actions(g, xs) + Actions(g, ys)
    ensures OtherLines(g, xs + ys) == OtherLines(g, xs) + OtherLines(g, ys)
  {
    if xs == [] {
      assert xs + ys == ys;
    } else {
      assert (xs + ys)[1..] == xs[1..] + ys;
      ActionsAppend(g, xs[1..], ys);
      Assoc(if g.act(xs[0]).Some? then [g.act(xs[0]).value] else [], Actions(g, xs[1..]), Actions(g, ys));
      Assoc(if g.act(xs[0]).None? then [xs[0]] else [], OtherLines(g, xs[1..]), OtherLines(g, ys));
    }
  }

  // What the proofs rely on: a signed line is skipped exactly when its content begins with the same
  // sign twice, and such content is not a uses line.
  ghost predicate Sober(g: Grammar)
  {
    && (forall line :: "--" <= line || "++" <= line ==> g.act(line).None?)
    && (forall line :: g.skip("-" + line) <==> "--" <= line)
    && (forall line :: g.skip("+" + line) <==> "++" <= line)
  }

  // Every line is a uses line or begins with the escaping marks.
  predicate Covered(g: Grammar, escape: string, lines: seq<string>)
  {
    forall k :: 0 <= k < |lines| ==> g.act(lines[k]).Some? || escape <= lines[k]
  }

  lemma SignedLine(mark: string, line: string)
    requires mark == "+" || mark == "-"
    ensures IsSkipped(mark + line) <==> mark + mark <= line
  {
    var raw := mark + line;
    assert raw[0] == mark[0];
    assert "+" + ("+" + "+") == "+++" && "-" + ("-" + "-") == "---";
    PrefixBehind(mark, mark + mark, line);
    assert raw[0] != "@@"[0] && raw[0] != "diff --git"[0] && raw[0] != "index "[0];
    assert "+++"[0] == '+' && "---"[0] == '-';
  }

  lemma {:induction false} TallySkips(g: Grammar, r: seq<string>, a: seq<string>,
                                      lines: seq<string>, rest: seq<string>)
    requires Opening(g, lines)
    ensures Tally(g, r, a, lines + rest) == Tally(g, r, a, rest)
  {
    if lines == [] {
      assert lines + rest == rest;
    } else {
      assert (lines + rest)[1..] == lines[1..] + rest;
      TallySkips(g, r, a, lines[1..], rest);
    }
  }

  lemma TallyMinus(g: Grammar, r: seq<string>, a: seq<string>, l: string, tail: seq<string>)
    requires Sober(g)
    ensures Tally(g, r, a, ["-" + l] + tail) ==
      if "--" <= l then Tally(g, r, a, tail)
      else if g.act(l).None? then None
      else Tally(g, r + [g.act(l).value], a, tail)
  {
    assert (["-" + l] + tail)[1..] == tail;
    assert ("-" + l)[1..] == l;
  }

  lemma TallyPlus(g: Grammar, r: seq<string>, a: seq<string>, l: string, tail: seq<string>)
    requires Sober(g)
    ensures Tally(g, r, a, ["+" + l] + tail) ==
      if "++" <= l then Tally(g, r, a, tail)
      else if g.act(l).None? then None
      else Tally(g, r, a + [g.act(l).value], tail)
  {
    assert (["+" + l] + tail)[1..] == tail;
    assert ("+" + l)[1..] == l;
  }

  lemma PrefixedFirst(mark: string, lines: seq<string>, rest: seq<string>)
    requires lines != []
    ensures Prefixed(mark, lines) + rest == [mark + lines[0]] + (Prefixed(mark, lines[1..]) + rest)
  {
  }

  lemma ActionsFirst(g: Grammar, a: seq<string>, lines: seq<string>)
    requires lines != []
    ensures var act := g.act(lines[0]);
      && (act.Some? ==> a + Actions(g, lines) == a + [act.value] + Actions(g, lines[1..]))
      && (act.None? ==> Actions(g, lines) == Actions(g, lines[1..]))
  {
  }

  lemma {:induction false} TallyRemoved(g: Grammar, r: seq<string>, a: seq<string>,
                                        lines: seq<string>, rest: seq<string>)
    requires Sober(g)
    ensures Tally(g, r, a, Prefixed("-", lines) + rest) ==
      if Covered(g, "--", lines) then Tally(g, r + Actions(g, lines), a, rest) else None
    decreases lines
  {
    if lines == [] {
      assert Prefixed("-", lines) + rest == rest;
      assert r + Actions(g, lines) == r;
    } else {
      var l, more := lines[0], lines[1..];
      PrefixedFirst("-", lines, rest);
      TallyMinus(g, r, a, l, Prefixed("-", more) + rest);
      CoveredFirst(g, "--", lines);
      ActionsFirst(g, r, lines);
      if g.act(l).Some? {
        TallyRemoved(g, r + [g.act(l).value], a, more, rest);
      } else if "--" <= l {
        TallyRemoved(g, r, a, more, rest);
      }
    }
  }

  lemma {:induction false} TallyAdded(g: Grammar, r: seq<string>, a: seq<string>,
                                      lines: seq<string>, rest: seq<string>)
    requires Sober(g)
    ensures Tally(g, r, a, Prefixed("+", lines) + rest) ==
      if Covered(g, "++", lines) then Tally(g, r, a + Actions(g, lines), rest) else None
    decreases lines
  {
    if lines == [] {
      assert Prefixed("+", lines) + rest == rest;
      assert a + Actions(g, lines) == a;
    } else {
      var l, more := lines[0], lines[1..];
      PrefixedFirst("+", lines, rest);
      TallyPlus(g, r, a, l, Prefixed("+", more) + rest);
      CoveredFirst(g, "++", lines);
      ActionsFirst(g, a, lines);
      if g.act(l).Some? {
        TallyAdded(g, r, a + [g.act(l).value], more, rest);
      } else if "++" <= l {
        TallyAdded(g, r, a, more, rest);
      }
    }
  }

  lemma CoveredFirst(g: Grammar, escape: string, lines: seq<string>)
    requires lines != []
    ensures Covered(g, escape, lines) <==>
      (g.act(lines[0]).Some? || escape <= lines[0]) && Covered(g, escape, lines[1..])
  {
    if Covered(g, escape, lines) {
      forall k | 0 <= k < |lines[1..]|
        ensures g.act(lines[1..][k]).Some? || escape <= lines[1..][k]
      {
        assert lines[1..][k] == lines[k + 1];
      }
    }
    if (g.act(lines[0]).Some? || escape <= lines[0]) && Covered(g, escape, lines[1..]) {
      forall k | 0 <= k < |lines|
        ensures g.act(lines[k]).Some? || escape <= lines[k]
      {
        if k > 0 { assert lines[1..][k - 1] == lines[k]; }
      }
    }
  }

  predicate CoveredBlock(g: Grammar, b: Block)
  {
    Covered(g, "--", b.del) && Covered(g, "++", b.ins)
  }

  // `hunk` prints a block as a header, the removed lines and the added lines.
  ghost predicate Prints(g: Grammar, hunk: Placed -> seq<string>)
  {
    forall p: Placed :: PrintsOne(g, hunk, p)
  }

  ghost predicate PrintsOne(g: Grammar, hunk: Placed -> seq<string>, p: Placed)
  {
    if p.b.del == [] && p.b.ins == [] then hunk(p) == []
    else
      && hunk(p) != [] && g.skip(hunk(p)[0])
      && hunk(p)[1..] == Prefixed("-", p.b.del) + Prefixed("+", p.b.ins)
  }

  lemma GitPrints()
    ensures Prints(WORKFLOW, GitHunk)
  {
    forall p: Placed
      ensures PrintsOne(WORKFLOW, GitHunk, p)
    {
      GitPrintsOne(p);
    }
  }

  lemma GitPrintsOne(p: Placed)
    ensures PrintsOne(WORKFLOW, GitHunk, p)
  {
    if p.b.del != [] || p.b.ins != [] {
      var header := HunkHeader(p.o, p.n, p.b);
      assert header[0] == "@@ -"[0] && header[1] == "@@ -"[1];
      assert header[..2] == "@@";
      assert GitHunk(p) == [header] + (Prefixed("-", p.b.del) + Prefixed("+", p.b.ins));
    }
  }

  lemma TallyHunk(g: Grammar, hunk: Placed -> seq<string>, p: Placed,
                  r: seq<string>, a: seq<string>, rest: seq<string>)
    requires Sober(g) && PrintsOne(g, hunk, p)
    ensures Tally(g, r, a, hunk(p) + rest) ==
      if CoveredBlock(g, p.b)
      then Tally(g, r + Actions(g, p.b.del), a + Actions(g, p.b.ins), rest) else None
  {
    var del, ins := p.b.del, p.b.ins;
    if del == [] && ins == [] {
      assert hunk(p) + rest == rest;
      assert r + Actions(g, del) == r && a + Actions(g, ins) == a;
    } else {
      var header := hunk(p)[0];
      var minus, plus := Prefixed("-", del), Prefixed("+", ins);
      assert hunk(p) == [header] + (minus + plus);
      assert hunk(p) + rest == [header] + (minus + (plus + rest));
      TallyThree(g, header, del, ins, r, a, rest);
    }
  }

  lemma TallyThree(g: Grammar, header: string, del: seq<string>, ins: seq<string>,
                   r: seq<string>, a: seq<string>, rest: seq<string>)
    requires Sober(g) && g.skip(header)
    ensures Tally(g, r, a, [header] + (Prefixed("-", del) + (Prefixed("+", ins) + rest))) ==
      if Covered(g, "--", del) && Covered(g, "++", ins)
      then Tally(g, r + Actions(g, del), a + Actions(g, ins), rest) else None
  {
    var plus := Prefixed("+", ins) + rest;
    TallySkips(g, r, a, [header], Prefixed("-", del) + plus);
    TallyRemoved(g, r, a, del, plus);
    TallyAdded(g, r + Actions(g, del), a, ins, rest);
  }

  // The removed and added actions of a script.
  function Removed(g: Grammar, script: seq<Block>): seq<string>
  {
    if script == [] then [] else Actions(g, script[0].del) + Removed(g, script[1..])
  }

  function Added(g: Grammar, script: seq<Block>): seq<string>
  {
    if script == [] then [] else Actions(g, script[0].ins) + Added(g, script[1..])
  }

  predicate ScriptCovered(g: Grammar, script: seq<Block>)
  {
    script == [] || (CoveredBlock(g, script[0]) && ScriptCovered(g, script[1..]))
  }

  function Blocks(ps: seq<Placed>): (script: seq<Block>)
    ensures |script| == |ps|
  {
    seq(|ps|, i requires 0 <= i < |ps| => ps[i].b)
  }

  lemma BlocksOfPlace(script: seq<Block>)
    ensures Blocks(Place(script, 0, 0)) == script
  {
    PlacedBlocks(script, 0, 0);
  }

  lemma {:induction false} TallyPrinted(g: Grammar, hunk: Placed -> seq<string>, ps: seq<Placed>,
                                        r: seq<string>, a: seq<string>, rest: seq<string>)
    requires Sober(g) && Prints(g, hunk)
    ensures Tally(g, r, a, PrintHunks(hunk, ps) + rest) ==
      if ScriptCovered(g, Blocks(ps))
      then Tally(g, r + Removed(g, Blocks(ps)), a + Added(g, Blocks(ps)), rest) else None
    decreases ps
  {
    if ps == [] {
      assert PrintHunks(hunk, ps) + rest == rest;
      assert r + Removed(g, Blocks(ps)) == r && a + Added(g, Blocks(ps)) == a;
    } else {
      var more := PrintHunks(hunk, ps[1..]) + rest;
      Assoc(hunk(ps[0]), PrintHunks(hunk, ps[1..]), rest);
      assert PrintsOne(g, hunk, ps[0]);
      TallyHunk(g, hunk, ps[0], r, a, more);
      var r1, a1 := r + Actions(g, ps[0].b.del), a + Actions(g, ps[0].b.ins);
      TallyPrinted(g, hunk, ps[1..], r1, a1, rest);
      assert Blocks(ps)[1..] == Blocks(ps[1..]);
      Assoc(r, Actions(g, ps[0].b.del), Removed(g, Blocks(ps[1..])));
      Assoc(a, Actions(g, ps[0].b.ins), Added(g, Blocks(ps[1..])));
    }
  }

  predicate FilesCovered(g: Grammar, files: seq<FileDiff>)
  {
    files == [] || (ScriptCovered(g, files[0].script) && FilesCovered(g, files[1..]))
  }

  function FilesRemoved(g: Grammar, files: seq<FileDiff>): seq<string>
  {
    if files == [] then [] else Removed(g, files[0].script) + FilesRemoved(g, files[1..])
  }

  function FilesAdded(g: Grammar, files: seq<FileDiff>): seq<string>
  {
    if files == [] then [] else Added(g, files[0].script) + FilesAdded(g, files[1..])
  }

  lemma {:induction false} TallyFiles(g: Grammar, hunk: Placed -> seq<string>, files: seq<FileDiff>,
                                      r: seq<string>, a: seq<string>)
    requires Sober(g) && Prints(g, hunk)
    requires forall i :: 0 <= i < |files| ==> Opening(g, files[i].preamble)
    ensures Tally(g, r, a, DiffLines(hunk, files)) ==
      if FilesCovered(g, files) then Some((r + FilesRemoved(g, files), a + FilesAdded(g, files))) else None
    decreases files
  {
    if files == [] {
      assert r + FilesRemoved(g, files) == r && a + FilesAdded(g, files) == a;
    } else {
      var ps := Place(files[0].script, 0, 0);
      var rest := DiffLines(hunk, files[1..]);
      Assoc(files[0].preamble, PrintHunks(hunk, ps), rest);
      TallySkips(g, r, a, files[0].preamble, PrintHunks(hunk, ps) + rest);
      TallyPrinted(g, hunk, ps, r, a, rest);
      BlocksOfPlace(files[0].script);
      var r1, a1 := r + Removed(g, files[0].script), a + Added(g, files[0].script);
      TallyFiles(g, hunk, files[1..], r1, a1);
      Assoc(r, Removed(g, files[0].script), FilesRemoved(g, files[1..]));
      Assoc(a, Added(g, files[0].script), FilesAdded(g, files[1..]));
    }
  }

  // ----- printed lines that are cut again -----

  // What the scan takes a raw line for.
  datatype Reading = Ignored | Odd | Uses(mark: char, action: string)

  function Read(g: Grammar, raw: string): Reading
  {
    if raw == "" || g.skip(raw) then Ignored
    else
      match g.act(raw[1..])
      case None => Odd
      case Some(a) => Uses(raw[0], a)
  }

  // Cutting the line at its other breaks changes nothing: the first piece reads like the whole line,
  // and no later piece carries a sign.
  predicate Tame(g: Grammar, raw: string)
  {
    Read(g, FirstPiece(raw)) == Read(g, raw) && Opening(g, Tail(raw))
  }

  predicate AllTame(g: Grammar, raws: seq<string>)
  {
    forall k :: 0 <= k < |raws| ==> Tame(g, raws[k])
  }

  // The two lists after one line.
  function After(g: Grammar, r: seq<string>, a: seq<string>, raw: string): (seq<string>, seq<string>)
  {
    var reading := Read(g, raw);
    if !reading.Uses? then (r, a)
    else if reading.mark == '+' then (r, a + [reading.action])
    else (r + [reading.action], a)
  }

  lemma TallyFirst(g: Grammar, r: seq<string>, a: seq<string>, raw: string, rest: seq<string>)
    ensures Tally(g, r, a, [raw] + rest) ==
      if Read(g, raw).Odd? then None else Tally(g, After(g, r, a, raw).0, After(g, r, a, raw).1, rest)
  {
    assert ([raw] + rest)[1..] == rest;
  }

  lemma TallyPieces(g: Grammar, r: seq<string>, a: seq<string>, raw: string, first: string,
                    tail: seq<string>, rest: seq<string>)
    requires Read(g, first) == Read(g, raw) && Opening(g, tail)
    ensures Tally(g, r, a, [first] + (tail + rest)) ==
      if Read(g, raw).Odd? then None else Tally(g, After(g, r, a, raw).0, After(g, r, a, raw).1, rest)
  {
    TallyFirst(g, r, a, first, tail + rest);
    TallySkips(g, After(g, r, a, raw).0, After(g, r, a, raw).1, tail, rest);
  }

  lemma {:induction false} TallyTame(g: Grammar, r: seq<string>, a: seq<string>, raws: seq<string>)
    requires AllTame(g, raws)
    ensures Tally(g, r, a, Cut(raws)) == Tally(g, r, a, raws)
    decreases raws
  {
    if raws != [] {
      var raw, more := raws[0], raws[1..];
      assert Tame(g, raw);
      CutFirst(raws);
      TallyPieces(g, r, a, raw, FirstPiece(raw), Tail(raw), Cut(more));
      TallyFirst(g, r, a, raw, more);
      TallyTame(g, After(g, r, a, raw).0, After(g, r, a, raw).1, more);
    }
  }

  predicate Judged(g: Grammar, lines: seq<string>)
  {
    forall k :: 0 <= k < |lines| ==> !Read(g, lines[k]).Odd?
  }

  // Only a line that is neither skipped nor a uses line ends the scan early.
  lemma {:induction false} TallyEnds(g: Grammar, r: seq<string>, a: seq<string>, lines: seq<string>)
    ensures Tally(g, r, a, lines).Some? <==> Judged(g, lines)
    decreases lines
  {
    if lines != [] {
      assert [lines[0]] + lines[1..] == lines;
      TallyFirst(g, r, a, lines[0], lines[1..]);
      JudgedFirst(g, lines);
      TallyEnds(g, After(g, r, a, lines[0]).0, After(g, r, a, lines[0]).1, lines[1..]);
    }
  }

  lemma JudgedFirst(g: Grammar, lines: seq<string>)
    requires lines != []
    ensures Judged(g, lines) <==> !Read(g, lines[0]).Odd? && Judged(g, lines[1..])
  {
    forall k | 0 < k < |lines|
      ensures lines[k] == lines[1..][k - 1]
    {
    }
    if !Read(g, lines[0]).Odd? && Judged(g, lines[1..]) {
      forall k | 0 <= k < |lines|
        ensures !Read(g, lines[k]).Odd?
      {
        if k > 0 { assert !Read(g, lines[1..][k - 1]).Odd?; }
      }
    }
  }

  lemma JudgedParts(g: Grammar, xs: seq<string>, ys: seq<string>)
    ensures Judged(g, xs + ys) <==> Judged(g, xs) && Judged(g, ys)
  {
    if Judged(g, xs + ys) {
      forall k | 0 <= k < |xs|
        ensures !Read(g, xs[k]).Odd?
      {
        assert (xs + ys)[k] == xs[k];
      }
      forall k | 0 <= k < |ys|
        ensures !Read(g, ys[k]).Odd?
      {
        assert (xs + ys)[|xs| + k] == ys[k];
      }
    }
  }

  // What one file contributes is judged as part of the whole diff.
  lemma {:induction false} JudgedFile(g: Grammar, hunk: Placed -> seq<string>, files: seq<FileDiff>, i: nat)
    requires i < |files| && Judged(g, Cut(DiffLines(hunk, files)))
    ensures Judged(g, Cut(Render(hunk, files[i].script)))
    decreases files
  {
    var first, rest := files[0].preamble + Render(hunk, files[0].script), DiffLines(hunk, files[1..]);
    CutAppend(first, rest);
    JudgedParts(g, Cut(first), Cut(rest));
    if i == 0 {
      CutAppend(files[0].preamble, Render(hunk, files[0].script));
      JudgedParts(g, Cut(files[0].preamble), Cut(Render(hunk, files[0].script)));
    } else {
      JudgedFile(g, hunk, files[1..], i - 1);
    }
  }

  lemma BreakFreeIsTame(g: Grammar, raw: string)
    requires BreakFree(raw)
    ensures Tame(g, raw)
  {
    BreakFreePiece(raw);
  }

  // ----- conservation of actions -----

  function OldFiles(files: seq<FileDiff>): seq<string>
  {
    if files == [] then [] else OldFile(files[0].script) + OldFiles(files[1..])
  }

  function NewFiles(files: seq<FileDiff>): seq<string>
  {
    if files == [] then [] else NewFile(files[0].script) + NewFiles(files[1..])
  }

  // Old and new parts that share k and balance each other still balance with d and i around them.
  lemma Balance(old0: multiset<string>, new0: multiset<string>, added0: multiset<string>, removed0: multiset<string>,
                k: multiset<string>, d: multiset<string>, i: multiset<string>, old1: multiset<string>,
                new1: multiset<string>, added1: multiset<string>, removed1: multiset<string>)
    requires old1 + added1 == new1 + removed1
    requires old0 == k + d + old1 && new0 == k + i + new1 && added0 == i + added1 && removed0 == d + removed1
    ensures old0 + added0 == new0 + removed0
  {
    assert old0 + added0 == k + d + i + (old1 + added1);
    assert new0 + removed0 == k + d + i + (new1 + removed1);
  }

  lemma BlockActions(g: Grammar, xs: seq<string>, ys: seq<string>, zs: seq<string>)
    ensures multiset(Actions(g, xs + ys + zs))
         == multiset(Actions(g, xs)) + multiset(Actions(g, ys)) + multiset(Actions(g, zs))
  {
    ActionsAppend(g, xs, ys);
    ActionsAppend(g, xs + ys, zs);
  }

  lemma FileActions(g: Grammar, script: seq<Block>)
    requires script != []
    ensures var b := script[0];
      var keep := multiset(Actions(g, b.keep));
      && multiset(Actions(g, OldFile(script)))
           == keep + multiset(Actions(g, b.del)) + multiset(Actions(g, OldFile(script[1..])))
      && multiset(Actions(g, NewFile(script)))
           == keep + multiset(Actions(g, b.ins)) + multiset(Actions(g, NewFile(script[1..])))
  {
    var b := script[0];
    BlockActions(g, b.keep, b.del, OldFile(script[1..]));
    BlockActions(g, b.keep, b.ins, NewFile(script[1..]));
  }

  lemma {:induction false} ScriptActions(g: Grammar, script: seq<Block>)
    ensures multiset(Actions(g, OldFile(script))) + multiset(Added(g, script))
         == multiset(Actions(g, NewFile(script))) + multiset(Removed(g, script))
  {
    if script != [] {
      var b, rest := script[0], script[1..];
      ScriptActions(g, rest);
      FileActions(g, script);
      Balance(multiset(Actions(g, OldFile(script))), multiset(Actions(g, NewFile(script))),
              multiset(Added(g, script)), multiset(Removed(g, script)),
              multiset(Actions(g, b.keep)), multiset(Actions(g, b.del)), multiset(Actions(g, b.ins)),
              multiset(Actions(g, OldFile(rest))), multiset(Actions(g, NewFile(rest))),
              multiset(Added(g, rest)), multiset(Removed(g, rest)));
    }
  }

  lemma AddBalanced(old0: multiset<string>, new0: multiset<string>, added0: multiset<string>,
                    removed0: multiset<string>, old1: multiset<string>, new1: multiset<string>,
                    added1: multiset<string>, removed1: multiset<string>)
    requires old0 + added0 == new0 + removed0 && old1 + added1 == new1 + removed1
    ensures (old0 + old1) + (added0 + added1) == (new0 + new1) + (removed0 + removed1)
  {
    assert (old0 + old1) + (added0 + added1) == (old0 + added0) + (old1 + added1);
    assert (new0 + new1) + (removed0 + removed1) == (new0 + removed0) + (new1 + removed1);
  }

  lemma {:induction false} FilesActions(g: Grammar, files: seq<FileDiff>)
    ensures multiset(Actions(g, OldFiles(files))) + multiset(FilesAdded(g, files))
         == multiset(Actions(g, NewFiles(files))) + multiset(FilesRemoved(g, files))
  {
    if files != [] {
      var script, rest := files[0].script, files[1..];
      FilesActions(g, rest);
      ScriptActions(g, script);
      ActionsAppend(g, OldFile(script), OldFiles(rest));
      ActionsAppend(g, NewFile(script), NewFiles(rest));
      AddBalanced(multiset(Actions(g, OldFile(script))), multiset(Actions(g, NewFile(script))),
                  multiset(Added(g, script)), multiset(Removed(g, script)),
                  multiset(Actions(g, OldFiles(rest))), multiset(Actions(g, NewFiles(rest))),
                  multiset(FilesAdded(g, rest)), multiset(FilesRemoved(g, rest)));
    }
  }

  lemma Cancel(old0: multiset<string>, new0: multiset<string>, added: multiset<string>, removed: multiset<string>)
    requires old0 + added == new0 + removed && added == removed
    ensures old0 == new0
  {
    assert (old0 + added) - added == old0;
    assert (new0 + removed) - removed == new0;
  }

  lemma AcceptedIsCovered(g: Grammar, hunk: Placed -> seq<string>, files: seq<FileDiff>)
    requires Sober(g) && Prints(g, hunk)
    requires forall i :: 0 <= i < |files| ==> Opening(g, files[i].preamble)
    requires Accepts(g, DiffLines(hunk, files))
    ensures FilesCovered(g, files)
    ensures multiset(FilesAdded(g, files)) == multiset(FilesRemoved(g, files))
  {
    TallyFiles(g, hunk, files, [], []);
    assert [] + FilesRemoved(g, files) == FilesRemoved(g, files);
    assert [] + FilesAdded(g, files) == FilesAdded(g, files);
  }

  /** An accepted diff whose lines keep their reading when they are cut preserves the multiset of
      action paths over all touched files together. */
  lemma {:induction false} AcceptedKeepsActions(g: Grammar, hunk: Placed -> seq<string>, files: seq<FileDiff>)
    requires Sober(g) && Prints(g, hunk)
    requires forall i :: 0 <= i < |files| ==> Opening(g, files[i].preamble)
    requires Accepts(g, Cut(DiffLines(hunk, files))) && AllTame(g, DiffLines(hunk, files))
    ensures multiset(Actions(g, OldFiles(files))) == multiset(Actions(g, NewFiles(files)))
  {
    TallyTame(g, [], [], DiffLines(hunk, files));
    AcceptedIsCovered(g, hunk, files);
    FilesActions(g, files);
    Cancel(multiset(Actions(g, OldFiles(files))), multiset(Actions(g, NewFiles(files))),
           multiset(FilesAdded(g, files)), multiset(FilesRemoved(g, files)));
  }

  // ----- conservation of the other lines -----

  predicate IsDashed(line: string) { "--" <= line }

  predicate IsPlused(line: string) { "++" <= line }

  // No removed line begins with two dashes, no added line with two plus signs.
  predicate NoEscapes(script: seq<Block>)
  {
    forall i :: 0 <= i < |script| ==>
      CountIf(IsDashed, script[i].del) == 0 && CountIf(IsPlused, script[i].ins) == 0
  }

  function Escapes(p: string -> bool, script: seq<Block>, removed: bool): nat
  {
    if script == [] then 0
    else CountIf(p, if removed then script[0].del else script[0].ins) + Escapes(p, script[1..], removed)
  }

  // p holds of the lines with the escaping marks, q of none of them.
  ghost predicate Separates(escape: string, p: string -> bool, q: string -> bool)
  {
    && (forall line {:trigger p(line)} :: p(line) <==> escape <= line)
    && (forall line {:trigger q(line)} :: q(line) ==> !(escape <= line))
  }

  lemma MarksSeparate()
    ensures Separates("--", IsDashed, IsPlused) && Separates("++", IsPlused, IsDashed)
  {
    forall line
      ensures !(IsDashed(line) && IsPlused(line))
    {
      assert "--"[0] != "++"[0];
    }
  }

  // Of the covered lines exactly the escaping ones are not uses lines.
  lemma {:induction false} CoveredOthers(g: Grammar, escape: string, lines: seq<string>,
                                         p: string -> bool, q: string -> bool)
    requires Sober(g) && Covered(g, escape, lines) && (escape == "--" || escape == "++")
    requires Separates(escape, p, q)
    ensures CountIf(p, OtherLines(g, lines)) == CountIf(p, lines) == |OtherLines(g, lines)|
    ensures CountIf(q, OtherLines(g, lines)) == 0
  {
    if lines != [] {
      var l, more := lines[0], lines[1..];
      CoveredFirst(g, escape, lines);
      CoveredOthers(g, escape, more, p, q);
      CountFirst(p, lines);
      assert p(l) <==> escape <= l;
      if g.act(l).None? {
        OthersFirst(g, lines);
        CountFirst(p, OtherLines(g, lines));
        CountFirst(q, OtherLines(g, lines));
      } else {
        assert OtherLines(g, lines) == OtherLines(g, more);
      }
    }
  }

  lemma OthersFirst(g: Grammar, lines: seq<string>)
    requires lines != [] && g.act(lines[0]).None?
    ensures OtherLines(g, lines) == [lines[0]] + OtherLines(g, lines[1..])
    ensures OtherLines(g, lines)[1..] == OtherLines(g, lines[1..])
  {
  }

  lemma CountSingle(p: string -> bool, l: string)
    ensures CountIf(p, [l]) == if p(l) then 1 else 0
  {
    assert [l][..0] == [];
  }

  // How many dashed (plused) other lines the old and the new file have.
  lemma {:induction false} EscapeBalance(g: Grammar, script: seq<Block>)
    requires Sober(g) && ScriptCovered(g, script)
    ensures CountIf(IsDashed, OtherLines(g, OldFile(script)))
         == CountIf(IsDashed, OtherLines(g, NewFile(script))) + Escapes(IsDashed, script, true)
    ensures CountIf(IsPlused, OtherLines(g, NewFile(script)))
         == CountIf(IsPlused, OtherLines(g, OldFile(script))) + Escapes(IsPlused, script, false)
  {
    if script != [] {
      var b, rest := script[0], script[1..];
      EscapeBalance(g, rest);
      MarksSeparate();
      CoveredOthers(g, "--", b.del, IsDashed, IsPlused);
      CoveredOthers(g, "++", b.ins, IsPlused, IsDashed);
      SplitOthers(g, IsDashed, b.keep, b.del, OldFile(rest));
      SplitOthers(g, IsDashed, b.keep, b.ins, NewFile(rest));
      SplitOthers(g, IsPlused, b.keep, b.del, OldFile(rest));
      SplitOthers(g, IsPlused, b.keep, b.ins, NewFile(rest));
    }
  }

  lemma SplitOthers(g: Grammar, p: string -> bool, xs: seq<string>, ys: seq<string>, zs: seq<string>)
    ensures CountIf(p, OtherLines(g, xs + ys + zs)) ==
      CountIf(p, OtherLines(g, xs)) + CountIf(p, OtherLines(g, ys)) + CountIf(p, OtherLines(g, zs))
  {
    ActionsAppend(g, xs, ys);
    ActionsAppend(g, xs + ys, zs);
    CountAppend(p, OtherLines(g, xs), OtherLines(g, ys));
    CountAppend(p, OtherLines(g, xs + ys), OtherLines(g, zs));
  }

  lemma {:induction false} NoEscapesKeepsOthers(g: Grammar, script: seq<Block>)
    requires Sober(g) && ScriptCovered(g, script)
    requires Escapes(IsDashed, script, true) == 0 && Escapes(IsPlused, script, false) == 0
    ensures OtherLines(g, OldFile(script)) == OtherLines(g, NewFile(script))
  {
    if script != [] {
      var b, rest := script[0], script[1..];
      NoEscapesKeepsOthers(g, rest);
      MarksSeparate();
      CoveredOthers(g, "--", b.del, IsDashed, IsPlused);
      CoveredOthers(g, "++", b.ins, IsPlused, IsDashed);
      ActionsAppend(g, b.keep, b.del);
      ActionsAppend(g, b.keep + b.del, OldFile(rest));
      ActionsAppend(g, b.keep, b.ins);
      ActionsAppend(g, b.keep + b.ins, NewFile(rest));
    }
  }

  lemma {:induction false} EscapesCounted(script: seq<Block>)
    ensures NoEscapes(script) <==> Escapes(IsDashed, script, true) == 0 && Escapes(IsPlused, script, false) == 0
  {
    if script != [] {
      EscapesCounted(script[1..]);
      forall i | 0 < i < |script|
        ensures script[i] == script[1..][i - 1]
      {
      }
      if NoEscapes(script) {
        assert NoEscapes(script[1..]);
      }
    }
  }

  lemma TameFileCovered(g: Grammar, hunk: Placed -> seq<string>, files: seq<FileDiff>, i: nat)
    requires Sober(g) && Prints(g, hunk) && i < |files|
    requires Judged(g, Cut(DiffLines(hunk, files))) && AllTame(g, Render(hunk, files[i].script))
    ensures ScriptCovered(g, files[i].script)
  {
    var raws := Render(hunk, files[i].script);
    JudgedFile(g, hunk, files, i);
    TallyEnds(g, [], [], Cut(raws));
    TallyTame(g, [], [], raws);
    BlocksOfPlace(files[i].script);
    TallyPrinted(g, hunk, Place(files[i].script, 0, 0), [], [], []);
    assert raws + [] == raws;
  }

  /** In a file of an accepted diff whose lines keep their reading when they are cut, the ordered
      sequence of lines that use no action is preserved if and only if no removed line begins with
      two dashes and no added line with two plus signs. */
  lemma {:induction false} AcceptedKeepsOtherLines(g: Grammar, hunk: Placed -> seq<string>, files: seq<FileDiff>,
                                                   i: nat)
    requires Sober(g) && Prints(g, hunk)
    requires Accepts(g, Cut(DiffLines(hunk, files))) && i < |files|
    requires AllTame(g, Render(hunk, files[i].script))
    ensures OtherLines(g, OldFile(files[i].script)) == OtherLines(g, NewFile(files[i].script))
      <==> NoEscapes(files[i].script)
  {
    var script := files[i].script;
    TallyEnds(g, [], [], Cut(DiffLines(hunk, files)));
    TameFileCovered(g, hunk, files, i);
    EscapeBalance(g, script);
    EscapesCounted(script);
    if NoEscapes(script) { NoEscapesKeepsOthers(g, script); }
  }

  lemma WorkflowIsSober()
    ensures Sober(WORKFLOW)
  {
    forall line | "--" <= line || "++" <= line
      ensures WORKFLOW.act(line).None?
    {
      SignsAreNotUses(line);
    }
    forall line
      ensures WORKFLOW.skip("-" + line) <==> "--" <= line
    {
      SignedLine("-", line);
      assert "-" + "-" == "--";
    }
    forall line
      ensures WORKFLOW.skip("+" + line) <==> "++" <= line
    {
      SignedLine("+", line);
      assert "+" + "+" == "++";
    }
  }

  lemma PrefixBefore(pattern: string, x: string, c: char)
    requires c !in pattern
    ensures pattern <= x + [c] <==> pattern <= x
  {
    assert (x + [c])[|x|] == c;
  }

  lemma SkippedBefore(x: string)
    ensures IsSkipped(x + "\r") <==> IsSkipped(x)
  {
    PrefixBefore("+++", x, '\r');
    PrefixBefore("---", x, '\r');
    PrefixBefore("@@", x, '\r');
    PrefixBefore("diff --git", x, '\r');
    PrefixBefore("index ", x, '\r');
  }

  lemma UsesBefore(x: string)
    ensures UsesAction(x + "\r") == UsesAction(x)
  {
    assert (x + "\r")[..|x|] == x;
  }

  /** Files whose lines end in a carriage return and a line feed are read as if there were only the line
      feed. */
  lemma {:induction false} CarriageReturnIsTame(x: string)
    requires BreakFree(x)
    ensures Tame(WORKFLOW, x + "\r")
  {
    PiecesBeforeReturn(x);
    SkippedBefore(x);
    if x != "" {
      assert (x + "\r")[1..] == x[1..] + "\r";
      UsesBefore(x[1..]);
    }
  }

  predicate IsWorkflow(path: string)
  {
    ".github/workflows/" <= path
  }

  // `diff` is nothing when git could not produce it.
  predicate IsBump(paths: seq<string>, diff: Option<string>)
  {
    && paths != [] && (forall k :: 0 <= k < |paths| ==> IsWorkflow(paths[k]))
    && diff.Some? && Accepts(WORKFLOW, SplitLines(diff.value))
  }

  method IsVersionBump(paths: seq<string>, diff: Option<string>) returns (ok: bool)
    ensures ok <==> IsBump(paths, diff)
  {
    if paths == [] {
      return false;
    }
    for k := 0 to |paths|
      invariant forall j :: 0 <= j < k ==> IsWorkflow(paths[j])
    {
      if !IsWorkflow(paths[k]) {
        return false;
      }
    }
    if diff.None? {
      return false;
    }
    ok := ActionVersionBumpOnly(WORKFLOW, SplitLines(diff.value));
  }

  /** Without a path, without a diff, or with an empty one there is no bump. */
  lemma NothingIsNoBump(paths: seq<string>, diff: Option<string>)
    requires paths == [] || diff == None || diff == Some("")
    ensures !IsBump(paths, diff)
  {
  }

  /** Where cutting a printed line never changes how it is read, the diff of some workflows is accepted if and
      only if every removed line uses an action or begins with two dashes, every added line uses one or begins
      with two plus signs, and the removed actions are the same bag as the added ones, and not empty. */
  lemma {:induction false} BumpIff(paths: seq<string>, files: seq<FileDiff>)
    requires forall k :: 0 <= k < |files| ==> Opening(WORKFLOW, files[k].preamble)
    requires AllTame(WORKFLOW, DiffLines(GitHunk, files)) && paths != []
    requires forall k :: 0 <= k < |paths| ==> ".github/workflows/" <= paths[k]
    ensures IsBump(paths, Some(TextOf(DiffLines(GitHunk, files)))) <==>
      && FilesCovered(WORKFLOW, files) && FilesRemoved(WORKFLOW, files) != []
      && multiset(FilesRemoved(WORKFLOW, files)) == multiset(FilesAdded(WORKFLOW, files))
  {
    SplitLinesOfText(DiffLines(GitHunk, files));
    TameIsAccepted(WORKFLOW, DiffLines(GitHunk, files));
    WorkflowIsSober();
    GitPrints();
    TallyFiles(WORKFLOW, GitHunk, files, [], []);
    assert [] + FilesRemoved(WORKFLOW, files) == FilesRemoved(WORKFLOW, files);
    assert [] + FilesAdded(WORKFLOW, files) == FilesAdded(WORKFLOW, files);
  }

  /** For the diff text of any list of edited files, whatever their lines hold: if it is accepted,
      and cutting a printed line at its other breaks never changes how it is read, the action paths
      over all files together are the same bag as before; and in each file whose own lines have that
      property the other lines are the same sequence exactly when nothing removed begins with two
      dashes and nothing added with two plus signs. */
  lemma {:induction false} VersionBumpConserves(paths: seq<string>, files: seq<FileDiff>)
    requires forall k :: 0 <= k < |files| ==> Opening(WORKFLOW, files[k].preamble)
    requires IsBump(paths, Some(TextOf(DiffLines(GitHunk, files))))
    ensures AllTame(WORKFLOW, DiffLines(GitHunk, files))
      ==> multiset(Actions(WORKFLOW, OldFiles(files))) == multiset(Actions(WORKFLOW, NewFiles(files)))
    ensures forall i :: 0 <= i < |files| && AllTame(WORKFLOW, Render(GitHunk, files[i].script)) ==>
      (OtherLines(WORKFLOW, OldFile(files[i].script)) == OtherLines(WORKFLOW, NewFile(files[i].script))
       <==> NoEscapes(files[i].script))
  {
    SplitLinesOfText(DiffLines(GitHunk, files));
    WorkflowIsSober();
    GitPrints();
    if AllTame(WORKFLOW, DiffLines(GitHunk, files)) {
      AcceptedKeepsActions(WORKFLOW, GitHunk, files);
    }
    forall i | 0 <= i < |files| && AllTame(WORKFLOW, Render(GitHunk, files[i].script))
      ensures OtherLines(WORKFLOW, OldFile(files[i].script)) == OtherLines(WORKFLOW, NewFile(files[i].script))
         <==> NoEscapes(files[i].script)
    {
      AcceptedKeepsOtherLines(WORKFLOW, GitHunk, files, i);
    }
  }

  // ----- where it fails -----

  lemma OneFile(hunk: Placed -> seq<string>, b: Block)
    ensures DiffLines(hunk, [FileDiff([], [b])]) == Render(hunk, [b]) == hunk(Placed(|b.keep|, |b.keep|, b))
    ensures OldFiles([FileDiff([], [b])]) == OldFile([b]) == b.keep + b.del
    ensures NewFiles([FileDiff([], [b])]) == NewFile([b]) == b.keep + b.ins
  {
    var file, p := FileDiff([], [b]), Placed(|b.keep|, |b.keep|, b);
    assert [file][1..] == [] && [b][1..] == [] && [p][1..] == [];
    assert Place([b], 0, 0) == [p] + [];
    assert PrintHunks(hunk, [p]) == hunk(p) + [];
    assert DiffLines(hunk, [file]) == [] + hunk(p) + [];
  }

  lemma CutThree(x: string, y: string, z: string)
    ensures Cut([x, y, z]) == [FirstPiece(x)] + Tail(x) + ([FirstPiece(y)] + Tail(y) + ([FirstPiece(z)] + Tail(z)))
  {
    PiecesAre(x);
    PiecesAre(y);
    PiecesAre(z);
    assert [x, y, z][1..] == [y, z] && [y, z][1..] == [z] && [z][1..] == [];
    assert Cut([z]) == Pieces(z) + [];
  }

  lemma CutPrinted(header: string, x: string, y: string)
    requires FirstPiece(header) == header && Tail(header) == [] && BreakFree(x)
    ensures Cut([header, "-" + x, "+" + y]) == [header] + (["-" + x] + (["+" + FirstPiece(y)] + Tail(y)))
  {
    CutThree(header, "-" + x, "+" + y);
    PieceBehind("-", x);
    BreakFreePiece(x);
    PieceBehind("+", y);
    assert [header] + [] == [header] && ["-" + x] + [] == ["-" + x];
  }

  // One line replaced by another, as git prints it and as the scan cuts it.
  lemma CutReplacement(x: string, y: string, b: Block)
    requires BreakFree(x) && b == Block([], [x], [y], "")
    ensures FirstPiece(HunkHeader(0, 0, b)) == HunkHeader(0, 0, b)
    ensures Cut(DiffLines(GitHunk, [FileDiff([], [b])]))
         == [HunkHeader(0, 0, b)] + (["-" + x] + (["+" + FirstPiece(y)] + Tail(y)))
  {
    OneFile(GitHunk, b);
    HunkOfOne(GIT, x, y, b);
    HeaderPieces(0, 0, b);
    BreakFreePiece("");
    CutPrinted(HunkHeader(0, 0, b), x, y);
  }

  lemma HunkOfOne(f: Format, x: string, y: string, b: Block)
    requires b == Block([], [x], [y], "")
    ensures HunkOf(f, 0, 0, b) == [f.header(0, 0, b), "-" + x, "+" + y]
  {
    assert [x][1..] == [] && [y][1..] == [];
  }

  lemma AcceptsReplacement(g: Grammar, header: string, x: string, y: string, a: string, more: seq<string>)
    requires Sober(g) && g.skip(header) && Opening(g, more)
    requires g.act(x) == Some(a) && g.act(y) == Some(a)
    ensures Accepts(g, [header] + (["-" + x] + (["+" + y] + more)))
  {
    TallySkips(g, [], [], [header], ["-" + x] + (["+" + y] + more));
    TallyMinus(g, [], [], x, ["+" + y] + more);
    TallyPlus(g, [] + [a], [], y, more);
    TallySkips(g, [] + [a], [] + [a], more, []);
    assert more + [] == more;
  }

  lemma OneAction(g: Grammar, line: string)
    ensures Actions(g, [line]) == if g.act(line).Some? then [g.act(line).value] else []
    ensures OtherLines(g, [line]) == if g.act(line).None? then [line] else []
  {
    assert [line][1..] == [];
    assert Actions(g, []) == [] && OtherLines(g, []) == [];
  }

  // A uses line replaced by another line, which the scan sees as a uses line of the same action.
  lemma ReplacementHides(g: Grammar, x: string, y: string, a: string, b: Block)
    requires Sober(g) && b == Block([], [x], [y], "") && BreakFree(x)
    requires g.act(x) == Some(a) && g.act(FirstPiece(y)) == Some(a) && g.act(y).None?
    requires g.skip(HunkHeader(0, 0, b)) && Opening(g, Tail(y))
    ensures Accepts(g, Cut(DiffLines(GitHunk, [FileDiff([], [b])])))
    ensures OtherLines(g, OldFile([b])) != OtherLines(g, NewFile([b]))
    ensures multiset(Actions(g, OldFiles([FileDiff([], [b])]))) != multiset(Actions(g, NewFiles([FileDiff([], [b])])))
  {
    CutReplacement(x, y, b);
    AcceptsReplacement(g, HunkHeader(0, 0, b), x, FirstPiece(y), a, Tail(y));
    OneFile(GitHunk, b);
    assert [] + [x] == [x] && [] + [y] == [y];
    OneAction(g, x);
    OneAction(g, y);
    assert a in multiset(Actions(g, [x]));
  }

  lemma HeaderIsSkipped(b: Block)
    ensures WORKFLOW.skip(HunkHeader(0, 0, b))
  {
    var header := HunkHeader(0, 0, b);
    assert header[0] == "@@ -"[0] && header[1] == "@@ -"[1];
    assert header[..2] == "@@";
  }

  function UsesLine(path: string, rest: string): string { "uses: " + (path + ("@" + rest)) }

  lemma UsesIsOneLine(path: string, ref: string)
    requires IsPath(path) && IsRef(ref)
    ensures BreakFree(UsesLine(path, ref))
  {
    var x := UsesLine(path, ref);
    forall i | 0 <= i < |x|
      ensures !IsBreak(x[i])
    {
      assert x[i] in "uses: @" || InPath(x[i]) || InRef(x[i]);
    }
  }

  lemma UsesCut(path: string, ref: string, c: char, text: string)
    requires IsPath(path) && IsRef(ref) && IsBreak(c) && text != "" && BreakFree(text)
    ensures FirstPiece(UsesLine(path, ref + ([c] + text))) == UsesLine(path, ref)
    ensures Tail(UsesLine(path, ref + ([c] + text))) == [text]
  {
    var x := UsesLine(path, ref);
    UsesIsOneLine(path, ref);
    assert UsesLine(path, ref + ([c] + text)) == x + ([c] + text);
    PieceUpTo(x, c, text);
  }

  // A line behind a break that the scan does not look at, and that is no comment either.
  predicate IsSmuggled(text: string)
  {
    && text != "" && BreakFree(text) && !IsSpace(text[0]) && !IsSpace(text[|text| - 1])
    && text[0] != '#' && text[0] != '+' && text[0] != '-'
  }

  lemma SmuggledIsUnseen(c: char, text: string)
    requires IsBreak(c) && IsSmuggled(text)
    ensures !IsComment([c] + text) && Opening(WORKFLOW, [text])
  {
    assert ([c] + text)[1..] == text;
    assert LeftTrim([c] + text) == text;
    assert WORKFLOW.skip(text);
  }

  lemma UsesRead(path: string, ref: string, newRef: string, tail: string)
    requires IsPath(path) && IsRef(ref) && IsRef(newRef)
    requires tail != "" && IsSpace(tail[0]) && !IsSpace(tail[|tail| - 1]) && !IsComment(tail)
    ensures UsesAction(UsesLine(path, ref)) == Some(path) && UsesAction(UsesLine(path, newRef)) == Some(path)
    ensures UsesAction(UsesLine(path, newRef + tail)) == None
  {
    UsesWritten(path, ref, "");
    UsesWritten(path, newRef, "");
    assert ref + "" == ref && newRef + "" == newRef;
    UsesWritten(path, newRef, tail);
  }

  /** Whatever stands behind another line break in an added line passes unseen: the diff is accepted,
      no line begins with two signs, and yet both the actions and the other lines have changed. */
  lemma {:induction false} BreakHidesText(file: string, path: string, ref: string, newRef: string, c: char,
                                          text: string, b: Block)
    requires IsWorkflow(file)
    requires IsPath(path) && IsRef(ref) && IsRef(newRef) && IsBreak(c) && c != '\n' && IsSmuggled(text)
    requires b == Block([], [UsesLine(path, ref)], [UsesLine(path, newRef + ([c] + text))], "")
    ensures IsBump([file], Some(TextOf(DiffLines(GitHunk, [FileDiff([], [b])]))))
    ensures NoEscapes([b])
    ensures OtherLines(WORKFLOW, OldFile([b])) != OtherLines(WORKFLOW, NewFile([b]))
    ensures multiset(Actions(WORKFLOW, OldFiles([FileDiff([], [b])])))
         != multiset(Actions(WORKFLOW, NewFiles([FileDiff([], [b])])))
  {
    var x, y := UsesLine(path, ref), UsesLine(path, newRef + ([c] + text));
    SmuggledIsUnseen(c, text);
    UsesRead(path, ref, newRef, [c] + text);
    UsesIsOneLine(path, ref);
    UsesCut(path, newRef, c, text);
    Smuggles(file, x, y, path, b);
  }

  lemma Smuggles(file: string, x: string, y: string, a: string, b: Block)
    requires IsWorkflow(file) && b == Block([], [x], [y], "") && BreakFree(x) && "uses: " <= x && "uses: " <= y
    requires UsesAction(x) == Some(a) && UsesAction(FirstPiece(y)) == Some(a) && UsesAction(y).None?
    requires Opening(WORKFLOW, Tail(y))
    ensures IsBump([file], Some(TextOf(DiffLines(GitHunk, [FileDiff([], [b])]))))
    ensures NoEscapes([b])
    ensures OtherLines(WORKFLOW, OldFile([b])) != OtherLines(WORKFLOW, NewFile([b]))
    ensures multiset(Actions(WORKFLOW, OldFiles([FileDiff([], [b])])))
         != multiset(Actions(WORKFLOW, NewFiles([FileDiff([], [b])])))
  {
    WorkflowIsSober();
    HeaderIsSkipped(b);
    WorkflowReads(WORKFLOW, x, y, a);
    ReplacementHides(WORKFLOW, x, y, a, b);
    AcceptedOne(file, b);
    OneLineHasNoEscape(x, y, b);
  }

  lemma WorkflowReads(g: Grammar, x: string, y: string, a: string)
    requires g.act == UsesAction
    requires UsesAction(x) == Some(a) && UsesAction(FirstPiece(y)) == Some(a) && UsesAction(y).None?
    ensures g.act(x) == Some(a) && g.act(FirstPiece(y)) == Some(a) && g.act(y).None?
  {
  }

  lemma AcceptedOne(file: string, b: Block)
    requires IsWorkflow(file) && Accepts(WORKFLOW, Cut(DiffLines(GitHunk, [FileDiff([], [b])])))
    ensures IsBump([file], Some(TextOf(DiffLines(GitHunk, [FileDiff([], [b])]))))
  {
    SplitLinesOfText(DiffLines(GitHunk, [FileDiff([], [b])]));
  }

  lemma OneLineHasNoEscape(x: string, y: string, b: Block)
    requires b == Block([], [x], [y], "") && "uses: " <= x && "uses: " <= y
    ensures NoEscapes([b])
  {
    assert x[0] == 'u' && y[0] == 'u';
    CountSingle(IsDashed, x);
    CountSingle(IsPlused, y);
  }

  /** A step behind a next-line character. */
  lemma BreakHidesStep()
    ensures var files := [FileDiff([], [Block([], ["uses: a@1"], ["uses: a@2\U{85}run: evil"], "")])];
      && IsBump([".github/workflows/x.yml"], Some(TextOf(DiffLines(GitHunk, files))))
      && NoEscapes(files[0].script)
      && OtherLines(WORKFLOW, OldFile(files[0].script)) != OtherLines(WORKFLOW, NewFile(files[0].script))
      && multiset(Actions(WORKFLOW, OldFiles(files))) != multiset(Actions(WORKFLOW, NewFiles(files)))
  {
    var b := Block([], ["uses: a@1"], ["uses: a@2\U{85}run: evil"], "");
    assert UsesLine("a", "1") == "uses: a@1";
    assert UsesLine("a", "2" + (['\U{85}'] + "run: evil")) == "uses: a@2\U{85}run: evil";
    var file := ".github/workflows/x.yml";
    assert file[..|".github/workflows/"|] == ".github/workflows/";
    BreakHidesText(file, "a", "1", "2", '\U{85}', "run: evil", b);
  }

  // A script that bumps one action and removes a line besides.
  function BumpAndRemove(line: string, x: string, y: string): Block { Block([], [line, x], [y], "") }

  lemma AcceptsEscape(g: Grammar, line: string, x: string, y: string, a: string, p: Placed)
    requires Sober(g) && Prints(g, GitHunk) && p.b == BumpAndRemove(line, x, y)
    requires "--" <= line && g.act(x) == Some(a) && g.act(y) == Some(a)
    ensures Accepts(g, GitHunk(p))
  {
    OneAction(g, y);
    OneAction(g, x);
    assert [line, x][1..] == [x];
    assert Actions(g, [line, x]) == [] + Actions(g, [x]);
    assert CoveredBlock(g, p.b);
    assert PrintsOne(g, GitHunk, p);
    TallyHunk(g, GitHunk, p, [], [], []);
    assert GitHunk(p) + [] == GitHunk(p);
    assert [] + [a] == [a];
  }

  /** A removed line that begins with two dashes passes unseen next to any bump. */
  lemma {:induction false} EscapeHidesLine(file: string, line: string, path: string, ref: string, newRef: string,
                                           b: Block)
    requires IsWorkflow(file) && "--" <= line && BreakFree(line) && IsPath(path) && IsRef(ref) && IsRef(newRef)
    requires b == BumpAndRemove(line, UsesLine(path, ref), UsesLine(path, newRef))
    ensures IsBump([file], Some(TextOf(DiffLines(GitHunk, [FileDiff([], [b])]))))
    ensures AllTame(WORKFLOW, DiffLines(GitHunk, [FileDiff([], [b])]))
    ensures !NoEscapes([b]) && OtherLines(WORKFLOW, OldFile([b])) != OtherLines(WORKFLOW, NewFile([b]))
  {
    UsesWritten(path, ref, "");
    UsesWritten(path, newRef, "");
    assert ref + "" == ref && newRef + "" == newRef;
    UsesIsOneLine(path, ref);
    UsesIsOneLine(path, newRef);
    EscapeNextToUses(file, line, UsesLine(path, ref), UsesLine(path, newRef), path, b);
  }

  lemma EscapeNextToUses(file: string, line: string, x: string, y: string, a: string, b: Block)
    requires IsWorkflow(file) && b == BumpAndRemove(line, x, y)
    requires "--" <= line && UsesAction(x) == Some(a) && UsesAction(y) == Some(a)
    requires BreakFree(line) && BreakFree(x) && BreakFree(y)
    ensures IsBump([file], Some(TextOf(DiffLines(GitHunk, [FileDiff([], [b])]))))
    ensures AllTame(WORKFLOW, DiffLines(GitHunk, [FileDiff([], [b])]))
    ensures !NoEscapes([b]) && OtherLines(WORKFLOW, OldFile([b])) != OtherLines(WORKFLOW, NewFile([b]))
  {
    var files := [FileDiff([], [b])];
    EscapeIsAccepted(line, x, y, a, b);
    AcceptedOne(file, b);
    DashedIsEscape(line, x, y, b);
    assert files[0].script == [b];
    VersionBumpConserves([file], files);
  }

  lemma EscapeIsAccepted(line: string, x: string, y: string, a: string, b: Block)
    requires b == BumpAndRemove(line, x, y)
    requires "--" <= line && UsesAction(x) == Some(a) && UsesAction(y) == Some(a)
    requires BreakFree(line) && BreakFree(x) && BreakFree(y)
    ensures var raws := DiffLines(GitHunk, [FileDiff([], [b])]);
      AllTame(WORKFLOW, raws) && raws == Render(GitHunk, [b]) && Accepts(WORKFLOW, Cut(raws))
  {
    OneFile(GitHunk, b);
    EscapePrinted(line, x, y, a, Placed(0, 0, b));
  }

  lemma EscapePrinted(line: string, x: string, y: string, a: string, p: Placed)
    requires p.b == BumpAndRemove(line, x, y)
    requires "--" <= line && UsesAction(x) == Some(a) && UsesAction(y) == Some(a)
    requires BreakFree(line) && BreakFree(x) && BreakFree(y)
    ensures AllTame(WORKFLOW, GitHunk(p)) && Accepts(WORKFLOW, Cut(GitHunk(p)))
  {
    WorkflowIsSober();
    GitPrints();
    AcceptsEscape(WORKFLOW, line, x, y, a, p);
    PrintedIsTame(p);
    TameIsAccepted(WORKFLOW, GitHunk(p));
  }

  lemma TameIsAccepted(g: Grammar, raws: seq<string>)
    requires AllTame(g, raws)
    ensures Accepts(g, Cut(raws)) <==> Accepts(g, raws)
  {
    TallyTame(g, [], [], raws);
  }

  lemma DashedIsEscape(line: string, x: string, y: string, b: Block)
    requires "--" <= line && b == BumpAndRemove(line, x, y)
    ensures !NoEscapes([b])
  {
    CountZero(IsDashed, b.del);
    assert IsDashed(b.del[0]);
    assert CountIf(IsDashed, [b][0].del) != 0;
  }

  lemma PrintedIsTame(p: Placed)
    requires forall l :: l in p.b.del + p.b.ins ==> BreakFree(l)
    requires BreakFree(p.b.heading)
    ensures AllTame(WORKFLOW, GitHunk(p))
  {
    forall k | 0 <= k < |GitHunk(p)|
      ensures Tame(WORKFLOW, GitHunk(p)[k])
    {
      PrintedIsBreakFree(p, k);
      BreakFreeIsTame(WORKFLOW, GitHunk(p)[k]);
    }
  }

  lemma PrintedIsBreakFree(p: Placed, k: nat)
    requires forall l :: l in p.b.del + p.b.ins ==> BreakFree(l)
    requires BreakFree(p.b.heading) && k < |GitHunk(p)|
    ensures BreakFree(GitHunk(p)[k])
  {
    var d := |p.b.del|;
    if k == 0 {
      FrontAndHeading(p.o, p.n, p.b);
      DigitsAreNoBreaks(HeaderFront(p.o, p.n, p.b));
    } else if k <= d {
      assert GitHunk(p)[k] == "-" + p.b.del[k - 1];
      assert p.b.del[k - 1] in p.b.del + p.b.ins;
    } else {
      assert GitHunk(p)[k] == "+" + p.b.ins[k - 1 - d];
      assert p.b.ins[k - 1 - d] in p.b.del + p.b.ins;
    }
  }

  /** A document mark removed together with a bump. */
  lemma EscapeHidesMark()
    ensures var files := [FileDiff([], [Block([], ["---", "uses: a@1"], ["uses: a@2"], "")])];
      && IsBump([".github/workflows/x.yml"], Some(TextOf(DiffLines(GitHunk, files))))
      && OtherLines(WORKFLOW, OldFile(files[0].script)) != OtherLines(WORKFLOW, NewFile(files[0].script))
  {
    var b := Block([], ["---", "uses: a@1"], ["uses: a@2"], "");
    assert UsesLine("a", "1") == "uses: a@1" && UsesLine("a", "2") == "uses: a@2";
    var file := ".github/workflows/x.yml";
    assert file[..|".github/workflows/"|] == ".github/workflows/";
    EscapeHidesLine(file, "---", "a", "1", "2", b);
  }
}
