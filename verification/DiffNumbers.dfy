/** The two implementations that number the added lines of a diff. */
module DiffNumbers {
  import opened Text
  import opened TextLines
  import opened Counting
  import opened UnifiedDiff

  // A line added by the diff: one plus sign, not three.
  predicate IsAdded(raw: string)
  {
    |raw| > 0 && raw[0] == '+' && !("+++" <= raw)
  }

  // ----- the line-walking implementation -----

  datatype Walk = Walk(out: seq<(Option<nat>, string)>, lineno: Option<nat>)

  function WalkLine(f: Format, w: Walk, raw: string): Walk
  {
    var hunk := f.read(raw);
    if hunk.Some? then w.(lineno := Some(hunk.value.start))
    else if IsAdded(raw) then
      Walk(w.out + [(w.lineno, raw[1..])], if w.lineno.Some? then Some(w.lineno.value + 1) else None)
    else w
  }

  function WalkAll(f: Format, w: Walk, lines: seq<string>): Walk
    decreases lines
  {
    if lines == [] then w else WalkAll(f, WalkLine(f, w, lines[0]), lines[1..])
  }

  lemma {:induction false} WalkAppend(f: Format, w: Walk, xs: seq<string>, ys: seq<string>)
    ensures WalkAll(f, w, xs + ys) == WalkAll(f, WalkAll(f, w, xs), ys)
    decreases xs
  {
    if xs == [] {
      assert xs + ys == ys;
    } else {
      assert (xs + ys)[1..] == xs[1..] + ys;
      WalkAppend(f, WalkLine(f, w, xs[0]), xs[1..], ys);
    }
  }

  // The lines that the walker lists for what git printed.
  function WalkedLines(output: string): seq<(Option<nat>, string)>
  {
    WalkAll(GIT, Walk([], None), SplitLines(Decode(output))).out
  }

  method AddedLinesWithNumbers(diff: string) returns (out: seq<(Option<nat>, string)>)
    ensures out == WalkAll(GIT, Walk([], None), SplitLines(diff)).out
  {
    out := WalkLines(GIT, SplitLines(diff));
  }

  method WalkLines(f: Format, lines: seq<string>) returns (out: seq<(Option<nat>, string)>)
    ensures out == WalkAll(f, Walk([], None), lines).out
  {
    out := [];
    var lineno: Option<nat> := None;
    for i := 0 to |lines|
      invariant Walk(out, lineno) == WalkAll(f, Walk([], None), lines[..i])
    {
      var raw := lines[i];
      assert lines[..i + 1] == lines[..i] + [raw];
      WalkAppend(f, Walk([], None), lines[..i], [raw]);
      var hunk := f.read(raw);
      if hunk.Some? {
        lineno := Some(hunk.value.start);
        continue;
      }
      if IsAdded(raw) {
        out := out + [(lineno, raw[1..])];
        if lineno.Some? {
          lineno := Some(lineno.value + 1);
        }
      }
    }
    assert lines[..|lines|] == lines;
  }

  // ----- the header-only implementation -----

  function HeaderSet(f: Format, lines: seq<string>): set<nat>
  {
    if lines == [] then {} else HeaderLines(f, lines[0]) + HeaderSet(f, lines[1..])
  }

  function HeaderLines(f: Format, line: string): set<nat>
  {
    match f.read(line)
    case None => {}
    case Some(h) => Interval(h.start, h.count)
  }

  // The numbers that the header-only parser takes from what git printed.
  function HeaderNumbers(output: string): set<nat> { HeaderSet(GIT, Split(Decode(output), '\n')) }

  method AddedLines(output: string) returns (added: set<nat>)
    ensures added == HeaderNumbers(output)
  {
    added := CollectHeaders(GIT, Split(Decode(output), '\n'));
  }

  method CollectHeaders(f: Format, lines: seq<string>) returns (added: set<nat>)
    ensures added == HeaderSet(f, lines)
  {
    added := {};
    for i := 0 to |lines|
      invariant added == HeaderSet(f, lines[..i])
    {
      assert lines[..i + 1] == lines[..i] + [lines[i]];
      HeaderSetAppend(f, lines[..i], [lines[i]]);
      var hunk := f.read(lines[i]);
      if hunk.Some? {
        added := added + Interval(hunk.value.start, hunk.value.count);
      }
    }
    assert lines[..|lines|] == lines;
  }

  lemma {:induction false} HeaderSetAppend(f: Format, xs: seq<string>, ys: seq<string>)
    ensures HeaderSet(f, xs + ys) == HeaderSet(f, xs) + HeaderSet(f, ys)
  {
    if xs == [] {
      assert xs + ys == ys;
    } else {
      assert (xs + ys)[1..] == xs[1..] + ys;
      HeaderSetAppend(f, xs[1..], ys);
    }
  }

  // ----- what the walk adds -----

  function NextNumber(f: Format, lineno: Option<nat>, raw: string): Option<nat>
  {
    var hunk := f.read(raw);
    if hunk.Some? then Some(hunk.value.start)
    else if IsAdded(raw) && lineno.Some? then Some(lineno.value + 1)
    else lineno
  }

  // The lines listed for some pieces, and the line number behind them.
  function Listed(f: Format, lineno: Option<nat>, raws: seq<string>): seq<(Option<nat>, string)>
    decreases raws
  {
    if raws == [] then []
    else
      (if f.read(raws[0]).None? && IsAdded(raws[0]) then [(lineno, raws[0][1..])] else [])
      + Listed(f, NextNumber(f, lineno, raws[0]), raws[1..])
  }

  function NumberAfter(f: Format, lineno: Option<nat>, raws: seq<string>): Option<nat>
    decreases raws
  {
    if raws == [] then lineno else NumberAfter(f, NextNumber(f, lineno, raws[0]), raws[1..])
  }

  lemma {:induction false} WalkLists(f: Format, w: Walk, raws: seq<string>)
    ensures WalkAll(f, w, raws).out == w.out + Listed(f, w.lineno, raws)
    decreases raws
  {
    if raws != [] {
      WalkLists(f, WalkLine(f, w, raws[0]), raws[1..]);
    }
  }

  lemma {:induction false} ListedAppend(f: Format, lineno: Option<nat>, xs: seq<string>, ys: seq<string>)
    ensures Listed(f, lineno, xs + ys) == Listed(f, lineno, xs) + Listed(f, NumberAfter(f, lineno, xs), ys)
    decreases xs
  {
    if xs == [] {
      assert xs + ys == ys;
    } else {
      assert (xs + ys)[1..] == xs[1..] + ys;
      ListedAppend(f, NextNumber(f, lineno, xs[0]), xs[1..], ys);
    }
  }

  lemma AddedIsNoHeader(f: Format, raw: string)
    requires Sound(f) && IsAdded(raw)
    ensures f.read(raw).None?
  {
    assert raw == "+" + raw[1..];
    assert IsNoHeader(f, "+" + raw[1..]);
  }

  lemma {:induction false} ListedCount(f: Format, lineno: Option<nat>, raws: seq<string>)
    requires Sound(f)
    ensures |Listed(f, lineno, raws)| == CountIf(IsAdded, raws)
    decreases raws
  {
    if raws != [] {
      CountFirst(IsAdded, raws);
      if IsAdded(raws[0]) { AddedIsNoHeader(f, raws[0]); }
      ListedCount(f, NextNumber(f, lineno, raws[0]), raws[1..]);
    }
  }

  lemma {:induction false} NoneListed(f: Format, raws: seq<string>)
    requires NoHunks(f, raws)
    ensures |Listed(f, None, raws)| == CountIf(IsAdded, raws)
    ensures forall k :: 0 <= k < |Listed(f, None, raws)| ==> Listed(f, None, raws)[k].0 == None
    ensures forall raw :: raw in raws && IsAdded(raw) ==> (None, raw[1..]) in Listed(f, None, raws)
    decreases raws
  {
    if raws != [] {
      CountFirst(IsAdded, raws);
      assert f.read(raws[0]).None?;
      NoneListed(f, raws[1..]);
      var first := if IsAdded(raws[0]) then [(None, raws[0][1..])] else [];
      assert Listed(f, None, raws) == first + Listed(f, None, raws[1..]);
      assert raws == [raws[0]] + raws[1..];
    }
  }

  /** Without any hunk header every added line is still listed, with no number. */
  lemma {:induction false} HeaderlessKept(diff: string)
    requires NoHunks(GIT, SplitLines(diff))
    ensures var out, lines := WalkAll(GIT, Walk([], None), SplitLines(diff)).out, SplitLines(diff);
      && |out| == CountIf(IsAdded, lines)
      && (forall k :: 0 <= k < |out| ==> out[k].0 == None)
      && forall raw :: raw in lines && IsAdded(raw) ==> (None, raw[1..]) in out
  {
    WalkLists(GIT, Walk([], None), SplitLines(diff));
    NoneListed(GIT, SplitLines(diff));
    assert [] + Listed(GIT, None, SplitLines(diff)) == Listed(GIT, None, SplitLines(diff));
  }

  // No piece of these is listed.
  predicate Quiet(raws: seq<string>)
  {
    forall k :: 0 <= k < |raws| ==> !IsAdded(raws[k])
  }

  // The number the last piece that reads as a hunk header sets, or the one before.
  function LastStart(f: Format, raws: seq<string>, start: nat): nat
    decreases raws
  {
    if raws == [] then start
    else LastStart(f, raws[1..], if f.read(raws[0]).Some? then f.read(raws[0]).value.start else start)
  }

  lemma {:induction false} QuietLists(f: Format, start: nat, raws: seq<string>)
    requires Quiet(raws)
    ensures Listed(f, Some(start), raws) == []
    ensures NumberAfter(f, Some(start), raws) == Some(LastStart(f, raws, start))
    decreases raws
  {
    if raws != [] {
      QuietLists(f, if f.read(raws[0]).Some? then f.read(raws[0]).value.start else start, raws[1..]);
    }
  }

  // ----- both against the edit script -----

  // A line the walk lists as it is: one piece, and not taken for a file header.
  predicate Clean(line: string) { BreakFree(line) && !("++" <= line) }

  predicate AllClean(lines: seq<string>)
  {
    forall k :: 0 <= k < |lines| ==> Clean(lines[k])
  }

  // Lines with consecutive numbers from `start` on.
  function Counted(start: nat, lines: seq<string>): (r: seq<(Option<nat>, string)>)
    ensures |r| == |lines| && forall k :: 0 <= k < |r| ==> r[k] == (Some(start + k), lines[k])
  {
    seq(|lines|, k requires 0 <= k < |lines| => (Some(start + k), lines[k]))
  }

  function Lift(pairs: seq<(nat, string)>): (r: seq<(Option<nat>, string)>)
    ensures |r| == |pairs|
    ensures forall k :: 0 <= k < |r| ==> r[k] == (Some(pairs[k].0), pairs[k].1)
  {
    seq(|pairs|, k requires 0 <= k < |pairs| => (Some(pairs[k].0), pairs[k].1))
  }

  lemma PlusIsAdded(line: string)
    ensures IsAdded("+" + line) <==> !("++" <= line)
  {
    PrefixBehind("+", "++", line);
    assert "+" + "++" == "+++";
  }

  lemma PlusLine(f: Format, lineno: Option<nat>, line: string)
    requires Sound(f)
    ensures f.read("+" + line).None? && ("+" + line)[1..] == line
    ensures IsAdded("+" + line) <==> !("++" <= line)
  {
    assert IsNoHeader(f, "+" + line);
    PlusIsAdded(line);
  }

  lemma {:induction false} CleanLists(f: Format, start: nat, lines: seq<string>)
    requires Sound(f) && AllClean(lines)
    ensures Listed(f, Some(start), Cut(Prefixed("+", lines))) == Counted(start, lines)
    ensures CountIf(IsAdded, Cut(Prefixed("+", lines))) == |lines|
    decreases lines
  {
    if lines != [] {
      var raw, more := "+" + lines[0], lines[1..];
      assert Clean(lines[0]);
      assert Prefixed("+", lines) == [raw] + Prefixed("+", more);
      BreakFreePiece(raw);
      PlusLine(f, Some(start), lines[0]);
      CleanLists(f, start + 1, more);
      ListedOne(f, start, raw, Cut(Prefixed("+", more)));
      assert Counted(start, lines) == [(Some(start), lines[0])] + Counted(start + 1, more);
    }
  }

  lemma ListedOne(f: Format, start: nat, raw: string, rest: seq<string>)
    requires f.read(raw).None? && IsAdded(raw)
    ensures Listed(f, Some(start), [raw] + rest) == [(Some(start), raw[1..])] + Listed(f, Some(start + 1), rest)
    ensures CountIf(IsAdded, [raw] + rest) == 1 + CountIf(IsAdded, rest)
  {
    assert ([raw] + rest)[1..] == rest;
    CountFirst(IsAdded, [raw] + rest);
  }

  // ----- one hunk -----

  predicate Changes(b: Block) { b.del != [] || b.ins != [] }

  // The number its header gives a hunk.
  function Start(p: Placed): nat { if p.b.ins == [] then p.n else p.n + 1 }

  // The pieces between a hunk's header and its added lines: the cut-off parts of the heading, and what
  // the removed lines are cut into.
  function Between(f: Format, p: Placed): seq<string>
  {
    Tail(f.header(p.o, p.n, p.b)) + Cut(Prefixed("-", p.b.del))
  }

  function Behind(f: Format, p: Placed): seq<string> { Between(f, p) + Cut(Prefixed("+", p.b.ins)) }

  // What the walk lists for a hunk.
  function BlockOut(f: Format, p: Placed): seq<(Option<nat>, string)>
  {
    if Changes(p.b) then Listed(f, Some(Start(p)), Behind(f, p)) else []
  }

  lemma HunkPieces(f: Format, p: Placed)
    requires Changes(p.b)
    ensures Cut(HunkOf(f, p.o, p.n, p.b)) == [FirstPiece(f.header(p.o, p.n, p.b))] + Behind(f, p)
  {
    var header, minus, plus := f.header(p.o, p.n, p.b), Prefixed("-", p.b.del), Prefixed("+", p.b.ins);
    CutAppend([header] + minus, plus);
    CutAppend([header], minus);
    CutFirst([header]);
    assert [header][1..] == [] && Tail(header) + [] == Tail(header);
    AssocFour([FirstPiece(header)], Tail(header), Cut(minus), Cut(plus));
  }

  lemma AssocFour(xs: seq<string>, ys: seq<string>, zs: seq<string>, us: seq<string>)
    ensures xs + ys + zs + us == xs + (ys + zs + us)
  {
  }

  lemma HunkLists(f: Format, lineno: Option<nat>, p: Placed)
    requires Sound(f)
    ensures Listed(f, lineno, Cut(HunkOf(f, p.o, p.n, p.b))) == BlockOut(f, p)
  {
    if Changes(p.b) {
      HunkPieces(f, p);
      assert ReadsBack(f, p.o, p.n, p.b) && ReadsCut(f, f.header(p.o, p.n, p.b));
      var first := FirstPiece(f.header(p.o, p.n, p.b));
      assert ([first] + Behind(f, p))[1..] == Behind(f, p);
    }
  }

  // Exactly the added lines are listed, with their numbers.
  predicate BlockExact(f: Format, p: Placed)
  {
    BlockOut(f, p) == Lift(Numbered(p.n, p.b.ins))
  }

  /** The lines of a hunk are listed as they are exactly when every added line is clean, nothing cut off
      a removed line or the heading looks like an added line, and what looks like a hunk header there
      names the right number. */
  predicate Faithful(f: Format, p: Placed)
  {
    Changes(p.b) ==>
      && AllClean(p.b.ins) && Quiet(Between(f, p))
      && (p.b.ins != [] ==> LastStart(f, Between(f, p), p.n + 1) == p.n + 1)
  }

  lemma BlockLists(f: Format, p: Placed)
    requires Sound(f) && Changes(p.b) && AllClean(p.b.ins)
    ensures |BlockOut(f, p)| == CountIf(IsAdded, Between(f, p)) + |p.b.ins|
    ensures Quiet(Between(f, p))
      ==> BlockOut(f, p) == Counted(LastStart(f, Between(f, p), Start(p)), p.b.ins)
  {
    var xs, ys, start := Between(f, p), Cut(Prefixed("+", p.b.ins)), Start(p);
    ListedCount(f, Some(start), xs + ys);
    CountAppend(IsAdded, xs, ys);
    CleanLists(f, LastStart(f, xs, start), p.b.ins);
    if Quiet(xs) {
      ListedAppend(f, Some(start), xs, ys);
      QuietLists(f, start, xs);
    }
  }

  lemma QuietCount(raws: seq<string>)
    ensures Quiet(raws) <==> CountIf(IsAdded, raws) == 0
  {
    CountZero(IsAdded, raws);
  }

  lemma CountedIsNumbered(start: nat, n: nat, lines: seq<string>)
    ensures Counted(start, lines) == Lift(Numbered(n, lines)) <==> lines == [] || start == n + 1
  {
    if lines != [] {
      assert Counted(start, lines)[0].0 == Some(start) && Lift(Numbered(n, lines))[0].0 == Some(n + 1);
    }
    if lines == [] || start == n + 1 {
      forall k | 0 <= k < |lines|
        ensures Counted(start, lines)[k] == Lift(Numbered(n, lines))[k]
      {
      }
    }
  }

  lemma ExactParts(out: seq<(Option<nat>, string)>, more: nat, start: nat, n: nat, lines: seq<string>)
    requires |out| == more + |lines| && (more == 0 ==> out == Counted(start, lines))
    ensures out == Lift(Numbered(n, lines)) <==> more == 0 && (lines == [] || start == n + 1)
  {
    CountedIsNumbered(start, n, lines);
  }

  lemma FaithfulIsExact(f: Format, p: Placed)
    requires Sound(f) && AllClean(p.b.ins)
    ensures Faithful(f, p) <==> BlockExact(f, p)
  {
    if Changes(p.b) {
      BlockLists(f, p);
      QuietCount(Between(f, p));
      ExactParts(BlockOut(f, p), CountIf(IsAdded, Between(f, p)), LastStart(f, Between(f, p), Start(p)), p.n, p.b.ins);
    }
  }

  // ----- all hunks -----

  function BlocksOut(f: Format, ps: seq<Placed>): seq<(Option<nat>, string)>
  {
    if ps == [] then [] else BlockOut(f, ps[0]) + BlocksOut(f, ps[1..])
  }

  ghost predicate ListsHunks(f: Format, hunk: Placed -> seq<string>)
  {
    forall lineno, p: Placed {:trigger Listed(f, lineno, Cut(hunk(p)))} ::
      Listed(f, lineno, Cut(hunk(p))) == BlockOut(f, p)
  }

  lemma {:induction false} HunksList(f: Format, hunk: Placed -> seq<string>, lineno: Option<nat>, ps: seq<Placed>)
    requires ListsHunks(f, hunk)
    ensures Listed(f, lineno, Cut(PrintHunks(hunk, ps))) == BlocksOut(f, ps)
    decreases ps
  {
    if ps != [] {
      CutAppend(hunk(ps[0]), PrintHunks(hunk, ps[1..]));
      ListedAppend(f, lineno, Cut(hunk(ps[0])), Cut(PrintHunks(hunk, ps[1..])));
      HunksList(f, hunk, NumberAfter(f, lineno, Cut(hunk(ps[0]))), ps[1..]);
    }
  }

  lemma GitLists()
    ensures ListsHunks(GIT, GitHunk)
  {
    GitIsSound();
    forall lineno, p: Placed
      ensures Listed(GIT, lineno, Cut(GitHunk(p))) == BlockOut(GIT, p)
    {
      HunkLists(GIT, lineno, p);
    }
  }

  lemma LiftAppend(xs: seq<(nat, string)>, ys: seq<(nat, string)>)
    ensures Lift(xs + ys) == Lift(xs) + Lift(ys)
  {
  }

  predicate CleanBlocks(ps: seq<Placed>)
  {
    forall i :: 0 <= i < |ps| ==> AllClean(ps[i].b.ins)
  }

  predicate FaithfulBlocks(f: Format, ps: seq<Placed>)
  {
    forall i :: 0 <= i < |ps| ==> Faithful(f, ps[i])
  }

  lemma {:induction false} BlocksCount(f: Format, ps: seq<Placed>)
    requires Sound(f) && CleanBlocks(ps)
    ensures |BlocksOut(f, ps)| >= |Gather(ps)|
  {
    if ps != [] {
      if Changes(ps[0].b) { BlockLists(f, ps[0]); }
      BlocksCount(f, ps[1..]);
    }
  }

  lemma SamePrefix<T>(a: seq<T>, b: seq<T>, c: seq<T>, d: seq<T>)
    requires a + b == c + d && |a| == |c|
    ensures a == c && b == d
  {
    assert a == (a + b)[..|a|] && c == (c + d)[..|c|];
    assert b == (a + b)[|a|..] && d == (c + d)[|c|..];
  }

  lemma {:induction false} BlocksExact(f: Format, ps: seq<Placed>)
    requires Sound(f) && CleanBlocks(ps)
    ensures BlocksOut(f, ps) == Lift(Gather(ps)) <==> FaithfulBlocks(f, ps)
  {
    if ps != [] {
      var p, rest := ps[0], ps[1..];
      assert AllClean(p.b.ins);
      BlocksExact(f, rest);
      FaithfulIsExact(f, p);
      LiftAppend(Numbered(p.n, p.b.ins), Gather(rest));
      FaithfulFirst(f, ps);
      BlocksCount(f, rest);
      if Changes(p.b) { BlockLists(f, p); }
      if BlocksOut(f, ps) == Lift(Gather(ps)) {
        SamePrefix(BlockOut(f, p), BlocksOut(f, rest), Lift(Numbered(p.n, p.b.ins)), Lift(Gather(rest)));
      }
    }
  }

  lemma FaithfulFirst(f: Format, ps: seq<Placed>)
    requires ps != []
    ensures FaithfulBlocks(f, ps) <==> Faithful(f, ps[0]) && FaithfulBlocks(f, ps[1..])
  {
    forall i | 0 < i < |ps|
      ensures ps[i] == ps[1..][i - 1]
    {
    }
  }

  // ----- the walk over a whole diff -----

  lemma {:induction false} ListedClean(f: Format, lineno: Option<nat>, raws: seq<string>, j: nat)
    requires forall k :: 0 <= k < |raws| ==> BreakFree(raws[k])
    requires j < |Listed(f, lineno, raws)|
    ensures Clean(Listed(f, lineno, raws)[j].1)
    decreases raws
  {
    var next, listed := NextNumber(f, lineno, raws[0]), f.read(raws[0]).None? && IsAdded(raws[0]);
    if listed { AddedIsClean(raws[0]); }
    if j > 0 || !listed {
      ListedClean(f, next, raws[1..], if listed then j - 1 else j);
    }
  }

  lemma AddedIsClean(raw: string)
    requires IsAdded(raw) && BreakFree(raw)
    ensures Clean(raw[1..])
  {
    assert raw == "+" + raw[1..];
    PlusIsAdded(raw[1..]);
  }

  lemma {:induction false} GatherClean(ps: seq<Placed>)
    requires forall j :: 0 <= j < |Gather(ps)| ==> Clean(Gather(ps)[j].1)
    ensures CleanBlocks(ps)
  {
    if ps != [] {
      var ins, rest := ps[0].b.ins, Gather(ps[1..]);
      forall k | 0 <= k < |ins|
        ensures Clean(ins[k])
      {
        assert Gather(ps)[k].1 == ins[k];
      }
      forall j | 0 <= j < |rest|
        ensures Clean(rest[j].1)
      {
        assert Gather(ps)[|ins| + j] == rest[j];
      }
      GatherClean(ps[1..]);
      assert forall i :: 0 < i < |ps| ==> ps[i] == ps[1..][i - 1];
    }
  }

  lemma ListedGathered(f: Format, lineno: Option<nat>, raws: seq<string>, ps: seq<Placed>)
    requires forall k :: 0 <= k < |raws| ==> BreakFree(raws[k])
    requires Listed(f, lineno, raws) == Lift(Gather(ps))
    ensures CleanBlocks(ps)
  {
    forall j | 0 <= j < |Gather(ps)|
      ensures Clean(Gather(ps)[j].1)
    {
      ListedClean(f, lineno, raws, j);
    }
    GatherClean(ps);
  }

  // The whole diff of one file.
  function DiffText(preamble: seq<string>, script: seq<Block>): string
  {
    TextOf(preamble + Render(GitHunk, script))
  }

  lemma TotalList(preamble: seq<string>, script: seq<Block>)
    ensures WalkedLines(DiffText(preamble, script))
         == Listed(GIT, None, Cut(preamble + Render(GitHunk, script)))
         == Listed(GIT, None, Cut(preamble)) + BlocksOut(GIT, Place(script, 0, 0))
  {
    var raws := preamble + Render(GitHunk, script);
    SplitDecoded(TextOf(raws));
    SplitLinesOfText(raws);
    WalkLists(GIT, Walk([], None), Cut(raws));
    assert [] + Listed(GIT, None, Cut(raws)) == Listed(GIT, None, Cut(raws));
    CutAppend(preamble, Render(GitHunk, script));
    ListedAppend(GIT, None, Cut(preamble), Cut(Render(GitHunk, script)));
    GitLists();
    HunksList(GIT, GitHunk, NumberAfter(GIT, None, Cut(preamble)), Place(script, 0, 0));
  }

  lemma PreambleAndBlocks(f: Format, first: seq<string>, ps: seq<Placed>)
    requires Sound(f) && CleanBlocks(ps)
    ensures Listed(f, None, first) + BlocksOut(f, ps) == Lift(Gather(ps)) <==> Quiet(first) && FaithfulBlocks(f, ps)
  {
    ListedCount(f, None, first);
    QuietCount(first);
    BlocksCount(f, ps);
    BlocksExact(f, ps);
    assert [] + BlocksOut(f, ps) == BlocksOut(f, ps);
    if Listed(f, None, first) + BlocksOut(f, ps) == Lift(Gather(ps)) {
      assert Listed(f, None, first) == [];
    }
  }

  lemma FaithfulIsClean(f: Format, ps: seq<Placed>)
    requires FaithfulBlocks(f, ps)
    ensures CleanBlocks(ps)
  {
    forall i | 0 <= i < |ps|
      ensures AllClean(ps[i].b.ins)
    {
      assert Faithful(f, ps[i]);
    }
  }

  /** On the diff of any edit script, whatever its lines hold, the line walker lists exactly the added
      lines with their new-file numbers, in order, if and only if no piece of the file headers looks
      like an added line and every hunk is faithful. */
  lemma {:induction false} WalkerExact(preamble: seq<string>, script: seq<Block>)
    ensures WalkedLines(DiffText(preamble, script)) == Lift(Inserted(script))
      <==> Quiet(Cut(preamble)) && FaithfulBlocks(GIT, Place(script, 0, 0))
  {
    var ps, raws := Place(script, 0, 0), Cut(preamble + Render(GitHunk, script));
    GitIsSound();
    TotalList(preamble, script);
    if Listed(GIT, None, raws) == Lift(Gather(ps)) {
      CutIsBreakFree(preamble + Render(GitHunk, script));
      ListedGathered(GIT, None, raws, ps);
    } else if FaithfulBlocks(GIT, ps) {
      FaithfulIsClean(GIT, ps);
    }
    if CleanBlocks(ps) { PreambleAndBlocks(GIT, Cut(preamble), ps); }
  }

  // ----- the header-only parser -----

  predicate NoHunks(f: Format, raws: seq<string>)
  {
    forall k :: 0 <= k < |raws| ==> f.read(raws[k]).None?
  }

  lemma {:induction false} HeaderIgnores(f: Format, lines: seq<string>)
    requires NoHunks(f, lines)
    ensures HeaderSet(f, lines) == {}
  {
    if lines != [] { HeaderIgnores(f, lines[1..]); }
  }

  // Each line up to its first carriage return, and what is cut off there.
  function Firsts(lines: seq<string>): seq<string>
  {
    if lines == [] then [] else [ReturnPieces(lines[0])[0]] + Firsts(lines[1..])
  }

  function CutOff(lines: seq<string>): seq<string>
  {
    if lines == [] then [] else ReturnPieces(lines[0])[1..] + CutOff(lines[1..])
  }

  lemma {:induction false} FirstsAppend(xs: seq<string>, ys: seq<string>)
    ensures Firsts(xs + ys) == Firsts(xs) + Firsts(ys)
  {
    if xs == [] {
      assert xs + ys == ys;
    } else {
      assert (xs + ys)[1..] == xs[1..] + ys;
      FirstsAppend(xs[1..], ys);
    }
  }

  lemma {:induction false} CutOffAppend(xs: seq<string>, ys: seq<string>)
    ensures CutOff(xs + ys) == CutOff(xs) + CutOff(ys)
  {
    if xs == [] {
      assert xs + ys == ys;
    } else {
      assert (xs + ys)[1..] == xs[1..] + ys;
      CutOffAppend(xs[1..], ys);
      Assoc(ReturnPieces(xs[0])[1..], CutOff(xs[1..]), CutOff(ys));
    }
  }

  lemma {:induction false} HeadersOfCut(f: Format, lines: seq<string>)
    ensures HeaderSet(f, ReturnCut(lines)) == HeaderSet(f, Firsts(lines)) + HeaderSet(f, CutOff(lines))
  {
    if lines != [] {
      var pieces := ReturnPieces(lines[0]);
      HeadersOfCut(f, lines[1..]);
      HeaderSetAppend(f, pieces, ReturnCut(lines[1..]));
      HeaderSetAppend(f, pieces[1..], CutOff(lines[1..]));
      assert pieces == [pieces[0]] + pieces[1..];
      HeaderSetAppend(f, [pieces[0]], pieces[1..]);
      HeaderSetAppend(f, [pieces[0]], Firsts(lines[1..]));
    }
  }

  lemma HeaderHunk(f: Format, o: nat, n: nat, b: Block)
    requires Sound(f)
    requires b.del != [] || b.ins != []
    ensures HeaderSet(f, Firsts(HunkOf(f, o, n, b))) == Interval(n + 1, |b.ins|)
  {
    var header := f.header(o, n, b);
    assert ReadsBack(f, o, n, b) && ReadsCut(f, header);
    assert [header][1..] == [];
    FirstsAppend([header], Prefixed("-", b.del));
    FirstsAppend([header] + Prefixed("-", b.del), Prefixed("+", b.ins));
    var first := ReturnPieces(header)[0];
    assert Firsts([header]) == [first] + [] && [first][1..] == [];
    HeaderSetAppend(f, [first], Firsts(Prefixed("-", b.del)));
    HeaderSetAppend(f, [first] + Firsts(Prefixed("-", b.del)), Firsts(Prefixed("+", b.ins)));
    MarkedAreNotHunks(f, "-", b.del);
    MarkedAreNotHunks(f, "+", b.ins);
  }

  lemma MarkStays(mark: string, line: string)
    requires mark == "+" || mark == "-"
    ensures exists rest :: ReturnPieces(mark + line)[0] == mark + rest
  {
    var k := LineLength(IsReturn, mark + line);
    assert (mark + line)[0] != '\r' && k > 0;
    assert (mark + line)[..k] == mark + (mark + line)[1..k];
  }

  lemma {:induction false} MarkedAreNotHunks(f: Format, mark: string, lines: seq<string>)
    requires Sound(f)
    requires mark == "+" || mark == "-"
    ensures HeaderSet(f, Firsts(Prefixed(mark, lines))) == {}
  {
    if lines != [] {
      MarkStays(mark, lines[0]);
      var rest :| ReturnPieces(mark + lines[0])[0] == mark + rest;
      assert IsNoHeader(f, "+" + rest) && IsNoHeader(f, "-" + rest);
      assert Prefixed(mark, lines)[1..] == Prefixed(mark, lines[1..]);
      MarkedAreNotHunks(f, mark, lines[1..]);
    }
  }

  ghost function NumbersOf(pairs: seq<(nat, string)>): set<nat>
  {
    set k | 0 <= k < |pairs| :: pairs[k].0
  }

  lemma NumbersOfBlock(start: nat, ins: seq<string>, rest: seq<(nat, string)>)
    ensures NumbersOf(Numbered(start, ins) + rest) == Interval(start + 1, |ins|) + NumbersOf(rest)
  {
    var all := Numbered(start, ins) + rest;
    forall x | x in Interval(start + 1, |ins|) + NumbersOf(rest)
      ensures x in NumbersOf(all)
    {
      if start < x <= start + |ins| {
        assert all[x - start - 1].0 == x;
      } else {
        var k :| 0 <= k < |rest| && rest[k].0 == x;
        assert all[|ins| + k].0 == x;
      }
    }
    forall x | x in NumbersOf(all)
      ensures x in Interval(start + 1, |ins|) + NumbersOf(rest)
    {
      var k :| 0 <= k < |all| && all[k].0 == x;
      if k >= |ins| { assert rest[k - |ins|].0 == x; }
    }
  }

  ghost predicate HeadsHunks(f: Format, hunk: Placed -> seq<string>)
  {
    forall p: Placed :: HeaderSet(f, Firsts(hunk(p))) == Interval(p.n + 1, |p.b.ins|)
  }

  lemma {:induction false} HeaderPrinted(f: Format, hunk: Placed -> seq<string>, ps: seq<Placed>)
    requires HeadsHunks(f, hunk)
    ensures HeaderSet(f, Firsts(PrintHunks(hunk, ps))) == NumbersOf(Gather(ps))
  {
    if ps != [] {
      HeaderPrinted(f, hunk, ps[1..]);
      FirstsAppend(hunk(ps[0]), PrintHunks(hunk, ps[1..]));
      HeaderSetAppend(f, Firsts(hunk(ps[0])), Firsts(PrintHunks(hunk, ps[1..])));
      NumbersOfBlock(ps[0].n, ps[0].b.ins, Gather(ps[1..]));
    }
  }

  lemma GitHeads()
    ensures HeadsHunks(GIT, GitHunk)
  {
    GitIsSound();
    forall p: Placed
      ensures HeaderSet(GIT, Firsts(GitHunk(p))) == Interval(p.n + 1, |p.b.ins|)
    {
      HeaderBlock(GIT, p.o, p.n, p.b);
    }
  }

  lemma HeaderBlock(f: Format, o: nat, n: nat, b: Block)
    requires Sound(f)
    ensures HeaderSet(f, Firsts(HunkOf(f, o, n, b))) == Interval(n + 1, |b.ins|)
  {
    if b.del != [] || b.ins != [] { HeaderHunk(f, o, n, b); }
  }

  // The numbers named by hunk headers that are none: in the file headers, or behind a carriage return.
  function Spoofed(f: Format, preamble: seq<string>, raws: seq<string>): set<nat>
  {
    HeaderSet(f, ReturnCut(preamble)) + HeaderSet(f, CutOff(raws))
  }

  predicate WithoutFeeds(lines: seq<string>)
  {
    forall k :: 0 <= k < |lines| ==> '\n' !in lines[k]
  }

  lemma HeadersOfText(preamble: seq<string>, script: seq<Block>)
    requires WithoutFeeds(preamble + Render(GitHunk, script))
    ensures HeaderNumbers(DiffText(preamble, script))
         == NumbersOf(Inserted(script)) + Spoofed(GIT, preamble, Render(GitHunk, script))
  {
    var raws := Render(GitHunk, script);
    var pieces := ReturnCut(preamble + raws);
    DecodeText(preamble + raws);
    ReturnCutKeeps(preamble + raws);
    SplitAtNewlines(pieces);
    HeaderSetAppend(GIT, pieces, [""]);
    HeaderIgnores(GIT, [""]);
    ReturnCutAppend(preamble, raws);
    HeaderSetAppend(GIT, ReturnCut(preamble), ReturnCut(raws));
    HeadersOfCut(GIT, raws);
    GitHeads();
    HeaderPrinted(GIT, GitHunk, Place(script, 0, 0));
  }

  /** On the diff of any edit script the header-only parser returns the new-file numbers of the added lines
      and those that a hunk header names in the file headers or behind a carriage return of a line:
      exactly the former if and only if no other number is named there. */
  lemma {:induction false} HeaderOnlyExact(preamble: seq<string>, script: seq<Block>)
    requires WithoutFeeds(preamble + Render(GitHunk, script))
    ensures HeaderNumbers(DiffText(preamble, script)) == NumbersOf(Inserted(script))
      <==> Spoofed(GIT, preamble, Render(GitHunk, script)) <= NumbersOf(Inserted(script))
  {
    HeadersOfText(preamble, script);
  }

  // ----- both parsers -----

  // The line numbers the walker reports.
  ghost function Walked(out: seq<(Option<nat>, string)>): set<nat>
  {
    set k | 0 <= k < |out| && out[k].0.Some? :: out[k].0.value
  }


  // The added lines lie apart: git prints changes without a line between them as one.
  predicate Apart(script: seq<Block>)
  {
    forall i :: 0 < i < |script| ==> script[i].keep != []
  }

  // Nothing that is cut off a line of the script reads as a hunk header.
  predicate Unspoofed(f: Format, ps: seq<Placed>)
  {
    forall i :: 0 <= i < |ps| && Changes(ps[i].b) ==> NoHunks(f, Behind(f, ps[i]))
  }

  lemma NoHunksInBoth(f: Format, xs: seq<string>, ys: seq<string>)
    requires NoHunks(f, xs) && NoHunks(f, ys)
    ensures NoHunks(f, xs + ys)
  {
  }

  lemma {:induction false} NoHunksWhole(f: Format, lines: seq<string>)
    requires Sound(f) && NoHunks(f, Cut(lines))
    ensures NoHunks(f, lines)
  {
    if lines != [] {
      CutFirst(lines);
      NoHunksParts(f, Pieces(lines[0]), Cut(lines[1..]));
      NoHunksWhole(f, lines[1..]);
      PiecesAre(lines[0]);
      assert Pieces(lines[0])[0] == FirstPiece(lines[0]);
      assert ReadsCut(f, lines[0]);
      assert forall k :: 0 < k < |lines| ==> lines[k] == lines[1..][k - 1];
    }
  }

  lemma NoHunksParts(f: Format, xs: seq<string>, ys: seq<string>)
    requires NoHunks(f, xs + ys)
    ensures NoHunks(f, xs) && NoHunks(f, ys)
  {
    assert forall k :: 0 <= k < |xs| ==> (xs + ys)[k] == xs[k];
    assert forall k :: 0 <= k < |ys| ==> (xs + ys)[|xs| + k] == ys[k];
  }

  lemma {:induction false} CutOfReturns(lines: seq<string>)
    requires WithoutFeeds(lines)
    ensures Cut(ReturnCut(lines)) == Cut(lines)
  {
    if lines != [] {
      PiecesOfReturns(lines[0]);
      CutAppend(ReturnPieces(lines[0]), ReturnCut(lines[1..]));
      CutOfReturns(lines[1..]);
    }
  }

  // Where nothing that is cut off at any break reads as a hunk header, nothing behind a carriage return
  // does.
  lemma NoHeadersCutOff(f: Format, lines: seq<string>)
    requires Sound(f) && WithoutFeeds(lines) && NoHunks(f, Cut(lines))
    ensures HeaderSet(f, ReturnCut(lines)) == {} == HeaderSet(f, CutOff(lines))
  {
    CutOfReturns(lines);
    NoHunksWhole(f, ReturnCut(lines));
    HeaderIgnores(f, ReturnCut(lines));
    HeadersOfCut(f, lines);
  }

  lemma NoHeadersInHeading(f: Format, header: string)
    requires Sound(f) && '\n' !in header && NoHunks(f, Tail(header))
    ensures HeaderSet(f, ReturnPieces(header)[1..]) == {}
  {
    var pieces := ReturnPieces(header);
    PiecesOfReturns(header);
    PiecesAre(header);
    CutFirst(pieces);
    SamePrefix([FirstPiece(header)], Tail(header), [FirstPiece(pieces[0])], Tail(pieces[0]) + Cut(pieces[1..]));
    NoHunksParts(f, Tail(pieces[0]), Cut(pieces[1..]));
    NoHunksWhole(f, pieces[1..]);
    HeaderIgnores(f, pieces[1..]);
  }

  lemma NoHeadersInHunk(f: Format, p: Placed)
    requires Sound(f) && WithoutFeeds(HunkOf(f, p.o, p.n, p.b)) && (Changes(p.b) ==> NoHunks(f, Behind(f, p)))
    ensures HeaderSet(f, CutOff(HunkOf(f, p.o, p.n, p.b))) == {}
  {
    if Changes(p.b) {
      var header, minus, plus := f.header(p.o, p.n, p.b), Prefixed("-", p.b.del), Prefixed("+", p.b.ins);
      var raws := HunkOf(f, p.o, p.n, p.b);
      assert raws == [header] + (minus + plus) && raws[0] == header;
      assert Behind(f, p) == Tail(header) + Cut(minus) + Cut(plus);
      NoHunksParts(f, Tail(header) + Cut(minus), Cut(plus));
      NoHunksParts(f, Tail(header), Cut(minus));
      NoHunksInBoth(f, Cut(minus), Cut(plus));
      CutAppend(minus, plus);
      FeedsInRest(header, minus + plus);
      NoHeadersCutOff(f, minus + plus);
      NoHeadersInHeading(f, header);
      HeaderSetAppend(f, ReturnPieces(header)[1..], CutOff(minus + plus));
      assert raws[1..] == minus + plus;
    }
  }

  lemma FeedsInRest(first: string, more: seq<string>)
    requires WithoutFeeds([first] + more)
    ensures WithoutFeeds(more)
  {
    assert forall k :: 0 <= k < |more| ==> ([first] + more)[k + 1] == more[k];
  }

  lemma FeedsInParts(xs: seq<string>, ys: seq<string>)
    requires WithoutFeeds(xs + ys)
    ensures WithoutFeeds(xs) && WithoutFeeds(ys)
  {
    assert forall k :: 0 <= k < |xs| ==> (xs + ys)[k] == xs[k];
    assert forall k :: 0 <= k < |ys| ==> (xs + ys)[|xs| + k] == ys[k];
  }

  lemma {:induction false} NoHeadersInHunks(ps: seq<Placed>)
    requires WithoutFeeds(PrintHunks(GitHunk, ps)) && Unspoofed(GIT, ps)
    ensures HeaderSet(GIT, CutOff(PrintHunks(GitHunk, ps))) == {}
  {
    if ps != [] {
      var rest := PrintHunks(GitHunk, ps[1..]);
      GitIsSound();
      FeedsInParts(GitHunk(ps[0]), rest);
      NoHeadersInHunk(GIT, ps[0]);
      assert forall i :: 0 <= i < |ps[1..]| ==> ps[1..][i] == ps[i + 1];
      NoHeadersInHunks(ps[1..]);
      CutOffAppend(GitHunk(ps[0]), rest);
      HeaderSetAppend(GIT, CutOff(GitHunk(ps[0])), CutOff(rest));
    }
  }

  // How many pieces of a hunk look like added lines.
  function Seen(f: Format, p: Placed): nat
  {
    if Changes(p.b) then CountIf(IsAdded, Behind(f, p)) else 0
  }

  /** A hunk has as many pieces that look like added lines as it adds lines. */
  predicate Balanced(f: Format, p: Placed) { Seen(f, p) == |p.b.ins| }

  predicate BalancedBlocks(f: Format, ps: seq<Placed>)
  {
    forall i :: 0 <= i < |ps| ==> Balanced(f, ps[i])
  }

  lemma WalkedAppend(xs: seq<(Option<nat>, string)>, ys: seq<(Option<nat>, string)>)
    ensures Walked(xs + ys) == Walked(xs) + Walked(ys)
  {
    forall x | x in Walked(xs) + Walked(ys)
      ensures x in Walked(xs + ys)
    {
      if x in Walked(xs) {
        var k :| 0 <= k < |xs| && xs[k].0 == Some(x);
        assert (xs + ys)[k].0 == Some(x);
      } else {
        var k :| 0 <= k < |ys| && ys[k].0 == Some(x);
        assert (xs + ys)[|xs| + k].0 == Some(x);
      }
    }
    forall x | x in Walked(xs + ys)
      ensures x in Walked(xs) + Walked(ys)
    {
      var k :| 0 <= k < |xs + ys| && (xs + ys)[k].0 == Some(x);
      if k < |xs| { assert xs[k].0 == Some(x); } else { assert ys[k - |xs|].0 == Some(x); }
    }
  }

  lemma WalkedOne(start: nat, line: string)
    ensures Walked([(Some(start), line)]) == {start}
  {
    var one := [(Some(start), line)];
    assert one[0].0 == Some(start);
  }

  lemma IntervalFirst(start: nat, count: nat)
    ensures Interval(start, count + 1) == {start} + Interval(start + 1, count)
  {
  }

  lemma {:induction false} NoHunkNumbers(f: Format, start: nat, raws: seq<string>)
    requires NoHunks(f, raws)
    ensures Walked(Listed(f, Some(start), raws)) == Interval(start, CountIf(IsAdded, raws))
    decreases raws
  {
    if raws == [] {
      assert Walked([]) == {};
    } else {
      var raw, more := raws[0], raws[1..];
      CountFirst(IsAdded, raws);
      assert f.read(raw).None? && NoHunks(f, more);
      if IsAdded(raw) {
        NoHunkNumbers(f, start + 1, more);
        assert [raw] + more == raws;
        ListedOne(f, start, raw, more);
        WalkedAppend([(Some(start), raw[1..])], Listed(f, Some(start + 1), more));
        WalkedOne(start, raw[1..]);
        IntervalFirst(start, CountIf(IsAdded, more));
      } else {
        NoHunkNumbers(f, start, more);
        assert Listed(f, Some(start), raws) == [] + Listed(f, Some(start), more) == Listed(f, Some(start), more);
      }
    }
  }

  // The numbers the walk and the script give to all hunks.
  ghost function SeenNumbers(f: Format, ps: seq<Placed>): set<nat>
  {
    if ps == [] then {} else Interval(Start(ps[0]), Seen(f, ps[0])) + SeenNumbers(f, ps[1..])
  }

  ghost function TrueNumbers(ps: seq<Placed>): set<nat>
  {
    if ps == [] then {} else Interval(ps[0].n + 1, |ps[0].b.ins|) + TrueNumbers(ps[1..])
  }

  lemma {:induction false} BlocksNumbers(f: Format, ps: seq<Placed>)
    requires Unspoofed(f, ps)
    ensures Walked(BlocksOut(f, ps)) == SeenNumbers(f, ps)
    ensures NumbersOf(Gather(ps)) == TrueNumbers(ps)
  {
    if ps != [] {
      var p := ps[0];
      BlocksNumbers(f, ps[1..]);
      WalkedAppend(BlockOut(f, p), BlocksOut(f, ps[1..]));
      if Changes(p.b) { NoHunkNumbers(f, Start(p), Behind(f, p)); }
      NumbersOfBlock(p.n, p.b.ins, Gather(ps[1..]));
    }
  }

  // Every hunk of these begins behind the first `n` new lines.
  predicate From(ps: seq<Placed>, n: nat)
  {
    forall i :: 0 <= i < |ps| ==> n <= ps[i].n
  }

  predicate Ordered(ps: seq<Placed>)
    decreases ps
  {
    ps == [] || (From(ps[1..], ps[0].n + |ps[0].b.ins| + 1) && Ordered(ps[1..]))
  }

  lemma {:induction false} NumbersFrom(f: Format, ps: seq<Placed>, n: nat)
    requires From(ps, n)
    ensures forall x :: x in SeenNumbers(f, ps) ==> n <= x
    ensures forall x :: x in TrueNumbers(ps) ==> n < x
  {
    if ps != [] { NumbersFrom(f, ps[1..], n); }
  }

  // Removing a common part that lies below everything else.
  lemma UnionRest(a: set<nat>, b: set<nat>, d: set<nat>, n: nat)
    requires (forall x :: x in a ==> x < n) && (forall x :: x in b ==> n <= x) && (forall x :: x in d ==> n <= x)
    ensures a + b == a + d <==> b == d
  {
    if a + b == a + d {
      forall x
        ensures x in b <==> x in d
      {
        assert x in a + b <==> x in a + d;
      }
    }
  }

  // If the first hunk is not balanced, one parser has a number the other one has not.
  lemma FirstHunk(f: Format, p: Placed, rest: seq<Placed>)
    requires From(rest, p.n + |p.b.ins| + 1) && !Balanced(f, p)
    ensures Interval(Start(p), Seen(f, p)) + SeenNumbers(f, rest) != Interval(p.n + 1, |p.b.ins|) + TrueNumbers(rest)
  {
    var n := p.n + |p.b.ins|;
    NumbersFrom(f, rest, n + 1);
    if Seen(f, p) > |p.b.ins| {
      var x := if p.b.ins == [] then p.n else n + 1;
      assert x in Interval(Start(p), Seen(f, p));
      assert x !in Interval(p.n + 1, |p.b.ins|) && x !in TrueNumbers(rest);
    } else {
      assert n in Interval(p.n + 1, |p.b.ins|);
      assert n !in Interval(Start(p), Seen(f, p)) && n !in SeenNumbers(f, rest);
    }
  }

  lemma BalancedHunk(f: Format, p: Placed, rest: seq<Placed>)
    requires From(rest, p.n + |p.b.ins| + 1) && Balanced(f, p)
    ensures Interval(Start(p), Seen(f, p)) + SeenNumbers(f, rest) == Interval(p.n + 1, |p.b.ins|) + TrueNumbers(rest)
      <==> SeenNumbers(f, rest) == TrueNumbers(rest)
  {
    var n := p.n + |p.b.ins| + 1;
    NumbersFrom(f, rest, n);
    assert Interval(Start(p), Seen(f, p)) == Interval(p.n + 1, |p.b.ins|);
    UnionRest(Interval(p.n + 1, |p.b.ins|), SeenNumbers(f, rest), TrueNumbers(rest), n);
  }

  lemma FirstDecides(f: Format, p: Placed, rest: seq<Placed>, seen: set<nat>, all: set<nat>)
    requires From(rest, p.n + |p.b.ins| + 1)
    requires seen == Interval(Start(p), Seen(f, p)) + SeenNumbers(f, rest)
    requires all == Interval(p.n + 1, |p.b.ins|) + TrueNumbers(rest)
    ensures seen == all <==> Balanced(f, p) && SeenNumbers(f, rest) == TrueNumbers(rest)
  {
    if Balanced(f, p) {
      BalancedHunk(f, p, rest);
    } else {
      FirstHunk(f, p, rest);
    }
  }

  lemma {:induction false} SameNumbers(f: Format, ps: seq<Placed>)
    requires Ordered(ps)
    ensures SeenNumbers(f, ps) == TrueNumbers(ps) <==> BalancedBlocks(f, ps)
  {
    if ps != [] {
      SameNumbers(f, ps[1..]);
      BalancedFirst(f, ps);
      FirstDecides(f, ps[0], ps[1..], SeenNumbers(f, ps), TrueNumbers(ps));
    }
  }

  lemma BalancedFirst(f: Format, ps: seq<Placed>)
    requires ps != []
    ensures BalancedBlocks(f, ps) <==> Balanced(f, ps[0]) && BalancedBlocks(f, ps[1..])
  {
    forall i | 0 < i < |ps|
      ensures ps[i] == ps[1..][i - 1]
    {
    }
  }

  lemma {:induction false} PlacedFrom(script: seq<Block>, o: nat, n: nat)
    ensures From(Place(script, o, n), n)
    ensures Apart(script) && script != [] && script[0].keep != [] ==> From(Place(script, o, n), n + 1)
  {
    if script != [] {
      var b := script[0];
      PlacedFrom(script[1..], o + |b.keep| + |b.del|, n + |b.keep| + |b.ins|);
    }
  }

  lemma {:induction false} PlacedOrdered(script: seq<Block>, o: nat, n: nat)
    requires Apart(script)
    ensures Ordered(Place(script, o, n))
  {
    if script != [] {
      var b, rest := script[0], script[1..];
      assert forall i :: 0 < i < |rest| ==> rest[i] == script[i + 1];
      assert Apart(rest);
      assert rest != [] ==> rest[0] == script[1];
      PlacedFrom(rest, o + |b.keep| + |b.del|, n + |b.keep| + |b.ins|);
      PlacedOrdered(rest, o + |b.keep| + |b.del|, n + |b.keep| + |b.ins|);
    }
  }

  lemma {:induction false} NoNumbersYet(f: Format, raws: seq<string>)
    requires NoHunks(f, raws)
    ensures Walked(Listed(f, None, raws)) == {}
    decreases raws
  {
    if raws != [] {
      NoNumbersYet(f, raws[1..]);
      if IsAdded(raws[0]) {
        WalkedAppend([(None, raws[0][1..])], Listed(f, None, raws[1..]));
      }
    }
  }

  lemma NothingSpoofed(preamble: seq<string>, script: seq<Block>)
    requires WithoutFeeds(preamble + Render(GitHunk, script))
    requires NoHunks(GIT, Cut(preamble)) && Unspoofed(GIT, Place(script, 0, 0))
    ensures HeaderNumbers(DiffText(preamble, script)) == NumbersOf(Inserted(script))
  {
    GitIsSound();
    FeedsInParts(preamble, Render(GitHunk, script));
    NoHeadersCutOff(GIT, preamble);
    NoHeadersInHunks(Place(script, 0, 0));
    HeadersOfText(preamble, script);
  }

  lemma WalkerNumbers(preamble: seq<string>, script: seq<Block>)
    requires NoHunks(GIT, Cut(preamble)) && Unspoofed(GIT, Place(script, 0, 0))
    ensures Walked(WalkedLines(DiffText(preamble, script))) == SeenNumbers(GIT, Place(script, 0, 0))
    ensures NumbersOf(Inserted(script)) == TrueNumbers(Place(script, 0, 0))
  {
    var ps := Place(script, 0, 0);
    TotalList(preamble, script);
    WalkedAppend(Listed(GIT, None, Cut(preamble)), BlocksOut(GIT, ps));
    NoNumbersYet(GIT, Cut(preamble));
    BlocksNumbers(GIT, ps);
  }

  /** Whatever the lines hold, as long as nothing cut off them reads as a hunk header: the two
      implementations give the same numbers if and only if in every hunk as many pieces look like added
      lines as there are. */
  lemma {:induction false} ImplementationsAgreeIff(preamble: seq<string>, script: seq<Block>)
    requires WithoutFeeds(preamble + Render(GitHunk, script)) && Apart(script)
    requires NoHunks(GIT, Cut(preamble)) && Unspoofed(GIT, Place(script, 0, 0))
    ensures HeaderNumbers(DiffText(preamble, script)) == Walked(WalkedLines(DiffText(preamble, script)))
      <==> BalancedBlocks(GIT, Place(script, 0, 0))
  {
    NothingSpoofed(preamble, script);
    WalkerNumbers(preamble, script);
    PlacedOrdered(script, 0, 0);
    SameNumbers(GIT, Place(script, 0, 0));
  }

  lemma WalkedLift(pairs: seq<(nat, string)>)
    ensures Walked(Lift(pairs)) == NumbersOf(pairs)
  {
    forall x | x in NumbersOf(pairs)
      ensures x in Walked(Lift(pairs))
    {
      var k :| 0 <= k < |pairs| && pairs[k].0 == x;
      assert Lift(pairs)[k].0 == Some(x);
    }
  }

  /** Whatever reads as a hunk header: where the walker is exact, the two implementations give the same
      numbers if and only if no hunk header in the file headers or behind a carriage return names a number
      of its own. */
  lemma {:induction false} FaithfulAgreeIff(preamble: seq<string>, script: seq<Block>)
    requires WithoutFeeds(preamble + Render(GitHunk, script))
    requires Quiet(Cut(preamble)) && FaithfulBlocks(GIT, Place(script, 0, 0))
    ensures HeaderNumbers(DiffText(preamble, script)) == Walked(WalkedLines(DiffText(preamble, script)))
      <==> Spoofed(GIT, preamble, Render(GitHunk, script)) <= NumbersOf(Inserted(script))
  {
    WalkerExact(preamble, script);
    WalkedLift(Inserted(script));
    HeaderOnlyExact(preamble, script);
  }

  // ----- lines without and with other breaks -----

  predicate OneLineEach(lines: seq<string>)
  {
    forall k :: 0 <= k < |lines| ==> BreakFree(lines[k])
  }

  // No line itself begins with two plus signs.
  predicate Plain(lines: seq<string>)
  {
    forall j :: 0 <= j < |lines| ==> !("++" <= lines[j])
  }

  lemma UnbrokenLines(f: Format, mark: string, lines: seq<string>)
    requires Sound(f) && OneLineEach(lines) && (mark == "+" || mark == "-")
    ensures Cut(Prefixed(mark, lines)) == Prefixed(mark, lines) && NoHunks(f, Prefixed(mark, lines))
    ensures mark == "-" ==> Quiet(Prefixed(mark, lines))
  {
    forall k | 0 <= k < |lines|
      ensures BreakFree(Prefixed(mark, lines)[k]) && f.read(Prefixed(mark, lines)[k]).None?
    {
      assert BreakFree(lines[k]);
      assert IsNoHeader(f, "+" + lines[k]) && IsNoHeader(f, "-" + lines[k]);
    }
    CutNothing(Prefixed(mark, lines));
  }

  lemma {:induction false} CountPlain(lines: seq<string>)
    ensures CountIf(IsAdded, Prefixed("+", lines)) <= |lines|
    ensures CountIf(IsAdded, Prefixed("+", lines)) == |lines| <==> Plain(lines)
  {
    if lines != [] {
      CountPlain(lines[1..]);
      CountFirst(IsAdded, Prefixed("+", lines));
      assert Prefixed("+", lines)[1..] == Prefixed("+", lines[1..]);
      PlusIsAdded(lines[0]);
      PlainFirst(lines);
    }
  }

  lemma PlainFirst(lines: seq<string>)
    requires lines != []
    ensures Plain(lines) <==> !("++" <= lines[0]) && Plain(lines[1..])
  {
    forall j | 0 < j < |lines|
      ensures lines[j] == lines[1..][j - 1]
    {
    }
  }

  predicate Unbroken(f: Format, p: Placed)
  {
    Tail(f.header(p.o, p.n, p.b)) == [] && OneLineEach(p.b.del) && OneLineEach(p.b.ins)
  }

  lemma UnbrokenPieces(f: Format, p: Placed)
    requires Sound(f) && Unbroken(f, p)
    ensures Between(f, p) == Prefixed("-", p.b.del) && Behind(f, p) == Between(f, p) + Prefixed("+", p.b.ins)
    ensures Quiet(Between(f, p)) && NoHunks(f, Between(f, p)) && NoHunks(f, Behind(f, p))
  {
    UnbrokenLines(f, "-", p.b.del);
    UnbrokenLines(f, "+", p.b.ins);
    NoHunksInBoth(f, Prefixed("-", p.b.del), Prefixed("+", p.b.ins));
    assert [] + Prefixed("-", p.b.del) == Prefixed("-", p.b.del);
  }

  lemma UnbrokenFaithful(f: Format, p: Placed)
    requires Sound(f) && Changes(p.b) && Unbroken(f, p)
    ensures Faithful(f, p) <==> Plain(p.b.ins)
  {
    UnbrokenPieces(f, p);
    NoHunkStart(f, Between(f, p), p.n + 1);
    if Plain(p.b.ins) {
      forall k | 0 <= k < |p.b.ins|
        ensures Clean(p.b.ins[k])
      {
        assert BreakFree(p.b.ins[k]);
      }
    }
  }

  lemma UnbrokenBalanced(f: Format, p: Placed)
    requires Sound(f) && Changes(p.b) && Unbroken(f, p)
    ensures Balanced(f, p) <==> Plain(p.b.ins)
  {
    UnbrokenPieces(f, p);
    CountAppend(IsAdded, Between(f, p), Prefixed("+", p.b.ins));
    QuietCount(Between(f, p));
    CountPlain(p.b.ins);
  }

  /** In a hunk without other line breaks nothing reads as a hunk header, and both conditions say that no
      added line begins with two plus signs. */
  lemma UnbrokenHunk(f: Format, p: Placed)
    requires Sound(f) && Changes(p.b) && Unbroken(f, p)
    ensures NoHunks(f, Behind(f, p))
    ensures Faithful(f, p) <==> Plain(p.b.ins)
    ensures Balanced(f, p) <==> Plain(p.b.ins)
  {
    UnbrokenPieces(f, p);
    UnbrokenFaithful(f, p);
    UnbrokenBalanced(f, p);
  }

  lemma {:induction false} NoHunkStart(f: Format, raws: seq<string>, start: nat)
    requires NoHunks(f, raws)
    ensures LastStart(f, raws, start) == start
    decreases raws
  {
    if raws != [] { NoHunkStart(f, raws[1..], start); }
  }

  // A line is removed that holds another break with some text behind it.
  function Misleading(x: string, c: char, text: string, z: string): Block
  {
    Block([], [x + ([c] + text)], [z], "")
  }

  lemma MisleadingPieces(x: string, c: char, text: string, z: string)
    requires BreakFree(x) && IsBreak(c) && text != "" && BreakFree(text) && Clean(z)
    ensures Behind(GIT, Placed(0, 0, Misleading(x, c, text, z))) == ["-" + x, text, "+" + z]
  {
    var b := Misleading(x, c, text, z);
    HeaderPieces(0, 0, b);
    BreakFreePiece("");
    CutMarked(x, c, text, b.del);
    BreakFreePiece("+" + z);
    CutOne("+" + z);
    assert Prefixed("+", b.ins) == ["+" + z];
    ThreePieces(GIT, Placed(0, 0, b), "-" + x, text, "+" + z);
  }

  lemma ThreePieces(f: Format, p: Placed, x: string, y: string, z: string)
    requires Tail(f.header(p.o, p.n, p.b)) == []
    requires Cut(Prefixed("-", p.b.del)) == [x, y] && Cut(Prefixed("+", p.b.ins)) == [z]
    ensures Behind(f, p) == [x, y, z]
  {
  }

  lemma PiecesOfMarked(x: string, c: char, text: string)
    requires BreakFree(x) && IsBreak(c) && text != "" && BreakFree(text)
    ensures Pieces("-" + (x + ([c] + text))) == ["-" + x, text]
  {
    assert "-" + (x + ([c] + text)) == "-" + x + ([c] + text);
    PieceUpTo("-" + x, c, text);
    PiecesAre("-" + x + ([c] + text));
  }

  lemma CutMarked(x: string, c: char, text: string, lines: seq<string>)
    requires BreakFree(x) && IsBreak(c) && text != "" && BreakFree(text) && lines == [x + ([c] + text)]
    ensures Cut(Prefixed("-", lines)) == ["-" + x, text]
  {
    assert Prefixed("-", lines) == ["-" + lines[0]];
    CutOne("-" + lines[0]);
    PiecesOfMarked(x, c, text);
  }

  lemma CutOne(line: string)
    ensures Cut([line]) == Pieces(line)
  {
    assert [line][1..] == [] && Pieces(line) + [] == Pieces(line);
  }

  lemma ListedThree(f: Format, x: string, y: string, z: string)
    requires Sound(f) && Clean(y) && Clean(z)
    ensures Listed(f, Some(1), ["-" + x, "+" + y, "+" + z]) == [(Some(1), y), (Some(2), z)]
  {
    var all := ["-" + x, "+" + y, "+" + z];
    assert IsNoHeader(f, "-" + x);
    PlusLine(f, Some(1), y);
    PlusLine(f, Some(2), z);
    assert all[1..] == ["+" + y] + ["+" + z];
    ListedOne(f, 1, "+" + y, ["+" + z]);
    assert ["+" + z] + [] == ["+" + z];
    ListedOne(f, 2, "+" + z, []);
  }

  lemma OneBlock(f: Format, hunk: Placed -> seq<string>, b: Block)
    requires b.keep == []
    ensures Place([b], 0, 0) == [Placed(0, 0, b)] && BlocksOut(f, [Placed(0, 0, b)]) == BlockOut(f, Placed(0, 0, b))
    ensures Inserted([b]) == Numbered(0, b.ins)
    ensures Render(hunk, [b]) == hunk(Placed(0, 0, b))
  {
    var p := Placed(0, 0, b);
    assert [b][1..] == [] && [p][1..] == [];
    assert Place([b], 0, 0) == [p] + [];
    assert BlocksOut(f, [p]) == BlockOut(f, p) + [];
    assert Gather([p]) == Numbered(0, b.ins) + [];
    assert PrintHunks(hunk, [p]) == hunk(p) + [];
  }

  lemma WalkOfOne(b: Block, pieces: seq<string>)
    requires b.keep == [] && b.ins != [] && Behind(GIT, Placed(0, 0, b)) == pieces
    ensures WalkedLines(DiffText([], [b])) == Listed(GIT, Some(1), pieces)
  {
    TotalList([], [b]);
    OneBlock(GIT, GitHunk, b);
    assert Listed(GIT, None, Cut([])) == [];
    assert [] + BlockOut(GIT, Placed(0, 0, b)) == BlockOut(GIT, Placed(0, 0, b));
  }

  lemma OneHunkHeaders(b: Block)
    requires b.keep == [] && |b.ins| == 1 && WithoutFeeds(GitHunk(Placed(0, 0, b)))
    ensures HeaderNumbers(DiffText([], [b])) == {1} + HeaderSet(GIT, CutOff(GitHunk(Placed(0, 0, b))))
  {
    OneBlock(GIT, GitHunk, b);
    assert [] + GitHunk(Placed(0, 0, b)) == GitHunk(Placed(0, 0, b));
    HeadersOfText([], [b]);
    NumbersOfBlock(0, b.ins, []);
    assert Numbered(0, b.ins) + [] == Numbered(0, b.ins);
    assert HeaderSet(GIT, ReturnCut([])) == {};
  }

  lemma HeaderIsWhole(b: Block)
    requires b.heading == ""
    ensures ReturnPieces(HunkHeader(0, 0, b))[1..] == []
  {
    FrontAndHeading(0, 0, b);
    DigitsAreNoBreaks(HeaderFront(0, 0, b));
    assert HunkHeader(0, 0, b) == HeaderFront(0, 0, b);
    assert forall i :: 0 <= i < |HeaderFront(0, 0, b)| ==> !IsBreak(HeaderFront(0, 0, b)[i]);
    NoReturns(HunkHeader(0, 0, b));
  }

  // The numbers of a diff with one hunk, by what is cut off its removed line.
  lemma HeadersOfOne(b: Block, behind: seq<string>)
    requires b.keep == [] && b.heading == "" && |b.del| == 1 && |b.ins| == 1
    requires '\n' !in b.del[0] && '\n' !in b.ins[0] && '\r' !in b.ins[0]
    requires ReturnPieces("-" + b.del[0])[1..] == behind
    ensures HeaderNumbers(DiffText([], [b])) == {1} + HeaderSet(GIT, behind)
  {
    PrintedHunk(GIT, b);
    PrintedWithoutFeeds(Placed(0, 0, b));
    OneHunkHeaders(b);
    HeaderIsWhole(b);
    NoReturns("+" + b.ins[0]);
    CutOffThree(HunkHeader(0, 0, b), "-" + b.del[0], "+" + b.ins[0]);
  }

  lemma PrintedHunk(f: Format, b: Block)
    requires |b.del| == 1 && |b.ins| == 1
    ensures HunkOf(f, 0, 0, b) == [f.header(0, 0, b), "-" + b.del[0], "+" + b.ins[0]]
  {
  }

  lemma PrintedWithoutFeeds(p: Placed)
    requires '\n' !in p.b.heading && forall l :: l in p.b.del + p.b.ins ==> '\n' !in l
    ensures WithoutFeeds(GitHunk(p))
  {
    forall k | 0 <= k < |GitHunk(p)|
      ensures '\n' !in GitHunk(p)[k]
    {
      PrintedOnOneLine(p, k);
    }
  }

  lemma NoReturns(line: string)
    requires '\r' !in line
    ensures ReturnPieces(line)[1..] == []
  {
    LineLengthIs(IsReturn, line, |line|);
  }

  lemma CutOffThree(x: string, y: string, z: string)
    requires ReturnPieces(x)[1..] == [] && ReturnPieces(z)[1..] == []
    ensures CutOff([x, y, z]) == ReturnPieces(y)[1..]
  {
    assert [x, y, z][1..] == [y, z] && [y, z][1..] == [z] && [z][1..] == [];
    assert CutOff([z]) == [] + [] && ReturnPieces(y)[1..] + [] == ReturnPieces(y)[1..];
  }

  lemma PrintedOnOneLine(p: Placed, k: nat)
    requires '\n' !in p.b.heading && k < |GitHunk(p)|
    requires forall l :: l in p.b.del + p.b.ins ==> '\n' !in l
    ensures '\n' !in GitHunk(p)[k]
  {
    var d := |p.b.del|;
    if k == 0 {
      FrontAndHeading(p.o, p.n, p.b);
      DigitsAreNoBreaks(HeaderFront(p.o, p.n, p.b));
      assert '\n' !in HeaderFront(p.o, p.n, p.b) by {
        assert BreakFree(HeaderFront(p.o, p.n, p.b));
      }
    } else if k <= d {
      assert GitHunk(p)[k] == "-" + p.b.del[k - 1];
      assert p.b.del[k - 1] in p.b.del + p.b.ins;
    } else {
      assert GitHunk(p)[k] == "+" + p.b.ins[k - 1 - d];
      assert p.b.ins[k - 1 - d] in p.b.del + p.b.ins;
    }
  }

  lemma MisleadingLines(x: string, c: char, text: string, z: string)
    requires BreakFree(x) && c != '\n' && BreakFree(text) && BreakFree(z)
    ensures '\n' !in x + ([c] + text) && '\n' !in z
  {
    assert forall i :: 0 <= i < |x| ==> !IsBreak(x[i]);
    assert forall i :: 0 <= i < |text| ==> !IsBreak(text[i]);
    assert forall i :: 0 <= i < |z| ==> !IsBreak(z[i]);
  }

  // What a misleading line has behind a carriage return.
  function Hidden(c: char, text: string): seq<string> { if c == '\r' then [text] else [] }

  lemma ReturnsOfMarked(x: string, c: char, text: string, line: string)
    requires BreakFree(x) && BreakFree(text) && text != "" && line == "-" + (x + ([c] + text))
    ensures ReturnPieces(line)[1..] == Hidden(c, text)
  {
    var k := 1 + |x|;
    assert forall i :: 0 <= i < |x| ==> !IsBreak(x[i]);
    assert forall i :: 0 <= i < |text| ==> !IsBreak(text[i]);
    assert line[k..] == [c] + text;
    assert line[k] == c && line[k + 1..] == line[k..][1..] == text;
    assert forall i :: 0 < i < k ==> line[i] == x[i - 1];
    LineLengthIs(IsReturn, text, |text|);
    assert text[..|text|] == text && ReturnPieces(text) == [text];
    if c == '\r' {
      LineLengthIs(IsReturn, line, k);
    } else {
      assert forall i :: k < i < |line| ==> line[i] == text[i - k - 1];
      NoReturns(line);
    }
  }

  lemma MisleadingDiff(x: string, c: char, text: string, z: string)
    requires BreakFree(x) && IsBreak(c) && c != '\n' && text != "" && BreakFree(text) && Clean(z)
    ensures WalkedLines(DiffText([], [Misleading(x, c, text, z)]))
         == Listed(GIT, Some(1), ["-" + x, text, "+" + z])
    ensures HeaderNumbers(DiffText([], [Misleading(x, c, text, z)])) == {1} + HeaderSet(GIT, Hidden(c, text))
  {
    var b := Misleading(x, c, text, z);
    MisleadingPieces(x, c, text, z);
    WalkOfOne(b, ["-" + x, text, "+" + z]);
    MisleadingLines(x, c, text, z);
    assert forall i :: 0 <= i < |z| ==> !IsBreak(z[i]);
    ReturnsOfMarked(x, c, text, "-" + b.del[0]);
    HeadersOfOne(b, Hidden(c, text));
  }

  lemma HeadersOfHidden(f: Format, c: char, text: string)
    ensures HeaderSet(f, Hidden(c, text)) == if c == '\r' then HeaderLines(f, text) else {}
  {
    assert c == '\r' ==> Hidden(c, text)[1..] == [];
  }

  /** Where a plus sign is behind the break, the walker reports a line that is not in the new file, and
      numbers the added line wrongly; the header-only parser does not. */
  lemma {:induction false} BreakMisleads(x: string, c: char, y: string, z: string)
    requires BreakFree(x) && IsBreak(c) && c != '\n' && Clean(y) && Clean(z)
    ensures WalkedLines(DiffText([], [Misleading(x, c, "+" + y, z)])) == [(Some(1), y), (Some(2), z)]
    ensures HeaderNumbers(DiffText([], [Misleading(x, c, "+" + y, z)])) == {1}
  {
    MisleadingDiff(x, c, "+" + y, z);
    GitIsSound();
    ListedThree(GIT, x, y, z);
    HeadersOfHidden(GIT, c, "+" + y);
    assert IsNoHeader(GIT, "+" + y);
  }

  /** Where a hunk header is behind the break, the walker believes it, although every count is right; the
      header-only parser adds its numbers if the break is a carriage return. */
  lemma {:induction false} HeaderMisleads(x: string, c: char, o: nat, n: nat, h: Block, z: string)
    requires BreakFree(x) && IsBreak(c) && c != '\n' && h.ins != [] && h.heading == "" && Clean(z)
    ensures var text := DiffText([], [Misleading(x, c, HunkHeader(o, n, h), z)]);
      && WalkedLines(text) == [(Some(n + 1), z)]
      && HeaderNumbers(text) == {1} + (if c == '\r' then Interval(n + 1, |h.ins|) else {})
  {
    var text := HunkHeader(o, n, h);
    FrontAndHeading(o, n, h);
    DigitsAreNoBreaks(text);
    MisleadingDiff(x, c, text, z);
    GitIsSound();
    assert ReadsBack(GIT, o, n, h);
    ListedBehindHeader(GIT, x, text, n + 1, z);
    HeadersOfHidden(GIT, c, text);
  }

  lemma ListedBehindHeader(f: Format, x: string, text: string, start: nat, z: string)
    requires Sound(f) && Clean(z) && f.read(text).Some? && f.read(text).value.start == start
    ensures Listed(f, Some(1), ["-" + x, text, "+" + z]) == [(Some(start), z)]
  {
    var all := ["-" + x, text, "+" + z];
    assert IsNoHeader(f, "-" + x);
    PlusLine(f, Some(start), z);
    assert all[1..] == [text, "+" + z] && [text, "+" + z][1..] == ["+" + z] + [];
    ListedOne(f, start, "+" + z, []);
  }

  /** A removed line with a form feed before a plus sign. */
  lemma FormFeedMisleads()
    ensures var text := DiffText([], [Block([], ["x\U{0C}+y"], ["z"], "")]);
      && WalkedLines(text) == [(Some(1), "y"), (Some(2), "z")]
      && HeaderNumbers(text) == {1}
  {
    assert Misleading("x", '\U{0C}', "+" + "y", "z") == Block([], ["x\U{0C}+y"], ["z"], "") by {
      assert "x" + (['\U{0C}'] + ("+" + "y")) == "x\U{0C}+y";
    }
    BreakMisleads("x", '\U{0C}', "y", "z");
  }

  lemma InsertedOne(b: Block)
    requires b.keep == [] && |b.ins| == 1
    ensures NumbersOf(Inserted([b])) == {1}
  {
    OneBlock(GIT, GitHunk, b);
    NumbersOfBlock(0, b.ins, []);
    assert Numbered(0, b.ins) + [] == Numbered(0, b.ins);
  }

  /** A removed line with a carriage return before a hunk header: both parsers are wrong. */
  lemma ReturnMisleadsBoth(h: Block, b: Block)
    requires h == Block([], ["r"], ["s"], "") && b == Misleading("x", '\r', HunkHeader(0, 8, h), "z")
    ensures WalkedLines(DiffText([], [b])) == [(Some(9), "z")]
    ensures HeaderNumbers(DiffText([], [b])) == {1, 9} && NumbersOf(Inserted([b])) == {1}
  {
    HeaderMisleads("x", '\r', 0, 8, h, "z");
    InsertedOne(b);
    assert Interval(9, 1) == {9};
  }
}
