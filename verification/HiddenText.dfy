/** What a reviewer cannot see cannot influence what is left after stripping. */
module HiddenText {
  import opened Text
  import opened CommentStripper

  // ----- a line that opens a comment, whatever follows the opener -----

  lemma TripleEndsBefore(p: string, x: string, k: nat, pat: string)
    requires k <= |p| && |x| > 0 && |pat| == 3 && pat[0] != x[0] && pat[1] != x[0] && pat[2] != x[0]
    ensures At(p + x, k, pat) <==> At(p, k, pat)
  {
    if k + 3 <= |p| {
      AtPrefix(p, x, k, pat);
    } else if k + 3 <= |p + x| {
      var d := |p| - k;
      assert (p + x)[k + d] == x[0] != pat[d];
    }
  }

  lemma {:induction false} FenceEndsBeforeOpener(p: string, x: string, k: nat)
    requires k <= 3 && k <= |p|
    ensures FenceAfter(p + OPENER + x, k) <==> FenceAfter(p, k)
    decreases 3 - k
  {
    var line := p + OPENER + x;
    assert forall i :: 0 <= i < |p| ==> line[i] == p[i];
    assert line[|p|] == '<';
    TripleEndsBefore(p, OPENER + x, k, "```");
    TripleEndsBefore(p, OPENER + x, k, "~~~");
    assert line == p + (OPENER + x);
    if k < 3 && k < |p| {
      FenceEndsBeforeOpener(p, x, k + 1);
    } else if k < 3 && k == |p| {
      assert line[k] == '<';
    }
  }

  lemma MaskStep(line: string, k: nat)
    requires k < |line|
    ensures Mask(line, k) == MaskHead(line, k).0 + Mask(line, MaskHead(line, k).1)
  {
  }

  lemma FindWithin(u: string, x: string, pat: string, k: nat)
    requires k <= |u| && |pat| == 1
    ensures Find(u + x, pat, k) < |u| ==> Find(u + x, pat, k) == Find(u, pat, k)
    ensures Find(u, pat, k) != -1 ==> Find(u + x, pat, k) == Find(u, pat, k)
  {
    forall i | k <= i < |u|
      ensures At(u + x, i, pat) <==> At(u, i, pat)
    {
      AtPrefix(u, x, i, pat);
    }
  }

  // What follows can only blank out the end of u by a code span that reaches over it.
  lemma {:induction false} MaskPrefix(u: string, x: string, k: nat)
    requires k < |u| && u[|u| - 1] != '`'
    requires Mask(u + x, k)[|u| - 1 - k] != NUL
    ensures Mask(u + x, k)[..|u| - k] == Mask(u, k)
    decreases |u| - k
  {
    MaskStep(u, k);
    MaskStep(u + x, k);
    MaskHeadPrefix(u, x, k);
    var (head, next) := MaskHead(u, k);
    if next < |u| {
      MaskPrefix(u, x, next);
    }
  }

  lemma MaskHeadPrefix(u: string, x: string, k: nat)
    requires k < |u| && u[|u| - 1] != '`'
    requires Mask(u + x, k)[|u| - 1 - k] != NUL
    ensures MaskHead(u + x, k) == MaskHead(u, k)
  {
    MaskStep(u + x, k);
    FindWithin(u, x, "`", k + 1);
    assert u[k] == (u + x)[k];
    var close := Find(u + x, "`", k + 1);
    assert u[k] == '`' && close > k + 1 ==> close < |u|;
  }

  lemma ClosedPrefix(u: string, x: string, lo: int, hi: int)
    requires 0 <= lo && hi <= |u|
    ensures ClosedBetween(u + x, lo, hi) <==> ClosedBetween(u, lo, hi)
  {
    var line := u + x;
    forall k | lo <= k && k + 3 <= hi
      ensures At(line, k, CLOSER) <==> At(u, k, CLOSER)
    {
      AtPrefix(u, x, k, CLOSER);
    }
  }

  lemma {:induction false} LivePrefix(u: string, m: string, x: string, y: string, o: nat)
    requires |m| == |u| && |x| == |y| && o + 4 <= |u|
    ensures Live(u + x, m + y, o) <==> Live(u, m, o)
    decreases o
  {
    AtPrefix(m, y, o, OPENER);
    forall p: nat | p < o
      ensures Live(u + x, m + y, p) <==> Live(u, m, p)
      ensures ClosedBetween(u + x, p + 4, o) <==> ClosedBetween(u, p + 4, o)
    {
      LivePrefix(u, m, x, y, p);
      ClosedPrefix(u, x, p + 4, o);
    }
  }

  lemma HiddenPrefix(u: string, m: string, x: string, y: string, c: nat)
    requires |m| == |u| && |x| == |y| && c <= |u| && 4 <= |u|
    requires Live(u, m, |u| - 4)
    ensures Hidden(u + x, m + y, c) <==> Hidden(u, m, c)
  {
    var last := |u| - 4;
    forall o: nat | o <= c
      ensures Live(u + x, m + y, o) && !ClosedBetween(u + x, o + 4, c)
        ==> Hidden(u, m, c)
      ensures Live(u, m, o) && !ClosedBetween(u, o + 4, c)
        ==> Hidden(u + x, m + y, c)
    {
      ClosedPrefix(u, x, o + 4, c);
      if o <= last {
        LivePrefix(u, m, x, y, o);
      } else {
        // An opener cannot begin inside the opener that ends u.
        LivePrefix(u, m, x, y, last);
        assert !ClosedBetween(u, last + 4, c) && last <= c;
        ClosedPrefix(u, x, last + 4, c);
      }
    }
  }

  lemma {:induction false} VisiblePrefix(u: string, h: seq<bool>, w: string, g: seq<bool>, c: nat)
    requires |h| == |u| && |g| == |w| && c <= |u| <= |w|
    requires forall k :: 0 <= k < c ==> h[k] == g[k] && u[k] == w[k]
    ensures Visible(w, g, c) == Visible(u, h, c)
  {
    if c > 0 { VisiblePrefix(u, h, w, g, c - 1); }
  }

  lemma TailHidden(u: string, m: string, x: string, y: string, c: nat)
    requires |m| == |u| && |x| == |y| && |u| <= c <= |u + x| && 4 <= |u|
    requires Live(u, m, |u| - 4) && Find(x, CLOSER, 0) == -1
    ensures Hidden(u + x, m + y, c)
  {
    var o: nat := |u| - 4;
    LivePrefix(u, m, x, y, o);
    forall k | |u| <= k && k + 3 <= c
      ensures !At(u + x, k, CLOSER)
    {
      AtShift(u, x, k - |u|, CLOSER);
    }
    assert !ClosedBetween(u + x, o + 4, c);
  }

  // The marker between p and x opens a comment when the line is read as text.
  ghost predicate OpensInText(p: string, x: string)
  {
    !IsFence(p) && Live(p + OPENER + x, Mask(p + OPENER + x), |p|)
  }

  // The columns visible before the opener.
  ghost function Shown(p: string): string
  {
    ReviewerView(p + OPENER).0
  }

  lemma MaskOpened(p: string, x: string) returns (y: string)
    requires Live(p + OPENER + x, Mask(p + OPENER + x), |p|)
    ensures |y| == |x| && Mask(p + OPENER + x) == Mask(p + OPENER) + y
  {
    var u := p + OPENER;
    var m := Mask(u + x);
    assert m[|p| + 3] == OPENER[3];
    assert u[|u| - 1] == OPENER[3];
    MaskPrefix(u, x, 0);
    y := m[|u|..];
    assert m == m[..|u|] + y;
  }

  lemma OpenedLine(p: string, x: string)
    requires OpensInText(p, x) && Find(x, CLOSER, 0) == -1
    ensures !IsFence(p + OPENER + x)
    ensures ReviewerView(p + OPENER + x) == (Shown(p), true)
  {
    var u := p + OPENER;
    var w := u + x;
    FenceEndsBeforeOpener(p, x, 0);
    var y := MaskOpened(p, x);
    LivePrefix(u, Mask(u), x, y, |p|);
    OpenedColumns(u, Mask(u), x, y, HiddenColumns(u, Mask(u)), HiddenColumns(w, Mask(w)));
    TailHidden(u, Mask(u), x, y, |w|);
  }

  lemma OpenedColumns(u: string, m: string, x: string, y: string, h: seq<bool>, g: seq<bool>)
    requires |m| == |u| && |y| == |x| && 4 <= |u| && Live(u, m, |u| - 4) && Find(x, CLOSER, 0) == -1
    requires Marks(h, u, m) && Marks(g, u + x, m + y)
    ensures Visible(u + x, g, |u + x|) == Visible(u, h, |u|)
  {
    forall c: nat | c < |u|
      ensures h[c] == g[c] && u[c] == (u + x)[c]
    {
      HiddenPrefix(u, m, x, y, c);
    }
    VisiblePrefix(u, h, u + x, g, |u|);
    forall c: nat | |u| <= c < |u + x|
      ensures g[c]
    {
      TailHidden(u, m, x, y, c);
    }
    HiddenRun(u + x, g, |u|, |u + x|);
  }

  // The marker between p and x opens a comment in a line that is entered in the given mode.
  ghost predicate Opens(mode: Mode, p: string, x: string)
  {
    match mode
    case InText => OpensInText(p, x)
    case InFence => false
    case InComment =>
      var close := Find(p, CLOSER, 0);
      close != -1 && OpensInText(p[close + 3..], x)
  }

  // Nothing is blanked out where there is no backtick.
  lemma {:induction false} MaskPlain(w: string, from: nat)
    requires from <= |w| && forall i :: from <= i < |w| ==> w[i] != '`'
    ensures Mask(w, from) == w[from..]
    decreases |w| - from
  {
    if from < |w| {
      MaskStep(w, from);
      MaskPlain(w, from + 1);
      assert w[from..] == [w[from]] + w[from + 1..];
    }
  }

  lemma FindTick(u: string, x: string, k: nat)
    requires k <= |u| && '`' !in x
    ensures Find(u + x, "`", k) == Find(u, "`", k)
  {
    FindWithin(u, x, "`", k);
    assert forall i :: |u| <= i < |u + x| ==> (u + x)[i] == x[i - |u|];
    var r := Find(u + x, "`", k);
    assert r != -1 ==> (u + x)[r + 0] == "`"[0];
  }

  // A text without a backtick behind u leaves the mask of u as it is.
  lemma {:induction false} MaskUnticked(u: string, x: string, k: nat)
    requires k <= |u| && '`' !in x
    ensures Mask(u + x, k) == Mask(u, k) + x
    decreases |u| - k
  {
    if k == |u| {
      MaskPlain(u + x, k);
      assert (u + x)[k..] == x;
    } else {
      HeadUnticked(u, x, k);
      MaskStep(u, k);
      MaskStep(u + x, k);
      MaskUnticked(u, x, MaskHead(u, k).1);
    }
  }

  lemma HeadUnticked(u: string, x: string, k: nat)
    requires k < |u| && '`' !in x
    ensures MaskHead(u + x, k) == MaskHead(u, k)
  {
    FindTick(u, x, k + 1);
    assert (u + x)[k] == u[k];
  }

  lemma OpensUnticked(p: string, x: string)
    requires '`' !in x
    ensures OpensInText(p, x) <==> OpensInText(p, "")
  {
    var u := p + OPENER;
    assert u + "" == u && u[..|u|] == u;
    MaskUnticked(u, x, 0);
    LivePrefix(u, Mask(u), x, x, |p|);
  }

  // What is still visible of such a line.
  ghost function Before(mode: Mode, p: string): string
  {
    var close := Find(p, CLOSER, 0);
    Shown(if mode == InText || close == -1 then p else p[close + 3..])
  }

  lemma FindEarly(s: string, t: string, pat: string)
    requires Find(s, pat, 0) != -1
    ensures Find(s + t, pat, 0) == Find(s, pat, 0)
  {
    var r := Find(s, pat, 0);
    AtPrefix(s, t, r, pat);
    forall k | 0 <= k < r
      ensures !At(s + t, k, pat)
    {
      AtPrefix(s, t, k, pat);
    }
  }

  lemma OpeningLine(mode: Mode, p: string, x: string)
    requires Opens(mode, p, x) && Find(x, CLOSER, 0) == -1
    ensures Line(ReviewerView, mode, p + OPENER + x) == (Kept(Before(mode, p)), InComment)
  {
    if mode == InText {
      OpenedLine(p, x);
    } else {
      var close := Find(p, CLOSER, 0);
      CloserFits(p, close);
      ClosedBefore(p, x, close);
      LineAfterClose(ReviewerView, p + OPENER + x, close);
      OpenedLine(p[close + 3..], x);
    }
  }

  lemma ClosedBefore(p: string, x: string, close: nat)
    requires Find(p, CLOSER, 0) == close && close + 3 <= |p|
    ensures Find(p + OPENER + x, CLOSER, 0) == close
    ensures (p + OPENER + x)[close + 3..] == p[close + 3..] + OPENER + x
  {
    FindEarly(p, OPENER + x, CLOSER);
    Regroup(p, close + 3, x);
  }

  lemma Regroup(p: string, k: nat, x: string)
    requires k <= |p|
    ensures p + OPENER + x == p + (OPENER + x)
    ensures (p + OPENER + x)[k..] == p[k..] + OPENER + x
  {
  }

  // ----- the lines of a comment -----

  lemma {:induction false} InteriorDropped(view: string -> (string, bool), lines: seq<string>)
    requires forall k :: 0 <= k < |lines| ==> Find(lines[k], CLOSER, 0) == -1
    ensures Render(view, InComment, lines) == [] && ModeAfter(view, InComment, lines) == InComment
  {
    if lines != [] { InteriorDropped(view, lines[1..]); }
  }

  lemma ClosingLine(view: string -> (string, bool), x: string, rest: string)
    requires Find(x, CLOSER, 0) == -1
    ensures Line(view, InComment, x + CLOSER + rest) == TextLine(view, rest)
  {
    FirstCloser(x, rest);
    var line := x + CLOSER + rest;
    assert line[|x| + 3..] == rest;
    LineAfterClose(view, line, |x|);
  }

  lemma CloserFits(line: string, close: nat)
    requires Find(line, CLOSER, 0) == close
    ensures close + 3 <= |line|
  {
  }

  lemma FirstCloser(x: string, rest: string)
    requires Find(x, CLOSER, 0) == -1
    ensures Find(x + CLOSER + rest, CLOSER, 0) == |x|
  {
    var line := x + CLOSER + rest;
    AtPrefix(x + CLOSER, rest, |x|, CLOSER);
    AtShift(x, CLOSER, 0, CLOSER);
    assert line == x + (CLOSER + rest);
    forall k | 0 <= k < |x|
      ensures !At(line, k, CLOSER)
    {
      if k + 3 <= |x| {
        AtPrefix(x, CLOSER + rest, k, CLOSER);
      } else {
        assert line[k + 2] == '-' != CLOSER[2];
      }
    }
  }

  lemma LineAfterClose(view: string -> (string, bool), line: string, close: nat)
    requires Find(line, CLOSER, 0) == close && close + 3 <= |line|
    ensures Line(view, InComment, line) == TextLine(view, line[close + 3..])
  {
  }

  // An occurrence in a piece is an occurrence in the whole.
  lemma {:induction false} PieceOccurs(s: string, sep: char, n: nat, i: int, pat: string) returns (j: int)
    requires n < |Split(s, sep)| && At(Split(s, sep)[n], i, pat)
    ensures At(s, j, pat)
  {
    if s == "" {
      j := i;
    } else {
      var rest := Split(s[1..], sep);
      if s[0] == sep && n == 0 {
        j := 0;
      } else if s[0] == sep {
        j := PieceOccurs(s[1..], sep, n - 1, i, pat);
        j := j + 1;
      } else if n > 0 {
        j := PieceOccurs(s[1..], sep, n, i, pat);
        j := j + 1;
      } else if i > 0 {
        AtShift([s[0]], rest[0], i - 1, pat);
        j := PieceOccurs(s[1..], sep, 0, i - 1, pat);
        j := j + 1;
      } else {
        SplitFirstIsPrefix(s, sep);
        j := 0;
      }
    }
  }

  lemma {:induction false} SplitFirstIsPrefix(s: string, sep: char)
    ensures Split(s, sep)[0] <= s
  {
    if s != "" {
      SplitFirstIsPrefix(s[1..], sep);
      assert s == [s[0]] + s[1..];
    }
  }

  lemma PiecesClean(body: string)
    requires Find(body, CLOSER, 0) == -1
    ensures forall n :: 0 <= n < |Split(body, '\n')| ==> Find(Split(body, '\n')[n], CLOSER, 0) == -1
  {
    forall n | 0 <= n < |Split(body, '\n')|
      ensures Find(Split(body, '\n')[n], CLOSER, 0) == -1
    {
      var piece := Split(body, '\n')[n];
      if Find(piece, CLOSER, 0) != -1 {
        var j := PieceOccurs(body, '\n', n, Find(piece, CLOSER, 0), CLOSER);
        assert false;
      }
    }
  }

  // ----- whole texts -----

  function FirstLine(s: string): string { Split(s, '\n')[0] }

  // The opener between `a` and the tail opens a comment: it does not lie in a fence, in a comment or in a
  // code span of its line, and the tail does not close the comment.
  ghost predicate OpensFor(a: string, tail: string)
  {
    Opens(ModeAfter(ReviewerView, InText, Init(a)), Last(a), FirstLine(tail)) && Find(tail, CLOSER, 0) == -1
  }

  /** Whether the opener is live depends on the text before it alone, for every tail that does not close
      the comment and has no backtick in its first line. */
  lemma OpensForUnticked(a: string, tail: string)
    requires '`' !in FirstLine(tail) && Find(tail, CLOSER, 0) == -1
    ensures OpensFor(a, tail) <==> OpensFor(a, "")
  {
    var p := Last(a);
    var close := Find(p, CLOSER, 0);
    assert FirstLine("") == "";
    OpensUnticked(p, FirstLine(tail));
    if close != -1 { OpensUnticked(p[close + 3..], FirstLine(tail)); }
  }

  // The lines before the one that `a` ends in, and that line.
  function Init(a: string): seq<string> { var pre := Split(a, '\n'); pre[..|pre| - 1] }

  function Last(a: string): string { var pre := Split(a, '\n'); pre[|pre| - 1] }

  // The lines of a + opener + body, from the line with the opener on.
  lemma OpenedLines(a: string, body: string)
    ensures var pre := Split(a, '\n');
      var b := Split(body, '\n');
      Split(a + OPENER + body, '\n') == pre[..|pre| - 1] + [pre[|pre| - 1] + OPENER + b[0]] + b[1..]
  {
    SplitOne(OPENER, '\n');
    SplitAppend(a, OPENER, '\n');
    SplitAppend(a + OPENER, body, '\n');
  }

  lemma RenderFrom(init: seq<string>, p: string, x: string, mid: seq<string>)
    requires Opens(ModeAfter(ReviewerView, InText, init), p, x) && Find(x, CLOSER, 0) == -1
    requires forall k :: 0 <= k < |mid| ==> Find(mid[k], CLOSER, 0) == -1
    ensures var lines, mode := init + [p + OPENER + x] + mid, ModeAfter(ReviewerView, InText, init);
      && Render(ReviewerView, InText, lines) == Render(ReviewerView, InText, init) + [Before(mode, p)]
      && ModeAfter(ReviewerView, InText, lines) == InComment
  {
    OpeningLine(ModeAfter(ReviewerView, InText, init), p, x);
    RenderOne(ReviewerView, InText, init, p + OPENER + x);
    RenderAppend(ReviewerView, InText, init + [p + OPENER + x], mid);
    InteriorDropped(ReviewerView, mid);
  }

  lemma RenderOpened(a: string, body: string)
    requires OpensFor(a, body)
    ensures Render(ReviewerView, InText, Split(a + OPENER + body, '\n'))
         == Render(ReviewerView, InText, Init(a)) + [Before(ModeAfter(ReviewerView, InText, Init(a)), Last(a))]
  {
    var b := Split(body, '\n');
    OpenedLines(a, body);
    PiecesClean(body);
    RenderFrom(Init(a), Last(a), b[0], b[1..]);
  }

  /** An unclosed comment makes everything after it irrelevant: any two continuations that do not close
      it leave the same visible text. */
  lemma {:induction false} UnclosedTailIrrelevant(a: string, tail1: string, tail2: string)
    requires OpensFor(a, tail1) && OpensFor(a, tail2)
    ensures Strip(a + OPENER + tail1) == Strip(a + OPENER + tail2)
  {
    RenderOpened(a, tail1);
    RenderOpened(a, tail2);
  }

  lemma {:induction false} SplitTwoOrMore(s: string)
    requires '\n' in s
    ensures |Split(s, '\n')| >= 2
  {
    if s[0] != '\n' {
      assert '\n' in s[1..];
      SplitTwoOrMore(s[1..]);
    }
  }

  // All lines but the last of a + opener + body, and that last line.
  lemma InitOpened(a: string, body: string)
    requires OpensFor(a, body) && '\n' in body
    ensures var open, mode := a + OPENER + body, ModeAfter(ReviewerView, InText, Init(a));
      && Render(ReviewerView, InText, Init(open)) == Render(ReviewerView, InText, Init(a)) + [Before(mode, Last(a))]
      && ModeAfter(ReviewerView, InText, Init(open)) == InComment
      && Find(Last(open), CLOSER, 0) == -1
  {
    var b := Split(body, '\n');
    PiecesClean(body);
    LinesOpened(a, body);
    RenderFrom(Init(a), Last(a), b[0], b[1..|b| - 1]);
  }

  lemma LinesOpened(a: string, body: string)
    requires '\n' in body
    ensures var b := Split(body, '\n');
      && |b| >= 2
      && Init(a + OPENER + body) == Init(a) + [Last(a) + OPENER + b[0]] + b[1..|b| - 1]
      && Last(a + OPENER + body) == b[|b| - 1]
  {
    OpenedLines(a, body);
    SplitTwoOrMore(body);
  }

  lemma ClosedLines(open: string, b: string)
    ensures var post := Split(b, '\n');
      Split(open + CLOSER + b, '\n') == Init(open) + [Last(open) + CLOSER + post[0]] + post[1..]
  {
    SplitOne(CLOSER, '\n');
    SplitAppend(open, CLOSER, '\n');
    SplitAppend(open + CLOSER, b, '\n');
  }

  lemma RenderFromClosing(init: seq<string>, x: string, post: seq<string>)
    requires ModeAfter(ReviewerView, InText, init) == InComment && Find(x, CLOSER, 0) == -1 && |post| >= 1
    ensures Render(ReviewerView, InText, init + [x + CLOSER + post[0]] + post[1..])
         == Render(ReviewerView, InText, init) + Render(ReviewerView, InText, post)
  {
    ClosingLine(ReviewerView, x, post[0]);
    RenderOne(ReviewerView, InText, init, x + CLOSER + post[0]);
    RenderAppend(ReviewerView, InText, init + [x + CLOSER + post[0]], post[1..]);
  }

  /** A closed comment leaves the visible text before its opener and, as if on a line of its own,
      the visible text after its closer. */
  lemma {:induction false} ClosedCommentRemoved(a: string, body: string, b: string)
    requires OpensFor(a, body) && '\n' in body
    ensures Render(ReviewerView, InText, Split(a + OPENER + body + CLOSER + b, '\n'))
         == Render(ReviewerView, InText, Init(a)) + [Before(ModeAfter(ReviewerView, InText, Init(a)), Last(a))]
            + Render(ReviewerView, InText, Split(b, '\n'))
  {
    var open := a + OPENER + body;
    InitOpened(a, body);
    ClosedLines(open, b);
    RenderFromClosing(Init(open), Last(open), Split(b, '\n'));
  }

  /** Replacing the body of a comment over several lines by any other such body does not change the
      visible text. */
  lemma {:induction false} HiddenBodyIrrelevant(a: string, body1: string, body2: string, b: string)
    requires OpensFor(a, body1) && '\n' in body1 && OpensFor(a, body2) && '\n' in body2
    ensures Strip(a + OPENER + body1 + CLOSER + b) == Strip(a + OPENER + body2 + CLOSER + b)
  {
    ClosedCommentRemoved(a, body1, b);
    ClosedCommentRemoved(a, body2, b);
  }
}

/** The verdict of the claim-review gate.  The text recognisers are parameters, so that everything
    proved here holds whatever they look for. */
module ClaimReviewGate {
  import opened Text
  import opened Counting
  import opened CommentStripper
  import opened HiddenText

  datatype Paths = Unknown | Changed(paths: seq<string>)

  datatype Rules = Rules(
    sealed: string -> bool,          // some line of the text makes a seal claim
    exempt: string -> bool,          // the body carries an exemption marker
    traced: string -> bool,          // the body carries a complete review trace
    codeSurface: string -> bool,     // the path lies on a code surface
    guardSurface: string -> bool,    // the path lies on a guard surface
    bumpOnly: seq<string> -> bool)   // the guard changes only bump action versions

  // `codePaths` and `allPaths` are the answers of two separate queries for the changed paths.
  datatype PullRequest = PullRequest(title: string, body: string, commits: string,
                                     codePaths: Paths, allPaths: Paths, bot: bool)

  ghost predicate Touches(surface: string -> bool, paths: Paths)
  {
    paths.Changed? && exists k :: 0 <= k < |paths.paths| && surface(paths.paths[k])
  }

  function Select(surface: string -> bool, paths: seq<string>): (r: seq<string>)
  {
    if paths == [] then []
    else (if surface(paths[0]) then [paths[0]] else []) + Select(surface, paths[1..])
  }

  lemma {:induction false} SelectNonempty(surface: string -> bool, paths: seq<string>)
    ensures Select(surface, paths) != [] <==> Touches(surface, Changed(paths))
  {
    if paths != [] {
      SelectNonempty(surface, paths[1..]);
      if Touches(surface, Changed(paths[1..])) {
        var k :| 0 <= k < |paths[1..]| && surface(paths[1..][k]);
        assert surface(paths[k + 1]);
      }
      if Touches(surface, Changed(paths)) && !surface(paths[0]) {
        var k :| 0 <= k < |paths| && surface(paths[k]);
        assert surface(paths[1..][k - 1]);
      }
    }
  }

  // `ks` are the positions of the paths on the surface, and `listed` are these paths.
  ghost predicate Picks(surface: string -> bool, paths: seq<string>, ks: seq<nat>, listed: seq<string>)
  {
    && Rising(ks) && |listed| == |ks|
    && (forall k: nat :: k in ks <==> k < |paths| && surface(paths[k]))
    && (forall i :: 0 <= i < |ks| ==> ks[i] < |paths| && listed[i] == paths[ks[i]])
  }

  /** The paths on the surface, each as often as it occurs, in their order. */
  ghost predicate Lists(surface: string -> bool, paths: seq<string>, listed: seq<string>)
  {
    exists ks :: Picks(surface, paths, ks, listed)
  }

  function Moved(ks: seq<nat>): (r: seq<nat>)
    ensures |r| == |ks| && forall i :: 0 <= i < |ks| ==> r[i] == ks[i] + 1
  {
    seq(|ks|, i requires 0 <= i < |ks| => ks[i] + 1)
  }

  lemma MovedHas(ks: seq<nat>, k: nat)
    ensures k in Moved(ks) <==> k > 0 && k - 1 in ks
  {
    if k > 0 && k - 1 in ks {
      var i :| 0 <= i < |ks| && ks[i] == k - 1;
      assert Moved(ks)[i] == k;
    }
  }

  // The positions in the rest of the paths, seen from the whole.
  lemma PicksLater(surface: string -> bool, paths: seq<string>, ks: seq<nat>, listed: seq<string>)
    requires paths != [] && Picks(surface, paths[1..], ks, listed)
    ensures Rising(Moved(ks)) && forall k: nat :: k in Moved(ks) <==> 0 < k < |paths| && surface(paths[k])
    ensures forall i :: 0 <= i < |ks| ==> 0 < Moved(ks)[i] < |paths| && listed[i] == paths[Moved(ks)[i]]
  {
    forall k: nat
      ensures k in Moved(ks) <==> 0 < k < |paths| && surface(paths[k])
    {
      MovedHas(ks, k);
      if k > 0 { RestHas(surface, paths, ks, listed, k - 1); }
    }
    forall i | 0 <= i < |ks|
      ensures 0 < Moved(ks)[i] < |paths| && listed[i] == paths[Moved(ks)[i]]
    {
      assert ks[i] < |paths[1..]| && listed[i] == paths[1..][ks[i]];
    }
  }

  lemma PicksFirst(surface: string -> bool, paths: seq<string>, ks: seq<nat>, listed: seq<string>)
    requires paths != [] && |ks| == |listed| && Rising(ks)
    requires forall k: nat :: k in ks <==> 0 < k < |paths| && surface(paths[k])
    requires forall i :: 0 <= i < |ks| ==> 0 < ks[i] < |paths| && listed[i] == paths[ks[i]]
    ensures surface(paths[0]) ==> Picks(surface, paths, [0] + ks, [paths[0]] + listed)
    ensures !surface(paths[0]) ==> Picks(surface, paths, ks, listed)
  {
    forall k: nat
      ensures k in [0] + ks <==> k == 0 || k in ks
    {
    }
  }

  lemma RestHas(surface: string -> bool, paths: seq<string>, ks: seq<nat>, listed: seq<string>, k: nat)
    requires paths != [] && Picks(surface, paths[1..], ks, listed)
    ensures k in ks <==> k + 1 < |paths| && surface(paths[k + 1])
  {
    assert k in ks <==> k < |paths[1..]| && surface(paths[1..][k]);
  }

  lemma {:induction false} SelectPicks(surface: string -> bool, paths: seq<string>) returns (ks: seq<nat>)
    ensures Picks(surface, paths, ks, Select(surface, paths))
  {
    if paths == [] {
      ks := [];
    } else {
      ks := SelectPicks(surface, paths[1..]);
      PicksLater(surface, paths, ks, Select(surface, paths[1..]));
      PicksFirst(surface, paths, Moved(ks), Select(surface, paths[1..]));
      ks := if surface(paths[0]) then [0] + Moved(ks) else Moved(ks);
    }
  }

  // Every member is at most the last one, which comes once.
  lemma LastIsMost(front: seq<nat>, last: nat)
    requires Rising(front + [last])
    ensures Rising(front) && forall k :: k in front ==> k < last
  {
    var ks := front + [last];
    assert forall i :: 0 <= i < |front| ==> ks[i] == front[i];
    assert ks[|front|] == last;
  }

  predicate SameMembers(ks: seq<nat>, js: seq<nat>)
  {
    (forall k :: k in ks ==> k in js) && (forall k :: k in js ==> k in ks)
  }

  lemma SameFront(a: seq<nat>, x: nat, b: seq<nat>, y: nat)
    requires Rising(a + [x]) && Rising(b + [y]) && SameMembers(a + [x], b + [y])
    ensures x == y && Rising(a) && Rising(b) && SameMembers(a, b)
  {
    LastIsMost(a, x);
    LastIsMost(b, y);
    assert x in a + [x] && y in b + [y];
    forall k | k in a
      ensures k in b
    {
      assert k in a + [x];
    }
    forall k | k in b
      ensures k in a
    {
      assert k in b + [y];
    }
  }

  lemma BothEmpty(ks: seq<nat>, js: seq<nat>)
    requires SameMembers(ks, js)
    ensures ks == [] <==> js == []
  {
    assert ks != [] ==> ks[0] in ks;
    assert js != [] ==> js[0] in js;
  }

  lemma {:induction false} RisingIsUnique(ks: seq<nat>, js: seq<nat>)
    requires Rising(ks) && Rising(js) && SameMembers(ks, js)
    ensures ks == js
  {
    BothEmpty(ks, js);
    if ks != [] {
      var m, n := |ks| - 1, |js| - 1;
      assert ks == ks[..m] + [ks[m]] && js == js[..n] + [js[n]];
      SameFront(ks[..m], ks[m], js[..n], js[n]);
      RisingIsUnique(ks[..m], js[..n]);
    }
  }

  /** The selection is the one list of the paths on the surface; a path is in it exactly if it is one. */
  lemma {:induction false} SelectIs(surface: string -> bool, paths: seq<string>, listed: seq<string>)
    ensures Lists(surface, paths, listed) <==> listed == Select(surface, paths)
    ensures forall p :: p in Select(surface, paths) <==> p in paths && surface(p)
  {
    var ks := SelectPicks(surface, paths);
    if Lists(surface, paths, listed) {
      var js :| Picks(surface, paths, js, listed);
      RisingIsUnique(ks, js);
    }
    MembersPicked(surface, paths, ks, Select(surface, paths));
  }

  lemma MembersPicked(surface: string -> bool, paths: seq<string>, ks: seq<nat>, listed: seq<string>)
    requires Picks(surface, paths, ks, listed)
    ensures forall p :: p in listed <==> p in paths && surface(p)
  {
    forall p | p in paths && surface(p)
      ensures p in listed
    {
      var k: nat :| k < |paths| && paths[k] == p;
      var i :| 0 <= i < |ks| && ks[i] == k;
      assert listed[i] == p;
    }
    forall p | p in listed
      ensures p in paths && surface(p)
    {
      var i :| 0 <= i < |listed| && listed[i] == p;
      assert ks[i] in ks;
    }
  }

  function Haystack(pr: PullRequest, visible: string): string
  {
    Join([pr.title, visible, pr.commits], '\n')
  }

  /** Searched for seal claims are the lines of the title, of the visible body and of the commit messages. */
  lemma {:induction false} HaystackLines(pr: PullRequest, visible: string)
    ensures Split(Haystack(pr, visible), '\n')
         == Split(pr.title, '\n') + Split(visible, '\n') + Split(pr.commits, '\n')
  {
    var rest := visible + ['\n'] + pr.commits;
    assert Join([visible, pr.commits], '\n') == visible + ['\n'] + Join([pr.commits], '\n') == rest;
    assert [pr.title, visible, pr.commits][1..] == [visible, pr.commits];
    assert [visible, pr.commits][1..] == [pr.commits];
    SplitAround(visible, pr.commits, '\n');
    SplitAround(pr.title, rest, '\n');
    var xs, ys, zs := Split(pr.title, '\n'), Split(visible, '\n'), Split(pr.commits, '\n');
    assert xs + (ys + zs) == xs + ys + zs;
  }

  lemma SplitAround(s: string, t: string, sep: char)
    ensures Split(s + [sep] + t, sep) == Split(s, sep) + Split(t, sep)
  {
    var tail := [sep] + t;
    assert tail[0] == sep && tail[1..] == t && s + [sep] + t == s + tail;
    SplitAppend(s, tail, sep);
    assert Split(tail, sep) == [""] + Split(t, sep);
    var xs := Split(s, sep);
    assert xs[|xs| - 1] + "" == xs[|xs| - 1];
    assert xs == xs[..|xs| - 1] + [xs[|xs| - 1]];
  }

  // When the pull request passes, in terms of what is visible and what it touches: there is nothing to
  // review, or an exemption is allowed, or without an exemption there is a trace or the bot rule applies.
  ghost predicate PassesOn(rules: Rules, pr: PullRequest, visible: string)
  {
    var claims := rules.sealed(Haystack(pr, visible));
    var code := Touches(rules.codeSurface, pr.codePaths);
    var guarded := Touches(rules.guardSurface, pr.allPaths);
    || (!claims && !code)
    || (rules.exempt(visible) && !guarded && !(claims && code))
    || (!rules.exempt(visible) && rules.traced(visible))
    || (!rules.exempt(visible) && pr.bot && pr.allPaths.Changed? && !(claims && code)
        && (guarded ==> rules.bumpOnly(Select(rules.guardSurface, pr.allPaths.paths))))
  }

  ghost predicate Passes(rules: Rules, pr: PullRequest)
  {
    PassesOn(rules, pr, Strip(pr.body))
  }

  /** The gate: exit code 0 exactly for the pull requests that pass. */
  method Gate(rules: Rules, pr: PullRequest) returns (code: int)
    ensures code == if Passes(rules, pr) then 0 else 1
  {
    var body := StripHtmlComments(pr.body);
    var claims := rules.sealed(Haystack(pr, body));
    var surfaces, guarded := [], [];
    if pr.codePaths.Changed? {
      surfaces := Select(rules.codeSurface, pr.codePaths.paths);
      SelectNonempty(rules.codeSurface, pr.codePaths.paths);
    }
    if !claims && surfaces == [] {
      return 0;
    }
    var exemption := rules.exempt(body);
    if pr.allPaths.Changed? {
      guarded := Select(rules.guardSurface, pr.allPaths.paths);
      SelectNonempty(rules.guardSurface, pr.allPaths.paths);
    }
    var exemptionBlocked := guarded != [] || (claims && surfaces != []);
    if exemption && exemptionBlocked {
      return 1;
    }
    if exemption {
      return 0;
    }
    if pr.bot && pr.allPaths.Changed? && !(claims && surfaces != []) {
      if guarded == [] || rules.bumpOnly(guarded) {
        return 0;
      }
    }
    if rules.traced(body) {
      return 0;
    }
    return 1;
  }

  /** A trace, a claim or an exemption inside a comment body counts for nothing: the verdict is the
      same for every body over several lines. */
  lemma {:induction false} HiddenTextCannotChangeVerdict(rules: Rules, pr: PullRequest, a: string, body1: string,
                                                         body2: string, b: string)
    requires OpensFor(a, body1) && '\n' in body1 && OpensFor(a, body2) && '\n' in body2
    ensures Passes(rules, pr.(body := a + OPENER + body1 + CLOSER + b))
       <==> Passes(rules, pr.(body := a + OPENER + body2 + CLOSER + b))
  {
    HiddenBodyIrrelevant(a, body1, body2, b);
  }

  /** A person who touches a guard surface passes exactly without touching code or claiming a seal, or with
      a visible trace and without an exemption marker. */
  lemma GuardsNeedAVisibleTrace(rules: Rules, pr: PullRequest)
    requires Touches(rules.guardSurface, pr.allPaths) && !pr.bot
    ensures var visible := Strip(pr.body);
      Passes(rules, pr) <==>
        || (!Touches(rules.codeSurface, pr.codePaths) && !rules.sealed(Haystack(pr, visible)))
        || (rules.traced(visible) && !rules.exempt(visible))
  {
  }

  /** An exemption marker decides: with one the pull request passes exactly without code and seal claims, or
      off the guards with one of the two at most; without one, exactly without both, with a visible trace,
      or if a bot makes the change, the paths are known, no seal is claimed over code, and the changes of all
      guards, if there are any, are a version bump. */
  lemma ExemptionDecides(rules: Rules, pr: PullRequest, guards: seq<string>)
    requires pr.allPaths.Changed? ==> Lists(rules.guardSurface, pr.allPaths.paths, guards)
    ensures var visible := Strip(pr.body);
      var claims, code := rules.sealed(Haystack(pr, visible)), Touches(rules.codeSurface, pr.codePaths);
      && (rules.exempt(visible) ==> (Passes(rules, pr) <==>
            if pr.allPaths.Changed? && guards != [] then !claims && !code else !(claims && code)))
      && (!rules.exempt(visible) ==> (Passes(rules, pr) <==>
            || (!claims && !code) || rules.traced(visible)
            || (pr.bot && pr.allPaths.Changed? && !(claims && code) && (guards == [] || rules.bumpOnly(guards)))))
  {
    if pr.allPaths.Changed? {
      SelectIs(rules.guardSurface, pr.allPaths.paths, guards);
      SelectNonempty(rules.guardSurface, pr.allPaths.paths);
    }
  }
}
