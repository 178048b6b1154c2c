/**
 * Which characters of a whole document are visible, as a predicate on line and column.
 *
 * Whether a comment or a fence is open before a line is a matter of quantifiers over the earlier
 * lines: some earlier line starts one, and no line in between ends it.
 */
module VisibleDocument {
  import opened Text
  import opened CommentStripper

  predicate Closes(line: string) { Find(line, CLOSER, 0) != -1 }

  // Where a line that a comment reaches into becomes visible text again.
  function AfterCloser(line: string): (c: nat)
    ensures c <= |line|
  {
    var close := Find(line, CLOSER, 0);
    if close == -1 then 0 else close + 3
  }

  // ----- what is open before line k -----

  // Which lines start a comment that is still open at their end, and which start a fence.
  datatype Starts = Starts(comment: seq<bool>, fence: seq<bool>)

  predicate Covers(s: Starts, n: nat)
  {
    n <= |s.comment| && n <= |s.fence|
  }

  // Some earlier line starts a comment, and no line in between closes it.
  predicate CommentOpen(s: Starts, lines: seq<string>, k: nat)
    requires k <= |lines| && Covers(s, k)
  {
    exists j :: 0 <= j < k && s.comment[j] && forall i :: j < i < k ==> !Closes(lines[i])
  }

  // Some earlier line starts a fence, and no line in between ends it.
  predicate FenceOpen(s: Starts, lines: seq<string>, k: nat)
    requires k <= |lines| && Covers(s, k)
  {
    exists j :: 0 <= j < k && s.fence[j] && forall i :: j < i < k ==> !IsFence(lines[i])
  }

  // The column from which line k is outside the comment that reaches into it.
  function From(s: Starts, lines: seq<string>, k: nat): (c: nat)
    requires k < |lines| && Covers(s, k)
    ensures c <= |lines[k]|
  {
    if CommentOpen(s, lines, k) then AfterCloser(lines[k]) else 0
  }

  function Rest(s: Starts, lines: seq<string>, k: nat): string
    requires k < |lines| && Covers(s, k)
  {
    lines[k][From(s, lines, k)..]
  }

  // Some of line k lies outside the comment that reaches into it.
  predicate Reads(s: Starts, lines: seq<string>, k: nat)
    requires k < |lines| && Covers(s, k)
  {
    CommentOpen(s, lines, k) ==> Closes(lines[k])
  }

  // Line k is read as text: a fence may start in it, or a comment.
  predicate ReadsText(s: Starts, lines: seq<string>, k: nat)
    requires k < |lines| && Covers(s, k)
  {
    Reads(s, lines, k) && !FenceOpen(s, lines, k)
  }

  predicate StartsFence(s: Starts, lines: seq<string>, k: nat)
    requires k < |lines| && Covers(s, k)
  {
    ReadsText(s, lines, k) && IsFence(Rest(s, lines, k))
  }

  // `ends` says whether a line of text ends inside a comment that it opens.
  ghost predicate StartsComment(ends: string -> bool, s: Starts, lines: seq<string>, k: nat)
    requires k < |lines| && Covers(s, k)
  {
    ReadsText(s, lines, k) && !IsFence(Rest(s, lines, k)) && ends(Rest(s, lines, k))
  }

  // The marks are right for the first n lines.  Whether line k is marked depends on the lines before it,
  // so there is one way to mark them (RightIsUnique).
  ghost predicate Right(ends: string -> bool, s: Starts, lines: seq<string>, n: nat)
    requires n <= |lines|
  {
    && Covers(s, n)
    && (forall k: nat :: k < n ==> (s.fence[k] <==> StartsFence(s, lines, k)))
    && (forall k: nat :: k < n ==> (s.comment[k] <==> StartsComment(ends, s, lines, k)))
  }

  ghost function Marked(ends: string -> bool, lines: seq<string>, n: nat): (s: Starts)
    requires n <= |lines|
    ensures |s.comment| == n == |s.fence|
  {
    if n == 0 then Starts([], [])
    else
      var before := Marked(ends, lines, n - 1);
      Starts(before.comment + [StartsComment(ends, before, lines, n - 1)],
             before.fence + [StartsFence(before, lines, n - 1)])
  }

  lemma SameBefore(ends: string -> bool, s: Starts, t: Starts, lines: seq<string>, k: nat)
    requires k < |lines| && Covers(s, k) && Covers(t, k)
    requires forall j :: 0 <= j < k ==> s.comment[j] == t.comment[j] && s.fence[j] == t.fence[j]
    ensures StartsFence(s, lines, k) <==> StartsFence(t, lines, k)
    ensures StartsComment(ends, s, lines, k) <==> StartsComment(ends, t, lines, k)
  {
    assert CommentOpen(s, lines, k) <==> CommentOpen(t, lines, k);
    assert FenceOpen(s, lines, k) <==> FenceOpen(t, lines, k);
  }

  /** There is one way to mark the lines. */
  lemma {:induction false} RightIsUnique(ends: string -> bool, s: Starts, t: Starts, lines: seq<string>, n: nat)
    requires n <= |lines| && Right(ends, s, lines, n) && Right(ends, t, lines, n)
    ensures forall k :: 0 <= k < n ==> s.comment[k] == t.comment[k] && s.fence[k] == t.fence[k]
  {
    if n > 0 {
      RightIsUnique(ends, s, t, lines, n - 1);
      SameBefore(ends, s, t, lines, n - 1);
    }
  }

  lemma {:induction false} MarkedIsRight(ends: string -> bool, lines: seq<string>, n: nat)
    requires n <= |lines|
    ensures Right(ends, Marked(ends, lines, n), lines, n)
  {
    if n > 0 {
      MarkedIsRight(ends, lines, n - 1);
      var s, t := Marked(ends, lines, n - 1), Marked(ends, lines, n);
      forall k: nat | k < n
        ensures t.fence[k] <==> StartsFence(t, lines, k)
        ensures t.comment[k] <==> StartsComment(ends, t, lines, k)
      {
        SameBefore(ends, s, t, lines, k);
      }
    }
  }

  // ----- which characters are visible -----

  // A comment that the line opens is still open at its end.
  ghost predicate EndsInComment(line: string) { Hidden(line, Mask(line), |line|) }

  ghost predicate Shows(s: Starts, lines: seq<string>, k: nat, c: nat)
    requires k < |lines| && Covers(s, k)
  {
    var rest := Rest(s, lines, k);
    && Reads(s, lines, k) && From(s, lines, k) <= c < |lines[k]|
    && (FenceOpen(s, lines, k) || IsFence(rest) || !Hidden(rest, Mask(rest), c - From(s, lines, k)))
  }

  // Which columns of line k are hidden.
  ghost function Columns(s: Starts, lines: seq<string>, k: nat): (g: seq<bool>)
    requires k < |lines| && Covers(s, k)
    ensures |g| == |lines[k]|
    ensures forall c :: 0 <= c < |g| ==> g[c] == !Shows(s, lines, k, c)
  {
    seq(|lines[k]|, c requires 0 <= c => !Shows(s, lines, k, c))
  }

  ghost function VisibleLine(s: Starts, lines: seq<string>, k: nat): string
    requires k < |lines| && Covers(s, k)
  {
    Visible(lines[k], Columns(s, lines, k), |lines[k]|)
  }

  // What is left of each line: its visible characters, or nothing of a line wholly inside a comment.
  ghost function Outcomes(s: Starts, lines: seq<string>): (os: seq<LineResult>)
    requires Covers(s, |lines|)
    ensures |os| == |lines|
  {
    seq(|lines|, k requires 0 <= k < |lines| =>
      if Reads(s, lines, k) then Kept(VisibleLine(s, lines, k)) else Dropped)
  }

  function KeptTexts(os: seq<LineResult>): seq<string>
  {
    if os == [] then []
    else KeptTexts(os[..|os| - 1]) + (if os[|os| - 1].Kept? then [os[|os| - 1].text] else [])
  }

  /** The visible characters of a document, line by line. */
  ghost function VisibleLines(s: Starts, lines: seq<string>): seq<string>
    requires Covers(s, |lines|)
  {
    KeptTexts(Outcomes(s, lines))
  }

  // ----- the automaton agrees -----

  lemma CommentNext(s: Starts, lines: seq<string>, k: nat)
    requires k < |lines| && Covers(s, k + 1)
    ensures CommentOpen(s, lines, k + 1) <==> s.comment[k] || (CommentOpen(s, lines, k) && !Closes(lines[k]))
  {
  }

  lemma FenceNext(s: Starts, lines: seq<string>, k: nat)
    requires k < |lines| && Covers(s, k + 1)
    ensures FenceOpen(s, lines, k + 1) <==> s.fence[k] || (FenceOpen(s, lines, k) && !IsFence(lines[k]))
  {
  }

  function ModeBefore(s: Starts, lines: seq<string>, k: nat): Mode
    requires k <= |lines| && Covers(s, k)
  {
    if CommentOpen(s, lines, k) then InComment else if FenceOpen(s, lines, k) then InFence else InText
  }

  ghost predicate Agrees(view: string -> (string, bool), ends: string -> bool)
  {
    forall line :: view(line).1 == ends(line)
  }

  predicate OneOpen(s: Starts, lines: seq<string>, k: nat)
    requires k <= |lines| && Covers(s, k)
  {
    !(CommentOpen(s, lines, k) && FenceOpen(s, lines, k))
  }

  // One line, read by the automaton and by the quantifiers.
  lemma ModeNext(view: string -> (string, bool), ends: string -> bool, s: Starts, lines: seq<string>, k: nat)
    requires k < |lines| && Agrees(view, ends) && Covers(s, k + 1) && OneOpen(s, lines, k)
    requires s.fence[k] <==> StartsFence(s, lines, k)
    requires s.comment[k] <==> StartsComment(ends, s, lines, k)
    ensures OneOpen(s, lines, k + 1)
    ensures Line(view, ModeBefore(s, lines, k), lines[k]).1 == ModeBefore(s, lines, k + 1)
  {
    CommentNext(s, lines, k);
    FenceNext(s, lines, k);
    assert lines[k][0..] == lines[k];
    assert view(Rest(s, lines, k)).1 == ends(Rest(s, lines, k));
  }

  /** Before every line the automaton is inside a comment, or inside a fence, exactly when one is open
      there by the quantified definition, and never both. */
  lemma {:induction false} ModeIsOpen(view: string -> (string, bool), ends: string -> bool, s: Starts,
                                      lines: seq<string>, n: nat, k: nat)
    requires k <= n <= |lines| && Agrees(view, ends) && Right(ends, s, lines, n)
    ensures OneOpen(s, lines, k)
    ensures ModeAfter(view, InText, lines[..k]) == ModeBefore(s, lines, k)
    decreases k
  {
    if k > 0 {
      ModeIsOpen(view, ends, s, lines, n, k - 1);
      ModeNext(view, ends, s, lines, k - 1);
      RenderOne(view, InText, lines[..k - 1], lines[k - 1]);
      assert lines[..k] == lines[..k - 1] + [lines[k - 1]];
    }
  }

  // ----- the columns -----

  // The first columns of g are hidden, the others are those of h.
  predicate Shifted(g: seq<bool>, from: nat, h: seq<bool>)
  {
    && |g| == from + |h|
    && (forall i :: 0 <= i < from ==> g[i])
    && (forall i :: 0 <= i < |h| ==> g[from + i] == h[i])
  }

  lemma {:induction false} VisibleShift(line: string, g: seq<bool>, from: nat, rest: string, h: seq<bool>, d: nat,
                                        c: nat)
    requires |g| == |line| && |rest| == |h| && Shifted(g, from, h) && rest == line[from..]
    requires c <= |rest| && d == from + c
    ensures Visible(line, g, d) == Visible(rest, h, c)
    decreases c
  {
    if c == 0 {
      HiddenRun(line, g, 0, d);
    } else {
      VisibleShift(line, g, from, rest, h, d - 1, c - 1);
      assert g[from + (c - 1)] == h[c - 1];
    }
  }

  lemma VisibleRest(line: string, g: seq<bool>, from: nat)
    requires |g| == |line| && from <= |line|
    requires forall i :: 0 <= i < from ==> g[i]
    requires forall i :: from <= i < |line| ==> !g[i]
    ensures Visible(line, g, |line|) == line[from..]
  {
    HiddenRun(line, g, 0, from);
    VisibleRun(line, g, from, |line|);
  }

  lemma FenceLineShown(s: Starts, lines: seq<string>, k: nat)
    requires k < |lines| && Covers(s, k) && Reads(s, lines, k)
    requires FenceOpen(s, lines, k) || IsFence(Rest(s, lines, k))
    ensures VisibleLine(s, lines, k) == Rest(s, lines, k)
  {
    VisibleRest(lines[k], Columns(s, lines, k), From(s, lines, k));
  }

  lemma ShowsText(s: Starts, lines: seq<string>, k: nat, i: nat)
    requires k < |lines| && Covers(s, k) && ReadsText(s, lines, k) && !IsFence(Rest(s, lines, k))
    ensures var rest := Rest(s, lines, k);
      i < |rest| ==> (Shows(s, lines, k, From(s, lines, k) + i) <==> !Hidden(rest, Mask(rest), i))
  {
  }

  lemma TextColumns(s: Starts, lines: seq<string>, k: nat, h: seq<bool>)
    requires k < |lines| && Covers(s, k) && ReadsText(s, lines, k) && !IsFence(Rest(s, lines, k))
    requires Marks(h, Rest(s, lines, k), Mask(Rest(s, lines, k)))
    ensures Shifted(Columns(s, lines, k), From(s, lines, k), h)
  {
    forall i | 0 <= i < |h|
      ensures Columns(s, lines, k)[From(s, lines, k) + i] == h[i]
    {
      ShowsText(s, lines, k, i);
    }
    SkippedColumns(s, lines, k);
  }

  lemma SkippedColumns(s: Starts, lines: seq<string>, k: nat)
    requires k < |lines| && Covers(s, k)
    ensures forall i :: 0 <= i < From(s, lines, k) ==> Columns(s, lines, k)[i]
  {
  }

  lemma TextLineShown(s: Starts, lines: seq<string>, k: nat)
    requires k < |lines| && Covers(s, k) && ReadsText(s, lines, k) && !IsFence(Rest(s, lines, k))
    ensures VisibleLine(s, lines, k) == ReviewerView(Rest(s, lines, k)).0
  {
    var h := HiddenColumns(Rest(s, lines, k), Mask(Rest(s, lines, k)));
    TextColumns(s, lines, k, h);
    VisibleShift(lines[k], Columns(s, lines, k), From(s, lines, k), Rest(s, lines, k), h,
                 |lines[k]|, |Rest(s, lines, k)|);
  }

  lemma LineShown(s: Starts, lines: seq<string>, k: nat)
    requires k < |lines| && Covers(s, k) && OneOpen(s, lines, k)
    ensures Line(ReviewerView, ModeBefore(s, lines, k), lines[k]).0
         == if Reads(s, lines, k) then Kept(VisibleLine(s, lines, k)) else Dropped
  {
    assert lines[k][0..] == lines[k];
    if Reads(s, lines, k) {
      if FenceOpen(s, lines, k) || IsFence(Rest(s, lines, k)) {
        FenceLineShown(s, lines, k);
      } else {
        TextLineShown(s, lines, k);
      }
    }
  }

  lemma ViewAgrees()
    ensures Agrees(ReviewerView, EndsInComment)
  {
  }

  lemma NextShown(s: Starts, lines: seq<string>, k: nat)
    requires k < |lines| && Right(EndsInComment, s, lines, |lines|)
    ensures Line(ReviewerView, ModeAfter(ReviewerView, InText, lines[..k]), lines[k]).0 == Outcomes(s, lines)[k]
  {
    ViewAgrees();
    ModeIsOpen(ReviewerView, EndsInComment, s, lines, |lines|, k);
    LineShown(s, lines, k);
  }

  ghost predicate Yields(view: string -> (string, bool), lines: seq<string>, os: seq<LineResult>)
  {
    && |os| == |lines|
    && forall k: nat :: k < |lines| ==> Line(view, ModeAfter(view, InText, lines[..k]), lines[k]).0 == os[k]
  }

  lemma {:induction false} RenderKeeps(view: string -> (string, bool), lines: seq<string>, os: seq<LineResult>, n: nat)
    requires n <= |lines| && Yields(view, lines, os)
    ensures Render(view, InText, lines[..n]) == KeptTexts(os[..n])
  {
    if n > 0 {
      RenderKeeps(view, lines, os, n - 1);
      RenderOne(view, InText, lines[..n - 1], lines[n - 1]);
      assert lines[..n] == lines[..n - 1] + [lines[n - 1]];
      assert os[..n][..n - 1] == os[..n - 1];
      assert os[n - 1] == Line(view, ModeAfter(view, InText, lines[..n - 1]), lines[n - 1]).0;
    }
  }

  lemma RenderShown(s: Starts, lines: seq<string>)
    requires Right(EndsInComment, s, lines, |lines|)
    ensures Render(ReviewerView, InText, lines) == VisibleLines(s, lines)
  {
    var os := Outcomes(s, lines);
    forall k: nat | k < |lines|
      ensures Line(ReviewerView, ModeAfter(ReviewerView, InText, lines[..k]), lines[k]).0 == os[k]
    {
      NextShown(s, lines, k);
    }
    RenderKeeps(ReviewerView, lines, os, |lines|);
    assert lines[..|lines|] == lines && os[..|lines|] == os;
  }

  /** The stripped text is exactly the visible characters of the document, in order. */
  lemma {:induction false} StripShowsVisible(text: string, s: Starts)
    requires Right(EndsInComment, s, Split(text, '\n'), |Split(text, '\n')|)
    ensures Strip(text) == Join(VisibleLines(s, Split(text, '\n')), '\n')
  {
    RenderShown(s, Split(text, '\n'));
  }
}
