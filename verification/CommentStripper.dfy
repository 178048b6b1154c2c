/**
 * Removing the parts of a pull-request body that a reviewer cannot see.
 *
 * The specification says which columns of a line are hidden, by a quantified definition over the
 * openers and closers in it; the method scans with find and a running position.
 */
module CommentStripper {
  import opened Text

  const OPENER := "<!--"
  const CLOSER := "-->"
  const NUL := '\0'

  // ----- fences and inline code -----

  // Up to three blanks, then three backticks or three tildes.
  predicate IsFence(line: string)
  {
    FenceAfter(line, 0)
  }

  predicate FenceAfter(line: string, blanks: nat)
    decreases 3 - blanks
  {
    || At(line, blanks, "```")
    || At(line, blanks, "~~~")
    || (blanks < 3 && blanks < |line| && (line[blanks] == ' ' || line[blanks] == '\t')
        && FenceAfter(line, blanks + 1))
  }

  // The first piece of the masked line from column `from` on, and where it ends: a span of inline
  // code is blanked out, any other character stands for itself.
  function MaskHead(line: string, from: nat): (head: (string, nat))
    requires from < |line|
    ensures from < head.1 <= |line| && |head.0| == head.1 - from
    ensures forall k :: 0 <= k < |head.0| ==> head.0[k] == line[from + k] || head.0[k] == NUL
  {
    var close := Find(line, "`", from + 1);
    if line[from] == '`' && close > from + 1 then (seq(close + 1 - from, _ => NUL), close + 1)
    else ([line[from]], from + 1)
  }

  // The line with every inline code span blanked out, same length.
  function Mask(line: string, from: nat := 0): (m: string)
    requires from <= |line|
    ensures |m| == |line| - from
    ensures forall k :: 0 <= k < |m| ==> m[k] == line[from + k] || m[k] == NUL
    decreases |line| - from
  {
    if from == |line| then ""
    else
      var (head, next) := MaskHead(line, from);
      head + Mask(line, next)
  }

  // ----- which columns are hidden -----

  // A closer lies wholly within [lo, hi).
  ghost predicate ClosedBetween(line: string, lo: int, hi: int)
  {
    exists k :: lo <= k && k + 3 <= hi && At(line, k, CLOSER)
  }

  // The marker at column o, read in the masked line, really opens a comment: every comment opened
  // earlier in the line has been closed before it.
  ghost predicate Live(line: string, mask: string, o: nat)
    decreases o
  {
    At(mask, o, OPENER) &&
    forall p: nat :: p < o && Live(line, mask, p) ==> ClosedBetween(line, p + 4, o)
  }

  // Column c belongs to a comment: one was opened at or before it and not closed before it.
  ghost predicate Hidden(line: string, mask: string, c: nat)
  {
    exists o: nat :: o <= c && Live(line, mask, o) && !ClosedBetween(line, o + 4, c)
  }

  ghost function HiddenColumns(line: string, mask: string): (hid: seq<bool>)
    ensures |hid| == |line|
    ensures Marks(hid, line, mask)
  {
    seq(|line|, c requires 0 <= c < |line| => Hidden(line, mask, c))
  }

  // `hid` lists which columns of the line are hidden.
  ghost predicate Marks(hid: seq<bool>, line: string, mask: string)
  {
    && |hid| == |line|
    && forall c: nat {:trigger Hidden(line, mask, c)} :: c < |line| ==> (hid[c] <==> Hidden(line, mask, c))
  }

  // The unmarked characters among the first c columns, in order.
  ghost function Visible(line: string, hid: seq<bool>, c: nat): string
    requires |hid| == |line| && c <= |line|
  {
    if c == 0 then ""
    else Visible(line, hid, c - 1) + (if hid[c - 1] then "" else [line[c - 1]])
  }

  // What is left of a line of text, and whether it ends inside a comment.
  ghost function ReviewerView(line: string): (string, bool)
  {
    (Visible(line, HiddenColumns(line, Mask(line)), |line|), Hidden(line, Mask(line), |line|))
  }

  // ----- whole documents -----

  // What a line starts in.  A fence and a comment are never open together.
  datatype Mode = InText | InFence | InComment

  datatype LineResult = Dropped | Kept(text: string)

  // `view` says what is left of a line of text and whether a comment is still open at its end.
  ghost function TextLine(view: string -> (string, bool), line: string): (LineResult, Mode)
  {
    if IsFence(line) then (Kept(line), InFence)
    else (Kept(view(line).0), if view(line).1 then InComment else InText)
  }

  ghost function Line(view: string -> (string, bool), mode: Mode, line: string): (LineResult, Mode)
  {
    match mode
    case InText => TextLine(view, line)
    case InFence => (Kept(line), if IsFence(line) then InText else InFence)
    case InComment =>
      var close := Find(line, CLOSER, 0);
      if close == -1 then (Dropped, InComment) else TextLine(view, line[close + 3..])
  }

  ghost function ModeAfter(view: string -> (string, bool), mode: Mode, lines: seq<string>): Mode
    decreases lines
  {
    if lines == [] then mode else ModeAfter(view, Line(view, mode, lines[0]).1, lines[1..])
  }

  ghost function Render(view: string -> (string, bool), mode: Mode, lines: seq<string>): seq<string>
    decreases lines
  {
    if lines == [] then []
    else
      var (out, next) := Line(view, mode, lines[0]);
      (if out.Kept? then [out.text] else []) + Render(view, next, lines[1..])
  }

  /** The text a reviewer sees. */
  ghost function Strip(text: string): string
  {
    Join(Render(ReviewerView, InText, Split(text, '\n')), '\n')
  }

  // ----- the scan of one line -----

  lemma {:induction false} VisibleRun(line: string, hid: seq<bool>, lo: nat, hi: nat)
    requires lo <= hi <= |line| == |hid|
    requires forall c :: lo <= c < hi ==> !hid[c]
    ensures Visible(line, hid, hi) == Visible(line, hid, lo) + line[lo..hi]
  {
    if lo < hi {
      VisibleRun(line, hid, lo, hi - 1);
      assert line[lo..hi] == line[lo..hi - 1] + [line[hi - 1]];
    }
  }

  lemma {:induction false} HiddenRun(line: string, hid: seq<bool>, lo: nat, hi: nat)
    requires lo <= hi <= |line| == |hid|
    requires forall c :: lo <= c < hi ==> hid[c]
    ensures Visible(line, hid, hi) == Visible(line, hid, lo)
  {
    if lo < hi { HiddenRun(line, hid, lo, hi - 1); }
  }

  // Between comments: whatever was opened before pos is closed before pos.
  ghost predicate Outside(line: string, mask: string, pos: nat)
  {
    forall o: nat :: o < pos && Live(line, mask, o) ==> ClosedBetween(line, o + 4, pos)
  }

  lemma NoOpenerAhead(line: string, mask: string, pos: nat, c: nat)
    requires |mask| == |line| && pos <= c <= |line| && Outside(line, mask, pos)
    requires Find(mask, OPENER, pos) == -1
    ensures !Hidden(line, mask, c)
  {
    forall o: nat | o <= c && Live(line, mask, o)
      ensures ClosedBetween(line, o + 4, c)
    {
      assert At(mask, o, OPENER);
      assert ClosedBetween(line, o + 4, pos);
    }
  }

  lemma NextOpener(line: string, mask: string, pos: nat, start: nat)
    requires |mask| == |line| && pos <= |line| && Outside(line, mask, pos)
    requires Find(mask, OPENER, pos) == start
    ensures start + 4 <= |line| && Live(line, mask, start)
  {
    forall p: nat | p < start && Live(line, mask, p)
      ensures ClosedBetween(line, p + 4, start)
    {
      assert At(mask, p, OPENER);
      assert ClosedBetween(line, p + 4, pos);
    }
  }

  lemma BeforeOpener(line: string, mask: string, pos: nat, start: nat, c: nat)
    requires |mask| == |line| && pos <= |line| && pos <= c < start && Outside(line, mask, pos)
    requires Find(mask, OPENER, pos) == start
    ensures !Hidden(line, mask, c)
  {
    forall o: nat | o <= c && Live(line, mask, o)
      ensures ClosedBetween(line, o + 4, c)
    {
      assert At(mask, o, OPENER);
      assert ClosedBetween(line, o + 4, pos);
    }
  }

  // Inside a comment up to the end of the next closer.
  lemma InsideComment(line: string, mask: string, o: nat, c: nat)
    requires Live(line, mask, o) && o <= c
    requires forall k :: o + 4 <= k && k + 3 <= c ==> !At(line, k, CLOSER)
    ensures Hidden(line, mask, c)
  {
    assert !ClosedBetween(line, o + 4, c);
  }

  lemma OutsideAfterCloser(line: string, mask: string, pos: nat, close: nat)
    requires |mask| == |line| && 4 <= pos <= |line| && Live(line, mask, pos - 4)
    requires Find(line, CLOSER, pos) == close
    ensures Outside(line, mask, close + 3)
  {
    var o := pos - 4;
    forall p: nat | p < close + 3 && Live(line, mask, p)
      ensures ClosedBetween(line, p + 4, close + 3)
    {
      if p < o {
        assert ClosedBetween(line, p + 4, o);
      }
    }
  }

  lemma EndOfLine(line: string, mask: string, inComment: bool)
    requires |mask| == |line|
    requires inComment ==> 4 <= |line| && Live(line, mask, |line| - 4)
    requires !inComment ==> Outside(line, mask, |line|)
    ensures inComment <==> Hidden(line, mask, |line|)
  {
    if inComment {
      assert !ClosedBetween(line, |line|, |line|);
    } else {
      forall o: nat | o <= |line| && Live(line, mask, o)
        ensures ClosedBetween(line, o + 4, |line|)
      {
        assert At(mask, o, OPENER);
      }
    }
  }

  // Where the scan ends up from column pos with `kept` in hand.
  function Scan(line: string, mask: string, pos: nat, inComment: bool, kept: string): (string, bool)
    requires |mask| == |line| && pos <= |line|
    decreases |line| - pos
  {
    if pos == |line| then (kept, inComment)
    else if inComment then
      var close := Find(line, CLOSER, pos);
      if close == -1 then (kept, true) else Scan(line, mask, close + 3, false, kept)
    else
      var start := Find(mask, OPENER, pos);
      if start == -1 then (kept + line[pos..], false)
      else Scan(line, mask, start + 4, true, kept + line[pos..start])
  }

  // A table of kept prefixes that every turn of the scan respects: `outs` are the columns where a
  // turn outside a comment may start, `ins` those where a turn inside one may.
  datatype Table = Table(kept: seq<string>, ends: bool, outs: set<nat>, ins: set<nat>)

  ghost predicate TextTurnOk(line: string, mask: string, t: Table, pos: nat)
    requires |mask| == |line| && |t.kept| == |line| + 1 && pos < |line|
  {
    var start := Find(mask, OPENER, pos);
    if start == -1 then !t.ends && t.kept[|line|] == t.kept[pos] + line[pos..]
    else start + 4 <= |line| && start + 4 in t.ins
         && t.kept[start + 4] == t.kept[pos] + line[pos..start]
  }

  ghost predicate CommentTurnOk(line: string, t: Table, pos: nat)
    requires |t.kept| == |line| + 1 && pos < |line|
  {
    var close := Find(line, CLOSER, pos);
    if close == -1 then t.ends && t.kept[|line|] == t.kept[pos]
    else close + 3 <= |line| && close + 3 in t.outs && t.kept[close + 3] == t.kept[pos]
  }

  ghost predicate TableOk(line: string, mask: string, t: Table)
    requires |mask| == |line|
  {
    && |t.kept| == |line| + 1
    && (forall pos :: pos in t.outs && pos < |line| ==> TextTurnOk(line, mask, t, pos))
    && (forall pos :: pos in t.ins && pos < |line| ==> CommentTurnOk(line, t, pos))
    && (|line| in t.outs ==> !t.ends)
    && (|line| in t.ins ==> t.ends)
  }

  lemma {:induction false} ScanFollows(line: string, mask: string, t: Table, pos: nat, inComment: bool)
    requires |mask| == |line| && pos <= |line| && TableOk(line, mask, t)
    requires if inComment then pos in t.ins else pos in t.outs
    ensures Scan(line, mask, pos, inComment, t.kept[pos]) == (t.kept[|line|], t.ends)
    decreases |line| - pos
  {
    if pos < |line| {
      if inComment {
        assert CommentTurnOk(line, t, pos);
        var close := Find(line, CLOSER, pos);
        if close != -1 { ScanFollows(line, mask, t, close + 3, false); }
      } else {
        assert TextTurnOk(line, mask, t, pos);
        var start := Find(mask, OPENER, pos);
        if start != -1 { ScanFollows(line, mask, t, start + 4, true); }
      }
    }
  }

  ghost predicate Inside(line: string, mask: string, pos: nat)
  {
    4 <= pos && Live(line, mask, pos - 4)
  }

  // The table read off the specification.
  ghost function SpecTable(line: string, mask: string, hid: seq<bool>, ends: bool): Table
    requires |mask| == |line| == |hid|
  {
    Table(seq(|line| + 1, c requires 0 <= c <= |line| => Visible(line, hid, c)),
          ends,
          set pos: nat | pos <= |line| && Outside(line, mask, pos),
          set pos: nat | pos <= |line| && Inside(line, mask, pos))
  }

  lemma SpecLastText(line: string, mask: string, hid: seq<bool>, ends: bool, pos: nat)
    requires |mask| == |line| && Marks(hid, line, mask) && (ends <==> Hidden(line, mask, |line|))
    requires pos < |line| && Outside(line, mask, pos) && Find(mask, OPENER, pos) == -1
    ensures TextTurnOk(line, mask, SpecTable(line, mask, hid, ends), pos)
  {
    forall c: nat | pos <= c < |line|
      ensures !hid[c]
    {
      NoOpenerAhead(line, mask, pos, c);
    }
    NoOpenerAhead(line, mask, pos, |line|);
    VisibleRun(line, hid, pos, |line|);
  }

  lemma SpecTextTurn(line: string, mask: string, hid: seq<bool>, ends: bool, pos: nat)
    requires |mask| == |line| && Marks(hid, line, mask)
    requires pos < |line| && Outside(line, mask, pos) && Find(mask, OPENER, pos) != -1
    ensures TextTurnOk(line, mask, SpecTable(line, mask, hid, ends), pos)
  {
    var start := Find(mask, OPENER, pos);
    NextOpener(line, mask, pos, start);
    forall c: nat | pos <= c < start
      ensures !hid[c]
    {
      BeforeOpener(line, mask, pos, start, c);
    }
    forall c: nat | start <= c < start + 4
      ensures hid[c]
    {
      InsideComment(line, mask, start, c);
    }
    VisibleRun(line, hid, pos, start);
    HiddenRun(line, hid, start, start + 4);
    assert Inside(line, mask, start + 4);
  }

  lemma SpecLastComment(line: string, mask: string, hid: seq<bool>, ends: bool, pos: nat)
    requires |mask| == |line| && Marks(hid, line, mask) && (ends <==> Hidden(line, mask, |line|))
    requires pos < |line| && Inside(line, mask, pos) && Find(line, CLOSER, pos) == -1
    ensures CommentTurnOk(line, SpecTable(line, mask, hid, ends), pos)
  {
    forall c: nat | pos <= c < |line|
      ensures hid[c]
    {
      InsideComment(line, mask, pos - 4, c);
    }
    InsideComment(line, mask, pos - 4, |line|);
    HiddenRun(line, hid, pos, |line|);
  }

  lemma SpecCommentTurn(line: string, mask: string, hid: seq<bool>, ends: bool, pos: nat)
    requires |mask| == |line| && Marks(hid, line, mask)
    requires pos < |line| && Inside(line, mask, pos) && Find(line, CLOSER, pos) != -1
    ensures CommentTurnOk(line, SpecTable(line, mask, hid, ends), pos)
  {
    var close := Find(line, CLOSER, pos);
    forall c: nat | pos <= c < close + 3
      ensures hid[c]
    {
      InsideComment(line, mask, pos - 4, c);
    }
    HiddenRun(line, hid, pos, close + 3);
    OutsideAfterCloser(line, mask, pos, close);
  }

  lemma SpecTableOk(line: string, mask: string, hid: seq<bool>)
    requires |mask| == |line| && Marks(hid, line, mask)
    ensures TableOk(line, mask, SpecTable(line, mask, hid, Hidden(line, mask, |line|)))
  {
    var ends := Hidden(line, mask, |line|);
    var t := SpecTable(line, mask, hid, ends);
    forall pos | pos in t.outs && pos < |line|
      ensures TextTurnOk(line, mask, t, pos)
    {
      if Find(mask, OPENER, pos) == -1 {
        SpecLastText(line, mask, hid, ends, pos);
      } else {
        SpecTextTurn(line, mask, hid, ends, pos);
      }
    }
    forall pos | pos in t.ins && pos < |line|
      ensures CommentTurnOk(line, t, pos)
    {
      if Find(line, CLOSER, pos) == -1 {
        SpecLastComment(line, mask, hid, ends, pos);
      } else {
        SpecCommentTurn(line, mask, hid, ends, pos);
      }
    }
    SpecEnds(line, mask);
  }

  lemma SpecEnds(line: string, mask: string)
    requires |mask| == |line|
    ensures Outside(line, mask, |line|) ==> !Hidden(line, mask, |line|)
    ensures Inside(line, mask, |line|) ==> Hidden(line, mask, |line|)
  {
    if Outside(line, mask, |line|) { EndOfLine(line, mask, false); }
    if Inside(line, mask, |line|) { EndOfLine(line, mask, true); }
  }

  method StripLine(line: string) returns (kept: string, inComment: bool)
    ensures (kept, inComment) == ReviewerView(line)
  {
    var masked := Mask(line);
    kept, inComment := RunScan(line, masked);
    ghost var hid := HiddenColumns(line, masked);
    SpecTableOk(line, masked, hid);
    ScanFollows(line, masked, SpecTable(line, masked, hid, Hidden(line, masked, |line|)), 0, false);
  }

  method RunScan(line: string, masked: string) returns (kept: string, inComment: bool)
    requires |masked| == |line|
    ensures (kept, inComment) == Scan(line, masked, 0, false, "")
  {
    kept := "";
    inComment := false;
    var pos := 0;
    while pos < |line|
      invariant pos <= |line|
      invariant Scan(line, masked, pos, inComment, kept) == Scan(line, masked, 0, false, "")
      decreases |line| - pos
    {
      if inComment {
        var close := Find(line, CLOSER, pos);
        if close == -1 {
          return;
        }
        inComment := false;
        pos := close + 3;
      } else {
        var start := Find(masked, OPENER, pos);
        if start == -1 {
          kept := kept + line[pos..];
          return;
        }
        kept := kept + line[pos..start];
        pos := start + 4;
        inComment := true;
      }
    }
  }

  // ----- the scan of a document -----

  ghost function ModeOf(inComment: bool, inFence: bool): Mode
  {
    if inComment then InComment else if inFence then InFence else InText
  }

  lemma {:induction false} RenderAppend(view: string -> (string, bool), mode: Mode, xs: seq<string>, ys: seq<string>)
    ensures Render(view, mode, xs + ys) == Render(view, mode, xs) + Render(view, ModeAfter(view, mode, xs), ys)
    ensures ModeAfter(view, mode, xs + ys) == ModeAfter(view, ModeAfter(view, mode, xs), ys)
    decreases xs
  {
    if xs == [] {
      assert xs + ys == ys;
    } else {
      assert (xs + ys)[1..] == xs[1..] + ys;
      var (out, next) := Line(view, mode, xs[0]);
      RenderAppend(view, next, xs[1..], ys);
      var first := if out.Kept? then [out.text] else [];
      var a, b := Render(view, next, xs[1..]), Render(view, ModeAfter(view, mode, xs), ys);
      assert first + (a + b) == first + a + b;
    }
  }

  lemma RenderOne(view: string -> (string, bool), mode: Mode, xs: seq<string>, line: string)
    ensures Render(view, mode, xs + [line]) == Render(view, mode, xs) +
      (var out := Line(view, ModeAfter(view, mode, xs), line).0; if out.Kept? then [out.text] else [])
    ensures ModeAfter(view, mode, xs + [line]) == Line(view, ModeAfter(view, mode, xs), line).1
  {
    RenderAppend(view, mode, xs, [line]);
    assert [line][1..] == [];
  }

  /** The scanner outputs exactly the visible text: the visible columns of every line in order,
      without the lines that lie wholly inside a comment. */
  method StripHtmlComments(text: string) returns (result: string)
    ensures result == Strip(text)
  {
    var lines := Split(text, '\n');
    var out := RenderLines(lines);
    result := Join(out, '\n');
  }

  method RenderLines(lines: seq<string>) returns (out: seq<string>)
    ensures out == Render(ReviewerView, InText, lines)
  {
    out := [];
    var inComment := false;
    var inFence := false;
    for n := 0 to |lines|
      invariant !(inComment && inFence)
      invariant ModeOf(inComment, inFence) == ModeAfter(ReviewerView, InText, lines[..n])
      invariant out == Render(ReviewerView, InText, lines[..n])
    {
      assert lines[..n + 1] == lines[..n] + [lines[n]];
      RenderOne(ReviewerView, InText, lines[..n], lines[n]);
      var line := lines[n];
      if inComment {
        var close := Find(line, CLOSER, 0);
        if close == -1 {
          continue;
        }
        inComment := false;
        line := line[close + 3..];
      }
      if inFence {
        if IsFence(line) {
          inFence := false;
        }
        out := out + [line];
        continue;
      }
      if IsFence(line) {
        inFence := true;
        out := out + [line];
        continue;
      }
      var kept: string;
      kept, inComment := StripLine(line);
      out := out + [kept];
    }
    assert lines[..|lines|] == lines;
  }

  // ----- lines without markers -----

  /** Outside comments a line with no unmasked opener is kept verbatim and opens nothing. */
  lemma {:induction false} UnmarkedLineKept(mode: Mode, line: string)
    requires mode != InComment && Find(Mask(line), OPENER, 0) == -1
    ensures Line(ReviewerView, mode, line).0 == Kept(line)
    ensures Line(ReviewerView, mode, line).1 != InComment
  {
    var mask := Mask(line);
    forall c: nat | c <= |line|
      ensures !Hidden(line, mask, c)
    {
      NoOpenerAhead(line, mask, 0, c);
    }
    VisibleRun(line, HiddenColumns(line, mask), 0, |line|);
    assert "" + line[0..] == line;
  }
}
