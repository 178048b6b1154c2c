/** What the marks of the stripper mean on one line: fences, code spans and comments within the line. */
module MarkdownLines {
  import opened Text
  import opened CommentStripper
  import HiddenText

  // ----- fences -----

  predicate IsBlankChar(c: char) { c == ' ' || c == '\t' }

  /** A fence is three backticks or three tildes behind at most three blanks. */
  lemma {:induction false} FenceIs(line: string)
    ensures IsFence(line) <==> exists k :: 0 <= k <= 3 && Blanks(line, 0, k) && Fenced(line, k)
  {
    FenceFrom(line, 0);
  }

  predicate Fenced(line: string, k: int) { At(line, k, "```") || At(line, k, "~~~") }

  predicate Blanks(line: string, from: int, k: int)
  {
    0 <= from <= k <= |line| && forall i :: from <= i < k ==> IsBlankChar(line[i])
  }

  lemma {:induction false} FenceFrom(line: string, from: nat)
    requires from <= 3
    ensures FenceAfter(line, from) <==> exists k :: from <= k <= 3 && Blanks(line, from, k) && Fenced(line, k)
    decreases 3 - from
  {
    if from < 3 && from < |line| {
      FenceFrom(line, from + 1);
      forall k | from < k <= 3
        ensures Blanks(line, from, k) <==> IsBlankChar(line[from]) && Blanks(line, from + 1, k)
      {
      }
    }
    if Fenced(line, from) { assert Blanks(line, from, from); }
  }

  // ----- code spans -----

  // Two backticks with something, but no backtick, between them.
  predicate IsSpan(line: string, a: int, b: int)
  {
    && 0 <= a && a + 1 < b < |line| && line[a] == '`' && line[b] == '`'
    && forall k :: a < k < b ==> line[k] != '`'
  }

  // The span is inline code: no earlier one reaches over its first backtick.
  ghost predicate IsCode(line: string, a: nat, b: int)
    decreases a
  {
    IsSpan(line, a, b) && forall p: nat, q: int :: p < a && IsCode(line, p, q) ==> q < a
  }

  ghost predicate InCode(line: string, c: int)
  {
    exists a: nat, b: int :: a <= c <= b && IsCode(line, a, b)
  }

  // What column c shows.
  ghost function Blanked(line: string, c: int): char
    requires 0 <= c < |line|
  {
    if InCode(line, c) then NUL else line[c]
  }

  ghost predicate BlankedFrom(line: string, from: nat, m: string)
    requires from <= |line|
  {
    |m| == |line| - from && forall c :: 0 <= c < |m| ==> m[c] == Blanked(line, from + c)
  }

  /** Blanked out are exactly the columns of the line that lie in inline code, the backticks included. */
  lemma {:induction false} MaskIs(line: string)
    ensures |Mask(line)| == |line| && forall c :: 0 <= c < |line| ==> Mask(line)[c] == Blanked(line, c)
  {
    MaskFrom(line, 0);
    var m := Mask(line);
    forall c | 0 <= c < |line|
      ensures m[c] == Blanked(line, c)
    {
      assert m[c] == Blanked(line, 0 + c);
    }
  }

  // No span of inline code reaches over column `from`.
  ghost predicate Between(line: string, from: nat)
  {
    forall a: nat, b: int :: a < from && IsCode(line, a, b) ==> b < from
  }

  lemma {:induction false} MaskFrom(line: string, from: nat)
    requires from <= |line| && Between(line, from)
    ensures BlankedFrom(line, from, Mask(line, from))
    decreases |line| - from
  {
    if from < |line| {
      var (head, next) := MaskHead(line, from);
      NextPiece(line, from);
      MaskFrom(line, next);
      TwoPieces(line, from, head, Mask(line, next));
      assert Mask(line, from) == head + Mask(line, next);
    }
  }

  lemma TwoPieces(line: string, from: nat, head: string, rest: string)
    requires from + |head| <= |line| && BlankedFrom(line, from + |head|, rest)
    requires forall c :: 0 <= c < |head| ==> head[c] == Blanked(line, from + c)
    ensures BlankedFrom(line, from, head + rest)
  {
    forall c | 0 <= c < |head + rest|
      ensures (head + rest)[c] == Blanked(line, from + c)
    {
      if c >= |head| { assert rest[c - |head|] == Blanked(line, from + |head| + (c - |head|)); }
    }
  }

  lemma NextPiece(line: string, from: nat)
    requires from < |line| && Between(line, from)
    ensures var (head, next) := MaskHead(line, from);
      && Between(line, next)
      && forall c :: 0 <= c < |head| ==> head[c] == Blanked(line, from + c)
  {
    var close := Find(line, "`", from + 1);
    Ticks(line, from + 1);
    if line[from] == '`' && close > from + 1 {
      SpanPiece(line, from, close);
    } else {
      assert !InCode(line, from);
    }
  }

  lemma Ticks(line: string, from: nat)
    requires from <= |line|
    ensures var close := Find(line, "`", from);
      && (close != -1 ==> from <= close < |line| && line[close] == '`')
      && forall k :: from <= k < |line| && (close == -1 || k < close) ==> line[k] != '`'
  {
    forall k | from <= k < |line|
      ensures At(line, k, "`") <==> line[k] == '`'
    {
    }
  }

  lemma SpanPiece(line: string, from: nat, close: nat)
    requires Between(line, from) && IsSpan(line, from, close)
    ensures Between(line, close + 1) && forall c :: from <= c <= close ==> InCode(line, c)
  {
    assert IsCode(line, from, close);
    forall a: nat, b: int | a < close + 1 && IsCode(line, a, b)
      ensures b < close + 1
    {
      if a == from { assert !(close < b) && !(b < close); }
    }
  }

  // The opener at o touches inline code.
  ghost predicate MeetsCode(line: string, o: int)
  {
    InCode(line, o) || InCode(line, o + 1) || InCode(line, o + 2) || InCode(line, o + 3)
  }

  /** A line of text in which every opener meets inline code is kept as it is and opens nothing. */
  lemma {:induction false} CodeIsKept(mode: Mode, line: string)
    requires mode != InComment && forall o :: At(line, o, "<!--") ==> MeetsCode(line, o)
    ensures Line(ReviewerView, mode, line).0 == Kept(line) && Line(ReviewerView, mode, line).1 != InComment
  {
    var start := Find(Mask(line), OPENER, 0);
    if start != -1 { MaskedOpener(line, start); }
    UnmarkedLineKept(mode, line);
  }

  lemma MaskedOpener(line: string, o: nat)
    requires At(Mask(line), o, OPENER)
    ensures At(line, o, "<!--") && !MeetsCode(line, o)
  {
    MaskIs(line);
    MarkAt(Mask(line), o, 0);
    MarkAt(Mask(line), o, 1);
    MarkAt(Mask(line), o, 2);
    MarkAt(Mask(line), o, 3);
    MaskedColumn(line, OPENER[0], o);
    MaskedColumn(line, OPENER[1], o + 1);
    MaskedColumn(line, OPENER[2], o + 2);
    MaskedColumn(line, OPENER[3], o + 3);
  }

  lemma MarkAt(m: string, o: nat, i: nat)
    requires At(m, o, OPENER) && i < 4
    ensures o + i < |m| && m[o + i] == OPENER[i]
  {
  }

  lemma MaskedColumn(line: string, x: char, c: nat)
    requires c < |line| && x == Blanked(line, c) != NUL
    ensures line[c] == x && !InCode(line, c)
  {
  }

  lemma OpenersOf(line: string, o: int)
    requires line == "`<!--` x" && At(line, o, "<!--")
    ensures o == 1
  {
    assert line[o + 0] == "<!--"[0];
  }

  /** For instance this one; without the backticks its rest is hidden. */
  lemma CodeExample(line: string)
    requires line == "`<!--` x"
    ensures Line(ReviewerView, InText, line).0 == Kept(line)
    ensures ReviewerView("" + "<!--" + " x") == ("", true)
  {
    assert IsSpan(line, 0, 5);
    assert IsCode(line, 0, 5);
    assert InCode(line, 1);
    forall o | At(line, o, "<!--")
      ensures MeetsCode(line, o)
    {
      OpenersOf(line, o);
    }
    CodeIsKept(InText, line);
    OpenedToTheEnd("", " x");
  }

  // ----- comments within a line -----

  lemma NoTicks(line: string)
    requires '`' !in line
    ensures Mask(line) == line
  {
    MaskIs(line);
    assert forall a: nat, b: int :: !IsCode(line, a, b);
    assert forall c :: 0 <= c < |line| ==> Mask(line)[c] == line[c];
  }

  lemma ClosedBehind(u: string, q: string, lo: nat, hi: nat)
    ensures ClosedBetween(u + q, |u| + lo, |u| + hi) <==> ClosedBetween(q, lo, hi)
  {
    if ClosedBetween(u + q, |u| + lo, |u| + hi) {
      var k :| |u| + lo <= k && k + 3 <= |u| + hi && At(u + q, k, CLOSER);
      AtShift(u, q, k - |u|, CLOSER);
      assert At(q, k - |u|, CLOSER);
    }
    if ClosedBetween(q, lo, hi) {
      var k :| lo <= k && k + 3 <= hi && At(q, k, CLOSER);
      AtShift(u, q, k, CLOSER);
      assert At(u + q, |u| + k, CLOSER);
    }
  }

  // Behind a front whose comments are closed, openers are live as if the line began there.
  lemma {:induction false} LiveBehind(u: string, m: string, q: string, y: string, o: nat)
    requires |m| == |u| && |y| == |q| && Outside(u + q, m + y, |u|)
    ensures Live(u + q, m + y, |u| + o) <==> Live(q, y, o)
    decreases o
  {
    var line, mask := u + q, m + y;
    AtShift(m, y, o, OPENER);
    forall p: nat | p < o
      ensures Live(line, mask, |u| + p) <==> Live(q, y, p)
      ensures ClosedBetween(line, |u| + p + 4, |u| + o) <==> ClosedBetween(q, p + 4, o)
    {
      LiveBehind(u, m, q, y, p);
      ClosedBehind(u, q, p + 4, o);
      assert |u| + p + 4 == |u| + (p + 4);
    }
    if Live(q, y, o) {
      forall p: nat | p < |u| + o && Live(line, mask, p)
        ensures ClosedBetween(line, p + 4, |u| + o)
      {
        if p < |u| {
          assert ClosedBetween(line, p + 4, |u|);
        } else {
          assert Live(line, mask, |u| + (p - |u|)) && Live(q, y, p - |u|);
          assert |u| + (p - |u|) + 4 == p + 4;
        }
      }
    }
    if Live(line, mask, |u| + o) {
      forall p: nat | p < o && Live(q, y, p)
        ensures ClosedBetween(q, p + 4, o)
      {
        assert Live(line, mask, |u| + p);
      }
    }
  }

  lemma FrontIsClosed(line: string, mask: string, n: nat, o: nat, c: nat)
    requires Outside(line, mask, n) && o < n <= c && Live(line, mask, o)
    ensures ClosedBetween(line, o + 4, c)
  {
    assert ClosedBetween(line, o + 4, n);
  }

  lemma HiddenBehind(u: string, m: string, q: string, y: string, c: nat)
    requires |m| == |u| && |y| == |q| && Outside(u + q, m + y, |u|)
    ensures Hidden(u + q, m + y, |u| + c) <==> Hidden(q, y, c)
  {
    var line, mask := u + q, m + y;
    forall o: nat | o < |u| && Live(line, mask, o)
      ensures ClosedBetween(line, o + 4, |u| + c)
    {
      FrontIsClosed(line, mask, |u|, o, |u| + c);
    }
    if o: nat :| o <= |u| + c && Live(line, mask, o) && !ClosedBetween(line, o + 4, |u| + c) {
      assert o >= |u|;
      LiveBehind(u, m, q, y, o - |u|);
      ClosedBehind(u, q, o - |u| + 4, c);
      assert |u| + (o - |u| + 4) == o + 4 && |u| + (o - |u|) == o;
    }
    if o: nat :| o <= c && Live(q, y, o) && !ClosedBetween(q, o + 4, c) {
      LiveBehind(u, m, q, y, o);
      ClosedBehind(u, q, o + 4, c);
      assert |u| + o + 4 == |u| + (o + 4);
    }
  }

  lemma {:induction false} VisibleBehind(u: string, q: string, g: seq<bool>, h: seq<bool>, c: nat)
    requires |g| == |u + q| && |h| == |q| && c <= |q|
    requires forall k :: 0 <= k < |q| ==> g[|u| + k] == h[k]
    ensures Visible(u + q, g, |u| + c) == Visible(u + q, g, |u|) + Visible(q, h, c)
  {
    if c > 0 { VisibleBehind(u, q, g, h, c - 1); }
  }

  /** Behind a front that closes its comments, a line shows what it would show if it began there. */
  lemma ViewBehind(u: string, q: string, shown: string)
    requires '`' !in u + q && Outside(u + q, u + q, |u|)
    requires Visible(u + q, HiddenColumns(u + q, u + q), |u|) == shown
    ensures ReviewerView(u + q) == (shown + ReviewerView(q).0, ReviewerView(q).1)
  {
    var g, h := HiddenColumns(u + q, u + q), HiddenColumns(q, q);
    NoTicks(u + q);
    NoTicks(q);
    ShownBehind(u, q, g, h);
  }

  lemma ShownBehind(u: string, q: string, g: seq<bool>, h: seq<bool>)
    requires Outside(u + q, u + q, |u|) && Marks(g, u + q, u + q) && Marks(h, q, q)
    ensures Visible(u + q, g, |u + q|) == Visible(u + q, g, |u|) + Visible(q, h, |q|)
    ensures Hidden(u + q, u + q, |u + q|) <==> Hidden(q, q, |q|)
  {
    ColumnsBehind(u, q, g, h);
    VisibleBehind(u, q, g, h, |q|);
    HiddenBehind(u, u, q, q, |q|);
    assert |u + q| == |u| + |q|;
  }

  lemma ColumnsBehind(u: string, q: string, g: seq<bool>, h: seq<bool>)
    requires Outside(u + q, u + q, |u|) && Marks(g, u + q, u + q) && Marks(h, q, q)
    ensures forall k :: 0 <= k < |q| ==> g[|u| + k] == h[k]
  {
    forall k | 0 <= k < |q|
      ensures g[|u| + k] == h[k]
    {
      HiddenBehind(u, u, q, q, k);
      assert g[|u| + k] == Hidden(u + q, u + q, |u| + k) && h[k] == Hidden(q, q, k);
    }
  }

  lemma FirstOpener(p: string, rest: string)
    requires Find(p, OPENER, 0) == -1
    ensures Find(p + OPENER + rest, OPENER, 0) == |p|
  {
    var s := p + OPENER + rest;
    assert s == p + (OPENER + rest) && At(s, |p|, OPENER);
    forall k | 0 <= k < |p|
      ensures !At(s, k, OPENER)
    {
      if k + 4 <= |p| {
        AtPrefix(p, OPENER + rest, k, OPENER);
      } else {
        assert s[k + (|p| - k)] == '<' != OPENER[|p| - k];
      }
    }
  }

  // The columns in front of the first opener are visible.
  lemma BeforeComment(line: string, mask: string, o: nat)
    requires |mask| == |line| && Find(mask, OPENER, 0) == o && o + 4 <= |line|
    ensures Live(line, mask, o) && Visible(line, HiddenColumns(line, mask), o) == line[..o]
  {
    var hid := HiddenColumns(line, mask);
    NextOpener(line, mask, 0, o);
    forall c: nat | c < o
      ensures !hid[c]
    {
      BeforeOpener(line, mask, 0, o, c);
    }
    VisibleRun(line, hid, 0, o);
    assert "" + line[0..o] == line[..o];
  }

  // The columns of a comment are not.
  lemma CommentHidden(line: string, mask: string, o: nat, end: nat)
    requires Live(line, mask, o) && o + 4 <= end <= |line|
    requires forall k :: o + 4 <= k && k + 3 < end ==> !At(line, k, CLOSER)
    ensures var hid := HiddenColumns(line, mask); Visible(line, hid, end) == Visible(line, hid, o)
  {
    var hid := HiddenColumns(line, mask);
    forall c: nat | o <= c < end
      ensures hid[c]
    {
      InsideComment(line, mask, o, c);
    }
    HiddenRun(line, hid, o, end);
  }

  // Those behind it are, as far as nothing else is opened.
  lemma RestVisible(line: string, mask: string, from: nat)
    requires |mask| == |line| && from <= |line| && Outside(line, mask, from) && Find(mask, OPENER, from) == -1
    ensures var hid := HiddenColumns(line, mask); Visible(line, hid, |line|) == Visible(line, hid, from) + line[from..]
    ensures !Hidden(line, mask, |line|)
  {
    var hid := HiddenColumns(line, mask);
    forall c: nat | from <= c <= |line|
      ensures !Hidden(line, mask, c)
    {
      NoOpenerAhead(line, mask, from, c);
    }
    VisibleRun(line, hid, from, |line|);
    assert line[from..] == line[from..|line|];
  }

  /** With one comment in the line, what stands before it and behind it is left.  Openers count outside code
      spans only, closers anywhere behind the whole opener. */
  lemma {:induction false} OneComment(line: string, o: nat, close: nat)
    requires Find(Mask(line), "<!--", 0) == o && o + 4 <= |line| && Find(line, "-->", o + 4) == close
    requires close + 3 <= |line| && Find(Mask(line), "<!--", close + 3) == -1
    ensures ReviewerView(line) == (line[..o] + line[close + 3..], false)
  {
    OneHidden(line, Mask(line), o, close);
  }

  lemma OneHidden(line: string, mask: string, o: nat, close: nat)
    requires |mask| == |line| && Find(mask, OPENER, 0) == o && o + 4 <= |line|
    requires Find(line, CLOSER, o + 4) == close && close + 3 <= |line| && Find(mask, OPENER, close + 3) == -1
    ensures Visible(line, HiddenColumns(line, mask), |line|) == line[..o] + line[close + 3..]
    ensures !Hidden(line, mask, |line|)
  {
    UpToCloser(line, mask, o, close);
    RestVisible(line, mask, close + 3);
  }

  lemma UpToCloser(line: string, mask: string, o: nat, close: nat)
    requires |mask| == |line| && Find(mask, OPENER, 0) == o && o + 4 <= |line|
    requires Find(line, CLOSER, o + 4) == close && close + 3 <= |line|
    ensures Outside(line, mask, close + 3) && Visible(line, HiddenColumns(line, mask), close + 3) == line[..o]
  {
    BeforeComment(line, mask, o);
    CommentHidden(line, mask, o, close + 3);
    OutsideAfterCloser(line, mask, o + 4, close);
  }

  lemma CloserBehind(u: string, body: string, q: string)
    requires Find(body, CLOSER, 0) == -1
    ensures Find(u + (body + CLOSER + q), CLOSER, |u|) == |u| + |body|
  {
    var s, line := body + CLOSER + q, u + (body + CLOSER + q);
    HiddenText.FirstCloser(body, q);
    forall k: nat
      ensures At(line, |u| + k, CLOSER) <==> At(s, k, CLOSER)
    {
      AtShift(u, s, k, CLOSER);
    }
    assert At(line, |u| + |body|, CLOSER);
    var r := Find(line, CLOSER, |u|);
    assert At(s, r - |u|, CLOSER);
  }

  /** A comment within a line leaves what stands before it and what is visible behind it.  Its body ends at the
      first closer behind the whole opener. */
  lemma {:induction false} CommentInLine(p: string, body: string, q: string)
    requires '`' !in p + body + q && Find(p, "<!--", 0) == -1 && Find(body, "-->", 0) == -1
    ensures ReviewerView(p + "<!--" + (body + "-->" + q)) == (p + ReviewerView(q).0, ReviewerView(q).1)
  {
    var u := p + OPENER + body + CLOSER;
    Regrouped(p, body, q);
    FirstOpener(p, body + CLOSER + q);
    CloserBehind(p + OPENER, body, q);
    ClosedFront(u, q, |p|, |p| + 4 + |body|);
    ViewBehind(u, q, p);
  }

  lemma Regrouped(p: string, body: string, q: string)
    requires '`' !in p + body + q
    ensures p + OPENER + (body + CLOSER + q) == p + OPENER + body + CLOSER + q
    ensures '`' !in p + OPENER + body + CLOSER + q && (p + OPENER + body + CLOSER + q)[..|p|] == p
  {
  }

  lemma ClosedFront(u: string, q: string, o: nat, close: nat)
    requires Find(u + q, OPENER, 0) == o && o + 4 <= |u| == close + 3 && Find(u + q, CLOSER, o + 4) == close
    ensures Outside(u + q, u + q, |u|) && Visible(u + q, HiddenColumns(u + q, u + q), |u|) == (u + q)[..o]
  {
    UpToCloser(u + q, u + q, o, close);
  }

  /** A comment that is not closed in its line hides the rest of the line. */
  lemma OpenedToTheEnd(p: string, body: string)
    requires '`' !in p + body && Find(p, "<!--", 0) == -1 && Find(body, "-->", 0) == -1
    ensures ReviewerView(p + "<!--" + body) == (p, true)
  {
    var line := p + OPENER + body;
    FirstOpener(p, body);
    NoCloserBehind(p + OPENER, body);
    NoTicks(line);
    HidesRest(line, |p|);
    assert line[..|p|] == p;
  }

  lemma NoCloserBehind(u: string, body: string)
    requires Find(body, CLOSER, 0) == -1
    ensures forall k :: |u| <= k ==> !At(u + body, k, CLOSER)
  {
    forall k | |u| <= k
      ensures !At(u + body, k, CLOSER)
    {
      AtShift(u, body, k - |u|, CLOSER);
    }
  }

  lemma HidesRest(line: string, o: nat)
    requires Find(line, OPENER, 0) == o && o + 4 <= |line| && forall k :: o + 4 <= k ==> !At(line, k, CLOSER)
    ensures Visible(line, HiddenColumns(line, line), |line|) == line[..o] && Hidden(line, line, |line|)
  {
    BeforeComment(line, line, o);
    CommentHidden(line, line, o, |line|);
    InsideComment(line, line, o, |line|);
  }

  // ----- texts without comments -----

  lemma {:induction false} NoOpenerKeeps(mode: Mode, lines: seq<string>)
    requires mode != InComment && forall k :: 0 <= k < |lines| ==> Find(lines[k], OPENER, 0) == -1
    ensures Render(ReviewerView, mode, lines) == lines
    decreases lines
  {
    if lines != [] {
      var start := Find(Mask(lines[0]), OPENER, 0);
      if start != -1 { MaskedOpener(lines[0], start); }
      UnmarkedLineKept(mode, lines[0]);
      NoOpenerKeeps(Line(ReviewerView, mode, lines[0]).1, lines[1..]);
    }
  }

  /** A text in which no comment is opened is left as it is. */
  lemma {:induction false} NothingToStrip(text: string)
    requires Find(text, "<!--", 0) == -1
    ensures Strip(text) == text
  {
    var lines := Split(text, '\n');
    forall k | 0 <= k < |lines|
      ensures Find(lines[k], OPENER, 0) == -1
    {
      var i := Find(lines[k], OPENER, 0);
      if i != -1 {
        var j := HiddenText.PieceOccurs(text, '\n', k, i, OPENER);
        assert false;
      }
    }
    NoOpenerKeeps(InText, lines);
    JoinSplit(text, '\n');
  }
}
