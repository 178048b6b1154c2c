/** The lines of a text: where they are cut, with and without the breaks that end them. */
module TextLines {
  import opened Text

  predicate IsBreak(c: char)
  {
    '\n' <= c <= '\r' || '\U{1C}' <= c <= '\U{1E}' || c == '\U{85}' || c == '\U{2028}' || c == '\U{2029}'
  }

  /** The breaks are these ten characters, all of them white space. */
  lemma BreaksAre(breaks: set<char>)
    requires breaks == {'\n', '\U{0B}', '\U{0C}', '\r', '\U{1C}', '\U{1D}', '\U{1E}', '\U{85}', '\U{2028}', '\U{2029}'}
    ensures |breaks| == 10 && forall c :: IsBreak(c) <==> c in breaks
    ensures forall c :: c in breaks ==> IsSpace(c)
  {
  }

  // How many elements precede the first break.
  function LineLength<T>(isBreak: T -> bool, s: seq<T>): (k: nat)
    ensures k <= |s| && (k < |s| ==> isBreak(s[k]))
    ensures forall i :: 0 <= i < k ==> !isBreak(s[i])
  {
    if s == [] || isBreak(s[0]) then 0 else 1 + LineLength(isBreak, s[1..])
  }

  lemma {:induction false} LineLengthIs<T>(isBreak: T -> bool, s: seq<T>, k: nat)
    requires k <= |s| && (k < |s| ==> isBreak(s[k]))
    requires forall i :: 0 <= i < k ==> !isBreak(s[i])
    ensures LineLength(isBreak, s) == k
  {
    if k > 0 {
      assert s[0] == s[0..][0];
      LineLengthIs(isBreak, s[1..], k - 1);
    }
  }

  // Where the first line ends and its break is over; a carriage return takes a line feed with it.
  function LineEnd(s: string): (n: nat)
    requires s != ""
    ensures LineLength(IsBreak, s) <= n <= |s| && 0 < n
    ensures n <= LineLength(IsBreak, s) + 2
  {
    var k := LineLength(IsBreak, s);
    if k == |s| then k
    else if s[k] == '\r' && k + 1 < |s| && s[k + 1] == '\n' then k + 2
    else k + 1
  }

  // The lines without their breaks.
  function SplitLines(s: string): seq<string>
    decreases |s|
  {
    if s == "" then [] else [s[..LineLength(IsBreak, s)]] + SplitLines(s[LineEnd(s)..])
  }

  // The lines with their breaks.
  function KeepEnds(s: string): seq<string>
    decreases |s|
  {
    if s == "" then [] else [s[..LineEnd(s)]] + KeepEnds(s[LineEnd(s)..])
  }

  predicate BreakFree(line: string)
  {
    forall i :: 0 <= i < |line| ==> !IsBreak(line[i])
  }

  // The text of a diff: every line ends in a line feed.
  function TextOf(lines: seq<string>): string
  {
    if lines == [] then "" else lines[0] + "\n" + TextOf(lines[1..])
  }

  // ----- lines that are cut again -----

  // What one line that ends in a line feed is cut into.
  function Pieces(line: string): seq<string> { SplitLines(line + "\n") }

  function Cut(lines: seq<string>): seq<string>
  {
    if lines == [] then [] else Pieces(lines[0]) + Cut(lines[1..])
  }

  function FirstPiece(line: string): (r: string)
    ensures r <= line && BreakFree(r)
  {
    line[..LineLength(IsBreak, line)]
  }

  // The pieces behind the first one.
  function Tail(line: string): seq<string>
  {
    SplitLines((line + "\n")[LineEnd(line + "\n")..])
  }

  // The first line ends where it ends without what follows the line feed.
  lemma FirstBreak(line: string, rest: string)
    ensures var s, t := line + "\n" + rest, line + "\n";
      && LineLength(IsBreak, s) == LineLength(IsBreak, t) == LineLength(IsBreak, line)
      && LineEnd(s) == LineEnd(t) <= |t|
  {
    var k := LineLength(IsBreak, line);
    var s, t := line + "\n" + rest, line + "\n";
    assert forall i :: 0 <= i < |line| ==> s[i] == t[i] == line[i];
    assert s[|line|] == t[|line|] == '\n';
    LineLengthIs(IsBreak, s, k);
    LineLengthIs(IsBreak, t, k);
  }

  lemma PiecesAre(line: string)
    ensures Pieces(line) == [FirstPiece(line)] + Tail(line)
  {
    FirstBreak(line, "");
    SplitOff(line + "\n", line, "\n");
  }

  // The front of a longer text as the front of its own first part.
  lemma SplitOff(s: string, line: string, rest: string)
    requires s == line + rest && s != "" && LineLength(IsBreak, s) == LineLength(IsBreak, line)
    ensures SplitLines(s) == [FirstPiece(line)] + SplitLines(s[LineEnd(s)..])
  {
    assert s[..LineLength(IsBreak, s)] == line[..LineLength(IsBreak, line)];
  }

  lemma DropBoth(line: string, rest: string, n: nat)
    requires n <= |line|
    ensures (line + "\n" + rest)[n..] == line[n..] + "\n" + rest && (line + "\n")[n..] == line[n..] + "\n"
  {
  }

  lemma {:induction false} PiecesThenRest(line: string, rest: string)
    ensures SplitLines(line + "\n" + rest) == Pieces(line) + SplitLines(rest)
    decreases |line|
  {
    var s, t := line + "\n" + rest, line + "\n";
    FirstBreak(line, rest);
    assert s == line + ("\n" + rest);
    SplitOff(s, line, "\n" + rest);
    SplitOff(t, line, "\n");
    var n := LineEnd(t);
    if n < |t| {
      DropBoth(line, rest, n);
      PiecesThenRest(line[n..], rest);
    } else {
      NothingLeft(s, t, rest);
    }
    Assoc([FirstPiece(line)], SplitLines(t[n..]), SplitLines(rest));
  }

  lemma NothingLeft(s: string, t: string, rest: string)
    requires s == t + rest
    ensures SplitLines(s[|t|..]) == SplitLines(t[|t|..]) + SplitLines(rest)
  {
    assert s[|t|..] == rest;
    assert t[|t|..] == "";
  }

  lemma Assoc(xs: seq<string>, ys: seq<string>, zs: seq<string>)
    ensures xs + ys + zs == xs + (ys + zs)
  {
  }

  /** Splitting a text cuts its lines one by one. */
  lemma {:induction false} SplitLinesOfText(lines: seq<string>)
    ensures SplitLines(TextOf(lines)) == Cut(lines)
  {
    if lines != [] {
      PiecesThenRest(lines[0], TextOf(lines[1..]));
      SplitLinesOfText(lines[1..]);
    }
  }

  lemma {:induction false} CutAppend(xs: seq<string>, ys: seq<string>)
    ensures Cut(xs + ys) == Cut(xs) + Cut(ys)
  {
    if xs == [] {
      assert xs + ys == ys;
    } else {
      assert (xs + ys)[1..] == xs[1..] + ys;
      CutAppend(xs[1..], ys);
    }
  }

  lemma CutFirst(raws: seq<string>)
    requires raws != []
    ensures Cut(raws) == [FirstPiece(raws[0])] + (Tail(raws[0]) + Cut(raws[1..])) && raws == [raws[0]] + raws[1..]
  {
    PiecesAre(raws[0]);
    CutParts(raws, FirstPiece(raws[0]), Tail(raws[0]));
  }

  lemma CutParts(raws: seq<string>, first: string, tail: seq<string>)
    requires raws != [] && Pieces(raws[0]) == [first] + tail
    ensures Cut(raws) == [first] + (tail + Cut(raws[1..]))
  {
    Assoc([first], tail, Cut(raws[1..]));
  }

  lemma BreakFreePiece(line: string)
    requires BreakFree(line)
    ensures FirstPiece(line) == line && Tail(line) == [] && Pieces(line) == [line]
  {
    LineLengthIs(IsBreak, line, |line|);
    PiecesAre(line);
  }

  lemma PiecesBeforeReturn(x: string)
    requires BreakFree(x)
    ensures FirstPiece(x + "\r") == x && Tail(x + "\r") == []
  {
    LineLengthIs(IsBreak, x + "\r", |x|);
    var t := x + "\r" + "\n";
    assert t[..|x|] == x && t[|x|] == '\r' && t[|x| + 1] == '\n' && |t| == |x| + 2;
    LineLengthIs(IsBreak, t, |x|);
    TailIs(x + "\r", t, |x| + 2, "");
  }

  lemma PieceUpTo(x: string, c: char, text: string)
    requires BreakFree(x) && IsBreak(c) && text != "" && BreakFree(text)
    ensures FirstPiece(x + ([c] + text)) == x && Tail(x + ([c] + text)) == [text]
  {
    var t := [c] + text + "\n";
    LineLengthIs(IsBreak, [c] + text, 0);
    LineLengthIs(IsBreak, t, 0);
    assert t[1] == text[0] && t[1..] == text + "\n";
    PieceBehind(x, [c] + text);
    assert x + "" == x;
    TailIs([c] + text, t, 1, text + "\n");
    BreakFreePiece(text);
  }

  lemma {:induction false} SplitLinesAreBreakFree(s: string)
    ensures forall k :: 0 <= k < |SplitLines(s)| ==> BreakFree(SplitLines(s)[k])
    decreases |s|
  {
    if s != "" {
      SplitLinesAreBreakFree(s[LineEnd(s)..]);
      var first := s[..LineLength(IsBreak, s)];
      assert BreakFree(first);
    }
  }

  lemma {:induction false} CutIsBreakFree(lines: seq<string>)
    ensures forall k :: 0 <= k < |Cut(lines)| ==> BreakFree(Cut(lines)[k])
  {
    if lines != [] {
      SplitLinesAreBreakFree(lines[0] + "\n");
      CutIsBreakFree(lines[1..]);
    }
  }

  lemma {:induction false} CutNothing(lines: seq<string>)
    requires forall k :: 0 <= k < |lines| ==> BreakFree(lines[k])
    ensures Cut(lines) == lines
  {
    if lines != [] {
      BreakFreePiece(lines[0]);
      CutNothing(lines[1..]);
    }
  }

  lemma FirstPieceBehind(front: string, line: string)
    requires BreakFree(front)
    ensures LineLength(IsBreak, front + line) == |front| + LineLength(IsBreak, line)
    ensures FirstPiece(front + line) == front + FirstPiece(line)
  {
    var k := LineLength(IsBreak, line);
    var s := front + line;
    assert forall i :: 0 <= i < |line| ==> s[|front| + i] == line[i];
    LineLengthIs(IsBreak, s, |front| + k);
    assert s[..|front| + k] == front + line[..k];
  }

  lemma EndBehind(front: string, line: string)
    requires BreakFree(front) && line != ""
    ensures LineEnd(front + line) == |front| + LineEnd(line)
  {
    FirstPieceBehind(front, line);
    var s, k := front + line, LineLength(IsBreak, line);
    assert k < |line| ==> s[|front| + k] == line[k];
    assert k + 1 < |line| ==> s[|front| + (k + 1)] == line[k + 1];
  }

  lemma TailIs(line: string, t: string, n: nat, rest: string)
    requires t == line + "\n" && n == LineEnd(t) && rest == t[n..]
    ensures Tail(line) == SplitLines(rest)
  {
  }

  // A front without a break stays with the first piece.
  lemma PieceBehind(front: string, line: string)
    requires BreakFree(front)
    ensures FirstPiece(front + line) == front + FirstPiece(line)
    ensures Tail(front + line) == Tail(line)
  {
    FirstPieceBehind(front, line);
    SameTail(front, line, line + "\n");
  }

  lemma SameTail(front: string, line: string, t: string)
    requires BreakFree(front) && t == line + "\n"
    ensures Tail(front + line) == Tail(line)
  {
    var n := LineEnd(t);
    EndBehind(front, t);
    DropFront(front, t, n);
    TailIs(line, t, n, t[n..]);
    assert front + t == front + line + "\n";
    TailIs(front + line, front + t, |front| + n, t[n..]);
  }

  lemma DropFront(front: string, t: string, n: nat)
    requires n <= |t|
    ensures (front + t)[|front| + n..] == t[n..]
  {
  }

  lemma {:induction false} SplitAtNewlines(lines: seq<string>)
    requires forall k :: 0 <= k < |lines| ==> '\n' !in lines[k]
    ensures Split(TextOf(lines), '\n') == lines + [""]
  {
    if lines != [] {
      SplitAtNewlines(lines[1..]);
      var rest := TextOf(lines[1..]);
      SplitOne(lines[0], '\n');
      SplitAppend(lines[0], "\n" + rest, '\n');
      assert ("\n" + rest)[1..] == rest;
      assert lines[0] + "\n" + rest == lines[0] + ("\n" + rest);
      assert lines[0] + "" == lines[0];
    }
  }

  // ----- decoding -----

  predicate IsReturn(c: char) { c == '\r' }

  // What reading in text mode makes of line ends: a carriage return, with the line feed behind it if
  // there is one, becomes a line feed.
  function Decode(s: string): string
    decreases |s|
  {
    if s == "" then ""
    else if s[0] != '\r' then [s[0]] + Decode(s[1..])
    else if |s| > 1 && s[1] == '\n' then "\n" + Decode(s[2..])
    else "\n" + Decode(s[1..])
  }

  lemma {:induction false} DecodePlain(a: string, r: string)
    requires '\r' !in a
    ensures Decode(a + r) == a + Decode(r)
  {
    if a == "" {
      assert a + r == r;
      assert a + Decode(r) == Decode(r);
    } else {
      assert (a + r)[1..] == a[1..] + r;
      DecodePlain(a[1..], r);
      assert a == [a[0]] + a[1..];
    }
  }

  // The break that ends the first line, decoded.
  function BreakOf(s: string): string
    requires s != ""
  {
    var k := LineLength(IsBreak, s);
    if k == |s| then "" else if s[k] == '\r' then "\n" else [s[k]]
  }

  lemma DecodeLine(s: string)
    requires s != ""
    ensures Decode(s) == s[..LineLength(IsBreak, s)] + (BreakOf(s) + Decode(s[LineEnd(s)..]))
  {
    var k, n := LineLength(IsBreak, s), LineEnd(s);
    var line, rest := s[..k], s[k..];
    assert s == line + rest;
    assert forall i :: 0 <= i < k ==> !IsBreak(line[i]);
    DecodePlain(line, rest);
    if k == |s| {
      assert rest == "" && s[n..] == "";
    } else {
      assert rest[0] == s[k] && (|rest| > 1 ==> rest[1] == s[k + 1]);
      assert rest[n - k..] == s[n..];
    }
  }

  lemma SplitFirst(line: string, br: string, rest: string)
    requires BreakFree(line) && br != "\r" && |br| == 1 && IsBreak(br[0])
    ensures SplitLines(line + (br + rest)) == [line] + SplitLines(rest)
  {
    var s := line + (br + rest);
    assert forall i :: 0 <= i < |line| ==> s[i] == line[i];
    assert s[|line|] == br[0];
    LineLengthIs(IsBreak, s, |line|);
    assert s[..|line|] == line && s[|line| + 1..] == rest;
  }

  /** Splitting at every kind of break gives the same lines before and after decoding. */
  lemma {:induction false} SplitDecoded(s: string)
    ensures SplitLines(Decode(s)) == SplitLines(s)
    decreases |s|
  {
    if s != "" {
      var k, n := LineLength(IsBreak, s), LineEnd(s);
      DecodeLine(s);
      SplitDecoded(s[n..]);
      if k < |s| {
        SplitFirst(s[..k], BreakOf(s), Decode(s[n..]));
      } else {
        assert s[n..] == "" && s[..k] == s;
        assert s + ("" + "") == s;
      }
    }
  }

  // What a line that ends in a line feed is decoded into, cut at the line feeds.
  function ReturnPieces(line: string): (r: seq<string>)
    ensures |r| >= 1
    decreases |line|
  {
    var k := LineLength(IsReturn, line);
    if k + 1 < |line| then [line[..k]] + ReturnPieces(line[k + 1..]) else [line[..k]]
  }

  function ReturnCut(lines: seq<string>): seq<string>
  {
    if lines == [] then [] else ReturnPieces(lines[0]) + ReturnCut(lines[1..])
  }

  lemma {:induction false} TextOfAppend(xs: seq<string>, ys: seq<string>)
    ensures TextOf(xs + ys) == TextOf(xs) + TextOf(ys)
  {
    if xs == [] {
      assert xs + ys == ys;
    } else {
      assert (xs + ys)[1..] == xs[1..] + ys;
      TextOfAppend(xs[1..], ys);
      assert xs[0] + "\n" + (TextOf(xs[1..]) + TextOf(ys)) == xs[0] + "\n" + TextOf(xs[1..]) + TextOf(ys);
    }
  }

  // What follows the first carriage return of a line, or the line.
  function BehindReturn(line: string, rest: string): string
  {
    var k := LineLength(IsReturn, line);
    if k + 1 < |line| then line[k + 1..] + ("\n" + rest) else rest
  }

  lemma DecodeReturn(t: string, next: string)
    requires t != "" && (if t[0] == '\r' then |t| > 1 && next == if t[1] == '\n' then t[2..] else t[1..]
                         else t[0] == '\n' && next == t[1..])
    ensures Decode(t) == "\n" + Decode(next)
  {
  }

  // Decoding up to there.
  lemma DecodeToReturn(line: string, rest: string)
    requires '\n' !in line
    ensures Decode(line + ("\n" + rest))
         == line[..LineLength(IsReturn, line)] + ("\n" + Decode(BehindReturn(line, rest)))
  {
    var k, s := LineLength(IsReturn, line), line + ("\n" + rest);
    assert s == line[..k] + s[k..];
    DecodePlain(line[..k], s[k..]);
    assert s[k..] == line[k..] + ("\n" + rest);
    ReturnNext(line[k..], rest);
    DecodeReturn(s[k..], BehindReturn(line, rest));
  }

  lemma ReturnNext(line: string, rest: string)
    requires '\n' !in line && (line != "" ==> line[0] == '\r')
    ensures var t := line + ("\n" + rest);
      && t[0] == (if line == "" then '\n' else '\r') && |t| > |line|
      && (line == "" ==> t[1..] == rest)
      && (|line| == 1 ==> t[1] == '\n' && t[2..] == rest)
      && (|line| > 1 ==> t[1] == line[1] != '\n' && t[1..] == line[1..] + ("\n" + rest))
  {
  }

  lemma {:induction false} DecodeOfLine(line: string, rest: string)
    requires '\n' !in line
    ensures Decode(line + ("\n" + rest)) == TextOf(ReturnPieces(line)) + Decode(rest)
    decreases |line|
  {
    var k := LineLength(IsReturn, line);
    DecodeToReturn(line, rest);
    if k + 1 < |line| {
      DecodeOfLine(line[k + 1..], rest);
      FirstOfText(line[..k], ReturnPieces(line[k + 1..]), Decode(rest));
    } else {
      FirstOfText(line[..k], [], Decode(rest));
    }
  }

  lemma FirstOfText(first: string, more: seq<string>, rest: string)
    ensures TextOf([first] + more) + rest == first + ("\n" + (TextOf(more) + rest))
  {
    assert ([first] + more)[1..] == more;
  }

  lemma {:induction false} DecodeText(lines: seq<string>)
    requires forall k :: 0 <= k < |lines| ==> '\n' !in lines[k]
    ensures Decode(TextOf(lines)) == TextOf(ReturnCut(lines))
  {
    if lines != [] {
      var line, more := lines[0], lines[1..];
      assert TextOf(lines) == line + ("\n" + TextOf(more));
      DecodeOfLine(line, TextOf(more));
      DecodeText(more);
      TextOfAppend(ReturnPieces(line), ReturnCut(more));
    }
  }

  lemma {:induction false} ReturnPiecesKeep(line: string)
    requires '\n' !in line
    ensures forall k :: 0 <= k < |ReturnPieces(line)| ==> '\n' !in ReturnPieces(line)[k]
    decreases |line|
  {
    var k := LineLength(IsReturn, line);
    if k + 1 < |line| { ReturnPiecesKeep(line[k + 1..]); }
  }

  lemma {:induction false} ReturnCutKeeps(lines: seq<string>)
    requires forall k :: 0 <= k < |lines| ==> '\n' !in lines[k]
    ensures forall k :: 0 <= k < |ReturnCut(lines)| ==> '\n' !in ReturnCut(lines)[k]
  {
    if lines != [] {
      ReturnPiecesKeep(lines[0]);
      ReturnCutKeeps(lines[1..]);
    }
  }

  lemma {:induction false} ReturnCutAppend(xs: seq<string>, ys: seq<string>)
    ensures ReturnCut(xs + ys) == ReturnCut(xs) + ReturnCut(ys)
  {
    if xs == [] {
      assert xs + ys == ys;
    } else {
      assert (xs + ys)[1..] == xs[1..] + ys;
      ReturnCutAppend(xs[1..], ys);
    }
  }

  /** Cutting at every break cuts what carriage returns have cut off already. */
  lemma PiecesOfReturns(line: string)
    requires '\n' !in line
    ensures Pieces(line) == Cut(ReturnPieces(line))
  {
    DecodeOfLine(line, "");
    assert line + ("\n" + "") == line + "\n";
    assert TextOf(ReturnPieces(line)) + Decode("") == TextOf(ReturnPieces(line));
    SplitDecoded(line + "\n");
    SplitLinesOfText(ReturnPieces(line));
  }

  // ----- lines with their breaks -----

  function Flat(lines: seq<string>): string
  {
    if lines == [] then "" else lines[0] + Flat(lines[1..])
  }

  lemma {:induction false} FlatKeepEnds(s: string)
    ensures Flat(KeepEnds(s)) == s
    decreases |s|
  {
    if s != "" {
      FlatKeepEnds(s[LineEnd(s)..]);
      assert s == s[..LineEnd(s)] + s[LineEnd(s)..];
    }
  }

  // A line that ends in a break.
  predicate Ended(line: string) { LineLength(IsBreak, line) < |line| }

  // A carriage return and a line feed that would become one break.
  predicate Joins(a: string, b: string)
  {
    a != "" && a[|a| - 1] == '\r' && b != "" && b[0] == '\n'
  }

  predicate IsLine(line: string) { line != "" && LineEnd(line) == |line| }

  // Lines as a file has them: every one but the last is ended, and no two breaks run together.
  predicate Laid(lines: seq<string>)
  {
    lines != [] ==>
      && IsLine(lines[0]) && Laid(lines[1..])
      && (|lines| > 1 ==> Ended(lines[0]) && !Joins(lines[0], lines[1]))
  }

  lemma LineEndBefore(line: string, rest: string)
    requires IsLine(line) && Ended(line) && !Joins(line, rest)
    ensures LineEnd(line + rest) == |line|
    ensures (line + rest)[..|line|] == line && (line + rest)[|line|..] == rest
  {
    var s, k := line + rest, LineLength(IsBreak, line);
    assert forall i :: 0 <= i < |line| ==> s[i] == line[i];
    LineLengthIs(IsBreak, s, k);
    assert rest != "" ==> s[|line|] == rest[0];
  }

  lemma FlatFirst(lines: seq<string>)
    requires |lines| > 1 && Laid(lines)
    ensures lines[1] != "" && Flat(lines[1..]) != "" && Flat(lines[1..])[0] == lines[1][0]
  {
    assert lines[1..][0] == lines[1];
  }

  lemma {:induction false} LaidIsKept(lines: seq<string>)
    requires Laid(lines)
    ensures KeepEnds(Flat(lines)) == lines
  {
    if |lines| == 1 {
      assert Flat(lines[1..]) == "" && lines[0] + "" == lines[0];
      assert lines[0][|lines[0]|..] == "" && lines[0][..|lines[0]|] == lines[0];
    } else if |lines| > 1 {
      FlatFirst(lines);
      LineEndBefore(lines[0], Flat(lines[1..]));
      LaidIsKept(lines[1..]);
    }
  }

  lemma FirstIsLine(s: string, line: string)
    requires s != "" && line == s[..LineEnd(s)]
    ensures IsLine(line) && LineLength(IsBreak, line) == LineLength(IsBreak, s)
  {
    LineLengthIs(IsBreak, line, LineLength(IsBreak, s));
  }

  lemma FirstIsEnded(s: string, line: string)
    requires s != "" && line == s[..LineEnd(s)] && LineEnd(s) < |s|
    ensures Ended(line) && !Joins(line, s[LineEnd(s)..])
  {
    var n := LineEnd(s);
    FirstIsLine(s, line);
    assert line[n - 1] == s[n - 1] && s[n..][0] == s[n];
  }

  lemma {:induction false} KeptIsLaid(s: string)
    ensures Laid(KeepEnds(s))
    decreases |s|
  {
    if s != "" {
      var n := LineEnd(s);
      var line, rest := s[..n], s[n..];
      FirstIsLine(s, line);
      if rest != "" { FirstIsEnded(s, line); }
      KeptIsLaid(rest);
      assert KeepEnds(s)[1..] == KeepEnds(rest);
      if rest != "" { assert KeepEnds(rest)[0][0] == rest[0]; }
    }
  }

  /** A list of lines is what its text is cut into if and only if it is laid out like a file. */
  lemma LaidIff(lines: seq<string>)
    ensures KeepEnds(Flat(lines)) == lines <==> Laid(lines)
  {
    KeptIsLaid(Flat(lines));
    if Laid(lines) { LaidIsKept(lines); }
  }
}
