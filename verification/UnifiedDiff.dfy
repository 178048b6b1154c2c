/** Edit scripts, their rendering as a zero-context unified diff, and the reading of its hunk headers. */
module UnifiedDiff {
  import opened Text
  import opened TextLines
  import opened Decimal

  // Unchanged lines, then a change.  A script may end in a block without a change.
  datatype Block = Block(keep: seq<string>, del: seq<string>, ins: seq<string>, heading: string)

  function OldFile(script: seq<Block>): seq<string>
  {
    if script == [] then [] else script[0].keep + script[0].del + OldFile(script[1..])
  }

  function NewFile(script: seq<Block>): seq<string>
  {
    if script == [] then [] else script[0].keep + script[0].ins + NewFile(script[1..])
  }

  function Prefixed(mark: string, lines: seq<string>): (r: seq<string>)
    ensures |r| == |lines|
    ensures forall k :: 0 <= k < |lines| ==> r[k] == mark + lines[k]
  {
    if lines == [] then [] else [mark + lines[0]] + Prefixed(mark, lines[1..])
  }

  datatype Hunk = Hunk(start: nat, count: nat)

  // How the first line of a hunk is printed and read back.
  datatype Format = Format(header: (nat, nat, Block) -> string, read: string -> Option<Hunk>)

  // A range of n lines after the first `before` ones; an empty range names the line before it.
  function Range(before: nat, n: nat): string
  {
    Print(if n == 0 then before else before + 1) + (if n == 1 then "" else "," + Print(n))
  }

  function HunkHeader(o: nat, n: nat, b: Block): string
  {
    "@@ -" + (Range(o, |b.del|) + (" +" + (Range(n, |b.ins|) + (" @@" + b.heading))))
  }

  function HunkOf(f: Format, o: nat, n: nat, b: Block): seq<string>
  {
    if b.del == [] && b.ins == [] then []
    else [f.header(o, n, b)] + Prefixed("-", b.del) + Prefixed("+", b.ins)
  }

  // A block's change with the numbers of old and new lines before it.
  datatype Placed = Placed(o: nat, n: nat, b: Block)

  function Place(script: seq<Block>, o: nat, n: nat): seq<Placed>
  {
    if script == [] then []
    else
      var b := script[0];
      var o1, n1 := o + |b.keep|, n + |b.keep|;
      [Placed(o1, n1, b)] + Place(script[1..], o1 + |b.del|, n1 + |b.ins|)
  }

  lemma {:induction false} PlacedBlocks(script: seq<Block>, o: nat, n: nat)
    ensures |Place(script, o, n)| == |script|
    ensures forall i :: 0 <= i < |script| ==> Place(script, o, n)[i].b == script[i]
  {
    if script != [] {
      var b := script[0];
      PlacedBlocks(script[1..], o + |b.keep| + |b.del|, n + |b.keep| + |b.ins|);
    }
  }

  // The hunks in order; `hunk` prints one of them.
  function PrintHunks(hunk: Placed -> seq<string>, ps: seq<Placed>): seq<string>
  {
    if ps == [] then [] else hunk(ps[0]) + PrintHunks(hunk, ps[1..])
  }

  function Render(hunk: Placed -> seq<string>, script: seq<Block>): seq<string>
  {
    PrintHunks(hunk, Place(script, 0, 0))
  }

  // ----- what was inserted -----

  // The inserted lines with their line numbers in the new file, n new lines preceding the script.
  function Numbered(n: nat, lines: seq<string>): (r: seq<(nat, string)>)
    ensures |r| == |lines|
    ensures forall k :: 0 <= k < |r| ==> r[k] == (n + 1 + k, lines[k])
  {
    seq(|lines|, k requires 0 <= k < |lines| => (n + 1 + k, lines[k]))
  }

  function Gather(ps: seq<Placed>): seq<(nat, string)>
  {
    if ps == [] then [] else Numbered(ps[0].n, ps[0].b.ins) + Gather(ps[1..])
  }

  function Inserted(script: seq<Block>): seq<(nat, string)>
  {
    Gather(Place(script, 0, 0))
  }

  /** A listed number is the position of that very line in the new file. */
  lemma {:induction false} InsertedPosition(script: seq<Block>, o: nat, n: nat, k: nat)
    requires k < |Gather(Place(script, o, n))|
    ensures var (number, line) := Gather(Place(script, o, n))[k];
      n < number <= n + |NewFile(script)| && NewFile(script)[number - n - 1] == line
  {
    var b := script[0];
    var o1, n1 := o + |b.keep|, n + |b.keep|;
    assert Place(script, o, n)[1..] == Place(script[1..], o1 + |b.del|, n1 + |b.ins|);
    if k >= |b.ins| { InsertedPosition(script[1..], o1 + |b.del|, n1 + |b.ins|, k - |b.ins|); }
  }

  /** The listed numbers increase strictly. */
  lemma {:induction false} InsertedIncreasing(script: seq<Block>, o: nat, n: nat, j: nat, k: nat)
    requires j < k < |Gather(Place(script, o, n))|
    ensures Gather(Place(script, o, n))[j].0 < Gather(Place(script, o, n))[k].0
  {
    var b := script[0];
    var o1, n1 := o + |b.keep|, n + |b.keep|;
    assert Place(script, o, n)[1..] == Place(script[1..], o1 + |b.del|, n1 + |b.ins|);
    if j >= |b.ins| {
      InsertedIncreasing(script[1..], o1 + |b.del|, n1 + |b.ins|, j - |b.ins|, k - |b.ins|);
    } else if k >= |b.ins| {
      InsertedPosition(script[1..], o1 + |b.del|, n1 + |b.ins|, k - |b.ins|);
    }
  }

  // The lines that are neither removed nor added.
  function Unchanged(script: seq<Block>): seq<string>
  {
    if script == [] then [] else script[0].keep + Unchanged(script[1..])
  }

  /** And there are as many as there are new lines that are not in the old file. */
  lemma {:induction false} InsertedAll(script: seq<Block>, o: nat, n: nat)
    ensures |Gather(Place(script, o, n))| + |Unchanged(script)| == |NewFile(script)|
  {
    if script != [] {
      var b := script[0];
      InsertedAll(script[1..], o + |b.keep| + |b.del|, n + |b.keep| + |b.ins|);
    }
  }

  // The lines from `at` on are these.
  predicate Stands(file: seq<string>, at: int, lines: seq<string>)
  {
    0 <= at && at + |lines| <= |file| && file[at..at + |lines|] == lines
  }

  lemma StandsBehind(front: seq<string>, file: seq<string>, at: int, lines: seq<string>)
    requires Stands(file, at, lines)
    ensures Stands(front + file, |front| + at, lines)
  {
    assert (front + file)[|front| + at..|front| + at + |lines|] == file[at..at + |lines|];
  }

  lemma StandsInFront(front: seq<string>, lines: seq<string>, rest: seq<string>)
    ensures Stands(front + lines + rest, |front|, lines)
  {
    assert (front + lines + rest)[|front|..|front| + |lines|] == lines;
  }

  lemma PlaceStep(script: seq<Block>, o: nat, n: nat, i: nat)
    requires i < |script| == |Place(script, o, n)|
    ensures var b, rest, p := script[0], script[1..], Place(script, o, n)[i];
      var o1, n1 := o + |b.keep| + |b.del|, n + |b.keep| + |b.ins|;
      && |Place(rest, o1, n1)| == |rest|
      && p == if i == 0 then Placed(o + |b.keep|, n + |b.keep|, b) else Place(rest, o1, n1)[i - 1]
  {
  }

  lemma {:induction false} RemovedStand(script: seq<Block>, o: nat, n: nat, i: nat)
    requires i < |script| == |Place(script, o, n)|
    ensures Stands(OldFile(script), Place(script, o, n)[i].o - o, script[i].del)
  {
    var b, rest, at := script[0], script[1..], Place(script, o, n)[i].o;
    var o1, n1 := o + |b.keep| + |b.del|, n + |b.keep| + |b.ins|;
    PlaceStep(script, o, n, i);
    if i == 0 {
      StandsInFront(b.keep, b.del, OldFile(rest));
    } else {
      RemovedStand(rest, o1, n1, i - 1);
      StandsBehind(b.keep + b.del, OldFile(rest), at - o1, rest[i - 1].del);
      assert |b.keep + b.del| + (at - o1) == at - o;
    }
  }

  lemma {:induction false} AddedStand(script: seq<Block>, o: nat, n: nat, i: nat)
    requires i < |script| == |Place(script, o, n)|
    ensures Stands(NewFile(script), Place(script, o, n)[i].n - n, script[i].ins)
  {
    var b, rest, at := script[0], script[1..], Place(script, o, n)[i].n;
    var o1, n1 := o + |b.keep| + |b.del|, n + |b.keep| + |b.ins|;
    PlaceStep(script, o, n, i);
    if i == 0 {
      StandsInFront(b.keep, b.ins, NewFile(rest));
    } else {
      AddedStand(rest, o1, n1, i - 1);
      StandsBehind(b.keep + b.ins, NewFile(rest), at - n1, rest[i - 1].ins);
      assert |b.keep + b.ins| + (at - n1) == at - n;
    }
  }

  /** A hunk is placed where its removed lines stand in the old file and its added lines in the new one. */
  lemma {:induction false} HunksStand(script: seq<Block>, i: nat)
    requires i < |script|
    ensures i < |Place(script, 0, 0)|
    ensures var p := Place(script, 0, 0)[i];
      p.b == script[i] && Stands(OldFile(script), p.o, p.b.del) && Stands(NewFile(script), p.n, p.b.ins)
  {
    PlacedBlocks(script, 0, 0);
    RemovedStand(script, 0, 0, i);
    AddedStand(script, 0, 0, i);
  }

  // ----- reading a hunk header -----

  function ReadNumber(s: string): Option<(nat, string)>
  {
    var n := DigitRun(s);
    if n == 0 then None else Some((Value(s[..n]), s[n..]))
  }

  // After a comma the length of the range; without one the length is 1.
  function ReadLength(s: string): (nat, string)
  {
    match Expect(s, ",")
    case None => (1, s)
    case Some(t) => var r := ReadNumber(t); if r.Some? then r.value else (1, s)
  }

  function ReadRange(s: string): Option<(nat, nat, string)>
  {
    match ReadNumber(s)
    case None => None
    case Some((start, t)) => var (count, rest) := ReadLength(t); Some((start, count, rest))
  }

  // The range of the new file, behind that of the old one.
  function ReadNewRange(s: string): Option<Hunk>
  {
    match Expect(s, " +")
    case None => None
    case Some(s) =>
      match ReadRange(s)
      case None => None
      case Some((start, count, s)) => if Expect(s, " @@").Some? then Some(Hunk(start, count)) else None
  }

  function ReadHunk(line: string): Option<Hunk>
  {
    match Expect(line, "@@ -")
    case None => None
    case Some(s) =>
      match ReadRange(s)
      case None => None
      case Some((_, _, s)) => ReadNewRange(s)
  }

  lemma ReadPrinted(n: nat, rest: string)
    requires rest != "" && !IsDigit(rest[0])
    ensures ReadNumber(Print(n) + rest) == Some((n, rest))
  {
    DigitRunConcat(Print(n), rest);
    ValueOfPrint(n);
  }

  lemma ReadPrintedLength(n: nat, rest: string)
    requires rest != "" && rest[0] == ' '
    ensures ReadLength((if n == 1 then "" else "," + Print(n)) + rest) == (n, rest)
  {
    if n == 1 {
      assert "" + rest == rest;
      assert rest[0] != ","[0];
    } else {
      assert "," + Print(n) + rest == "," + (Print(n) + rest);
      ExpectConcat(",", Print(n) + rest);
      ReadPrinted(n, rest);
    }
  }

  lemma ReadRangeOfRange(before: nat, n: nat, rest: string)
    requires rest != "" && rest[0] == ' '
    ensures ReadRange(Range(before, n) + rest) == Some((if n == 0 then before else before + 1, n, rest))
  {
    var first := if n == 0 then before else before + 1;
    var length := if n == 1 then "" else "," + Print(n);
    assert Range(before, n) + rest == Print(first) + (length + rest);
    ReadPrinted(first, length + rest);
    ReadPrintedLength(n, rest);
  }

  /** Printing a hunk header and reading it back gives the new-file range. */
  lemma {:induction false} ReadHunkOfHeader(o: nat, n: nat, b: Block)
    ensures ReadHunk(HunkHeader(o, n, b)) == Some(Hunk(if b.ins == [] then n else n + 1, |b.ins|))
  {
    var s4 := " @@" + b.heading;
    var s3 := Range(n, |b.ins|) + s4;
    var s2 := " +" + s3;
    var s1 := Range(o, |b.del|) + s2;
    ExpectConcat("@@ -", s1);
    ReadRangeOfRange(o, |b.del|, s2);
    ExpectConcat(" +", s3);
    ReadRangeOfRange(n, |b.ins|, s4);
    ExpectConcat(" @@", b.heading);
  }

  /** How two headers are printed. */
  lemma HeaderExamples(b: Block, c: Block)
    requires b == Block([], ["r"], ["s"], "") && c == Block([], [], ["s", "t"], " f")
    ensures HunkHeader(0, 0, b) == "@@ -1 +1 @@"
    ensures HunkHeader(3, 5, c) == "@@ -3,0 +6,2 @@ f"
  {
    RangeExamples();
  }

  lemma RangeExamples()
    ensures Range(0, 1) == "1" && Range(3, 0) == "3,0" && Range(5, 2) == "6,2"
  {
    DigitPrinted(0, '0');
    DigitPrinted(1, '1');
    DigitPrinted(2, '2');
    DigitPrinted(3, '3');
    DigitPrinted(6, '6');
  }

  lemma DigitPrinted(n: nat, c: char)
    requires n < 10 && c as int == '0' as int + n
    ensures Print(n) == [c]
  {
  }

  // Nothing, or a comma and a number.
  predicate IsLength(s: string) { s == "" || (s[0] == ',' && Numeral(s[1..])) }

  function LengthOf(s: string): nat
    requires IsLength(s)
  {
    if s == "" then 1 else Value(s[1..])
  }

  lemma NumberWritten(digits: string, rest: string)
    requires Numeral(digits) && rest != "" && !IsDigit(rest[0])
    ensures ReadNumber(digits + rest) == Some((Value(digits), rest))
  {
    DigitRunConcat(digits, rest);
  }

  lemma LengthWritten(l: string, rest: string)
    requires IsLength(l) && rest != "" && rest[0] == ' '
    ensures ReadLength(l + rest) == (LengthOf(l), rest)
  {
    if l == "" {
      assert l + rest == rest && rest[0] != ","[0];
    } else {
      assert l == "," + l[1..] && l + rest == "," + (l[1..] + rest);
      ExpectConcat(",", l[1..] + rest);
      NumberWritten(l[1..], rest);
    }
  }

  lemma RangeWritten(digits: string, l: string, rest: string)
    requires Numeral(digits) && IsLength(l) && rest != "" && rest[0] == ' '
    ensures ReadRange(digits + (l + rest)) == Some((Value(digits), LengthOf(l), rest))
  {
    NumberWritten(digits, l + rest);
    LengthWritten(l, rest);
  }

  /** Any text of this shape is read as a hunk header, leading zeros included. */
  lemma {:induction false} HunkWritten(a: string, k: string, c: string, l: string, rest: string)
    requires Numeral(a) && IsLength(k) && Numeral(c) && IsLength(l)
    ensures ReadHunk("@@ -" + (a + (k + (" +" + (c + (l + (" @@" + rest))))))) == Some(Hunk(Value(c), LengthOf(l)))
  {
    var t := " @@" + rest;
    var s := " +" + (c + (l + t));
    ExpectConcat("@@ -", a + (k + s));
    RangeWritten(a, k, s);
    ExpectConcat(" +", c + (l + t));
    RangeWritten(c, l, t);
    ExpectConcat(" @@", rest);
  }

  lemma NumberRead(s: string)
    requires ReadNumber(s).Some?
    ensures var n := DigitRun(s);
      s == s[..n] + s[n..] && Numeral(s[..n]) && ReadNumber(s).value == (Value(s[..n]), s[n..])
  {
  }

  lemma LengthRead(s: string) returns (l: string)
    ensures IsLength(l) && s == l + ReadLength(s).1 && ReadLength(s).0 == LengthOf(l)
  {
    l := "";
    if Expect(s, ",").Some? && ReadNumber(Expect(s, ",").value).Some? {
      var t := Expect(s, ",").value;
      NumberRead(t);
      l := "," + t[..DigitRun(t)];
      assert l[1..] == t[..DigitRun(t)] && s == "," + t;
    }
  }

  lemma RangeRead(s: string) returns (a: string, l: string)
    requires ReadRange(s).Some?
    ensures var r := ReadRange(s).value;
      Numeral(a) && IsLength(l) && s == a + (l + r.2) && r.0 == Value(a) && r.1 == LengthOf(l)
  {
    NumberRead(s);
    a := s[..DigitRun(s)];
    l := LengthRead(s[DigitRun(s)..]);
  }

  lemma NewRangeRead(s: string) returns (c: string, l: string, rest: string)
    requires ReadNewRange(s).Some?
    ensures Numeral(c) && IsLength(l) && s == " +" + (c + (l + (" @@" + rest)))
  {
    var u := Expect(s, " +").value;
    c, l := RangeRead(u);
    var v := ReadRange(u).value.2;
    rest := Expect(v, " @@").value;
    assert s == " +" + u && v == " @@" + rest;
  }

  /** And no other text is. */
  lemma {:induction false} HunkRead(line: string) returns (a: string, k: string, c: string, l: string, rest: string)
    requires ReadHunk(line).Some?
    ensures Numeral(a) && IsLength(k) && Numeral(c) && IsLength(l)
    ensures line == "@@ -" + (a + (k + (" +" + (c + (l + (" @@" + rest))))))
  {
    var s := Expect(line, "@@ -").value;
    a, k := RangeRead(s);
    c, l, rest := NewRangeRead(ReadRange(s).value.2);
    assert line == "@@ -" + s;
  }

  // The header without its heading.
  function HeaderFront(o: nat, n: nat, b: Block): string
  {
    "@@ -" + Range(o, |b.del|) + " +" + Range(n, |b.ins|) + " @@"
  }

  lemma FrontAndHeading(o: nat, n: nat, b: Block)
    ensures HunkHeader(o, n, b) == HeaderFront(o, n, b) + b.heading
  {
  }

  lemma DigitsAreNoBreaks(s: string)
    requires forall i :: 0 <= i < |s| ==> IsDigit(s[i]) || s[i] in ",@+- "
    ensures BreakFree(s)
  {
    forall i | 0 <= i < |s|
      ensures !IsBreak(s[i])
    {
      assert IsDigit(s[i]) || s[i] == ',' || s[i] == '@' || s[i] == '+' || s[i] == '-' || s[i] == ' ';
    }
  }

  // Only the heading of a printed header can be cut, and what is cut off it does not matter.
  lemma HeaderPieces(o: nat, n: nat, b: Block)
    ensures FirstPiece(HunkHeader(o, n, b)) == HunkHeader(o, n, b.(heading := FirstPiece(b.heading)))
    ensures Tail(HunkHeader(o, n, b)) == Tail(b.heading)
  {
    FrontAndHeading(o, n, b);
    FrontAndHeading(o, n, b.(heading := FirstPiece(b.heading)));
    DigitsAreNoBreaks(HeaderFront(o, n, b));
    PieceBehind(HeaderFront(o, n, b), b.heading);
  }

  lemma NotAHunk(mark: string, line: string)
    requires mark == "+" || mark == "-"
    ensures ReadHunk(mark + line).None?
  {
    assert (mark + line)[0] != "@@ -"[0];
  }

  // t is s up to a break.
  predicate CutOf(s: string, t: string)
  {
    |t| < |s| && t == s[..|t|] && IsBreak(s[|t|])
  }

  lemma ExpectCut(s: string, t: string, pat: string)
    requires CutOf(s, t) && forall i :: 0 <= i < |pat| ==> !IsBreak(pat[i])
    ensures Expect(t, pat).Some? <==> Expect(s, pat).Some?
    ensures Expect(s, pat).Some? ==> CutOf(Expect(s, pat).value, Expect(t, pat).value)
  {
    if pat <= s {
      assert forall i :: 0 <= i < |pat| ==> pat[i] == s[i];
      assert t[..|pat|] == s[..|pat|];
    }
    if pat <= t { assert s[..|pat|] == t[..|pat|]; }
  }

  lemma NumberCut(s: string, t: string)
    requires CutOf(s, t)
    ensures ReadNumber(t).Some? <==> ReadNumber(s).Some?
    ensures ReadNumber(s).Some? ==>
      ReadNumber(t).value.0 == ReadNumber(s).value.0 && CutOf(ReadNumber(s).value.1, ReadNumber(t).value.1)
  {
    var n := DigitRun(s);
    assert !IsDigit(s[|t|]);
    assert forall i :: 0 <= i < n ==> s[..n][i] == s[i];
    assert t == s[..n] + t[n..] && s[..n] == t[..n];
    DigitRunConcat(s[..n], t[n..]);
  }

  lemma LengthCut(s: string, t: string)
    requires CutOf(s, t)
    ensures ReadLength(t).0 == ReadLength(s).0 && CutOf(ReadLength(s).1, ReadLength(t).1)
  {
    ExpectCut(s, t, ",");
    if Expect(s, ",").Some? { NumberCut(Expect(s, ",").value, Expect(t, ",").value); }
  }

  lemma RangeCut(s: string, t: string)
    requires CutOf(s, t) && ReadRange(s).Some?
    ensures ReadRange(t).Some? && ReadRange(t).value.0 == ReadRange(s).value.0
    ensures ReadRange(t).value.1 == ReadRange(s).value.1 && CutOf(ReadRange(s).value.2, ReadRange(t).value.2)
  {
    NumberCut(s, t);
    LengthCut(ReadNumber(s).value.1, ReadNumber(t).value.1);
  }

  lemma NewRangeCut(s: string, t: string)
    requires CutOf(s, t) && ReadNewRange(s).Some?
    ensures ReadNewRange(t) == ReadNewRange(s)
  {
    ExpectCut(s, t, " +");
    var s1, t1 := Expect(s, " +").value, Expect(t, " +").value;
    RangeCut(s1, t1);
    ExpectCut(ReadRange(s1).value.2, ReadRange(t1).value.2, " @@");
  }

  /** A line that reads as a hunk header reads so up to its first break. */
  lemma HunkCut(s: string, t: string)
    requires CutOf(s, t) && ReadHunk(s).Some?
    ensures ReadHunk(t) == ReadHunk(s)
  {
    ExpectCut(s, t, "@@ -");
    var s1, t1 := Expect(s, "@@ -").value, Expect(t, "@@ -").value;
    RangeCut(s1, t1);
    NewRangeCut(ReadRange(s1).value.2, ReadRange(t1).value.2);
  }

  lemma FirstPieceReads(line: string)
    requires ReadHunk(line).Some?
    ensures ReadHunk(FirstPiece(line)) == ReadHunk(line)
  {
    var k := LineLength(IsBreak, line);
    if k < |line| { HunkCut(line, line[..k]); } else { assert line[..k] == line; }
  }

  lemma FirstReturnReads(line: string)
    requires ReadHunk(line).Some?
    ensures ReadHunk(ReturnPieces(line)[0]) == ReadHunk(line)
  {
    var k := LineLength(IsReturn, line);
    if k < |line| { HunkCut(line, line[..k]); } else { assert line[..k] == line; }
  }

  const GIT := Format(HunkHeader, ReadHunk)

  // What the numbering relies on: headers read back, marked lines do not look like headers.
  ghost predicate Sound(f: Format)
  {
    && (forall o: nat, n: nat, b: Block :: ReadsBack(f, o, n, b))
    && (forall line :: IsNoHeader(f, "+" + line))
    && (forall line :: IsNoHeader(f, "-" + line))
    && (forall line :: ReadsCut(f, line))
  }

  ghost predicate ReadsBack(f: Format, o: nat, n: nat, b: Block)
  {
    f.read(f.header(o, n, b)) == Some(Hunk(if b.ins == [] then n else n + 1, |b.ins|))
  }

  // What reads as a hunk header reads so up to its first break, and up to its first carriage return.
  ghost predicate ReadsCut(f: Format, line: string)
  {
    f.read(line).Some? ==> f.read(FirstPiece(line)) == f.read(ReturnPieces(line)[0]) == f.read(line)
  }

  ghost predicate IsNoHeader(f: Format, line: string)
  {
    f.read(line).None?
  }

  lemma GitHeader(o: nat, n: nat, b: Block)
    ensures ReadsBack(GIT, o, n, b)
  {
    ReadHunkOfHeader(o, n, b);
  }

  lemma GitMark(mark: string, line: string)
    requires mark == "+" || mark == "-"
    ensures IsNoHeader(GIT, mark + line)
  {
    NotAHunk(mark, line);
  }

  lemma GitIsSound()
    ensures Sound(GIT)
  {
    forall o: nat, n: nat, b: Block
      ensures ReadsBack(GIT, o, n, b)
    {
      GitHeader(o, n, b);
    }
    forall line
      ensures IsNoHeader(GIT, "+" + line) && IsNoHeader(GIT, "-" + line)
    {
      GitMark("+", line);
      GitMark("-", line);
    }
    forall line
      ensures ReadsCut(GIT, line)
    {
      GitReadsCut(line);
    }
  }

  lemma GitReadsCut(line: string)
    ensures ReadsCut(GIT, line)
  {
    if ReadHunk(line).Some? {
      FirstPieceReads(line);
      FirstReturnReads(line);
    }
  }

  function GitHunk(p: Placed): seq<string> { HunkOf(GIT, p.o, p.n, p.b) }

  // The numbers from `start` on, `count` of them.
  function Interval(start: nat, count: nat): (s: set<nat>)
    ensures forall k :: k in s <==> start <= k < start + count
  {
    if count == 0 then {} else Interval(start, count - 1) + {start + count - 1}
  }
}
