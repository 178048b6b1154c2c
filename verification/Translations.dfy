/** The tool that puts an English comment line under each Korean one. */
module Translations {
  import opened TextLines

  // How lines are compared, and how a translation is written under a line.
  datatype Style = Style(trim: string -> string, made: (string, string) -> string)

  // A written translation trims to the translation, and a translation without breaks becomes one line.
  ghost predicate Sound(y: Style)
  {
    && (forall line, english :: y.trim(y.made(line, english)) == y.trim(english))
    && (forall line, english :: IsPlain(english) ==> IsNewLine(y.made(line, english)))
    && (forall line :: y.trim(line + "\n") == y.trim(line))
  }

  predicate IsPlain(s: string) { s != "" && BreakFree(s) }

  // One line with its break, which runs together with no line before or behind it.
  predicate IsNewLine(x: string)
  {
    IsLine(x) && Ended(x) && x[0] != '\n' && x[|x| - 1] != '\r'
  }

  // A line of the file with its break, and whether the tool put it there.
  datatype Item = Item(text: string, added: bool)

  datatype Pair = Pair(korean: string, english: string)

  predicate Is(y: Style, x: Item, comment: string) { y.trim(x.text) == y.trim(comment) }

  // The first line that is the Korean comment, white space around it aside; the length if there is none.
  function Find(y: Style, items: seq<Item>, korean: string): (i: nat)
    ensures i <= |items| && (i < |items| ==> Is(y, items[i], korean))
    ensures forall k :: 0 <= k < i ==> !Is(y, items[k], korean)
    decreases |items|
  {
    if items == [] || Is(y, items[0], korean) then 0 else 1 + Find(y, items[1..], korean)
  }

  function NextTrim(y: Style, items: seq<Item>, i: nat): string
  {
    if i + 1 < |items| then y.trim(items[i + 1].text) else ""
  }

  // Nothing to do: the comment is not there, or its translation already follows.
  predicate Settled(y: Style, items: seq<Item>, p: Pair)
  {
    var i := Find(y, items, p.korean);
    i < |items| ==> NextTrim(y, items, i) == y.trim(p.english)
  }

  function Insert(items: seq<Item>, i: nat, x: Item): (r: seq<Item>)
    requires i <= |items|
    ensures |r| == |items| + 1
    ensures forall k :: 0 <= k < |r| ==> r[k] == if k < i then items[k] else if k == i then x else items[k - 1]
  {
    items[..i] + [x] + items[i..]
  }

  function Translation(y: Style, line: string, p: Pair): Item { Item(y.made(line, p.english), true) }

  function Apply(y: Style, items: seq<Item>, p: Pair): seq<Item>
  {
    var i := Find(y, items, p.korean);
    if Settled(y, items, p) then items else Insert(items, i + 1, Translation(y, items[i].text, p))
  }

  function ApplyAll(y: Style, items: seq<Item>, pairs: seq<Pair>): seq<Item>
    decreases |pairs|
  {
    if pairs == [] then items else ApplyAll(y, Apply(y, items, pairs[0]), pairs[1..])
  }

  // ----- what the tool must not lose -----

  // The file as it was, and how many lines were put in.
  function Original(items: seq<Item>): seq<string>
  {
    if items == [] then [] else (if items[0].added then [] else [items[0].text]) + Original(items[1..])
  }

  function Added(items: seq<Item>): nat
  {
    if items == [] then 0 else (if items[0].added then 1 else 0) + Added(items[1..])
  }

  lemma {:induction false} InsertKeeps(items: seq<Item>, i: nat, x: Item)
    requires i <= |items| && x.added
    ensures Original(Insert(items, i, x)) == Original(items) && Added(Insert(items, i, x)) == Added(items) + 1
  {
    if i == 0 {
      assert Insert(items, 0, x)[1..] == items;
    } else {
      InsertKeeps(items[1..], i - 1, x);
      assert Insert(items, i, x)[1..] == Insert(items[1..], i - 1, x);
    }
  }

  /** Deleting the added lines gives back the file; their number is the growth. */
  lemma {:induction false} DeletingRestores(y: Style, items: seq<Item>, pairs: seq<Pair>)
    ensures Original(ApplyAll(y, items, pairs)) == Original(items)
    ensures Added(ApplyAll(y, items, pairs)) == Added(items) + |ApplyAll(y, items, pairs)| - |items|
    decreases |pairs|
  {
    if pairs != [] {
      var p := pairs[0];
      var i := Find(y, items, p.korean);
      if !Settled(y, items, p) { InsertKeeps(items, i + 1, Translation(y, items[i].text, p)); }
      DeletingRestores(y, Apply(y, items, p), pairs[1..]);
    }
  }

  // ----- a second pass -----

  // Applying q later does not undo p: q's translation is not p's comment, and if both have one comment
  // they have one translation.
  predicate Harmless(y: Style, p: Pair, q: Pair)
  {
    && y.trim(q.english) != y.trim(p.korean)
    && (y.trim(p.korean) == y.trim(q.korean) ==> y.trim(p.english) == y.trim(q.english))
  }

  predicate HarmlessAll(y: Style, p: Pair, pairs: seq<Pair>)
  {
    forall i :: 0 <= i < |pairs| ==> Harmless(y, p, pairs[i])
  }

  // No pair undoes an earlier one.
  predicate Orderly(y: Style, pairs: seq<Pair>)
    decreases |pairs|
  {
    pairs != [] ==> HarmlessAll(y, pairs[0], pairs[1..]) && Orderly(y, pairs[1..])
  }

  lemma {:induction false} FindIs(y: Style, items: seq<Item>, korean: string, n: nat)
    requires n <= |items| && (n < |items| ==> Is(y, items[n], korean))
    requires forall k :: 0 <= k < n ==> !Is(y, items[k], korean)
    ensures Find(y, items, korean) == n
    decreases n
  {
    if n > 0 {
      assert !Is(y, items[0], korean);
      FindIs(y, items[1..], korean, n - 1);
    }
  }

  lemma ApplySettles(y: Style, items: seq<Item>, p: Pair)
    requires Sound(y)
    ensures Settled(y, Apply(y, items, p), p)
  {
    var i := Find(y, items, p.korean);
    if !Settled(y, items, p) {
      FindIs(y, Apply(y, items, p), p.korean, i);
    }
  }

  // A line put in behind line i does not part another comment from its translation.
  lemma InsertKeepsSettled(y: Style, items: seq<Item>, i: nat, x: Item, q: Pair)
    requires Settled(y, items, q) && i < |items| && !Is(y, items[i], q.korean) && !Is(y, x, q.korean)
    ensures Settled(y, Insert(items, i + 1, x), q)
  {
    var j := Find(y, items, q.korean);
    var r := Insert(items, i + 1, x);
    if j < i {
      FindIs(y, r, q.korean, j);
    } else {
      FindIs(y, r, q.korean, j + 1);
    }
  }

  // Comments that are the same once trimmed are found in the same place.
  lemma FindSame(y: Style, items: seq<Item>, k1: string, k2: string)
    requires y.trim(k1) == y.trim(k2)
    ensures Find(y, items, k1) == Find(y, items, k2)
  {
    FindIs(y, items, k2, Find(y, items, k1));
  }

  lemma ApplyKeepsSettled(y: Style, items: seq<Item>, p: Pair, q: Pair)
    requires Sound(y) && Settled(y, items, p) && Harmless(y, p, q)
    ensures Settled(y, Apply(y, items, q), p)
  {
    if y.trim(p.korean) == y.trim(q.korean) {
      FindSame(y, items, p.korean, q.korean);
    } else if !Settled(y, items, q) {
      var i := Find(y, items, q.korean);
      InsertKeepsSettled(y, items, i, Translation(y, items[i].text, q), p);
    }
  }

  lemma {:induction false} AllKeepSettled(y: Style, items: seq<Item>, pairs: seq<Pair>, p: Pair)
    requires Sound(y) && HarmlessAll(y, p, pairs) && Settled(y, items, p)
    ensures Settled(y, ApplyAll(y, items, pairs), p)
    decreases |pairs|
  {
    if pairs != [] {
      assert Harmless(y, p, pairs[0]);
      ApplyKeepsSettled(y, items, p, pairs[0]);
      AllKeepSettled(y, Apply(y, items, pairs[0]), pairs[1..], p);
    }
  }

  predicate AllSettled(y: Style, items: seq<Item>, pairs: seq<Pair>)
  {
    forall i :: 0 <= i < |pairs| ==> Settled(y, items, pairs[i])
  }

  lemma {:induction false} AllSettledAfter(y: Style, items: seq<Item>, pairs: seq<Pair>)
    requires Sound(y) && Orderly(y, pairs)
    ensures AllSettled(y, ApplyAll(y, items, pairs), pairs)
    decreases |pairs|
  {
    if pairs != [] {
      var p, rest := pairs[0], pairs[1..];
      ApplySettles(y, items, p);
      AllKeepSettled(y, Apply(y, items, p), rest, p);
      AllSettledAfter(y, Apply(y, items, p), rest);
      assert forall i :: 0 < i < |pairs| ==> pairs[i] == rest[i - 1];
    }
  }

  /** A pass leaves the file alone, or as long as it was, exactly when there is nothing to do. */
  lemma {:induction false} NothingToDo(y: Style, items: seq<Item>, pairs: seq<Pair>)
    ensures |ApplyAll(y, items, pairs)| >= |items|
    ensures |ApplyAll(y, items, pairs)| == |items| <==> AllSettled(y, items, pairs)
    ensures AllSettled(y, items, pairs) ==> ApplyAll(y, items, pairs) == items
    decreases |pairs|
  {
    if pairs != [] {
      NothingToDo(y, Apply(y, items, pairs[0]), pairs[1..]);
      SettledFirst(y, items, pairs);
    }
  }

  lemma SettledFirst(y: Style, items: seq<Item>, pairs: seq<Pair>)
    requires pairs != []
    ensures AllSettled(y, items, pairs) <==> Settled(y, items, pairs[0]) && AllSettled(y, items, pairs[1..])
  {
    forall i | 0 < i < |pairs|
      ensures pairs[i] == pairs[1..][i - 1]
    {
    }
  }

  /** When no pair undoes an earlier one, a second pass changes nothing. */
  lemma {:induction false} SecondPassInsertsNothing(y: Style, items: seq<Item>, pairs: seq<Pair>)
    requires Sound(y) && Orderly(y, pairs)
    ensures ApplyAll(y, ApplyAll(y, items, pairs), pairs) == ApplyAll(y, items, pairs)
  {
    AllSettledAfter(y, items, pairs);
    NothingToDo(y, ApplyAll(y, items, pairs), pairs);
  }

  // ----- what is written is what is read again -----

  function Texts(items: seq<Item>): (lines: seq<string>)
    ensures |lines| == |items|
    ensures forall i :: 0 <= i < |items| ==> lines[i] == items[i].text
  {
    seq(|items|, i requires 0 <= i < |items| => items[i].text)
  }

  function Fresh(lines: seq<string>): (items: seq<Item>)
    ensures |items| == |lines| && Texts(items) == lines
    ensures forall i :: 0 <= i < |lines| ==> items[i] == Item(lines[i], false)
  {
    seq(|lines|, i requires 0 <= i < |lines| => Item(lines[i], false))
  }

  // One run of the tool on the text of a file.
  function PassText(y: Style, text: string, pairs: seq<Pair>): string
  {
    Flat(Texts(ApplyAll(y, Fresh(KeepEnds(text)), pairs)))
  }

  lemma FindTexts(y: Style, xs: seq<Item>, ys: seq<Item>, korean: string)
    requires Texts(xs) == Texts(ys)
    ensures Find(y, xs, korean) == Find(y, ys, korean)
  {
    var n := Find(y, xs, korean);
    assert forall i :: 0 <= i < |xs| ==> xs[i].text == Texts(xs)[i] == ys[i].text;
    FindIs(y, ys, korean, n);
  }

  function InsertLine(lines: seq<string>, i: nat, x: string): seq<string>
    requires i <= |lines|
  {
    lines[..i] + [x] + lines[i..]
  }

  lemma InsertTexts(items: seq<Item>, i: nat, x: Item)
    requires i <= |items|
    ensures Texts(Insert(items, i, x)) == InsertLine(Texts(items), i, x.text)
  {
  }

  lemma ApplyTexts(y: Style, xs: seq<Item>, ys: seq<Item>, p: Pair)
    requires Texts(xs) == Texts(ys)
    ensures Texts(Apply(y, xs, p)) == Texts(Apply(y, ys, p))
  {
    var i := Find(y, xs, p.korean);
    FindTexts(y, xs, ys, p.korean);
    assert i < |xs| ==> xs[i].text == Texts(xs)[i] == Texts(ys)[i] == ys[i].text;
    assert i + 1 < |xs| ==> xs[i + 1].text == Texts(xs)[i + 1] == Texts(ys)[i + 1] == ys[i + 1].text;
    if !Settled(y, xs, p) {
      InsertTexts(xs, i + 1, Translation(y, xs[i].text, p));
      InsertTexts(ys, i + 1, Translation(y, ys[i].text, p));
    }
  }

  // The tool does not look at who wrote a line.
  lemma {:induction false} AllTexts(y: Style, xs: seq<Item>, ys: seq<Item>, pairs: seq<Pair>)
    requires Texts(xs) == Texts(ys)
    ensures Texts(ApplyAll(y, xs, pairs)) == Texts(ApplyAll(y, ys, pairs))
    decreases |pairs|
  {
    if pairs != [] {
      ApplyTexts(y, xs, ys, pairs[0]);
      AllTexts(y, Apply(y, xs, pairs[0]), Apply(y, ys, pairs[0]), pairs[1..]);
    }
  }

  /** A new line leaves the rest as it is exactly behind a line that is ended. */
  lemma {:induction false} InsertLaid(lines: seq<string>, i: nat, x: string)
    requires Laid(lines) && i < |lines| && IsNewLine(x)
    ensures Laid(InsertLine(lines, i + 1, x)) <==> Ended(lines[i])
    decreases i
  {
    var r := InsertLine(lines, i + 1, x);
    assert r[0] == lines[0];
    if i == 0 {
      assert r[1..] == [x] + lines[1..] && r[1..][1..] == lines[1..];
      assert r[1] == x;
    } else {
      assert r[1..] == InsertLine(lines[1..], i, x);
      assert r[1] == lines[1];
      InsertLaid(lines[1..], i - 1, x);
    }
  }

  /** After one pair the file is read again as it was written if and only if nothing was put in, or the
      comment's line was ended. */
  lemma {:induction false} ApplyRereads(y: Style, items: seq<Item>, p: Pair)
    requires Sound(y) && IsPlain(p.english) && Laid(Texts(items))
    ensures KeepEnds(Flat(Texts(Apply(y, items, p)))) == Texts(Apply(y, items, p))
      <==> Settled(y, items, p) || Ended(items[Find(y, items, p.korean)].text)
  {
    var i := Find(y, items, p.korean);
    LaidIff(Texts(Apply(y, items, p)));
    if !Settled(y, items, p) {
      var x := y.made(items[i].text, p.english);
      InsertLaid(Texts(items), i, x);
      InsertTexts(items, i + 1, Item(x, true));
    }
  }

  predicate EveryEnded(lines: seq<string>)
  {
    forall i :: 0 <= i < |lines| ==> Ended(lines[i])
  }

  // The text is empty or ends in a break.
  predicate EndsWell(text: string) { text == "" || IsBreak(text[|text| - 1]) }

  lemma EveryEndedFirst(line: string, more: seq<string>)
    ensures EveryEnded([line] + more) <==> Ended(line) && EveryEnded(more)
  {
    var all := [line] + more;
    assert all[0] == line;
    assert forall i :: 0 < i < |all| ==> all[i] == more[i - 1];
    if EveryEnded(all) {
      forall i | 0 <= i < |more|
        ensures Ended(more[i])
      {
        assert all[i + 1] == more[i];
      }
    }
  }

  lemma {:induction false} EndsWellIff(text: string)
    ensures EndsWell(text) <==> EveryEnded(KeepEnds(text))
    decreases |text|
  {
    if text != "" {
      var n := LineEnd(text);
      var line, rest := text[..n], text[n..];
      EndsWellIff(rest);
      FirstIsLine(text, line);
      EveryEndedFirst(line, KeepEnds(rest));
      if rest == "" {
        LastBreak(text);
      } else {
        FirstIsEnded(text, line);
        assert rest[|rest| - 1] == text[|text| - 1];
      }
    }
  }

  lemma LastBreak(text: string)
    requires text != "" && LineEnd(text) == |text|
    ensures LineLength(IsBreak, text) < |text| <==> IsBreak(text[|text| - 1])
  {
  }

  predicate AllPlain(pairs: seq<Pair>)
  {
    forall i :: 0 <= i < |pairs| ==> IsPlain(pairs[i].english)
  }

  lemma InsertEnded(lines: seq<string>, i: nat, x: string)
    requires i < |lines| && Laid(lines) && EveryEnded(lines) && IsNewLine(x)
    ensures Laid(InsertLine(lines, i + 1, x)) && EveryEnded(InsertLine(lines, i + 1, x))
  {
    InsertLaid(lines, i, x);
  }

  lemma {:induction false} AllStayEnded(y: Style, items: seq<Item>, pairs: seq<Pair>)
    requires Sound(y) && AllPlain(pairs) && Laid(Texts(items)) && EveryEnded(Texts(items))
    ensures Laid(Texts(ApplyAll(y, items, pairs))) && EveryEnded(Texts(ApplyAll(y, items, pairs)))
    decreases |pairs|
  {
    if pairs != [] {
      var p, i := pairs[0], Find(y, items, pairs[0].korean);
      assert IsPlain(p.english);
      if !Settled(y, items, p) {
        InsertTexts(items, i + 1, Translation(y, items[i].text, p));
        InsertEnded(Texts(items), i, y.made(items[i].text, p.english));
      }
      AllStayEnded(y, Apply(y, items, p), pairs[1..]);
    }
  }

  /** A text that ends in a line break is, after a run, read again as the lines that were written. */
  lemma {:induction false} PassRereads(y: Style, text: string, pairs: seq<Pair>)
    requires Sound(y) && AllPlain(pairs) && EndsWell(text)
    ensures KeepEnds(PassText(y, text, pairs)) == Texts(ApplyAll(y, Fresh(KeepEnds(text)), pairs))
    ensures EndsWell(PassText(y, text, pairs))
  {
    KeptIsLaid(text);
    EndsWellIff(text);
    AllStayEnded(y, Fresh(KeepEnds(text)), pairs);
    LaidIff(Texts(ApplyAll(y, Fresh(KeepEnds(text)), pairs)));
    EndsWellIff(PassText(y, text, pairs));
  }

  // The lines a second run works on are those of the first one.
  lemma PassTwice(y: Style, text: string, pairs: seq<Pair>)
    requires Sound(y) && AllPlain(pairs) && EndsWell(text)
    ensures var once := ApplyAll(y, Fresh(KeepEnds(text)), pairs);
      PassText(y, PassText(y, text, pairs), pairs) == Flat(Texts(ApplyAll(y, once, pairs)))
  {
    var once := ApplyAll(y, Fresh(KeepEnds(text)), pairs);
    PassRereads(y, text, pairs);
    AllTexts(y, Fresh(Texts(once)), once, pairs);
  }

  /** Deleting the added lines from what is written gives back the file. */
  lemma DeletingRestoresText(y: Style, text: string, pairs: seq<Pair>)
    ensures var items := ApplyAll(y, Fresh(KeepEnds(text)), pairs);
      Flat(Original(items)) == text && Added(items) == |items| - |KeepEnds(text)|
  {
    DeletingRestores(y, Fresh(KeepEnds(text)), pairs);
    FreshIsOriginal(KeepEnds(text));
    FlatKeepEnds(text);
  }

  lemma {:induction false} FreshIsOriginal(lines: seq<string>)
    ensures Original(Fresh(lines)) == lines && Added(Fresh(lines)) == 0
  {
    if lines != [] {
      FreshIsOriginal(lines[1..]);
      assert Fresh(lines)[1..] == Fresh(lines[1..]);
    }
  }

  // ----- when a second run changes nothing -----

  // No two pairs have the same comment.
  predicate Distinct(y: Style, pairs: seq<Pair>)
  {
    forall i, j :: 0 <= i < j < |pairs| ==> y.trim(pairs[i].korean) != y.trim(pairs[j].korean)
  }

  // Comments and translations are single lines, and no translation is blank.
  predicate Proper(y: Style, pairs: seq<Pair>)
  {
    forall i :: 0 <= i < |pairs| ==>
      IsPlain(pairs[i].korean) && IsPlain(pairs[i].english) && y.trim(pairs[i].english) != ""
  }

  predicate Undoes(y: Style, pairs: seq<Pair>, i: int, j: int)
  {
    0 <= i < j < |pairs| && y.trim(pairs[j].english) == y.trim(pairs[i].korean)
  }

  lemma {:induction false} NotOrderly(y: Style, pairs: seq<Pair>) returns (i: nat, j: nat)
    requires Distinct(y, pairs) && !Orderly(y, pairs)
    ensures Undoes(y, pairs, i, j)
    decreases |pairs|
  {
    if HarmlessAll(y, pairs[0], pairs[1..]) {
      i, j := NotOrderly(y, pairs[1..]);
      i, j := i + 1, j + 1;
    } else {
      var k :| 0 <= k < |pairs[1..]| && !Harmless(y, pairs[0], pairs[1..][k]);
      assert pairs[1..][k] == pairs[k + 1];
      i, j := 0, k + 1;
    }
  }

  predicate Absent(y: Style, items: seq<Item>, korean: string)
  {
    forall k :: 0 <= k < |items| ==> !Is(y, items[k], korean)
  }

  predicate AllAbsent(y: Style, items: seq<Item>, pairs: seq<Pair>)
  {
    forall i :: 0 <= i < |pairs| ==> Absent(y, items, pairs[i].korean)
  }

  // Pairs whose comment is not in the file do nothing.
  lemma {:induction false} Skipped(y: Style, items: seq<Item>, before: seq<Pair>, rest: seq<Pair>)
    requires AllAbsent(y, items, before)
    ensures ApplyAll(y, items, before + rest) == ApplyAll(y, items, rest)
    decreases |before|
  {
    if before == [] {
      assert before + rest == rest;
    } else {
      assert (before + rest)[1..] == before[1..] + rest;
      assert Absent(y, items, before[0].korean);
      assert Settled(y, items, before[0]);
      assert forall i :: 0 <= i < |before[1..]| ==> before[1..][i] == before[i + 1];
      Skipped(y, items, before[1..], rest);
    }
  }

  lemma ApplyAlone(y: Style, x: Item, p: Pair)
    requires Is(y, x, p.korean) && y.trim(p.english) != ""
    ensures Apply(y, [x], p) == [x, Translation(y, x.text, p)]
  {
    FindIs(y, [x], p.korean, 0);
  }

  lemma ApplyAt(y: Style, items: seq<Item>, pairs: seq<Pair>, j: nat)
    requires j < |pairs|
    ensures ApplyAll(y, items, pairs[j..]) == ApplyAll(y, Apply(y, items, pairs[j]), pairs[j + 1..])
  {
    assert pairs[j..][0] == pairs[j] && pairs[j..][1..] == pairs[j + 1..];
  }

  // On a file that holds only the comment of pair j the first run does what pair j does.
  lemma FirstRun(y: Style, pairs: seq<Pair>, i: nat, j: nat, x: Item)
    requires Sound(y) && Distinct(y, pairs) && Proper(y, pairs) && Undoes(y, pairs, i, j)
    requires Is(y, x, pairs[j].korean)
    ensures ApplyAll(y, [x], pairs) == [x, Translation(y, x.text, pairs[j])]
  {
    var p, once := pairs[j], [x, Translation(y, x.text, pairs[j])];
    NotEarlier(y, pairs, j, x);
    assert pairs == pairs[..j] + pairs[j..];
    Skipped(y, [x], pairs[..j], pairs[j..]);
    ApplyAt(y, [x], pairs, j);
    ApplyAlone(y, x, p);
    NotLater(y, pairs, i, j, once, pairs[j + 1..]);
    assert pairs[j + 1..] + [] == pairs[j + 1..];
    Skipped(y, once, pairs[j + 1..], []);
  }

  lemma NotEarlier(y: Style, pairs: seq<Pair>, j: nat, x: Item)
    requires Distinct(y, pairs) && j < |pairs| && Is(y, x, pairs[j].korean)
    ensures AllAbsent(y, [x], pairs[..j])
  {
  }

  lemma NotLater(y: Style, pairs: seq<Pair>, i: nat, j: nat, once: seq<Item>, later: seq<Pair>)
    requires Distinct(y, pairs) && Undoes(y, pairs, i, j) && |once| == 2 && later == pairs[j + 1..]
    requires Is(y, once[0], pairs[j].korean) && y.trim(once[1].text) == y.trim(pairs[j].english)
    ensures AllAbsent(y, once, later)
  {
    forall m | 0 <= m < |later|
      ensures Absent(y, once, later[m].korean)
    {
      assert later[m] == pairs[j + 1 + m];
      assert y.trim(pairs[j].korean) != y.trim(pairs[j + 1 + m].korean);
      assert y.trim(pairs[i].korean) != y.trim(pairs[j + 1 + m].korean);
    }
  }

  // On that file the second run finds pair i's comment, which the first one wrote.
  lemma SecondRun(y: Style, pairs: seq<Pair>, i: nat, j: nat, x: Item)
    requires Sound(y) && Distinct(y, pairs) && Proper(y, pairs) && Undoes(y, pairs, i, j)
    requires Is(y, x, pairs[j].korean)
    ensures |ApplyAll(y, ApplyAll(y, [x], pairs), pairs)| > |ApplyAll(y, [x], pairs)|
  {
    var once := [x, Translation(y, x.text, pairs[j])];
    FirstRun(y, pairs, i, j, x);
    assert y.trim(pairs[i].korean) != y.trim(pairs[j].korean);
    FindIs(y, once, pairs[i].korean, 1);
    assert !Settled(y, once, pairs[i]);
    NothingToDo(y, once, pairs);
  }

  lemma LongerText(xs: seq<string>, ys: seq<string>)
    requires Laid(xs) && Laid(ys) && |xs| != |ys|
    ensures Flat(xs) != Flat(ys)
  {
    LaidIsKept(xs);
    LaidIsKept(ys);
  }

  ghost predicate Stable(y: Style, pairs: seq<Pair>, text: string)
  {
    PassText(y, PassText(y, text, pairs), pairs) == PassText(y, text, pairs)
  }

  lemma NotStable(y: Style, pairs: seq<Pair>, i: nat, j: nat)
    requires Sound(y) && Distinct(y, pairs) && Proper(y, pairs) && Undoes(y, pairs, i, j)
    ensures EndsWell(pairs[j].korean + "\n") && !Stable(y, pairs, pairs[j].korean + "\n")
  {
    var text := pairs[j].korean + "\n";
    var x := Item(text, false);
    KeptAlone(pairs[j].korean);
    assert Fresh([text]) == [x];
    SecondRun(y, pairs, i, j, x);
    PassTwice(y, text, pairs);
    PassRereads(y, text, pairs);
    var once := ApplyAll(y, [x], pairs);
    AllStayEnded(y, [x], pairs);
    AllStayEnded(y, once, pairs);
    LongerText(Texts(once), Texts(ApplyAll(y, once, pairs)));
  }

  lemma KeptAlone(line: string)
    requires BreakFree(line)
    ensures KeepEnds(line + "\n") == [line + "\n"] && Laid([line + "\n"]) && Ended(line + "\n")
  {
    var text := line + "\n";
    LineLengthIs(IsBreak, text, |line|);
    assert text[..|text|] == text && text[|text|..] == "";
    var none: seq<string> := [text][1..];
    assert |none| == 0;
  }

  /** For pairs with distinct comments: on every text that ends in a line break a second run changes
      nothing, if and only if no translation is the comment of an earlier pair. */
  lemma {:induction false} SecondRunIff(y: Style, pairs: seq<Pair>)
    requires Sound(y) && Distinct(y, pairs) && Proper(y, pairs)
    ensures (forall text: string :: EndsWell(text) ==> Stable(y, pairs, text))
      <==> (forall i, j :: !Undoes(y, pairs, i, j))
  {
    if Orderly(y, pairs) {
      forall text: string | EndsWell(text)
        ensures Stable(y, pairs, text)
      {
        PassTwice(y, text, pairs);
        SecondPassInsertsNothing(y, Fresh(KeepEnds(text)), pairs);
      }
      OrderlyNeverUndoes(y, pairs);
    } else {
      var i, j := NotOrderly(y, pairs);
      NotStable(y, pairs, i, j);
    }
  }

  lemma {:induction false} OrderlyNeverUndoes(y: Style, pairs: seq<Pair>)
    requires Orderly(y, pairs)
    ensures forall i, j :: !Undoes(y, pairs, i, j)
    decreases |pairs|
  {
    if pairs != [] {
      OrderlyNeverUndoes(y, pairs[1..]);
      forall i, j | 0 <= i < j < |pairs|
        ensures !Undoes(y, pairs, i, j)
      {
        assert pairs[1..][j - 1] == pairs[j];
        if i == 0 {
          assert Harmless(y, pairs[0], pairs[1..][j - 1]);
        } else {
          assert pairs[1..][i - 1] == pairs[i];
          assert !Undoes(y, pairs[1..], i - 1, j - 1);
        }
      }
    }
  }

  // ----- two translations of one comment -----

  predicate Conflict(y: Style, pairs: seq<Pair>, i: int, j: int)
  {
    && 0 <= i < j < |pairs| && y.trim(pairs[i].korean) == y.trim(pairs[j].korean)
    && y.trim(pairs[i].english) != y.trim(pairs[j].english)
  }

  /** With two translations of one comment, a run adds to every file that has the comment. */
  lemma ConflictGrows(y: Style, items: seq<Item>, pairs: seq<Pair>, i: nat, j: nat)
    requires Conflict(y, pairs, i, j) && !Absent(y, items, pairs[i].korean)
    ensures |ApplyAll(y, items, pairs)| > |items|
  {
    NothingToDo(y, items, pairs);
    FindSame(y, items, pairs[i].korean, pairs[j].korean);
    assert !(Settled(y, items, pairs[i]) && Settled(y, items, pairs[j]));
  }

  lemma {:induction false} StaysPresent(y: Style, items: seq<Item>, pairs: seq<Pair>, korean: string)
    requires !Absent(y, items, korean)
    ensures !Absent(y, ApplyAll(y, items, pairs), korean)
    decreases |pairs|
  {
    if pairs != [] {
      var p := pairs[0];
      var k :| 0 <= k < |items| && Is(y, items[k], korean);
      var r := Apply(y, items, p);
      if !Settled(y, items, p) {
        var at := if k <= Find(y, items, p.korean) then k else k + 1;
        assert r[at] == items[k];
      }
      StaysPresent(y, r, pairs[1..], korean);
    }
  }

  // n runs in a row.
  function Runs(y: Style, text: string, pairs: seq<Pair>, n: nat): string
    decreases n
  {
    if n == 0 then text else Runs(y, PassText(y, text, pairs), pairs, n - 1)
  }

  function LineCount(text: string): nat { |KeepEnds(text)| }

  // The file ends in a line break, and one of its lines is the comment.
  predicate HasComment(y: Style, text: string, korean: string)
  {
    EndsWell(text) && !Absent(y, Fresh(KeepEnds(text)), korean)
  }

  lemma ConflictGrowsText(y: Style, text: string, pairs: seq<Pair>, i: nat, j: nat)
    requires Sound(y) && AllPlain(pairs) && Conflict(y, pairs, i, j) && HasComment(y, text, pairs[i].korean)
    ensures HasComment(y, PassText(y, text, pairs), pairs[i].korean)
    ensures LineCount(PassText(y, text, pairs)) > LineCount(text)
  {
    var items, next := Fresh(KeepEnds(text)), PassText(y, text, pairs);
    ConflictGrows(y, items, pairs, i, j);
    StaysPresent(y, items, pairs, pairs[i].korean);
    PassRereads(y, text, pairs);
    if Absent(y, Fresh(KeepEnds(next)), pairs[i].korean) {
      PresentTexts(y, ApplyAll(y, items, pairs), Fresh(KeepEnds(next)), pairs[i].korean);
    }
  }

  /** ... and so does every further run: after n runs there are at least n lines more. */
  lemma {:induction false} RepeatedCommentGrows(y: Style, text: string, pairs: seq<Pair>, i: nat, j: nat, n: nat)
    requires Sound(y) && AllPlain(pairs) && Conflict(y, pairs, i, j) && HasComment(y, text, pairs[i].korean)
    ensures LineCount(Runs(y, text, pairs, n)) >= LineCount(text) + n
    decreases n
  {
    if n > 0 {
      ConflictGrowsText(y, text, pairs, i, j);
      RepeatedCommentGrows(y, PassText(y, text, pairs), pairs, i, j, n - 1);
    }
  }

  lemma PresentTexts(y: Style, xs: seq<Item>, ys: seq<Item>, korean: string)
    requires Texts(xs) == Texts(ys) && Absent(y, ys, korean)
    ensures Absent(y, xs, korean)
  {
    forall k | 0 <= k < |xs|
      ensures !Is(y, xs[k], korean)
    {
      assert xs[k].text == Texts(xs)[k] == Texts(ys)[k] == ys[k].text;
      assert !Is(y, ys[k], korean);
    }
  }

  // ----- a file without a final line break -----

  /** A translation of a last line that has no break is written onto that line. */
  lemma GluedToLastLine(y: Style, line: string, p: Pair)
    requires IsPlain(line) && y.trim(line) == y.trim(p.korean) && y.trim(p.english) != ""
    ensures PassText(y, line, [p]) == line + y.made(line, p.english)
  {
    var x := Item(line, false);
    KeptUnended(line);
    assert Fresh([line]) == [x];
    ApplyAlone(y, x, p);
    ApplyAt(y, [x], [p], 0);
    FlatTwo([x, Translation(y, line, p)]);
  }

  lemma KeptUnended(line: string)
    requires IsPlain(line)
    ensures KeepEnds(line) == [line]
  {
    LineLengthIs(IsBreak, line, |line|);
    assert line[..|line|] == line && line[|line|..] == "";
  }

  lemma FlatTwo(items: seq<Item>)
    requires |items| == 2
    ensures Flat(Texts(items)) == items[0].text + items[1].text
  {
    var lines := Texts(items);
    assert lines == [items[0].text, items[1].text];
    assert lines[1..] == [items[1].text];
    assert Flat(lines[1..][1..]) == "";
  }

  // ----- the code -----

  method ApplyPair(y: Style, items: seq<Item>, p: Pair) returns (r: seq<Item>, n: nat)
    ensures r == Apply(y, items, p) && n == |r| - |items|
  {
    for i := 0 to |items|
      invariant forall k :: 0 <= k < i ==> !Is(y, items[k], p.korean)
    {
      if y.trim(items[i].text) == y.trim(p.korean) {
        FindIs(y, items, p.korean, i);
        var next := if i + 1 < |items| then y.trim(items[i + 1].text) else "";
        if next == y.trim(p.english) {
          return items, 0;
        }
        return Insert(items, i + 1, Translation(y, items[i].text, p)), 1;
      }
    }
    FindIs(y, items, p.korean, |items|);
    return items, 0;
  }

  class File {
    var text: string

    constructor (content: string)
      ensures text == content
    {
      text := content;
    }

    method ApplyTranslations(y: Style, pairs: seq<Pair>) returns (total: nat)
      modifies this
      ensures text == PassText(y, old(text), pairs)
      ensures total == |ApplyAll(y, Fresh(KeepEnds(old(text))), pairs)| - |KeepEnds(old(text))|
    {
      var items := Fresh(KeepEnds(text));
      total := 0;
      for i := 0 to |pairs|
        invariant ApplyAll(y, items, pairs[i..]) == ApplyAll(y, Fresh(KeepEnds(old(text))), pairs)
        invariant total == |items| - |KeepEnds(old(text))|
        invariant total == 0 ==> items == Fresh(KeepEnds(old(text)))
        invariant text == old(text)
      {
        assert pairs[i..][0] == pairs[i] && pairs[i..][1..] == pairs[i + 1..];
        var n: nat;
        items, n := ApplyPair(y, items, pairs[i]);
        total := total + n;
      }
      FlatKeepEnds(text);
      if total > 0 {
        text := Flat(Texts(items));
      }
    }
  }
}

/** The style in use: white space is trimmed, and the translation takes over the indentation. */
module CommentStyle {
  import opened Text
  import opened TextLines
  import opened Translations

  function Trim(s: string): string { RightTrim(LeftTrim(s)) }

  function Spaces(n: nat): string
  {
    if n == 0 then "" else [' '] + Spaces(n - 1)
  }

  // The line without the line feeds and carriage returns that end it.
  function Bare(line: string): (r: string)
    ensures |r| <= |line|
  {
    if line != "" && (line[|line| - 1] == '\n' || line[|line| - 1] == '\r') then Bare(line[..|line| - 1]) else line
  }

  function Indented(line: string, english: string): string
  {
    Spaces(|Bare(line)| - |LeftTrim(Bare(line))|) + english + "\n"
  }

  const STYLE := Style(Trim, Indented)

  lemma {:induction false} TrimSpaces(n: nat, s: string)
    ensures LeftTrim(Spaces(n) + s) == LeftTrim(s)
  {
    if n == 0 {
      assert "" + s == s;
    } else {
      TrimSpaces(n - 1, s);
      assert (Spaces(n) + s)[1..] == Spaces(n - 1) + s;
    }
  }

  lemma {:induction false} TrimFeed(s: string)
    ensures LeftTrim(s + "\n") == if LeftTrim(s) == "" then "" else LeftTrim(s) + "\n"
  {
    if s == "" {
      assert s + "\n" == "\n" && "\n"[1..] == "";
    } else if IsSpace(s[0]) {
      TrimFeed(s[1..]);
      assert (s + "\n")[1..] == s[1..] + "\n";
    }
  }

  lemma TrimLine(s: string)
    ensures Trim(s + "\n") == Trim(s)
  {
    TrimFeed(s);
    var t := LeftTrim(s);
    assert (t + "\n")[..|t|] == t;
  }

  lemma {:induction false} SpacesAreBlank(n: nat)
    ensures |Spaces(n)| == n && forall i :: 0 <= i < n ==> Spaces(n)[i] == ' '
  {
    if n > 0 { SpacesAreBlank(n - 1); }
  }

  lemma NewLine(n: nat, english: string)
    requires IsPlain(english)
    ensures IsNewLine(Spaces(n) + english + "\n")
  {
    SpacesAreBlank(n);
    var x := Spaces(n) + english;
    assert forall i :: 0 <= i < |x| ==> x[i] == if i < n then ' ' else english[i - n];
    LineLengthIs(IsBreak, x + "\n", |x|);
    assert (x + "\n")[0] == x[0];
  }

  /** An indented translation is recognised again, and is one line. */
  lemma {:induction false} StyleSound()
    ensures Sound(STYLE)
  {
    forall line, english
      ensures STYLE.trim(STYLE.made(line, english)) == STYLE.trim(english)
      ensures IsPlain(english) ==> IsNewLine(STYLE.made(line, english))
    {
      var n := |Bare(line)| - |LeftTrim(Bare(line))|;
      TrimLine(Spaces(n) + english);
      TrimSpaces(n, english);
      if IsPlain(english) { NewLine(n, english); }
    }
    forall line
      ensures STYLE.trim(line + "\n") == STYLE.trim(line)
    {
      TrimLine(line);
    }
  }

  /** Trimming takes the white space off both ends and nothing else. */
  lemma TrimIs(a: string, s: string, z: string)
    requires AllSpace(a) && AllSpace(z) && s != "" && !IsSpace(s[0]) && !IsSpace(s[|s| - 1])
    ensures Trim(a + (s + z)) == s
  {
    LeftTrimBlank(a, s + z);
    RightTrimBlank(s, z);
  }

  predicate AllEnds(e: string) { forall i :: 0 <= i < |e| ==> e[i] == '\n' || e[i] == '\r' }

  lemma {:induction false} BareOf(s: string, e: string)
    requires AllEnds(e) && s != "" && s[|s| - 1] != '\n' && s[|s| - 1] != '\r'
    ensures Bare(s + e) == s
  {
    if e == "" {
      assert s + e == s;
    } else {
      assert (s + e)[..|s + e| - 1] == s + e[..|e| - 1];
      BareOf(s, e[..|e| - 1]);
    }
  }

  /** The translation is indented by as many blanks as there are white characters before the comment, however the
      line of the comment ends. */
  lemma {:induction false} IndentTaken(a: string, s: string, e: string, english: string)
    requires AllSpace(a) && AllEnds(e) && s != "" && !IsSpace(s[0]) && s[|s| - 1] != '\n' && s[|s| - 1] != '\r'
    ensures exists blanks: string ::
      && |blanks| == |a| && (forall i :: 0 <= i < |blanks| ==> blanks[i] == ' ')
      && Indented(a + s + e, english) == blanks + english + "\n"
  {
    BareOf(a + s, e);
    LeftTrimBlank(a, s);
    SpacesAreBlank(|a|);
  }

  /** A file whose only line is a comment without a line break loses the comment. */
  lemma LastLineIsLost(line: string, english: string)
    requires IsPlain(line) && IsPlain(english) && !IsSpace(line[0]) && !IsSpace(english[0])
    ensures PassText(STYLE, line, [Pair(line, english)]) == line + (english + "\n")
  {
    TrimStarts(english);
    GluedToLastLine(STYLE, line, Pair(line, english));
    BareIs(line);
    assert Spaces(0) + english == english;
  }

  lemma BareIs(line: string)
    requires IsPlain(line)
    ensures Bare(line) == line
  {
    assert !IsBreak(line[|line| - 1]);
  }

  lemma TrimStarts(s: string)
    requires s != "" && !IsSpace(s[0])
    ensures Trim(s) != ""
  {
    RightTrimStarts(s);
  }

  lemma {:induction false} RightTrimStarts(s: string)
    requires s != "" && !IsSpace(s[0])
    ensures RightTrim(s) != ""
  {
    if |s| > 1 && IsSpace(s[|s| - 1]) { RightTrimStarts(s[..|s| - 1]); }
  }

  lemma CommentIsPlain(line: string, english: string)
    requires line == "# 주석" && english == "# A comment."
    ensures IsPlain(line) && IsPlain(english) && line[0] == '#' && english[0] == '#'
  {
  }

  lemma CommentGlued(line: string, english: string)
    requires line == "# 주석" && english == "# A comment."
    ensures line + (english + "\n") == "# 주석# A comment.\n"
  {
  }

  /** The translation runs on behind the comment. */
  lemma CommentIsLost(line: string, english: string)
    requires line == "# 주석" && english == "# A comment."
    ensures PassText(STYLE, line, [Pair(line, english)]) == "# 주석# A comment.\n"
  {
    CommentIsPlain(line, english);
    LastLineIsLost(line, english);
    CommentGlued(line, english);
  }
}
