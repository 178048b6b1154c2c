/** Documents that the script fixes without making its own check pass. */
module DocsExample {
  import opened Text
  import opened Decimal
  import opened NumberedText
  import opened DocsSync
  import opened DocsLedger
  import opened DocsScript
  import opened LedgerEntry

  // A text that fits the template, with x for every number asked for.
  function Fill(tpl: string, x: string): (t: Tokens)
    ensures |t| == |tpl| && Match(tpl, t, 0)
    ensures forall i :: 0 <= i < |tpl| ==> t[i] == FillOne(tpl[i], x)
  {
    seq(|tpl|, i requires 0 <= i < |tpl| => FillOne(tpl[i], x))
  }

  function FillOne(c: char, x: string): Token
  {
    if c == SLOT then Num(x) else if IsDigit(c) then Num([c]) else Ch(c)
  }

  // An earlier count that is marked as current, then the summary line and the tracking cell.
  function Front(): Tokens
  {
    Fill(INTEG_NOW, "9") + (Fill(TOTAL, "0") + (Fill(CELL_TOTAL, "0") + Fill(CELL_UNIT, "0")))
  }

  // The last entry of the ledger.
  function LastEntry(): Tokens { EntryOf("0", "1", "1", "2") }

  function Ledger(): Tokens { Fill(HEADING, "0") + [Ch('\n')] }

  const EXAMPLE := Docs(Front() + (Ledger() + LastEntry()), Fill(BADGE, "0"), Fill(BADGE, "0"))

  // ----- the ledger is found -----

  lemma MatchInside(tpl: string, a: Tokens, b: Tokens, c: Tokens)
    requires Match(tpl, b, 0)
    ensures Match(tpl, a + (b + c), |a|)
  {
    assert forall i :: 0 <= i < |b| ==> (a + (b + c))[|a| + i] == b[i];
  }

  lemma BadgeOnce()
    ensures Once(BADGE, Fill(BADGE, "0"))
  {
    var t := Fill(BADGE, "0");
    FirstIs(BADGE, t, 0);
    assert forall k :: k >= 1 ==> !Match(BADGE, t, k);
  }

  // ----- the ledger -----

  predicate NoHash(t: Tokens)
  {
    forall i :: 0 <= i < |t| ==> t[i] != Ch('#')
  }

  lemma FillNoHash(tpl: string, x: string)
    requires '#' !in tpl
    ensures NoHash(Fill(tpl, x))
  {
  }

  lemma FrontNoHash()
    ensures NoHash(Front())
  {
    FillNoHash(INTEG_NOW, "9");
    FillNoHash(TOTAL, "0");
    FillNoHash(CELL_TOTAL, "0");
    FillNoHash(CELL_UNIT, "0");
  }

  lemma HeadingChars2()
    ensures |HEADING| == 14 && HEADING[0] == '#' && HEADING[1] == '#'
    ensures forall i :: 2 <= i < |HEADING| ==> HEADING[i] != '#' && HEADING[i] != SLOT && !IsDigit(HEADING[i])
  {
  }

  lemma HeadingOnce(front: Tokens, rest: Tokens)
    requires NoHash(front) && NoHash(rest)
    ensures LedgerAt(DOCS, front + (Fill(HEADING, "0") + rest)) == |front|
  {
    var h := Fill(HEADING, "0");
    var t := front + (h + rest);
    HeadingChars2();
    MatchInside(HEADING, front, h, rest);
    forall i | Starts(HEADING, t, i)
      ensures i == |front|
    {
      assert t[i] == Ch('#') && t[i + 1] == Ch('#');
    }
    OnceAt(HEADING, t, |front|);
  }

  // ----- the documents -----

  lemma LedgerIsRead(e: Tokens)
    requires e == LastEntry()
    ensures Authored(DOCS, Ledger() + e) == Some(Tail("2", "1", "1"))
  {
    SmallLedger(Ledger());
    DigitsPrinted("1", "2");
    EntryIsRead(Ledger(), "0", "1", "1", "2");
  }

  lemma SmallLedger(ledger: Tokens)
    requires ledger == Ledger()
    ensures |ledger| >= |HEADING| && First(NEXT_HEADING, ledger[|HEADING|..], 0) == -1
    ensures EndsLine(ledger[|HEADING|..])
  {
    HeadingChars2();
    assert ledger[|HEADING|..] == [Ch('\n')];
    assert |NEXT_HEADING| == 4;
  }

  lemma DigitsPrinted(one: string, two: string)
    requires one == "1" && two == "2"
    ensures AllDigits(one) && AllDigits(two) && Print(Value(one)) == one && Print(Value(two)) == two
  {
    OneDigit('1');
    OneDigit('2');
  }

  lemma OneDigit(c: char)
    requires IsDigit(c)
    ensures AllDigits([c]) && Value([c]) == DigitValue(c)
  {
    assert [c][..0] == "";
  }

  lemma OneAndOne()
    ensures Sums("2", "1", "1") && !Sums("2", "1", "9")
  {
    OneDigit('1');
    OneDigit('2');
    OneDigit('9');
  }

  // All three current counts stand in front, behind one that is not the cell's.
  lemma FrontReads(front: Tokens)
    requires front == Front()
    ensures Found(TOTAL, front) && Found(CELL_TOTAL, front) && Found(CELL_UNIT, front)
    ensures First(INTEG_NOW, front, 0) == 0 && NumAt(front, 3) == "9"
  {
    var a, b, c, d := Fill(INTEG_NOW, "9"), Fill(TOTAL, "0"), Fill(CELL_TOTAL, "0"), Fill(CELL_UNIT, "0");
    FourParts(a, b, c, d, INTEG_NOW, TOTAL, CELL_TOTAL, CELL_UNIT);
    FirstIs(INTEG_NOW, front, 0);
    assert INTEG_NOW[3] == SLOT && front[3] == a[3];
  }

  lemma FourParts(a: Tokens, b: Tokens, c: Tokens, d: Tokens, ta: string, tb: string, tc: string, td: string)
    requires Match(ta, a, 0) && Match(tb, b, 0) && Match(tc, c, 0) && Match(td, d, 0)
    ensures var all := a + (b + (c + d));
      Match(ta, all, 0) && Found(tb, all) && Found(tc, all) && Found(td, all)
  {
    var all := a + (b + (c + d));
    assert [] + (a + (b + (c + d))) == all;
    MatchInside(ta, [], a, b + (c + d));
    MatchInside(tb, a, b, c + d);
    assert (a + b) + (c + d) == all;
    MatchInside(tc, a + b, c, d);
    assert (a + b + c) + (d + []) == all;
    MatchInside(td, a + b + c, d, []);
  }

  lemma EntryNoHash(e: Tokens)
    requires e == LastEntry()
    ensures NoHash([Ch('\n')] + e)
  {
  }

  // ----- the documents are texts -----

  predicate NumberChar(c: char) { c == SLOT || IsDigit(c) }

  predicate Spaced(tpl: string)
  {
    tpl != "" && !NumberChar(tpl[|tpl| - 1])
    && forall i :: 0 < i < |tpl| && NumberChar(tpl[i]) ==> !NumberChar(tpl[i - 1])
  }

  predicate GoodToken(x: Token) { if x.Num? then Numeral(x.digits) else !IsDigit(x.c) }

  // A text that does not end in a number.
  predicate ClosedText(t: Tokens)
  {
    && (forall k :: 0 <= k < |t| ==> GoodToken(t[k]))
    && (forall k :: 0 < k < |t| && t[k].Num? ==> t[k - 1].Ch?)
    && (t != [] ==> t[|t| - 1].Ch?)
  }

  lemma ClosedIsCanonical(t: Tokens)
    requires ClosedText(t)
    ensures Canonical(t)
  {
    assert forall k :: 0 <= k < |t| ==> GoodToken(t[k]);
  }

  predicate IsFilled(c: char, x: Token) { GoodToken(x) && (x.Num? <==> NumberChar(c)) }

  lemma FilledToken(c: char, x: string)
    requires Numeral(x)
    ensures IsFilled(c, FillOne(c, x))
  {
  }

  lemma SpacedIsClosed(tpl: string, t: Tokens)
    requires |t| == |tpl| && Spaced(tpl)
    requires forall i :: 0 <= i < |tpl| ==> IsFilled(tpl[i], t[i])
    ensures ClosedText(t)
  {
  }

  lemma FillIsText(tpl: string, x: string)
    requires Spaced(tpl) && Numeral(x)
    ensures ClosedText(Fill(tpl, x))
  {
    var t := Fill(tpl, x);
    forall i | 0 <= i < |tpl|
      ensures IsFilled(tpl[i], t[i])
    {
      FilledToken(tpl[i], x);
    }
    SpacedIsClosed(tpl, t);
  }

  lemma JoinTexts(a: Tokens, b: Tokens)
    requires ClosedText(a) && ClosedText(b)
    ensures ClosedText(a + b)
  {
    var t := a + b;
    assert forall k :: 0 <= k < |t| ==> t[k] == if k < |a| then a[k] else b[k - |a|];
    forall k | 0 < k < |t| && t[k].Num?
      ensures t[k - 1].Ch?
    {
      if k > |a| { assert t[k - 1] == b[k - |a| - 1]; }
    }
  }

  lemma TemplatesSpaced()
    ensures Spaced(INTEG_NOW) && Spaced(CELL_TOTAL) && Spaced(CELL_UNIT)
  {
  }

  lemma TotalSpaced()
    ensures Spaced(TOTAL)
  {
  }

  lemma HeadingSpaced()
    ensures Spaced(HEADING)
  {
  }

  lemma BadgeSlotsAt()
    ensures |BADGE| == 43 && forall i :: 0 <= i < |BADGE| && BADGE[i] == SLOT ==> i == 6 || i == 18 || i == 29
  {
  }

  lemma SpacedBy(tpl: string)
    requires |tpl| == 43
    requires forall i :: 0 <= i < |tpl| && tpl[i] == SLOT ==> i == 6 || i == 18 || i == 29
    requires forall i :: 0 <= i < |tpl| && IsDigit(tpl[i]) ==> i == 8 || i == 26
    ensures Spaced(tpl)
  {
  }

  lemma BadgeSpaced()
    ensures Spaced(BADGE)
  {
    BadgeSlotsAt();
    BadgeDigits();
    SpacedBy(BADGE);
  }

  lemma FrontIsText()
    ensures ClosedText(Front())
  {
    TemplatesSpaced();
    TotalSpaced();
    FillIsText(INTEG_NOW, "9");
    FillIsText(TOTAL, "0");
    FillIsText(CELL_TOTAL, "0");
    FillIsText(CELL_UNIT, "0");
    JoinTexts(Fill(CELL_TOTAL, "0"), Fill(CELL_UNIT, "0"));
    JoinTexts(Fill(TOTAL, "0"), Fill(CELL_TOTAL, "0") + Fill(CELL_UNIT, "0"));
    JoinTexts(Fill(INTEG_NOW, "9"), Fill(TOTAL, "0") + (Fill(CELL_TOTAL, "0") + Fill(CELL_UNIT, "0")));
  }

  lemma EntryPartsAreTexts(a: string, b: string, n: string, c: string)
    requires Numbers(a, b, n, c)
    ensures ClosedText(UnitPart(a, b)) && ClosedText(IntegPart(n)) && ClosedText(TotalPart(c))
  {
    UnitIsText(a, b);
    IntegIsText(n);
    TotalIsText(c);
  }

  lemma UnitIsText(a: string, b: string)
    requires Numeral(a) && Numeral(b)
    ensures ClosedText(UnitPart(a, b))
  {
  }

  lemma IntegIsText(n: string)
    requires Numeral(n)
    ensures ClosedText(IntegPart(n))
  {
  }

  lemma TotalIsText(c: string)
    requires Numeral(c)
    ensures ClosedText(TotalPart(c))
  {
  }

  // The example is what three texts are read as.
  lemma ExampleIsText()
    ensures CanonicalDocs(EXAMPLE)
  {
    FrontIsText();
    EntryPartsAreTexts("0", "1", "1", "2");
    assert ClosedText([Ch('\n')]);
    JoinTexts(IntegPart("1"), TotalPart("2"));
    JoinTexts(UnitPart("0", "1"), IntegPart("1") + TotalPart("2"));
    HeadingSpaced();
    FillIsText(HEADING, "0");
    JoinTexts(Fill(HEADING, "0"), [Ch('\n')]);
    JoinTexts(Ledger(), LastEntry());
    JoinTexts(Front(), Ledger() + LastEntry());
    BadgeSpaced();
    FillIsText(BADGE, "0");
    ClosedIsCanonical(EXAMPLE.state);
    ClosedIsCanonical(EXAMPLE.readme);
  }

  // ----- fixed, and still inconsistent -----

  lemma CanBeFixed(g: Grammar, d: Docs, front: Tokens, ledger: Tokens, x: Tail)
    requires d.state == front + ledger && LedgerAt(g, d.state) == |front|
    requires Authored(g, ledger) == Some(x) && Sums(x.total, x.unit, x.integ) && Found(g.cellTotal, front)
    requires Once(g.badge, d.readme) && Once(g.badge, d.readmeKo)
    ensures Fixable(g, d) && Source(g, d) == x
  {
    assert d.state[..|front|] == front && d.state[|front|..] == ledger;
  }

  // The first count marked as current stands before the cell and does not fit the sum.
  lemma BlocksTheCheck(g: Grammar, d: Docs, front: Tokens, x: Tail)
    requires Fixable(g, d) && Source(g, d) == x && front == d.state[..LedgerAt(g, d.state)]
    requires First(g.integNow, front, 0) == 0 && !Sums(x.total, x.unit, NumAt(front, 3))
    ensures !Repairable(g, d)
  {
    assert First(g.cellUnit, front, 0) + 7 != 0;
  }

  /** An earlier count that is marked as current: everything the script looks for is there, it rewrites
      the documents, and its own check then fails. */
  lemma {:induction false} EarlierCountBlocksTheCheck(want: string)
    ensures Fixable(DOCS, EXAMPLE) && !Repairable(DOCS, EXAMPLE)
    ensures !Consistent(DOCS, FixDocs(DOCS, EXAMPLE, want))
    ensures HasLines(DOCS, EXAMPLE.state[..LedgerAt(DOCS, EXAMPLE.state)]) && CanonicalDocs(EXAMPLE)
  {
    var front, e := Front(), LastEntry();
    FrontNoHash();
    EntryNoHash(e);
    assert Ledger() + e == Fill(HEADING, "0") + ([Ch('\n')] + e);
    HeadingOnce(front, [Ch('\n')] + e);
    LedgerIsRead(e);
    FrontReads(front);
    BadgeOnce();
    OneAndOne();
    CanBeFixed(DOCS, EXAMPLE, front, Ledger() + e, Tail("2", "1", "1"));
    assert EXAMPLE.state[..|front|] == front;
    BlocksTheCheck(DOCS, EXAMPLE, front, Tail("2", "1", "1"));
    FixThenCheck(EXAMPLE, want);
    ExampleIsText();
  }
}
