/** An entry of the ledger as it is written, and as it is read. */
module LedgerEntry {
  import opened Text
  import opened Decimal
  import opened NumberedText
  import opened DocsSync
  import opened DocsLedger
  import opened DocsScript
  import opened DocsText

  // The three parts of an entry: "- (A → **B** 단위", " + 통합 N) ", "= **C** 수집".
  function UnitPart(a: string, b: string): Tokens
  {
    [Ch('-'), Ch(' '), Ch('('), Num(a), Ch(' '), Ch('→'), Ch(' '), Ch('*'), Ch('*'), Num(b), Ch('*'), Ch('*'),
     Ch(' '), Ch('단'), Ch('위')]
  }

  function IntegPart(n: string): Tokens
  {
    [Ch(' '), Ch('+'), Ch(' '), Ch('통'), Ch('합'), Ch(' '), Num(n), Ch(')'), Ch(' ')]
  }

  function TotalPart(c: string): Tokens
  {
    [Ch('='), Ch(' '), Ch('*'), Ch('*'), Num(c), Ch('*'), Ch('*'), Ch(' '), Ch('수'), Ch('집')]
  }

  function EntryOf(a: string, b: string, n: string, c: string): Tokens
  {
    UnitPart(a, b) + (IntegPart(n) + TotalPart(c))
  }

  predicate Numbers(a: string, b: string, n: string, c: string)
  {
    Numeral(a) && Numeral(b) && Numeral(n) && Numeral(c)
  }

  // ----- the parts of the entry -----

  lemma EntryIsLine(e: Tokens, a: string, b: string, n: string, c: string)
    requires e == EntryOf(a, b, n, c)
    ensures Entry(e)
  {
    assert e[0] == Ch('-') && e[1] == Ch(' ');
  }

  lemma OpenTokens(e: Tokens, a: string, b: string, n: string, c: string)
    requires e == EntryOf(a, b, n, c)
    ensures |e| == 34 && e[2] == Ch('(') && e[3] == Num(a) && e[4] == Ch(' ') && e[5] == Ch('→') && e[6] == Ch(' ')
  {
  }

  lemma UnitTokens(e: Tokens, a: string, b: string, n: string, c: string)
    requires e == EntryOf(a, b, n, c)
    ensures |e| == 34 && e[7] == Ch('*') && e[8] == Ch('*') && e[9] == Num(b) && e[10] == Ch('*')
    ensures e[11] == Ch('*') && e[12] == Ch(' ') && e[13] == Ch('단') && e[14] == Ch('위')
  {
  }

  lemma TotalTokens(e: Tokens, a: string, b: string, n: string, c: string)
    requires e == EntryOf(a, b, n, c)
    ensures |e| == 34 && e[24] == Ch('=') && e[25] == Ch(' ') && e[26] == Ch('*') && e[27] == Ch('*')
    ensures e[28] == Num(c) && e[29] == Ch('*') && e[30] == Ch('*') && e[31] == Ch(' ') && e[32] == Ch('수')
    ensures e[33] == Ch('집')
  {
  }

  lemma IntegTokens(e: Tokens, a: string, b: string, n: string, c: string, i: nat)
    requires e == EntryOf(a, b, n, c) && i < 34
    ensures |e| == 34 && e[18] == Ch('통') && e[19] == Ch('합') && e[20] == Ch(' ') && e[21] == Num(n)
    ensures i != 18 ==> e[i] != Ch('통')
  {
  }

  // ----- the opener and the total -----

  lemma SkipOne(t: Tokens, k: nat)
    requires k + 1 < |t| && Spacing(t[k]) && !Spacing(t[k + 1])
    ensures Skip(t, k) == k + 1
  {
  }

  lemma BoldAt(e: Tokens, at: nat, x: string, c: char, d: char)
    requires at + 8 <= |e| && e[at] == Ch('*') && e[at + 1] == Ch('*') && e[at + 2] == Num(x) && AllDigits(x)
    requires e[at + 3] == Ch('*') && e[at + 4] == Ch('*') && e[at + 5] == Ch(' ')
    requires e[at + 6] == Ch(c) && e[at + 7] == Ch(d) && !IsSpace(c)
    ensures BoldThen(e, at, c, d) == Some((Value(x), at + 8))
  {
    SkipOne(e, at + 5);
  }

  lemma OpensBy(e: Tokens, a: string, b: string)
    requires |e| >= 15 && e[2] == Ch('(') && e[3] == Num(a) && e[4] == Ch(' ') && e[5] == Ch('→') && e[6] == Ch(' ')
    requires e[7] == Ch('*') && e[8] == Ch('*') && e[9] == Num(b) && e[10] == Ch('*') && e[11] == Ch('*')
    requires e[12] == Ch(' ') && e[13] == Ch('단') && e[14] == Ch('위') && AllDigits(a) && AllDigits(b)
    ensures OpenAt(e, 2) == Some(Opener(Value(a), Value(b), 15))
  {
    SkipOne(e, 4);
    SkipOne(e, 6);
    BoldAt(e, 7, b, '단', '위');
  }

  lemma EntryOpens(e: Tokens, a: string, b: string, n: string, c: string)
    requires e == EntryOf(a, b, n, c) && AllDigits(a) && AllDigits(b)
    ensures OpenAt(e, 2) == Some(Opener(Value(a), Value(b), 15))
  {
    OpenTokens(e, a, b, n, c);
    UnitTokens(e, a, b, n, c);
    OpensBy(e, a, b);
  }

  lemma EntryTotals(e: Tokens, a: string, b: string, n: string, c: string)
    requires e == EntryOf(a, b, n, c) && AllDigits(c)
    ensures TotalAt(e, 24) == Some(Value(c)) && OpenAt(e, 24).None?
  {
    TotalTokens(e, a, b, n, c);
    SkipOne(e, 25);
    BoldAt(e, 26, c, '수', '집');
  }

  lemma EntryQuiet(e: Tokens, a: string, b: string, n: string, c: string, i: nat)
    requires e == EntryOf(a, b, n, c) && i < 34 && i != 2 && i != 24
    ensures OpenAt(e, i).None? && TotalAt(e, i).None?
  {
    assert e[i] != Ch('(') && e[i] != Ch('=');
  }

  // With one opener and one total behind it, the line is that pair.
  lemma PairBy(e: Tokens, p: nat, q: nat, o: Opener, total: nat)
    requires p < q < |e| && OpenAt(e, p) == Some(o) && TotalAt(e, q) == Some(total) && OpenAt(e, q).None?
    requires forall i: nat :: i < |e| && i != p && i != q ==> !MarkAt(LEDGER, e, i)
    ensures LinePair(LEDGER, e) == Some(Pair(Print(total), Print(o.unit)))
  {
    NextMarkIs(LEDGER, e, p + 1, q);
    forall i: nat | Owns(LEDGER, e, i)
      ensures i == p
    {
      assert i != q && (i != p ==> !MarkAt(LEDGER, e, i));
    }
    assert Sole(LEDGER, e, p);
    LinePairIs(LEDGER, e);
  }

  lemma EntryPair(e: Tokens, a: string, b: string, n: string, c: string)
    requires e == EntryOf(a, b, n, c) && Numbers(a, b, n, c)
    ensures LinePair(LEDGER, e) == Some(Pair(Print(Value(c)), Print(Value(b))))
  {
    OpenTokens(e, a, b, n, c);
    EntryOpens(e, a, b, n, c);
    EntryTotals(e, a, b, n, c);
    forall i: nat | i < |e| && i != 2 && i != 24
      ensures !MarkAt(LEDGER, e, i)
    {
      EntryQuiet(e, a, b, n, c, i);
    }
    PairBy(e, 2, 24, Opener(Value(a), Value(b), 15), Value(c));
  }

  // ----- the integration count -----

  lemma FirstIs(tpl: string, t: Tokens, k: nat)
    requires Match(tpl, t, k) && forall i :: 0 <= i < k ==> !Match(tpl, t, i)
    ensures First(tpl, t, 0) == k
  {
  }

  // The first two characters fit.
  predicate Starts(tpl: string, t: Tokens, i: int)
    requires |tpl| > 1
  {
    0 <= i && i + 1 < |t| && Fits(tpl[0], t[i]) && Fits(tpl[1], t[i + 1])
  }

  lemma MatchStarts(tpl: string, t: Tokens, i: int)
    requires |tpl| > 1 && Match(tpl, t, i)
    ensures Starts(tpl, t, i)
  {
    assert Fits(tpl[0], t[i + 0]) && Fits(tpl[1], t[i + 1]);
  }

  lemma OnceAt(tpl: string, t: Tokens, k: nat)
    requires |tpl| > 1 && Match(tpl, t, k) && forall i :: Starts(tpl, t, i) ==> i == k
    ensures First(tpl, t, 0) == k && Once(tpl, t)
  {
    forall i | i != k
      ensures !Match(tpl, t, i)
    {
      if Match(tpl, t, i) {
        MatchStarts(tpl, t, i);
        assert false;
      }
    }
    FirstIs(tpl, t, k);
  }

  lemma EntryInteg(e: Tokens, a: string, b: string, n: string, c: string)
    requires e == EntryOf(a, b, n, c)
    ensures Once(INTEG, e) && NumAt(e, First(INTEG, e, 0) + 3) == n
  {
    IntegTokens(e, a, b, n, c, 18);
    assert |INTEG| == 4 && INTEG[0] == '통' && INTEG[1] == '합' && INTEG[2] == ' ' && INTEG[3] == SLOT;
    assert Match(INTEG, e, 18);
    forall i | Starts(INTEG, e, i)
      ensures i == 18
    {
      IntegTokens(e, a, b, n, c, i);
    }
    OnceAt(INTEG, e, 18);
  }

  // ----- the whole entry -----

  lemma EntrySlots(tpl: string)
    requires tpl == "- (@ → **@** 단위 + 통합 @) = **@** 수집"
    ensures |tpl| == 34
    ensures forall i :: 0 <= i < |tpl| ==> (tpl[i] == SLOT <==> i == 3 || i == 9 || i == 21 || i == 28)
    ensures forall i :: 0 <= i < |tpl| ==> !IsDigit(tpl[i])
  {
  }

  lemma EntryFits(tpl: string, e: Tokens, a: string, b: string, n: string, c: string)
    requires tpl == "- (@ → **@** 단위 + 통합 @) = **@** 수집" && e == EntryOf(a, b, n, c)
    ensures Match(tpl, e, 0)
  {
    EntrySlots(tpl);
    forall i | 0 <= i < |tpl|
      ensures Fits(tpl[i], e[0 + i])
    {
    }
  }

  lemma EntryNumbers(tpl: string, e: Tokens, a: string, b: string, n: string, c: string)
    requires tpl == "- (@ → **@** 단위 + 통합 @) = **@** 수집" && e == EntryOf(a, b, n, c)
    ensures NumbersOf(tpl, e, 0, 0) == [a, b, n, c]
  {
    EntrySlots(tpl);
    OpenTokens(e, a, b, n, c);
    UnitTokens(e, a, b, n, c);
    IntegTokens(e, a, b, n, c, 18);
    TotalTokens(e, a, b, n, c);
    NextNumber(tpl, e, 0, 0, 3);
    NextNumber(tpl, e, 0, 4, 9);
    NextNumber(tpl, e, 0, 10, 21);
    LastNumber(tpl, e, 0, 22, 28);
    assert [a] + ([b] + ([n] + [c])) == [a, b, n, c];
  }

  /** How the entry is written. */
  lemma {:induction false} EntryText(tpl: string, a: string, b: string, n: string, c: string)
    requires tpl == "- (@ → **@** 단위 + 통합 @) = **@** 수집"
    ensures Flatten(EntryOf(a, b, n, c)) == Filled(tpl, [a, b, n, c])
  {
    var e := EntryOf(a, b, n, c);
    EntrySlots(tpl);
    EntryFits(tpl, e, a, b, n, c);
    EntryNumbers(tpl, e, a, b, n, c);
    OpenTokens(e, a, b, n, c);
    MatchText(tpl, e, 0, 0);
    assert e[0..0 + |tpl|] == e;
  }

  /** Appended to the ledger, it gives its total, its second unit count and its integration count. */
  lemma {:induction false} EntryIsRead(ledger: Tokens, a: string, b: string, n: string, c: string)
    requires Numbers(a, b, n, c)
    requires |ledger| >= |HEADING| && First(NEXT_HEADING, ledger[|HEADING|..], 0) == -1
    requires EndsLine(ledger[|HEADING|..])
    ensures Authored(DOCS, ledger + EntryOf(a, b, n, c)) == Some(Tail(Print(Value(c)), Print(Value(b)), n))
  {
    var e := EntryOf(a, b, n, c);
    EntryIsLine(e, a, b, n, c);
    AppendedEntryIsRead(ledger, e);
    EntryPair(e, a, b, n, c);
    EntryInteg(e, a, b, n, c);
  }

  /** What follows the next heading of the ledger's level is not read. */
  lemma LaterSectionIgnored(ledger: Tokens, later: Tokens)
    requires |ledger| >= |HEADING| && First(NEXT_HEADING, ledger[|HEADING|..], 0) == -1
    requires First(NEXT_HEADING, (ledger + later)[|HEADING|..], 0) == |ledger| - |HEADING|
    ensures Authored(DOCS, ledger + later) == Authored(DOCS, ledger)
  {
    SameSection(|HEADING|, NEXT_HEADING, ledger, later);
  }

  lemma SameSection(n: nat, next: string, ledger: Tokens, later: Tokens)
    requires |ledger| >= n && First(next, ledger[n..], 0) == -1
    requires First(next, (ledger + later)[n..], 0) == |ledger| - n
    ensures SectionOf(n, next, ledger + later) == SectionOf(n, next, ledger)
  {
    assert (ledger + later)[n..][..|ledger| - n] == ledger[n..];
  }
}
