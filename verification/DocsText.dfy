/** What the checked and the fixed documents say, as texts and as numbers. */
module DocsText {
  import opened Text
  import opened Decimal
  import opened NumberedText
  import opened DocsSync
  import opened DocsLedger
  import opened DocsScript

  // ----- what the verdicts mean -----

  /** Three printed numbers add up exactly if the numbers do. */
  lemma {:induction false} SumsAre(a: nat, b: nat, c: nat)
    ensures Sums(Print(a), Print(b), Print(c)) <==> a == b + c
  {
    ValueOfPrint(a);
    ValueOfPrint(b);
    ValueOfPrint(c);
  }

  // The first occurrence of the template.
  ghost predicate FirstAt(tpl: string, t: Tokens, i: int)
  {
    Match(tpl, t, i) && forall k :: 0 <= k < i ==> !Match(tpl, t, k)
  }

  // The only one.
  ghost predicate OnlyAt(tpl: string, t: Tokens, i: int)
  {
    Match(tpl, t, i) && forall k :: k != i ==> !Match(tpl, t, k)
  }

  ghost predicate Nowhere(tpl: string, t: Tokens)
  {
    forall k :: !Match(tpl, t, k)
  }

  lemma FirstMeans(tpl: string, t: Tokens)
    ensures First(tpl, t, 0) == -1 <==> Nowhere(tpl, t)
    ensures forall i :: FirstAt(tpl, t, i) <==> i != -1 && First(tpl, t, 0) == i
    ensures tpl != "" ==> forall i :: OnlyAt(tpl, t, i) <==> Once(tpl, t) && First(tpl, t, 0) == i
  {
    var r := First(tpl, t, 0);
    forall k | k < 0
      ensures !Match(tpl, t, k)
    {
    }
    if tpl != "" && r != -1 {
      assert r < |t|;
      var q := First(tpl, t, r + 1);
    }
  }

  // The places at which the check reads: the ledger's heading, the first lines of the state in front of it, and
  // the two badges.
  datatype Places = Places(h: int, i: int, j: int, k: int, b: int, bKo: int)

  ghost predicate AreRead(g: Grammar, d: Docs, p: Places)
  {
    && OnlyAt(g.heading, d.state, p.h) && 0 <= p.h <= |d.state|
    && FirstAt(g.total, d.state[..p.h], p.i) && FirstAt(g.cellTotal, d.state[..p.h], p.j)
    && FirstAt(g.cellUnit, d.state[..p.h], p.k)
    && OnlyAt(g.badge, d.readme, p.b) && OnlyAt(g.badge, d.readmeKo, p.bKo)
  }

  // Every place shows the total and the unit count of the ledger, the two integration counts agree, and the
  // first one that is marked as current, if there is one, is the difference.
  ghost predicate AllSay(g: Grammar, d: Docs, p: Places, total: string, unit: string)
    requires 0 <= p.h <= |d.state|
  {
    Say(g, d.state[..p.h], d.readme, d.readmeKo, p, total, unit)
  }

  ghost predicate Say(g: Grammar, t: Tokens, readme: Tokens, readmeKo: Tokens, p: Places, total: string, unit: string)
  {
    && NumAt(t, p.i + 5) == NumAt(t, p.j + 2) == NumAt(readme, p.b + 6) == NumAt(readmeKo, p.bKo + 6) == total
    && NumAt(t, p.i + 18) == NumAt(t, p.k + 3) == NumAt(readme, p.b + 18) == NumAt(readmeKo, p.bKo + 18) == unit
    && NumAt(t, p.i + 27) == NumAt(t, p.k + 10)
    && IsDifference(g, t, total, unit)
  }

  ghost predicate AgreeAt(g: Grammar, d: Docs, p: Places)
  {
    && AreRead(g, d, p) && g.pair(d.state[p.h..]).Some?
    && AllSay(g, d, p, g.pair(d.state[p.h..]).value.total, g.pair(d.state[p.h..]).value.unit)
  }

  /** The check passes exactly if every place it reads exists and says what the last entry of the ledger says. */
  lemma {:induction false} CheckMeans(g: Grammar, d: Docs)
    requires g.heading != "" && g.badge != ""
    ensures Consistent(g, d) <==> exists p :: AgreeAt(g, d, p)
  {
    FirstMeans(g.heading, d.state);
    FirstMeans(g.badge, d.readme);
    FirstMeans(g.badge, d.readmeKo);
    if p :| AgreeAt(g, d, p) {
      ReadMeans(g, d, p);
    }
    if Consistent(g, d) {
      var h := LedgerAt(g, d.state);
      var t := d.state[..h];
      var p := Places(h, First(g.total, t, 0), First(g.cellTotal, t, 0), First(g.cellUnit, t, 0),
                      First(g.badge, d.readme, 0), First(g.badge, d.readmeKo, 0));
      FirstMeans(g.total, t);
      FirstMeans(g.cellTotal, t);
      FirstMeans(g.cellUnit, t);
      ReadMeans(g, d, p);
      assert AgreeAt(g, d, p);
    }
  }

  lemma ReadMeans(g: Grammar, d: Docs, p: Places)
    requires g.heading != "" && g.badge != "" && AreRead(g, d, p) && g.pair(d.state[p.h..]).Some?
    ensures LedgerAt(g, d.state) == p.h
    ensures var pair := g.pair(d.state[p.h..]).value;
      Consistent(g, d) <==> AllSay(g, d, p, pair.total, pair.unit)
  {
    var t, pair := d.state[..p.h], g.pair(d.state[p.h..]).value;
    var n := First(g.integNow, t, 0);
    FirstMeans(g.heading, d.state);
    CurrentRead(g, t, p);
    BadgeRead(g, d.readme, p.b);
    BadgeRead(g, d.readmeKo, p.bKo);
    NowMeans(g, t, pair.total, pair.unit);
    AgreeMeans(g, t, d.readme, d.readmeKo, p, pair);
  }

  lemma CurrentRead(g: Grammar, t: Tokens, p: Places)
    requires FirstAt(g.total, t, p.i) && FirstAt(g.cellTotal, t, p.j) && FirstAt(g.cellUnit, t, p.k)
    ensures var n := First(g.integNow, t, 0);
      ReadCurrent(g, t) == Some(Current(Tail(NumAt(t, p.i + 5), NumAt(t, p.i + 18), NumAt(t, p.i + 27)),
                                        Tail(NumAt(t, p.j + 2), NumAt(t, p.k + 3), NumAt(t, p.k + 10)),
                                        if n == -1 then None else Some(NumAt(t, n + 3))))
  {
    FirstMeans(g.total, t);
    FirstMeans(g.cellTotal, t);
    FirstMeans(g.cellUnit, t);
  }

  lemma BadgeRead(g: Grammar, t: Tokens, b: int)
    requires g.badge != "" && OnlyAt(g.badge, t, b)
    ensures ReadBadge(g, t) == Some(Pair(NumAt(t, b + 6), NumAt(t, b + 18)))
  {
    FirstMeans(g.badge, t);
  }

  // The first count marked as current, if there is one, is the difference.
  ghost predicate IsDifference(g: Grammar, t: Tokens, total: string, unit: string)
  {
    forall n :: FirstAt(g.integNow, t, n) ==>
      && AllDigits(total) && AllDigits(unit) && AllDigits(NumAt(t, n + 3))
      && Value(total) == Value(unit) + Value(NumAt(t, n + 3))
  }

  lemma NowMeans(g: Grammar, t: Tokens, total: string, unit: string)
    ensures var n := First(g.integNow, t, 0);
      IsDifference(g, t, total, unit) <==> n == -1 || Sums(total, unit, NumAt(t, n + 3))
  {
    FirstMeans(g.integNow, t);
    var n := First(g.integNow, t, 0);
    assert n != -1 ==> FirstAt(g.integNow, t, n);
  }

  lemma AgreeMeans(g: Grammar, t: Tokens, readme: Tokens, readmeKo: Tokens, p: Places, pair: Pair)
    requires ReadCurrent(g, t).Some? && ReadBadge(g, readme).Some? && ReadBadge(g, readmeKo).Some?
    requires var c := ReadCurrent(g, t).value;
      && c.summary == Tail(NumAt(t, p.i + 5), NumAt(t, p.i + 18), NumAt(t, p.i + 27))
      && c.cell == Tail(NumAt(t, p.j + 2), NumAt(t, p.k + 3), NumAt(t, p.k + 10))
      && ReadBadge(g, readme).value == Pair(NumAt(readme, p.b + 6), NumAt(readme, p.b + 18))
      && ReadBadge(g, readmeKo).value == Pair(NumAt(readmeKo, p.bKo + 6), NumAt(readmeKo, p.bKo + 18))
      && (IsDifference(g, t, pair.total, pair.unit) <==>
            c.integNow.None? || Sums(pair.total, pair.unit, c.integNow.value))
    ensures Agree(ReadCurrent(g, t).value, pair, ReadBadge(g, readme).value, ReadBadge(g, readmeKo).value)
      <==> Say(g, t, readme, readmeKo, p, pair.total, pair.unit)
  {
  }

  /** The documents can be fixed exactly if there is one heading of the ledger, the cell's total stands in
      front of it, the last entry gives three numbers that add up, and each README has one badge. */
  lemma {:induction false} FixableMeans(g: Grammar, d: Docs)
    requires g.heading != "" && g.badge != ""
    ensures Fixable(g, d) <==>
      && (exists h :: LedgerOk(g, d.state, h))
      && (exists b :: OnlyAt(g.badge, d.readme, b)) && exists b :: OnlyAt(g.badge, d.readmeKo, b)
    ensures Fixable(g, d) ==> var x := Source(g, d);
      && AllDigits(x.total) && AllDigits(x.unit) && AllDigits(x.integ)
      && Value(x.total) == Value(x.unit) + Value(x.integ)
  {
    FirstMeans(g.heading, d.state);
    FirstMeans(g.badge, d.readme);
    FirstMeans(g.badge, d.readmeKo);
    if LedgerAt(g, d.state) != -1 {
      FirstMeans(g.cellTotal, d.state[..LedgerAt(g, d.state)]);
    }
    if Fixable(g, d) {
      var h := LedgerAt(g, d.state);
      var j := First(g.cellTotal, d.state[..h], 0);
      assert Match(g.cellTotal, d.state[..h], j) && LedgerOk(g, d.state, h);
      assert OnlyAt(g.badge, d.readme, First(g.badge, d.readme, 0));
      assert OnlyAt(g.badge, d.readmeKo, First(g.badge, d.readmeKo, 0));
    }
  }

  ghost predicate LedgerOk(g: Grammar, state: Tokens, h: int)
  {
    && OnlyAt(g.heading, state, h) && 0 <= h <= |state|
    && (exists j :: Match(g.cellTotal, state[..h], j))
    && AddsUp(g.pair(state[h..]), g.integ(state[h..]))
  }

  predicate AddsUp(pair: Option<Pair>, integ: Option<string>)
  {
    && pair.Some? && integ.Some?
    && AllDigits(pair.value.total) && AllDigits(pair.value.unit) && AllDigits(integ.value)
    && Value(pair.value.total) == Value(pair.value.unit) + Value(integ.value)
  }

  // ----- what a fix leaves alone -----

  /** Outside the six numbers of the three first lines nothing in front of the ledger changes. */
  lemma {:induction false} OnlyCountsChange(g: Grammar, t: Tokens, x: Tail, p: nat)
    requires Plain(g) && Slots(g) && p < |t|
    requires forall i :: FirstAt(g.total, t, i) ==> p != i + 5 && p != i + 18 && p != i + 27
    requires forall j :: FirstAt(g.cellTotal, t, j) ==> p != j + 2
    requires forall k :: FirstAt(g.cellUnit, t, k) ==> p != k + 3 && p != k + 10
    ensures FixCurrent(g, t, x)[p] == t[p]
  {
    FirstFound(g.total, t);
    FirstFound(g.cellTotal, t);
    FirstFound(g.cellUnit, t);
    FixIsOnePut(g, t, x);
    NotWritten(g, t, x, p, First(g.total, t, 0), First(g.cellTotal, t, 0), First(g.cellUnit, t, 0));
  }

  lemma FirstFound(tpl: string, t: Tokens)
    ensures First(tpl, t, 0) != -1 ==> FirstAt(tpl, t, First(tpl, t, 0))
  {
  }

  lemma OnceFound(tpl: string, t: Tokens)
    requires tpl != "" && Once(tpl, t)
    ensures OnlyAt(tpl, t, First(tpl, t, 0))
  {
    FirstMeans(tpl, t);
  }

  lemma NotWritten(g: Grammar, t: Tokens, x: Tail, p: nat, i: int, j: int, k: int)
    requires i == First(g.total, t, 0) && j == First(g.cellTotal, t, 0) && k == First(g.cellUnit, t, 0)
    requires i != -1 ==> p != i + 5 && p != i + 18 && p != i + 27
    requires j != -1 ==> p != j + 2
    requires k != -1 ==> p != k + 3 && p != k + 10
    ensures p !in CurrentWrites(g, t, x)
  {
  }

  /** Outside the numbers of the first badge and of the only end-to-end badge nothing in a README changes. */
  lemma {:induction false} OnlyBadgesChange(g: Grammar, t: Tokens, x: Tail, want: string, p: nat)
    requires BadgeSlots(g) && BadgesSafe(g) && g.e2e != "" && p < |t|
    requires forall b :: FirstAt(g.badge, t, b) ==> p != b + 6 && p != b + 18 && p != b + 29
    requires forall e :: OnlyAt(g.e2e, t, e) && Numeral(want) ==> p != e + 4
    ensures |FixReadme(g, t, x, want)| == |t| && FixReadme(g, t, x, want)[p] == t[p]
  {
    FirstFound(g.badge, t);
    if Once(g.e2e, t) { OnceFound(g.e2e, t); }
    FixReadmeIsOnePut(g, t, x, want);
    BadgesNotWritten(g, t, x, want, p, First(g.badge, t, 0), First(g.e2e, t, 0));
  }

  lemma BadgesNotWritten(g: Grammar, t: Tokens, x: Tail, want: string, p: nat, b: int, e: int)
    requires b == First(g.badge, t, 0) && e == First(g.e2e, t, 0)
    requires b != -1 ==> p != b + 6 && p != b + 18 && p != b + 29
    requires Once(g.e2e, t) && Numeral(want) ==> p != e + 4
    ensures p !in ReadmeWrites(g, t, x, want)
  {
  }

  // ----- the lines as texts -----

  lemma {:induction false} FlattenAppend(a: Tokens, b: Tokens)
    ensures Flatten(a + b) == Flatten(a) + Flatten(b)
  {
    if a == [] {
      assert a + b == b;
    } else {
      assert (a + b)[1..] == a[1..] + b;
      FlattenAppend(a[1..], b);
    }
  }

  // The template from position i on, with these texts in the places of the numbers.
  function Filled(tpl: string, xs: seq<string>, i: nat := 0): string
    requires i <= |tpl|
    decreases |tpl| - i, |xs|
  {
    if i == |tpl| then ""
    else if tpl[i] == SLOT && xs != [] then xs[0] + Filled(tpl, xs[1..], i + 1)
    else [tpl[i]] + Filled(tpl, xs, i + 1)
  }

  // The numbers that a match at k has in these places.
  function NumbersOf(tpl: string, t: Tokens, k: nat, i: nat): seq<string>
    requires i <= |tpl|
    decreases |tpl| - i, |t|
  {
    if i == |tpl| then []
    else (if tpl[i] == SLOT then [NumAt(t, k + i)] else []) + NumbersOf(tpl, t, k, i + 1)
  }

  lemma FilledFirst(tpl: string, t: Tokens, k: nat, i: nat)
    requires i < |tpl|
    ensures Filled(tpl, NumbersOf(tpl, t, k, i), i) ==
      (if tpl[i] == SLOT then NumAt(t, k + i) else [tpl[i]]) + Filled(tpl, NumbersOf(tpl, t, k, i + 1), i + 1)
  {
    if tpl[i] == SLOT {
      assert NumbersOf(tpl, t, k, i)[1..] == NumbersOf(tpl, t, k, i + 1);
    } else {
      assert NumbersOf(tpl, t, k, i) == NumbersOf(tpl, t, k, i + 1);
    }
  }

  lemma {:induction false} MatchText(tpl: string, t: Tokens, k: nat, i: nat)
    requires Match(tpl, t, k) && i <= |tpl|
    ensures Flatten(t[k + i..k + |tpl|]) == Filled(tpl, NumbersOf(tpl, t, k, i), i)
    decreases |tpl| - i
  {
    if i < |tpl| {
      assert Fits(tpl[i], t[k + i]);
      assert t[k + i..k + |tpl|] == [t[k + i]] + t[k + (i + 1)..k + |tpl|];
      FlattenCons(t[k + i], t[k + (i + 1)..k + |tpl|]);
      MatchText(tpl, t, k, i + 1);
      FilledFirst(tpl, t, k, i);
    }
  }

  lemma {:induction false} NoNumbers(tpl: string, t: Tokens, k: nat, i: nat, s: nat)
    requires i <= s <= |tpl| && forall j :: i <= j < s ==> tpl[j] != SLOT
    ensures NumbersOf(tpl, t, k, i) == NumbersOf(tpl, t, k, s)
    decreases s - i
  {
    if i < s { NoNumbers(tpl, t, k, i + 1, s); }
  }

  lemma NextNumber(tpl: string, t: Tokens, k: nat, i: nat, s: nat)
    requires i <= s < |tpl| && tpl[s] == SLOT && forall j :: i <= j < s ==> tpl[j] != SLOT
    ensures NumbersOf(tpl, t, k, i) == [NumAt(t, k + s)] + NumbersOf(tpl, t, k, s + 1)
  {
    NoNumbers(tpl, t, k, i, s);
  }

  lemma LastNumber(tpl: string, t: Tokens, k: nat, i: nat, s: nat)
    requires i <= s < |tpl| && forall j :: i <= j < |tpl| ==> (tpl[j] == SLOT <==> j == s)
    ensures NumbersOf(tpl, t, k, i) == [NumAt(t, k + s)]
  {
    NextNumber(tpl, t, k, i, s);
    NoNumbers(tpl, t, k, s + 1, |tpl|);
  }

  // The text contains the template with the numbers.
  ghost predicate Says(text: string, tpl: string, xs: seq<string>)
  {
    exists i :: At(text, i, Filled(tpl, xs))
  }

  lemma Inside(a: string, b: string, c: string)
    ensures At(a + (b + c), |a|, b)
  {
  }

  lemma MatchSays(tpl: string, t: Tokens, k: nat)
    requires Match(tpl, t, k)
    ensures Says(Flatten(t), tpl, NumbersOf(tpl, t, k, 0))
  {
    var a, b, c := t[..k], t[k..k + |tpl|], t[k + |tpl|..];
    assert t == a + (b + c);
    FlattenAppend(a, b + c);
    FlattenAppend(b, c);
    MatchText(tpl, t, k, 0);
    Inside(Flatten(a), Flatten(b), Flatten(c));
  }

  lemma OneSaid(tpl: string, t: Tokens, k: nat, a: nat)
    requires Match(tpl, t, k) && a < |tpl|
    requires forall i :: 0 <= i < |tpl| ==> (tpl[i] == SLOT <==> i == a)
    ensures Says(Flatten(t), tpl, [NumAt(t, k + a)])
  {
    LastNumber(tpl, t, k, 0, a);
    MatchSays(tpl, t, k);
  }

  lemma TwoSaid(tpl: string, t: Tokens, k: nat, a: nat, b: nat)
    requires Match(tpl, t, k) && a < b < |tpl|
    requires forall i :: 0 <= i < |tpl| ==> (tpl[i] == SLOT <==> i == a || i == b)
    ensures Says(Flatten(t), tpl, [NumAt(t, k + a), NumAt(t, k + b)])
  {
    NextNumber(tpl, t, k, 0, a);
    LastNumber(tpl, t, k, a + 1, b);
    assert [NumAt(t, k + a)] + [NumAt(t, k + b)] == [NumAt(t, k + a), NumAt(t, k + b)];
    MatchSays(tpl, t, k);
  }

  lemma ThreeSaid(tpl: string, t: Tokens, k: nat, a: nat, b: nat, c: nat)
    requires Match(tpl, t, k) && a < b < c < |tpl|
    requires forall i :: 0 <= i < |tpl| ==> (tpl[i] == SLOT <==> i == a || i == b || i == c)
    ensures Says(Flatten(t), tpl, [NumAt(t, k + a), NumAt(t, k + b), NumAt(t, k + c)])
  {
    NextNumber(tpl, t, k, 0, a);
    NextNumber(tpl, t, k, a + 1, b);
    LastNumber(tpl, t, k, b + 1, c);
    ThreeNumbers(NumAt(t, k + a), NumAt(t, k + b), NumAt(t, k + c));
    MatchSays(tpl, t, k);
  }

  lemma ThreeNumbers(a: string, b: string, c: string)
    ensures [a] + ([b] + [c]) == [a, b, c]
  {
  }

  lemma TotalSlotsAt(tpl: string)
    requires tpl == TOTAL
    ensures |tpl| == 29 && forall i :: 0 <= i < |tpl| ==> (tpl[i] == SLOT <==> i == 5 || i == 18 || i == 27)
  {
  }

  /** What the summary line says. */
  lemma TotalText(t: Tokens, k: nat)
    requires Match(TOTAL, t, k)
    ensures Says(Flatten(t), "전체 **@** 수집 (단위 **@** + 통합 @)",
                 [NumAt(t, k + 5), NumAt(t, k + 18), NumAt(t, k + 27)])
  {
    TotalSlotsAt(TOTAL);
    ThreeSaid(TOTAL, t, k, 5, 18, 27);
  }

  lemma CellSlotsAt(tpl: string, tpl2: string)
    requires tpl == CELL_TOTAL && tpl2 == CELL_UNIT
    ensures |tpl| == 8 && forall i :: 0 <= i < |tpl| ==> (tpl[i] == SLOT <==> i == 2)
    ensures |tpl2| == 16 && forall i :: 0 <= i < |tpl2| ==> (tpl2[i] == SLOT <==> i == 3 || i == 10)
  {
  }

  /** What the tracking cell says. */
  lemma CellText(t: Tokens, j: nat, k: nat)
    requires Match(CELL_TOTAL, t, j) && Match(CELL_UNIT, t, k)
    ensures Says(Flatten(t), "**@ 수집**", [NumAt(t, j + 2)])
    ensures Says(Flatten(t), "단위 @ + 통합 @ (현재)", [NumAt(t, k + 3), NumAt(t, k + 10)])
  {
    CellSlotsAt(CELL_TOTAL, CELL_UNIT);
    OneSaid(CELL_TOTAL, t, j, 2);
    TwoSaid(CELL_UNIT, t, k, 3, 10);
  }

  lemma BadgeSlotsAt(tpl: string)
    requires tpl == BADGE
    ensures |tpl| == 43 && forall i :: 0 <= i < |tpl| ==> (tpl[i] == SLOT <==> i == 6 || i == 18 || i == 29)
  {
  }

  /** What a badge says. */
  lemma BadgeText(t: Tokens, k: nat)
    requires Match(BADGE, t, k)
    ensures Says(Flatten(t), "Tests-@%2B_total_(@_unit_%2B_@_integration)",
                 [NumAt(t, k + 6), NumAt(t, k + 18), NumAt(t, k + 29)])
  {
    BadgeSlotsAt(BADGE);
    ThreeSaid(BADGE, t, k, 6, 18, 29);
  }

  lemma E2eSlotsAt(tpl: string)
    requires tpl == E2E_BADGE
    ensures |tpl| == 11 && forall i :: 0 <= i < |tpl| ==> (tpl[i] == SLOT <==> i == 4)
  {
  }

  lemma E2eText(t: Tokens, k: nat)
    requires Match(E2E_BADGE, t, k)
    ensures Says(Flatten(t), "E2E-@_in_CI", [NumAt(t, k + 4)])
  {
    E2eSlotsAt(E2E_BADGE);
    OneSaid(E2E_BADGE, t, k, 4);
  }

  // ----- the documents as texts -----

  // The text in front of the ledger has the three lines with these numbers.
  ghost predicate StateSays(text: string, x: Tail)
  {
    && Says(text, "전체 **@** 수집 (단위 **@** + 통합 @)", [x.total, x.unit, x.integ])
    && Says(text, "**@ 수집**", [x.total])
    && Says(text, "단위 @ + 통합 @ (현재)", [x.unit, x.integ])
  }

  ghost predicate ReadmeSays(text: string, x: Tail)
  {
    Says(text, "Tests-@%2B_total_(@_unit_%2B_@_integration)", [x.total, x.unit, x.integ])
  }

  lemma LinesSay(t: Tokens, x: Tail)
    requires HasLines(DOCS, t)
    requires var c := ReadCurrent(DOCS, t).value; c.summary == x == c.cell
    ensures StateSays(Flatten(t), x)
  {
    TotalText(t, First(TOTAL, t, 0));
    CellText(t, First(CELL_TOTAL, t, 0), First(CELL_UNIT, t, 0));
  }

  lemma BadgeSays(t: Tokens)
    requires ReadBadge(DOCS, t).Some?
    ensures var pair := ReadBadge(DOCS, t).value;
      ReadmeSays(Flatten(t), Tail(pair.total, pair.unit, NumAt(t, First(BADGE, t, 0) + 29)))
  {
    BadgeText(t, First(BADGE, t, 0));
  }

  /** Where the check passes, the text in front of the ledger has the summary line and the lines of the cell with
      the ledger's total and unit count and one integration count, and each README has a badge with both. */
  lemma {:induction false} CheckedTexts(d: Docs)
    requires Consistent(DOCS, d)
    ensures var h := LedgerAt(DOCS, d.state);
      var pair := ReadPair(d.state[h..]).value;
      && (exists integ :: StateSays(Flatten(d.state[..h]), Tail(pair.total, pair.unit, integ)))
      && (exists integ :: ReadmeSays(Flatten(d.readme), Tail(pair.total, pair.unit, integ)))
      && exists integ :: ReadmeSays(Flatten(d.readmeKo), Tail(pair.total, pair.unit, integ))
  {
    var t := d.state[..LedgerAt(DOCS, d.state)];
    LinesSay(t, ReadCurrent(DOCS, t).value.cell);
    BadgeSays(d.readme);
    BadgeSays(d.readmeKo);
  }

  /** After a fix the lines that are there and the badges say the numbers of the ledger's last entry. */
  lemma {:induction false} FixedTexts(d: Docs, want: string)
    requires Fixable(DOCS, d)
    ensures var d2, h, x := FixDocs(DOCS, d, want), LedgerAt(DOCS, d.state), Source(DOCS, d);
      && (HasLines(DOCS, d.state[..h]) ==> StateSays(Flatten(d2.state[..h]), x))
      && ReadmeSays(Flatten(d2.readme), x)
      && ReadmeSays(Flatten(d2.readmeKo), x)
  {
    var d2, h, x := FixDocs(DOCS, d, want), LedgerAt(DOCS, d.state), Source(DOCS, d);
    DocsSound();
    FixedReads(DOCS, d, want, x);
    if HasLines(DOCS, d.state[..h]) {
      FixStateParts(DOCS, d.state, x);
      LinesSay(d2.state[..h], x);
    }
    FixedBadge(d.readme, x, want);
    FixedBadge(d.readmeKo, x, want);
  }

  lemma FixedBadge(t: Tokens, x: Tail, want: string)
    requires Once(BADGE, t)
    ensures ReadmeSays(Flatten(FixReadme(DOCS, t, x, want)), x)
  {
    DocsSound();
    BadgeFixed(DOCS, t, x, want);
    FixReadmeIsOnePut(DOCS, t, x, want);
    BadgesKept(DOCS, t, FixReadme(DOCS, t, x, want));
    BadgeSays(FixReadme(DOCS, t, x, want));
  }

  /** And an unambiguous end-to-end badge says the baseline, if that is a number. */
  lemma {:induction false} FixedE2eText(t: Tokens, x: Tail, want: string)
    requires Once(E2E_BADGE, t) && Numeral(want)
    ensures Says(Flatten(FixReadme(DOCS, t, x, want)), "E2E-@_in_CI", [want])
  {
    DocsSound();
    E2eFixed(DOCS, t, x, want);
    var t2 := FixReadme(DOCS, t, x, want);
    E2eText(t2, First(E2E_BADGE, t2, 0));
  }
}
