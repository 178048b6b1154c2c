/**
 * Texts as runs of digits and single other characters.  Every pattern that the documents are
 * searched for brackets its digit groups with non-digits, so a group always matches a whole run.
 */
module NumberedText {
  import opened Decimal

  datatype Token = Ch(c: char) | Num(digits: string)

  type Tokens = seq<Token>

  predicate Canonical(t: Tokens)
  {
    && (forall k :: 0 <= k < |t| ==> if t[k].Num? then Numeral(t[k].digits) else !IsDigit(t[k].c))
    && (forall k :: 0 < k < |t| ==> !(t[k - 1].Num? && t[k].Num?))
  }

  function Tokenize(s: string): (t: Tokens)
    ensures Canonical(t)
    ensures |t| > 0 && t[0].Num? ==> s != "" && IsDigit(s[0])
    decreases |s|
  {
    if s == "" then []
    else
      var n := DigitRun(s);
      if n == 0 then [Ch(s[0])] + Tokenize(s[1..]) else [Num(s[..n])] + Tokenize(s[n..])
  }

  function Flatten(t: Tokens): string
  {
    if t == [] then "" else (if t[0].Num? then t[0].digits else [t[0].c]) + Flatten(t[1..])
  }

  lemma {:induction false} FlattenTokenize(s: string)
    ensures Flatten(Tokenize(s)) == s
    decreases |s|
  {
    if s != "" {
      var n := DigitRun(s);
      if n == 0 {
        FlattenTokenize(s[1..]);
        FlattenCons(Ch(s[0]), Tokenize(s[1..]));
        assert s == [s[0]] + s[1..];
      } else {
        FlattenTokenize(s[n..]);
        TokenizeRun(s, n);
        FlattenRun(s, n, Tokenize(s[n..]));
      }
    }
  }

  lemma TokenizeRun(s: string, n: nat)
    requires s != "" && DigitRun(s) == n > 0
    ensures Tokenize(s) == [Num(s[..n])] + Tokenize(s[n..])
  {
  }

  lemma FlattenRun(s: string, n: nat, rest: Tokens)
    requires n <= |s| && Flatten(rest) == s[n..]
    ensures Flatten([Num(s[..n])] + rest) == s
  {
    FlattenCons(Num(s[..n]), rest);
    assert s[..n] + s[n..] == s;
  }

  lemma FlattenCons(x: Token, t: Tokens)
    ensures Flatten([x] + t) == (if x.Num? then x.digits else [x.c]) + Flatten(t)
  {
    assert ([x] + t)[1..] == t;
  }

  lemma {:induction false} TokenizeFlatten(t: Tokens)
    requires Canonical(t)
    ensures Tokenize(Flatten(t)) == t
  {
    if t != [] {
      var rest := t[1..];
      assert Canonical(rest) by {
        assert forall k :: 0 <= k < |rest| ==> rest[k] == t[k + 1];
      }
      TokenizeFlatten(rest);
      FlattenHead(rest);
      if t[0].Num? {
        assert |rest| > 0 ==> t[1] == rest[0];
        DigitRunConcat(t[0].digits, Flatten(rest));
      } else {
        assert Flatten(t)[1..] == Flatten(rest);
      }
    }
  }

  lemma FlattenHead(t: Tokens)
    requires Canonical(t)
    ensures Flatten(t) == "" <==> t == []
    ensures t != [] ==> (IsDigit(Flatten(t)[0]) <==> t[0].Num?)
  {
  }

  // ----- templates: '@' stands for any number, a digit for that one-digit number -----

  const SLOT := '@'

  predicate Fits(c: char, x: Token)
  {
    if c == SLOT then x.Num? else if IsDigit(c) then x == Num([c]) else x == Ch(c)
  }

  predicate Match(tpl: string, t: Tokens, k: int)
  {
    0 <= k && k + |tpl| <= |t| && forall i :: 0 <= i < |tpl| ==> Fits(tpl[i], t[k + i])
  }

  // The first match at or after `from`, or -1.
  function First(tpl: string, t: Tokens, from: nat): (r: int)
    requires from <= |t|
    ensures r == -1 || (from <= r && Match(tpl, t, r))
    ensures forall k :: from <= k && (r == -1 || k < r) ==> !Match(tpl, t, k)
    decreases |t| - from
  {
    if Match(tpl, t, from) then from
    else if from == |t| then -1
    else First(tpl, t, from + 1)
  }

  predicate Once(tpl: string, t: Tokens)
  {
    var i := First(tpl, t, 0);
    i != -1 && i < |t| && First(tpl, t, i + 1) == -1
  }

  // ----- rewriting numbers moves nothing -----

  // The texts differ at most in numbers.
  predicate SameShape(t: Tokens, t2: Tokens)
  {
    |t| == |t2| && forall k :: 0 <= k < |t| ==> t[k] == t2[k] || (t[k].Num? && t2[k].Num?)
  }

  predicate NoDigits(tpl: string)
  {
    forall i :: 0 <= i < |tpl| ==> !IsDigit(tpl[i])
  }

  lemma MatchByShape(tpl: string, t: Tokens, t2: Tokens, k: int)
    requires SameShape(t, t2) && NoDigits(tpl)
    ensures Match(tpl, t, k) <==> Match(tpl, t2, k)
  {
  }

  lemma {:induction false} FirstByMatches(tpl: string, t: Tokens, t2: Tokens, from: nat)
    requires |t| == |t2| && from <= |t|
    requires forall k :: Match(tpl, t, k) <==> Match(tpl, t2, k)
    ensures First(tpl, t, from) == First(tpl, t2, from)
    decreases |t| - from
  {
    if !Match(tpl, t, from) && from < |t| { FirstByMatches(tpl, t, t2, from + 1); }
  }

  lemma FirstByShape(tpl: string, t: Tokens, t2: Tokens)
    requires SameShape(t, t2) && NoDigits(tpl)
    ensures First(tpl, t, 0) == First(tpl, t2, 0)
  {
    forall k
      ensures Match(tpl, t, k) <==> Match(tpl, t2, k)
    {
      MatchByShape(tpl, t, t2, k);
    }
    FirstByMatches(tpl, t, t2, 0);
  }

  // Literal digits are safe where every changed number follows a character that none of them follows.
  predicate SafeChange(t: Tokens, t2: Tokens, before: set<char>)
  {
    && SameShape(t, t2)
    && forall k :: 0 <= k < |t| && t[k] != t2[k] ==> k > 0 && t[k - 1].Ch? && t[k - 1].c in before
  }

  predicate SafeTemplate(tpl: string, before: set<char>)
  {
    forall i :: 0 <= i < |tpl| && IsDigit(tpl[i]) ==>
      i > 0 && !IsDigit(tpl[i - 1]) && tpl[i - 1] != SLOT && tpl[i - 1] !in before
  }

  lemma MatchBySafe(tpl: string, t: Tokens, t2: Tokens, before: set<char>, k: int)
    requires SafeChange(t, t2, before) && SafeTemplate(tpl, before) && Match(tpl, t, k)
    ensures Match(tpl, t2, k)
  {
    forall i | 0 <= i < |tpl|
      ensures Fits(tpl[i], t2[k + i])
    {
      assert Fits(tpl[i], t[k + i]);
      if IsDigit(tpl[i]) {
        assert Fits(tpl[i - 1], t[k + (i - 1)]);
      }
    }
  }

  lemma SafeBack(t: Tokens, t2: Tokens, before: set<char>)
    requires SafeChange(t, t2, before)
    ensures SafeChange(t2, t, before)
  {
  }

  lemma MatchesBySafe(tpl: string, t: Tokens, t2: Tokens, before: set<char>)
    requires SafeChange(t, t2, before) && SafeTemplate(tpl, before)
    ensures forall k :: Match(tpl, t, k) <==> Match(tpl, t2, k)
  {
    SafeBack(t, t2, before);
    forall k
      ensures Match(tpl, t, k) <==> Match(tpl, t2, k)
    {
      if Match(tpl, t, k) { MatchBySafe(tpl, t, t2, before, k); }
      if Match(tpl, t2, k) { MatchBySafe(tpl, t2, t, before, k); }
    }
  }

  // ----- rewriting numbers at given places -----

  type Writes = map<int, string>

  function Put(t: Tokens, w: Writes): (t2: Tokens)
    ensures |t2| == |t|
    ensures forall p :: 0 <= p < |t| ==> t2[p] == if p in w then Num(w[p]) else t[p]
  {
    seq(|t|, p requires 0 <= p < |t| => if p in w then Num(w[p]) else t[p])
  }

  predicate OnNumbers(t: Tokens, w: Writes)
  {
    forall p :: p in w ==> 0 <= p < |t| && t[p].Num?
  }

  lemma PutShape(t: Tokens, w: Writes)
    requires OnNumbers(t, w)
    ensures SameShape(t, Put(t, w))
  {
  }

  lemma PutTwice(t: Tokens, v: Writes, w: Writes)
    ensures Put(Put(t, v), w) == Put(t, v + w)
  {
  }

  lemma PutAgain(t: Tokens, w: Writes)
    ensures Put(Put(t, w), w) == Put(t, w)
  {
  }

  lemma PutCanonical(t: Tokens, w: Writes)
    requires Canonical(t) && OnNumbers(t, w)
    requires AllNumerals(w)
    ensures Canonical(Put(t, w))
  {
  }

  predicate AllNumerals(w: Writes)
  {
    forall p :: p in w ==> Numeral(w[p])
  }

  lemma NumeralsUnion(v: Writes, w: Writes)
    requires AllNumerals(v) && AllNumerals(w)
    ensures AllNumerals(v + w)
  {
  }
}

/** The status document, the two README badges, and the script that keeps their numbers in step. */
module DocsSync {
  import opened Text
  import opened Decimal
  import opened NumberedText

  datatype Pair = Pair(total: string, unit: string)

  // What the last entry of the ledger says.
  datatype Tail = Tail(total: string, unit: string, integ: string)

  // The patterns, and how the total/unit pair and the integration count are read off the ledger
  // (heading included).
  datatype Grammar = Grammar(heading: string, total: string, cellTotal: string, cellUnit: string,
                             integNow: string, badge: string, e2e: string,
                             pair: Tokens -> Option<Pair>, integ: Tokens -> Option<string>)

  datatype Docs = Docs(state: Tokens, readme: Tokens, readmeKo: Tokens)

  // ----- what is known of the patterns -----

  predicate Slot(tpl: string, s: nat)
  {
    s < |tpl| && tpl[s] == SLOT
  }

  predicate Literal(tpl: string, s: int)
  {
    0 <= s < |tpl| && tpl[s] != SLOT && !IsDigit(tpl[s])
  }

  // At distance d from slots s and u the two patterns ask for different characters.
  predicate Differ(a: string, s: nat, b: string, u: nat, d: int)
  {
    Literal(a, s + d) && Literal(b, u + d) && a[s + d] != b[u + d]
  }

  lemma LiteralAt(tpl: string, s: int, t: Tokens, i: int)
    requires Literal(tpl, s) && Match(tpl, t, i)
    ensures 0 <= i + s < |t| && t[i + s] == Ch(tpl[s])
  {
    assert Fits(tpl[s], t[i + s]);
  }

  lemma DifferApart(a: string, s: nat, b: string, u: nat, d: int, t: Tokens, i: int, j: int)
    requires Differ(a, s, b, u, d)
    requires Match(a, t, i) && Match(b, t, j)
    ensures i + s != j + u
  {
    LiteralAt(a, s + d, t, i);
    LiteralAt(b, u + d, t, j);
  }

  lemma SlotNumber(tpl: string, s: nat, t: Tokens, i: int)
    requires Slot(tpl, s) && Match(tpl, t, i)
    ensures 0 <= i && i + |tpl| <= |t| && t[i + s].Num?
  {
    assert Fits(tpl[s], t[i + s]);
  }

  predicate Plain(g: Grammar)
  {
    NoDigits(g.heading) && NoDigits(g.total) && NoDigits(g.cellTotal) && NoDigits(g.cellUnit) && NoDigits(g.integNow)
  }

  predicate Slots(g: Grammar)
  {
    && Slot(g.total, 5) && Slot(g.total, 18) && Slot(g.total, 27)
    && Slot(g.cellTotal, 2)
    && Slot(g.cellUnit, 3) && Slot(g.cellUnit, 10)
    && Slot(g.integNow, 3) && |g.cellUnit| == 7 + |g.integNow| && g.cellUnit[7..] == g.integNow
  }

  // The numbers the badges carry follow one of these; a literal digit in a pattern never does.
  const BEFORE := {'-', '(', '_'}

  predicate Before(tpl: string, s: nat)
  {
    Literal(tpl, s) && tpl[s] in BEFORE
  }

  predicate BadgeSlots(g: Grammar)
  {
    && Slot(g.badge, 6) && Slot(g.badge, 18) && Slot(g.badge, 29) && Slot(g.e2e, 4)
    && Before(g.badge, 5) && Before(g.badge, 17) && Before(g.badge, 28) && Before(g.e2e, 3)
    && Differ(g.badge, 6, g.e2e, 4, 1) && Differ(g.badge, 18, g.e2e, 4, -1) && Differ(g.badge, 29, g.e2e, 4, -1)
  }

  predicate TotalApart(g: Grammar, s: nat)
  {
    && Differ(g.total, s, g.cellTotal, 2, 1) && Differ(g.total, s, g.cellUnit, 3, 1)
    && Differ(g.total, s, g.cellUnit, 10, 1) && Differ(g.total, s, g.integNow, 3, 1)
  }

  // No two rewritten numbers coincide, and an unrelated integration count is none of them.
  predicate Apart(g: Grammar)
  {
    && TotalApart(g, 5) && TotalApart(g, 18) && TotalApart(g, 27)
    && Differ(g.cellTotal, 2, g.cellUnit, 3, 2) && Differ(g.cellTotal, 2, g.cellUnit, 10, 2)
    && Differ(g.cellTotal, 2, g.integNow, 3, 2) && Differ(g.cellUnit, 3, g.integNow, 3, 2)
  }

  predicate BadgesSafe(g: Grammar)
  {
    SafeTemplate(g.badge, BEFORE) && SafeTemplate(g.e2e, BEFORE)
  }

  ghost predicate ReadsNumerals(g: Grammar)
  {
    && (forall t :: g.pair(t).Some? ==> Numeral(g.pair(t).value.total) && Numeral(g.pair(t).value.unit))
    && (forall t :: Canonical(t) && g.integ(t).Some? ==> Numeral(g.integ(t).value))
  }

  ghost predicate Sound(g: Grammar)
  {
    Plain(g) && Slots(g) && BadgeSlots(g) && Apart(g) && BadgesSafe(g) && ReadsNumerals(g)
  }

  // ----- reading the documents -----

  // Where the ledger begins, if the heading occurs exactly once.
  function LedgerAt(g: Grammar, state: Tokens): (r: int)
    ensures r == -1 || (0 <= r <= |state|)
  {
    if Once(g.heading, state) then First(g.heading, state, 0) else -1
  }

  function NumAt(t: Tokens, k: int): string
  {
    if 0 <= k < |t| && t[k].Num? then t[k].digits else ""
  }

  predicate Found(tpl: string, t: Tokens)
  {
    First(tpl, t, 0) != -1
  }

  // The numbers in front of the ledger: the summary line, the tracking cell, and the first
  // integration count marked as current, wherever that is.
  datatype Current = Current(summary: Tail, cell: Tail, integNow: Option<string>)

  function ReadCurrent(g: Grammar, t: Tokens): Option<Current>
  {
    ReadAt(t, First(g.total, t, 0), First(g.cellTotal, t, 0), First(g.cellUnit, t, 0), First(g.integNow, t, 0))
  }

  function ReadAt(t: Tokens, i: int, j: int, k: int, n: int): Option<Current>
  {
    if i == -1 || j == -1 || k == -1 then None
    else
      Some(Current(Tail(NumAt(t, i + 5), NumAt(t, i + 18), NumAt(t, i + 27)),
                   Tail(NumAt(t, j + 2), NumAt(t, k + 3), NumAt(t, k + 10)),
                   if n == -1 then None else Some(NumAt(t, n + 3))))
  }

  // The badge, if there is exactly one.
  function ReadBadge(g: Grammar, t: Tokens): Option<Pair>
  {
    var b := First(g.badge, t, 0);
    if Once(g.badge, t) then Some(Pair(NumAt(t, b + 6), NumAt(t, b + 18))) else None
  }

  predicate Sums(total: string, unit: string, integ: string)
  {
    AllDigits(total) && AllDigits(unit) && AllDigits(integ) && Value(total) == Value(unit) + Value(integ)
  }

  // Copies are compared as text, the sum as numbers.
  predicate Agree(c: Current, ledger: Pair, badge: Pair, badgeKo: Pair)
  {
    && c.summary.integ == c.cell.integ
    && c.summary.total == c.cell.total == ledger.total == badge.total == badgeKo.total
    && c.summary.unit == c.cell.unit == ledger.unit == badge.unit == badgeKo.unit
    && (c.integNow.Some? ==> Sums(c.cell.total, c.cell.unit, c.integNow.value))
  }

  // The check's verdict.
  predicate Consistent(g: Grammar, d: Docs)
  {
    var h := LedgerAt(g, d.state);
    && h != -1
    && ReadCurrent(g, d.state[..h]).Some? && g.pair(d.state[h..]).Some?
    && ReadBadge(g, d.readme).Some? && ReadBadge(g, d.readmeKo).Some?
    && Agree(ReadCurrent(g, d.state[..h]).value, g.pair(d.state[h..]).value,
             ReadBadge(g, d.readme).value, ReadBadge(g, d.readmeKo).value)
  }

  // ----- rewriting the documents -----

  function TotalWrites(i: int, x: Tail): Writes
  {
    if i == -1 then map[] else map[i + 5 := x.total, i + 18 := x.unit, i + 27 := x.integ]
  }

  function CellTotalWrites(j: int, x: Tail): Writes
  {
    if j == -1 then map[] else map[j + 2 := x.total]
  }

  function CellUnitWrites(k: int, x: Tail): Writes
  {
    if k == -1 then map[] else map[k + 3 := x.unit, k + 10 := x.integ]
  }

  function SubTotal(g: Grammar, t: Tokens, x: Tail): Tokens { Put(t, TotalWrites(First(g.total, t, 0), x)) }

  function SubCellTotal(g: Grammar, t: Tokens, x: Tail): Tokens { Put(t, CellTotalWrites(First(g.cellTotal, t, 0), x)) }

  function SubCellUnit(g: Grammar, t: Tokens, x: Tail): Tokens { Put(t, CellUnitWrites(First(g.cellUnit, t, 0), x)) }

  function FixCurrent(g: Grammar, t: Tokens, x: Tail): (t2: Tokens)
    ensures |t2| == |t|
  {
    SubCellUnit(g, SubCellTotal(g, SubTotal(g, t, x), x), x)
  }

  function FixState(g: Grammar, state: Tokens, x: Tail): Tokens
    requires LedgerAt(g, state) != -1
  {
    var h := LedgerAt(g, state);
    FixCurrent(g, state[..h], x) + state[h..]
  }

  function BadgeWrites(b: int, x: Tail): Writes
  {
    if b == -1 then map[] else map[b + 6 := x.total, b + 18 := x.unit, b + 29 := x.integ]
  }

  function SubBadge(g: Grammar, t: Tokens, x: Tail): Tokens { Put(t, BadgeWrites(First(g.badge, t, 0), x)) }

  // The end-to-end count is derived only when its baseline is a number and the badge is unambiguous.
  function E2eWrites(g: Grammar, t: Tokens, want: string): Writes
  {
    if Numeral(want) && Once(g.e2e, t) then map[First(g.e2e, t, 0) + 4 := want] else map[]
  }

  function SubE2e(g: Grammar, t: Tokens, want: string): Tokens { Put(t, E2eWrites(g, t, want)) }

  function FixReadme(g: Grammar, t: Tokens, x: Tail, want: string): Tokens
  {
    SubE2e(g, SubBadge(g, t, x), want)
  }

  // What the fixer takes from the ledger.
  function Authored(g: Grammar, ledger: Tokens): Option<Tail>
  {
    if g.pair(ledger).Some? && g.integ(ledger).Some? then
      Some(Tail(g.pair(ledger).value.total, g.pair(ledger).value.unit, g.integ(ledger).value))
    else None
  }

  // When the fixer writes at all: the ledger is unique, well formed and adds up, the tracking cell has
  // a total, and both badges are unambiguous.
  predicate Fixable(g: Grammar, d: Docs)
  {
    var h := LedgerAt(g, d.state);
    && h != -1 && Found(g.cellTotal, d.state[..h])
    && Authored(g, d.state[h..]).Some?
    && (var x := Authored(g, d.state[h..]).value; Sums(x.total, x.unit, x.integ))
    && Once(g.badge, d.readme) && Once(g.badge, d.readmeKo)
  }

  function Source(g: Grammar, d: Docs): Tail
    requires Fixable(g, d)
  {
    Authored(g, d.state[LedgerAt(g, d.state)..]).value
  }

  function FixDocs(g: Grammar, d: Docs, want: string): Docs
    requires Fixable(g, d)
  {
    var x := Source(g, d);
    Docs(FixState(g, d.state, x), FixReadme(g, d.readme, x, want), FixReadme(g, d.readmeKo, x, want))
  }

  // ----- the rewrites of the current region, all at once -----

  function CurrentWrites(g: Grammar, t: Tokens, x: Tail): Writes
  {
    TotalWrites(First(g.total, t, 0), x) + CellTotalWrites(First(g.cellTotal, t, 0), x)
      + CellUnitWrites(First(g.cellUnit, t, 0), x)
  }

  lemma TotalOnNumbers(g: Grammar, t: Tokens, x: Tail)
    requires Slots(g)
    ensures OnNumbers(t, TotalWrites(First(g.total, t, 0), x))
  {
    var i := First(g.total, t, 0);
    if i != -1 {
      SlotNumber(g.total, 5, t, i);
      SlotNumber(g.total, 18, t, i);
      SlotNumber(g.total, 27, t, i);
    }
  }

  lemma CellOnNumbers(g: Grammar, t: Tokens, x: Tail)
    requires Slots(g)
    ensures OnNumbers(t, CellTotalWrites(First(g.cellTotal, t, 0), x))
    ensures OnNumbers(t, CellUnitWrites(First(g.cellUnit, t, 0), x))
  {
    var j, k := First(g.cellTotal, t, 0), First(g.cellUnit, t, 0);
    if j != -1 { SlotNumber(g.cellTotal, 2, t, j); }
    if k != -1 {
      SlotNumber(g.cellUnit, 3, t, k);
      SlotNumber(g.cellUnit, 10, t, k);
    }
  }

  lemma FirstsKept(g: Grammar, t: Tokens, t2: Tokens)
    requires Plain(g) && SameShape(t, t2)
    ensures First(g.total, t2, 0) == First(g.total, t, 0)
    ensures First(g.cellTotal, t2, 0) == First(g.cellTotal, t, 0)
    ensures First(g.cellUnit, t2, 0) == First(g.cellUnit, t, 0)
    ensures First(g.integNow, t2, 0) == First(g.integNow, t, 0)
  {
    FirstByShape(g.total, t, t2);
    FirstByShape(g.cellTotal, t, t2);
    FirstByShape(g.cellUnit, t, t2);
    FirstByShape(g.integNow, t, t2);
  }

  lemma OnNumbersUnion(t: Tokens, v: Writes, w: Writes)
    requires OnNumbers(t, v) && OnNumbers(t, w)
    ensures OnNumbers(t, v + w)
  {
  }

  lemma FixIsOnePut(g: Grammar, t: Tokens, x: Tail)
    requires Plain(g) && Slots(g)
    ensures FixCurrent(g, t, x) == Put(t, CurrentWrites(g, t, x))
    ensures OnNumbers(t, CurrentWrites(g, t, x)) && SameShape(t, FixCurrent(g, t, x))
  {
    var a := TotalWrites(First(g.total, t, 0), x);
    var b := CellTotalWrites(First(g.cellTotal, t, 0), x);
    var c := CellUnitWrites(First(g.cellUnit, t, 0), x);
    TotalOnNumbers(g, t, x);
    CellOnNumbers(g, t, x);
    FixInOnePass(g, t, x, a, b, c);
  }

  lemma FixInOnePass(g: Grammar, t: Tokens, x: Tail, a: Writes, b: Writes, c: Writes)
    requires Plain(g)
    requires a == TotalWrites(First(g.total, t, 0), x) && OnNumbers(t, a)
    requires b == CellTotalWrites(First(g.cellTotal, t, 0), x) && OnNumbers(t, b)
    requires c == CellUnitWrites(First(g.cellUnit, t, 0), x) && OnNumbers(t, c)
    ensures FixCurrent(g, t, x) == Put(t, a + b + c)
    ensures OnNumbers(t, a + b + c) && SameShape(t, FixCurrent(g, t, x))
  {
    PutShape(t, a);
    FirstsKept(g, t, Put(t, a));
    PutTwice(t, a, b);
    OnNumbersUnion(t, a, b);
    PutShape(t, a + b);
    FirstsKept(g, t, Put(t, a + b));
    PutTwice(t, a + b, c);
    OnNumbersUnion(t, a + b, c);
    PutShape(t, a + b + c);
  }

  /** Rewriting a second time changes nothing. */
  lemma {:induction false} FixCurrentTwice(g: Grammar, t: Tokens, x: Tail)
    requires Plain(g) && Slots(g)
    ensures FixCurrent(g, FixCurrent(g, t, x), x) == FixCurrent(g, t, x)
  {
    var t2 := FixCurrent(g, t, x);
    FixIsOnePut(g, t, x);
    FirstsKept(g, t, t2);
    FixIsOnePut(g, t2, x);
    PutAgain(t, CurrentWrites(g, t, x));
  }

  // ----- the numbers read back -----

  predicate Away(p: int, j: int, k: int, n: int)
  {
    p != j + 2 && p != k + 3 && p != k + 10 && p != n + 3
  }

  predicate AllAway(i: int, j: int, k: int, n: int)
  {
    && Away(i + 5, j, k, n) && Away(i + 18, j, k, n) && Away(i + 27, j, k, n)
    && j + 2 != k + 3 && j + 2 != k + 10 && j + 2 != n + 3 && k + 3 != n + 3
  }

  lemma TotalAway(g: Grammar, t: Tokens, s: nat, i: int, j: int, k: int, n: int)
    requires TotalApart(g, s)
    requires Match(g.total, t, i) && Match(g.cellTotal, t, j) && Match(g.cellUnit, t, k) && Match(g.integNow, t, n)
    ensures Away(i + s, j, k, n)
  {
    DifferApart(g.total, s, g.cellTotal, 2, 1, t, i, j);
    DifferApart(g.total, s, g.cellUnit, 3, 1, t, i, k);
    DifferApart(g.total, s, g.cellUnit, 10, 1, t, i, k);
    DifferApart(g.total, s, g.integNow, 3, 1, t, i, n);
  }

  lemma WritesApart(g: Grammar, t: Tokens, i: int, j: int, k: int, n: int)
    requires Apart(g)
    requires Match(g.total, t, i) && Match(g.cellTotal, t, j) && Match(g.cellUnit, t, k) && Match(g.integNow, t, n)
    ensures AllAway(i, j, k, n)
  {
    TotalAway(g, t, 5, i, j, k, n);
    TotalAway(g, t, 18, i, j, k, n);
    TotalAway(g, t, 27, i, j, k, n);
    DifferApart(g.cellTotal, 2, g.cellUnit, 3, 2, t, j, k);
    DifferApart(g.cellTotal, 2, g.cellUnit, 10, 2, t, j, k);
    DifferApart(g.cellTotal, 2, g.integNow, 3, 2, t, j, n);
    DifferApart(g.cellUnit, 3, g.integNow, 3, 2, t, k, n);
  }

  lemma UnitEndsInInteg(g: Grammar, t: Tokens, k: int)
    requires Slots(g) && Match(g.cellUnit, t, k)
    ensures Match(g.integNow, t, k + 7)
  {
    forall i | 0 <= i < |g.integNow|
      ensures Fits(g.integNow[i], t[k + 7 + i])
    {
      assert g.integNow[i] == g.cellUnit[7 + i];
      assert Fits(g.cellUnit[7 + i], t[k + (7 + i)]);
    }
  }

  predicate ReadsBack(t: Tokens, t2: Tokens, x: Tail, i: int, j: int, k: int, n: int)
  {
    && NumAt(t2, i + 5) == x.total && NumAt(t2, i + 18) == x.unit && NumAt(t2, i + 27) == x.integ
    && NumAt(t2, j + 2) == x.total && NumAt(t2, k + 3) == x.unit && NumAt(t2, k + 10) == x.integ
    && NumAt(t2, n + 3) == if n + 3 == k + 10 then x.integ else NumAt(t, n + 3)
  }

  // Writing at pairwise distinct places and reading there.
  lemma ReadBack(t: Tokens, x: Tail, i: nat, j: nat, k: nat, n: nat)
    requires i + 27 < |t| && j + 2 < |t| && k + 10 < |t| && n + 3 < |t| && AllAway(i, j, k, n)
    ensures ReadsBack(t, Put(t, TotalWrites(i, x) + CellTotalWrites(j, x) + CellUnitWrites(k, x)), x, i, j, k, n)
  {
  }

  // The first integration count marked as current, after the rewrite.
  function IntegAfter(g: Grammar, t: Tokens, x: Tail): string
  {
    var k, n := First(g.cellUnit, t, 0), First(g.integNow, t, 0);
    if n + 3 == k + 10 then x.integ else NumAt(t, n + 3)
  }

  predicate HasLines(g: Grammar, t: Tokens)
  {
    Found(g.total, t) && Found(g.cellTotal, t) && Found(g.cellUnit, t)
  }

  lemma ReadsAs(t: Tokens, t2: Tokens, x: Tail, i: int, j: int, k: int, n: int)
    requires i != -1 && j != -1 && k != -1 && n != -1 && ReadsBack(t, t2, x, i, j, k, n)
    ensures ReadAt(t2, i, j, k, n) == Some(Current(x, x, Some(if n + 3 == k + 10 then x.integ else NumAt(t, n + 3))))
  {
  }

  predicate LinesReadBack(g: Grammar, t: Tokens, t2: Tokens, x: Tail)
    requires HasLines(g, t)
  {
    var i, j, k, n := First(g.total, t, 0), First(g.cellTotal, t, 0), First(g.cellUnit, t, 0), First(g.integNow, t, 0);
    ReadsBack(t, t2, x, i, j, k, n)
  }

  lemma WrittenNumbers(g: Grammar, t: Tokens, x: Tail)
    requires Slots(g) && Apart(g) && HasLines(g, t)
    ensures First(g.integNow, t, 0) != -1 && LinesReadBack(g, t, Put(t, CurrentWrites(g, t, x)), x)
  {
    var i, j, k, n := First(g.total, t, 0), First(g.cellTotal, t, 0), First(g.cellUnit, t, 0), First(g.integNow, t, 0);
    UnitEndsInInteg(g, t, k);
    WritesApart(g, t, i, j, k, n);
    SlotNumber(g.total, 27, t, i);
    SlotNumber(g.cellTotal, 2, t, j);
    SlotNumber(g.cellUnit, 10, t, k);
    SlotNumber(g.integNow, 3, t, n);
    ReadBack(t, x, i, j, k, n);
  }

  lemma NumbersAfter(g: Grammar, t: Tokens, t2: Tokens, x: Tail)
    requires Plain(g) && Slots(g) && Apart(g)
    requires SameShape(t, t2) && HasLines(g, t) && First(g.integNow, t, 0) != -1
    requires LinesReadBack(g, t, t2, x)
    ensures ReadCurrent(g, t2) == Some(Current(x, x, Some(IntegAfter(g, t, x))))
  {
    FirstsKept(g, t, t2);
    ReadsAs(t, t2, x, First(g.total, t, 0), First(g.cellTotal, t, 0), First(g.cellUnit, t, 0), First(g.integNow, t, 0));
  }

  /** What a reader finds after the rewrite. */
  lemma {:induction false} FixedNumbers(g: Grammar, t: Tokens, x: Tail)
    requires Plain(g) && Slots(g) && Apart(g)
    ensures ReadCurrent(g, FixCurrent(g, t, x)) ==
      if HasLines(g, t) then Some(Current(x, x, Some(IntegAfter(g, t, x)))) else None
  {
    FixIsOnePut(g, t, x);
    if HasLines(g, t) {
      WrittenNumbers(g, t, x);
      NumbersAfter(g, t, FixCurrent(g, t, x), x);
    } else {
      FirstsKept(g, t, FixCurrent(g, t, x));
    }
  }

  // ----- the whole state document -----

  lemma LedgerKept(g: Grammar, state: Tokens, current2: Tokens)
    requires Plain(g) && LedgerAt(g, state) != -1 && SameShape(state[..LedgerAt(g, state)], current2)
    ensures var h := LedgerAt(g, state);
      var state2 := current2 + state[h..];
      LedgerAt(g, state2) == h && state2[..h] == current2 && state2[h..] == state[h..]
  {
    var h := LedgerAt(g, state);
    var state2 := current2 + state[h..];
    assert SameShape(state, state2) by {
      forall k | 0 <= k < |state|
        ensures state[k] == state2[k] || (state[k].Num? && state2[k].Num?)
      {
        assert k < h ==> state[..h][k] == state[k];
      }
    }
    forall k
      ensures Match(g.heading, state, k) <==> Match(g.heading, state2, k)
    {
      MatchByShape(g.heading, state, state2, k);
    }
    FirstByMatches(g.heading, state, state2, 0);
    FirstByMatches(g.heading, state, state2, h + 1);
  }

  /** The text of the ledger and its place are kept. */
  lemma {:induction false} FixStateParts(g: Grammar, state: Tokens, x: Tail)
    requires Plain(g) && Slots(g) && LedgerAt(g, state) != -1
    ensures var h := LedgerAt(g, state);
      && LedgerAt(g, FixState(g, state, x)) == h
      && FixState(g, state, x)[..h] == FixCurrent(g, state[..h], x)
      && FixState(g, state, x)[h..] == state[h..]
  {
    FixIsOnePut(g, state[..LedgerAt(g, state)], x);
    LedgerKept(g, state, FixCurrent(g, state[..LedgerAt(g, state)], x));
  }

  // ----- the README badges -----

  predicate SafePlace(t: Tokens, p: int, before: set<char>)
  {
    0 < p < |t| && t[p].Num? && t[p - 1].Ch? && t[p - 1].c in before
  }

  predicate SafeWrites(t: Tokens, w: Writes, before: set<char>)
  {
    forall p :: p in w ==> SafePlace(t, p, before)
  }

  lemma PutSafe(t: Tokens, w: Writes, before: set<char>)
    requires SafeWrites(t, w, before)
    ensures SafeChange(t, Put(t, w), before) && OnNumbers(t, w)
  {
  }

  lemma SafeUnion(t: Tokens, v: Writes, w: Writes, before: set<char>)
    requires SafeWrites(t, v, before) && SafeWrites(t, w, before)
    ensures SafeWrites(t, v + w, before)
  {
  }

  lemma SlotAfter(tpl: string, s: nat, t: Tokens, i: int)
    requires s > 0 && Slot(tpl, s) && Before(tpl, s - 1) && Match(tpl, t, i)
    ensures SafePlace(t, i + s, BEFORE)
  {
    SlotNumber(tpl, s, t, i);
    LiteralAt(tpl, s - 1, t, i);
  }

  lemma BadgeWritesSafe(g: Grammar, t: Tokens, x: Tail)
    requires BadgeSlots(g)
    ensures SafeWrites(t, BadgeWrites(First(g.badge, t, 0), x), BEFORE)
  {
    var b := First(g.badge, t, 0);
    if b != -1 {
      SlotAfter(g.badge, 6, t, b);
      SlotAfter(g.badge, 18, t, b);
      SlotAfter(g.badge, 29, t, b);
    }
  }

  lemma E2eWritesSafe(g: Grammar, t: Tokens, want: string)
    requires BadgeSlots(g)
    ensures SafeWrites(t, E2eWrites(g, t, want), BEFORE)
  {
    if Once(g.e2e, t) { SlotAfter(g.e2e, 4, t, First(g.e2e, t, 0)); }
  }

  lemma OnceKept(tpl: string, t: Tokens, t2: Tokens, before: set<char>)
    requires SafeChange(t, t2, before) && SafeTemplate(tpl, before)
    ensures First(tpl, t2, 0) == First(tpl, t, 0)
    ensures Once(tpl, t2) <==> Once(tpl, t)
  {
    MatchesBySafe(tpl, t, t2, before);
    FirstByMatches(tpl, t, t2, 0);
    var b := First(tpl, t, 0);
    if b != -1 && b < |t| { FirstByMatches(tpl, t, t2, b + 1); }
  }

  lemma BadgesKept(g: Grammar, t: Tokens, t2: Tokens)
    requires BadgesSafe(g) && SafeChange(t, t2, BEFORE)
    ensures First(g.badge, t2, 0) == First(g.badge, t, 0) && First(g.e2e, t2, 0) == First(g.e2e, t, 0)
    ensures Once(g.badge, t2) <==> Once(g.badge, t)
    ensures Once(g.e2e, t2) <==> Once(g.e2e, t)
  {
    OnceKept(g.badge, t, t2, BEFORE);
    OnceKept(g.e2e, t, t2, BEFORE);
  }

  function ReadmeWrites(g: Grammar, t: Tokens, x: Tail, want: string): Writes
  {
    BadgeWrites(First(g.badge, t, 0), x) + E2eWrites(g, t, want)
  }

  lemma FixReadmeIsOnePut(g: Grammar, t: Tokens, x: Tail, want: string)
    requires BadgeSlots(g) && BadgesSafe(g)
    ensures FixReadme(g, t, x, want) == Put(t, ReadmeWrites(g, t, x, want))
    ensures SafeChange(t, FixReadme(g, t, x, want), BEFORE) && OnNumbers(t, ReadmeWrites(g, t, x, want))
  {
    BadgeWritesSafe(g, t, x);
    E2eWritesSafe(g, t, want);
    ReadmeInOnePass(g, t, x, want, BadgeWrites(First(g.badge, t, 0), x), E2eWrites(g, t, want));
  }

  lemma ReadmeInOnePass(g: Grammar, t: Tokens, x: Tail, want: string, a: Writes, b: Writes)
    requires BadgesSafe(g)
    requires a == BadgeWrites(First(g.badge, t, 0), x) && SafeWrites(t, a, BEFORE)
    requires b == E2eWrites(g, t, want) && SafeWrites(t, b, BEFORE)
    ensures FixReadme(g, t, x, want) == Put(t, a + b)
    ensures SafeChange(t, Put(t, a + b), BEFORE) && OnNumbers(t, a + b)
  {
    PutSafe(t, a, BEFORE);
    BadgesKept(g, t, Put(t, a));
    PutTwice(t, a, b);
    SafeUnion(t, a, b, BEFORE);
    PutSafe(t, a + b, BEFORE);
  }

  lemma BadgeReadBack(t: Tokens, b: nat, x: Tail, rest: Writes)
    requires b + 29 < |t| && b + 6 !in rest && b + 18 !in rest && b + 29 !in rest
    ensures var t2 := Put(t, BadgeWrites(b, x) + rest);
      NumAt(t2, b + 6) == x.total && NumAt(t2, b + 18) == x.unit && NumAt(t2, b + 29) == x.integ
  {
  }

  lemma E2eReadBack(t: Tokens, before: Writes, e: nat, want: string)
    requires e + 4 < |t|
    ensures NumAt(Put(t, before + map[e + 4 := want]), e + 4) == want
  {
  }

  lemma E2eApart(g: Grammar, t: Tokens, want: string)
    requires BadgeSlots(g) && Once(g.badge, t)
    ensures var b := First(g.badge, t, 0);
      && b + 6 !in E2eWrites(g, t, want) && b + 18 !in E2eWrites(g, t, want) && b + 29 !in E2eWrites(g, t, want)
      && b + 29 < |t|
  {
    var b := First(g.badge, t, 0);
    SlotNumber(g.badge, 29, t, b);
    if Once(g.e2e, t) {
      var e := First(g.e2e, t, 0);
      DifferApart(g.badge, 6, g.e2e, 4, 1, t, b, e);
      DifferApart(g.badge, 18, g.e2e, 4, -1, t, b, e);
      DifferApart(g.badge, 29, g.e2e, 4, -1, t, b, e);
    }
  }

  /** After the rewrite an unambiguous badge is still unambiguous and carries the ledger's numbers. */
  lemma {:induction false} BadgeFixed(g: Grammar, t: Tokens, x: Tail, want: string)
    requires BadgeSlots(g) && BadgesSafe(g) && Once(g.badge, t)
    ensures ReadBadge(g, FixReadme(g, t, x, want)) == Some(Pair(x.total, x.unit))
    ensures NumAt(FixReadme(g, t, x, want), First(g.badge, t, 0) + 29) == x.integ
  {
    FixReadmeIsOnePut(g, t, x, want);
    BadgesKept(g, t, FixReadme(g, t, x, want));
    E2eApart(g, t, want);
    BadgeReadBack(t, First(g.badge, t, 0), x, E2eWrites(g, t, want));
  }

  /** An unambiguous end-to-end badge carries the baseline, if that is a number; otherwise it is left alone. */
  lemma {:induction false} E2eFixed(g: Grammar, t: Tokens, x: Tail, want: string)
    requires BadgeSlots(g) && BadgesSafe(g) && Once(g.e2e, t)
    ensures Once(g.e2e, FixReadme(g, t, x, want))
    ensures First(g.e2e, FixReadme(g, t, x, want), 0) == First(g.e2e, t, 0)
    ensures Numeral(want) ==> NumAt(FixReadme(g, t, x, want), First(g.e2e, t, 0) + 4) == want
    ensures !Numeral(want) ==> FixReadme(g, t, x, want) == SubBadge(g, t, x)
  {
    FixReadmeIsOnePut(g, t, x, want);
    BadgesKept(g, t, FixReadme(g, t, x, want));
    if Numeral(want) {
      E2eWritten(g, t, BadgeWrites(First(g.badge, t, 0), x), want);
    } else {
      PutNothing(SubBadge(g, t, x));
    }
  }

  lemma E2eWritten(g: Grammar, t: Tokens, before: Writes, want: string)
    requires BadgeSlots(g) && Once(g.e2e, t) && Numeral(want)
    ensures NumAt(Put(t, before + E2eWrites(g, t, want)), First(g.e2e, t, 0) + 4) == want
  {
    SlotNumber(g.e2e, 4, t, First(g.e2e, t, 0));
    E2eReadBack(t, before, First(g.e2e, t, 0), want);
  }

  lemma PutNothing(t: Tokens)
    ensures Put(t, map[]) == t
  {
  }

  lemma ReadmeWritesKept(g: Grammar, t: Tokens, t2: Tokens, x: Tail, want: string)
    requires BadgesSafe(g) && SafeChange(t, t2, BEFORE)
    ensures ReadmeWrites(g, t2, x, want) == ReadmeWrites(g, t, x, want)
  {
    BadgesKept(g, t, t2);
    SameE2eWrites(g, t, t2, want);
  }

  lemma SameE2eWrites(g: Grammar, t: Tokens, t2: Tokens, want: string)
    requires First(g.e2e, t2, 0) == First(g.e2e, t, 0) && (Once(g.e2e, t2) <==> Once(g.e2e, t))
    ensures E2eWrites(g, t2, want) == E2eWrites(g, t, want)
  {
  }

  /** A second rewrite changes nothing. */
  lemma {:induction false} FixReadmeTwice(g: Grammar, t: Tokens, x: Tail, want: string)
    requires BadgeSlots(g) && BadgesSafe(g)
    ensures FixReadme(g, FixReadme(g, t, x, want), x, want) == FixReadme(g, t, x, want)
  {
    FixReadmeIsOnePut(g, t, x, want);
    SecondReadme(g, t, x, want, ReadmeWrites(g, t, x, want), FixReadme(g, t, x, want));
  }

  lemma SecondReadme(g: Grammar, t: Tokens, x: Tail, want: string, w: Writes, t2: Tokens)
    requires BadgeSlots(g) && BadgesSafe(g)
    requires w == ReadmeWrites(g, t, x, want) && t2 == Put(t, w) && SafeChange(t, t2, BEFORE)
    ensures FixReadme(g, t2, x, want) == t2
  {
    ReadmeWritesKept(g, t, t2, x, want);
    FixReadmeIsOnePut(g, t2, x, want);
    PutAgain(t, w);
  }

  // ----- repair, then check -----

  // What the fixer does not look at: the summary line and the cell's unit count must exist, and the
  // first integration count marked as current must be the cell's own or fit the sum anyway.
  predicate Repairable(g: Grammar, d: Docs)
    requires Fixable(g, d)
  {
    var t, x := d.state[..LedgerAt(g, d.state)], Source(g, d);
    var k, n := First(g.cellUnit, t, 0), First(g.integNow, t, 0);
    Found(g.total, t) && k != -1 && (n == k + 7 || Sums(x.total, x.unit, NumAt(t, n + 3)))
  }

  // Every reader of the fixed documents finds x.
  lemma FixedReads(g: Grammar, d: Docs, want: string, x: Tail)
    requires Sound(g) && Fixable(g, d) && x == Source(g, d)
    ensures var d2, h := FixDocs(g, d, want), LedgerAt(g, d.state);
      && LedgerAt(g, d2.state) == h
      && ReadCurrent(g, d2.state[..h]) ==
         (if HasLines(g, d.state[..h]) then Some(Current(x, x, Some(IntegAfter(g, d.state[..h], x)))) else None)
      && g.pair(d2.state[h..]) == Some(Pair(x.total, x.unit))
      && ReadBadge(g, d2.readme) == Some(Pair(x.total, x.unit)) == ReadBadge(g, d2.readmeKo)
  {
    FixStateParts(g, d.state, x);
    FixedNumbers(g, d.state[..LedgerAt(g, d.state)], x);
    BadgeFixed(g, d.readme, x, want);
    BadgeFixed(g, d.readmeKo, x, want);
  }

  // The verdict on documents that all say x.
  lemma ConsistentAfter(g: Grammar, d2: Docs, h: int, x: Tail, complete: bool, integ: string)
    requires LedgerAt(g, d2.state) == h != -1
    requires ReadCurrent(g, d2.state[..h]) == if complete then Some(Current(x, x, Some(integ))) else None
    requires g.pair(d2.state[h..]) == Some(Pair(x.total, x.unit))
    requires ReadBadge(g, d2.readme) == Some(Pair(x.total, x.unit)) == ReadBadge(g, d2.readmeKo)
    ensures Consistent(g, d2) <==> complete && Sums(x.total, x.unit, integ)
  {
  }

  lemma RepairableMeans(g: Grammar, d: Docs)
    requires Fixable(g, d)
    ensures var t, x := d.state[..LedgerAt(g, d.state)], Source(g, d);
      Repairable(g, d) <==> HasLines(g, t) && Sums(x.total, x.unit, IntegAfter(g, t, x))
  {
  }

  /** After a successful fix the check passes if and only if the documents were repairable. */
  lemma {:induction false} RepairThenCheck(g: Grammar, d: Docs, want: string)
    requires Sound(g) && Fixable(g, d)
    ensures Consistent(g, FixDocs(g, d, want)) <==> Repairable(g, d)
  {
    var h, x := LedgerAt(g, d.state), Source(g, d);
    var t := d.state[..h];
    FixedReads(g, d, want, x);
    ConsistentAfter(g, FixDocs(g, d, want), h, x, HasLines(g, t), IntegAfter(g, t, x));
    RepairableMeans(g, d);
  }

  /** Where every pattern occurs at most once and the two lines exist, a fix always makes the check pass. */
  lemma {:induction false} RepairUnambiguous(g: Grammar, d: Docs, want: string)
    requires Sound(g) && Fixable(g, d)
    requires var t := d.state[..LedgerAt(g, d.state)];
      Found(g.total, t) && Found(g.cellUnit, t) && Once(g.integNow, t)
    ensures Consistent(g, FixDocs(g, d, want))
  {
    var t := d.state[..LedgerAt(g, d.state)];
    var k, n := First(g.cellUnit, t, 0), First(g.integNow, t, 0);
    UnitEndsInInteg(g, t, k);
    assert n == k + 7;
    RepairThenCheck(g, d, want);
  }

  /** A second fix succeeds again and changes no document; the ledger is never touched. */
  lemma {:induction false} FixTwice(g: Grammar, d: Docs, want: string)
    requires Sound(g) && Fixable(g, d)
    ensures var d2 := FixDocs(g, d, want);
      var h := LedgerAt(g, d.state);
      && LedgerAt(g, d2.state) == h && d2.state[h..] == d.state[h..]
      && Fixable(g, d2) && FixDocs(g, d2, want) == d2
  {
    var h, x := LedgerAt(g, d.state), Source(g, d);
    FixStateParts(g, d.state, x);
    FixIsOnePut(g, d.state[..h], x);
    FirstsKept(g, d.state[..h], FixCurrent(g, d.state[..h], x));
    FixCurrentTwice(g, d.state[..h], x);
    FixReadmeTwice(g, d.readme, x, want);
    FixReadmeTwice(g, d.readmeKo, x, want);
    BadgeFixed(g, d.readme, x, want);
    BadgeFixed(g, d.readmeKo, x, want);
  }

  // ----- back to text -----

  predicate CanonicalDocs(d: Docs)
  {
    Canonical(d.state) && Canonical(d.readme) && Canonical(d.readmeKo)
  }

  lemma CanonicalSplit(t: Tokens, h: nat)
    requires Canonical(t) && h <= |t|
    ensures Canonical(t[..h]) && Canonical(t[h..])
  {
    assert forall k :: 0 <= k < |t| - h ==> t[h..][k] == t[h + k];
  }

  lemma ConcatCanonical(t: Tokens, t2: Tokens, rest: Tokens)
    requires Canonical(t + rest) && SameShape(t, t2) && Canonical(t2)
    ensures Canonical(t2 + rest)
  {
    var s, s2 := t + rest, t2 + rest;
    assert forall k :: 0 <= k < |s| ==> s2[k] == (if k < |t| then t2[k] else s[k]);
    assert forall k :: 0 <= k < |t| ==> s[k] == t[k];
  }

  predicate Numerals(x: Tail)
  {
    Numeral(x.total) && Numeral(x.unit) && Numeral(x.integ)
  }

  lemma CurrentNumerals(g: Grammar, t: Tokens, x: Tail)
    requires Numerals(x)
    ensures AllNumerals(CurrentWrites(g, t, x))
  {
    var a, b := TotalWrites(First(g.total, t, 0), x), CellTotalWrites(First(g.cellTotal, t, 0), x);
    NumeralsUnion(a, b);
    NumeralsUnion(a + b, CellUnitWrites(First(g.cellUnit, t, 0), x));
  }

  lemma CurrentCanonical(g: Grammar, t: Tokens, x: Tail)
    requires Plain(g) && Slots(g) && Canonical(t) && Numerals(x)
    ensures Canonical(FixCurrent(g, t, x)) && SameShape(t, FixCurrent(g, t, x))
  {
    FixIsOnePut(g, t, x);
    CurrentNumerals(g, t, x);
    PutCanonical(t, CurrentWrites(g, t, x));
  }

  /** A fixed document is written and read back without loss. */
  lemma {:induction false} StateReadsBack(g: Grammar, state: Tokens, x: Tail)
    requires Plain(g) && Slots(g) && LedgerAt(g, state) != -1 && Canonical(state) && Numerals(x)
    ensures Tokenize(Flatten(FixState(g, state, x))) == FixState(g, state, x)
  {
    var h := LedgerAt(g, state);
    var t, rest := state[..h], state[h..];
    CanonicalSplit(state, h);
    CurrentCanonical(g, t, x);
    assert state == t + rest;
    ConcatCanonical(t, FixCurrent(g, t, x), rest);
    TokenizeFlatten(FixState(g, state, x));
  }

  lemma PutReadsBack(t: Tokens, w: Writes)
    requires Canonical(t) && OnNumbers(t, w) && AllNumerals(w)
    ensures Tokenize(Flatten(Put(t, w))) == Put(t, w)
  {
    PutCanonical(t, w);
    TokenizeFlatten(Put(t, w));
  }

  lemma ReadmeNumerals(g: Grammar, t: Tokens, x: Tail, want: string)
    requires Numerals(x)
    ensures AllNumerals(ReadmeWrites(g, t, x, want))
  {
    NumeralsUnion(BadgeWrites(First(g.badge, t, 0), x), E2eWrites(g, t, want));
  }

  lemma ReadmeReadsBack(g: Grammar, t: Tokens, x: Tail, want: string)
    requires BadgeSlots(g) && BadgesSafe(g) && Canonical(t) && Numerals(x)
    ensures Tokenize(Flatten(FixReadme(g, t, x, want))) == FixReadme(g, t, x, want)
  {
    FixReadmeIsOnePut(g, t, x, want);
    ReadmeNumerals(g, t, x, want);
    PutReadsBack(t, ReadmeWrites(g, t, x, want));
  }

  predicate Lossless(d: Docs)
  {
    && Tokenize(Flatten(d.state)) == d.state
    && Tokenize(Flatten(d.readme)) == d.readme
    && Tokenize(Flatten(d.readmeKo)) == d.readmeKo
  }

  lemma FixedDocsReadBack(g: Grammar, d: Docs, want: string)
    requires Sound(g) && Fixable(g, d) && CanonicalDocs(d)
    ensures Lossless(FixDocs(g, d, want))
  {
    var x := Source(g, d);
    CanonicalSplit(d.state, LedgerAt(g, d.state));
    StateReadsBack(g, d.state, x);
    ReadmeReadsBack(g, d.readme, x, want);
    ReadmeReadsBack(g, d.readmeKo, x, want);
  }

  // ----- the script -----

  class Project {
    var state: string
    var readme: string
    var readmeKo: string
    const e2eBaseline: string   // empty when there is no baseline file

    constructor (state: string, readme: string, readmeKo: string, e2eBaseline: string)
      ensures this.state == state && this.readme == readme && this.readmeKo == readmeKo
      ensures this.e2eBaseline == e2eBaseline
    {
      this.state, this.readme, this.readmeKo, this.e2eBaseline := state, readme, readmeKo, e2eBaseline;
    }

    function Read(): (d: Docs)
      reads this
      ensures CanonicalDocs(d)
      ensures Flatten(d.state) == state && Flatten(d.readme) == readme && Flatten(d.readmeKo) == readmeKo
    {
      FlattenTokenize(state);
      FlattenTokenize(readme);
      FlattenTokenize(readmeKo);
      Docs(Tokenize(state), Tokenize(readme), Tokenize(readmeKo))
    }

    method CheckConsistency(g: Grammar) returns (ok: bool)
      ensures ok <==> Consistent(g, Read())
    {
      var d := Read();
      var h := LedgerAt(g, d.state);
      if h == -1 {
        return false;
      }
      var c := ReadCurrent(g, d.state[..h]);
      var badge, badgeKo := ReadBadge(g, d.readme), ReadBadge(g, d.readmeKo);
      if c.None? || badge.None? || badgeKo.None? || c.value.summary.integ != c.value.cell.integ {
        return false;
      }
      var tail := g.pair(d.state[h..]);
      if tail.None? {
        return false;
      }
      var summary, cell := c.value.summary, c.value.cell;
      if !(summary.total == cell.total == badge.value.total == badgeKo.value.total == tail.value.total) {
        return false;
      }
      if !(summary.unit == cell.unit == badge.value.unit == badgeKo.value.unit == tail.value.unit) {
        return false;
      }
      ok := c.value.integNow.None? || Sums(cell.total, cell.unit, c.value.integNow.value);
    }

    // Every refusal comes before the first write.
    static method Rewrite(g: Grammar, d: Docs, want: string) returns (fixed: Option<Docs>)
      ensures fixed == if Fixable(g, d) then Some(FixDocs(g, d, want)) else None
    {
      var h := LedgerAt(g, d.state);
      if h == -1 {
        return None;
      }
      var current, ledger := d.state[..h], d.state[h..];
      if First(g.cellTotal, current, 0) == -1 {
        return None;
      }
      var pair, integ := g.pair(ledger), g.integ(ledger);
      if pair.None? || integ.None? {
        return None;
      }
      var x := Tail(pair.value.total, pair.value.unit, integ.value);
      if !Sums(x.total, x.unit, x.integ) {
        return None;
      }
      var newCurrent := SubTotal(g, current, x);
      newCurrent := SubCellTotal(g, newCurrent, x);
      newCurrent := SubCellUnit(g, newCurrent, x);
      if !Once(g.badge, d.readme) || !Once(g.badge, d.readmeKo) {
        return None;
      }
      var readme := SubE2e(g, SubBadge(g, d.readme, x), want);
      var readmeKo := SubE2e(g, SubBadge(g, d.readmeKo, x), want);
      fixed := Some(Docs(newCurrent + ledger, readme, readmeKo));
    }

    // Only documents that changed are written.
    method Write(d: Docs, d2: Docs)
      requires d == Read() && Lossless(d2)
      modifies this
      ensures Read() == d2
    {
      if d2.state != d.state {
        state := Flatten(d2.state);
      }
      if d2.readme != d.readme {
        readme := Flatten(d2.readme);
      }
      if d2.readmeKo != d.readmeKo {
        readmeKo := Flatten(d2.readmeKo);
      }
    }

    /** All or nothing: it writes every document as specified or none of them. */
    method ApplyFix(g: Grammar) returns (ok: bool)
      requires Sound(g)
      modifies this
      ensures ok <==> Fixable(g, old(Read()))
      ensures !ok ==> state == old(state) && readme == old(readme) && readmeKo == old(readmeKo)
      ensures ok ==> Read() == FixDocs(g, old(Read()), e2eBaseline)
    {
      var d := Read();
      var fixed := Rewrite(g, d, e2eBaseline);
      if fixed.None? {
        return false;
      }
      FixedDocsReadBack(g, d, e2eBaseline);
      Write(d, fixed.value);
      return true;
    }

    /** The fixing run as a whole: it ends well if and only if the documents could be fixed and were
        repairable to begin with, and the fixed ones pass the checks of the pins and of the lint value. */
    method Fix(g: Grammar, pins: Docs -> bool, lint: Docs -> bool) returns (ok: bool)
      requires Sound(g)
      modifies this
      ensures ok <==>
        && Fixable(g, old(Read())) && Repairable(g, old(Read()))
        && pins(FixDocs(g, old(Read()), e2eBaseline)) && lint(FixDocs(g, old(Read()), e2eBaseline))
    {
      ghost var d := Read();
      ok := ApplyFix(g);
      if ok {
        RepairThenCheck(g, d, e2eBaseline);
        ok := CheckConsistency(g);
        var fixed := Read();
        ok := ok && pins(fixed) && lint(fixed);
      }
    }
  }
}
