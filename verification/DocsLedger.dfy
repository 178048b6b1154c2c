/** How the last entry of the ledger is read, and the patterns the script really uses. */
module DocsLedger {
  import opened Text
  import opened Decimal
  import opened NumberedText
  import opened DocsSync
  import opened TextLines

  // ----- the last bullet of the section -----

  predicate BreaksLine(x: Token) { x.Ch? && IsBreak(x.c) }

  predicate IsBullet(line: Tokens) { Match("- ", line, 0) }

  // A carriage return and line feed count twice here; the empty line between them is no bullet.
  function LastBullet(t: Tokens): (r: Option<Tokens>)
    ensures r.Some? ==> IsBullet(r.value) && forall i :: 0 <= i < |r.value| ==> r.value[i] in t
    decreases |t|
  {
    if t == [] then None
    else
      var n := LineLength(BreaksLine, t);
      var later := if n < |t| then LastBullet(t[n + 1..]) else None;
      if later.Some? then later
      else if IsBullet(t[..n]) then Some(t[..n])
      else None
  }

  lemma BulletAlone(entry: Tokens)
    requires IsBullet(entry) && forall i :: 0 <= i < |entry| ==> !BreaksLine(entry[i])
    ensures LastBullet(entry) == Some(entry)
  {
    LineLengthIs(BreaksLine, entry, |entry|);
    assert entry[..|entry|] == entry && |entry| >= 2;
  }

  /** Appending one more entry makes it the one that is read, whatever stands before it. */
  lemma {:induction false} AppendedEntryWins(t: Tokens, entry: Tokens)
    requires t == [] || BreaksLine(t[|t| - 1])
    requires IsBullet(entry) && forall i :: 0 <= i < |entry| ==> !BreaksLine(entry[i])
    ensures LastBullet(t + entry) == Some(entry)
    decreases |t|
  {
    if t == [] {
      assert t + entry == entry;
      BulletAlone(entry);
    } else {
      var n := LineLength(BreaksLine, t);
      LineLengthAppend(t, entry);
      assert (t + entry)[n + 1..] == t[n + 1..] + entry;
      AppendedEntryWins(t[n + 1..], entry);
    }
  }

  lemma {:induction false} LineLengthAppend(t: Tokens, u: Tokens)
    requires t != [] && BreaksLine(t[|t| - 1])
    ensures LineLength(BreaksLine, t) < |t| && LineLength(BreaksLine, t + u) == LineLength(BreaksLine, t)
  {
    if !BreaksLine(t[0]) {
      assert (t + u)[1..] == t[1..] + u;
      LineLengthAppend(t[1..], u);
    }
  }

  // ----- totals and their openers -----

  predicate Spacing(x: Token) { x.Ch? && IsSpace(x.c) }

  function Skip(t: Tokens, k: nat): (r: nat)
    requires k <= |t|
    ensures k <= r <= |t|
    ensures forall i :: k <= i < r ==> Spacing(t[i])
    decreases |t| - k
  {
    if k < |t| && Spacing(t[k]) then Skip(t, k + 1) else k
  }

  predicate Here(t: Tokens, k: nat, c: char) { k < |t| && t[k] == Ch(c) }

  predicate NumberHere(t: Tokens, k: nat) { k < |t| && t[k].Num? }

  // A number in bold type.
  predicate Bold(t: Tokens, k: nat)
  {
    Here(t, k, '*') && Here(t, k + 1, '*') && NumberHere(t, k + 2) && Here(t, k + 3, '*') && Here(t, k + 4, '*')
  }

  predicate Word(t: Tokens, k: nat, c: char, d: char)
  {
    Here(t, k, c) && Here(t, k + 1, d)
  }

  // Token texts are digits only in a tokenised text.
  function Number(t: Tokens, k: nat): nat
  {
    if k < |t| && t[k].Num? && AllDigits(t[k].digits) then Value(t[k].digits) else 0
  }

  datatype Opener = Opener(start: nat, unit: nat, end: nat)

  // "**B** " and a word of two characters: the number, and where the word ends.
  function BoldThen(t: Tokens, b: nat, c: char, d: char): (r: Option<(nat, nat)>)
    requires b <= |t|
    ensures r.Some? ==> b < r.value.1 <= |t|
  {
    if !Bold(t, b) then None
    else
      var w := Skip(t, b + 5);
      if Word(t, w, c, d) then Some((Number(t, b + 2), w + 2)) else None
  }

  // "(A → **B** 단위", with any white space between the parts.
  function OpenAt(t: Tokens, k: nat): Option<Opener>
  {
    if !Here(t, k, '(') || !NumberHere(t, k + 1) then None
    else
      var a := Skip(t, k + 2);
      if !Here(t, a, '→') then None
      else
        var r := BoldThen(t, Skip(t, a + 1), '단', '위');
        if r.None? then None else Some(Opener(Number(t, k + 1), r.value.0, r.value.1))
  }

  // "= **C** 수집".
  function TotalAt(t: Tokens, k: nat): Option<nat>
  {
    if !Here(t, k, '=') then None else Collected(t, k + 1)
  }

  function Collected(t: Tokens, k: nat): Option<nat>
    requires k <= |t|
  {
    var r := BoldThen(t, Skip(t, k), '수', '집');
    if r.None? then None else Some(r.value.0)
  }

  // The two recognisers, kept apart from what is done with them.
  datatype Marks = Marks(open: (Tokens, nat) -> Option<Opener>, total: (Tokens, nat) -> Option<nat>)

  const LEDGER := Marks(OpenAt, TotalAt)

  predicate Dull(x: Token) { x != Ch('(') && x != Ch('=') }

  ghost predicate OpenersFit(m: Marks)
  {
    forall t, k: nat :: m.open(t, k).Some? ==>
      && k + 1 < m.open(t, k).value.end <= |t| && t[k] == Ch('(')
      && forall i :: k < i < m.open(t, k).value.end ==> Dull(t[i])
  }

  ghost predicate TotalsFit(m: Marks)
  {
    forall t, k: nat :: m.total(t, k).Some? ==> k < |t| && t[k] == Ch('=')
  }

  // A total is recognised in a segment as in the whole line.
  ghost predicate TotalsLocal(m: Marks)
  {
    forall t, e: nat, end: nat, k: nat :: e <= k < end && SegmentEnd(t, end) ==>
      m.total(t[e..end], k - e) == m.total(t, k)
  }

  ghost predicate Good(m: Marks)
  {
    OpenersFit(m) && TotalsFit(m) && TotalsLocal(m)
  }

  // The end of a segment: where the next opener begins, or the end of the line.
  predicate SegmentEnd(t: Tokens, end: nat)
  {
    end <= |t| && (end < |t| ==> t[end] == Ch('('))
  }

  // ----- the recognisers fit -----

  lemma SpacesDull(t: Tokens, k: nat, i: nat)
    requires k <= i < |t| && i < Skip(t, k)
    ensures Dull(t[i])
  {
  }

  lemma BoldThenDull(t: Tokens, b: nat, c: char, d: char, i: nat)
    requires b <= |t| && BoldThen(t, b, c, d).Some? && b <= i < BoldThen(t, b, c, d).value.1
    requires c != '(' && c != '=' && d != '(' && d != '='
    ensures Dull(t[i])
  {
    if b + 5 <= i < Skip(t, b + 5) { SpacesDull(t, b + 5, i); }
  }

  lemma OpenAtFits(t: Tokens, k: nat)
    ensures OpenAt(t, k).Some? ==>
      && k + 1 < OpenAt(t, k).value.end <= |t| && t[k] == Ch('(')
      && forall i :: k < i < OpenAt(t, k).value.end ==> Dull(t[i])
  {
    if OpenAt(t, k).Some? {
      var a := Skip(t, k + 2);
      var b := Skip(t, a + 1);
      forall i | k < i < OpenAt(t, k).value.end
        ensures Dull(t[i])
      {
        if k + 2 <= i < a {
          SpacesDull(t, k + 2, i);
        } else if a + 1 <= i < b {
          SpacesDull(t, a + 1, i);
        } else if b <= i {
          BoldThenDull(t, b, '단', '위', i);
        }
      }
    }
  }

  lemma {:induction false} SkipSlice(t: Tokens, e: nat, end: nat, k: nat)
    requires e <= k <= end && SegmentEnd(t, end)
    ensures Skip(t[e..end], k - e) + e == Skip(t, k) <= end
    decreases end - k
  {
    if k < end && Spacing(t[k]) { SkipSlice(t, e, end, k + 1); }
  }

  lemma BoldSlice(t: Tokens, e: nat, end: nat, k: nat)
    requires e <= k <= end && SegmentEnd(t, end)
    ensures Bold(t[e..end], k - e) <==> Bold(t, k)
    ensures Bold(t, k) ==> k + 5 <= end && Number(t[e..end], k - e + 2) == Number(t, k + 2)
  {
    assert forall i :: e <= i < end ==> t[e..end][i - e] == t[i];
  }

  lemma WordSlice(t: Tokens, e: nat, end: nat, k: nat, c: char, d: char)
    requires e <= k <= end && SegmentEnd(t, end) && c != '(' && d != '('
    ensures Word(t[e..end], k - e, c, d) <==> Word(t, k, c, d)
  {
    assert forall i :: e <= i < end ==> t[e..end][i - e] == t[i];
  }

  lemma BoldThenSlice(t: Tokens, e: nat, end: nat, b: nat, c: char, d: char)
    requires e <= b <= end && SegmentEnd(t, end) && c != '(' && d != '('
    ensures BoldThen(t[e..end], b - e, c, d).Some? <==> BoldThen(t, b, c, d).Some?
    ensures BoldThen(t, b, c, d).Some? ==> BoldThen(t[e..end], b - e, c, d).value.0 == BoldThen(t, b, c, d).value.0
  {
    BoldSlice(t, e, end, b);
    if Bold(t, b) {
      SkipSlice(t, e, end, b + 5);
      WordSlice(t, e, end, Skip(t, b + 5), c, d);
      assert b - e + 5 == b + 5 - e;
    }
  }

  lemma CollectedLocal(t: Tokens, e: nat, end: nat, k: nat)
    requires e <= k <= end && SegmentEnd(t, end)
    ensures Collected(t[e..end], k - e) == Collected(t, k)
  {
    SkipSlice(t, e, end, k);
    BoldThenSlice(t, e, end, Skip(t, k), '수', '집');
  }

  lemma TotalAtLocal(t: Tokens, e: nat, end: nat, k: nat)
    requires e <= k < end && SegmentEnd(t, end)
    ensures TotalAt(t[e..end], k - e) == TotalAt(t, k)
  {
    assert t[e..end][k - e] == t[k];
    CollectedLocal(t, e, end, k + 1);
    assert k - e + 1 == k + 1 - e;
  }

  lemma LedgerGood()
    ensures Good(LEDGER)
  {
    forall t, k: nat
      ensures LEDGER.open(t, k).Some? ==>
        && k + 1 < LEDGER.open(t, k).value.end <= |t| && t[k] == Ch('(')
        && forall i :: k < i < LEDGER.open(t, k).value.end ==> Dull(t[i])
    {
      OpenAtFits(t, k);
    }
    forall t, e: nat, end: nat, k: nat | e <= k < end && SegmentEnd(t, end)
      ensures LEDGER.total(t[e..end], k - e) == LEDGER.total(t, k)
    {
      TotalAtLocal(t, e, end, k);
    }
  }

  // ----- openers and the totals they own -----

  predicate MarkAt(m: Marks, t: Tokens, k: nat) { m.open(t, k).Some? || m.total(t, k).Some? }

  // The next opener or total at k or later.
  function NextMark(m: Marks, t: Tokens, k: nat): (r: nat)
    requires k <= |t|
    ensures k <= r <= |t| && (r < |t| ==> MarkAt(m, t, r))
    ensures forall i :: k <= i < r ==> !MarkAt(m, t, i)
    decreases |t| - k
  {
    if k == |t| || MarkAt(m, t, k) then k else NextMark(m, t, k + 1)
  }

  lemma NextMarkIs(m: Marks, t: Tokens, k: nat, r: nat)
    requires k <= r <= |t| && (r < |t| ==> MarkAt(m, t, r))
    requires forall i :: k <= i < r ==> !MarkAt(m, t, i)
    ensures NextMark(m, t, k) == r
  {
  }

  function Opens(m: Marks, t: Tokens, k: nat): (r: seq<nat>)
    requires k <= |t|
    ensures forall i :: 0 <= i < |r| ==> k <= r[i] < |t| && m.open(t, r[i]).Some?
    decreases |t| - k
  {
    if k == |t| then []
    else if m.open(t, k).Some? then [k] + Opens(m, t, k + 1)
    else Opens(m, t, k + 1)
  }

  // They are all the openers, in order.
  lemma {:induction false} OpensAll(m: Marks, t: Tokens, k: nat)
    requires k <= |t|
    ensures forall p :: k <= p < |t| && m.open(t, p).Some? ==> p in Opens(m, t, k)
    ensures forall i, j :: 0 <= i < j < |Opens(m, t, k)| ==> Opens(m, t, k)[i] < Opens(m, t, k)[j]
    decreases |t| - k
  {
    if k < |t| {
      OpensAll(m, t, k + 1);
      var r, rest := Opens(m, t, k), Opens(m, t, k + 1);
      assert m.open(t, k).Some? ==> r == [k] + rest && k in r;
    }
  }

  datatype Triple = Triple(start: nat, unit: nat, total: Option<nat>)

  // An opener owns a total exactly when no other opener or total comes in between.
  function TripleAt(m: Marks, t: Tokens, p: nat): Triple
    requires p < |t| && m.open(t, p).Some?
  {
    var o, q := m.open(t, p).value, NextMark(m, t, p + 1);
    Triple(o.start, o.unit, if q < |t| then m.total(t, q) else None)
  }

  lemma {:induction false} OpensSkip(m: Marks, t: Tokens, k: nat, n: nat)
    requires k <= n <= |t| && forall i :: k <= i < n ==> !MarkAt(m, t, i)
    ensures Opens(m, t, k) == Opens(m, t, n)
    decreases n - k
  {
    if k < n {
      assert !MarkAt(m, t, k);
      OpensSkip(m, t, k + 1, n);
    }
  }

  lemma InsideOpener(m: Marks, t: Tokens, k: nat)
    requires Good(m) && m.open(t, k).Some?
    ensures k + 1 < m.open(t, k).value.end <= |t|
    ensures forall i :: k < i < m.open(t, k).value.end ==> !MarkAt(m, t, i)
  {
    forall i | k < i < m.open(t, k).value.end
      ensures !MarkAt(m, t, i)
    {
      assert Dull(t[i]);
    }
  }

  // The first total in the segment.
  function Search(m: Marks, s: Tokens, k: nat): (r: nat)
    requires k <= |s|
    ensures k <= r <= |s| && (r < |s| ==> m.total(s, r).Some?)
    ensures forall i :: k <= i < r ==> m.total(s, i).None?
    decreases |s| - k
  {
    if k == |s| || m.total(s, k).Some? then k else Search(m, s, k + 1)
  }

  lemma QuietSegment(m: Marks, t: Tokens, e: nat, end: nat, q: nat)
    requires Good(m) && e <= end && SegmentEnd(t, end) && e + q <= end
    requires forall i :: e <= i < end ==> m.open(t, i).None?
    requires forall i :: 0 <= i < q ==> m.total(t[e..end], i).None?
    ensures forall i :: e <= i < e + q ==> !MarkAt(m, t, i)
  {
    forall i | e <= i < e + q
      ensures !MarkAt(m, t, i)
    {
      assert m.total(t[e..end], i - e) == m.total(t, i);
    }
  }

  // What ends the segment of the opener at p: the next opener, or the end of the line.
  predicate Segment(m: Marks, t: Tokens, p: nat, end: nat)
  {
    && p < |t| && m.open(t, p).Some? && m.open(t, p).value.end <= end && SegmentEnd(t, end)
    && (end < |t| ==> m.open(t, end).Some?)
    && (forall i :: p < i < end ==> m.open(t, i).None?)
  }

  lemma SegmentMark(m: Marks, t: Tokens, p: nat, end: nat)
    requires Good(m) && Segment(m, t, p, end)
    ensures var e := m.open(t, p).value.end;
      NextMark(m, t, p + 1) == e + Search(m, t[e..end], 0)
  {
    var e := m.open(t, p).value.end;
    var q := Search(m, t[e..end], 0);
    InsideOpener(m, t, p);
    QuietSegment(m, t, e, end, q);
    if e + q < end {
      assert m.total(t[e..end], e + q - e) == m.total(t, e + q);
    }
    NextMarkIs(m, t, p + 1, e + q);
  }

  lemma SegmentTotal(m: Marks, t: Tokens, p: nat, end: nat)
    requires Good(m) && Segment(m, t, p, end)
    ensures var s := t[m.open(t, p).value.end..end];
      TripleAt(m, t, p).total == if Search(m, s, 0) < |s| then m.total(s, Search(m, s, 0)) else None
  {
    var e := m.open(t, p).value.end;
    var q := Search(m, t[e..end], 0);
    SegmentMark(m, t, p, end);
    if e + q < end {
      assert m.total(t[e..end], e + q - e) == m.total(t, e + q);
    } else if end < |t| {
      assert t[end] != Ch('=');
    }
  }

  lemma NoneBetween(opens: seq<nat>, i: nat)
    requires i < |opens| && forall i, j :: 0 <= i < j < |opens| ==> opens[i] < opens[j]
    ensures forall p :: opens[i] < p && p in opens ==> i + 1 < |opens| && opens[i + 1] <= p
  {
  }

  lemma NextOpener(m: Marks, t: Tokens, opens: seq<nat>, i: nat, end: nat)
    requires Good(m) && opens == Opens(m, t, 0) && i < |opens|
    requires end == if i + 1 < |opens| then opens[i + 1] else |t|
    ensures Segment(m, t, opens[i], end)
  {
    OpensAll(m, t, 0);
    NoneBetween(opens, i);
    InsideOpener(m, t, opens[i]);
    assert end < |t| ==> MarkAt(m, t, end);
  }

  /** The openers of a line, each with the total it owns. */
  method FormalPairs(m: Marks, t: Tokens) returns (out: seq<Triple>)
    requires Good(m)
    ensures |out| == |Opens(m, t, 0)| && Listed(m, t, Opens(m, t, 0), out)
  {
    var opens := FindOpens(m, t);
    out := [];
    for i := 0 to |opens|
      invariant |out| == i && Listed(m, t, opens, out)
    {
      var pair := OwnPair(m, t, opens, i);
      ListedNext(m, t, opens, out, pair);
      out := out + [pair];
    }
  }

  // The triples of the first openers.
  predicate Listed(m: Marks, t: Tokens, opens: seq<nat>, out: seq<Triple>)
    requires forall i :: 0 <= i < |opens| ==> opens[i] < |t| && m.open(t, opens[i]).Some?
  {
    |out| <= |opens| && forall i :: 0 <= i < |out| ==> out[i] == TripleAt(m, t, opens[i])
  }

  lemma ListedNext(m: Marks, t: Tokens, opens: seq<nat>, out: seq<Triple>, pair: Triple)
    requires forall i :: 0 <= i < |opens| ==> opens[i] < |t| && m.open(t, opens[i]).Some?
    requires Listed(m, t, opens, out) && |out| < |opens| && pair == TripleAt(m, t, opens[|out|])
    ensures Listed(m, t, opens, out + [pair])
  {
  }

  method OwnPair(m: Marks, t: Tokens, opens: seq<nat>, i: nat) returns (pair: Triple)
    requires Good(m) && opens == Opens(m, t, 0) && i < |opens|
    ensures pair == TripleAt(m, t, opens[i])
  {
    var o := m.open(t, opens[i]).value;
    var end := if i + 1 < |opens| then opens[i + 1] else |t|;
    NextOpener(m, t, opens, i, end);
    SegmentTotal(m, t, opens[i], end);
    var segment := t[o.end..end];
    var q := Search(m, segment, 0);
    pair := Triple(o.start, o.unit, if q < |segment| then m.total(segment, q) else None);
  }

  lemma OpensStep(m: Marks, t: Tokens, k: nat)
    requires Good(m) && k < |t| && m.open(t, k).Some?
    ensures k + 1 < m.open(t, k).value.end <= |t|
    ensures Opens(m, t, k) == [k] + Opens(m, t, m.open(t, k).value.end)
  {
    InsideOpener(m, t, k);
    OpensSkip(m, t, k + 1, m.open(t, k).value.end);
  }

  method FindOpens(m: Marks, t: Tokens) returns (opens: seq<nat>)
    requires Good(m)
    ensures opens == Opens(m, t, 0)
  {
    opens := [];
    var k := 0;
    while k < |t|
      invariant k <= |t| && opens + Opens(m, t, k) == Opens(m, t, 0)
    {
      var o := m.open(t, k);
      if o.Some? {
        OpensStep(m, t, k);
        assert opens + ([k] + Opens(m, t, o.value.end)) == (opens + [k]) + Opens(m, t, o.value.end);
        opens, k := opens + [k], o.value.end;
      } else {
        k := k + 1;
      }
    }
  }

  // ----- what the ledger says -----

  // The pairs that own a total.
  function FullPairs(m: Marks, t: Tokens, opens: seq<nat>): seq<Triple>
    requires forall i :: 0 <= i < |opens| ==> opens[i] < |t| && m.open(t, opens[i]).Some?
  {
    if opens == [] then []
    else
      var x := TripleAt(m, t, opens[0]);
      (if x.total.Some? then [x] else []) + FullPairs(m, t, opens[1..])
  }

  predicate Owns(m: Marks, t: Tokens, p: nat)
  {
    p < |t| && m.open(t, p).Some? && TripleAt(m, t, p).total.Some?
  }

  // The total and unit counts, if exactly one pair of the line is full.
  function LinePair(m: Marks, t: Tokens): (r: Option<Pair>)
    ensures r.Some? ==> Numeral(r.value.total) && Numeral(r.value.unit)
  {
    var full := FullPairs(m, t, Opens(m, t, 0));
    if |full| == 1 && full[0].total.Some? then Some(Pair(Print(full[0].total.value), Print(full[0].unit))) else None
  }

  lemma {:induction false} FullPairsOwn(m: Marks, t: Tokens, opens: seq<nat>)
    requires forall i :: 0 <= i < |opens| ==> opens[i] < |t| && m.open(t, opens[i]).Some?
    ensures |FullPairs(m, t, opens)| == 0 <==> forall p :: p in opens ==> !Owns(m, t, p)
    ensures forall x :: x in FullPairs(m, t, opens) ==>
      exists p :: p in opens && Owns(m, t, p) && TripleAt(m, t, p) == x
  {
    if opens != [] {
      FullPairsOwn(m, t, opens[1..]);
      assert opens == [opens[0]] + opens[1..];
      assert Owns(m, t, opens[0]) <==> TripleAt(m, t, opens[0]).total.Some?;
    }
  }

  lemma {:induction false} FullPairsOne(m: Marks, t: Tokens, opens: seq<nat>)
    requires forall i :: 0 <= i < |opens| ==> opens[i] < |t| && m.open(t, opens[i]).Some?
    requires forall i, j :: 0 <= i < j < |opens| ==> opens[i] < opens[j]
    ensures |FullPairs(m, t, opens)| == 1 <==>
      exists p :: p in opens && Owns(m, t, p) && FullPairs(m, t, opens) == [TripleAt(m, t, p)]
                  && forall q :: q in opens && Owns(m, t, q) ==> q == p
  {
    if opens != [] {
      FullPairsOne(m, t, opens[1..]);
      FullPairsOwn(m, t, opens[1..]);
      assert opens == [opens[0]] + opens[1..];
    }
  }

  ghost predicate Sole(m: Marks, t: Tokens, p: nat)
  {
    Owns(m, t, p) && forall q: nat :: Owns(m, t, q) ==> q == p
  }

  /** The line is read if and only if one opener alone owns a total, and then it is read there: numbers
      of different pairs are never put together. */
  lemma {:induction false} LinePairIs(m: Marks, t: Tokens)
    ensures LinePair(m, t).Some? <==> exists p: nat :: Sole(m, t, p)
    ensures forall p: nat :: Sole(m, t, p) ==>
      LinePair(m, t) == Some(Pair(Print(TripleAt(m, t, p).total.value), Print(TripleAt(m, t, p).unit)))
  {
    var opens := Opens(m, t, 0);
    OpensAll(m, t, 0);
    FullPairsOwn(m, t, opens);
    FullPairsOne(m, t, opens);
    assert forall q: nat :: Owns(m, t, q) ==> q in opens;
    forall p: nat | Sole(m, t, p)
      ensures LinePair(m, t) == Some(Pair(Print(TripleAt(m, t, p).total.value), Print(TripleAt(m, t, p).unit)))
    {
      SoleIsFull(m, t, opens, p);
    }
    if LinePair(m, t).Some? {
      var p :| p in opens && Owns(m, t, p) && forall q :: q in opens && Owns(m, t, q) ==> q == p;
      assert Sole(m, t, p);
    }
  }

  lemma {:induction false} SoleIsFull(m: Marks, t: Tokens, opens: seq<nat>, p: nat)
    requires forall i :: 0 <= i < |opens| ==> opens[i] < |t| && m.open(t, opens[i]).Some?
    requires forall i, j :: 0 <= i < j < |opens| ==> opens[i] < opens[j]
    requires p in opens && Sole(m, t, p)
    ensures FullPairs(m, t, opens) == [TripleAt(m, t, p)]
  {
    assert opens == [opens[0]] + opens[1..];
    if opens[0] == p {
      FullPairsOwn(m, t, opens[1..]);
    } else {
      SoleIsFull(m, t, opens[1..], p);
      assert !Owns(m, t, opens[0]);
    }
  }
}

/** The script's own patterns. */
module DocsScript {
  import opened Text
  import opened Decimal
  import opened NumberedText
  import opened DocsSync
  import opened DocsLedger

  const HEADING := "## 테스트 수 추적 이력"
  const NEXT_HEADING := "\n## "
  const INTEG := "통합 @"

  // From behind the heading to the next one of its level.
  function Section(ledger: Tokens): Tokens { SectionOf(|HEADING|, NEXT_HEADING, ledger) }

  function SectionOf(heading: nat, next: string, ledger: Tokens): Tokens
  {
    if |ledger| < heading then []
    else
      var r := ledger[heading..];
      var end := First(next, r, 0);
      if end == -1 then r else r[..end]
  }

  function ReadPair(ledger: Tokens): (r: Option<Pair>)
    ensures r.Some? ==> Numeral(r.value.total) && Numeral(r.value.unit)
  {
    var entry := LastBullet(Section(ledger));
    if entry.None? then None else LinePair(LEDGER, entry.value)
  }

  // The integration count, if the entry names exactly one.
  function ReadInteg(ledger: Tokens): Option<string>
  {
    var entry := LastBullet(Section(ledger));
    if entry.Some? && Once(INTEG, entry.value) then Some(NumAt(entry.value, First(INTEG, entry.value, 0) + 3)) else None
  }

  lemma MatchPrefix(tpl: string, a: Tokens, b: Tokens, k: int)
    requires k + |tpl| <= |a|
    ensures Match(tpl, a + b, k) <==> Match(tpl, a, k)
  {
    assert forall i :: 0 <= i < |a| ==> (a + b)[i] == a[i];
  }

  predicate Entry(entry: Tokens)
  {
    IsBullet(entry) && forall i :: 0 <= i < |entry| ==> !BreaksLine(entry[i])
  }

  predicate EndsLine(t: Tokens)
  {
    t == [] || BreaksLine(t[|t| - 1])
  }

  lemma HeadingChars(t: Tokens, k: int)
    requires Match(NEXT_HEADING, t, k)
    ensures 0 <= k && k + 4 <= |t|
    ensures t[k] == Ch('\n') && t[k + 1] == Ch('#') && t[k + 2] == Ch('#') && t[k + 3] == Ch(' ')
  {
    assert Fits(NEXT_HEADING[0], t[k + 0]) && Fits(NEXT_HEADING[1], t[k + 1]);
    assert Fits(NEXT_HEADING[2], t[k + 2]) && Fits(NEXT_HEADING[3], t[k + 3]);
  }

  lemma BulletSign(entry: Tokens)
    requires IsBullet(entry)
    ensures entry != [] && entry[0] == Ch('-')
  {
    assert Fits("- "[0], entry[0 + 0]);
  }

  // A next heading neither lies in an entry nor begins right before one.
  lemma NoHeadingAcross(rest: Tokens, entry: Tokens, k: int)
    requires EndsLine(rest) && Entry(entry) && |rest| < k + 4
    ensures !Match(NEXT_HEADING, rest + entry, k)
  {
    var t := rest + entry;
    BulletSign(entry);
    assert t[|rest|] == entry[0];
    assert rest != [] ==> t[|rest| - 1] == rest[|rest| - 1];
    assert forall i :: |rest| <= i < |t| ==> !BreaksLine(t[i]);
    if Match(NEXT_HEADING, t, k) { HeadingChars(t, k); }
  }

  lemma NoNextHeading(rest: Tokens, entry: Tokens)
    requires EndsLine(rest) && Entry(entry) && First(NEXT_HEADING, rest, 0) == -1
    ensures First(NEXT_HEADING, rest + entry, 0) == -1
  {
    var r := First(NEXT_HEADING, rest + entry, 0);
    if r != -1 {
      if r + 4 <= |rest| { MatchPrefix(NEXT_HEADING, rest, entry, r); } else { NoHeadingAcross(rest, entry, r); }
      assert false;
    }
  }

  lemma SectionGrows(heading: nat, next: string, ledger: Tokens, entry: Tokens)
    requires |ledger| >= heading && First(next, ledger[heading..] + entry, 0) == -1
    ensures SectionOf(heading, next, ledger + entry) == ledger[heading..] + entry
  {
    assert (ledger + entry)[heading..] == ledger[heading..] + entry;
  }

  lemma AppendedSection(ledger: Tokens, entry: Tokens)
    requires |ledger| >= |HEADING| && First(NEXT_HEADING, ledger[|HEADING|..], 0) == -1
    requires EndsLine(ledger[|HEADING|..]) && Entry(entry)
    ensures LastBullet(Section(ledger + entry)) == Some(entry)
  {
    NoNextHeading(ledger[|HEADING|..], entry);
    SectionGrows(|HEADING|, NEXT_HEADING, ledger, entry);
    AppendedEntryWins(ledger[|HEADING|..], entry);
  }

  lemma LastPairIsRead(ledger: Tokens, entry: Tokens)
    requires LastBullet(Section(ledger)) == Some(entry)
    ensures ReadPair(ledger) == LinePair(LEDGER, entry)
  {
  }

  lemma LastIntegIsRead(ledger: Tokens, entry: Tokens)
    requires LastBullet(Section(ledger)) == Some(entry)
    ensures ReadInteg(ledger) == if Once(INTEG, entry) then Some(NumAt(entry, First(INTEG, entry, 0) + 3)) else None
  {
  }

  /** Appending an entry at the end of the ledger makes it the one the script reads, whatever the ledger
      holds. */
  lemma {:induction false} AppendedEntryIsRead(ledger: Tokens, entry: Tokens)
    requires |ledger| >= |HEADING| && First(NEXT_HEADING, ledger[|HEADING|..], 0) == -1
    requires EndsLine(ledger[|HEADING|..]) && Entry(entry)
    ensures ReadPair(ledger + entry) == LinePair(LEDGER, entry)
    ensures ReadInteg(ledger + entry) ==
      if Once(INTEG, entry) then Some(NumAt(entry, First(INTEG, entry, 0) + 3)) else None
  {
    AppendedSection(ledger, entry);
    LastPairIsRead(ledger + entry, entry);
    LastIntegIsRead(ledger + entry, entry);
  }

  const TOTAL := "전체 **@** 수집 (단위 **@** + 통합 @)"
  const CELL_TOTAL := "**@ 수집**"
  const CELL_UNIT := "단위 @ + 통합 @ (현재)"
  const INTEG_NOW := "통합 @ (현재)"
  const BADGE := "Tests-@%2B_total_(@_unit_%2B_@_integration)"
  const E2E_BADGE := "E2E-@_in_CI"

  const DOCS := Grammar(HEADING, TOTAL, CELL_TOTAL, CELL_UNIT, INTEG_NOW, BADGE, E2E_BADGE, ReadPair, ReadInteg)

  lemma HeadingPlain()
    ensures NoDigits(HEADING)
  {
  }

  lemma TotalPlain()
    ensures NoDigits(TOTAL)
  {
  }

  lemma CellPlain()
    ensures NoDigits(CELL_TOTAL) && NoDigits(CELL_UNIT) && NoDigits(INTEG_NOW)
  {
  }

  lemma TotalSlots()
    ensures Slot(TOTAL, 5) && Slot(TOTAL, 18) && Slot(TOTAL, 27)
  {
  }

  lemma CellSlots()
    ensures Slot(CELL_TOTAL, 2) && Slot(CELL_UNIT, 3) && Slot(CELL_UNIT, 10) && Slot(INTEG_NOW, 3)
    ensures |CELL_UNIT| == 7 + |INTEG_NOW| && CELL_UNIT[7..] == INTEG_NOW
  {
  }

  lemma BadgeHasSlots()
    ensures Slot(BADGE, 6) && Slot(BADGE, 18) && Slot(BADGE, 29)
    ensures Before(BADGE, 5) && Before(BADGE, 17) && Before(BADGE, 28)
    ensures Literal(BADGE, 7) && BADGE[7] == '%' && BADGE[17] == '('
  {
  }

  lemma E2eHasSlots()
    ensures Slot(E2E_BADGE, 4) && Before(E2E_BADGE, 3) && Literal(E2E_BADGE, 5)
    ensures E2E_BADGE[5] == '_' && E2E_BADGE[3] == '-'
  {
  }

  lemma DocsBadgeSlots()
    ensures BadgeSlots(DOCS)
  {
    BadgeHasSlots();
    E2eHasSlots();
  }

  lemma BadgeDigits()
    ensures |BADGE| == 43
    ensures forall i :: 0 <= i < |BADGE| && IsDigit(BADGE[i]) ==> i == 8 || i == 26
  {
  }

  lemma BadgeSafe()
    ensures SafeTemplate(BADGE, BEFORE)
  {
    BadgeDigits();
    assert BADGE[7] == '%' && BADGE[25] == '%';
  }

  lemma E2eDigits()
    ensures |E2E_BADGE| == 11
    ensures forall i :: 0 <= i < |E2E_BADGE| && IsDigit(E2E_BADGE[i]) ==> i == 1
  {
  }

  lemma E2eSafe()
    ensures SafeTemplate(E2E_BADGE, BEFORE)
  {
    E2eDigits();
    assert E2E_BADGE[0] == 'E';
  }

  lemma DocsApart()
    ensures Apart(DOCS)
  {
  }

  lemma ReadIntegNumeral(ledger: Tokens)
    requires Canonical(ledger) && ReadInteg(ledger).Some?
    ensures Numeral(ReadInteg(ledger).value)
  {
    var entry := LastBullet(Section(ledger)).value;
    var k := First(INTEG, entry, 0) + 3;
    assert Fits(INTEG[3], entry[k]);
    assert entry[k] in ledger;
  }

  /** For the script itself: after a successful fix the check passes exactly for repairable documents. */
  lemma {:induction false} FixThenCheck(d: Docs, want: string)
    ensures Fixable(DOCS, d) ==> (Consistent(DOCS, FixDocs(DOCS, d, want)) <==> Repairable(DOCS, d))
  {
    DocsSound();
    if Fixable(DOCS, d) { RepairThenCheck(DOCS, d, want); }
  }

  /** The patterns of the script meet everything that was assumed of them. */
  lemma {:induction false} DocsSound()
    ensures Sound(DOCS)
  {
    HeadingPlain();
    TotalPlain();
    CellPlain();
    TotalSlots();
    CellSlots();
    DocsBadgeSlots();
    DocsApart();
    BadgeSafe();
    E2eSafe();
    forall t | Canonical(t) && DOCS.integ(t).Some?
      ensures Numeral(DOCS.integ(t).value)
    {
      ReadIntegNumeral(t);
    }
  }
}
