/** Which added comment lines have Korean without English beside it. */
module CommentBlocks {
  import opened Counting

  // What the patterns say of a line; `latinBody` looks behind the comment sign only.
  datatype Patterns = Patterns(comment: string -> bool, exempt: string -> bool, hangul: string -> bool,
                               latin: string -> bool, latinBody: string -> bool)

  predicate Counted(p: Patterns, line: string) { p.comment(line) && !p.exempt(line) }

  // Only comments lie between the two lines, themselves included.
  predicate SameBlock(p: Patterns, lines: seq<string>, j: nat, k: nat)
  {
    && j < |lines| && k < |lines|
    && (forall i :: j <= i <= k ==> p.comment(lines[i]))
    && (forall i :: k <= i <= j ==> p.comment(lines[i]))
  }

  // Korean alone, and no counted line of its block has a Latin word.
  predicate Violates(p: Patterns, lines: seq<string>, k: nat)
    requires k < |lines|
  {
    && p.comment(lines[k]) && !p.exempt(lines[k]) && p.hangul(lines[k]) && !p.latin(lines[k])
    && forall j: nat :: j < |lines| && SameBlock(p, lines, j, k) && p.latinBody(lines[j]) ==> p.exempt(lines[j])
  }

  predicate Suspect(p: Patterns, line: string) { p.hangul(line) && !p.latin(line) }

  function AddIf(xs: seq<string>, wanted: bool, x: string): seq<string>
  {
    if wanted then xs + [x] else xs
  }

  lemma AddIfConcat(xs: seq<string>, ys: seq<string>, wanted: bool, x: string)
    ensures AddIf(xs + ys, wanted, x) == xs + AddIf(ys, wanted, x)
  {
  }

  // The violations among the first n lines, in order.
  function Violations(p: Patterns, lines: seq<string>, n: nat): seq<string>
    requires n <= |lines|
  {
    if n == 0 then [] else AddIf(Violations(p, lines, n - 1), Violates(p, lines, n - 1), lines[n - 1])
  }

  // ----- one block -----

  // Lines s to n are a run of comments that goes no further back.
  predicate Run(p: Patterns, lines: seq<string>, s: nat, n: nat)
  {
    && s <= n <= |lines| && (s > 0 ==> !p.comment(lines[s - 1]))
    && forall i :: s <= i < n ==> p.comment(lines[i])
  }

  predicate HasLatin(p: Patterns, lines: seq<string>, s: nat, n: nat)
    requires s <= n <= |lines|
  {
    exists j :: s <= j < n && Counted(p, lines[j]) && p.latinBody(lines[j])
  }

  // The counted lines from s to n.
  function Block(p: Patterns, lines: seq<string>, s: nat, n: nat): seq<string>
    requires s <= n <= |lines|
    decreases n
  {
    if s == n then [] else AddIf(Block(p, lines, s, n - 1), Counted(p, lines[n - 1]), lines[n - 1])
  }

  function Suspects(p: Patterns, block: seq<string>): seq<string>
  {
    if block == [] then []
    else AddIf(Suspects(p, block[..|block| - 1]), Suspect(p, block[|block| - 1]), block[|block| - 1])
  }

  lemma InRun(p: Patterns, lines: seq<string>, s: nat, n: nat, j: nat, k: nat)
    requires Run(p, lines, s, n) && (n < |lines| ==> !p.comment(lines[n])) && s <= k < n
    ensures SameBlock(p, lines, j, k) <==> s <= j < n
  {
    if j < s {
      assert j <= s - 1 <= k && !p.comment(lines[s - 1]);
    } else if n <= j < |lines| {
      assert k <= n <= j && !p.comment(lines[n]);
    }
  }

  // In a whole run a line violates the rule if it is suspect and the run has no Latin word.
  lemma RunViolates(p: Patterns, lines: seq<string>, s: nat, n: nat, k: nat)
    requires Run(p, lines, s, n) && (n < |lines| ==> !p.comment(lines[n])) && s <= k < n
    ensures Violates(p, lines, k) <==> Counted(p, lines[k]) && Suspect(p, lines[k]) && !HasLatin(p, lines, s, n)
  {
    forall j: nat
      ensures SameBlock(p, lines, j, k) <==> s <= j < n
    {
      InRun(p, lines, s, n, j, k);
    }
  }

  // What a flush reports.
  function Flushed(p: Patterns, block: seq<string>, latin: bool): seq<string>
  {
    if latin then [] else Suspects(p, block)
  }

  lemma SuspectsSnoc(p: Patterns, block: seq<string>, line: string)
    ensures Suspects(p, block + [line]) == AddIf(Suspects(p, block), Suspect(p, line), line)
  {
    assert (block + [line])[..|block|] == block;
  }

  lemma {:induction false} FlushedRun(p: Patterns, lines: seq<string>, s: nat, n: nat, m: nat)
    requires Run(p, lines, s, n) && (n < |lines| ==> !p.comment(lines[n])) && s <= m <= n
    ensures Violations(p, lines, m)
         == Violations(p, lines, s) + Flushed(p, Block(p, lines, s, m), HasLatin(p, lines, s, n))
    decreases m
  {
    var latin := HasLatin(p, lines, s, n);
    if s < m {
      var block, line := Block(p, lines, s, m - 1), lines[m - 1];
      FlushedRun(p, lines, s, n, m - 1);
      RunViolates(p, lines, s, n, m - 1);
      FlushedAdd(p, block, latin, line);
      var reported := Counted(p, line) && Suspect(p, line) && !latin;
      AddIfConcat(Violations(p, lines, s), Flushed(p, block, latin), reported, line);
    }
  }

  lemma FlushedAdd(p: Patterns, block: seq<string>, latin: bool, line: string)
    ensures Flushed(p, AddIf(block, Counted(p, line), line), latin) ==
      AddIf(Flushed(p, block, latin), Counted(p, line) && Suspect(p, line) && !latin, line)
  {
    SuspectsSnoc(p, block, line);
  }

  // ----- the check -----

  method Flush(p: Patterns, block: seq<string>, latin: bool, msgs: seq<string>) returns (out: seq<string>)
    ensures out == msgs + Flushed(p, block, latin)
  {
    out := msgs;
    if !latin {
      for i := 0 to |block|
        invariant out == msgs + Suspects(p, block[..i])
        invariant forall j :: 0 <= j < |block| ==> block[j] in block
      {
        SuspectsSnoc(p, block[..i], block[i]);
        assert block[..i] + [block[i]] == block[..i + 1];
        if Suspect(p, block[i]) {
          out := out + [block[i]];
        }
      }
      assert block[..|block|] == block;
    }
  }

  /** The streaming check reports exactly the violations, in order. */
  method CheckLines(p: Patterns, lines: seq<string>) returns (ok: bool, msgs: seq<string>)
    ensures msgs == Violations(p, lines, |lines|)
    ensures ok <==> Passes(p, lines, |lines|)
  {
    msgs := [];
    var block, latin := [], false;
    ghost var s := 0;
    for n := 0 to |lines|
      invariant Run(p, lines, s, n) && msgs == Violations(p, lines, s)
      invariant block == Block(p, lines, s, n) && latin == HasLatin(p, lines, s, n)
    {
      if !p.comment(lines[n]) {
        FlushedRun(p, lines, s, n, n);
        msgs := Flush(p, block, latin, msgs);
        block, latin := [], false;
        s := n + 1;
      } else if !p.exempt(lines[n]) {
        block := block + [lines[n]];
        if p.latinBody(lines[n]) {
          latin := true;
        }
      }
    }
    FlushedRun(p, lines, s, |lines|, |lines|);
    msgs := Flush(p, block, latin, msgs);
    ok := msgs == [];
    NoViolations(p, lines);
  }

  lemma NoViolations(p: Patterns, lines: seq<string>)
    ensures Violations(p, lines, |lines|) == [] <==> Passes(p, lines, |lines|)
  {
    var ks := ViolationsAre(p, lines);
    assert forall k: nat :: k in ks <==> k < |lines| && Bad(p, lines)(k);
    if ks != [] {
      assert ks[0] in ks && Violates(p, lines, ks[0]);
    } else {
      forall k: nat | k < |lines|
        ensures !Violates(p, lines, k)
      {
        assert k !in ks;
      }
    }
  }

  predicate Passes(p: Patterns, lines: seq<string>, n: nat)
    requires n <= |lines|
  {
    forall k :: 0 <= k < n ==> !Violates(p, lines, k)
  }

  function Bad(p: Patterns, lines: seq<string>): nat -> bool { (k: nat) => k < |lines| && Violates(p, lines, k) }

  // `msgs` are the lines at the positions below n with the property, in order.
  ghost predicate Reports(bad: nat -> bool, lines: seq<string>, n: nat, ks: seq<nat>, msgs: seq<string>)
  {
    && Rising(ks) && |msgs| == |ks|
    && (forall k: nat :: k in ks <==> k < n && bad(k))
    && (forall i :: 0 <= i < |ks| ==> ks[i] < |lines| && msgs[i] == lines[ks[i]])
  }

  lemma OneMore(ks: seq<nat>, last: nat)
    requires Rising(ks) && forall k: nat :: k in ks ==> k < last
    ensures Rising(ks + [last]) && forall k: nat :: k in ks + [last] <==> k in ks || k == last
  {
    assert forall i :: 0 <= i < |ks| ==> ks[i] in ks;
  }

  lemma ReportsMore(bad: nat -> bool, lines: seq<string>, n: nat, ks: seq<nat>, msgs: seq<string>)
    requires n < |lines| && Reports(bad, lines, n, ks, msgs) && bad(n)
    ensures Reports(bad, lines, n + 1, ks + [n], msgs + [lines[n]])
  {
    OneMore(ks, n);
    var ks2, msgs2 := ks + [n], msgs + [lines[n]];
    forall i | 0 <= i < |ks2|
      ensures ks2[i] < |lines| && msgs2[i] == lines[ks2[i]]
    {
    }
  }

  lemma ReportsSame(bad: nat -> bool, lines: seq<string>, n: nat, ks: seq<nat>, msgs: seq<string>)
    requires n < |lines| && Reports(bad, lines, n, ks, msgs) && !bad(n)
    ensures Reports(bad, lines, n + 1, ks, msgs)
  {
  }

  // Messages collected line by line.
  lemma {:induction false} Collected(bad: nat -> bool, lines: seq<string>, all: seq<seq<string>>, n: nat)
    returns (ks: seq<nat>)
    requires n <= |lines| && |all| == |lines| + 1 && all[0] == []
    requires forall m :: 0 <= m < |lines| ==> all[m + 1] == AddIf(all[m], bad(m), lines[m])
    ensures Reports(bad, lines, n, ks, all[n])
  {
    ks := [];
    if n > 0 {
      var m := n - 1;
      ks := Collected(bad, lines, all, m);
      assert all[m + 1] == AddIf(all[m], bad(m), lines[m]);
      if bad(m) {
        ReportsMore(bad, lines, m, ks, all[m]);
        ks := ks + [m];
      } else {
        ReportsSame(bad, lines, m, ks, all[m]);
      }
    }
  }

  /** The messages are the lines that violate the rule, each once, in the order of the file. */
  lemma ViolationsAre(p: Patterns, lines: seq<string>) returns (ks: seq<nat>)
    ensures Reports(Bad(p, lines), lines, |lines|, ks, Violations(p, lines, |lines|))
  {
    var all := seq(|lines| + 1, m requires 0 <= m <= |lines| => Violations(p, lines, m));
    ks := Collected(Bad(p, lines), lines, all, |lines|);
  }
}
