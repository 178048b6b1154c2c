/** Strings cut at a separator, glued together again, and searched. */
module Text {

  datatype Option<+T> = None | Some(value: T)

  // White space, in strings and in patterns alike.
  predicate IsSpace(c: char)
  {
    || '\t' <= c <= '\r' || '\U{1C}' <= c <= '\U{20}' || c == '\U{85}' || c == '\U{A0}' || c == '\U{1680}'
    || '\U{2000}' <= c <= '\U{200A}' || c == '\U{2028}' || c == '\U{2029}' || c == '\U{202F}'
    || c == '\U{205F}' || c == '\U{3000}'
  }

  function LeftTrim(s: string): (r: string)
    ensures |r| <= |s|
  {
    if s != "" && IsSpace(s[0]) then LeftTrim(s[1..]) else s
  }

  function RightTrim(s: string): string
  {
    if s != "" && IsSpace(s[|s| - 1]) then RightTrim(s[..|s| - 1]) else s
  }

  predicate AllSpace(s: string) { forall i :: 0 <= i < |s| ==> IsSpace(s[i]) }

  lemma {:induction false} LeftTrimBlank(a: string, y: string)
    requires AllSpace(a) && (y == "" || !IsSpace(y[0]))
    ensures LeftTrim(a + y) == y
  {
    if a == "" {
      assert a + y == y;
    } else {
      assert (a + y)[1..] == a[1..] + y;
      LeftTrimBlank(a[1..], y);
    }
  }

  lemma {:induction false} RightTrimBlank(y: string, z: string)
    requires AllSpace(z) && (y == "" || !IsSpace(y[|y| - 1]))
    ensures RightTrim(y + z) == y
  {
    if z == "" {
      assert y + z == y;
    } else {
      assert (y + z)[..|y + z| - 1] == y + z[..|z| - 1];
      RightTrimBlank(y, z[..|z| - 1]);
    }
  }

  // Every piece between two occurrences of `sep`; never empty.
  function Split(s: string, sep: char): (pieces: seq<string>)
    ensures |pieces| >= 1
  {
    if s == "" then [""]
    else
      var rest := Split(s[1..], sep);
      if s[0] == sep then [""] + rest else Prepend(s[0], rest)
  }

  function Join(pieces: seq<string>, sep: char): string
  {
    if pieces == [] then ""
    else if |pieces| == 1 then pieces[0]
    else pieces[0] + [sep] + Join(pieces[1..], sep)
  }

  function Glue(xs: seq<string>, ys: seq<string>): seq<string>
    requires |xs| >= 1 && |ys| >= 1
  {
    xs[..|xs| - 1] + [xs[|xs| - 1] + ys[0]] + ys[1..]
  }

  // Put a character in front of the first piece.
  function Prepend(c: char, xs: seq<string>): seq<string>
    requires |xs| >= 1
  {
    [[c] + xs[0]] + xs[1..]
  }

  lemma GluePrepend(c: char, xs: seq<string>, ys: seq<string>)
    requires |xs| >= 1 && |ys| >= 1
    ensures Glue(Prepend(c, xs), ys) == Prepend(c, Glue(xs, ys))
  {
    if |xs| == 1 {
      assert [c] + (xs[0] + ys[0]) == [c] + xs[0] + ys[0];
    }
  }

  lemma GlueFront(x: string, xs: seq<string>, ys: seq<string>)
    requires |xs| >= 1 && |ys| >= 1
    ensures Glue([x] + xs, ys) == [x] + Glue(xs, ys)
  {
  }

  // The last piece of the first string runs on into the first piece of the second.
  lemma {:induction false} SplitAppend(s: string, t: string, sep: char)
    ensures Split(s + t, sep) == Glue(Split(s, sep), Split(t, sep))
  {
    if s == "" {
      assert s + t == t;
      assert "" + Split(t, sep)[0] == Split(t, sep)[0];
    } else {
      assert (s + t)[1..] == s[1..] + t;
      SplitAppend(s[1..], t, sep);
      GluePrepend(s[0], Split(s[1..], sep), Split(t, sep));
      GlueFront("", Split(s[1..], sep), Split(t, sep));
    }
  }

  lemma {:induction false} SplitPieces(s: string, sep: char)
    ensures forall k :: 0 <= k < |Split(s, sep)| ==> sep !in Split(s, sep)[k]
  {
    if s != "" {
      SplitPieces(s[1..], sep);
      var rest := Split(s[1..], sep);
      forall k | 0 <= k < |Split(s, sep)|
        ensures sep !in Split(s, sep)[k]
      {
        if s[0] == sep {
          assert k > 0 ==> Split(s, sep)[k] == rest[k - 1];
        } else {
          assert k > 0 ==> Split(s, sep)[k] == rest[k];
        }
      }
    }
  }

  lemma {:induction false} JoinSplit(s: string, sep: char)
    ensures Join(Split(s, sep), sep) == s
  {
    if s != "" {
      JoinSplit(s[1..], sep);
      var rest := Split(s[1..], sep);
      assert s == [s[0]] + s[1..];
      if s[0] != sep && |rest| > 1 {
        assert Prepend(s[0], rest)[1..] == rest[1..];
      }
    }
  }

  lemma {:induction false} SplitOne(s: string, sep: char)
    requires sep !in s
    ensures Split(s, sep) == [s]
  {
    if s != "" {
      SplitOne(s[1..], sep);
      assert s == [s[0]] + s[1..];
    }
  }

  // Cutting what was glued gives the pieces back.
  lemma {:induction false} SplitJoin(pieces: seq<string>, sep: char)
    requires |pieces| >= 1
    requires forall k :: 0 <= k < |pieces| ==> sep !in pieces[k]
    ensures Split(Join(pieces, sep), sep) == pieces
  {
    SplitOne(pieces[0], sep);
    if |pieces| > 1 {
      SplitJoin(pieces[1..], sep);
      var tail := Join(pieces[1..], sep);
      assert Split([sep] + tail, sep) == [""] + Split(tail, sep) by {
        assert ([sep] + tail)[1..] == tail;
      }
      SplitAppend(pieces[0], [sep] + tail, sep);
      assert pieces[0] + [sep] + tail == pieces[0] + ([sep] + tail);
      assert pieces[0] + "" == pieces[0];
    }
  }

  lemma PrefixBehind(m: string, x: string, line: string)
    ensures m + x <= m + line <==> x <= line
  {
    if m + x <= m + line {
      assert x == (m + line)[|m|..|m + x|];
    }
    if x <= line {
      assert (m + line)[..|m + x|] == m + line[..|x|];
    }
  }

  predicate At(s: string, i: int, pat: string)
  {
    0 <= i && i + |pat| <= |s| && forall k :: 0 <= k < |pat| ==> s[i + k] == pat[k]
  }

  lemma AtPrefix(u: string, x: string, k: int, pat: string)
    requires k + |pat| <= |u|
    ensures At(u + x, k, pat) <==> At(u, k, pat)
  {
    assert forall i :: 0 <= i < |u| ==> (u + x)[i] == u[i];
  }

  lemma AtShift(u: string, x: string, k: nat, pat: string)
    ensures At(u + x, |u| + k, pat) <==> At(x, k, pat)
  {
    assert forall j :: 0 <= j < |x| ==> (u + x)[|u| + j] == x[j];
    if At(u + x, |u| + k, pat) {
      assert forall i :: 0 <= i < |pat| ==> (u + x)[|u| + (k + i)] == pat[i];
    }
  }

  // The least occurrence of `pat` at `from` or later, or -1.
  function Find(s: string, pat: string, from: nat): (r: int)
    requires from <= |s|
    ensures r == -1 || (from <= r && At(s, r, pat))
    ensures forall k :: from <= k && (r == -1 || k < r) ==> !At(s, k, pat)
    decreases |s| - from
  {
    if At(s, from, pat) then from
    else if from == |s| then -1
    else Find(s, pat, from + 1)
  }

  // What follows `pat` at the front of s.
  function Expect(s: string, pat: string): Option<string>
  {
    if pat <= s then Some(s[|pat|..]) else None
  }

  lemma ExpectConcat(pat: string, rest: string)
    ensures Expect(pat + rest, pat) == Some(rest)
  {
  }
}
