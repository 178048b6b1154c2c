/** Which lines of a memory file prescribe something, tracked with one integer. */
module MemorySections {
  import opened Counting
  import opened Text

  // What the patterns say of a line: a code fence, the level of a heading (0 for none), the entry
  // word in the heading's title, and the entry word anywhere in the line.
  datatype Patterns = Patterns(fence: string -> bool, level: string -> nat,
                               title: string -> bool, mention: string -> bool)

  // Whether line k lies inside an open fence.
  predicate Fenced(p: Patterns, lines: seq<string>, k: nat)
    requires k <= |lines|
  {
    if k == 0 then false else Fenced(p, lines, k - 1) != p.fence(lines[k - 1])
  }

  /** Between fences is what has an odd number of fence lines before it. */
  lemma {:induction false} FencedIsOdd(p: Patterns, lines: seq<string>, k: nat)
    requires k <= |lines|
    ensures Fenced(p, lines, k) <==> CountIf(p.fence, lines[..k]) % 2 == 1
  {
    if k > 0 {
      FencedIsOdd(p, lines, k - 1);
      assert lines[..k][..k - 1] == lines[..k - 1] && lines[..k][k - 1] == lines[k - 1];
    }
  }

  predicate Heading(p: Patterns, lines: seq<string>, k: nat)
  {
    k < |lines| && !p.fence(lines[k]) && !Fenced(p, lines, k) && p.level(lines[k]) > 0
  }

  // A heading that names an entry point, and no heading of its level or above up to line k.
  predicate OpenEntry(p: Patterns, lines: seq<string>, j: nat, k: nat)
  {
    && j <= k < |lines| && Heading(p, lines, j) && p.title(lines[j])
    && forall i {:trigger Heading(p, lines, i)} :: j < i <= k && Heading(p, lines, i) ==>
         p.level(lines[i]) > p.level(lines[j])
  }

  predicate Prescriptive(p: Patterns, index: bool, lines: seq<string>, k: nat)
    requires k < |lines|
  {
    || index
    || p.mention(lines[k])
    || exists j {:trigger OpenEntry(p, lines, j, k)} :: 0 <= j <= k && OpenEntry(p, lines, j, k)
  }

  // The integer: the level of an open entry, and of no open entry more than that.
  ghost predicate Tracks(p: Patterns, lines: seq<string>, k: nat, entry: Option<nat>)
  {
    match entry
    case None => forall j: nat :: !OpenEntry(p, lines, j, k)
    case Some(l) =>
      && (exists j: nat :: OpenEntry(p, lines, j, k) && p.level(lines[j]) == l)
      && (forall j: nat :: OpenEntry(p, lines, j, k) ==> p.level(lines[j]) >= l)
  }

  // One heading, read by the code.
  function Next(entry: Option<nat>, level: nat, title: bool): Option<nat>
  {
    var kept := if entry.Some? && level <= entry.value then None else entry;
    if kept.None? && title then Some(level) else kept
  }

  // The entries open after line k: those open before it that its heading does not close, and itself.
  lemma OpenStep(p: Patterns, lines: seq<string>, j: nat, k: nat)
    requires 0 < k < |lines|
    ensures OpenEntry(p, lines, j, k) <==>
      || (j == k && Heading(p, lines, k) && p.title(lines[k]))
      || (OpenEntry(p, lines, j, k - 1) && (Heading(p, lines, k) ==> p.level(lines[k]) > p.level(lines[j])))
  {
    if OpenEntry(p, lines, j, k) && j < k {
      assert forall i {:trigger Heading(p, lines, i)} :: j < i <= k - 1 && Heading(p, lines, i) ==>
        p.level(lines[i]) > p.level(lines[j]);
    }
  }

  lemma TracksFirst(p: Patterns, lines: seq<string>)
    requires |lines| > 0
    ensures Tracks(p, lines, 0, if Heading(p, lines, 0) then Next(None, p.level(lines[0]), p.title(lines[0])) else None)
  {
    if Heading(p, lines, 0) && p.title(lines[0]) {
      assert OpenEntry(p, lines, 0, 0);
    }
  }

  lemma TracksPlain(p: Patterns, lines: seq<string>, k: nat, entry: Option<nat>)
    requires 0 < k < |lines| && Tracks(p, lines, k - 1, entry) && !Heading(p, lines, k)
    ensures Tracks(p, lines, k, entry)
  {
    forall j: nat
      ensures OpenEntry(p, lines, j, k) <==> OpenEntry(p, lines, j, k - 1)
    {
      OpenStep(p, lines, j, k);
    }
    if entry.Some? {
      var j: nat :| OpenEntry(p, lines, j, k - 1) && p.level(lines[j]) == entry.value;
      assert OpenEntry(p, lines, j, k);
    }
  }

  lemma TracksHeading(p: Patterns, lines: seq<string>, k: nat, entry: Option<nat>)
    requires 0 < k < |lines| && Tracks(p, lines, k - 1, entry) && Heading(p, lines, k)
    ensures Tracks(p, lines, k, Next(entry, p.level(lines[k]), p.title(lines[k])))
  {
    var l := p.level(lines[k]);
    forall j: nat
      ensures OpenEntry(p, lines, j, k) <==>
        (j == k && p.title(lines[k])) || (OpenEntry(p, lines, j, k - 1) && l > p.level(lines[j]))
    {
      OpenStep(p, lines, j, k);
    }
    if entry.Some? && l > entry.value {
      var j: nat :| OpenEntry(p, lines, j, k - 1) && p.level(lines[j]) == entry.value;
      assert OpenEntry(p, lines, j, k);
    } else if p.title(lines[k]) {
      assert OpenEntry(p, lines, k, k);
    }
  }

  /** The single level agrees with the outline on every line. */
  method LinesWithSurface(p: Patterns, index: bool, lines: seq<string>) returns (surface: seq<bool>)
    ensures |surface| == |lines|
    ensures forall k :: 0 <= k < |lines| ==> (surface[k] <==> Prescriptive(p, index, lines, k))
  {
    surface := [];
    var entry: Option<nat>, fenced := None, false;
    for n := 0 to |lines|
      invariant |surface| == n && fenced == Fenced(p, lines, n)
      invariant if n == 0 then entry.None? else Tracks(p, lines, n - 1, entry)
      invariant forall k :: 0 <= k < n ==> (surface[k] <==> Prescriptive(p, index, lines, k))
    {
      ghost var before := entry;
      var line := lines[n];
      if p.fence(line) {
        fenced := !fenced;
      } else if !fenced && p.level(line) > 0 {
        var level := p.level(line);
        if entry.Some? && level <= entry.value {
          entry := None;
        }
        if entry.None? && p.title(line) {
          entry := Some(level);
        }
      }
      Tracked(p, lines, n, before, entry);
      TracksSays(p, lines, n, entry);
      var prescriptive := index || entry.Some? || p.mention(line);
      surface := surface + [prescriptive];
    }
  }

  lemma Tracked(p: Patterns, lines: seq<string>, n: nat, before: Option<nat>, entry: Option<nat>)
    requires n < |lines| && if n == 0 then before.None? else Tracks(p, lines, n - 1, before)
    requires entry == if Heading(p, lines, n) then Next(before, p.level(lines[n]), p.title(lines[n])) else before
    ensures Tracks(p, lines, n, entry)
  {
    if n == 0 {
      TracksFirst(p, lines);
    } else if Heading(p, lines, n) {
      TracksHeading(p, lines, n, before);
    } else {
      TracksPlain(p, lines, n, before);
    }
  }

  lemma TracksSays(p: Patterns, lines: seq<string>, k: nat, entry: Option<nat>)
    requires Tracks(p, lines, k, entry)
    ensures entry.Some? <==> exists j {:trigger OpenEntry(p, lines, j, k)} :: 0 <= j <= k && OpenEntry(p, lines, j, k)
  {
  }
}
