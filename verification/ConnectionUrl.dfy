/** How the database URL is normalised: the scheme names its driver and a Supabase host gets SSL. */
module ConnectionUrl {
  import opened Text

  // ----- a URL cut at its first '#' and, before that, at its first '?' -----

  datatype Url = Url(head: string, query: Option<string>, frag: Option<string>)

  // Where c first occurs; the length if it does not.
  function Index(s: string, c: char): (r: nat)
    ensures r <= |s| && (r < |s| ==> s[r] == c)
    ensures forall i :: 0 <= i < r ==> s[i] != c
  {
    if s == "" || s[0] == c then 0 else Index(s[1..], c) + 1
  }

  lemma IndexIs(a: string, c: char, rest: string)
    requires c !in a && (rest == "" || rest[0] == c)
    ensures Index(a + rest, c) == |a|
  {
    assert forall i :: 0 <= i < |a| ==> (a + rest)[i] == a[i];
    assert rest != "" ==> (a + rest)[|a|] == c;
  }

  function After(s: string, c: char): Option<string>
  {
    var k := Index(s, c);
    if k < |s| then Some(s[k + 1..]) else None
  }

  function Before(s: string, c: char): string { s[..Index(s, c)] }

  function Parse(v: string): Url
  {
    var body := Before(v, '#');
    Url(Before(body, '?'), After(body, '?'), After(v, '#'))
  }

  predicate Proper(u: Url)
  {
    '#' !in u.head && '?' !in u.head && (u.query.Some? ==> '#' !in u.query.value)
  }

  function Tail(c: char, o: Option<string>): string
  {
    if o.Some? then [c] + o.value else ""
  }

  function Show(u: Url): string
  {
    u.head + Tail('?', u.query) + Tail('#', u.frag)
  }

  lemma CutGlue(s: string, c: char)
    ensures Before(s, c) + Tail(c, After(s, c)) == s && c !in Before(s, c)
  {
  }

  lemma GlueCut(a: string, c: char, o: Option<string>)
    requires c !in a
    ensures Before(a + Tail(c, o), c) == a && After(a + Tail(c, o), c) == o
  {
    IndexIs(a, c, Tail(c, o));
    assert (a + Tail(c, o))[..|a|] == a;
    assert o.Some? ==> (a + Tail(c, o))[|a| + 1..] == o.value;
  }

  lemma ShowParse(v: string)
    ensures Show(Parse(v)) == v && Proper(Parse(v))
  {
    CutGlue(v, '#');
    CutGlue(Before(v, '#'), '?');
  }

  lemma ParseShow(u: Url)
    requires Proper(u)
    ensures Parse(Show(u)) == u
  {
    var body := u.head + Tail('?', u.query);
    assert '#' !in body;
    GlueCut(body, '#', u.frag);
    GlueCut(u.head, '?', u.query);
  }

  // ----- query tokens -----

  // Which keys mean sslmode, which network locations are Supabase hosts, and what is asked of those.
  datatype Policy = Policy(key: string -> bool, supabase: string -> bool, setting: string)

  function Tokens(u: Url): seq<string>
  {
    Split(if u.query.Some? then u.query.value else "", '&')
  }

  function Value(token: string): string
  {
    var r := After(token, '=');
    if r.Some? then r.value else ""
  }

  // An sslmode token without a value counts as absent.
  predicate Blank(t: Policy, token: string) { t.key(Before(token, '=')) && Value(token) == "" }

  predicate Names(t: Policy, token: string) { t.key(Before(token, '=')) && Value(token) != "" }

  function Kept(t: Policy, tokens: seq<string>): seq<string>
  {
    if tokens == [] then []
    else (if Blank(t, tokens[0]) then [] else [tokens[0]]) + Kept(t, tokens[1..])
  }

  function Drop(t: Policy, u: Url): Url
  {
    var kept := Kept(t, Tokens(u));
    if |kept| == |Tokens(u)| then u
    else u.(query := if Join(kept, '&') == "" then None else Some(Join(kept, '&')))
  }

  // A query that ends where the next token begins.
  function Open(u: Url): string
  {
    if u.query.None? || u.query.value == "" then "" else u.query.value + "&"
  }

  function Mark(u: Url): string
  {
    if u.query.None? then "?" else if u.query.value == "" then "" else "&"
  }

  // The appended setting goes to the very end, behind a fragment too.
  function Append(t: Policy, u: Url): Url
  {
    if u.frag.Some? then u.(frag := Some(u.frag.value + Mark(u) + t.setting))
    else u.(query := Some(Open(u) + t.setting))
  }

  // ----- what the URL parser sees -----

  // Tab, line feed and carriage return are removed, leading controls and blanks stripped.
  predicate Removed(c: char) { c == '\t' || c == '\n' || c == '\r' }

  function Remove(s: string): string
  {
    if s == "" then "" else (if Removed(s[0]) then "" else [s[0]]) + Remove(s[1..])
  }

  function LeftStrip(s: string): string
  {
    if s != "" && s[0] <= ' ' then LeftStrip(s[1..]) else s
  }

  function Clean(v: string): string { Remove(LeftStrip(v)) }

  predicate SchemeChar(c: char)
  {
    'a' <= c <= 'z' || 'A' <= c <= 'Z' || '0' <= c <= '9' || c == '+' || c == '-' || c == '.'
  }

  predicate Letter(c: char) { 'a' <= c <= 'z' || 'A' <= c <= 'Z' }

  // A scheme of k characters, ended by a colon.
  predicate SchemeUpTo(s: string, k: nat)
  {
    0 < k < |s| && Letter(s[0]) && forall i :: 0 <= i < k ==> SchemeChar(s[i])
  }

  function AfterScheme(s: string): string
  {
    var k := Index(s, ':');
    if SchemeUpTo(s, k) then s[k + 1..] else s
  }

  // Up to the first slash, question mark or hash.
  function Host(y: string): string { Before(Before(Before(y, '/'), '?'), '#') }

  // User information, host and port, of a cleaned URL.
  function Location(s: string): string
  {
    var r := AfterScheme(s);
    if |r| >= 2 && r[..2] == "//" then Host(r[2..]) else ""
  }

  predicate HasSsl(t: Policy, v: string)
  {
    exists i :: 0 <= i < |Tokens(Parse(Clean(v)))| && Names(t, Tokens(Parse(Clean(v)))[i])
  }

  predicate IsSupabase(t: Policy, v: string) { t.supabase(Location(Clean(v))) }

  // ----- normalisation -----

  const DRIVER := "postgresql+psycopg2://"
  const BARE := ["postgres://", "postgresql://"]

  function PinDriver(v: string): string
  {
    if BARE[0] <= v then DRIVER + v[|BARE[0]|..]
    else if BARE[1] <= v then DRIVER + v[|BARE[1]|..]
    else v
  }

  // SSL is still to be asked for.
  predicate NeedsSsl(t: Policy, v: string) { IsSupabase(t, v) && !HasSsl(t, v) }

  function Normalized(t: Policy, v: string): string
  {
    var w := PinDriver(v);
    if NeedsSsl(t, w) then Show(Append(t, Drop(t, Parse(w)))) else w
  }

  // ----- the code -----

  /** Cut the blank sslmode tokens, touching nothing else. */
  method DropBlankSslmode(t: Policy, url: string) returns (r: string)
    ensures r == Show(Drop(t, Parse(url)))
  {
    var u := Parse(url);
    ShowParse(url);
    var kept := KeepTokens(t, Tokens(u));
    if |kept| == |Tokens(u)| {
      return url;
    }
    var rest := Join(kept, '&');
    r := u.head + Tail('?', if rest != "" then Some(rest) else None) + Tail('#', u.frag);
  }

  lemma {:induction false} KeptSnoc(t: Policy, xs: seq<string>, x: string)
    ensures Kept(t, xs + [x]) == Kept(t, xs) + (if Blank(t, x) then [] else [x])
  {
    if xs == [] {
      assert [] + [x] == [x];
    } else {
      assert (xs + [x])[1..] == xs[1..] + [x];
      KeptSnoc(t, xs[1..], x);
    }
  }

  method KeepTokens(t: Policy, tokens: seq<string>) returns (kept: seq<string>)
    ensures kept == Kept(t, tokens)
  {
    kept := [];
    for i := 0 to |tokens|
      invariant kept == Kept(t, tokens[..i])
    {
      KeptSnoc(t, tokens[..i], tokens[i]);
      assert tokens[..i] + [tokens[i]] == tokens[..i + 1];
      if Blank(t, tokens[i]) {
        continue;
      }
      kept := kept + [tokens[i]];
    }
    assert tokens[..|tokens|] == tokens;
  }

  function QuerySeparator(url: string): string { Mark(Parse(url)) }

  lemma AppendShown(t: Policy, u: Url)
    requires Proper(u)
    ensures Show(Append(t, u)) == Show(u) + QuerySeparator(Show(u)) + t.setting
  {
    ParseShow(u);
    if u.frag.Some? {
      Reassociate(u.head + Tail('?', u.query), "#", u.frag.value, Mark(u), t.setting);
    } else {
      AppendQuery(t, u);
    }
  }

  lemma AppendQuery(t: Policy, u: Url)
    requires u.frag.None?
    ensures Show(Append(t, u)) == Show(u) + Mark(u) + t.setting
  {
    if u.query.Some? {
      assert Open(u) == u.query.value + Mark(u);
      Reassociate(u.head, "?", u.query.value, Mark(u), t.setting);
    }
  }

  lemma Reassociate(a: string, b: string, c: string, d: string, e: string)
    ensures a + (b + (c + d + e)) == a + (b + c) + d + e
  {
  }

  method PinScheme(url: string) returns (v: string)
    ensures v == PinDriver(url)
  {
    v := url;
    for i := 0 to |BARE|
      invariant v == url && forall j :: 0 <= j < i ==> !(BARE[j] <= url)
    {
      if BARE[i] <= v {
        v := DRIVER + v[|BARE[i]|..];
        break;
      }
    }
  }

  // The network location is one the URL parser accepts; it raises an error otherwise.
  predicate Readable(valid: string -> bool, v: string) { valid(Location(Clean(v))) }

  /** Nothing if the URL cannot be read. */
  method NormalizePgUrl(t: Policy, valid: string -> bool, url: string) returns (v: Option<string>)
    ensures v == if Readable(valid, PinDriver(url)) then Some(Normalized(t, url)) else None
  {
    var w := PinScheme(url);
    if !valid(Location(Clean(w))) {
      return None;
    }
    if t.supabase(Location(Clean(w))) && !HasSsl(t, w) {
      ghost var u := Parse(w);
      ShowParse(w);
      DropProper(t, u);
      w := DropBlankSslmode(t, w);
      AppendShown(t, Drop(t, u));
      w := w + QuerySeparator(w) + t.setting;
    }
    v := Some(w);
  }

  lemma DropProper(t: Policy, u: Url)
    requires Proper(u)
    ensures Proper(Drop(t, u))
  {
    KeptChars(t, Tokens(u), '#');
    SplitChars(if u.query.Some? then u.query.value else "", '&', '#');
    JoinChars(Kept(t, Tokens(u)), '&', '#');
  }

  lemma {:induction false} SplitChars(s: string, sep: char, c: char)
    requires c !in s
    ensures forall k :: 0 <= k < |Split(s, sep)| ==> c !in Split(s, sep)[k]
  {
    if s != "" { SplitChars(s[1..], sep, c); }
  }

  lemma {:induction false} KeptChars(t: Policy, tokens: seq<string>, c: char)
    ensures (forall k :: 0 <= k < |tokens| ==> c !in tokens[k]) ==>
      forall k :: 0 <= k < |Kept(t, tokens)| ==> c !in Kept(t, tokens)[k]
  {
    if tokens != [] { KeptChars(t, tokens[1..], c); }
  }

  lemma {:induction false} JoinChars(pieces: seq<string>, sep: char, c: char)
    requires c != sep
    ensures (forall k :: 0 <= k < |pieces| ==> c !in pieces[k]) ==> c !in Join(pieces, sep)
  {
    if |pieces| > 1 { JoinChars(pieces[1..], sep, c); }
  }

  // ----- cleaning works piece by piece -----

  lemma {:induction false} RemoveConcat(a: string, b: string)
    ensures Remove(a + b) == Remove(a) + Remove(b)
  {
    if a == "" {
      assert a + b == b;
    } else {
      assert (a + b)[1..] == a[1..] + b;
      RemoveConcat(a[1..], b);
    }
  }

  lemma {:induction false} RemoveKeeps(s: string, c: char)
    requires !Removed(c)
    ensures c in Remove(s) <==> c in s
  {
    if s != "" {
      RemoveKeeps(s[1..], c);
      assert s == [s[0]] + s[1..];
    }
  }

  function Map(o: Option<string>): Option<string>
  {
    if o.Some? then Some(Remove(o.value)) else None
  }

  lemma RemoveTail(c: char, o: Option<string>)
    requires !Removed(c)
    ensures Remove(Tail(c, o)) == Tail(c, Map(o))
  {
    if o.Some? {
      assert ([c] + o.value)[1..] == o.value;
    }
  }

  lemma RemoveCut(s: string, c: char)
    requires !Removed(c)
    ensures Before(Remove(s), c) == Remove(Before(s, c)) && After(Remove(s), c) == Map(After(s, c))
  {
    CutGlue(s, c);
    RemoveConcat(Before(s, c), Tail(c, After(s, c)));
    RemoveTail(c, After(s, c));
    RemoveKeeps(Before(s, c), c);
    GlueCut(Remove(Before(s, c)), c, Map(After(s, c)));
  }

  function CleanUrl(u: Url): Url
  {
    Url(Remove(LeftStrip(u.head)), Map(u.query), Map(u.frag))
  }

  lemma RemoveParse(v: string)
    ensures Parse(Remove(v)) == Url(Remove(Parse(v).head), Map(Parse(v).query), Map(Parse(v).frag))
  {
    RemoveCut(v, '#');
    RemoveCut(Before(v, '#'), '?');
  }

  lemma ParseFirst(v: string)
    requires v != "" && v[0] <= ' '
    ensures Parse(v).head != "" && Parse(v).head[0] == v[0]
    ensures Parse(v[1..]) == Parse(v).(head := Parse(v).head[1..])
  {
    ShowParse(v);
    ShowFirst(Parse(v));
    ParseShow(Parse(v).(head := Parse(v).head[1..]));
  }

  lemma ShowHead(u: Url)
    requires u.head == "" && Show(u) != ""
    ensures Show(u)[0] == '?' || Show(u)[0] == '#'
  {
  }

  lemma ShowFirst(u: Url)
    requires Proper(u) && Show(u) != "" && Show(u)[0] <= ' '
    ensures u.head != "" && u.head[0] == Show(u)[0]
    ensures Proper(u.(head := u.head[1..])) && Show(u.(head := u.head[1..])) == Show(u)[1..]
  {
    if u.head == "" {
      ShowHead(u);
      assert false;
    }
    assert u.head == [u.head[0]] + u.head[1..];
  }

  lemma {:induction false} StripParse(v: string)
    ensures Parse(LeftStrip(v)) == Parse(v).(head := LeftStrip(Parse(v).head))
  {
    if v != "" && v[0] <= ' ' {
      ParseFirst(v);
      StripParse(v[1..]);
    } else {
      ShowParse(v);
    }
  }

  lemma CleanParse(v: string)
    ensures Parse(Clean(v)) == CleanUrl(Parse(v))
  {
    StripParse(v);
    RemoveParse(LeftStrip(v));
  }

  function RemoveAll(tokens: seq<string>): seq<string>
  {
    if tokens == [] then [] else [Remove(tokens[0])] + RemoveAll(tokens[1..])
  }

  lemma RemoveAllAt(tokens: seq<string>)
    ensures |RemoveAll(tokens)| == |tokens|
    ensures forall i :: 0 <= i < |tokens| ==> RemoveAll(tokens)[i] == Remove(tokens[i])
  {
    if tokens != [] { RemoveAllAt(tokens[1..]); }
  }

  lemma {:induction false} RemoveSplit(s: string, sep: char)
    requires !Removed(sep)
    ensures Split(Remove(s), sep) == RemoveAll(Split(s, sep))
  {
    if s != "" {
      var rest := Split(s[1..], sep);
      RemoveSplit(s[1..], sep);
      RemoveCons(s[0], s[1..]);
      assert s == [s[0]] + s[1..];
      if s[0] == sep {
        SplitCons(sep, Remove(s[1..]), sep);
        RemoveAllCons("", rest);
      } else {
        RemoveFirst(s[0], rest[0], rest[1..]);
        assert rest == [rest[0]] + rest[1..];
        if Removed(s[0]) {
          assert Remove(s) == Remove(s[1..]);
        } else {
          SplitCons(s[0], Remove(s[1..]), sep);
        }
      }
    }
  }

  lemma SplitCons(c: char, s: string, sep: char)
    ensures Split([c] + s, sep) == if c == sep then [""] + Split(s, sep) else Prepend(c, Split(s, sep))
  {
    assert ([c] + s)[1..] == s;
  }

  lemma PrependCons(c: char, x: string, xs: seq<string>)
    ensures Prepend(c, [x] + xs) == [[c] + x] + xs
  {
  }

  lemma RemoveFirst(c: char, x: string, xs: seq<string>)
    ensures RemoveAll(Prepend(c, [x] + xs)) ==
      if Removed(c) then RemoveAll([x] + xs) else Prepend(c, RemoveAll([x] + xs))
  {
    PrependCons(c, x, xs);
    RemoveCons(c, x);
    RemoveAllCons([c] + x, xs);
    RemoveAllCons(x, xs);
    PrependCons(c, Remove(x), RemoveAll(xs));
    assert "" + Remove(x) == Remove(x);
  }

  lemma RemoveCons(c: char, s: string)
    ensures Remove([c] + s) == (if Removed(c) then "" else [c]) + Remove(s)
  {
    assert ([c] + s)[1..] == s;
  }

  lemma RemoveAllCons(x: string, xs: seq<string>)
    ensures RemoveAll([x] + xs) == [Remove(x)] + RemoveAll(xs)
  {
    assert ([x] + xs)[1..] == xs;
  }

  // Some token names a mode once it is cleaned.
  predicate Ssl(t: Policy, u: Url)
  {
    exists i :: 0 <= i < |Tokens(u)| && Names(t, Remove(Tokens(u)[i]))
  }

  lemma CleanTokens(u: Url)
    ensures Tokens(CleanUrl(u)) == RemoveAll(Tokens(u))
  {
    RemoveSplit(if u.query.Some? then u.query.value else "", '&');
  }

  lemma SslByTokens(t: Policy, v: string)
    ensures HasSsl(t, v) <==> Ssl(t, Parse(v))
  {
    CleanParse(v);
    CleanTokens(Parse(v));
    RemoveAllAt(Tokens(Parse(v)));
  }

  // ----- the location depends on the head alone -----

  // A query or a fragment follows, or nothing.
  predicate Stops(x: string) { x == "" || x[0] == '?' || x[0] == '#' }

  lemma BeforeFound(y: string, x: string, c: char)
    requires c in y
    ensures Before(y + x, c) == Before(y, c)
  {
    var k := Index(y, c);
    assert k < |y|;
    assert y + x == y[..k] + (y[k..] + x);
    IndexIs(y[..k], c, y[k..] + x);
    assert (y + x)[..k] == y[..k];
  }

  lemma BeforeLater(y: string, x: string, c: char)
    requires c !in y
    ensures Before(y + x, c) == y + Before(x, c)
  {
    var k := Index(x, c);
    assert y + x == (y + x[..k]) + x[k..];
    IndexIs(y + x[..k], c, x[k..]);
    assert (y + x)[..|y| + k] == y + x[..k];
  }

  lemma HostStops(y: string, x: string)
    requires '?' !in y && '#' !in y && Stops(x)
    ensures Host(y + x) == Host(y)
  {
    if '/' in y {
      BeforeFound(y, x, '/');
    } else {
      var z := Before(x, '/');
      BeforeLater(y, x, '/');
      BeforeLater(y, z, '?');
      BeforeLater(y, Before(z, '?'), '#');
      assert Before(y, '/') == y && Before(y, '?') == y && Before(y, '#') == y;
      assert Stops(z) && Before(Before(z, '?'), '#') == "";
    }
  }

  lemma IndexConcat(h: string, x: string, c: char)
    ensures Index(h + x, c) == if c in h then Index(h, c) else |h| + Index(x, c)
  {
    if c in h {
      var k := Index(h, c);
      assert k < |h| && h + x == h[..k] + (h[k..] + x);
      IndexIs(h[..k], c, h[k..] + x);
    } else {
      var k := Index(x, c);
      assert h + x == (h + x[..k]) + x[k..];
      IndexIs(h + x[..k], c, x[k..]);
    }
  }

  lemma SchemeUpToConcat(h: string, x: string, k: nat)
    requires Stops(x) && k != |h|
    ensures SchemeUpTo(h + x, k) <==> SchemeUpTo(h, k)
  {
    assert forall i :: 0 <= i < |h| ==> (h + x)[i] == h[i];
    if x != "" {
      assert (h + x)[|h|] == x[0] && !SchemeChar(x[0]);
    }
  }

  lemma SchemeStops(h: string, x: string)
    requires '?' !in h && '#' !in h && Stops(x)
    ensures AfterScheme(h + x) == AfterScheme(h) + x
  {
    IndexConcat(h, x, ':');
    if ':' in h {
      var k := Index(h, ':');
      SchemeUpToConcat(h, x, k);
      assert (h + x)[k + 1..] == h[k + 1..] + x;
    } else if x != "" {
      assert Index(x, ':') > 0;
      SchemeUpToConcat(h, x, |h| + Index(x, ':'));
    }
  }

  lemma LocationStops(h: string, x: string)
    requires '?' !in h && '#' !in h && Stops(x)
    ensures Location(h + x) == Location(h)
  {
    SchemeStops(h, x);
    var r := AfterScheme(h);
    assert '?' !in r && '#' !in r;
    if |r| >= 2 {
      assert (r + x)[..2] == r[..2] && (r + x)[2..] == r[2..] + x;
      HostStops(r[2..], x);
    } else if |r + x| >= 2 {
      assert (r + x)[|r|] == x[0];
      assert (r + x)[..2][|r|] != '/';
    }
  }

  lemma LocationOfUrl(u: Url)
    requires Proper(u)
    ensures Location(Show(u)) == Location(u.head)
  {
    var rest := Tail('?', u.query) + Tail('#', u.frag);
    assert u.head + rest == u.head + Tail('?', u.query) + Tail('#', u.frag);
    LocationStops(u.head, rest);
  }

  lemma LocationOfHead(v: string)
    ensures Location(Clean(v)) == Location(CleanUrl(Parse(v)).head)
  {
    CleanParse(v);
    ShowParse(Clean(v));
    LocationOfUrl(Parse(Clean(v)));
  }

  // ----- the tokens of the result -----

  function Filled(tokens: seq<string>): seq<string>
  {
    if tokens == [] then [] else (if tokens[0] == "" then [] else [tokens[0]]) + Filled(tokens[1..])
  }

  lemma {:induction false} FilledConcat(a: seq<string>, b: seq<string>)
    ensures Filled(a + b) == Filled(a) + Filled(b)
  {
    if a == [] {
      assert a + b == b;
    } else {
      assert (a + b)[1..] == a[1..] + b;
      FilledConcat(a[1..], b);
    }
  }

  lemma {:induction false} KeptAll(t: Policy, tokens: seq<string>)
    ensures |Kept(t, tokens)| <= |tokens|
    ensures |Kept(t, tokens)| == |tokens| ==> Kept(t, tokens) == tokens
    ensures forall k :: 0 <= k < |Kept(t, tokens)| ==> Kept(t, tokens)[k] in tokens && !Blank(t, Kept(t, tokens)[k])
  {
    if tokens != [] {
      KeptAll(t, tokens[1..]);
      assert tokens == [tokens[0]] + tokens[1..];
    }
  }

  lemma JoinEmpty(pieces: seq<string>, sep: char)
    ensures Join(pieces, sep) == "" ==> Filled(pieces) == [] && forall k :: 0 <= k < |pieces| ==> pieces[k] == ""
  {
    if |pieces| == 1 {
      assert pieces[1..] == [];
    }
  }

  lemma KeptSplit(t: Policy, s: string)
    requires Join(Kept(t, Split(s, '&')), '&') != ""
    ensures Split(Join(Kept(t, Split(s, '&')), '&'), '&') == Kept(t, Split(s, '&'))
  {
    SplitPieces(s, '&');
    KeptAll(t, Split(s, '&'));
    SplitJoin(Kept(t, Split(s, '&')), '&');
  }

  /** Dropping leaves the other tokens in order; at most empty ones go with it. */
  lemma {:induction false} DropTokens(t: Policy, u: Url)
    ensures Filled(Tokens(Drop(t, u))) == Filled(Kept(t, Tokens(u)))
    ensures forall x :: x in Tokens(Drop(t, u)) ==> x == "" || x in Kept(t, Tokens(u))
  {
    var tokens := Tokens(u);
    KeptAll(t, tokens);
    if |Kept(t, tokens)| != |tokens| {
      JoinEmpty(Kept(t, tokens), '&');
      if Join(Kept(t, tokens), '&') != "" {
        KeptSplit(t, if u.query.Some? then u.query.value else "");
      } else {
        assert Tokens(Drop(t, u)) == [""];
        assert [""][1..] == [];
      }
    }
  }

  lemma SplitEnd(q: string, last: string)
    requires '&' !in last
    ensures Split(q + ("&" + last), '&') == Split(q, '&') + [last]
  {
    SplitOne(last, '&');
    SplitCons('&', last, '&');
    SplitAppend(q, "&" + last, '&');
    var y := Split(q, '&');
    assert y[|y| - 1] + "" == y[|y| - 1];
    assert y == y[..|y| - 1] + [y[|y| - 1]];
  }

  // The tokens before the one that is appended to the query.
  function Earlier(u: Url): (r: seq<string>)
    ensures Filled(r) == Filled(Tokens(u))
  {
    if u.query.None? || u.query.value == "" then
      assert Tokens(u) == [""] && [""][1..] == [];
      []
    else Tokens(u)
  }

  /** Without a fragment the setting becomes the last token. */
  lemma AppendTokens(t: Policy, u: Url)
    requires u.frag.None? && '&' !in t.setting
    ensures Tokens(Append(t, u)) == Earlier(u) + [t.setting]
  {
    if u.query.None? || u.query.value == "" {
      assert "" + t.setting == t.setting;
      SplitOne(t.setting, '&');
    } else {
      SplitEnd(u.query.value, t.setting);
      assert u.query.value + "&" + t.setting == u.query.value + ("&" + t.setting);
    }
  }

  lemma {:induction false} RemoveNothing(s: string)
    requires forall i :: 0 <= i < |s| ==> !Removed(s[i])
    ensures Remove(s) == s
  {
    if s != "" {
      RemoveNothing(s[1..]);
      assert s == [s[0]] + s[1..];
    }
  }

  // The setting is one query token that names the mode.
  predicate Sound(t: Policy)
  {
    && '&' !in t.setting && t.setting != "" && Names(t, t.setting)
    && forall i :: 0 <= i < |t.setting| ==> !Removed(t.setting[i])
  }

  // ----- what normalising keeps -----

  // The URL after SSL was asked for.
  function Secured(t: Policy, u: Url): Url { Append(t, Drop(t, u)) }

  lemma SecuredParts(t: Policy, u: Url)
    requires Proper(u) && '#' !in t.setting
    ensures Proper(Secured(t, u)) && Secured(t, u).head == u.head
    ensures Secured(t, u).frag.Some? <==> u.frag.Some?
    ensures u.frag.Some? ==> |Secured(t, u).frag.value| > |u.frag.value| || t.setting == ""
  {
    DropProper(t, u);
  }

  // Prefixes without '?' and '#' lie in the head.
  lemma PrefixInHead(bare: string, h: string, x: string)
    requires '?' !in bare && '#' !in bare && Stops(x)
    ensures bare <= h + x <==> bare <= h
  {
    if |bare| > |h| {
      if x != "" { assert (h + x)[|h|] == x[0] != bare[|h|]; }
    } else {
      assert (h + x)[..|bare|] == h[..|bare|];
    }
  }

  lemma ShowPrefix(bare: string, u: Url)
    requires '?' !in bare && '#' !in bare
    ensures bare <= Show(u) <==> bare <= u.head
  {
    var rest := Tail('?', u.query) + Tail('#', u.frag);
    assert u.head + rest == Show(u);
    PrefixInHead(bare, u.head, rest);
  }

  predicate Pinned(v: string)
  {
    !(BARE[0] <= v) && !(BARE[1] <= v)
  }

  lemma PinDriverPins(v: string)
    ensures Pinned(PinDriver(v))
  {
    assert BARE[0][8] == ':' && BARE[1][10] == ':' && DRIVER[8] == 'q' && DRIVER[10] == '+';
  }

  lemma BareParts()
    ensures '?' !in BARE[0] && '#' !in BARE[0] && '?' !in BARE[1] && '#' !in BARE[1]
  {
  }

  lemma PinnedByHead(u: Url, u2: Url)
    requires u.head == u2.head
    ensures Pinned(Show(u)) <==> Pinned(Show(u2))
  {
    BareParts();
    ShowPrefix(BARE[0], u);
    ShowPrefix(BARE[1], u);
    ShowPrefix(BARE[0], u2);
    ShowPrefix(BARE[1], u2);
  }

  lemma SameHost(t: Policy, v: string, w: string)
    requires Parse(v).head == Parse(w).head
    ensures IsSupabase(t, v) <==> IsSupabase(t, w)
  {
    LocationOfHead(v);
    LocationOfHead(w);
  }

  /** Without a fragment the mode is named afterwards; behind a fragment it is not. */
  lemma SecuredSsl(t: Policy, u: Url)
    requires Sound(t) && !Ssl(t, u)
    ensures Ssl(t, Secured(t, u)) <==> u.frag.None?
  {
    var d := Drop(t, u);
    if u.frag.None? {
      AppendTokens(t, d);
      RemoveNothing(t.setting);
      var tokens := Tokens(Secured(t, u));
      assert tokens[|tokens| - 1] == t.setting;
    } else {
      DropTokens(t, u);
      KeptAll(t, Tokens(u));
      forall i | 0 <= i < |Tokens(d)|
        ensures !Names(t, Remove(Tokens(d)[i]))
      {
        EmptyNames(t);
        assert Tokens(d)[i] in Tokens(d);
      }
    }
  }

  lemma EmptyNames(t: Policy)
    ensures !Names(t, Remove(""))
  {
  }

  // The step that asks for SSL, seen from the outside.
  lemma SecuredOutside(t: Policy, w: string)
    requires Sound(t) && '#' !in t.setting && NeedsSsl(t, w) && Pinned(w)
    ensures var r := Show(Secured(t, Parse(w)));
      && Pinned(r) && IsSupabase(t, r) && Parse(r) == Secured(t, Parse(w))
      && (HasSsl(t, r) <==> Parse(w).frag.None?)
  {
    var u := Parse(w);
    var r := Show(Secured(t, u));
    ShowParse(w);
    SecuredParts(t, u);
    ParseShow(Secured(t, u));
    PinnedByHead(u, Secured(t, u));
    SameHost(t, w, r);
    SslByTokens(t, w);
    SslByTokens(t, r);
    SecuredSsl(t, u);
  }

  lemma SecuredLocation(t: Policy, w: string)
    requires '#' !in t.setting
    ensures Location(Clean(Show(Secured(t, Parse(w))))) == Location(Clean(w))
  {
    ShowParse(w);
    SecuredParts(t, Parse(w));
    ParseShow(Secured(t, Parse(w)));
    LocationOfHead(w);
    LocationOfHead(Show(Secured(t, Parse(w))));
  }

  /** The network location stays, so what can be read once can be read again. */
  lemma {:induction false} LocationKept(t: Policy, valid: string -> bool, v: string)
    requires Sound(t) && '#' !in t.setting
    ensures Location(Clean(PinDriver(Normalized(t, v)))) == Location(Clean(PinDriver(v)))
    ensures Readable(valid, PinDriver(Normalized(t, v))) <==> Readable(valid, PinDriver(v))
  {
    var w := PinDriver(v);
    PinDriverPins(v);
    PinnedStays(w);
    if NeedsSsl(t, w) {
      SecuredOutside(t, w);
      PinnedStays(Show(Secured(t, Parse(w))));
      SecuredLocation(t, w);
    }
  }

  /** SSL is certain for a Supabase host, except behind a fragment. */
  lemma {:induction false} SslCertain(t: Policy, v: string)
    requires Sound(t) && '#' !in t.setting && IsSupabase(t, PinDriver(v))
    ensures HasSsl(t, Normalized(t, v)) <==> HasSsl(t, PinDriver(v)) || Parse(PinDriver(v)).frag.None?
  {
    PinDriverPins(v);
    if NeedsSsl(t, PinDriver(v)) { SecuredOutside(t, PinDriver(v)); }
  }

  lemma PinnedStays(v: string)
    requires Pinned(v)
    ensures PinDriver(v) == v
  {
  }

  /** Normalising twice is normalising once, unless SSL had to be asked for behind a fragment. */
  lemma {:induction false} IdempotentIff(t: Policy, v: string)
    requires Sound(t) && '#' !in t.setting
    ensures Normalized(t, Normalized(t, v)) == Normalized(t, v)
      <==> !(NeedsSsl(t, PinDriver(v)) && Parse(PinDriver(v)).frag.Some?)
  {
    var w := PinDriver(v);
    PinDriverPins(v);
    PinnedStays(w);
    if NeedsSsl(t, w) {
      var r := Show(Secured(t, Parse(w)));
      SecuredOutside(t, w);
      PinnedStays(r);
      if Parse(w).frag.Some? { SecuredAgain(t, r); }
    }
  }

  lemma SecuredAgain(t: Policy, r: string)
    requires Sound(t) && '#' !in t.setting && Parse(r).frag.Some?
    ensures Show(Secured(t, Parse(r))) != r
  {
    ShowParse(r);
    SecuredParts(t, Parse(r));
    ParseShow(Secured(t, Parse(r)));
  }

  /** What asking for SSL changes: the filled tokens are the old ones in order, less the blank sslmode
      ones, and the setting comes last; in front of the query nothing changes. */
  lemma {:induction false} SecuredTokens(t: Policy, u: Url)
    requires Sound(t)
    ensures Secured(t, u).head == u.head
    ensures Filled(Tokens(Secured(t, u))) == Filled(Kept(t, Tokens(u))) + (if u.frag.None? then [t.setting] else [])
  {
    DropTokens(t, u);
    if u.frag.None? { AppendFilled(t, Drop(t, u)); }
  }

  lemma AppendFilled(t: Policy, d: Url)
    requires Sound(t) && d.frag.None?
    ensures Filled(Tokens(Append(t, d))) == Filled(Tokens(d)) + [t.setting]
  {
    AppendTokens(t, d);
    FilledConcat(Earlier(d), [t.setting]);
    FilledOne(t.setting);
  }

  // How many tokens have the key.
  function Modes(t: Policy, tokens: seq<string>): nat
  {
    if tokens == [] then 0 else (if t.key(Before(tokens[0], '=')) then 1 else 0) + Modes(t, tokens[1..])
  }

  lemma {:induction false} ModesConcat(t: Policy, a: seq<string>, b: seq<string>)
    ensures Modes(t, a + b) == Modes(t, a) + Modes(t, b)
  {
    if a == [] {
      assert a + b == b;
    } else {
      assert (a + b)[1..] == a[1..] + b;
      ModesConcat(t, a[1..], b);
    }
  }

  lemma {:induction false} NoModes(t: Policy, tokens: seq<string>)
    ensures Modes(t, Filled(Kept(t, tokens))) == 0 <==> forall i :: 0 <= i < |tokens| ==> !Names(t, tokens[i])
  {
    if tokens != [] {
      NoModes(t, tokens[1..]);
      NamesFirst(t, tokens);
      ModesFirst(t, tokens[0], tokens[1..]);
      assert tokens == [tokens[0]] + tokens[1..];
    }
  }

  lemma NamesFirst(t: Policy, tokens: seq<string>)
    requires tokens != []
    ensures (forall i :: 0 <= i < |tokens| ==> !Names(t, tokens[i]))
      <==> !Names(t, tokens[0]) && forall i :: 0 <= i < |tokens[1..]| ==> !Names(t, tokens[1..][i])
  {
    assert forall i :: 0 < i < |tokens| ==> tokens[i] == tokens[1..][i - 1];
  }

  // A token adds to the modes of what is kept exactly if it names one.
  lemma ModesFirst(t: Policy, x: string, rest: seq<string>)
    ensures Modes(t, Filled(Kept(t, [x] + rest))) == (if Names(t, x) then 1 else 0) + Modes(t, Filled(Kept(t, rest)))
  {
    var kept := Kept(t, rest);
    assert ([x] + rest)[1..] == rest;
    if Blank(t, x) {
      assert [] + kept == kept;
    } else {
      FirstModes(t, x, kept);
    }
  }

  lemma FirstModes(t: Policy, x: string, kept: seq<string>)
    ensures Modes(t, Filled([x] + kept)) == (if x != "" && t.key(Before(x, '=')) then 1 else 0) + Modes(t, Filled(kept))
  {
    FilledConcat([x], kept);
    ModesConcat(t, Filled([x]), Filled(kept));
    FilledOne(x);
    assert [x][1..] == [];
  }

  lemma FilledOne(x: string)
    ensures Filled([x]) == if x == "" then [] else [x]
  {
    assert [x][1..] == [];
  }

  /** The setting is the only sslmode token of the result if and only if no token of the original named a
      mode as it stands; without tabs and line breaks that is always so. */
  lemma {:induction false} OnlyMode(t: Policy, u: Url)
    requires Sound(t) && u.frag.None?
    ensures Modes(t, Filled(Tokens(Secured(t, u)))) == 1 <==>
      forall i :: 0 <= i < |Tokens(u)| ==> !Names(t, Tokens(u)[i])
  {
    SecuredTokens(t, u);
    ModesConcat(t, Filled(Kept(t, Tokens(u))), [t.setting]);
    assert [t.setting][1..] == [];
    NoModes(t, Tokens(u));
  }

  /** Where cleaning removes nothing, a mode is named exactly when a token names one. */
  lemma {:induction false} OnlyModePlain(t: Policy, u: Url)
    requires Sound(t) && u.frag.None? && !Ssl(t, u)
    requires u.query.Some? ==> forall i :: 0 <= i < |u.query.value| ==> !Removed(u.query.value[i])
    ensures Modes(t, Filled(Tokens(Secured(t, u)))) == 1
  {
    forall i | 0 <= i < |Tokens(u)|
      ensures !Names(t, Tokens(u)[i])
    {
      var q := if u.query.Some? then u.query.value else "";
      SplitPlain(q, '&');
      RemoveNothing(Tokens(u)[i]);
      assert !Names(t, Remove(Tokens(u)[i]));
    }
    OnlyMode(t, u);
  }

  lemma {:induction false} SplitPlain(s: string, sep: char)
    requires forall i :: 0 <= i < |s| ==> !Removed(s[i])
    ensures forall k, i :: 0 <= k < |Split(s, sep)| && 0 <= i < |Split(s, sep)[k]| ==> !Removed(Split(s, sep)[k][i])
  {
    if s != "" { SplitPlain(s[1..], sep); }
  }

  // ----- a reader to whom '#' is an ordinary character -----

  // The last token behind the first question mark is the setting.
  predicate SeenPlainly(t: Policy, v: string)
  {
    var q := After(v, '?');
    q.Some? && EndsIn(q.value, t.setting)
  }

  predicate EndsIn(q: string, setting: string)
  {
    var tokens := Split(q, '&');
    tokens[|tokens| - 1] == setting
  }

  lemma {:induction false} LastPiece(q: string)
    ensures var y := Split(q, '&'); y[|y| - 1] == "" <==> q == "" || q[|q| - 1] == '&'
  {
    if q != "" {
      LastPiece(q[1..]);
      assert |q| > 1 ==> q[1..][|q| - 2] == q[|q| - 1];
      var rest := Split(q[1..], '&');
      if q[0] != '&' && |rest| == 1 {
        assert Split(q, '&') == [[q[0]] + rest[0]];
        if |q| > 1 && q[|q| - 1] == '&' { LastSeparated(q[1..]); }
      }
    }
  }

  lemma LastSeparated(q: string)
    requires q != "" && q[|q| - 1] == '&'
    ensures |Split(q, '&')| > 1
  {
    var a := q[..|q| - 1];
    assert q == a + "&";
    SplitCons('&', "", '&');
    SplitAppend(a, "&", '&');
  }

  lemma EndsInIff(q: string, setting: string)
    requires '&' !in setting
    ensures EndsIn(q + setting, setting) <==> q == "" || q[|q| - 1] == '&'
  {
    SplitOne(setting, '&');
    SplitAppend(q, setting, '&');
    LastPiece(q);
    var y := Split(q, '&');
    assert y[|y| - 1] + setting == setting <==> y[|y| - 1] == "";
  }

  /** Behind a fragment, such a reader sees the setting as a token of its own exactly in these cases:
      without a query, if the fragment has no question mark; with a query that has no blank sslmode
      token, if it is not empty or the fragment ends in '&'; otherwise if the query has a token that is
      neither blank nor empty on its own, or the fragment has no question mark. */
  lemma {:induction false} PlainView(t: Policy, u: Url)
    requires Sound(t) && Proper(u) && u.frag.Some?
    ensures var kept, f := Kept(t, Tokens(u)), u.frag.value;
      SeenPlainly(t, Show(Secured(t, u))) <==>
        if u.query.None? then '?' !in f
        else if kept == Tokens(u) then u.query.value != "" || (f != "" && f[|f| - 1] == '&')
        else (kept != [] && kept != [""]) || '?' !in f
  {
    var d, f := Drop(t, u), u.frag.value;
    DropProper(t, u);
    DropQuery(t, u);
    if d.query.None? {
      PlainNoQuery(t, d.head, f);
    } else {
      PlainQuery(t, d.head, d.query.value, f);
    }
  }

  // What is left of the query, by the tokens.
  lemma DropQuery(t: Policy, u: Url)
    ensures var kept := Kept(t, Tokens(u));
      && (u.query.None? ==> Drop(t, u).query.None?)
      && (u.query.Some? && kept == Tokens(u) ==> Drop(t, u).query == u.query)
      && (u.query.Some? && kept != Tokens(u) ==>
            if kept == [] || kept == [""] then Drop(t, u).query.None?
            else Drop(t, u).query.Some? && Drop(t, u).query.value != "")
  {
    var kept := Kept(t, Tokens(u));
    KeptAll(t, Tokens(u));
    JoinIsEmpty(kept, '&');
    if u.query.None? { assert |kept| == 0 || kept == Tokens(u) == [""]; }
  }

  lemma JoinIsEmpty(pieces: seq<string>, sep: char)
    ensures Join(pieces, sep) == "" <==> pieces == [] || pieces == [""]
  {
  }

  lemma PlainAfter(a: string, q: string, t: Policy)
    requires Sound(t) && '?' !in a
    ensures SeenPlainly(t, a + ("?" + (q + t.setting))) <==> q == "" || q[|q| - 1] == '&'
  {
    GlueCut(a, '?', Some(q + t.setting));
    EndsInIff(q, t.setting);
  }

  lemma Assoc4(h: string, q: string, x: string, f: string, s: string)
    ensures h + (['?'] + q) + (['#'] + (f + x + s)) == h + ("?" + (q + ("#" + (f + x)) + s))
  {
  }

  lemma PlainQuery(t: Policy, h: string, q: string, f: string)
    requires Sound(t) && '?' !in h
    ensures SeenPlainly(t, h + (['?'] + q) + (['#'] + (f + (if q == "" then "" else "&") + t.setting))) <==>
      q != "" || (f != "" && f[|f| - 1] == '&')
  {
    var x := if q == "" then "" else "&";
    Assoc4(h, q, x, f, t.setting);
    PlainAfter(h, q + ("#" + (f + x)), t);
  }

  lemma AssocMark(h: string, a: string, g: string, s: string)
    ensures h + "" + (['#'] + (a + (['?'] + g) + "?" + s)) == (h + ("#" + a)) + ("?" + ((g + "?") + s))
  {
  }

  lemma AssocPlain(h: string, f: string, s: string)
    ensures h + "" + (['#'] + (f + "?" + s)) == (h + ("#" + f)) + ("?" + ("" + s))
  {
  }

  lemma PlainNoQuery(t: Policy, h: string, f: string)
    requires Sound(t) && '?' !in h
    ensures SeenPlainly(t, h + "" + (['#'] + (f + "?" + t.setting))) <==> '?' !in f
  {
    CutGlue(f, '?');
    var a := Before(f, '?');
    if '?' in f {
      var g := After(f, '?').value;
      AssocMark(h, a, g, t.setting);
      PlainAfter(h + ("#" + a), g + "?", t);
    } else {
      AssocPlain(h, f, t.setting);
      PlainAfter(h + ("#" + f), "", t);
    }
  }
}

/** The policy in use: percent-decoded keys, Supabase host names. */
module SupabasePolicy {
  import opened Text
  import opened ConnectionUrl

  predicate IsHex(c: char) { '0' <= c <= '9' || 'a' <= c <= 'f' || 'A' <= c <= 'F' }

  function HexValue(c: char): nat
    requires IsHex(c)
  {
    if c <= '9' then c as int - '0' as int
    else if c <= 'F' then c as int - 'A' as int + 10
    else c as int - 'a' as int + 10
  }

  // Decoding gives the text, which is in ASCII; a byte of 128 or more never decodes into ASCII.
  predicate DecodesTo(key: string, text: string)
    decreases |key|
  {
    if key == "" then text == ""
    else if text == "" then false
    else if key[0] == '+' then text[0] == ' ' && DecodesTo(key[1..], text[1..])
    else if key[0] == '%' && |key| >= 3 && IsHex(key[1]) && IsHex(key[2]) then
      text[0] as int == 16 * HexValue(key[1]) + HexValue(key[2]) && DecodesTo(key[3..], text[1..])
    else text[0] == key[0] && DecodesTo(key[1..], text[1..])
  }

  lemma {:induction false} DecodesItself(s: string)
    requires '%' !in s && '+' !in s
    ensures DecodesTo(s, s)
  {
    if s != "" {
      DecodesItself(s[1..]);
    }
  }

  // Behind the last occurrence of c; the whole string if there is none.
  function AfterLast(s: string, c: char): string
  {
    if c in s then AfterLast(After(s, c).value, c) else s
  }

  function Lower(s: string): string
  {
    if s == "" then ""
    else [if 'A' <= s[0] <= 'Z' then (s[0] as int + 32) as char else s[0]] + Lower(s[1..])
  }

  function HostName(location: string): string
  {
    var info := AfterLast(location, '@');
    var name :=
      if '[' in info then ConnectionUrl.Before(After(info, '[').value, ']') else ConnectionUrl.Before(info, ':');
    Lower(ConnectionUrl.Before(name, '%')) + Tail('%', After(name, '%'))
  }

  predicate HasSuffix(s: string, suffix: string)
  {
    |suffix| <= |s| && s[|s| - |suffix|..] == suffix
  }

  predicate SupabaseHost(location: string)
  {
    HasSuffix(HostName(location), ".supabase.co") || HasSuffix(HostName(location), ".supabase.com")
  }

  predicate SslKey(key: string) { DecodesTo(key, "sslmode") }

  const SUPABASE := Policy(SslKey, SupabaseHost, "sslmode=require")

  lemma SettingCut()
    ensures ConnectionUrl.Before("sslmode=require", '=') == "sslmode" && Value("sslmode=require") == "require"
  {
    assert "sslmode=require" == "sslmode" + Tail('=', Some("require"));
    GlueCut("sslmode", '=', Some("require"));
  }

  lemma SettingChars()
    ensures '&' !in "sslmode=require" && '#' !in "sslmode=require"
    ensures forall i :: 0 <= i < |"sslmode=require"| ==> !Removed("sslmode=require"[i])
  {
  }

  lemma KeyDecodes()
    ensures SslKey("sslmode")
  {
    DecodesItself("sslmode");
  }

  lemma NamesBy(t: Policy, setting: string, key: string)
    requires t.key(key) && ConnectionUrl.Before(setting, '=') == key && Value(setting) != ""
    ensures Names(t, setting)
  {
  }

  lemma SettingNames()
    ensures Names(SUPABASE, "sslmode=require")
  {
    SettingCut();
    KeyDecodes();
    NamesBy(SUPABASE, "sslmode=require", "sslmode");
  }

  /** All that was assumed of a policy holds of the one in use. */
  lemma {:induction false} SupabaseSound()
    ensures Sound(SUPABASE) && '#' !in SUPABASE.setting
  {
    SettingChars();
    SettingNames();
  }

  /** For the policy in use, normalising is idempotent except where SSL is asked for behind a fragment. */
  lemma {:induction false} SupabaseIdempotentIff(v: string)
    ensures Normalized(SUPABASE, Normalized(SUPABASE, v)) == Normalized(SUPABASE, v)
      <==> !(NeedsSsl(SUPABASE, PinDriver(v)) && Parse(PinDriver(v)).frag.Some?)
  {
    SupabaseSound();
    IdempotentIff(SUPABASE, v);
  }

  // ----- inputs at which idempotence and the plain view fail -----

  predicate HostChar(c: char) { 'a' <= c <= 'z' || '0' <= c <= '9' || c == '.' || c == '-' }

  // A plain host name at Supabase.
  predicate IsHost(host: string)
  {
    && (forall i :: 0 <= i < |host| ==> HostChar(host[i]))
    && HasSuffix(host, ".supabase.co")
  }

  lemma {:induction false} LowerHost(host: string)
    requires forall i :: 0 <= i < |host| ==> HostChar(host[i])
    ensures Lower(host) == host
  {
    if host != "" {
      LowerHost(host[1..]);
      assert host == [host[0]] + host[1..];
    }
  }

  lemma AbsentBefore(s: string, c: char)
    requires c !in s
    ensures ConnectionUrl.Before(s, c) == s && After(s, c) == None
  {
  }

  lemma HostIsSupabase(host: string)
    requires IsHost(host)
    ensures SupabaseHost(host)
  {
    assert forall i :: 0 <= i < |host| ==> HostChar(host[i]);
    assert '@' !in host && '[' !in host && ':' !in host && '%' !in host;
    AbsentBefore(host, ':');
    AbsentBefore(host, '%');
    LowerHost(host);
    assert HostName(host) == host + "" == host;
  }

  lemma LocationOfHost(host: string)
    requires forall i :: 0 <= i < |host| ==> HostChar(host[i])
    ensures Location(DRIVER + host) == host
  {
    var v := DRIVER + host;
    assert forall i :: 0 <= i < |host| ==> HostChar(host[i]);
    SchemeOfDriver(host);
    assert ("//" + host)[..2] == "//" && ("//" + host)[2..] == host;
    AbsentBefore(host, '/');
    AbsentBefore(host, '?');
    AbsentBefore(host, '#');
  }

  lemma SchemeOfDriver(host: string)
    ensures AfterScheme(DRIVER + host) == "//" + host
  {
    var scheme := "postgresql+psycopg2";
    var v := DRIVER + host;
    assert v == scheme + ("://" + host);
    IndexIs(scheme, ':', "://" + host);
    assert SchemeUpTo(v, |scheme|);
    assert v[|scheme| + 1..] == "//" + host;
  }

  // A URL of that host with at most an empty query, and a fragment.
  function HostUrl(host: string, query: Option<string>, frag: string): Url
  {
    Url(DRIVER + host, query, Some(frag))
  }

  predicate PlainChar(c: char) { c > ' ' && c != '#' && c != '?' }

  lemma DriverChars(driver: string)
    requires driver == DRIVER
    ensures forall i :: 0 <= i < |driver| ==> PlainChar(driver[i])
  {
  }

  lemma PlainText(v: string)
    requires v != "" && forall i :: 0 <= i < |v| ==> PlainChar(v[i])
    ensures Remove(LeftStrip(v)) == v && '#' !in v && '?' !in v
  {
    assert PlainChar(v[0]) && LeftStrip(v) == v;
    RemoveNothing(v);
  }

  lemma PinnedDriver(host: string)
    ensures Pinned(DRIVER + host)
  {
    PinDriverPins(BARE[0] + host);
    assert (BARE[0] + host)[|BARE[0]|..] == host;
    assert PinDriver(BARE[0] + host) == DRIVER + host;
  }

  lemma DriverIsPlain(driver: string, host: string)
    requires driver == DRIVER && forall i :: 0 <= i < |host| ==> HostChar(host[i])
    ensures Remove(LeftStrip(driver + host)) == driver + host && '#' !in driver + host && '?' !in driver + host
  {
    var v := driver + host;
    DriverChars(driver);
    forall i | 0 <= i < |v|
      ensures PlainChar(v[i])
    {
      if i >= |driver| { assert HostChar(host[i - |driver|]); }
    }
    PlainText(v);
  }

  lemma NamesNoMode(t: Policy, u: Url)
    requires u.query.None? || u.query.value == ""
    ensures !Ssl(t, u)
  {
    assert Tokens(u) == [""];
  }

  lemma HostNeedsSsl(host: string, query: Option<string>, frag: string)
    requires IsHost(host) && (query.None? || query.value == "")
    ensures var u := HostUrl(host, query, frag);
      Proper(u) && Parse(Show(u)) == u && PinDriver(Show(u)) == Show(u) && NeedsSsl(SUPABASE, Show(u))
  {
    var u := HostUrl(host, query, frag);
    DriverIsPlain(DRIVER, host);
    PinnedDriver(host);
    ParseShow(u);
    PinnedByHead(u, Url(u.head, None, None));
    assert Show(Url(u.head, None, None)) == u.head + "" + "" == u.head;
    PinnedStays(Show(u));
    LocationOfHead(Show(u));
    LocationOfHost(host);
    HostIsSupabase(host);
    SslByTokens(SUPABASE, Show(u));
    NamesNoMode(SUPABASE, u);
  }

  /** A Supabase URL with a plain host name, a fragment and no query or an empty one changes again with
      the second normalisation. */
  lemma {:induction false} FragmentGrows(host: string, query: Option<string>, frag: string)
    requires IsHost(host) && (query.None? || query.value == "")
    ensures var v := Show(HostUrl(host, query, frag));
      Normalized(SUPABASE, Normalized(SUPABASE, v)) != Normalized(SUPABASE, v)
  {
    HostNeedsSsl(host, query, frag);
    SupabaseIdempotentIff(Show(HostUrl(host, query, frag)));
  }

  lemma HostLiteral(host: string)
    requires host == "db.a.supabase.co"
    ensures IsHost(host)
  {
    assert host[|host| - |".supabase.co"|..] == ".supabase.co";
  }

  /** For instance this one. */
  lemma NotIdempotent(host: string)
    requires host == "db.a.supabase.co"
    ensures var v := Show(HostUrl(host, None, "f"));
      && v == "postgresql+psycopg2://" + host + "#f"
      && Normalized(SUPABASE, Normalized(SUPABASE, v)) != Normalized(SUPABASE, v)
  {
    HostLiteral(host);
    FragmentGrows(host, None, "f");
    assert "postgresql+psycopg2://" + host + "" == "postgresql+psycopg2://" + host;
    assert Tail('#', Some("f")) == "#f";
  }

  /** Behind a bare question mark and a fragment the setting is run together with the fragment, for a
      reader to whom the hash is an ordinary character too. */
  lemma NotSeenPlainly(host: string)
    requires host == "db.a.supabase.co"
    ensures var v := Show(HostUrl(host, Some(""), "f"));
      && NeedsSsl(SUPABASE, v) && PinDriver(v) == v && !SeenPlainly(SUPABASE, Normalized(SUPABASE, v))
  {
    var u := HostUrl(host, Some(""), "f");
    HostLiteral(host);
    HostNeedsSsl(host, Some(""), "f");
    SupabaseSound();
    PlainView(SUPABASE, u);
    EmptyTokens(SUPABASE, u);
  }

  lemma EmptyTokens(t: Policy, u: Url)
    requires u.query == Some("")
    ensures Tokens(u) == [""]
    ensures !t.key("") ==> Kept(t, Tokens(u)) == Tokens(u)
  {
    assert ConnectionUrl.Before("", '=') == "";
    assert [""][1..] == [];
  }
}
