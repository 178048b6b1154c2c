/** What is read of a database URL that is written part by part. */
module UrlParts {
  import opened Text
  import opened ConnectionUrl
  import opened SupabasePolicy

  // ----- the driver -----

  /** Both bare schemes name the driver afterwards; any other URL is left alone. */
  lemma DriverNamed(rest: string)
    ensures PinDriver("postgres://" + rest) == "postgresql+psycopg2://" + rest
    ensures PinDriver("postgresql://" + rest) == "postgresql+psycopg2://" + rest
    ensures !("postgres://" <= rest) && !("postgresql://" <= rest) ==> PinDriver(rest) == rest
  {
    var v := "postgresql://" + rest;
    assert v[8] == 'q' && "postgres://"[8] == ':';
    assert v[13..] == rest && ("postgres://" + rest)[11..] == rest;
  }

  // ----- the network location -----

  predicate Ends(rest: string) { rest == "" || rest[0] == '/' || rest[0] == '?' || rest[0] == '#' }

  predicate IsScheme(scheme: string)
  {
    scheme != "" && Letter(scheme[0]) && forall i :: 0 <= i < |scheme| ==> SchemeChar(scheme[i])
  }

  lemma StopsBefore(s: string, rest: string, c: char)
    requires c !in s && rest != "" && rest[0] == c
    ensures ConnectionUrl.Before(s + rest, c) == s
  {
    IndexIs(s, c, rest);
  }

  lemma HostEnds(location: string, rest: string)
    requires '/' !in location && '?' !in location && '#' !in location && Ends(rest)
    ensures Host(location + rest) == location
  {
    if rest == "" {
      assert location + rest == location;
      NoneOf(location, '/');
    } else if rest[0] == '/' {
      StopsBefore(location, rest, '/');
    } else {
      var y := ConnectionUrl.Before(location + rest, '/');
      FrontStays(location, rest, '/');
      var more := y[|location|..];
      assert y == location + more && more != "" && more[0] == rest[0];
      if rest[0] == '?' {
        StopsBefore(location, more, '?');
      } else {
        FrontStays(location, more, '?');
        var z := ConnectionUrl.Before(y, '?');
        assert z == location + z[|location|..];
        StopsBefore(location, z[|location|..], '#');
      }
    }
    NoneOf(location, '?');
    NoneOf(location, '#');
  }

  lemma NoneOf(s: string, c: char)
    requires c !in s
    ensures ConnectionUrl.Before(s, c) == s
  {
  }

  // Cutting at a character that neither the front nor the one behind it is keeps both.
  lemma FrontStays(s: string, rest: string, c: char)
    requires c !in s && rest != "" && rest[0] != c
    ensures var y := ConnectionUrl.Before(s + rest, c);
      |y| > |s| && y[..|s|] == s && y[|s|] == rest[0]
  {
    var k := Index(s + rest, c);
    assert forall i :: 0 <= i < |s| ==> (s + rest)[i] == s[i];
    assert (s + rest)[|s|] == rest[0];
    assert k > |s|;
  }

  lemma BehindScheme(scheme: string, x: string)
    requires IsScheme(scheme)
    ensures AfterScheme(scheme + (":" + x)) == x
  {
    var v := scheme + (":" + x);
    SchemeHasNoColon(scheme);
    IndexIs(scheme, ':', ":" + x);
    assert v[|scheme| + 1..] == x;
    assert forall i :: 0 <= i < |scheme| ==> v[i] == scheme[i];
  }

  lemma SchemeHasNoColon(scheme: string)
    requires IsScheme(scheme)
    ensures ':' !in scheme
  {
    assert forall i :: 0 <= i < |scheme| ==> SchemeChar(scheme[i]);
  }

  /** Between the scheme and the path, the query or the fragment stands the network location. */
  lemma {:induction false} LocationIs(scheme: string, location: string, rest: string)
    requires IsScheme(scheme) && Ends(rest) && '/' !in location && '?' !in location && '#' !in location
    ensures Location(scheme + ("://" + (location + rest))) == location
  {
    var x := "//" + (location + rest);
    assert "://" + (location + rest) == ":" + x;
    BehindScheme(scheme, x);
    assert x[..2] == "//" && x[2..] == location + rest;
    HostEnds(location, rest);
  }

  // ----- the host -----

  lemma BehindFirst(front: string, x: string, c: char)
    requires c in front
    ensures c in front + x && After(front + x, c).value == After(front, c).value + x
    ensures |After(front, c).value| < |front|
  {
    IndexConcat(front, x, c);
    var k := Index(front, c);
    assert (front + x)[k + 1..] == front[k + 1..] + x;
  }

  lemma BehindOnly(front: string, s: string, c: char)
    requires c !in front
    ensures After(front + ([c] + s), c) == Some(s)
  {
    IndexIs(front, c, [c] + s);
    assert (front + ([c] + s))[|front| + 1..] == s;
  }

  lemma {:induction false} LastPart(front: string, c: char, s: string)
    requires c !in s
    ensures AfterLast(front + ([c] + s), c) == s
    decreases |front|
  {
    assert (front + ([c] + s))[|front|] == c;
    if c in front {
      BehindFirst(front, [c] + s, c);
      LastPart(After(front, c).value, c, s);
    } else {
      BehindOnly(front, s, c);
    }
  }

  /** The host stands behind the last at sign and in front of the port, and its letters count as small. */
  lemma {:induction false} HostNameIs(user: string, host: string, port: string)
    requires '@' !in host + port && '[' !in host + port && ':' !in host && '%' !in host
    requires port == "" || port[0] == ':'
    ensures HostName(user + ("@" + (host + port))) == Lower(host)
    ensures HostName(host + port) == Lower(host)
  {
    LastPart(user, '@', host + port);
    assert ['@'] + (host + port) == "@" + (host + port);
    assert '[' !in host + port;
    if port == "" { assert host + port == host; } else { StopsBefore(host, port, ':'); }
    AbsentBefore(host, ':');
    AbsentBefore(host, '%');
    assert Lower(host) + "" == Lower(host);
  }

  predicate AtSupabase(host: string)
  {
    HasSuffix(Lower(host), ".supabase.co") || HasSuffix(Lower(host), ".supabase.com")
  }

  /** A URL with these parts is a Supabase one exactly by its host, whatever the user, the password, the path or
      the query say. */
  lemma {:induction false} SupabaseIff(scheme: string, user: string, host: string, port: string, rest: string)
    requires IsScheme(scheme) && Ends(rest)
    requires '@' !in host + port && '[' !in host + port && ':' !in host && '%' !in host
    requires port == "" || port[0] == ':'
    requires var location := user + ("@" + (host + port)); '/' !in location && '?' !in location && '#' !in location
    requires var v := scheme + ("://" + (user + ("@" + (host + port)) + rest)); forall i :: 0 <= i < |v| ==> v[i] > ' '
    ensures IsSupabase(SUPABASE, scheme + ("://" + (user + ("@" + (host + port)) + rest))) <==> AtSupabase(host)
  {
    var location := user + ("@" + (host + port));
    Visible(scheme + ("://" + (location + rest)));
    LocationIs(scheme, location, rest);
    HostNameIs(user, host, port);
  }

  lemma Visible(v: string)
    requires forall i :: 0 <= i < |v| ==> v[i] > ' '
    ensures Clean(v) == v
  {
    RemoveNothing(v);
  }

  // ----- keys -----

  /** Without percent and plus signs a key is only itself. */
  lemma {:induction false} PlainKey(key: string, text: string)
    requires '%' !in key && '+' !in key
    ensures DecodesTo(key, text) <==> key == text
  {
    if key != "" && text != "" {
      PlainKey(key[1..], text[1..]);
      assert key == [key[0]] + key[1..] && text == [text[0]] + text[1..];
    }
  }

  /** An encoded letter is that letter; a space is a plus sign or encoded. */
  lemma KeyExamples(a: string, b: string, c: string, d: string)
    requires a == "%73slmode" && b == "a+b" && c == "a%20b" && d == "sslmod%65"
    ensures SslKey(a) && DecodesTo(b, "a b") && DecodesTo(c, "a b") && SslKey(d)
  {
    KeyEnds(a, d);
    SpaceEncoded(b, c, "a b");
  }

  lemma KeyEnds(a: string, d: string)
    requires a == "%73slmode" && d == "sslmod%65"
    ensures SslKey(a) && SslKey(d)
  {
    FirstEncoded("slmode", a, "sslmode");
    LastEncoded("sslmod", d, "sslmode");
  }

  lemma FirstEncoded(rest: string, key: string, text: string)
    requires '%' !in rest && '+' !in rest && key == "%73" + rest && text == "s" + rest
    ensures DecodesTo(key, text)
  {
    PlainKey(rest, rest);
    assert key[3..] == rest && text[1..] == rest && HexValue('7') == 7 && HexValue('3') == 3;
  }

  lemma SpaceEncoded(b: string, c: string, text: string)
    requires b == "a+b" && c == "a%20b" && text == "a b"
    ensures DecodesTo(b, text) && DecodesTo(c, text)
  {
    assert b[1..] == "+b" && b[1..][1..] == "b" && text[1..] == " b" && text[1..][1..] == "b";
    assert c[1..] == "%20b" && c[1..][3..] == "b";
    PlainKey("b", "b");
  }

  lemma {:induction false} LastEncoded(front: string, key: string, text: string)
    requires '%' !in front && '+' !in front && key == front + "%65" && text == front + "e"
    ensures DecodesTo(key, text)
  {
    if front == "" {
      assert key == "%65" && text == "e" && key[3..] == "" && text[1..] == "";
      assert HexValue('6') == 6 && HexValue('5') == 5;
    } else {
      assert key[1..] == front[1..] + "%65" && text[1..] == front[1..] + "e";
      LastEncoded(front[1..], key[1..], text[1..]);
    }
  }

  /** The hexadecimal digits, of either case, and their values. */
  lemma HexDigits(values: map<char, int>)
    requires values == map['0' := 0, '1' := 1, '2' := 2, '3' := 3, '4' := 4, '5' := 5, '6' := 6, '7' := 7,
                           '8' := 8, '9' := 9, 'a' := 10, 'b' := 11, 'c' := 12, 'd' := 13, 'e' := 14, 'f' := 15,
                           'A' := 10, 'B' := 11, 'C' := 12, 'D' := 13, 'E' := 14, 'F' := 15]
    ensures forall c :: IsHex(c) <==> c in values
    ensures forall c :: c in values ==> HexValue(c) == values[c]
  {
  }

  /** Capital letters become small ones, other characters stay. */
  lemma {:induction false} LowerIs(s: string, small: map<char, char>)
    requires small == map['A' := 'a', 'B' := 'b', 'C' := 'c', 'D' := 'd', 'E' := 'e', 'F' := 'f', 'G' := 'g',
                          'H' := 'h', 'I' := 'i', 'J' := 'j', 'K' := 'k', 'L' := 'l', 'M' := 'm', 'N' := 'n',
                          'O' := 'o', 'P' := 'p', 'Q' := 'q', 'R' := 'r', 'S' := 's', 'T' := 't', 'U' := 'u',
                          'V' := 'v', 'W' := 'w', 'X' := 'x', 'Y' := 'y', 'Z' := 'z']
    ensures |Lower(s)| == |s|
    ensures forall i :: 0 <= i < |s| ==> Lower(s)[i] == if s[i] in small then small[s[i]] else s[i]
  {
    if s != "" {
      LowerIs(s[1..], small);
      LetterLowered(s[0], small);
    }
  }

  lemma LetterLowered(c: char, small: map<char, char>)
    requires small == map['A' := 'a', 'B' := 'b', 'C' := 'c', 'D' := 'd', 'E' := 'e', 'F' := 'f', 'G' := 'g',
                          'H' := 'h', 'I' := 'i', 'J' := 'j', 'K' := 'k', 'L' := 'l', 'M' := 'm', 'N' := 'n',
                          'O' := 'o', 'P' := 'p', 'Q' := 'q', 'R' := 'r', 'S' := 's', 'T' := 't', 'U' := 'u',
                          'V' := 'v', 'W' := 'w', 'X' := 'x', 'Y' := 'y', 'Z' := 'z']
    ensures c in small <==> 'A' <= c <= 'Z'
    ensures c in small ==> small[c] as int == c as int + 32
  {
  }

  // ----- what the URL parser strips -----

  /** Blanks and control characters in front of the URL, and tabs and line ends within it, do not count. */
  lemma {:induction false} StrippedIs(a: string, v: string)
    requires (forall i :: 0 <= i < |a| ==> a[i] <= ' ') && (v == "" || v[0] > ' ')
    ensures LeftStrip(a + v) == v && Clean(a + v) == Remove(v)
  {
    if a == "" {
      assert a + v == v;
    } else {
      assert (a + v)[1..] == a[1..] + v;
      StrippedIs(a[1..], v);
    }
  }

  lemma RemovedIs(x: string, c: char, y: string)
    ensures c == '\t' || c == '\n' || c == '\r' ==> Remove(x + ([c] + y)) == Remove(x + y)
    ensures c != '\t' && c != '\n' && c != '\r' ==> Remove(x + ([c] + y)) == Remove(x) + [c] + Remove(y)
  {
    RemoveConcat(x, [c] + y);
    RemoveConcat(x, y);
    assert ([c] + y)[1..] == y;
    assert Remove(x) + ([c] + Remove(y)) == Remove(x) + [c] + Remove(y);
  }

  /** The characters of a scheme. */
  lemma SchemeCharacters(small: set<char>, capital: set<char>, others: set<char>)
    requires small == {'a', 'b', 'c', 'd', 'e', 'f', 'g', 'h', 'i', 'j', 'k', 'l', 'm', 'n', 'o', 'p', 'q', 'r', 's',
                       't', 'u', 'v', 'w', 'x', 'y', 'z'}
    requires capital == {'A', 'B', 'C', 'D', 'E', 'F', 'G', 'H', 'I', 'J', 'K', 'L', 'M', 'N', 'O', 'P', 'Q', 'R',
                         'S', 'T', 'U', 'V', 'W', 'X', 'Y', 'Z'}
    requires others == {'0', '1', '2', '3', '4', '5', '6', '7', '8', '9', '+', '-', '.'}
    ensures forall c :: Letter(c) <==> c in small || c in capital
    ensures forall c :: SchemeChar(c) <==> Letter(c) || c in others
  {
  }

  // ----- a whole URL -----

  lemma PlainUrl(host: string, u: Url)
    requires IsHost(host) && u == Url(DRIVER + host, None, None)
    ensures Show(u) == DRIVER + host && Parse(DRIVER + host) == u && NeedsSsl(SUPABASE, DRIVER + host)
  {
    DriverIsPlain(DRIVER, host);
    assert Show(u) == u.head + "" + "" == u.head;
    ParseShow(u);
    LocationOfHead(u.head);
    LocationOfHost(host);
    HostIsSupabase(host);
    SslByTokens(SUPABASE, u.head);
    NamesNoMode(SUPABASE, u);
  }

  lemma SettingShown(u: Url)
    requires u.query.None? && u.frag.None?
    ensures Show(Append(SUPABASE, Drop(SUPABASE, u))) == u.head + "?sslmode=require"
  {
    NothingDropped(u);
    assert Open(u) + SUPABASE.setting == "sslmode=require";
    assert ['?'] + "sslmode=require" == "?sslmode=require";
    assert u.head + "?sslmode=require" + "" == u.head + "?sslmode=require";
  }

  /** A plain Supabase URL with a bare scheme gets the driver and the setting. */
  lemma {:induction false} SettingAppended(host: string)
    requires IsHost(host)
    ensures Normalized(SUPABASE, "postgres://" + host) == "postgresql+psycopg2://" + host + "?sslmode=require"
  {
    var u := Url(DRIVER + host, None, None);
    DriverNamed(host);
    PlainUrl(host, u);
    SettingShown(u);
  }

  lemma NothingDropped(u: Url)
    requires u.query.None?
    ensures Drop(SUPABASE, u) == u
  {
    assert Tokens(u) == [""];
    assert ConnectionUrl.Before("", '=') == "" && !SslKey("");
    assert Kept(SUPABASE, [""]) == [""];
  }
}
