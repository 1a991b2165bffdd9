/** Reading cookies from a Cookie header. */
module Cookies {
  import opened Wrappers
  import opened Sequences
  import opened Strings

  datatype Cookie = Cookie(name: string, value: string)

  // ----- splitting --------------------------------------------------------

  function IndexOf(s: string, c: char): (i: nat)
    ensures i <= |s| && c !in s[..i] && (i < |s| ==> s[i] == c)
  {
    if s == "" || s[0] == c then 0
    else
      var i := IndexOf(s[1..], c);
      assert s[..i + 1] == [s[0]] + s[1..][..i];
      i + 1
  }

  lemma IndexOfIs(a: string, c: char, b: string)
    requires c !in a
    ensures IndexOf(a + [c] + b, c) == |a|
    ensures IndexOf(a, c) == |a|
  {
    var s := a + [c] + b;
    var i := IndexOf(s, c);
    assert s[|a|] == c;
    assert forall k :: 0 <= k < |a| ==> s[k] == a[k];
    assert forall k :: 0 <= k < i ==> s[..i][k] == s[k];
  }

  function Pieces(s: string): seq<string>
    decreases |s|
  {
    var i := IndexOf(s, ';');
    if i == |s| then [s] else [s[..i]] + Pieces(s[i + 1..])
  }

  // ----- the Cookie header ------------------------------------------------

  /** The cookie in one piece between semicolons, if there is one. */
  function CookieIn(piece: string): Option<Cookie> {
    var p := Trim(piece);
    var eq := IndexOf(p, '=');
    if eq == |p| || Trim(p[..eq]) == "" then None
    else Some(Cookie(Trim(p[..eq]), Trim(p[eq + 1..])))
  }

  function CookiesIn(pieces: seq<string>): seq<Cookie> {
    if pieces == [] then []
    else
      var rest := CookiesIn(pieces[..|pieces| - 1]);
      match CookieIn(pieces[|pieces| - 1])
      case Some(cookie) => rest + [cookie]
      case None => rest
  }

  lemma CookiesInNext(pieces: seq<string>, n: nat)
    requires n < |pieces|
    ensures CookiesIn(pieces[..n + 1]) == CookiesIn(pieces[..n])
      + (match CookieIn(pieces[n]) case Some(cookie) => [cookie] case None => [])
  {
    assert pieces[..n + 1][..n] == pieces[..n];
  }

  /** parse_cookie_header. */
  method ParseCookieHeader(header: string) returns (r: Result<seq<Cookie>, string>)
    ensures CookiesIn(Pieces(header)) == [] ==> r == Failure("no cookies found in input")
    ensures CookiesIn(Pieces(header)) != [] ==> r == Success(CookiesIn(Pieces(header)))
  {
    var out: seq<Cookie> := [];
    var pieces := Pieces(header);
    for n := 0 to |pieces|
      invariant out == CookiesIn(pieces[..n])
    {
      CookiesInNext(pieces, n);
      var piece := Trim(pieces[n]);
      var eq := IndexOf(piece, '=');
      if eq == |piece| { continue; }
      var name := Trim(piece[..eq]);
      var value := Trim(piece[eq + 1..]);
      if name != "" {
        out := out + [Cookie(name, value)];
      }
    }
    assert pieces[..|pieces|] == pieces;
    if out == [] {
      return Failure("no cookies found in input");
    }
    return Success(out);
  }

  // ----- section 4.2.1 of RFC 6265 ----------------------------------------

  predicate IsTokenChar(c: char) {
    '!' <= c <= '~' && c !in "()<>@,;:\\\"/[]?={}"
  }

  predicate IsCookieOctet(c: char) {
    c == '!' || '#' <= c <= '+' || '-' <= c <= ':' || '<' <= c <= '[' || ']' <= c <= '~'
  }

  predicate AllOctets(s: string) {
    forall i :: 0 <= i < |s| ==> IsCookieOctet(s[i])
  }

  predicate IsCookiePair(c: Cookie) {
    && c.name != "" && (forall i :: 0 <= i < |c.name| ==> IsTokenChar(c.name[i]))
    && (|| AllOctets(c.value)
        || (&& |c.value| >= 2 && c.value[0] == '"' && c.value[|c.value| - 1] == '"'
            && AllOctets(c.value[1..|c.value| - 1])))
  }

  function Pair(c: Cookie): string { c.name + "=" + c.value }

  /** A cookie-string: pairs joined by a semicolon and a space. */
  function CookieString(cookies: seq<Cookie>): string {
    if cookies == [] then ""
    else if |cookies| == 1 then Pair(cookies[0])
    else Pair(cookies[0]) + [';'] + (" " + CookieString(cookies[1..]))
  }

  /** No white space and no semicolon anywhere. */
  predicate Solid(s: string) {
    forall i :: 0 <= i < |s| ==> !IsWhitespace(s[i]) && s[i] != ';'
  }

  lemma PairIsSolid(c: Cookie)
    requires IsCookiePair(c)
    ensures Solid(c.name) && '=' !in c.name && Solid(c.value)
  {
    if !AllOctets(c.value) {
      var inner := c.value[1..|c.value| - 1];
      forall i | 0 <= i < |c.value| ensures !IsWhitespace(c.value[i]) && c.value[i] != ';' {
        if 0 < i < |c.value| - 1 { assert c.value[i] == inner[i - 1]; }
      }
    }
  }

  lemma TrimSolid(s: string)
    requires Solid(s)
    ensures Trim(s) == s && Trim(" " + s) == s
  {
    assert (" " + s)[1..] == s;
  }

  /** One pair, with or without the separating space, reads back as itself. */
  lemma PairReadsBack(c: Cookie)
    requires IsCookiePair(c)
    ensures CookieIn(Pair(c)) == Some(c) && CookieIn(" " + Pair(c)) == Some(c)
  {
    PairIsSolid(c);
    var p := Pair(c);
    assert Solid(p);
    TrimSolid(p);
    assert p == c.name + ['='] + c.value;
    IndexOfIs(c.name, '=', c.value);
    assert p[..|c.name|] == c.name && p[|c.name| + 1..] == c.value;
    TrimSolid(c.name);
    TrimSolid(c.value);
  }

  lemma {:induction false} CookiesInSplits(a: seq<string>, b: seq<string>)
    ensures CookiesIn(a + b) == CookiesIn(a) + CookiesIn(b)
    decreases |b|
  {
    if b == [] {
      assert a + b == a;
    } else {
      assert (a + b)[..|a + b| - 1] == a + b[..|b| - 1];
      CookiesInSplits(a, b[..|b| - 1]);
    }
  }

  lemma PiecesHead(a: string, b: string)
    requires ';' !in a
    ensures Pieces(a + [';'] + b) == [a] + Pieces(b) && Pieces(a) == [a]
  {
    IndexOfIs(a, ';', b);
    var s := a + [';'] + b;
    assert s[..|a|] == a && s[|a| + 1..] == b;
  }

  lemma OneCookie(piece: string, c: Cookie)
    requires CookieIn(piece) == Some(c)
    ensures CookiesIn([piece]) == [c]
  {
    assert [piece][..0] == [];
  }

  /** A first piece that holds one cookie. */
  lemma FirstPiece(piece: string, c: Cookie, rest: string)
    requires ';' !in piece && CookieIn(piece) == Some(c)
    ensures CookiesIn(Pieces(piece)) == [c]
    ensures CookiesIn(Pieces(piece + [';'] + rest)) == [c] + CookiesIn(Pieces(rest))
  {
    PiecesHead(piece, rest);
    OneCookie(piece, c);
    CookiesInSplits([piece], Pieces(rest));
  }

  lemma SolidHasNoSemicolon(s: string)
    requires Solid(s)
    ensures ';' !in s && ';' !in " " + s
  {
  }

  lemma PairHasNoSemicolon(c: Cookie)
    requires IsCookiePair(c)
    ensures ';' !in Pair(c) && ';' !in " " + Pair(c)
  {
    PairIsSolid(c);
    assert Solid(Pair(c));
    SolidHasNoSemicolon(Pair(c));
  }

  /** The first pair of a cookie-string, read with what follows it. */
  lemma FirstPair(c: Cookie, rest: string)
    requires IsCookiePair(c)
    ensures CookiesIn(Pieces(Pair(c))) == [c] == CookiesIn(Pieces(" " + Pair(c)))
    ensures var s := Pair(c) + [';'] + rest;
            CookiesIn(Pieces(s)) == [c] + CookiesIn(Pieces(rest)) == CookiesIn(Pieces(" " + s))
  {
    var p := Pair(c);
    PairHasNoSemicolon(c);
    PairReadsBack(c);
    FirstPiece(p, c, rest);
    FirstPiece(" " + p, c, rest);
    Regroup(" ", p, [';']);
    Regroup(" ", p + [';'], rest);
  }

  /** Every cookie-string, after the header's leading space or not, reads back. */
  lemma {:induction false} CookieStringPieces(cookies: seq<Cookie>)
    requires cookies != [] && forall i :: 0 <= i < |cookies| ==> IsCookiePair(cookies[i])
    ensures CookiesIn(Pieces(CookieString(cookies))) == cookies
    ensures CookiesIn(Pieces(" " + CookieString(cookies))) == cookies
    decreases |cookies|
  {
    assert [cookies[0]] + cookies[1..] == cookies;
    if |cookies| == 1 {
      FirstPair(cookies[0], "");
    } else {
      CookieStringPieces(cookies[1..]);
      FirstPair(cookies[0], " " + CookieString(cookies[1..]));
    }
  }

  // ----- trimming a cookie-string -----------------------------------------

  lemma {:induction false} TrimCookieString(cookies: seq<Cookie>)
    requires cookies != [] && forall i :: 0 <= i < |cookies| ==> IsCookiePair(cookies[i])
    ensures Bare(CookieString(cookies))
    decreases |cookies|
  {
    PairIsSolid(cookies[0]);
    assert Pair(cookies[0])[0] == cookies[0].name[0];
    if |cookies| > 1 { TrimCookieString(cookies[1..]); }
  }

  lemma TrimOnce(s: string)
    requires Bare(s)
    ensures Trim(" " + s) == s
  {
    assert (" " + s)[1..] == s;
    assert TrimStart(s) == s && TrimEnd(s) == s;
  }

  lemma CookieStringIsTrim(cookies: seq<Cookie>)
    requires cookies != [] && forall i :: 0 <= i < |cookies| ==> IsCookiePair(cookies[i])
    ensures Trim(" " + CookieString(cookies)) == CookieString(cookies)
  {
    TrimCookieString(cookies);
    TrimOnce(CookieString(cookies));
  }

  // ----- a header as people write it --------------------------------------

  /** What may stand between two semicolons: a pair with white space around its name
      and its value, or something that is no cookie. */
  datatype Part =
    | Padded(before: string, cookie: Cookie, beforeSign: string, afterSign: string, after: string)
    | Junk(text: string)

  predicate CanWrite(p: Part) {
    match p
    case Padded(before, cookie, beforeSign, afterSign, after) =>
      && Blank(before) && Blank(beforeSign) && Blank(afterSign) && Blank(after)
      && Bare(cookie.name) && '=' !in cookie.name && ';' !in cookie.name
      && (cookie.value == "" || Bare(cookie.value)) && ';' !in cookie.value
    case Junk(text) =>
      ';' !in text && ('=' !in text || Blank(text[..IndexOf(text, '=')]))
  }

  function Written(p: Part): string {
    match p
    case Padded(before, cookie, beforeSign, afterSign, after) =>
      before + cookie.name + beforeSign + "=" + afterSign + cookie.value + after
    case Junk(text) => text
  }

  function Header(parts: seq<Part>): string
    requires parts != []
  {
    if |parts| == 1 then Written(parts[0]) else Written(parts[0]) + [';'] + Header(parts[1..])
  }

  function Meant(parts: seq<Part>): seq<Cookie> {
    if parts == [] then [] else (if parts[0].Padded? then [parts[0].cookie] else []) + Meant(parts[1..])
  }

  lemma BlankHasNone(pad: string, c: char)
    requires Blank(pad) && !IsWhitespace(c)
    ensures c !in pad
  {
  }

  lemma BlankTogether(a: string, b: string)
    requires Blank(a) && Blank(b)
    ensures Blank(a + b)
  {
  }

  /** A name with its white space, the sign, and a value with its own. */
  lemma SignedReads(left: string, name: string, leftPad: string, right: string, value: string, rightPad: string)
    requires left == name + leftPad && right == rightPad + value
    requires Bare(name) && '=' !in name && Blank(leftPad) && Blank(rightPad) && (value == "" || Bare(value))
    ensures var p := left + ['='] + right;
            IndexOf(p, '=') == |left| && Trim(p[..|left|]) == name && Trim(p[|left| + 1..]) == value
  {
    var p := left + ['='] + right;
    BlankHasNone(leftPad, '=');
    IndexOfIs(left, '=', right);
    assert p[..|left|] == left && p[|left| + 1..] == right;
    TrimPadded("", name, leftPad);
    assert "" + name + leftPad == left;
    if value == "" {
      assert right == rightPad;
      BlankTrims(right);
    } else {
      TrimPadded(rightPad, value, "");
      assert rightPad + value + "" == right;
    }
  }

  /** Trimming a padded pair leaves its name, sign and value; the white space behind
      the sign goes too when there is no value. */
  lemma PaddedTrims(p: Part) returns (right: string, pad: string)
    requires p.Padded? && CanWrite(p)
    ensures Blank(pad) && right == pad + p.cookie.value
    ensures Trim(Written(p)) == p.cookie.name + p.beforeSign + ['='] + right
  {
    var left := p.cookie.name + p.beforeSign;
    if p.cookie.value == "" {
      right, pad := "", "";
      var core := left + ['='];
      BlankTogether(p.afterSign, p.after);
      assert core[0] == p.cookie.name[0];
      TrimPadded(p.before, core, p.afterSign + p.after);
      assert Written(p) == p.before + core + (p.afterSign + p.after);
      assert core + "" == core;
    } else {
      pad := p.afterSign;
      right := pad + p.cookie.value;
      var core := left + ['='] + right;
      assert core[0] == p.cookie.name[0] && core[|core| - 1] == p.cookie.value[|p.cookie.value| - 1];
      TrimPadded(p.before, core, p.after);
      assert Written(p) == p.before + core + p.after;
    }
  }

  lemma PaddedReads(p: Part)
    requires p.Padded? && CanWrite(p)
    ensures CookieIn(Written(p)) == Some(p.cookie)
  {
    var right, pad := PaddedTrims(p);
    var left := p.cookie.name + p.beforeSign;
    SignedReads(left, p.cookie.name, p.beforeSign, right, p.cookie.value, pad);
  }

  lemma {:induction false} TrimKeepsOut(s: string, c: char)
    requires c !in s
    ensures c !in TrimStart(s) && c !in TrimEnd(s)
    decreases |s|
  {
    if s != "" {
      TrimKeepsOut(s[1..], c);
      TrimKeepsOut(s[..|s| - 1], c);
    }
  }

  lemma {:induction false} TrimStartSkips(pad: string, s: string)
    requires Blank(pad)
    ensures TrimStart(pad + s) == TrimStart(s)
    decreases |pad|
  {
    if pad == "" {
      assert pad + s == s;
    } else {
      assert (pad + s)[1..] == pad[1..] + s;
      TrimStartSkips(pad[1..], s);
    }
  }

  lemma {:induction false} TrimEndKeepsStart(s: string)
    ensures TrimEnd(s) <= s
    decreases |s|
  {
    if s != "" && IsWhitespace(s[|s| - 1]) { TrimEndKeepsStart(s[..|s| - 1]); }
  }

  /** Text that starts with the sign, after white space, has no name. */
  lemma NamelessReads(pad: string, rest: string)
    requires Blank(pad) && rest != "" && rest[0] == '='
    ensures CookieIn(pad + rest) == None
  {
    TrimStartSkips(pad, rest);
    assert TrimStart(rest) == rest;
    KeepsFirst(rest);
    TrimEndKeepsStart(rest);
    var p := Trim(pad + rest);
    assert p[0] == '=' && IndexOf(p, '=') == 0 && p[..0] == "";
  }

  lemma SignlessReads(text: string)
    requires '=' !in text
    ensures CookieIn(text) == None
  {
    TrimKeepsOut(text, '=');
    TrimKeepsOut(TrimStart(text), '=');
    IndexOfIs(Trim(text), '=', "");
  }

  lemma IndexWithin(text: string, c: char)
    requires c in text
    ensures IndexOf(text, c) < |text|
  {
    assert text[..|text|] == text;
  }

  lemma JunkReads(text: string)
    requires CanWrite(Junk(text))
    ensures CookieIn(text) == None
  {
    if '=' !in text {
      SignlessReads(text);
    } else {
      var i := IndexOf(text, '=');
      IndexWithin(text, '=');
      NamelessReads(text[..i], text[i..]);
      assert text == text[..i] + text[i..];
    }
  }

  lemma PartHasNoSemicolon(p: Part)
    requires CanWrite(p)
    ensures ';' !in Written(p)
  {
    if p.Padded? {
      BlankHasNone(p.before, ';');
      BlankHasNone(p.beforeSign, ';');
      BlankHasNone(p.afterSign, ';');
      BlankHasNone(p.after, ';');
    }
  }

  lemma PartReads(p: Part)
    requires CanWrite(p)
    ensures CookiesIn([Written(p)]) == if p.Padded? then [p.cookie] else []
  {
    assert [Written(p)][..0] == [];
    if p.Padded? { PaddedReads(p); } else { JunkReads(p.text); }
  }

  /** Every header, with any white space around names and values and any junk between
      its pairs, reads back as exactly its pairs, in order. */
  lemma {:induction false} HeaderReadsBack(parts: seq<Part>)
    requires parts != [] && forall i :: 0 <= i < |parts| ==> CanWrite(parts[i])
    ensures CookiesIn(Pieces(Header(parts))) == Meant(parts)
    decreases |parts|
  {
    var first := Written(parts[0]);
    PartHasNoSemicolon(parts[0]);
    PartReads(parts[0]);
    if |parts| == 1 {
      PiecesHead(first, "");
      assert Meant(parts[1..]) == [];
    } else {
      PiecesHead(first, Header(parts[1..]));
      CookiesInSplits([first], Pieces(Header(parts[1..])));
      HeaderReadsBack(parts[1..]);
    }
  }
}
