/** Reading cookies from a file that holds a cURL command line or a bare Cookie
    header. Text is taken character by character; the scanner only ever compares
    ASCII. */
module CurlCookies {
  import opened Wrappers
  import opened Strings
  import opened Cookies

  // ----- the cURL scanner -------------------------------------------------

  predicate IsAsciiSpace(c: char) {
    c == ' ' || c == '\t' || c == '\n' || c == '\r' || c == '\U{C}'
  }

  function LowerChar(c: char): char {
    if 'A' <= c <= 'Z' then (c as int + 32) as char else c
  }

  function Lower(s: string): (r: string)
    ensures |r| == |s|
  {
    seq(|s|, i requires 0 <= i < |s| => LowerChar(s[i]))
  }

  function SkipSpace(h: string, j: nat): (r: nat)
    requires j <= |h|
    ensures j <= r <= |h| && (r < |h| ==> !IsAsciiSpace(h[r]))
    decreases |h| - j
  {
    if j < |h| && IsAsciiSpace(h[j]) then SkipSpace(h, j + 1) else j
  }

  function QuoteEnd(h: string, k: nat, quote: char): (r: nat)
    requires k <= |h|
    ensures k <= r <= |h| && (r < |h| ==> h[r] == quote)
    decreases |h| - k
  {
    if k < |h| && h[k] != quote then QuoteEnd(h, k + 1, quote) else k
  }

  /** The flag stands at `i` as a word of its own. */
  predicate FlagAt(h: string, flag: string, i: nat) {
    && i + |flag| < |h|
    && h[i..i + |flag|] == flag
    && (i > 0 ==> IsAsciiSpace(h[i - 1]))
    && IsAsciiSpace(h[i + |flag|])
  }

  predicate HeaderIs(value: string, header: string) {
    |header| < |value| && Lower(value)[..|header|] == Lower(header) && value[|header|] == ':'
  }

  /** The quoted value, without the expected header's name, if it carries that header. */
  function Stripped(value: string, header: Option<string>): Option<string> {
    match header
    case None => Some(value)
    case Some(name) => if HeaderIs(value, name) then Some(Trim(value[|name| + 1..])) else None
  }

  /** The value of the first quoted argument of the flag, at or after `i`, that
      carries the expected header. */
  function Found(h: string, flag: string, header: Option<string>, i: nat): Option<string>
    decreases |h| - i
  {
    if i + |flag| >= |h| then None
    else if !FlagAt(h, flag, i) then Found(h, flag, header, i + 1)
    else
      var j := SkipSpace(h, i + |flag|);
      if j == |h| then None
      else if h[j] != '\'' && h[j] != '"' then Found(h, flag, header, j)
      else
        var k := QuoteEnd(h, j + 1, h[j]);
        if k == |h| then None
        else
          var value := Stripped(h[j + 1..k], header);
          if value.Some? then value else Found(h, flag, header, k + 1)
  }

  /** match_quoted_arg. The index grows in every iteration. */
  method MatchQuotedArg(h: string, flag: string, header: Option<string>) returns (r: Option<string>)
    ensures r == Found(h, flag, header, 0)
  {
    var i := 0;
    while i + |flag| < |h|
      invariant Found(h, flag, header, i) == Found(h, flag, header, 0)
      decreases |h| - i
    {
      if h[i..i + |flag|] != flag || (i > 0 && !IsAsciiSpace(h[i - 1])) || !IsAsciiSpace(h[i + |flag|]) {
        assert !FlagAt(h, flag, i);
        i := i + 1;
        continue;
      }
      assert FlagAt(h, flag, i);
      var j := SkipSpace(h, i + |flag|);
      if j >= |h| {
        return None;
      }
      var quote := h[j];
      if quote != '\'' && quote != '"' {
        i := j;
        continue;
      }
      var k := QuoteEnd(h, j + 1, quote);
      if k >= |h| {
        return None;
      }
      var value := h[j + 1..k];
      var found := Stripped(value, header);
      if found.Some? {
        return found;
      }
      i := k + 1;
    }
    return None;
  }

  // ----- white space ------------------------------------------------------

  predicate IsQuote(c: char) { c == '\'' || c == '"' }

  predicate Spaces(s: string) {
    s != "" && forall i :: 0 <= i < |s| ==> IsAsciiSpace(s[i])
  }

  lemma {:induction false} SkipSpaceIs(h: string, p: nat, q: nat)
    requires p <= q <= |h| && (forall k :: p <= k < q ==> IsAsciiSpace(h[k])) && (q < |h| ==> !IsAsciiSpace(h[q]))
    ensures SkipSpace(h, p) == q
    decreases q - p
  {
    if p < q { SkipSpaceIs(h, p + 1, q); }
  }

  lemma {:induction false} SkipsOnlySpace(h: string, p: nat)
    requires p <= |h|
    ensures forall k :: p <= k < SkipSpace(h, p) ==> IsAsciiSpace(h[k])
    decreases |h| - p
  {
    if p < |h| && IsAsciiSpace(h[p]) { SkipsOnlySpace(h, p + 1); }
  }

  lemma {:induction false} QuoteEndIs(h: string, k: nat, end: nat, quote: char)
    requires k <= end < |h| && h[end] == quote && quote !in h[k..end]
    ensures QuoteEnd(h, k, quote) == end
    decreases end - k
  {
    if k < end {
      assert h[k..end][0] == h[k] && h[k..end][1..] == h[k + 1..end];
      QuoteEndIs(h, k + 1, end, quote);
    }
  }

  // ----- a command line with headers --------------------------------------

  /** -H as a word at `k`, and a quote after the white space behind it. */
  predicate QuotedFlag(h: string, k: nat) {
    FlagAt(h, "-H", k) && SkipSpace(h, k + 2) < |h| && IsQuote(h[SkipSpace(h, k + 2)])
  }

  /** Text without a quoted header argument. */
  predicate NoHeader(text: string) {
    forall k :: 0 <= k < |text| ==> !QuotedFlag(text, k)
  }

  /** A quoted argument: the white space before its flag and before its quote, the
      quote, and what stands between the quotes. */
  datatype Argument = Argument(before: string, gap: string, quote: char, text: string)

  predicate IsArgument(a: Argument) {
    Spaces(a.before) && Spaces(a.gap) && IsQuote(a.quote) && a.quote !in a.text
  }

  function HeaderArg(a: Argument): string {
    a.before + "-H" + a.gap + [a.quote] + a.text + [a.quote]
  }

  /** A header argument that is no cookie header, and the text after it. */
  datatype Stretch = Stretch(header: Argument, after: string)

  predicate Harmless(s: Stretch) {
    IsArgument(s.header) && !HeaderIs(s.header.text, "cookie") && NoHeader(s.after)
  }

  predicate AllHarmless(stretches: seq<Stretch>) {
    forall n :: 0 <= n < |stretches| ==> Harmless(stretches[n])
  }

  function Command(stretches: seq<Stretch>, tail: string): string {
    if stretches == [] then tail
    else HeaderArg(stretches[0].header) + (stretches[0].after + Command(stretches[1..], tail))
  }

  /** The scanner walks over text without the flag. */
  lemma {:induction false} PassesNoise(h: string, flag: string, header: Option<string>, i: nat, n: nat)
    requires flag != "" && forall k :: i <= k < i + n ==> !FlagAt(h, flag, k)
    ensures Found(h, flag, header, i) == Found(h, flag, header, i + n)
    decreases n
  {
    if n > 0 { PassesNoise(h, flag, header, i + 1, n - 1); }
  }

  lemma FlagChars(h: string, k: nat)
    requires FlagAt(h, "-H", k)
    ensures h[k] == '-' && h[k + 1] == 'H'
  {
    assert h[k..k + 2][0] == h[k] && h[k..k + 2][1] == h[k + 1];
  }

  /** White space holds no flag. */
  lemma NoFlagInSpace(h: string, k: nat)
    requires k < |h| && h[k] != '-'
    ensures !FlagAt(h, "-H", k)
  {
    if FlagAt(h, "-H", k) { FlagChars(h, k); }
  }

  /** A flag without a quote is passed like any other text. */
  lemma PassesUnquoted(h: string, k: nat)
    requires !QuotedFlag(h, k)
    ensures Found(h, "-H", Some("cookie"), k) == Found(h, "-H", Some("cookie"), k + 1)
  {
    if FlagAt(h, "-H", k) {
      FlagChars(h, k);
      var j := SkipSpace(h, k + 2);
      SkipsOnlySpace(h, k + 2);
      forall n | k + 1 <= n < j ensures !FlagAt(h, "-H", n) { NoFlagInSpace(h, n); }
      PassesNoise(h, "-H", Some("cookie"), k + 1, j - (k + 1));
    }
  }

  /** The value of a cookie header, or else whatever comes next. */
  function Taken(text: string, next: Option<string>): Option<string> {
    if HeaderIs(text, "cookie") then Some(Trim(text[7..])) else next
  }

  lemma TakenIsStripped(text: string)
    ensures Stripped(text, Some("cookie")).Some? <==> HeaderIs(text, "cookie")
    ensures HeaderIs(text, "cookie") ==> Stripped(text, Some("cookie")) == Some(Trim(text[7..]))
  {
  }

  lemma QuotedHeader(h: string, f: nat, j: nat, end: nat)
    requires FlagAt(h, "-H", f) && SkipSpace(h, f + 2) == j < end < |h| && IsQuote(h[j])
    requires QuoteEnd(h, j + 1, h[j]) == end
    ensures Found(h, "-H", Some("cookie"), f) == Taken(h[j + 1..end], Found(h, "-H", Some("cookie"), end + 1))
  {
    TakenIsStripped(h[j + 1..end]);
  }

  // ----- the parts of an argument -----------------------------------------

  /** The argument stands at `i`. */
  predicate ArgumentAt(h: string, i: nat, a: Argument) {
    && i + |HeaderArg(a)| <= |h| && h[i..i + |HeaderArg(a)|] == HeaderArg(a)
    && IsArgument(a)
  }

  /** Where the five parts of six pieces put together stand. */
  lemma PartsAt(s: string, a: string, f: string, g: string, q: char, t: string)
    requires s == a + f + g + [q] + t + [q]
    ensures var m := |a| + |f|; var n := m + |g|;
            && |s| == n + |t| + 2
            && s[..|a|] == a && s[|a|..m] == f && s[m..n] == g
            && s[n] == q && s[n + 1..n + 1 + |t|] == t && s[n + 1 + |t|] == q
  {
    assert s[..|a|] == a;
    assert s[|a|..|a| + |f|] == f;
  }

  lemma SliceMoves(h: string, i: nat, s: string, a: nat, b: nat)
    requires i + |s| <= |h| && h[i..i + |s|] == s && a <= b <= |s|
    ensures h[i + a..i + b] == s[a..b]
    ensures a < |s| ==> h[i + a] == s[a]
  {
    var x, y := s[a..b], h[i + a..i + b];
    assert forall k :: 0 <= k < |s| ==> s[k] == h[i + k];
    assert forall k :: 0 <= k < b - a ==> x[k] == h[i + (a + k)] && y[k] == h[(i + a) + k];
  }

  /** The white space of an argument, and where its value begins and ends. */
  lemma ArgumentParts(h: string, i: nat, a: Argument) returns (f: nat, j: nat, end: nat)
    requires ArgumentAt(h, i, a)
    ensures f == i + |a.before| && j == f + 2 + |a.gap| && end == j + 1 + |a.text|
    ensures i + |HeaderArg(a)| == end + 1 <= |h|
    ensures h[i..f] == a.before && h[f..f + 2] == "-H" && h[f + 2..j] == a.gap
    ensures h[j] == a.quote && h[j + 1..end] == a.text && h[end] == a.quote
  {
    var flag := "-H";
    assert |flag| == 2;
    PiecesAt(h, i, HeaderArg(a), a.before, flag, a.gap, a.quote, a.text);
    f, j, end := i + |a.before|, i + |a.before| + 2 + |a.gap|, i + |a.before| + 3 + |a.gap| + |a.text|;
  }

  /** The same parts where the text stands at `i` in `h`. */
  lemma PiecesAt(h: string, i: nat, s: string, a: string, f: string, g: string, q: char, t: string)
    requires s == a + f + g + [q] + t + [q] && i + |s| <= |h| && h[i..i + |s|] == s
    ensures var m := i + |a| + |f|; var n := m + |g|;
            && i + |s| == n + |t| + 2
            && h[i..i + |a|] == a && h[i + |a|..m] == f && h[m..n] == g
            && h[n] == q && h[n + 1..n + 1 + |t|] == t && h[n + 1 + |t|] == q
  {
    PartsAt(s, a, f, g, q, t);
    MovedParts(h, i, s, |a|, |a| + |f|, |a| + |f| + |g|);
  }

  lemma MovedParts(h: string, i: nat, s: string, a: nat, m: nat, n: nat)
    requires i + |s| <= |h| && h[i..i + |s|] == s && a <= m <= n < |s| - 1
    ensures h[i..i + a] == s[..a] && h[i + a..i + m] == s[a..m] && h[i + m..i + n] == s[m..n]
    ensures h[i + n] == s[n] && h[i + n + 1..i + |s| - 1] == s[n + 1..|s| - 1] && h[i + |s| - 1] == s[|s| - 1]
  {
    SliceMoves(h, i, s, 0, a);
    SliceMoves(h, i, s, a, m);
    SliceMoves(h, i, s, m, n);
    SliceMoves(h, i, s, n, n);
    SliceMoves(h, i, s, n + 1, |s| - 1);
    SliceMoves(h, i, s, |s| - 1, |s| - 1);
  }

  lemma SpacesAt(h: string, p: nat, q: nat)
    requires p <= q <= |h| && Spaces(h[p..q])
    ensures p < q && forall k :: p <= k < q ==> IsAsciiSpace(h[k])
  {
    assert forall k :: p <= k < q ==> h[p..q][k - p] == h[k];
  }

  /** The scanner at a header argument: it takes a cookie header and skips others. */
  lemma AtHeader(h: string, i: nat, a: Argument)
    requires ArgumentAt(h, i, a)
    ensures Found(h, "-H", Some("cookie"), i) == Taken(a.text, Found(h, "-H", Some("cookie"), i + |HeaderArg(a)|))
  {
    var f, j, end := ArgumentScan(h, i, a);
    PassesNoise(h, "-H", Some("cookie"), i, f - i);
    QuotedHeader(h, f, j, end);
  }

  /** What the scanner's helpers give on an argument. */
  lemma ArgumentScan(h: string, i: nat, a: Argument) returns (f: nat, j: nat, end: nat)
    requires ArgumentAt(h, i, a)
    ensures i <= f && FlagAt(h, "-H", f) && forall k :: i <= k < f ==> !FlagAt(h, "-H", k)
    ensures SkipSpace(h, f + 2) == j < end < |h| && IsQuote(h[j]) && QuoteEnd(h, j + 1, h[j]) == end
    ensures h[j + 1..end] == a.text && end + 1 == i + |HeaderArg(a)|
  {
    f, j, end := ArgumentParts(h, i, a);
    SpacesAt(h, i, f);
    SpacesAt(h, f + 2, j);
    forall k | i <= k < f ensures !FlagAt(h, "-H", k) { NoFlagInSpace(h, k); }
    SkipSpaceIs(h, f + 2, j);
    QuoteEndIs(h, j + 1, end, a.quote);
  }

  // ----- the scan as two rules --------------------------------------------

  type Scan = nat -> Option<string>

  ghost predicate Steps(scan: Scan, h: string) {
    forall k: nat {:trigger QuotedFlag(h, k)} :: !QuotedFlag(h, k) ==> scan(k) == scan(k + 1)
  }

  ghost predicate TakesHeaders(scan: Scan, h: string) {
    forall i: nat, a: Argument :: ArgumentAt(h, i, a) ==> scan(i) == Taken(a.text, scan(i + |HeaderArg(a)|))
  }

  ghost function CookieScan(h: string): Scan {
    (i: nat) => Found(h, "-H", Some("cookie"), i)
  }

  lemma FoundSteps(h: string)
    ensures Steps(CookieScan(h), h)
  {
    forall k: nat | !QuotedFlag(h, k) ensures CookieScan(h)(k) == CookieScan(h)(k + 1) { PassesUnquoted(h, k); }
  }

  lemma ScanAtHeader(h: string, i: nat, a: Argument)
    requires ArgumentAt(h, i, a)
    ensures CookieScan(h)(i) == Taken(a.text, CookieScan(h)(i + |HeaderArg(a)|))
  {
    AtHeader(h, i, a);
  }

  lemma FoundTakesHeaders(h: string)
    ensures TakesHeaders(CookieScan(h), h)
  {
    forall i: nat, a: Argument | ArgumentAt(h, i, a)
      ensures CookieScan(h)(i) == Taken(a.text, CookieScan(h)(i + |HeaderArg(a)|))
    {
      ScanAtHeader(h, i, a);
    }
  }

  lemma {:induction false} ScanPasses(scan: Scan, h: string, i: nat, n: nat)
    requires Steps(scan, h) && forall k :: i <= k < i + n ==> !QuotedFlag(h, k)
    ensures scan(i) == scan(i + n)
    decreases n
  {
    if n > 0 {
      assert !QuotedFlag(h, i);
      ScanPasses(scan, h, i + 1, n - 1);
    }
  }

  // ----- text between the headers -----------------------------------------

  /** What may follow such text: nothing, or white space and then no quote. */
  predicate Follows(more: string) {
    more == "" || (IsAsciiSpace(more[0]) && (SkipSpace(more, 0) < |more| ==> !IsQuote(more[SkipSpace(more, 0)])))
  }

  lemma SkipsBeyond(h: string, e: nat)
    requires e <= |h|
    ensures SkipSpace(h, e) == e + SkipSpace(h[e..], 0)
  {
    var more := h[e..];
    var n := SkipSpace(more, 0);
    SkipsOnlySpace(more, 0);
    assert forall k :: e <= k < e + n ==> h[k] == more[k - e];
    assert n < |more| ==> h[e + n] == more[n];
    SkipSpaceIs(h, e, e + n);
  }

  /** A quote found behind a flag in the text lies in the text itself. */
  lemma QuoteIsInside(h: string, e: nat, p: nat)
    requires p <= e <= |h| && Follows(h[e..]) && SkipSpace(h, p) < |h| && IsQuote(h[SkipSpace(h, p)])
    ensures SkipSpace(h, p) < e
  {
    var j := SkipSpace(h, p);
    SkipsOnlySpace(h, p);
    SkipsBeyond(h, e);
    if j >= e { SkipSpaceIs(h, e, j); }
  }

  lemma FlagIsInside(h: string, i: nat, text: string, k: nat)
    requires i <= k < i + |text| <= |h| && h[i..i + |text|] == text && Follows(h[i + |text|..]) && QuotedFlag(h, k)
    ensures QuotedFlag(text, k - i)
  {
    var e, n := i + |text|, k - i;
    var j := SkipSpace(h, k + 2);
    FlagChars(h, k);
    assert e < |h| ==> h[e..][0] == h[e];
    assert k + 2 <= e;
    QuoteIsInside(h, e, k + 2);
    SkipsOnlySpace(h, k + 2);
    assert forall m :: 0 <= m < |text| ==> text[m] == h[i + m];
    assert forall m :: n + 2 <= m < j - i ==> IsAsciiSpace(text[m]);
    SkipSpaceIs(text, n + 2, j - i);
    assert text[n] == h[k] && text[n + 1] == h[k + 1] && text[n + 2] == h[k + 2];
    assert n > 0 ==> text[n - 1] == h[k - 1];
    assert text[n..n + 2] == "-H";
  }

  /** The scan passes text without a quoted header. */
  lemma PassesText(scan: Scan, h: string, i: nat, text: string, more: string)
    requires Steps(scan, h) && NoHeader(text) && i <= |h| && h[i..] == text + more && Follows(more)
    ensures i + |text| <= |h| && h[i + |text|..] == more && scan(i) == scan(i + |text|)
  {
    assert h[i..i + |text|] == h[i..][..|text|] == text;
    assert h[i + |text|..] == h[i..][|text|..] == more;
    forall k | i <= k < i + |text| ensures !QuotedFlag(h, k) {
      if QuotedFlag(h, k) { FlagIsInside(h, i, text, k); }
    }
    ScanPasses(scan, h, i, |text|);
  }

  lemma HeaderFollows(a: Argument, rest: string)
    requires IsArgument(a)
    ensures Follows(HeaderArg(a) + rest)
  {
    var s := HeaderArg(a) + rest;
    assert s[..|HeaderArg(a)|] == HeaderArg(a);
    assert ArgumentAt(s, 0, a);
    var f, _, _ := ArgumentParts(s, 0, a);
    SpacesAt(s, 0, f);
    assert s[f] == s[f..f + 2][0] == '-';
    SkipSpaceIs(s, 0, f);
  }

  lemma CommandFollows(stretches: seq<Stretch>, tail: string)
    requires AllHarmless(stretches) && Follows(tail)
    ensures Follows(Command(stretches, tail))
  {
    if stretches != [] { HeaderFollows(stretches[0].header, stretches[0].after + Command(stretches[1..], tail)); }
  }

  lemma ArgumentStands(h: string, i: nat, a: Argument, more: string)
    requires i <= |h| && h[i..] == HeaderArg(a) + more && IsArgument(a)
    ensures ArgumentAt(h, i, a) && h[i + |HeaderArg(a)|..] == more
  {
    var n := |HeaderArg(a)|;
    assert h[i..i + n] == h[i..][..n] && h[i + n..] == h[i..][n..];
  }

  /** The scan passes every harmless stretch before the tail. */
  lemma {:induction false} PassesAll(scan: Scan, h: string, i: nat, stretches: seq<Stretch>, tail: string)
    requires Steps(scan, h) && TakesHeaders(scan, h) && AllHarmless(stretches) && Follows(tail)
    requires i <= |h| && h[i..] == Command(stretches, tail)
    ensures i <= |h| - |tail| && h[|h| - |tail|..] == tail && scan(i) == scan(|h| - |tail|)
    decreases |stretches|
  {
    if stretches != [] {
      CommandFollows(stretches[1..], tail);
      var next := PassesStretch(scan, h, i, stretches[0], Command(stretches[1..], tail));
      PassesAll(scan, h, next, stretches[1..], tail);
    }
  }

  lemma PassesStretch(scan: Scan, h: string, i: nat, s: Stretch, more: string) returns (next: nat)
    requires Steps(scan, h) && TakesHeaders(scan, h) && Harmless(s) && Follows(more)
    requires i <= |h| && h[i..] == HeaderArg(s.header) + (s.after + more)
    ensures i <= next <= |h| && h[next..] == more && scan(i) == scan(next)
  {
    ArgumentStands(h, i, s.header, s.after + more);
    var after := i + |HeaderArg(s.header)|;
    assert scan(i) == Taken(s.header.text, scan(after));
    PassesText(scan, h, after, s.after, more);
    next := after + |s.after|;
  }

  /** The scan of a whole command reaches its tail. */
  lemma ReachesTail(scan: Scan, h: string, lead: string, stretches: seq<Stretch>, tail: string)
    requires Steps(scan, h) && TakesHeaders(scan, h) && NoHeader(lead) && AllHarmless(stretches) && Follows(tail)
    requires h == lead + Command(stretches, tail)
    ensures |tail| <= |h| && h[|h| - |tail|..] == tail && scan(0) == scan(|h| - |tail|)
  {
    CommandFollows(stretches, tail);
    assert h[0..] == h;
    PassesText(scan, h, 0, lead, Command(stretches, tail));
    PassesAll(scan, h, |lead|, stretches, tail);
  }

  lemma ScanFindsHeader(scan: Scan, h: string, lead: string, stretches: seq<Stretch>, a: Argument, rest: string)
    requires Steps(scan, h) && TakesHeaders(scan, h) && NoHeader(lead) && AllHarmless(stretches)
    requires IsArgument(a) && HeaderIs(a.text, "cookie") && h == lead + Command(stretches, HeaderArg(a) + rest)
    ensures scan(0) == Some(Trim(a.text[7..]))
  {
    HeaderFollows(a, rest);
    ReachesTail(scan, h, lead, stretches, HeaderArg(a) + rest);
    var i: nat := |h| - |HeaderArg(a) + rest|;
    ArgumentStands(h, i, a, rest);
    assert scan(i) == Taken(a.text, scan(i + |HeaderArg(a)|));
  }

  /** After any text and headers without a quoted cookie header, the first quoted
      cookie header is found, wherever it stands and whatever follows it. */
  lemma HeaderIsFound(h: string, lead: string, stretches: seq<Stretch>, a: Argument, rest: string)
    requires NoHeader(lead) && AllHarmless(stretches)
    requires IsArgument(a) && HeaderIs(a.text, "cookie") && h == lead + Command(stretches, HeaderArg(a) + rest)
    ensures Found(h, "-H", Some("cookie"), 0) == Some(Trim(a.text[7..]))
  {
    FoundSteps(h);
    FoundTakesHeaders(h);
    assert CookieScan(h)(0) == Found(h, "-H", Some("cookie"), 0);
    ScanFindsHeader(CookieScan(h), h, lead, stretches, a, rest);
  }

  /** In a command whose quoted headers are all others, no cookie header is found. */
  lemma NoCookieHeader(h: string, lead: string, stretches: seq<Stretch>)
    requires NoHeader(lead) && AllHarmless(stretches) && h == lead + Command(stretches, "")
    ensures Found(h, "-H", Some("cookie"), 0) == None
  {
    FoundSteps(h);
    FoundTakesHeaders(h);
    var scan := CookieScan(h);
    ReachesTail(scan, h, lead, stretches, "");
    assert scan(0) == Found(h, "-H", Some("cookie"), 0);
    assert scan(|h|) == Found(h, "-H", Some("cookie"), |h|) == None;
    assert |h| - |""| == |h|;
  }

  /** No flag, no result. */
  lemma {:induction false} NothingFound(h: string, flag: string, header: Option<string>, i: nat)
    requires Flagless(h, flag)
    ensures Found(h, flag, header, i) == None
    decreases |h| - i
  {
    if i + |flag| < |h| { NothingFound(h, flag, header, i + 1); }
  }

  predicate Flagless(h: string, flag: string) {
    forall k: nat :: k <= |h| ==> !FlagAt(h, flag, k)
  }

  /** The first `flag` of the text stands at `i`; its argument is `value` in quotes. */
  predicate QuotedAt(h: string, flag: string, i: nat, quote: char, value: string) {
    && flag != ""
    && FlagAt(h, flag, i) && (forall k :: 0 <= k < i ==> !FlagAt(h, flag, k))
    && IsQuote(quote) && quote !in value && ValueAt(h, SkipSpace(h, i + |flag|), quote, value)
  }

  predicate ValueAt(h: string, j: nat, quote: char, value: string) {
    && j + 1 + |value| < |h|
    && h[j] == quote && h[j + 1..j + 1 + |value|] == value && h[j + 1 + |value|] == quote
  }

  /** The first quoted argument of a flag without header test is its result. */
  lemma FirstQuoted(h: string, flag: string, i: nat, quote: char, value: string)
    requires QuotedAt(h, flag, i, quote, value)
    ensures Found(h, flag, None, 0) == Some(value)
  {
    PassesNoise(h, flag, None, 0, i);
    QuotedValue(h, flag, i, quote, value);
  }

  lemma QuotedValue(h: string, flag: string, i: nat, quote: char, value: string)
    requires QuotedAt(h, flag, i, quote, value)
    ensures Found(h, flag, None, i) == Some(value)
  {
    var j := SkipSpace(h, i + |flag|);
    QuoteEndIs(h, j + 1, j + 1 + |value|, quote);
    FoundAtFlag(h, flag, i, j, j + 1 + |value|);
  }

  /** A quote that is never closed ends the search without a result. */
  lemma UnclosedQuoteEnds(h: string, flag: string, header: Option<string>, i: nat)
    requires flag != "" && FlagAt(h, flag, i) && forall k :: 0 <= k < i ==> !FlagAt(h, flag, k)
    requires SkipSpace(h, i + |flag|) < |h| && IsQuote(h[SkipSpace(h, i + |flag|)])
    requires h[SkipSpace(h, i + |flag|)] !in h[SkipSpace(h, i + |flag|) + 1..]
    ensures Found(h, flag, header, 0) == None
  {
    PassesNoise(h, flag, header, 0, i);
    var j := SkipSpace(h, i + |flag|);
    NoQuoteEnd(h, j + 1, h[j]);
  }

  lemma {:induction false} NoQuoteEnd(h: string, k: nat, quote: char)
    requires k <= |h| && quote !in h[k..]
    ensures QuoteEnd(h, k, quote) == |h|
    decreases |h| - k
  {
    if k < |h| {
      assert h[k..][0] == h[k] && h[k..][1..] == h[k + 1..];
      NoQuoteEnd(h, k + 1, quote);
    }
  }

  lemma FoundAtFlag(h: string, flag: string, i: nat, j: nat, end: nat)
    requires FlagAt(h, flag, i) && SkipSpace(h, i + |flag|) == j < end < |h| && IsQuote(h[j])
    requires QuoteEnd(h, j + 1, h[j]) == end
    ensures Found(h, flag, None, i) == Some(h[j + 1..end])
  {
  }

  // ----- the whole extraction ---------------------------------------------

  /** Every occurrence of `from`, left to right, replaced by a space. */
  function Replaced(s: string, from: string): string
    requires from != ""
    decreases |s|
  {
    if |s| < |from| then s
    else if s[..|from|] == from then " " + Replaced(s[|from|..], from)
    else [s[0]] + Replaced(s[1..], from)
  }

  /** The command with shell and cmd line continuations replaced. */
  function Joined(curl: string): string {
    Replaced(Replaced(Replaced(Replaced(curl, "\\\r\n"), "\\\n"), "^\r\n"), "^\n")
  }

  lemma {:induction false} ReplacedWithout(s: string, from: string)
    requires from != "" && from[|from| - 1] == '\n' && '\n' !in s
    ensures Replaced(s, from) == s
    decreases |s|
  {
    if |s| >= |from| {
      assert s[..|from|][|from| - 1] == s[|from| - 1];
      ReplacedWithout(s[1..], from);
    }
  }

  /** A command on one line is scanned as it stands. */
  lemma JoinedOneLine(curl: string)
    requires '\n' !in curl
    ensures Joined(curl) == curl
  {
    ReplacedWithout(curl, "\\\r\n");
    ReplacedWithout(curl, "\\\n");
    ReplacedWithout(curl, "^\r\n");
    ReplacedWithout(curl, "^\n");
  }

  // ----- line continuations -----------------------------------------------

  /** A stretch of a command without line breaks, and what ends it: a line break, or
      a space where a continuation has been replaced. */
  datatype Line = Line(text: string, broken: bool)

  function Laid(lines: seq<Line>, last: string): string {
    if lines == [] then last
    else lines[0].text + (if lines[0].broken then "\n" else " ") + Laid(lines[1..], last)
  }

  predicate OneLiners(lines: seq<Line>, last: string) {
    '\n' !in last && forall i :: 0 <= i < |lines| ==> '\n' !in lines[i].text
  }

  predicate EndsIn(text: string, mark: string) {
    |mark| <= |text| && text[|text| - |mark|..] == mark
  }

  /** The line after one pass: its mark and its line break have become a space. */
  function Passed(line: Line, mark: string): Line {
    if line.broken && EndsIn(line.text, mark) then Line(line.text[..|line.text| - |mark|], false) else line
  }

  function PassedAll(lines: seq<Line>, mark: string): seq<Line> {
    seq(|lines|, i requires 0 <= i < |lines| => Passed(lines[i], mark))
  }

  predicate IsMark(mark: string) {
    mark != "" && ' ' !in mark && '\n' !in mark
  }

  /** Nothing is replaced before the first line break. */
  lemma {:induction false} KeepsText(t: string, stop: char, rest: string, mark: string)
    requires IsMark(mark) && '\n' !in t && (stop == ' ' || (stop == '\n' && !EndsIn(t, mark)))
    ensures Replaced(t + [stop] + rest, mark + "\n") == t + [stop] + Replaced(rest, mark + "\n")
    decreases |t|
  {
    var s, from := t + [stop] + rest, mark + "\n";
    NoMatchHere(t, stop, rest, mark);
    if t == "" {
      assert s[1..] == rest && s[0] == stop;
      ReplacedSteps(s, from);
      assert "" + [stop] == [stop];
    } else {
      assert s[1..] == t[1..] + [stop] + rest && s[0] == t[0];
      ReplacedSteps(s, from);
      EndsInTail(t, mark);
      KeepsText(t[1..], stop, rest, mark);
      assert [t[0]] + (t[1..] + [stop] + Replaced(rest, from)) == t + [stop] + Replaced(rest, from);
    }
  }

  lemma EndsInTail(t: string, mark: string)
    requires t != ""
    ensures EndsIn(t[1..], mark) ==> EndsIn(t, mark)
  {
    if EndsIn(t[1..], mark) { assert t[1..][|t| - 1 - |mark|..] == t[|t| - |mark|..]; }
  }

  lemma DiffersAt(a: string, b: string, i: nat)
    requires i < |a| && (i >= |b| || a[i] != b[i])
    ensures !(a <= b)
  {
  }

  lemma {:induction false} DifferSomewhere(a: string, b: string) returns (i: nat)
    requires |a| == |b| && a != b
    ensures i < |a| && a[i] != b[i]
    decreases |a|
  {
    if a[0] != b[0] {
      i := 0;
    } else {
      assert a == [a[0]] + a[1..] && b == [b[0]] + b[1..];
      i := DifferSomewhere(a[1..], b[1..]);
      i := i + 1;
    }
  }

  lemma ReplacedSteps(s: string, from: string)
    requires from != "" && s != "" && !(from <= s)
    ensures Replaced(s, from) == [s[0]] + Replaced(s[1..], from)
  {
    if |s| < |from| {
      assert s == [s[0]] + s[1..];
    } else {
      assert s[..|from|] != from;
    }
  }

  lemma NoMatchHere(t: string, stop: char, rest: string, mark: string)
    requires IsMark(mark) && '\n' !in t && (stop == ' ' || (stop == '\n' && !EndsIn(t, mark)))
    ensures !(mark + "\n" <= t + [stop] + rest)
  {
    var s, from, m := t + [stop] + rest, mark + "\n", |mark|;
    assert from[m] == '\n' && s[|t|] == stop;
    if m < |t| || (m == |t| && stop == ' ') {
      DiffersAt(from, s, m);
    } else if m > |t| {
      assert from[|t|] == mark[|t|];
      DiffersAt(from, s, |t|);
    } else {
      assert t[0..] == t;
      var i := DifferSomewhere(t, mark);
      DiffersAt(from, s, i);
    }
  }

  /** At a continuation the mark and the line break become one space. */
  lemma {:induction false} ReplacesMark(t: string, rest: string, mark: string)
    requires IsMark(mark) && '\n' !in t && EndsIn(t, mark)
    ensures Replaced(t + "\n" + rest, mark + "\n") == t[..|t| - |mark|] + " " + Replaced(rest, mark + "\n")
    decreases |t|
  {
    var s, from := t + "\n" + rest, mark + "\n";
    if |t| == |mark| {
      assert t == mark;
      assert s[..|from|] == from && s[|from|..] == rest;
      assert t[..0] == "" && "" + " " == " ";
    } else {
      NoMatchYet(t, rest, mark);
      ReplacedSteps(s, from);
      assert s[1..] == t[1..] + "\n" + rest && s[0] == t[0];
      FirstApart(t, |t| - |mark|, Replaced(rest, from));
      ReplacesMark(t[1..], rest, mark);
    }
  }

  lemma FirstApart(t: string, n: nat, tail: string)
    requires 0 < n <= |t|
    ensures t[1..][n - 1..] == t[n..] && [t[0]] + (t[1..][..n - 1] + " " + tail) == t[..n] + " " + tail
  {
    assert [t[0]] + t[1..][..n - 1] == t[..n];
  }

  lemma NoMatchYet(t: string, rest: string, mark: string)
    requires '\n' !in t && |mark| < |t|
    ensures !(mark + "\n" <= t + "\n" + rest)
  {
    var s, from, m := t + "\n" + rest, mark + "\n", |mark|;
    assert from[m] == '\n' && s[m] == t[m];
  }

  lemma LaidPasses(line: Line, rest: string, mark: string)
    requires IsMark(mark) && '\n' !in line.text
    ensures var next := Passed(line, mark);
            Replaced(line.text + (if line.broken then "\n" else " ") + rest, mark + "\n")
              == next.text + (if next.broken then "\n" else " ") + Replaced(rest, mark + "\n")
  {
    if line.broken && EndsIn(line.text, mark) {
      ReplacesMark(line.text, rest, mark);
    } else {
      KeepsText(line.text, if line.broken then '\n' else ' ', rest, mark);
    }
  }

  /** One pass over a laid-out command replaces exactly the continuations with its
      mark. */
  lemma {:induction false} PassReplaces(lines: seq<Line>, last: string, mark: string)
    requires IsMark(mark) && OneLiners(lines, last)
    ensures Replaced(Laid(lines, last), mark + "\n") == Laid(PassedAll(lines, mark), last)
    ensures OneLiners(PassedAll(lines, mark), last)
    decreases |lines|
  {
    if lines == [] {
      assert (mark + "\n")[|mark|] == '\n';
      ReplacedWithout(last, mark + "\n");
    } else {
      PassReplaces(lines[1..], last, mark);
      LaidPasses(lines[0], Laid(lines[1..], last), mark);
      assert PassedAll(lines, mark)[1..] == PassedAll(lines[1..], mark);
      assert forall i :: 1 <= i < |lines| ==> PassedAll(lines, mark)[i] == PassedAll(lines[1..], mark)[i - 1];
    }
  }

  /** How a line ends. */
  datatype Ending = BashCrLf | Bash | CmdCrLf | Cmd

  function Mark(e: Ending): string {
    match e
    case BashCrLf => "\\\r"
    case Bash => "\\"
    case CmdCrLf => "^\r"
    case Cmd => "^"
  }

  /** Lines that all end in a continuation. */
  function Continued(texts: seq<string>, endings: seq<Ending>): seq<Line>
    requires |endings| == |texts|
  {
    seq(|texts|, i requires 0 <= i < |texts| => Line(texts[i] + Mark(endings[i]), true))
  }

  function Spaced(texts: seq<string>): seq<Line> {
    seq(|texts|, i requires 0 <= i < |texts| => Line(texts[i], false))
  }

  lemma LastTwo(text: string, mark: string)
    requires mark != ""
    ensures EndsIn(text + mark, mark) && (text + mark)[..|text|] == text
    ensures (text + mark)[|text + mark| - 1] == mark[|mark| - 1]
  {
  }

  lemma EndsInLast(text: string, mark: string)
    requires mark != "" && EndsIn(text, mark)
    ensures text != "" && text[|text| - 1] == mark[|mark| - 1]
    ensures |mark| == 2 ==> |text| >= 2 && text[|text| - 2] == mark[0]
  {
    var tail := text[|text| - |mark|..];
    assert tail[|mark| - 1] == text[|text| - 1];
    assert |mark| == 2 ==> tail[0] == text[|text| - 2];
  }

  /** A line that ends in one of the four marks ends in no other. */
  lemma OnlyOwnMark(text: string, e: Ending, f: Ending)
    requires e != f
    ensures !EndsIn(text + Mark(e), Mark(f))
  {
    var full := text + Mark(e);
    assert full[|full| - 1] == Mark(e)[|Mark(e)| - 1];
    assert |Mark(e)| == 2 ==> full[|full| - 2] == Mark(e)[0];
    if EndsIn(full, Mark(f)) { EndsInLast(full, Mark(f)); }
  }

  function OnePass(line: Line, f: Ending): Line { Passed(line, Mark(f)) }

  /** A pass changes a line exactly when it ends in the mark of that pass. */
  lemma OnePassIs(text: string, e: Ending, f: Ending)
    ensures OnePass(Line(text + Mark(e), true), f) == if e == f then Line(text, false) else Line(text + Mark(e), true)
    ensures OnePass(Line(text, false), f) == Line(text, false)
  {
    if e == f { LastTwo(text, Mark(e)); } else { OnlyOwnMark(text, e, f); }
  }

  /** The passes in their order find the mark that ends the line. */
  lemma FourPasses(text: string, e: Ending)
    ensures OnePass(OnePass(OnePass(OnePass(Line(text + Mark(e), true), BashCrLf), Bash), CmdCrLf), Cmd)
         == Line(text, false)
  {
    OnePassIs(text, e, BashCrLf);
    OnePassIs(text, e, Bash);
    OnePassIs(text, e, CmdCrLf);
    OnePassIs(text, e, Cmd);
  }

  lemma ContinuedIsLaid(texts: seq<string>, endings: seq<Ending>, last: string)
    requires |endings| == |texts| && '\n' !in last && forall i :: 0 <= i < |texts| ==> '\n' !in texts[i]
    ensures OneLiners(Continued(texts, endings), last)
  {
  }

  /** Whatever lines a command is laid out on with continuations of the shell or of
      cmd, it is scanned as one line with a space for each continuation. */
  lemma ContinuationsAreSpaces(texts: seq<string>, endings: seq<Ending>, last: string)
    requires |endings| == |texts| && '\n' !in last && forall i :: 0 <= i < |texts| ==> '\n' !in texts[i]
    ensures Joined(Laid(Continued(texts, endings), last)) == Laid(Spaced(texts), last)
  {
    var l0 := Continued(texts, endings);
    ContinuedIsLaid(texts, endings, last);
    var l1 := PassedAll(l0, "\\\r");
    var l2 := PassedAll(l1, "\\");
    var l3 := PassedAll(l2, "^\r");
    var l4 := PassedAll(l3, "^");
    PassReplaces(l0, last, "\\\r");
    PassReplaces(l1, last, "\\");
    PassReplaces(l2, last, "^\r");
    PassReplaces(l3, last, "^");
    MarksAre();
    forall i | 0 <= i < |texts| ensures l4[i] == Line(texts[i], false) { FourPasses(texts[i], endings[i]); }
    assert l4 == Spaced(texts);
  }

  lemma MarksAre()
    ensures "\\\r" + "\n" == "\\\r\n" && "\\" + "\n" == "\\\n" && "^\r" + "\n" == "^\r\n" && "^" + "\n" == "^\n"
  {
  }

  // ----- extraction -------------------------------------------------------

  /** extract_cookie_header_from_curl. */
  function CookieHeaderOf(curl: string): Option<string> {
    var joined := Joined(curl);
    var h := Found(joined, "-H", Some("cookie"), 0);
    if h.Some? then h
    else
      var b := Found(joined, "-b", None, 0);
      if b.Some? then b else Found(joined, "--cookie", None, 0)
  }

  /** When no quoted -H carries a cookie header, the first -b, if its argument is
      quoted, is the header; without -b the first --cookie; without both none. */
  lemma FallbackFlags(curl: string, lead: string, stretches: seq<Stretch>, i: nat, quote: char, value: string)
    requires NoHeader(lead) && AllHarmless(stretches) && Joined(curl) == lead + Command(stretches, "")
    ensures QuotedAt(Joined(curl), "-b", i, quote, value) ==> CookieHeaderOf(curl) == Some(value)
    ensures Flagless(Joined(curl), "-b") && QuotedAt(Joined(curl), "--cookie", i, quote, value) ==>
              CookieHeaderOf(curl) == Some(value)
    ensures Flagless(Joined(curl), "-b") && Flagless(Joined(curl), "--cookie") ==> CookieHeaderOf(curl) == None
  {
    var h := Joined(curl);
    NoCookieHeader(h, lead, stretches);
    if QuotedAt(h, "-b", i, quote, value) { FirstQuoted(h, "-b", i, quote, value); }
    if Flagless(h, "-b") { NothingFound(h, "-b", None, 0); }
    if QuotedAt(h, "--cookie", i, quote, value) { FirstQuoted(h, "--cookie", i, quote, value); }
    if Flagless(h, "--cookie") { NothingFound(h, "--cookie", None, 0); }
  }

  // ----- the cookies file -------------------------------------------------

  /** The test for a cURL command. */
  predicate LooksLikeCurl(text: string) {
    |text| > 4 && Lower(text[..4]) == "curl" && (IsWhitespace(text[4]) || IsQuote(text[4]))
  }

  /** The test, letter by letter. */
  lemma LooksLikeCurlSpelled(text: string)
    ensures LooksLikeCurl(text) <==>
              && |text| > 4
              && (text[0] == 'c' || text[0] == 'C') && (text[1] == 'u' || text[1] == 'U')
              && (text[2] == 'r' || text[2] == 'R') && (text[3] == 'l' || text[3] == 'L')
              && (IsWhitespace(text[4]) || text[4] == '\'' || text[4] == '"')
  {
    if |text| > 4 {
      var head := Lower(text[..4]);
      assert forall i :: 0 <= i < 4 ==> head[i] == LowerChar(text[i]);
      assert head == [head[0], head[1], head[2], head[3]];
      assert "curl" == ['c', 'u', 'r', 'l'];
    }
  }

  /** The name of the cookie header may be in any mixture of cases. */
  lemma CookieInAnyCase()
    ensures Lower("cookie") == "cookie" && Lower("Cookie") == "cookie" && Lower("COOKIE") == "cookie"
  {
  }

  function HeaderCookies(header: string): Result<seq<Cookie>, string> {
    var cookies := CookiesIn(Pieces(header));
    if cookies == [] then Failure("no cookies found in input") else Success(cookies)
  }

  /** parse_curl_cookies; `json` reads the array form. */
  method ParseCurlCookies(raw: string, json: string -> Result<seq<Cookie>, string>)
    returns (r: Result<seq<Cookie>, string>)
    ensures r == CookiesOf(raw, json)
    ensures Blank(raw) ==> r == Failure("cookies file is empty")
    ensures Trim(raw) != "" && Trim(raw)[0] == '[' ==> r == json(Trim(raw))
  {
    var trimmed := Trim(raw);
    BlankTrims(raw);
    if trimmed == "" {
      return Failure("cookies file is empty");
    }
    if trimmed[0] == '[' {
      return json(trimmed);
    }
    var header := trimmed;
    if LooksLikeCurl(trimmed) {
      var found := CookieHeaderOf(trimmed);
      if found.None? {
        return Failure(NO_COOKIE_HEADER);
      }
      header := found.value;
    }
    r := ParseCookieHeader(header);
  }

  const NO_COOKIE_HEADER := "no Cookie header found in this cURL - right-click an authenticated request in DevTools"
    + " \U{2192} Network \U{2192} Copy \U{2192} Copy as cURL"

  function CookiesOf(raw: string, json: string -> Result<seq<Cookie>, string>): Result<seq<Cookie>, string> {
    var trimmed := Trim(raw);
    if trimmed == "" then Failure("cookies file is empty")
    else if trimmed[0] == '[' then json(trimmed)
    else if !LooksLikeCurl(trimmed) then HeaderCookies(trimmed)
    else match CookieHeaderOf(trimmed)
      case None => Failure(NO_COOKIE_HEADER)
      case Some(header) => HeaderCookies(header)
  }

  // ----- round trips ------------------------------------------------------

  lemma LowerPrefix(name: string, more: string)
    ensures Lower(name + more)[..|name|] == Lower(name)
  {
  }

  /** A cookie header in any mixture of cases. */
  lemma CookieHeaderText(name: string, s: string)
    requires Lower(name) == "cookie"
    ensures var text := name + ": " + s; HeaderIs(text, "cookie") && text[7..] == " " + s
  {
    var text := name + ": " + s;
    assert text == name + (": " + s);
    LowerPrefix(name, ": " + s);
    assert |name| == |"cookie"| == 6;
    assert Lower("cookie") == "cookie";
    assert text[6] == ':';
  }

  /** A quoted -H argument with a cookie header that sends `s`. */
  predicate SendsCookies(a: Argument, name: string, s: string) {
    IsArgument(a) && Lower(name) == "cookie" && a.text == name + ": " + s
  }

  lemma CookieHeaderFound(
    curl: string, lead: string, stretches: seq<Stretch>, a: Argument, name: string, s: string, rest: string)
    requires NoHeader(lead) && AllHarmless(stretches) && SendsCookies(a, name, s)
    requires curl == lead + Command(stretches, HeaderArg(a) + rest)
    ensures Found(curl, "-H", Some("cookie"), 0) == Some(Trim(" " + s))
  {
    CookieHeaderText(name, s);
    HeaderIsFound(curl, lead, stretches, a, rest);
  }

  predicate CookiePairs(cookies: seq<Cookie>) {
    cookies != [] && forall i :: 0 <= i < |cookies| ==> IsCookiePair(cookies[i])
  }

  lemma CookieStringReads(cookies: seq<Cookie>)
    requires CookiePairs(cookies)
    ensures HeaderCookies(CookieString(cookies)) == Success(cookies)
  {
    CookieStringPieces(cookies);
  }

  /** From a cURL command to the cookies: for every list of cookies in the form of
      section 4.2.1 of RFC 6265 that does not contain the quote, sent in the first
      quoted -H 'cookie: ...' argument of a command, that header is extracted and
      parses to that list. Line continuations may stand anywhere around it. */
  lemma CurlRoundTrip(
    curl: string, lead: string, stretches: seq<Stretch>, a: Argument, name: string, cookies: seq<Cookie>, rest: string)
    requires NoHeader(lead) && AllHarmless(stretches)
    requires CookiePairs(cookies) && SendsCookies(a, name, CookieString(cookies))
    requires Joined(curl) == lead + Command(stretches, HeaderArg(a) + rest)
    ensures CookieHeaderOf(curl) == Some(CookieString(cookies))
    ensures HeaderCookies(CookieString(cookies)) == Success(cookies)
  {
    CookieHeaderFound(Joined(curl), lead, stretches, a, name, CookieString(cookies), rest);
    CookieStringIsTrim(cookies);
    CookieStringReads(cookies);
  }

  /** The same for a whole cookies file. */
  lemma FileRoundTrip(
    raw: string, json: string -> Result<seq<Cookie>, string>, lead: string, stretches: seq<Stretch>, a: Argument,
    name: string, cookies: seq<Cookie>, rest: string)
    requires NoHeader(lead) && AllHarmless(stretches)
    requires CookiePairs(cookies) && SendsCookies(a, name, CookieString(cookies))
    requires LooksLikeCurl(Trim(raw)) && Joined(Trim(raw)) == lead + Command(stretches, HeaderArg(a) + rest)
    ensures CookiesOf(raw, json) == Success(cookies)
  {
    CurlRoundTrip(Trim(raw), lead, stretches, a, name, cookies, rest);
    CurlIsNoArray(Trim(raw));
  }

  lemma CurlIsNoArray(text: string)
    requires LooksLikeCurl(text)
    ensures text != "" && text[0] != '['
  {
    assert Lower(text[..4])[0] == LowerChar(text[0]) == 'c';
  }

  lemma CurlStarts(lead: string, more: string)
    requires LooksLikeCurl(lead)
    ensures LooksLikeCurl(lead + more) && !IsWhitespace(lead[0])
  {
    assert (lead + more)[..4] == lead[..4];
    assert Lower(lead[..4])[0] == LowerChar(lead[0]) == 'c';
  }

  lemma BareIsTrim(s: string)
    requires Bare(s)
    ensures Trim(s) == s
  {
  }

  lemma {:induction false} CommandEnds(stretches: seq<Stretch>, tail: string)
    requires tail != ""
    ensures var c := Command(stretches, tail); c != "" && c[|c| - 1] == tail[|tail| - 1]
    decreases |stretches|
  {
    if stretches != [] { CommandEnds(stretches[1..], tail); }
  }

  /** In particular a command on one line that ends with the cookie header. */
  lemma OneLineRoundTrip(
    json: string -> Result<seq<Cookie>, string>, lead: string, stretches: seq<Stretch>, a: Argument, name: string,
    cookies: seq<Cookie>, raw: string)
    requires LooksLikeCurl(lead) && NoHeader(lead) && AllHarmless(stretches)
    requires CookiePairs(cookies) && SendsCookies(a, name, CookieString(cookies))
    requires raw == lead + Command(stretches, HeaderArg(a)) && '\n' !in raw
    ensures CookiesOf(raw, json) == Success(cookies)
  {
    var tail := HeaderArg(a);
    assert tail + "" == tail;
    CurlStarts(lead, Command(stretches, tail));
    assert tail[|tail| - 1] == a.quote;
    CommandEnds(stretches, tail);
    BareIsTrim(raw);
    JoinedOneLine(raw);
    FileRoundTrip(raw, json, lead, stretches, a, name, cookies, "");
  }

  lemma Assembled(raw: string, lead: string, flag: string, a: Argument)
    requires flag == "-H" && a.before == " " && a.gap == " " && |raw| == |lead| + |a.text| + 6
    requires raw[..|lead|] == lead && raw[|lead|] == ' '
    requires raw[|lead| + 1..|lead| + 3] == flag && raw[|lead| + 3] == ' '
    requires raw[|lead| + 4] == a.quote && raw[|lead| + 5..|raw| - 1] == a.text && raw[|raw| - 1] == a.quote
    ensures raw == lead + HeaderArg(a)
  {
    assert raw == lead + a.before + flag + a.gap + [a.quote] + a.text + [a.quote];
  }

  lemma ExampleText(raw: string, lead: string, a: Argument)
    requires raw == "curl 'u' -H 'cookie: a=b'" && lead == "curl 'u'"
    requires a == Argument(" ", " ", '\'', "cookie: a=b")
    ensures raw == lead + HeaderArg(a) && '\n' !in raw && IsArgument(a)
  {
    ExampleSlices(raw, lead, a.text);
    Assembled(raw, lead, "-H", a);
    assert forall i :: 0 <= i < |raw| ==> raw[i] != '\n';
  }

  lemma ExampleSlices(raw: string, lead: string, text: string)
    requires raw == "curl 'u' -H 'cookie: a=b'" && lead == "curl 'u'" && text == "cookie: a=b"
    ensures |raw| == 25 && |lead| == 8 && |text| == 11
    ensures raw[..8] == lead && raw[9..11] == "-H" && raw[13..24] == text
    ensures raw[8] == raw[11] == ' ' && raw[12] == raw[24] == '\'' && '\'' !in text
  {
    assert raw[..8] == lead;
    assert raw[9..11] == "-H";
    assert raw[13..24] == text;
  }

  lemma ExampleCookies(cookies: seq<Cookie>)
    requires cookies == [Cookie("a", "b")]
    ensures CookiePairs(cookies) && CookieString(cookies) == "a=b"
  {
    LettersAndQuote('a');
    assert AllOctets("b");
    assert Pair(cookies[0]) == "a=b";
  }

  lemma ExampleLead(lead: string)
    requires lead == "curl 'u'"
    ensures NoHeader(lead) && LooksLikeCurl(lead) && Lower("cookie") == "cookie"
  {
    forall k | 0 <= k < |lead| ensures !QuotedFlag(lead, k) { NoFlagInSpace(lead, k); }
    assert lead[..4] == "curl";
  }

  /** The smallest such command. */
  lemma SmallestCommand(json: string -> Result<seq<Cookie>, string>, raw: string)
    requires raw == "curl 'u' -H 'cookie: a=b'"
    ensures CookiesOf(raw, json) == Success([Cookie("a", "b")])
  {
    var lead, cookies, a := "curl 'u'", [Cookie("a", "b")], Argument(" ", " ", '\'', "cookie: a=b");
    ExampleText(raw, lead, a);
    ExampleCookies(cookies);
    assert "cookie" + ": " + "a=b" == a.text;
    ExampleLead(lead);
    OneLineRoundTrip(json, lead, [], a, "cookie", cookies, raw);
  }

  // ----- a bare header ----------------------------------------------------

  /** White space stands only behind a semicolon, and there is no line break. */
  predicate SpacedBySemicolons(s: string) {
    forall i :: 0 <= i < |s| && IsAsciiSpace(s[i]) ==> s[i] == ' ' && i > 0 && s[i - 1] == ';'
  }

  lemma JoinKeepsSpacing(a: string, b: string)
    requires Solid(a) && SpacedBySemicolons(b)
    ensures SpacedBySemicolons(a + [';'] + (" " + b))
  {
    var s := a + [';'] + (" " + b);
    var m := |a| + 2;
    assert forall i :: 0 <= i < |a| ==> s[i] == a[i];
    assert forall i :: m <= i < |s| ==> s[i] == b[i - m];
    assert s[|a|] == ';' && s[|a| + 1] == ' ';
  }

  lemma {:induction false} CookieStringSpacing(cookies: seq<Cookie>)
    requires CookiePairs(cookies)
    ensures SpacedBySemicolons(CookieString(cookies))
    decreases |cookies|
  {
    PairIsSolid(cookies[0]);
    assert Solid(Pair(cookies[0]));
    if |cookies| > 1 {
      CookieStringSpacing(cookies[1..]);
      JoinKeepsSpacing(Pair(cookies[0]), CookieString(cookies[1..]));
    }
  }

  lemma SpacingHoldsNoFlag(h: string, flag: string)
    requires SpacedBySemicolons(h) && flag != "" && flag[|flag| - 1] != ';'
    ensures Flagless(h, flag)
  {
    forall k: nat | k <= |h| ensures !FlagAt(h, flag, k) {
      var last := k + |flag| - 1;
      assert last < |h| && h[k..last + 1] == flag ==> h[last] == flag[|flag| - 1];
      assert last + 1 < |h| && IsAsciiSpace(h[last + 1]) ==> h[last] == ';';
    }
  }

  /** The scanner finds nothing in a bare cookie-string. */
  lemma BareHeaderHoldsNone(cookies: seq<Cookie>)
    requires CookiePairs(cookies)
    ensures CookieHeaderOf(CookieString(cookies)) == None
  {
    var s := CookieString(cookies);
    CookieStringSpacing(cookies);
    assert '\n' !in s;
    JoinedOneLine(s);
    SpacingHoldsNoFlag(s, "-H");
    SpacingHoldsNoFlag(s, "-b");
    SpacingHoldsNoFlag(s, "--cookie");
    assert s == s + Command([], "");
    FallbackFlags(s, s, [], 0, '"', "");
  }

  /** The cookie-string starts with the first cookie's name and an equals sign. */
  lemma CookieStringStarts(cookies: seq<Cookie>)
    requires CookiePairs(cookies)
    ensures var s := CookieString(cookies); var n := |cookies[0].name|;
            |s| > n && s[..n] == cookies[0].name && s[n] == '='
  {
    var p := Pair(cookies[0]);
    assert p <= CookieString(cookies);
    assert p[..|cookies[0].name|] == cookies[0].name;
  }

  predicate NamedLikeCurl(name: string) {
    |name| > 4 && Lower(name[..4]) == "curl" && name[4] == '\''
  }

  /** A cookie-string is taken for a command exactly when its first name is curl and
      a single quote, which section 4.2.1 of RFC 6265 allows in names. */
  lemma LooksLikeCurlIff(cookies: seq<Cookie>)
    requires CookiePairs(cookies)
    ensures LooksLikeCurl(CookieString(cookies)) <==> NamedLikeCurl(cookies[0].name)
  {
    var s, name := CookieString(cookies), cookies[0].name;
    CookieStringStarts(cookies);
    PairIsSolid(cookies[0]);
    assert |name| >= 4 ==> s[..4] == name[..4];
    assert |name| < 4 && |s| > 4 ==> Lower(s[..4])[|name|] == '=' && "curl"[|name|] != '=';
    assert |name| > 4 ==> s[4] == name[4] && IsTokenChar(name[4]);
  }

  /** A file that holds just a cookie-string reads back if and only if its first
      cookie's name does not start with curl and a single quote, in any case. */
  lemma BareHeaderReadsBackIff(cookies: seq<Cookie>, json: string -> Result<seq<Cookie>, string>)
    requires CookiePairs(cookies)
    ensures CookiesOf(CookieString(cookies), json) == Success(cookies) <==> !NamedLikeCurl(cookies[0].name)
    ensures NamedLikeCurl(cookies[0].name) ==> CookiesOf(CookieString(cookies), json) == Failure(NO_COOKIE_HEADER)
  {
    var s := CookieString(cookies);
    TrimCookieString(cookies);
    assert Trim(s) == s;
    CookieStringStarts(cookies);
    assert s[0] == cookies[0].name[0] && IsTokenChar(s[0]);
    LooksLikeCurlIff(cookies);
    CookieStringReads(cookies);
    BareHeaderHoldsNone(cookies);
  }

  lemma LettersAndQuote(c: char)
    requires 'a' <= c <= 'z' || c == '\''
    ensures IsTokenChar(c)
  {
  }

  lemma NameIsAllowed(name: string)
    requires name == "curl'"
    ensures NamedLikeCurl(name) && forall i :: 0 <= i < |name| ==> IsTokenChar(name[i])
  {
    forall i | 0 <= i < |name| ensures IsTokenChar(name[i]) { LettersAndQuote(name[i]); }
    assert name[..4] == "curl";
    assert Lower("curl") == "curl";
  }

  /** Such a file: a cookie with just that name. */
  lemma RefusedHeader(json: string -> Result<seq<Cookie>, string>)
    ensures CookiesOf(CookieString([Cookie("curl'", "")]), json) == Failure(NO_COOKIE_HEADER)
  {
    var cookies := [Cookie("curl'", "")];
    NameIsAllowed(cookies[0].name);
    assert CookiePairs(cookies);
    BareHeaderReadsBackIff(cookies, json);
  }
}
