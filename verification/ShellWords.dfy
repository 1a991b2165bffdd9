/** Splitting a command string into words under shell-like quoting. */
module ShellWords {
  /** The scanner's state: finished words, the word being built, and whether it
      stands inside double or single quotes. */
  datatype Scan = Scan(words: seq<string>, current: string, inDouble: bool, inSingle: bool)

  const START := Scan([], "", false, false)

  function Flush(s: Scan): Scan {
    if s.current == "" then s else s.(words := s.words + [s.current], current := "")
  }

  /** How many characters the scanner takes at once: a backslash outside single
      quotes takes the next character with it. */
  function Bite(s: Scan, text: string): (n: nat)
    requires text != ""
    ensures 1 <= n <= |text|
  {
    if text[0] == '\\' && !s.inSingle && |text| > 1 then 2 else 1
  }

  function Advance(s: Scan, text: string): Scan
    requires text != ""
  {
    var c := text[0];
    if c == '\\' && !s.inSingle then (if |text| > 1 then s.(current := s.current + [text[1]]) else s)
    else if c == '"' && !s.inSingle then s.(inDouble := !s.inDouble)
    else if c == '\'' && !s.inDouble then s.(inSingle := !s.inSingle)
    else if c == ' ' && !s.inDouble && !s.inSingle then Flush(s)
    else s.(current := s.current + [c])
  }

  function Run(s: Scan, text: string): Scan
    decreases |text|
  {
    if text == "" then s else Run(Advance(s, text), text[Bite(s, text)..])
  }

  function Split(text: string): seq<string> {
    Flush(Run(START, text)).words
  }

  /** shell_words_split. */
  method ShellWordsSplit(text: string) returns (args: seq<string>)
    ensures args == Split(text)
  {
    args := [];
    var current := "";
    var inDouble, inSingle := false, false;
    var i := 0;
    assert text[0..] == text;
    while i < |text|
      invariant 0 <= i <= |text|
      invariant Run(Scan(args, current, inDouble, inSingle), text[i..]) == Run(START, text)
    {
      var c := text[i];
      ghost var rest := text[i..];
      assert rest[1..] == text[i + 1..];
      assert i + 1 < |text| ==> rest[1] == text[i + 1] && rest[2..] == text[i + 2..];
      i := i + 1;
      if c == '\\' && !inSingle {
        if i < |text| {
          current := current + [text[i]];
          i := i + 1;
        }
      } else if c == '"' && !inSingle {
        inDouble := !inDouble;
      } else if c == '\'' && !inDouble {
        inSingle := !inSingle;
      } else if c == ' ' && !inDouble && !inSingle {
        if current != "" {
          args := args + [current];
          current := "";
        }
      } else {
        current := current + [c];
      }
    }
    if current != "" {
      args := args + [current];
    }
  }

  // ----- no empty words ---------------------------------------------------

  predicate NonEmpty(words: seq<string>) {
    forall i :: 0 <= i < |words| ==> words[i] != ""
  }

  lemma {:induction false} RunKeepsNonEmpty(s: Scan, text: string)
    requires NonEmpty(s.words)
    ensures NonEmpty(Run(s, text).words)
    decreases |text|
  {
    if text != "" { RunKeepsNonEmpty(Advance(s, text), text[Bite(s, text)..]); }
  }

  /** No word of a split is empty. */
  lemma SplitHasNoEmptyWord(text: string)
    ensures NonEmpty(Split(text))
  {
    RunKeepsNonEmpty(START, text);
  }

  // ----- composition ------------------------------------------------------

  /** The scan of `text` ends on a backslash with nothing left to escape. */
  predicate Dangling(s: Scan, text: string)
    decreases |text|
  {
    text != "" &&
    (if |text| == 1 then text[0] == '\\' && !s.inSingle else Dangling(Advance(s, text), text[Bite(s, text)..]))
  }

  lemma {:induction false} RunSplits(s: Scan, a: string, b: string)
    requires !Dangling(s, a)
    ensures Run(s, a + b) == Run(Run(s, a), b)
    decreases |a|
  {
    if a == "" {
      assert a + b == b;
    } else {
      var n := Bite(s, a);
      assert Bite(s, a + b) == n && Advance(s, a + b) == Advance(s, a);
      assert (a + b)[n..] == a[n..] + b;
      RunSplits(Advance(s, a), a[n..], b);
    }
  }

  function Prefixed(words: seq<string>, s: Scan): Scan {
    s.(words := words + s.words)
  }

  lemma {:induction false} RunIgnoresWords(words: seq<string>, s: Scan, text: string)
    ensures Run(Prefixed(words, s), text) == Prefixed(words, Run(s, text))
    decreases |text|
  {
    if text != "" {
      var next := Advance(s, text);
      assert Advance(Prefixed(words, s), text) == Prefixed(words, next) by {
        assert words + (s.words + [s.current]) == words + s.words + [s.current];
      }
      RunIgnoresWords(words, next, text[Bite(s, text)..]);
    }
  }

  /** A text that ends outside quotes and not on a dangling backslash can be
      split on its own: the split of the whole is the concatenation. */
  lemma SplitConcatenates(a: string, b: string)
    requires !Dangling(START, a) && !Run(START, a).inDouble && !Run(START, a).inSingle
    ensures Split(a + " " + b) == Split(a) + Split(b)
  {
    var mid := Run(START, a);
    assert a + " " + b == a + (" " + b);
    RunSplits(START, a, " " + b);
    assert (" " + b)[1..] == b;
    assert Run(mid, " " + b) == Run(Flush(mid), b);
    RunIgnoresWords(Flush(mid).words, START, b);
    assert Prefixed(Flush(mid).words, START) == Flush(mid) by { assert Flush(mid).words + [] == Flush(mid).words; }
    var last := Run(START, b);
    assert Flush(mid).words + last.words + [last.current] == Flush(mid).words + (last.words + [last.current]);
  }

  // ----- quoting ----------------------------------------------------------

  /** The ways to write a stretch of a word. */
  datatype Style = Bare | Backslashed | SingleQuoted | DoubleQuoted | DoubleEscaped

  /** A backslash before every character. */
  function Backslash(word: string): string {
    if word == "" then "" else ['\\', word[0]] + Backslash(word[1..])
  }

  /** Inside double quotes only the quote and the backslash need one. */
  function Guard(word: string): string {
    if word == "" then ""
    else (if word[0] == '"' || word[0] == '\\' then ['\\', word[0]] else [word[0]]) + Guard(word[1..])
  }

  /** A character that stands for itself outside quotes. */
  predicate IsPlain(c: char) { c != ' ' && c != '\\' && c != '"' && c != '\'' }

  predicate CanQuote(word: string, style: Style) {
    match style
    case Bare => forall i :: 0 <= i < |word| ==> IsPlain(word[i])
    case SingleQuoted => '\'' !in word
    case _ => true
  }

  function Quote(word: string, style: Style): string {
    match style
    case Bare => word
    case Backslashed => Backslash(word)
    case SingleQuoted => "'" + word + "'"
    case DoubleQuoted => "\"" + Guard(word) + "\""
    case DoubleEscaped => "\"" + Backslash(word) + "\""
  }

  lemma {:induction false} BareRuns(s: Scan, word: string)
    requires !s.inSingle && !s.inDouble && CanQuote(word, Bare)
    ensures Run(s, word) == s.(current := s.current + word) && !Dangling(s, word)
    decreases |word|
  {
    if word == "" {
      assert s.current + "" == s.current;
    } else {
      assert IsPlain(word[0]);
      BareRuns(Advance(s, word), word[1..]);
      assert s.current + [word[0]] + word[1..] == s.current + word;
    }
  }

  lemma {:induction false} BackslashRuns(s: Scan, word: string)
    requires !s.inSingle
    ensures Run(s, Backslash(word)) == s.(current := s.current + word) && !Dangling(s, Backslash(word))
    decreases |word|
  {
    if word == "" {
      assert s.current + "" == s.current;
    } else {
      var text := Backslash(word);
      assert text[2..] == Backslash(word[1..]);
      BackslashRuns(Advance(s, text), word[1..]);
      assert s.current + [word[0]] + word[1..] == s.current + word;
    }
  }

  lemma {:induction false} SingleRuns(s: Scan, word: string)
    requires s.inSingle && !s.inDouble && '\'' !in word
    ensures Run(s, word) == s.(current := s.current + word) && !Dangling(s, word)
    decreases |word|
  {
    if word == "" {
      assert s.current + "" == s.current;
    } else {
      SingleRuns(Advance(s, word), word[1..]);
      assert s.current + [word[0]] + word[1..] == s.current + word;
    }
  }

  lemma {:induction false} GuardRuns(s: Scan, word: string)
    requires s.inDouble && !s.inSingle
    ensures Run(s, Guard(word)) == s.(current := s.current + word) && !Dangling(s, Guard(word))
    decreases |word|
  {
    if word == "" {
      assert s.current + "" == s.current;
    } else {
      var text := Guard(word);
      assert text[Bite(s, text)..] == Guard(word[1..]);
      GuardRuns(Advance(s, text), word[1..]);
      assert s.current + [word[0]] + word[1..] == s.current + word;
    }
  }

  lemma Enclosed(s: Scan, opening: string, body: string, closing: string)
    requires !Dangling(s, opening) && !Dangling(Run(s, opening), body)
    ensures Run(s, opening + body + closing) == Run(Run(Run(s, opening), body), closing)
    ensures Dangling(s, opening + body + closing) <==> Dangling(Run(Run(s, opening), body), closing)
  {
    assert opening + body + closing == opening + (body + closing);
    RunSplits(s, opening, body + closing);
    RunSplits(Run(s, opening), body, closing);
    DanglingSplits(s, opening, body + closing);
    DanglingSplits(Run(s, opening), body, closing);
  }

  lemma {:induction false} DanglingSplits(s: Scan, a: string, b: string)
    requires !Dangling(s, a)
    ensures Dangling(s, a + b) <==> Dangling(Run(s, a), b)
    decreases |a|
  {
    if a == "" {
      assert a + b == b;
    } else {
      var n := Bite(s, a);
      assert Bite(s, a + b) == n && Advance(s, a + b) == Advance(s, a);
      assert (a + b)[n..] == a[n..] + b;
      DanglingSplits(Advance(s, a), a[n..], b);
    }
  }

  /** A quoted stretch adds exactly its text. */
  lemma QuoteRuns(s: Scan, word: string, style: Style)
    requires CanQuote(word, style) && !s.inDouble && !s.inSingle
    ensures Run(s, Quote(word, style)) == s.(current := s.current + word)
    ensures !Dangling(s, Quote(word, style))
  {
    match style
    case Bare => BareRuns(s, word);
    case Backslashed => BackslashRuns(s, word);
    case SingleQuoted =>
      assert "'"[1..] == "";
      SingleRuns(s.(inSingle := true), word);
      Enclosed(s, "'", word, "'");
    case DoubleQuoted =>
      assert "\""[1..] == "";
      GuardRuns(s.(inDouble := true), word);
      Enclosed(s, "\"", Guard(word), "\"");
    case DoubleEscaped =>
      assert "\""[1..] == "";
      BackslashRuns(s.(inDouble := true), word);
      Enclosed(s, "\"", Backslash(word), "\"");
  }

  // ----- words made of stretches ------------------------------------------

  datatype Stretch = Stretch(text: string, style: Style)

  function Meant(word: seq<Stretch>): string {
    if word == [] then "" else word[0].text + Meant(word[1..])
  }

  function Written(word: seq<Stretch>): string {
    if word == [] then "" else Quote(word[0].text, word[0].style) + Written(word[1..])
  }

  predicate CanWrite(word: seq<Stretch>) {
    Meant(word) != "" && forall i :: 0 <= i < |word| ==> CanQuote(word[i].text, word[i].style)
  }

  lemma {:induction false} WordRuns(s: Scan, word: seq<Stretch>)
    requires !s.inDouble && !s.inSingle && forall i :: 0 <= i < |word| ==> CanQuote(word[i].text, word[i].style)
    ensures Run(s, Written(word)) == s.(current := s.current + Meant(word)) && !Dangling(s, Written(word))
    decreases |word|
  {
    if word == [] {
      assert s.current + "" == s.current;
    } else {
      QuoteRuns(s, word[0].text, word[0].style);
      WordRuns(s.(current := s.current + word[0].text), word[1..]);
      Together(s, Quote(word[0].text, word[0].style), word[0].text, Written(word[1..]), Meant(word[1..]));
    }
  }

  /** Two texts that each add a stretch to the current word. */
  lemma Together(s: Scan, a: string, x: string, b: string, y: string)
    requires Run(s, a) == s.(current := s.current + x) && !Dangling(s, a)
    requires var mid := s.(current := s.current + x);
             Run(mid, b) == mid.(current := mid.current + y) && !Dangling(mid, b)
    ensures Run(s, a + b) == s.(current := s.current + (x + y)) && !Dangling(s, a + b)
  {
    RunSplits(s, a, b);
    DanglingSplits(s, a, b);
    assert s.current + x + y == s.current + (x + y);
  }

  /** A word and how many spaces more than one follow it. */
  datatype Quoted = Quoted(word: seq<Stretch>, spaces: nat)

  function Words(list: seq<Quoted>): seq<string> {
    if list == [] then [] else [Meant(list[0].word)] + Words(list[1..])
  }

  function Blanks(n: nat): string {
    if n == 0 then "" else " " + Blanks(n - 1)
  }

  /** The words with their spaces, and a last word that ends the line. */
  function CommandLine(list: seq<Quoted>, last: seq<Stretch>): string {
    if list == [] then Written(last)
    else Written(list[0].word) + " " + (Blanks(list[0].spaces) + CommandLine(list[1..], last))
  }

  lemma {:induction false} BlanksAreSkipped(n: nat, text: string)
    ensures Split(Blanks(n) + text) == Split(text)
    decreases n
  {
    if n == 0 {
      assert Blanks(0) + text == text;
    } else {
      BlanksAreSkipped(n - 1, text);
      assert Blanks(n) + text == "" + " " + (Blanks(n - 1) + text);
      SplitConcatenates("", Blanks(n - 1) + text);
    }
  }

  /** Splitting undoes quoting: any list of non-empty words, each written as any
      mixture of bare, escaped and quoted stretches, with one or more spaces between
      them and any number before and after, splits back to that list. */
  lemma {:induction false} SplitUndoesQuoting(list: seq<Quoted>, last: seq<Stretch>, lead: nat)
    requires forall i :: 0 <= i < |list| ==> CanWrite(list[i].word)
    requires last == [] || CanWrite(last)
    ensures Split(Blanks(lead) + CommandLine(list, last)) == Words(list) + (if last == [] then [] else [Meant(last)])
    decreases |list|
  {
    BlanksAreSkipped(lead, CommandLine(list, last));
    if list == [] {
      if last != [] { WordSplits(last); }
    } else {
      WordSplits(list[0].word);
      WordRuns(START, list[0].word);
      SplitConcatenates(Written(list[0].word), Blanks(list[0].spaces) + CommandLine(list[1..], last));
      SplitUndoesQuoting(list[1..], last, list[0].spaces);
    }
  }

  /** One word on its own. */
  lemma WordSplits(word: seq<Stretch>)
    requires CanWrite(word)
    ensures Split(Written(word)) == [Meant(word)]
  {
    WordRuns(START, word);
    assert START.current + Meant(word) == Meant(word);
  }

  // ----- unfinished text --------------------------------------------------

  /** A backslash with nothing behind it is dropped. */
  lemma DanglingIsDropped(word: seq<Stretch>)
    requires CanWrite(word)
    ensures Split(Written(word) + "\\") == [Meant(word)]
  {
    WordRuns(START, word);
    assert START.current + Meant(word) == Meant(word);
    RunSplits(START, Written(word), "\\");
    assert "\\"[1..] == "";
    assert Run(Run(START, Written(word)), "\\") == Run(START, Written(word));
  }

  /** A quote that is never closed still ends its word. */
  lemma OpenQuoteEnds(word: seq<Stretch>, open: string)
    requires CanWrite(word) && '\'' !in open
    ensures Split(Written(word) + ("'" + open)) == [Meant(word) + open]
  {
    WordRuns(START, word);
    assert START.current + Meant(word) == Meant(word);
    var mid := Run(START, Written(word));
    RunSplits(START, Written(word), "'" + open);
    assert ("'" + open)[1..] == open;
    SingleRuns(mid.(inSingle := true), open);
    assert Run(mid, "'" + open) == mid.(inSingle := true, current := mid.current + open);
  }
}
