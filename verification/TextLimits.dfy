/** The three places that cut text to a limit: the output limit in characters,
    the description limit and the startup error limit in bytes. Text is UTF-8
    bytes, as the program holds it. */
module TextLimits {
  import opened Wrappers
  import opened Strings
  import opened Utf8

  // ----- the output limit -------------------------------------------------

  function Notice(shown: nat, total: nat): string {
    "\n[truncated: showing " + Decimal(shown) + " of " + Decimal(total) + " chars. Use --max-output to adjust]"
  }

  /** truncate_if_needed, with the text of the notice as a parameter. */
  function TruncateWith(notice: (nat, nat) -> string, content: seq<Byte>, max: Option<nat>): seq<Byte> {
    match max
    case None => content
    case Some(limit) =>
      if |content| <= limit then content
      else
        match NthCharIndex(content, 0, limit)
        case Some(offset) => content[..offset] + Encode(notice(limit, CountChars(content, 0)))
        case None => content
  }

  /** truncate_if_needed. */
  function TruncateIfNeeded(content: seq<Byte>, max: Option<nat>): seq<Byte> {
    TruncateWith(Notice, content, max)
  }

  /** The byte-length fast path and the character search agree on what fits. */
  lemma CharLimit(s: string, limit: nat)
    ensures |Encode(s)| <= limit ==> |s| <= limit
    ensures NthCharIndex(Encode(s), 0, limit) == if limit < |s| then Some(Offset(s, limit)) else None
    ensures CountChars(Encode(s), 0) == |s|
  {
    OffsetEnds(s);
    OffsetsGrow(s, 0, |s|);
    NthCharIndexIs(s, 0, limit);
    CountCharsIs(s, 0);
  }

  lemma KeepsPrefix(s: string, n: nat, more: string)
    requires n <= |s|
    ensures Offset(s, n) <= |Encode(s)| && Encode(s)[..Offset(s, n)] + Encode(more) == Encode(s[..n] + more)
  {
    CutAtOffset(s, n);
    EncodeAppend(s[..n], more);
  }

  /** The limit counts characters, on the fast path and off it: text within it is
      kept, longer text keeps exactly its first `limit` characters. */
  lemma TruncationCountsCharacters(notice: (nat, nat) -> string, s: string, limit: nat)
    ensures TruncateWith(notice, Encode(s), None) == Encode(s)
    ensures TruncateWith(notice, Encode(s), Some(limit))
         == if |s| <= limit then Encode(s) else Encode(s[..limit] + notice(limit, |s|))
  {
    CharLimit(s, limit);
    if limit < |s| { KeepsPrefix(s, limit, notice(limit, |s|)); }
  }

  /** Output comes through unchanged exactly when it fits, or when what would be
      cut off is, character for character, the notice that replaces it. */
  lemma UnchangedIff(notice: (nat, nat) -> string, s: string, limit: nat)
    ensures TruncateWith(notice, Encode(s), Some(limit)) == Encode(s)
       <==> |s| <= limit || s[limit..] == notice(limit, |s|)
  {
    TruncationCountsCharacters(notice, s, limit);
    if limit < |s| {
      assert s == s[..limit] + s[limit..];
      var t := s[..limit] + notice(limit, |s|);
      assert t[limit..] == notice(limit, |s|);
      if Encode(t) == Encode(s) { EncodeIsInjective(s, t); }
    }
  }

  /** What truncate_if_needed does to every text, in characters. */
  lemma OutputLimit(s: string, limit: nat)
    ensures |s| <= limit ==> TruncateIfNeeded(Encode(s), Some(limit)) == Encode(s)
    ensures |s| > limit ==> TruncateIfNeeded(Encode(s), Some(limit)) == Encode(s[..limit] + Notice(limit, |s|))
    ensures TruncateIfNeeded(Encode(s), Some(limit)) == Encode(s) <==> |s| <= limit || s[limit..] == Notice(limit, |s|)
  {
    TruncationCountsCharacters(Notice, s, limit);
    UnchangedIff(Notice, s, limit);
  }

  lemma NoticeLength(shown: nat, total: nat)
    ensures |Notice(shown, total)| == 60 + |Decimal(shown)| + |Decimal(total)|
  {
  }

  /** The notice says first how much is shown and then how much there was. */
  lemma NoticeSays(shown: nat, total: nat)
    ensures var head := "\n[truncated: showing "; var notice := Notice(shown, total);
            && head + Decimal(shown) + " of " + Decimal(total) + " chars" <= notice
            && Number(Decimal(shown)) == shown && Number(Decimal(total)) == total
  {
    DecimalReads(shown);
    DecimalReads(total);
    var head := "\n[truncated: showing " + Decimal(shown) + " of " + Decimal(total);
    assert Notice(shown, total) == head + " chars" + ". Use --max-output to adjust]";
  }

  /** That second case occurs: this text is over the limit and stays as it is. */
  lemma OverTheLimitUnchanged() returns (s: string)
    ensures |s| > 0 && TruncateIfNeeded(Encode(s), Some(0)) == Encode(s)
  {
    s := Notice(0, 63);
    NoticeLength(0, 63);
    assert |Decimal(63)| == 2;
    assert s[0..] == s;
    OutputLimit(s, 0);
  }

  // ----- byte limits ------------------------------------------------------

  /** `n` is the largest number of whole characters that fit into `max` bytes. */
  predicate Fits(s: string, max: nat, n: nat) {
    n <= |s| && Offset(s, n) <= max && (n < |s| ==> max < Offset(s, n + 1))
  }

  lemma FitsOnlyOne(s: string, max: nat, fit: nat)
    requires Fits(s, max, fit)
    ensures forall n :: Fits(s, max, n) <==> n == fit
  {
    forall n: nat | Fits(s, max, n) ensures n == fit {
      if n < fit { OffsetsGrow(s, n + 1, fit); }
      if fit < n { OffsetsGrow(s, fit + 1, n); }
    }
  }

  /** The last of char_indices that is at most `max`, from byte `i` on. */
  function LastIndexWithin(b: seq<Byte>, i: nat, max: nat, last: Option<nat>): (r: Option<nat>)
    ensures r == last || (r.Some? && i <= r.value < |b|)
    decreases |b| - i
  {
    if i >= |b| || i > max then last else LastIndexWithin(b, i + Width(b[i]), max, Some(i))
  }

  lemma {:induction false} LastIndexWithinFits(s: string, n: nat, max: nat, last: Option<nat>, fit: nat)
    requires n <= fit < |s| && Fits(s, max, fit)
    ensures LastIndexWithin(Encode(s), Offset(s, n), max, last) == Some(Offset(s, fit))
    decreases fit - n
  {
    AroundChar(s, n);
    OffsetsGrow(s, n, fit);
    if n < fit {
      LastIndexWithinFits(s, n + 1, max, Some(Offset(s, n)), fit);
    }
  }

  lemma {:induction false} SomeFit(s: string, max: nat, n: nat) returns (fit: nat)
    requires n <= |s| && Offset(s, n) <= max
    ensures Fits(s, max, fit) && n <= fit
    decreases |s| - n
  {
    if n == |s| || max < Offset(s, n + 1) { fit := n; } else { fit := SomeFit(s, max, n + 1); }
  }

  /** rfind(' ') on bytes. */
  function LastSpace(b: seq<Byte>): (r: Option<nat>)
    ensures r.Some? ==> r.value < |b|
  {
    if b == [] then None
    else if b[|b| - 1] == 0x20 then Some(|b| - 1)
    else LastSpace(b[..|b| - 1])
  }

  /** rfind(' ') on characters. */
  function LastSpaceChar(s: string): (r: Option<nat>)
    ensures r.Some? ==> r.value < |s|
  {
    if s == "" then None
    else if s[|s| - 1] == ' ' then Some(|s| - 1)
    else LastSpaceChar(s[..|s| - 1])
  }

  lemma {:induction false} SkipsOtherBytes(b: seq<Byte>, more: seq<Byte>)
    requires forall i :: 0 <= i < |more| ==> more[i] != 0x20
    ensures LastSpace(b + more) == LastSpace(b)
    decreases |more|
  {
    if more == [] {
      assert b + more == b;
    } else {
      assert (b + more)[..|b + more| - 1] == b + more[..|more| - 1];
      SkipsOtherBytes(b, more[..|more| - 1]);
    }
  }

  /** The last space byte is the last space character. */
  lemma {:induction false} LastSpaceIs(s: string)
    ensures var r := LastSpaceChar(s); LastSpace(Encode(s)) == if r.Some? then Some(Offset(s, r.value)) else None
    decreases |s|
  {
    if s != "" {
      var before, c := s[..|s| - 1], s[|s| - 1];
      assert s == before + [c];
      EncodeSnoc(before, c);
      if c == ' ' {
        assert EncodeChar(c) == [0x20];
      } else {
        SkipsOtherBytes(Encode(before), EncodeChar(c));
        LastSpaceIs(before);
        var r := LastSpaceChar(before);
        if r.Some? { assert before[..r.value] == s[..r.value]; }
      }
    }
  }

  /** truncate_description. */
  function TruncateDescription(desc: seq<Byte>, max: nat): seq<Byte> {
    if |desc| <= max then desc
    else
      var within := LastIndexWithin(desc, 0, max, None);
      var boundary := if within.Some? then within.value else max;
      var space := LastSpace(desc[..boundary]);
      var end := if space.Some? then space.value else boundary;
      desc[..end] + Encode("...")
  }

  /** A description over the limit is cut after whole characters, within the byte
      limit: at the last space of the longest prefix that fits, if it has one. */
  lemma DescriptionIsCutCleanly(s: string, max: nat) returns (fit: nat)
    ensures fit <= |s| && forall n :: Fits(s, max, n) <==> n == fit
    ensures |Encode(s)| <= max ==> TruncateDescription(Encode(s), max) == Encode(s)
    ensures |Encode(s)| > max ==>
              var space := LastSpaceChar(s[..fit]);
              TruncateDescription(Encode(s), max) == Encode(s[..if space.Some? then space.value else fit] + "...")
  {
    OffsetEnds(s);
    fit := SomeFit(s, max, 0);
    FitsOnlyOne(s, max, fit);
    if |Encode(s)| > max {
      LastIndexWithinFits(s, 0, max, None, fit);
      CutAtOffset(s, fit);
      LastSpaceIs(s[..fit]);
      var space := LastSpaceChar(s[..fit]);
      var end := if space.Some? then space.value else fit;
      assert s[..fit][..end] == s[..end];
      OffsetsGrow(s, end, fit);
      CutAtOffset(s, end);
      EncodeAppend(s[..end], "...");
    }
  }

  const STDERR_LIMIT := 500

  /** The startup error message: the longest prefix of whole characters within
      500 bytes. */
  method CutStartupError(stderr: seq<Byte>, ghost s: string) returns (msg: seq<Byte>, ghost fit: nat)
    requires stderr == Encode(s)
    ensures fit <= |s| && forall n :: Fits(s, STDERR_LIMIT, n) <==> n == fit
    ensures msg == Encode(s[..fit]) && msg <= stderr
    ensures |stderr| <= STDERR_LIMIT ==> msg == stderr
  {
    OffsetEnds(s);
    if |stderr| > STDERR_LIMIT {
      var end := STDERR_LIMIT;
      while !IsCharBoundary(stderr, end)
        invariant 0 <= end <= STDERR_LIMIT
        invariant forall n: nat :: n <= |s| ==> Offset(s, n) <= end || STDERR_LIMIT < Offset(s, n)
        decreases end
      {
        BoundaryIff(s, end);
        end := end - 1;
      }
      BoundaryIff(s, end);
      fit :| fit <= |s| && end == Offset(s, fit);
      CutAtOffset(s, fit);
      if fit < |s| { AroundChar(s, fit); }
      msg := stderr[..end];
    } else {
      msg := stderr;
      fit := |s|;
      assert s[..fit] == s;
    }
    FitsOnlyOne(s, STDERR_LIMIT, fit);
  }
}
