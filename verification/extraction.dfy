/**
  The two `_extract_json` helpers. They are separate functions and never
  combined: the fence stripper is shared, word for word, by the Gemini and
  OpenAI adapters and the legacy providers; the brace slicer belongs to the
  Ollama adapter only.
 */
module Extraction {
  import opened Text

  const Fence := "```"
  const JsonFence := "```json"

  /** Every "```json" marker is also a "```" marker. */
  lemma JsonFenceIsFence(s: string, i: int)
    requires OccursAt(s, JsonFence, i)
    ensures OccursAt(s, Fence, i)
  {
    assert s[i..i + 3] == s[i..i + 7][..3];
  }

  lemma StartsWithJsonFence(s: string)
    requires StartsWith(s, JsonFence)
    ensures StartsWith(s, Fence)
  {
    assert s[..3] == s[..7][..3];
  }

  /**
    The fence stripper: trim, then if the text opens with "```json" keep
    `text.split("```json")[1].split("```")[0]`, else if it opens with "```"
    keep `text.split("```")[1].split("```")[0]`, trimmed again; otherwise
    the trimmed text.
   */
  function FenceExtract(text: string): (r: string)
    ensures Trimmed(r)
    ensures StartsWith(Strip(text), Fence) ==> !Contains(r, Fence)
    ensures !StartsWith(Strip(text), Fence) ==> r == Strip(text)
  {
    var t := Strip(text);
    if StartsWith(t, JsonFence) then
      StartsWithOccurs(t, JsonFence);
      StartsWithJsonFence(t);
      var inner := SplitHead(SplitSecond(t, JsonFence), Fence);
      StripAvoids(inner, Fence);
      Strip(inner)
    else if StartsWith(t, Fence) then
      StartsWithOccurs(t, Fence);
      var inner := SplitHead(SplitSecond(t, Fence), Fence);
      StripAvoids(inner, Fence);
      Strip(inner)
    else t
  }

  /** Applying the fence stripper to its own output changes nothing. */
  lemma FenceExtractIdempotent(text: string)
    ensures FenceExtract(FenceExtract(text)) == FenceExtract(text)
  {
    var r := FenceExtract(text);
    StripTrimmed(r);
    StripTrimmed(Strip(text));
    StartsWithOccurs(r, Fence);
    StartsWithOccurs(r, JsonFence);
    if StartsWith(Strip(text), Fence) {
      JsonFenceAvoided(r);
    }
  }

  /** A text free of "```" does not open with "```json". */
  lemma JsonFenceAvoided(s: string)
    requires !Contains(s, Fence)
    ensures !StartsWith(s, JsonFence)
  {
    if StartsWith(s, JsonFence) {
      StartsWithJsonFence(s);
      StartsWithOccurs(s, Fence);
      assert false;
    }
  }

  /**
    A text opening with a plain "```" yields the trimmed content between
    that fence and the next "```", or up to the end when it is never closed.
   */
  lemma FenceExtractPlain(text: string)
    requires StartsWith(Strip(text), Fence) && !StartsWith(Strip(text), JsonFence)
    ensures var t := Strip(text);
      var close := Find(t, Fence, 3);
      FenceExtract(text) == Strip(t[3..if close == -1 then |t| else close])
  {
    var t := Strip(text);
    StartsWithOccurs(t, Fence);
    assert Find(t, Fence, 0) == 0;
    var close := Find(t, Fence, 3);
    var end := if close == -1 then |t| else close;
    var piece := t[3..end];
    assert SplitSecond(t, Fence) == piece;
    var head := SplitHead(piece, Fence);
    if |head| < |piece| {
      OccursInSlice(t, 3, end, Fence, |head|);
    }
    assert head == piece;
  }

  /**
    A text opening with "```json" yields the trimmed content between the
    tag and the first "```" after it, provided that closing fence is not
    followed by another backtick. (`FenceTaggedLongerClosing` shows that
    the proviso is needed: the two `split` calls do not always agree with
    one search for "```".)
   */
  lemma FenceExtractTagged(text: string)
    requires StartsWith(Strip(text), JsonFence)
    requires var t := Strip(text);
      var close := Find(t, Fence, 7);
      close == -1 || close + 3 == |t| || t[close + 3] != '`'
    ensures var t := Strip(text);
      var close := Find(t, Fence, 7);
      FenceExtract(text) == Strip(t[7..if close == -1 then |t| else close])
  {
    var t := Strip(text);
    TaggedPiece(text);
    HeadUpToClose(t);
  }

  /** With a "```json" opening, the stripper keeps the piece up to the next tag, cut at "```". */
  lemma TaggedPiece(text: string)
    requires StartsWith(Strip(text), JsonFence)
    ensures var t := Strip(text);
      var next := Find(t, JsonFence, 7);
      FenceExtract(text) == Strip(SplitHead(t[7..if next == -1 then |t| else next], Fence))
  {
    var t := Strip(text);
    StartsWithOccurs(t, JsonFence);
    assert Find(t, JsonFence, 0) == 0;
  }

  /**
    Cutting the piece after the tag at its first "```" gives the text up to
    the first "```" after the tag, when no backtick follows that fence.
   */
  lemma HeadUpToClose(t: string)
    requires StartsWith(t, JsonFence)
    requires var close := Find(t, Fence, 7);
      close == -1 || close + 3 == |t| || t[close + 3] != '`'
    ensures var next := Find(t, JsonFence, 7);
      var close := Find(t, Fence, 7);
      SplitHead(t[7..if next == -1 then |t| else next], Fence) == t[7..if close == -1 then |t| else close]
  {
    var next := Find(t, JsonFence, 7);
    var pieceEnd := if next == -1 then |t| else next;
    var close := Find(t, Fence, 7);
    var closeEnd := if close == -1 then |t| else close;
    CloseWithinPiece(t);
    HeadStopsAt(t, pieceEnd, closeEnd);
  }

  /**
    The piece `t[7..pieceEnd]` cut at its first "```": when no "```" starts
    in `t` from index 7 before `closeEnd`, and `closeEnd` is either the end
    of the piece or a "```" inside it, the cut is at `closeEnd`.
   */
  lemma HeadStopsAt(t: string, pieceEnd: int, closeEnd: int)
    requires 7 <= closeEnd <= pieceEnd <= |t|
    requires forall k :: 7 <= k < closeEnd ==> !OccursAt(t, Fence, k)
    requires closeEnd == pieceEnd || (OccursAt(t, Fence, closeEnd) && closeEnd + 3 <= pieceEnd)
    ensures SplitHead(t[7..pieceEnd], Fence) == t[7..closeEnd]
  {
    var m := closeEnd - 7;
    NoOccurrenceInSlice(t, 7, pieceEnd, Fence, m);
    if closeEnd < pieceEnd {
      OccursInWhole(t, 7, pieceEnd, Fence, m);
    }
    SplitHeadAt(t[7..pieceEnd], Fence, m);
    PrefixOfSlice(t, 7, pieceEnd, m);
  }

  /**
    The first "```" after the tag either ends the piece before the next
    "```json" tag or lies wholly inside it.
   */
  lemma CloseWithinPiece(t: string)
    requires StartsWith(t, JsonFence)
    requires var close := Find(t, Fence, 7);
      close == -1 || close + 3 == |t| || t[close + 3] != '`'
    ensures var next := Find(t, JsonFence, 7);
      var pieceEnd := if next == -1 then |t| else next;
      var close := Find(t, Fence, 7);
      var closeEnd := if close == -1 then |t| else close;
      && 7 <= closeEnd <= pieceEnd
      && (closeEnd == pieceEnd || (OccursAt(t, Fence, closeEnd) && closeEnd + 3 <= pieceEnd))
  {
    var next := Find(t, JsonFence, 7);
    var close := Find(t, Fence, 7);
    if next != -1 {
      JsonFenceIsFence(t, next);
      if close < next < close + 3 {
        TagRightAtClose(t, close, next);
      }
    }
  }

  /**
    A "```json" tag that starts inside the closing fence `t[close..close+3]`
    starts exactly at it when no backtick follows the fence.
   */
  lemma TagRightAtClose(t: string, close: int, next: int)
    requires OccursAt(t, Fence, close) && OccursAt(t, JsonFence, next)
    requires close <= next < close + 3
    requires close + 3 == |t| || t[close + 3] != '`'
    ensures next == close
  {
    assert t[next..next + 7][1] == '`' && t[next..next + 7][2] == '`';
  }

  /**
    When the closing fence runs straight into another "```json" tag, the
    two `split` calls keep the two stray backticks: for `a` free of
    backticks, "```json" + a + "`````json" + b yields a + "``", although
    the first "```" after the tag starts right after `a`.
   */
  lemma FenceTaggedLongerClosing(a: string, b: string)
    requires '`' !in a && |a| > 0 && Trimmed(a) && Trimmed(b)
    ensures var t := JsonFence + a + "``" + JsonFence + b;
      && Find(t, Fence, 7) == 7 + |a|
      && FenceExtract(t) == a + "``"
  {
    var t := JsonFence + a + "``" + JsonFence + b;
    assert Trimmed(t);
    FirstFenceAfterTag(a, b);
    NextTagAfterTag(a, b);
    assert t[7..9 + |a|] == a + "``";
    NoFenceBeforeBackticks(a);
    TaggedClosedBy(t, 9 + |a|);
    StripTrimmed(a + "``");
  }

  lemma FirstFenceAfterTag(a: string, b: string)
    requires '`' !in a
    ensures Find(JsonFence + a + "``" + JsonFence + b, Fence, 7) == 7 + |a|
  {
    var t := JsonFence + a + "``" + JsonFence + b;
    forall k | 7 <= k < 7 + |a|
      ensures t[k] != '`'
    {
      assert t[k] == a[k - 7];
    }
    assert t == (JsonFence + a) + Fence + ("``json" + b);
    OccursBetween(JsonFence + a, Fence, "``json" + b);
    FindPastOthers(t, Fence, 7, 7 + |a|);
  }

  lemma NextTagAfterTag(a: string, b: string)
    requires '`' !in a
    ensures var t := JsonFence + a + "``" + JsonFence + b;
      && OccursAt(t, JsonFence, 9 + |a|)
      && forall k :: 7 <= k < 9 + |a| ==> !OccursAt(t, JsonFence, k)
  {
    var t := JsonFence + a + "``" + JsonFence + b;
    var p := 7 + |a|;
    assert t == (JsonFence + a + "``") + JsonFence + b;
    OccursBetween(JsonFence + a + "``", JsonFence, b);
    assert t[p + 3] == '`' && t[p + 4] == '`';
    forall k | 7 <= k < p + 2
      ensures !OccursAt(t, JsonFence, k)
    {
      if k < p {
        assert t[k] == a[k - 7];
        assert t[k..k + 7][0] == t[k];
      } else {
        assert t[k..k + 7][3] == t[k + 3];
      }
    }
  }

  /** `a + "``"` holds no "```" when `a` holds no backtick. */
  lemma NoFenceBeforeBackticks(a: string)
    requires '`' !in a
    ensures !Contains(a + "``", Fence)
  {
    var s := a + "``";
    forall k | 0 <= k <= |s|
      ensures !OccursAt(s, Fence, k)
    {
      if k < |a| && k + 3 <= |s| {
        assert s[k..k + 3][0] == a[k];
      }
    }
  }

  /**
    A trimmed text opening with "```json" whose next "```json" tag is at
    `next`, with no "```" in between, yields the trimmed text in between.
   */
  lemma TaggedClosedBy(t: string, next: int)
    requires Trimmed(t) && StartsWith(t, JsonFence)
    requires 7 <= next && OccursAt(t, JsonFence, next)
    requires forall k :: 7 <= k < next ==> !OccursAt(t, JsonFence, k)
    requires !Contains(t[7..next], Fence)
    ensures FenceExtract(t) == Strip(t[7..next])
  {
    StripTrimmed(t);
    StartsWithOccurs(t, JsonFence);
    FindAt(t, JsonFence, 0, 0);
    FindAt(t, JsonFence, 7, next);
    assert SplitSecond(t, JsonFence) == t[7..next];
  }

  /**
    A "```json" fence closed by "```" around text without backticks yields
    that text, trimmed.
   */
  lemma FenceExtractWrapped(body: string)
    requires '`' !in body
    ensures FenceExtract(JsonFence + body + Fence) == Strip(body)
  {
    var t := JsonFence + body + Fence;
    assert Trimmed(t);
    StripTrimmed(t);
    assert StartsWith(t, JsonFence);
    var close := 7 + |body|;
    assert t[close..close + 3] == Fence;
    forall k | 7 <= k < close
      ensures t[k] != Fence[0]
    {
      assert t[k] == body[k - 7];
    }
    FindPastOthers(t, Fence, 7, close);
    FenceExtractTagged(t);
    assert t[7..close] == body;
  }

  /**
    The brace slicer: trim, then take everything from the first `{` to the
    last `}` inclusive when both exist (Python's `text[start:end+1]`, empty
    when the last `}` comes before the first `{`), else the trimmed text.
   */
  function BraceExtract(text: string): (r: string)
    ensures |r| <= |Strip(text)|
  {
    var t := Strip(text);
    var start := Find(t, "{", 0);
    var end := RFind(t, '}');
    if start != -1 && end != -1 then
      (if start <= end + 1 then t[start..end + 1] else "")
    else t
  }

  /** Position of the first `c` in `s`. */
  predicate FirstAt(s: string, c: char, i: int) {
    0 <= i < |s| && s[i] == c && c !in s[..i]
  }

  /** Position of the last `c` in `s`. */
  predicate LastAt(s: string, c: char, j: int) {
    0 <= j < |s| && s[j] == c && c !in s[j + 1..]
  }

  /** Python's `s.find(c)` finds the first `c`. */
  lemma FindFirstChar(s: string, c: char, i: int)
    requires FirstAt(s, c, i)
    ensures Find(s, [c], 0) == i
  {
    var f := Find(s, [c], 0);
    OccursChar(s, c, i);
    if f != -1 {
      OccursChar(s, c, f);
    }
  }

  /** Python's `s.find(c)` is -1 exactly when `c` is absent. */
  lemma FindAbsentChar(s: string, c: char)
    ensures Find(s, [c], 0) == -1 <==> c !in s
  {
    var f := Find(s, [c], 0);
    if f != -1 {
      OccursChar(s, c, f);
    }
    if c in s {
      var k :| 0 <= k < |s| && s[k] == c;
      OccursChar(s, c, k);
    }
  }

  lemma RFindLastChar(s: string, c: char, j: int)
    requires LastAt(s, c, j)
    ensures RFind(s, c) == j
  {
  }

  lemma RFindAbsentChar(s: string, c: char)
    ensures RFind(s, c) == -1 <==> c !in s
  {
  }

  /**
    The brace slicer against an independent description: with the first `{`
    at `i` and the last `}` at `j` of the trimmed text `t`, the result is
    `t[i..j+1]` when `i < j` and empty when `j < i`; with either brace
    missing it is `t`.
   */
  lemma BraceExtractSpec(text: string, i: int, j: int)
    ensures var t := Strip(text);
      && (FirstAt(t, '{', i) && LastAt(t, '}', j) && i < j ==> BraceExtract(text) == t[i..j + 1])
      && (FirstAt(t, '{', i) && LastAt(t, '}', j) && j < i ==> BraceExtract(text) == "")
      && ('{' !in t || '}' !in t ==> BraceExtract(text) == t)
  {
    var t := Strip(text);
    if FirstAt(t, '{', i) && LastAt(t, '}', j) {
      BraceExtractBraced(text, i, j);
    }
    if '{' !in t || '}' !in t {
      BraceExtractUnbraced(text);
    }
  }

  lemma BraceExtractBraced(text: string, i: int, j: int)
    requires FirstAt(Strip(text), '{', i) && LastAt(Strip(text), '}', j)
    ensures BraceExtract(text) == if i <= j then Strip(text)[i..j + 1] else ""
  {
    var t := Strip(text);
    FindFirstChar(t, '{', i);
    RFindLastChar(t, '}', j);
  }

  lemma BraceExtractUnbraced(text: string)
    requires '{' !in Strip(text) || '}' !in Strip(text)
    ensures BraceExtract(text) == Strip(text)
  {
    var t := Strip(text);
    FindAbsentChar(t, '{');
    RFindAbsentChar(t, '}');
  }

  /**
    When a `{` comes before the last `}`, the brace slicer's output opens
    with `{` and closes with `}`.
   */
  lemma BraceExtractDelimited(text: string)
    requires var t := Strip(text);
      var start := Find(t, "{", 0);
      start != -1 && start < RFind(t, '}')
    ensures var r := BraceExtract(text);
      |r| >= 2 && r[0] == '{' && r[|r| - 1] == '}'
  {
    var t := Strip(text);
    var start := Find(t, "{", 0);
    OccursChar(t, '{', start);
    SliceDelimited(t, start, RFind(t, '}'));
  }

  lemma SliceDelimited(t: string, start: int, end: int)
    requires 0 <= start < end < |t| && t[start] == '{' && t[end] == '}'
    ensures var r := t[start..end + 1];
      |r| >= 2 && r[0] == '{' && r[|r| - 1] == '}'
  {
  }

  /** Text that opens with `{` and closes with `}` is left as it is. */
  lemma BraceExtractFixed(r: string)
    requires |r| >= 2 && r[0] == '{' && r[|r| - 1] == '}'
    ensures BraceExtract(r) == r
  {
    StripTrimmed(r);
    assert FirstAt(r, '{', 0) && LastAt(r, '}', |r| - 1);
    BraceExtractBraced(r, 0, |r| - 1);
    assert r[0..|r|] == r;
  }

  /** Applying the brace slicer to its own output changes nothing. */
  lemma BraceExtractIdempotent(text: string)
    ensures BraceExtract(BraceExtract(text)) == BraceExtract(text)
  {
    var r := BraceExtract(text);
    BraceExtractShape(text);
    if |r| >= 2 && r[0] == '{' && r[|r| - 1] == '}' {
      BraceExtractFixed(r);
    } else {
      BraceExtractUnbraced(r);
    }
  }

  /**
    The brace slicer's output is either delimited by braces or is trimmed
    text lacking one of the two braces.
   */
  lemma BraceExtractShape(text: string)
    ensures var r := BraceExtract(text);
      || (|r| >= 2 && r[0] == '{' && r[|r| - 1] == '}')
      || (Strip(r) == r && ('{' !in r || '}' !in r))
  {
    var t := Strip(text);
    var start := Find(t, "{", 0);
    var end := RFind(t, '}');
    FindChar(t, '{');
    if start != -1 && end != -1 && start < end {
      BraceExtractDelimited(text);
    } else if start != -1 && end != -1 {
      assert BraceExtract(text) == "";
      StripTrimmed("");
    } else {
      StripIdempotent(text);
      RFindAbsentChar(t, '}');
    }
  }

  /**
    Chatter around a single object is cut away: a trimmed text made of a
    prefix without `{`, an object, and a suffix without `}` yields the object.
   */
  lemma BraceExtractChatter(prefix: string, inner: string, suffix: string)
    requires '{' !in prefix && '}' !in suffix
    requires Trimmed(prefix + "{" + inner + "}" + suffix)
    ensures BraceExtract(prefix + "{" + inner + "}" + suffix) == "{" + inner + "}"
  {
    var t := prefix + "{" + inner + "}" + suffix;
    var i := |prefix|;
    var j := |prefix| + 1 + |inner|;
    assert t == prefix + "{" + (inner + "}" + suffix);
    FirstAtAfter(prefix, '{', inner + "}" + suffix);
    assert t == (prefix + "{" + inner) + "}" + suffix;
    LastAtBefore(prefix + "{" + inner, '}', suffix);
    assert t == prefix + ("{" + inner + "}") + suffix;
    SliceMiddle(prefix, "{" + inner + "}", suffix);
    BraceExtractBetween(t, i, j);
  }

  /** The middle part of a concatenation, recovered by slicing. */
  lemma SliceMiddle(p: string, m: string, s: string)
    ensures (p + m + s)[|p|..|p| + |m|] == m
  {
  }

  lemma BraceExtractBetween(t: string, i: int, j: int)
    requires Trimmed(t) && FirstAt(t, '{', i) && LastAt(t, '}', j) && i < j
    ensures BraceExtract(t) == t[i..j + 1]
  {
    StripTrimmed(t);
    FindFirstChar(t, '{', i);
    RFindLastChar(t, '}', j);
  }

  lemma FirstAtAfter(prefix: string, c: char, rest: string)
    requires c !in prefix
    ensures FirstAt(prefix + [c] + rest, c, |prefix|)
  {
    assert (prefix + [c] + rest)[..|prefix|] == prefix;
  }

  lemma LastAtBefore(init: string, c: char, suffix: string)
    requires c !in suffix
    ensures LastAt(init + [c] + suffix, c, |init|)
  {
    assert (init + [c] + suffix)[|init| + 1..] == suffix;
  }

}
