/**
 The text measures and the truncator that the bridge links: token counts estimated from UTF-8 bytes,
 and truncation that replaces the middle of a text by a marker.
 */
module TextTruncation {
  const USIZE_MAX: nat := 0xFFFF_FFFF_FFFF_FFFF
  const APPROX_BYTES_PER_TOKEN: nat := 4

  /** How many bytes a character takes in UTF-8. */
  function Width(c: char): nat {
    if c < '\U{0080}' then 1 else if c < '\U{0800}' then 2 else if c < '\U{10000}' then 3 else 4
  }

  function ByteLength(text: string): nat {
    if text == "" then 0 else Width(text[0]) + ByteLength(text[1..])
  }

  function SaturatingAdd(a: nat, b: nat): nat { if a + b > USIZE_MAX then USIZE_MAX else a + b }

  function SaturatingMul(a: nat, b: nat): nat { if a * b > USIZE_MAX then USIZE_MAX else a * b }

  function TokensFromBytes(bytes: nat): nat {
    SaturatingAdd(bytes, APPROX_BYTES_PER_TOKEN - 1) / APPROX_BYTES_PER_TOKEN
  }

  function ApproxTokenCount(text: string): nat { TokensFromBytes(ByteLength(text)) }

  function BytesForTokens(tokens: nat): nat { SaturatingMul(tokens, APPROX_BYTES_PER_TOKEN) }

  // ---------------------------------------------------------------- splitting on character boundaries

  /** How many characters from the start fit into the bytes. */
  function FittingChars(text: string, bytes: nat): (count: nat)
    ensures count <= |text|
  {
    if text == "" || Width(text[0]) > bytes then 0 else 1 + FittingChars(text[1..], bytes - Width(text[0]))
  }

  /** How many characters begin before the target byte, when the text begins at byte `at`. */
  function CharsBefore(text: string, at: nat, target: nat): (count: nat)
    ensures count <= |text|
  {
    if text == "" || at >= target then 0 else 1 + CharsBefore(text[1..], at + Width(text[0]), target)
  }

  datatype Split = Split(before: string, removed: string, after: string)

  function SplitAt(text: string, start: nat, count: nat): Split
    requires start + count <= |text|
  {
    Split(text[..start], text[start..][..count], text[start..][count..])
  }

  /** The first byte of the end: no more than `end` bytes are behind it. */
  function EndTarget(text: string, end: nat): nat {
    if ByteLength(text) < end then 0 else ByteLength(text) - end
  }

  function SplitText(text: string, beginning: nat, end: nat): Split {
    var start := FittingChars(text, beginning);
    SplitAt(text, start, CharsBefore(text[start..], ByteLength(text[..start]), EndTarget(text, end)))
  }

  lemma SplitAtIsLossless(text: string, start: nat, count: nat)
    requires start + count <= |text|
    ensures var split := SplitAt(text, start, count); split.before + split.removed + split.after == text
  {
    assert text[start..][..count] + text[start..][count..] == text[start..];
  }

  lemma SplitAtFits(text: string, start: nat, count: nat, end: nat)
    requires start + count <= |text|
    requires ByteLength(text[..start]) + ByteLength(text[start..][..count]) >= EndTarget(text, end)
    ensures ByteLength(SplitAt(text, start, count).after) <= end
  {
    ByteLengthCut(text, start);
    ByteLengthCut(text[start..], count);
  }

  lemma {:induction false} ByteLengthAppend(a: string, b: string)
    ensures ByteLength(a + b) == ByteLength(a) + ByteLength(b)
  {
    if a == "" {
      assert a + b == b;
    } else {
      assert (a + b)[1..] == a[1..] + b;
      ByteLengthAppend(a[1..], b);
    }
  }

  lemma {:induction false} FittingCharsFit(text: string, bytes: nat)
    ensures ByteLength(text[..FittingChars(text, bytes)]) <= bytes
  {
    if text != "" && Width(text[0]) <= bytes {
      var count := FittingChars(text[1..], bytes - Width(text[0]));
      FittingCharsFit(text[1..], bytes - Width(text[0]));
      assert text[..count + 1][1..] == text[1..][..count];
    }
  }

  lemma {:induction false} CharsBeforeReach(text: string, at: nat, target: nat)
    requires target <= at + ByteLength(text)
    ensures at + ByteLength(text[..CharsBefore(text, at, target)]) >= target
  {
    if text != "" && at < target {
      var count := CharsBefore(text[1..], at + Width(text[0]), target);
      CharsBeforeReach(text[1..], at + Width(text[0]), target);
      assert text[..count + 1][1..] == text[1..][..count];
    }
  }

  /** A split loses nothing. */
  lemma SplitIsLossless(text: string, beginning: nat, end: nat)
    ensures var split := SplitText(text, beginning, end); split.before + split.removed + split.after == text
  {
    var start := FittingChars(text, beginning);
    SplitAtIsLossless(text, start, CharsBefore(text[start..], ByteLength(text[..start]), EndTarget(text, end)));
  }

  /** Its two ends keep to their shares of the bytes. */
  lemma SplitFits(text: string, beginning: nat, end: nat)
    ensures ByteLength(SplitText(text, beginning, end).before) <= beginning
    ensures ByteLength(SplitText(text, beginning, end).after) <= end
  {
    var start, target := FittingChars(text, beginning), EndTarget(text, end);
    var at := ByteLength(text[..start]);
    FittingCharsFit(text, beginning);
    ByteLengthCut(text, start);
    CharsBeforeReach(text[start..], at, target);
    SplitAtFits(text, start, CharsBefore(text[start..], at, target), end);
  }

  lemma ByteLengthCut(text: string, at: nat)
    requires at <= |text|
    ensures ByteLength(text) == ByteLength(text[..at]) + ByteLength(text[at..])
  {
    assert text == text[..at] + text[at..];
    ByteLengthAppend(text[..at], text[at..]);
  }

  /** A character is at the beginning exactly if it ends within the beginning's bytes. */
  lemma {:induction false} FittingAt(text: string, bytes: nat, i: nat)
    requires i < |text|
    ensures i < FittingChars(text, bytes) <==> ByteLength(text[..i + 1]) <= bytes
  {
    assert text[..i + 1][1..] == text[1..][..i];
    if Width(text[0]) <= bytes && i > 0 {
      FittingAt(text[1..], bytes - Width(text[0]), i - 1);
    }
  }

  lemma {:induction false} BeforeAt(text: string, at: nat, target: nat, i: nat)
    requires i < |text|
    ensures i < CharsBefore(text, at, target) <==> at + ByteLength(text[..i]) < target
  {
    if i > 0 {
      assert text[..i][1..] == text[1..][..i - 1];
      if at < target {
        BeforeAt(text[1..], at + Width(text[0]), target, i - 1);
      }
    }
  }

  /** Behind the beginning, a character is left out exactly if it begins before the end's first byte. */
  lemma RemovedAt(text: string, start: nat, target: nat, i: nat)
    requires start <= i < |text|
    ensures i - start < CharsBefore(text[start..], ByteLength(text[..start]), target) <==> ByteLength(text[..i]) < target
  {
    BeforeAt(text[start..], ByteLength(text[..start]), target, i - start);
    assert text[..i] == text[..start] + text[start..][..i - start];
    ByteLengthAppend(text[..start], text[start..][..i - start]);
  }

  lemma NextByte(text: string, i: nat)
    requires i < |text|
    ensures ByteLength(text[..i + 1]) == ByteLength(text[..i]) + Width(text[i])
  {
    assert text[..i + 1] == text[..i] + [text[i]];
    ByteLengthAppend(text[..i], [text[i]]);
    assert ByteLength([text[i]]) == Width(text[i]) by { assert [text[i]][1..] == ""; }
  }

  /** One pass over the characters finds both ends and counts what is between them. */
  method SplitString(text: string, beginning: nat, end: nat) returns (removedChars: nat, before: string, after: string)
    ensures before == SplitText(text, beginning, end).before && after == SplitText(text, beginning, end).after
    ensures removedChars == |SplitText(text, beginning, end).removed|
  {
    var target := EndTarget(text, end);
    var at, prefixEnd, suffixStart, suffixStarted := 0, 0, |text|, false;
    removedChars := 0;
    ghost var start := FittingChars(text, beginning);
    ghost var count := CharsBefore(text[start..], ByteLength(text[..start]), target);
    for i := 0 to |text|
      invariant at == ByteLength(text[..i])
      invariant prefixEnd == if i < start then i else start
      invariant removedChars == if i < start then 0 else if i - start < count then i - start else count
      invariant suffixStarted <==> i > start + count
      invariant suffixStart == if i > start + count then start + count else |text|
    {
      var charEnd := at + Width(text[i]);
      NextByte(text, i);
      FittingAt(text, beginning, i);
      if i >= start {
        RemovedAt(text, start, target, i);
      }
      if charEnd <= beginning {
        prefixEnd := i + 1;
      } else if at >= target {
        if !suffixStarted {
          suffixStart, suffixStarted := i, true;
        }
      } else {
        removedChars := removedChars + 1;
      }
      at := charEnd;
    }
    if suffixStart < prefixEnd {
      suffixStart := prefixEnd;
    }
    assert text[..|text|] == text;
    before, after := text[..prefixEnd], text[suffixStart..];
    assert after == text[start..][count..];
  }

  // ---------------------------------------------------------------- truncating

  function Digit(n: nat): char
    requires n < 10
  {
    "0123456789"[n]
  }

  function Decimal(n: nat): string {
    if n < 10 then [Digit(n)] else Decimal(n / 10) + [Digit(n % 10)]
  }

  function Marker(useTokens: bool, removed: nat): string {
    "\U{2026}" + Decimal(removed) + (if useTokens then " tokens truncated\U{2026}" else " chars truncated\U{2026}")
  }

  function RemovedUnits(useTokens: bool, bytes: nat, chars: nat): nat {
    if useTokens then TokensFromBytes(bytes) else chars
  }

  function TruncateToBytes(text: string, maxBytes: nat, useTokens: bool): string {
    if text == "" then "" else
    if maxBytes == 0 then Marker(useTokens, RemovedUnits(useTokens, ByteLength(text), |text|)) else
    if ByteLength(text) <= maxBytes then text else
    var split := SplitText(text, maxBytes / 2, maxBytes - maxBytes / 2);
    split.before + Marker(useTokens, RemovedUnits(useTokens, ByteLength(text) - maxBytes, |split.removed|)) + split.after
  }

  function TruncateToTokens(text: string, maxTokens: nat): string {
    if text == "" then "" else
    if maxTokens > 0 && ByteLength(text) <= BytesForTokens(maxTokens) then text
    else TruncateToBytes(text, BytesForTokens(maxTokens), true)
  }

  /** The cut that truncation makes: two ends, and what is left out between them. */
  function CutFor(text: string, budget: nat): Split {
    if budget == 0 then Split("", text, "") else SplitText(text, budget / 2, budget - budget / 2)
  }

  function MarkerFor(text: string, budget: nat): string {
    Marker(true, TokensFromBytes(ByteLength(text) - if ByteLength(text) < budget then ByteLength(text) else budget))
  }

  lemma CutIsLossless(text: string, budget: nat)
    ensures var cut := CutFor(text, budget); cut.before + cut.removed + cut.after == text
  {
    if budget == 0 {
      EmptyEnds(text);
    } else {
      SplitIsLossless(text, budget / 2, budget - budget / 2);
    }
  }

  lemma CutFits(text: string, budget: nat)
    ensures ByteLength(CutFor(text, budget).before) + ByteLength(CutFor(text, budget).after) <= budget
  {
    if budget > 0 {
      SplitFits(text, budget / 2, budget - budget / 2);
    }
  }

  /** Of any other, two ends within the budget stay around a marker. */
  lemma LongTextIsCut(text: string, maxTokens: nat)
    requires text != "" && (maxTokens == 0 || ByteLength(text) > BytesForTokens(maxTokens))
    ensures var cut := CutFor(text, BytesForTokens(maxTokens));
      && cut.before + cut.removed + cut.after == text
      && ByteLength(cut.before) + ByteLength(cut.after) <= BytesForTokens(maxTokens)
    ensures var budget := BytesForTokens(maxTokens);
      TruncateToTokens(text, maxTokens) == CutFor(text, budget).before + MarkerFor(text, budget) + CutFor(text, budget).after
  {
    var budget := BytesForTokens(maxTokens);
    CutIsLossless(text, budget);
    CutFits(text, budget);
    if budget == 0 {
      EmptyEnds(MarkerFor(text, budget));
    }
  }

  lemma EmptyEnds(text: string)
    ensures "" + text + "" == text
  {
  }

  /** Truncating never empties a text, whatever the budget. */
  lemma TruncationLeavesText(text: string, maxTokens: nat)
    requires text != ""
    ensures TruncateToTokens(text, maxTokens) != ""
  {
    if maxTokens == 0 || ByteLength(text) > BytesForTokens(maxTokens) {
      LongTextIsCut(text, maxTokens);
      assert |MarkerFor(text, BytesForTokens(maxTokens))| > 0;
    }
  }
}
