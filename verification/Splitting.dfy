/** Rune-bounded splitting of long texts: `internal/media/split.go`. */
module Splitting {
  import opened Prelude
  import opened Utf16

  const TELEGRAM_TEXT_LIMIT := 4096
  const TELEGRAM_CAPTION_LIMIT := 1024
  const WHATSAPP_TEXT_LIMIT := 65536

  function Concat(chunks: seq<seq<Rune>>): seq<Rune> {
    if chunks == [] then [] else Concat(chunks[..|chunks| - 1]) + chunks[|chunks| - 1]
  }

  predicate Whitespace(c: Rune) {
    c == SPACE || c == TAB || c == CARRIAGE_RETURN || c == NEWLINE
  }

  /**
   * Where a text longer than `max` is cut: after the last newline of the last 128 runes that fit; without one, after
   * the last space among them that is not the very last rune; without one, at the limit.
   */
  predicate IsCut(text: seq<Rune>, max: nat, cut: nat)
    requires 0 < max < |text|
  {
    var low := Max(max - 128, 0);
    && low < cut <= max
    && ((exists i :: low <= i < max && text[i] == NEWLINE) ==>
          text[cut - 1] == NEWLINE && forall i :: cut <= i < max ==> text[i] != NEWLINE)
    && (!(exists i :: low <= i < max && text[i] == NEWLINE) ==>
          if exists i :: low <= i < max - 1 && text[i] == SPACE
          then cut < max && text[cut - 1] == SPACE && forall i :: cut <= i < max - 1 ==> text[i] != SPACE
          else cut == max)
  }

  method FindCut(text: seq<Rune>, max: nat) returns (cut: nat)
    requires 0 < max < |text|
    ensures IsCut(text, max, cut)
  {
    cut := max;
    var low := Max(max - 128, 0);
    var i := max - 1;
    while i >= low
      invariant low - 1 <= i < max && low < cut <= max
      invariant forall k :: i < k < max ==> text[k] != NEWLINE
      invariant if exists k :: i < k < max - 1 && text[k] == SPACE
                then i + 1 < cut < max && text[cut - 1] == SPACE && forall k :: cut <= k < max - 1 ==> text[k] != SPACE
                else cut == max
    {
      if text[i] == NEWLINE {
        cut := i + 1;
        return;
      }
      if text[i] == SPACE && cut == max {
        cut := i + 1;
      }
      i := i - 1;
    }
  }

  /** Each chunk but the last is cut off where IsCut says; the last one is the rest, no longer than the limit. */
  predicate CutsOf(text: seq<Rune>, max: nat, chunks: seq<seq<Rune>>)
    requires max > 0
    decreases |text|
  {
    if |text| <= max then chunks == [text]
    else
      && chunks != [] && IsCut(text, max, |chunks[0]|) && chunks[0] == text[..|chunks[0]|]
      && CutsOf(text[|chunks[0]|..], max, chunks[1..])
  }

  lemma CutFirst(text: seq<Rune>, max: nat, cut: nat, tail: seq<seq<Rune>>)
    requires 0 < max < |text| && IsCut(text, max, cut) && cut <= |text| && CutsOf(text[cut..], max, tail)
    ensures CutsOf(text, max, [text[..cut]] + tail)
  {
    var chunks := [text[..cut]] + tail;
    assert chunks[1..] == tail && |chunks[0]| == cut;
  }

  method SplitText(text: seq<Rune>, maxLen: int) returns (chunks: seq<seq<Rune>>)
    ensures CutsOf(text, if maxLen <= 0 then TELEGRAM_TEXT_LIMIT else maxLen, chunks)
  {
    var max: nat := if maxLen <= 0 then TELEGRAM_TEXT_LIMIT else maxLen;
    if |text| <= max {
      return [text];
    }
    chunks := [];
    var rest := text;
    assert forall tail: seq<seq<Rune>> :: [] + tail == tail;
    while |rest| > max
      invariant forall tail :: CutsOf(rest, max, tail) ==> CutsOf(text, max, chunks + tail)
      decreases |rest|
    {
      var cut := FindCut(rest, max);
      forall tail | CutsOf(rest[cut..], max, tail) ensures CutsOf(text, max, chunks + [rest[..cut]] + tail) {
        CutFirst(rest, max, cut, tail);
        assert chunks + [rest[..cut]] + tail == chunks + ([rest[..cut]] + tail);
      }
      chunks := chunks + [rest[..cut]];
      rest := rest[cut..];
    }
    assert CutsOf(rest, max, [rest]);
    chunks := chunks + [rest];
  }

  lemma {:induction false} ConcatFirst(chunks: seq<seq<Rune>>)
    requires chunks != []
    ensures Concat(chunks) == chunks[0] + Concat(chunks[1..])
  {
    if |chunks| > 1 {
      var n := |chunks| - 1;
      ConcatFirst(chunks[..n]);
      assert chunks[..n][1..] == chunks[1..][..n - 1] && chunks[1..][n - 1] == chunks[n];
      assert Concat(chunks) == Concat(chunks[..n]) + chunks[n];
      assert (chunks[0] + Concat(chunks[1..n])) + chunks[n] == chunks[0] + (Concat(chunks[1..n]) + chunks[n]);
    } else {
      assert chunks[..0] == [] && chunks[1..] == [];
      assert Concat(chunks) == Concat([]) + chunks[0];
    }
  }

  /** Nothing is lost or reordered, and no chunk is empty or too long. */
  lemma {:induction false} SplitIsLossless(text: seq<Rune>, max: nat, chunks: seq<seq<Rune>>)
    requires max > 0 && CutsOf(text, max, chunks)
    ensures chunks != [] && Concat(chunks) == text
    ensures text != [] ==> forall i :: 0 <= i < |chunks| ==> 1 <= |chunks[i]| <= max
    decreases |text|
  {
    if |text| <= max {
      assert chunks[..0] == [];
    } else {
      var cut := |chunks[0]|;
      SplitIsLossless(text[cut..], max, chunks[1..]);
      ConcatFirst(chunks);
      assert text[..cut] + text[cut..] == text;
      forall i | 0 <= i < |chunks| ensures 1 <= |chunks[i]| <= max {
        if i > 0 {
          assert chunks[i] == chunks[1..][i - 1];
        }
      }
    }
  }

  lemma MultiplesOrdered(a: int, b: int, d: nat)
    ensures a < b ==> (a + 1) * d <= b * d
  {
    if a < b {
      assert b * d == (a + 1) * d + (b - a - 1) * d;
    }
  }

  lemma QuotientAtLeast(n: nat, q: nat, d: nat)
    requires d > 0 && q * d <= n
    ensures q <= n / d
  {
    MultiplesOrdered(n / d, q, d);
  }

  lemma DivDrops(n: nat, cut: nat, d: nat)
    requires 0 < d <= cut <= n
    ensures (n - cut) / d + 1 <= n / d
  {
    var q := (n - cut) / d;
    assert q * d <= n - cut;
    assert (q + 1) * d <= n;
    QuotientAtLeast(n, q + 1, d);
  }

  /** The number of chunks is bounded: every cut keeps at least max - 127 runes. */
  lemma {:induction false} SplitIsBounded(text: seq<Rune>, max: nat, chunks: seq<seq<Rune>>)
    requires max >= 128 && text != [] && CutsOf(text, max, chunks)
    ensures |chunks| <= (|text| - 1) / (max - 127) + 1
    decreases |text|
  {
    if |text| > max {
      var cut := |chunks[0]|;
      SplitIsBounded(text[cut..], max, chunks[1..]);
      var d := max - 127;
      DivDrops(|text| - 1, cut, d);
    }
  }

  method TrimRight(text: seq<Rune>) returns (r: seq<Rune>)
    ensures r <= text && (r != [] ==> !Whitespace(r[|r| - 1]))
    ensures forall i :: |r| <= i < |text| ==> Whitespace(text[i])
  {
    var n := |text|;
    while n > 0 && (text[n - 1] == SPACE || text[n - 1] == TAB || text[n - 1] == CARRIAGE_RETURN || text[n - 1] == NEWLINE)
      invariant 0 <= n <= |text| && forall i :: n <= i < |text| ==> Whitespace(text[i])
    {
      n := n - 1;
    }
    return text[..n];
  }

  method TrimLeft(text: seq<Rune>) returns (r: seq<Rune>, ghost dropped: nat)
    ensures dropped <= |text| && r == text[dropped..] && (r != [] ==> !Whitespace(r[0]))
    ensures forall i :: 0 <= i < dropped ==> Whitespace(text[i])
  {
    var n := 0;
    while n < |text| && (text[n] == SPACE || text[n] == TAB || text[n] == CARRIAGE_RETURN || text[n] == NEWLINE)
      invariant 0 <= n <= |text| && forall i :: 0 <= i < n ==> Whitespace(text[i])
    {
      n := n + 1;
    }
    return text[n..], n;
  }

  predicate CaptionBreak(c: Rune) {
    c == NEWLINE || c == SPACE || c == TAB
  }

  /** A caption longer than `max` is cut after the last break of the last 64 runes that fit, else at the limit. */
  predicate IsCaptionCut(text: seq<Rune>, max: nat, cut: nat)
    requires 0 < max < |text|
  {
    var low := Max(max - 64, 0);
    && low < cut <= max
    && (forall i :: cut <= i < max ==> !CaptionBreak(text[i]))
    && (CaptionBreak(text[cut - 1]) || cut == max)
    && (cut == max && !CaptionBreak(text[cut - 1]) ==> forall i :: low <= i < max ==> !CaptionBreak(text[i]))
  }

  /** Only whitespace around the cut is lost: the runes between the primary part and position `resume`. */
  ghost predicate CaptionSplit(text: seq<Rune>, max: nat, primary: seq<Rune>, overflow: seq<Rune>, cut: nat, resume: nat)
    requires 0 < max < |text|
  {
    && IsCaptionCut(text, max, cut)
    && 0 < |primary| <= resume <= |text| && primary == text[..|primary|] && overflow == text[resume..]
    && (forall i :: |primary| <= i < resume ==> Whitespace(text[i]))
    && if exists i :: 0 <= i < cut && !Whitespace(text[i])
       then |primary| <= cut <= resume && !Whitespace(primary[|primary| - 1]) && (overflow != [] ==> !Whitespace(overflow[0]))
       else |primary| == max == resume
  }

  method FindCaptionCut(caption: seq<Rune>, max: nat) returns (cut: nat)
    requires 0 < max < |caption|
    ensures IsCaptionCut(caption, max, cut)
  {
    var low := Max(max - 64, 0);
    var i := max - 1;
    while i >= low
      invariant low - 1 <= i < max
      invariant forall k :: i < k < max ==> !CaptionBreak(caption[k])
    {
      if caption[i] == NEWLINE || caption[i] == SPACE || caption[i] == TAB {
        return i + 1;
      }
      i := i - 1;
    }
    return max;
  }

  method SplitCaption(caption: seq<Rune>, maxLen: int) returns (primary: seq<Rune>, overflow: seq<Rune>)
    ensures var max := if maxLen <= 0 then TELEGRAM_CAPTION_LIMIT else maxLen;
      if |caption| <= max then primary == caption && overflow == []
      else |primary| <= max && exists cut, resume :: CaptionSplit(caption, max, primary, overflow, cut, resume)
  {
    var max: nat := if maxLen <= 0 then TELEGRAM_CAPTION_LIMIT else maxLen;
    if |caption| <= max {
      return caption, [];
    }
    var cut := FindCaptionCut(caption, max);
    primary := TrimRight(caption[..cut]);
    ghost var dropped;
    overflow, dropped := TrimLeft(caption[cut..]);
    if primary == [] {
      primary, overflow := caption[..max], caption[max..];
      assert forall k :: 0 <= k < cut ==> caption[k] == caption[..cut][k];
      assert CaptionSplit(caption, max, primary, overflow, cut, max);
    } else {
      forall k | |primary| <= k < cut + dropped ensures Whitespace(caption[k]) {
        assert k < cut ==> caption[k] == caption[..cut][k];
        assert k >= cut ==> caption[k] == caption[cut..][k - cut];
      }
      assert primary[|primary| - 1] == caption[|primary| - 1];
      assert CaptionSplit(caption, max, primary, overflow, cut, cut + dropped);
    }
  }
}
