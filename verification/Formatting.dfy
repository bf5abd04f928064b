/** Text rewriting that must move entities along: `prependText` and `appendHyperlink` of the coordinator. */
module Formatting {
  import opened Prelude
  import opened Utf16
  import opened Domain

  /** The UTF-16 units an entity covers. */
  function Covered(units: seq<Unit>, e: TextEntity): seq<Unit>
    requires ValidEntity(e, units)
  {
    units[e.start..e.start + e.length]
  }

  /** `moved` is the same entity covering the same units, in another text. */
  predicate Preserved(before: seq<Unit>, e: TextEntity, after: seq<Unit>, moved: TextEntity) {
    && ValidEntity(e, before) && ValidEntity(moved, after) && Covered(after, moved) == Covered(before, e)
    && moved.(start := e.start) == e
  }

  lemma ShiftedEntity(a: seq<Unit>, b: seq<Unit>, e: TextEntity)
    requires ValidEntity(e, b) && (b != [] ==> !IsLowSurrogate(b[0]))
    ensures Preserved(b, e, a + b, e.(start := e.start + |a|))
  {
    assert (a + b)[|a|..] == b;
    if e.start < |b| {
      assert (a + b)[e.start + |a|] == b[e.start];
    }
    if e.start + e.length < |b| {
      assert (a + b)[e.start + |a| + e.length] == b[e.start + e.length];
    }
  }

  lemma KeptEntity(a: seq<Unit>, b: seq<Unit>, e: TextEntity)
    requires ValidEntity(e, a) && (b != [] ==> !IsLowSurrogate(b[0]))
    ensures Preserved(a, e, a + b, e)
  {
    assert (a + b)[..|a|] == a;
    if e.start < |a| {
      assert (a + b)[e.start] == a[e.start];
    }
    if e.start + e.length < |a + b| {
      assert (a + b)[e.start + e.length] ==
             if e.start + e.length < |a| then a[e.start + e.length] else b[e.start + e.length - |a|];
    }
  }

  lemma ShiftedEntities(a: seq<Unit>, b: seq<Unit>, es: seq<TextEntity>, moved: seq<TextEntity>)
    requires (b != [] ==> !IsLowSurrogate(b[0])) && |moved| == |es| && forall k :: 0 <= k < |es| ==> ValidEntity(es[k], b)
    requires forall k :: 0 <= k < |es| ==> moved[k] == es[k].(start := es[k].start + |a|)
    ensures forall k :: 0 <= k < |es| ==> Preserved(b, es[k], a + b, moved[k])
  {
    forall k | 0 <= k < |es| ensures Preserved(b, es[k], a + b, moved[k]) {
      ShiftedEntity(a, b, es[k]);
    }
  }

  lemma PrependedEntities(t: TextContent, prefix: seq<Rune>, r: TextContent)
    requires t.Valid() && r.text == prefix + t.text && |r.entities| == |t.entities|
    requires forall k :: 0 <= k < |t.entities| ==>
               r.entities[k] == t.entities[k].(start := t.entities[k].start + |Encode(prefix)|)
    ensures forall i :: 0 <= i < |r.entities| ==> Preserved(Encode(t.text), t.entities[i], Encode(r.text), r.entities[i])
  {
    EncodeConcat(prefix, t.text);
    ShiftedEntities(Encode(prefix), Encode(t.text), t.entities, r.entities);
  }

  lemma PrependedStaysValid(t: TextContent, prefix: seq<Rune>, r: TextContent)
    requires t.Valid() && r.(entities := []) == t.(text := prefix + t.text, entities := []) && |r.entities| == |t.entities|
    requires forall i :: 0 <= i < |r.entities| ==> Preserved(Encode(t.text), t.entities[i], Encode(r.text), r.entities[i])
    requires Utf8Length(r.text) + |r.forwardLabel| <= MAX_EVENT_BYTES
    ensures r.Valid()
  {
    assert forall i :: 0 <= i < |r.entities| ==> ValidEntity(r.entities[i], Encode(r.text));
  }

  /** Every entity of valid content covers the same units after the prefix is put in front. */
  method PrependText(original: Option<TextContent>, prefix: seq<Rune>) returns (r: TextContent)
    ensures original.None? ==> r == TextContent(prefix, [], None, "", [])
    ensures original.Some? ==> r.(entities := []) == original.value.(text := prefix + original.value.text, entities := [])
    ensures original.Some? ==> |r.entities| == |original.value.entities|
    ensures original.Some? && original.value.Valid() ==>
              forall i :: 0 <= i < |r.entities| ==>
                Preserved(Encode(original.value.text), original.value.entities[i], Encode(r.text), r.entities[i])
    ensures original.Some? && original.value.Valid() && Utf8Length(r.text) + |r.forwardLabel| <= MAX_EVENT_BYTES ==>
              r.Valid()
  {
    if original.None? {
      return TextContent(prefix, [], None, "", []);
    }
    var t := original.value;
    r := t.(text := prefix + t.text, entities := []);
    var shift := |Encode(prefix)|;
    for i := 0 to |t.entities|
      invariant |r.entities| == i && r.(entities := []) == t.(text := prefix + t.text, entities := [])
      invariant forall k :: 0 <= k < i ==> r.entities[k] == t.entities[k].(start := t.entities[k].start + shift)
    {
      r := r.(entities := r.entities + [t.entities[i].(start := t.entities[i].start + shift)]);
    }
    if t.Valid() {
      PrependedEntities(t, prefix, r);
      if Utf8Length(r.text) + |r.forwardLabel| <= MAX_EVENT_BYTES {
        PrependedStaysValid(t, prefix, r);
      }
    }
  }

  function LinkEntity(start: nat, length: nat, url: string): TextEntity {
    TextEntity("text_link", start, length, url, "")
  }

  function LinkBase(text: seq<Rune>): seq<Rune> {
    if text != [] then text + [NEWLINE] else text
  }

  const EMPTY_TEXT := TextContent([], [], None, "", [])

  function TextOf(original: Option<TextContent>): TextContent {
    if original.None? then EMPTY_TEXT else original.value
  }

  function AppendHyperlink(original: Option<TextContent>, name: seq<Rune>, url: string): TextContent {
    var t := TextOf(original);
    var base, length := LinkBase(t.text), |Encode(name)|;
    var link := LinkEntity(|Encode(base)|, length, url);
    t.(text := base + name, entities := if url != "" && length > 0 then t.entities + [link] else t.entities)
  }

  lemma LinkAtEnd(a: seq<Unit>, b: seq<Unit>, url: string)
    requires b != [] && !IsLowSurrogate(b[0]) && |url| <= 4096
    ensures var link := LinkEntity(|a|, |b|, url); ValidEntity(link, a + b) && Covered(a + b, link) == b
  {
    assert (a + b)[|a|..|a| + |b|] == b;
  }

  lemma BaseKeepsEntities(t: TextContent, name: seq<Rune>)
    requires t.Valid()
    ensures forall i :: 0 <= i < |t.entities| ==>
              Preserved(Encode(t.text), t.entities[i], Encode(LinkBase(t.text) + name), t.entities[i])
  {
    var suffix := if t.text != [] then [NEWLINE] + name else name;
    assert LinkBase(t.text) + name == t.text + suffix;
    EncodeConcat(t.text, suffix);
    forall i | 0 <= i < |t.entities|
      ensures Preserved(Encode(t.text), t.entities[i], Encode(LinkBase(t.text) + name), t.entities[i])
    {
      KeptEntity(Encode(t.text), Encode(suffix), t.entities[i]);
    }
  }

  /**
   * The name follows the text, on a line of its own if there is one, with or without an address. Old entities keep their
   * units and the link, which is there exactly for an address and a name, covers exactly the name.
   */
  lemma HyperlinkCoversName(original: Option<TextContent>, name: seq<Rune>, url: string)
    requires (original.Some? ==> original.value.Valid()) && |url| <= 4096
    ensures var t, r := TextOf(original), AppendHyperlink(original, name, url);
      && r.text == (if t.text == [] then name else t.text + [NEWLINE] + name)
      && r.(text := t.text, entities := t.entities) == t && (original.None? ==> t == TextContent([], [], None, "", []))
      && (forall i :: 0 <= i < |t.entities| ==>
            r.entities[i] == t.entities[i] && Preserved(Encode(t.text), t.entities[i], Encode(r.text), t.entities[i]))
      && (url == "" || name == [] ==> r.entities == t.entities)
      && (url != "" && name != [] ==>
            && |r.entities| == |t.entities| + 1 && r.entities[|t.entities|].kind == "text_link"
            && r.entities[|t.entities|].url == url
            && ValidEntity(r.entities[|t.entities|], Encode(r.text))
            && Covered(Encode(r.text), r.entities[|t.entities|]) == Encode(name))
  {
    var t := TextOf(original);
    BaseKeepsEntities(t, name);
    if url != "" && name != [] {
      EncodeConcat(LinkBase(t.text), name);
      LinkAtEnd(Encode(LinkBase(t.text)), Encode(name), url);
    }
  }

  lemma LinkedEntitiesValid(original: Option<TextContent>, name: seq<Rune>, url: string)
    requires (original.Some? ==> original.value.Valid()) && |url| <= 4096
    ensures var r := AppendHyperlink(original, name, url);
      forall i :: 0 <= i < |r.entities| ==> ValidEntity(r.entities[i], Encode(r.text))
  {
    HyperlinkCoversName(original, name, url);
    var t, r := TextOf(original), AppendHyperlink(original, name, url);
    forall i | 0 <= i < |r.entities| ensures ValidEntity(r.entities[i], Encode(r.text)) {
      assert i < |t.entities| ==> Preserved(Encode(t.text), t.entities[i], Encode(r.text), t.entities[i]);
    }
  }

  lemma TextIsValid(original: Option<TextContent>)
    requires original.Some? ==> original.value.Valid()
    ensures TextOf(original).Valid()
  {
  }

  lemma WithEntitiesValid(t: TextContent, text: seq<Rune>, entities: seq<TextEntity>)
    requires t.Valid() && |entities| <= 1024 && Utf8Length(text) + |t.forwardLabel| <= MAX_EVENT_BYTES
    requires forall i :: 0 <= i < |entities| ==> ValidEntity(entities[i], Encode(text))
    ensures t.(text := text, entities := entities).Valid()
  {
  }

  /** Within the size caps the linked text is valid again, so no entity splits a surrogate pair. */
  lemma HyperlinkStaysValid(original: Option<TextContent>, name: seq<Rune>, url: string)
    requires (original.Some? ==> original.value.Valid()) && |url| <= 4096
    requires |AppendHyperlink(original, name, url).entities| <= 1024
    requires Utf8Length(LinkBase(TextOf(original).text) + name) + |TextOf(original).forwardLabel| <= MAX_EVENT_BYTES
    ensures AppendHyperlink(original, name, url).Valid()
  {
    LinkedEntitiesValid(original, name, url);
    TextIsValid(original);
    WithEntitiesValid(TextOf(original), LinkBase(TextOf(original).text) + name, AppendHyperlink(original, name, url).entities);
  }

  // ----- entities and characters

  /** A position that splits no surrogate pair is the end of some first runes of the text. */
  lemma {:induction false} PositionIsRune(text: seq<Rune>, k: nat) returns (i: nat)
    requires k <= |Encode(text)| && !(0 < k < |Encode(text)| && IsLowSurrogate(Encode(text)[k]))
    ensures i <= |text| && |Encode(text[..i])| == k
  {
    if k == 0 {
      i := 0;
    } else {
      var c, rest := text[0], text[1..];
      assert Encode(text) == EncodeRune(c) + Encode(rest);
      assert k >= |EncodeRune(c)|;
      i := PositionIsRune(rest, k - |EncodeRune(c)|);
      assert text[..i + 1] == [c] + rest[..i];
      EncodeFirst(c, rest[..i]);
      i := i + 1;
    }
  }

  lemma EncodedRun(text: seq<Rune>, i: nat, j: nat)
    requires i <= j <= |text|
    ensures |Encode(text[..i])| <= |Encode(text[..j])| <= |Encode(text)|
    ensures Encode(text)[|Encode(text[..i])|..|Encode(text[..j])|] == Encode(text[i..j])
  {
    assert text[..j] == text[..i] + text[i..j] && text == text[..j] + text[j..];
    EncodeConcat(text[..i], text[i..j]);
    EncodeConcat(text[..j], text[j..]);
  }

  lemma RunBetween(text: seq<Rune>, start: nat, length: nat, i: nat, j: nat)
    requires i <= |text| && j <= |text| && length > 0
    requires |Encode(text[..i])| == start && |Encode(text[..j])| == start + length
    ensures i < j && start + length <= |Encode(text)| && Encode(text)[start..start + length] == Encode(text[i..j])
  {
    if j <= i {
      EncodedRun(text, j, i);
    } else {
      EncodedRun(text, i, j);
    }
  }

  /** A valid entity covers whole characters: its units are the UTF-16 form of a run of the text's runes. */
  lemma EntityCoversRunes(text: seq<Rune>, e: TextEntity) returns (i: nat, j: nat)
    requires ValidEntity(e, Encode(text))
    ensures i < j <= |text| && Covered(Encode(text), e) == Encode(text[i..j])
  {
    i := PositionIsRune(text, e.start);
    j := PositionIsRune(text, e.start + e.length);
    RunBetween(text, e.start, e.length, i, j);
  }
}
