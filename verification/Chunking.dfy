/** Long texts sent as several messages: the chunk loops of `internal/coordinator/delivery.go`. */
module Chunking {
  import opened Utf16
  import opened Domain
  import opened Splitting
  import opened Coordinator

  // ----- texts sent in chunks

  /** The chunks of a long text and the roles their parts get. */
  datatype Chunks = Chunks(texts: seq<seq<Rune>>, roles: seq<Role>)

  predicate OnePrimary(roles: seq<Role>) {
    roles != [] && roles[0] == Primary && forall i :: 0 < i < |roles| ==> roles[i] != Primary
  }

  /** A text over the limit is cut into pieces, the first of which is the primary part. */
  method TextChunks(text: seq<Rune>, limit: nat) returns (c: Chunks)
    requires limit > 0 && |text| > limit
    ensures |c.roles| == |c.texts| && OnePrimary(c.roles) && Concat(c.texts) == text
    ensures forall i :: 0 < i < |c.roles| ==> c.roles[i] == Role.Text
    ensures forall i :: 0 <= i < |c.texts| ==> 1 <= |c.texts[i]| <= limit
  {
    var texts := SplitText(text, limit);
    SplitIsLossless(text, limit, texts);
    var roles: seq<Role> := [];
    for i := 0 to |texts|
      invariant |roles| == i && (i > 0 ==> OnePrimary(roles)) && forall k :: 0 < k < i ==> roles[k] == Role.Text
    {
      roles := roles + [if i == 0 then Primary else Role.Text];
    }
    c := Chunks(texts, roles);
  }

  /** The left-over of a caption follows in pieces of its own; none of them is empty, so none is dropped. */
  method AppendOverflow(primary: seq<Rune>, overflow: seq<Rune>) returns (c: Chunks)
    requires overflow != []
    ensures |c.roles| == |c.texts| && OnePrimary(c.roles) && c.texts[0] == primary && Concat(c.texts[1..]) == overflow
    ensures forall i :: 0 < i < |c.roles| ==> c.roles[i] == CaptionOverflow
    ensures forall i :: 0 < i < |c.texts| ==> 1 <= |c.texts[i]| <= TELEGRAM_TEXT_LIMIT
  {
    var texts := SplitText(overflow, TELEGRAM_TEXT_LIMIT);
    SplitIsLossless(overflow, TELEGRAM_TEXT_LIMIT, texts);
    var all, roles := [primary], [Primary];
    for i := 0 to |texts|
      invariant all == [primary] + texts[..i] && |roles| == |all| && OnePrimary(roles)
      invariant forall k :: 0 < k < |roles| ==> roles[k] == CaptionOverflow
    {
      if texts[i] != [] {
        all, roles := all + [texts[i]], roles + [CaptionOverflow];
      }
    }
    assert all[1..] == texts;
    c := Chunks(all, roles);
  }

  /** A long caption keeps its first piece as caption; what is left over follows as text. */
  method CaptionChunks(text: seq<Rune>) returns (c: Chunks)
    requires |text| > TELEGRAM_CAPTION_LIMIT
    ensures |c.roles| == |c.texts| && OnePrimary(c.roles) && 1 <= |c.texts[0]| <= TELEGRAM_CAPTION_LIMIT
    ensures forall i :: 0 < i < |c.roles| ==> c.roles[i] == CaptionOverflow
    ensures forall i :: 0 < i < |c.texts| ==> 1 <= |c.texts[i]| <= TELEGRAM_TEXT_LIMIT
    ensures exists cut, resume ::
              CaptionSplit(text, TELEGRAM_CAPTION_LIMIT, c.texts[0], Concat(c.texts[1..]), cut, resume)
  {
    var primary, overflow := SplitCaption(text, TELEGRAM_CAPTION_LIMIT);
    if overflow == [] {
      c := Chunks([primary], [Primary]);
      assert Concat(c.texts[1..]) == overflow;
    } else {
      c := AppendOverflow(primary, overflow);
    }
  }

  /** Parts of all chunks in order, numbered by chunk and given its role. */
  function Numbered(outcomes: seq<SendOutcome>, roles: seq<Role>, n: nat): seq<DeliveredPart>
    requires n <= |outcomes| && n <= |roles| && forall i :: 0 <= i < n ==> outcomes[i].Delivered?
  {
    if n == 0 then []
    else
      var parts := outcomes[n - 1].parts;
      Numbered(outcomes, roles, n - 1)
      + seq(|parts|, j requires 0 <= j < |parts| => parts[j].(index := n - 1, role := roles[n - 1]))
  }

  /** Sends chunk after chunk and stops at the first failure; `outcomes` are the port's answers. */
  method SendChunks(c: Chunks, outcomes: seq<SendOutcome>, acceptedAt: int) returns (r: SendOutcome)
    requires |c.roles| == |c.texts| == |outcomes|
    ensures (forall i :: 0 <= i < |outcomes| ==> outcomes[i].Delivered?) ==>
              r == Delivered(Numbered(outcomes, c.roles, |outcomes|), acceptedAt)
    ensures forall i :: 0 <= i < |outcomes| && outcomes[i].Failed? && (forall j :: 0 <= j < i ==> outcomes[j].Delivered?) ==>
              r == outcomes[i]
  {
    var all := [];
    for i := 0 to |outcomes|
      invariant forall j :: 0 <= j < i ==> outcomes[j].Delivered?
      invariant all == Numbered(outcomes, c.roles, i)
    {
      if outcomes[i].Failed? {
        return outcomes[i];
      }
      var parts, numbered := outcomes[i].parts, [];
      for j := 0 to |parts|
        invariant |numbered| == j
        invariant forall k :: 0 <= k < j ==> numbered[k] == parts[k].(index := i, role := c.roles[i])
      {
        numbered := numbered + [parts[j].(index := i, role := c.roles[i])];
      }
      assert numbered == seq(|parts|, j requires 0 <= j < |parts| => parts[j].(index := i, role := c.roles[i]));
      all := all + numbered;
    }
    return Delivered(all, acceptedAt);
  }

  /** When every send returns one part, the parts are numbered 0, 1, 2, ... and exactly the first is primary. */
  lemma {:induction false} SingleParts(outcomes: seq<SendOutcome>, roles: seq<Role>, n: nat)
    requires n <= |outcomes| && n <= |roles|
    requires forall i :: 0 <= i < n ==> outcomes[i].Delivered? && |outcomes[i].parts| == 1
    ensures var parts := Numbered(outcomes, roles, n);
      && |parts| == n
      && (forall i :: 0 <= i < n ==> parts[i] == outcomes[i].parts[0].(index := i, role := roles[i]))
      && (OnePrimary(roles) ==> forall i :: 0 <= i < n ==> (parts[i].role == Primary <==> i == 0))
  {
    if n > 0 {
      SingleParts(outcomes, roles, n - 1);
    }
  }
}
