/** The expiry step of the coordinator: claim a timer, build the revokes of its parts, complete it. */
module Expiries {
  import opened Prelude
  import opened Domain
  import opened Database
  import opened Timers
  import opened Keys
  import opened BridgeStore

  function PlatformName(p: Platform): string {
    if p == Telegram then "telegram" else "whatsapp"
  }

  /** The native reference of a part; the store keeps no device. */
  function RefOf(key: Key): MessageRef {
    MessageRef(key.platform, key.chat, key.author, key.id, "")
  }

  function RevokeFor(c: ClaimedTimer, p: Part, sendId: string): Delivery {
    var whatsapp := p.key.platform == WhatsApp;
    Delivery("timer:revoke:" + Decimal(c.id + 1) + ":" + PlatformName(p.key.platform) + ":" + p.key.id, p.key.platform,
             MessageRevoke, c.chat, p.generation, Some(c.t.message), None, Some(RefOf(p.key)), c.t.version, None,
             if whatsapp then sendId else "", if whatsapp then p.key.chat else "", "")
  }

  /** The positions below `n` of the parts an expiry removes. */
  function RemovableAt(parts: seq<Part>, n: nat): (at: seq<nat>)
    requires n <= |parts|
    ensures forall i :: 0 <= i < |at| ==> at[i] < n && Removable(parts[at[i]])
    ensures forall i, j :: 0 <= i < j < |at| ==> at[i] < at[j]
    ensures forall p :: 0 <= p < n && Removable(parts[p]) ==> p in at
  {
    if n == 0 then []
    else if Removable(parts[n - 1]) then RemovableAt(parts, n - 1) + [n - 1]
    else RemovableAt(parts, n - 1)
  }

  /** One revoke for each removable part of the claimed snapshot, with the send id the port allocates for it. */
  function Revokes(c: ClaimedTimer, sendId: nat -> string, n: nat): (ds: seq<Delivery>)
    requires n <= |c.parts|
  {
    var at := RemovableAt(c.parts, n);
    seq(|at|, i requires 0 <= i < |at| => RevokeFor(c, c.parts[at[i]], sendId(at[i])))
  }

  method BuildRevokes(c: ClaimedTimer, sendId: nat -> string) returns (ds: seq<Delivery>)
    ensures ds == if c.t.kind.Expire? then Revokes(c, sendId, |c.parts|) else []
  {
    ds := [];
    if c.t.kind.Expire? {
      for i := 0 to |c.parts|
        invariant ds == Revokes(c, sendId, i)
      {
        if Removable(c.parts[i]) {
          ds := ds + [RevokeFor(c, c.parts[i], sendId(i))];
        }
      }
    }
  }

  lemma {:induction false} PartsOfMembers(parts: seq<Part>, m: nat)
    ensures forall x: Part :: x in PartsOf(parts, m) <==> x in parts && x.message == m
  {
    if parts != [] {
      var n := |parts| - 1;
      PartsOfMembers(parts[..n], m);
      assert parts == parts[..n] + [parts[n]];
    }
  }

  predicate DistinctKeys(parts: seq<Part>) {
    forall i, j :: 0 <= i < j < |parts| ==> parts[i].key != parts[j].key
  }

  lemma {:induction false} PartsOfDistinct(parts: seq<Part>, m: nat)
    requires DistinctKeys(parts)
    ensures DistinctKeys(PartsOf(parts, m))
  {
    if parts != [] {
      var n := |parts| - 1;
      PartsOfDistinct(parts[..n], m);
      PartsOfMembers(parts[..n], m);
      var rest := PartsOf(parts[..n], m);
      forall i | 0 <= i < |rest| ensures rest[i].key != parts[n].key {
        assert rest[i] in parts[..n];
      }
    }
  }

  /** The list StepTimer builds passes the store's cover check whenever the message's parts are those of the claim. */
  lemma BuiltRevokesCover(parts: seq<Part>, c: ClaimedTimer, sendId: nat -> string)
    requires UniqueParts(parts) && c.parts == PartsOf(parts, c.t.message)
    ensures Covers(parts, c.t.message, Revokes(c, sendId, |c.parts|))
  {
    var m, ds, at := c.t.message, Revokes(c, sendId, |c.parts|), RemovableAt(c.parts, |c.parts|);
    PartsOfMembers(parts, m);
    PartsOfDistinct(parts, m);
    forall i | 0 <= i < |ds| ensures ds[i].target.Some? && Needed(parts, m, RefKey(ds[i].target.value)) {
      assert c.parts[at[i]] in parts && RefKey(ds[i].target.value) == c.parts[at[i]].key;
    }
    forall p | 0 <= p < |parts| && parts[p].message == m && Removable(parts[p])
      ensures exists i :: 0 <= i < |ds| && TargetOf(ds[i]) == Some(parts[p].key)
    {
      var q :| 0 <= q < |c.parts| && c.parts[q] == parts[p];
      var i :| 0 <= i < |at| && at[i] == q;
      assert TargetOf(ds[i]) == Some(parts[p].key);
    }
  }

  /**
   * Every entry of the list revokes one removable part, in that part's generation and for the timer's message and version,
   * with the fields CompleteTimer asks for; a WhatsApp revoke has the send id allocated for it.
   */
  lemma BuiltRevokesAreIntents(c: ClaimedTimer, sendId: nat -> string, i: nat)
    requires c.t.kind.Expire? && i < |Revokes(c, sendId, |c.parts|)|
    ensures var d := Revokes(c, sendId, |c.parts|)[i];
      && d.kind == MessageRevoke && d.message == Some(c.t.message) && d.chat == c.chat && d.version == c.t.version
      && d.dependsOn == None && d.text == None
      && exists p :: 0 <= p < |c.parts|
           && c.parts[p].owned && !c.parts[p].deleted && !c.parts[p].retired
           && d.platform == c.parts[p].key.platform && d.generation == c.parts[p].generation
           && d.target == Some(MessageRef(d.platform, c.parts[p].key.chat, c.parts[p].key.author, c.parts[p].key.id, ""))
           && d.operationKey == "timer:revoke:" + Decimal(c.id + 1) + ":" + PlatformName(d.platform) + ":" + c.parts[p].key.id
           && (if d.platform == WhatsApp then d.sendId == sendId(p) && d.echoActor == c.parts[p].key.chat
               else d.sendId == "" && d.echoActor == "")
    ensures RevokeIntent(c.t, c.chat, Revokes(c, sendId, |c.parts|)[i])
  {
    var p := RemovableAt(c.parts, |c.parts|)[i];
    assert c.parts[p].owned;
  }

  /** What a claim of timer `id` hands to the coordinator. */
  function ClaimedOf(db: Db, id: nat, token: nat): ClaimedTimer
    requires id < |db.timers| && db.timers[id].message < |db.messages|
  {
    var t := db.timers[id];
    ClaimedTimer(t, db.messages[t.message].chat, id, token, PartsOf(db.parts, t.message))
  }

  /** What one timer step leaves behind: nothing, the cancellations of the claim, or the completed timer. */
  ghost predicate Stepped(o: Options, before: Db, token: nat, now: int, ttl: int, clock: int, clocks: Clocks,
                          sendId: nat -> string, after: Db, r: Result<()>)
  {
    var claim := ClaimTimer(before, token, now, ttl, clock);
    if claim.Err? then r == Err(claim.error) && after == before
    else if claim.value.id.None? then r == Err(NoWork) && after == claim.value.db
    else
      var id := claim.value.id.value;
      && id < |before.timers| && before.timers[id].message < |before.messages|
      && var c := ClaimedOf(before, id, token);
         var ds := if c.t.kind.Expire? then Revokes(c, sendId, |c.parts|) else [];
         Commits(claim.value.db, CompleteTimer(o, claim.value.db, id, token, ds, now, clocks), after, r)
  }

  method StepTimer(store: Store, now: int, ttl: int, clock: int, clocks: Clocks, sendId: nat -> string)
    returns (r: Result<()>)
    modifies store
    ensures Stepped(store.options, old(store.db), old(store.tokens), now, ttl, clock, clocks, sendId, store.db, r)
  {
    var claimed := store.ClaimTimer(now, ttl, clock);
    if claimed.Err? {
      return Err(claimed.error);
    }
    var ds := BuildRevokes(claimed.value, sendId);
    assert claimed.value == ClaimedOf(old(store.db), claimed.value.id, claimed.value.token);
    r := store.CompleteTimer(claimed.value.id, claimed.value.token, ds, now, clocks);
  }
}
