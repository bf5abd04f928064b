/** The topic generation machine and the fence it puts around rows of replaced topics. */
module TopicSafety {
  import opened Prelude
  import opened Domain
  import opened Database
  import opened Deliveries
  import opened Chats
  import opened Queues
  import opened Evolution
  import opened Steps
  import opened Integrity
  import opened Keys

  /** An active chat has a topic, and generation 0 means that no topic was ever bound. */
  predicate ChatShape(c: Chat) {
    (c.generation == 0 <==> c.topic.None?) && (c.state.Active? ==> c.topic.Some?) && (c.state.Discovered? ==> c.topic.None?)
  }

  predicate ChatShapes(chats: seq<Chat>) {
    forall i :: 0 <= i < |chats| ==> ChatShape(chats[i])
  }

  /** One step binds at most one topic, and each binding counts up by exactly one. */
  predicate BindsByOne(a: seq<Chat>, b: seq<Chat>) {
    |a| <= |b| && forall i :: 0 <= i < |a| ==>
      || (b[i].generation == a[i].generation && b[i].topic == a[i].topic)
      || (b[i].generation == a[i].generation + 1 && b[i].topic.Some? && b[i].state.Active?)
  }

  lemma BindKeepsShape(db: Db, i: nat, topic: TopicRef)
    requires ChatShapes(db.chats) && i < |db.chats| && topic.generation == db.chats[i].generation + 1
    ensures ChatShapes(BindRow(db, i, topic).chats) && BindsByOne(db.chats, BindRow(db, i, topic).chats)
  {
  }

  /** In every reachable state the binding machine is consistent, and rebinds count generations without gaps. */
  lemma StepKeepsChatShapes(o: Options, db: Db, token: nat, s: Step)
    requires ChatShapes(db.chats)
    ensures ChatShapes(After(o, db, token, s).chats) && BindsByOne(db.chats, After(o, db, token, s).chats)
  {
    if Outcome(o, db, token, s).Ok? {
      match s
      case CompleteTopicStep(id, t, topic, now, clocks) =>
        if db.outbox[id].payload.kind.TopicCreate? {
          BindKeepsShape(db, db.outbox[id].chat, topic);
        }
      case BindStep(jid, topic) =>
        var i := FindChat(db.chats, jid).value;
        if topic.generation == db.chats[i].generation + 1 {
          BindKeepsShape(db, i, topic);
        }
      case DiscoverStep(c, tgChat) =>
      case ChatStateStep(chat, generation, state) =>
      case _ => ChatsFrame(o, db, token, s);
    }
  }

  /** The row belongs to a topic that has been replaced. */
  predicate Outdated(db: Db, i: nat) {
    i < |db.outbox| && db.outbox[i].chat < |db.chats| && db.outbox[i].generation < db.chats[db.outbox[i].chat].generation
  }

  lemma OutdatedForever(a: Db, b: Db, i: nat)
    requires Evolves(a, b) && Outdated(a, i)
    ensures Outdated(b, i)
  {
    assert OutboxRowGrows(a.outbox[i], b.outbox[i]) && ChatGrows(a.chats[a.outbox[i].chat], b.chats[a.outbox[i].chat]);
  }

  /** No call can claim, begin or successfully complete an outdated row. */
  lemma OutdatedIsFenced(o: Options, db: Db, token: nat, s: Step, i: nat)
    requires LeaseShape(db) && Linked(db) && Outdated(db, i) && Outcome(o, db, token, s).Ok?
    ensures s.ClaimDeliveryStep? ==> ClaimDelivery(db, token, s.now, s.ttl, s.clock).value.id != i
    ensures (s.BeginStep? || s.CompleteStep? || s.CompleteTopicStep?) ==> s.id != i
  {
    assert RowLinked(db, i);
  }

  /** A row is outdated exactly when its generation differs from its chat's: the fence compares for equality. */
  lemma OutdatedOrCurrentGeneration(db: Db, i: nat)
    requires Linked(db) && i < |db.outbox|
    ensures db.outbox[i].chat < |db.chats|
    ensures Outdated(db, i) <==> db.outbox[i].generation != db.chats[db.outbox[i].chat].generation
  {
    assert RowLinked(db, i);
  }

  // ----- what binding means

  /** Chat `i` alone has this topic of its Telegram group. */
  predicate BoundAlone(chats: seq<Chat>, i: nat, topic: TopicRef) {
    && i < |chats| && chats[i].tgChat == topic.chat && chats[i].topic == Some(topic.thread)
    && chats[i].generation == topic.generation
    && forall j :: 0 <= j < |chats| && j != i && chats[j].tgChat == topic.chat ==> chats[j].topic != Some(topic.thread)
  }

  predicate BoundTo(db: Db, i: nat, topic: TopicRef, b: Db) {
    && i < |db.chats| && BoundAlone(b.chats, i, topic) && b == db.(chats := db.chats[i := b.chats[i]])
    && (b == db || (topic.generation == db.chats[i].generation + 1 && b.chats[i].state.Active?))
    && (b != db && db.chats[i].topic.Some? ==>
          db.chats[i].state.Missing? || db.chats[i].state.UncertainTopic? || db.chats[i].state.BlockedTopic?)
  }

  /**
   * A bound topic belongs to this chat alone. Binding it again changes nothing; otherwise it is the next generation, the
   * chat becomes active, and a topic was replaced only if it was missing, uncertain or blocked. Other chats stay.
   */
  lemma BindTopicBinds(db: Db, jid: string, topic: TopicRef)
    requires UniqueChats(db.chats) && BindTopic(db, jid, topic).Ok?
    ensures exists i :: 0 <= i < |db.chats| && db.chats[i].jid == jid && BoundTo(db, i, topic, BindTopic(db, jid, topic).value)
  {
    var i, b := FindChat(db.chats, jid).value, BindTopic(db, jid, topic).value;
    assert b.chats == db.chats[i := b.chats[i]];
    assert BoundTo(db, i, topic, b);
  }

  /**
   * A completed topic creation turns a discovered chat active with this topic, its own alone, in the next generation; a
   * completed rename changes no chat. Either way exactly the sent row is finished.
   */
  lemma TopicCompletionBinds(db: Db, id: int, token: nat, topic: TopicRef, now: int, clocks: Clocks)
    requires UniqueChats(db.chats) && CompleteTopicDelivery(db, id, token, topic, now, clocks).Ok?
    ensures HasRow(db.outbox, id) && db.outbox[id].chat < |db.chats|
    ensures var b, r := CompleteTopicDelivery(db, id, token, topic, now, clocks).value, db.outbox[id];
      && r.state.Sending? && b.outbox == db.outbox[id := r.(state := Succeeded, lease := None)]
      && BoundAlone(b.chats, r.chat, topic) && b == db.(chats := db.chats[r.chat := b.chats[r.chat]], outbox := b.outbox)
      && (r.payload.kind.TopicCreate? ==>
            db.chats[r.chat].state.Discovered? && b.chats[r.chat].state.Active?
            && b.chats[r.chat].generation == db.chats[r.chat].generation + 1)
      && (!r.payload.kind.TopicCreate? ==> r.payload.kind.TopicRename? && b.chats == db.chats)
  {
    var b, r := CompleteTopicDelivery(db, id, token, topic, now, clocks).value, db.outbox[id];
    assert b.chats == db.chats[r.chat := b.chats[r.chat]];
  }
}
