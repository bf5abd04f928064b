/** The smaller transactions as rules on the columns, which step may move a row, and what keeping a message is good for. */
module ChatRules {
  import opened Prelude
  import opened Domain
  import opened Database
  import opened Planning
  import opened Deliveries
  import opened Timers
  import opened Chats
  import opened Queues
  import opened QuietTransactions
  import opened Steps
  import opened Keys
  import opened Revisions
  import opened Runs
  import opened Guarantees
  import PlanRules
  import SendRules

  // ----- which step moves a row

  /**
   * An event is done by its plan or its completion, set aside by its quarantine, taken by a claim, and waits again by being
   * deferred or recovered. No other step moves it.
   */
  lemma EventMovesOnlyBy(o: Options, db: Db, token: nat, s: Step, i: nat)
    requires LeaseShape(db) && i < |db.inbox|
    requires i < |After(o, db, token, s).inbox| && After(o, db, token, s).inbox[i].state != db.inbox[i].state
    ensures match After(o, db, token, s).inbox[i].state
            case InboxDone => (s.PlanStep? && s.id == i) || (s.CompleteInboxStep? && s.id == i)
            case Quarantined => s.QuarantineStep? && s.id == i
            case InboxLeased => s.ClaimInboxStep?
            case InboxPending => (s.DeferStep? && s.id == i) || s.RecoverStep?
  {
    if s.PlanStep? {
      PlanRules.PlansExactlyWhen(o, db, PlanCall(s.e, s.id, s.token, s.ds, s.timers, s.now, s.clocks));
    } else if s.CompleteTimerStep? {
      ApplyTimerParts(o, db, db.timers[s.id], s.ds, Fence(s.now, s.clocks.first));
    } else if s.AcceptBatch? {
      AcceptAllExtends(o, db.inbox, s.events, s.epoch, s.clock);
    } else if SendStep(s) {
      SendStepFrame(o, db, token, s);
    } else if ChatStep(s) {
      ChatStepFrame(o, db, token, s);
    }
  }

  lemma AppliedOnlySupersedes(db: Db, e: Event, ds: seq<Delivery>, now: int, i: nat)
    requires ApplyEvent(db, e, ds, now).Ok? && i < |db.outbox|
    ensures var b := ApplyEvent(db, e, ds, now).value.db.outbox;
      i < |b| && (b[i].state == db.outbox[i].state || b[i].state == Superseded)
  {
  }

  lemma PlanOnlySupersedes(o: Options, db: Db, c: PlanCall, i: nat)
    requires Plan(o, db, c).Ok? && i < |db.outbox|
    ensures var b := Plan(o, db, c).value.outbox;
      i < |b| && (b[i].state == db.outbox[i].state || b[i].state == Superseded)
  {
    var fenced := Fence(c.now, c.clocks.first);
    var a := ApplyEvent(db, c.e, c.ds, fenced).value;
    AppliedOnlySupersedes(db, c.e, c.ds, fenced, i);
    if !a.suppress {
      InsertAllAppends(o, a.db, c.id, c.ds, a.message, a.chat, fenced);
      ScheduleAllAppends(InsertAll(o, a.db, c.id, c.ds, a.message, a.chat, fenced).value, c.timers, a.message);
    }
  }

  lemma TimerOnlySupersedes(o: Options, db: Db, t: Timer, ds: seq<Delivery>, now: int, i: nat)
    requires HasRow(db.messages, t.message) && ApplyTimer(o, db, t, ds, now).Ok? && i < |db.outbox|
    ensures var b := ApplyTimer(o, db, t, ds, now).value.outbox;
      i < |b| && (b[i].state == db.outbox[i].state || b[i].state == Superseded)
  {
    var inbox := if ds == [] then 0 else OriginInbox(db.outbox, t.message).value;
    InsertRevokesAppends(o, db, t, db.messages[t.message].chat, inbox, ds, now);
  }

  lemma SendMovesOwnRow(o: Options, db: Db, token: nat, s: Step, i: nat)
    requires SendStep(s) && i < |db.outbox| && i < |After(o, db, token, s).outbox|
    requires After(o, db, token, s).outbox[i].state != db.outbox[i].state
    ensures !s.ClaimDeliveryStep? ==> s.id == i
    ensures match s
            case ClaimDeliveryStep(_, _, _) => After(o, db, token, s).outbox[i].state == Leased
            case BeginStep(_, _, _, _) => After(o, db, token, s).outbox[i].state == Sending
            case FailStep(_, _, d, _, _) =>
              After(o, db, token, s).outbox[i].state == d.state
              && (d.state == Pending || d.state == Uncertain || d.state == Blocked || d.state == Dead)
            case _ => After(o, db, token, s).outbox[i].state == Succeeded
  {
    if s.CompleteStep? {
      RecordResultFrame(db, s.id, s.c);
    }
  }

  /**
   * A row is taken by a claim, sent by the begin of its send, settled by the completion or failure of that send, superseded
   * by an event or deletion of its message, and freed by recovery. No other step moves it.
   */
  lemma RowMovesOnlyBy(o: Options, db: Db, token: nat, s: Step, i: nat)
    requires i < |db.outbox| && i < |After(o, db, token, s).outbox|
    requires After(o, db, token, s).outbox[i].state != db.outbox[i].state
    ensures match After(o, db, token, s).outbox[i].state
            case Leased => s.ClaimDeliveryStep?
            case Sending => s.BeginStep? && s.id == i
            case Succeeded => (s.CompleteStep? || s.CompleteTopicStep?) && s.id == i
            case Superseded => s.PlanStep? || s.CompleteTimerStep? || s.TombstoneStep?
            case Blocked => s.FailStep? && s.id == i
            case Dead => s.FailStep? && s.id == i
            case _ => (s.FailStep? && s.id == i) || s.RecoverStep?
  {
    if SendStep(s) {
      SendMovesOwnRow(o, db, token, s, i);
    } else if ChatStep(s) {
      ChatStepFrame(o, db, token, s);
    } else if s.PlanStep? {
      PlanOnlySupersedes(o, db, PlanCall(s.e, s.id, s.token, s.ds, s.timers, s.now, s.clocks), i);
    } else if s.CompleteTimerStep? {
      TimerOnlySupersedes(o, db, db.timers[s.id], s.ds, Fence(s.now, s.clocks.first), i);
    }
  }

  lemma PlanMovesNoTimer(o: Options, db: Db, c: PlanCall)
    requires Plan(o, db, c).Ok?
    ensures db.timers <= Plan(o, db, c).value.timers
  {
    var fenced := Fence(c.now, c.clocks.first);
    var a := ApplyEvent(db, c.e, c.ds, fenced).value;
    ApplyEventQuiet(db, c.e, c.ds, fenced);
    if !a.suppress {
      InsertAllAppends(o, a.db, c.id, c.ds, a.message, a.chat, fenced);
      ScheduleAllAppends(InsertAll(o, a.db, c.id, c.ds, a.message, a.chat, fenced).value, c.timers, a.message);
    }
  }

  /** A timer is taken or cancelled by a claim, done by its completion, and freed by recovery. No other step moves it. */
  lemma TimerMovesOnlyBy(o: Options, db: Db, token: nat, s: Step, i: nat)
    requires i < |db.timers| && i < |After(o, db, token, s).timers|
    requires After(o, db, token, s).timers[i].state != db.timers[i].state
    ensures match After(o, db, token, s).timers[i].state
            case TimerDone => s.CompleteTimerStep? && s.id == i
            case TimerPending => s.RecoverStep?
            case _ => s.ClaimTimerStep?
  {
    match s
    case PlanStep(e, id, t, ds, timers, now, clocks) =>
      PlanMovesNoTimer(o, db, PlanCall(e, id, t, ds, timers, now, clocks));
    case CompleteTimerStep(id, t, ds, now, clocks) => ApplyTimerParts(o, db, db.timers[id], ds, Fence(now, clocks.first));
    case _ =>
      if SendStep(s) {
        SendStepFrame(o, db, token, s);
      } else if ChatStep(s) {
        ChatStepFrame(o, db, token, s);
      }
  }

  // ----- keeping messages

  predicate IsPart(parts: seq<Part>, p: int, ref: MessageRef) {
    0 <= p < |parts| && parts[p].key == Key(ref.platform, ref.chat, ref.author, ref.id)
  }

  /** The flag is set exactly on the standing message of the part, at the version the caller has seen, and on nothing else. */
  lemma KeepsExactlyWhen(db: Db, ref: MessageRef, expected: SourceVersion, kept: bool, p: int)
    requires UniqueParts(db.parts) && IsPart(db.parts, p, ref) && db.parts[p].message < |db.messages|
    ensures var m, r := db.parts[p].message, SetKept(db, ref, expected, kept);
      if ref.Valid() && expected.Valid() && db.messages[m].version == expected && !db.messages[m].tombstone
      then r == Ok(db.(messages := db.messages[m := db.messages[m].(kept := kept)]))
      else r.Err?
  {
    assert FindPart(db.parts, RefKey(ref)) == Some(p);
  }

  lemma UnknownIsNotKept(db: Db, ref: MessageRef, expected: SourceVersion, kept: bool)
    requires forall p :: !IsPart(db.parts, p, ref)
    ensures SetKept(db, ref, expected, kept).Err?
  {
    forall p | 0 <= p < |db.parts| ensures db.parts[p].key != RefKey(ref) {
      assert !IsPart(db.parts, p, ref);
    }
  }

  /** The only steps that a kept message does not survive: a revoke, its deletion by hand, and giving up keeping it. */
  predicate EndsKeeping(s: Step, m: nat) {
    || (s.PlanStep? && s.e.kind == MessageRevoke)
    || (s.TombstoneStep? && s.message == m)
    || (s.KeepStep? && !s.kept)
  }

  predicate StandsKept(messages: seq<Message>, m: nat) {
    m < |messages| && messages[m].kept && !messages[m].tombstone
  }

  lemma PlanKeepsKept(db: Db, e: Event, ds: seq<Delivery>, now: int, m: nat)
    requires ApplyEvent(db, e, ds, now).Ok? && StandsKept(db.messages, m) && e.kind != MessageRevoke
    ensures StandsKept(ApplyEvent(db, e, ds, now).value.db.messages, m)
  {
  }

  lemma TimerKeepsKept(o: Options, db: Db, t: Timer, ds: seq<Delivery>, now: int, m: nat)
    requires HasRow(db.messages, t.message) && ApplyTimer(o, db, t, ds, now).Ok? && StandsKept(db.messages, m)
    ensures StandsKept(ApplyTimer(o, db, t, ds, now).value.messages, m)
  {
    TimerMessages(o, db, t, ds, now);
    if t.kind.Expire? {
      assert t.message != m;
    } else {
      ApplyTimerParts(o, db, t, ds, now);
    }
  }

  lemma PlanStepKeepsKept(o: Options, db: Db, c: PlanCall, m: nat)
    requires Plan(o, db, c).Ok? && StandsKept(db.messages, m) && c.e.kind != MessageRevoke
    ensures StandsKept(Plan(o, db, c).value.messages, m)
  {
    PlanKeepsSources(o, db, c);
    PlanKeepsKept(db, c.e, c.ds, Fence(c.now, c.clocks.first), m);
  }

  lemma OtherStepKeepsKept(o: Options, db: Db, token: nat, s: Step, m: nat)
    requires StandsKept(db.messages, m) && !EndsKeeping(s, m)
    requires !s.PlanStep? && !s.CompleteTimerStep? && !SendStep(s) && !ChatStep(s)
    ensures StandsKept(After(o, db, token, s).messages, m)
  {
  }

  lemma StepKeepsKept(o: Options, db: Db, token: nat, s: Step, m: nat)
    requires StandsKept(db.messages, m) && !EndsKeeping(s, m)
    ensures StandsKept(After(o, db, token, s).messages, m)
  {
    if SendStep(s) {
      SendStepFrame(o, db, token, s);
    } else if ChatStep(s) {
      ChatStepFrame(o, db, token, s);
    } else if s.PlanStep? {
      if Outcome(o, db, token, s).Ok? {
        PlanStepKeepsKept(o, db, PlanCall(s.e, s.id, s.token, s.ds, s.timers, s.now, s.clocks), m);
      }
    } else if s.CompleteTimerStep? {
      if Outcome(o, db, token, s).Ok? {
        TimerKeepsKept(o, db, db.timers[s.id], s.ds, Fence(s.now, s.clocks.first), m);
      }
    } else {
      OtherStepKeepsKept(o, db, token, s, m);
    }
  }

  /** A kept message outlives every timer: it stands until somebody revokes it, deletes it or stops keeping it. */
  lemma {:induction false} KeptStands(o: Options, w: World, steps: seq<Step>, m: nat)
    requires m < |w.db.messages| && w.db.messages[m].kept && !w.db.messages[m].tombstone
    requires forall i :: 0 <= i < |steps| ==> !EndsKeeping(steps[i], m)
    ensures var v := Execute(o, w, steps);
      m < |v.db.messages| && v.db.messages[m].kept && !v.db.messages[m].tombstone
  {
    if steps != [] {
      var before := Execute(o, w, steps[..|steps| - 1]);
      KeptStands(o, w, steps[..|steps| - 1], m);
      StepKeepsKept(o, before.db, |before.issued|, steps[|steps| - 1], m);
    }
  }

  // ----- deleting and retiring

  /**
   * A message deleted by hand takes its parts, their source states and its unsent creates, edits and reactions with it. Its
   * text and everything else stay, and the deletion of an unknown message changes nothing.
   */
  lemma TombstoneDeletes(db: Db, m: int)
    ensures TombstoneMessage(db, m).Ok? <==> m >= 0
    ensures m >= |db.messages| ==> TombstoneMessage(db, m) == Ok(db)
    ensures 0 <= m < |db.messages| ==>
              var b := TombstoneMessage(db, m).value;
              && b == db.(messages := db.messages[m := db.messages[m].(tombstone := true)], parts := b.parts,
                          outbox := b.outbox)
              && |b.parts| == |db.parts| && |b.outbox| == |db.outbox|
              && (forall p :: 0 <= p < |b.parts| ==>
                    b.parts[p] == if db.parts[p].message == m then db.parts[p].(deleted := true, sourceDeleted := true)
                                  else db.parts[p])
              && forall i :: 0 <= i < |b.outbox| ==>
                   var r := db.outbox[i];
                   b.outbox[i] == if r.message == Some(m) && (r.state == Pending || r.state == Leased) && r.startedAt == None
                                     && (r.operation == MessageCreate || r.operation == MessageEdit
                                         || r.operation == ReactionSet)
                                  then r.(state := Superseded, lease := None) else r
  {
  }

  /** A part is retired exactly at the source version the caller has seen; only its flag changes. */
  lemma RetiresExactlyWhen(db: Db, ref: MessageRef, expected: SourceVersion, p: int)
    requires UniqueParts(db.parts) && IsPart(db.parts, p, ref)
    ensures RetirePart(db, ref, expected)
            == if !ref.Valid() || !expected.Valid() then Err(Invalid)
               else if db.parts[p].version != expected then Err(Conflict)
               else Ok(db.(parts := db.parts[p := db.parts[p].(retired := true)]))
  {
    assert FindPart(db.parts, RefKey(ref)) == Some(p);
  }

  // ----- chats

  /** A new chat is recorded without a topic; a known one only gets its title, and stays a partial history once it was one. */
  lemma DiscoveryAddsOrRenames(db: Db, c: Candidate, tgChat: int)
    requires UniqueChats(db.chats)
    ensures DiscoverChat(db, c, tgChat).Ok? <==>
              && c.canonical && tgChat != 0 && |c.jid| <= 256 && '\0' !in c.jid && |c.title| <= 512 && 0 < |c.source| <= 64
              && forall i :: 0 <= i < |db.chats| && db.chats[i].jid == c.jid ==> db.chats[i].tgChat == tgChat
    ensures DiscoverChat(db, c, tgChat).Ok? ==>
      var b := DiscoverChat(db, c, tgChat).value;
      b == db.(chats := b.chats)
      && if forall i :: 0 <= i < |db.chats| ==> db.chats[i].jid != c.jid
         then b.chats == db.chats + [Chat(c.jid, tgChat, None, 0, Discovered, c.title, c.source, c.historyPartial)]
         else exists i :: 0 <= i < |db.chats| && db.chats[i].jid == c.jid && db.chats[i].tgChat == tgChat
                          && b.chats == db.chats[i := db.chats[i].(title := c.title,
                                          historyPartial := db.chats[i].historyPartial || c.historyPartial)]
  {
    var i := FindChat(db.chats, c.jid);
    assert i.Some? ==> db.chats[i.value].jid == c.jid;
  }

  /** A state is set exactly at the generation the caller has seen, never back to discovered, and active only with a topic. */
  lemma StateIsSetExactlyWhen(db: Db, chat: int, generation: int, state: ChatState)
    ensures SetChatState(db, chat, generation, state).Ok? <==>
              && 0 <= chat < |db.chats| && db.chats[chat].generation == generation && state != Discovered
              && (state == Active ==> db.chats[chat].topic.Some?)
    ensures SetChatState(db, chat, generation, state).Ok? ==>
              SetChatState(db, chat, generation, state).value
              == db.(chats := db.chats[chat := db.chats[chat].(state := state)])
  {
  }

  /** No other chat of the group has the topic. */
  ghost predicate TopicFree(chats: seq<Chat>, i: nat, tgChat: int, thread: int) {
    forall j :: 0 <= j < |chats| && j != i && chats[j].tgChat == tgChat ==> chats[j].topic != Some(thread)
  }

  function Rebound(db: Db, i: nat, thread: int, generation: nat): Db
    requires i < |db.chats|
  {
    db.(chats := db.chats[i := db.chats[i].(topic := Some(thread), generation := generation, state := Active)])
  }

  /**
   * A chat takes a topic of its group exactly when it has it already, or when this is the next generation, no other chat
   * has the topic, and the chat has no topic yet or one that is missing, uncertain or blocked.
   */
  lemma BindsExactlyWhen(db: Db, jid: string, topic: TopicRef, i: nat)
    requires UniqueChats(db.chats) && i < |db.chats| && db.chats[i].jid == jid
    ensures var c, r := db.chats[i], BindTopic(db, jid, topic);
      if !(topic.chat != 0 && topic.thread > 0 && topic.generation > 0 && c.tgChat == topic.chat) then r.Err?
      else if c.generation == topic.generation && c.topic == Some(topic.thread) then r == Ok(db)
      else if topic.generation == c.generation + 1 && TopicFree(db.chats, i, topic.chat, topic.thread)
              && (c.topic == None || c.state == Missing || c.state == UncertainTopic || c.state == BlockedTopic)
      then r == Ok(Rebound(db, i, topic.thread, topic.generation))
      else r == Err(Conflict)
  {
    assert FindChat(db.chats, jid) == Some(i);
    if db.chats[i].tgChat == topic.chat {
      assert TopicTaken(db.chats, i, topic) <==> !TopicFree(db.chats, i, topic.chat, topic.thread);
    }
  }

  /** The sent row of a topic operation and the topic the platform reports for it belong together. */
  ghost predicate TopicFits(db: Db, r: OutboxRow, topic: TopicRef)
    requires r.chat < |db.chats|
  {
    var c, d := db.chats[r.chat], r.payload;
    && d.platform == Telegram && d.message == None && d.generation == c.generation && c.tgChat == topic.chat
    && if d.kind == TopicCreate
       then c.state == Discovered && topic.generation == c.generation + 1
            && TopicFree(db.chats, r.chat, topic.chat, topic.thread)
       else d.kind == TopicRename && c.state == Active && topic.generation == c.generation && c.topic == Some(topic.thread)
  }

  /** A topic operation completes exactly when its row is held and sending and the reported topic fits the chat. */
  lemma TopicCompletesExactlyWhen(db: Db, id: int, token: nat, topic: TopicRef, now: int, clocks: Clocks)
    ensures CompleteTopicDelivery(db, id, token, topic, now, clocks).Ok? <==>
              && now != ZERO_TIME && topic.thread > 0 && topic.chat != 0 && topic.generation > 0
              && 0 <= id < |db.outbox| && db.outbox[id].state == Sending && db.outbox[id].chat < |db.chats|
              && SendRules.Held(db.outbox[id].lease, token, now, clocks.first, clocks.second)
              && TopicFits(db, db.outbox[id], topic)
    ensures CompleteTopicDelivery(db, id, token, topic, now, clocks).Ok? ==>
              var r := db.outbox[id];
              var bound := if r.payload.kind == TopicCreate then Rebound(db, r.chat, topic.thread, topic.generation) else db;
              CompleteTopicDelivery(db, id, token, topic, now, clocks).value
              == bound.(outbox := db.outbox[id := r.(state := Succeeded, lease := None)])
  {
    if 0 <= id < |db.outbox| && db.outbox[id].chat < |db.chats| && db.chats[db.outbox[id].chat].tgChat == topic.chat {
      var i := db.outbox[id].chat;
      assert TopicTaken(db.chats, i, topic) <==> !TopicFree(db.chats, i, topic.chat, topic.thread);
    }
  }
}
