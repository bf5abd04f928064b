/** Chat bindings and mapped parts: `internal/store/chats.go` and the writes of `internal/store/mappings.go`. */
module Chats {
  import opened Prelude
  import opened Domain
  import opened Database
  import opened Planning
  import opened Deliveries

  /** `canonical` is the verdict of the JID parser, which is not part of this model. */
  datatype Candidate = Candidate(jid: string, canonical: bool, title: string, source: string, historyPartial: bool)

  predicate ValidCandidate(c: Candidate, tgChat: int) {
    c.canonical && tgChat != 0 && |c.jid| <= 256 && '\0' !in c.jid && |c.title| <= 512 && c.source != "" && |c.source| <= 64
  }

  function DiscoverChat(db: Db, c: Candidate, tgChat: int): Result<Db> {
    if !ValidCandidate(c, tgChat) then Err(Invalid)
    else
      var known := FindChat(db.chats, c.jid);
      if known.None? then
        Ok(db.(chats := db.chats + [Chat(c.jid, tgChat, None, 0, Discovered, c.title, c.source, c.historyPartial)]))
      else
        var row := db.chats[known.value];
        if row.tgChat != tgChat then Err(Conflict)
        else Ok(db.(chats := db.chats[known.value :=
                row.(title := c.title, historyPartial := row.historyPartial || c.historyPartial)]))
  }

  function BindTopic(db: Db, jid: string, topic: TopicRef): Result<Db> {
    if topic.chat == 0 || topic.thread <= 0 || topic.generation <= 0 then Err(Invalid)
    else
      var known := FindChat(db.chats, jid);
      if known.None? then Err(NoWork)
      else
        var c := db.chats[known.value];
        if c.tgChat != topic.chat then Err(Conflict)
        else if c.generation == topic.generation && c.topic == Some(topic.thread) then Ok(db)
        else if topic.generation != c.generation + 1
                || (c.topic.Some? && c.state != Missing && c.state != UncertainTopic && c.state != BlockedTopic)
                || TopicTaken(db.chats, known.value, topic) then Err(Conflict)
        else Ok(BindRow(db, known.value, topic))
  }

  function SetChatState(db: Db, chat: int, generation: int, state: ChatState): Result<Db> {
    if state.Discovered? then Err(Invalid)
    else if !HasRow(db.chats, chat) || db.chats[chat].generation != generation
            || (state.Active? && db.chats[chat].topic.None?) then Err(Conflict)
    else Ok(db.(chats := db.chats[chat := db.chats[chat].(state := state)]))
  }

  function RetirePart(db: Db, ref: MessageRef, expected: SourceVersion): Result<Db> {
    if !ref.Valid() || !expected.Valid() then Err(Invalid)
    else
      var p := FindPart(db.parts, RefKey(ref));
      if p.None? || db.parts[p.value].version != expected then Err(Conflict)
      else Ok(db.(parts := db.parts[p.value := db.parts[p.value].(retired := true)]))
  }

  /** Deletes a message locally and leaves its stored text in place. */
  function TombstoneMessage(db: Db, m: int): Result<Db> {
    if m < 0 then Err(Invalid) else if !HasRow(db.messages, m) then Ok(db) else Ok(Entomb(db, m))
  }
}
