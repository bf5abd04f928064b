/** The normalized values of `internal/domain/contracts.go` and their validity checks. */
module Domain {
  import opened Prelude
  import opened Utf16

  const MAX_EVENT_BYTES: int := 0x10_0000

  datatype Platform = Telegram | WhatsApp

  predicate Bounded(s: string, max: nat) {
    s != "" && |s| <= max && '\0' !in s
  }

  datatype MessageRef = MessageRef(platform: Platform, chat: string, author: string, id: string, device: string) {
    predicate Valid() {
      Bounded(chat, 256) && Bounded(author, 256) && Bounded(id, 256) && |device| <= 256
    }
  }

  /** What `refKey` encodes: the device plays no part in the identity of a message. */
  datatype Key = Key(platform: Platform, chat: string, author: string, id: string)

  function RefKey(ref: MessageRef): Key {
    Key(ref.platform, ref.chat, ref.author, ref.id)
  }

  datatype SourceVersion = SourceVersion(kind: string, order: int, tie: string, digest: string, epoch: string) {
    predicate Valid() {
      Bounded(kind, 64) && order >= 0 && |tie| <= 256 && Bounded(digest, 128) && |epoch| <= 256
    }

    /** Versions are ordered only inside one kind and one stream epoch; equal orders must be the same version. */
    function Compare(other: SourceVersion): Result<int> {
      if !Valid() || !other.Valid() then Err(Invalid)
      else if kind != other.kind || epoch != other.epoch then Err(Conflict)
      else if order < other.order then Ok(-1)
      else if order > other.order then Ok(1)
      else if tie != other.tie || digest != other.digest then Err(Conflict)
      else Ok(0)
    }
  }

  /** Event kinds and outbox operations share their strings; OtherKind is any other string. */
  datatype Kind =
    | MessageCreate | MessageEdit | MessageRevoke | ReactionSet
    | ChatDiscovered | ChatTitle | ChatTimer | TopicState | MessageKeep | TelegramCommand
    | TopicCreate | TopicRename
    | OtherKind(name: string)
  {
    predicate KnownEvent() {
      !TopicCreate? && !TopicRename? && !OtherKind?
    }

    predicate Operation() {
      MessageCreate? || MessageEdit? || MessageRevoke? || ReactionSet? || TopicCreate? || TopicRename?
    }

    /** The operations a tombstone forbids. */
    predicate Additive() {
      MessageCreate? || MessageEdit? || ReactionSet?
    }
  }

  datatype TextEntity = TextEntity(kind: string, start: int, length: int, url: string, mention: string)

  datatype IdentityLink = IdentityLink(telegramUser: int, jid: string)

  predicate ValidEntity(e: TextEntity, units: seq<Unit>) {
    && Bounded(e.kind, 64) && 0 <= e.start <= |units| && 0 < e.length <= |units| - e.start
    && |e.url| <= 4096 && |e.mention| <= 256
    && !(0 < e.start < |units| && IsLowSurrogate(units[e.start]))
    && !(e.start + e.length < |units| && IsLowSurrogate(units[e.start + e.length]))
  }

  datatype TextContent = TextContent(text: seq<Rune>, entities: seq<TextEntity>, replyTo: Option<MessageRef>,
                                     forwardLabel: string, mentionTargets: seq<IdentityLink>)
  {
    predicate Valid() {
      && Utf8Length(text) + |forwardLabel| <= MAX_EVENT_BYTES && |entities| <= 1024 && |mentionTargets| <= 1024
      && (replyTo.Some? ==> replyTo.value.Valid())
      && (forall i :: 0 <= i < |entities| ==> ValidEntity(entities[i], Encode(text)))
      && (forall i :: 0 <= i < |mentionTargets| ==>
            mentionTargets[i].telegramUser > 0 && Bounded(mentionTargets[i].jid, 256))
    }
  }

  datatype Event = Event(key: string, source: Platform, kind: Kind, chat: string, target: Option<MessageRef>,
                         actor: string, occurredAt: int, version: SourceVersion, text: Option<TextContent>,
                         metadata: string, raw: string, thread: int)
  {
    predicate Valid() {
      && Bounded(key, 512) && (kind.OtherKind? ==> Bounded(kind.name, 64)) && Bounded(chat, 256) && Bounded(actor, 256)
      && version.Valid() && |metadata| + |raw| <= MAX_EVENT_BYTES
      && (kind.MessageCreate? || kind.MessageEdit? || kind.MessageRevoke? || kind.ReactionSet? || kind.MessageKeep?
          ==> target.Some?)
      && thread >= 0 && (source != Telegram ==> thread == 0)
      && (target.Some? ==> target.value.Valid() && target.value.platform == source && target.value.chat == chat)
      && (text.Some? ==> text.value.Valid())
    }
  }

  datatype Role = Primary | Media | Text | CaptionOverflow | Fallback | RevisionNotice | OtherRole(name: string)

  /** UndefinedBit stands for any capability bit above the seven defined ones. */
  datatype Capability = EditText | EditCaption | EditMedia | CanDelete | CanRevoke | CanReact | CanPin | UndefinedBit

  datatype DeliveredPart = DeliveredPart(ref: MessageRef, index: int, role: Role, owned: bool, caps: set<Capability>,
                                         generation: int, deleted: bool, retired: bool)
  {
    predicate Valid() {
      && ref.Valid() && index >= 0 && UndefinedBit !in caps
      && (!owned ==> EditText !in caps && EditCaption !in caps && EditMedia !in caps)
      && !role.OtherRole?
    }
  }

  /** The capability that lets the bridge remove a part on its platform. */
  function RemovalCapability(p: Platform): Capability {
    if p == Telegram then CanDelete else CanRevoke
  }

  /** An outbox intent. Positions replace row ids: `None` is the source's id 0. */
  datatype Delivery = Delivery(operationKey: string, platform: Platform, kind: Kind, chat: int, generation: int,
                               message: Option<int>, dependsOn: Option<int>, target: Option<MessageRef>,
                               version: SourceVersion, text: Option<TextContent>, sendId: string, echoActor: string,
                               raw: string)

  datatype Completion = Completion(parts: seq<DeliveredPart>, acceptedAt: int, version: SourceVersion,
                                   echoKeys: seq<string>)

  datatype TopicRef = TopicRef(chat: int, thread: int, generation: int)

  datatype ErrorClass = Transient | RateLimited | Permission | Permanent | ConflictClass | UncertainClass
                      | OtherClass(name: string)

  function Digits(n: nat): (s: string)
    ensures |s| >= 1
    ensures n >= 10 ==> |s| >= 2
    ensures forall i :: 0 <= i < |s| ==> '0' <= s[i] <= '9'
  {
    if n < 10 then ['0' + n as char] else Digits(n / 10) + ['0' + (n % 10) as char]
  }

  /** `strconv.FormatInt(n, 10)`. */
  function Decimal(n: int): string {
    if n < 0 then "-" + Digits(-n) else Digits(n)
  }

  lemma LastDigit(n: nat)
    ensures Digits(n)[|Digits(n)| - 1] as int == '0' as int + n % 10
    ensures n >= 10 ==> Digits(n)[..|Digits(n)| - 1] == Digits(n / 10)
  {
  }

  lemma {:induction false} DigitsInjective(a: nat, b: nat)
    requires Digits(a) == Digits(b)
    ensures a == b
  {
    LastDigit(a);
    LastDigit(b);
    if a >= 10 && b >= 10 {
      DigitsInjective(a / 10, b / 10);
    }
  }

  lemma DecimalInjective(a: int, b: int)
    requires Decimal(a) == Decimal(b)
    ensures a == b
  {
    assert (Decimal(a)[0] == '-') == (a < 0) && (Decimal(b)[0] == '-') == (b < 0);
    if a < 0 {
      assert Decimal(a)[1..] == Digits(-a) && Decimal(b)[1..] == Digits(-b);
      DigitsInjective(-a, -b);
    } else {
      DigitsInjective(a, b);
    }
  }
}
