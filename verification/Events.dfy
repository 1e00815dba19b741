/**
 Wire frames, public events and the mappers between them
 (conv_event.go, conv_message.go:264-331, resumable.go:288-307).
 Message bodies, reactions and stickers are carried through unchanged.
 */
module Events {
  import opened Prelude

  datatype EventContext = EventContext(
    actor: Option<string>, chatGuid: string, isFromMe: bool, occurredAt: int)

  datatype Reaction = Reaction(kind: string, emoji: string)
  datatype Placement = Placement(x: real, y: real, scale: Option<real>)

  /** The oneof inside a message change; `UnknownChange` is any case the client does not know. */
  datatype ChangeBody =
    | ReceivedBody(message: string)
    | EditedBody(guid: string, content: string, editedAt: int)
    | ReadBody(guid: string, readAt: int)
    | UnsentBody(guid: string, retractedAt: int)
    | ReactionAddedBody(guid: string, reaction: Reaction, target: Option<int>)
    | ReactionRemovedBody(guid: string, reaction: Reaction, target: Option<int>)
    | StickerPlacedBody(guid: string, sticker: Option<string>, placement: Option<Placement>, target: Option<int>)
    | UnknownChange

  datatype MessageChange = MessageChange(
    actor: Option<string>, chatGuid: string, isFromMe: bool, occurredAt: int, body: ChangeBody)

  datatype MessageEvent =
    | MessageReceived(ctx: EventContext, sequence: nat, message: string)
    | MessageEdited(ctx: EventContext, sequence: nat, guid: string, content: string, editedAt: int)
    | MessageRead(ctx: EventContext, sequence: nat, guid: string, readAt: int)
    | MessageUnsent(ctx: EventContext, sequence: nat, guid: string, retractedAt: int)
    | MessageReactionAdded(ctx: EventContext, sequence: nat, guid: string, reaction: Reaction, target: Option<int>)
    | MessageReactionRemoved(ctx: EventContext, sequence: nat, guid: string, reaction: Reaction, target: Option<int>)
    | MessageStickerPlaced(ctx: EventContext, sequence: nat, guid: string, sticker: Option<string>,
                           placement: Option<Placement>, target: Option<int>)

  datatype Family = ChatFamily | GroupFamily | PollFamily

  /** A change of another family; `recognised` says whether its own oneof is known to the client. */
  datatype FamilyChange = FamilyChange(ctx: EventContext, detail: string, recognised: bool)

  datatype CatchUpPayload =
    | MessageChanged(change: Option<MessageChange>)
    | FamilyChanged(family: Family, other: Option<FamilyChange>)
    | Complete(headSequence: nat)
    | NoPayload

  datatype CatchUpFrame = CatchUpFrame(seqno: nat, payload: CatchUpPayload)

  datatype LivePayload =
    | LiveMessageChanged(change: Option<MessageChange>)
    | Heartbeat
    | NoLivePayload

  datatype LiveFrame = LiveFrame(seqno: nat, payload: LivePayload)

  datatype CatchUpEvent =
    | FromMessage(event: MessageEvent)
    | FromFamily(family: Family, ctx: EventContext, sequence: nat, detail: string)
    | CatchupComplete(headSequence: nat)

  /** What a MapFunc answers: emit a value, drop the frame, or fail the stream. */
  datatype MapResult<+T, +E> = Emit(value: T) | Drop | Fail(error: E)

  function MessageEventFromChange(change: Option<MessageChange>, sequence: nat): Option<MessageEvent> {
    match change
    case None => None
    case Some(c) =>
      var ctx := EventContext(c.actor, c.chatGuid, c.isFromMe, c.occurredAt);
      match c.body
      case ReceivedBody(m) => Some(MessageReceived(ctx, sequence, m))
      case EditedBody(g, content, at) => Some(MessageEdited(ctx, sequence, g, content, at))
      case ReadBody(g, at) => Some(MessageRead(ctx, sequence, g, at))
      case UnsentBody(g, at) => Some(MessageUnsent(ctx, sequence, g, at))
      case ReactionAddedBody(g, r, t) => Some(MessageReactionAdded(ctx, sequence, g, r, t))
      case ReactionRemovedBody(g, r, t) => Some(MessageReactionRemoved(ctx, sequence, g, r, t))
      case StickerPlacedBody(g, s, p, t) => Some(MessageStickerPlaced(ctx, sequence, g, s, p, t))
      case UnknownChange => None
  }

  function FamilyEventFromChange(family: Family, change: Option<FamilyChange>, sequence: nat): Option<CatchUpEvent> {
    match change
    case None => None
    case Some(c) => if c.recognised then Some(FromFamily(family, c.ctx, sequence, c.detail)) else None
  }

  function CatchUpEventFromProto<E>(frame: CatchUpFrame): MapResult<CatchUpEvent, E> {
    match frame.payload
    case MessageChanged(change) =>
      (match MessageEventFromChange(change, frame.seqno)
       case Some(e) => Emit(FromMessage(e))
       case None => Drop)
    case FamilyChanged(family, change) =>
      (match FamilyEventFromChange(family, change, frame.seqno)
       case Some(e) => Emit(e)
       case None => Drop)
    case Complete(head) => Emit(CatchupComplete(head))
    case NoPayload => Drop
  }

  function MessageEventFromProto<E>(frame: LiveFrame): MapResult<MessageEvent, E> {
    match frame.payload
    case LiveMessageChanged(change) =>
      (match MessageEventFromChange(change, frame.seqno)
       case Some(e) => Emit(e)
       case None => Drop)
    case Heartbeat => Drop
    case NoLivePayload => Drop
  }

  /** The chat and sequence the cursor logic reads off an event. */
  function MessageEventMeta(ev: MessageEvent): (string, nat) {
    (ev.ctx.chatGuid, ev.sequence)
  }

  /**
   One server change on both feeds: the catch-up frame and the live frame that carry it.
   Anything but a message change reaches the live message feed as a frame that is dropped there.
   */
  function LiveFrameOf(frame: CatchUpFrame): LiveFrame {
    match frame.payload
    case MessageChanged(change) => LiveFrame(frame.seqno, LiveMessageChanged(change))
    case _ => LiveFrame(frame.seqno, NoLivePayload)
  }

  /** The message events a mapped catch-up feed carries, in order. */
  function CatchUpMessages(frames: seq<CatchUpFrame>): seq<MessageEvent> {
    if frames == [] then []
    else
      (match CatchUpEventFromProto<string>(frames[0])
       case Emit(FromMessage(e)) => [e]
       case _ => []) + CatchUpMessages(frames[1..])
  }

  /** The message events a mapped live feed carries, in order. */
  function LiveMessages(frames: seq<LiveFrame>): seq<MessageEvent> {
    if frames == [] then []
    else
      (match MessageEventFromProto<string>(frames[0])
       case Emit(e) => [e]
       case _ => []) + LiveMessages(frames[1..])
  }

  function LiveFramesOf(frames: seq<CatchUpFrame>): (r: seq<LiveFrame>)
    ensures |r| == |frames|
  {
    if frames == [] then [] else [LiveFrameOf(frames[0])] + LiveFramesOf(frames[1..])
  }

  // ----- what the mappers say, read backwards -----

  function BodyOf(e: MessageEvent): ChangeBody {
    match e
    case MessageReceived(_, _, message) => ReceivedBody(message)
    case MessageEdited(_, _, guid, content, editedAt) => EditedBody(guid, content, editedAt)
    case MessageRead(_, _, guid, readAt) => ReadBody(guid, readAt)
    case MessageUnsent(_, _, guid, retractedAt) => UnsentBody(guid, retractedAt)
    case MessageReactionAdded(_, _, guid, reaction, target) => ReactionAddedBody(guid, reaction, target)
    case MessageReactionRemoved(_, _, guid, reaction, target) => ReactionRemovedBody(guid, reaction, target)
    case MessageStickerPlaced(_, _, guid, sticker, placement, target) =>
      StickerPlacedBody(guid, sticker, placement, target)
  }

  /** The change an event reports. */
  function ChangeOf(e: MessageEvent): MessageChange {
    MessageChange(e.ctx.actor, e.ctx.chatGuid, e.ctx.isFromMe, e.ctx.occurredAt, BodyOf(e))
  }

  /** A change there is nothing to report of. */
  predicate Unreportable(change: Option<MessageChange>) {
    change.None? || change.value.body.UnknownChange?
  }

  /** The mapper drops exactly the missing and the unknown changes; any other can be read off its event. */
  lemma {:induction false} ChangeRoundTrip(change: Option<MessageChange>, sequence: nat)
    ensures MessageEventFromChange(change, sequence).None? <==> Unreportable(change)
    ensures !Unreportable(change) ==>
              var e := MessageEventFromChange(change, sequence).value;
              ChangeOf(e) == change.value && e.sequence == sequence
  {
  }

  /** Every event is the image of the change it reports. */
  lemma {:induction false} EventRoundTrip(e: MessageEvent)
    ensures MessageEventFromChange(Some(ChangeOf(e)), e.sequence) == Some(e)
  {
  }

  /** The catch-up frame an event reports; only a completion does not tell its own sequence. */
  function FrameOf(e: CatchUpEvent, seqno: nat): CatchUpFrame {
    match e
    case FromMessage(event) => CatchUpFrame(event.sequence, MessageChanged(Some(ChangeOf(event))))
    case FromFamily(family, ctx, sequence, detail) =>
      CatchUpFrame(sequence, FamilyChanged(family, Some(FamilyChange(ctx, detail, true))))
    case CatchupComplete(head) => CatchUpFrame(seqno, Complete(head))
  }

  /** A catch-up frame that becomes no event. */
  predicate Empty(payload: CatchUpPayload) {
    match payload
    case MessageChanged(change) => Unreportable(change)
    case FamilyChanged(_, change) => change.None? || !change.value.recognised
    case Complete(_) => false
    case NoPayload => true
  }

  /**
   The catch-up mapper drops exactly the empty frames; any other can be read off its event, and every
   event occurs.
   */
  lemma {:induction false} CatchUpRoundTrip(frame: CatchUpFrame, event: CatchUpEvent, seqno: nat)
    ensures CatchUpEventFromProto<string>(frame).Drop? <==> Empty(frame.payload)
    ensures !Empty(frame.payload) ==>
              CatchUpEventFromProto<string>(frame).Emit?
              && FrameOf(CatchUpEventFromProto<string>(frame).value, frame.seqno) == frame
    ensures CatchUpEventFromProto<string>(FrameOf(event, seqno)) == Emit(event)
  {
  }

  /**
   The live mapper drops exactly heartbeats, unknown payloads and unreportable changes; any other can be
   read off its event.
   */
  lemma {:induction false} LiveRoundTrip(frame: LiveFrame, event: MessageEvent)
    ensures MessageEventFromProto<string>(frame).Drop?
            <==> !frame.payload.LiveMessageChanged? || Unreportable(frame.payload.change)
    ensures frame.payload.LiveMessageChanged? && !Unreportable(frame.payload.change) ==>
              var mapped := MessageEventFromProto<string>(frame);
              && mapped.Emit? && mapped.value.sequence == frame.seqno
              && frame.payload.change == Some(ChangeOf(mapped.value))
    ensures MessageEventFromProto<string>(LiveFrame(event.sequence, LiveMessageChanged(Some(ChangeOf(event)))))
            == Emit(event)
  {
  }

  /** Frame by frame: both mappers emit the same event or both drop it, and neither ever fails. */
  lemma {:induction false} MappersAgree(frame: CatchUpFrame)
    ensures !CatchUpEventFromProto<string>(frame).Fail? && !MessageEventFromProto<string>(LiveFrameOf(frame)).Fail?
    ensures forall e :: CatchUpEventFromProto<string>(frame) == Emit(FromMessage(e))
                        <==> MessageEventFromProto<string>(LiveFrameOf(frame)) == Emit(e)
    ensures forall e :: CatchUpEventFromProto<string>(frame) == Emit(FromMessage(e)) ==>
                          frame.payload.MessageChanged? && frame.payload.change.Some?
                          && MessageEventMeta(e) == (frame.payload.change.value.chatGuid, frame.seqno)
  {
  }

  /** Whole feeds: the same changes read through either mapper give the same event sequence. */
  lemma {:induction false} FeedsAgree(frames: seq<CatchUpFrame>)
    ensures CatchUpMessages(frames) == LiveMessages(LiveFramesOf(frames))
  {
    if frames == [] {
    } else {
      MappersAgree(frames[0]);
      var live := LiveFramesOf(frames);
      assert live[1..] == LiveFramesOf(frames[1..]);
      FeedsAgree(frames[1..]);
    }
  }

  /** An emitted event is never confused with another record's: it carries its own frame's sequence. */
  lemma {:induction false} MessagesCarrySequences(frames: seq<CatchUpFrame>, k: nat)
    requires k < |CatchUpMessages(frames)|
    ensures exists i :: 0 <= i < |frames| && frames[i].seqno == MessageEventMeta(CatchUpMessages(frames)[k]).1
                        && CatchUpEventFromProto<string>(frames[i]) == Emit(FromMessage(CatchUpMessages(frames)[k]))
  {
    var rest := CatchUpMessages(frames[1..]);
    var first := CatchUpEventFromProto<string>(frames[0]);
    if first.Emit? && first.value.FromMessage? && k == 0 {
      MappersAgree(frames[0]);
      assert frames[0].seqno == MessageEventMeta(CatchUpMessages(frames)[0]).1;
    } else {
      var later := if first.Emit? && first.value.FromMessage? then k - 1 else k;
      MessagesCarrySequences(frames[1..], later);
      var i :| 0 <= i < |frames[1..]| && frames[1..][i].seqno == MessageEventMeta(rest[later]).1
               && CatchUpEventFromProto<string>(frames[1..][i]) == Emit(FromMessage(rest[later]));
      assert frames[i + 1] == frames[1..][i];
    }
  }
}
