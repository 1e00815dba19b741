/**
 The two stages composed: each catch-up or live subscription (internal/transport/stream.go) feeds the
 engine's loop body (resumable.go:152-203), which filters and feeds the engine's own channel, read by
 the user's loop. Both stages are instances of the machine in `Subscription`; the engine is the single
 Events call of the inner one and the pump of the outer one.
 */
module Pipeline {
  import opened Prelude
  import opened Events
  import S = Subscription

  /** A frame of either stream. */
  datatype Frame = Replayed(frame: CatchUpFrame) | Streamed(live: LiveFrame)

  datatype Kind = CatchUpStream | LiveStream

  type Inner = S.State<Frame, CatchUpEvent, string>
  type Outer = S.State<MessageEvent, MessageEvent, string>

  /** The mapper of the stream a frame came on; live events are wrapped to share one item type. */
  function MapFrame(f: Frame): MapResult<CatchUpEvent, string> {
    match f
    case Replayed(frame) => CatchUpEventFromProto<string>(frame)
    case Streamed(live) =>
      match MessageEventFromProto<string>(live)
      case Emit(e) => Emit(FromMessage(e))
      case Drop => Drop
      case Fail(e) => Fail(e)
  }

  /** The engine's channel carries what the engine puts in. */
  function Pass(e: MessageEvent): MapResult<MessageEvent, string> {
    Emit(e)
  }

  const DUPLICATE := "imessage: stream already consumed"

  /** The engine's filter on one item: catch-up passes over other chats and other families. */
  function Pick(kind: Kind, chat: string, item: CatchUpEvent): seq<MessageEvent> {
    match item
    case FromMessage(e) =>
      if kind.CatchUpStream? && chat != "" && MessageEventMeta(e).0 != chat then [] else [e]
    case _ => []
  }

  predicate Stops(kind: Kind, item: CatchUpEvent) {
    kind.CatchUpStream? && item.CatchupComplete?
  }

  /** What the engine owes its consumer for the items of one stream: the filtered items up to completion. */
  function Wanted(kind: Kind, chat: string, items: seq<CatchUpEvent>): seq<MessageEvent> {
    if items == [] || Stops(kind, items[0]) then []
    else Pick(kind, chat, items[0]) + Wanted(kind, chat, items[1..])
  }

  /** The same, for the frames of one stream. */
  function Promised(kind: Kind, chat: string, frames: seq<Frame>): seq<MessageEvent> {
    Wanted(kind, chat, S.Emitted(MapFrame, frames))
  }

  /** A stream being read; `offered` while the engine's send of the item in its loop body is pending or just done. */
  datatype Session = Session(kind: Kind, sub: Inner, offered: bool)

  /** A stream that has been closed: the frames it received and the items the engine was given. */
  datatype Ended = Ended(kind: Kind, frames: seq<Frame>, items: seq<CatchUpEvent>)

  datatype State = State(outer: Outer, current: Option<Session>, past: seq<Ended>)

  /** The last stream was a catch-up that reported completion. */
  predicate LastCompleted(past: seq<Ended>) {
    past != [] &&
    var last := past[|past| - 1];
    last.items != [] && Stops(last.kind, last.items[|last.items| - 1])
  }

  datatype Step =
    | UserActs(user: S.Step<MessageEvent, string>)   // the user's calls, their reads, the parent
    | LoadDone(failure: Option<string>)
    | ReportDropped
    | Open(kind: Kind)
    | StreamActs(stream: S.Step<Frame, string>)      // the inner pump, its hand-overs, the engine's own call
    | Skip
    | FinishCatchUp
    | Offer
    | Accepted
    | Refused
    | CloseSession
    | EngineEnds
    | EngineCloses(act: S.PumpAct<MessageEvent, string>)

  ghost predicate Init(s: State) {
    S.Init(s.outer) && s.current.None? && s.past == []
  }

  function Body(sub: Inner): Option<CatchUpEvent> {
    if |sub.c.threads| == 1 && sub.c.threads[0].InBody? then Some(sub.c.threads[0].value) else None
  }

  /** The item in the engine's loop body that it has yet to deal with. */
  function Unhandled(s: State): Option<CatchUpEvent> {
    if s.current.Some? && !s.current.value.offered then Body(s.current.value.sub) else None
  }

  predicate Enabled(chat: string, s: State, step: Step) {
    match step
    case UserActs(st) => !st.PumpDoes? && S.Enabled(s.outer, st)
    case LoadDone(_) => s.outer.p.pump.Opening?
    case ReportDropped => s.outer.p.pump.Sending? && s.outer.p.pump.r.Failure? && s.outer.ctx.done
    case Open(kind) =>
      // a catch-up is opened only after a look at the context; live directly after a completed catch-up
      && s.current.None? && s.outer.p.pump.Receiving?
      && (kind.LiveStream? <==> LastCompleted(s.past))
      && (kind.CatchUpStream? ==> !s.outer.ctx.done)
    case StreamActs(st) =>
      && s.current.Some? && S.Enabled(s.current.value.sub, st)
      && (st.CancelParent? ==> s.outer.ctx.done)
      && (st.CallDoes? ==> !st.what.BodyReturns?)
      && (st.PumpDoes? && st.act.Receive? ==> (st.act.frame.Replayed? <==> s.current.value.kind.CatchUpStream?))
    case Skip =>
      Unhandled(s).Some? && var item := Unhandled(s).value;
      !Stops(s.current.value.kind, item) && Pick(s.current.value.kind, chat, item) == []
    case FinishCatchUp => Unhandled(s).Some? && Stops(s.current.value.kind, Unhandled(s).value)
    case Offer =>
      // once cancelled, the streams hold finitely many items the engine may still try to send
      && Unhandled(s).Some? && s.outer.p.pump.Receiving? && (s.outer.ctx.done ==> s.outer.ctx.buffered > 0)
      && Pick(s.current.value.kind, chat, Unhandled(s).value) != []
    case Accepted =>
      && s.current.Some? && s.current.value.offered && Body(s.current.value.sub).Some?
      && s.outer.p.pump.Receiving?
    case Refused =>
      && s.current.Some? && s.current.value.offered && Body(s.current.value.sub).Some?
      && s.outer.p.pump.Sending? && s.outer.ctx.done
    case CloseSession => s.current.Some? && s.current.value.sub.c.threads == [S.Finished(true)]
    case EngineEnds => s.current.None? && s.outer.p.pump.Receiving? && s.outer.ctx.done
    case EngineCloses(act) =>
      s.current.None? && (act.CloseOut? || act.CloseDone?) && S.PumpMay(s.outer.p, s.outer.ctx, act)
  }

  function OuterApply(s: State, st: S.Step<MessageEvent, string>): Outer
    requires S.Enabled(s.outer, st)
  {
    S.Apply(Pass, DUPLICATE, s.outer, st)
  }

  function InnerApply(sub: Inner, st: S.Step<Frame, string>): Inner
    requires S.Enabled(sub, st)
  {
    S.Apply(MapFrame, DUPLICATE, sub, st)
  }

  /** The engine's loop body returns to the inner range. */
  function BodyReturns(session: Session, more: bool): Option<Session>
    requires Body(session.sub).Some?
  {
    Some(session.(sub := InnerApply(session.sub, S.CallDoes(0, S.BodyReturns(more))), offered := false))
  }

  function Apply(chat: string, s: State, step: Step): State
    requires Enabled(chat, s, step)
  {
    match step
    case UserActs(st) => s.(outer := OuterApply(s, st))
    case LoadDone(failure) =>
      s.(outer := OuterApply(s, S.PumpDoes(if failure.None? then S.OpenOk else S.OpenFails(failure.value))))
    case ReportDropped => s.(outer := OuterApply(s, S.PumpDoes(S.GiveUp)))
    case Open(kind) => s.(current := Some(Session(kind, S.Fresh([S.AtEvents]), false)))
    case StreamActs(st) =>
      s.(current := Some(s.current.value.(sub := InnerApply(s.current.value.sub, st))))
    case Skip => s.(current := BodyReturns(s.current.value, true))
    case FinishCatchUp => s.(current := BodyReturns(s.current.value, false))
    case Offer =>
      s.(outer := OuterApply(s, S.PumpDoes(S.Receive(Unhandled(s).value.event))),
         current := Some(s.current.value.(offered := true)))
    case Accepted => s.(current := BodyReturns(s.current.value, true))
    case Refused => s.(outer := OuterApply(s, S.PumpDoes(S.GiveUp)), current := BodyReturns(s.current.value, false))
    case CloseSession =>
      var session := s.current.value;
      s.(current := None, past := s.past + [Ended(session.kind, session.sub.seen.frames, session.sub.seen.yielded)])
    case EngineEnds => s.(outer := OuterApply(s, S.PumpDoes(S.StreamEnds(None))))
    case EngineCloses(act) => s.(outer := OuterApply(s, S.PumpDoes(act)))
  }

  ghost predicate ValidRun(chat: string, s: State, steps: seq<Step>)
    decreases |steps|
  {
    steps == [] || (Enabled(chat, s, steps[0]) && ValidRun(chat, Apply(chat, s, steps[0]), steps[1..]))
  }

  ghost function Run(chat: string, s: State, steps: seq<Step>): State
    requires ValidRun(chat, s, steps)
    decreases |steps|
  {
    if steps == [] then s else Run(chat, Apply(chat, s, steps[0]), steps[1..])
  }

  /** What the engine owes for the streams read so far, in order. */
  function PromisedPast(chat: string, past: seq<Ended>): seq<MessageEvent> {
    if past == [] then []
    else
      var last := past[|past| - 1];
      PromisedPast(chat, past[..|past| - 1]) + Promised(last.kind, chat, last.frames)
  }

  function PromisedAll(chat: string, s: State): seq<MessageEvent> {
    PromisedPast(chat, s.past)
    + if s.current.Some? then Promised(s.current.value.kind, chat, s.current.value.sub.seen.frames) else []
  }
}
