/**
 The single-consumer subscription (internal/transport/stream.go) as an interleaving step machine:
 the pump goroutine, any number of threads inside Events or Close, the unbuffered channel `out`, the
 `done` channel, the derived context, the consumed flag, the once-guarded Close and the error cell.
 A hand-over on `out` is one joint step of the pump and a ranging thread. The resumable engine
 (resumable.go:84-101, 214-265) has the same channel, flags and methods, with its `run` as the pump.
 */
module Subscription {
  import opened Prelude
  import opened Events

  /** What travels on `out`. */
  datatype Result<T, E> = Val(value: T) | Failure(error: E)

  datatype Pump<T, E> =
    | Opening
    | Receiving
    | Sending(r: Result<T, E>)   // blocked in trySend
    | ClosingOut                 // returned; deferred close(out) runs first
    | ClosingDone                // then close(done)
    | Exited

  /** Where a thread is: a call of Events starts at AtEvents, a call of Close at AtClose. */
  datatype Thread<T, E> =
    | AtEvents
    | Duplicate                  // lost the consumed flag, about to set the error
    | Ranging                    // blocked receiving from out
    | Failing(error: E)          // received an error result, about to set it
    | InBody(value: T)           // yield is running
    | AtClose
    | Cancelling                 // won the once, about to cancel
    | AwaitDone
    | AwaitOnce                  // another thread holds the once
    | Finished(closed: bool)

  datatype Once = Free | Held(holder: nat) | Over

  /** How the stream ended, once it has. */
  datatype Ending<E> = Clean | OpenFailed(e: E) | StreamFailed(e: E) | MapFailed(e: E)

  /** The pump goroutine and the two channels it closes; sending on or closing a closed channel panics. */
  datatype PumpSide<T, E> = PumpSide(pump: Pump<T, E>, outClosed: bool, doneClosed: bool, panicked: bool)

  /** The derived context; once cancelled, the transport may still deliver so many frames. */
  datatype Context = Context(done: bool, buffered: nat)

  /** The calls of Events and Close, and the flags they share; `winner` is the call that took `consumed`. */
  datatype Calls<T, E> = Calls(
    threads: seq<Thread<T, E>>, consumed: bool, winner: Option<nat>, once: Once, err: Option<E>)

  /** What has been observed; `disturbed` once the parent cancelled or a loop body broke out. */
  datatype Seen<F, T, E> = Seen(
    frames: seq<F>, ending: Option<Ending<E>>, sent: seq<Result<T, E>>, yielded: seq<T>, disturbed: bool)

  datatype State<F, T, E> = State(p: PumpSide<T, E>, ctx: Context, c: Calls<T, E>, seen: Seen<F, T, E>)

  datatype PumpAct<F, E> =
    | OpenOk
    | OpenFails(e: E)
    | Receive(frame: F)
    | StreamEnds(failure: Option<E>)
    | GiveUp
    | CloseOut
    | CloseDone

  datatype CallAct =
    | EnterEvents
    | SetDuplicate
    | SetError
    | RangeEnds
    | BodyReturns(more: bool)
    | EnterOnce
    | Cancel(buffered: nat)
    | SeeDone
    | SeeOnce

  datatype Step<F, E> =
    | CancelParent(buffered: nat)
    | PumpDoes(act: PumpAct<F, E>)
    | HandOver(t: nat)
    | CallDoes(t: nat, what: CallAct)

  type MapFn<!F, T, E> = F -> MapResult<T, E>

  /** A subscription just made, about to be used by the given calls of Events and Close. */
  function Fresh<F, T, E>(threads: seq<Thread<T, E>>): State<F, T, E> {
    State(PumpSide(Opening, false, false, false), Context(false, 0),
          Calls(threads, false, None, Free, None), Seen([], None, [], [], false))
  }

  ghost predicate Init<F, T, E>(s: State<F, T, E>) {
    && s == Fresh(s.c.threads)
    && forall t :: 0 <= t < |s.c.threads| ==> s.c.threads[t].AtEvents? || s.c.threads[t].AtClose?
  }

  predicate PumpMay<F, T, E>(p: PumpSide<T, E>, ctx: Context, act: PumpAct<F, E>) {
    match act
    case OpenOk => p.pump.Opening?
    case OpenFails(_) => p.pump.Opening?
    case Receive(_) => p.pump.Receiving? && (ctx.done ==> ctx.buffered > 0)
    case StreamEnds(_) => p.pump.Receiving?
    case GiveUp => p.pump.Sending? && ctx.done
    case CloseOut => p.pump.ClosingOut?
    case CloseDone => p.pump.ClosingDone?
  }

  predicate CallMay<T, E>(p: PumpSide<T, E>, c: Calls<T, E>, t: nat, what: CallAct) {
    t < |c.threads| &&
    match what
    case EnterEvents => c.threads[t].AtEvents?
    case SetDuplicate => c.threads[t].Duplicate?
    case SetError => c.threads[t].Failing?
    case RangeEnds => c.threads[t].Ranging? && p.outClosed
    case BodyReturns(_) => c.threads[t].InBody?
    case EnterOnce => c.threads[t].AtClose?
    case Cancel(_) => c.threads[t].Cancelling?
    case SeeDone => c.threads[t].AwaitDone? && p.doneClosed
    case SeeOnce => c.threads[t].AwaitOnce? && c.once.Over?
  }

  predicate Enabled<F, T, E>(s: State<F, T, E>, step: Step<F, E>) {
    match step
    case CancelParent(_) => !s.ctx.done
    case PumpDoes(act) => PumpMay(s.p, s.ctx, act)
    case HandOver(t) => s.p.pump.Sending? && t < |s.c.threads| && s.c.threads[t].Ranging?
    case CallDoes(t, what) => CallMay(s.p, s.c, t, what)
  }

  function FirstErr<E>(err: Option<E>, e: E): Option<E> {
    if err.None? then Some(e) else err
  }

  /** The pump after one of its own actions. */
  function PumpAfter<F, T, E>(mapFn: MapFn<F, T, E>, p: PumpSide<T, E>, act: PumpAct<F, E>): PumpSide<T, E> {
    match act
    case OpenOk => p.(pump := Receiving)
    case OpenFails(e) => p.(pump := Sending(Failure(e)))
    case Receive(f) =>
      (match mapFn(f)
       case Emit(v) => p.(pump := Sending(Val(v)))
       case Drop => p
       case Fail(e) => p.(pump := Sending(Failure(e))))
    case StreamEnds(None) => p.(pump := ClosingOut)
    case StreamEnds(Some(e)) => p.(pump := Sending(Failure(e)))
    case GiveUp => p.(pump := ClosingOut)
    case CloseOut => p.(pump := ClosingDone, outClosed := true, panicked := p.panicked || p.outClosed)
    case CloseDone => p.(pump := Exited, doneClosed := true, panicked := p.panicked || p.doneClosed)
  }

  /** What the pump's action adds to the observation. */
  function SeenAfter<F, T, E>(mapFn: MapFn<F, T, E>, seen: Seen<F, T, E>, act: PumpAct<F, E>): Seen<F, T, E> {
    match act
    case OpenFails(e) => seen.(ending := Some(OpenFailed(e)))
    case Receive(f) =>
      var r := seen.(frames := seen.frames + [f]);
      (match mapFn(f)
       case Fail(e) => r.(ending := Some(MapFailed(e)))
       case _ => r)
    case StreamEnds(None) => seen.(ending := Some(Clean))
    case StreamEnds(Some(e)) => seen.(ending := Some(StreamFailed(e)))
    case _ => seen
  }

  function CtxAfter<F, E>(ctx: Context, act: PumpAct<F, E>): Context {
    if act.Receive? && ctx.done && ctx.buffered > 0 then ctx.(buffered := ctx.buffered - 1) else ctx
  }

  function Goto<T, E>(c: Calls<T, E>, t: nat, to: Thread<T, E>): Calls<T, E>
    requires t < |c.threads|
  {
    c.(threads := c.threads[t := to])
  }

  /** The calls after one of them acts; `dup` is the sentinel of a second Events. */
  function CallsAfter<T, E>(dup: E, p: PumpSide<T, E>, c: Calls<T, E>, t: nat, what: CallAct): Calls<T, E>
    requires CallMay(p, c, t, what)
  {
    match what
    case EnterEvents => if c.consumed then Goto(c, t, Duplicate)
      else Goto(c, t, Ranging).(consumed := true, winner := Some(t))
    case SetDuplicate => Goto(c, t, Finished(false)).(err := FirstErr(c.err, dup))
    case SetError => Goto(c, t, AtClose).(err := FirstErr(c.err, c.threads[t].error))
    case RangeEnds => Goto(c, t, AtClose)
    case BodyReturns(more) => Goto(c, t, if more then Ranging else AtClose)
    case EnterOnce =>
      (match c.once
       case Free => Goto(c, t, Cancelling).(once := Held(t))
       case Held(_) => Goto(c, t, AwaitOnce)
       case Over => Goto(c, t, Finished(true)))
    case Cancel(_) => Goto(c, t, AwaitDone)
    case SeeDone => Goto(c, t, Finished(true)).(once := Over)
    case SeeOnce => Goto(c, t, Finished(true))
  }

  function Cancelled(ctx: Context, buffered: nat): Context {
    if ctx.done then ctx else Context(true, buffered)
  }

  function Apply<F, T, E>(mapFn: MapFn<F, T, E>, dup: E, s: State<F, T, E>, step: Step<F, E>): State<F, T, E>
    requires Enabled(s, step)
  {
    match step
    case CancelParent(b) => s.(ctx := Cancelled(s.ctx, b), seen := s.seen.(disturbed := true))
    case PumpDoes(act) =>
      State(PumpAfter(mapFn, s.p, act), CtxAfter(s.ctx, act), s.c, SeenAfter(mapFn, s.seen, act))
    case HandOver(t) =>
      var p := s.p.(panicked := s.p.panicked || s.p.outClosed);
      var seen := s.seen.(sent := s.seen.sent + [s.p.pump.r]);
      (match s.p.pump.r
       case Val(v) =>
         State(p.(pump := Receiving), s.ctx, Goto(s.c, t, InBody(v)), seen.(yielded := s.seen.yielded + [v]))
       case Failure(e) => State(p.(pump := ClosingOut), s.ctx, Goto(s.c, t, Failing(e)), seen))
    case CallDoes(t, what) =>
      State(s.p, if what.Cancel? then Cancelled(s.ctx, what.buffered) else s.ctx,
            CallsAfter(dup, s.p, s.c, t, what),
            if what == BodyReturns(false) then s.seen.(disturbed := true) else s.seen)
  }

  ghost predicate ValidRun<F, T, E>(mapFn: MapFn<F, T, E>, dup: E, s: State<F, T, E>, steps: seq<Step<F, E>>)
    decreases |steps|
  {
    steps == [] || (Enabled(s, steps[0]) && ValidRun(mapFn, dup, Apply(mapFn, dup, s, steps[0]), steps[1..]))
  }

  ghost function Run<F, T, E>(mapFn: MapFn<F, T, E>, dup: E, s: State<F, T, E>, steps: seq<Step<F, E>>): State<F, T, E>
    requires ValidRun(mapFn, dup, s, steps)
    decreases |steps|
  {
    if steps == [] then s else Run(mapFn, dup, Apply(mapFn, dup, s, steps[0]), steps[1..])
  }

  lemma {:induction false} RunAppend<F, T, E>(mapFn: MapFn<F, T, E>, dup: E, s: State<F, T, E>,
                                             steps: seq<Step<F, E>>, step: Step<F, E>)
    requires ValidRun(mapFn, dup, s, steps) && Enabled(Run(mapFn, dup, s, steps), step)
    ensures ValidRun(mapFn, dup, s, steps + [step])
    ensures Run(mapFn, dup, s, steps + [step]) == Apply(mapFn, dup, Run(mapFn, dup, s, steps), step)
    decreases |steps|
  {
    var all := steps + [step];
    if steps == [] {
      assert all[1..] == [];
    } else {
      assert all[1..] == steps[1..] + [step];
      RunAppend(mapFn, dup, Apply(mapFn, dup, s, steps[0]), steps[1..], step);
    }
  }

  // ----- what the pump is to emit -----

  /** The mapped values of a stream, up to the first mapping error: the reference for what Events yields. */
  function Emitted<F, T, E>(mapFn: MapFn<F, T, E>, frames: seq<F>): seq<T> {
    if frames == [] then []
    else
      match mapFn(frames[0])
      case Emit(v) => [v] + Emitted(mapFn, frames[1..])
      case Drop => Emitted(mapFn, frames[1..])
      case Fail(_) => []
  }

  ghost predicate NoFailure<F, T, E>(mapFn: MapFn<F, T, E>, frames: seq<F>) {
    forall i :: 0 <= i < |frames| ==> !mapFn(frames[i]).Fail?
  }

  lemma {:induction false} EmittedSnoc<F, T, E>(mapFn: MapFn<F, T, E>, frames: seq<F>, f: F)
    requires NoFailure(mapFn, frames)
    ensures Emitted(mapFn, frames + [f])
            == Emitted(mapFn, frames) + (match mapFn(f) case Emit(v) => [v] case _ => [])
  {
    var all := frames + [f];
    if frames == [] {
      assert all[1..] == [];
    } else {
      assert all[1..] == frames[1..] + [f] && all[0] == frames[0];
      EmittedSnoc(mapFn, frames[1..], f);
    }
  }

  /** The values among the results that went through the channel. */
  function Values<T, E>(results: seq<Result<T, E>>): seq<T> {
    if results == [] then []
    else
      Values(results[..|results| - 1])
      + match results[|results| - 1] case Val(v) => [v] case Failure(_) => []
  }

  /** The value the pump holds, if any. */
  function InHand<T, E>(pump: Pump<T, E>): seq<T> {
    match pump
    case Sending(Val(v)) => [v]
    case _ => []
  }

  function ErrorOf<E>(ending: Ending<E>): Option<E> {
    match ending
    case Clean => None
    case OpenFailed(e) => Some(e)
    case StreamFailed(e) => Some(e)
    case MapFailed(e) => Some(e)
  }

  // ----- what the stream said -----

  /** What the stream answers when the pump asks: to open, and to each Receive. */
  datatype Answer<F, E> = Opened | OpenError(e: E) | Frame(frame: F) | End(failure: Option<E>)

  /** The answer a step takes up, if it takes one. */
  function AnswerOf<F, E>(step: Step<F, E>): Option<Answer<F, E>> {
    match step
    case PumpDoes(OpenOk) => Some(Opened)
    case PumpDoes(OpenFails(e)) => Some(OpenError(e))
    case PumpDoes(Receive(f)) => Some(Frame(f))
    case PumpDoes(StreamEnds(failure)) => Some(End(failure))
    case _ => None
  }

  /** The answers a run has taken up, in order. */
  function Answers<F, E>(steps: seq<Step<F, E>>): seq<Answer<F, E>> {
    if steps == [] then [] else AsSeq(AnswerOf(steps[0])) + Answers(steps[1..])
  }

  lemma {:induction false} AnswersSnoc<F, E>(steps: seq<Step<F, E>>, step: Step<F, E>)
    ensures Answers(steps + [step]) == Answers(steps) + AsSeq(AnswerOf(step))
  {
    var all := steps + [step];
    if steps == [] {
      assert all[1..] == [];
    } else {
      assert all[1..] == steps[1..] + [step];
      AnswersSnoc(steps[1..], step);
      Regroup(AsSeq(AnswerOf(steps[0])), Answers(steps[1..]), AsSeq(AnswerOf(step)));
    }
  }

  /** The frames among the answers. */
  function FramesIn<F, E>(answers: seq<Answer<F, E>>): seq<F> {
    if answers == [] then []
    else
      FramesIn(answers[..|answers| - 1])
      + match answers[|answers| - 1] case Frame(f) => [f] case _ => []
  }

  /**
   How the last answer ends the stream: a failed open, an end with or without an error, or a frame that
   cannot be mapped.
   */
  function EndingNamed<F, T, E>(mapFn: MapFn<F, T, E>, answers: seq<Answer<F, E>>): Option<Ending<E>> {
    if answers == [] then None
    else
      match answers[|answers| - 1]
      case Opened => None
      case OpenError(e) => Some(OpenFailed(e))
      case End(None) => Some(Clean)
      case End(Some(e)) => Some(StreamFailed(e))
      case Frame(f) =>
        match mapFn(f)
        case Fail(e) => Some(MapFailed(e))
        case _ => None
  }
}
