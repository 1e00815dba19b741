/**
 The resumable message engine (resumable.go:103-286) as a step machine: the `run` goroutine, the
 consumer's range loop, the store and the server's log, with every step the environment may take.
 A crash or an exit followed by a new process on the same store is one more step.
 */
module Resumable {
  import opened Prelude
  import opened Events
  import opened EventLog
  import Backoff

  datatype Config = Config(chat: string, minBackoff: int, maxBackoff: int, hasStore: bool)

  /** Errors that can reach `Err`: a failed Load, a second `Events` call, or a server failure. */
  datatype SourceErr = LoadFailed(detail: string) | AlreadyConsumed | ServerFailed(detail: string)

  /** Which of the two loops the engine is in; a catch-up remembers the cursor it asked with. */
  datatype Phase = CatchUp(after: nat) | Live

  datatype StopReason = Cancelled | LoadError

  /** Where the `run` goroutine is. Positions are indices into the server's log. */
  datatype Pc =
    | Loading
    | ReportingLoadError(detail: string)
    | Top
    | Receiving(phase: Phase, pos: nat)
    | Sending(phase: Phase, i: nat)      // blocked in trySend with record i's event
    | Handed(phase: Phase, i: nat)       // trySend succeeded, cursor not yet assigned
    | Recording(phase: Phase, i: nat)    // cursor assigned, Save not yet returned
    | HeadRecording                      // cursor set from CatchupComplete, Save not yet returned
    | Completed                          // catchUp returned nil
    | Sleeping
    | Stopped(why: StopReason)

  /** Where the consumer's `for range` over Events is; `Yielding` is the loop body running. */
  datatype Consumer = Away | Waiting | Yielding | Left

  /** A finished process: the cursor it started from, how far it got, what it left in the store. */
  datatype Process = Process(start: nat, reached: nat, left: nat, events: seq<MessageEvent>)

  datatype State = State(
    log: seq<Record>, head: nat,
    pc: Pc, cursor: nat, backoff: int,
    consumer: Consumer, ctxDone: bool, err: Option<SourceErr>,
    stored: Option<nat>,
    // what has been observed of this process
    start: nat, delivered: seq<MessageEvent>, returned: nat, saves: seq<nat>,
    completedHead: Option<nat>, sleeps: nat,
    past: seq<Process>)

  datatype Step =
    // the server and the surrounding program
    | Append(record: Record)
    | AdvanceHead(to: nat)
    | CancelParent
    | Crash
    // the consumer
    | StartRange
    | DuplicateRange
    | YieldReturns(more: bool)
    | RangeEnds
    // the engine
    | LoadOk
    | LoadFails(detail: string)
    | ReportHandOver
    | ReportDropped
    | TopCancelled
    | BeginCatchUp
    | CatchUpSkip
    | CatchUpOffer
    | CatchUpCompletes(headSequence: nat)
    | CatchUpFails(failure: Option<SourceErr>)
    | HandOver
    | GiveUp
    | AssignCursor
    | SaveReturns(ok: bool)
    | SaveHeadReturns(ok: bool)
    | BeginLive
    | LiveOffer(i: nat)
    | LiveEnds(failure: Option<SourceErr>)
    | SleepEnds
    | SleepCancelled

  function StoredCursor(s: State): nat {
    s.stored.GetOr(0)
  }

  ghost predicate Init(cfg: Config, s: State) {
    && LogOk(s.log, s.head)
    && 0 < cfg.minBackoff < TWO_63 && 0 < cfg.maxBackoff < TWO_63
    && (s.stored.Some? ==> cfg.hasStore)
    && StoredCursor(s) <= s.head
    && s == Fresh(cfg, s.log, s.head, s.stored, [])
  }

  /** A new process on the given server and store. */
  function Fresh(cfg: Config, log: seq<Record>, head: nat, stored: Option<nat>, past: seq<Process>): State {
    State(log, head, Loading, 0, cfg.minBackoff, Away, false, None, stored,
          stored.GetOr(0), [], 0, [], None, 0, past)
  }

  /** How far this process has handed events over. */
  function Reached(s: State): nat {
    match s.pc
    case Loading => s.start
    case ReportingLoadError(_) => s.start
    case Stopped(why) => if why.LoadError? then s.start else s.cursor
    case Handed(_, i) => if i < |s.log| then s.log[i].seqno else s.cursor
    case _ => s.cursor
  }

  function EventAt(s: State, i: nat): MessageEvent
    requires i < |s.log| && Mapped(s.log[i]).Some?
  {
    Mapped(s.log[i]).value
  }

  /**
   (A1) A catch-up that has come to log position `pos` may complete with `h` only when it has replayed
   every record up to `h`: `h` is a head the server has had and no record lies between it and `pos`. It
   may be behind the cursor the catch-up was asked with.
   */
  predicate CompletionHonest(log: seq<Record>, head: nat, pos: nat, h: nat) {
    && h <= head
    && pos <= |log|
    && (forall j :: 0 <= j < pos ==> log[j].seqno <= h)
    && (forall j :: pos <= j < |log| ==> log[j].seqno > h)
  }

  ghost predicate Enabled(cfg: Config, s: State, step: Step) {
    match step
    case Append(r) => r.seqno > s.head && !r.payload.Complete?
    case AdvanceHead(to) => to > s.head
    case CancelParent => true
    case Crash => true
    case StartRange => s.consumer.Away?
    case DuplicateRange => !s.consumer.Away?
    case YieldReturns(_) => s.consumer.Yielding?
    case RangeEnds => s.consumer.Waiting? && s.pc.Stopped?
    case LoadOk => s.pc.Loading?
    case LoadFails(_) => s.pc.Loading? && cfg.hasStore
    case ReportHandOver => s.pc.ReportingLoadError? && s.consumer.Waiting?
    case ReportDropped => s.pc.ReportingLoadError? && s.ctxDone
    case TopCancelled => s.pc.Top? && s.ctxDone
    case BeginCatchUp => s.pc.Top? && !s.ctxDone
    case CatchUpSkip =>
      s.pc.Receiving? && s.pc.phase.CatchUp? && s.pc.pos < |s.log| && !Relevant(s.log[s.pc.pos], cfg.chat)
    case CatchUpOffer =>
      s.pc.Receiving? && s.pc.phase.CatchUp? && s.pc.pos < |s.log| && Relevant(s.log[s.pc.pos], cfg.chat)
    case CatchUpCompletes(h) =>
      s.pc.Receiving? && s.pc.phase.CatchUp? && CompletionHonest(s.log, s.head, s.pc.pos, h)
    case CatchUpFails(_) => s.pc.Receiving? && s.pc.phase.CatchUp?
    case HandOver => s.pc.Sending? && s.consumer.Waiting? && s.pc.i < |s.log| && Mapped(s.log[s.pc.i]).Some?
    case GiveUp => s.pc.Sending? && s.ctxDone
    case AssignCursor => s.pc.Handed? && s.pc.i < |s.log|
    case SaveReturns(_) => s.pc.Recording?
    case SaveHeadReturns(_) => s.pc.HeadRecording?
    case BeginLive => s.pc.Completed?
    // (A2-weak) a live feed only carries message records past the cursor; it may skip some
    case LiveOffer(i) =>
      s.pc.Receiving? && s.pc.phase.Live? && i < |s.log| && Mapped(s.log[i]).Some? && s.log[i].seqno > s.cursor
    case LiveEnds(_) => s.pc.Receiving? && s.pc.phase.Live?
    case SleepEnds => s.pc.Sleeping?
    case SleepCancelled => s.pc.Sleeping? && s.ctxDone
  }

  /**
   (A2) The live feed opened after completion carries every matching record in order, starting
   with the first one past the reported head: nothing relevant lies before the one it offers.
   */
  ghost predicate LiveFaithful(cfg: Config, s: State, step: Step) {
    step.LiveOffer? && s.pc.Receiving? && step.i < |s.log| ==>
      && s.pc.pos <= step.i
      && Relevant(s.log[step.i], cfg.chat)
      && (forall j :: s.pc.pos <= j < step.i ==> !Relevant(s.log[j], cfg.chat))
  }

  function FirstErr(err: Option<SourceErr>, e: SourceErr): Option<SourceErr> {
    if err.None? then Some(e) else err
  }

  /** The Saves issued for one cursor value. */
  function Issued(cfg: Config, seqno: nat): seq<nat> {
    if cfg.hasStore then [seqno] else []
  }

  /** saveCursor: without a store nothing is issued; a failed Save is ignored. */
  function Saved(cfg: Config, s: State, ok: bool): State {
    if !cfg.hasStore then s
    else s.(saves := s.saves + [s.cursor], stored := if ok then Some(s.cursor) else s.stored)
  }

  ghost function Apply(cfg: Config, s: State, step: Step): State
    requires Enabled(cfg, s, step)
  {
    match step
    case Append(r) => s.(log := s.log + [r], head := r.seqno)
    case AdvanceHead(to) => s.(head := to)
    case CancelParent => s.(ctxDone := true)
    case Crash =>
      Fresh(cfg, s.log, s.head, s.stored,
            s.past + [Process(s.start, Reached(s), StoredCursor(s), s.delivered)])
    case StartRange => s.(consumer := Waiting)
    case DuplicateRange => s.(err := FirstErr(s.err, AlreadyConsumed))
    case YieldReturns(more) =>
      // leaving the loop runs the deferred Close, which cancels
      s.(consumer := if more then Waiting else Left, returned := s.returned + 1, ctxDone := s.ctxDone || !more)
    case RangeEnds => s.(consumer := Left, ctxDone := true)
    case LoadOk => s.(pc := Top, cursor := StoredCursor(s))
    case LoadFails(detail) => s.(pc := ReportingLoadError(detail))
    case ReportHandOver =>
      s.(pc := Stopped(LoadError), err := FirstErr(s.err, LoadFailed(s.pc.detail)), consumer := Left, ctxDone := true)
    case ReportDropped => s.(pc := Stopped(LoadError))
    case TopCancelled => s.(pc := Stopped(Cancelled))
    case BeginCatchUp =>
      s.(pc := Receiving(CatchUp(s.cursor), FirstAfter(s.log, s.cursor)), completedHead := None)
    case CatchUpSkip => s.(pc := Receiving(s.pc.phase, s.pc.pos + 1))
    case CatchUpOffer => s.(pc := Sending(s.pc.phase, s.pc.pos))
    case CatchUpCompletes(h) =>
      if h > s.cursor then s.(pc := HeadRecording, cursor := h, completedHead := Some(h))
      else s.(pc := Completed, completedHead := Some(h))
    case CatchUpFails(_) => s.(pc := if s.ctxDone then Stopped(Cancelled) else Sleeping)
    case HandOver =>
      s.(pc := Handed(s.pc.phase, s.pc.i), delivered := s.delivered + [EventAt(s, s.pc.i)], consumer := Yielding)
    case GiveUp => s.(pc := Stopped(Cancelled))
    case AssignCursor => s.(pc := Recording(s.pc.phase, s.pc.i), cursor := s.log[s.pc.i].seqno)
    case SaveReturns(ok) => Saved(cfg, s, ok).(pc := Receiving(s.pc.phase, s.pc.i + 1))
    case SaveHeadReturns(ok) => Saved(cfg, s, ok).(pc := Completed)
    case BeginLive =>
      s.(pc := Receiving(Live, FirstAfter(s.log, s.completedHead.GetOr(0))), backoff := cfg.minBackoff, sleeps := 0)
    case LiveOffer(i) => s.(pc := Sending(Live, i))
    case LiveEnds(_) => s.(pc := if s.ctxDone then Stopped(Cancelled) else Sleeping)
    case SleepEnds => s.(pc := Top, backoff := Backoff.Next(s.backoff, cfg.maxBackoff), sleeps := s.sleeps + 1)
    case SleepCancelled => s.(pc := Stopped(Cancelled))
  }

  // ----- runs -----

  ghost predicate ValidRun(cfg: Config, s: State, steps: seq<Step>)
    decreases |steps|
  {
    steps == [] || (Enabled(cfg, s, steps[0]) && ValidRun(cfg, Apply(cfg, s, steps[0]), steps[1..]))
  }

  ghost function Run(cfg: Config, s: State, steps: seq<Step>): State
    requires ValidRun(cfg, s, steps)
    decreases |steps|
  {
    if steps == [] then s else Run(cfg, Apply(cfg, s, steps[0]), steps[1..])
  }

  /** (A2) holds at every live offer of the run. */
  ghost predicate FaithfulRun(cfg: Config, s: State, steps: seq<Step>)
    requires ValidRun(cfg, s, steps)
    decreases |steps|
  {
    steps == [] || (LiveFaithful(cfg, s, steps[0]) && FaithfulRun(cfg, Apply(cfg, s, steps[0]), steps[1..]))
  }

  lemma {:induction false} RunAppend(cfg: Config, s: State, steps: seq<Step>, step: Step)
    requires ValidRun(cfg, s, steps) && Enabled(cfg, Run(cfg, s, steps), step)
    ensures ValidRun(cfg, s, steps + [step])
    ensures Run(cfg, s, steps + [step]) == Apply(cfg, Run(cfg, s, steps), step)
    decreases |steps|
  {
    var all := steps + [step];
    if steps == [] {
      assert all[1..] == [];
    } else {
      assert all[1..] == steps[1..] + [step];
      RunAppend(cfg, Apply(cfg, s, steps[0]), steps[1..], step);
    }
  }
}
