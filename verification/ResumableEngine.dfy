/**
 resumable.go as written: the engine object and its methods, run against a server, a store, a
 consumer and a context that act at every point where the goroutine can be interrupted or blocked.
 Every field update is one step of the machine in `Resumable`, recorded in `trace`, so whatever the
 methods do is a run of that machine; `Run` then states what the runs were proved to keep.

 `patience` bounds how long the environment lets one process go on before its context is cancelled;
 it is arbitrary, so every finite run is covered.
 */
module ResumableEngine {
  import opened Prelude
  import opened Events
  import opened EventLog
  import opened Resumable
  import opened ResumableOrder
  import opened ResumableExact
  import opened ResumableRuns
  import opened ResumableAnswers

  const DEFAULT_MIN_BACKOFF := 500_000_000
  const DEFAULT_MAX_BACKOFF := 30_000_000_000

  /** The engine's chat filter on a message event. */
  predicate Matches(cfg: Config, ev: MessageEvent) {
    cfg.chat == "" || MessageEventMeta(ev).0 == cfg.chat
  }

  class ResumableMessages {
    const cfg: Config
    // run's locals, which catchUp and live write through a pointer
    var cursor: nat
    var backoff: int
    var pc: Pc
    // the context, the reader of the channel, the error cell
    var ctxDone: bool
    var consumer: Consumer
    var err: Option<SourceErr>
    // the store and the server
    var stored: Option<nat>
    var log: seq<Record>
    var head: nat
    var patience: nat
    // what has been observed of this process
    ghost const start: nat
    ghost var delivered: seq<MessageEvent>
    ghost var returned: nat
    ghost var saves: seq<nat>
    ghost var completedHead: Option<nat>
    ghost var sleeps: nat
    ghost const origin: State
    ghost var trace: seq<Step>
    // what the streams have said, the last of it while the engine has not taken it up, and the timers started
    ghost var answers: seq<Answer>
    ghost var pending: Option<Answer>
    ghost var timers: seq<int>

    ghost function Abs(): State
      reads this
    {
      State(log, head, pc, cursor, backoff, consumer, ctxDone, err, stored,
            start, delivered, returned, saves, completedHead, sleeps, [])
    }

    /** The object is where its trace leads the machine, and the trace has taken up every answer but a pending one. */
    ghost predicate Valid()
      reads this
    {
      && Init(cfg, origin) && ValidRun(cfg, origin, trace) && Resumable.Run(cfg, origin, trace) == Abs()
      && answers == Answers(cfg, origin, trace) + AsSeq(pending)
    }

    /** The engine's account, as the reference keeps it. */
    ghost function Now(live: bool): Ref
      reads this
    {
      Ref(live, cursor, delivered, saves)
    }

    /** ResumableMessages (resumable.go:49-75): zero or negative backoffs take the defaults. */
    constructor (chat: string, minBackoff: int, maxBackoff: int, stored: Option<nat>, hasStore: bool,
                 log: seq<Record>, head: nat, patience: nat)
      requires minBackoff < TWO_63 && maxBackoff < TWO_63
      requires LogOk(log, head) && stored.GetOr(0) <= head && (stored.Some? ==> hasStore)
      ensures Valid() && pc.Loading? && trace == [] && answers == [] && pending.None? && timers == [] && sleeps == 0
      ensures cfg == Config(chat, if minBackoff > 0 then minBackoff else 500_000_000,
                            if maxBackoff > 0 then maxBackoff else 30_000_000_000, hasStore)
      ensures origin == Fresh(cfg, log, head, stored, []) && start == stored.GetOr(0)
    {
      var lo, hi := DEFAULT_MIN_BACKOFF, DEFAULT_MAX_BACKOFF;
      if minBackoff > 0 {
        lo := minBackoff;
      }
      if maxBackoff > 0 {
        hi := maxBackoff;
      }
      var c := Config(chat, lo, hi, hasStore);
      cfg := c;
      cursor, backoff, pc := 0, lo, Loading;
      ctxDone, consumer, err := false, Away, None;
      this.stored, this.log, this.head, this.patience := stored, log, head, patience;
      start := stored.GetOr(0);
      delivered, returned, saves, completedHead, sleeps := [], 0, [], None, 0;
      origin := Fresh(c, log, head, stored, []);
      trace, answers, pending, timers := [], [], None, [];
    }

    /** The update just made was one step of the machine, not on a stream. */
    ghost method Did(before: State, step: Step)
      requires Init(cfg, origin) && ValidRun(cfg, origin, trace) && Resumable.Run(cfg, origin, trace) == before
      requires answers == Answers(cfg, origin, trace) + AsSeq(pending)
      requires Enabled(cfg, before, step) && Apply(cfg, before, step) == Abs() && AnswerOf(before, step).None?
      modifies this`trace
      ensures Valid()
    {
      RunAppend(cfg, origin, trace, step);
      AnswersSnoc(cfg, origin, trace, step);
      Regroup(Answers(cfg, origin, trace), [], []);
      trace := trace + [step];
    }

    /** A stream says something. */
    ghost method Says(a: Answer)
      requires Valid() && pending.None?
      modifies this`answers, this`pending
      ensures Valid() && pending == Some(a) && answers == old(answers) + [a]
    {
      Regroup(Answers(cfg, origin, trace), [], [a]);
      answers, pending := answers + [a], Some(a);
    }

    /** The update just made was the step that takes up what the stream has just said. */
    ghost method TookUp(before: State, step: Step)
      requires Init(cfg, origin) && ValidRun(cfg, origin, trace) && Resumable.Run(cfg, origin, trace) == before
      requires answers == Answers(cfg, origin, trace) + AsSeq(pending)
      requires Enabled(cfg, before, step) && Apply(cfg, before, step) == Abs()
      requires AnswerOf(before, step).Some? && pending == AnswerOf(before, step)
      modifies this`trace, this`pending
      ensures Valid() && pending.None?
    {
      RunAppend(cfg, origin, trace, step);
      AnswersSnoc(cfg, origin, trace, step);
      Regroup(answers, [], []);
      trace, pending := trace + [step], None;
    }

    /** The answers the engine has taken up. */
    ghost function Taken(): seq<Answer>
      reads this
    {
      if pending.Some? then Earlier(answers) else answers
    }

    /** The engine's account is the reference's over the answers it has taken up. */
    lemma {:induction false} FollowsTaken()
      requires Valid()
      ensures Follows(cfg, log, pc, Account(cursor, delivered, saves), start, Taken())
    {
      EngineFollows(cfg, origin, trace);
      var taken := Answers(cfg, origin, trace);
      Regroup(taken, [], []);
      assert pending.Some? ==> (taken + [pending.value])[..|taken|] == taken;
    }

    /** At the top of the loop and on entering live the reference stands exactly at the engine's account. */
    lemma {:induction false} AtLoopHead()
      requires Valid() && pending.None? && (pc.Top? || (pc.Receiving? && pc.phase.Live?))
      ensures FollowAll(cfg, Begin(start), answers) == Now(!pc.Top?)
    {
      FollowsTaken();
    }

    /** What a loop over a stream leaves: the reference over what was said since, but for a record given up. */
    lemma {:induction false} SinceLoopHead(before: seq<Answer>)
      requires Valid() && before <= answers && |before| < |answers|
      requires || (pc.Completed? && pending.None?)
               || (pc.Receiving? && pending == Some(Ended) && answers[|answers| - 1] == Ended)
               || (pc == Stopped(Cancelled) && pending.None? && answers[|answers| - 1].Said?)
      ensures Moved(cfg, FollowAll(cfg, Begin(start), before), Account(cursor, delivered, saves),
                    answers[|before|..], pc.Stopped?)
    {
      FollowsTaken();
      MovedSince(cfg, log, pc, Account(cursor, delivered, saves), start, before, answers, pending.Some?);
    }

    // ----- the environment -----

    /** The server or the surrounding program takes a step, if it can. */
    method OutsideActs(step: Step)
      requires Valid() && !pc.Stopped?
      modifies this`log, this`head, this`ctxDone, this`trace
      ensures Valid() && (old(ctxDone) ==> ctxDone) && old(log) <= log
    {
      ghost var before := Abs();
      match step
      case Append(r) =>
        if r.seqno > head && !r.payload.Complete? {
          log, head := log + [r], r.seqno;
          Did(before, step);
        }
      case AdvanceHead(to) =>
        if to > head {
          head := to;
          Did(before, step);
        }
      case CancelParent =>
        ctxDone := true;
        Did(before, step);
      case _ =>
    }

    /** The consumer takes a step, if it can. */
    method ConsumerActs(step: Step)
      requires Valid() && !pc.Stopped?
      modifies this`ctxDone, this`consumer, this`err, this`returned, this`trace
      ensures Valid() && (old(ctxDone) ==> ctxDone)
    {
      ghost var before := Abs();
      match step
      case StartRange =>
        if consumer.Away? {
          consumer := Waiting;
          Did(before, step);
        }
      case DuplicateRange =>
        if !consumer.Away? {
          err := FirstErr(err, AlreadyConsumed);
          Did(before, step);
        }
      case YieldReturns(more) =>
        if consumer.Yielding? {
          consumer, ctxDone, returned := if more then Waiting else Left, ctxDone || !more, returned + 1;
          Did(before, step);
        }
      case _ =>
    }

    /** The server, the consumer and the surrounding program take any number of steps. */
    method Interfere()
      requires Valid() && !pc.Stopped?
      modifies this`log, this`head, this`ctxDone, this`consumer, this`err, this`returned, this`trace
      ensures Valid() && (old(ctxDone) ==> ctxDone) && old(log) <= log
    {
      var n: nat := *;
      while n > 0
        invariant Valid() && (old(ctxDone) ==> ctxDone) && old(log) <= log
      {
        n := n - 1;
        var step: Step := *;
        OutsideActs(step);
        ConsumerActs(step);
      }
    }

    /** Blocks until the channel has a reader or the context is done. */
    method AwaitReaderOrDone()
      requires Valid() && !pc.Stopped?
      modifies this`log, this`head, this`ctxDone, this`consumer, this`err, this`returned, this`trace, this`patience
      ensures Valid() && (old(ctxDone) ==> ctxDone) && old(log) <= log && patience <= old(patience)
      ensures consumer.Waiting? || ctxDone
    {
      Interfere();
      while !consumer.Waiting? && !ctxDone && patience > 0
        invariant Valid() && (old(ctxDone) ==> ctxDone) && old(log) <= log && patience <= old(patience)
        decreases patience
      {
        patience := patience - 1;
        Interfere();
      }
      if !consumer.Waiting? && !ctxDone {
        ParentCancels();
      }
    }

    method ParentCancels()
      requires Valid() && !pc.Stopped?
      modifies this`ctxDone, this`trace
      ensures Valid() && ctxDone
    {
      ghost var before := Abs();
      ctxDone := true;
      Did(before, CancelParent);
    }

    /** One unit of patience, or cancellation when there is none left. */
    method Wait()
      requires Valid() && !pc.Stopped?
      modifies this`log, this`head, this`ctxDone, this`consumer, this`err, this`returned, this`trace, this`patience
      ensures Valid() && (old(ctxDone) ==> ctxDone) && old(log) <= log
      ensures if old(patience) == 0 then ctxDone && patience == 0 else patience == old(patience) - 1
    {
      Interfere();
      if patience == 0 {
        ParentCancels();
      } else {
        patience := patience - 1;
      }
    }

    // ----- the engine -----

    /** What every run keeps about the record at the engine's hands. */
    lemma {:induction false} OfferFacts()
      requires Valid() && (pc.Sending? || pc.Handed?)
      ensures pc.i < |log| && Mapped(log[pc.i]).Some? && log[pc.i].seqno > cursor
    {
      KeptFromInit(cfg, origin, trace);
    }

    /** The log holds positive sequences only. */
    lemma {:induction false} PositiveSequence()
      requires Valid() && pc.Handed?
      ensures pc.i < |log| && log[pc.i].seqno > 0
    {
      OfferFacts();
    }

    /** The send case of trySend's select: the reader takes record i's event. */
    method HandEventOver(phase: Phase, i: nat)
      requires Valid() && pc == Sending(phase, i) && consumer.Waiting?
      modifies this`consumer, this`trace, this`pc, this`delivered
      ensures Valid() && pc == Handed(phase, i)
      ensures i < |log| && Mapped(log[i]).Some? && delivered == old(delivered) + [Mapped(log[i]).value]
    {
      OfferFacts();
      ghost var before := Abs();
      delivered, consumer, pc := delivered + [EventAt(before, i)], Yielding, Handed(phase, i);
      Did(before, HandOver);
    }

    /** trySend of record i's event (resumable.go:214-221): hand it over, or give up once the context is done. */
    method TrySend(phase: Phase, i: nat) returns (sent: bool)
      requires Valid() && pc == Sending(phase, i)
      modifies this`log, this`head, this`ctxDone, this`consumer, this`err, this`returned, this`trace, this`patience,
               this`pc, this`delivered
      ensures Valid() && (old(ctxDone) ==> ctxDone) && patience <= old(patience) && old(log) <= log
      ensures if sent then pc == Handed(phase, i) else pc == Stopped(Cancelled) && ctxDone
      ensures if sent then i < |log| && Mapped(log[i]).Some? && delivered == old(delivered) + [Mapped(log[i]).value]
              else delivered == old(delivered)
    {
      AwaitReaderOrDone();
      // when both are ready, either may win
      var preferSend: bool := *;
      if consumer.Waiting? && (!ctxDone || preferSend) {
        HandEventOver(phase, i);
        sent := true;
      } else {
        ghost var before := Abs();
        pc := Stopped(Cancelled);
        Did(before, GiveUp);
        sent := false;
      }
    }

    /** The store answers a Save, or there is none to ask. */
    method SaveAnswered(seqno: nat)
      requires Valid() && seqno == cursor && (pc.Recording? || pc.HeadRecording?)
      modifies this`trace, this`stored, this`saves, this`pc
      ensures Valid() && saves == old(saves) + Issued(cfg, seqno)
      ensures pc == if old(pc).Recording? then Receiving(old(pc).phase, old(pc).i + 1) else Completed
      ensures stored == old(stored) || (cfg.hasStore && stored == Some(seqno))
    {
      var ok: bool := *;
      Regroup(saves, [], []);
      if pc.Recording? {
        EventSaved(seqno, ok);
      } else {
        HeadSaved(seqno, ok);
      }
    }

    method EventSaved(seqno: nat, ok: bool)
      requires Valid() && seqno == cursor && pc.Recording?
      modifies this`trace, this`stored, this`saves, this`pc
      ensures Valid() && pc == Receiving(old(pc).phase, old(pc).i + 1)
      ensures saves == if cfg.hasStore then old(saves) + [seqno] else old(saves)
      ensures stored == if cfg.hasStore && ok then Some(seqno) else old(stored)
    {
      ghost var before := Abs();
      if cfg.hasStore {
        saves, stored := saves + [seqno], if ok then Some(seqno) else stored;
      }
      pc := Receiving(pc.phase, pc.i + 1);
      Did(before, SaveReturns(ok));
    }

    method HeadSaved(seqno: nat, ok: bool)
      requires Valid() && seqno == cursor && pc.HeadRecording?
      modifies this`trace, this`stored, this`saves, this`pc
      ensures Valid() && pc == Completed
      ensures saves == if cfg.hasStore then old(saves) + [seqno] else old(saves)
      ensures stored == if cfg.hasStore && ok then Some(seqno) else old(stored)
    {
      ghost var before := Abs();
      if cfg.hasStore {
        saves, stored := saves + [seqno], if ok then Some(seqno) else stored;
      }
      pc := Completed;
      Did(before, SaveHeadReturns(ok));
    }

    /** saveCursor (resumable.go:205-212): best effort, the outcome is ignored; the others go on while it lasts. */
    method SaveCursor(seqno: nat)
      requires Valid() && seqno == cursor && (pc.Recording? || pc.HeadRecording?)
      modifies this`log, this`head, this`ctxDone, this`consumer, this`err, this`returned, this`trace,
               this`stored, this`saves, this`pc
      ensures Valid() && (old(ctxDone) ==> ctxDone) && old(log) <= log
      ensures pc == if old(pc).Recording? then Receiving(old(pc).phase, old(pc).i + 1) else Completed
      ensures saves == old(saves) + Issued(cfg, seqno)
      ensures stored == old(stored) || (cfg.hasStore && stored == Some(seqno))
    {
      Interfere();
      SaveAnswered(seqno);
    }

    method AssignCursorTo(phase: Phase, i: nat, seqno: nat)
      requires Valid() && pc == Handed(phase, i) && i < |log| && seqno == log[i].seqno
      modifies this`trace, this`pc, this`cursor
      ensures Valid() && pc == Recording(phase, i) && cursor == seqno
    {
      ghost var before := Abs();
      cursor, pc := seqno, Recording(phase, i);
      Did(before, AssignCursor);
    }

    /** A delivered event with a positive sequence moves the cursor and is saved (resumable.go:172-175, 197-200). */
    method Advance(phase: Phase, i: nat, seqno: nat)
      requires Valid() && pc == Handed(phase, i) && i < |log| && seqno == log[i].seqno
      modifies this`log, this`head, this`ctxDone, this`consumer, this`err, this`returned, this`trace,
               this`stored, this`saves, this`pc, this`cursor
      ensures Valid() && (old(ctxDone) ==> ctxDone) && old(log) <= log
      ensures pc == Receiving(phase, i + 1) && cursor == seqno && saves == old(saves) + Issued(cfg, seqno)
      ensures stored == old(stored) || (cfg.hasStore && stored == Some(seqno))
    {
      PositiveSequence();
      if seqno > 0 {
        AssignCursorTo(phase, i, seqno);
        SaveCursor(seqno);
      }
    }

    /** The others go on between the hand-over and its record. */
    method RecordDelivery(phase: Phase, i: nat, seqno: nat)
      requires Valid() && pc == Handed(phase, i) && i < |log| && seqno == log[i].seqno
      modifies this`log, this`head, this`ctxDone, this`consumer, this`err, this`returned, this`trace,
               this`stored, this`saves, this`pc, this`cursor
      ensures Valid() && (old(ctxDone) ==> ctxDone) && old(log) <= log
      ensures pc == Receiving(phase, i + 1) && cursor == seqno && saves == old(saves) + Issued(cfg, seqno)
    {
      Interfere();
      Advance(phase, i, seqno);
    }

    /** The catch-up mapper's own drop of a frame it does not know. */
    method DropFrame()
      requires Valid() && pc.Receiving? && pc.phase.CatchUp? && pc.pos < |log| && !Relevant(log[pc.pos], cfg.chat)
      requires pending == Some(Said(log[pc.pos]))
      modifies this`trace, this`pc, this`pending
      ensures Valid() && pending.None? && pc == Receiving(old(pc).phase, old(pc).pos + 1)
    {
      ghost var before := Abs();
      pc := Receiving(pc.phase, pc.pos + 1);
      TookUp(before, CatchUpSkip);
    }

    /**
     What a catch-up stream yields next, after its own mapper has dropped what it does not know; None
     when it ends.
     */
    method ReceiveCatchUp() returns (next: Option<CatchUpEvent>)
      requires Valid() && pending.None? && pc.Receiving? && pc.phase.CatchUp?
      modifies this`log, this`head, this`ctxDone, this`consumer, this`err, this`returned, this`trace,
               this`patience, this`pc, this`answers, this`pending
      ensures Valid() && pc.Receiving? && pc.phase == old(pc).phase && (old(ctxDone) ==> ctxDone)
      ensures patience <= old(patience) && (next.Some? ==> patience < old(patience))
      ensures next.Some? && !next.value.CatchupComplete? ==>
                pc.pos < |log| && CatchUpEventFromProto<string>(log[pc.pos]) == Emit(next.value)
                && pending == Some(Said(log[pc.pos]))
      ensures next.Some? && next.value.CatchupComplete? ==>
                CompletionHonest(log, head, pc.pos, next.value.headSequence)
                && pending == Some(Reported(next.value.headSequence))
      ensures next.None? ==> pending == Some(Ended)
      ensures old(answers) <= answers && |old(answers)| < |answers| && pending == Some(answers[|answers| - 1])
      ensures forall k :: |old(answers)| <= k < |answers| - 1 ==> answers[k].Said?
    {
      while true
        invariant Valid() && pending.None? && pc.Receiving? && pc.phase == old(pc).phase && (old(ctxDone) ==> ctxDone)
        invariant patience <= old(patience) && old(answers) <= answers
        invariant forall k :: |old(answers)| <= k < |answers| ==> answers[k].Said?
        decreases patience
      {
        var silent;
        silent, next := ListenOnce();
        if !silent {
          return;
        }
      }
    }

    /** One thing a catch-up stream may say; `silent` when its mapper drops it or nothing comes for a while. */
    method ListenOnce() returns (silent: bool, next: Option<CatchUpEvent>)
      requires Valid() && pending.None? && pc.Receiving? && pc.phase.CatchUp?
      modifies this`log, this`head, this`ctxDone, this`consumer, this`err, this`returned, this`trace,
               this`patience, this`pc, this`answers, this`pending
      ensures Valid() && pc.Receiving? && pc.phase == old(pc).phase && (old(ctxDone) ==> ctxDone)
      ensures patience <= old(patience) && (silent || next.Some? ==> patience < old(patience))
      ensures silent ==> next.None? && pending.None? && old(answers) <= answers
                         && forall k :: |old(answers)| <= k < |answers| ==> answers[k].Said?
      ensures !silent ==> pending.Some? && answers == old(answers) + [pending.value]
      ensures !silent && next.None? ==> pending == Some(Ended)
      ensures next.Some? && next.value.CatchupComplete? ==>
                CompletionHonest(log, head, pc.pos, next.value.headSequence)
                && pending == Some(Reported(next.value.headSequence))
      ensures next.Some? && !next.value.CatchupComplete? ==>
                pc.pos < |log| && CatchUpEventFromProto<string>(log[pc.pos]) == Emit(next.value)
                && pending == Some(Said(log[pc.pos]))
    {
      var out := patience == 0;
      Wait();
      silent, next := false, None;
      var cut: bool := *;
      var h: nat := *;
      if cut || out {
        Says(Ended);
      } else if CompletionHonest(log, head, pc.pos, h) {
        Says(Reported(h));
        next := Some(CatchupComplete(h));
      } else if pc.pos < |log| {
        next := ReceiveRecord();
        silent := next.None?;
      } else {
        silent := true;
      }
    }

    /** The next record of a catch-up: an event for the engine, or dropped by the mapper. */
    method ReceiveRecord() returns (next: Option<CatchUpEvent>)
      requires Valid() && pending.None? && pc.Receiving? && pc.phase.CatchUp? && pc.pos < |log|
      modifies this`trace, this`pc, this`answers, this`pending
      ensures Valid() && pc.Receiving? && pc.phase == old(pc).phase
      ensures answers == old(answers) + [Said(log[old(pc).pos])]
      ensures next.Some? ==> pc == old(pc) && pending == Some(Said(log[pc.pos])) && !next.value.CatchupComplete?
                             && CatchUpEventFromProto<string>(log[pc.pos]) == Emit(next.value)
      ensures next.None? ==> pending.None?
    {
      Says(Said(log[pc.pos]));
      var mapped := CatchUpEventFromProto<string>(log[pc.pos]);
      if mapped.Emit? && !mapped.value.CatchupComplete? {
        next := Some(mapped.value);
      } else {
        DropFrame();
        next := None;
      }
    }

    /** CatchupComplete (resumable.go:158-163): the cursor moves up to the head, never back. */
    method FinishCatchUp(h: nat)
      requires Valid() && pc.Receiving? && pc.phase.CatchUp? && CompletionHonest(log, head, pc.pos, h)
      requires pending == Some(Reported(h))
      modifies this`log, this`head, this`ctxDone, this`consumer, this`err, this`returned, this`trace,
               this`cursor, this`pc, this`completedHead, this`stored, this`saves, this`pending
      ensures Valid() && pending.None? && pc.Completed? && (old(ctxDone) ==> ctxDone) && old(log) <= log
      ensures completedHead == Some(h) && cursor == if h > old(cursor) then h else old(cursor)
      ensures saves == old(saves) + if h > old(cursor) then Issued(cfg, h) else []
    {
      if h > cursor {
        MoveToHead(h);
        SaveCursor(cursor);
      } else {
        ghost var before := Abs();
        completedHead, pc := Some(h), Completed;
        TookUp(before, CatchUpCompletes(h));
      }
    }

    method MoveToHead(h: nat)
      requires Valid() && pc.Receiving? && pc.phase.CatchUp? && CompletionHonest(log, head, pc.pos, h)
      requires pending == Some(Reported(h)) && h > cursor
      modifies this`trace, this`cursor, this`pc, this`completedHead, this`pending
      ensures Valid() && pending.None? && pc.HeadRecording? && completedHead == Some(h) && cursor == h
    {
      ghost var before := Abs();
      completedHead, cursor, pc := Some(h), h, HeadRecording;
      TookUp(before, CatchUpCompletes(h));
    }

    /** Hands record i's event over and records it; `false` when the context was done first. */
    method Deliver(phase: Phase, i: nat, ev: MessageEvent) returns (sent: bool)
      requires Valid() && pc == Sending(phase, i) && i < |log| && Mapped(log[i]) == Some(ev)
      modifies this`log, this`head, this`ctxDone, this`consumer, this`err, this`returned, this`trace, this`patience,
               this`pc, this`delivered, this`cursor, this`stored, this`saves
      ensures Valid() && (old(ctxDone) ==> ctxDone) && patience <= old(patience)
      ensures if sent then pc == Receiving(phase, i + 1) else pc == Stopped(Cancelled) && ctxDone
      ensures if sent then delivered == old(delivered) + [ev] && cursor == ev.sequence
                           && saves == old(saves) + Issued(cfg, ev.sequence)
              else delivered == old(delivered) && cursor == old(cursor) && saves == old(saves)
    {
      var (_, seqno) := MessageEventMeta(ev);
      MappedSequence(log[i]);
      sent := TrySend(phase, i);
      if sent {
        RecordDelivery(phase, i, seqno);
      }
    }

    /** A message event in catch-up (resumable.go:164-175): another chat's is passed over. */
    method CatchUpMessage(ev: MessageEvent) returns (goOn: bool)
      requires Valid() && pc.Receiving? && pc.phase.CatchUp? && pc.pos < |log|
      requires CatchUpEventFromProto<string>(log[pc.pos]) == Emit(FromMessage(ev)) && pending == Some(Said(log[pc.pos]))
      modifies this`log, this`head, this`ctxDone, this`consumer, this`err, this`returned, this`trace, this`patience,
               this`pc, this`delivered, this`cursor, this`stored, this`saves, this`pending
      ensures Valid() && pending.None? && (old(ctxDone) ==> ctxDone) && patience <= old(patience)
      ensures if goOn then pc == Receiving(old(pc).phase, old(pc).pos + 1) else pc == Stopped(Cancelled) && ctxDone
      ensures if goOn && Matches(cfg, ev)
              then delivered == old(delivered) + [ev] && cursor == ev.sequence
                   && saves == old(saves) + Issued(cfg, ev.sequence)
              else delivered == old(delivered) && cursor == old(cursor) && saves == old(saves)
      ensures !goOn ==> Matches(cfg, ev)
    {
      var (cg, _) := MessageEventMeta(ev);
      if cfg.chat != "" && cg != cfg.chat {
        DropFrame();
        goOn := true;
      } else {
        var phase, i := pc.phase, pc.pos;
        OfferRecord();
        goOn := Deliver(phase, i, ev);
      }
    }

    method OfferRecord()
      requires Valid() && pc.Receiving? && pc.phase.CatchUp? && pc.pos < |log| && Relevant(log[pc.pos], cfg.chat)
      requires pending == Some(Said(log[pc.pos]))
      modifies this`trace, this`pc, this`pending
      ensures Valid() && pending.None? && pc == Sending(old(pc).phase, old(pc).pos)
    {
      ghost var before := Abs();
      pc := Sending(pc.phase, pc.pos);
      TookUp(before, CatchUpOffer);
    }

    /** catchUp's switch over one event of the stream (resumable.go:157-179). */
    method CatchUpFrame(next: CatchUpEvent) returns (goOn: bool)
      requires Valid() && pc.Receiving? && pc.phase.CatchUp?
      requires if next.CatchupComplete? then CompletionHonest(log, head, pc.pos, next.headSequence)
               else pc.pos < |log| && CatchUpEventFromProto<string>(log[pc.pos]) == Emit(next)
      requires pending == Some(if next.CatchupComplete? then Reported(next.headSequence) else Said(log[pc.pos]))
      modifies this`log, this`head, this`ctxDone, this`consumer, this`err, this`returned, this`trace, this`patience,
               this`pc, this`delivered, this`cursor, this`stored, this`saves, this`pending,
               this`completedHead
      ensures Valid() && pending.None? && (old(ctxDone) ==> ctxDone) && patience <= old(patience)
      ensures goOn ==> pc == Receiving(old(pc).phase, old(pc).pos + 1)
      ensures !goOn ==> if next.CatchupComplete? then pc.Completed? else pc == Stopped(Cancelled) && ctxDone
      ensures next.CatchupComplete? ==>
                !goOn && cursor == (if next.headSequence > old(cursor) then next.headSequence else old(cursor))
      ensures if goOn && next.FromMessage? && Matches(cfg, next.event)
              then delivered == old(delivered) + [next.event] && cursor == next.event.sequence
              else delivered == old(delivered) && (!next.CatchupComplete? ==> cursor == old(cursor))
      ensures !goOn && !next.CatchupComplete? ==> next.FromMessage? && Matches(cfg, next.event)
    {
      match next
      case CatchupComplete(h) =>
        FinishCatchUp(h);
        goOn := false;
      case FromMessage(ev) =>
        goOn := CatchUpMessage(ev);
      case FromFamily(_, _, _, _) =>
        DropFrame();
        goOn := true;
    }

    /** The loop over a catch-up stream (resumable.go:156-184). */
    method ReadCatchUp() returns (failed: bool)
      requires Valid() && pending.None? && pc.Receiving? && pc.phase.CatchUp?
      modifies this`log, this`head, this`ctxDone, this`consumer, this`err, this`returned, this`trace, this`patience,
               this`pc, this`delivered, this`cursor, this`stored, this`saves, this`pending,
               this`completedHead, this`answers
      ensures Valid() && (old(ctxDone) ==> ctxDone) && patience <= old(patience)
      ensures if !failed then pc.Completed? && pending.None?
              else if pc.Receiving? then pc.phase.CatchUp? && pending == Some(Ended)
              else pc == Stopped(Cancelled) && ctxDone && pending.None?
      ensures old(answers) <= answers && HeardOut(answers[|old(answers)|..], pc.Stopped?)
      ensures (!failed <==> LastReported(answers)) && (pending.Some? ==> answers[|answers| - 1] == Ended)
    {
      while true
        invariant Valid() && pending.None? && pc.Receiving? && pc.phase.CatchUp?
        invariant (old(ctxDone) ==> ctxDone) && patience <= old(patience) && old(answers) <= answers
        invariant forall k :: |old(answers)| <= k < |answers| ==> answers[k].Said?
        decreases patience
      {
        var next := ReceiveCatchUp();
        if next.None? {
          return true;
        }
        var goOn := CatchUpFrame(next.value);
        if !goOn {
          return !next.value.CatchupComplete?;
        }
      }
    }

    /**
     catchUp (resumable.go:152-185); `failed` is its error being non-nil. It reads its stream until that
     says something other than a record, or a send is cancelled: it succeeds exactly on a completion, and
     the account moves by what the reference makes of what was said, but for a record given up.
     */
    method CatchUp() returns (failed: bool)
      requires Valid() && pending.None? && pc.Top? && !ctxDone
      modifies this`log, this`head, this`ctxDone, this`consumer, this`err, this`returned, this`trace, this`patience,
               this`pc, this`delivered, this`cursor, this`stored, this`saves, this`pending,
               this`completedHead, this`answers
      ensures Valid() && (old(ctxDone) ==> ctxDone) && patience <= old(patience)
      ensures if !failed then pc.Completed? && completedHead.Some? && completedHead.value <= cursor && pending.None?
              else if pc.Receiving? then pc.phase.CatchUp? && pending == Some(Ended)
              else pc == Stopped(Cancelled) && ctxDone && pending.None?
      ensures old(answers) <= answers && HeardOut(answers[|old(answers)|..], pc.Stopped?)
      ensures !failed <==> LastReported(answers)
      ensures Moved(cfg, old(Now(false)), Account(cursor, delivered, saves), answers[|old(answers)|..], pc.Stopped?)
    {
      AtLoopHead();
      Subscribe();
      failed := ReadCatchUp();
      if !failed {
        CompletedFacts();
      }
      SinceLoopHead(old(answers));
    }

    /** The catch-up is asked for from the cursor (resumable.go:153). */
    method Subscribe()
      requires Valid() && pc.Top? && !ctxDone
      modifies this`trace, this`pc, this`completedHead
      ensures Valid() && pc == Receiving(Phase.CatchUp(cursor), FirstAfter(log, cursor))
    {
      ghost var before := Abs();
      pc, completedHead := Receiving(Phase.CatchUp(cursor), FirstAfter(log, cursor)), None;
      Did(before, BeginCatchUp);
    }

    // ----- live -----

    /** What a live subscription yields next: some message record past the cursor (A2-weak); None when it ends. */
    method ReceiveLive() returns (next: Option<MessageEvent>, i: nat)
      requires Valid() && pending.None? && pc.Receiving? && pc.phase.Live?
      modifies this`log, this`head, this`ctxDone, this`consumer, this`err, this`returned, this`trace, this`patience,
               this`answers, this`pending
      ensures Valid() && (old(ctxDone) ==> ctxDone)
      ensures patience <= old(patience) && (next.Some? ==> patience < old(patience))
      ensures next.Some? ==> i < |log| && Mapped(log[i]) == next && log[i].seqno > cursor
      ensures pending == Some(if next.Some? then Said(log[i]) else Ended) && answers == old(answers) + AsSeq(pending)
    {
      next, i := None, 0;
      while patience > 0
        invariant Valid() && pending.None? && (old(ctxDone) ==> ctxDone) && patience <= old(patience)
        invariant answers == old(answers)
        decreases patience
      {
        Wait();
        var cut: bool := *;
        i := *;
        if cut {
          Says(Ended);
          return None, 0;
        } else if i < |log| && log[i].seqno > cursor {
          MappersAgree(log[i]);
          var mapped := MessageEventFromProto<string>(LiveFrameOf(log[i]));
          if mapped.Emit? {
            Says(Said(log[i]));
            return Some(mapped.value), i;
          }
        }
      }
      Says(Ended);
    }

    /** One event of the live feed (resumable.go:192-201). */
    method LiveEvent(ev: MessageEvent, i: nat) returns (sent: bool)
      requires Valid() && pc.Receiving? && pc.phase.Live? && i < |log| && Mapped(log[i]) == Some(ev)
      requires log[i].seqno > cursor && pending == Some(Said(log[i]))
      modifies this`log, this`head, this`ctxDone, this`consumer, this`err, this`returned, this`trace, this`patience,
               this`pc, this`delivered, this`cursor, this`stored, this`saves, this`pending
      ensures Valid() && pending.None? && (old(ctxDone) ==> ctxDone) && patience <= old(patience)
      ensures if sent then pc == Receiving(Live, i + 1) else pc == Stopped(Cancelled) && ctxDone
      ensures if sent then delivered == old(delivered) + [ev] && cursor == ev.sequence
                           && saves == old(saves) + Issued(cfg, ev.sequence)
              else delivered == old(delivered) && cursor == old(cursor) && saves == old(saves)
    {
      ghost var before := Abs();
      pc := Sending(Live, i);
      TookUp(before, LiveOffer(i));
      sent := Deliver(Live, i, ev);
    }

    /** One turn of live's loop: one answer, taken up unless it is the stream's end. */
    method LiveTurn() returns (goOn: bool, failed: bool)
      requires Valid() && pending.None? && pc.Receiving? && pc.phase.Live?
      modifies this`log, this`head, this`ctxDone, this`consumer, this`err, this`returned, this`trace, this`patience,
               this`pc, this`delivered, this`cursor, this`stored, this`saves, this`pending,
               this`answers
      ensures Valid() && (old(ctxDone) ==> ctxDone) && patience <= old(patience)
      ensures |answers| == |old(answers)| + 1 && old(answers) <= answers
      ensures if pc.Receiving? then pc.phase.Live? && (if goOn then pending.None? else pending == Some(Ended))
              else !goOn && failed && pc == Stopped(Cancelled) && ctxDone && pending.None?
      ensures goOn ==> patience < old(patience)
      ensures if !goOn && pc.Receiving? then LastIs(answers, Ended) else GivenUp(answers)
    {
      var next, i := ReceiveLive();
      if next.None? {
        failed := *;
        return false, failed;
      }
      goOn := LiveEvent(next.value, i);
      failed := !goOn;
    }

    /** The loop over a live stream (resumable.go:192-202). */
    method ReadLive() returns (failed: bool)
      requires Valid() && pending.None? && pc.Receiving? && pc.phase.Live?
      modifies this`log, this`head, this`ctxDone, this`consumer, this`err, this`returned, this`trace, this`patience,
               this`pc, this`delivered, this`cursor, this`stored, this`saves, this`pending,
               this`answers
      ensures Valid() && (old(ctxDone) ==> ctxDone) && patience <= old(patience)
      ensures if pc.Receiving? then pc.phase.Live? && pending == Some(Ended)
              else failed && pc == Stopped(Cancelled) && ctxDone && pending.None?
      ensures old(answers) <= answers && HeardOut(answers[|old(answers)|..], pc.Stopped?)
      ensures pending.Some? ==> answers[|answers| - 1] == Ended
    {
      while true
        invariant Valid() && pending.None? && pc.Receiving? && pc.phase.Live?
        invariant (old(ctxDone) ==> ctxDone) && patience <= old(patience) && old(answers) <= answers
        invariant forall k :: |old(answers)| <= k < |answers| ==> answers[k].Said?
        decreases patience
      {
        var goOn: bool;
        goOn, failed := LiveTurn();
        if !goOn {
          return;
        }
      }
    }

    /**
     live (resumable.go:188-203): it reads its stream until that ends or a send is cancelled, and the
     account moves by what the reference makes of what was said, but for a record given up.
     */
    method LiveLoop() returns (failed: bool)
      requires Valid() && pending.None? && pc.Receiving? && pc.phase.Live?
      modifies this`log, this`head, this`ctxDone, this`consumer, this`err, this`returned, this`trace, this`patience,
               this`pc, this`delivered, this`cursor, this`stored, this`saves, this`pending,
               this`answers
      ensures Valid() && (old(ctxDone) ==> ctxDone) && patience <= old(patience)
      ensures if pc.Receiving? then pc.phase.Live? && pending == Some(Ended)
              else failed && pc == Stopped(Cancelled) && ctxDone && pending.None?
      ensures old(answers) <= answers && HeardOut(answers[|old(answers)|..], pc.Stopped?)
      ensures pc.Receiving? ==> answers[|answers| - 1] == Ended
      ensures Moved(cfg, old(Now(true)), Account(cursor, delivered, saves), answers[|old(answers)|..], pc.Stopped?)
    {
      AtLoopHead();
      failed := ReadLive();
      SinceLoopHead(old(answers));
    }

    // ----- run -----

    /** The reader takes the Load error: it sets Err and leaves, which cancels. */
    method HandErrorOver(detail: string)
      requires Valid() && pc == ReportingLoadError(detail) && consumer.Waiting?
      modifies this`pc, this`err, this`consumer, this`ctxDone, this`trace
      ensures Valid() && pc == Stopped(LoadError)
      ensures err == (if old(err).None? then Some(LoadFailed(detail)) else old(err)) && consumer.Left? && ctxDone
    {
      ghost var before := Abs();
      pc, err, consumer, ctxDone := Stopped(LoadError), FirstErr(err, LoadFailed(detail)), Left, true;
      Did(before, ReportHandOver);
    }

    /** Reporting a failed Load through the channel (resumable.go:110-113). */
    method ReportLoadFailure(detail: string)
      requires Valid() && pc == ReportingLoadError(detail)
      modifies this`log, this`head, this`ctxDone, this`consumer, this`err, this`returned, this`trace, this`patience,
               this`pc
      ensures Valid() && pc == Stopped(LoadError) && ctxDone
    {
      AwaitReaderOrDone();
      var preferSend: bool := *;
      if consumer.Waiting? && (!ctxDone || preferSend) {
        HandErrorOver(detail);
      } else {
        ghost var before := Abs();
        pc := Stopped(LoadError);
        Did(before, ReportDropped);
      }
    }

    /** store.Load at start-up (resumable.go:107-117); `false` when run must return. */
    method Load() returns (ok: bool)
      requires Valid() && pc.Loading?
      modifies this`log, this`head, this`ctxDone, this`consumer, this`err, this`returned, this`trace, this`patience,
               this`pc, this`cursor
      ensures Valid() && (if ok then pc.Top? && cursor == start else pc == Stopped(LoadError))
    {
      ghost var before := Abs();
      var fails: bool, detail: string := *, *;
      if cfg.hasStore && fails {
        pc := ReportingLoadError(detail);
        Did(before, LoadFails(detail));
        ReportLoadFailure(detail);
        ok := false;
      } else {
        cursor, pc := 0, Top;
        if cfg.hasStore && stored.Some? {
          cursor := stored.value;
        }
        LoadFacts(before);
        Did(before, LoadOk);
        ok := true;
      }
    }

    /** Without a store there is nothing stored. */
    lemma {:induction false} LoadFacts(before: State)
      requires Init(cfg, origin) && ValidRun(cfg, origin, trace) && Resumable.Run(cfg, origin, trace) == before
      ensures before.stored.Some? ==> cfg.hasStore
      ensures before.pc.Loading? ==> before.start == StoredCursor(before)
    {
      StoredNeedsStore(cfg, origin, trace);
      KeptFromInit(cfg, origin, trace);
    }

    /**
     Closes the inner loop's failed phase: stop when the context is done, else sleep
     (resumable.go:124-133, 136-141).
     */
    method AfterFailure()
      requires Valid() && pc.Receiving? && pending == Some(Ended)
      modifies this`pc, this`trace, this`pending
      ensures Valid() && pending.None? && (if ctxDone then pc == Stopped(Cancelled) else pc.Sleeping?)
    {
      ghost var before := Abs();
      var live := pc.phase.Live?;
      pc := if ctxDone then Stopped(Cancelled) else Sleeping;
      if live {
        TookUp(before, LiveEnds(None));
      } else {
        TookUp(before, CatchUpFails(None));
      }
    }

    /** time.NewTimer. */
    method NewTimer(d: int)
      requires Valid()
      modifies this`timers
      ensures Valid() && timers == old(timers) + [d]
    {
      timers := timers + [d];
    }

    /**
     sleepBackoff (resumable.go:273-286) and the caller's use of it: one timer of the current backoff, which
     is the promised doubling when the bounds allow it, then the next backoff, or the end.
     */
    method SleepBackoff() returns (ok: bool)
      requires Valid() && pc.Sleeping?
      modifies this`log, this`head, this`ctxDone, this`consumer, this`err, this`returned, this`trace, this`patience,
               this`pc, this`backoff, this`sleeps, this`timers
      ensures Valid() && (old(ctxDone) ==> ctxDone)
      ensures if ok then pc.Top? && patience < old(patience) else pc == Stopped(Cancelled) && ctxDone
      ensures backoff == if ok then Backoff.Next(old(backoff), cfg.maxBackoff) else old(backoff)
      ensures sleeps == old(sleeps) + (if ok then 1 else 0)
      ensures timers == old(timers) + [old(backoff)]
      ensures old(backoff) == Backoff.Sleep(cfg.minBackoff, cfg.maxBackoff, old(sleeps))
      ensures cfg.minBackoff <= cfg.maxBackoff < TWO_62 ==>
                old(backoff) == Min(cfg.minBackoff * Pow2(old(sleeps)), cfg.maxBackoff)
    {
      StartTimer();
      ok := TimerOrDone();
    }

    /** sleepBackoff's select: when both are ready, either may win. */
    method TimerOrDone() returns (ok: bool)
      requires Valid() && pc.Sleeping?
      modifies this`log, this`head, this`ctxDone, this`consumer, this`err, this`returned, this`trace, this`patience,
               this`pc, this`backoff, this`sleeps
      ensures Valid() && (old(ctxDone) ==> ctxDone)
      ensures if ok then pc.Top? && patience < old(patience) else pc == Stopped(Cancelled) && ctxDone
      ensures backoff == if ok then Backoff.Next(old(backoff), cfg.maxBackoff) else old(backoff)
      ensures sleeps == old(sleeps) + (if ok then 1 else 0)
    {
      var exhausted := patience == 0;
      Wait();
      var timerFirst: bool := *;
      if ctxDone && (exhausted || !timerFirst) {
        SleepStops();
        ok := false;
      } else {
        TimerFires();
        ok := true;
      }
    }

    /** One timer, of the current backoff. */
    method StartTimer()
      requires Valid()
      modifies this`timers
      ensures Valid() && timers == old(timers) + [backoff]
      ensures backoff == Backoff.Sleep(cfg.minBackoff, cfg.maxBackoff, sleeps)
      ensures cfg.minBackoff <= cfg.maxBackoff < TWO_62 ==>
                backoff == Min(cfg.minBackoff * Pow2(sleeps), cfg.maxBackoff)
    {
      KeptFromInit(cfg, origin, trace);
      if cfg.minBackoff <= cfg.maxBackoff < TWO_62 {
        BackoffAlongRuns(cfg, origin, trace);
      }
      NewTimer(backoff);
    }

    /** The context case of sleepBackoff's select. */
    method SleepStops()
      requires Valid() && pc.Sleeping? && ctxDone
      modifies this`pc, this`trace
      ensures Valid() && pc == Stopped(Cancelled)
    {
      ghost var before := Abs();
      pc := Stopped(Cancelled);
      Did(before, SleepCancelled);
    }

    /** The timer case of sleepBackoff's select: double, then cap. */
    method TimerFires()
      requires Valid() && pc.Sleeping?
      modifies this`pc, this`backoff, this`sleeps, this`trace
      ensures Valid() && pc.Top? && backoff == Backoff.Next(old(backoff), cfg.maxBackoff) && sleeps == old(sleeps) + 1
    {
      ghost var before := Abs();
      backoff := Wrap64(backoff * 2);
      if backoff > cfg.maxBackoff {
        backoff := cfg.maxBackoff;
      }
      pc, sleeps := Top, sleeps + 1;
      Did(before, SleepEnds);
    }

    /** The connection is proven healthy: reset the backoff and subscribe (resumable.go:135-136, 189). */
    method GoLive()
      requires Valid() && pc.Completed?
      modifies this`pc, this`backoff, this`sleeps, this`trace
      ensures Valid() && pc == Receiving(Live, FirstAfter(log, cursor)) && backoff == cfg.minBackoff && sleeps == 0
    {
      CompletedFacts();
      ghost var before := Abs();
      backoff, sleeps, pc := cfg.minBackoff, 0, Receiving(Live, FirstAfter(log, cursor));
      Did(before, BeginLive);
    }

    lemma {:induction false} CompletedFacts()
      requires Valid() && pc.Completed?
      ensures completedHead.Some? && completedHead.value <= cursor
      ensures FirstAfter(log, completedHead.value) == FirstAfter(log, cursor)
    {
      KeptFromInit(cfg, origin, trace);
      var p, q := FirstAfter(log, completedHead.value), FirstAfter(log, cursor);
      assert p < |log| ==> log[p].seqno > cursor;
    }

    /** catchUp and, if it failed, the choice between a stop and a sleep (resumable.go:124-133). */
    method TryCatchUp() returns (failed: bool)
      requires Valid() && pending.None? && pc.Top? && !ctxDone && sleeps == Losses(answers)
      modifies this`log, this`head, this`ctxDone, this`consumer, this`err, this`returned, this`trace, this`patience,
               this`pc, this`delivered, this`cursor, this`stored, this`saves, this`pending,
               this`completedHead, this`answers
      ensures Valid() && pending.None? && patience <= old(patience)
      ensures if failed then pc.Sleeping? || pc == Stopped(Cancelled) else pc.Completed?
      ensures if failed then Rested(cfg, old(answers), answers, sleeps, pc.Sleeping?)
              else LastReported(answers) && Naps(cfg, answers) == Naps(cfg, old(answers))
    {
      failed := CatchUp();
      RestsAfterRead(cfg, old(answers), answers, pc.Stopped?);
      if pc.Receiving? {
        AfterFailure();
      }
    }

    /** live and, once it ended, the choice between a stop and a sleep (resumable.go:138-141). */
    method StayLive()
      requires Valid() && pending.None? && pc.Receiving? && pc.phase.Live? && LastReported(answers) && sleeps == 0
      modifies this`log, this`head, this`ctxDone, this`consumer, this`err, this`returned, this`trace, this`patience,
               this`pc, this`delivered, this`cursor, this`stored, this`saves, this`pending,
               this`answers
      ensures Valid() && pending.None? && patience <= old(patience)
      ensures pc.Sleeping? || pc == Stopped(Cancelled)
      ensures Rested(cfg, old(answers), answers, sleeps, pc.Sleeping?)
    {
      var _ := LiveLoop();
      RestsAfterRead(cfg, old(answers), answers, pc.Stopped?);
      if pc.Receiving? {
        AfterFailure();
      }
    }

    /** One connection: catch-up, then live if that completed, until it is lost (resumable.go:124-141). */
    method Connect()
      requires Valid() && pending.None? && pc.Top? && !ctxDone && sleeps == Losses(answers)
      modifies this`log, this`head, this`ctxDone, this`consumer, this`err, this`returned, this`trace, this`patience,
               this`pc, this`delivered, this`cursor, this`stored, this`saves, this`pending,
               this`completedHead, this`answers, this`backoff, this`sleeps
      ensures Valid() && pending.None? && patience <= old(patience)
      ensures pc.Sleeping? || pc == Stopped(Cancelled)
      ensures Rested(cfg, old(answers), answers, sleeps, pc.Sleeping?)
    {
      var failed := TryCatchUp();
      if !failed {
        GoLive();
        StayLive();
      }
    }

    /** run's loop (resumable.go:119-147). */
    method ReconnectLoop()
      requires Valid() && pending.None? && pc.Top? && timers == Naps(cfg, answers) && sleeps == Losses(answers)
      modifies this
      ensures Valid() && pending.None? && pc == Stopped(Cancelled)
      ensures timers == Naps(cfg, answers) || (LastIs(answers, Ended) && timers == Naps(cfg, Earlier(answers)))
    {
      while true
        invariant Valid() && pending.None? && pc.Top?
        invariant timers == Naps(cfg, answers) && sleeps == Losses(answers)
        decreases patience
      {
        if ctxDone {
          ghost var before := Abs();
          pc := Stopped(Cancelled);
          Did(before, TopCancelled);
          return;
        }
        Connect();
        if pc.Stopped? {
          return;
        }
        var ok := SleepBackoff();
        if !ok {
          return;
        }
      }
    }

    /**
     run (resumable.go:103-148). It ends only by cancellation or a failed Load, with every event handed
     over recorded, in order, and no server failure in Err. It has delivered and saved what the reference
     makes of everything its streams said, but for a record it was cancelled with, and slept once for each
     lost stream but perhaps the last; and when the live feed was faithful, exactly the log's relevant events
     from the loaded cursor to the last one.
     */
    method Run()
      requires Valid() && pending.None? && pc.Loading? && answers == [] && timers == [] && sleeps == 0
      modifies this
      ensures Valid() && pending.None? && pc.Stopped?
      ensures pc == Stopped(Cancelled) ==> ctxDone
      ensures err.Some? ==> !err.value.ServerFailed?
      ensures cfg.hasStore ==> forall k :: 0 <= k < |delivered| ==> delivered[k].sequence in saves
      ensures Ascending(delivered, start, Reached(Abs())) && NonDecreasing(saves)
      ensures FaithfulRun(cfg, origin, trace) ==> delivered == Between(log, cfg.chat, start, Reached(Abs()))
      ensures if pc.why.LoadError? then answers == [] && delivered == [] && saves == []
              else Agrees(Account(cursor, delivered, saves),
                          FollowAll(cfg, Begin(start), if GivenUp(answers) then Earlier(answers) else answers))
      ensures timers == Naps(cfg, answers) || (LastIs(answers, Ended) && timers == Naps(cfg, Earlier(answers)))
    {
      var ok := Load();
      if ok {
        ReconnectLoop();
      }
      RunFacts();
      FollowsTaken();
    }

    lemma {:induction false} RunFacts()
      requires Valid() && pc.Stopped?
      ensures pc == Stopped(Cancelled) ==> ctxDone
      ensures err.Some? ==> !err.value.ServerFailed?
      ensures cfg.hasStore ==> forall k :: 0 <= k < |delivered| ==> delivered[k].sequence in saves
      ensures Ascending(delivered, start, Reached(Abs())) && NonDecreasing(saves)
      ensures FaithfulRun(cfg, origin, trace) ==> delivered == Between(log, cfg.chat, start, Reached(Abs()))
    {
      PhasesAndEndings(cfg, origin, trace);
      KeptFromInit(cfg, origin, trace);
      if FaithfulRun(cfg, origin, trace) {
        ExactlyOnce(cfg, origin, trace);
      }
    }
  }

  lemma {:induction false} StoredNeedsStore(cfg: Config, s: State, steps: seq<Step>)
    requires (s.stored.Some? ==> cfg.hasStore) && ValidRun(cfg, s, steps)
    ensures Resumable.Run(cfg, s, steps).stored.Some? ==> cfg.hasStore
    decreases |steps|
  {
    if steps != [] {
      StoredNeedsStore(cfg, Apply(cfg, s, steps[0]), steps[1..]);
    }
  }
}
