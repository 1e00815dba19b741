/**
 internal/transport/stream.go as written: the subscription object with its pump, Events and Close,
 each run as one goroutine while all the others act at every point where it can be interrupted or
 blocked. Every update is one step of the machine in `Subscription`, recorded in `trace`.

 `patience` bounds how long the stream and the other goroutines go on before the parent context is
 cancelled; it is arbitrary, so every finite run is covered.
 */
module SubscriptionObject {
  import opened Prelude
  import opened Subscription
  import opened SubscriptionSafety
  import opened SubscriptionRuns

  /** Only the record of disturbances may differ. */
  ghost predicate SameStream<F, T, E>(a: Seen<F, T, E>, b: Seen<F, T, E>) {
    b == a.(disturbed := b.disturbed)
  }

  /** A call that has taken the consumed flag keeps it. */
  predicate WinnerKept<T, E>(before: Calls<T, E>, after: Calls<T, E>) {
    before.winner.Some? ==> after.winner == before.winner
  }

  class Sub<F(0), T, E(0)> {
    const mapFn: MapFn<F, T, E>
    const dup: E
    // the pump goroutine with out and done, the context, and the calls with consumed, once and err
    var p: PumpSide<T, E>
    var ctx: Context
    var c: Calls<T, E>
    var patience: nat
    ghost var seen: Seen<F, T, E>
    ghost const origin: State<F, T, E>
    ghost var trace: seq<Step<F, E>>
    // what the stream has answered, and its last answer while the pump has not taken it up
    ghost var answers: seq<Answer<F, E>>
    ghost var pending: Option<Answer<F, E>>

    ghost function Abs(): State<F, T, E>
      reads this
    {
      State(p, ctx, c, seen)
    }

    /** The object is where its trace leads the machine, and the trace has taken up every answer but a pending one. */
    ghost predicate Valid()
      reads this
    {
      && Init(origin) && ValidRun(mapFn, dup, origin, trace) && Run(mapFn, dup, origin, trace) == Abs()
      && answers == Answers(trace) + AsSeq(pending)
    }

    /** Subscribe (stream.go:47-57), about to be used by the given calls of Events and Close. */
    constructor (mapFn: MapFn<F, T, E>, dup: E, calls: seq<Thread<T, E>>, patience: nat)
      requires forall t :: 0 <= t < |calls| ==> calls[t].AtEvents? || calls[t].AtClose?
      ensures Valid() && trace == [] && answers == [] && pending.None? && Abs() == Fresh(calls)
      ensures this.mapFn == mapFn && this.dup == dup
    {
      this.mapFn, this.dup, this.patience := mapFn, dup, patience;
      p := PumpSide(Opening, false, false, false);
      ctx := Context(false, 0);
      c := Calls(calls, false, None, Free, None);
      seen := Seen([], None, [], [], false);
      origin := Fresh(calls);
      trace, answers, pending := [], [], None;
    }

    /** The update just made was one step of the machine, not on the stream. */
    ghost method Did(before: State<F, T, E>, step: Step<F, E>)
      requires Init(origin) && ValidRun(mapFn, dup, origin, trace) && Run(mapFn, dup, origin, trace) == before
      requires answers == Answers(trace) + AsSeq(pending)
      requires Enabled(before, step) && Apply(mapFn, dup, before, step) == Abs() && AnswerOf(step).None?
      modifies this`trace
      ensures Valid()
    {
      RunAppend(mapFn, dup, origin, trace, step);
      AnswersSnoc(trace, step);
      Regroup(Answers(trace), [], []);
      trace := trace + [step];
    }

    /** The stream answers. */
    ghost method Answered(a: Answer<F, E>)
      requires Valid() && pending.None?
      modifies this`answers, this`pending
      ensures Valid() && pending == Some(a) && answers == old(answers) + [a]
    {
      Regroup(Answers(trace), [], [a]);
      answers, pending := answers + [a], Some(a);
    }

    /** The update just made was the step that takes up what the stream has just answered. */
    ghost method TookUp(before: State<F, T, E>, step: Step<F, E>)
      requires Init(origin) && ValidRun(mapFn, dup, origin, trace) && Run(mapFn, dup, origin, trace) == before
      requires answers == Answers(trace) + AsSeq(pending)
      requires Enabled(before, step) && Apply(mapFn, dup, before, step) == Abs()
      requires AnswerOf(step).Some? && pending == AnswerOf(step)
      modifies this`trace, this`pending
      ensures Valid() && pending.None?
    {
      RunAppend(mapFn, dup, origin, trace, step);
      AnswersSnoc(trace, step);
      Regroup(answers, [], []);
      trace, pending := trace + [step], None;
    }

    /** What every interleaving keeps, at the current state. */
    lemma {:induction false} Facts()
      requires Valid()
      ensures Safe(mapFn, Abs())
    {
      InitSafe(mapFn, origin);
      SafeRun(mapFn, dup, origin, trace);
    }

    /** With nothing pending, what has been seen is what the stream has answered. */
    lemma {:induction false} HeardAll()
      requires Valid() && pending.None?
      ensures seen.frames == FramesIn(answers) && seen.ending == EndingNamed(mapFn, answers)
      ensures PumpLeft(p.pump) && !ctx.done ==>
                seen.ending.Some? && seen.yielded == Emitted(mapFn, FramesIn(answers))
                && LastSent(seen.sent) == ErrorOf(seen.ending.value)
    {
      SeenIsAnswered(mapFn, dup, origin, trace);
      Regroup(Answers(trace), [], []);
    }

    // ----- the other goroutines -----

    /** The parent cancels, if it has not. */
    method ParentCancels()
      requires Valid()
      modifies this`ctx, this`seen, this`trace
      ensures Valid() && ctx.done && SameStream(old(seen), seen)
    {
      if !ctx.done {
        ghost var before := Abs();
        var b: nat := *;
        ctx := Context(true, b);
        seen := seen.(disturbed := true);
        Did(before, CancelParent(b));
      }
    }

    /** A call of Events or Close takes one of its own steps, if it may. */
    method CallActs(t: nat, what: CallAct)
      requires Valid()
      modifies this`ctx, this`c, this`seen, this`trace
      ensures Valid() && (old(ctx.done) ==> ctx.done) && |c.threads| == |old(c.threads)|
      ensures forall u :: 0 <= u < |c.threads| && u != t ==> c.threads[u] == old(c.threads)[u]
      ensures SameStream(old(seen), seen)
      ensures if old(CallMay(p, c, t, what)) then c == CallsAfter(dup, p, old(c), t, what)
                   && (what.Cancel? ==> ctx.done)
              else c == old(c)
    {
      if CallMay(p, c, t, what) {
        ghost var before := Abs();
        c := CallsAfter(dup, p, c, t, what);
        if what.Cancel? {
          ctx := Cancelled(ctx, what.buffered);
        }
        if what == BodyReturns(false) {
          seen := seen.(disturbed := true);
        }
        Did(before, CallDoes(t, what));
      }
    }

    /** Calls of Events and Close, and the parent, take any number of steps. */
    method CallersInterfere()
      requires Valid()
      modifies this`ctx, this`c, this`seen, this`trace
      ensures Valid() && (old(ctx.done) ==> ctx.done) && |c.threads| == |old(c.threads)| && SameStream(old(seen), seen)
    {
      var n: nat := *;
      while n > 0
        invariant Valid() && (old(ctx.done) ==> ctx.done) && |c.threads| == |old(c.threads)|
        invariant SameStream(old(seen), seen)
      {
        n := n - 1;
        var cancels: bool, t: nat, what: CallAct := *, *, *;
        if cancels {
          ParentCancels();
        } else {
          CallActs(t, what);
        }
      }
    }

    // ----- the pump -----

    /** Some call ranging over out, if there is one. */
    method Reader() returns (t: nat)
      ensures t < |c.threads| ==> c.threads[t].Ranging?
      ensures t <= |c.threads|
    {
      t := 0;
      while t < |c.threads| && !c.threads[t].Ranging?
        invariant t <= |c.threads|
      {
        t := t + 1;
      }
    }

    /** The joint step on out: reader t takes what the pump is sending. */
    method HandResultOver(t: nat)
      requires Valid() && p.pump.Sending? && t < |c.threads| && c.threads[t].Ranging?
      modifies this`p, this`c, this`seen, this`trace
      ensures Valid() && p.pump == (if old(p.pump).r.Val? then Receiving else ClosingOut)
      ensures c == old(Goto(c, t, if p.pump.r.Val? then InBody(p.pump.r.value) else Failing(p.pump.r.error)))
      ensures p.outClosed == old(p.outClosed) && p.doneClosed == old(p.doneClosed)
      ensures seen.sent == old(seen.sent) + [old(p.pump).r] && seen.frames == old(seen.frames)
      ensures seen.yielded == old(seen.yielded) + Values([old(p.pump).r])
    {
      ghost var before := Abs();
      var r := p.pump.r;
      seen := seen.(sent := seen.sent + [r]);
      p := p.(panicked := p.panicked || p.outClosed);
      match r {
        case Val(v) =>
          p, c := p.(pump := Receiving), Goto(c, t, InBody(v));
          seen := seen.(yielded := seen.yielded + [v]);
        case Failure(e) =>
          p, c := p.(pump := ClosingOut), Goto(c, t, Failing(e));
      }
      Did(before, HandOver(t));
    }

    /** trySend (stream.go:97-104): hand the result over unless the context is done first. */
    method TrySend() returns (sent: bool)
      requires Valid() && p.pump.Sending?
      modifies this`p, this`ctx, this`c, this`seen, this`trace, this`patience
      ensures Valid() && patience <= old(patience)
      ensures p.pump == if sent && old(p.pump).r.Val? then Receiving else ClosingOut
      ensures !sent ==> ctx.done
      ensures if sent then seen.sent == old(seen.sent) + [old(p.pump).r]
                           && seen.yielded == old(seen.yielded) + Values([old(p.pump).r])
                           && seen.frames == old(seen.frames)
              else SameStream(old(seen), seen)
    {
      CallersInterfere();
      var t: nat := Reader();
      while t == |c.threads| && !ctx.done && patience > 0
        invariant Valid() && p == old(p) && patience <= old(patience) && SameStream(old(seen), seen)
        invariant t <= |c.threads| && (t < |c.threads| ==> c.threads[t].Ranging?)
        decreases patience
      {
        patience := patience - 1;
        CallersInterfere();
        t := Reader();
      }
      // when both are ready, either may win
      var preferSend: bool := *;
      if t < |c.threads| && (!ctx.done || preferSend) {
        HandResultOver(t);
        sent := true;
      } else {
        ParentCancels();
        ghost var before := Abs();
        p := p.(pump := ClosingOut);
        Did(before, PumpDoes(GiveUp));
        sent := false;
      }
    }

    /** One pump action; on the stream it takes up what the stream has just answered. */
    method PumpActs(act: PumpAct<F, E>)
      requires Valid() && PumpMay(p, ctx, act)
      requires AnswerOf(Step<F, E>.PumpDoes(act)).Some? ==> pending == AnswerOf(Step<F, E>.PumpDoes(act))
      modifies this`p, this`ctx, this`seen, this`trace, this`pending
      ensures Valid() && p == PumpAfter(mapFn, old(p), act) && ctx.done == old(ctx.done)
      ensures seen == SeenAfter(mapFn, old(seen), act)
      ensures pending == if AnswerOf(Step<F, E>.PumpDoes(act)).Some? then None else old(pending)
    {
      ghost var before := Abs();
      p, ctx := PumpAfter(mapFn, p, act), CtxAfter(ctx, act);
      seen := SeenAfter(mapFn, seen, act);
      if AnswerOf(Step<F, E>.PumpDoes(act)).Some? {
        TookUp(before, PumpDoes(act));
      } else {
        Did(before, PumpDoes(act));
      }
    }

    /** The open function: the stream opens, or does not. */
    method Open() returns (failure: Option<E>)
      requires Valid() && p.pump.Opening? && pending.None?
      modifies this`ctx, this`c, this`seen, this`trace, this`answers, this`pending
      ensures Valid() && SameStream(old(seen), seen)
      ensures pending == Some(if failure.None? then Opened else OpenError(failure.value))
      ensures answers == old(answers) + AsSeq(pending)
    {
      CallersInterfere();
      var opens: bool, e: E := *, *;
      failure := if opens then None else Some(e);
      Answered(if failure.None? then Opened else OpenError(failure.value));
    }

    /** stream.Receive: the next frame, or the end of the stream with its error; bounded by patience. */
    method Receive() returns (frame: Option<F>, failure: Option<E>)
      requires Valid() && p.pump.Receiving? && pending.None?
      modifies this`ctx, this`c, this`seen, this`trace, this`patience, this`answers, this`pending
      ensures Valid() && (frame.Some? ==> patience < old(patience) && (ctx.done ==> ctx.buffered > 0))
      ensures patience <= old(patience) && SameStream(old(seen), seen)
      ensures pending == Some(if frame.Some? then Frame(frame.value) else End(failure))
      ensures answers == old(answers) + AsSeq(pending)
    {
      CallersInterfere();
      var ends: bool, f: F, e: E, clean: bool := *, *, *, *;
      if ends || patience == 0 || (ctx.done && ctx.buffered == 0) {
        frame, failure := None, if clean then None else Some(e);
        Answered(End(failure));
      } else {
        patience := patience - 1;
        frame, failure := Some(f), None;
        Answered(Frame(f));
      }
    }

    /**
     pump (stream.go:59-93), with its deferred closes. It exits having seen exactly what the stream
     answered, and handed over a prefix of what that emits; uncancelled, all of it, then the error the
     stream's last answer names as the last result, if it names one.
     */
    method Pump()
      requires Valid() && p.pump.Opening? && pending.None?
      modifies this
      ensures Valid() && pending.None? && p.pump.Exited? && p.doneClosed && p.outClosed && !p.panicked
      ensures old(answers) <= answers
      ensures seen.frames == FramesIn(answers) && seen.ending == EndingNamed(mapFn, answers)
      ensures seen.yielded <= Emitted(mapFn, FramesIn(answers))
      ensures !ctx.done ==>
                && seen.yielded == Emitted(mapFn, FramesIn(answers))
                && EndingNamed(mapFn, answers).Some?
                && LastSent(seen.sent) == ErrorOf(EndingNamed(mapFn, answers).value)
    {
      PumpLoop();
      CallersInterfere();
      PumpActs(CloseOut);
      CallersInterfere();
      PumpActs(CloseDone);
      Facts();
      HeardAll();
      YieldsPrefix(mapFn, dup, origin, trace);
    }

    /** The pump's body: it leaves when the stream has answered with an end, or a send was cancelled. */
    method PumpLoop()
      requires Valid() && p.pump.Opening? && pending.None?
      modifies this
      ensures Valid() && pending.None? && p.pump.ClosingOut? && old(answers) <= answers
      ensures EndingNamed(mapFn, answers).Some? || ctx.done
    {
      var openErr := Open();
      if openErr.Some? {
        PumpActs(OpenFails(openErr.value));
        var _ := TrySend();
        HeardAll();
        return;
      }
      PumpActs(OpenOk);
      while true
        invariant Valid() && pending.None? && p.pump.Receiving? && old(answers) <= answers
        decreases patience
      {
        var goOn := ReceiveOne();
        if !goOn {
          return;
        }
      }
    }

    /** One turn of the loop (stream.go:74-91); `false` when the pump returns. */
    method ReceiveOne() returns (goOn: bool)
      requires Valid() && p.pump.Receiving? && pending.None?
      modifies this
      ensures Valid() && pending.None? && |answers| == |old(answers)| + 1 && old(answers) <= answers
      ensures if goOn then p.pump.Receiving? && patience < old(patience)
              else p.pump.ClosingOut? && (EndingNamed(mapFn, answers).Some? || ctx.done)
    {
      var frame, failure := Receive();
      if frame.None? {
        PumpActs(StreamEnds(failure));
        if failure.Some? {
          var _ := TrySend();
        }
        HeardAll();
        return false;
      }
      goOn := Deal(frame.value);
    }

    /** What the pump does with a frame (stream.go:81-91). */
    method Deal(frame: F) returns (goOn: bool)
      requires Valid() && p.pump.Receiving? && pending == Some(Frame(frame)) && (ctx.done ==> ctx.buffered > 0)
      modifies this`p, this`ctx, this`c, this`seen, this`trace, this`patience, this`pending
      ensures Valid() && pending.None? && patience <= old(patience)
      ensures if goOn then p.pump.Receiving? else p.pump.ClosingOut? && (EndingNamed(mapFn, answers).Some? || ctx.done)
    {
      var result := mapFn(frame);
      PumpActs(PumpAct.Receive(frame));
      if result.Fail? {
        var _ := TrySend();
        HeardAll();
        return false;
      }
      if result.Emit? {
        var sent := TrySend();
        return sent;
      }
      goOn := true;
    }

    // ----- Events and Close -----

    /** The stream answers what the pump is about to take up, if it takes anything up. */
    ghost method StreamSays(act: PumpAct<F, E>)
      requires Valid() && pending.None?
      modifies this`answers, this`pending
      ensures Valid() && pending == AnswerOf(Step<F, E>.PumpDoes(act))
    {
      if AnswerOf(Step<F, E>.PumpDoes(act)).Some? {
        Answered(AnswerOf(Step<F, E>.PumpDoes(act)).value);
      }
    }

    /** Someone other than call `me` takes a step, if it may. */
    method OtherActs(me: nat, step: Step<F, E>)
      requires Valid() && pending.None? && me < |c.threads|
      modifies this`p, this`ctx, this`c, this`seen, this`trace, this`answers, this`pending
      ensures Valid() && pending.None? && (old(ctx.done) ==> ctx.done) && |c.threads| == |old(c.threads)|
      ensures c.threads[me] == old(c.threads[me]) && WinnerKept(old(c), c)
      ensures (old(p.outClosed) ==> p.outClosed) && (old(p.doneClosed) ==> p.doneClosed)
    {
      match step {
        case CancelParent(_) => ParentCancels();
        case CallDoes(t, what) =>
          if t != me {
            CallTurn(t, what);
          }
        case HandOver(t) =>
          if t != me && p.pump.Sending? && t < |c.threads| && c.threads[t].Ranging? {
            HandResultOver(t);
          }
        case PumpDoes(act) => PumpTurn(act);
      }
    }

    method CallTurn(t: nat, what: CallAct)
      requires Valid()
      modifies this`ctx, this`c, this`seen, this`trace
      ensures Valid() && (old(ctx.done) ==> ctx.done) && |c.threads| == |old(c.threads)| && WinnerKept(old(c), c)
      ensures forall u :: 0 <= u < |c.threads| && u != t ==> c.threads[u] == old(c.threads)[u]
    {
      Facts();
      CallActs(t, what);
    }

    /** The pump acts, if it may, on whatever the stream answers. */
    method PumpTurn(act: PumpAct<F, E>)
      requires Valid() && pending.None?
      modifies this`p, this`ctx, this`seen, this`trace, this`answers, this`pending
      ensures Valid() && pending.None? && ctx.done == old(ctx.done)
      ensures (old(p.outClosed) ==> p.outClosed) && (old(p.doneClosed) ==> p.doneClosed)
      ensures old(PumpMay(p, ctx, act)) ==> p == PumpAfter(mapFn, old(p), act)
    {
      if PumpMay(p, ctx, act) {
        StreamSays(act);
        PumpActs(act);
      }
    }

    /** Everyone but call `me` takes any number of steps. */
    method OthersInterfere(me: nat)
      requires Valid() && pending.None? && me < |c.threads|
      modifies this`p, this`ctx, this`c, this`seen, this`trace, this`answers, this`pending
      ensures Valid() && pending.None? && (old(ctx.done) ==> ctx.done) && |c.threads| == |old(c.threads)|
      ensures c.threads[me] == old(c.threads[me]) && WinnerKept(old(c), c)
      ensures (old(p.outClosed) ==> p.outClosed) && (old(p.doneClosed) ==> p.doneClosed)
    {
      var n: nat := *;
      while n > 0
        invariant Valid() && pending.None? && (old(ctx.done) ==> ctx.done) && |c.threads| == |old(c.threads)|
        invariant c.threads[me] == old(c.threads[me]) && WinnerKept(old(c), c)
        invariant (old(p.outClosed) ==> p.outClosed) && (old(p.doneClosed) ==> p.doneClosed)
      {
        n := n - 1;
        var step: Step<F, E> := *;
        OtherActs(me, step);
      }
    }

    /** Once cancelled, the pump can always reach its exit without any reader. */
    method DrivePump()
      requires Valid() && pending.None? && ctx.done
      modifies this`p, this`ctx, this`seen, this`trace, this`answers, this`pending
      ensures Valid() && pending.None? && ctx.done && p.outClosed && p.doneClosed
    {
      Facts();
      while !p.pump.Exited?
        invariant Valid() && pending.None? && ctx.done
        decreases match p.pump case Opening => 5 case Receiving => 4 case Sending(_) => 3 case ClosingOut => 2
                               case ClosingDone => 1 case Exited => 0
      {
        var act: PumpAct<F, E> :=
          match p.pump
          case Opening => OpenOk
          case Receiving => StreamEnds(None)
          case Sending(_) => GiveUp
          case ClosingOut => CloseOut
          case ClosingDone => CloseDone;
        PumpTurn(act);
      }
      Facts();
    }

    /** The range's receive: a result handed to `me`, or the channel closed. */
    method AwaitResult(me: nat) returns (got: bool)
      requires Valid() && pending.None? && me < |c.threads| && c.threads[me].Ranging?
      modifies this
      ensures Valid() && pending.None? && |c.threads| == |old(c.threads)| && WinnerKept(old(c), c)
      ensures if got then patience < old(patience) && (c.threads[me].InBody? || c.threads[me].Failing?)
              else p.outClosed && c.threads[me].Ranging?
    {
      while true
        invariant Valid() && pending.None? && |c.threads| == |old(c.threads)|
        invariant c.threads[me].Ranging? && patience <= old(patience)
        invariant WinnerKept(old(c), c)
        decreases patience
      {
        OthersInterfere(me);
        var now: bool := *;
        if p.outClosed {
          return false;
        } else if patience == 0 {
          ParentCancels();
          DrivePump();
          return false;
        }
        patience := patience - 1;
        if p.pump.Sending? && now {
          HandResultOver(me);
          return true;
        }
      }
    }

    /**
     Events (stream.go:109-126), one call ranging over the stream. It ends as the reader exactly when it
     took the consumed flag, which it cannot once another call has: otherwise it finishes with Err set and
     nothing yielded to it. The reader returns only when the pump has fully exited. What was yielded is a
     prefix of the mapped frames; all of it, with the exact Err, when nothing cancelled while it listened,
     its body did not break and no other Events ran.
     */
    method Events(me: nat)
      requires Valid() && pending.None? && me < |c.threads| && c.threads[me].AtEvents?
      modifies this
      ensures Valid() && pending.None? && me < |c.threads|
      ensures c.threads[me] == Finished(c.winner == Some(me)) && (old(c.consumed) ==> c.winner != Some(me))
      ensures if c.winner == Some(me) then p.doneClosed else c.err.Some?
      ensures seen.yielded <= Emitted(mapFn, FramesIn(answers)) && !p.panicked
      ensures Undisturbed(mapFn, dup, origin, trace, me) ==>
                && c.winner == Some(me) && seen.yielded == Emitted(mapFn, FramesIn(answers))
                && EndingNamed(mapFn, answers).Some? && c.err == ErrorOf(EndingNamed(mapFn, answers).value)
    {
      WaitingSinceStart(mapFn, dup, origin, trace, me);
      EnterAndRange(me);
      YieldsPrefix(mapFn, dup, origin, trace);
      Facts();
      HeardAll();
      if Undisturbed(mapFn, dup, origin, trace, me) {
        CalmRunComplete(mapFn, dup, origin, trace, me);
        assert NotConsuming(c.threads[me]) ==> c.winner != Some(me);
      }
    }

    /** The compare-and-swap on the consumed flag, and what follows from it. */
    method EnterAndRange(me: nat)
      requires Valid() && pending.None? && me < |c.threads| && c.threads[me].AtEvents?
      modifies this
      ensures Valid() && pending.None? && me < |c.threads|
      ensures c.threads[me] == Finished(c.winner == Some(me)) && (old(c.consumed) ==> c.winner != Some(me))
      ensures if c.winner == Some(me) then p.doneClosed else c.err.Some?
    {
      Facts();
      OthersInterfere(me);
      Facts();
      CallActs(me, EnterEvents);
      if c.threads[me].Duplicate? {
        OthersInterfere(me);
        Facts();
        CallActs(me, SetDuplicate);
      } else {
        RangeOver(me);
        Close(me);
      }
    }

    /** The loop of Events: until the channel closes, an error arrives or the body breaks. */
    method RangeOver(me: nat)
      requires Valid() && pending.None? && me < |c.threads| && c.threads[me].Ranging?
      modifies this
      ensures Valid() && pending.None? && |c.threads| == |old(c.threads)|
      ensures c.threads[me].AtClose? && WinnerKept(old(c), c)
    {
      while true
        invariant Valid() && pending.None? && |c.threads| == |old(c.threads)|
        invariant c.threads[me].Ranging? && WinnerKept(old(c), c)
        decreases patience
      {
        var got := AwaitResult(me);
        if !got {
          CallActs(me, RangeEnds);
          return;
        }
        if c.threads[me].Failing? {
          CallActs(me, SetError);
          return;
        }
        OthersInterfere(me);
        var more: bool := *;
        CallActs(me, BodyReturns(more));
        if !more {
          return;
        }
      }
    }

    /** The work of the once (stream.go:147-150): cancel, then wait for done. */
    method CancelAndWait(t: nat)
      requires Valid() && pending.None? && t < |c.threads| && c.threads[t].Cancelling?
      modifies this`p, this`ctx, this`c, this`seen, this`trace, this`answers, this`pending
      ensures Valid() && pending.None? && |c.threads| == |old(c.threads)|
      ensures c.threads[t] == Finished(true) && WinnerKept(old(c), c)
      ensures c.once.Over? && p.doneClosed
      ensures forall u :: 0 <= u < |c.threads| && u != t ==> c.threads[u] == old(c.threads)[u]
    {
      var b: nat := *;
      CallActs(t, Cancel(b));
      DrivePump();
      CallActs(t, SeeDone);
    }

    /** A Close that has returned found done closed. */
    lemma {:induction false} FinishedMeansDone(me: nat)
      requires Valid() && me < |c.threads| && c.threads[me] == Finished(true)
      ensures p.doneClosed
    {
      Facts();
      assert CallOk(c.once, ctx.done, me, c.threads[me]);
    }

    /** Close (stream.go:146-152): whoever gets the once cancels and waits; the others wait for it to be over. */
    method Close(me: nat)
      requires Valid() && pending.None? && me < |c.threads| && c.threads[me].AtClose?
      modifies this`p, this`ctx, this`c, this`seen, this`trace, this`answers, this`pending
      ensures Valid() && pending.None? && |c.threads| == |old(c.threads)|
      ensures c.threads[me] == Finished(true) && p.doneClosed && WinnerKept(old(c), c)
    {
      OthersInterfere(me);
      CallActs(me, EnterOnce);
      if c.threads[me].Cancelling? {
        CancelAndWait(me);
      } else if c.threads[me].AwaitOnce? {
        WaitForOnce(me);
      }
      FinishedMeansDone(me);
    }

    /** The others of once.Do: until the one inside it is out. */
    method WaitForOnce(me: nat)
      requires Valid() && pending.None? && me < |c.threads| && c.threads[me].AwaitOnce?
      modifies this`p, this`ctx, this`c, this`seen, this`trace, this`answers, this`pending
      ensures Valid() && pending.None? && |c.threads| == |old(c.threads)| && c.threads[me] == Finished(true)
      ensures WinnerKept(old(c), c)
    {
      OthersInterfere(me);
      FinishHolder(me);
      CallActs(me, SeeOnce);
    }

    /** While `me` waits for the once, its holder gets to the end of it. */
    method FinishHolder(me: nat)
      requires Valid() && pending.None? && me < |c.threads| && c.threads[me].AwaitOnce?
      modifies this`p, this`ctx, this`c, this`seen, this`trace, this`answers, this`pending
      ensures Valid() && pending.None? && |c.threads| == |old(c.threads)| && c.threads[me].AwaitOnce? && c.once.Over?
      ensures WinnerKept(old(c), c)
    {
      Facts();
      assert CallOk(c.once, ctx.done, me, c.threads[me]);
      if c.once.Held? {
        var h := c.once.holder;
        assert CallOk(c.once, ctx.done, h, c.threads[h]);
        if c.threads[h].Cancelling? {
          CancelAndWait(h);
        } else {
          DrivePump();
          CallActs(h, SeeDone);
        }
      }
    }
  }
}
