/** What every interleaving of a subscription keeps: channel lifecycle, delivery, errors. */
module SubscriptionSafety {
  import opened Prelude
  import opened Subscription

  /** The pump has left its loop. */
  predicate PumpLeft<T, E>(pump: Pump<T, E>) {
    pump.ClosingOut? || pump.ClosingDone? || pump.Exited?
  }

  /** The pump is still opening, receiving or handing over a value. */
  predicate InLoop<T, E>(pump: Pump<T, E>) {
    pump.Opening? || pump.Receiving? || (pump.Sending? && pump.r.Val?)
  }

  /** Channels are closed once each, out before done, and never sent on once closed. */
  predicate Channels<T, E>(p: PumpSide<T, E>) {
    && (p.outClosed <==> p.pump.ClosingDone? || p.pump.Exited?)
    && (p.doneClosed <==> p.pump.Exited?)
    && !p.panicked
  }

  /** The call is in its range loop, which takes the consumed flag. */
  predicate Consuming<T, E>(at: Thread<T, E>) {
    at.Ranging? || at.Failing? || at.InBody?
  }

  /** The call has not tried for the consumed flag, or has lost it. */
  predicate NotConsuming<T, E>(at: Thread<T, E>) {
    at.AtEvents? || at.Duplicate? || at == Finished(false)
  }

  /** One call at most takes the consumed flag, only that one ranges, and only the others end as duplicates. */
  ghost predicate OneConsumer<T, E>(c: Calls<T, E>) {
    && (c.consumed <==> c.winner.Some?)
    && forall t :: 0 <= t < |c.threads| ==>
         && (Consuming(c.threads[t]) ==> c.winner == Some(t))
         && (NotConsuming(c.threads[t]) ==> c.winner != Some(t))
         && (c.threads[t].Duplicate? || c.threads[t] == Finished(false) ==> c.consumed)
  }

  /** Where a call is, given the once, the context and done. */
  predicate CallOk<T, E>(once: Once, ctxDone: bool, t: nat, at: Thread<T, E>) {
    && (at.Cancelling? || at.AwaitDone? ==> once == Held(t))
    && (at.AwaitDone? ==> ctxDone)
    && (at.AwaitOnce? ==> !once.Free?)
    && (at == Finished(true) ==> once.Over?)
  }

  /** One call at most is inside the once; a Close that has returned did so after done was closed. */
  ghost predicate OnceOk<T, E>(c: Calls<T, E>, ctxDone: bool, doneClosed: bool) {
    && (c.once.Held? ==> c.once.holder < |c.threads|
                         && (c.threads[c.once.holder].Cancelling? || c.threads[c.once.holder].AwaitDone?))
    && (c.once.Over? ==> doneClosed)
    && forall t :: 0 <= t < |c.threads| ==> CallOk(c.once, ctxDone, t, c.threads[t])
  }

  /** Delivery: what is yielded is what was sent, a prefix of what the frames emit, all of it until cancelled. */
  ghost predicate Delivery<F, T, E>(mapFn: MapFn<F, T, E>, pump: Pump<T, E>, ctxDone: bool, seen: Seen<F, T, E>) {
    && seen.yielded == Values(seen.sent)
    && seen.yielded + InHand(pump) <= Emitted(mapFn, seen.frames)
    && (!ctxDone || !PumpLeft(pump) ==> seen.yielded + InHand(pump) == Emitted(mapFn, seen.frames))
    && (InLoop(pump) ==> NoFailure(mapFn, seen.frames))
  }

  /** The terminal error is sent at most once, as the last result, and is the stream's own. */
  ghost predicate Errors<F, T, E>(pump: Pump<T, E>, seen: Seen<F, T, E>) {
    && (InLoop(pump) ==> seen.ending.None?)
    && (pump.Sending? && pump.r.Failure? ==> seen.ending.Some? && ErrorOf(seen.ending.value) == Some(pump.r.error))
    && forall i :: 0 <= i < |seen.sent| && seen.sent[i].Failure? ==>
         i == |seen.sent| - 1 && PumpLeft(pump) && seen.ending.Some?
         && ErrorOf(seen.ending.value) == Some(seen.sent[i].error)
  }

  /** The error of the last result sent, if it was one. */
  function LastSent<T, E>(sent: seq<Result<T, E>>): Option<E> {
    if sent != [] && sent[|sent| - 1].Failure? then Some(sent[|sent| - 1].error) else None
  }

  /** A pump that left by itself has met the end of the stream, and has handed its error over if it had one. */
  ghost predicate Reported<F, T, E>(pump: Pump<T, E>, ctxDone: bool, seen: Seen<F, T, E>) {
    PumpLeft(pump) && !ctxDone ==>
      seen.ending.Some? && (ErrorOf(seen.ending.value).Some? ==> LastSent(seen.sent) == ErrorOf(seen.ending.value))
  }

  ghost predicate Safe<F, T, E>(mapFn: MapFn<F, T, E>, s: State<F, T, E>) {
    && Channels(s.p)
    && OneConsumer(s.c)
    && OnceOk(s.c, s.ctx.done, s.p.doneClosed)
    && Delivery(mapFn, s.p.pump, s.ctx.done, s.seen)
    && Errors(s.p.pump, s.seen)
    && Reported(s.p.pump, s.ctx.done, s.seen)
  }

  lemma {:induction false} ChannelsStep<F, T, E>(mapFn: MapFn<F, T, E>, dup: E, s: State<F, T, E>, step: Step<F, E>)
    requires Channels(s.p) && Enabled(s, step)
    ensures Channels(Apply(mapFn, dup, s, step).p)
  {
  }

  lemma {:induction false} OneConsumerCall<T, E>(dup: E, p: PumpSide<T, E>, c: Calls<T, E>, t: nat, what: CallAct)
    requires OneConsumer(c) && CallMay(p, c, t, what)
    ensures OneConsumer(CallsAfter(dup, p, c, t, what))
  {
  }

  lemma {:induction false} OneConsumerStep<F, T, E>(mapFn: MapFn<F, T, E>, dup: E, s: State<F, T, E>, step: Step<F, E>)
    requires OneConsumer(s.c) && Enabled(s, step)
    ensures OneConsumer(Apply(mapFn, dup, s, step).c)
  {
    match step
    case CallDoes(t, what) => OneConsumerCall(dup, s.p, s.c, t, what);
    case _ =>
  }

  lemma {:induction false} OnceOkCall<T, E>(dup: E, p: PumpSide<T, E>, c: Calls<T, E>, ctxDone: bool, t: nat,
                                            what: CallAct)
    requires OnceOk(c, ctxDone, p.doneClosed) && CallMay(p, c, t, what)
    ensures OnceOk(CallsAfter(dup, p, c, t, what), ctxDone || what.Cancel?, p.doneClosed)
  {
    var c' := CallsAfter(dup, p, c, t, what);
    var ctxDone' := ctxDone || what.Cancel?;
    assert CallOk(c.once, ctxDone, t, c.threads[t]);
    forall u | 0 <= u < |c'.threads|
      ensures CallOk(c'.once, ctxDone', u, c'.threads[u])
    {
      assert CallOk(c.once, ctxDone, u, c.threads[u]);
      if u != t {
        assert c'.threads[u] == c.threads[u];
      }
    }
  }

  lemma {:induction false} OnceOkHandOver<T, E>(c: Calls<T, E>, ctxDone: bool, doneClosed: bool, t: nat, to: Thread<T,
                                                E>)
    requires OnceOk(c, ctxDone, doneClosed) && t < |c.threads| && c.threads[t].Ranging? && (to.InBody? || to.Failing?)
    ensures OnceOk(Goto(c, t, to), ctxDone, doneClosed)
  {
  }

  lemma {:induction false} OnceOkStep<F, T, E>(mapFn: MapFn<F, T, E>, dup: E, s: State<F, T, E>, step: Step<F, E>)
    requires OnceOk(s.c, s.ctx.done, s.p.doneClosed) && Enabled(s, step)
    ensures var t := Apply(mapFn, dup, s, step); OnceOk(t.c, t.ctx.done, t.p.doneClosed)
  {
    match step
    case CallDoes(t, what) => OnceOkCall(dup, s.p, s.c, s.ctx.done, t, what);
    case HandOver(t) =>
      OnceOkHandOver(s.c, s.ctx.done, s.p.doneClosed, t, Apply(mapFn, dup, s, step).c.threads[t]);
    case _ =>
  }

  lemma {:induction false} DeliveryReceive<F, T, E>(mapFn: MapFn<F, T, E>, p: PumpSide<T, E>, ctx: Context,
                                                    seen: Seen<F, T, E>, f: F)
    requires Delivery(mapFn, p.pump, ctx.done, seen) && p.pump.Receiving?
    ensures Delivery(mapFn, PumpAfter(mapFn, p, Receive(f)).pump, ctx.done, SeenAfter(mapFn, seen, Receive(f)))
  {
    EmittedSnoc(mapFn, seen.frames, f);
    assert seen.yielded + [] == seen.yielded;
  }

  lemma {:induction false} DeliveryPump<F, T, E>(mapFn: MapFn<F, T, E>, p: PumpSide<T, E>, ctx: Context, seen: Seen<F,
                                                 T, E>,
                              act: PumpAct<F, E>)
    requires Delivery(mapFn, p.pump, ctx.done, seen) && PumpMay(p, ctx, act)
    ensures Delivery(mapFn, PumpAfter(mapFn, p, act).pump, ctx.done, SeenAfter(mapFn, seen, act))
  {
    if act.Receive? {
      DeliveryReceive(mapFn, p, ctx, seen, act.frame);
    }
  }

  lemma {:induction false} DeliveryHandOver<F, T, E>(mapFn: MapFn<F, T, E>, pump: Pump<T, E>, ctxDone: bool,
                                                     seen: Seen<F, T, E>, v: T)
    requires Delivery(mapFn, pump, ctxDone, seen) && pump == Sending(Val(v))
    ensures Delivery(mapFn, Pump<T, E>.Receiving, ctxDone,
                     seen.(sent := seen.sent + [Val(v)], yielded := seen.yielded + [v]))
  {
    assert (seen.sent + [Result<T, E>.Val(v)])[..|seen.sent|] == seen.sent;
  }

  lemma {:induction false} DeliveryErrorOver<F, T, E>(mapFn: MapFn<F, T, E>, pump: Pump<T, E>, ctxDone: bool,
                                                      seen: Seen<F, T, E>, e: E)
    requires Delivery(mapFn, pump, ctxDone, seen) && pump == Sending(Failure(e))
    ensures Delivery(mapFn, Pump<T, E>.ClosingOut, ctxDone, seen.(sent := seen.sent + [Failure(e)]))
  {
    assert (seen.sent + [Result<T, E>.Failure(e)])[..|seen.sent|] == seen.sent;
  }

  lemma {:induction false} DeliveryStep<F, T, E>(mapFn: MapFn<F, T, E>, dup: E, s: State<F, T, E>, step: Step<F, E>)
    requires Delivery(mapFn, s.p.pump, s.ctx.done, s.seen) && Enabled(s, step)
    ensures var t := Apply(mapFn, dup, s, step); Delivery(mapFn, t.p.pump, t.ctx.done, t.seen)
  {
    match step
    case PumpDoes(act) => DeliveryPump(mapFn, s.p, s.ctx, s.seen, act);
    case HandOver(t) =>
      if s.p.pump.r.Val? {
        DeliveryHandOver(mapFn, s.p.pump, s.ctx.done, s.seen, s.p.pump.r.value);
      } else {
        DeliveryErrorOver(mapFn, s.p.pump, s.ctx.done, s.seen, s.p.pump.r.error);
      }
    case _ =>
  }

  lemma {:induction false} ErrorsStep<F, T, E>(mapFn: MapFn<F, T, E>, dup: E, s: State<F, T, E>, step: Step<F, E>)
    requires Errors(s.p.pump, s.seen) && Enabled(s, step)
    ensures var t := Apply(mapFn, dup, s, step); Errors(t.p.pump, t.seen)
  {
  }

  lemma {:induction false} ReportedStep<F, T, E>(mapFn: MapFn<F, T, E>, dup: E, s: State<F, T, E>, step: Step<F, E>)
    requires Errors(s.p.pump, s.seen) && Reported(s.p.pump, s.ctx.done, s.seen) && Enabled(s, step)
    ensures var t := Apply(mapFn, dup, s, step); Reported(t.p.pump, t.ctx.done, t.seen)
  {
  }

  lemma {:induction false} SafeStep<F, T, E>(mapFn: MapFn<F, T, E>, dup: E, s: State<F, T, E>, step: Step<F, E>)
    requires Safe(mapFn, s) && Enabled(s, step)
    ensures Safe(mapFn, Apply(mapFn, dup, s, step))
  {
    ChannelsStep(mapFn, dup, s, step);
    OneConsumerStep(mapFn, dup, s, step);
    OnceOkStep(mapFn, dup, s, step);
    DeliveryStep(mapFn, dup, s, step);
    ErrorsStep(mapFn, dup, s, step);
    ReportedStep(mapFn, dup, s, step);
  }
}
