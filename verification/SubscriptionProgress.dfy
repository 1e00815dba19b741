/**
 Close is deterministic and cannot deadlock: once the context is cancelled, every step of every
 thread uses up a measure, and while anything is unfinished some step is enabled. The assumptions are
 those of the model: Open and Receive return once cancelled, finitely many frames are buffered, and
 the consumer's loop body returns.
 */
module SubscriptionProgress {
  import opened Prelude
  import opened Subscription
  import opened SubscriptionSafety
  import opened SubscriptionRuns

  /** How far the pump is from its exit. */
  function PumpRank<T, E>(pump: Pump<T, E>): nat {
    match pump
    case Opening => 7
    case Receiving => 5
    case Sending(r) => if r.Val? then 6 else 4
    case ClosingOut => 2
    case ClosingDone => 1
    case Exited => 0
  }

  function PumpWork<F, T, E>(s: State<F, T, E>): nat {
    3 * s.ctx.buffered + PumpRank(s.p.pump)
  }

  /** How far a call is from its return, while nothing more is handed to it. */
  function CallRank<T, E>(at: Thread<T, E>): nat {
    match at
    case AtEvents => 8
    case InBody(_) => 7
    case Ranging => 6
    case Failing(_) => 5
    case Duplicate => 4
    case AtClose => 3
    case Cancelling => 2
    case AwaitOnce => 1
    case AwaitDone => 1
    case Finished(_) => 0
  }

  function CallWork<T, E>(threads: seq<Thread<T, E>>): nat {
    if threads == [] then 0 else CallRank(threads[0]) + CallWork(threads[1..])
  }

  lemma {:induction false} CallWorkUpdate<T, E>(threads: seq<Thread<T, E>>, t: nat, to: Thread<T, E>)
    requires t < |threads|
    ensures CallWork(threads[t := to]) == CallWork(threads) - CallRank(threads[t]) + CallRank(to)
  {
    var updated := threads[t := to];
    if t == 0 {
      assert updated[1..] == threads[1..];
    } else {
      assert updated[1..] == threads[1..][t - 1 := to];
      CallWorkUpdate(threads[1..], t - 1, to);
    }
  }

  /** What is left to do after cancellation; a hand-over costs the pump more than it gives the reader. */
  function Work<F, T, E>(s: State<F, T, E>): nat {
    2 * PumpWork(s) + CallWork(s.c.threads)
  }

  lemma {:induction false} PumpIsProgress<F, T, E>(mapFn: MapFn<F, T, E>, dup: E, s: State<F, T, E>, act: PumpAct<F, E>)
    requires s.ctx.done && PumpMay(s.p, s.ctx, act)
    ensures var t := Apply(mapFn, dup, s, PumpDoes(act)); t.ctx.done && t.c == s.c && PumpWork(t) < PumpWork(s)
  {
  }

  lemma {:induction false} CallIsProgress<T, E>(dup: E, p: PumpSide<T, E>, c: Calls<T, E>, t: nat, what: CallAct)
    requires CallMay(p, c, t, what)
    ensures CallWork(CallsAfter(dup, p, c, t, what).threads) < CallWork(c.threads)
  {
    CallWorkUpdate(c.threads, t, CallsAfter(dup, p, c, t, what).threads[t]);
  }

  lemma {:induction false} HandOverIsProgress<F, T, E>(mapFn: MapFn<F, T, E>, dup: E, s: State<F, T, E>, t: nat)
    requires s.ctx.done && Enabled(s, HandOver(t))
    ensures var u := Apply(mapFn, dup, s, HandOver(t)); u.ctx.done && Work(u) < Work(s)
  {
    CallWorkUpdate(s.c.threads, t, Apply(mapFn, dup, s, HandOver(t)).c.threads[t]);
  }

  /** Once cancelled, every step of anyone is progress. */
  lemma {:induction false} EveryStepIsProgress<F, T, E>(mapFn: MapFn<F, T, E>, dup: E, s: State<F, T, E>,
                                                        step: Step<F, E>)
    requires s.ctx.done && Enabled(s, step)
    ensures var t := Apply(mapFn, dup, s, step); t.ctx.done && Work(t) < Work(s)
  {
    if step.PumpDoes? {
      PumpIsProgress(mapFn, dup, s, step.act);
    } else if step.CallDoes? {
      CallIsProgress(dup, s.p, s.c, step.t, step.what);
    } else if step.HandOver? {
      HandOverIsProgress(mapFn, dup, s, step.t);
    }
  }

  /** While something is unfinished after cancellation, some step is enabled; the pump never waits for a reader. */
  lemma {:induction false} NeverStuck<F, T, E>(mapFn: MapFn<F, T, E>, s: State<F, T, E>)
    requires Safe(mapFn, s) && s.ctx.done
    ensures !s.p.pump.Exited? ==> exists act: PumpAct<F, E> :: Enabled(s, PumpDoes(act))
    ensures (exists t :: 0 <= t < |s.c.threads| && !s.c.threads[t].Finished?)
            ==> exists step: Step<F, E> :: Enabled(s, step)
  {
    if !s.p.pump.Exited? {
      var act: PumpAct<F, E> :=
        match s.p.pump
        case Opening => OpenOk
        case Receiving => StreamEnds(None)
        case Sending(_) => GiveUp
        case ClosingOut => CloseOut
        case ClosingDone => CloseDone;
      assert Enabled(s, PumpDoes(act));
    } else if t :| 0 <= t < |s.c.threads| && !s.c.threads[t].Finished? {
      var step := CallStep(mapFn, s, t);
      assert Enabled(s, step);
    }
  }

  /** With the pump gone, an unfinished call can move, or waits for the holder of the once, which can. */
  lemma {:induction false} CallStep<F, T, E>(mapFn: MapFn<F, T, E>, s: State<F, T, E>, t: nat)
    returns (step: Step<F, E>)
    requires Safe(mapFn, s) && s.p.pump.Exited? && t < |s.c.threads| && !s.c.threads[t].Finished?
    ensures Enabled(s, step)
  {
    assert CallOk(s.c.once, s.ctx.done, t, s.c.threads[t]);
    match s.c.threads[t]
    case AtEvents => step := CallDoes(t, EnterEvents);
    case Duplicate => step := CallDoes(t, SetDuplicate);
    case Ranging => step := CallDoes(t, RangeEnds);
    case Failing(_) => step := CallDoes(t, SetError);
    case InBody(_) => step := CallDoes(t, BodyReturns(true));
    case AtClose => step := CallDoes(t, EnterOnce);
    case Cancelling => step := CallDoes(t, Cancel(0));
    case AwaitDone => step := CallDoes(t, SeeDone);
    case AwaitOnce =>
      if s.c.once.Over? {
        step := CallDoes(t, SeeOnce);
      } else {
        var h := s.c.once.holder;
        step := CallDoes(h, if s.c.threads[h].Cancelling? then Cancel(0) else SeeDone);
      }
  }

  /**
   Before cancellation, a Close that has been entered is not stuck either: it, or the holder it waits
   for, can cancel.
   */
  lemma {:induction false} CloseCanCancel<F, T, E>(mapFn: MapFn<F, T, E>, s: State<F, T, E>, t: nat)
    returns (step: Step<F, E>)
    requires Safe(mapFn, s) && !s.ctx.done && t < |s.c.threads|
    requires var at := s.c.threads[t]; at.AtClose? || at.Cancelling? || at.AwaitDone? || at.AwaitOnce?
    requires !s.c.once.Over?
    ensures Enabled(s, step) && step.CallDoes? && (step.what.EnterOnce? || step.what.Cancel?)
  {
    assert CallOk(s.c.once, s.ctx.done, t, s.c.threads[t]);
    if s.c.threads[t].AtClose? {
      step := CallDoes(t, EnterOnce);
    } else {
      var h := s.c.once.holder;
      assert CallOk(s.c.once, s.ctx.done, h, s.c.threads[h]);
      step := CallDoes(h, Cancel(0));
    }
  }

  /**
   A schedule of the work left: from any cancelled state, some run ends with the pump gone and every
   call returned.
   */
  lemma {:induction false} SomeRunFinishes<F, T, E>(mapFn: MapFn<F, T, E>, dup: E, s: State<F, T, E>)
    returns (steps: seq<Step<F, E>>)
    requires Safe(mapFn, s) && s.ctx.done
    ensures ValidRun(mapFn, dup, s, steps)
    ensures var t := Run(mapFn, dup, s, steps);
            t.p.doneClosed && forall k :: 0 <= k < |t.c.threads| ==> t.c.threads[k].Finished?
    decreases Work(s)
  {
    NeverStuck(mapFn, s);
    if step: Step<F, E> :| Enabled(s, step) {
      EveryStepIsProgress(mapFn, dup, s, step);
      SafeStep(mapFn, dup, s, step);
      var rest := SomeRunFinishes(mapFn, dup, Apply(mapFn, dup, s, step));
      steps := [step] + rest;
      assert steps[1..] == rest;
    } else {
      steps := [];
    }
  }

  /** However the goroutines are scheduled: a run that has used up every step it could take has finished everything. */
  lemma {:induction false} MaximalRunsFinish<F, T, E>(mapFn: MapFn<F, T, E>, dup: E, s: State<F, T, E>,
                                                      steps: seq<Step<F, E>>)
    requires Safe(mapFn, s) && s.ctx.done && ValidRun(mapFn, dup, s, steps)
    requires !exists step: Step<F, E> :: Enabled(Run(mapFn, dup, s, steps), step)
    ensures var t := Run(mapFn, dup, s, steps);
            t.p.doneClosed && forall k :: 0 <= k < |t.c.threads| ==> t.c.threads[k].Finished?
  {
    SafeRun(mapFn, dup, s, steps);
    StaysCancelled(mapFn, dup, s, steps);
    NeverStuck(mapFn, Run(mapFn, dup, s, steps));
  }

  lemma {:induction false} StaysCancelled<F, T, E>(mapFn: MapFn<F, T, E>, dup: E, s: State<F, T, E>,
                                                  steps: seq<Step<F, E>>)
    requires s.ctx.done && ValidRun(mapFn, dup, s, steps)
    ensures Run(mapFn, dup, s, steps).ctx.done
    decreases |steps|
  {
    if steps != [] {
      EveryStepIsProgress(mapFn, dup, s, steps[0]);
      StaysCancelled(mapFn, dup, Apply(mapFn, dup, s, steps[0]), steps[1..]);
    }
  }

  /** No schedule goes on for ever: every run from a cancelled state is at most as long as the work left. */
  lemma {:induction false} EveryRunIsBounded<F, T, E>(mapFn: MapFn<F, T, E>, dup: E, s: State<F, T, E>,
                                                     steps: seq<Step<F, E>>)
    requires s.ctx.done && ValidRun(mapFn, dup, s, steps)
    ensures |steps| <= Work(s)
    decreases |steps|
  {
    if steps != [] {
      EveryStepIsProgress(mapFn, dup, s, steps[0]);
      EveryRunIsBounded(mapFn, dup, Apply(mapFn, dup, s, steps[0]), steps[1..]);
    }
  }
}
