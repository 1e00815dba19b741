/** Whole-run statements about a subscription: refinement, lifecycle, completeness of a calm run. */
module SubscriptionRuns {
  import opened Prelude
  import opened Subscription
  import opened SubscriptionSafety

  lemma {:induction false} SafeRun<F, T, E>(mapFn: MapFn<F, T, E>, dup: E, s: State<F, T, E>, steps: seq<Step<F, E>>)
    requires Safe(mapFn, s) && ValidRun(mapFn, dup, s, steps)
    ensures Safe(mapFn, Run(mapFn, dup, s, steps))
    decreases |steps|
  {
    if steps != [] {
      SafeStep(mapFn, dup, s, steps[0]);
      SafeRun(mapFn, dup, Apply(mapFn, dup, s, steps[0]), steps[1..]);
    }
  }

  lemma {:induction false} InitSafe<F, T, E>(mapFn: MapFn<F, T, E>, s: State<F, T, E>)
    requires Init(s)
    ensures Safe(mapFn, s)
  {
  }

  /**
   Refinement: in every interleaving, with any number of Events and Close calls, what the consumer is
   given is a prefix of the mapped frames up to the first mapping error; and nothing of it is missing
   until a cancellation, but for the value the pump holds.
   */
  lemma {:induction false} YieldsPrefix<F, T, E>(mapFn: MapFn<F, T, E>, dup: E, s: State<F, T, E>, steps: seq<Step<F,
                                                 E>>)
    requires Init(s) && ValidRun(mapFn, dup, s, steps)
    ensures var t := Run(mapFn, dup, s, steps);
            t.seen.yielded <= Emitted(mapFn, t.seen.frames)
    ensures var t := Run(mapFn, dup, s, steps);
            !t.ctx.done ==> t.seen.yielded + InHand(t.p.pump) == Emitted(mapFn, t.seen.frames)
  {
    InitSafe(mapFn, s);
    SafeRun(mapFn, dup, s, steps);
    var t := Run(mapFn, dup, s, steps);
    var given := t.seen.yielded + InHand(t.p.pump);
    assert given[..|t.seen.yielded|] == t.seen.yielded;
  }

  /**
   Channel lifecycle: no send on a closed channel and no double close; out closes before done; an error
   result is sent at most once, last, and is the stream's own; a Close that returned found done closed.
   */
  lemma {:induction false} Lifecycle<F, T, E>(mapFn: MapFn<F, T, E>, dup: E, s: State<F, T, E>, steps: seq<Step<F, E>>)
    requires Init(s) && ValidRun(mapFn, dup, s, steps)
    ensures var t := Run(mapFn, dup, s, steps); !t.p.panicked && (t.p.doneClosed ==> t.p.outClosed)
    ensures var t := Run(mapFn, dup, s, steps);
            forall i :: 0 <= i < |t.seen.sent| && t.seen.sent[i].Failure? ==>
              i == |t.seen.sent| - 1 && t.seen.ending.Some?
              && ErrorOf(t.seen.ending.value) == Some(t.seen.sent[i].error)
    ensures var t := Run(mapFn, dup, s, steps);
            forall k :: 0 <= k < |t.c.threads| && t.c.threads[k] == Finished(true) ==> t.p.doneClosed
  {
    InitSafe(mapFn, s);
    SafeRun(mapFn, dup, s, steps);
    var t := Run(mapFn, dup, s, steps);
    forall k | 0 <= k < |t.c.threads| && t.c.threads[k] == Finished(true)
      ensures t.p.doneClosed
    {
      assert CallOk(t.c.once, t.ctx.done, k, t.c.threads[k]);
    }
  }

  /** What has been seen of the stream is what it answered. */
  ghost predicate Heard<F, T, E>(mapFn: MapFn<F, T, E>, seen: Seen<F, T, E>, answers: seq<Answer<F, E>>) {
    seen.frames == FramesIn(answers) && seen.ending == EndingNamed(mapFn, answers)
  }

  lemma {:induction false} HeardStep<F, T, E>(mapFn: MapFn<F, T, E>, dup: E, s: State<F, T, E>, step: Step<F, E>,
                           answers: seq<Answer<F, E>>)
    requires Safe(mapFn, s) && Heard(mapFn, s.seen, answers) && Enabled(s, step)
    ensures Heard(mapFn, Apply(mapFn, dup, s, step).seen, answers + AsSeq(AnswerOf(step)))
  {
    if step.PumpDoes? && AnswerOf(step).Some? {
      HeardAnswer(mapFn, dup, s, step.act, answers);
    } else {
      Regroup(answers, [], []);
    }
  }

  lemma {:induction false} HeardAnswer<F, T, E>(mapFn: MapFn<F, T, E>, dup: E, s: State<F, T, E>, act: PumpAct<F, E>,
                             answers: seq<Answer<F, E>>)
    requires Errors(s.p.pump, s.seen) && Heard(mapFn, s.seen, answers) && PumpMay(s.p, s.ctx, act)
    requires AnswerOf(Step<F, E>.PumpDoes(act)).Some?
    ensures Heard(mapFn, SeenAfter(mapFn, s.seen, act), answers + [AnswerOf(Step<F, E>.PumpDoes(act)).value])
  {
    var longer := answers + [AnswerOf(Step<F, E>.PumpDoes(act)).value];
    assert longer[..|longer| - 1] == answers;
    Regroup(s.seen.frames, [], []);
  }

  lemma {:induction false} HeardRun<F, T, E>(mapFn: MapFn<F, T, E>, dup: E, s: State<F, T, E>, steps: seq<Step<F, E>>,
                                             answers: seq<Answer<F, E>>)
    requires Safe(mapFn, s) && Heard(mapFn, s.seen, answers) && ValidRun(mapFn, dup, s, steps)
    ensures Heard(mapFn, Run(mapFn, dup, s, steps).seen, answers + Answers(steps))
    decreases |steps|
  {
    if steps == [] {
      Regroup(answers, [], []);
    } else {
      var a := AsSeq(AnswerOf(steps[0]));
      SafeStep(mapFn, dup, s, steps[0]);
      HeardStep(mapFn, dup, s, steps[0], answers);
      HeardRun(mapFn, dup, Apply(mapFn, dup, s, steps[0]), steps[1..], answers + a);
      Regroup(answers, a, Answers(steps[1..]));
    }
  }

  /**
   Nothing is made up: along every run the frames and the ending are those the stream answered, and a
   pump that left uncancelled has handed over the error its last answer names, as the last result.
   */
  lemma {:induction false} SeenIsAnswered<F, T, E>(mapFn: MapFn<F, T, E>, dup: E, s: State<F, T, E>,
                                                   steps: seq<Step<F, E>>)
    requires Init(s) && ValidRun(mapFn, dup, s, steps)
    ensures var t := Run(mapFn, dup, s, steps);
            t.seen.frames == FramesIn(Answers(steps)) && t.seen.ending == EndingNamed(mapFn, Answers(steps))
    ensures var t := Run(mapFn, dup, s, steps);
            PumpLeft(t.p.pump) && !t.ctx.done ==>
              t.seen.ending.Some? && t.seen.yielded == Emitted(mapFn, FramesIn(Answers(steps)))
              && LastSent(t.seen.sent) == ErrorOf(t.seen.ending.value)
  {
    InitSafe(mapFn, s);
    SafeRun(mapFn, dup, s, steps);
    HeardRun(mapFn, dup, s, steps, []);
    Regroup([], [], Answers(steps));
    var t := Run(mapFn, dup, s, steps);
    Regroup(t.seen.yielded, [], []);
  }

  /** Where an error in Err, or on its way there, comes from. */
  ghost predicate ErrOrigin<F, T, E>(c: Calls<T, E>, dup: E, seen: Seen<F, T, E>) {
    && (c.err.Some? ==> c.err == Some(dup) || (seen.ending.Some? && c.err == ErrorOf(seen.ending.value)))
    && forall t :: 0 <= t < |c.threads| && c.threads[t].Failing? ==>
         seen.ending.Some? && ErrorOf(seen.ending.value) == Some(c.threads[t].error)
  }

  lemma {:induction false} ErrOriginStep<F, T, E>(mapFn: MapFn<F, T, E>, dup: E, s: State<F, T, E>, step: Step<F, E>)
    requires Errors(s.p.pump, s.seen) && ErrOrigin(s.c, dup, s.seen) && Enabled(s, step)
    requires s.seen.ending.Some? ==> !InLoop(s.p.pump)
    ensures var t := Apply(mapFn, dup, s, step); ErrOrigin(t.c, dup, t.seen)
  {
  }

  /** Err holds nothing, the sentinel of a second Events, or exactly the stream's own terminal error. */
  lemma {:induction false} ErrIsOwn<F, T, E>(mapFn: MapFn<F, T, E>, dup: E, s: State<F, T, E>, steps: seq<Step<F, E>>)
    requires Safe(mapFn, s) && ErrOrigin(s.c, dup, s.seen) && ValidRun(mapFn, dup, s, steps)
    ensures var t := Run(mapFn, dup, s, steps);
            t.c.err.None? || t.c.err == Some(dup)
            || (t.seen.ending.Some? && t.c.err == ErrorOf(t.seen.ending.value))
    decreases |steps|
  {
    if steps != [] {
      SafeStep(mapFn, dup, s, steps[0]);
      ErrOriginStep(mapFn, dup, s, steps[0]);
      ErrIsOwn(mapFn, dup, Apply(mapFn, dup, s, steps[0]), steps[1..]);
    }
  }

  /** Every hand-over of a run goes to the call that took the consumed flag: at most one Events ever yields. */
  lemma {:induction false} OneYielder<F, T, E>(mapFn: MapFn<F, T, E>, dup: E, s: State<F, T, E>,
                                              steps: seq<Step<F, E>>, i: nat)
    requires Safe(mapFn, s) && ValidRun(mapFn, dup, s, steps)
    requires i < |steps| && steps[i].HandOver?
    ensures Run(mapFn, dup, s, steps).c.winner == Some(steps[i].t)
    ensures s.c.winner.Some? ==> s.c.winner == Some(steps[i].t)
    decreases |steps|
  {
    var next := Apply(mapFn, dup, s, steps[0]);
    SafeStep(mapFn, dup, s, steps[0]);
    if i > 0 {
      assert steps[1..][i - 1] == steps[i];
      OneYielder(mapFn, dup, next, steps[1..], i - 1);
    } else {
      WinnerStays(mapFn, dup, next, steps[1..]);
    }
  }

  /** The consumed flag is never given away, and Err never changes once set. */
  lemma {:induction false} WinnerStays<F, T, E>(mapFn: MapFn<F, T, E>, dup: E, s: State<F, T, E>,
                                               steps: seq<Step<F, E>>)
    requires Safe(mapFn, s) && ValidRun(mapFn, dup, s, steps)
    ensures s.c.winner.Some? ==> Run(mapFn, dup, s, steps).c.winner == s.c.winner
    ensures s.c.err.Some? ==> Run(mapFn, dup, s, steps).c.err == s.c.err
    decreases |steps|
  {
    if steps != [] {
      SafeStep(mapFn, dup, s, steps[0]);
      WinnerStays(mapFn, dup, Apply(mapFn, dup, s, steps[0]), steps[1..]);
    }
  }

  // ----- a calm run: nothing cancels and no second Events runs while call w listens -----

  /** Call w is still in its range loop, or about to enter it. */
  predicate Listening<T, E>(at: Thread<T, E>) {
    at.AtEvents? || at.Ranging? || at.InBody?
  }

  /**
   What takes something away from the Events call w: a cancellation, by the parent or by a Close, while
   it listens; its own body breaking out; or another Events call running. Close calls may otherwise do
   what they like, and once w has left its loop so may everyone.
   */
  predicate Disturbs<F, T, E>(s: State<F, T, E>, step: Step<F, E>, w: nat) {
    w < |s.c.threads| &&
    match step
    case CancelParent(_) => Listening(s.c.threads[w])
    case CallDoes(t, what) =>
      (match what
       case EnterEvents => t != w
       case BodyReturns(more) => t == w && !more
       case Cancel(_) => Listening(s.c.threads[w])
       case _ => false)
    case _ => false
  }

  ghost predicate Undisturbed<F, T, E>(mapFn: MapFn<F, T, E>, dup: E, s: State<F, T, E>,
                                       steps: seq<Step<F, E>>, w: nat)
    requires ValidRun(mapFn, dup, s, steps)
    decreases |steps|
  {
    steps == [] ||
    (!Disturbs(s, steps[0], w) && Undisturbed(mapFn, dup, Apply(mapFn, dup, s, steps[0]), steps[1..], w))
  }

  /** Nobody but w is on the way to setting Err. */
  ghost predicate Alone<T, E>(c: Calls<T, E>, w: nat) {
    && (w < |c.threads| && !c.threads[w].AtEvents? ==> c.winner == Some(w))
    && forall t :: 0 <= t < |c.threads| && t != w ==> !c.threads[t].Duplicate?
  }

  /** A call that has not begun has not begun since the start. */
  lemma {:induction false} WaitingSinceStart<F, T, E>(mapFn: MapFn<F, T, E>, dup: E, s: State<F, T, E>,
                                                      steps: seq<Step<F, E>>, w: nat)
    requires ValidRun(mapFn, dup, s, steps)
    ensures |Run(mapFn, dup, s, steps).c.threads| == |s.c.threads|
    ensures w < |s.c.threads| && Run(mapFn, dup, s, steps).c.threads[w].AtEvents? ==> s.c.threads[w].AtEvents?
    decreases |steps|
  {
    if steps != [] {
      WaitingSinceStart(mapFn, dup, Apply(mapFn, dup, s, steps[0]), steps[1..], w);
    }
  }

  /** What an undisturbed call of Events knows about the stream at each point. */
  ghost predicate Calm<F, T, E>(mapFn: MapFn<F, T, E>, s: State<F, T, E>, w: nat) {
    && w < |s.c.threads| && Alone(s.c, w)
    && (s.seen.ending.Some? && PumpLeft(s.p.pump) ==> s.seen.yielded == Emitted(mapFn, s.seen.frames))
    && match s.c.threads[w]
       case Failing(e) =>
         PumpLeft(s.p.pump) && s.seen.ending.Some? && ErrorOf(s.seen.ending.value) == Some(e) && s.c.err.None?
       case AtEvents => !s.c.consumed && Attentive(s)
       case Duplicate => false
       case Ranging => Attentive(s)
       case InBody(_) => Attentive(s)
       case Finished(closed) => closed && Settled(s)
       case _ => Settled(s)
  }

  /** The call still listens: nothing cancelled, no error met; if the pump has left, the stream ended cleanly. */
  ghost predicate Attentive<F, T, E>(s: State<F, T, E>) {
    !s.ctx.done && s.c.err.None? && (PumpLeft(s.p.pump) ==> s.seen.ending == Some(Clean))
  }

  /** The call has met the end of the stream, and Err says how it ended. */
  ghost predicate Settled<F, T, E>(s: State<F, T, E>) {
    PumpLeft(s.p.pump) && s.seen.ending.Some? && s.c.err == ErrorOf(s.seen.ending.value)
  }

  lemma {:induction false} AloneStep<F, T, E>(mapFn: MapFn<F, T, E>, dup: E, s: State<F, T, E>, step: Step<F, E>,
                                              w: nat)
    requires OneConsumer(s.c) && Alone(s.c, w) && Enabled(s, step) && !Disturbs(s, step, w)
    requires w < |s.c.threads| && (s.c.threads[w].AtEvents? ==> !s.c.consumed)
    ensures Alone(Apply(mapFn, dup, s, step).c, w)
  {
  }

  /** Steps of the other calls leave an undisturbed call as it is. */
  lemma {:induction false} CalmOthers<F, T, E>(mapFn: MapFn<F, T, E>, dup: E, s: State<F, T, E>, t: nat,
                                               what: CallAct, w: nat)
    requires Safe(mapFn, s) && Calm(mapFn, s, w) && Enabled(s, CallDoes(t, what)) && t != w
    requires !Disturbs(s, Step<F, E>.CallDoes(t, what), w)
    ensures Calm(mapFn, Apply(mapFn, dup, s, CallDoes(t, what)), w)
  {
    AloneStep(mapFn, dup, s, CallDoes(t, what), w);
    assert !s.c.threads[t].Failing? && !s.c.threads[t].InBody? by {
      assert Consuming(s.c.threads[t]) ==> s.c.winner == Some(t);
    }
  }

  lemma {:induction false} CalmStep<F, T, E>(mapFn: MapFn<F, T, E>, dup: E, s: State<F, T, E>, step: Step<F, E>, w: nat)
    requires Safe(mapFn, s) && Calm(mapFn, s, w) && Enabled(s, step) && !Disturbs(s, step, w)
    ensures Calm(mapFn, Apply(mapFn, dup, s, step), w)
  {
    if step.CallDoes? && step.t != w {
      CalmOthers(mapFn, dup, s, step.t, step.what, w);
    } else {
      AloneStep(mapFn, dup, s, step, w);
      DeliveryStep(mapFn, dup, s, step);
      ErrorsStep(mapFn, dup, s, step);
      if step.HandOver? {
        assert Consuming(s.c.threads[step.t]) ==> s.c.winner == Some(step.t);
      }
    }
  }

  lemma {:induction false} CalmRun<F, T, E>(mapFn: MapFn<F, T, E>, dup: E, s: State<F, T, E>,
                                            steps: seq<Step<F, E>>, w: nat)
    requires Safe(mapFn, s) && Calm(mapFn, s, w)
    requires ValidRun(mapFn, dup, s, steps) && Undisturbed(mapFn, dup, s, steps, w)
    ensures Safe(mapFn, Run(mapFn, dup, s, steps)) && Calm(mapFn, Run(mapFn, dup, s, steps), w)
    decreases |steps|
  {
    if steps != [] {
      SafeStep(mapFn, dup, s, steps[0]);
      CalmStep(mapFn, dup, s, steps[0], w);
      CalmRun(mapFn, dup, Apply(mapFn, dup, s, steps[0]), steps[1..], w);
    }
  }

  /**
   Completeness: among any number of Events and Close calls, an Events call that is not disturbed and
   has returned has yielded every mapped value, has waited for the pump to exit, and has left in Err
   exactly the open, stream or mapping error, or nil on a clean end.
   */
  lemma {:induction false} CalmRunComplete<F, T, E>(mapFn: MapFn<F, T, E>, dup: E, s: State<F, T, E>,
                                                    steps: seq<Step<F, E>>, w: nat)
    requires Init(s) && w < |s.c.threads| && s.c.threads[w].AtEvents?
    requires ValidRun(mapFn, dup, s, steps) && Undisturbed(mapFn, dup, s, steps, w)
    requires var t := Run(mapFn, dup, s, steps); w < |t.c.threads| && t.c.threads[w].Finished?
    ensures var t := Run(mapFn, dup, s, steps);
            && t.c.threads[w] == Finished(true) && t.p.doneClosed
            && t.seen.yielded == Emitted(mapFn, t.seen.frames)
            && t.seen.ending.Some? && t.c.err == ErrorOf(t.seen.ending.value)
  {
    InitSafe(mapFn, s);
    CalmRun(mapFn, dup, s, steps, w);
    var t := Run(mapFn, dup, s, steps);
    assert CallOk(t.c.once, t.ctx.done, w, t.c.threads[w]);
  }
}
