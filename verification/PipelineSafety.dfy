/** What every interleaving of the composed pipeline keeps, and what the user's loop therefore sees. */
module PipelineSafety {
  import opened Prelude
  import opened Events
  import Safety = SubscriptionSafety
  import Runs = SubscriptionRuns
  import opened Pipeline

  // ----- the filter -----

  ghost predicate NoStop(kind: Kind, items: seq<CatchUpEvent>) {
    forall i :: 0 <= i < |items| ==> !Stops(kind, items[i])
  }

  lemma {:induction false} WantedThrough(kind: Kind, chat: string, a: seq<CatchUpEvent>, b: seq<CatchUpEvent>)
    requires NoStop(kind, a)
    ensures Wanted(kind, chat, a + b) == Wanted(kind, chat, a) + Wanted(kind, chat, b)
  {
    if a == [] {
      assert a + b == b;
    } else {
      assert (a + b)[1..] == a[1..] + b && (a + b)[0] == a[0];
      WantedThrough(kind, chat, a[1..], b);
    }
  }

  lemma {:induction false} WantedStopped(kind: Kind, chat: string, a: seq<CatchUpEvent>, b: seq<CatchUpEvent>)
    requires !NoStop(kind, a)
    ensures Wanted(kind, chat, a + b) == Wanted(kind, chat, a)
  {
    assert (a + b)[1..] == a[1..] + b && (a + b)[0] == a[0];
    if !Stops(kind, a[0]) {
      var i :| 0 <= i < |a| && Stops(kind, a[i]);
      assert a[1..][i - 1] == a[i];
      WantedStopped(kind, chat, a[1..], b);
    }
  }

  /** The filter of a longer stream: more items add their own, up to the completion. */
  lemma {:induction false} WantedConcat(kind: Kind, chat: string, a: seq<CatchUpEvent>, b: seq<CatchUpEvent>)
    ensures Wanted(kind, chat, a) <= Wanted(kind, chat, a + b)
    ensures NoStop(kind, a) ==> Wanted(kind, chat, a + b) == Wanted(kind, chat, a) + Wanted(kind, chat, b)
    ensures !NoStop(kind, a) ==> Wanted(kind, chat, a + b) == Wanted(kind, chat, a)
  {
    if NoStop(kind, a) {
      WantedThrough(kind, chat, a, b);
    } else {
      WantedStopped(kind, chat, a, b);
    }
  }

  lemma {:induction false} WantedOne(kind: Kind, chat: string, item: CatchUpEvent)
    ensures Wanted(kind, chat, [item]) == Pick(kind, chat, item)
  {
    assert [item][1..] == [];
  }

  lemma {:induction false} WantedSnoc(kind: Kind, chat: string, items: seq<CatchUpEvent>, item: CatchUpEvent)
    requires NoStop(kind, items)
    ensures Wanted(kind, chat, items + [item]) == Wanted(kind, chat, items) + Pick(kind, chat, item)
  {
    WantedConcat(kind, chat, items, [item]);
    WantedOne(kind, chat, item);
  }

  lemma {:induction false} EmittedPass(events: seq<MessageEvent>)
    ensures S.Emitted(Pass, events) == events
  {
    if events != [] {
      EmittedPass(events[1..]);
    }
  }

  // ----- one stream -----

  /** The engine's place in its inner range, and what it has been given. */
  ghost predicate Reading(kind: Kind, c: S.Calls<CatchUpEvent, string>, yielded: seq<CatchUpEvent>, offered: bool) {
    && |c.threads| == 1
    && (yielded != [] ==> NoStop(kind, yielded[..|yielded| - 1]))
    && (offered ==> c.threads[0].InBody? && c.threads[0].value.FromMessage?)
    && match c.threads[0]
       case AtEvents => yielded == [] && !c.consumed
       case Duplicate => false
       case Ranging => NoStop(kind, yielded)
       case InBody(v) => yielded != [] && yielded[|yielded| - 1] == v
       case _ => true
  }

  /** A stream closed early was cancelled from above, or had reported completion. */
  ghost predicate ClosedForCause(kind: Kind, sub: Inner, cancelled: bool) {
    sub.seen.disturbed ==>
      cancelled || (sub.seen.yielded != [] && Stops(kind, sub.seen.yielded[|sub.seen.yielded| - 1]))
  }

  /** What the inner subscription itself keeps. */
  ghost predicate InnerKept(sub: Inner) {
    Safety.Safe(MapFrame, sub) && |sub.c.threads| == 1 && (sub.seen.disturbed || Runs.Calm(MapFrame, sub, 0))
  }

  ghost predicate SessionOk(session: Session, cancelled: bool) {
    && InnerKept(session.sub)
    && Reading(session.kind, session.sub.c, session.sub.seen.yielded, session.offered)
    && ClosedForCause(session.kind, session.sub, cancelled)
  }

  lemma {:induction false} FreshSessionOk(kind: Kind, cancelled: bool)
    ensures SessionOk(Session(kind, S.Fresh([S.AtEvents]), false), cancelled)
  {
    var sub: Inner := S.Fresh([S.AtEvents]);
    Runs.InitSafe(MapFrame, sub);
  }

  lemma {:induction false} ReadingHandOver(kind: Kind, sub: Inner, offered: bool, t: nat)
    requires Reading(kind, sub.c, sub.seen.yielded, offered) && S.Enabled(sub, S.HandOver(t))
    ensures var u := InnerApply(sub, S.HandOver(t)); Reading(kind, u.c, u.seen.yielded, offered)
  {
    var u := InnerApply(sub, S.HandOver(t));
    assert sub.c.threads[0].Ranging? && NoStop(kind, sub.seen.yielded);
    if sub.p.pump.r.Val? {
      assert u.seen.yielded == sub.seen.yielded + [sub.p.pump.r.value];
      assert u.seen.yielded[..|u.seen.yielded| - 1] == sub.seen.yielded;
    }
  }

  lemma {:induction false} ReadingCall(kind: Kind, sub: Inner, offered: bool, t: nat, what: S.CallAct)
    requires Reading(kind, sub.c, sub.seen.yielded, offered) && S.Enabled(sub, S.CallDoes(t, what))
    requires what.BodyReturns? ==> !offered && (what.more ==> NoStop(kind, sub.seen.yielded))
    ensures var u := InnerApply(sub, S.CallDoes(t, what)); Reading(kind, u.c, u.seen.yielded, offered)
  {
  }

  lemma {:induction false} ReadingStep(kind: Kind, sub: Inner, offered: bool, st: S.Step<Frame, string>)
    requires Reading(kind, sub.c, sub.seen.yielded, offered) && S.Enabled(sub, st)
    requires st.CallDoes? && st.what.BodyReturns? ==>
               !offered && (st.what.more ==> NoStop(kind, sub.seen.yielded))
    ensures var t := InnerApply(sub, st); Reading(kind, t.c, t.seen.yielded, offered)
  {
    match st
    case HandOver(t) => ReadingHandOver(kind, sub, offered, t);
    case CallDoes(t, what) => ReadingCall(kind, sub, offered, t, what);
    case _ =>
  }

  lemma {:induction false} InnerStep(sub: Inner, st: S.Step<Frame, string>)
    requires InnerKept(sub) && S.Enabled(sub, st)
    ensures InnerKept(InnerApply(sub, st))
  {
    Safety.SafeStep(MapFrame, DUPLICATE, sub, st);
    if !InnerApply(sub, st).seen.disturbed {
      Runs.CalmStep(MapFrame, DUPLICATE, sub, st, 0);
    }
  }

  /** How the loop body may return: on to the next item, or out of the loop with a cause. */
  ghost predicate BodyMayReturn(session: Session, cancelled: bool, st: S.Step<Frame, string>) {
    st.CallDoes? && st.what.BodyReturns? ==>
      && !session.offered
      && var given := session.sub.seen.yielded;
         if st.what.more then NoStop(session.kind, given)
         else cancelled || (given != [] && Stops(session.kind, given[|given| - 1]))
  }

  lemma {:induction false} CauseStep(session: Session, cancelled: bool, st: S.Step<Frame, string>)
    requires Reading(session.kind, session.sub.c, session.sub.seen.yielded, session.offered)
    requires ClosedForCause(session.kind, session.sub, cancelled) && S.Enabled(session.sub, st)
    requires (st.CancelParent? ==> cancelled) && BodyMayReturn(session, cancelled, st)
    ensures ClosedForCause(session.kind, InnerApply(session.sub, st), cancelled)
  {
    var t := InnerApply(session.sub, st);
    if st.HandOver? {
      // a ranging engine has been given nothing that stops it
      assert session.sub.c.threads[0].Ranging?;
    }
  }

  /** Any step of an inner stream, with the loop body returning only as the engine lets it. */
  lemma {:induction false} SessionStep(session: Session, cancelled: bool, st: S.Step<Frame, string>)
    requires SessionOk(session, cancelled) && S.Enabled(session.sub, st)
    requires (st.CancelParent? ==> cancelled) && BodyMayReturn(session, cancelled, st)
    ensures SessionOk(session.(sub := InnerApply(session.sub, st)), cancelled)
  {
    InnerStep(session.sub, st);
    ReadingStep(session.kind, session.sub, session.offered, st);
    CauseStep(session, cancelled, st);
  }

  // ----- the whole pipeline -----

  /** The items of the current stream the engine has dealt with: all it was given but the one still in its body. */
  function Handled(session: Session): seq<CatchUpEvent> {
    var given := session.sub.seen.yielded;
    if !session.offered && Body(session.sub).Some? && given != [] then given[..|given| - 1] else given
  }

  function WantedPast(chat: string, past: seq<Ended>): seq<MessageEvent> {
    if past == [] then []
    else
      var last := past[|past| - 1];
      WantedPast(chat, past[..|past| - 1]) + Wanted(last.kind, chat, last.items)
  }

  /** Everything put into the engine's channel is the filtered items of the streams, in order. */
  ghost predicate Flow(chat: string, offeredEvents: seq<MessageEvent>, current: Option<Session>, past: seq<Ended>) {
    offeredEvents
    == WantedPast(chat, past)
       + if current.Some? then Wanted(current.value.kind, chat, Handled(current.value)) else []
  }

  /** A closed stream gave the engine everything it owed. */
  ghost predicate GaveAll(chat: string, e: Ended) {
    Wanted(e.kind, chat, e.items) == Promised(e.kind, chat, e.frames)
  }

  /** Every closed stream gave all, except possibly the last one, cut short by a cancellation that ended the engine. */
  ghost predicate PastOk(chat: string, past: seq<Ended>, cancelled: bool, over: bool) {
    && (forall k :: 0 <= k < |past| - 1 ==> GaveAll(chat, past[k]))
    && (forall k :: 0 <= k < |past| ==>
          && past[k].items <= S.Emitted(MapFrame, past[k].frames)
          && Wanted(past[k].kind, chat, past[k].items) <= Promised(past[k].kind, chat, past[k].frames))
    && (past != [] && !GaveAll(chat, past[|past| - 1]) ==> cancelled && over && !LastCompleted(past))
  }

  ghost predicate Good(chat: string, s: State) {
    && Safety.Safe(Pass, s.outer)
    && (s.current.Some? ==> SessionOk(s.current.value, s.outer.ctx.done))
    && Flow(chat, s.outer.seen.frames, s.current, s.past)
    && PastOk(chat, s.past, s.outer.ctx.done, s.current.None?)
  }

  /**
   A stream that has closed gave all it owed unless the engine was cancelled or it had completed; then
   it still did.
   */
  lemma {:induction false} ClosedGaveAll(chat: string, session: Session, cancelled: bool)
    requires SessionOk(session, cancelled) && session.sub.c.threads == [S.Finished(true)]
    ensures var e := Ended(session.kind, session.sub.seen.frames, session.sub.seen.yielded);
            && e.items <= S.Emitted(MapFrame, e.frames)
            && Wanted(e.kind, chat, e.items) <= Promised(e.kind, chat, e.frames)
            && (GaveAll(chat, e) || (cancelled && !LastCompleted([e])))
  {
    var sub := session.sub;
    var items := sub.seen.yielded;
    var all := S.Emitted(MapFrame, sub.seen.frames);
    assert items + S.InHand(sub.p.pump) <= all;
    var rest := all[|items|..];
    assert items + rest == all;
    WantedConcat(session.kind, chat, items, rest);
    if items != [] && Stops(session.kind, items[|items| - 1]) {
      assert !NoStop(session.kind, items);
    } else if !sub.seen.disturbed {
      assert rest == [];
    }
  }

  lemma {:induction false} PastOkClose(chat: string, session: Session, past: seq<Ended>, cancelled: bool)
    requires SessionOk(session, cancelled) && session.sub.c.threads == [S.Finished(true)]
    requires PastOk(chat, past, cancelled, false)
    ensures PastOk(chat, past + [Ended(session.kind, session.sub.seen.frames, session.sub.seen.yielded)],
                   cancelled, true)
  {
    var e := Ended(session.kind, session.sub.seen.frames, session.sub.seen.yielded);
    ClosedGaveAll(chat, session, cancelled);
    var longer := past + [e];
    assert LastCompleted(longer) == LastCompleted([e]);
    assert forall k :: 0 <= k < |past| ==> longer[k] == past[k];
  }

  lemma {:induction false} FlowClose(chat: string, offeredEvents: seq<MessageEvent>, session: Session, past: seq<Ended>)
    requires Flow(chat, offeredEvents, Some(session), past) && !session.offered && Body(session.sub).None?
    ensures Flow(chat, offeredEvents, None,
                 past + [Ended(session.kind, session.sub.seen.frames, session.sub.seen.yielded)])
  {
    var longer := past + [Ended(session.kind, session.sub.seen.frames, session.sub.seen.yielded)];
    assert longer[..|longer| - 1] == past;
  }

  // ----- one step of the pipeline -----

  /** Steps of the engine's channel that put nothing in. */
  lemma {:induction false} OuterStep(chat: string, s: State, st: S.Step<MessageEvent, string>)
    requires Good(chat, s) && S.Enabled(s.outer, st) && !(st.PumpDoes? && st.act.Receive?)
    ensures Good(chat, s.(outer := OuterApply(s, st)))
  {
    Safety.SafeStep(Pass, DUPLICATE, s.outer, st);
  }

  lemma {:induction false} OpenStep(chat: string, s: State, kind: Kind)
    requires Good(chat, s) && Enabled(chat, s, Open(kind))
    ensures Good(chat, Apply(chat, s, Open(kind)))
  {
    FreshSessionOk(kind, s.outer.ctx.done);
  }

  lemma {:induction false} BodyStays(sub: Inner, st: S.Step<Frame, string>)
    requires |sub.c.threads| == 1 && S.Enabled(sub, st)
    requires !st.HandOver? && !(st.CallDoes? && st.what.BodyReturns?)
    ensures var t := InnerApply(sub, st); Body(t) == Body(sub) && t.seen.yielded == sub.seen.yielded
  {
  }

  lemma {:induction false} BodyTakes(sub: Inner, t: nat)
    requires |sub.c.threads| == 1 && S.Enabled(sub, S.HandOver(t))
    ensures var u := InnerApply(sub, S.HandOver(t));
            if sub.p.pump.r.Val? then
              Body(u) == Some(sub.p.pump.r.value) && u.seen.yielded == sub.seen.yielded + [sub.p.pump.r.value]
            else Body(u).None? && u.seen.yielded == sub.seen.yielded
    ensures Body(sub).None?
  {
  }

  /** The stream's own steps leave what the engine has dealt with as it is. */
  lemma {:induction false} HandledStays(session: Session, st: S.Step<Frame, string>)
    requires |session.sub.c.threads| == 1 && (session.offered ==> Body(session.sub).Some?)
    requires S.Enabled(session.sub, st) && !(st.CallDoes? && st.what.BodyReturns?)
    ensures Handled(session.(sub := InnerApply(session.sub, st))) == Handled(session)
  {
    var given := session.sub.seen.yielded;
    if st.HandOver? {
      BodyTakes(session.sub, st.t);
      if session.sub.p.pump.r.Val? {
        assert (given + [session.sub.p.pump.r.value])[..|given|] == given;
      }
    } else {
      BodyStays(session.sub, st);
    }
  }

  lemma {:induction false} StreamStep(chat: string, s: State, st: S.Step<Frame, string>)
    requires Good(chat, s) && Enabled(chat, s, StreamActs(st))
    ensures Good(chat, Apply(chat, s, StreamActs(st)))
  {
    SessionStep(s.current.value, s.outer.ctx.done, st);
    HandledStays(s.current.value, st);
  }

  /** The item in the loop body is the last one given; once it is dealt with, everything given is. */
  lemma {:induction false} HandledAll(chat: string, session: Session, more: bool)
    requires Reading(session.kind, session.sub.c, session.sub.seen.yielded, session.offered) && Body(session.sub).Some?
    requires session.offered || Pick(session.kind, chat, Body(session.sub).value) == []
    ensures Handled(BodyReturns(session, more).value) == session.sub.seen.yielded
    ensures Wanted(session.kind, chat, session.sub.seen.yielded) == Wanted(session.kind, chat, Handled(session))
  {
    var given := session.sub.seen.yielded;
    if !session.offered {
      assert given == given[..|given| - 1] + [Body(session.sub).value];
      WantedSnoc(session.kind, chat, given[..|given| - 1], Body(session.sub).value);
    }
  }

  lemma {:induction false} BodyMay(session: Session, cancelled: bool, more: bool)
    requires Reading(session.kind, session.sub.c, session.sub.seen.yielded, session.offered) && Body(session.sub).Some?
    requires if more then !Stops(session.kind, Body(session.sub).value)
             else cancelled || Stops(session.kind, Body(session.sub).value)
    ensures BodyMayReturn(session.(offered := false), cancelled, S.CallDoes(0, S.BodyReturns(more)))
  {
    var given := session.sub.seen.yielded;
    assert given == given[..|given| - 1] + [Body(session.sub).value];
  }

  /** The loop body returns on an item whose filtered value has already been put in (or is nothing). */
  lemma {:induction false} BodyStep(chat: string, session: Session, cancelled: bool, offeredEvents: seq<MessageEvent>,
                 past: seq<Ended>, more: bool)
    requires SessionOk(session, cancelled) && Body(session.sub).Some?
    requires Flow(chat, offeredEvents, Some(session), past)
    requires session.offered || Pick(session.kind, chat, Body(session.sub).value) == []
    requires if more then !Stops(session.kind, Body(session.sub).value)
             else cancelled || Stops(session.kind, Body(session.sub).value)
    ensures BodyReturns(session, more).Some? && SessionOk(BodyReturns(session, more).value, cancelled)
    ensures Flow(chat, offeredEvents, BodyReturns(session, more), past)
  {
    BodyMay(session, cancelled, more);
    SessionStep(session.(offered := false), cancelled, S.CallDoes(0, S.BodyReturns(more)));
    HandledAll(chat, session, more);
  }

  /** Putting the item's value in and marking it offered keeps the channel's account. */
  lemma {:induction false} FlowOffer(chat: string, offeredEvents: seq<MessageEvent>, session: Session, past: seq<Ended>)
    requires Reading(session.kind, session.sub.c, session.sub.seen.yielded, false)
    requires !session.offered && Body(session.sub).Some? && Body(session.sub).value.FromMessage?
    requires Pick(session.kind, chat, Body(session.sub).value) != []
    requires Flow(chat, offeredEvents, Some(session), past)
    ensures Flow(chat, offeredEvents + [Body(session.sub).value.event], Some(session.(offered := true)), past)
    ensures Reading(session.kind, session.sub.c, session.sub.seen.yielded, true)
  {
    var given := session.sub.seen.yielded;
    var before := given[..|given| - 1];
    var item := Body(session.sub).value;
    assert given == before + [item];
    assert Handled(session) == before && Handled(session.(offered := true)) == given;
    WantedSnoc(session.kind, chat, before, item);
    assert Pick(session.kind, chat, item) == [item.event];
    Regroup(WantedPast(chat, past), Wanted(session.kind, chat, before), [item.event]);
  }

  lemma {:induction false} OfferStep(chat: string, s: State)
    requires Good(chat, s) && Enabled(chat, s, Offer)
    ensures Good(chat, Apply(chat, s, Offer))
  {
    var st := S.PumpDoes(S.Receive(Unhandled(s).value.event));
    Safety.SafeStep(Pass, DUPLICATE, s.outer, st);
    FlowOffer(chat, s.outer.seen.frames, s.current.value, s.past);
    assert OuterApply(s, st).seen.frames == s.outer.seen.frames + [Unhandled(s).value.event];
    assert OuterApply(s, st).ctx.done == s.outer.ctx.done;
  }

  lemma {:induction false} GoodStep(chat: string, s: State, step: Step)
    requires Good(chat, s) && Enabled(chat, s, step)
    ensures Good(chat, Apply(chat, s, step))
  {
    match step
    case UserActs(st) => OuterStep(chat, s, st);
    case LoadDone(failure) =>
      OuterStep(chat, s, S.PumpDoes(if failure.None? then S.OpenOk else S.OpenFails(failure.value)));
    case ReportDropped => OuterStep(chat, s, S.PumpDoes(S.GiveUp));
    case Open(kind) => OpenStep(chat, s, kind);
    case StreamActs(st) => StreamStep(chat, s, st);
    case Skip => BodyStep(chat, s.current.value, s.outer.ctx.done, s.outer.seen.frames, s.past, true);
    case FinishCatchUp => BodyStep(chat, s.current.value, s.outer.ctx.done, s.outer.seen.frames, s.past, false);
    case Offer => OfferStep(chat, s);
    case Accepted => BodyStep(chat, s.current.value, s.outer.ctx.done, s.outer.seen.frames, s.past, true);
    case Refused =>
      OuterStep(chat, s, S.PumpDoes(S.GiveUp));
      BodyStep(chat, s.current.value, s.outer.ctx.done, s.outer.seen.frames, s.past, false);
    case CloseSession =>
      PastOkClose(chat, s.current.value, s.past, s.outer.ctx.done);
      FlowClose(chat, s.outer.seen.frames, s.current.value, s.past);
    case EngineEnds => OuterStep(chat, s, S.PumpDoes(S.StreamEnds(None)));
    case EngineCloses(act) => OuterStep(chat, s, S.PumpDoes(act));
  }

  lemma {:induction false} GoodRun(chat: string, s: State, steps: seq<Step>)
    requires Good(chat, s) && ValidRun(chat, s, steps)
    ensures Good(chat, Run(chat, s, steps))
    decreases |steps|
  {
    if steps != [] {
      GoodStep(chat, s, steps[0]);
      GoodRun(chat, Apply(chat, s, steps[0]), steps[1..]);
    }
  }

  lemma {:induction false} InitGood(chat: string, s: State)
    requires Init(s)
    ensures Good(chat, s)
  {
    Runs.InitSafe(Pass, s.outer);
  }

  // ----- what the user sees -----

  lemma {:induction false} PastPrefix(chat: string, past: seq<Ended>, cancelled: bool, over: bool)
    requires PastOk(chat, past, cancelled, over)
    ensures WantedPast(chat, past) <= PromisedPast(chat, past)
    ensures past == [] || GaveAll(chat, past[|past| - 1]) ==> WantedPast(chat, past) == PromisedPast(chat, past)
  {
    if past != [] {
      var before := past[..|past| - 1];
      assert forall k :: 0 <= k < |before| ==> before[k] == past[k];
      assert before != [] ==> GaveAll(chat, past[|past| - 2]);
      PastPrefix(chat, before, cancelled, over);
    }
  }

  /** What the current stream still has on its way to the engine's channel. */
  function OnTheWay(chat: string, session: Session): seq<MessageEvent> {
    (if !session.offered && Body(session.sub).Some? then Pick(session.kind, chat, Body(session.sub).value) else [])
    + if NoStopGiven(session) then Wanted(session.kind, chat, S.InHand(session.sub.p.pump)) else []
  }

  /** The stream has not reported completion to the engine. */
  predicate NoStopGiven(session: Session) {
    var given := session.sub.seen.yielded;
    given == [] || !Stops(session.kind, given[|given| - 1])
  }

  /** What was dealt with, plus the item in the body, is what was given. */
  lemma {:induction false} HandledPlusBody(chat: string, session: Session)
    requires Reading(session.kind, session.sub.c, session.sub.seen.yielded, session.offered)
    ensures Wanted(session.kind, chat, session.sub.seen.yielded)
            == Wanted(session.kind, chat, Handled(session))
               + if !session.offered && Body(session.sub).Some? then Pick(session.kind, chat, Body(session.sub).value)
                  else []
    ensures NoStop(session.kind, session.sub.seen.yielded) <==> NoStopGiven(session)
  {
    var given := session.sub.seen.yielded;
    if given != [] {
      assert given == given[..|given| - 1] + [given[|given| - 1]];
      WantedSnoc(session.kind, chat, given[..|given| - 1], given[|given| - 1]);
    }
  }

  lemma {:induction false} GivenIsPrefix(session: Session)
    requires InnerKept(session.sub)
    ensures session.sub.seen.yielded <= S.Emitted(MapFrame, session.sub.seen.frames)
  {
    var given := session.sub.seen.yielded;
    assert (given + S.InHand(session.sub.p.pump))[..|given|] == given;
  }

  /**
   The items given are a prefix of all; when nothing else is missing than what the pump holds, nothing
   else is owed.
   */
  lemma {:induction false} Account(chat: string, session: Session, all: seq<CatchUpEvent>, settled: bool)
    requires Reading(session.kind, session.sub.c, session.sub.seen.yielded, session.offered)
    requires session.sub.seen.yielded <= all
    requires settled && NoStopGiven(session) ==> session.sub.seen.yielded + S.InHand(session.sub.p.pump) == all
    ensures Wanted(session.kind, chat, Handled(session)) <= Wanted(session.kind, chat, all)
    ensures settled ==> Wanted(session.kind, chat, all)
                        == Wanted(session.kind, chat, Handled(session)) + OnTheWay(chat, session)
  {
    var given := session.sub.seen.yielded;
    var rest := all[|given|..];
    var handled := Wanted(session.kind, chat, Handled(session));
    var inBody := if !session.offered && Body(session.sub).Some?
                  then Pick(session.kind, chat, Body(session.sub).value) else [];
    HandledPlusBody(chat, session);
    Rest(given, all);
    WantedConcat(session.kind, chat, given, rest);
    AppendPrefix(handled, [], inBody);
    if settled && NoStopGiven(session) {
      assert rest == S.InHand(session.sub.p.pump);
      Regroup(handled, inBody, Wanted(session.kind, chat, rest));
    } else {
      Regroup(handled, inBody, []);
    }
  }

  lemma {:induction false} Rest<T>(given: seq<T>, all: seq<T>)
    requires given <= all
    ensures given + all[|given|..] == all
  {
  }

  /** The account of the current stream: all it promised is dealt with or on the way, unless cancelled. */
  lemma {:induction false} CurrentAccount(chat: string, session: Session, cancelled: bool)
    requires SessionOk(session, cancelled)
    ensures Wanted(session.kind, chat, Handled(session)) <= Promised(session.kind, chat, session.sub.seen.frames)
    ensures !cancelled ==> Promised(session.kind, chat, session.sub.seen.frames)
                           == Wanted(session.kind, chat, Handled(session)) + OnTheWay(chat, session)
  {
    GivenIsPrefix(session);
    if !cancelled && NoStopGiven(session) {
      AllInHand(session, cancelled);
    }
    Account(chat, session, S.Emitted(MapFrame, session.sub.seen.frames), !cancelled);
  }

  /** A stream not cancelled from above and not complete has every emitted value given or in its pump's hand. */
  lemma {:induction false} AllInHand(session: Session, cancelled: bool)
    requires SessionOk(session, cancelled) && !cancelled && NoStopGiven(session)
    ensures session.sub.seen.yielded + S.InHand(session.sub.p.pump) == S.Emitted(MapFrame, session.sub.seen.frames)
  {
    assert !session.sub.seen.disturbed;
  }

  /**
   Two-stage refinement: in every interleaving of both stages, with any number of user calls, the
   user's loop body has seen a prefix of what the mappers emit over the server's streams, one after the
   other, after the engine's filter; and until a cancellation nothing of it is missing but what is in
   the engine's hand, in its loop body, or in the inner pump's hand.
   */
  lemma {:induction false} UserSeesPrefix(chat: string, s: State, steps: seq<Step>)
    requires Init(s) && ValidRun(chat, s, steps)
    ensures var t := Run(chat, s, steps); t.outer.seen.yielded <= PromisedAll(chat, t)
    ensures var t := Run(chat, s, steps);
            !t.outer.ctx.done ==>
              PromisedAll(chat, t)
              == t.outer.seen.yielded + S.InHand(t.outer.p.pump)
                 + if t.current.Some? then OnTheWay(chat, t.current.value) else []
  {
    InitGood(chat, s);
    GoodRun(chat, s, steps);
    GoodSeesPrefix(chat, Run(chat, s, steps));
  }

  /** The engine's channel hands on, in order, what was put in. */
  lemma {:induction false} OuterAccount(outer: Outer)
    requires Safety.Safe(Pass, outer)
    ensures outer.seen.yielded <= outer.seen.frames
    ensures !outer.ctx.done ==> outer.seen.frames == outer.seen.yielded + S.InHand(outer.p.pump)
  {
    EmittedPass(outer.seen.frames);
    var out := outer.seen.yielded + S.InHand(outer.p.pump);
    assert out[..|outer.seen.yielded|] == outer.seen.yielded;
  }

  lemma {:induction false} AppendPrefix(a: seq<MessageEvent>, b: seq<MessageEvent>, c: seq<MessageEvent>)
    requires b <= c
    ensures a + b <= a + c
  {
    assert (a + c)[..|a + b|] == a + b;
  }

  /** While a stream is open, every closed one gave all it owed. */
  lemma {:induction false} OpenMeansAllGiven(chat: string, past: seq<Ended>, cancelled: bool)
    requires PastOk(chat, past, cancelled, false)
    ensures WantedPast(chat, past) == PromisedPast(chat, past)
  {
    PastPrefix(chat, past, cancelled, false);
  }

  /** What was put into the channel is a prefix of what the streams promise, short only by what is on the way. */
  lemma {:induction false} PutAccount(chat: string, put: seq<MessageEvent>, session: Session, past: seq<Ended>,
                                      cancelled: bool)
    requires Flow(chat, put, Some(session), past) && PastOk(chat, past, cancelled, false)
             && SessionOk(session, cancelled)
    ensures var promised := PromisedPast(chat, past) + Promised(session.kind, chat, session.sub.seen.frames);
            put <= promised && (!cancelled ==> promised == put + OnTheWay(chat, session))
  {
    OpenMeansAllGiven(chat, past, cancelled);
    CurrentAccount(chat, session, cancelled);
    Regroup(PromisedPast(chat, past), Wanted(session.kind, chat, Handled(session)), OnTheWay(chat, session));
    AppendPrefix(WantedPast(chat, past), Wanted(session.kind, chat, Handled(session)),
                 Promised(session.kind, chat, session.sub.seen.frames));
  }

  lemma {:induction false} GoodSeesPrefix(chat: string, t: State)
    requires Good(chat, t)
    ensures t.outer.seen.yielded <= PromisedAll(chat, t)
    ensures !t.outer.ctx.done ==>
              PromisedAll(chat, t)
              == t.outer.seen.yielded + S.InHand(t.outer.p.pump)
                 + if t.current.Some? then OnTheWay(chat, t.current.value) else []
  {
    OuterAccount(t.outer);
    if t.current.Some? {
      PutAccount(chat, t.outer.seen.frames, t.current.value, t.past, t.outer.ctx.done);
    } else {
      PastPrefix(chat, t.past, t.outer.ctx.done, true);
    }
  }
}
