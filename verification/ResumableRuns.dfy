/**
 Whole-run statements about the resumable engine that need no faithful live feed, and two runs
 that show where the promises stop: a live feed that skips a record, and a crash while the
 consumer is still working on an event.
 */
module ResumableRuns {
  import opened Prelude
  import opened Events
  import opened EventLog
  import opened Resumable
  import opened ResumableOrder
  import opened ResumableExact

  ghost predicate Kept(cfg: Config, s: State) {
    Ordered(cfg, s) && Paced(s) && EndsHonestly(s) && Tracked(cfg, s) && SleepOk(cfg, s)
  }

  lemma {:induction false} KeptStep(cfg: Config, s: State, step: Step)
    requires Kept(cfg, s) && Enabled(cfg, s, step)
    ensures Kept(cfg, Apply(cfg, s, step))
  {
    BoundedStep(cfg, s, step);
    ListedStep(cfg, s, step);
    PacedStep(cfg, s, step);
    EndsHonestlyStep(cfg, s, step);
    TrackedStep(cfg, s, step);
    SleepStep(cfg, s, step);
  }

  lemma {:induction false} KeptRun(cfg: Config, s: State, steps: seq<Step>)
    requires Kept(cfg, s) && ValidRun(cfg, s, steps)
    ensures Kept(cfg, Run(cfg, s, steps))
    decreases |steps|
  {
    if steps != [] {
      KeptStep(cfg, s, steps[0]);
      KeptRun(cfg, Apply(cfg, s, steps[0]), steps[1..]);
    }
  }

  lemma {:induction false} InitKept(cfg: Config, s: State)
    requires Init(cfg, s)
    ensures Kept(cfg, s)
  {
  }

  lemma {:induction false} KeptFromInit(cfg: Config, s: State, steps: seq<Step>)
    requires Init(cfg, s) && ValidRun(cfg, s, steps)
    ensures Kept(cfg, Run(cfg, s, steps))
  {
    InitKept(cfg, s);
    KeptRun(cfg, s, steps);
  }

  /** Order needs no A2: in one process, sequences handed over strictly increase and saves never decrease. */
  lemma {:induction false} OrderWithoutFaithfulFeed(cfg: Config, s: State, steps: seq<Step>)
    requires Init(cfg, s) && ValidRun(cfg, s, steps)
    ensures var t := Run(cfg, s, steps);
            forall j, k :: 0 <= j < k < |t.delivered| ==> t.delivered[j].sequence < t.delivered[k].sequence
    ensures var t := Run(cfg, s, steps);
            forall k :: 0 <= k < |t.delivered| ==> t.start < t.delivered[k].sequence <= Reached(t)
    ensures NonDecreasing(Run(cfg, s, steps).saves)
  {
    KeptFromInit(cfg, s, steps);
  }

  ghost predicate NoCrash(steps: seq<Step>) {
    forall k :: 0 <= k < |steps| ==> !steps[k].Crash?
  }

  lemma {:induction false} MonotoneStep(cfg: Config, s: State, step: Step)
    requires Bounded(cfg, s) && Enabled(cfg, s, step)
    ensures var t := Apply(cfg, s, step); StoredCursor(s) <= StoredCursor(t)
    ensures var t := Apply(cfg, s, step);
            !step.Crash? ==> s.cursor <= t.cursor && s.delivered <= t.delivered && s.saves <= t.saves
                             && (s.err.Some? ==> t.err == s.err)
  {
    AheadClearHolds(cfg, s, step);
  }

  /**
   The store never goes back, not even over crashes; in one process neither do the cursor, deliveries,
   saves or Err.
   */
  lemma {:induction false} NeverGoesBack(cfg: Config, s: State, steps: seq<Step>)
    requires Bounded(cfg, s) && ValidRun(cfg, s, steps)
    ensures var t := Run(cfg, s, steps); StoredCursor(s) <= StoredCursor(t)
    ensures var t := Run(cfg, s, steps);
            NoCrash(steps) ==> s.cursor <= t.cursor && s.delivered <= t.delivered && s.saves <= t.saves
                               && (s.err.Some? ==> t.err == s.err)
    decreases |steps|
  {
    if steps != [] {
      MonotoneStep(cfg, s, steps[0]);
      BoundedStep(cfg, s, steps[0]);
      NeverGoesBack(cfg, Apply(cfg, s, steps[0]), steps[1..]);
    }
  }

  /** The engine is somewhere in its live loop. */
  predicate InLive(pc: Pc) {
    (pc.Receiving? || pc.Sending? || pc.Handed? || pc.Recording?) && pc.phase.Live?
  }

  /**
   Phase discipline and endings: wherever the engine is in its live loop, it has come from a completed
   catch-up whose head the cursor has reached; `run` ends only by cancellation or a failed Load; no
   server failure reaches Err; and once it has ended, every event handed over has had its Save issued.
   */
  lemma {:induction false} PhasesAndEndings(cfg: Config, s: State, steps: seq<Step>)
    requires Init(cfg, s) && ValidRun(cfg, s, steps)
    ensures var t := Run(cfg, s, steps);
            InLive(t.pc) ==> t.completedHead.Some? && t.completedHead.value <= t.cursor
    ensures var t := Run(cfg, s, steps); t.pc.Stopped? ==> t.ctxDone || t.pc.why.LoadError?
    ensures var t := Run(cfg, s, steps); t.err.Some? ==> !t.err.value.ServerFailed?
    ensures var t := Run(cfg, s, steps);
            t.pc.Stopped? && cfg.hasStore ==> forall k :: 0 <= k < |t.delivered| ==> t.delivered[k].sequence in t.saves
  {
    KeptFromInit(cfg, s, steps);
  }

  /** Everything handed over at or below the store has had its loop body return. */
  ghost predicate StoreFinished(s: State) {
    forall k :: 0 <= k < |s.delivered| && s.delivered[k].sequence <= StoredCursor(s) ==> k < s.returned
  }

  /** A Save succeeds, of an event or of a head, while the consumer's loop body is still running. */
  predicate SavesInBody(cfg: Config, s: State, step: Step) {
    cfg.hasStore && s.consumer.Yielding? && (step == SaveReturns(true) || step == SaveHeadReturns(true))
  }

  /**
   What has been delivered is in order, and every event at or below the store is among the returned ones
   but the last.
   */
  lemma {:induction false} OneOutstanding(s: State)
    requires Paced(s) && Ascending(s.delivered, s.start, Reached(s))
    ensures |s.delivered| - 1 <= s.returned <= |s.delivered|
    ensures !StoreFinished(s) ==> s.consumer.Yielding? && s.delivered != []
                                  && s.delivered[|s.delivered| - 1].sequence <= StoredCursor(s)
  {
  }

  lemma {:induction false} FinishedOutside(cfg: Config, s: State, step: Step)
    requires Kept(cfg, s) && StoreFinished(s) && Enabled(cfg, s, step) && Outside(step)
    ensures StoreFinished(Apply(cfg, s, step))
  {
  }

  lemma {:induction false} FinishedSave(cfg: Config, s: State, step: Step)
    requires Kept(cfg, s) && StoreFinished(s) && Enabled(cfg, s, step)
    requires step.SaveReturns? || step.SaveHeadReturns?
    ensures StoreFinished(Apply(cfg, s, step)) <==> !SavesInBody(cfg, s, step)
  {
    var t := Apply(cfg, s, step);
    assert t.delivered == s.delivered && t.returned == s.returned;
    if SavesInBody(cfg, s, step) {
      // the last event handed over is at or below the cursor being saved, and its body runs
      assert t.delivered[|t.delivered| - 1].sequence <= StoredCursor(t);
    }
  }

  lemma {:induction false} FinishedElsewhere(cfg: Config, s: State, step: Step)
    requires Kept(cfg, s) && StoreFinished(s) && Enabled(cfg, s, step)
    requires !Outside(step) && !step.SaveReturns? && !step.SaveHeadReturns?
    ensures StoreFinished(Apply(cfg, s, step))
  {
    var t := Apply(cfg, s, step);
    assert StoredCursor(t) == StoredCursor(s) && t.returned == s.returned;
    if step.HandOver? {
      MappedSequence(s.log[s.pc.i]);
      assert t.delivered == s.delivered + [EventAt(s, s.pc.i)];
    } else {
      assert t.delivered == s.delivered;
    }
  }

  /** The only step after which the store is ahead of the finished events is a Save that succeeds in a running body. */
  lemma {:induction false} FinishedStep(cfg: Config, s: State, step: Step)
    requires Kept(cfg, s) && StoreFinished(s) && Enabled(cfg, s, step)
    ensures StoreFinished(Apply(cfg, s, step)) <==> !SavesInBody(cfg, s, step)
  {
    if Outside(step) {
      FinishedOutside(cfg, s, step);
    } else if step.SaveReturns? || step.SaveHeadReturns? {
      FinishedSave(cfg, s, step);
    } else {
      FinishedElsewhere(cfg, s, step);
    }
  }

  ghost predicate AlwaysFinished(cfg: Config, s: State, steps: seq<Step>)
    requires ValidRun(cfg, s, steps)
    decreases |steps|
  {
    StoreFinished(s) && (steps == [] || AlwaysFinished(cfg, Apply(cfg, s, steps[0]), steps[1..]))
  }

  ghost predicate NeverSavesInBody(cfg: Config, s: State, steps: seq<Step>)
    requires ValidRun(cfg, s, steps)
    decreases |steps|
  {
    steps == [] || (!SavesInBody(cfg, s, steps[0]) && NeverSavesInBody(cfg, Apply(cfg, s, steps[0]), steps[1..]))
  }

  lemma {:induction false} FinishedRun(cfg: Config, s: State, steps: seq<Step>)
    requires Kept(cfg, s) && StoreFinished(s) && ValidRun(cfg, s, steps)
    ensures AlwaysFinished(cfg, s, steps) <==> NeverSavesInBody(cfg, s, steps)
    decreases |steps|
  {
    if steps != [] {
      var t := Apply(cfg, s, steps[0]);
      KeptStep(cfg, s, steps[0]);
      FinishedStep(cfg, s, steps[0]);
      if StoreFinished(t) {
        FinishedRun(cfg, t, steps[1..]);
      }
    }
  }

  /**
   Exactly when the store holds finished events only, at every point of a run: when no Save, of an event
   or of a head, succeeds while the consumer's loop body is running. The engine does not wait for the
   body before it saves, so this is up to how fast the consumer is.
   */
  lemma {:induction false} StoreFinishedExactlyWhen(cfg: Config, s: State, steps: seq<Step>)
    requires Init(cfg, s) && ValidRun(cfg, s, steps)
    ensures AlwaysFinished(cfg, s, steps) <==> NeverSavesInBody(cfg, s, steps)
  {
    InitKept(cfg, s);
    FinishedRun(cfg, s, steps);
  }

  /**
   The store is ahead of the consumer's finished work by at most one event: whatever was saved and
   whenever, everything handed over at or below the store has had its loop body return, except possibly
   the last event handed over, while its body is running.
   */
  lemma {:induction false} StoreAheadByAtMostOne(cfg: Config, s: State, steps: seq<Step>)
    requires Init(cfg, s) && ValidRun(cfg, s, steps)
    ensures var t := Run(cfg, s, steps);
            forall k :: 0 <= k < |t.delivered| && t.delivered[k].sequence <= StoredCursor(t) ==>
              k < t.returned || (k == |t.delivered| - 1 && t.consumer.Yielding?)
  {
    KeptFromInit(cfg, s, steps);
    OneOutstanding(Run(cfg, s, steps));
  }

  /**
   What a crash can cost, under the documented server: every relevant record of the log past the start
   and at or below the store has been handed over and its loop body has returned, except possibly the
   last one handed over, while its body is running.
   */
  lemma {:induction false} StoreCoversLog(cfg: Config, s: State, steps: seq<Step>, i: nat)
    requires Init(cfg, s) && ValidRun(cfg, s, steps) && FaithfulRun(cfg, s, steps)
    requires var t := Run(cfg, s, steps);
             i < |t.log| && Relevant(t.log[i], cfg.chat) && t.start < t.log[i].seqno <= StoredCursor(t)
    ensures var t := Run(cfg, s, steps);
            exists k :: 0 <= k < |t.delivered| && t.delivered[k] == Mapped(t.log[i]).value
              && (k < t.returned || (k == |t.delivered| - 1 && t.consumer.Yielding?))
  {
    var t := Run(cfg, s, steps);
    ExactlyOnce(cfg, s, steps);
    KeptFromInit(cfg, s, steps);
    StoreWithinReach(t);
    BetweenComplete(t.log, cfg.chat, t.start, Reached(t), i);
    OneOutstanding(t);
  }

  lemma {:induction false} StoreWithinReach(s: State)
    requires Ranged(s)
    ensures StoredCursor(s) <= Reached(s)
  {
  }

  /** Along every run the backoff is the promised doubling, when the configured bounds allow it. */
  lemma {:induction false} BackoffAlongRuns(cfg: Config, s: State, steps: seq<Step>)
    requires Init(cfg, s) && ValidRun(cfg, s, steps) && cfg.minBackoff <= cfg.maxBackoff < TWO_62
    ensures var t := Run(cfg, s, steps);
            t.backoff == Min(cfg.minBackoff * Pow2(t.sleeps), cfg.maxBackoff)
            && cfg.minBackoff <= t.backoff <= cfg.maxBackoff
  {
    KeptFromInit(cfg, s, steps);
    Backoff.SleepIsDoubling(cfg.minBackoff, cfg.maxBackoff, Run(cfg, s, steps).sleeps);
  }

  /** With the documented defaults, 500 milliseconds and 30 seconds, the sleeps are min(500ms*2^k, 30s). */
  lemma {:induction false} DefaultBackoff(cfg: Config, s: State, steps: seq<Step>)
    requires Init(cfg, s) && ValidRun(cfg, s, steps)
    requires cfg.minBackoff == 500_000_000 && cfg.maxBackoff == 30_000_000_000
    ensures var t := Run(cfg, s, steps); t.backoff == Min(500_000_000 * Pow2(t.sleeps), 30_000_000_000)
  {
    BackoffAlongRuns(cfg, s, steps);
  }

  // ----- where the promises stop -----

  const SOME_CHAT := "iMessage;-;+1"

  function TextRecord(seqno: nat): Record {
    CatchUpFrame(seqno, MessageChanged(Some(MessageChange(None, SOME_CHAT, false, 0, ReceivedBody("hello")))))
  }

  function AnyConfig(): Config {
    Config("", 500, 30000, true)
  }

  ghost predicate Reachable(cfg: Config, s: State, t: State) {
    exists steps :: ValidRun(cfg, s, steps) && Run(cfg, s, steps) == t
  }

  lemma {:induction false} ReachableSelf(cfg: Config, s: State)
    ensures Reachable(cfg, s, s)
  {
    assert ValidRun(cfg, s, []) && Run(cfg, s, []) == s;
  }

  lemma {:induction false} ReachableStep(cfg: Config, s: State, t: State, step: Step)
    requires Reachable(cfg, s, t) && Enabled(cfg, t, step)
    ensures Reachable(cfg, s, Apply(cfg, t, step))
  {
    var steps :| ValidRun(cfg, s, steps) && Run(cfg, s, steps) == t;
    RunAppend(cfg, s, steps, step);
  }

  /** A start-up on an empty log with nothing stored. */
  function EmptyStart(): State {
    Fresh(AnyConfig(), [], 0, None, [])
  }

  /** The same engine, waiting in its live loop for a feed opened at the empty log's head, over a given log. */
  function WaitingLive(log: seq<Record>, head: nat): State {
    State(log, head, Receiving(Live, 0), 0, 500, Waiting, false, None, None, 0, [], 0, [], Some(0), 0, [])
  }

  /** The same engine asking for a catch-up from the beginning. */
  function Asking(): State {
    State([], 0, Receiving(CatchUp(0), 0), 0, 500, Waiting, false, None, None, 0, [], 0, [], None, 0, [])
  }

  lemma {:induction false} ReachesCatchUp()
    ensures Reachable(AnyConfig(), EmptyStart(), Asking())
  {
    var cfg, s := AnyConfig(), EmptyStart();
    ReachableSelf(cfg, s);
    ReachableStep(cfg, s, s, StartRange);
    var ranging := Apply(cfg, s, StartRange);
    ReachableStep(cfg, s, ranging, LoadOk);
    ReachableStep(cfg, s, Apply(cfg, ranging, LoadOk), BeginCatchUp);
  }

  lemma {:induction false} ReachesLive()
    ensures Reachable(AnyConfig(), EmptyStart(), WaitingLive([], 0))
  {
    var cfg, s := AnyConfig(), EmptyStart();
    ReachesCatchUp();
    ReachableStep(cfg, s, Asking(), CatchUpCompletes(0));
    ReachableStep(cfg, s, Asking().(pc := Completed, completedHead := Some(0)), BeginLive);
  }

  /** From its live loop the engine may offer, hand over, record and save any message record past the cursor. */
  lemma {:induction false} LiveDelivers(cfg: Config, s: State, t: State, i: nat) returns (u: State)
    requires Reachable(cfg, s, t) && cfg.hasStore
    requires t.pc == Receiving(Live, 0) && t.consumer.Waiting?
    requires i < |t.log| && Mapped(t.log[i]).Some? && t.log[i].seqno > t.cursor
    ensures Reachable(cfg, s, u)
    ensures u == t.(pc := Receiving(Live, i + 1), cursor := t.log[i].seqno, stored := Some(t.log[i].seqno),
                    consumer := Yielding, delivered := t.delivered + [EventAt(t, i)],
                    saves := t.saves + [t.log[i].seqno])
  {
    ReachableStep(cfg, s, t, LiveOffer(i));
    u := Apply(cfg, t, LiveOffer(i));
    ReachableStep(cfg, s, u, HandOver);
    u := Apply(cfg, u, HandOver);
    ReachableStep(cfg, s, u, AssignCursor);
    u := Apply(cfg, u, AssignCursor);
    ReachableStep(cfg, s, u, SaveReturns(true));
    u := Apply(cfg, u, SaveReturns(true));
  }

  /**
   A2 is needed: a live feed that only promises records past the cursor (A2-weak) admits a run of one
   process in which a relevant record is below the cursor and the store and was never handed over.
   */
  lemma {:induction false} GapWithoutFaithfulFeed() returns (t: State)
    ensures Init(AnyConfig(), EmptyStart()) && Reachable(AnyConfig(), EmptyStart(), t) && t.past == []
    ensures t.log == [TextRecord(1), TextRecord(2)] && Relevant(t.log[0], AnyConfig().chat)
    ensures t.start < t.log[0].seqno < StoredCursor(t) == t.cursor && Mapped(t.log[0]).value !in t.delivered
  {
    var cfg, s := AnyConfig(), EmptyStart();
    ReachesLive();
    ReachableStep(cfg, s, WaitingLive([], 0), Append(TextRecord(1)));
    ReachableStep(cfg, s, WaitingLive([TextRecord(1)], 1), Append(TextRecord(2)));
    t := LiveDelivers(cfg, s, WaitingLive([TextRecord(1), TextRecord(2)], 2), 1);
  }

  /**
   "Fully processed" is one event too strong: a run in which an event is saved while the consumer's
   loop body is still running on it, the process dies, and the next one starts past it. By
   OrderWithoutFaithfulFeed the new process never hands it over.
   */
  lemma {:induction false} SavedBeforeProcessed() returns (t: State)
    ensures Init(AnyConfig(), EmptyStart()) && Reachable(AnyConfig(), EmptyStart(), t)
    ensures t.log == [TextRecord(1)] && t.delivered == [Mapped(t.log[0]).value]
    ensures StoredCursor(t) == t.delivered[0].sequence && t.returned == 0 && t.consumer.Yielding?
    ensures Apply(AnyConfig(), t, Crash).start == t.delivered[0].sequence
  {
    var cfg, s := AnyConfig(), EmptyStart();
    ReachesLive();
    ReachableStep(cfg, s, WaitingLive([], 0), Append(TextRecord(1)));
    t := LiveDelivers(cfg, s, WaitingLive([TextRecord(1)], 1), 0);
  }

  /** The catch-up of the empty start after one record and a later head have come. */
  function CatchingUp(pc: Pc, cursor: nat, consumer: Consumer, delivered: seq<MessageEvent>, saves: seq<nat>): State {
    State([TextRecord(1)], 2, pc, cursor, 500, consumer, false, None, None, 0, delivered, 0, saves, None, 0, [])
  }

  lemma {:induction false} ReachesRecord()
    ensures Reachable(AnyConfig(), EmptyStart(), CatchingUp(Receiving(CatchUp(0), 0), 0, Waiting, [], []))
  {
    var cfg, s := AnyConfig(), EmptyStart();
    ReachesCatchUp();
    ReachableStep(cfg, s, Asking(), Append(TextRecord(1)));
    ReachableStep(cfg, s, Asking().(log := [TextRecord(1)], head := 1), AdvanceHead(2));
  }

  lemma {:induction false} ReachesHandOver()
    ensures Reachable(AnyConfig(), EmptyStart(),
                      CatchingUp(Handed(CatchUp(0), 0), 0, Yielding, [Mapped(TextRecord(1)).value], []))
  {
    var cfg, s := AnyConfig(), EmptyStart();
    ReachesRecord();
    ReachableStep(cfg, s, CatchingUp(Receiving(CatchUp(0), 0), 0, Waiting, [], []), CatchUpOffer);
    ReachableStep(cfg, s, CatchingUp(Sending(CatchUp(0), 0), 0, Waiting, [], []), HandOver);
  }

  lemma {:induction false} DeliversInCatchUp() returns (t: State)
    ensures Reachable(AnyConfig(), EmptyStart(), t)
    ensures t == CatchingUp(Receiving(CatchUp(0), 1), 1, Yielding, [Mapped(TextRecord(1)).value], [1])
  {
    var cfg, s, events := AnyConfig(), EmptyStart(), [Mapped(TextRecord(1)).value];
    ReachesHandOver();
    ReachableStep(cfg, s, CatchingUp(Handed(CatchUp(0), 0), 0, Yielding, events, []), AssignCursor);
    ReachableStep(cfg, s, CatchingUp(Recording(CatchUp(0), 0), 1, Yielding, events, []), SaveReturns(false));
    t := CatchingUp(Receiving(CatchUp(0), 1), 1, Yielding, events, [1]);
  }

  /** A head does it too: the event's own Save fails, and a later head passes it while its body runs. */
  lemma {:induction false} HeadSavedBeforeProcessed() returns (t: State)
    ensures Reachable(AnyConfig(), EmptyStart(), t)
    ensures t.log == [TextRecord(1)] && t.delivered == [Mapped(t.log[0]).value] && t.saves == [1, 2]
    ensures t.delivered[0].sequence < StoredCursor(t) == 2 && t.returned == 0 && t.consumer.Yielding?
  {
    var cfg, s := AnyConfig(), EmptyStart();
    t := DeliversInCatchUp();
    ReachableStep(cfg, s, t, CatchUpCompletes(2));
    t := Apply(cfg, t, CatchUpCompletes(2));
    ReachableStep(cfg, s, t, SaveHeadReturns(true));
    t := Apply(cfg, t, SaveHeadReturns(true));
  }
}
