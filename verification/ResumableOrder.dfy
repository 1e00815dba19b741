/**
 What every run of the engine keeps, assuming only that catch-ups are honest (A1) and that the live
 feed carries records past the cursor (A2-weak): order, monotone cursor and saves, phase
 discipline, the reconnect backoff, and how far the store can be ahead of the consumer.
 */
module ResumableOrder {
  import opened Prelude
  import opened Events
  import opened EventLog
  import opened Resumable

  /** The engine has a cursor: Load has answered. */
  predicate Loaded(pc: Pc) {
    !pc.Loading? && !pc.ReportingLoadError? && pc != Stopped(LoadError)
  }

  /** No record from `pos` on is at or below the cursor. */
  ghost predicate Frontier(log: seq<Record>, cursor: nat, pos: nat) {
    pos <= |log| && forall j :: pos <= j < |log| ==> log[j].seqno > cursor
  }

  /** What a phase has behind it when it is about to look at log position `pos`. */
  ghost predicate PhaseOk(log: seq<Record>, cursor: nat, head: Option<nat>, phase: Phase, pos: nat) {
    && Frontier(log, cursor, pos)
    && match phase
       case CatchUp(after) => after <= cursor
       case Live => head.Some? && head.value <= cursor
  }

  /** Record i may be handed over: it maps to an event, lies past the cursor, and in catch-up is relevant. */
  ghost predicate Offerable(chat: string, log: seq<Record>, cursor: nat, head: Option<nat>, phase: Phase, i: nat) {
    && i < |log| && PhaseOk(log, cursor, head, phase, i)
    && Mapped(log[i]).Some? && log[i].seqno > cursor
    && (phase.CatchUp? ==> Relevant(log[i], chat))
  }

  /** A completed catch-up: the reported head is not past the cursor, and no record lies between them. */
  ghost predicate CaughtUp(log: seq<Record>, cursor: nat, head: Option<nat>) {
    && head.Some? && head.value <= cursor
    && forall j :: 0 <= j < |log| && log[j].seqno > head.value ==> log[j].seqno > cursor
  }

  ghost predicate PcOk(chat: string, log: seq<Record>, cursor: nat, head: Option<nat>, pc: Pc) {
    match pc
    case Receiving(phase, pos) => PhaseOk(log, cursor, head, phase, pos)
    case Sending(phase, i) => Offerable(chat, log, cursor, head, phase, i)
    case Handed(phase, i) => Offerable(chat, log, cursor, head, phase, i)
    case Recording(phase, i) => i < |log| && cursor == log[i].seqno && PhaseOk(log, cursor, head, phase, i + 1)
    case HeadRecording => head == Some(cursor)
    case Completed => CaughtUp(log, cursor, head)
    case _ => true
  }

  ghost predicate NonDecreasing(xs: seq<nat>) {
    forall j, k :: 0 <= j < k < |xs| ==> xs[j] <= xs[k]
  }

  /** start <= stored <= cursor <= reached <= head. */
  ghost predicate Ranged(s: State) {
    if Loaded(s.pc) then s.start <= StoredCursor(s) <= s.cursor <= Reached(s) <= s.head
    else s.cursor == 0 && s.start == StoredCursor(s) <= s.head && s.delivered == [] && s.saves == []
  }

  ghost predicate Bounded(cfg: Config, s: State) {
    && LogOk(s.log, s.head)
    && PcOk(cfg.chat, s.log, s.cursor, s.completedHead, s.pc)
    && Ranged(s)
  }

  /** Values saved by this process never decrease and stay between its start and its cursor. */
  ghost predicate SavesOk(saves: seq<nat>, start: nat, cursor: nat) {
    NonDecreasing(saves) && forall k :: 0 <= k < |saves| ==> start <= saves[k] <= cursor
  }

  /** Events handed over and values saved are in order, within what this process has reached. */
  ghost predicate Listed(s: State) {
    Ascending(s.delivered, s.start, Reached(s)) && SavesOk(s.saves, s.start, s.cursor)
  }

  ghost predicate Ordered(cfg: Config, s: State) {
    Bounded(cfg, s) && Listed(s)
  }

  /** The consumer has finished with every event handed over, but for the one whose loop body is running. */
  ghost predicate Paced(s: State) {
    && s.returned + (if s.consumer.Yielding? then 1 else 0) == |s.delivered|
    && (s.consumer.Away? ==> s.delivered == [])
  }

  /** Which way `run` can end and what can reach Err. */
  ghost predicate EndsHonestly(s: State) {
    && (s.pc == Stopped(Cancelled) ==> s.ctxDone)
    && (s.consumer.Left? ==> s.ctxDone)
    && (s.err.Some? ==> !s.err.value.ServerFailed?)
    && (s.err.Some? && s.err.value.LoadFailed? ==> s.pc == Stopped(LoadError))
  }

  /** Between the hand-over and the return of its Save, the last event is the one at the engine's hands. */
  ghost predicate InHand(pc: Pc, log: seq<Record>, delivered: seq<MessageEvent>) {
    (pc.Handed? || pc.Recording?) && pc.i < |log| ==>
      delivered != [] && delivered[|delivered| - 1].sequence == log[pc.i].seqno
  }

  /** Every event handed over has had its Save issued, except the one in hand. */
  ghost predicate SaveIssued(pc: Pc, delivered: seq<MessageEvent>, saves: seq<nat>) {
    forall k :: 0 <= k < |delivered| ==>
                  delivered[k].sequence in saves || (k == |delivered| - 1 && (pc.Handed? || pc.Recording?))
  }

  ghost predicate Tracked(cfg: Config, s: State) {
    InHand(s.pc, s.log, s.delivered) && (cfg.hasStore ==> SaveIssued(s.pc, s.delivered, s.saves))
  }

  ghost predicate SleepOk(cfg: Config, s: State) {
    s.backoff == Backoff.Sleep(cfg.minBackoff, cfg.maxBackoff, s.sleeps)
  }

  // ----- one step -----

  lemma {:induction false} LogOkAppend(log: seq<Record>, head: nat, r: Record)
    requires LogOk(log, head) && r.seqno > head && !r.payload.Complete?
    ensures LogOk(log + [r], r.seqno)
  {
  }

  lemma {:induction false} PcOkAppend(chat: string, log: seq<Record>, cursor: nat, head: Option<nat>, pc: Pc, r: Record)
    requires PcOk(chat, log, cursor, head, pc) && r.seqno > cursor
    ensures PcOk(chat, log + [r], cursor, head, pc)
  {
    assert forall i :: 0 <= i < |log| ==> (log + [r])[i] == log[i];
  }

  /** An honest completion behind the cursor leaves nothing between the head and the cursor. */
  lemma {:induction false} CompletionCatchesUp(log: seq<Record>, head: nat, cursor: nat, pos: nat, h: nat)
    requires CompletionHonest(log, head, pos, h) && Frontier(log, cursor, pos) && h <= cursor
    ensures CaughtUp(log, cursor, Some(h))
  {
  }

  lemma {:induction false} LogOkStep(cfg: Config, s: State, step: Step)
    requires LogOk(s.log, s.head) && Enabled(cfg, s, step)
    ensures LogOk(Apply(cfg, s, step).log, Apply(cfg, s, step).head)
  {
    match step
    case Append(r) => LogOkAppend(s.log, s.head, r);
    case _ =>
  }

  /** From a position whose record lies past `c`, everything does. */
  lemma {:induction false} FrontierFrom(log: seq<Record>, head: nat, c: nat, pos: nat)
    requires LogOk(log, head) && pos <= |log| && (pos < |log| ==> log[pos].seqno > c)
    ensures Frontier(log, c, pos)
  {
  }

  /** Where an engine step moves to, everything ahead lies past the cursor it leaves. */
  ghost predicate AheadClear(s: State, step: Step) {
    match step
    case BeginCatchUp => Frontier(s.log, s.cursor, FirstAfter(s.log, s.cursor))
    case BeginLive => Frontier(s.log, s.cursor, FirstAfter(s.log, s.completedHead.GetOr(0)))
    case AssignCursor => s.pc.Handed? && s.pc.i < |s.log| && Frontier(s.log, s.log[s.pc.i].seqno, s.pc.i + 1)
    case LiveOffer(i) => Frontier(s.log, s.cursor, i)
    case CatchUpCompletes(h) => h <= s.cursor ==> CaughtUp(s.log, s.cursor, Some(h))
    case HandOver => s.pc.Sending? && s.pc.i < |s.log| && s.cursor < s.log[s.pc.i].seqno <= s.head
    case _ => true
  }

  lemma {:induction false} AheadClearHolds(cfg: Config, s: State, step: Step)
    requires Bounded(cfg, s) && Enabled(cfg, s, step)
    ensures AheadClear(s, step)
  {
    match step
    case BeginCatchUp => FrontierFrom(s.log, s.head, s.cursor, FirstAfter(s.log, s.cursor));
    case BeginLive => FrontierFrom(s.log, s.head, s.cursor, FirstAfter(s.log, s.completedHead.value));
    case AssignCursor => FrontierFrom(s.log, s.head, s.log[s.pc.i].seqno, s.pc.i + 1);
    case LiveOffer(i) => FrontierFrom(s.log, s.head, s.cursor, i);
    case CatchUpCompletes(h) =>
      if h <= s.cursor {
        CompletionCatchesUp(s.log, s.head, s.cursor, s.pc.pos, h);
      }
    case _ =>
  }

  lemma {:induction false} PcOkEngine(cfg: Config, s: State, step: Step)
    requires PcOk(cfg.chat, s.log, s.cursor, s.completedHead, s.pc) && Enabled(cfg, s, step)
    requires !step.Append? && AheadClear(s, step)
    ensures var t := Apply(cfg, s, step); PcOk(cfg.chat, t.log, t.cursor, t.completedHead, t.pc)
  {
  }

  lemma {:induction false} PcOkStep(cfg: Config, s: State, step: Step)
    requires Bounded(cfg, s) && Enabled(cfg, s, step)
    ensures var t := Apply(cfg, s, step); PcOk(cfg.chat, t.log, t.cursor, t.completedHead, t.pc)
  {
    if step.Append? {
      PcOkAppend(cfg.chat, s.log, s.cursor, s.completedHead, s.pc, step.record);
    } else {
      AheadClearHolds(cfg, s, step);
      PcOkEngine(cfg, s, step);
    }
  }

  /** The server, the surrounding program or the consumer acts. */
  predicate Outside(step: Step) {
    || step.Append? || step.AdvanceHead? || step.CancelParent? || step.Crash?
    || step.StartRange? || step.DuplicateRange? || step.YieldReturns? || step.RangeEnds?
  }

  /** The engine deals with one event or one head: sends it, moves the cursor, saves. */
  predicate OnEvent(step: Step) {
    || step.HandOver? || step.GiveUp? || step.AssignCursor? || step.SaveReturns? || step.SaveHeadReturns?
    || step.CatchUpCompletes?
  }

  /** What the order of sequences needs to know about the record in the engine's hands. */
  predicate Ahead(s: State) {
    (s.pc.Sending? || s.pc.Handed?) ==> s.pc.i < |s.log| && s.cursor < s.log[s.pc.i].seqno <= s.head
  }

  lemma {:induction false} RangedOutside(cfg: Config, s: State, step: Step)
    requires Ranged(s) && Ahead(s) && Enabled(cfg, s, step) && Outside(step)
    ensures Ranged(Apply(cfg, s, step))
  {
  }

  lemma {:induction false} RangedOnEvent(cfg: Config, s: State, step: Step)
    requires Ranged(s) && Ahead(s) && Enabled(cfg, s, step) && OnEvent(step)
    ensures Ranged(Apply(cfg, s, step))
  {
  }

  lemma {:induction false} RangedElsewhere(cfg: Config, s: State, step: Step)
    requires Ranged(s) && Ahead(s) && Enabled(cfg, s, step) && !Outside(step) && !OnEvent(step)
    ensures Ranged(Apply(cfg, s, step))
  {
  }

  lemma {:induction false} RangedStep(cfg: Config, s: State, step: Step)
    requires Ranged(s) && Ahead(s) && Enabled(cfg, s, step)
    ensures Ranged(Apply(cfg, s, step))
  {
    if Outside(step) {
      RangedOutside(cfg, s, step);
    } else if OnEvent(step) {
      RangedOnEvent(cfg, s, step);
    } else {
      RangedElsewhere(cfg, s, step);
    }
  }

  lemma {:induction false} BoundedStep(cfg: Config, s: State, step: Step)
    requires Bounded(cfg, s) && Enabled(cfg, s, step)
    ensures Bounded(cfg, Apply(cfg, s, step))
  {
    LogOkStep(cfg, s, step);
    PcOkStep(cfg, s, step);
    RangedStep(cfg, s, step);
  }

  /** How far a step takes the process: never back, and by a hand-over to the record handed over. */
  ghost predicate Advances(s: State, t: State) {
    t.start == s.start && s.cursor <= t.cursor && Reached(s) <= Reached(t)
  }

  lemma {:induction false} ReachedOutside(cfg: Config, s: State, step: Step)
    requires Ranged(s) && Ahead(s) && Enabled(cfg, s, step) && Outside(step) && !step.Crash?
    ensures Advances(s, Apply(cfg, s, step))
  {
  }

  lemma {:induction false} ReachedOnEvent(cfg: Config, s: State, step: Step)
    requires Ranged(s) && Ahead(s) && Enabled(cfg, s, step) && OnEvent(step)
    ensures Advances(s, Apply(cfg, s, step))
    ensures step.HandOver? ==> Reached(s) == s.cursor < Reached(Apply(cfg, s, step)) == s.log[s.pc.i].seqno
  {
  }

  lemma {:induction false} ReachedElsewhere(cfg: Config, s: State, step: Step)
    requires Ranged(s) && Ahead(s) && Enabled(cfg, s, step) && !Outside(step) && !OnEvent(step)
    ensures Advances(s, Apply(cfg, s, step))
  {
  }

  lemma {:induction false} ReachedStep(cfg: Config, s: State, step: Step)
    requires Ranged(s) && Ahead(s) && Enabled(cfg, s, step) && !step.Crash?
    ensures Advances(s, Apply(cfg, s, step))
    ensures step.HandOver? ==> Reached(s) == s.cursor < Reached(Apply(cfg, s, step)) == s.log[s.pc.i].seqno
  {
    if Outside(step) {
      ReachedOutside(cfg, s, step);
    } else if OnEvent(step) {
      ReachedOnEvent(cfg, s, step);
    } else {
      ReachedElsewhere(cfg, s, step);
    }
  }

  lemma {:induction false} AscendingExtends(events: seq<MessageEvent>, lo: nat, hi: nat, e: MessageEvent)
    requires Ascending(events, lo, hi) && lo <= hi < e.sequence
    ensures Ascending(events + [e], lo, e.sequence)
  {
  }

  lemma {:induction false} SavesExtend(saves: seq<nat>, start: nat, cursor: nat)
    requires SavesOk(saves, start, cursor) && start <= cursor
    ensures SavesOk(saves + [cursor], start, cursor)
  {
  }

  lemma {:induction false} ListedStep(cfg: Config, s: State, step: Step)
    requires Ordered(cfg, s) && Enabled(cfg, s, step)
    ensures Listed(Apply(cfg, s, step))
  {
    var t := Apply(cfg, s, step);
    if !step.Crash? {
      ReachedStep(cfg, s, step);
      if step.HandOver? {
        MappedSequence(s.log[s.pc.i]);
        AscendingExtends(s.delivered, s.start, Reached(s), EventAt(s, s.pc.i));
      } else if step.SaveReturns? || step.SaveHeadReturns? {
        SavesExtend(s.saves, s.start, s.cursor);
      }
      assert t.delivered == s.delivered || step.HandOver?;
      assert t.saves == s.saves || t.saves == s.saves + [s.cursor];
    }
  }

  lemma {:induction false} PacedStep(cfg: Config, s: State, step: Step)
    requires Paced(s) && Enabled(cfg, s, step)
    ensures Paced(Apply(cfg, s, step))
  {
  }

  lemma {:induction false} EndsHonestlyStep(cfg: Config, s: State, step: Step)
    requires EndsHonestly(s) && Enabled(cfg, s, step)
    ensures EndsHonestly(Apply(cfg, s, step))
  {
  }

  lemma {:induction false} TrackedOnEvent(cfg: Config, s: State, step: Step)
    requires Ahead(s) && Tracked(cfg, s) && Enabled(cfg, s, step) && OnEvent(step)
    requires s.pc.Recording? ==> s.pc.i < |s.log| && s.cursor == s.log[s.pc.i].seqno
    ensures Tracked(cfg, Apply(cfg, s, step))
  {
    if step.HandOver? {
      MappedSequence(s.log[s.pc.i]);
    }
  }

  lemma {:induction false} TrackedElsewhere(cfg: Config, s: State, step: Step)
    requires Ahead(s) && Tracked(cfg, s) && Enabled(cfg, s, step) && !OnEvent(step)
    requires s.pc.Recording? ==> s.pc.i < |s.log|
    ensures Tracked(cfg, Apply(cfg, s, step))
  {
  }

  lemma {:induction false} TrackedStep(cfg: Config, s: State, step: Step)
    requires Bounded(cfg, s) && Tracked(cfg, s) && Enabled(cfg, s, step)
    ensures Tracked(cfg, Apply(cfg, s, step))
  {
    if OnEvent(step) {
      TrackedOnEvent(cfg, s, step);
    } else {
      TrackedElsewhere(cfg, s, step);
    }
  }

  lemma {:induction false} SleepStep(cfg: Config, s: State, step: Step)
    requires SleepOk(cfg, s) && Enabled(cfg, s, step)
    ensures SleepOk(cfg, Apply(cfg, s, step))
  {
  }
}
