/**
 Exactly-once delivery. In every run, over any number of disconnects, crashes and failed saves, what
 each process has handed over is the log's relevant events between its start and what it reached if
 and only if every live hand-over took the first relevant record past the cursor; the live feed the
 documentation promises (A2) guarantees that.
 */
module ResumableExact {
  import opened Events
  import opened EventLog
  import opened Resumable
  import opened ResumableOrder

  /** Nothing before `pos` and past the cursor is relevant. */
  ghost predicate NothingSkipped(chat: string, log: seq<Record>, cursor: nat, pos: nat) {
    pos <= |log| && forall j :: 0 <= j < pos && log[j].seqno > cursor ==> !Relevant(log[j], chat)
  }

  /** Record i is the first relevant record past the cursor. */
  ghost predicate NextRelevant(chat: string, log: seq<Record>, cursor: nat, i: nat) {
    i < |log| && log[i].seqno > cursor && Relevant(log[i], chat) && NothingSkipped(chat, log, cursor, i)
  }

  /** What the two loops have behind them; the live loop only when the feed is faithful. */
  ghost predicate Unskipped(chat: string, log: seq<Record>, cursor: nat, pc: Pc, live: bool) {
    match pc
    case Receiving(phase, pos) => (phase.CatchUp? || live) ==> NothingSkipped(chat, log, cursor, pos)
    case Sending(phase, i) => (phase.CatchUp? || live) ==> NextRelevant(chat, log, cursor, i)
    case Handed(phase, i) => (phase.CatchUp? || live) ==> NextRelevant(chat, log, cursor, i)
    case _ => true
  }

  /** This process has handed over exactly the relevant events between its start and what it reached. */
  ghost predicate Exact(cfg: Config, s: State) {
    s.delivered == Between(s.log, cfg.chat, s.start, Reached(s))
  }

  ghost predicate ProcessExact(log: seq<Record>, chat: string, p: Process) {
    p.events == Between(log, chat, p.start, p.reached)
  }

  /** Every process so far, and the current one. */
  ghost predicate AllExact(cfg: Config, s: State) {
    Exact(cfg, s) && forall k :: 0 <= k < |s.past| ==> ProcessExact(s.log, cfg.chat, s.past[k])
  }

  ghost predicate PastBounded(s: State) {
    forall k :: 0 <= k < |s.past| ==> s.past[k].start <= s.past[k].left <= s.past[k].reached <= s.head
  }

  ghost predicate Base(cfg: Config, s: State, live: bool) {
    Ordered(cfg, s) && PastBounded(s) && Unskipped(cfg.chat, s.log, s.cursor, s.pc, live)
  }

  // ----- one step keeps the base -----

  lemma {:induction false} PastBoundedStep(cfg: Config, s: State, step: Step)
    requires Ranged(s) && PastBounded(s) && Enabled(cfg, s, step)
    ensures PastBounded(Apply(cfg, s, step))
  {
    var t := Apply(cfg, s, step);
    if step.Crash? {
      assert t.past == s.past + [Process(s.start, Reached(s), StoredCursor(s), s.delivered)];
    } else {
      assert t.past == s.past && s.head <= t.head;
    }
  }

  lemma {:induction false} UnskippedAppend(chat: string, log: seq<Record>, cursor: nat, pc: Pc, live: bool, r: Record)
    requires Unskipped(chat, log, cursor, pc, live)
    ensures Unskipped(chat, log + [r], cursor, pc, live)
  {
    assert forall i :: 0 <= i < |log| ==> (log + [r])[i] == log[i];
  }

  /** Once record i is the cursor, nothing at or before it lies past the cursor. */
  lemma {:induction false} BehindCursor(chat: string, log: seq<Record>, head: nat, i: nat)
    requires LogOk(log, head) && i < |log|
    ensures NothingSkipped(chat, log, log[i].seqno, i + 1)
  {
  }

  lemma {:induction false} UnskippedStep(cfg: Config, s: State, step: Step, live: bool)
    requires PcOk(cfg.chat, s.log, s.cursor, s.completedHead, s.pc) && Enabled(cfg, s, step) && AheadClear(s, step)
    requires Unskipped(cfg.chat, s.log, s.cursor, s.pc, live) && (live ==> LiveFaithful(cfg, s, step))
    requires s.pc.Recording? ==> NothingSkipped(cfg.chat, s.log, s.cursor, s.pc.i + 1)
    ensures var t := Apply(cfg, s, step); Unskipped(cfg.chat, t.log, t.cursor, t.pc, live)
  {
    if step.Append? {
      UnskippedAppend(cfg.chat, s.log, s.cursor, s.pc, live, step.record);
    }
  }

  lemma {:induction false} BaseStep(cfg: Config, s: State, step: Step, live: bool)
    requires Base(cfg, s, live) && Enabled(cfg, s, step) && (live ==> LiveFaithful(cfg, s, step))
    ensures Base(cfg, Apply(cfg, s, step), live)
  {
    BoundedStep(cfg, s, step);
    ListedStep(cfg, s, step);
    PastBoundedStep(cfg, s, step);
    AheadClearHolds(cfg, s, step);
    if s.pc.Recording? {
      BehindCursor(cfg.chat, s.log, s.head, s.pc.i);
    }
    UnskippedStep(cfg, s, step, live);
  }

  // ----- one step and exactness -----

  lemma {:induction false} BetweenAppend(log: seq<Record>, chat: string, lo: nat, hi: nat, r: Record)
    requires hi < r.seqno
    ensures Between(log + [r], chat, lo, hi) == Between(log, chat, lo, hi)
  {
    assert (log + [r])[..|log|] == log;
  }

  /** A single relevant record in a range, and only that, makes the range that record's event. */
  lemma {:induction false} NextRelevantIffOne(log: seq<Record>, head: nat, chat: string, cursor: nat, i: nat)
    requires LogOk(log, head) && i < |log| && cursor < log[i].seqno && Mapped(log[i]).Some?
    ensures NextRelevant(chat, log, cursor, i) <==> Between(log, chat, cursor, log[i].seqno) == [Mapped(log[i]).value]
  {
    var e := Mapped(log[i]).value;
    var range := Between(log, chat, cursor, log[i].seqno);
    if NextRelevant(chat, log, cursor, i) {
      BetweenOne(log, head, chat, cursor, i);
    } else if range == [e] {
      BetweenSound(log, chat, cursor, log[i].seqno, 0);
      var k :| 0 <= k < |log| && cursor < log[k].seqno <= log[i].seqno && Relevant(log[k], chat)
               && Mapped(log[k]).value == e;
      MappedSequence(log[k]);
      MappedSequence(log[i]);
      assert k == i;
      var j :| 0 <= j < i && log[j].seqno > cursor && Relevant(log[j], chat);
      BetweenComplete(log, chat, cursor, log[i].seqno, j);
      MappedSequence(log[j]);
      assert false;
    }
  }

  /** Appending one later event keeps equality with a reference exactly when the reference grows by it alone. */
  lemma {:induction false} AppendExactlyWhen(events: seq<MessageEvent>, reference: seq<MessageEvent>,
                                             extra: seq<MessageEvent>,
                          e: MessageEvent, lo: nat, mid: nat)
    requires Ascending(events, lo, mid) && Ascending(reference, lo, mid)
    requires Ascending(extra, mid, e.sequence) && lo <= mid < e.sequence
    ensures events + [e] == reference + extra <==> events == reference && extra == [e]
  {
    var whole := reference + extra;
    if events + [e] == whole {
      assert whole[..|events|] == events && whole[..|reference|] == reference && whole[|reference|..] == extra;
      assert whole[|events|] == e;
      // e lies past `mid`, so it is not in the reference; everything before it lies at or below, so it starts the rest
      assert |reference| <= |events|;
      assert |extra| > 0 && extra[0] == whole[|reference|];
      assert extra[0] !in whole[..|events|];
      assert |events| <= |reference|;
    }
  }

  /** The hand-over of record i: exact afterwards iff exact before and i was the next relevant record. */
  lemma {:induction false} ExactHandOver(cfg: Config, s: State)
    requires Ordered(cfg, s) && Enabled(cfg, s, HandOver)
    ensures Exact(cfg, Apply(cfg, s, HandOver)) <==> Exact(cfg, s) && NextRelevant(cfg.chat, s.log, s.cursor, s.pc.i)
  {
    var i := s.pc.i;
    var e := EventAt(s, i);
    var hi := s.log[i].seqno;
    MappedSequence(s.log[i]);
    BetweenSplit(s.log, s.head, cfg.chat, s.start, s.cursor, hi);
    BetweenAscending(s.log, s.head, cfg.chat, s.start, s.cursor);
    BetweenAscending(s.log, s.head, cfg.chat, s.cursor, hi);
    NextRelevantIffOne(s.log, s.head, cfg.chat, s.cursor, i);
    AppendExactlyWhen(s.delivered, Between(s.log, cfg.chat, s.start, s.cursor), Between(s.log, cfg.chat, s.cursor, hi),
                      e, s.start, s.cursor);
  }

  /** A completion moves the cursor, if at all, over irrelevant records only. */
  lemma {:induction false} CompletionCrossesNothing(cfg: Config, s: State, h: nat, live: bool)
    requires Base(cfg, s, live) && Enabled(cfg, s, CatchUpCompletes(h))
    ensures var c := Apply(cfg, s, CatchUpCompletes(h)).cursor;
            && s.cursor <= c && h <= c
            && Between(s.log, cfg.chat, s.cursor, c) == []
            && Between(s.log, cfg.chat, s.start, c) == Between(s.log, cfg.chat, s.start, s.cursor)
  {
    var c := Apply(cfg, s, CatchUpCompletes(h)).cursor;
    BetweenSplit(s.log, s.head, cfg.chat, s.start, s.cursor, c);
    BetweenNothing(s.log, cfg.chat, s.cursor, c);
  }

  /** A live hand-over that skips no relevant record and carries one. */
  ghost predicate TakesNext(cfg: Config, s: State, step: Step) {
    step.HandOver? && s.pc.Sending? ==> NextRelevant(cfg.chat, s.log, s.cursor, s.pc.i)
  }

  lemma {:induction false} ExactAppend(cfg: Config, s: State, step: Step)
    requires Base(cfg, s, false) && Enabled(cfg, s, step) && step.Append?
    ensures AllExact(cfg, Apply(cfg, s, step)) <==> AllExact(cfg, s)
  {
    var t := Apply(cfg, s, step);
    assert Reached(t) == Reached(s) <= s.head;
    BetweenAppend(s.log, cfg.chat, s.start, Reached(s), step.record);
    forall k | 0 <= k < |s.past|
      ensures ProcessExact(t.log, cfg.chat, s.past[k]) <==> ProcessExact(s.log, cfg.chat, s.past[k])
    {
      BetweenAppend(s.log, cfg.chat, s.past[k].start, s.past[k].reached, step.record);
    }
  }

  lemma {:induction false} PastAppend(log: seq<Record>, chat: string, past: seq<Process>, p: Process)
    ensures (forall k :: 0 <= k < |past + [p]| ==> ProcessExact(log, chat, (past + [p])[k]))
            <==> (forall k :: 0 <= k < |past| ==> ProcessExact(log, chat, past[k])) && ProcessExact(log, chat, p)
  {
    var longer := past + [p];
    assert longer[|past|] == p;
    assert forall k :: 0 <= k < |past| ==> longer[k] == past[k];
  }

  lemma {:induction false} ExactCrash(cfg: Config, s: State)
    requires Base(cfg, s, false)
    ensures AllExact(cfg, Apply(cfg, s, Crash)) <==> AllExact(cfg, s)
  {
    BetweenNothing(s.log, cfg.chat, StoredCursor(s), StoredCursor(s));
    PastAppend(s.log, cfg.chat, s.past, Process(s.start, Reached(s), StoredCursor(s), s.delivered));
  }

  /** No other step changes what has been handed over or reached. */
  lemma {:induction false} QuietStep(cfg: Config, s: State, step: Step)
    requires Ranged(s) && Enabled(cfg, s, step)
    requires !step.Append? && !step.Crash? && !step.HandOver? && !step.CatchUpCompletes?
    ensures var t := Apply(cfg, s, step);
            t.log == s.log && t.past == s.past && t.delivered == s.delivered
            && t.start == s.start && Reached(t) == Reached(s)
  {
  }

  lemma {:induction false} ExactQuiet(cfg: Config, s: State, step: Step)
    requires Ranged(s) && Enabled(cfg, s, step)
    requires !step.Append? && !step.Crash? && !step.HandOver? && !step.CatchUpCompletes?
    ensures AllExact(cfg, Apply(cfg, s, step)) <==> AllExact(cfg, s)
  {
    QuietStep(cfg, s, step);
  }

  /** The same deliveries against the same reference. */
  lemma {:induction false} SameAccount(cfg: Config, s: State, t: State)
    requires t.log == s.log && t.past == s.past && t.delivered == s.delivered
    requires Between(t.log, cfg.chat, t.start, Reached(t)) == Between(s.log, cfg.chat, s.start, Reached(s))
    ensures AllExact(cfg, t) <==> AllExact(cfg, s)
  {
  }

  lemma {:induction false} ExactCompletes(cfg: Config, s: State, h: nat)
    requires Base(cfg, s, false) && Enabled(cfg, s, CatchUpCompletes(h))
    ensures AllExact(cfg, Apply(cfg, s, CatchUpCompletes(h))) <==> AllExact(cfg, s)
  {
    CompletionCrossesNothing(cfg, s, h, false);
    SameAccount(cfg, s, Apply(cfg, s, CatchUpCompletes(h)));
  }

  lemma {:induction false} ExactHandOvers(cfg: Config, s: State)
    requires Ordered(cfg, s) && Enabled(cfg, s, HandOver)
    ensures AllExact(cfg, Apply(cfg, s, HandOver)) <==> AllExact(cfg, s) && TakesNext(cfg, s, HandOver)
  {
    ExactHandOver(cfg, s);
  }

  lemma {:induction false} ExactStep(cfg: Config, s: State, step: Step)
    requires Base(cfg, s, false) && Enabled(cfg, s, step)
    ensures AllExact(cfg, Apply(cfg, s, step)) <==> AllExact(cfg, s) && TakesNext(cfg, s, step)
  {
    match step
    case Append(_) => ExactAppend(cfg, s, step);
    case Crash => ExactCrash(cfg, s);
    case HandOver => ExactHandOvers(cfg, s);
    case CatchUpCompletes(h) => ExactCompletes(cfg, s, h);
    case _ => ExactQuiet(cfg, s, step);
  }

  // ----- whole runs -----

  /** Every hand-over of the run takes the first relevant record past the cursor. */
  ghost predicate TakesNextRun(cfg: Config, s: State, steps: seq<Step>)
    requires ValidRun(cfg, s, steps)
    decreases |steps|
  {
    steps == [] || (TakesNext(cfg, s, steps[0]) && TakesNextRun(cfg, Apply(cfg, s, steps[0]), steps[1..]))
  }

  lemma {:induction false} ExactRun(cfg: Config, s: State, steps: seq<Step>)
    requires Base(cfg, s, false) && ValidRun(cfg, s, steps)
    ensures Base(cfg, Run(cfg, s, steps), false)
    ensures AllExact(cfg, Run(cfg, s, steps)) <==> AllExact(cfg, s) && TakesNextRun(cfg, s, steps)
    decreases |steps|
  {
    if steps == [] {
    } else {
      BaseStep(cfg, s, steps[0], false);
      ExactStep(cfg, s, steps[0]);
      ExactRun(cfg, Apply(cfg, s, steps[0]), steps[1..]);
    }
  }

  /** The documented live feed (A2) makes every hand-over take the next relevant record. */
  lemma {:induction false} FaithfulTakesNext(cfg: Config, s: State, steps: seq<Step>)
    requires Base(cfg, s, true) && ValidRun(cfg, s, steps) && FaithfulRun(cfg, s, steps)
    ensures Base(cfg, Run(cfg, s, steps), true)
    ensures TakesNextRun(cfg, s, steps)
    decreases |steps|
  {
    if steps == [] {
    } else {
      BaseStep(cfg, s, steps[0], true);
      FaithfulTakesNext(cfg, Apply(cfg, s, steps[0]), steps[1..]);
    }
  }

  lemma {:induction false} InitBase(cfg: Config, s: State)
    requires Init(cfg, s)
    ensures Base(cfg, s, false) && Base(cfg, s, true) && AllExact(cfg, s)
  {
    BetweenNothing(s.log, cfg.chat, s.start, s.start);
  }

  /**
   Exactly-once, both ways: over every run from start-up, all processes have handed over exactly
   their part of the log if and only if no hand-over skipped a relevant record or carried another.
   A gap, once made, never heals.
   */
  lemma {:induction false} ExactlyOnceIff(cfg: Config, s: State, steps: seq<Step>)
    requires Init(cfg, s) && ValidRun(cfg, s, steps)
    ensures AllExact(cfg, Run(cfg, s, steps)) <==> TakesNextRun(cfg, s, steps)
  {
    InitBase(cfg, s);
    ExactRun(cfg, s, steps);
  }

  /** Exactly-once under the documented server (A1 and A2). */
  lemma {:induction false} ExactlyOnce(cfg: Config, s: State, steps: seq<Step>)
    requires Init(cfg, s) && ValidRun(cfg, s, steps) && FaithfulRun(cfg, s, steps)
    ensures AllExact(cfg, Run(cfg, s, steps))
    ensures var t := Run(cfg, s, steps);
            t.pc.Top? ==> t.delivered == Between(t.log, cfg.chat, t.start, t.cursor)
  {
    InitBase(cfg, s);
    FaithfulTakesNext(cfg, s, steps);
    ExactlyOnceIff(cfg, s, steps);
  }
}
