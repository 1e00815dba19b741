/**
 Restarts. A run is a chain of processes, each starting from what the store held when the one
 before it ended. Nothing relevant is lost along the chain, and what is handed over more than once
 is exactly what each process had handed over past the store it left behind.
 */
module ResumableRestart {
  import opened Events
  import opened EventLog
  import opened Resumable
  import opened ResumableOrder
  import opened ResumableExact

  /** The processes of a run, the current one last. */
  function Processes(s: State): seq<Process> {
    s.past + [Process(s.start, Reached(s), StoredCursor(s), s.delivered)]
  }

  /** Everything handed over by a chain of processes, in order. */
  function HandedOver(ps: seq<Process>): seq<MessageEvent> {
    if ps == [] then [] else HandedOver(ps[..|ps| - 1]) + ps[|ps| - 1].events
  }

  /** What each process but the last had handed over past the store it left. */
  function Repeats(log: seq<Record>, chat: string, ps: seq<Process>): seq<MessageEvent> {
    if |ps| <= 1 then []
    else
      var before := ps[..|ps| - 1];
      Repeats(log, chat, before) + Between(log, chat, before[|before| - 1].left, before[|before| - 1].reached)
  }

  /** What a chain leaves in the store for the next process. */
  function LeftBy(ps: seq<Process>, first: nat): nat {
    if ps == [] then first else ps[|ps| - 1].left
  }

  /** Each process starts from what the previous one left, and hands over exactly its part of the log. */
  ghost predicate Chain(log: seq<Record>, chat: string, first: nat, ps: seq<Process>) {
    ps == [] ||
    var before := ps[..|ps| - 1];
    var last := ps[|ps| - 1];
    && Chain(log, chat, first, before)
    && last.start == LeftBy(before, first)
    && last.start <= last.left <= last.reached
    && ProcessExact(log, chat, last)
  }

  // ----- about chains -----

  lemma {:induction false} ChainPrefix(log: seq<Record>, chat: string, first: nat, ps: seq<Process>, n: nat)
    requires Chain(log, chat, first, ps) && n <= |ps|
    ensures Chain(log, chat, first, ps[..n])
  {
    if n < |ps| {
      ChainPrefix(log, chat, first, ps[..|ps| - 1], n);
      assert ps[..|ps| - 1][..n] == ps[..n];
    } else {
      assert ps[..n] == ps;
    }
  }

  /** Every relevant record past the first start and at most what the chain reached was handed over in it. */
  lemma {:induction false} ChainLosesNothing(log: seq<Record>, chat: string, first: nat, ps: seq<Process>, i: nat)
    requires Chain(log, chat, first, ps) && ps != []
    requires i < |log| && Relevant(log[i], chat) && first < log[i].seqno <= ps[|ps| - 1].reached
    ensures exists j :: 0 <= j < |ps| && Mapped(log[i]).value in ps[j].events
  {
    var before := ps[..|ps| - 1];
    var last := ps[|ps| - 1];
    if log[i].seqno > last.start {
      BetweenComplete(log, chat, last.start, last.reached, i);
      assert Mapped(log[i]).value in ps[|ps| - 1].events;
    } else {
      ChainLosesNothing(log, chat, first, before, i);
      var j :| 0 <= j < |before| && Mapped(log[i]).value in before[j].events;
      assert ps[j] == before[j];
    }
  }

  /** Conservation: everything handed over is the log's relevant events once, plus the repeats. */
  lemma {:induction false} ChainConserves(log: seq<Record>, head: nat, chat: string, first: nat, ps: seq<Process>)
    requires LogOk(log, head) && Chain(log, chat, first, ps) && ps != []
    ensures first <= ps[|ps| - 1].start
    ensures multiset(HandedOver(ps))
            == multiset(Between(log, chat, first, ps[|ps| - 1].reached)) + multiset(Repeats(log, chat, ps))
  {
    var before := ps[..|ps| - 1];
    var last := ps[|ps| - 1];
    if before == [] {
      assert HandedOver(before) == [];
      assert HandedOver(ps) == last.events;
    } else {
      var prev := before[|before| - 1];
      ChainConserves(log, head, chat, first, before);
      BetweenSplit(log, head, chat, first, prev.left, prev.reached);
      BetweenSplit(log, head, chat, first, prev.left, last.reached);
    }
  }

  /** When no process leaves more than one event past its store, repeats number at most the restarts. */
  lemma {:induction false} FewRepeats(log: seq<Record>, chat: string, ps: seq<Process>)
    requires forall k :: 0 <= k < |ps| - 1 ==> |Between(log, chat, ps[k].left, ps[k].reached)| <= 1
    ensures |Repeats(log, chat, ps)| <= if ps == [] then 0 else |ps| - 1
  {
    if |ps| > 1 {
      FewRepeats(log, chat, ps[..|ps| - 1]);
    }
  }

  // ----- runs form chains -----

  /** The finished processes of a state form an exact chain, and the current one starts where it leaves off. */
  ghost predicate Chained(cfg: Config, s: State, first: nat) {
    Chain(s.log, cfg.chat, first, s.past) && s.start == LeftBy(s.past, first)
  }

  lemma {:induction false} ChainAppend(log: seq<Record>, head: nat, chat: string, first: nat,
                                       ps: seq<Process>, r: Record)
    requires Chain(log, chat, first, ps) && r.seqno > head
    requires forall k :: 0 <= k < |ps| ==> ps[k].reached <= head
    ensures Chain(log + [r], chat, first, ps)
  {
    if ps != [] {
      var last := ps[|ps| - 1];
      ChainAppend(log, head, chat, first, ps[..|ps| - 1], r);
      BetweenAppend(log, chat, last.start, last.reached, r);
    }
  }

  /** The current process closes the chain. */
  lemma {:induction false} ChainCloses(cfg: Config, s: State, first: nat)
    requires Ranged(s) && Exact(cfg, s) && Chained(cfg, s, first)
    ensures Chain(s.log, cfg.chat, first, Processes(s))
  {
    var ps := Processes(s);
    assert ps[..|ps| - 1] == s.past;
  }

  lemma {:induction false} ChainedQuiet(cfg: Config, s: State, step: Step, first: nat)
    requires Chained(cfg, s, first) && Enabled(cfg, s, step) && !step.Append? && !step.Crash?
    ensures Chained(cfg, Apply(cfg, s, step), first)
  {
    var t := Apply(cfg, s, step);
    assert t.past == s.past && t.log == s.log && t.start == s.start;
  }

  lemma {:induction false} ChainedStep(cfg: Config, s: State, step: Step, first: nat)
    requires Base(cfg, s, true) && Exact(cfg, s) && Chained(cfg, s, first) && Enabled(cfg, s, step)
    ensures Chained(cfg, Apply(cfg, s, step), first)
  {
    match step
    case Append(r) => ChainAppend(s.log, s.head, cfg.chat, first, s.past, r);
    case Crash => ChainCloses(cfg, s, first);
    case _ => ChainedQuiet(cfg, s, step, first);
  }

  lemma {:induction false} ChainedRun(cfg: Config, s: State, steps: seq<Step>, first: nat)
    requires Base(cfg, s, true) && AllExact(cfg, s) && Chained(cfg, s, first)
    requires ValidRun(cfg, s, steps) && FaithfulRun(cfg, s, steps)
    ensures var t := Run(cfg, s, steps); Base(cfg, t, true) && AllExact(cfg, t) && Chained(cfg, t, first)
    decreases |steps|
  {
    if steps != [] {
      BaseStep(cfg, s, steps[0], true);
      ExactStep(cfg, s, steps[0]);
      ChainedStep(cfg, s, steps[0], first);
      ChainedRun(cfg, Apply(cfg, s, steps[0]), steps[1..], first);
    }
  }

  lemma {:induction false} InitChained(cfg: Config, s: State)
    requires Init(cfg, s)
    ensures Chained(cfg, s, StoredCursor(s))
  {
  }

  /** Under the documented server, the processes of any run form an exact chain from the first stored cursor. */
  lemma {:induction false} RunsAreChains(cfg: Config, s: State, steps: seq<Step>)
    requires Init(cfg, s) && ValidRun(cfg, s, steps) && FaithfulRun(cfg, s, steps)
    ensures var t := Run(cfg, s, steps);
            LogOk(t.log, t.head) && Ranged(t) && Chain(t.log, cfg.chat, StoredCursor(s), Processes(t))
  {
    var first := StoredCursor(s);
    InitBase(cfg, s);
    InitChained(cfg, s);
    ChainedRun(cfg, s, steps, first);
    ChainCloses(cfg, Run(cfg, s, steps), first);
  }

  /** What the n-th process of a chain had reached was handed over by then. */
  lemma {:induction false} HandedOverBy(log: seq<Record>, chat: string, first: nat, ps: seq<Process>, i: nat, n: nat)
    requires Chain(log, chat, first, ps) && n < |ps|
    requires i < |log| && Relevant(log[i], chat) && first < log[i].seqno <= ps[n].reached
    ensures exists j :: 0 <= j <= n && Mapped(log[i]).value in ps[j].events
  {
    var front := ps[..n + 1];
    ChainPrefix(log, chat, first, ps, n + 1);
    ChainLosesNothing(log, chat, first, front, i);
    var j :| 0 <= j < |front| && Mapped(log[i]).value in front[j].events;
    assert front[j] == ps[j];
  }

  /**
   No loss: whatever crashes, restarts, disconnects and failed saves a run contains, every relevant
   record past the first stored cursor and at most what the n-th process reached has been handed over
   by then; the current cursor and the store are at most what the current process reached.
   */
  lemma {:induction false} NothingLost(cfg: Config, s: State, steps: seq<Step>, i: nat, n: nat)
    requires Init(cfg, s) && ValidRun(cfg, s, steps) && FaithfulRun(cfg, s, steps)
    requires var t := Run(cfg, s, steps);
             n < |Processes(t)| && i < |t.log| && Relevant(t.log[i], cfg.chat)
             && StoredCursor(s) < t.log[i].seqno <= Processes(t)[n].reached
    ensures var t := Run(cfg, s, steps);
            exists j :: 0 <= j <= n && Mapped(t.log[i]).value in Processes(t)[j].events
    ensures var t := Run(cfg, s, steps); t.cursor <= Reached(t) && StoredCursor(t) <= Reached(t)
  {
    var t := Run(cfg, s, steps);
    RunsAreChains(cfg, s, steps);
    HandedOverBy(t.log, cfg.chat, StoredCursor(s), Processes(t), i, n);
  }

  /** Everything ever handed over is the log's relevant part once, plus exactly the repeats of each restart. */
  lemma {:induction false} DeliveriesConserved(cfg: Config, s: State, steps: seq<Step>)
    requires Init(cfg, s) && ValidRun(cfg, s, steps) && FaithfulRun(cfg, s, steps)
    ensures var t := Run(cfg, s, steps);
            multiset(HandedOver(Processes(t)))
            == multiset(Between(t.log, cfg.chat, StoredCursor(s), Reached(t)))
               + multiset(Repeats(t.log, cfg.chat, Processes(t)))
  {
    var t := Run(cfg, s, steps);
    RunsAreChains(cfg, s, steps);
    ChainConserves(t.log, t.head, cfg.chat, StoredCursor(s), Processes(t));
  }

  // ----- when every Save succeeds -----

  ghost predicate SavesSucceed(steps: seq<Step>) {
    forall k :: 0 <= k < |steps| ==> steps[k] != SaveReturns(false) && steps[k] != SaveHeadReturns(false)
  }

  /** The store is the cursor, but for the one event between its hand-over and the return of its Save. */
  ghost predicate Synced(cfg: Config, s: State) {
    match s.pc
    case Recording(_, _) => |Between(s.log, cfg.chat, StoredCursor(s), s.cursor)| <= 1
    case HeadRecording => Between(s.log, cfg.chat, StoredCursor(s), s.cursor) == []
    case _ => Loaded(s.pc) ==> StoredCursor(s) == s.cursor
  }

  /** At most one event lies past the store. */
  ghost predicate Behind(log: seq<Record>, chat: string, p: Process) {
    |Between(log, chat, p.left, p.reached)| <= 1
  }

  ghost predicate PastBehind(cfg: Config, s: State) {
    forall k :: 0 <= k < |s.past| ==> Behind(s.log, cfg.chat, s.past[k])
  }

  lemma {:induction false} SyncedBehind(cfg: Config, s: State)
    requires Base(cfg, s, true) && Synced(cfg, s)
    ensures Behind(s.log, cfg.chat, Process(s.start, Reached(s), StoredCursor(s), s.delivered))
  {
    if s.pc.Handed? {
      NextRelevantIffOne(s.log, s.head, cfg.chat, s.cursor, s.pc.i);
    } else if !s.pc.Recording? && !s.pc.HeadRecording? {
      BetweenNothing(s.log, cfg.chat, StoredCursor(s), StoredCursor(s));
    }
  }

  lemma {:induction false} SyncedStep(cfg: Config, s: State, step: Step)
    requires cfg.hasStore && Base(cfg, s, true) && Synced(cfg, s) && Enabled(cfg, s, step)
    requires step != SaveReturns(false) && step != SaveHeadReturns(false)
    ensures Synced(cfg, Apply(cfg, s, step))
  {
    if step.Append? {
      BetweenAppend(s.log, cfg.chat, StoredCursor(s), s.cursor, step.record);
    } else if step.AssignCursor? {
      SyncedBehind(cfg, s);
    } else if step.CatchUpCompletes? {
      CompletionCrossesNothing(cfg, s, step.headSequence, true);
    }
  }

  lemma {:induction false} PastBehindStep(cfg: Config, s: State, step: Step)
    requires Base(cfg, s, true) && Synced(cfg, s) && PastBehind(cfg, s) && Enabled(cfg, s, step)
    ensures PastBehind(cfg, Apply(cfg, s, step))
  {
    var t := Apply(cfg, s, step);
    if step.Append? {
      forall k | 0 <= k < |s.past|
        ensures Behind(t.log, cfg.chat, s.past[k])
      {
        BetweenAppend(s.log, cfg.chat, s.past[k].left, s.past[k].reached, step.record);
      }
    } else if step.Crash? {
      SyncedBehind(cfg, s);
      assert forall k :: 0 <= k < |s.past| ==> t.past[k] == s.past[k];
    } else {
      assert t.past == s.past && t.log == s.log;
    }
  }

  lemma {:induction false} PastBehindRun(cfg: Config, s: State, steps: seq<Step>)
    requires cfg.hasStore && Base(cfg, s, true) && Synced(cfg, s) && PastBehind(cfg, s)
    requires ValidRun(cfg, s, steps) && FaithfulRun(cfg, s, steps) && SavesSucceed(steps)
    ensures PastBehind(cfg, Run(cfg, s, steps))
    decreases |steps|
  {
    if steps != [] {
      BaseStep(cfg, s, steps[0], true);
      SyncedStep(cfg, s, steps[0]);
      PastBehindStep(cfg, s, steps[0]);
      PastBehindRun(cfg, Apply(cfg, s, steps[0]), steps[1..]);
    }
  }

  /** With working saves, each crash repeats at most one event: extra deliveries number at most the restarts. */
  lemma {:induction false} OneRepeatPerCrash(cfg: Config, s: State, steps: seq<Step>)
    requires cfg.hasStore && Init(cfg, s)
    requires ValidRun(cfg, s, steps) && FaithfulRun(cfg, s, steps) && SavesSucceed(steps)
    ensures var t := Run(cfg, s, steps);
            forall k :: 0 <= k < |t.past| ==> |Between(t.log, cfg.chat, t.past[k].left, t.past[k].reached)| <= 1
    ensures var t := Run(cfg, s, steps);
            |HandedOver(Processes(t))| <= |Between(t.log, cfg.chat, StoredCursor(s), Reached(t))| + |t.past|
  {
    var t := Run(cfg, s, steps);
    InitBase(cfg, s);
    PastBehindRun(cfg, s, steps);
    forall k | 0 <= k < |t.past|
      ensures |Between(t.log, cfg.chat, t.past[k].left, t.past[k].reached)| <= 1
    {
      assert Behind(t.log, cfg.chat, t.past[k]);
    }
    DeliveriesConserved(cfg, s, steps);
    FewRepeats(t.log, cfg.chat, Processes(t));
    var reference := Between(t.log, cfg.chat, StoredCursor(s), Reached(t));
    var extra := Repeats(t.log, cfg.chat, Processes(t));
    assert |multiset(HandedOver(Processes(t)))| == |multiset(reference)| + |multiset(extra)|;
  }
}
