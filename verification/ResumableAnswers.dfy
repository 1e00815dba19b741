/**
 What the engine makes of what its streams say. The reference is a fold over the answers alone: no
 program counter, no channel, no interleaving. Along every run of one process the engine's deliveries,
 cursor and Saves are those of the reference over the answers it has taken up, but for the one it is
 still dealing with.
 */
module ResumableAnswers {
  import opened Prelude
  import opened Events
  import opened EventLog
  import opened Resumable
  import opened ResumableOrder
  import opened ResumableRuns
  import Backoff

  /** One thing a stream says to the engine's loop: a record, a completed catch-up with its head, or its end. */
  datatype Answer = Said(record: Record) | Reported(head: nat) | Ended

  /** The answer a step takes up, if it takes one. */
  function AnswerOf(s: State, step: Step): Option<Answer> {
    match step
    case CatchUpSkip => if s.pc.Receiving? && s.pc.pos < |s.log| then Some(Said(s.log[s.pc.pos])) else None
    case CatchUpOffer => if s.pc.Receiving? && s.pc.pos < |s.log| then Some(Said(s.log[s.pc.pos])) else None
    case CatchUpCompletes(h) => Some(Reported(h))
    case CatchUpFails(_) => Some(Ended)
    case LiveOffer(i) => if i < |s.log| then Some(Said(s.log[i])) else None
    case LiveEnds(_) => Some(Ended)
    case _ => None
  }

  /** The answers a run has taken up, in order. */
  ghost function Answers(cfg: Config, s: State, steps: seq<Step>): seq<Answer>
    requires ValidRun(cfg, s, steps)
    decreases |steps|
  {
    if steps == [] then [] else AsSeq(AnswerOf(s, steps[0])) + Answers(cfg, Apply(cfg, s, steps[0]), steps[1..])
  }

  lemma {:induction false} AnswersSnoc(cfg: Config, s: State, steps: seq<Step>, step: Step)
    requires ValidRun(cfg, s, steps) && Enabled(cfg, Run(cfg, s, steps), step) && ValidRun(cfg, s, steps + [step])
    ensures Answers(cfg, s, steps + [step])
            == Answers(cfg, s, steps) + AsSeq(AnswerOf(Run(cfg, s, steps), step))
    decreases |steps|
  {
    var all := steps + [step];
    if steps == [] {
      assert all[1..] == [];
    } else {
      var t := Apply(cfg, s, steps[0]);
      assert all[1..] == steps[1..] + [step];
      AnswersSnoc(cfg, t, steps[1..], step);
      Regroup(AsSeq(AnswerOf(s, steps[0])), Answers(cfg, t, steps[1..]), AsSeq(AnswerOf(Run(cfg, s, steps), step)));
    }
  }

  // ----- the reference -----

  /** What the answers so far amount to; `live` once a completion has been reported and its stream not ended. */
  datatype Ref = Ref(live: bool, cursor: nat, delivered: seq<MessageEvent>, saves: seq<nat>)

  /** A message the engine is to deliver: any on a live feed, those of the chosen chat in catch-up. */
  predicate Delivers(chat: string, live: bool, r: Record) {
    Mapped(r).Some? && (live || chat == "" || Mapped(r).value.ctx.chatGuid == chat)
  }

  function Follow(cfg: Config, r: Ref, a: Answer): Ref {
    match a
    case Ended => r.(live := false)
    case Reported(h) =>
      if h > r.cursor then r.(live := true, cursor := h, saves := r.saves + Issued(cfg, h)) else r.(live := true)
    case Said(record) =>
      if Delivers(cfg.chat, r.live, record) then
        var e := Mapped(record).value;
        Ref(r.live, e.sequence, r.delivered + [e], r.saves + Issued(cfg, e.sequence))
      else r
  }

  function FollowAll(cfg: Config, r: Ref, answers: seq<Answer>): Ref {
    if answers == [] then r else Follow(cfg, FollowAll(cfg, r, answers[..|answers| - 1]), answers[|answers| - 1])
  }

  lemma {:induction false} FollowSplit(cfg: Config, r: Ref, a: seq<Answer>, b: seq<Answer>)
    ensures FollowAll(cfg, r, a + b) == FollowAll(cfg, FollowAll(cfg, r, a), b)
    decreases |b|
  {
    if b == [] {
      Regroup(a, [], []);
    } else {
      var n := |b| - 1;
      assert (a + b)[..|a + b| - 1] == a + b[..n];
      FollowSplit(cfg, r, a, b[..n]);
    }
  }

  function Begin(start: nat): Ref {
    Ref(false, start, [], [])
  }

  // ----- the engine against it -----

  /** The engine's own account: what it has delivered, its cursor, and the Saves it has issued. */
  datatype Account = Account(cursor: nat, delivered: seq<MessageEvent>, saves: seq<nat>)

  predicate Agrees(a: Account, r: Ref) {
    a.cursor == r.cursor && a.delivered == r.delivered && a.saves == r.saves
  }

  /** The answers but the last. */
  function Earlier(answers: seq<Answer>): seq<Answer> {
    if answers == [] then [] else answers[..|answers| - 1]
  }

  predicate LastIs(answers: seq<Answer>, a: Answer) {
    answers != [] && answers[|answers| - 1] == a
  }

  predicate LastReported(answers: seq<Answer>) {
    answers != [] && answers[|answers| - 1].Reported?
  }

  /** The answer the engine stopped at was a record it never handed over. */
  predicate GivenUp(answers: seq<Answer>) {
    answers != [] && answers[|answers| - 1].Said?
  }

  /** Where the engine's account stands while it deals with record i: up to the hand-over, the cursor, the Save. */
  predicate Dealing(cfg: Config, log: seq<Record>, phase: Phase, i: nat, a: Account, start: nat, answers: seq<Answer>,
                    handed: bool, recorded: bool) {
    && i < |log| && LastIs(answers, Said(log[i]))
    && var before := FollowAll(cfg, Begin(start), Earlier(answers));
       && before.live == phase.Live? && Delivers(cfg.chat, before.live, log[i])
       && a.delivered == before.delivered + (if handed then [Mapped(log[i]).value] else [])
       && a.cursor == (if recorded then Mapped(log[i]).value.sequence else before.cursor)
       && a.saves == before.saves
  }

  predicate Follows(cfg: Config, log: seq<Record>, pc: Pc, a: Account, start: nat, answers: seq<Answer>) {
    var now := FollowAll(cfg, Begin(start), answers);
    match pc
    case Loading => answers == [] && a.delivered == [] && a.saves == []
    case ReportingLoadError(_) => answers == [] && a.delivered == [] && a.saves == []
    case Top => Agrees(a, now) && !now.live && !GivenUp(answers)
    case Receiving(phase, _) => Agrees(a, now) && now.live == phase.Live?
    case Sending(phase, i) => Dealing(cfg, log, phase, i, a, start, answers, false, false)
    case Handed(phase, i) => Dealing(cfg, log, phase, i, a, start, answers, true, false)
    case Recording(phase, i) => Dealing(cfg, log, phase, i, a, start, answers, true, true)
    case HeadRecording =>
      && now.live && LastIs(answers, Reported(a.cursor))
      && a.cursor == now.cursor && a.delivered == now.delivered && a.saves + Issued(cfg, a.cursor) == now.saves
    case Completed => Agrees(a, now) && now.live && LastReported(answers)
    case Sleeping => Agrees(a, now) && !now.live && LastIs(answers, Ended)
    case Stopped(why) =>
      if why.LoadError? then answers == [] && a.delivered == [] && a.saves == []
      else if GivenUp(answers) then Agrees(a, FollowAll(cfg, Begin(start), Earlier(answers)))
      else Agrees(a, now)
  }

  function AccountOf(s: State): Account {
    Account(s.cursor, s.delivered, s.saves)
  }

  ghost predicate FollowsState(cfg: Config, s: State, answers: seq<Answer>) {
    Follows(cfg, s.log, s.pc, AccountOf(s), s.start, answers)
  }

  /** Taking an answer up: the reference takes its one step. */
  lemma {:induction false} TakenUp(cfg: Config, start: nat, answers: seq<Answer>, a: Answer)
    ensures var longer := answers + [a];
            && LastIs(longer, a) && Earlier(longer) == answers
            && FollowAll(cfg, Begin(start), longer) == Follow(cfg, FollowAll(cfg, Begin(start), answers), a)
  {
    assert (answers + [a])[..|answers|] == answers;
  }

  lemma {:induction false} FollowsOutside(cfg: Config, s: State, step: Step, answers: seq<Answer>)
    requires FollowsState(cfg, s, answers) && Enabled(cfg, s, step) && Outside(step) && !step.Crash?
    ensures FollowsState(cfg, Apply(cfg, s, step), answers)
  {
    if step.Append? {
      assert forall i :: 0 <= i < |s.log| ==> (s.log + [step.record])[i] == s.log[i];
    }
  }

  /** The steps that take up an answer of a stream. */
  predicate OnAnswer(step: Step) {
    || step.CatchUpSkip? || step.CatchUpOffer? || step.CatchUpCompletes? || step.CatchUpFails?
    || step.LiveOffer? || step.LiveEnds?
  }

  lemma {:induction false} FollowsSkip(cfg: Config, s: State, answers: seq<Answer>)
    requires FollowsState(cfg, s, answers) && Enabled(cfg, s, CatchUpSkip)
    ensures FollowsState(cfg, Apply(cfg, s, CatchUpSkip), answers + [Said(s.log[s.pc.pos])])
  {
    TakenUp(cfg, s.start, answers, Said(s.log[s.pc.pos]));
  }

  lemma {:induction false} FollowsOffer(cfg: Config, s: State, step: Step, i: nat, answers: seq<Answer>)
    requires FollowsState(cfg, s, answers) && Enabled(cfg, s, step)
    requires (step.CatchUpOffer? && i == s.pc.pos) || step == LiveOffer(i)
    ensures FollowsState(cfg, Apply(cfg, s, step), answers + [Said(s.log[i])])
  {
    TakenUp(cfg, s.start, answers, Said(s.log[i]));
  }

  lemma {:induction false} FollowsEnd(cfg: Config, s: State, step: Step, a: Answer, answers: seq<Answer>)
    requires FollowsState(cfg, s, answers) && Enabled(cfg, s, step) && AnswerOf(s, step) == Some(a)
    requires step.CatchUpCompletes? || step.CatchUpFails? || step.LiveEnds?
    ensures FollowsState(cfg, Apply(cfg, s, step), answers + [a])
  {
    TakenUp(cfg, s.start, answers, a);
  }

  lemma {:induction false} FollowsOnAnswer(cfg: Config, s: State, step: Step, answers: seq<Answer>)
    requires FollowsState(cfg, s, answers) && Enabled(cfg, s, step) && OnAnswer(step)
    ensures AnswerOf(s, step).Some?
    ensures FollowsState(cfg, Apply(cfg, s, step), answers + [AnswerOf(s, step).value])
  {
    if step.CatchUpSkip? {
      FollowsSkip(cfg, s, answers);
    } else if step.CatchUpOffer? {
      FollowsOffer(cfg, s, step, s.pc.pos, answers);
    } else if step.LiveOffer? {
      FollowsOffer(cfg, s, step, step.i, answers);
    } else {
      FollowsEnd(cfg, s, step, AnswerOf(s, step).value, answers);
    }
  }

  lemma {:induction false} DealtWith(cfg: Config, start: nat, answers: seq<Answer>)
    requires answers != []
    ensures FollowAll(cfg, Begin(start), answers)
            == Follow(cfg, FollowAll(cfg, Begin(start), Earlier(answers)), answers[|answers| - 1])
  {
  }

  lemma {:induction false} FollowsElsewhere(cfg: Config, s: State, step: Step, answers: seq<Answer>)
    requires FollowsState(cfg, s, answers) && Ranged(s) && Enabled(cfg, s, step)
    requires !Outside(step) && !OnAnswer(step)
    ensures FollowsState(cfg, Apply(cfg, s, step), answers)
  {
    if answers != [] {
      DealtWith(cfg, s.start, answers);
    }
    match step
    case AssignCursor => MappedSequence(s.log[s.pc.i]);
    case _ =>
  }

  lemma {:induction false} FollowsStep(cfg: Config, s: State, step: Step, answers: seq<Answer>)
    requires FollowsState(cfg, s, answers) && Ranged(s) && Enabled(cfg, s, step) && !step.Crash?
    ensures FollowsState(cfg, Apply(cfg, s, step), answers + AsSeq(AnswerOf(s, step)))
  {
    if OnAnswer(step) {
      FollowsOnAnswer(cfg, s, step, answers);
    } else {
      Regroup(answers, [], []);
      if Outside(step) {
        FollowsOutside(cfg, s, step, answers);
      } else {
        FollowsElsewhere(cfg, s, step, answers);
      }
    }
  }

  lemma {:induction false} PastGrows(cfg: Config, s: State, steps: seq<Step>)
    requires ValidRun(cfg, s, steps)
    ensures |s.past| <= |Run(cfg, s, steps).past|
    decreases |steps|
  {
    if steps != [] {
      PastGrows(cfg, Apply(cfg, s, steps[0]), steps[1..]);
    }
  }

  lemma {:induction false} FollowsRun(cfg: Config, s: State, steps: seq<Step>, answers: seq<Answer>)
    requires Bounded(cfg, s) && FollowsState(cfg, s, answers) && ValidRun(cfg, s, steps)
    requires |Run(cfg, s, steps).past| == |s.past|
    ensures FollowsState(cfg, Run(cfg, s, steps), answers + Answers(cfg, s, steps))
    decreases |steps|
  {
    if steps == [] {
      Regroup(answers, [], []);
    } else {
      var t := Apply(cfg, s, steps[0]);
      PastGrows(cfg, t, steps[1..]);
      BoundedStep(cfg, s, steps[0]);
      FollowsStep(cfg, s, steps[0], answers);
      FollowsRun(cfg, t, steps[1..], answers + AsSeq(AnswerOf(s, steps[0])));
      Regroup(answers, AsSeq(AnswerOf(s, steps[0])), Answers(cfg, t, steps[1..]));
    }
  }

  /**
   The engine refines the reference: along every run of one process, whatever the server, the consumer
   and the surrounding program do in between, its deliveries, cursor and Saves are those the reference
   derives from what the streams said.
   */
  lemma {:induction false} EngineFollows(cfg: Config, s: State, steps: seq<Step>)
    requires Init(cfg, s) && ValidRun(cfg, s, steps) && Run(cfg, s, steps).past == []
    ensures FollowsState(cfg, Run(cfg, s, steps), Answers(cfg, s, steps))
  {
    InitKept(cfg, s);
    FollowsRun(cfg, s, steps, []);
    Regroup([], [], Answers(cfg, s, steps));
  }

  // ----- one loop over a stream -----

  /**
   The account has moved by what the reference makes of what was said, but for the last of it if that
   was given up.
   */
  predicate Moved(cfg: Config, before: Ref, now: Account, said: seq<Answer>, stopped: bool) {
    Agrees(now, FollowAll(cfg, before, if stopped then Earlier(said) else said))
  }

  /** A stream was listened to until it said something other than a record, or until a record was given up. */
  predicate HeardOut(said: seq<Answer>, stopped: bool) {
    && said != [] && (forall k :: 0 <= k < |said| - 1 ==> said[k].Said?)
    && (stopped <==> said[|said| - 1].Said?)
  }

  // ----- the sleeps between connections -----

  /** The streams lost since a catch-up last completed. */
  function Losses(answers: seq<Answer>): nat {
    if answers == [] then 0
    else
      match answers[|answers| - 1]
      case Said(_) => Losses(Earlier(answers))
      case Reported(_) => 0
      case Ended => Losses(Earlier(answers)) + 1
  }

  /** The timers the answers call for: one for each lost stream, the longer the more were lost in a row. */
  function Naps(cfg: Config, answers: seq<Answer>): seq<int> {
    if answers == [] then []
    else
      var earlier := Earlier(answers);
      Naps(cfg, earlier) + (if LastIs(answers, Ended) then [NapAfter(cfg, earlier)] else [])
  }

  function NapAfter(cfg: Config, answers: seq<Answer>): int {
    Backoff.Sleep(cfg.minBackoff, cfg.maxBackoff, Losses(answers))
  }

  /** With sane bounds each is the promised doubling of the minimum, and the first after a completion the minimum. */
  lemma {:induction false} NapIsDoubling(cfg: Config, answers: seq<Answer>)
    requires 0 < cfg.minBackoff <= cfg.maxBackoff < TWO_62
    ensures Naps(cfg, answers + [Ended])
            == Naps(cfg, answers) + [Min(cfg.minBackoff * Pow2(Losses(answers)), cfg.maxBackoff)]
    ensures LastReported(answers) ==>
              Naps(cfg, answers + [Ended]) == Naps(cfg, answers) + [cfg.minBackoff]
  {
    assert Earlier(answers + [Ended]) == answers;
    Backoff.SleepIsDoubling(cfg.minBackoff, cfg.maxBackoff, Losses(answers));
  }

  lemma {:induction false} NapsOverRead(cfg: Config, before: seq<Answer>, now: seq<Answer>)
    requires before <= now && |before| < |now| && forall k :: |before| <= k < |now| - 1 ==> now[k].Said?
    ensures Naps(cfg, Earlier(now)) == Naps(cfg, before) && Losses(Earlier(now)) == Losses(before)
    decreases |now|
  {
    if |before| == |now| - 1 {
      assert Earlier(now) == before;
    } else {
      NapsOverRead(cfg, before, Earlier(now));
      Regroup(Naps(cfg, before), [], []);
    }
  }

  /** What one connection calls for: a nap when it was lost, no more when the engine stopped. */
  predicate Rested(cfg: Config, before: seq<Answer>, now: seq<Answer>, sleeps: nat, sleeping: bool) {
    if sleeping then
      && Naps(cfg, now) == Naps(cfg, before) + [Backoff.Sleep(cfg.minBackoff, cfg.maxBackoff, sleeps)]
      && Losses(now) == sleeps + 1
    else Naps(cfg, before) == Naps(cfg, if LastIs(now, Ended) then Earlier(now) else now)
  }

  /** What one stream calls for, whether the engine then sleeps, as it may once the stream was lost, or stops. */
  lemma {:induction false} RestsAfterRead(cfg: Config, before: seq<Answer>, now: seq<Answer>, stopped: bool)
    requires before <= now && HeardOut(now[|before|..], stopped)
    ensures Rested(cfg, before, now, Losses(before), false)
    ensures LastIs(now, Ended) ==> Rested(cfg, before, now, Losses(before), true)
    ensures LastReported(now) ==> Naps(cfg, now) == Naps(cfg, before)
    ensures LastReported(before) ==> Losses(before) == 0
  {
    var said := now[|before|..];
    assert forall k :: |before| <= k < |now| ==> now[k] == said[k - |before|];
    NapsOverRead(cfg, before, now);
    Regroup(Naps(cfg, before), [], []);
  }

  /** What was said since an earlier point, added to the reference at that point. */
  lemma {:induction false} SaidSince(cfg: Config, start: nat, before: seq<Answer>, now: seq<Answer>)
    requires before <= now && |before| < |now|
    ensures var said := now[|before|..];
            && FollowAll(cfg, Begin(start), now) == FollowAll(cfg, FollowAll(cfg, Begin(start), before), said)
            && FollowAll(cfg, Begin(start), Earlier(now))
               == FollowAll(cfg, FollowAll(cfg, Begin(start), before), Earlier(said))
  {
    var said := now[|before|..];
    assert now == before + said && Earlier(now) == before + Earlier(said);
    FollowSplit(cfg, Begin(start), before, said);
    FollowSplit(cfg, Begin(start), before, Earlier(said));
  }

  /** What a loop over a stream leaves; `ended` when the engine has yet to take up the stream's end. */
  lemma {:induction false} MovedSince(cfg: Config, log: seq<Record>, pc: Pc, a: Account, start: nat,
                                      before: seq<Answer>,
                   now: seq<Answer>, ended: bool)
    requires before <= now && |before| < |now|
    requires Follows(cfg, log, pc, a, start, if ended then Earlier(now) else now)
    requires if ended then pc.Receiving? && LastIs(now, Ended)
             else pc.Completed? || (pc == Stopped(Cancelled) && GivenUp(now))
    ensures Moved(cfg, FollowAll(cfg, Begin(start), before), a, now[|before|..], pc.Stopped?)
  {
    SaidSince(cfg, start, before, now);
    if ended {
      DealtWith(cfg, start, now);
    }
  }
}
