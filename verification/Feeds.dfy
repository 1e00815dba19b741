/**
 The streams tied back to the server's log. What a server may send on one stream is stated over the
 frames: the records from the cursor it was asked with (A1) or from the one the engine has reached (A2),
 in order, with any frames in between that the mapper drops, cut off anywhere. Over any number of such
 streams in a row, the user's loop sees a prefix of the log's relevant events, each once.
 */
module Feeds {
  import opened Prelude
  import opened Events
  import opened EventLog
  import R = Resumable
  import opened Pipeline
  import opened PipelineSafety

  // ----- what a server may send -----

  /** The frame that carries a log record on a stream. */
  function Carrier(kind: Kind, r: Record): Frame {
    match kind
    case CatchUpStream => Replayed(r)
    case LiveStream => Streamed(LiveFrameOf(r))
  }

  /** A heartbeat, or anything else the mapper drops. */
  predicate Noise(f: Frame) {
    MapFrame(f).Drop?
  }

  /**
   The frames carry log positions p to q: every relevant record in order, irrelevant ones or not (on a
   live feed, which has no filter of its own in the engine, not), and noise anywhere.
   */
  ghost predicate Carries(kind: Kind, log: seq<Record>, chat: string, p: nat, q: nat, frames: seq<Frame>)
    requires p <= q <= |log|
    decreases |frames| + q - p
  {
    || (frames == [] && p == q)
    || (p < q && !Relevant(log[q - 1], chat) && Carries(kind, log, chat, p, q - 1, frames))
    || (frames != [] &&
        var f, before := frames[|frames| - 1], frames[..|frames| - 1];
        || (Noise(f) && Carries(kind, log, chat, p, q, before))
        || (p < q && f == Carrier(kind, log[q - 1]) && (kind.LiveStream? ==> Relevant(log[q - 1], chat))
            && Carries(kind, log, chat, p, q - 1, before)))
  }

  /** The frame reports an honest head for a replay that has come to log position q. */
  predicate Completes(log: seq<Record>, head: nat, q: nat, f: Frame) {
    f.Replayed? && f.frame.payload.Complete? && R.CompletionHonest(log, head, q, f.frame.payload.headSequence)
  }

  /** A stream from the first record past the cursor to position q; a catch-up may end by completing there. */
  ghost predicate FedTo(kind: Kind, log: seq<Record>, head: nat, chat: string, cursor: nat, q: nat, frames: seq<Frame>)
    requires FirstAfter(log, cursor) <= q <= |log|
  {
    || Carries(kind, log, chat, FirstAfter(log, cursor), q, frames)
    || (kind.CatchUpStream? && frames != [] && Completes(log, head, q, frames[|frames| - 1])
        && Carries(kind, log, chat, FirstAfter(log, cursor), q, frames[..|frames| - 1]))
  }

  ghost predicate Fed(kind: Kind, log: seq<Record>, head: nat, chat: string, cursor: nat, frames: seq<Frame>) {
    exists q: nat :: FirstAfter(log, cursor) <= q <= |log| && FedTo(kind, log, head, chat, cursor, q, frames)
  }

  // ----- the cursor the engine derives from the items it is given -----

  /** The engine's assignments to the cursor over the items of one stream (resumable.go:156-175, 192-200). */
  function CursorAfter(kind: Kind, chat: string, c: nat, items: seq<CatchUpEvent>): nat {
    if items == [] then c
    else
      var before := CursorAfter(kind, chat, c, items[..|items| - 1]);
      var item := items[|items| - 1];
      match item
      case FromMessage(e) => if Pick(kind, chat, item) != [] && e.sequence > 0 then e.sequence else before
      case CatchupComplete(h) => if kind.CatchUpStream? && h > before then h else before
      case FromFamily(_, _, _, _) => before
  }

  /** The cursor after a sequence of streams. */
  function CursorPast(chat: string, start: nat, past: seq<Ended>): nat {
    if past == [] then start
    else
      var last := past[|past| - 1];
      CursorAfter(last.kind, chat, CursorPast(chat, start, past[..|past| - 1]), last.items)
  }

  /** Every stream carries the log from the cursor the ones before it left. */
  ghost predicate FedPast(log: seq<Record>, head: nat, chat: string, start: nat, past: seq<Ended>) {
    past == [] ||
    var before, last := past[..|past| - 1], past[|past| - 1];
    FedPast(log, head, chat, start, before)
    && Fed(last.kind, log, head, chat, CursorPast(chat, start, before), last.frames)
  }

  // ----- what the frames promise -----

  /** The events of positions p to q that a consumer of one chat is owed. */
  function Owed(log: seq<Record>, chat: string, p: nat, q: nat): seq<MessageEvent>
    requires p <= q <= |log|
  {
    if p == q then []
    else Owed(log, chat, p, q - 1) + if Relevant(log[q - 1], chat) then [Mapped(log[q - 1]).value] else []
  }

  lemma {:induction false} MapNeverFails(f: Frame)
    ensures !MapFrame(f).Fail?
  {
  }

  lemma {:induction false} EmittedOneMore(frames: seq<Frame>, f: Frame)
    ensures S.Emitted(MapFrame, frames + [f])
            == S.Emitted(MapFrame, frames) + (match MapFrame(f) case Emit(v) => [v] case _ => [])
  {
    forall i | 0 <= i < |frames|
      ensures !MapFrame(frames[i]).Fail?
    {
      MapNeverFails(frames[i]);
    }
    S.EmittedSnoc(MapFrame, frames, f);
  }

  /** Adding one frame adds the filtered value of that frame. */
  lemma {:induction false} PromisedSnoc(kind: Kind, chat: string, frames: seq<Frame>, f: Frame)
    requires NoStop(kind, S.Emitted(MapFrame, frames))
    ensures Promised(kind, chat, frames + [f])
            == Promised(kind, chat, frames) + (match MapFrame(f) case Emit(v) => Pick(kind, chat, v) case _ => [])
    ensures (MapFrame(f).Emit? ==> !Stops(kind, MapFrame(f).value)) ==> NoStop(kind, S.Emitted(MapFrame, frames + [f]))
  {
    EmittedOneMore(frames, f);
    var before := S.Emitted(MapFrame, frames);
    if MapFrame(f).Emit? {
      WantedSnoc(kind, chat, before, MapFrame(f).value);
    } else {
      Regroup(before, [], []);
      Regroup(Promised(kind, chat, frames), [], []);
    }
  }

  /** What the frame of a record comes to after mapper and filter. */
  lemma {:induction false} CarrierPicked(kind: Kind, r: Record, chat: string)
    requires !r.payload.Complete? && (kind.LiveStream? ==> Relevant(r, chat))
    ensures (match MapFrame(Carrier(kind, r)) case Emit(v) => Pick(kind, chat, v) case _ => [])
            == if Relevant(r, chat) then [Mapped(r).value] else []
    ensures MapFrame(Carrier(kind, r)).Emit? ==> !Stops(kind, MapFrame(Carrier(kind, r)).value)
  {
    MappersAgree(r);
  }

  lemma {:induction false} NoiseStays(kind: Kind, chat: string, before: seq<Frame>, f: Frame)
    requires Noise(f) && NoStop(kind, S.Emitted(MapFrame, before))
    ensures Promised(kind, chat, before + [f]) == Promised(kind, chat, before)
    ensures NoStop(kind, S.Emitted(MapFrame, before + [f]))
  {
    PromisedSnoc(kind, chat, before, f);
    Regroup(Promised(kind, chat, before), [], []);
  }

  /** The frames of a stretch of the log promise exactly what that stretch owes, on either kind of stream. */
  lemma {:induction false} CarriesPromises(kind: Kind, log: seq<Record>, head: nat, chat: string, p: nat, q: nat,
                                           frames: seq<Frame>)
    requires LogOk(log, head) && p <= q <= |log| && Carries(kind, log, chat, p, q, frames)
    ensures Promised(kind, chat, frames) == Owed(log, chat, p, q)
    ensures NoStop(kind, S.Emitted(MapFrame, frames))
    decreases |frames| + q - p
  {
    if frames == [] && p == q {
    } else if p < q && !Relevant(log[q - 1], chat) && Carries(kind, log, chat, p, q - 1, frames) {
      CarriesPromises(kind, log, head, chat, p, q - 1, frames);
      Regroup(Owed(log, chat, p, q - 1), [], []);
    } else {
      var f, before := frames[|frames| - 1], frames[..|frames| - 1];
      assert frames == before + [f];
      if Noise(f) && Carries(kind, log, chat, p, q, before) {
        CarriesPromises(kind, log, head, chat, p, q, before);
        NoiseStays(kind, chat, before, f);
      } else {
        CarriesPromises(kind, log, head, chat, p, q - 1, before);
        CarrierPicked(kind, log[q - 1], chat);
        PromisedSnoc(kind, chat, before, f);
      }
    }
  }

  // ----- what the log owes, by cursor -----

  lemma {:induction false} OwedIsBetween(log: seq<Record>, head: nat, chat: string, lo: nat, p: nat, q: nat, hi: nat)
    requires LogOk(log, head) && p <= q <= |log|
    requires forall i :: 0 <= i < p ==> log[i].seqno <= lo
    requires forall i :: p <= i < q ==> lo < log[i].seqno <= hi
    ensures Between(log[..q], chat, lo, hi) == Owed(log, chat, p, q)
  {
    if p == q {
      BetweenNothing(log[..q], chat, lo, hi);
    } else {
      OwedIsBetween(log, head, chat, lo, p, q - 1, hi);
      assert log[..q][..q - 1] == log[..q - 1];
    }
  }

  /** Records past a range add nothing to it. */
  lemma {:induction false} BetweenBeyond(log: seq<Record>, chat: string, lo: nat, hi: nat, q: nat)
    requires q <= |log| && forall j :: q <= j < |log| ==> log[j].seqno > hi
    ensures Between(log, chat, lo, hi) == Between(log[..q], chat, lo, hi)
  {
    if q == |log| {
      assert log[..q] == log;
    } else {
      var init := log[..|log| - 1];
      BetweenBeyond(init, chat, lo, hi, q);
      assert init[..q] == log[..q];
    }
  }

  /** The sequence of the last event, or the cursor when there is none. */
  function LastOr(events: seq<MessageEvent>, c: nat): nat {
    if events == [] then c else events[|events| - 1].sequence
  }

  /** The events owed from a cursor on are the log's between the cursor and the last of them. */
  lemma {:induction false} OwedUpToLast(log: seq<Record>, head: nat, chat: string, c: nat, q: nat)
    requires LogOk(log, head) && c <= head && FirstAfter(log, c) <= q <= |log|
    ensures var owed := Owed(log, chat, FirstAfter(log, c), q);
            c <= LastOr(owed, c) <= head && Between(log, chat, c, LastOr(owed, c)) == owed
    decreases q
  {
    var p := FirstAfter(log, c);
    if p == q {
      BetweenNothing(log, chat, c, c);
    } else if Relevant(log[q - 1], chat) {
      MappedSequence(log[q - 1]);
      var hi := log[q - 1].seqno;
      OwedIsBetween(log, head, chat, c, p, q, hi);
      BetweenBeyond(log, chat, c, hi, q);
    } else {
      OwedUpToLast(log, head, chat, c, q - 1);
      Regroup(Owed(log, chat, p, q - 1), [], []);
    }
  }

  /** No relevant record of the stretch lies past the last event owed. */
  lemma {:induction false} OwedCoversStretch(log: seq<Record>, head: nat, chat: string, c: nat, p: nat, q: nat, j: nat)
    requires LogOk(log, head) && p <= j < q <= |log| && Relevant(log[j], chat)
    ensures log[j].seqno <= LastOr(Owed(log, chat, p, q), c)
    decreases q
  {
    if Relevant(log[q - 1], chat) {
      MappedSequence(log[q - 1]);
    } else {
      OwedCoversStretch(log, head, chat, c, p, q - 1, j);
      Regroup(Owed(log, chat, p, q - 1), [], []);
    }
  }

  lemma {:induction false} OwedPositive(log: seq<Record>, head: nat, chat: string, p: nat, q: nat)
    requires LogOk(log, head) && p <= q <= |log|
    ensures forall k :: 0 <= k < |Owed(log, chat, p, q)| ==> Owed(log, chat, p, q)[k].sequence > 0
  {
    if p < q {
      OwedPositive(log, head, chat, p, q - 1);
      MappedSequence(log[q - 1]);
    }
  }

  /** Nothing is owed between the last event of a completed stretch and the head it reports. */
  lemma {:induction false} CompletionOwesNothing(log: seq<Record>, head: nat, chat: string, c: nat, q: nat, h: nat)
    requires LogOk(log, head) && c <= head && FirstAfter(log, c) <= q <= |log| && R.CompletionHonest(log, head, q, h)
    ensures var owed := Owed(log, chat, FirstAfter(log, c), q);
            h > LastOr(owed, c) ==> Between(log, chat, c, h) == owed
  {
    var p := FirstAfter(log, c);
    var owed := Owed(log, chat, p, q);
    var m := LastOr(owed, c);
    OwedUpToLast(log, head, chat, c, q);
    if h > m {
      forall j | 0 <= j < |log| && m < log[j].seqno <= h
        ensures !Relevant(log[j], chat)
      {
        if Relevant(log[j], chat) && p <= j < q {
          OwedCoversStretch(log, head, chat, c, p, q, j);
        }
      }
      BetweenNothing(log, chat, m, h);
      BetweenSplit(log, head, chat, c, m, h);
      Regroup(owed, [], []);
    }
  }

  // ----- one stream -----

  /** Until a completion the cursor is the last event delivered. */
  lemma {:induction false} CursorIsLast(kind: Kind, chat: string, c: nat, items: seq<CatchUpEvent>)
    requires NoStop(kind, items)
    requires forall k :: 0 <= k < |Wanted(kind, chat, items)| ==> Wanted(kind, chat, items)[k].sequence > 0
    ensures CursorAfter(kind, chat, c, items) == LastOr(Wanted(kind, chat, items), c)
  {
    if items != [] {
      var before, item := items[..|items| - 1], items[|items| - 1];
      assert items == before + [item];
      WantedSnoc(kind, chat, before, item);
      var (some, all) := (Wanted(kind, chat, before), Wanted(kind, chat, items));
      assert forall k :: 0 <= k < |some| ==> some[k] == all[k];
      CursorIsLast(kind, chat, c, before);
      if Pick(kind, chat, item) == [] {
        Regroup(Wanted(kind, chat, before), [], []);
      } else {
        assert item.FromMessage? && Pick(kind, chat, item) == [item.event];
        assert Wanted(kind, chat, items)[|Wanted(kind, chat, before)|] == item.event;
      }
    }
  }

  /** The stream's account: from cursor to cursor it promises the log's relevant events in between. */
  ghost predicate Accounted(kind: Kind, log: seq<Record>, head: nat, chat: string, c: nat,
                            frames: seq<Frame>, items: seq<CatchUpEvent>) {
    var after := CursorAfter(kind, chat, c, items);
    c <= after <= head && Promised(kind, chat, frames) == Between(log, chat, c, after)
  }

  /** While the engine has not been given a completion. */
  lemma {:induction false} AccountBefore(kind: Kind, log: seq<Record>, head: nat, chat: string, c: nat, q: nat,
                      frames: seq<Frame>, items: seq<CatchUpEvent>)
    requires LogOk(log, head) && c <= head && FirstAfter(log, c) <= q <= |log| && NoStop(kind, items)
    requires Wanted(kind, chat, items) == Promised(kind, chat, frames) == Owed(log, chat, FirstAfter(log, c), q)
    ensures Accounted(kind, log, head, chat, c, frames, items)
  {
    OwedPositive(log, head, chat, FirstAfter(log, c), q);
    OwedUpToLast(log, head, chat, c, q);
    CursorIsLast(kind, chat, c, items);
  }

  /** When it has. */
  lemma {:induction false} AccountAfter(log: seq<Record>, head: nat, chat: string, c: nat, q: nat, h: nat,
                     frames: seq<Frame>, items: seq<CatchUpEvent>, body: seq<CatchUpEvent>)
    requires LogOk(log, head) && c <= head && FirstAfter(log, c) <= q <= |log| && R.CompletionHonest(log, head, q, h)
    requires NoStop(CatchUpStream, body) && items == body + [CatchupComplete(h)]
    requires var owed := Owed(log, chat, FirstAfter(log, c), q);
             Wanted(CatchUpStream, chat, body) == Promised(CatchUpStream, chat, frames) == owed
    ensures Accounted(CatchUpStream, log, head, chat, c, frames, items)
  {
    OwedPositive(log, head, chat, FirstAfter(log, c), q);
    OwedUpToLast(log, head, chat, c, q);
    CursorIsLast(CatchUpStream, chat, c, body);
    CompletionOwesNothing(log, head, chat, c, q, h);
    assert items[..|items| - 1] == body;
  }

  /** What a stream that may complete promises and emits. */
  lemma {:induction false} CompletedPromises(log: seq<Record>, head: nat, chat: string, c: nat, q: nat,
                                             frames: seq<Frame>)
    requires LogOk(log, head) && FirstAfter(log, c) <= q <= |log| && frames != []
    requires Completes(log, head, q, frames[|frames| - 1])
    requires Carries(CatchUpStream, log, chat, FirstAfter(log, c), q, frames[..|frames| - 1])
    ensures var body := S.Emitted(MapFrame, frames[..|frames| - 1]);
            && S.Emitted(MapFrame, frames) == body + [CatchupComplete(frames[|frames| - 1].frame.payload.headSequence)]
            && NoStop(CatchUpStream, body)
            && Wanted(CatchUpStream, chat, body) == Promised(CatchUpStream, chat, frames)
                 == Owed(log, chat, FirstAfter(log, c), q)
  {
    var f, before := frames[|frames| - 1], frames[..|frames| - 1];
    assert frames == before + [f];
    CarriesPromises(CatchUpStream, log, head, chat, FirstAfter(log, c), q, before);
    EmittedOneMore(before, f);
    PromisedSnoc(CatchUpStream, chat, before, f);
    Regroup(Promised(CatchUpStream, chat, before), [], []);
  }

  /** A part of a sequence with one more element is a part of the sequence, or all of it. */
  lemma {:induction false} PrefixOrWhole<T>(part: seq<T>, body: seq<T>, last: T)
    requires part <= body + [last]
    ensures part <= body || part == body + [last]
  {
    if |part| <= |body| {
      assert (body + [last])[..|part|] == body[..|part|];
    }
  }

  lemma {:induction false} NoStopPrefix(kind: Kind, part: seq<CatchUpEvent>, all: seq<CatchUpEvent>)
    requires part <= all && NoStop(kind, all)
    ensures NoStop(kind, part)
  {
  }

  /** A stream that gave the engine everything it owed accounts for the log from cursor to cursor. */
  lemma {:induction false} StreamAccounted(log: seq<Record>, head: nat, chat: string, c: nat, e: Ended)
    requires LogOk(log, head) && c <= head && Fed(e.kind, log, head, chat, c, e.frames)
    requires GaveAll(chat, e) && e.items <= S.Emitted(MapFrame, e.frames)
    ensures Accounted(e.kind, log, head, chat, c, e.frames, e.items)
  {
    var q: nat :| FirstAfter(log, c) <= q <= |log| && FedTo(e.kind, log, head, chat, c, q, e.frames);
    if Carries(e.kind, log, chat, FirstAfter(log, c), q, e.frames) {
      CarriesPromises(e.kind, log, head, chat, FirstAfter(log, c), q, e.frames);
      NoStopPrefix(e.kind, e.items, S.Emitted(MapFrame, e.frames));
      AccountBefore(e.kind, log, head, chat, c, q, e.frames, e.items);
    } else {
      CompletedPromises(log, head, chat, c, q, e.frames);
      var body := S.Emitted(MapFrame, e.frames[..|e.frames| - 1]);
      var h := e.frames[|e.frames| - 1].frame.payload.headSequence;
      PrefixOrWhole(e.items, body, CatchupComplete(h));
      if e.items <= body {
        NoStopPrefix(e.kind, e.items, body);
        AccountBefore(e.kind, log, head, chat, c, q, e.frames, e.items);
      } else {
        AccountAfter(log, head, chat, c, q, h, e.frames, e.items, body);
      }
    }
  }

  /** Whatever became of it, a stream promises a prefix of the log from its cursor on. */
  lemma {:induction false} StreamPromisesPrefix(kind: Kind, log: seq<Record>, head: nat, chat: string, c: nat,
                                                frames: seq<Frame>)
    requires LogOk(log, head) && c <= head && Fed(kind, log, head, chat, c, frames)
    ensures Promised(kind, chat, frames) <= Between(log, chat, c, head)
  {
    var q: nat :| FirstAfter(log, c) <= q <= |log| && FedTo(kind, log, head, chat, c, q, frames);
    if Carries(kind, log, chat, FirstAfter(log, c), q, frames) {
      CarriesPromises(kind, log, head, chat, FirstAfter(log, c), q, frames);
    } else {
      CompletedPromises(log, head, chat, c, q, frames);
    }
    var owed := Owed(log, chat, FirstAfter(log, c), q);
    OwedUpToLast(log, head, chat, c, q);
    BetweenSplit(log, head, chat, c, LastOr(owed, c), head);
  }

  // ----- any number of streams -----

  ghost predicate AllGave(chat: string, past: seq<Ended>) {
    forall k :: 0 <= k < |past| ==> GaveAll(chat, past[k]) && past[k].items <= S.Emitted(MapFrame, past[k].frames)
  }

  /** Streams that gave all they owed promise, one after the other, the log from the start to the cursor they leave. */
  lemma {:induction false} StreamsAccounted(log: seq<Record>, head: nat, chat: string, start: nat, past: seq<Ended>)
    requires LogOk(log, head) && start <= head && FedPast(log, head, chat, start, past) && AllGave(chat, past)
    ensures start <= CursorPast(chat, start, past) <= head
    ensures PromisedPast(chat, past) == Between(log, chat, start, CursorPast(chat, start, past))
  {
    if past == [] {
      BetweenNothing(log, chat, start, start);
    } else {
      var before, last := past[..|past| - 1], past[|past| - 1];
      assert forall k :: 0 <= k < |before| ==> before[k] == past[k];
      StreamsAccounted(log, head, chat, start, before);
      var c := CursorPast(chat, start, before);
      StreamAccounted(log, head, chat, c, last);
      BetweenSplit(log, head, chat, start, c, CursorPast(chat, start, past));
    }
  }

  /** With one more stream, whatever became of it, still a prefix of the log. */
  lemma {:induction false} OneMoreStream(log: seq<Record>, head: nat, chat: string, start: nat, past: seq<Ended>,
                      kind: Kind, frames: seq<Frame>)
    requires LogOk(log, head) && start <= head && FedPast(log, head, chat, start, past) && AllGave(chat, past)
    requires Fed(kind, log, head, chat, CursorPast(chat, start, past), frames)
    ensures PromisedPast(chat, past) + Promised(kind, chat, frames) <= Between(log, chat, start, head)
  {
    var c := CursorPast(chat, start, past);
    StreamsAccounted(log, head, chat, start, past);
    StreamPromisesPrefix(kind, log, head, chat, c, frames);
    BetweenSplit(log, head, chat, start, c, head);
    AppendPrefix(PromisedPast(chat, past), Promised(kind, chat, frames), Between(log, chat, c, head));
  }

  /** The streams of a state are fed from the log. */
  ghost predicate FedFrom(log: seq<Record>, head: nat, chat: string, start: nat, t: State) {
    && FedPast(log, head, chat, start, t.past)
    && (t.current.Some? ==>
          Fed(t.current.value.kind, log, head, chat, CursorPast(chat, start, t.past), t.current.value.sub.seen.frames))
  }

  lemma {:induction false} PromisedIsPrefix(log: seq<Record>, head: nat, chat: string, start: nat, t: State)
    requires LogOk(log, head) && start <= head && FedFrom(log, head, chat, start, t) && Good(chat, t)
    ensures PromisedAll(chat, t) <= Between(log, chat, start, head)
  {
    var past := t.past;
    if t.current.Some? {
      assert AllGave(chat, past);
      OneMoreStream(log, head, chat, start, past, t.current.value.kind, t.current.value.sub.seen.frames);
    } else if past != [] {
      var before, last := past[..|past| - 1], past[|past| - 1];
      assert forall k :: 0 <= k < |before| ==> before[k] == past[k];
      assert AllGave(chat, before);
      OneMoreStream(log, head, chat, start, before, last.kind, last.frames);
      Regroup(PromisedPast(chat, past), [], []);
    }
  }

  lemma {:induction false} PrefixTransitive<T>(a: seq<T>, b: seq<T>, c: seq<T>)
    requires a <= b && b <= c
    ensures a <= c
  {
    assert c[..|a|] == b[..|a|];
  }

  /**
   End to end: in every interleaving of the two stages, over any number of catch-up and live streams that
   are cut off anywhere, each fed from the log at the cursor the ones before it left, the user's loop has
   seen a prefix of the log's relevant events past the start, each once and in order. Between streams and
   before a cancellation it has seen all of them up to the cursor, but for the one in the engine's hand.
   */
  lemma {:induction false} UserSeesLog(log: seq<Record>, head: nat, chat: string, start: nat, s: State,
                                       steps: seq<Step>)
    requires Init(s) && ValidRun(chat, s, steps) && LogOk(log, head) && start <= head
    requires FedFrom(log, head, chat, start, Run(chat, s, steps))
    ensures Run(chat, s, steps).outer.seen.yielded <= Between(log, chat, start, head)
    ensures var t := Run(chat, s, steps);
            !t.outer.ctx.done && t.current.None? ==>
              t.outer.seen.yielded + S.InHand(t.outer.p.pump)
              == Between(log, chat, start, CursorPast(chat, start, t.past))
  {
    var t := Run(chat, s, steps);
    InitGood(chat, s);
    GoodRun(chat, s, steps);
    GoodSeesPrefix(chat, t);
    PromisedIsPrefix(log, head, chat, start, t);
    PrefixTransitive(t.outer.seen.yielded, PromisedAll(chat, t), Between(log, chat, start, head));
    if !t.outer.ctx.done && t.current.None? {
      assert AllGave(chat, t.past);
      StreamsAccounted(log, head, chat, start, t.past);
      Regroup(PromisedPast(chat, t.past), [], []);
      Regroup(t.outer.seen.yielded + S.InHand(t.outer.p.pump), [], []);
    }
  }
}
