/**
 The server's durable event log and the part of it a resumable message
 subscription owes its consumer.
 */
module EventLog {
  import opened Prelude
  import opened Events

  /** A log record is the catch-up frame that replays it. */
  type Record = CatchUpFrame

  /** What a stored record turns into for a message consumer, if anything. */
  function Mapped(r: Record): Option<MessageEvent> {
    match CatchUpEventFromProto<string>(r)
    case Emit(FromMessage(e)) => Some(e)
    case _ => None
  }

  /** A record owed to the consumer: a message event, of the chosen chat when one is chosen. */
  predicate Relevant(r: Record, chat: string) {
    Mapped(r).Some? && (chat == "" || MessageEventMeta(Mapped(r).value).0 == chat)
  }

  /** Sequences are positive, strictly increasing and at most the server's head. */
  ghost predicate LogOk(log: seq<Record>, head: nat) {
    && (forall i :: 0 <= i < |log| ==> 0 < log[i].seqno <= head && !log[i].payload.Complete?)
    && (forall i, j :: 0 <= i < j < |log| ==> log[i].seqno < log[j].seqno)
  }

  /** One record's part of a range. */
  function LastPart(r: Record, chat: string, lo: nat, hi: nat): seq<MessageEvent> {
    if lo < r.seqno <= hi && Relevant(r, chat) then [Mapped(r).value] else []
  }

  /** The relevant events with `lo < sequence <= hi`, in log order: the reference for exactly-once delivery. */
  function Between(log: seq<Record>, chat: string, lo: nat, hi: nat): seq<MessageEvent> {
    if log == [] then []
    else
      var last := log[|log| - 1];
      Between(log[..|log| - 1], chat, lo, hi)
      + LastPart(last, chat, lo, hi)
  }

  /** The first log position past a sequence. */
  function FirstAfter(log: seq<Record>, after: nat): (p: nat)
    ensures p <= |log|
    ensures p < |log| ==> log[p].seqno > after
    ensures forall i :: 0 <= i < p ==> log[i].seqno <= after
  {
    FirstAfterFrom(log, after, 0)
  }

  function FirstAfterFrom(log: seq<Record>, after: nat, from: nat): (p: nat)
    requires from <= |log|
    ensures from <= p <= |log|
    ensures p < |log| ==> log[p].seqno > after
    ensures forall i :: from <= i < p ==> log[i].seqno <= after
    decreases |log| - from
  {
    if from == |log| || log[from].seqno > after then from else FirstAfterFrom(log, after, from + 1)
  }

  lemma {:induction false} MappedSequence(r: Record)
    ensures Mapped(r).Some? ==> MessageEventMeta(Mapped(r).value).1 == r.seqno
  {
  }

  lemma {:induction false} BetweenNothing(log: seq<Record>, chat: string, lo: nat, hi: nat)
    requires forall i :: 0 <= i < |log| && lo < log[i].seqno <= hi ==> !Relevant(log[i], chat)
    ensures Between(log, chat, lo, hi) == []
  {
    if log == [] {
    } else {
      BetweenNothing(log[..|log| - 1], chat, lo, hi);
    }
  }

  lemma {:induction false} BetweenSplit(log: seq<Record>, head: nat, chat: string, lo: nat, mid: nat, hi: nat)
    requires LogOk(log, head) && lo <= mid <= hi
    ensures Between(log, chat, lo, hi) == Between(log, chat, lo, mid) + Between(log, chat, mid, hi)
  {
    if log == [] {
    } else {
      var init := log[..|log| - 1];
      var last := log[|log| - 1];
      BetweenSplit(init, head, chat, lo, mid, hi);
      var low, high := LastPart(last, chat, lo, mid), LastPart(last, chat, mid, hi);
      if last.seqno <= mid {
        BetweenNothing(init, chat, mid, hi);
      }
      SplitLast(Between(init, chat, lo, mid), Between(init, chat, mid, hi), low, high, LastPart(last, chat, lo, hi));
    }
  }

  /** The last part belongs to one side of the split; to the lower one only when nothing is above. */
  lemma {:induction false} SplitLast<T>(below: seq<T>, above: seq<T>, low: seq<T>, high: seq<T>, whole: seq<T>)
    requires (low == [] && high == whole) || (above == [] && high == [] && low == whole)
    ensures (below + above) + whole == (below + low) + (above + high)
  {
    if low == [] {
      Regroup(below, above, whole);
      Regroup(below, [], []);
    }
  }

  /** When one relevant record lies in a range, that range is that one event. */
  lemma {:induction false} BetweenOne(log: seq<Record>, head: nat, chat: string, lo: nat, i: nat)
    requires LogOk(log, head) && i < |log| && lo < log[i].seqno && Relevant(log[i], chat)
    requires forall j :: 0 <= j < i && lo < log[j].seqno ==> !Relevant(log[j], chat)
    ensures Between(log, chat, lo, log[i].seqno) == [Mapped(log[i]).value]
  {
    var init := log[..|log| - 1];
    if i == |log| - 1 {
      BetweenNothing(init, chat, lo, log[i].seqno);
    } else {
      BetweenOne(init, head, chat, lo, i);
    }
  }

  /** Every event of a range is a relevant record of that range. */
  lemma {:induction false} BetweenSound(log: seq<Record>, chat: string, lo: nat, hi: nat, k: nat)
    requires k < |Between(log, chat, lo, hi)|
    ensures var e := Between(log, chat, lo, hi)[k];
            exists i :: 0 <= i < |log| && lo < log[i].seqno <= hi && Relevant(log[i], chat) && Mapped(log[i]).value == e
  {
    var init := log[..|log| - 1];
    var before := Between(init, chat, lo, hi);
    if k < |before| {
      BetweenSound(init, chat, lo, hi, k);
      var i :| 0 <= i < |init| && lo < init[i].seqno <= hi && Relevant(init[i], chat)
            && Mapped(init[i]).value == before[k];
      assert log[i] == init[i];
    } else {
      assert Relevant(log[|log| - 1], chat);
    }
  }

  /** Every relevant record of a range is one of its events. */
  lemma {:induction false} BetweenComplete(log: seq<Record>, chat: string, lo: nat, hi: nat, i: nat)
    requires i < |log| && lo < log[i].seqno <= hi && Relevant(log[i], chat)
    ensures Mapped(log[i]).value in Between(log, chat, lo, hi)
  {
    if i < |log| - 1 {
      BetweenComplete(log[..|log| - 1], chat, lo, hi, i);
    }
  }

  /** The sequence numbers an event list carries. */
  ghost predicate Ascending(events: seq<MessageEvent>, lo: nat, hi: nat) {
    && (forall k :: 0 <= k < |events| ==> lo < events[k].sequence <= hi)
    && (forall j, k :: 0 <= j < k < |events| ==> events[j].sequence < events[k].sequence)
  }

  lemma {:induction false} AscendingSnoc(events: seq<MessageEvent>, e: MessageEvent, lo: nat, hi: nat)
    requires Ascending(events, lo, hi) && lo < e.sequence <= hi
    requires forall k :: 0 <= k < |events| ==> events[k].sequence < e.sequence
    ensures Ascending(events + [e], lo, hi)
  {
  }

  lemma {:induction false} BetweenAscending(log: seq<Record>, head: nat, chat: string, lo: nat, hi: nat)
    requires LogOk(log, head)
    ensures Ascending(Between(log, chat, lo, hi), lo, hi)
  {
    if log == [] {
    } else {
      var init := log[..|log| - 1];
      var last := log[|log| - 1];
      BetweenAscending(init, head, chat, lo, hi);
      var before := Between(init, chat, lo, hi);
      MappedSequence(last);
      forall k | 0 <= k < |before|
        ensures before[k].sequence < last.seqno
      {
        BetweenSound(init, chat, lo, hi, k);
        var i :| 0 <= i < |init| && lo < init[i].seqno <= hi && Relevant(init[i], chat)
              && Mapped(init[i]).value == before[k];
        MappedSequence(init[i]);
        assert log[i] == init[i];
      }
      if lo < last.seqno <= hi && Relevant(last, chat) {
        AscendingSnoc(before, Mapped(last).value, lo, hi);
      } else {
        Regroup(before, [], []);
      }
    }
  }
}
