/**
 The collections the client puts in a canonical order: applied reactions and placed stickers of a
 message (conv_message.go:188-245) and the votes of a poll (conv_poll.go:10-37). Field values other
 than the sort keys are carried through unchanged.
 */
module Canonical {
  import opened Prelude
  import opened Events
  import opened Ordering

  /** Nanoseconds since 1970 of Go's zero time, 1 January of year 1. */
  const ZERO_TIME := -62_135_596_800_000_000_000

  datatype Handle = Handle(address: string, service: string, country: string)

  datatype PbReaction = PbReaction(
    guid: string, reaction: Option<Reaction>, sender: Option<Handle>, isFromMe: bool, dateCreated: Option<int>,
    target: Option<int>)

  datatype AppliedReaction = AppliedReaction(
    guid: string, reaction: Reaction, sender: Option<Handle>, isFromMe: bool, dateCreated: int, target: Option<int>)

  datatype PbSticker = PbSticker(
    guid: string, sender: Option<Handle>, isFromMe: bool, dateCreated: Option<int>, sticker: Option<string>,
    placement: Option<Placement>, target: Option<int>)

  datatype PlacedSticker = PlacedSticker(
    guid: string, sender: Option<Handle>, isFromMe: bool, dateCreated: int, sticker: Option<string>,
    placement: Option<Placement>, target: Option<int>)

  datatype PbOption = PbOption(optionId: string, text: string, creatorHandle: string)

  datatype PollOption = PollOption(optionId: string, text: string, creatorHandle: string)

  datatype PbVote = PbVote(participant: Option<Handle>, optionId: string)

  datatype Vote = Vote(participant: Handle, optionId: string)

  datatype PbPoll = PbPoll(guid: string, chatGuid: string, title: string, options: seq<PbOption>, votes: seq<PbVote>)

  datatype Poll = Poll(guid: string, chatGuid: string, title: string, options: seq<PollOption>, votes: seq<Vote>)

  function ReactionFromProto(pb: PbReaction): AppliedReaction {
    AppliedReaction(pb.guid, pb.reaction.GetOr(Reaction("", "")), pb.sender, pb.isFromMe,
                    pb.dateCreated.GetOr(ZERO_TIME), pb.target)
  }

  function StickerFromProto(pb: PbSticker): PlacedSticker {
    PlacedSticker(pb.guid, pb.sender, pb.isFromMe, pb.dateCreated.GetOr(ZERO_TIME), pb.sticker, pb.placement, pb.target)
  }

  function OptionFromProto(pb: PbOption): PollOption {
    PollOption(pb.optionId, pb.text, pb.creatorHandle)
  }

  function VoteFromProto(pb: PbVote): Vote {
    Vote(pb.participant.GetOr(Handle("", "", "")), pb.optionId)
  }

  // ----- the conversions, read backwards -----

  function ReactionToProto(r: AppliedReaction): PbReaction {
    PbReaction(r.guid, Some(r.reaction), r.sender, r.isFromMe, Some(r.dateCreated), r.target)
  }

  function StickerToProto(s: PlacedSticker): PbSticker {
    PbSticker(s.guid, s.sender, s.isFromMe, Some(s.dateCreated), s.sticker, s.placement, s.target)
  }

  function VoteToProto(v: Vote): PbVote {
    PbVote(Some(v.participant), v.optionId)
  }

  function OptionToProto(o: PollOption): PbOption {
    PbOption(o.optionId, o.text, o.creatorHandle)
  }

  /** The conversions lose nothing but which of the optional fields were missing, and those take their zero values. */
  lemma {:induction false} ConversionsRoundTrip(r: PbReaction, s: PbSticker, v: PbVote, o: PbOption)
    ensures ReactionToProto(ReactionFromProto(r))
            == r.(reaction := if r.reaction.None? then Some(Reaction("", "")) else r.reaction,
                  dateCreated := if r.dateCreated.None? then Some(-62_135_596_800_000_000_000) else r.dateCreated)
    ensures StickerToProto(StickerFromProto(s))
            == s.(dateCreated := if s.dateCreated.None? then Some(-62_135_596_800_000_000_000) else s.dateCreated)
    ensures VoteToProto(VoteFromProto(v))
            == v.(participant := if v.participant.None? then Some(Handle("", "", "")) else v.participant)
    ensures OptionToProto(OptionFromProto(o)) == o
  {
  }

  // ----- the comparisons -----

  function Then(first: int, second: int): int {
    if first != 0 then first else second
  }

  /** Oldest first, then by GUID. */
  function CompareDated(aDate: int, aGuid: string, bDate: int, bGuid: string): int {
    Then(CompareInts(aDate, bDate), CompareStrings(aGuid, bGuid))
  }

  function CompareReactions(a: AppliedReaction, b: AppliedReaction): int {
    CompareDated(a.dateCreated, a.guid, b.dateCreated, b.guid)
  }

  function CompareStickers(a: PlacedSticker, b: PlacedSticker): int {
    CompareDated(a.dateCreated, a.guid, b.dateCreated, b.guid)
  }

  function CompareVotes(a: Vote, b: Vote): int {
    Then(CompareStrings(a.participant.address, b.participant.address), CompareStrings(a.optionId, b.optionId))
  }

  lemma {:induction false} DatedOrder(aDate: int, aGuid: string, bDate: int, bGuid: string, cDate: int, cGuid: string)
    ensures CompareDated(aDate, aGuid, bDate, bGuid) <= 0 <==> CompareDated(bDate, bGuid, aDate, aGuid) >= 0
    ensures CompareDated(aDate, aGuid, bDate, bGuid) == 0 <==> aDate == bDate && aGuid == bGuid
    ensures CompareDated(aDate, aGuid, bDate, bGuid) <= 0 && CompareDated(bDate, bGuid, cDate, cGuid) <= 0
            ==> CompareDated(aDate, aGuid, cDate, cGuid) <= 0
  {
    StringsFlip(aGuid, bGuid);
    if aDate == bDate == cDate && CompareStrings(aGuid, bGuid) <= 0 && CompareStrings(bGuid, cGuid) <= 0 {
      StringsTransitive(aGuid, bGuid, cGuid);
    }
  }

  lemma {:induction false} ReactionsPreorder()
    ensures TotalPreorder(CompareReactions)
  {
    forall a: AppliedReaction, b: AppliedReaction
      ensures Flips(CompareReactions, a, b)
    {
      DatedOrder(a.dateCreated, a.guid, b.dateCreated, b.guid, b.dateCreated, b.guid);
    }
    forall a: AppliedReaction, b: AppliedReaction, c: AppliedReaction
      ensures Chains(CompareReactions, a, b, c)
    {
      DatedOrder(a.dateCreated, a.guid, b.dateCreated, b.guid, c.dateCreated, c.guid);
    }
  }

  lemma {:induction false} StickersPreorder()
    ensures TotalPreorder(CompareStickers)
  {
    forall a: PlacedSticker, b: PlacedSticker
      ensures Flips(CompareStickers, a, b)
    {
      DatedOrder(a.dateCreated, a.guid, b.dateCreated, b.guid, b.dateCreated, b.guid);
    }
    forall a: PlacedSticker, b: PlacedSticker, c: PlacedSticker
      ensures Chains(CompareStickers, a, b, c)
    {
      DatedOrder(a.dateCreated, a.guid, b.dateCreated, b.guid, c.dateCreated, c.guid);
    }
  }

  lemma {:induction false} VotesPreorder()
    ensures TotalPreorder(CompareVotes)
  {
    forall a: Vote, b: Vote
      ensures Flips(CompareVotes, a, b)
    {
      StringsFlip(a.participant.address, b.participant.address);
      StringsFlip(a.optionId, b.optionId);
    }
    forall a: Vote, b: Vote, c: Vote
      ensures Chains(CompareVotes, a, b, c)
    {
      if CompareVotes(a, b) <= 0 && CompareVotes(b, c) <= 0 {
        VotesTransitive(a, b, c);
      }
    }
  }

  lemma {:induction false} VotesTransitive(a: Vote, b: Vote, c: Vote)
    requires CompareVotes(a, b) <= 0 && CompareVotes(b, c) <= 0
    ensures CompareVotes(a, c) <= 0
  {
    var (p, q, r) := (a.participant.address, b.participant.address, c.participant.address);
    StringsTransitive(p, q, r);
    if CompareStrings(p, r) == 0 {
      StringsFlip(p, q);
      StringsFlip(p, r);
      StringsTransitive(a.optionId, b.optionId, c.optionId);
    }
  }

  // ----- the conversions -----

  // ----- the documented orders, without the comparisons -----

  /** At most: lexicographically before, or the same. */
  ghost predicate UpTo(a: string, b: string) {
    a == b || Before(a, b)
  }

  /** First by date, oldest first, then by GUID. */
  ghost predicate OldestFirst(aDate: int, aGuid: string, bDate: int, bGuid: string) {
    aDate < bDate || (aDate == bDate && UpTo(aGuid, bGuid))
  }

  /** First by participant address, then by option. */
  ghost predicate ByAddress(a: Vote, b: Vote) {
    || Before(a.participant.address, b.participant.address)
    || (a.participant.address == b.participant.address && UpTo(a.optionId, b.optionId))
  }

  lemma {:induction false} DatedIsOldestFirst(aDate: int, aGuid: string, bDate: int, bGuid: string)
    ensures CompareDated(aDate, aGuid, bDate, bGuid) <= 0 <==> OldestFirst(aDate, aGuid, bDate, bGuid)
  {
    StringsAreOrdered(aGuid, bGuid);
    StringsFlip(aGuid, bGuid);
  }

  lemma {:induction false} VotesAreByAddress(a: Vote, b: Vote)
    ensures CompareVotes(a, b) <= 0 <==> ByAddress(a, b)
  {
    StringsAreOrdered(a.participant.address, b.participant.address);
    StringsFlip(a.participant.address, b.participant.address);
    StringsAreOrdered(a.optionId, b.optionId);
    StringsFlip(a.optionId, b.optionId);
  }

  ghost predicate ReactionsOldestFirst(out: seq<AppliedReaction>) {
    forall i, j :: 0 <= i < j < |out| ==> OldestFirst(out[i].dateCreated, out[i].guid, out[j].dateCreated, out[j].guid)
  }

  ghost predicate StickersOldestFirst(out: seq<PlacedSticker>) {
    forall i, j :: 0 <= i < j < |out| ==> OldestFirst(out[i].dateCreated, out[i].guid, out[j].dateCreated, out[j].guid)
  }

  ghost predicate VotesByAddress(out: seq<Vote>) {
    forall i, j :: 0 <= i < j < |out| ==> ByAddress(out[i], out[j])
  }

  /** appliedReactionsFromProto (conv_message.go:188-215). */
  method AppliedReactionsFromProto(pbs: seq<PbReaction>) returns (out: seq<AppliedReaction>)
    ensures ReactionsOldestFirst(out)
    ensures SortedImage(ReactionFromProto, CompareReactions, pbs, out)
  {
    out := [];
    for i := 0 to |pbs|
      invariant |out| == i
      invariant forall k :: 0 <= k < i ==> out[k] == ReactionFromProto(pbs[k])
    {
      out := out + [ReactionFromProto(pbs[i])];
    }
    assert out == Map(ReactionFromProto, pbs);
    ReactionsPreorder();
    out := SortSlice(out, CompareReactions);
    forall i, j | 0 <= i < j < |out|
      ensures OldestFirst(out[i].dateCreated, out[i].guid, out[j].dateCreated, out[j].guid)
    {
      assert CompareReactions(out[i], out[j]) <= 0;
      DatedIsOldestFirst(out[i].dateCreated, out[i].guid, out[j].dateCreated, out[j].guid);
    }
  }

  /** placedStickersFromProto (conv_message.go:217-245). */
  method PlacedStickersFromProto(pbs: seq<PbSticker>) returns (out: seq<PlacedSticker>)
    ensures StickersOldestFirst(out)
    ensures SortedImage(StickerFromProto, CompareStickers, pbs, out)
  {
    out := [];
    for i := 0 to |pbs|
      invariant |out| == i
      invariant forall k :: 0 <= k < i ==> out[k] == StickerFromProto(pbs[k])
    {
      out := out + [StickerFromProto(pbs[i])];
    }
    assert out == Map(StickerFromProto, pbs);
    StickersPreorder();
    out := SortSlice(out, CompareStickers);
    forall i, j | 0 <= i < j < |out|
      ensures OldestFirst(out[i].dateCreated, out[i].guid, out[j].dateCreated, out[j].guid)
    {
      assert CompareStickers(out[i], out[j]) <= 0;
      DatedIsOldestFirst(out[i].dateCreated, out[i].guid, out[j].dateCreated, out[j].guid);
    }
  }

  method VotesFromProto(pbs: seq<PbVote>) returns (out: seq<Vote>)
    ensures VotesByAddress(out)
    ensures SortedImage(VoteFromProto, CompareVotes, pbs, out)
  {
    out := [];
    for i := 0 to |pbs|
      invariant |out| == i
      invariant forall k :: 0 <= k < i ==> out[k] == VoteFromProto(pbs[k])
    {
      out := out + [VoteFromProto(pbs[i])];
    }
    assert out == Map(VoteFromProto, pbs);
    VotesPreorder();
    out := SortSlice(out, CompareVotes);
    forall i, j | 0 <= i < j < |out|
      ensures ByAddress(out[i], out[j])
    {
      assert CompareVotes(out[i], out[j]) <= 0;
      VotesAreByAddress(out[i], out[j]);
    }
  }

  /** pollFromProto (conv_poll.go:10-37): options stay in definition order, votes are sorted. */
  method PollFromProto(pb: Option<PbPoll>) returns (p: Poll)
    ensures pb.None? ==> p == Poll("", "", "", [], [])
    ensures pb.Some? ==>
              && (p.guid, p.chatGuid, p.title) == (pb.value.guid, pb.value.chatGuid, pb.value.title)
              && |p.options| == |pb.value.options|
              && (forall i :: 0 <= i < |p.options| ==> p.options[i] == OptionFromProto(pb.value.options[i]))
              && VotesByAddress(p.votes)
              && SortedImage(VoteFromProto, CompareVotes, pb.value.votes, p.votes)
  {
    if pb.None? {
      return Poll("", "", "", [], []);
    }
    var options := [];
    for i := 0 to |pb.value.options|
      invariant |options| == i
      invariant forall k :: 0 <= k < i ==> options[k] == OptionFromProto(pb.value.options[k])
    {
      options := options + [OptionFromProto(pb.value.options[i])];
    }
    var votes := VotesFromProto(pb.value.votes);
    p := Poll(pb.value.guid, pb.value.chatGuid, pb.value.title, options, votes);
  }

  // ----- what the order is worth -----

  predicate SameReactionKey(a: AppliedReaction, b: AppliedReaction) {
    a.dateCreated == b.dateCreated && a.guid == b.guid
  }

  predicate SameStickerKey(a: PlacedSticker, b: PlacedSticker) {
    a.dateCreated == b.dateCreated && a.guid == b.guid
  }

  predicate SameVoteKey(a: Vote, b: Vote) {
    a.participant.address == b.participant.address && a.optionId == b.optionId
  }

  /**
   Reactions come out the same for every order of the input exactly when reactions with one time and
   GUID are equal.
   */
  lemma {:induction false} ReactionsCanonical(input: seq<PbReaction>, output: seq<AppliedReaction>)
    requires SortedImage(ReactionFromProto, CompareReactions, input, output)
    ensures (forall i2, o2 :: Permutation(input, i2) && SortedImage(ReactionFromProto, CompareReactions, i2, o2)
              ==> o2 == output)
            <==> forall i, j ::
              0 <= i < j < |output| && SameReactionKey(output[i], output[j]) ==> output[i] == output[j]
  {
    ReactionsPreorder();
    CanonicalExactlyWhen(ReactionFromProto, CompareReactions, input, output);
    forall i, j | 0 <= i < j < |output|
      ensures CompareReactions(output[i], output[j]) == 0 <==> SameReactionKey(output[i], output[j])
    {
      StringsFlip(output[i].guid, output[j].guid);
    }
  }

  /** Stickers likewise. */
  lemma {:induction false} StickersCanonical(input: seq<PbSticker>, output: seq<PlacedSticker>)
    requires SortedImage(StickerFromProto, CompareStickers, input, output)
    ensures (forall i2, o2 :: Permutation(input, i2) && SortedImage(StickerFromProto, CompareStickers, i2, o2)
              ==> o2 == output)
            <==> forall i, j ::
              0 <= i < j < |output| && SameStickerKey(output[i], output[j]) ==> output[i] == output[j]
  {
    StickersPreorder();
    CanonicalExactlyWhen(StickerFromProto, CompareStickers, input, output);
    forall i, j | 0 <= i < j < |output|
      ensures CompareStickers(output[i], output[j]) == 0 <==> SameStickerKey(output[i], output[j])
    {
      StringsFlip(output[i].guid, output[j].guid);
    }
  }

  /** Votes likewise, by participant address and option. */
  lemma {:induction false} VotesCanonical(input: seq<PbVote>, output: seq<Vote>)
    requires SortedImage(VoteFromProto, CompareVotes, input, output)
    ensures (forall i2, o2 :: Permutation(input, i2) && SortedImage(VoteFromProto, CompareVotes, i2, o2)
              ==> o2 == output)
            <==> (forall i, j :: 0 <= i < j < |output| && SameVoteKey(output[i], output[j]) ==> output[i] == output[j])
  {
    VotesPreorder();
    CanonicalExactlyWhen(VoteFromProto, CompareVotes, input, output);
    forall i, j | 0 <= i < j < |output|
      ensures CompareVotes(output[i], output[j]) == 0 <==> SameVoteKey(output[i], output[j])
    {
      StringsFlip(output[i].participant.address, output[j].participant.address);
      StringsFlip(output[i].optionId, output[j].optionId);
    }
  }

  /** The documented order does not settle two votes of one address seen on two services. */
  lemma {:induction false} TiedVotesHaveTwoOrders()
    ensures var a, b := PbVote(Some(Handle("p", "iMessage", "")), "1"), PbVote(Some(Handle("p", "SMS", "")), "1");
            && SortedImage(VoteFromProto, CompareVotes, [a, b], [VoteFromProto(a), VoteFromProto(b)])
            && SortedImage(VoteFromProto, CompareVotes, [a, b], [VoteFromProto(b), VoteFromProto(a)])
            && VoteFromProto(a) != VoteFromProto(b)
  {
    var a, b := PbVote(Some(Handle("p", "iMessage", "")), "1"), PbVote(Some(Handle("p", "SMS", "")), "1");
    StringsFlip("p", "p");
    StringsFlip("1", "1");
    assert Map(VoteFromProto, [a, b]) == [VoteFromProto(a), VoteFromProto(b)];
    assert a.participant.value.service[0] != b.participant.value.service[0];
  }
}
