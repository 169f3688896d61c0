/** `ForceSubsService`: the channels a group requires its members to join,
    stored as (group, channel) subscriptions. */
module ForceSubs {

  datatype Subscription = Subscription(chatId: int, channelId: int, channelTitle: string)

  predicate SamePair(s: Subscription, chatId: int, channelId: int) {
    s.chatId == chatId && s.channelId == channelId
  }

  /** No (group, channel) pair is stored twice. */
  predicate NoDuplicatePairs(subs: seq<Subscription>) {
    forall i, j :: 0 <= i < j < |subs| ==> !SamePair(subs[j], subs[i].chatId, subs[i].channelId)
  }

  /** The subscriptions other than the (group, channel) pair, in order. */
  function DropPair(subs: seq<Subscription>, chatId: int, channelId: int): (r: seq<Subscription>)
    ensures |r| <= |subs|
    ensures forall x :: x in r <==> x in subs && !SamePair(x, chatId, channelId)
  {
    if |subs| == 0 then []
    else if SamePair(subs[0], chatId, channelId) then DropPair(subs[1..], chatId, channelId)
    else [subs[0]] + DropPair(subs[1..], chatId, channelId)
  }

  /** The stored entries of the (group, channel) pair. */
  function Matching(subs: seq<Subscription>, chatId: int, channelId: int): (r: seq<Subscription>)
    ensures forall x :: x in r <==> x in subs && SamePair(x, chatId, channelId)
  {
    if |subs| == 0 then []
    else if SamePair(subs[0], chatId, channelId) then [subs[0]] + Matching(subs[1..], chatId, channelId)
    else Matching(subs[1..], chatId, channelId)
  }

  /** The subscriptions of one group, in order. */
  function OfChat(subs: seq<Subscription>, chatId: int): (r: seq<Subscription>)
    ensures forall x :: x in r <==> x in subs && x.chatId == chatId
  {
    if |subs| == 0 then []
    else if subs[0].chatId == chatId then [subs[0]] + OfChat(subs[1..], chatId)
    else OfChat(subs[1..], chatId)
  }

  /** Without duplicate pairs, deleting a pair removes at most one entry. */
  lemma {:induction false} DropPairRemovesAtMostOne(subs: seq<Subscription>, chatId: int, channelId: int)
    requires NoDuplicatePairs(subs)
    ensures |subs| - |DropPair(subs, chatId, channelId)| <= 1
    ensures (exists i :: 0 <= i < |subs| && SamePair(subs[i], chatId, channelId)) ==>
      |subs| - |DropPair(subs, chatId, channelId)| == 1
  {
    if |subs| > 0 {
      var tail := subs[1..];
      assert NoDuplicatePairs(tail) by {
        forall i, j | 0 <= i < j < |tail|
          ensures !SamePair(tail[j], tail[i].chatId, tail[i].channelId)
        {
          assert tail[i] == subs[i + 1] && tail[j] == subs[j + 1];
        }
      }
      DropPairRemovesAtMostOne(tail, chatId, channelId);
      if SamePair(subs[0], chatId, channelId) {
        assert forall j :: 0 <= j < |tail| ==> !SamePair(tail[j], chatId, channelId) by {
          forall j | 0 <= j < |tail| ensures !SamePair(tail[j], chatId, channelId) {
            assert tail[j] == subs[j + 1];
          }
        }
        NothingToDrop(tail, chatId, channelId);
      } else if exists i :: 0 <= i < |subs| && SamePair(subs[i], chatId, channelId) {
        var i :| 0 <= i < |subs| && SamePair(subs[i], chatId, channelId);
        assert tail[i - 1] == subs[i];
      }
    }
  }

  lemma {:induction false} NothingToDrop(subs: seq<Subscription>, chatId: int, channelId: int)
    requires forall j :: 0 <= j < |subs| ==> !SamePair(subs[j], chatId, channelId)
    ensures DropPair(subs, chatId, channelId) == subs
  {
    if |subs| > 0 {
      NothingToDrop(subs[1..], chatId, channelId);
    }
  }

  class ForceSubsService {
    /** The stored subscriptions. */
    var subs: seq<Subscription>

    predicate Valid()
      reads this
    {
      NoDuplicatePairs(subs)
    }

    constructor()
      ensures subs == [] && Valid()
    {
      subs := [];
    }

    /** `SaveSubsAsync`: store the subscription unless its (group, channel)
        pair is already stored; 1 when it was stored, 0 otherwise. */
    method SaveSubs(s: Subscription) returns (affected: nat)
      modifies this`subs
      ensures (exists i :: 0 <= i < |old(subs)| && SamePair(old(subs)[i], s.chatId, s.channelId)) ==>
        affected == 0 && subs == old(subs)
      ensures (forall i :: 0 <= i < |old(subs)| ==> !SamePair(old(subs)[i], s.chatId, s.channelId)) ==>
        affected == 1 && subs == old(subs) + [s]
      ensures old(Valid()) ==> Valid()
    {
      var current := Matching(subs, s.chatId, s.channelId);
      if |current| == 0 {
        subs := subs + [s];
        affected := 1;
      } else {
        assert current[0] in current;
        affected := 0;
      }
    }

    /** `GetSubsAsync`: the group's subscriptions. */
    function GetSubs(chatId: int): (r: seq<Subscription>)
      reads this
      ensures forall x :: x in r <==> x in subs && x.chatId == chatId
    {
      OfChat(subs, chatId)
    }

    /** `DeleteSubsAsync`: remove the (group, channel) pair and report how
        many entries went; with no duplicate pairs that is 0 or 1. */
    method DeleteSubs(chatId: int, channelId: int) returns (deleted: nat)
      modifies this`subs
      ensures subs == DropPair(old(subs), chatId, channelId)
      ensures deleted == |old(subs)| - |subs|
      ensures forall x :: x in subs ==> !SamePair(x, chatId, channelId)
      ensures old(Valid()) ==> deleted <= 1 && Valid()
    {
      if Valid() {
        DropPairRemovesAtMostOne(subs, chatId, channelId);
        DropKeepsNoDuplicates(subs, chatId, channelId);
      }
      var kept := DropPair(subs, chatId, channelId);
      deleted := |subs| - |kept|;
      subs := kept;
    }
  }

  lemma {:induction false} DropKeepsNoDuplicates(subs: seq<Subscription>, chatId: int, channelId: int)
    requires NoDuplicatePairs(subs)
    ensures NoDuplicatePairs(DropPair(subs, chatId, channelId))
  {
    if |subs| > 0 {
      var tail := subs[1..];
      assert NoDuplicatePairs(tail) by {
        forall i, j | 0 <= i < j < |tail|
          ensures !SamePair(tail[j], tail[i].chatId, tail[i].channelId)
        {
          assert tail[i] == subs[i + 1] && tail[j] == subs[j + 1];
        }
      }
      DropKeepsNoDuplicates(tail, chatId, channelId);
      if !SamePair(subs[0], chatId, channelId) {
        var rest := DropPair(tail, chatId, channelId);
        var r := [subs[0]] + rest;
        forall i, j | 0 <= i < j < |r|
          ensures !SamePair(r[j], r[i].chatId, r[i].channelId)
        {
          if i == 0 {
            assert r[j] in tail;
            var k :| 0 <= k < |tail| && tail[k] == r[j];
            assert subs[k + 1] == r[j];
          } else {
            assert r[i] == rest[i - 1] && r[j] == rest[j - 1];
          }
        }
      }
    }
  }
}
