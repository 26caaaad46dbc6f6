/**
 * formatConversations (src/helpers/message.js): groups a viewer's message
 * history, already ordered by the database, into one conversation per
 * counterpart. Conversations appear in the order their counterpart is first
 * met, and each keeps its messages in input order.
 */
module Conversations {

  type UserId = int

  /** A row of the messages table. */
  datatype Message = Message(
    messageId: int, senderId: UserId, recipientId: UserId, body: string, sentAt: int)

  /** One bucket of the result: `{ user_id, messages }`. */
  datatype Conversation = Conversation(userId: UserId, messages: seq<Message>)

  /**
   * The other party of a message as the viewer sees it: the sender unless the
   * viewer sent it, in which case the recipient.
   */
  function Counterpart(m: Message, viewer: UserId): (id: UserId)
    ensures id == m.senderId || id == m.recipientId
    ensures m.senderId == viewer ==> id == m.recipientId
    ensures m.senderId != viewer ==> id == m.senderId
    ensures id == viewer <==> m.senderId == viewer && m.recipientId == viewer
  {
    if m.senderId != viewer then m.senderId else m.recipientId
  }

  /** The counterpart of each message, in input order. */
  function Counterparts(ms: seq<Message>, viewer: UserId): (ids: seq<UserId>)
    ensures |ids| == |ms|
    ensures forall k :: 0 <= k < |ms| ==> ids[k] == Counterpart(ms[k], viewer)
  {
    if ms == [] then [] else Counterparts(ms[..|ms| - 1], viewer) + [Counterpart(ms[|ms| - 1], viewer)]
  }

  /** The distinct ids of a sequence, each at the place it first occurs. */
  function FirstSeen(ids: seq<UserId>): seq<UserId> {
    if ids == [] then []
    else
      var init, last := ids[..|ids| - 1], ids[|ids| - 1];
      if last in init then FirstSeen(init) else FirstSeen(init) + [last]
  }

  /** The messages whose counterpart is `id`, in input order. */
  function Thread(ms: seq<Message>, viewer: UserId, id: UserId): seq<Message> {
    if ms == [] then []
    else
      var init, last := ms[..|ms| - 1], ms[|ms| - 1];
      if Counterpart(last, viewer) == id then Thread(init, viewer, id) + [last]
      else Thread(init, viewer, id)
  }

  predicate Distinct(ids: seq<UserId>) {
    forall i, j :: 0 <= i < j < |ids| ==> ids[i] != ids[j]
  }

  function Keys(cs: seq<Conversation>): (ids: seq<UserId>)
    ensures |ids| == |cs|
    ensures forall k :: 0 <= k < |cs| ==> ids[k] == cs[k].userId
  {
    if cs == [] then [] else Keys(cs[..|cs| - 1]) + [cs[|cs| - 1].userId]
  }

  /** All messages of all conversations, conversation by conversation. */
  function Flatten(cs: seq<Conversation>): seq<Message> {
    if cs == [] then [] else Flatten(cs[..|cs| - 1]) + cs[|cs| - 1].messages
  }

  // ---------------------------------------------------------------------
  // Facts about the specification functions.

  /** FirstSeen keeps exactly the ids of its input. */
  lemma {:induction false} FirstSeenMembers(ids: seq<UserId>, x: UserId)
    ensures x in FirstSeen(ids) <==> x in ids
  {
    if ids != [] {
      var init := ids[..|ids| - 1];
      FirstSeenMembers(init, x);
      assert ids == init + [ids[|ids| - 1]];
    }
  }

  /** Position of the first occurrence of x. */
  function IndexOf(ids: seq<UserId>, x: UserId): (k: nat)
    requires x in ids
    ensures k < |ids| && ids[k] == x
    ensures forall j :: 0 <= j < k ==> ids[j] != x
  {
    if ids[0] == x then 0 else 1 + IndexOf(ids[1..], x)
  }

  lemma IndexOfPrefix(init: seq<UserId>, x: UserId, y: UserId)
    requires y in init
    ensures y in init + [x] && IndexOf(init + [x], y) == IndexOf(init, y)
  {
    var ids := init + [x];
    var k, k' := IndexOf(init, y), IndexOf(ids, y);
    assert ids[k] == y;
  }

  /** FirstSeen lists ids in the order of their first occurrence. */
  lemma {:induction false} FirstSeenOrder(ids: seq<UserId>, i: nat, j: nat)
    requires i < j < |FirstSeen(ids)|
    ensures FirstSeen(ids)[i] in ids && FirstSeen(ids)[j] in ids
    ensures IndexOf(ids, FirstSeen(ids)[i]) < IndexOf(ids, FirstSeen(ids)[j])
  {
    var init, x := ids[..|ids| - 1], ids[|ids| - 1];
    assert ids == init + [x];
    var f := FirstSeen(init);
    var a, b := FirstSeen(ids)[i], FirstSeen(ids)[j];
    FirstSeenMembers(init, a);
    FirstSeenMembers(init, b);
    if j < |f| {
      FirstSeenOrder(init, i, j);
      IndexOfPrefix(init, x, a);
      IndexOfPrefix(init, x, b);
    } else {
      assert x !in init && b == x;
      IndexOfPrefix(init, x, a);
    }
  }

  /** FirstSeen never repeats an id. */
  lemma {:induction false} FirstSeenDistinct(ids: seq<UserId>)
    ensures Distinct(FirstSeen(ids))
  {
    if ids != [] {
      var init, last := ids[..|ids| - 1], ids[|ids| - 1];
      FirstSeenDistinct(init);
      FirstSeenMembers(init, last);
    }
  }

  /** Every message of a thread has that thread's counterpart. */
  lemma {:induction false} ThreadMembers(ms: seq<Message>, viewer: UserId, id: UserId, m: Message)
    requires m in Thread(ms, viewer, id)
    ensures m in ms && Counterpart(m, viewer) == id
  {
    var init := ms[..|ms| - 1];
    if m in Thread(init, viewer, id) {
      ThreadMembers(init, viewer, id, m);
      assert ms == init + [ms[|ms| - 1]];
    }
  }

  /** A counterpart that never occurs has an empty thread. */
  lemma {:induction false} ThreadAbsent(ms: seq<Message>, viewer: UserId, id: UserId)
    requires id !in Counterparts(ms, viewer)
    ensures Thread(ms, viewer, id) == []
  {
    if ms != [] {
      var init := ms[..|ms| - 1];
      assert Counterparts(init, viewer) <= Counterparts(ms, viewer);
      ThreadAbsent(init, viewer, id);
    }
  }

  lemma FlattenAppend(cs: seq<Conversation>, c: Conversation)
    ensures Flatten(cs + [c]) == Flatten(cs) + c.messages
  {
  }

  /** Appending a message to one conversation adds exactly that message to the whole. */
  lemma {:induction false} FlattenPush(cs: seq<Conversation>, k: nat, m: Message)
    requires k < |cs|
    ensures multiset(Flatten(cs[k := cs[k].(messages := cs[k].messages + [m])]))
            == multiset(Flatten(cs)) + multiset{m}
  {
    var cs' := cs[k := cs[k].(messages := cs[k].messages + [m])];
    var n := |cs| - 1;
    assert cs'[..n] == if k == n then cs[..n] else cs[..n][k := cs[k].(messages := cs[k].messages + [m])];
    if k < n {
      FlattenPush(cs[..n], k, m);
    }
  }

  lemma ThreadSnoc(ms: seq<Message>, m: Message, viewer: UserId, id: UserId)
    ensures Thread(ms + [m], viewer, id) ==
            Thread(ms, viewer, id) + (if Counterpart(m, viewer) == id then [m] else [])
  {
  }

  lemma CounterpartsSnoc(ms: seq<Message>, m: Message, viewer: UserId)
    ensures Counterparts(ms + [m], viewer) == Counterparts(ms, viewer) + [Counterpart(m, viewer)]
  {
  }

  lemma FirstSeenSnoc(ids: seq<UserId>, x: UserId)
    ensures FirstSeen(ids + [x]) == if x in ids then FirstSeen(ids) else FirstSeen(ids) + [x]
  {
  }

  /**
   * The reference grouping: one conversation per distinct counterpart, in
   * first-seen order, holding that counterpart's thread.
   */
  function Grouped(ms: seq<Message>, viewer: UserId): (cs: seq<Conversation>)
    ensures Keys(cs) == FirstSeen(Counterparts(ms, viewer))
    ensures forall k :: 0 <= k < |cs| ==> cs[k].messages == Thread(ms, viewer, cs[k].userId)
  {
    var ids := FirstSeen(Counterparts(ms, viewer));
    seq(|ids|, k requires 0 <= k < |ids| => Conversation(ids[k], Thread(ms, viewer, ids[k])))
  }

  /** A message whose counterpart already has a conversation goes to the end of it. */
  lemma GroupedPush(seen: seq<Message>, viewer: UserId, k: nat, m: Message)
    requires k < |Grouped(seen, viewer)| && Grouped(seen, viewer)[k].userId == Counterpart(m, viewer)
    ensures var cs := Grouped(seen, viewer);
            Grouped(seen + [m], viewer) == cs[k := cs[k].(messages := cs[k].messages + [m])]
  {
    var id := Counterpart(m, viewer);
    var cs := Grouped(seen, viewer);
    var cs' := cs[k := cs[k].(messages := cs[k].messages + [m])];
    var ids := Counterparts(seen, viewer);
    CounterpartsSnoc(seen, m, viewer);
    assert id in FirstSeen(ids);
    FirstSeenMembers(ids, id);
    FirstSeenSnoc(ids, id);
    FirstSeenDistinct(ids);
    var g := Grouped(seen + [m], viewer);
    assert |g| == |cs'|;
    forall j | 0 <= j < |cs'| ensures g[j] == cs'[j] {
      ThreadSnoc(seen, m, viewer, cs[j].userId);
      if j != k {
        assert cs[j].userId != cs[k].userId;
      }
    }
  }

  /** A message with a new counterpart opens a conversation at the end. */
  lemma GroupedAppend(seen: seq<Message>, viewer: UserId, m: Message)
    requires Counterpart(m, viewer) !in Keys(Grouped(seen, viewer))
    ensures Grouped(seen + [m], viewer) ==
            Grouped(seen, viewer) + [Conversation(Counterpart(m, viewer), [m])]
  {
    var id := Counterpart(m, viewer);
    var cs := Grouped(seen, viewer);
    var cs' := cs + [Conversation(id, [m])];
    var ids := Counterparts(seen, viewer);
    CounterpartsSnoc(seen, m, viewer);
    FirstSeenMembers(ids, id);
    FirstSeenSnoc(ids, id);
    var g := Grouped(seen + [m], viewer);
    assert |g| == |cs'|;
    forall j | 0 <= j < |cs'| ensures g[j] == cs'[j] {
      ThreadSnoc(seen, m, viewer, Keys(g)[j]);
      if j == |cs| {
        ThreadAbsent(seen, viewer, id);
      } else {
        assert cs[j].userId != id;
      }
    }
  }

  /** Conversation keys are pairwise distinct. */
  lemma GroupedDistinct(ms: seq<Message>, viewer: UserId)
    ensures Distinct(Keys(Grouped(ms, viewer)))
  {
    FirstSeenDistinct(Counterparts(ms, viewer));
  }

  /** Every message sits under its own counterpart. */
  lemma GroupedCounterparts(ms: seq<Message>, viewer: UserId)
    ensures var cs := Grouped(ms, viewer);
            forall k, m :: 0 <= k < |cs| && m in cs[k].messages ==> Counterpart(m, viewer) == cs[k].userId
  {
    var cs := Grouped(ms, viewer);
    forall k, m | 0 <= k < |cs| && m in cs[k].messages
      ensures Counterpart(m, viewer) == cs[k].userId
    {
      ThreadMembers(ms, viewer, cs[k].userId, m);
    }
  }

  /** An empty history has no conversations. */
  lemma GroupedEmpty(viewer: UserId)
    ensures Grouped([], viewer) == []
  {
  }

  /** No message is lost or duplicated. */
  lemma {:induction false} GroupedPermutation(ms: seq<Message>, viewer: UserId)
    ensures multiset(Flatten(Grouped(ms, viewer))) == multiset(ms)
  {
    if ms != [] {
      var init, m := ms[..|ms| - 1], ms[|ms| - 1];
      assert ms == init + [m];
      GroupedPermutation(init, viewer);
      var cs := Grouped(init, viewer);
      var id := Counterpart(m, viewer);
      if id in Keys(cs) {
        var k :| 0 <= k < |cs| && cs[k].userId == id;
        GroupedPush(init, viewer, k, m);
        FlattenPush(cs, k, m);
      } else {
        GroupedAppend(init, viewer, m);
        FlattenAppend(cs, Conversation(id, [m]));
      }
    }
  }

  /** Array.prototype.findIndex on the conversations: the first with this user id, or -1. */
  method FindIndex(conversations: seq<Conversation>, id: UserId) returns (index: int)
    ensures -1 <= index < |conversations|
    ensures index == -1 <==> forall j :: 0 <= j < |conversations| ==> conversations[j].userId != id
    ensures 0 <= index ==> conversations[index].userId == id
    ensures forall j :: 0 <= j < index ==> conversations[j].userId != id
  {
    index := 0;
    while index < |conversations|
      invariant 0 <= index <= |conversations|
      invariant forall j :: 0 <= j < index ==> conversations[j].userId != id
    {
      if conversations[index].userId == id {
        return;
      }
      index := index + 1;
    }
    index := -1;
  }

  /**
   * formatConversations(messages, authUserId): the reference grouping, so
   * conversations come in first-seen order with distinct keys, each holds
   * exactly its counterpart's messages in input order, and no message is
   * lost or duplicated (lemmas GroupedDistinct, GroupedCounterparts and
   * GroupedPermutation).
   */
  method FormatConversations(messages: seq<Message>, authUserId: UserId)
    returns (conversations: seq<Conversation>)
    ensures conversations == Grouped(messages, authUserId)
  {
    conversations := [];
    for i := 0 to |messages|
      invariant conversations == Grouped(messages[..i], authUserId)
    {
      var message := messages[i];
      var id := Counterpart(message, authUserId);
      assert messages[..i + 1] == messages[..i] + [message];

      var index := FindIndex(conversations, id);
      if index > -1 {
        GroupedPush(messages[..i], authUserId, index, message);
        conversations := conversations[index := conversations[index].(messages := conversations[index].messages + [message])];
      } else {
        GroupedAppend(messages[..i], authUserId, message);
        conversations := conversations + [Conversation(id, [message])];
      }
    }
    assert messages[..|messages|] == messages;
  }
}
