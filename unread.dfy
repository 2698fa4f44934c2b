/** The pure part of the chat controller's unread accounting: which
    messages count as unread (chatController.js `_updateUnread`) and which
    message is the latest (`resetUnread`). */
module Unread {
  import opened Common

  /** A message counts as unread when its author is not one of the
      conversation's end-user participants and the floor of its receipt time
      lies after the last-read marker. */
  predicate IsUnread(m: Message, appUsers: set<string>, marker: int) {
    m.authorId !in appUsers && m.received.Floor > marker
  }

  /** The unread messages, in collection order. Each message occurs as often
      as it occurs in `msgs` if it is unread, and not at all otherwise. */
  function UnreadMessages(msgs: seq<Message>, appUsers: set<string>, marker: int): (r: seq<Message>)
    ensures forall m :: m in r ==> IsUnread(m, appUsers, marker)
    ensures forall m :: multiset(r)[m] == (if IsUnread(m, appUsers, marker) then multiset(msgs)[m] else 0)
    ensures |r| <= |msgs|
  {
    if msgs == [] then []
    else
      var rest := UnreadMessages(msgs[1..], appUsers, marker);
      assert msgs == [msgs[0]] + msgs[1..];
      if IsUnread(msgs[0], appUsers, marker) then [msgs[0]] + rest else rest
  }

  /** Filtering distributes over concatenation. */
  lemma {:induction false} UnreadMessagesAppend(a: seq<Message>, b: seq<Message>, appUsers: set<string>, marker: int)
    ensures UnreadMessages(a + b, appUsers, marker)
         == UnreadMessages(a, appUsers, marker) + UnreadMessages(b, appUsers, marker)
  {
    if a == [] {
      assert a + b == b;
    } else {
      assert (a + b)[1..] == a[1..] + b;
      assert (a + b)[0] == a[0];
      UnreadMessagesAppend(a[1..], b, appUsers, marker);
    }
  }

  /** A message authored by an end-user participant never changes the count,
      whatever its receipt time. */
  lemma OwnMessageNeverCounts(msgs: seq<Message>, m: Message, appUsers: set<string>, marker: int)
    requires m.authorId in appUsers
    ensures UnreadMessages(msgs + [m], appUsers, marker) == UnreadMessages(msgs, appUsers, marker)
  {
    UnreadMessagesAppend(msgs, [m], appUsers, marker);
    assert UnreadMessages([m], appUsers, marker) == [];
  }

  /** A later marker never makes more messages unread. */
  lemma {:induction false} LaterMarkerFewerUnread(msgs: seq<Message>, appUsers: set<string>, m1: int, m2: int)
    requires m1 <= m2
    ensures |UnreadMessages(msgs, appUsers, m2)| <= |UnreadMessages(msgs, appUsers, m1)|
  {
    if msgs != [] {
      LaterMarkerFewerUnread(msgs[1..], appUsers, m1, m2);
    }
  }

  /** The message underscore's `max` picks by receipt time: a left-to-right
      scan that replaces the candidate only on a strictly greater time, so the
      first of several equal maxima wins; `None` stands for the `-Infinity`
      that `max` returns on an empty collection. */
  function LatestMessage(msgs: seq<Message>): (r: Option<Message>)
    ensures r.None? <==> msgs == []
    ensures r.Some? ==> r.value in msgs
    ensures r.Some? ==> forall m :: m in msgs ==> m.received <= r.value.received
  {
    if msgs == [] then None
    else
      var front := msgs[..|msgs| - 1];
      var last := msgs[|msgs| - 1];
      assert msgs == front + [last];
      var best := LatestMessage(front);
      if best.None? || last.received > best.value.received then Some(last) else best
  }

  /** The marker `resetUnread` writes: the floor of the latest receipt time,
      or 0 when there are no messages. */
  function ResetMarker(msgs: seq<Message>): (r: int)
    ensures msgs == [] ==> r == 0
    ensures msgs != [] ==> exists i :: 0 <= i < |msgs| && r == msgs[i].received.Floor
    ensures forall i :: 0 <= i < |msgs| ==> msgs[i].received.Floor <= r
  {
    match LatestMessage(msgs)
    case None => 0
    case Some(m) => m.received.Floor
  }

  /** Right after a reset nothing is unread, whoever the authors are. */
  lemma ResetLeavesNothingUnread(msgs: seq<Message>, appUsers: set<string>)
    ensures UnreadMessages(msgs, appUsers, ResetMarker(msgs)) == []
  {
    var marker := ResetMarker(msgs);
    var r := UnreadMessages(msgs, appUsers, marker);
    forall m ensures multiset(r)[m] == 0 {
      if m in msgs {
        ResetMarkerBounds(msgs, m);
      }
    }
    assert multiset(r) == multiset{};
  }

  /** The marker a reset writes is at least the floor of every receipt time. */
  lemma ResetMarkerBounds(msgs: seq<Message>, m: Message)
    requires m in msgs
    ensures m.received.Floor <= ResetMarker(msgs)
  {
  }

  /** Two messages from an app-side author received at 10.2 and 15.9 with the
      marker at 10: only the second is unread, because the floor of 10.2 is
      not after 10. A reset then writes 15 and leaves nothing unread. */
  lemma ScenarioUnreadThenReset()
    ensures var msgs := [Message("m1", "maker", "a", 10.2), Message("m2", "maker", "b", 15.9)];
      UnreadMessages(msgs, {"user"}, 10) == [msgs[1]]
      && ResetMarker(msgs) == 15
      && UnreadMessages(msgs, {"user"}, ResetMarker(msgs)) == []
  {
    var msgs := [Message("m1", "maker", "a", 10.2), Message("m2", "maker", "b", 15.9)];
    assert (10.2 as real).Floor == 10;
    assert (15.9 as real).Floor == 15;
    assert "maker" != "user" by { assert "maker"[0] != "user"[0]; }
    assert msgs[1..] == [msgs[1]];
    assert msgs[1..][1..] == [];
    assert !IsUnread(msgs[0], {"user"}, 10) && IsUnread(msgs[1], {"user"}, 10);
    assert UnreadMessages(msgs[1..], {"user"}, 10) == [msgs[1]];
    assert msgs[..1] == [msgs[0]];
    assert LatestMessage(msgs[..1]) == Some(msgs[0]);
    ResetLeavesNothingUnread(msgs, {"user"});
  }
}
