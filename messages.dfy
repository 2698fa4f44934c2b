/** A conversation's message collection, keyed by id as Backbone's
    `Collection.add` keys it: the add that `_receiveMessage` and the send
    pipeline perform on every delivery (chatController.js). */
module Messages {
  import opened Common

  function Ids(msgs: seq<Message>): (ids: set<string>)
    ensures forall i :: 0 <= i < |msgs| ==> msgs[i].id in ids
    ensures forall x :: x in ids ==> exists i :: 0 <= i < |msgs| && msgs[i].id == x
  {
    if msgs == [] then {} else {msgs[0].id} + Ids(msgs[1..])
  }

  predicate DistinctIds(msgs: seq<Message>) {
    forall i, j :: 0 <= i < j < |msgs| ==> msgs[i].id != msgs[j].id
  }

  /** Adding a message whose id is already present changes nothing; otherwise
      the message is appended, so insertion order is arrival order. */
  function AddById(msgs: seq<Message>, m: Message): (r: seq<Message>)
    ensures Ids(r) == Ids(msgs) + {m.id}
    ensures DistinctIds(msgs) ==> DistinctIds(r)
    ensures m.id in Ids(msgs) ==> r == msgs
    ensures m.id !in Ids(msgs) ==> r == msgs + [m]
  {
    if m.id in Ids(msgs) then msgs
    else
      IdsAppend(msgs, m);
      msgs + [m]
  }

  lemma {:induction false} IdsAppend(msgs: seq<Message>, m: Message)
    ensures Ids(msgs + [m]) == Ids(msgs) + {m.id}
  {
    if msgs != [] {
      assert (msgs + [m])[1..] == msgs[1..] + [m];
      IdsAppend(msgs[1..], m);
    } else {
      assert Ids([m]) == {m.id} + Ids([]);
    }
  }

  /** A collection without duplicate ids holds as many messages as ids. */
  lemma {:induction false} DistinctIdsCard(msgs: seq<Message>)
    requires DistinctIds(msgs)
    ensures |Ids(msgs)| == |msgs|
  {
    if msgs != [] {
      var tail := msgs[1..];
      assert DistinctIds(tail) by {
        forall i, j | 0 <= i < j < |tail| ensures tail[i].id != tail[j].id {
          assert tail[i] == msgs[i + 1] && tail[j] == msgs[j + 1];
        }
      }
      DistinctIdsCard(tail);
      forall i | 0 <= i < |tail| ensures tail[i].id != msgs[0].id {
        assert tail[i] == msgs[i + 1];
      }
      assert msgs[0].id !in Ids(tail);
      assert Ids(msgs) == {msgs[0].id} + Ids(tail);
    }
  }

  /** Appending without the id check, as an add of a model that had no id
      yet ends up doing once the id is set, keeps the ids distinct exactly
      when the new id is not already present. */
  lemma AppendDistinct(msgs: seq<Message>, m: Message)
    ensures DistinctIds(msgs + [m]) <==> DistinctIds(msgs) && m.id !in Ids(msgs)
  {
    var r := msgs + [m];
    if DistinctIds(r) {
      forall i, j | 0 <= i < j < |msgs| ensures msgs[i].id != msgs[j].id {
        assert r[i] == msgs[i] && r[j] == msgs[j];
      }
      forall i | 0 <= i < |msgs| ensures msgs[i].id != m.id {
        assert r[i] == msgs[i] && r[|msgs|] == m;
      }
    }
    if DistinctIds(msgs) && m.id !in Ids(msgs) {
      forall i, j | 0 <= i < j < |r| ensures r[i].id != r[j].id {
        if j < |msgs| {
          assert r[i] == msgs[i] && r[j] == msgs[j];
        } else {
          assert r[i] == msgs[i] && r[j] == m;
        }
      }
    }
  }

  /** The collection after each message of `incoming` is delivered in turn. */
  function DeliverAll(msgs: seq<Message>, incoming: seq<Message>): seq<Message>
    decreases |incoming|
  {
    if incoming == [] then msgs
    else DeliverAll(AddById(msgs, incoming[0]), incoming[1..])
  }

  /** Delivering any stream of messages, duplicates included, into a
      collection without duplicates leaves a collection without duplicates
      whose size is the number of distinct ids seen. */
  lemma DeliverAllCountsDistinctIds(msgs: seq<Message>, incoming: seq<Message>)
    requires DistinctIds(msgs)
    ensures DistinctIds(DeliverAll(msgs, incoming))
    ensures Ids(DeliverAll(msgs, incoming)) == Ids(msgs) + Ids(incoming)
    ensures |DeliverAll(msgs, incoming)| == |Ids(msgs) + Ids(incoming)|
  {
    DeliverAllIds(msgs, incoming);
    DistinctIdsCard(DeliverAll(msgs, incoming));
  }

  lemma {:induction false} DeliverAllIds(msgs: seq<Message>, incoming: seq<Message>)
    requires DistinctIds(msgs)
    ensures DistinctIds(DeliverAll(msgs, incoming))
    ensures Ids(DeliverAll(msgs, incoming)) == Ids(msgs) + Ids(incoming)
    decreases |incoming|
  {
    if incoming != [] {
      var next := AddById(msgs, incoming[0]);
      DeliverAllIds(next, incoming[1..]);
      assert Ids(incoming) == {incoming[0].id} + Ids(incoming[1..]);
    }
  }

  /** Redelivering a message that is already present is a no-op. */
  lemma RedeliveryIsNoOp(msgs: seq<Message>, m: Message)
    requires m in msgs
    ensures AddById(msgs, m) == msgs
  {
    var i :| 0 <= i < |msgs| && msgs[i] == m;
  }
}
