/**
 SubscriptionManager: topic subscribers as copy-on-write vectors that readers may hold on to,
 with a reverse index from connections to topics.
 */
module Subscriptions {
  import opened Domain

  datatype Topic = Topic(value: string)

  type Index = map<Topic, seq<ConnId>>
  type Reverse = map<ConnId, set<Topic>>

  predicate Lists(ix: Index, t: Topic, c: ConnId) {
    t in ix && c in ix[t]
  }

  predicate Tracks(rv: Reverse, c: ConnId, t: Topic) {
    c in rv && t in rv[c]
  }

  ghost predicate NoRepeats(s: seq<ConnId>) {
    forall i, j | 0 <= i < j < |s| :: s[i] != s[j]
  }

  /** Both indices say the same, no vector repeats a connection, and neither keeps an empty entry. */
  ghost predicate Consistent(ix: Index, rv: Reverse) {
    && (forall t, c :: Lists(ix, t, c) <==> Tracks(rv, c, t))
    && (forall t | t in ix :: ix[t] != [] && NoRepeats(ix[t]))
    && (forall c | c in rv :: rv[c] != {})
  }

  function TopicsOf(rv: Reverse, c: ConnId): set<Topic> {
    if c in rv then rv[c] else {}
  }

  function WithTopics(rv: Reverse, c: ConnId, topics: set<Topic>): Reverse {
    if topics == {} then rv - {c} else rv[c := topics]
  }

  function WithVector(ix: Index, t: Topic, s: seq<ConnId>): Index {
    if s == [] then ix - {t} else ix[t := s]
  }

  function VectorOf(ix: Index, t: Topic): seq<ConnId> {
    if t in ix then ix[t] else []
  }

  function Subscribed(rv: Reverse, c: ConnId, t: Topic): Reverse {
    WithTopics(rv, c, TopicsOf(rv, c) + {t})
  }

  function Unsubscribed(rv: Reverse, c: ConnId, t: Topic): Reverse {
    WithTopics(rv, c, TopicsOf(rv, c) - {t})
  }

  function WithoutTopic(rv: Reverse, t: Topic): Reverse {
    map c | c in rv && rv[c] - {t} != {} :: rv[c] - {t}
  }

  /** Position of the first occurrence, or the length. */
  function Find(s: seq<ConnId>, c: ConnId): (i: nat)
    ensures i <= |s| && (i < |s| <==> c in s) && (i < |s| ==> s[i] == c)
  {
    if s == [] || s[0] == c then 0 else 1 + Find(s[1..], c)
  }

  /** Overwrites the connection with the last element and drops the last slot. */
  function SwapErased(s: seq<ConnId>, c: ConnId): seq<ConnId> {
    var i := Find(s, c);
    if i == |s| then s else s[i := s[|s| - 1]][..|s| - 1]
  }

  // ---------------------------------------------------------------------------
  // Changes to both indices that keep them consistent
  // ---------------------------------------------------------------------------

  lemma AddingKeeps(ix: Index, rv: Reverse, c: ConnId, t: Topic)
    requires Consistent(ix, rv) && !Tracks(rv, c, t)
    ensures Consistent(ix[t := VectorOf(ix, t) + [c]], Subscribed(rv, c, t))
  {
    var ix', rv' := ix[t := VectorOf(ix, t) + [c]], Subscribed(rv, c, t);
    assert !Lists(ix, t, c);
    forall u, d ensures Lists(ix', u, d) <==> Tracks(rv', d, u) {
      assert Lists(ix, u, d) <==> Tracks(rv, d, u);
    }
  }

  /** rest is the topic's vector without the connection, in any order. */
  lemma RemovingKeeps(ix: Index, rv: Reverse, c: ConnId, t: Topic, rest: seq<ConnId>)
    requires Consistent(ix, rv) && NoRepeats(rest)
    requires forall d :: d in rest <==> d in VectorOf(ix, t) && d != c
    ensures Consistent(WithVector(ix, t, rest), Unsubscribed(rv, c, t))
  {
    var ix', rv' := WithVector(ix, t, rest), Unsubscribed(rv, c, t);
    forall u, d ensures Lists(ix', u, d) <==> Tracks(rv', d, u) {
      assert Lists(ix, u, d) <==> Tracks(rv, d, u);
      ListsWithVector(ix, t, rest, u, d);
      TracksUnsubscribed(rv, c, t, d, u);
    }
  }

  lemma ListsWithVector(ix: Index, t: Topic, s: seq<ConnId>, u: Topic, d: ConnId)
    ensures Lists(WithVector(ix, t, s), u, d) <==> if u == t then d in s else Lists(ix, u, d)
  {
  }

  lemma TracksUnsubscribed(rv: Reverse, c: ConnId, t: Topic, d: ConnId, u: Topic)
    ensures Tracks(Unsubscribed(rv, c, t), d, u) <==> Tracks(rv, d, u) && (d, u) != (c, t)
  {
    if d == c && u != t && Tracks(rv, d, u) {
      assert u in TopicsOf(rv, c) - {t};
    }
  }

  lemma SwapEraseRemoves(s: seq<ConnId>, c: ConnId)
    requires NoRepeats(s)
    ensures NoRepeats(SwapErased(s, c))
    ensures forall d :: d in SwapErased(s, c) <==> d in s && d != c
  {
    var i, r := Find(s, c), SwapErased(s, c);
    if i < |s| {
      forall d | d in s && d != c ensures d in r {
        var k :| 0 <= k < |s| && s[k] == d;
        assert k < |s| - 1 ==> r[k] == d;
        assert k == |s| - 1 ==> r[i] == d;
      }
    }
  }

  // ---------------------------------------------------------------------------
  // The manager
  // ---------------------------------------------------------------------------

  class SubscriberVec {
    var items: seq<ConnId>

    constructor (items: seq<ConnId>)
      ensures this.items == items
    {
      this.items := items;
    }
  }

  class SubscriptionManager {
    var topicToConns: map<Topic, SubscriberVec>
    var connToTopics: Reverse
    /** One entry per reference a reader holds, so a vector's use count is its multiplicity plus one. */
    var holders: multiset<SubscriberVec>
    ghost var Repr: set<SubscriberVec>

    /** Every vector in use is ours, and no two topics share one. */
    ghost predicate Owned()
      reads this`topicToConns, this`Repr
    {
      && (forall t | t in topicToConns :: topicToConns[t] in Repr)
      && (forall t, u | t in topicToConns && u in topicToConns && t != u :: topicToConns[t] != topicToConns[u])
    }

    ghost function Vectors(): Index
      reads this`topicToConns, this`Repr, Repr
      requires Owned()
    {
      map t | t in topicToConns :: topicToConns[t].items
    }

    ghost predicate Valid()
      reads this`topicToConns, this`connToTopics, this`Repr, Repr
    {
      Owned() && Consistent(Vectors(), connToTopics)
    }

    constructor ()
      ensures Valid() && connToTopics == map[] && holders == multiset{} && Repr == {}
    {
      topicToConns, connToTopics, holders, Repr := map[], map[], multiset{}, {};
    }

    /** Makes the topic's vector safe to change: a vector a reader holds is copied first. */
    method Unshare(topic: Topic) returns (vec: SubscriberVec)
      requires Owned() && topic in topicToConns
      modifies this`topicToConns, this`Repr
      ensures Owned() && fresh(Repr - old(Repr)) && old(Repr) <= Repr
      ensures topic in topicToConns && vec == topicToConns[topic] && vec !in holders
      ensures Vectors() == old(Vectors())
    {
      vec := topicToConns[topic];
      if vec in holders {
        vec := new SubscriberVec(vec.items);
        topicToConns := topicToConns[topic := vec];
        Repr := Repr + {vec};
      }
    }

    /** Gives the topic's vector the given contents, in place unless a reader holds it. */
    method Overwrite(topic: Topic, s: seq<ConnId>)
      requires Owned() && topic in topicToConns
      modifies this`topicToConns, this`Repr, Repr
      ensures Owned() && fresh(Repr - old(Repr))
      ensures Vectors() == old(Vectors())[topic := s]
      ensures forall v | v in holders :: v.items == old(v.items)
    {
      var vec := Unshare(topic);
      vec.items := s;
    }

    method PushBack(topic: Topic, conn: ConnId)
      requires Owned()
      modifies this`topicToConns, this`Repr, Repr
      ensures Owned() && fresh(Repr - old(Repr))
      ensures Vectors() == old(Vectors())[topic := VectorOf(old(Vectors()), topic) + [conn]]
      ensures forall v | v in holders :: v.items == old(v.items)
    {
      if topic !in topicToConns {
        var vec := new SubscriberVec([conn]);
        topicToConns := topicToConns[topic := vec];
        Repr := Repr + {vec};
        assert [] + [conn] == [conn];
        assert Vectors() == old(Vectors())[topic := [conn]];
      } else {
        Overwrite(topic, topicToConns[topic].items + [conn]);
      }
    }

    method DropEntry(topic: Topic)
      requires Owned()
      modifies this`topicToConns
      ensures Owned() && Vectors() == old(Vectors()) - {topic}
      ensures topicToConns == old(topicToConns) - {topic}
    {
      topicToConns := topicToConns - {topic};
    }

    /** eraseConnFromTopic, and dropping the topic's entry when its vector became empty. */
    method EraseConnFromTopic(topic: Topic, conn: ConnId)
      requires Owned()
      modifies this`topicToConns, this`Repr, Repr
      ensures Owned() && fresh(Repr - old(Repr))
      ensures Vectors() == WithVector(old(Vectors()), topic, SwapErased(VectorOf(old(Vectors()), topic), conn))
      ensures forall v | v in holders :: v.items == old(v.items)
    {
      hide SwapErased, WithVector;
      ErasedFromNothing(Vectors(), topic, conn);
      if topic !in topicToConns {
        return;
      }
      var rest := SwapErase(topicToConns[topic].items, conn);
      UpdateIsWithVector(Vectors(), topic, rest);
      Overwrite(topic, rest);
      if rest == [] {
        DropEntry(topic);
      }
    }

    static lemma ErasedFromNothing(ix: Index, t: Topic, c: ConnId)
      ensures t !in ix ==> WithVector(ix, t, SwapErased(VectorOf(ix, t), c)) == ix
    {
    }

    static lemma UpdateIsWithVector(ix: Index, t: Topic, s: seq<ConnId>)
      ensures WithVector(ix, t, s) == if s == [] then ix[t := s] - {t} else ix[t := s]
    {
    }

    static method SwapErase(s: seq<ConnId>, c: ConnId) returns (rest: seq<ConnId>)
      ensures rest == SwapErased(s, c)
    {
      rest := s;
      var i := 0;
      while i < |s| && s[i] != c
        invariant 0 <= i <= |s| && Find(s, c) == i + Find(s[i..], c)
      {
        assert s[i..][1..] == s[i + 1..];
        i := i + 1;
      }
      if i < |s| {
        rest := rest[i := rest[|rest| - 1]];
        rest := rest[..|rest| - 1];
      }
    }

    method Subscribe(conn: ConnId, topic: Topic) returns (added: bool)
      requires Valid()
      modifies this`topicToConns, this`connToTopics, this`Repr, Repr
      ensures Valid() && fresh(Repr - old(Repr))
      ensures added <==> !old(Tracks(connToTopics, conn, topic))
      ensures connToTopics == old(Subscribed(connToTopics, conn, topic))
      ensures forall v | v in holders :: v.items == old(v.items)
    {
      hide Consistent;
      var topics := TopicsOf(connToTopics, conn);
      if topic in topics {
        assert topics + {topic} == topics;
        return false;
      }
      AddingKeeps(Vectors(), connToTopics, conn, topic);
      connToTopics := connToTopics[conn := topics + {topic}];
      PushBack(topic, conn);
      added := true;
    }

    method Unsubscribe(conn: ConnId, topic: Topic) returns (removed: bool)
      requires Valid()
      modifies this`topicToConns, this`connToTopics, this`Repr, Repr
      ensures Valid() && fresh(Repr - old(Repr))
      ensures removed <==> old(Tracks(connToTopics, conn, topic))
      ensures connToTopics == old(Unsubscribed(connToTopics, conn, topic))
      ensures forall v | v in holders :: v.items == old(v.items)
    {
      hide Consistent, SwapErased;
      if conn !in connToTopics || topic !in connToTopics[conn] {
        assert TopicsOf(connToTopics, conn) - {topic} == TopicsOf(connToTopics, conn);
        NothingToForget(connToTopics, Vectors(), conn, topic);
        return false;
      }
      ErasingKeeps(Vectors(), connToTopics, conn, topic);
      connToTopics := WithTopics(connToTopics, conn, connToTopics[conn] - {topic});
      EraseConnFromTopic(topic, conn);
      removed := true;
    }

    static lemma NothingToForget(rv: Reverse, ix: Index, c: ConnId, t: Topic)
      requires Consistent(ix, rv) && !Tracks(rv, c, t)
      ensures Unsubscribed(rv, c, t) == rv
    {
      assert TopicsOf(rv, c) - {t} == TopicsOf(rv, c);
    }

    /** Erasing a connection from a topic's vector matches forgetting the topic for the connection. */
    static lemma ErasingKeeps(ix: Index, rv: Reverse, c: ConnId, t: Topic)
      requires Consistent(ix, rv)
      ensures Consistent(WithVector(ix, t, SwapErased(VectorOf(ix, t), c)), Unsubscribed(rv, c, t))
    {
      SwapEraseRemoves(VectorOf(ix, t), c);
      RemovingKeeps(ix, rv, c, t, SwapErased(VectorOf(ix, t), c));
    }

    method IsSubscribed(conn: ConnId, topic: Topic) returns (subscribed: bool)
      requires Valid()
      ensures subscribed <==> Lists(Vectors(), topic, conn)
    {
      assert Lists(Vectors(), topic, conn) <==> Tracks(connToTopics, conn, topic);
      subscribed := conn in connToTopics && topic in connToTopics[conn];
    }

    /** Hands out the vector itself; the reader's reference keeps it from being changed. */
    method GetSubscribers(topic: Topic) returns (snapshot: SubscriberVec?)
      requires Valid()
      modifies this`holders
      ensures Valid()
      ensures snapshot == null <==> forall c :: !Tracks(connToTopics, c, topic)
      ensures snapshot != null ==>
                && holders == old(holders) + multiset{snapshot} && NoRepeats(snapshot.items)
                && forall c :: c in snapshot.items <==> Tracks(connToTopics, c, topic)
      ensures snapshot == null ==> holders == old(holders)
    {
      assert forall c :: Lists(Vectors(), topic, c) <==> Tracks(connToTopics, c, topic);
      if topic !in topicToConns {
        return null;
      }
      snapshot := topicToConns[topic];
      assert Vectors()[topic] == snapshot.items && Lists(Vectors(), topic, snapshot.items[0]);
      holders := holders + multiset{snapshot};
    }

    /** A reader lets go of a snapshot. */
    method Release(snapshot: SubscriberVec)
      requires Valid() && snapshot in holders
      modifies this`holders
      ensures Valid() && holders == old(holders) - multiset{snapshot}
    {
      holders := holders - multiset{snapshot};
    }

    method RemoveAllForConnection(conn: ConnId)
      requires Valid()
      modifies this`topicToConns, this`connToTopics, this`Repr, Repr
      ensures Valid() && fresh(Repr - old(Repr))
      ensures connToTopics == old(connToTopics) - {conn}
      ensures forall v | v in holders :: v.items == old(v.items)
    {
      hide Consistent, SwapErased;
      if conn !in connToTopics {
        return;
      }
      var todo := connToTopics[conn];
      assert todo != {} by { NoEmptyEntry(Vectors(), connToTopics, conn); }
      ghost var rv := connToTopics;
      while todo != {}
        invariant Owned() && Consistent(Vectors(), rv)
        invariant rv == WithTopics(connToTopics, conn, todo) && connToTopics == old(connToTopics)
        invariant fresh(Repr - old(Repr))
        invariant forall v | v in holders :: v.items == old(v.items)
        decreases todo
      {
        var topic :| topic in todo;
        ErasingKeeps(Vectors(), rv, conn, topic);
        rv, todo := Unsubscribed(rv, conn, topic), todo - {topic};
        EraseConnFromTopic(topic, conn);
      }
      connToTopics := connToTopics - {conn};
    }

    static lemma NoEmptyEntry(ix: Index, rv: Reverse, c: ConnId)
      requires Consistent(ix, rv) && c in rv
      ensures rv[c] != {}
    {
    }

    method RemoveAllForTopic(topic: Topic)
      requires Valid()
      modifies this`topicToConns, this`connToTopics
      ensures Valid() && topicToConns == old(topicToConns) - {topic}
      ensures connToTopics == old(WithoutTopic(connToTopics, topic))
    {
      hide Consistent;
      if topic !in topicToConns {
        UnlistedTopic(Vectors(), connToTopics, topic);
        return;
      }
      ghost var ix := Vectors();
      var rest := topicToConns[topic].items;
      while rest != []
        invariant Consistent(ix, connToTopics) && VectorOf(ix, topic) == rest
        invariant topicToConns == old(topicToConns) && ix - {topic} == old(Vectors()) - {topic}
        invariant WithoutTopic(connToTopics, topic) == old(WithoutTopic(connToTopics, topic))
        decreases |rest|
      {
        var conn := rest[0];
        DroppingFirst(ix, connToTopics, topic);
        ix := WithVector(ix, topic, rest[1..]);
        connToTopics := WithTopics(connToTopics, conn, connToTopics[conn] - {topic});
        rest := rest[1..];
      }
      UnlistedTopic(ix, connToTopics, topic);
      assert ix == ix - {topic};
      DropEntry(topic);
    }

    /** A topic without subscribers appears in no connection's set. */
    static lemma UnlistedTopic(ix: Index, rv: Reverse, t: Topic)
      requires Consistent(ix, rv) && VectorOf(ix, t) == []
      ensures WithoutTopic(rv, t) == rv && t !in ix
    {
      forall c | c in rv ensures rv[c] - {t} == rv[c] {
        assert Lists(ix, t, c) <==> Tracks(rv, c, t);
      }
    }

    static lemma DroppingFirst(ix: Index, rv: Reverse, t: Topic)
      requires Consistent(ix, rv) && t in ix && ix[t] != []
      ensures var c := ix[t][0];
              && Tracks(rv, c, t)
              && Consistent(WithVector(ix, t, ix[t][1..]), Unsubscribed(rv, c, t))
              && WithoutTopic(Unsubscribed(rv, c, t), t) == WithoutTopic(rv, t)
    {
      var c := ix[t][0];
      assert Lists(ix, t, c);
      RemovingKeeps(ix, rv, c, t, ix[t][1..]);
      assert rv[c] - {t} - {t} == rv[c] - {t};
    }

    /** One call on the manager; Release is a reader other than the keeper of kept letting go. */
    method Perform(op: Op, kept: SubscriberVec)
      requires Valid() && kept in holders
      modifies this, Repr
      ensures Valid() && fresh(Repr - old(Repr))
      ensures kept in holders && kept.items == old(kept.items)
      ensures connToTopics == Applied(old(connToTopics), op)
    {
      hide Consistent, Owned;
      match op
      case SubscribeOp(c, t) => var _ := Subscribe(c, t);
      case UnsubscribeOp(c, t) => var _ := Unsubscribe(c, t);
      case GetOp(t) => var _ := GetSubscribers(t);
      case ReleaseOp(v) =>
        if v in holders && (v == kept ==> holders[v] > 1) {
          Release(v);
        }
      case RemoveConnOp(c) => RemoveAllForConnection(c);
      case RemoveTopicOp(t) => RemoveAllForTopic(t);
    }

    /**
     Any sequence of calls: a snapshot someone still holds never changes, while the indices stay
     consistent and the subscriptions are exactly what the calls add up to.
     */
    method Run(ops: seq<Op>, kept: SubscriberVec)
      requires Valid() && kept in holders
      modifies this, Repr
      ensures Valid() && fresh(Repr - old(Repr))
      ensures kept in holders && kept.items == old(kept.items)
      ensures connToTopics == AppliedAll(old(connToTopics), ops)
    {
      hide Consistent, Owned, Applied;
      for i := 0 to |ops|
        invariant Valid() && fresh(Repr - old(Repr))
        invariant kept in holders && kept.items == old(kept.items)
        invariant connToTopics == AppliedAll(old(connToTopics), ops[..i])
      {
        Perform(ops[i], kept);
        assert ops[..i + 1][..i] == ops[..i];
      }
      assert ops[..|ops|] == ops;
    }
  }

  datatype Op =
    | SubscribeOp(conn: ConnId, topic: Topic)
    | UnsubscribeOp(conn: ConnId, topic: Topic)
    | GetOp(topic: Topic)
    | ReleaseOp(snapshot: SubscriberVec)
    | RemoveConnOp(conn: ConnId)
    | RemoveTopicOp(topic: Topic)

  function Applied(rv: Reverse, op: Op): Reverse {
    match op
    case SubscribeOp(c, t) => Subscribed(rv, c, t)
    case UnsubscribeOp(c, t) => Unsubscribed(rv, c, t)
    case RemoveConnOp(c) => rv - {c}
    case RemoveTopicOp(t) => WithoutTopic(rv, t)
    case _ => rv
  }

  function AppliedAll(rv: Reverse, ops: seq<Op>): Reverse
    decreases |ops|
  {
    if ops == [] then rv else Applied(AppliedAll(rv, ops[..|ops| - 1]), ops[|ops| - 1])
  }

  /** The calls that end a subscription. */
  predicate Ends(op: Op, c: ConnId, t: Topic) {
    op == UnsubscribeOp(c, t) || op == RemoveConnOp(c) || op == RemoveTopicOp(t)
  }

  ghost predicate StandsSince(ops: seq<Op>, c: ConnId, t: Topic, i: int) {
    0 <= i < |ops| && ops[i] == SubscribeOp(c, t) && forall j | i < j < |ops| :: !Ends(ops[j], c, t)
  }

  /** A connection is subscribed exactly when some call subscribed it and no later call ended that. */
  lemma {:induction false} SubscribedIffNotEndedSince(ops: seq<Op>, c: ConnId, t: Topic)
    ensures Tracks(AppliedAll(map[], ops), c, t) <==> exists i :: StandsSince(ops, c, t, i)
    decreases |ops|
  {
    if ops != [] {
      var n := |ops| - 1;
      var before, op := ops[..n], ops[n];
      SubscribedIffNotEndedSince(before, c, t);
      assert Tracks(AppliedAll(map[], ops), c, t)
             <==> op == SubscribeOp(c, t) || (Tracks(AppliedAll(map[], before), c, t) && !Ends(op, c, t)) by {
        AppliedTracks(AppliedAll(map[], before), op, c, t);
      }
      if op == SubscribeOp(c, t) {
        assert StandsSince(ops, c, t, n);
      } else {
        assert forall i :: StandsSince(ops, c, t, i) <==> StandsSince(before, c, t, i) && !Ends(op, c, t);
      }
    }
  }

  lemma AppliedTracks(rv: Reverse, op: Op, c: ConnId, t: Topic)
    ensures Tracks(Applied(rv, op), c, t) <==> op == SubscribeOp(c, t) || (Tracks(rv, c, t) && !Ends(op, c, t))
  {
    match op
    case SubscribeOp(d, u) => assert TopicsOf(rv, d) + {u} != {} by { assert u in TopicsOf(rv, d) + {u}; }
    case UnsubscribeOp(d, u) => assert Tracks(rv, c, t) && !Ends(op, c, t) && d == c ==> t in TopicsOf(rv, d) - {u};
    case RemoveTopicOp(u) => assert Tracks(rv, c, t) && t != u ==> t in rv[c] - {u};
    case _ =>
  }
}
