/**
 LivekitNodeRegistry: rooms are bound to nodes and counted on them; a node's load is its users plus
 a quarter of its rooms.
 */
module NodeRegistry {
  import opened Domain

  datatype NodeId = NodeId(value: string)

  datatype Node = Node(rooms: nat, users: nat)

  function LoadScore(n: Node): real {
    n.users as real + n.rooms as real * 0.25
  }

  type Binding = map<ChannelId, NodeId>

  /** The rooms counted on a node. */
  function RoomsOn(counted: Binding, node: NodeId): set<ChannelId> {
    set r | r in counted && counted[r] == node
  }

  function RoomCount(counted: Binding, node: NodeId): nat {
    |RoomsOn(counted, node)|
  }

  lemma CountingAdds(counted: Binding, room: ChannelId, node: NodeId)
    requires room !in counted
    ensures forall n :: RoomCount(counted[room := node], n) == RoomCount(counted, n) + (if n == node then 1 else 0)
  {
    forall n ensures RoomCount(counted[room := node], n) == RoomCount(counted, n) + (if n == node then 1 else 0) {
      assert RoomsOn(counted[room := node], n)
             == if n == node then RoomsOn(counted, n) + {room} else RoomsOn(counted, n);
    }
  }

  lemma UncountingRemoves(counted: Binding, room: ChannelId)
    ensures forall n :: RoomCount(counted - {room}, n)
                        == RoomCount(counted, n) - (if room in counted && counted[room] == n then 1 else 0)
  {
    forall n ensures RoomCount(counted - {room}, n)
                     == RoomCount(counted, n) - (if room in counted && counted[room] == n then 1 else 0)
    {
      assert RoomsOn(counted - {room}, n) == RoomsOn(counted, n) - {room};
    }
  }

  /** The order lists every node once. */
  ghost predicate Listed(nodes: set<NodeId>, order: seq<NodeId>) {
    && (forall n :: n in nodes <==> n in order)
    && (forall i, j | 0 <= i < j < |order| :: order[i] != order[j])
  }

  lemma NothingCounted(nodes: set<NodeId>, bound: Binding, counted: Binding, id: NodeId)
    requires Bound(nodes, bound, counted) && id !in nodes
    ensures RoomCount(counted, id) == 0
  {
    assert RoomsOn(counted, id) == {};
  }

  lemma BoundGrows(nodes: set<NodeId>, bound: Binding, counted: Binding, id: NodeId)
    requires Bound(nodes, bound, counted)
    ensures Bound(nodes + {id}, bound, counted)
  {
  }

  ghost predicate Bound(nodes: set<NodeId>, bound: Binding, counted: Binding) {
    && (forall r | r in counted :: counted[r] in nodes && r in bound && bound[r] == counted[r])
    && (forall r | r in bound :: bound[r] in nodes)
  }

  // ---------------------------------------------------------------------------
  // Round robin
  // ---------------------------------------------------------------------------

  /** The node whose turn it is when the cursor stands at k. */
  function Turn(order: seq<NodeId>, k: nat): NodeId
    requires order != []
  {
    order[k % |order|]
  }

  lemma MultiplesApart(a: nat, b: nat, n: nat)
    requires a < b
    ensures a * n + n <= b * n
  {
    assert b * n == a * n + n + (b - a - 1) * n;
  }

  lemma RemainderIs(x: nat, n: nat, q: nat, r: nat)
    requires r < n && x == q * n + r
    ensures x % n == r
  {
    assert x == x / n * n + x % n;
    if q < x / n {
      MultiplesApart(q, x / n, n);
    } else if x / n < q {
      MultiplesApart(x / n, q, n);
    }
  }

  lemma SameRemainderApart(i: nat, j: nat, n: nat)
    requires 0 < n && i < j < i + n
    ensures i % n != j % n
  {
    var d := j - i;
    if i % n + d < n {
      RemainderIs(j, n, i / n, i % n + d);
    } else {
      assert j == (i / n + 1) * n + (i % n + d - n);
      RemainderIs(j, n, i / n + 1, i % n + d - n);
    }
  }

  /** When the cursor next reaches position p. */
  function TurnOf(n: nat, k: nat, p: nat): nat
    requires p < n
  {
    if k % n <= p then k + (p - k % n) else k + (n + p - k % n)
  }

  lemma TurnComes(n: nat, k: nat, p: nat)
    requires p < n
    ensures k <= TurnOf(n, k, p) < k + n && TurnOf(n, k, p) % n == p
  {
    if k % n <= p {
      RemainderIs(TurnOf(n, k, p), n, k / n, p);
    } else {
      assert TurnOf(n, k, p) == (k / n + 1) * n + p;
      RemainderIs(TurnOf(n, k, p), n, k / n + 1, p);
    }
  }

  /** The next |order| turns from where the cursor stands. */
  function Round(order: seq<NodeId>, k: nat): seq<NodeId> {
    seq(|order|, i requires 0 <= i < |order| => Turn(order, k + i))
  }

  ghost predicate NamedOnce(picked: seq<NodeId>, node: NodeId) {
    exists i | 0 <= i < |picked| ::
      picked[i] == node && forall j | 0 <= j < |picked| && j != i :: picked[j] != node
  }

  lemma RoundAt(order: seq<NodeId>, k: nat, i: nat)
    requires i < |order|
    ensures |Round(order, k)| == |order| && Round(order, k)[i] == Turn(order, k + i) && Turn(order, k + i) in order
  {
  }

  /** Wherever the cursor stands, each node has exactly one of the next |order| turns. */
  lemma RoundRobinIsFair(order: seq<NodeId>, k: nat, p: nat)
    requires p < |order| && forall i, j | 0 <= i < j < |order| :: order[i] != order[j]
    ensures NamedOnce(Round(order, k), order[p])
  {
    hide Round, TurnOf;
    TurnComes(|order|, k, p);
    var i := TurnOf(|order|, k, p) - k;
    RoundAt(order, k, i);
    forall j | 0 <= j < |order| && j != i ensures Round(order, k)[j] != order[p] {
      RoundAt(order, k, j);
      if j < i {
        SameRemainderApart(k + j, k + i, |order|);
      } else {
        SameRemainderApart(k + i, k + j, |order|);
      }
    }
  }

  lemma RoundNames(nodes: set<NodeId>, order: seq<NodeId>, k: nat)
    requires Listed(nodes, order)
    ensures |Round(order, k)| == |order| && forall node | node in nodes :: NamedOnce(Round(order, k), node)
    ensures forall node | node in Round(order, k) :: node in nodes
  {
    hide NamedOnce, Turn;
    forall node | node in nodes ensures NamedOnce(Round(order, k), node) {
      var p: nat :| p < |order| && order[p] == node;
      RoundRobinIsFair(order, k, p);
    }
    forall i | 0 <= i < |order| ensures Round(order, k)[i] in nodes {
      RoundAt(order, k, i);
    }
  }

  lemma ListedGrows(nodes: set<NodeId>, order: seq<NodeId>, id: NodeId)
    requires Listed(nodes, order) && id !in nodes
    ensures Listed(nodes + {id}, order + [id])
  {
  }

  class LivekitNodeRegistry {
    var nodes: map<NodeId, Node>
    var nodeOrder: seq<NodeId>
    var roomToNode: Binding
    var countedRoomToNode: Binding
    var roundRobinCursor: nat
    /** The rooms each node came with when it was registered. */
    ghost var base: map<NodeId, nat>

    /** Counters are what nodes came with plus the rooms counted; a counted room is bound to its node. */
    ghost predicate Valid()
      reads this
    {
      Listed(nodes.Keys, nodeOrder) && Counted() && Bound(nodes.Keys, roomToNode, countedRoomToNode)
    }

    ghost predicate Counted()
      reads this`nodes, this`countedRoomToNode, this`base
    {
      forall n | n in nodes :: n in base && nodes[n].rooms == base[n] + RoomCount(countedRoomToNode, n)
    }

    constructor ()
      ensures Valid() && nodes == map[] && countedRoomToNode == map[] && roomToNode == map[]
    {
      nodes, nodeOrder, roomToNode, countedRoomToNode, roundRobinCursor := map[], [], map[], map[], 0;
      base := map[];
    }

    /** A second node of the same id is refused. */
    method RegisterNode(id: NodeId, node: Node) returns (ok: bool)
      requires Valid()
      modifies this`nodes, this`nodeOrder, this`base
      ensures Valid() && (ok <==> id !in old(nodes))
      ensures base == if ok then old(base)[id := node.rooms] else old(base)
      ensures nodes == if ok then old(nodes)[id := node] else old(nodes)
      ensures nodeOrder == if ok then old(nodeOrder) + [id] else old(nodeOrder)
    {
      if id in nodes {
        return false;
      }
      hide Listed, Bound, RoomCount;
      NothingCounted(nodes.Keys, roomToNode, countedRoomToNode, id);
      ListedGrows(nodes.Keys, nodeOrder, id);
      BoundGrows(nodes.Keys, roomToNode, countedRoomToNode, id);
      nodeOrder := nodeOrder + [id];
      nodes := nodes[id := node];
      assert nodes.Keys == old(nodes.Keys) + {id};
      base := base[id := node.rooms];
      ok := true;
    }

    /** Takes a room off the counter of its node; the guard against underflow never fires. */
    method Uncount(room: ChannelId)
      requires Counted() && room in countedRoomToNode && countedRoomToNode[room] in nodes
      modifies this`nodes, this`countedRoomToNode
      ensures Counted() && nodes.Keys == old(nodes.Keys) && countedRoomToNode == old(countedRoomToNode) - {room}
    {
      hide RoomCount;
      var id := countedRoomToNode[room];
      UncountingRemoves(countedRoomToNode, room);
      assert nodes[id].rooms > 0;
      nodes := nodes[id := nodes[id].(rooms := nodes[id].rooms - 1)];
      countedRoomToNode := countedRoomToNode - {room};
    }

    method Count(room: ChannelId, id: NodeId)
      requires Counted() && room !in countedRoomToNode && id in nodes
      modifies this`nodes, this`countedRoomToNode
      ensures Counted() && nodes.Keys == old(nodes.Keys) && countedRoomToNode == old(countedRoomToNode)[room := id]
    {
      hide RoomCount;
      CountingAdds(countedRoomToNode, room, id);
      nodes := nodes[id := nodes[id].(rooms := nodes[id].rooms + 1)];
      countedRoomToNode := countedRoomToNode[room := id];
    }

    method BindRoom(room: ChannelId, id: NodeId)
      requires Valid()
      modifies this`nodes, this`roomToNode, this`countedRoomToNode
      ensures Valid()
      ensures id !in nodes ==> unchanged(this)
      ensures id in nodes ==> roomToNode == old(roomToNode)[room := id]
      ensures countedRoomToNode == if id in nodes && room in old(countedRoomToNode)
                                   then old(countedRoomToNode)[room := id] else old(countedRoomToNode)
    {
      hide Counted, RoomCount, Listed;
      if id !in nodes {
        return;
      }
      if room in roomToNode && roomToNode[room] == id {
        assert room in countedRoomToNode ==> countedRoomToNode[room := id] == countedRoomToNode;
        return;
      }
      if room in countedRoomToNode && countedRoomToNode[room] != id {
        Uncount(room);
        Count(room, id);
      }
      roomToNode := roomToNode[room := id];
    }

    method ClearRoom(room: ChannelId)
      requires Valid()
      modifies this`nodes, this`roomToNode, this`countedRoomToNode
      ensures Valid()
      ensures roomToNode == old(roomToNode) - {room} && countedRoomToNode == old(countedRoomToNode) - {room}
    {
      DecrementRoom(room);
      roomToNode := roomToNode - {room};
    }

    method IncrementRoom(room: ChannelId, id: NodeId)
      requires Valid()
      modifies this`nodes, this`roomToNode, this`countedRoomToNode
      ensures Valid()
      ensures id !in nodes ==> unchanged(this)
      ensures id in nodes ==>
                roomToNode == old(roomToNode)[room := id] && countedRoomToNode == old(countedRoomToNode)[room := id]
    {
      hide Counted, RoomCount, Listed;
      if id !in nodes {
        return;
      }
      if room in countedRoomToNode {
        if countedRoomToNode[room] == id {
          return;
        }
        Uncount(room);
      }
      Count(room, id);
      roomToNode := roomToNode[room := id];
    }

    method DecrementRoom(room: ChannelId)
      requires Valid()
      modifies this`nodes, this`countedRoomToNode
      ensures Valid() && countedRoomToNode == old(countedRoomToNode) - {room}
    {
      hide Counted, RoomCount, Listed;
      if room !in countedRoomToNode {
        return;
      }
      Uncount(room);
    }

    /** The first registered node of least load. */
    method PickNode() returns (best: Option<NodeId>)
      requires Valid()
      ensures best.None? <==> nodeOrder == []
      ensures best.Some? ==> exists k | 0 <= k < |nodeOrder| ::
                && nodeOrder[k] == best.value && best.value in nodes
                && (forall i | 0 <= i < k ::
                      nodeOrder[i] in nodes && LoadScore(nodes[nodeOrder[i]]) > LoadScore(nodes[best.value]))
                && (forall i | k <= i < |nodeOrder| ::
                      nodeOrder[i] in nodes && LoadScore(nodes[nodeOrder[i]]) >= LoadScore(nodes[best.value]))
    {
      hide LoadScore;
      best := None;
      ghost var k := 0;
      for i := 0 to |nodeOrder|
        invariant best.None? <==> i == 0
        invariant best.Some? ==> 0 <= k < i && nodeOrder[k] == best.value && best.value in nodes
        invariant best.Some? ==> forall j | 0 <= j < k ::
                    nodeOrder[j] in nodes && LoadScore(nodes[nodeOrder[j]]) > LoadScore(nodes[best.value])
        invariant best.Some? ==> forall j | k <= j < i ::
                    nodeOrder[j] in nodes && LoadScore(nodes[nodeOrder[j]]) >= LoadScore(nodes[best.value])
      {
        var id := nodeOrder[i];
        if best.None? || LoadScore(nodes[id]) < LoadScore(nodes[best.value]) {
          best, k := Some(id), i;
        }
      }
    }

    /** Round robin over the registered nodes; since every listed node is registered, the first attempt succeeds. */
    method AnyNode() returns (node: Option<NodeId>)
      requires Valid()
      modifies this`roundRobinCursor
      ensures Valid()
      ensures node == if nodeOrder == [] then None else Some(Turn(nodeOrder, old(roundRobinCursor)))
      ensures roundRobinCursor == if nodeOrder == [] then old(roundRobinCursor) else old(roundRobinCursor) + 1
    {
      if nodeOrder == [] {
        return None;
      }
      node := Some(nodeOrder[roundRobinCursor % |nodeOrder|]);
      roundRobinCursor := roundRobinCursor + 1;
    }

    /** As many calls in a row as there are nodes name every registered node exactly once, and nothing else. */
    method AnyNodeRound() returns (picked: seq<NodeId>)
      requires Valid()
      modifies this`roundRobinCursor
      ensures Valid()
      ensures |picked| == |nodeOrder| && forall node | node in nodes :: NamedOnce(picked, node)
      ensures forall node | node in picked :: node in nodes
    {
      hide Turn, Counted, Bound, NamedOnce;
      picked := [];
      for k := 0 to |nodeOrder|
        invariant roundRobinCursor == old(roundRobinCursor) + k
        invariant picked == Round(nodeOrder, old(roundRobinCursor))[..k]
      {
        RoundAt(nodeOrder, old(roundRobinCursor), k);
        var node := AnyNode();
        picked := picked + [node.value];
      }
      RoundNames(nodes.Keys, nodeOrder, old(roundRobinCursor));
      assert picked == Round(nodeOrder, old(roundRobinCursor));
    }
  }
}
