/**
 Two run-level guarantees of the outgoing worker: the index of connections with unacked frames
 misses nobody, and an overflowing outbox gives up low-priority items before high-priority ones,
 keeps order, and turns into a disconnect rather than losing a fourth high-priority item.
 */
module OutboundQueues {
  import opened Domain
  import opened Outbound

  // ---------------------------------------------------------------------------
  // The unacked index
  // ---------------------------------------------------------------------------

  /** Every attached connection with unacked frames is listed for the sweep. */
  ghost predicate Covers(n: Net) {
    forall c | c in n.conns :: n.conns[c].reliable.buffer != [] ==> c in n.pending
  }

  /** No attached connection has both an invalid handle and an overflowed buffer. */
  ghost predicate NoneStranded(n: Net) {
    forall c | c in n.conns :: n.conns[c].valid || |n.conns[c].reliable.buffer| <= n.conns[c].reliable.capacity
  }

  /** A flush that stamps nothing leaves the reliable state alone. */
  lemma {:induction false} FlushGrowth(ctx: Context, answers: seq<Answer>, now: nat)
    ensures var f := Flushed(ctx, answers, now);
            && f.ctx.valid == ctx.valid && f.ctx.reliable.capacity == ctx.reliable.capacity
            && f.ctx.reliable.nextSeq >= ctx.reliable.nextSeq
            && (f.ctx.reliable.nextSeq == ctx.reliable.nextSeq ==> f.ctx.reliable == ctx.reliable)
    decreases |ctx.outbox.q|
  {
    if ctx.outbox.q != [] {
      var front, rest := ctx.outbox.q[0], ctx.outbox.q[1..];
      var later := if answers == [] then [] else answers[1..];
      match front.action
      case DropConnection(_, _) =>
      case UpdateAuthState(_, _) => FlushGrowth(WithQueue(AuthUpdated(ctx, front.action), rest), later, now);
      case SendPayload(_, _) =>
        var offer := Offered(ctx.reliable, ctx.valid, front.action, AnswerAt(answers, 0), now);
        FlushGrowth(WithQueue(ctx.(reliable := offer.reliable), rest), later, now);
    }
  }

  lemma FlushKeepsCover(n: Net, c: ConnId, answers: seq<Answer>, now: nat)
    requires Covers(n)
    ensures Covers(FlushedAt(n, c, answers, now))
  {
    if c in n.conns {
      FlushGrowth(n.conns[c], answers, now);
    }
  }

  lemma {:induction false} ResendKeepsLength(buffer: seq<Frame>, answers: seq<Answer>, now: nat, cfg: Config)
    ensures |Resent(buffer, answers, now, cfg).buffer| == |buffer|
    decreases |buffer|
  {
    if buffer != [] {
      ResendKeepsLength(buffer[1..], if answers == [] then [] else answers[1..], now, cfg);
    }
  }

  /** One connection's sweep: it is unlisted and left attached with frames only when stranded. */
  lemma SweepVerdict(ctx: Context, answers: seq<Answer>, now: nat, cfg: Config)
    ensures var s := Swept(ctx, answers, now, cfg);
            && s.ctx.valid == ctx.valid && |s.ctx.reliable.buffer| == |ctx.reliable.buffer|
            && (s.verdict == Drained <==> ctx.reliable.buffer == [])
            && (s.verdict == Expired && !ctx.valid <==>
                !ctx.valid && |ctx.reliable.buffer| > ctx.reliable.capacity)
  {
    ResendKeepsLength(ctx.reliable.buffer, answers, now, cfg);
  }

  /** The sweep keeps the index complete if and only if no connection is stranded. */
  lemma SweepKeepsCoverIff(n: Net, answers: map<ConnId, seq<Answer>>, now: nat, cfg: Config)
    requires Covers(n)
    ensures Covers(SweptAll(n, answers, now, cfg)) <==> NoneStranded(n)
  {
    hide Swept;
    var r := SweptAll(n, answers, now, cfg);
    forall c | c in n.conns
      ensures (c in r.conns && r.conns[c].reliable.buffer != [] && c !in r.pending)
              <==> !(n.conns[c].valid || |n.conns[c].reliable.buffer| <= n.conns[c].reliable.capacity)
    {
      SweepVerdict(n.conns[c], AnswersFor(answers, c), now, cfg);
    }
  }

  datatype NetStep =
    | Attach(conn: ConnId)
    | Detach(conn: ConnId)
    | Invalidate(conn: ConnId)
    | Enqueue(conn: ConnId, item: Item)
    | FlushConn(conn: ConnId, flushAnswers: seq<Answer>, now: nat)
    | Ack(conn: ConnId, ack: nat)
    | SweepAll(answers: map<ConnId, seq<Answer>>, now: nat)

  function NetNext(n: Net, step: NetStep, cfg: Config): Net {
    match step
    case Attach(c) => Attached(n, c)
    case Detach(c) => Detached(n, c)
    case Invalidate(c) => Invalidated(n, c)
    case Enqueue(c, item) => EnqueuedAt(n, c, item)
    case FlushConn(c, answers, now) => FlushedAt(n, c, answers, now)
    case Ack(c, ack) => AckedAt(n, c, ack)
    case SweepAll(answers, now) => SweptAll(n, answers, now, cfg)
  }

  datatype NetRun = NetRun(states: seq<Net>, steps: seq<NetStep>, cfg: Config) {
    ghost predicate Valid() {
      && |states| == |steps| + 1 && states[0] == Net(map[], {})
      && forall i: nat | i < |steps| :: Follows(i)
    }

    ghost predicate Follows(i: nat) {
      i < |steps| && |states| == |steps| + 1 && states[i + 1] == NetNext(states[i], steps[i], cfg)
    }
  }

  lemma Extended(r: NetRun, step: NetStep, n: Net)
    requires r.Valid() && n == NetNext(r.states[|r.steps|], step, r.cfg)
    ensures NetRun(r.states + [n], r.steps + [step], r.cfg).Valid()
  {
    hide NetNext;
    var longer := NetRun(r.states + [n], r.steps + [step], r.cfg);
    forall i: nat | i < |longer.steps| ensures longer.Follows(i) {
      if i < |r.steps| {
        assert r.Follows(i);
      }
    }
  }

  lemma StepKeepsCover(n: Net, step: NetStep, cfg: Config)
    requires Covers(n) && (step.SweepAll? ==> NoneStranded(n))
    ensures Covers(NetNext(n, step, cfg))
  {
    hide Flushed, Swept, SweptAll, FlushedAt;
    match step
    case FlushConn(c, answers, now) => FlushKeepsCover(n, c, answers, now);
    case SweepAll(answers, now) => SweepKeepsCoverIff(n, answers, now, cfg);
    case _ =>
  }

  /** In every run whose sweeps find nobody stranded, the index is complete in every state. */
  lemma {:induction false} UnackedAreListed(r: NetRun, k: nat)
    requires r.Valid() && k <= |r.steps|
    requires forall i: nat | i < |r.steps| && r.steps[i].SweepAll? :: NoneStranded(r.states[i])
    ensures Covers(r.states[k])
  {
    hide NetNext, NoneStranded;
    if k > 0 {
      UnackedAreListed(r, k - 1);
      assert r.Follows(k - 1);
      StepKeepsCover(r.states[k - 1], r.steps[k - 1], r.cfg);
    }
  }

  ghost predicate AllValid(n: Net) {
    forall c | c in n.conns :: n.conns[c].valid
  }

  lemma StepKeepsValid(n: Net, step: NetStep, cfg: Config)
    requires AllValid(n) && !step.Invalidate?
    ensures AllValid(NetNext(n, step, cfg))
  {
    hide Flushed, Swept;
    match step
    case FlushConn(c, answers, now) =>
      if c in n.conns {
        FlushGrowth(n.conns[c], answers, now);
      }
    case SweepAll(answers, now) =>
      forall c | c in n.conns ensures SweptConn(n, c, answers, now, cfg).ctx.valid {
        SweepVerdict(n.conns[c], AnswersFor(answers, c), now, cfg);
      }
    case _ =>
  }

  lemma {:induction false} ValidRun(r: NetRun, k: nat)
    requires r.Valid() && k <= |r.steps|
    requires forall i: nat | i < |r.steps| :: !r.steps[i].Invalidate?
    ensures AllValid(r.states[k])
  {
    hide NetNext;
    if k > 0 {
      ValidRun(r, k - 1);
      assert r.Follows(k - 1);
      StepKeepsValid(r.states[k - 1], r.steps[k - 1], r.cfg);
    }
  }

  /** With handles that stay valid until their connection is detached, the index is always complete. */
  lemma UnackedAreListedWithValidHandles(r: NetRun, k: nat)
    requires r.Valid() && k <= |r.steps|
    requires forall i: nat | i < |r.steps| :: !r.steps[i].Invalidate?
    ensures Covers(r.states[k])
  {
    forall i: nat | i < |r.steps| ensures NoneStranded(r.states[i]) {
      ValidRun(r, i);
    }
    UnackedAreListed(r, k);
  }

  const PEER := ConnId("c")

  function Ping(id: nat): Item {
    Item(id, High, SendPayload(Some("x"), true))
  }

  /** One attached connection whose outbox is flushed and which acked none of the n frames sent to it. */
  ghost predicate Unanswered(n: Net, frames: nat) {
    && n.conns.Keys == {PEER} && n.conns[PEER].outbox == NEW_CONTEXT.outbox && n.conns[PEER].valid
    && |n.conns[PEER].reliable.buffer| == n.conns[PEER].reliable.nextSeq == frames
    && n.conns[PEER].reliable.capacity == RELIABLE_CAPACITY && (frames > 0 ==> PEER in n.pending)
  }

  lemma OneMoreUnanswered(n: Net, frames: nat, cfg: Config)
    requires Unanswered(n, frames)
    ensures var queued := NetNext(n, Enqueue(PEER, Ping(frames)), cfg);
            Unanswered(NetNext(queued, FlushConn(PEER, [Accepted], 0), cfg), frames + 1)
  {
    var queued := n.conns[PEER].(outbox := Enqueued(n.conns[PEER].outbox, Ping(frames)));
    assert queued.outbox.q == [Ping(frames)];
    assert queued.outbox.q[1..] == [] && AnswerAt([Accepted], 0) == Accepted;
    var r := StampedOn(queued.reliable, "x", 0);
    var after := WithQueue(queued.(reliable := r), []);
    assert Flushed(after, [], 0) == Flush(after, [], false);
    assert Flushed(queued, [Accepted], 0).ctx == after && !Flushed(queued, [Accepted], 0).drop;
  }

  lemma {:induction false} ManyUnanswered(frames: nat, cfg: Config) returns (r: NetRun)
    ensures r.Valid() && r.cfg == cfg && Unanswered(r.states[|r.steps|], frames)
  {
    hide NetNext;
    if frames == 0 {
      r := FirstAttached(cfg);
    } else {
      r := ManyUnanswered(frames - 1, cfg);
      OneMoreUnanswered(r.states[|r.steps|], frames - 1, cfg);
      r := Continued(r, Enqueue(PEER, Ping(frames - 1)));
      r := Continued(r, FlushConn(PEER, [Accepted], 0));
    }
  }

  lemma FirstAttached(cfg: Config) returns (r: NetRun)
    ensures r.Valid() && r.cfg == cfg && Unanswered(r.states[|r.steps|], 0)
  {
    r := NetRun([Net(map[], {})], [], cfg);
    r := Continued(r, Attach(PEER));
  }

  lemma Continued(r: NetRun, step: NetStep) returns (longer: NetRun)
    requires r.Valid()
    ensures longer.Valid() && longer.cfg == r.cfg && longer.steps == r.steps + [step]
    ensures longer.states == r.states + [NetNext(r.states[|r.steps|], step, r.cfg)]
  {
    Extended(r, step, NetNext(r.states[|r.steps|], step, r.cfg));
    longer := NetRun(r.states + [NetNext(r.states[|r.steps|], step, r.cfg)], r.steps + [step], r.cfg);
  }

  /**
   A run in which a connection overflows its buffer, its handle goes away, and the next sweep drops
   it from the index with its frames still held.
   */
  lemma StrandedConnectionIsForgotten(answers: map<ConnId, seq<Answer>>, now: nat, cfg: Config)
    ensures exists r: NetRun ::
              && r.Valid() && r.cfg == cfg && |r.steps| > 0 && r.steps[|r.steps| - 1] == SweepAll(answers, now)
              && Covers(r.states[|r.steps| - 1]) && !Covers(r.states[|r.steps|])
  {
    hide NetNext, SweptAll;
    var r := ManyUnanswered(RELIABLE_CAPACITY + 1, cfg);
    var full := r.states[|r.steps|];
    r := Continued(r, Invalidate(PEER));
    var n := r.states[|r.steps|];
    InvalidatedIsStranded(full, cfg);
    SweepKeepsCoverIff(n, answers, now, cfg);
    SweepIs(n, answers, now, cfg);
    r := Continued(r, SweepAll(answers, now));
    assert r.states[|r.steps| - 1] == n;
  }

  lemma InvalidatedIsStranded(n: Net, cfg: Config)
    requires Unanswered(n, RELIABLE_CAPACITY + 1)
    ensures Covers(NetNext(n, Invalidate(PEER), cfg)) && !NoneStranded(NetNext(n, Invalidate(PEER), cfg))
  {
    var r := NetNext(n, Invalidate(PEER), cfg);
    assert !(r.conns[PEER].valid || |r.conns[PEER].reliable.buffer| <= r.conns[PEER].reliable.capacity);
  }

  lemma SweepIs(n: Net, answers: map<ConnId, seq<Answer>>, now: nat, cfg: Config)
    ensures NetNext(n, SweepAll(answers, now), cfg) == SweptAll(n, answers, now, cfg)
  {
  }

  // ---------------------------------------------------------------------------
  // The outbox
  // ---------------------------------------------------------------------------

  /** Number of queued items a flush takes off the front when it meets no drop. */
  function FlushCount(ctx: Context, answers: seq<Answer>, now: nat): (k: nat)
    ensures k <= |ctx.outbox.q|
    decreases |ctx.outbox.q|
  {
    if ctx.outbox.q == [] then 0
    else
      var front, rest := ctx.outbox.q[0], ctx.outbox.q[1..];
      var later := if answers == [] then [] else answers[1..];
      match front.action
      case DropConnection(_, _) => 0
      case UpdateAuthState(_, _) => 1 + FlushCount(WithQueue(AuthUpdated(ctx, front.action), rest), later, now)
      case SendPayload(_, _) =>
        var offer := Offered(ctx.reliable, ctx.valid, front.action, AnswerAt(answers, 0), now);
        if offer.handled then 1 + FlushCount(WithQueue(ctx.(reliable := offer.reliable), rest), later, now) else 0
  }

  /** The payloads among the items, in order. */
  function Payloads(items: seq<Item>): seq<string> {
    if items == [] then []
    else if items[0].action.SendPayload? && items[0].action.data.Some?
    then [items[0].action.data.value] + Payloads(items[1..])
    else Payloads(items[1..])
  }

  lemma {:induction false} PayloadsAppend(a: seq<Item>, b: seq<Item>)
    ensures Payloads(a + b) == Payloads(a) + Payloads(b)
    decreases |a|
  {
    if a == [] {
      assert a + b == b;
    } else {
      PayloadsAppend(a[1..], b);
      assert (a + b)[1..] == a[1..] + b;
    }
  }

  function WireData(wire: seq<Wire>): seq<string> {
    if wire == [] then [] else [wire[0].data] + WireData(wire[1..])
  }

  lemma SuffixOfRest(q: seq<Item>, k: nat)
    requires 0 < k <= |q|
    ensures q[1..][k - 1..] == q[k..]
  {
  }

  /** A flush takes a prefix off the queue and leaves the rest in place; a drop it meets empties the queue. */
  lemma {:induction false} FlushTakesPrefix(ctx: Context, answers: seq<Answer>, now: nat)
    ensures var f, k := Flushed(ctx, answers, now), FlushCount(ctx, answers, now);
            && f.ctx.outbox == ctx.outbox.(q := if f.drop then [] else ctx.outbox.q[k..])
            && (f.drop ==> k < |ctx.outbox.q| && ctx.outbox.q[k].action.DropConnection?)
    decreases |ctx.outbox.q|
  {
    hide Offered, AnswerAt, AuthUpdated;
    var k := FlushCount(ctx, answers, now);
    if k > 0 {
      var front, rest := ctx.outbox.q[0], ctx.outbox.q[1..];
      var later := if answers == [] then [] else answers[1..];
      SuffixOfRest(ctx.outbox.q, k);
      AuthLeavesOutbox(ctx, front.action);
      if front.action.UpdateAuthState? {
        FlushTakesPrefix(WithQueue(AuthUpdated(ctx, front.action), rest), later, now);
      } else {
        var offer := Offered(ctx.reliable, ctx.valid, front.action, AnswerAt(answers, 0), now);
        FlushTakesPrefix(WithQueue(ctx.(reliable := offer.reliable), rest), later, now);
      }
    }
  }

  lemma AuthLeavesOutbox(ctx: Context, a: Action)
    ensures a.UpdateAuthState? ==> AuthUpdated(ctx, a).outbox == ctx.outbox
  {
  }

  lemma OfferWrites(r: Reliable, a: Action, answer: Answer, now: nat)
    requires a.SendPayload?
    ensures var o := Offered(r, true, a, answer, now);
            o.handled ==> |o.wire| <= 1 && WireData(o.wire) == if a.data.Some? then [a.data.value] else []
  {
  }

  /** On a valid handle a flush writes exactly the payloads of the items it takes, in queue order. */
  lemma {:induction false} FlushWritesInOrder(ctx: Context, answers: seq<Answer>, now: nat)
    requires ctx.valid
    ensures WireData(Flushed(ctx, answers, now).wire) == Payloads(ctx.outbox.q[..FlushCount(ctx, answers, now)])
    decreases |ctx.outbox.q|
  {
    hide Offered, AnswerAt;
    var q, k := ctx.outbox.q, FlushCount(ctx, answers, now);
    if k > 0 {
      var front, rest := q[0], q[1..];
      var later := if answers == [] then [] else answers[1..];
      assert q[..k][1..] == rest[..k - 1];
      if front.action.UpdateAuthState? {
        FlushWritesInOrder(WithQueue(AuthUpdated(ctx, front.action), rest), later, now);
      } else {
        var offer := Offered(ctx.reliable, ctx.valid, front.action, AnswerAt(answers, 0), now);
        var c := WithQueue(ctx.(reliable := offer.reliable), rest);
        FlushWritesInOrder(c, later, now);
        OfferWrites(ctx.reliable, front.action, AnswerAt(answers, 0), now);
        WireDataAppends(offer.wire, Flushed(c, later, now).wire);
      }
    }
  }

  lemma WireDataAppends(head: seq<Wire>, rest: seq<Wire>)
    requires |head| <= 1
    ensures WireData(head + rest) == WireData(head) + WireData(rest)
  {
    if head == [] {
      assert head + rest == rest;
    } else {
      assert (head + rest)[1..] == rest;
    }
  }

  // ---------------------------------------------------------------------------
  // Overflow accounting
  // ---------------------------------------------------------------------------

  /** arrivals is every item ever offered to the outbox, numbered by position; taken were flushed. */
  datatype Ledger = Ledger(box: Outbox, arrivals: seq<Item>, taken: seq<Item>, lostLow: set<nat>, lostHigh: set<nat>)

  datatype BoxStep = Arrive(priority: Priority, action: Action) | Take(count: nat)

  /** What an arrival pushes out of a queue that has not overflowed into a drop. */
  function LostTo(ob: Outbox, item: Item): Option<Item> {
    if |ob.q| < ob.capacity then None
    else if item.priority == Low then Some(item)
    else if NewestLow(ob.q) >= 0 then Some(ob.q[NewestLow(ob.q)])
    else Some(item)
  }

  function BoxNext(g: Ledger, step: BoxStep): Ledger {
    match step
    case Arrive(priority, action) =>
      var item := Item(|g.arrivals|, priority, action);
      var lost := LostTo(g.box, item);
      Ledger(Enqueued(g.box, item), g.arrivals + [item], g.taken,
             if lost.Some? && lost.value.priority == Low then g.lostLow + {lost.value.id} else g.lostLow,
             if lost.Some? && lost.value.priority == High then g.lostHigh + {lost.value.id} else g.lostHigh)
    case Take(k) =>
      if k > |g.box.q| then g
      else g.(box := g.box.(q := g.box.q[k..]), taken := g.taken + g.box.q[..k])
  }

  /** Items that survived so far: flushed ones, then queued ones. */
  function Line(g: Ledger): seq<Item> {
    g.taken + g.box.q
  }

  ghost predicate Present(line: seq<Item>, id: nat) {
    exists i | 0 <= i < |line| :: line[i].id == id
  }

  /** In order of arrival, and each item as it arrived. */
  ghost predicate InOrder(line: seq<Item>, arrivals: seq<Item>) {
    && (forall i | 0 <= i < |line| :: line[i].id < |arrivals| && line[i] == arrivals[line[i].id])
    && (forall i, j | 0 <= i < j < |line| :: line[i].id < line[j].id)
  }

  ghost predicate Accounted(g: Ledger, id: nat)
    requires id < |g.arrivals|
  {
    Present(Line(g), id) || id in g.lostLow || id in g.lostHigh
  }

  /** What was lost is recorded under its own priority, and the hits count the high-priority losses. */
  ghost predicate Tallied(g: Ledger) {
    && (forall id | id in g.lostLow :: id < |g.arrivals| && g.arrivals[id].priority == Low)
    && (forall id | id in g.lostHigh :: id < |g.arrivals| && g.arrivals[id].priority == High)
    && |g.lostHigh| == g.box.slowHits < SLOW_HITS_LIMIT
  }

  /** While the outbox has not been replaced by a drop. */
  ghost predicate Balanced(g: Ledger) {
    && |g.box.q| <= g.box.capacity
    && InOrder(Line(g), g.arrivals)
    && (forall id: nat | id < |g.arrivals| :: Accounted(g, id))
    && Tallied(g)
  }

  lemma InOrderAppends(line: seq<Item>, arrivals: seq<Item>, item: Item)
    requires InOrder(line, arrivals) && item.id == |arrivals|
    ensures InOrder(line, arrivals + [item]) && InOrder(line + [item], arrivals + [item])
    ensures forall id: nat :: Present(line, id) ==> Present(line + [item], id)
    ensures Present(line + [item], item.id)
  {
    var longer := line + [item];
    assert longer[|line|] == item;
    forall id: nat | Present(line, id) ensures Present(longer, id) {
      var i :| 0 <= i < |line| && line[i].id == id;
      assert longer[i].id == id;
    }
  }

  lemma InOrderWithout(line: seq<Item>, arrivals: seq<Item>, m: nat)
    requires InOrder(line, arrivals) && m < |line|
    ensures var shorter := line[..m] + line[m + 1..];
            && InOrder(shorter, arrivals)
            && forall id: nat :: Present(line, id) && id != line[m].id ==> Present(shorter, id)
  {
    var shorter := line[..m] + line[m + 1..];
    forall id: nat | Present(line, id) && id != line[m].id ensures Present(shorter, id) {
      var i :| 0 <= i < |line| && line[i].id == id;
      assert shorter[if i < m then i else i - 1].id == id;
    }
  }

  /** The item is the newest of a line that gained it, or is lost; everything older is where it was. */
  lemma StillAccounted(g: Ledger, n: Ledger, item: Item)
    requires Balanced(g) && item.id == |g.arrivals| && n.arrivals == g.arrivals + [item]
    requires g.lostLow <= n.lostLow && g.lostHigh <= n.lostHigh
    requires forall id: nat :: Present(Line(g), id) && id !in n.lostLow ==> Present(Line(n), id)
    requires Accounted(n, item.id)
    ensures forall id: nat | id < |n.arrivals| :: Accounted(n, id)
  {
    hide Line, Present, InOrder;
    forall id: nat | id < |n.arrivals| ensures Accounted(n, id) {
      if id < |g.arrivals| {
        assert Accounted(g, id);
        assert n.arrivals[id] == g.arrivals[id];
      }
    }
  }

  lemma QueuedKeepsBalance(g: Ledger, priority: Priority, action: Action)
    requires Balanced(g) && |g.box.q| < g.box.capacity
    ensures Balanced(BoxNext(g, Arrive(priority, action)))
  {
    var item, n := Item(|g.arrivals|, priority, action), BoxNext(g, Arrive(priority, action));
    assert Line(n) == Line(g) + [item];
    InOrderAppends(Line(g), g.arrivals, item);
    StillAccounted(g, n, item);
  }

  lemma RefusedKeepsBalance(g: Ledger, priority: Priority, action: Action)
    requires Balanced(g) && |g.box.q| >= g.box.capacity
    requires priority == Low || (NewestLow(g.box.q) < 0 && g.box.slowHits + 1 < SLOW_HITS_LIMIT)
    ensures Balanced(BoxNext(g, Arrive(priority, action)))
  {
    hide Tallied, InOrder, Accounted;
    var item, n := Item(|g.arrivals|, priority, action), BoxNext(g, Arrive(priority, action));
    assert Line(n) == Line(g);
    InOrderAppends(Line(g), g.arrivals, item);
    RefusedTallied(g, priority, action);
    RefusedAccounted(g, n, item);
  }

  lemma RefusedTallied(g: Ledger, priority: Priority, action: Action)
    requires Tallied(g) && |g.box.q| >= g.box.capacity
    requires priority == Low || (NewestLow(g.box.q) < 0 && g.box.slowHits + 1 < SLOW_HITS_LIMIT)
    ensures Tallied(BoxNext(g, Arrive(priority, action)))
  {
    hide NewestLow;
    var item, n := Item(|g.arrivals|, priority, action), BoxNext(g, Arrive(priority, action));
    assert n.arrivals == g.arrivals + [item];
    assert |g.arrivals| !in g.lostHigh;
    assert priority == High ==> n.lostHigh == g.lostHigh + {item.id};
  }

  lemma RefusedAccounted(g: Ledger, n: Ledger, item: Item)
    requires Balanced(g) && item.id == |g.arrivals| && n.arrivals == g.arrivals + [item] && Line(n) == Line(g)
    requires g.lostLow <= n.lostLow && g.lostHigh <= n.lostHigh && (item.id in n.lostLow || item.id in n.lostHigh)
    ensures forall id: nat | id < |n.arrivals| :: Accounted(n, id)
  {
    hide Line, Present, InOrder, Tallied;
    StillAccounted(g, n, item);
  }

  lemma EvictedLine(taken: seq<Item>, q: seq<Item>, i: nat, item: Item)
    requires i < |q|
    ensures var m, line := |taken| + i, taken + q;
            line[m] == q[i] && taken + (q[..i] + q[i + 1..] + [item]) == line[..m] + line[m + 1..] + [item]
  {
    var m, line := |taken| + i, taken + q;
    assert line[..m] == taken + q[..i];
    assert line[m + 1..] == q[i + 1..];
  }

  lemma EvictionTallied(g: Ledger, action: Action)
    requires Balanced(g) && |g.box.q| >= g.box.capacity && NewestLow(g.box.q) >= 0
    ensures Tallied(BoxNext(g, Arrive(High, action)))
  {
    hide NewestLow;
    var i := NewestLow(g.box.q);
    assert Line(g)[|g.taken| + i] == g.box.q[i];
  }

  lemma EvictionKeepsBalance(g: Ledger, action: Action)
    requires Balanced(g) && |g.box.q| >= g.box.capacity && NewestLow(g.box.q) >= 0
    ensures Balanced(BoxNext(g, Arrive(High, action)))
  {
    hide NewestLow, Tallied, InOrder, Accounted;
    var item, n := Item(|g.arrivals|, High, action), BoxNext(g, Arrive(High, action));
    var i := NewestLow(g.box.q);
    var m, line := |g.taken| + i, Line(g);
    EvictedLine(g.taken, g.box.q, i, item);
    InOrderWithout(line, g.arrivals, m);
    InOrderAppends(line[..m] + line[m + 1..], g.arrivals, item);
    EvictionAccounted(g, n, item, m);
    EvictionTallied(g, action);
  }

  lemma EvictionAccounted(g: Ledger, n: Ledger, item: Item, m: nat)
    requires Balanced(g) && item.id == |g.arrivals| && n.arrivals == g.arrivals + [item] && m < |Line(g)|
    requires n.lostLow == g.lostLow + {Line(g)[m].id} && n.lostHigh == g.lostHigh
    requires Line(n) == Line(g)[..m] + Line(g)[m + 1..] + [item]
    ensures forall id: nat | id < |n.arrivals| :: Accounted(n, id)
  {
    var shorter := Line(g)[..m] + Line(g)[m + 1..];
    InOrderWithout(Line(g), g.arrivals, m);
    InOrderAppends(shorter, g.arrivals, item);
    StillAccounted(g, n, item);
  }

  lemma ArriveKeepsBalance(g: Ledger, priority: Priority, action: Action)
    requires Balanced(g) && !g.box.dropPending && !BoxNext(g, Arrive(priority, action)).box.dropPending
    ensures Balanced(BoxNext(g, Arrive(priority, action)))
  {
    hide Balanced;
    if |g.box.q| < g.box.capacity {
      QueuedKeepsBalance(g, priority, action);
    } else if priority == High && NewestLow(g.box.q) >= 0 {
      EvictionKeepsBalance(g, action);
    } else {
      RefusedKeepsBalance(g, priority, action);
    }
  }

  lemma TakeKeepsBalance(g: Ledger, k: nat)
    requires Balanced(g)
    ensures Balanced(BoxNext(g, Take(k)))
  {
    var n := BoxNext(g, Take(k));
    assert Line(n) == Line(g);
    forall id: nat | id < |n.arrivals| ensures Accounted(n, id) {
      assert Accounted(g, id);
    }
  }

  datatype BoxRun = BoxRun(states: seq<Ledger>, steps: seq<BoxStep>, capacity: nat) {
    ghost predicate Follows(i: nat) {
      i < |steps| && |states| == |steps| + 1 && states[i + 1] == BoxNext(states[i], steps[i])
    }

    ghost predicate Valid() {
      && |states| == |steps| + 1
      && states[0] == Ledger(Outbox([], capacity, 0, false), [], [], {}, {})
      && forall i: nat | i < |steps| :: Follows(i)
    }
  }

  const NEW_LEDGER := Ledger(NEW_CONTEXT.outbox, [], [], {}, {})

  /** Some run of a new connection's outbox ends in this state. */
  ghost predicate BoxReachable(g: Ledger) {
    exists r: BoxRun :: r.Valid() && r.capacity == OUTBOX_CAPACITY && r.states[|r.steps|] == g
  }

  lemma NewBoxIsReachable()
    ensures BoxReachable(NEW_LEDGER)
  {
    assert BoxRun([NEW_LEDGER], [], OUTBOX_CAPACITY).Valid();
  }

  lemma BoxNextIsReachable(g: Ledger, step: BoxStep)
    requires BoxReachable(g)
    ensures BoxReachable(BoxNext(g, step))
  {
    hide BoxNext;
    var r: BoxRun :| r.Valid() && r.capacity == OUTBOX_CAPACITY && r.states[|r.steps|] == g;
    var longer := BoxRun(r.states + [BoxNext(g, step)], r.steps + [step], r.capacity);
    forall i: nat | i < |longer.steps| ensures longer.Follows(i) {
      assert i < |r.steps| ==> r.Follows(i);
    }
    assert longer.Valid() && longer.states[|longer.steps|] == BoxNext(g, step);
  }

  lemma {:induction false} RunKeepsBalance(r: BoxRun, k: nat)
    requires r.Valid() && k <= |r.steps|
    ensures !r.states[k].box.dropPending ==> Balanced(r.states[k])
  {
    if k > 0 {
      RunKeepsBalance(r, k - 1);
      assert r.Follows(k - 1);
      match r.steps[k - 1]
      case Arrive(priority, action) =>
        if !r.states[k].box.dropPending {
          ArriveKeepsBalance(r.states[k - 1], priority, action);
        }
      case Take(count) =>
        if !r.states[k].box.dropPending {
          TakeKeepsBalance(r.states[k - 1], count);
        }
    }
  }

  /**
   Until the outbox is replaced by a drop: it stays within capacity, what was flushed and what is
   queued are in order of arrival, every high-priority arrival except at most three is among
   them, and everything else that is missing has low priority.
   */
  lemma OutboxLosesAtMostThree(r: BoxRun, k: nat)
    requires r.Valid() && k <= |r.steps| && !r.states[k].box.dropPending
    ensures var g := r.states[k];
            && |g.box.q| <= g.box.capacity && InOrder(Line(g), g.arrivals) && |g.lostHigh| <= 3
            && forall id: nat | id < |g.arrivals| && g.arrivals[id].priority == High && id !in g.lostHigh ::
                 Present(Line(g), id)
  {
    RunKeepsBalance(r, k);
    var g := r.states[k];
    forall id: nat | id < |g.arrivals| && g.arrivals[id].priority == High && id !in g.lostHigh
      ensures Present(Line(g), id)
    {
      assert Accounted(g, id);
    }
  }

  predicate EndsWith(q: seq<Item>, item: Item) {
    q != [] && q[|q| - 1] == item
  }

  ghost predicate AllHigh(q: seq<Item>) {
    forall i | 0 <= i < |q| :: q[i].priority == High
  }

  lemma NoLowIff(q: seq<Item>)
    ensures NewestLow(q) < 0 <==> AllHigh(q)
  {
    hide NewestLow;
    if NewestLow(q) >= 0 {
      assert q[NewestLow(q)].priority == Low;
    }
  }

  lemma TurnedAway(ob: Outbox, item: Item)
    requires item.priority == High && !EndsWith(ob.q, item) && !item.action.DropConnection?
    requires |ob.q| >= ob.capacity && NewestLow(ob.q) < 0
    ensures !EndsWith(Enqueued(ob, item).q, item)
  {
  }

  lemma TakenIn(ob: Outbox, item: Item)
    requires item.priority == High && (|ob.q| < ob.capacity || NewestLow(ob.q) >= 0)
    ensures EndsWith(Enqueued(ob, item).q, item)
  {
    hide NewestLow;
  }

  /** A high-priority item is turned away exactly when the queue is full and holds nothing of low priority. */
  lemma HighLostOnlyWithoutLow(ob: Outbox, item: Item)
    requires item.priority == High && !EndsWith(ob.q, item) && !item.action.DropConnection?
    ensures !EndsWith(Enqueued(ob, item).q, item) <==> |ob.q| >= ob.capacity && AllHigh(ob.q)
  {
    hide Enqueued, NewestLow, EndsWith, AllHigh;
    NoLowIff(ob.q);
    if |ob.q| >= ob.capacity && NewestLow(ob.q) < 0 {
      TurnedAway(ob, item);
    } else {
      TakenIn(ob, item);
    }
  }

  /** The queued items of one priority, in order. */
  function Only(q: seq<Item>, priority: Priority): seq<Item> {
    if q == [] then []
    else Only(q[..|q| - 1], priority) + if q[|q| - 1].priority == priority then [q[|q| - 1]] else []
  }

  lemma {:induction false} OnlyOfConcat(a: seq<Item>, b: seq<Item>, priority: Priority)
    ensures Only(a + b, priority) == Only(a, priority) + Only(b, priority)
    decreases |b|
  {
    if b == [] {
      assert a + b == a;
    } else {
      OnlyOfConcat(a, b[..|b| - 1], priority);
      assert (a + b)[..|a + b| - 1] == a + b[..|b| - 1];
    }
  }

  lemma {:induction false} OnlyOfHigh(q: seq<Item>)
    requires forall i | 0 <= i < |q| :: q[i].priority == High
    ensures Only(q, Low) == [] && Only(q, High) == q
    decreases |q|
  {
    if q != [] {
      OnlyOfHigh(q[..|q| - 1]);
    }
  }

  lemma OnlyOfOne(x: Item, priority: Priority)
    ensures Only([x], priority) == if x.priority == priority then [x] else []
  {
    assert [x][..0] == [];
  }

  lemma OnlyOfThree(a: seq<Item>, b: seq<Item>, c: seq<Item>, priority: Priority)
    ensures Only(a + b + c, priority) == Only(a, priority) + Only(b, priority) + Only(c, priority)
  {
    OnlyOfConcat(a + b, c, priority);
    OnlyOfConcat(a, b, priority);
  }

  /** A high-priority arrival at a full queue costs exactly the newest low-priority item, if there is one. */
  lemma EvictionCostsNewestLow(ob: Outbox, item: Item)
    requires |ob.q| >= ob.capacity && item.priority == High && NewestLow(ob.q) >= 0
    ensures var n, lows := Enqueued(ob, item).q, Only(ob.q, Low);
            && lows != [] && Only(n, Low) == lows[..|lows| - 1]
            && Only(n, High) == Only(ob.q, High) + [item]
  {
    hide Only;
    var i := NewestLow(ob.q);
    var a, x, b := ob.q[..i], ob.q[i], ob.q[i + 1..];
    assert ob.q == a + [x] + b;
    OnlyOfHigh(b);
    OnlyOfOne(x, Low);
    OnlyOfOne(x, High);
    OnlyOfOne(item, Low);
    OnlyOfOne(item, High);
    OnlyOfThree(a, [x], b, Low);
    OnlyOfThree(a, [x], b, High);
    OnlyOfThree(a, b, [item], Low);
    OnlyOfThree(a, b, [item], High);
  }

  // ---------------------------------------------------------------------------
  // After the overflow
  // ---------------------------------------------------------------------------

  function EnqueuedAll(ob: Outbox, items: seq<Item>): Outbox {
    if items == [] then ob else Enqueued(EnqueuedAll(ob, items[..|items| - 1]), items[|items| - 1])
  }

  predicate DropFirst(ob: Outbox) {
    ob.q != [] && ob.q[0].action == DropConnection(4409, "slow_outbox_overflow") && ob.q[0].priority == High
  }

  /**
   Once a backlog has been replaced, whatever arrives later, the next flush writes nothing and drops
   the connection.
   */
  lemma {:induction false} OverflowEndsInDrop(ctx: Context, items: seq<Item>, answers: seq<Answer>, now: nat)
    requires DropFirst(ctx.outbox)
    ensures var f := Flushed(ctx.(outbox := EnqueuedAll(ctx.outbox, items)), answers, now);
            DropFirst(EnqueuedAll(ctx.outbox, items)) && f.drop && f.wire == []
  {
    if items != [] {
      OverflowEndsInDrop(ctx, items[..|items| - 1], answers, now);
    }
  }

  /** The fourth high-priority item turned away replaces the backlog by a single drop. */
  lemma FourthLossReplacesBacklog(ob: Outbox, item: Item)
    requires |ob.q| >= ob.capacity && item.priority == High
    requires forall i | 0 <= i < |ob.q| :: ob.q[i].priority == High
    ensures var n := Enqueued(ob, item);
            if ob.slowHits + 1 >= SLOW_HITS_LIMIT then |n.q| == 1 && DropFirst(n) && n.dropPending && n.slowHits == 0
            else n == ob.(slowHits := ob.slowHits + 1)
  {
  }
}
