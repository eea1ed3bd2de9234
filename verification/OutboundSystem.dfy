/**
 The worker together with its clients: every connection of every run of the whole system is a run
 of the single link and of the single outbox, so what holds of those holds of the worker.
 */
module OutboundSystem {
  import opened Domain
  import opened Outbound
  import opened OutboundQueues
  import D = OutboundDelivery
  import R = OutboundRuns

  /**
   What goes with one attached connection: the link to its client, the account of its outbox, and
   every payload its flushes wrote.
   */
  datatype Side = Side(link: D.Link, book: Ledger, written: seq<string>)

  const NEW_SIDE := Side(D.NEW_LINK, NEW_LEDGER, [])

  datatype System = System(net: Net, sides: map<ConnId, Side>)

  /** A call of the worker, the network delivering a frame, or a client acking what it holds. */
  datatype SystemStep =
    | Call(call: NetStep)
    | Carry(conn: ConnId, wire: Wire)
    | ClientAcks(conn: ConnId, upTo: nat)

  function SideFlushed(side: Side, ctx: Context, answers: seq<Answer>, now: nat): Side {
    var f := Flushed(ctx, answers, now);
    Side(D.Wrote(side.link, f.ctx.reliable, f.wire),
         BoxNext(side.book, Take(FlushCount(ctx, answers, now))),
         side.written + WireData(f.wire))
  }

  function SideSwept(side: Side, s: Sweep): Side {
    side.(link := side.link.(server := s.ctx.reliable, flight := side.link.flight + multiset(s.wire)))
  }

  /** What a call makes of the side of an attached connection; everything written is put in flight. */
  function SideAfter(s: System, c: ConnId, call: NetStep, cfg: Config): Side {
    if c !in s.sides || c !in s.net.conns || call == Attach(c) then NEW_SIDE
    else
      var side, ctx := s.sides[c], s.net.conns[c];
      match call
      case Enqueue(d, item) =>
        if d == c then side.(book := BoxNext(side.book, Arrive(item.priority, item.action))) else side
      case FlushConn(d, answers, now) => if d == c then SideFlushed(side, ctx, answers, now) else side
      case Ack(d, ack) => if d == c then side.(link := D.Next(side.link, D.AckArrives(ack), cfg)) else side
      case SweepAll(answers, now) =>
        if c in s.net.pending then SideSwept(side, SweptConn(s.net, c, answers, now, cfg)) else side
      case _ => side
  }

  function Linked(s: System, c: ConnId, step: D.LinkStep, cfg: Config): System {
    if c in s.sides then s.(sides := s.sides[c := s.sides[c].(link := D.Next(s.sides[c].link, step, cfg))]) else s
  }

  function SystemNext(s: System, step: SystemStep, cfg: Config): System {
    match step
    case Call(call) =>
      var net := NetNext(s.net, call, cfg);
      System(net, map c | c in net.conns :: SideAfter(s, c, call, cfg))
    case Carry(c, w) => Linked(s, c, D.Deliver(w), cfg)
    case ClientAcks(c, a) => Linked(s, c, D.ClientAck(a), cfg)
  }

  /**
   Items are labelled in order of arrival, the network delivers only what was written, and
   ClientAcks is an ack of frames the client holds. The acks the worker receives may be anything.
   */
  ghost predicate SystemEnabled(s: System, step: SystemStep) {
    match step
    case Call(Enqueue(c, item)) => c in s.sides ==> item.id == |s.sides[c].book.arrivals|
    case Call(_) => true
    case Carry(c, w) => c in s.sides && D.Enabled(s.sides[c].link, D.Deliver(w))
    case ClientAcks(c, a) => c in s.sides && D.Enabled(s.sides[c].link, D.ClientAck(a))
  }

  datatype SystemRun = SystemRun(states: seq<System>, steps: seq<SystemStep>, cfg: Config) {
    ghost predicate Shaped() {
      |states| == |steps| + 1 && states[0] == System(Net(map[], {}), map[])
    }

    ghost predicate Follows(i: nat)
      requires Shaped() && i < |steps|
    {
      SystemEnabled(states[i], steps[i]) && states[i + 1] == SystemNext(states[i], steps[i], cfg)
    }

    ghost predicate Valid() {
      Shaped() && forall i: nat | i < |steps| :: Follows(i)
    }

    /** Every ack the worker receives from these connections was sent by their clients. */
    ghost predicate Trusts(trusted: set<ConnId>)
      requires Shaped()
    {
      forall i: nat | i < |steps| :: HonestCall(states[i], steps[i], trusted)
    }
  }

  predicate HonestCall(s: System, step: SystemStep, trusted: set<ConnId>) {
    step.Call? && step.call.Ack? && step.call.conn in s.sides && step.call.conn in trusted
    ==> step.call.ack in s.sides[step.call.conn].link.acks
  }

  // ---------------------------------------------------------------------------
  // Every connection is a link run, and with a valid handle an outbox run.
  // ---------------------------------------------------------------------------

  /** The connection's buffer is the server end of a link in some run, with honest acks for a trusted client. */
  ghost predicate IsLink(side: Side, ctx: Context, cfg: Config, honest: bool) {
    side.link.server == ctx.reliable && D.Reachable(side.link, cfg, honest)
  }

  /** The connection's outbox is that of some outbox run, and what was taken from it was written. */
  ghost predicate IsBox(side: Side, ctx: Context) {
    side.book.box == ctx.outbox && BoxReachable(side.book) && side.written == Payloads(side.book.taken)
  }

  ghost predicate Matches(side: Side, ctx: Context, cfg: Config, honest: bool) {
    IsLink(side, ctx, cfg, honest) && (ctx.valid ==> IsBox(side, ctx))
  }

  ghost predicate AllMatch(s: System, cfg: Config, trusted: set<ConnId>) {
    && s.sides.Keys == s.net.conns.Keys
    && forall c | c in s.net.conns :: Matches(s.sides[c], s.net.conns[c], cfg, c in trusted)
  }

  lemma NewMatches(cfg: Config, honest: bool)
    ensures Matches(NEW_SIDE, NEW_CONTEXT, cfg, honest)
  {
    D.NewIsReachable(cfg, honest);
    NewBoxIsReachable();
  }

  lemma EnqueueMatches(side: Side, ctx: Context, item: Item, cfg: Config, honest: bool)
    requires Matches(side, ctx, cfg, honest) && item.id == |side.book.arrivals|
    ensures Matches(side.(book := BoxNext(side.book, Arrive(item.priority, item.action))),
                    ctx.(outbox := Enqueued(ctx.outbox, item)), cfg, honest)
  {
    hide BoxReachable, D.Reachable, Enqueued, LostTo;
    if ctx.valid {
      BoxNextIsReachable(side.book, Arrive(item.priority, item.action));
    }
  }

  lemma FlushIsLink(side: Side, ctx: Context, answers: seq<Answer>, now: nat, cfg: Config, honest: bool)
    requires IsLink(side, ctx, cfg, honest)
    ensures IsLink(SideFlushed(side, ctx, answers, now), Flushed(ctx, answers, now).ctx, cfg, honest)
  {
    hide D.Reachable, Flushed, D.StampAll;
    var f := Flushed(ctx, answers, now);
    D.FlushIsStamps(side.link, ctx, answers, now, cfg);
    D.StampAllIsReachable(side.link, D.ReliablePayloads(f.wire), now, cfg, honest);
  }

  lemma FlushIsBox(side: Side, ctx: Context, answers: seq<Answer>, now: nat)
    requires IsBox(side, ctx) && ctx.valid && !Flushed(ctx, answers, now).drop
    ensures IsBox(SideFlushed(side, ctx, answers, now), Flushed(ctx, answers, now).ctx)
  {
    hide BoxReachable;
    var k := FlushCount(ctx, answers, now);
    FlushTakesPrefix(ctx, answers, now);
    FlushWritesInOrder(ctx, answers, now);
    PayloadsAppend(side.book.taken, ctx.outbox.q[..k]);
    BoxNextIsReachable(side.book, Take(k));
  }

  lemma FlushMatches(side: Side, ctx: Context, answers: seq<Answer>, now: nat, cfg: Config, honest: bool)
    requires Matches(side, ctx, cfg, honest)
    ensures var f := Flushed(ctx, answers, now);
            f.ctx.valid == ctx.valid
            && (!(f.drop && f.ctx.valid) ==> Matches(SideFlushed(side, ctx, answers, now), f.ctx, cfg, honest))
  {
    hide IsLink, IsBox, SideFlushed;
    FlushGrowth(ctx, answers, now);
    FlushIsLink(side, ctx, answers, now, cfg, honest);
    if ctx.valid && !Flushed(ctx, answers, now).drop {
      FlushIsBox(side, ctx, answers, now);
    }
  }

  lemma AckMatches(side: Side, ctx: Context, ack: nat, cfg: Config, honest: bool)
    requires Matches(side, ctx, cfg, honest) && (honest ==> ack in side.link.acks)
    ensures Matches(side.(link := D.Next(side.link, D.AckArrives(ack), cfg)),
                    ctx.(reliable := AckedBy(ctx.reliable, ack)), cfg, honest)
  {
    hide D.Reachable, BoxReachable;
    D.NextIsReachable(side.link, D.AckArrives(ack), cfg, honest);
  }

  lemma SweepMatches(side: Side, ctx: Context, answers: seq<Answer>, now: nat, cfg: Config, honest: bool)
    requires Matches(side, ctx, cfg, honest)
    ensures Matches(SideSwept(side, Swept(ctx, answers, now, cfg)), Swept(ctx, answers, now, cfg).ctx, cfg, honest)
  {
    hide D.Reachable, BoxReachable, Resent;
    D.NextIsReachable(side.link, D.Retransmit(answers, now), cfg, honest);
    assert side.link.(server := side.link.server, flight := side.link.flight + multiset([])) == side.link;
  }

  lemma ClientMatches(side: Side, ctx: Context, step: D.LinkStep, cfg: Config, honest: bool)
    requires Matches(side, ctx, cfg, honest) && D.Enabled(side.link, step) && (step.Deliver? || step.ClientAck?)
    ensures Matches(side.(link := D.Next(side.link, step, cfg)), ctx, cfg, honest)
  {
    hide D.Reachable, BoxReachable;
    D.NextIsReachable(side.link, step, cfg, honest);
  }

  lemma CallKeepsMatch(s: System, call: NetStep, cfg: Config, trusted: set<ConnId>, c: ConnId)
    requires AllMatch(s, cfg, trusted) && SystemEnabled(s, Call(call)) && HonestCall(s, Call(call), trusted)
    requires c in NetNext(s.net, call, cfg).conns
    ensures Matches(SideAfter(s, c, call, cfg), NetNext(s.net, call, cfg).conns[c], cfg, c in trusted)
  {
    hide Matches, Flushed, Swept, SideFlushed, SideSwept, BoxNext, AckedBy, Enqueued;
    var honest := c in trusted;
    NewMatches(cfg, honest);
    if call != Attach(c) {
      assert c in s.net.conns;
      var side, ctx := s.sides[c], s.net.conns[c];
      match call
      case Enqueue(d, item) =>
        if d == c {
          EnqueueMatches(side, ctx, item, cfg, honest);
        }
      case FlushConn(d, answers, now) =>
        if d == c {
          FlushMatches(side, ctx, answers, now, cfg, honest);
        }
      case Ack(d, ack) =>
        if d == c {
          AckMatches(side, ctx, ack, cfg, honest);
        }
      case Invalidate(d) => InvalidateMatches(side, ctx, cfg, honest);
      case SweepAll(answers, now) => SweepMatches(side, ctx, AnswersFor(answers, c), now, cfg, honest);
      case _ =>
    }
  }

  lemma InvalidateMatches(side: Side, ctx: Context, cfg: Config, honest: bool)
    requires Matches(side, ctx, cfg, honest)
    ensures Matches(side, ctx.(valid := false), cfg, honest)
  {
  }

  lemma StepKeepsMatch(s: System, step: SystemStep, cfg: Config, trusted: set<ConnId>)
    requires AllMatch(s, cfg, trusted) && SystemEnabled(s, step) && HonestCall(s, step, trusted)
    ensures AllMatch(SystemNext(s, step, cfg), cfg, trusted)
  {
    hide Matches, SideAfter, NetNext, HonestCall;
    match step
    case Call(call) =>
      forall c | c in NetNext(s.net, call, cfg).conns
        ensures Matches(SideAfter(s, c, call, cfg), NetNext(s.net, call, cfg).conns[c], cfg, c in trusted)
      {
        CallKeepsMatch(s, call, cfg, trusted, c);
      }
    case Carry(c, w) => ClientMatches(s.sides[c], s.net.conns[c], D.Deliver(w), cfg, c in trusted);
    case ClientAcks(c, a) => ClientMatches(s.sides[c], s.net.conns[c], D.ClientAck(a), cfg, c in trusted);
  }

  /**
   In every run of the system, each attached connection's reliable state is the server end of a
   link run with its client, one with honest acks if the client is trusted, and with a valid
   handle its outbox is that of an outbox run whose taken items were written in order.
   */
  lemma {:induction false} ConnectionsAreRuns(r: SystemRun, k: nat, trusted: set<ConnId>)
    requires r.Valid() && r.Trusts(trusted) && k <= |r.steps|
    ensures AllMatch(r.states[k], r.cfg, trusted)
  {
    hide SystemNext, SystemEnabled, Matches, HonestCall;
    if k > 0 {
      ConnectionsAreRuns(r, k - 1, trusted);
      assert r.Follows(k - 1);
      StepKeepsMatch(r.states[k - 1], r.steps[k - 1], r.cfg, trusted);
    }
  }

  /** Some link run, honest if the client is trusted, ends in the connection's link. */
  lemma LinkRunOf(r: SystemRun, k: nat, c: ConnId, trusted: set<ConnId>) returns (lr: D.LinkRun)
    requires r.Valid() && r.Trusts(trusted) && k <= |r.steps| && c in r.states[k].net.conns
    ensures c in r.states[k].sides && r.states[k].sides[c].link.server == r.states[k].net.conns[c].reliable
    ensures lr.Valid() && lr.cfg == r.cfg && lr.states[|lr.steps|] == r.states[k].sides[c].link
    ensures c in trusted ==> lr.HonestlyAcked()
  {
    ConnectionsAreRuns(r, k, trusted);
    var honest := c in trusted;
    assert Matches(r.states[k].sides[c], r.states[k].net.conns[c], r.cfg, honest);
    lr :| && lr.Valid() && lr.cfg == r.cfg && lr.states[|lr.steps|] == r.states[k].sides[c].link
          && (honest ==> lr.HonestlyAcked());
  }

  // ---------------------------------------------------------------------------
  // What that gives the worker
  // ---------------------------------------------------------------------------

  /**
   At least once, for every connection whose client acks only what it has, whatever the others do:
   for each number it has stamped, the client holds that frame or the connection still has it, with
   the bytes first sent, for resending.
   */
  lemma WorkerDeliversAtLeastOnce(r: SystemRun, k: nat, c: ConnId, s: nat)
    requires r.Valid() && r.Trusts({c}) && k <= |r.steps| && c in r.states[k].net.conns
    requires 1 <= s <= r.states[k].net.conns[c].reliable.nextSeq
    ensures c in r.states[k].sides
    ensures var rel, link := r.states[k].net.conns[c].reliable, r.states[k].sides[c].link;
            && rel.nextSeq == |link.log| && |rel.buffer| == rel.nextSeq - rel.ackedSeq
            && (s <= rel.ackedSeq ==> Stamped(s, link.log[s - 1]) in link.received)
            && (s > rel.ackedSeq ==> rel.buffer[s - rel.ackedSeq - 1].bytes == Stamped(s, link.log[s - 1]))
  {
    var lr := LinkRunOf(r, k, c, {c});
    D.AtLeastOnce(lr, |lr.steps|, s);
  }

  /** Whatever clients ack, every buffer holds the last |buffer| numbers stamped, with the bytes first sent. */
  lemma WorkerBufferIsTail(r: SystemRun, k: nat, c: ConnId, i: nat)
    requires r.Valid() && k <= |r.steps| && c in r.states[k].net.conns
    requires i < |r.states[k].net.conns[c].reliable.buffer|
    ensures c in r.states[k].sides
    ensures var rel, log := r.states[k].net.conns[c].reliable, r.states[k].sides[c].link.log;
            var s := |log| - |rel.buffer| + 1 + i;
            && rel.nextSeq == |log| && 1 <= s <= |log|
            && rel.buffer[i].number == s && rel.buffer[i].bytes == Stamped(s, log[s - 1])
  {
    var lr := LinkRunOf(r, k, c, {});
    D.BufferIsTail(lr, |lr.steps|, i);
  }

  /** No frame is ever written to a client more often than the retransmit limit allows, whatever clients ack. */
  lemma WorkerSendsAreBounded(r: SystemRun, k: nat, c: ConnId, w: Wire)
    requires r.Valid() && k <= |r.steps| && c in r.states[k].net.conns
    ensures c in r.states[k].sides && r.states[k].sides[c].link.flight[w] <= D.MaxSends(r.cfg)
  {
    var lr := LinkRunOf(r, k, c, {});
    D.SendsAreBounded(lr, |lr.steps|, w);
  }

  /**
   While its handle is valid and its outbox has not overflowed into a drop, a connection has been
   written, in order of arrival, every payload that arrived for it except those still queued, low
   priority ones, and at most three of high priority.
   */
  lemma WorkerLosesAtMostThree(r: SystemRun, k: nat, c: ConnId)
    requires r.Valid() && k <= |r.steps| && c in r.states[k].net.conns
    requires r.states[k].net.conns[c].valid && !r.states[k].net.conns[c].outbox.dropPending
    ensures c in r.states[k].sides
    ensures var side, queued := r.states[k].sides[c], r.states[k].net.conns[c].outbox.q;
            var line := side.book.taken + queued;
            && side.written == Payloads(side.book.taken) && |queued| <= OUTBOX_CAPACITY
            && InOrder(line, side.book.arrivals) && |side.book.lostHigh| <= 3
            && forall id: nat | id < |side.book.arrivals| && id !in side.book.lostHigh ::
                 side.book.arrivals[id].priority == High ==> Present(line, id)
  {
    ConnectionsAreRuns(r, k, {});
    var side, ctx := r.states[k].sides[c], r.states[k].net.conns[c];
    assert Matches(side, ctx, r.cfg, false);
    var br: BoxRun :| br.Valid() && br.capacity == OUTBOX_CAPACITY && br.states[|br.steps|] == side.book;
    CapacityIsKept(br, |br.steps|);
    OutboxLosesAtMostThree(br, |br.steps|);
  }

  lemma {:induction false} CapacityIsKept(r: BoxRun, k: nat)
    requires r.Valid() && k <= |r.steps|
    ensures r.states[k].box.capacity == r.capacity
  {
    if k > 0 {
      CapacityIsKept(r, k - 1);
      assert r.Follows(k - 1);
    }
  }

  /** Step i does not start a new connection under the same id. */
  ghost predicate SameConnection(r: SystemRun, i: nat, c: ConnId)
    requires r.Shaped() && i < |r.steps|
  {
    c in r.states[i + 1].net.conns && r.steps[i] != Call(Attach(c))
  }

  lemma SidesAreAttached(r: SystemRun, k: nat)
    requires r.Valid() && k <= |r.steps|
    ensures r.states[k].sides.Keys == r.states[k].net.conns.Keys
  {
    ConnectionsAreRuns(r, k, {});
  }

  /** A connection's number is never given to a second payload: its log only grows while it is attached. */
  lemma {:induction false} WorkerNeverReusesNumbers(r: SystemRun, i: nat, j: nat, c: ConnId)
    requires r.Valid() && i <= j <= |r.steps| && c in r.states[i].net.conns
    requires forall k: nat | i <= k < j :: SameConnection(r, k, c)
    ensures c in r.states[i].sides && c in r.states[j].sides && c in r.states[j].net.conns
    ensures r.states[i].sides[c].link.log <= r.states[j].sides[c].link.log
    decreases j
  {
    hide SystemNext, SystemEnabled;
    SidesAreAttached(r, i);
    if i < j {
      SidesAreAttached(r, j - 1);
      WorkerNeverReusesNumbers(r, i, j - 1, c);
      assert r.Follows(j - 1) && SameConnection(r, j - 1, c);
      LogGrows(r.states[j - 1], r.steps[j - 1], r.cfg, c);
    }
  }

  lemma LogGrows(s: System, step: SystemStep, cfg: Config, c: ConnId)
    requires c in s.sides && c in s.net.conns && s.sides.Keys == s.net.conns.Keys && step != Call(Attach(c))
    requires c in SystemNext(s, step, cfg).net.conns
    ensures var n := SystemNext(s, step, cfg);
            c in n.sides && s.sides[c].link.log <= n.sides[c].link.log
  {
    hide NetNext, Flushed, Swept, FlushCount, BoxNext, AckedBy;
  }

  // ---------------------------------------------------------------------------
  // The worker takes part in such runs.
  // ---------------------------------------------------------------------------

  /** Given the calls of any run of the system, a new worker goes through the states of that run. */
  method FollowRun(worker: OutgoingWorker, r: SystemRun)
    requires worker.State() == Net(map[], {}) && r.Valid()
    modifies worker
    ensures worker.State() == r.states[|r.steps|].net
  {
    hide NetNext, SideAfter;
    for i := 0 to |r.steps|
      invariant worker.State() == r.states[i].net
    {
      assert r.Follows(i);
      if r.steps[i].Call? {
        R.Perform(worker, r.steps[i].call, r.cfg);
      }
    }
  }
}
