/**
 The worker with all its connections at once: any script of calls is a run, and in every run each
 connection's buffer stays an exact run of sequence numbers as long as acks are honest.
 */
module OutboundRuns {
  import opened Outbound
  import opened OutboundQueues
  import D = OutboundDelivery

  /** The buffer holds exactly ackedSeq + 1 .. nextSeq, for some history of payloads. */
  ghost predicate Gapless(r: Reliable) {
    exists log :: D.Exact(r, log)
  }

  ghost predicate AllGapless(n: Net) {
    forall c | c in n.conns :: Gapless(n.conns[c].reliable)
  }

  /** The client acks nothing that was never stamped for it. */
  ghost predicate HonestAck(n: Net, step: NetStep) {
    step.Ack? && step.conn in n.conns ==> step.ack <= n.conns[step.conn].reliable.nextSeq
  }

  lemma {:induction false} StampAllKeepsExact(l: D.Link, payloads: seq<string>, now: nat, cfg: Config)
    requires D.Exact(l.server, l.log)
    ensures var s := D.StampAll(l, payloads, now, cfg); D.Exact(s.server, s.log)
    decreases |payloads|
  {
    if payloads != [] {
      D.StampKeepsExact(l.server, l.log, payloads[0], now);
      StampAllKeepsExact(D.Next(l, D.Stamp(payloads[0], now), cfg), payloads[1..], now, cfg);
    }
  }

  lemma FlushKeepsGapless(ctx: Context, answers: seq<Answer>, now: nat, cfg: Config)
    requires Gapless(ctx.reliable)
    ensures Gapless(Flushed(ctx, answers, now).ctx.reliable)
  {
    hide D.Exact;
    var log :| D.Exact(ctx.reliable, log);
    var l := D.Link(ctx.reliable, log, multiset{}, {}, {});
    D.FlushIsStamps(l, ctx, answers, now, cfg);
    StampAllKeepsExact(l, D.ReliablePayloads(Flushed(ctx, answers, now).wire), now, cfg);
  }

  /** An ack keeps the buffer gapless if and only if it is honest. */
  lemma AckKeepsGaplessIff(r: Reliable, ack: nat)
    requires Gapless(r)
    ensures Gapless(AckedBy(r, ack)) <==> ack <= r.nextSeq
  {
    var log :| D.Exact(r, log);
    D.AckKeepsExactIff(r, log, ack);
    if ack <= r.nextSeq {
      assert D.Exact(AckedBy(r, ack), log);
    }
  }

  lemma SweepKeepsGapless(ctx: Context, answers: seq<Answer>, now: nat, cfg: Config)
    requires Gapless(ctx.reliable)
    ensures Gapless(Swept(ctx, answers, now, cfg).ctx.reliable)
  {
    var log :| D.Exact(ctx.reliable, log);
    D.ResentShape(ctx.reliable.buffer, answers, now, cfg);
    assert D.Exact(Swept(ctx, answers, now, cfg).ctx.reliable, log);
  }

  lemma StepKeepsGapless(n: Net, step: NetStep, cfg: Config)
    requires AllGapless(n) && HonestAck(n, step)
    ensures AllGapless(NetNext(n, step, cfg))
  {
    hide Gapless, Flushed, Swept, AckedBy;
    match step
    case Attach(_) => NewIsGapless();
    case FlushConn(c, answers, now) =>
      if c in n.conns {
        FlushKeepsGapless(n.conns[c], answers, now, cfg);
      }
    case Ack(c, ack) =>
      if c in n.conns {
        AckKeepsGaplessIff(n.conns[c].reliable, ack);
      }
    case SweepAll(answers, now) =>
      forall c | c in n.conns ensures Gapless(SweptConn(n, c, answers, now, cfg).ctx.reliable) {
        SweepKeepsGapless(n.conns[c], AnswersFor(answers, c), now, cfg);
      }
    case _ =>
  }

  lemma NewIsGapless()
    ensures Gapless(NEW_CONTEXT.reliable)
  {
    assert D.Exact(NEW_CONTEXT.reliable, []);
  }

  /** In every run with honest acks, every attached connection holds exactly ackedSeq + 1 .. nextSeq. */
  lemma {:induction false} EveryConnectionStaysGapless(r: NetRun, k: nat)
    requires r.Valid() && k <= |r.steps|
    requires forall i: nat | i < |r.steps| :: HonestAck(r.states[i], r.steps[i])
    ensures AllGapless(r.states[k])
  {
    hide NetNext, HonestAck, Gapless;
    if k > 0 {
      EveryConnectionStaysGapless(r, k - 1);
      assert r.Follows(k - 1);
      StepKeepsGapless(r.states[k - 1], r.steps[k - 1], r.cfg);
    }
  }

  // ---------------------------------------------------------------------------
  // The worker goes through such runs.
  // ---------------------------------------------------------------------------

  method Perform(worker: OutgoingWorker, step: NetStep, cfg: Config)
    modifies worker
    ensures worker.State() == NetNext(old(worker.State()), step, cfg)
  {
    hide SweptAll, FlushedAt, AckedAt, EnqueuedAt;
    match step
    case Attach(c) => worker.Attach(c);
    case Detach(c) => worker.Detach(c);
    case Invalidate(c) => worker.Invalidate(c);
    case Enqueue(c, item) => var _ := worker.EnqueueToOutbox(c, item);
    case FlushConn(c, answers, now) => var _ := worker.FlushConnectionOutbox(c, answers, now);
    case Ack(c, ack) => worker.OnAck(c, ack);
    case SweepAll(answers, now) => worker.RetransmitSweep(answers, now, cfg);
  }

  /** Any script of calls takes a new worker through a run that ends in the worker's state. */
  method RunWorker(worker: OutgoingWorker, script: seq<NetStep>, cfg: Config) returns (ghost r: NetRun)
    requires worker.State() == Net(map[], {})
    modifies worker
    ensures r.Valid() && r.steps == script && r.cfg == cfg && r.states[|script|] == worker.State()
  {
    hide NetNext;
    r := NetRun([worker.State()], [], cfg);
    for i := 0 to |script|
      invariant r.Valid() && r.cfg == cfg
      invariant r.steps == script[..i] && r.states[i] == worker.State()
    {
      Perform(worker, script[i], cfg);
      Extended(r, script[i], worker.State());
      r := NetRun(r.states + [worker.State()], r.steps + [script[i]], cfg);
    }
    assert script[..|script|] == script;
  }
}
