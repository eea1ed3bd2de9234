/**
 OutgoingWorker over the connection registry: the bounded outbox of a connection, reliable
 sequencing with cumulative acks, and the retransmit sweep.
 */
module Outbound {
  import opened Domain

  datatype Priority = High | Low

  datatype AuthState = AuthPending | Authenticated | AuthFailed

  datatype Action =
    | SendPayload(data: Option<string>, reliable: bool)
    | UpdateAuthState(state: AuthState, user: Option<UserId>)
    | DropConnection(code: nat, reason: string)

  /** One queued action; id tells queued messages apart and is never looked at. */
  datatype Item = Item(id: nat, priority: Priority, action: Action)

  /** What goes over the wire: a payload as it is, or stamped with a sequence number. */
  datatype Wire = Plain(data: string) | Stamped(number: nat, data: string)

  datatype Frame = Frame(number: nat, bytes: Wire, lastSentAt: nat, attempts: nat)

  datatype Outbox = Outbox(q: seq<Item>, capacity: nat, slowHits: nat, dropPending: bool)

  datatype Reliable = Reliable(nextSeq: nat, ackedSeq: nat, buffer: seq<Frame>, capacity: nat)

  datatype Context = Context(valid: bool, auth: AuthState, user: Option<UserId>, outbox: Outbox, reliable: Reliable)

  const OUTBOX_CAPACITY := 128
  const RELIABLE_CAPACITY := 256
  const SLOW_HITS_LIMIT := 4

  const NEW_CONTEXT := Context(true, AuthPending, None,
                               Outbox([], OUTBOX_CAPACITY, 0, false), Reliable(0, 0, [], RELIABLE_CAPACITY))

  /** How the transport answers one attempt to write. */
  datatype Answer = Accepted | Refused | Backpressured

  function AnswerAt(answers: seq<Answer>, i: nat): Answer {
    if i < |answers| then answers[i] else Backpressured
  }

  // ---------------------------------------------------------------------------
  // Outbox
  // ---------------------------------------------------------------------------

  function OverflowDrop(id: nat): Item {
    Item(id, High, DropConnection(4409, "slow_outbox_overflow"))
  }

  /** Position of the newest low-priority item, or -1. */
  function NewestLow(q: seq<Item>): (i: int)
    ensures -1 <= i < |q|
    ensures i >= 0 ==> q[i].priority == Low
    ensures forall j | i < j < |q| :: q[j].priority == High
  {
    if q == [] then -1
    else if q[|q| - 1].priority.Low? then |q| - 1
    else NewestLow(q[..|q| - 1])
  }

  function Enqueued(ob: Outbox, item: Item): Outbox {
    if |ob.q| < ob.capacity then ob.(q := ob.q + [item])
    else if item.priority == Low then ob
    else
      var i := NewestLow(ob.q);
      if i >= 0 then ob.(q := ob.q[..i] + ob.q[i + 1..] + [item])
      else if ob.slowHits + 1 >= SLOW_HITS_LIMIT then
        ob.(q := [OverflowDrop(item.id)], slowHits := 0, dropPending := true)
      else ob.(slowHits := ob.slowHits + 1)
  }

  // ---------------------------------------------------------------------------
  // Flushing
  // ---------------------------------------------------------------------------

  function StampedOn(r: Reliable, data: string, now: nat): Reliable {
    var s := r.nextSeq + 1;
    r.(nextSeq := s, buffer := r.buffer + [Frame(s, Stamped(s, data), now, 1)])
  }

  /** The result of offering one payload: the new state, whether it is done with, what was written. */
  datatype Offer = Offer(reliable: Reliable, handled: bool, wire: seq<Wire>)

  function Offered(r: Reliable, valid: bool, a: Action, answer: Answer, now: nat): Offer
    requires a.SendPayload?
  {
    if a.data.None? then Offer(r, true, [])
    else if answer == Backpressured then Offer(r, false, [])
    else if !valid then Offer(r, true, [])
    else if answer == Refused then Offer(r, false, [])
    else if a.reliable then Offer(StampedOn(r, a.data.value, now), true, [Stamped(r.nextSeq + 1, a.data.value)])
    else Offer(r, true, [Plain(a.data.value)])
  }

  /** A failed authentication is final. */
  function AuthUpdated(ctx: Context, a: Action): Context
    requires a.UpdateAuthState?
  {
    if ctx.auth == AuthFailed && a.state != AuthFailed then ctx else ctx.(auth := a.state, user := a.user)
  }

  datatype Flush = Flush(ctx: Context, wire: seq<Wire>, drop: bool)

  function WithQueue(ctx: Context, q: seq<Item>): Context {
    ctx.(outbox := ctx.outbox.(q := q))
  }

  /** answers[i] is the transport's answer for the i-th queued item; it is not consulted for other actions. */
  function Flushed(ctx: Context, answers: seq<Answer>, now: nat): Flush
    decreases |ctx.outbox.q|
  {
    if ctx.outbox.q == [] then Flush(ctx, [], false)
    else
      var front, rest := ctx.outbox.q[0], ctx.outbox.q[1..];
      var later := if answers == [] then [] else answers[1..];
      match front.action
      case DropConnection(_, _) => Flush(WithQueue(ctx, []), [], true)
      case UpdateAuthState(_, _) => Flushed(WithQueue(AuthUpdated(ctx, front.action), rest), later, now)
      case SendPayload(_, _) =>
        var offer := Offered(ctx.reliable, ctx.valid, front.action, AnswerAt(answers, 0), now);
        if !offer.handled then Flush(ctx, [], false)
        else
          var f := Flushed(WithQueue(ctx.(reliable := offer.reliable), rest), later, now);
          f.(wire := offer.wire + f.wire)
  }

  // ---------------------------------------------------------------------------
  // Acks and retransmission
  // ---------------------------------------------------------------------------

  function WithoutAcked(buffer: seq<Frame>, ack: nat): seq<Frame> {
    if buffer != [] && buffer[0].number <= ack then WithoutAcked(buffer[1..], ack) else buffer
  }

  function AckedBy(r: Reliable, ack: nat): Reliable {
    r.(ackedSeq := if ack > r.ackedSeq then ack else r.ackedSeq, buffer := WithoutAcked(r.buffer, ack))
  }

  /** retransmit_timeout and the 16-bit max_retransmits. */
  datatype Config = Config(timeout: nat, maxRetransmits: nat)

  datatype Resend = Resend(buffer: seq<Frame>, wire: seq<Wire>, expired: bool)

  /** Overdue frames in order; the first one out of attempts drops the connection, backpressure ends the round. */
  function Resent(buffer: seq<Frame>, answers: seq<Answer>, now: nat, cfg: Config): Resend
    decreases |buffer|
  {
    if buffer == [] then Resend([], [], false)
    else
      var p, later := buffer[0], if answers == [] then [] else answers[1..];
      var overdue := now >= p.lastSentAt + cfg.timeout;
      if overdue && p.attempts >= cfg.maxRetransmits then Resend(buffer, [], true)
      else if overdue && AnswerAt(answers, 0) == Backpressured then Resend(buffer, [], false)
      else
        var r := Resent(buffer[1..], later, now, cfg);
        if overdue && AnswerAt(answers, 0) == Accepted
        then Resend([p.(lastSentAt := now, attempts := p.attempts + 1)] + r.buffer, [p.bytes] + r.wire, r.expired)
        else Resend([p] + r.buffer, r.wire, r.expired)
  }

  datatype Verdict = Kept | Drained | Expired

  datatype Sweep = Sweep(ctx: Context, wire: seq<Wire>, verdict: Verdict)

  function Swept(ctx: Context, answers: seq<Answer>, now: nat, cfg: Config): Sweep {
    if ctx.reliable.buffer == [] then Sweep(ctx, [], Drained)
    else if |ctx.reliable.buffer| > ctx.reliable.capacity then Sweep(ctx, [], Expired)
    else if !ctx.valid then Sweep(ctx, [], Kept)
    else
      var r := Resent(ctx.reliable.buffer, answers, now, cfg);
      Sweep(ctx.(reliable := ctx.reliable.(buffer := r.buffer)), r.wire, if r.expired then Expired else Kept)
  }

  // ---------------------------------------------------------------------------
  // The worker's whole state
  // ---------------------------------------------------------------------------

  datatype Net = Net(conns: map<ConnId, Context>, pending: set<ConnId>)

  function EnqueuedAt(n: Net, c: ConnId, item: Item): Net {
    if c !in n.conns then n
    else n.(conns := n.conns[c := n.conns[c].(outbox := Enqueued(n.conns[c].outbox, item))])
  }

  function FlushedAt(n: Net, c: ConnId, answers: seq<Answer>, now: nat): Net {
    if c !in n.conns then n
    else
      var f := Flushed(n.conns[c], answers, now);
      var conns := if f.drop && f.ctx.valid then n.conns - {c} else n.conns[c := f.ctx];
      Net(conns, if f.ctx.reliable.nextSeq > n.conns[c].reliable.nextSeq then n.pending + {c} else n.pending)
  }

  function AckedAt(n: Net, c: ConnId, ack: nat): Net {
    if c !in n.conns then n.(pending := n.pending - {c})
    else
      var r := AckedBy(n.conns[c].reliable, ack);
      Net(n.conns[c := n.conns[c].(reliable := r)], if r.buffer == [] then n.pending - {c} else n.pending)
  }

  function AnswersFor(answers: map<ConnId, seq<Answer>>, c: ConnId): seq<Answer> {
    if c in answers then answers[c] else []
  }

  /** The sweep's effect on one listed connection. */
  function SweptConn(n: Net, c: ConnId, answers: map<ConnId, seq<Answer>>, now: nat, cfg: Config): Sweep
    requires c in n.conns
  {
    Swept(n.conns[c], AnswersFor(answers, c), now, cfg)
  }

  /** Closing a valid handle detaches the connection; closing an invalid one does nothing. */
  predicate Closed(n: Net, c: ConnId, answers: map<ConnId, seq<Answer>>, now: nat, cfg: Config)
    requires c in n.conns
  {
    c in n.pending && n.conns[c].valid && SweptConn(n, c, answers, now, cfg).verdict == Expired
  }

  predicate StaysListed(n: Net, c: ConnId, answers: map<ConnId, seq<Answer>>, now: nat, cfg: Config) {
    c in n.conns && SweptConn(n, c, answers, now, cfg).verdict == Kept
  }

  function SweptAll(n: Net, answers: map<ConnId, seq<Answer>>, now: nat, cfg: Config): Net {
    Net(map c | c in n.conns && !Closed(n, c, answers, now, cfg) ::
          if c in n.pending then SweptConn(n, c, answers, now, cfg).ctx else n.conns[c],
        set c | c in n.pending && StaysListed(n, c, answers, now, cfg))
  }

  function Attached(n: Net, c: ConnId): Net {
    n.(conns := n.conns[c := NEW_CONTEXT])
  }

  function Detached(n: Net, c: ConnId): Net {
    n.(conns := n.conns - {c})
  }

  function Invalidated(n: Net, c: ConnId): Net {
    if c in n.conns then n.(conns := n.conns[c := n.conns[c].(valid := false)]) else n
  }

  class OutgoingWorker {
    var conns: map<ConnId, Context>
    var pending: set<ConnId>

    ghost function State(): Net
      reads this
    {
      Net(conns, pending)
    }

    constructor ()
      ensures State() == Net(map[], {})
    {
      conns, pending := map[], {};
    }

    method Attach(c: ConnId)
      modifies this`conns
      ensures State() == Attached(old(State()), c)
    {
      conns := conns[c := NEW_CONTEXT];
    }

    method Detach(c: ConnId)
      modifies this`conns
      ensures State() == Detached(old(State()), c)
    {
      conns := conns - {c};
    }

    /** The socket behind the handle is gone, but the close has not reached the registry yet. */
    method Invalidate(c: ConnId)
      modifies this`conns
      ensures State() == Invalidated(old(State()), c)
    {
      if c in conns {
        conns := conns[c := conns[c].(valid := false)];
      }
    }

    /** The reverse search of the overflow path. */
    static method FindNewestLow(q: seq<Item>) returns (i: int)
      ensures i == NewestLow(q)
    {
      i := |q| - 1;
      while i >= 0 && q[i].priority != Low
        invariant -1 <= i < |q|
        invariant NewestLow(q) == NewestLow(q[..i + 1])
        decreases i
      {
        assert q[..i + 1][..i] == q[..i];
        i := i - 1;
        assert q[..i + 1] == q[..i + 1];
      }
      assert i < 0 ==> q[..0] == [];
    }

    method EnqueueToOutbox(c: ConnId, item: Item) returns (touched: bool)
      modifies this`conns
      ensures State() == EnqueuedAt(old(State()), c, item)
      ensures touched <==> c in conns
    {
      if c !in conns {
        return false;
      }
      var ob := conns[c].outbox;
      if |ob.q| < ob.capacity {
        ob := ob.(q := ob.q + [item]);
      } else if item.priority == High {
        var i := FindNewestLow(ob.q);
        if i >= 0 {
          ob := ob.(q := ob.q[..i] + ob.q[i + 1..] + [item]);
        } else {
          ob := ob.(slowHits := ob.slowHits + 1);
          if ob.slowHits >= SLOW_HITS_LIMIT {
            ob := ob.(q := [OverflowDrop(item.id)], slowHits := 0, dropPending := true);
          }
        }
      }
      conns := conns[c := conns[c].(outbox := ob)];
      touched := true;
    }

    /** Offers one payload to the transport; false means try again next tick. */
    method OfferPayload(ctx: Context, c: ConnId, a: Action, answer: Answer, now: nat)
      returns (next: Context, handled: bool, wire: seq<Wire>)
      requires a.SendPayload?
      modifies this`pending
      ensures Offer(next.reliable, handled, wire) == Offered(ctx.reliable, ctx.valid, a, answer, now)
      ensures next == ctx.(reliable := next.reliable)
      ensures pending == if next.reliable.nextSeq > ctx.reliable.nextSeq then old(pending) + {c} else old(pending)
    {
      next, handled, wire := ctx, true, [];
      if a.data.None? {
        return;
      }
      if answer == Backpressured {
        return ctx, false, [];
      }
      if !ctx.valid {
        return;
      }
      if a.reliable {
        var s := ctx.reliable.nextSeq + 1;
        var bytes := Stamped(s, a.data.value);
        if answer == Refused {
          return ctx, false, [];
        }
        var r := ctx.reliable.(nextSeq := s, buffer := ctx.reliable.buffer + [Frame(s, bytes, now, 1)]);
        pending := pending + {c};
        return ctx.(reliable := r), true, [bytes];
      }
      if answer == Accepted {
        return ctx, true, [Plain(a.data.value)];
      }
      handled := false;
    }

    static ghost function Preceded(wire: seq<Wire>, f: Flush): Flush {
      f.(wire := wire + f.wire)
    }

    static lemma PrecededTwice(wire: seq<Wire>, more: seq<Wire>, f: Flush)
      ensures Preceded(wire, f.(wire := more + f.wire)) == Preceded(wire + more, f)
    {
      assert wire + (more + f.wire) == wire + more + f.wire;
    }

    /** Works off the queue from the front until it is empty, the transport pushes back, or a drop comes up. */
    method FlushQueue(start: Context, c: ConnId, answers: seq<Answer>, now: nat)
      returns (ctx: Context, wire: seq<Wire>, drop: bool)
      modifies this`pending
      ensures Flush(ctx, wire, drop) == Flushed(start, answers, now)
      ensures ctx.valid == start.valid
      ensures pending == if ctx.reliable.nextSeq > start.reliable.nextSeq then old(pending) + {c} else old(pending)
    {
      hide Offered, AnswerAt;
      ctx, wire, drop := start, [], false;
      var todo := answers;
      while ctx.outbox.q != []
        invariant ctx.valid == start.valid && ctx.reliable.nextSeq >= start.reliable.nextSeq
        invariant pending == if ctx.reliable.nextSeq > start.reliable.nextSeq then old(pending) + {c} else old(pending)
        invariant Flushed(start, answers, now) == Preceded(wire, Flushed(ctx, todo, now))
        decreases |ctx.outbox.q|
      {
        var front := ctx.outbox.q[0];
        if front.action.DropConnection? {
          return WithQueue(ctx, []), wire, true;
        }
        var written: seq<Wire>, handled := [], true;
        ghost var before := ctx;
        if front.action.UpdateAuthState? {
          ctx := AuthUpdated(ctx, front.action);
        } else {
          OfferCounts(ctx.reliable, ctx.valid, front.action, AnswerAt(todo, 0), now);
          ctx, handled, written := OfferPayload(ctx, c, front.action, AnswerAt(todo, 0), now);
          if !handled {
            return;
          }
        }
        ctx := WithQueue(ctx, ctx.outbox.q[1..]);
        ghost var whole := Flushed(before, todo, now);
        todo := if todo == [] then [] else todo[1..];
        ghost var rest := Flushed(ctx, todo, now);
        assert whole == rest.(wire := written + rest.wire);
        PrecededTwice(wire, written, rest);
        wire := wire + written;
      }
    }

    method FlushConnectionOutbox(c: ConnId, answers: seq<Answer>, now: nat) returns (wire: seq<Wire>)
      modifies this
      ensures State() == FlushedAt(old(State()), c, answers, now)
      ensures c in old(conns) ==> wire == Flushed(old(conns)[c], answers, now).wire
    {
      hide Flushed;
      wire := [];
      if c !in conns {
        return;
      }
      var ctx, written, drop := FlushQueue(conns[c], c, answers, now);
      wire := written;
      conns := if drop && ctx.valid then conns - {c} else conns[c := ctx];
    }

    static lemma OfferCounts(r: Reliable, valid: bool, a: Action, answer: Answer, now: nat)
      requires a.SendPayload?
      ensures var o := Offered(r, valid, a, answer, now);
              o.reliable.nextSeq >= r.nextSeq && (!o.handled ==> o.reliable == r && o.wire == [])
    {
    }

    method OnAck(c: ConnId, ack: nat)
      modifies this
      ensures State() == AckedAt(old(State()), c, ack)
    {
      if c !in conns {
        pending := pending - {c};
        return;
      }
      var r := conns[c].reliable;
      var buffer := r.buffer;
      while buffer != [] && buffer[0].number <= ack
        invariant WithoutAcked(buffer, ack) == WithoutAcked(r.buffer, ack)
        decreases |buffer|
      {
        buffer := buffer[1..];
      }
      r := r.(ackedSeq := if ack > r.ackedSeq then ack else r.ackedSeq, buffer := buffer);
      conns := conns[c := conns[c].(reliable := r)];
      if buffer == [] {
        pending := pending - {c};
      }
    }

    /** Resends overdue frames in order; done and rest are the two ends of the buffer. */
    static method ResendOverdue(buffer: seq<Frame>, answers: seq<Answer>, now: nat, cfg: Config)
      returns (next: seq<Frame>, wire: seq<Wire>, expired: bool)
      ensures Resend(next, wire, expired) == Resent(buffer, answers, now, cfg)
    {
      hide AnswerAt, After;
      wire, expired := [], false;
      var done: seq<Frame>, rest, todo := [], buffer, answers;
      ghost var whole := Resent(buffer, answers, now, cfg);
      AfterNothing(whole);
      while rest != []
        invariant whole == After(done, wire, Resent(rest, todo, now, cfg))
        decreases |rest|
      {
        var p := rest[0];
        var answer, later := AnswerAt(todo, 0), if todo == [] then [] else todo[1..];
        var sent: seq<Wire> := [];
        if now >= p.lastSentAt + cfg.timeout {
          if p.attempts >= cfg.maxRetransmits {
            AfterLast(done, wire, rest, true);
            return done + rest, wire, true;
          }
          if answer == Backpressured {
            AfterLast(done, wire, rest, false);
            return done + rest, wire, false;
          }
          if answer == Accepted {
            p, sent := p.(lastSentAt := now, attempts := p.attempts + 1), [p.bytes];
          }
        }
        PassesOn(rest, todo, now, cfg, p, sent);
        AfterOne(done, wire, p, sent, Resent(rest[1..], later, now, cfg));
        done, wire, rest, todo := done + [p], wire + sent, rest[1..], later;
      }
      AfterLast(done, wire, [], false);
      assert done + [] == done;
      next := done;
    }

    /** A frame that does not end the round, as it is left and what was written of it, then the rest. */
    static lemma PassesOn(rest: seq<Frame>, todo: seq<Answer>, now: nat, cfg: Config, p: Frame, sent: seq<Wire>)
      requires rest != []
      requires var f, answer := rest[0], AnswerAt(todo, 0);
               if now < f.lastSentAt + cfg.timeout || answer == Refused then p == f && sent == []
               else && f.attempts < cfg.maxRetransmits && answer == Accepted
                    && p == f.(lastSentAt := now, attempts := f.attempts + 1) && sent == [f.bytes]
      requires now >= rest[0].lastSentAt + cfg.timeout ==> rest[0].attempts < cfg.maxRetransmits
      ensures var r := Resent(rest[1..], if todo == [] then [] else todo[1..], now, cfg);
              Resent(rest, todo, now, cfg) == Resend([p] + r.buffer, sent + r.wire, r.expired)
    {
    }

    static lemma AfterNothing(r: Resend)
      ensures After([], [], r) == r
    {
    }

    static lemma AfterLast(done: seq<Frame>, wire: seq<Wire>, rest: seq<Frame>, expired: bool)
      ensures After(done, wire, Resend(rest, [], expired)) == Resend(done + rest, wire, expired)
    {
    }

    static ghost function After(done: seq<Frame>, wire: seq<Wire>, r: Resend): Resend {
      Resend(done + r.buffer, wire + r.wire, r.expired)
    }

    static lemma AfterOne(done: seq<Frame>, wire: seq<Wire>, p: Frame, sent: seq<Wire>, r: Resend)
      ensures After(done, wire, Resend([p] + r.buffer, sent + r.wire, r.expired)) == After(done + [p], wire + sent, r)
    {
    }

    method SweepConnection(ctx: Context, answers: seq<Answer>, now: nat, cfg: Config)
      returns (next: Context, wire: seq<Wire>, verdict: Verdict)
      ensures Sweep(next, wire, verdict) == Swept(ctx, answers, now, cfg)
    {
      if ctx.reliable.buffer == [] {
        return ctx, [], Drained;
      }
      if |ctx.reliable.buffer| > ctx.reliable.capacity {
        return ctx, [], Expired;
      }
      if !ctx.valid {
        return ctx, [], Kept;
      }
      var buffer, written, expired := ResendOverdue(ctx.reliable.buffer, answers, now, cfg);
      next, wire := ctx.(reliable := ctx.reliable.(buffer := buffer)), written;
      verdict := if expired then Expired else Kept;
    }

    method RetransmitSweep(answers: map<ConnId, seq<Answer>>, now: nat, cfg: Config)
      modifies this
      ensures State() == SweptAll(old(State()), answers, now, cfg)
    {
      hide Swept;
      ghost var before := State();
      var todo := pending;
      var toErase: set<ConnId>, drops: set<ConnId> := {}, {};
      while todo != {}
        invariant todo <= pending == before.pending && conns.Keys == before.conns.Keys
        invariant forall c | c in conns ::
                    conns[c] == if c in pending && c !in todo then SweptConn(before, c, answers, now, cfg).ctx
                                else before.conns[c]
        invariant forall c :: c in toErase <==> c in pending && c !in todo && !StaysListed(before, c, answers, now, cfg)
        invariant forall c :: c in drops <==> c in conns && c !in todo && Closed(before, c, answers, now, cfg)
        decreases todo
      {
        var c :| c in todo;
        todo := todo - {c};
        if c !in conns {
          toErase := toErase + {c};
        } else {
          var next, _, verdict := SweepConnection(conns[c], AnswersFor(answers, c), now, cfg);
          if verdict == Expired && conns[c].valid {
            drops := drops + {c};
          }
          if verdict != Kept {
            toErase := toErase + {c};
          }
          conns := conns[c := next];
        }
      }
      pending := pending - toErase;
      conns := conns - drops;
      assert conns == SweptAll(before, answers, now, cfg).conns;
    }
  }
}
