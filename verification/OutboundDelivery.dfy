/**
 Reliable delivery over one connection: the server's buffer against a network that loses, repeats
 and reorders what it carries and a client that may ack anything. What the server holds and how
 often it writes does not depend on the client; at least once needs one that acks only what it has.
 */
module OutboundDelivery {
  import opened Outbound

  /**
   log is every payload ever stamped, so number s carried log[s - 1]. flight counts every
   transmission of each frame; the network may deliver any of them, late, repeatedly or never.
   */
  datatype Link = Link(
    server: Reliable,
    log: seq<string>,
    flight: multiset<Wire>,
    received: set<Wire>,
    acks: set<nat>)

  const NEW_LINK := Link(NEW_CONTEXT.reliable, [], multiset{}, {}, {})

  datatype LinkStep =
    | Stamp(data: string, now: nat)
    | Retransmit(answers: seq<Answer>, now: nat)
    | Deliver(wire: Wire)
    | ClientAck(upTo: nat)
    | AckArrives(ack: nat)

  ghost predicate HasNumber(received: set<Wire>, s: nat) {
    exists w | w in received :: w.Stamped? && w.number == s
  }

  /**
   A frame is delivered only if it was written, and ClientAck is a client's ack of frames it holds.
   An ack that arrives may be any number.
   */
  ghost predicate Enabled(l: Link, step: LinkStep) {
    match step
    case Deliver(w) => w in l.flight
    case ClientAck(a) => forall s: nat | 1 <= s <= a :: HasNumber(l.received, s)
    case _ => true
  }

  function Next(l: Link, step: LinkStep, cfg: Config): Link {
    match step
    case Stamp(data, now) =>
      l.(server := StampedOn(l.server, data, now),
         log := l.log + [data],
         flight := l.flight + multiset{Stamped(l.server.nextSeq + 1, data)})
    case Retransmit(answers, now) =>
      var r := Resent(l.server.buffer, answers, now, cfg);
      l.(server := l.server.(buffer := r.buffer), flight := l.flight + multiset(r.wire))
    case Deliver(w) => l.(received := l.received + {w})
    case ClientAck(a) => l.(acks := l.acks + {a})
    case AckArrives(a) => l.(server := AckedBy(l.server, a))
  }

  // ---------------------------------------------------------------------------
  // The buffer is a run of consecutive numbers.
  // ---------------------------------------------------------------------------

  /** Frames numbered a + 1, a + 2, ... each carrying its own number and the payload logged for it. */
  ghost predicate RunFrom(buffer: seq<Frame>, a: nat, log: seq<string>) {
    a + |buffer| == |log| &&
    forall i | 0 <= i < |buffer| ::
      buffer[i].number == a + 1 + i && buffer[i].bytes == Stamped(a + 1 + i, log[a + i])
  }

  /** The buffer is exactly ackedSeq + 1 .. nextSeq. */
  ghost predicate Exact(r: Reliable, log: seq<string>) {
    r.nextSeq == |log| && RunFrom(r.buffer, r.ackedSeq, log)
  }

  lemma StampKeepsExact(r: Reliable, log: seq<string>, data: string, now: nat)
    requires Exact(r, log)
    ensures Exact(StampedOn(r, data, now), log + [data])
  {
  }

  lemma {:induction false} AckedRun(buffer: seq<Frame>, a: nat, log: seq<string>, ack: nat)
    requires RunFrom(buffer, a, log)
    ensures WithoutAcked(buffer, ack)
            == if ack <= a then buffer else if ack <= |log| then buffer[ack - a..] else []
    decreases |buffer|
  {
    if buffer != [] && a < ack {
      AckedRun(buffer[1..], a + 1, log, ack);
    }
  }

  /** An ack keeps the buffer an exact run if and only if it acks nothing that was never stamped. */
  lemma AckKeepsExactIff(r: Reliable, log: seq<string>, ack: nat)
    requires Exact(r, log)
    ensures Exact(AckedBy(r, ack), log) <==> ack <= r.nextSeq
  {
    AckedRun(r.buffer, r.ackedSeq, log, ack);
  }

  /** Whatever was acked, the buffer holds the last |buffer| numbers stamped. */
  ghost predicate Tail(r: Reliable, log: seq<string>) {
    r.nextSeq == |log| && |r.buffer| <= |log| && RunFrom(r.buffer, |log| - |r.buffer|, log)
  }

  lemma StampKeepsTail(r: Reliable, log: seq<string>, data: string, now: nat)
    requires Tail(r, log)
    ensures Tail(StampedOn(r, data, now), log + [data])
  {
  }

  lemma AckKeepsTail(r: Reliable, log: seq<string>, ack: nat)
    requires Tail(r, log)
    ensures var n := AckedBy(r, ack); var base := |log| - |r.buffer|;
            && Tail(n, log)
            && |log| - |n.buffer| == if ack <= base then base else if ack <= |log| then ack else |log|
  {
    AckedRun(r.buffer, |log| - |r.buffer|, log, ack);
  }

  lemma {:induction false} ResentShape(buffer: seq<Frame>, answers: seq<Answer>, now: nat, cfg: Config)
    ensures var r := Resent(buffer, answers, now, cfg);
            && |r.buffer| == |buffer|
            && forall i | 0 <= i < |buffer| ::
                 r.buffer[i].number == buffer[i].number && r.buffer[i].bytes == buffer[i].bytes
    decreases |buffer|
  {
    if buffer != [] {
      ResentShape(buffer[1..], if answers == [] then [] else answers[1..], now, cfg);
    }
  }

  predicate Beyond(w: Wire, a: nat) {
    w.Stamped? && w.number > a
  }

  lemma {:induction false} ResentBeyond(buffer: seq<Frame>, a: nat, log: seq<string>, answers: seq<Answer>, now: nat,
                                        cfg: Config)
    requires RunFrom(buffer, a, log)
    ensures forall w | w in Resent(buffer, answers, now, cfg).wire :: Beyond(w, a)
    decreases |buffer|
  {
    if buffer != [] {
      ResentBeyond(buffer[1..], a + 1, log, if answers == [] then [] else answers[1..], now, cfg);
      assert forall w :: Beyond(w, a + 1) ==> Beyond(w, a);
    }
  }

  /** Either the round ends at the first frame, or that frame is sent or skipped and the rest follows. */
  lemma ResentUnfolds(buffer: seq<Frame>, answers: seq<Answer>, now: nat, cfg: Config)
    requires buffer != []
    ensures var r := Resent(buffer, answers, now, cfg);
            var rest := Resent(buffer[1..], if answers == [] then [] else answers[1..], now, cfg);
            || (r.buffer == buffer && r.wire == [])
            || (r.buffer == [buffer[0]] + rest.buffer && r.wire == rest.wire)
            || (&& r.buffer == [buffer[0].(lastSentAt := now, attempts := buffer[0].attempts + 1)] + rest.buffer
                && r.wire == [buffer[0].bytes] + rest.wire && buffer[0].attempts < cfg.maxRetransmits)
  {
  }

  lemma CountAfterHead(x: Wire, rest: seq<Wire>, w: Wire)
    ensures multiset([x] + rest)[w] == multiset(rest)[w] + if w == x then 1 else 0
  {
  }

  /** A round sends each frame at most once, only while it has attempts left, and counts what it sends. */
  lemma {:induction false} ResentCounts(buffer: seq<Frame>, a: nat, log: seq<string>, answers: seq<Answer>, now: nat,
                                        cfg: Config, i: nat)
    requires RunFrom(buffer, a, log) && i < |buffer|
    ensures var r := Resent(buffer, answers, now, cfg);
            var n := multiset(r.wire)[buffer[i].bytes];
            && |r.buffer| == |buffer|
            && n <= 1 && (n == 1 ==> buffer[i].attempts < cfg.maxRetransmits)
            && r.buffer[i].attempts == buffer[i].attempts + n
    decreases |buffer|
  {
    hide Resent;
    var later := if answers == [] then [] else answers[1..];
    var rest := Resent(buffer[1..], later, now, cfg);
    ResentShape(buffer, answers, now, cfg);
    ResentUnfolds(buffer, answers, now, cfg);
    CountAfterHead(buffer[0].bytes, rest.wire, buffer[i].bytes);
    if i == 0 {
      ResentBeyond(buffer[1..], a + 1, log, later, now, cfg);
      assert !Beyond(buffer[0].bytes, a + 1);
    } else {
      ResentCounts(buffer[1..], a + 1, log, later, now, cfg, i - 1);
    }
  }

  lemma {:induction false} ResentIsBuffered(buffer: seq<Frame>, answers: seq<Answer>, now: nat, cfg: Config, w: Wire)
    requires w in Resent(buffer, answers, now, cfg).wire
    ensures exists i :: 0 <= i < |buffer| && buffer[i].bytes == w
    decreases |buffer|
  {
    var later := if answers == [] then [] else answers[1..];
    if w != buffer[0].bytes {
      ResentIsBuffered(buffer[1..], later, now, cfg, w);
      var i :| 0 <= i < |buffer[1..]| && buffer[1..][i].bytes == w;
      assert buffer[i + 1].bytes == w;
    }
  }

  predicate Overdue(f: Frame, now: nat, cfg: Config) {
    now >= f.lastSentAt + cfg.timeout
  }

  predicate Exhausted(f: Frame, cfg: Config) {
    f.attempts >= cfg.maxRetransmits
  }

  /** The bytes of the overdue frames, in order. */
  function OverdueBytes(buffer: seq<Frame>, now: nat, cfg: Config): seq<Wire> {
    if buffer == [] then []
    else if Overdue(buffer[0], now, cfg) then [buffer[0].bytes] + OverdueBytes(buffer[1..], now, cfg)
    else OverdueBytes(buffer[1..], now, cfg)
  }

  /**
   When the transport takes everything and no overdue frame is exhausted, a round sends exactly the
   overdue frames and restarts their clocks.
   */
  lemma {:induction false} RoundSendsOverdue(buffer: seq<Frame>, answers: seq<Answer>, now: nat, cfg: Config)
    requires |answers| >= |buffer| && forall i | 0 <= i < |buffer| :: answers[i] == Accepted
    requires forall i | 0 <= i < |buffer| :: Overdue(buffer[i], now, cfg) ==> !Exhausted(buffer[i], cfg)
    ensures var r := Resent(buffer, answers, now, cfg);
            && r.wire == OverdueBytes(buffer, now, cfg) && !r.expired && |r.buffer| == |buffer|
            && forall i | 0 <= i < |buffer| ::
                 r.buffer[i].lastSentAt == if Overdue(buffer[i], now, cfg) then now else buffer[i].lastSentAt
    decreases |buffer|
  {
    if buffer != [] {
      RoundSendsOverdue(buffer[1..], answers[1..], now, cfg);
    }
  }

  /**
   A round gives a connection up exactly when it comes upon an overdue, exhausted frame before the
   transport pushes back.
   */
  lemma {:induction false} RoundExpiresIff(buffer: seq<Frame>, answers: seq<Answer>, now: nat, cfg: Config)
    ensures Resent(buffer, answers, now, cfg).expired
            <==> exists i :: GivesUpAt(buffer, answers, now, cfg, i)
    decreases |buffer|
  {
    if buffer != [] {
      var later := if answers == [] then [] else answers[1..];
      RoundExpiresIff(buffer[1..], later, now, cfg);
      forall i: int | i > 0
        ensures GivesUpAt(buffer, answers, now, cfg, i)
                <==> && GivesUpAt(buffer[1..], later, now, cfg, i - 1)
                     && !Blocks(buffer[0], AnswerAt(answers, 0), now, cfg)
      {
        GivesUpLater(buffer, answers, now, cfg, i);
      }
      if j :| GivesUpAt(buffer[1..], later, now, cfg, j) {
        assert !Blocks(buffer[0], AnswerAt(answers, 0), now, cfg) ==> GivesUpAt(buffer, answers, now, cfg, j + 1);
      }
      assert GivesUpAt(buffer, answers, now, cfg, 0) <==> Overdue(buffer[0], now, cfg) && Exhausted(buffer[0], cfg);
    }
  }

  /** The frame stops the round: it is given up, or the transport pushes back. */
  predicate Blocks(f: Frame, answer: Answer, now: nat, cfg: Config) {
    Overdue(f, now, cfg) && (Exhausted(f, cfg) || answer == Backpressured)
  }

  ghost predicate GivesUpAt(buffer: seq<Frame>, answers: seq<Answer>, now: nat, cfg: Config, i: int) {
    && 0 <= i < |buffer| && Overdue(buffer[i], now, cfg) && Exhausted(buffer[i], cfg)
    && forall j: nat | j < i :: !Blocks(buffer[j], AnswerAt(answers, j), now, cfg)
  }

  lemma GivesUpLater(buffer: seq<Frame>, answers: seq<Answer>, now: nat, cfg: Config, i: int)
    requires buffer != [] && i > 0
    ensures GivesUpAt(buffer, answers, now, cfg, i)
            <==> && GivesUpAt(buffer[1..], if answers == [] then [] else answers[1..], now, cfg, i - 1)
                 && !Blocks(buffer[0], AnswerAt(answers, 0), now, cfg)
  {
    var later := if answers == [] then [] else answers[1..];
    assert forall j: nat :: AnswerAt(later, j) == AnswerAt(answers, j + 1);
    forall j: nat | 0 < j < |buffer|
      ensures Blocks(buffer[j], AnswerAt(answers, j), now, cfg)
              <==> Blocks(buffer[1..][j - 1], AnswerAt(later, j - 1), now, cfg)
    {
      assert AnswerAt(later, j - 1) == AnswerAt(answers, j);
    }
  }

  // ---------------------------------------------------------------------------
  // Invariant of a link
  // ---------------------------------------------------------------------------

  predicate Got(l: Link, s: nat) {
    1 <= s <= |l.log| && Stamped(s, l.log[s - 1]) in l.received
  }

  /** The client holds every frame up to a. */
  ghost predicate GotAll(l: Link, a: nat) {
    forall s: nat | 1 <= s <= a :: Got(l, s)
  }

  /** w is a frame the server stamped. */
  predicate Genuine(l: Link, w: Wire) {
    w.Stamped? && 1 <= w.number <= |l.log| && w.data == l.log[w.number - 1]
  }

  function MaxSends(cfg: Config): nat {
    if cfg.maxRetransmits == 0 then 1 else cfg.maxRetransmits
  }

  ghost predicate Counted(l: Link, cfg: Config) {
    && (forall w :: l.flight[w] <= MaxSends(cfg))
    && (forall i | 0 <= i < |l.server.buffer| :: l.server.buffer[i].attempts == l.flight[l.server.buffer[i].bytes])
  }

  /** Only frames the server stamped are under way, and only those are received. */
  ghost predicate Authentic(l: Link) {
    && (forall w | w in l.flight :: Genuine(l, w))
    && (forall w | w in l.received :: w in l.flight)
  }

  /** What holds whatever the client acks. */
  ghost predicate Inv(l: Link, cfg: Config) {
    Tail(l.server, l.log) && Authentic(l) && Counted(l, cfg)
  }

  /** What holds as long as only frames the client has were acked. */
  ghost predicate Honest(l: Link) {
    && (forall a | a in l.acks :: GotAll(l, a))
    && GotAll(l, l.server.ackedSeq) && l.server.ackedSeq + |l.server.buffer| == |l.log|
  }

  lemma GotAllIsLogged(l: Link, a: nat)
    requires GotAll(l, a)
    ensures a <= |l.log|
  {
    assert a > 0 ==> Got(l, a);
  }

  /** Frames once held stay held while logs grow and nothing received is forgotten. */
  lemma GotAllStays(l: Link, n: Link, a: nat)
    requires GotAll(l, a) && l.log <= n.log && l.received <= n.received
    ensures GotAll(n, a)
  {
    forall s: nat | 1 <= s <= a ensures Got(n, s) {
      assert Got(l, s);
    }
  }

  lemma StampIsNew(l: Link, data: string)
    requires Tail(l.server, l.log) && Authentic(l)
    ensures var w := Stamped(l.server.nextSeq + 1, data);
            && l.flight[w] == 0
            && forall i | 0 <= i < |l.server.buffer| :: l.server.buffer[i].bytes != w
  {
    assert !Genuine(l, Stamped(l.server.nextSeq + 1, data));
  }

  lemma StampKeepsAuthentic(l: Link, data: string, now: nat, cfg: Config)
    requires Tail(l.server, l.log) && Authentic(l)
    ensures Authentic(Next(l, Stamp(data, now), cfg))
  {
    var n := Next(l, Stamp(data, now), cfg);
    assert forall w | w in l.flight :: Genuine(l, w) ==> Genuine(n, w);
  }

  lemma StampKeepsCounted(l: Link, data: string, now: nat, cfg: Config)
    requires Inv(l, cfg)
    ensures Counted(Next(l, Stamp(data, now), cfg), cfg)
  {
    StampIsNew(l, data);
  }

  lemma RetransmitKeepsTail(l: Link, answers: seq<Answer>, now: nat, cfg: Config)
    requires Tail(l.server, l.log)
    ensures var n := Next(l, Retransmit(answers, now), cfg); Tail(n.server, n.log)
  {
    hide Resent;
    ResentShape(l.server.buffer, answers, now, cfg);
  }

  lemma RetransmitsAreGenuine(l: Link, answers: seq<Answer>, now: nat, cfg: Config, w: Wire)
    requires Tail(l.server, l.log) && w in Resent(l.server.buffer, answers, now, cfg).wire
    ensures Genuine(l, w)
  {
    hide Resent;
    ResentIsBuffered(l.server.buffer, answers, now, cfg, w);
  }

  lemma RetransmitKeepsAuthentic(l: Link, answers: seq<Answer>, now: nat, cfg: Config)
    requires Tail(l.server, l.log) && Authentic(l)
    ensures Authentic(Next(l, Retransmit(answers, now), cfg))
  {
    hide Resent, Tail;
    var n, wire := Next(l, Retransmit(answers, now), cfg), Resent(l.server.buffer, answers, now, cfg).wire;
    forall w | w in n.flight ensures Genuine(n, w) {
      if w !in l.flight {
        assert w in multiset(wire);
        RetransmitsAreGenuine(l, answers, now, cfg, w);
      }
    }
  }

  lemma FrameCounts(l: Link, answers: seq<Answer>, now: nat, cfg: Config, i: nat)
    requires Tail(l.server, l.log) && Counted(l, cfg) && i < |l.server.buffer|
    ensures var r, w := Resent(l.server.buffer, answers, now, cfg), l.server.buffer[i].bytes;
            && |r.buffer| == |l.server.buffer| && r.buffer[i].bytes == w
            && r.buffer[i].attempts == l.flight[w] + multiset(r.wire)[w] <= MaxSends(cfg)
  {
    hide Resent;
    ResentShape(l.server.buffer, answers, now, cfg);
    ResentCounts(l.server.buffer, |l.log| - |l.server.buffer|, l.log, answers, now, cfg, i);
  }

  lemma RetransmitKeepsCounted(l: Link, answers: seq<Answer>, now: nat, cfg: Config)
    requires Tail(l.server, l.log) && Counted(l, cfg)
    ensures Counted(Next(l, Retransmit(answers, now), cfg), cfg)
  {
    hide Resent, Tail;
    var n := Next(l, Retransmit(answers, now), cfg);
    var b, wire := l.server.buffer, Resent(l.server.buffer, answers, now, cfg).wire;
    ResentShape(b, answers, now, cfg);
    forall w ensures n.flight[w] <= MaxSends(cfg) {
      if w in wire {
        ResentIsBuffered(b, answers, now, cfg, w);
        var i :| 0 <= i < |b| && b[i].bytes == w;
        FrameCounts(l, answers, now, cfg, i);
      }
    }
    forall i | 0 <= i < |b| ensures n.server.buffer[i].attempts == n.flight[n.server.buffer[i].bytes] {
      FrameCounts(l, answers, now, cfg, i);
    }
  }

  lemma AckKeepsCounted(l: Link, a: nat, cfg: Config)
    requires Tail(l.server, l.log) && Counted(l, cfg)
    ensures Counted(Next(l, AckArrives(a), cfg), cfg)
  {
    hide WithoutAcked;
    AckedRun(l.server.buffer, |l.log| - |l.server.buffer|, l.log, a);
  }

  lemma SameLogAuthentic(l: Link, n: Link)
    requires Authentic(l) && n.log == l.log && n.flight == l.flight && forall w | w in n.received :: w in l.flight
    ensures Authentic(n)
  {
    assert forall w :: Genuine(l, w) ==> Genuine(n, w);
  }

  lemma StepKeepsInv(l: Link, step: LinkStep, cfg: Config)
    requires Inv(l, cfg) && Enabled(l, step)
    ensures Inv(Next(l, step, cfg), cfg)
  {
    hide Tail, Counted, Resent, AckedBy, StampedOn;
    match step
    case Stamp(data, now) =>
      StampKeepsTail(l.server, l.log, data, now);
      StampKeepsAuthentic(l, data, now, cfg);
      StampKeepsCounted(l, data, now, cfg);
    case Retransmit(answers, now) =>
      RetransmitKeepsTail(l, answers, now, cfg);
      RetransmitKeepsAuthentic(l, answers, now, cfg);
      RetransmitKeepsCounted(l, answers, now, cfg);
    case Deliver(w) =>
      SameLogAuthentic(l, Next(l, step, cfg));
      SameServerCounted(l, Next(l, step, cfg), cfg);
    case ClientAck(a) =>
      SameLogAuthentic(l, Next(l, step, cfg));
      SameServerCounted(l, Next(l, step, cfg), cfg);
    case AckArrives(a) =>
      AckKeepsTail(l.server, l.log, a);
      SameLogAuthentic(l, Next(l, step, cfg));
      AckKeepsCounted(l, a, cfg);
  }

  lemma SameServerCounted(l: Link, n: Link, cfg: Config)
    requires Counted(l, cfg) && n.server == l.server && n.flight == l.flight
    ensures Counted(n, cfg)
  {
  }

  /** The ack that arrives was sent by the client. */
  predicate HonestStep(l: Link, step: LinkStep) {
    step.AckArrives? ==> step.ack in l.acks
  }

  lemma ClientAckHasAll(l: Link, a: nat)
    requires Authentic(l) && Enabled(l, ClientAck(a))
    ensures GotAll(l, a)
  {
    forall s: nat | 1 <= s <= a ensures Got(l, s) {
      assert HasNumber(l.received, s);
      var w :| w in l.received && w.Stamped? && w.number == s;
      assert Genuine(l, w) && w == Stamped(s, l.log[s - 1]);
    }
  }

  lemma StepShape(l: Link, step: LinkStep, cfg: Config)
    requires Inv(l, cfg) && Honest(l) && HonestStep(l, step)
    ensures var n := Next(l, step, cfg);
            && l.log <= n.log && l.received <= n.received
            && n.server.ackedSeq + |n.server.buffer| == |n.log|
            && (n.server.ackedSeq == l.server.ackedSeq || n.server.ackedSeq in l.acks)
            && (n.acks == l.acks || (step.ClientAck? && n.acks == l.acks + {step.upTo}))
  {
    hide Counted, Authentic, Resent, WithoutAcked;
    if step.Retransmit? {
      ResentShape(l.server.buffer, step.answers, step.now, cfg);
    } else if step.AckArrives? {
      GotAllIsLogged(l, step.ack);
      AckKeepsTail(l.server, l.log, step.ack);
    }
  }

  lemma StepKeepsHonest(l: Link, step: LinkStep, cfg: Config)
    requires Inv(l, cfg) && Honest(l) && Enabled(l, step) && HonestStep(l, step)
    ensures Honest(Next(l, step, cfg))
  {
    var n := Next(l, step, cfg);
    StepShape(l, step, cfg);
    if step.ClientAck? {
      ClientAckHasAll(l, step.upTo);
    }
    hide Next, Inv, GotAll;
    forall a | a in n.acks || a == n.server.ackedSeq ensures GotAll(n, a) {
      GotAllStays(l, n, a);
    }
  }

  // ---------------------------------------------------------------------------
  // Runs of a link
  // ---------------------------------------------------------------------------

  datatype LinkRun = LinkRun(states: seq<Link>, steps: seq<LinkStep>, cfg: Config) {
    ghost predicate Shaped() {
      |states| == |steps| + 1 && states[0] == NEW_LINK
    }

    ghost predicate Follows(i: nat)
      requires Shaped() && i < |steps|
    {
      Enabled(states[i], steps[i]) && states[i + 1] == Next(states[i], steps[i], cfg)
    }

    ghost predicate Valid() {
      Shaped() && forall i: nat | i < |steps| :: Follows(i)
    }

    /** Every ack that arrives was sent by the client, which acks only what it has. */
    ghost predicate HonestlyAcked()
      requires Shaped()
    {
      forall i: nat | i < |steps| :: HonestStep(states[i], steps[i])
    }
  }

  /** Some run ends in this state, one with honest acks if so demanded. */
  ghost predicate Reachable(l: Link, cfg: Config, honest: bool) {
    exists r: LinkRun :: r.Valid() && r.cfg == cfg && r.states[|r.steps|] == l && (honest ==> r.HonestlyAcked())
  }

  lemma NewIsReachable(cfg: Config, honest: bool)
    ensures Reachable(NEW_LINK, cfg, honest)
  {
    var r := LinkRun([NEW_LINK], [], cfg);
    assert r.Valid() && r.HonestlyAcked();
  }

  lemma NextIsReachable(l: Link, step: LinkStep, cfg: Config, honest: bool)
    requires Reachable(l, cfg, honest) && Enabled(l, step) && (honest ==> HonestStep(l, step))
    ensures Reachable(Next(l, step, cfg), cfg, honest)
  {
    hide Next, Enabled, HonestStep;
    var r: LinkRun :|
      r.Valid() && r.cfg == cfg && r.states[|r.steps|] == l && (honest ==> r.HonestlyAcked());
    var longer := LinkRun(r.states + [Next(l, step, cfg)], r.steps + [step], cfg);
    forall i: nat | i < |longer.steps| ensures longer.Follows(i) {
      assert i < |r.steps| ==> r.Follows(i);
    }
    assert longer.Valid() && longer.states[|longer.steps|] == Next(l, step, cfg);
  }

  lemma {:induction false} RunKeepsInv(r: LinkRun, n: nat)
    requires r.Valid() && n <= |r.steps|
    ensures Inv(r.states[n], r.cfg)
  {
    hide Next, Enabled;
    if n > 0 {
      RunKeepsInv(r, n - 1);
      assert r.Follows(n - 1);
      StepKeepsInv(r.states[n - 1], r.steps[n - 1], r.cfg);
    }
  }

  lemma {:induction false} RunKeepsHonest(r: LinkRun, n: nat)
    requires r.Valid() && r.HonestlyAcked() && n <= |r.steps|
    ensures Honest(r.states[n])
  {
    hide Next, Enabled, Inv, HonestStep;
    if n == 0 {
      NewIsHonest();
    } else {
      RunKeepsHonest(r, n - 1);
      RunKeepsInv(r, n - 1);
      assert r.Follows(n - 1);
      StepKeepsHonest(r.states[n - 1], r.steps[n - 1], r.cfg);
    }
  }

  lemma NewIsHonest()
    ensures Honest(NEW_LINK)
  {
  }

  /** Whatever is acked, the buffer holds the last |buffer| numbers stamped, each with the bytes first sent. */
  lemma BufferIsTail(r: LinkRun, n: nat, i: nat)
    requires r.Valid() && n <= |r.steps| && i < |r.states[n].server.buffer|
    ensures var l := r.states[n];
            var s := |l.log| - |l.server.buffer| + 1 + i;
            && l.server.nextSeq == |l.log| && 1 <= s <= |l.log|
            && l.server.buffer[i].number == s && l.server.buffer[i].bytes == Stamped(s, l.log[s - 1])
  {
    RunKeepsInv(r, n);
  }

  /** Number s has been stamped and is still in the buffer. */
  predicate Held(l: Link, s: nat) {
    |l.log| < s + |l.server.buffer| && s <= |l.log|
  }

  /** Step i brings an ack that covers s after s was stamped. */
  ghost predicate AckCovers(r: LinkRun, i: nat, s: nat)
    requires r.Shaped() && i < |r.steps|
  {
    r.steps[i].AckArrives? && s <= r.steps[i].ack && s <= |r.states[i].log|
  }

  lemma StepHolds(l: Link, step: LinkStep, cfg: Config, s: nat)
    requires Tail(l.server, l.log)
    ensures var n := Next(l, step, cfg);
            && |l.log| <= |n.log|
            && (s <= |l.log| ==> (Held(n, s) <==> Held(l, s) && !(step.AckArrives? && s <= step.ack)))
            && (|l.log| < s <= |n.log| ==> Held(n, s) && !step.AckArrives?)
  {
    hide Resent, WithoutAcked;
    if step.Retransmit? {
      ResentShape(l.server.buffer, step.answers, step.now, cfg);
    } else if step.AckArrives? {
      AckKeepsTail(l.server, l.log, step.ack);
    }
  }

  /** For any client: a stamped frame is held if and only if no ack covering it arrived since it was stamped. */
  lemma {:induction false} HeldUntilAcked(r: LinkRun, n: nat, s: nat)
    requires r.Valid() && n <= |r.steps| && 1 <= s <= |r.states[n].log|
    ensures Held(r.states[n], s) <==> forall i: nat | i < n :: !AckCovers(r, i, s)
    decreases n
  {
    hide Next, Enabled, Held;
    if n > 0 {
      var m := n - 1;
      RunKeepsInv(r, m);
      assert r.Follows(m);
      StepHolds(r.states[m], r.steps[m], r.cfg, s);
      if s <= |r.states[m].log| {
        HeldUntilAcked(r, m, s);
      } else {
        forall i: nat | i < n ensures !AckCovers(r, i, s) {
          NumbersAreNeverReused(r, i, m);
        }
      }
      assert AckCovers(r, m, s) <==> r.steps[m].AckArrives? && s <= r.steps[m].ack && s <= |r.states[m].log|;
    }
  }

  /**
   At least once, from stamping on, for a client that acks only what it has: in every state the
   buffer holds exactly the numbers ackedSeq + 1 .. nextSeq, each with the bytes first sent under
   it, and the client holds every frame up to ackedSeq. So each stamped frame was received or is
   still held for resending.
   */
  lemma AtLeastOnce(r: LinkRun, n: nat, s: nat)
    requires r.Valid() && r.HonestlyAcked() && n <= |r.steps| && 1 <= s <= r.states[n].server.nextSeq
    ensures var l := r.states[n];
            && l.server.nextSeq == |l.log| && |l.server.buffer| == l.server.nextSeq - l.server.ackedSeq
            && (s <= l.server.ackedSeq ==> Stamped(s, l.log[s - 1]) in l.received)
            && (s > l.server.ackedSeq ==>
                  var f := l.server.buffer[s - l.server.ackedSeq - 1];
                  f.number == s && f.bytes == Stamped(s, l.log[s - 1]))
  {
    RunKeepsInv(r, n);
    RunKeepsHonest(r, n);
    var l := r.states[n];
    if s <= l.server.ackedSeq {
      assert Got(l, s);
    }
  }

  /** A client that acks what it does not have can lose a frame: it is neither received nor held any more. */
  lemma OverAckLosesFrame(cfg: Config)
    ensures exists l :: Reachable(l, cfg, false) && l.log == ["x"] && !Held(l, 1) && l.received == {}
  {
    hide Reachable;
    NewIsReachable(cfg, false);
    NextIsReachable(NEW_LINK, Stamp("x", 0), cfg, false);
    var stamped := Next(NEW_LINK, Stamp("x", 0), cfg);
    NextIsReachable(stamped, AckArrives(1), cfg, false);
    var l := Next(stamped, AckArrives(1), cfg);
    StampKeepsTail(NEW_LINK.server, [], "x", 0);
    StepHolds(stamped, AckArrives(1), cfg, 1);
  }

  /** An ack ahead of the stamps breaks the run ackedSeq + 1 .. nextSeq, also for frames stamped later. */
  lemma OverAckBreaksTheRun(cfg: Config)
    ensures exists l :: Reachable(l, cfg, false) && l.log == ["x"] && !Exact(l.server, l.log)
  {
    hide Reachable;
    NewIsReachable(cfg, false);
    NextIsReachable(NEW_LINK, AckArrives(1), cfg, false);
    var acked := Next(NEW_LINK, AckArrives(1), cfg);
    NextIsReachable(acked, Stamp("x", 0), cfg, false);
    var l := Next(acked, Stamp("x", 0), cfg);
    assert l.log == ["x"] && l.server.ackedSeq == 1;
  }

  /** A number is never given to a second payload: later logs only extend earlier ones. */
  lemma {:induction false} NumbersAreNeverReused(r: LinkRun, i: nat, j: nat)
    requires r.Valid() && i <= j <= |r.steps|
    ensures r.states[i].log <= r.states[j].log
    decreases j
  {
    if i < j {
      NumbersAreNeverReused(r, i, j - 1);
      assert r.Follows(j - 1);
    }
  }

  /** No frame is written more often than the retransmit limit allows, counting its first send. */
  lemma SendsAreBounded(r: LinkRun, n: nat, w: Wire)
    requires r.Valid() && n <= |r.steps|
    ensures r.states[n].flight[w] <= MaxSends(r.cfg)
    ensures forall i | 0 <= i < |r.states[n].server.buffer| ::
              var f := r.states[n].server.buffer[i];
              f.attempts == r.states[n].flight[f.bytes] <= MaxSends(r.cfg)
  {
    RunKeepsInv(r, n);
  }

  // ---------------------------------------------------------------------------
  // Flushing an outbox is a run of stamps.
  // ---------------------------------------------------------------------------

  function ReliablePayloads(wire: seq<Wire>): seq<string> {
    if wire == [] then []
    else if wire[0].Stamped? then [wire[0].data] + ReliablePayloads(wire[1..])
    else ReliablePayloads(wire[1..])
  }

  function StampedOnly(wire: seq<Wire>): seq<Wire> {
    if wire == [] then [] else if wire[0].Stamped? then [wire[0]] + StampedOnly(wire[1..]) else StampedOnly(wire[1..])
  }

  function StampAll(l: Link, payloads: seq<string>, now: nat, cfg: Config): Link
    decreases |payloads|
  {
    if payloads == [] then l else StampAll(Next(l, Stamp(payloads[0], now), cfg), payloads[1..], now, cfg)
  }

  lemma {:induction false} StampAllIsReachable(l: Link, payloads: seq<string>, now: nat, cfg: Config, honest: bool)
    requires Reachable(l, cfg, honest)
    ensures Reachable(StampAll(l, payloads, now, cfg), cfg, honest)
    decreases |payloads|
  {
    hide Reachable;
    if payloads != [] {
      NextIsReachable(l, Stamp(payloads[0], now), cfg, honest);
      StampAllIsReachable(Next(l, Stamp(payloads[0], now), cfg), payloads[1..], now, cfg, honest);
    }
  }

  /** The link once the server has written the wire and is left with this buffer. */
  function Wrote(l: Link, server: Reliable, wire: seq<Wire>): Link {
    l.(server := server, log := l.log + ReliablePayloads(wire), flight := l.flight + multiset(StampedOnly(wire)))
  }

  lemma HeadSplits(first: Wire, rest: seq<Wire>)
    ensures ReliablePayloads([first] + rest) == ReliablePayloads([first]) + ReliablePayloads(rest)
    ensures StampedOnly([first] + rest) == StampedOnly([first]) + StampedOnly(rest)
  {
    assert ([first] + rest)[1..] == rest && [first][1..] == [];
  }

  lemma WroteOneMore(l: Link, first: Wire, server: Reliable, rest: seq<Wire>)
    ensures Wrote(Wrote(l, l.server, [first]), server, rest) == Wrote(l, server, [first] + rest)
  {
    HeadSplits(first, rest);
    Appended(l.log, ReliablePayloads([first]), ReliablePayloads(rest));
    Carried(l.flight, StampedOnly([first]), StampedOnly(rest));
  }

  lemma Appended<T>(a: seq<T>, b: seq<T>, c: seq<T>)
    ensures a + b + c == a + (b + c)
  {
  }

  lemma Carried<T>(flight: multiset<T>, a: seq<T>, b: seq<T>)
    ensures flight + multiset(a) + multiset(b) == flight + multiset(a + b)
  {
  }

  lemma WroteStamped(l: Link, data: string, now: nat, cfg: Config)
    ensures Next(l, Stamp(data, now), cfg)
            == Wrote(l, l.server, [Stamped(l.server.nextSeq + 1, data)]).(server := StampedOn(l.server, data, now))
  {
    OneStamped(Stamped(l.server.nextSeq + 1, data));
  }

  lemma OneStamped(w: Wire)
    requires w.Stamped?
    ensures ReliablePayloads([w]) == [w.data] && StampedOnly([w]) == [w]
  {
    var none := [w][1..];
    assert none == [];
    assert ReliablePayloads(none) == [] && StampedOnly(none) == [];
  }

  lemma WroteNothing(l: Link, server: Reliable, w: Wire, rest: seq<Wire>)
    requires w.Plain?
    ensures Wrote(l, server, []) == l.(server := server)
    ensures Wrote(l, server, [w] + rest) == Wrote(l, server, rest)
    ensures ReliablePayloads([w] + rest) == ReliablePayloads(rest)
  {
    assert ([w] + rest)[1..] == rest;
  }

  /** A plain write and what follows it, given that what follows is a run of stamps. */
  lemma PlainThen(l: Link, w: Wire, server: Reliable, rest: seq<Wire>, now: nat, cfg: Config)
    requires w.Plain? && StampAll(l, ReliablePayloads(rest), now, cfg) == Wrote(l, server, rest)
    ensures StampAll(l, ReliablePayloads([w] + rest), now, cfg) == Wrote(l, server, [w] + rest)
  {
    WroteNothing(l, server, w, rest);
  }

  lemma StampAllUnfolds(l: Link, data: string, more: seq<string>, now: nat, cfg: Config)
    ensures StampAll(l, [data] + more, now, cfg) == StampAll(Next(l, Stamp(data, now), cfg), more, now, cfg)
  {
    assert ([data] + more)[1..] == more;
  }

  lemma WroteAfterStamp(l: Link, data: string, server: Reliable, rest: seq<Wire>, now: nat, cfg: Config)
    ensures Wrote(Next(l, Stamp(data, now), cfg), server, rest)
            == Wrote(l, server, [Stamped(l.server.nextSeq + 1, data)] + rest)
  {
    WroteStamped(l, data, now, cfg);
    WroteOneMore(l, Stamped(l.server.nextSeq + 1, data), server, rest);
  }

  /** A stamped write and what follows it, given that what follows is a run of stamps. */
  lemma StampThen(l: Link, data: string, server: Reliable, rest: seq<Wire>, now: nat, cfg: Config)
    requires var next := Next(l, Stamp(data, now), cfg);
             StampAll(next, ReliablePayloads(rest), now, cfg) == Wrote(next, server, rest)
    ensures var wire := [Stamped(l.server.nextSeq + 1, data)] + rest;
            StampAll(l, ReliablePayloads(wire), now, cfg) == Wrote(l, server, wire)
  {
    hide StampAll, Wrote, Next;
    var w := Stamped(l.server.nextSeq + 1, data);
    HeadSplits(w, rest);
    OneStamped(w);
    StampAllUnfolds(l, data, ReliablePayloads(rest), now, cfg);
    WroteAfterStamp(l, data, server, rest, now, cfg);
  }

  /** What a flush does to the link is stamping, in order, the reliable payloads it wrote. */
  lemma {:induction false} FlushIsStamps(l: Link, ctx: Context, answers: seq<Answer>, now: nat, cfg: Config)
    requires l.server == ctx.reliable
    ensures var f := Flushed(ctx, answers, now);
            StampAll(l, ReliablePayloads(f.wire), now, cfg) == Wrote(l, f.ctx.reliable, f.wire)
    decreases |ctx.outbox.q|
  {
    hide Offered, AnswerAt, Wrote;
    WroteNothing(l, ctx.reliable, Plain(""), []);
    if ctx.outbox.q == [] {
      return;
    }
    var front, rest := ctx.outbox.q[0], ctx.outbox.q[1..];
    var later := if answers == [] then [] else answers[1..];
    match front.action
    case DropConnection(_, _) =>
    case UpdateAuthState(_, _) =>
      AuthKeepsReliable(ctx, front.action);
      FlushIsStamps(l, WithQueue(AuthUpdated(ctx, front.action), rest), later, now, cfg);
    case SendPayload(_, _) =>
      var offer := Offered(ctx.reliable, ctx.valid, front.action, AnswerAt(answers, 0), now);
      if offer.handled {
        var c := WithQueue(ctx.(reliable := offer.reliable), rest);
        var f := Flushed(c, later, now);
        OfferWrites(ctx.reliable, ctx.valid, front.action, AnswerAt(answers, 0), now);
        if offer.wire == [] {
          assert offer.wire + f.wire == f.wire;
          FlushIsStamps(l, c, later, now, cfg);
        } else if offer.wire[0].Plain? {
          FlushIsStamps(l, c, later, now, cfg);
          PlainThen(l, offer.wire[0], f.ctx.reliable, f.wire, now, cfg);
        } else {
          FlushIsStamps(Next(l, Stamp(offer.wire[0].data, now), cfg), c, later, now, cfg);
          StampThen(l, offer.wire[0].data, f.ctx.reliable, f.wire, now, cfg);
        }
      }
  }

  lemma AuthKeepsReliable(ctx: Context, a: Action)
    requires a.UpdateAuthState?
    ensures AuthUpdated(ctx, a).reliable == ctx.reliable
  {
  }

  /** A handled payload writes nothing, itself, or itself stamped with the next number. */
  lemma OfferWrites(r: Reliable, valid: bool, a: Action, answer: Answer, now: nat)
    requires a.SendPayload? && Offered(r, valid, a, answer, now).handled
    ensures var o := Offered(r, valid, a, answer, now);
            || (o.wire == [] && o.reliable == r)
            || (|o.wire| == 1 && o.wire == [o.wire[0]] && o.wire[0].Plain? && o.reliable == r)
            || (&& |o.wire| == 1 && o.wire[0].Stamped? && o.reliable == StampedOn(r, o.wire[0].data, now)
                && o.wire == [Stamped(r.nextSeq + 1, o.wire[0].data)])
  {
  }
}
