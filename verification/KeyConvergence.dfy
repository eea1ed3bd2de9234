/**
 The channel key under interleaving. Rotation, joining, leaving, re-sync, clearing and key
 acquisition run on different threads; the steps below are the points where they can overlap,
 with the per-channel rotation lock held from a rotation's first step to its release. Redis is
 up, there is no restart, and channel lookups succeed.
 */
module KeyConvergence {
  import opened Domain
  import opened VoiceSessions
  import K = KeyRing

  /** What the holder of a channel's lock still has to do: list the participants, or send to them. */
  datatype Phase = Announcing | Sending(todo: set<UserId>)

  /**
   resyncs holds users whose re-sync has been called but has not read their channel yet; waiting
   holds re-syncs that read a channel and wait for its lock. clears holds channels that became
   empty and are about to be cleared. unlockedGets holds keys read by the lock-free fast path of
   a join request whose write to storage is still to come. lastSent is the last key update sent
   to a session for a channel; sessions below issued exist or existed.
   */
  datatype Machine = Machine(
    seats: Seats,
    ring: K.Ring,
    stored: K.Ring,
    minted: nat,
    live: set<SessionId>,
    issued: nat,
    locks: map<ChannelId, Phase>,
    resyncs: set<UserId>,
    waiting: set<(UserId, ChannelId)>,
    clears: set<ChannelId>,
    unlockedGets: set<(ChannelId, K.ChannelKey)>,
    lastSent: map<(SessionId, ChannelId), K.ChannelKey>)

  const INITIAL := Machine(map[], map[], map[], 0, {}, 0, map[], {}, {}, {}, {}, map[])

  datatype Step =
    | Connect
    | Disconnect(session: SessionId)
    | Join(channel: ChannelId, user: UserId, session: SessionId)
    | Leave(channel: ChannelId, user: UserId)
    | Finish(channel: ChannelId)
    | Transfer(user: UserId, session: SessionId)
    | ResyncCall(user: UserId)
    | ResyncRead(user: UserId)
    | ResyncSend(user: UserId, channel: ChannelId)
    | Rotate(channel: ChannelId)
    | Recover(channel: ChannelId)
    | CreateFresh(channel: ChannelId)
    | Reuse(channel: ChannelId)
    | Restore(channel: ChannelId)
    | Snapshot(channel: ChannelId)
    | Send(channel: ChannelId, user: UserId)
    | Release(channel: ChannelId)
    | Clear(channel: ChannelId)
    | UnlockedGet(channel: ChannelId)
    | UnlockedPersist(channel: ChannelId, key: K.ChannelKey)
    | Expire(channel: ChannelId)

  /** When each step may happen; a step under the lock needs the lock free. */
  predicate Enabled(m: Machine, step: Step) {
    match step
    case Join(c, u, s) => s < m.issued
    case Transfer(u, s) => s < m.issued && u in m.seats
    case ResyncRead(u) => u in m.resyncs
    case ResyncSend(u, c) => (u, c) in m.waiting && c !in m.locks
    case Rotate(c) => c !in m.locks
    case Recover(c) => c !in m.locks && c !in m.ring && c !in m.stored
    case CreateFresh(c) => c !in m.locks && c !in m.ring
    case Reuse(c) => c !in m.locks && c in m.ring
    case Restore(c) => c !in m.locks && c !in m.ring && c in m.stored
    case Snapshot(c) => c in m.locks && m.locks[c] == Announcing
    case Send(c, u) => c in m.locks && c in m.ring && m.locks[c].Sending? && u in m.locks[c].todo
    case Release(c) => c in m.locks && m.locks[c] == Sending({})
    case Clear(c) => c in m.clears && c !in m.locks
    case UnlockedGet(c) => c in m.ring
    case UnlockedPersist(c, k) => (c, k) in m.unlockedGets
    case _ => true
  }

  function Installed(m: Machine, op: K.RingOp): Machine
    requires op.channel in K.Apply(m.ring, op)
  {
    var ring := K.Apply(m.ring, op);
    m.(ring := ring, stored := m.stored[op.channel := ring[op.channel]])
  }

  function SentTo(m: Machine, u: UserId, c: ChannelId): Machine
    requires c in m.ring
  {
    if u in m.seats && m.seats[u].owner in m.live
    then m.(lastSent := m.lastSent[(m.seats[u].owner, c) := m.ring[c]])
    else m
  }

  function Next(m: Machine, step: Step): Machine
    requires Enabled(m, step)
  {
    match step
    case Connect => m.(live := m.live + {m.issued}, issued := m.issued + 1)
    case Disconnect(s) => m.(live := m.live - {s})
    case Join(c, u, s) => m.(seats := Seated(m.seats, c, u, s), resyncs := m.resyncs + {u})
    case Leave(c, u) =>
      var seats := Unseated(m.seats, c, u);
      m.(seats := seats, clears := if Vacant(seats, c) then m.clears + {c} else m.clears)
    case Finish(c) => m.(seats := WithoutChannel(m.seats, c), clears := m.clears + {c})
    case Transfer(u, s) =>
      m.(seats := WithOwner(m.seats, u, m.seats[u].owner, s), resyncs := m.resyncs + {u})
    case ResyncCall(u) => m.(resyncs := m.resyncs + {u})
    case ResyncRead(u) =>
      var m' := m.(resyncs := m.resyncs - {u});
      if u in m.seats then m'.(waiting := m.waiting + {(u, m.seats[u].channel)}) else m'
    case ResyncSend(u, c) =>
      var m' := m.(waiting := m.waiting - {(u, c)});
      if c in m.ring then SentTo(m', u, c) else m'
    case Rotate(c) =>
      Installed(m, K.Rotate(c, m.minted)).(minted := m.minted + 1, locks := m.locks[c := Announcing])
    case Recover(c) =>
      Installed(m, K.GetOrCreate(c, m.minted)).(minted := m.minted + 1, locks := m.locks[c := Announcing])
    case CreateFresh(c) => Installed(m, K.GetOrCreate(c, m.minted)).(minted := m.minted + 1)
    case Reuse(c) => m.(stored := m.stored[c := m.ring[c]])
    case Restore(c) => Installed(m, K.SetKey(c, m.stored[c].key, m.stored[c].index))
    case Snapshot(c) => m.(locks := m.locks[c := Sending(Members(m.seats, c))])
    case Send(c, u) => SentTo(m.(locks := m.locks[c := Sending(m.locks[c].todo - {u})]), u, c)
    case Release(c) => m.(locks := m.locks - {c})
    case Clear(c) => m.(ring := m.ring - {c}, stored := m.stored - {c}, clears := m.clears - {c})
    case UnlockedGet(c) => m.(unlockedGets := m.unlockedGets + {(c, m.ring[c])})
    case UnlockedPersist(c, k) =>
      m.(unlockedGets := m.unlockedGets - {(c, k)}, stored := m.stored[c := k])
    case Expire(c) => m.(stored := m.stored - {c})
  }

  predicate Connected(m: Machine, u: UserId, c: ChannelId) {
    In(m.seats, u, c) && m.seats[u].owner in m.live
  }

  predicate ResyncPending(m: Machine, u: UserId, c: ChannelId) {
    u in m.resyncs || (u, c) in m.waiting
  }

  /**
   Two things are decided before the lock is taken. The fast path's late write must find the
   channel's key in place, if not the key it read. A key minted for an empty channel must find no
   connected member other than those about to be re-synced.
   */
  ghost predicate Timely(m: Machine, step: Step) {
    && (step.UnlockedPersist? ==> step.channel in m.ring)
    && (step.CreateFresh? ==> forall u | Connected(m, u, step.channel) :: ResyncPending(m, u, step.channel))
  }

  // ---------------------------------------------------------------------------
  // Nothing to restore, exactly as long as late writes are timely.
  // ---------------------------------------------------------------------------

  predicate Backed(m: Machine, c: ChannelId) {
    c in m.stored || c in m.locks ==> c in m.ring
  }

  /** Every stored key belongs to a channel that has a live key, so the restore branch is dead. */
  ghost predicate NothingToRestore(m: Machine) {
    forall c :: Backed(m, c)
  }

  /** The one write outside the lock is harmless if and only if the channel has not been cleared since. */
  lemma UnlockedPersistSafeIff(m: Machine, c: ChannelId, k: K.ChannelKey)
    requires NothingToRestore(m) && Enabled(m, UnlockedPersist(c, k))
    ensures NothingToRestore(Next(m, UnlockedPersist(c, k))) <==> Timely(m, UnlockedPersist(c, k))
  {
    var n := Next(m, UnlockedPersist(c, k));
    assert Backed(n, c) <==> c in m.ring;
    assert forall d :: d != c ==> Backed(n, d) == Backed(m, d);
  }

  lemma StepKeepsNothingToRestore(m: Machine, step: Step)
    requires NothingToRestore(m) && Enabled(m, step) && Timely(m, step)
    ensures NothingToRestore(Next(m, step))
  {
    forall c ensures Backed(Next(m, step), c) {
      assert Backed(m, c);
    }
  }

  // ---------------------------------------------------------------------------
  // Convergence
  // ---------------------------------------------------------------------------

  /** The user's owner session was last sent the channel's live key. */
  predicate UpToDate(m: Machine, u: UserId, c: ChannelId)
    requires u in m.seats
  {
    c in m.ring ==> Lookup(m.lastSent, (m.seats[u].owner, c)) == Some(m.ring[c])
  }

  /** A broadcast under way that has yet to reach the user. */
  predicate BroadcastPending(m: Machine, u: UserId, c: ChannelId) {
    c in m.locks && (m.locks[c] == Announcing || u in m.locks[c].todo)
  }

  predicate Covered(m: Machine, u: UserId, c: ChannelId) {
    Connected(m, u, c) ==> UpToDate(m, u, c) || ResyncPending(m, u, c) || BroadcastPending(m, u, c)
  }

  /** The channel's keys in memory and storage were minted before. */
  predicate MintedAt(m: Machine, c: ChannelId) {
    (c in m.ring ==> m.ring[c].key < m.minted) && (c in m.stored ==> m.stored[c].key < m.minted)
  }

  /** Every key anywhere was minted before. */
  ghost predicate TokensMinted(m: Machine) {
    && (forall c :: MintedAt(m, c))
    && (forall g | g in m.unlockedGets :: g.1.key < m.minted)
    && (forall p | p in m.lastSent :: m.lastSent[p].key < m.minted)
  }

  ghost predicate Converging(m: Machine) {
    && NothingToRestore(m) && TokensMinted(m)
    && (forall s | s in m.live :: s < m.issued)
    && (forall u | u in m.seats :: m.seats[u].owner < m.issued)
    && (forall u, c :: Covered(m, u, c))
  }

  /** Steps that change who sits where, or who is connected. */
  predicate IsMembershipStep(step: Step) {
    step.Connect? || step.Disconnect? || step.Join? || step.Leave? || step.Finish? || step.Transfer?
  }

  predicate IsSendingStep(step: Step) {
    step.ResyncCall? || step.ResyncRead? || step.ResyncSend? || step.Snapshot? || step.Send? || step.Release?
  }

  lemma MembershipStepKeepsCover(m: Machine, step: Step, u: UserId, c: ChannelId)
    requires IsMembershipStep(step) && Enabled(m, step)
    requires u in m.seats ==> m.seats[u].owner < m.issued
    requires Covered(m, u, c)
    ensures Covered(Next(m, step), u, c)
  {
  }

  /** Every send carries the live key, so it can only bring sessions up to date. */
  lemma SendKeepsUpToDate(m: Machine, v: UserId, d: ChannelId, u: UserId, c: ChannelId)
    requires d in m.ring
    ensures var n := SentTo(m, v, d);
            && n == m.(lastSent := n.lastSent)
            && (u in m.seats && UpToDate(m, u, c) ==> UpToDate(n, u, c))
            && (u == v && c == d && Connected(m, u, c) ==> UpToDate(n, u, c))
  {
  }

  lemma ResyncSendKeepsCover(m: Machine, v: UserId, d: ChannelId, u: UserId, c: ChannelId)
    requires Enabled(m, ResyncSend(v, d)) && Covered(m, u, c)
    ensures Covered(Next(m, ResyncSend(v, d)), u, c)
  {
    hide SentTo;
    if d in m.ring {
      SendKeepsUpToDate(m.(waiting := m.waiting - {(v, d)}), v, d, u, c);
    }
  }

  lemma SendKeepsCover(m: Machine, d: ChannelId, v: UserId, u: UserId, c: ChannelId)
    requires Enabled(m, Send(d, v)) && Covered(m, u, c)
    ensures Covered(Next(m, Send(d, v)), u, c)
  {
    hide SentTo;
    SendKeepsUpToDate(m.(locks := m.locks[d := Sending(m.locks[d].todo - {v})]), v, d, u, c);
  }

  lemma SendingStepKeepsCover(m: Machine, step: Step, u: UserId, c: ChannelId)
    requires IsSendingStep(step) && Enabled(m, step)
    requires Covered(m, u, c)
    ensures Covered(Next(m, step), u, c)
  {
    hide SentTo;
    if step.ResyncSend? {
      ResyncSendKeepsCover(m, step.user, step.channel, u, c);
    } else if step.Send? {
      SendKeepsCover(m, step.channel, step.user, u, c);
    }
  }

  lemma KeyStepKeepsCover(m: Machine, step: Step, u: UserId, c: ChannelId)
    requires !IsMembershipStep(step) && !IsSendingStep(step) && Enabled(m, step) && Timely(m, step)
    requires NothingToRestore(m) && Covered(m, u, c)
    ensures Covered(Next(m, step), u, c)
  {
    assert step.Restore? ==> Backed(m, step.channel);
    assert step.CreateFresh? && Connected(m, u, step.channel) ==> ResyncPending(m, u, step.channel);
  }

  lemma StepKeepsLive(m: Machine, step: Step)
    requires Enabled(m, step) && forall s | s in m.live :: s < m.issued
    ensures var n := Next(m, step); forall s | s in n.live :: s < n.issued
  {
    hide Seated, Unseated, WithoutChannel, WithOwner;
  }

  lemma StepKeepsOwner(m: Machine, step: Step, u: UserId)
    requires Enabled(m, step) && (u in m.seats ==> m.seats[u].owner < m.issued)
    ensures var n := Next(m, step); u in n.seats ==> n.seats[u].owner < n.issued
  {
    hide Members, Vacant, K.NextIndex;
    match step
    case Join(_, _, _) =>
    case Leave(_, _) =>
    case Finish(_) =>
    case Transfer(_, _) =>
    case ResyncSend(_, _) =>
    case Send(_, _) =>
    case _ =>
  }

  lemma StepKeepsSessions(m: Machine, step: Step)
    requires Enabled(m, step)
    requires forall s | s in m.live :: s < m.issued
    requires forall u | u in m.seats :: m.seats[u].owner < m.issued
    ensures var n := Next(m, step);
            && (forall s | s in n.live :: s < n.issued)
            && (forall u | u in n.seats :: n.seats[u].owner < n.issued)
  {
    hide Next;
    StepKeepsLive(m, step);
    forall u | u in Next(m, step).seats ensures Next(m, step).seats[u].owner < Next(m, step).issued {
      StepKeepsOwner(m, step, u);
    }
  }

  lemma MembershipStepKeepsTokens(m: Machine, step: Step)
    requires TokensMinted(m) && Enabled(m, step) && IsMembershipStep(step)
    ensures TokensMinted(Next(m, step))
  {
    hide Seated, Unseated, WithoutChannel, WithOwner, Vacant, TokensMinted;
    SameTokens(m, Next(m, step));
  }

  lemma SameKeysMinted(m: Machine, n: Machine, c: ChannelId)
    requires MintedAt(m, c) && n.ring == m.ring && n.stored == m.stored && n.minted == m.minted
    ensures MintedAt(n, c)
  {
  }

  lemma SendKeepsTokens(m: Machine, u: UserId, c: ChannelId)
    requires TokensMinted(m) && c in m.ring
    ensures TokensMinted(SentTo(m, u, c))
  {
    hide MintedAt;
    LiveKeyMinted(m, c);
    forall d ensures MintedAt(SentTo(m, u, c), d) {
      SameKeysMinted(m, SentTo(m, u, c), d);
    }
  }

  lemma SameTokens(m: Machine, n: Machine)
    requires TokensMinted(m) && n.ring == m.ring && n.stored == m.stored && n.minted == m.minted
    requires n.unlockedGets == m.unlockedGets && n.lastSent == m.lastSent
    ensures TokensMinted(n)
  {
    forall c ensures MintedAt(n, c) {
      SameKeysMinted(m, n, c);
    }
  }

  lemma SendingStepKeepsTokens(m: Machine, step: Step)
    requires TokensMinted(m) && Enabled(m, step) && IsSendingStep(step)
    ensures TokensMinted(Next(m, step))
  {
    hide Members, SentTo, TokensMinted;
    if step.Send? {
      var n := m.(locks := m.locks[step.channel := Sending(m.locks[step.channel].todo - {step.user})]);
      SameTokens(m, n);
      SendKeepsTokens(n, step.user, step.channel);
    } else if step.ResyncSend? {
      var n := m.(waiting := m.waiting - {(step.user, step.channel)});
      SameTokens(m, n);
      if step.channel in m.ring {
        SendKeepsTokens(n, step.user, step.channel);
      }
    } else {
      SameTokens(m, Next(m, step));
    }
  }

  lemma LiveKeyMinted(m: Machine, c: ChannelId)
    requires TokensMinted(m)
    ensures c in m.ring ==> m.ring[c].key < m.minted
  {
    assert MintedAt(m, c);
  }

  lemma KeyStepKeepsMintedAt(m: Machine, step: Step, c: ChannelId)
    requires MintedAt(m, c) && Enabled(m, step) && (step.UnlockedPersist? ==> step.key.key < m.minted)
    requires !IsMembershipStep(step) && !IsSendingStep(step)
    ensures MintedAt(Next(m, step), c)
  {
    hide Seated, Unseated, WithoutChannel, WithOwner, Members, Vacant, SentTo, K.NextIndex;
  }

  lemma KeyStepKeepsTokens(m: Machine, step: Step)
    requires TokensMinted(m) && Enabled(m, step) && !IsMembershipStep(step) && !IsSendingStep(step)
    ensures TokensMinted(Next(m, step))
  {
    hide Seated, Unseated, WithoutChannel, WithOwner, Members, Vacant, SentTo, K.Apply, MintedAt;
    forall c ensures MintedAt(Next(m, step), c) {
      KeyStepKeepsMintedAt(m, step, c);
    }
    if step.UnlockedGet? {
      LiveKeyMinted(m, step.channel);
    }
  }

  lemma StepKeepsTokens(m: Machine, step: Step)
    requires TokensMinted(m) && Enabled(m, step)
    ensures TokensMinted(Next(m, step))
  {
    hide Next, TokensMinted, Enabled;
    if IsMembershipStep(step) {
      MembershipStepKeepsTokens(m, step);
    } else if IsSendingStep(step) {
      SendingStepKeepsTokens(m, step);
    } else {
      KeyStepKeepsTokens(m, step);
    }
  }

  lemma StepKeepsConverging(m: Machine, step: Step)
    requires Converging(m) && Enabled(m, step) && Timely(m, step)
    ensures Converging(Next(m, step))
  {
    hide Next, NothingToRestore, Covered, Timely, TokensMinted;
    StepKeepsNothingToRestore(m, step);
    StepKeepsTokens(m, step);
    StepKeepsSessions(m, step);
    forall u, c ensures Covered(Next(m, step), u, c) {
      if IsMembershipStep(step) {
        MembershipStepKeepsCover(m, step, u, c);
      } else if IsSendingStep(step) {
        SendingStepKeepsCover(m, step, u, c);
      } else {
        KeyStepKeepsCover(m, step, u, c);
      }
    }
  }

  /**
   Minting a key for a channel believed empty keeps convergence if and only if every connected
   member found there by now has a re-sync pending: the mint itself is not broadcast.
   */
  lemma CreateFreshSafeIff(m: Machine, c: ChannelId)
    requires Converging(m) && Enabled(m, CreateFresh(c))
    ensures Converging(Next(m, CreateFresh(c))) <==> Timely(m, CreateFresh(c))
  {
    var n := Next(m, CreateFresh(c));
    if Timely(m, CreateFresh(c)) {
      StepKeepsConverging(m, CreateFresh(c));
    } else {
      var u :| Connected(m, u, c) && !ResyncPending(m, u, c);
      assert !UpToDate(n, u, c) && !Covered(n, u, c);
    }
  }

  // ---------------------------------------------------------------------------
  // Runs
  // ---------------------------------------------------------------------------

  datatype Run = Run(states: seq<Machine>, steps: seq<Step>) {
    ghost predicate Shaped() {
      |states| == |steps| + 1 && states[0] == INITIAL
    }

    ghost predicate Follows(i: nat)
      requires Shaped() && i < |steps|
    {
      Enabled(states[i], steps[i]) && states[i + 1] == Next(states[i], steps[i])
    }

    ghost predicate Valid() {
      Shaped() && forall i: nat | i < |steps| :: Follows(i)
    }

    ghost predicate AllTimely()
      requires Shaped()
    {
      forall i: nat | i < |steps| :: Timely(states[i], steps[i])
    }
  }

  lemma {:induction false} TimelyRunConverges(r: Run, n: nat)
    requires r.Valid() && r.AllTimely() && n <= |r.steps|
    ensures Converging(r.states[n])
  {
    hide Converging, Next, Enabled, Timely;
    if n == 0 {
      InitialConverging();
    } else {
      TimelyRunConverges(r, n - 1);
      assert r.Follows(n - 1);
      StepKeepsConverging(r.states[n - 1], r.steps[n - 1]);
    }
  }

  lemma InitialConverging()
    ensures Converging(INITIAL)
  {
  }

  /**
   Key convergence: in every state of every interleaving, a participant whose owner session is
   connected was last sent the channel's live key, or a re-sync of theirs is pending, or a
   broadcast under way has yet to reach them.
   */
  lemma KeysConverge(r: Run, n: nat, u: UserId, c: ChannelId)
    requires r.Valid() && r.AllTimely() && n <= |r.steps|
    requires Connected(r.states[n], u, c)
    ensures var m := r.states[n];
            UpToDate(m, u, c) || ResyncPending(m, u, c) || BroadcastPending(m, u, c)
  {
    TimelyRunConverges(r, n);
    assert Covered(r.states[n], u, c);
  }

  /** Nothing of the channel is in flight: its lock is free and no member waits for a re-sync. */
  ghost predicate Settled(m: Machine, c: ChannelId) {
    c !in m.locks && forall u | In(m.seats, u, c) :: !ResyncPending(m, u, c)
  }

  /** Once a channel settles, all its connected members were last sent one and the same key: the live one. */
  lemma SettledChannelSharesOneKey(r: Run, n: nat, c: ChannelId)
    requires r.Valid() && r.AllTimely() && n <= |r.steps| && Settled(r.states[n], c)
    ensures var m := r.states[n];
            c in m.ring ==>
              forall u | Connected(m, u, c) :: Lookup(m.lastSent, (m.seats[u].owner, c)) == Some(m.ring[c])
  {
    var m := r.states[n];
    forall u | Connected(m, u, c) ensures UpToDate(m, u, c) {
      KeysConverge(r, n, u, c);
    }
  }

  /** With timely late writes a missing key is never found in storage, so no stale key comes back. */
  lemma RestoreNeverNeeded(r: Run, n: nat, c: ChannelId)
    requires r.Valid() && r.AllTimely() && n <= |r.steps|
    ensures !Enabled(r.states[n], Restore(c))
  {
    TimelyRunConverges(r, n);
    assert Backed(r.states[n], c);
  }

  // ---------------------------------------------------------------------------
  // A late write after a clear does break convergence.
  // ---------------------------------------------------------------------------

  const ROOM := ChannelId("room")
  const ANN := UserId("ann")
  const BOB := UserId("bob")

  ghost function Last(r: Run): Machine
    requires r.Shaped()
  {
    r.states[|r.steps|]
  }

  lemma Extended(r: Run, step: Step) returns (next: Run)
    requires r.Valid() && Enabled(Last(r), step)
    ensures next.Valid() && Last(next) == Next(Last(r), step)
  {
    hide Next, Enabled;
    next := Run(r.states + [Next(Last(r), step)], r.steps + [step]);
    forall i: nat | i < |next.steps| ensures next.Follows(i) {
      if i < |r.steps| {
        assert r.Follows(i);
      }
    }
  }

  /** Ann gets the first key twice, the second time without writing it back yet; she joins and leaves. */
  lemma AnnComesAndGoes() returns (r: Run)
    ensures r.Valid()
    ensures var k := K.ChannelKey(0, 0);
            Last(r) == Machine(map[], map[ROOM := k], map[ROOM := k], 1, {0, 1}, 2, map[], {ANN}, {}, {ROOM},
                               {(ROOM, k)}, map[])
  {
    r := Run([INITIAL], []);
    r := Extended(r, Connect);
    r := Extended(r, Connect);
    r := Extended(r, CreateFresh(ROOM));
    r := Extended(r, UnlockedGet(ROOM));
    r := Extended(r, Join(ROOM, ANN, 0));
    r := Extended(r, Leave(ROOM, ANN));
    assert Last(r).seats == map[];
  }

  /** Bob joins before the room is cleared and is re-synced. */
  lemma BobIsResynced() returns (r: Run)
    ensures r.Valid()
    ensures var k := K.ChannelKey(0, 0);
            Last(r) == Machine(map[BOB := Seat(ROOM, 1, false, false)], map[ROOM := k], map[ROOM := k], 1, {0, 1}, 2,
                               map[], {ANN}, {}, {ROOM}, {(ROOM, k)}, map[(1, ROOM) := k])
  {
    r := AnnComesAndGoes();
    r := Extended(r, Join(ROOM, BOB, 1));
    r := Extended(r, ResyncRead(BOB));
    r := Extended(r, ResyncSend(BOB, ROOM));
  }

  /** Ann's next request rotates in a second key, which reaches Bob. */
  lemma BobGetsTheSecondKey() returns (r: Run)
    ensures r.Valid()
    ensures var k0, k1 := K.ChannelKey(0, 0), K.ChannelKey(1, 1);
            Last(r) == Machine(map[BOB := Seat(ROOM, 1, false, false)], map[ROOM := k1], map[ROOM := k1], 2, {0, 1}, 2,
                               map[], {ANN}, {}, {ROOM}, {(ROOM, k0)}, map[(1, ROOM) := k1])
  {
    r := BobIsResynced();
    r := Extended(r, Rotate(ROOM));
    r := Extended(r, Snapshot(ROOM));
    assert Members(Last(r).seats, ROOM) == {BOB};
    r := Extended(r, Send(ROOM, BOB));
    assert Last(r).locks[ROOM] == Sending({});
    r := Extended(r, Release(ROOM));
  }

  /**
   The delayed clear drops the second key, the late write brings the first one back to storage,
   and Ann's next request restores it: Bob, connected and with nothing pending, was last sent a
   key the channel no longer uses.
   */
  lemma LateWriteBreaksConvergence()
    ensures exists r: Run, u, c :: r.Valid() && c !in Last(r).locks && Connected(Last(r), u, c)
                                   && !ResyncPending(Last(r), u, c) && !UpToDate(Last(r), u, c)
  {
    var r := BobGetsTheSecondKey();
    var k0 := K.ChannelKey(0, 0);
    r := Extended(r, Join(ROOM, ANN, 0));
    r := Extended(r, Clear(ROOM));
    r := Extended(r, UnlockedPersist(ROOM, k0));
    r := Extended(r, Restore(ROOM));
    assert Last(r).ring[ROOM] == k0;
    assert Connected(Last(r), BOB, ROOM) && !ResyncPending(Last(r), BOB, ROOM) && !UpToDate(Last(r), BOB, ROOM);
  }

  /** A member who joins after the emptiness check but before the mint is left without the key. */
  lemma StaleEmptinessBreaksConvergence()
    ensures exists r: Run, u, c :: r.Valid() && c !in Last(r).locks && Connected(Last(r), u, c)
                                   && !ResyncPending(Last(r), u, c) && !UpToDate(Last(r), u, c)
  {
    var r := Run([INITIAL], []);
    r := Extended(r, Connect);
    r := Extended(r, Join(ROOM, BOB, 0));
    r := Extended(r, ResyncRead(BOB));
    r := Extended(r, ResyncSend(BOB, ROOM));
    r := Extended(r, CreateFresh(ROOM));
    assert Connected(Last(r), BOB, ROOM) && !ResyncPending(Last(r), BOB, ROOM) && !UpToDate(Last(r), BOB, ROOM);
  }
}
