/**
 Reconciliation only removes people for whom the remote side has been silent long enough: every
 removal is preceded by an undisturbed stretch of missing observations, and a user whose owner
 session is connected is never removed.
 */
module VoiceReconcile {
  import opened Domain
  import opened VoiceSessions
  import opened ChannelKeys
  import opened VoiceWorld
  import E = Evidence

  // ---------------------------------------------------------------------------
  // One pass and the people with a live owner connection.
  // ---------------------------------------------------------------------------

  predicate SameSeat(w: World, r: World, u: UserId) {
    Lookup(r.seats, u) == Lookup(w.seats, u)
  }

  lemma MissingCheckedEffect(w: World, c: ChannelId, v: UserId, env: Env, ttl: nat, u: UserId)
    ensures var r := MissingChecked(w, c, v, env, ttl);
            && (u != v || OwnerLive(w.seats, u, c, env) || !UserConfirmedIn(w, c, u, env, ttl) ==> SameSeat(w, r, u))
            && (!In(w.seats, u, c) ==> SameSeat(w, r, u))
            && (u == v && UserConfirmedIn(w, c, u, env, ttl) && !OwnerLive(w.seats, u, c, env) ==> !In(r.seats, u, c))
  {
    hide Rotated, Cleared;
  }

  predicate UserConfirmedIn(w: World, c: ChannelId, u: UserId, env: Env, ttl: nat) {
    E.UserConfirmed(w.evidence, c, u, env.now, ttl)
  }

  lemma {:induction false} AllMissingCheckedKeepsLive(w: World, c: ChannelId, missing: seq<UserId>, env: Env,
                                                      ttl: nat, u: UserId)
    requires OwnerLive(w.seats, u, c, env) || !In(w.seats, u, c)
    ensures SameSeat(w, AllMissingChecked(w, c, missing, env, ttl), u)
    decreases |missing|
  {
    if missing != [] {
      var n := |missing| - 1;
      AllMissingCheckedKeepsLive(w, c, missing[..n], env, ttl, u);
      MissingCheckedEffect(AllMissingChecked(w, c, missing[..n], env, ttl), c, missing[n], env, ttl, u);
    }
  }

  lemma RowAdoptedSeats(w: World, c: ChannelId, row: Participant, known: bool, env: Env, u: UserId)
    ensures var r := RowAdopted(w, c, row, known, env);
            SameSeat(w, r, u) || (u == row.user && !known && In(r.seats, u, c))
  {
  }

  /** Adoption seats people in the pass's channel and touches nobody who is already there. */
  lemma {:induction false} AllAdoptedSeats(w: World, c: ChannelId, rows: seq<Participant>, locals: set<UserId>,
                                           env: Env, u: UserId)
    ensures var r := AllAdopted(w, c, rows, locals, env);
            SameSeat(w, r, u) || (u !in locals && In(r.seats, u, c))
    decreases |rows|
  {
    if rows != [] {
      var n := |rows| - 1;
      AllAdoptedSeats(w, c, rows[..n], locals, env, u);
      RowAdoptedSeats(AllAdopted(w, c, rows[..n], locals, env), c, rows[n], rows[n].user in locals, env, u);
    }
  }

  /**
   A pass never touches the seat of a member whose owner session is connected; somebody seated
   elsewhere either keeps their seat or is adopted into the channel being reconciled.
   */
  lemma PassSparesLiveOwners(w: World, c: ChannelId, poll: Option<seq<Participant>>, order: Order, env: Env,
                             ttl: nat, u: UserId)
    ensures var r := Reconciled(w, c, poll, order, env, ttl);
            && (OwnerLive(w.seats, u, c, env) ==> SameSeat(w, r, u))
            && (!In(w.seats, u, c) ==> SameSeat(w, r, u) || In(r.seats, u, c))
  {
    if poll.Some? && ByUser(poll.value) != map[] {
      var w0 := w.(evidence := E.WithoutChannel(w.evidence, c));
      if OwnerLive(w.seats, u, c, env) || !In(w.seats, u, c) {
        AllMissingCheckedKeepsLive(w0, c, order.missing, env, ttl, u);
      }
      AllAdoptedSeats(AllMissingChecked(w0, c, order.missing, env, ttl), c, order.rows, Members(w.seats, c), env, u);
    }
  }

  // ---------------------------------------------------------------------------
  // What a pass does to one participant's evidence.
  // ---------------------------------------------------------------------------

  /** The pass lists somebody, but not this seated user, whose owner session is not connected. */
  ghost predicate Observes(w: World, step: Step, u: UserId, c: ChannelId) {
    && step.Pass? && step.channel == c && step.poll.Some?
    && ByUser(step.poll.value) != map[] && u !in ByUser(step.poll.value)
    && In(w.seats, u, c) && !OwnerLive(w.seats, u, c, step.env)
  }

  /**
   Events that make the server forget a pending suspicion about the user: a failed poll, a poll
   listing them, a poll that lists somebody while their owner is connected, a finished room, and
   their own join or handled leave.
   */
  ghost predicate Disturbs(w: World, step: Step, u: UserId, c: ChannelId) {
    match step
    case Webhook(kind, hook, env) =>
      hook.user == u && hook.channel == c && (kind.JoinedEvent? || HandledLeave(w, hook, env))
    case RoomFinished(d, guarded) => d == c && !guarded
    case Pass(d, poll, order, env) =>
      && d == c
      && (|| poll.None? || u in ByUser(poll.value)
          || (ByUser(poll.value) != map[] && OwnerLive(w.seats, u, c, env)))
    case _ => false
  }

  function Suspicion(w: World, c: ChannelId, u: UserId): Option<nat> {
    Lookup(w.evidence.users, (c, u))
  }

  lemma JoinedSuspicion(w: World, ev: Hook, env: Env, c: ChannelId, u: UserId)
    ensures Suspicion(Joined(w, ev, env), c, u) == if (ev.channel, ev.user) == (c, u) then None else Suspicion(w, c, u)
  {
  }

  lemma LeftSuspicion(w: World, ev: Hook, env: Env, c: ChannelId, u: UserId)
    ensures Suspicion(Left(w, ev, env), c, u)
            == if (ev.channel, ev.user) == (c, u) && HandledLeave(w, ev, env) then None else Suspicion(w, c, u)
  {
  }

  /** How one check of a missing user moves their suspicion from was to now. */
  ghost predicate Moves(was: Option<nat>, now: Option<nat>, live: bool, time: nat, ttl: nat) {
    if live then now == None
    else if was.None? then now == Some(time)
    else now == if time >= was.value + ttl then None else was
  }

  lemma MissingCheckedSuspicion(w: World, d: ChannelId, v: UserId, env: Env, ttl: nat, c: ChannelId, u: UserId)
    ensures var now := Suspicion(MissingChecked(w, d, v, env, ttl), c, u);
            if (d, v) != (c, u) then now == Suspicion(w, c, u)
            else Moves(Suspicion(w, c, u), now, OwnerLive(w.seats, u, c, env), env.now, ttl)
  {
    hide Rotated, Cleared;
  }

  lemma {:induction false} UncheckedSuspicion(w: World, d: ChannelId, missing: seq<UserId>, env: Env, ttl: nat,
                                              c: ChannelId, u: UserId)
    requires d != c || u !in missing
    ensures Suspicion(AllMissingChecked(w, d, missing, env, ttl), c, u) == Suspicion(w, c, u)
    ensures u !in missing ==> SameSeat(w, AllMissingChecked(w, d, missing, env, ttl), u)
    decreases |missing|
  {
    hide Rotated, Cleared;
    if missing != [] {
      var n := |missing| - 1;
      UncheckedSuspicion(w, d, missing[..n], env, ttl, c, u);
      var p := AllMissingChecked(w, d, missing[..n], env, ttl);
      MissingCheckedSuspicion(p, d, missing[n], env, ttl, c, u);
      MissingCheckedEffect(p, d, missing[n], env, ttl, u);
    }
  }

  lemma {:induction false} CheckedSuspicion(w: World, c: ChannelId, missing: seq<UserId>, env: Env, ttl: nat, u: UserId)
    requires u in missing && Distinct(missing) && In(w.seats, u, c)
    ensures var r := AllMissingChecked(w, c, missing, env, ttl);
            && Moves(Suspicion(w, c, u), Suspicion(r, c, u), OwnerLive(w.seats, u, c, env), env.now, ttl)
            && (In(r.seats, u, c) <==> !(UserConfirmedIn(w, c, u, env, ttl) && !OwnerLive(w.seats, u, c, env)))
    decreases |missing|
  {
    hide Rotated, Cleared;
    var n := |missing| - 1;
    var p := AllMissingChecked(w, c, missing[..n], env, ttl);
    if missing[n] == u {
      UncheckedSuspicion(w, c, missing[..n], env, ttl, c, u);
    } else {
      assert u in missing[..n];
      CheckedSuspicion(w, c, missing[..n], env, ttl, u);
    }
    MissingCheckedSuspicion(p, c, missing[n], env, ttl, c, u);
    MissingCheckedEffect(p, c, missing[n], env, ttl, u);
  }

  lemma {:induction false} AllAdoptedSuspicion(w: World, d: ChannelId, rows: seq<Participant>, locals: set<UserId>,
                                               env: Env, c: ChannelId, u: UserId)
    ensures Suspicion(AllAdopted(w, d, rows, locals, env), c, u)
            == if d == c && (exists r :: r in rows && r.user == u) then None else Suspicion(w, c, u)
    decreases |rows|
  {
    hide Rotated, Cleared;
    if rows != [] {
      var n := |rows| - 1;
      AllAdoptedSuspicion(w, d, rows[..n], locals, env, c, u);
      var p := AllAdopted(w, d, rows[..n], locals, env);
      JoinedSuspicion(p.(evidence := E.WithoutUser(p.evidence, d, rows[n].user)),
                      Hook("", d, rows[n].user, rows[n].session, rows[n].nonce, env.now * 1000), env, c, u);
      forall r ensures r in rows <==> r in rows[..n] || r == rows[n] {}
    }
  }

  lemma {:induction false} ByUserKeys(rows: seq<Participant>, u: UserId)
    requires u in ByUser(rows)
    ensures ByUser(rows)[u].user == u
  {
    var n := |rows| - 1;
    if u in ByUser(rows[..n]) {
      ByUserKeys(rows[..n], u);
    }
  }

  lemma RowsListExactly(rows: seq<Participant>, remote: seq<Participant>, u: UserId)
    requires Enumerates(rows, ByUser(remote).Values)
    ensures (exists r :: r in rows && r.user == u) <==> u in ByUser(remote)
  {
    if u in ByUser(remote) {
      ByUserKeys(remote, u);
      assert ByUser(remote)[u] in rows;
    }
    forall r | r in rows ensures r.user in ByUser(remote) {
      var k :| k in ByUser(remote) && ByUser(remote)[k] == r;
      ByUserKeys(remote, k);
    }
  }

  /** A pass that lists somebody, seen from one member of the reconciled channel. */
  lemma ListingPassEffect(w: World, c: ChannelId, poll: seq<Participant>, order: Order, env: Env, ttl: nat, u: UserId)
    requires ByUser(poll) != map[] && ValidOrder(order, w.seats, c, ByUser(poll)) && In(w.seats, u, c)
    ensures var r := Reconciled(w, c, Some(poll), order, env, ttl);
            if u in ByUser(poll) then Suspicion(r, c, u) == None && SameSeat(w, r, u)
            else && Moves(Suspicion(w, c, u), Suspicion(r, c, u), OwnerLive(w.seats, u, c, env), env.now, ttl)
                 && (In(r.seats, u, c) <==> !(UserConfirmedIn(w, c, u, env, ttl) && !OwnerLive(w.seats, u, c, env)))
  {
    var w0 := w.(evidence := E.WithoutChannel(w.evidence, c));
    var w1 := AllMissingChecked(w0, c, order.missing, env, ttl);
    RowsListExactly(order.rows, poll, u);
    AllAdoptedSuspicion(w1, c, order.rows, Members(w.seats, c), env, c, u);
    AllAdoptedSeats(w1, c, order.rows, Members(w.seats, c), env, u);
    assert u in Members(w.seats, c);
    if u in ByUser(poll) {
      UncheckedSuspicion(w0, c, order.missing, env, ttl, c, u);
    } else {
      assert u in order.missing;
      CheckedSuspicion(w0, c, order.missing, env, ttl, u);
    }
  }

  lemma OtherPassEffect(w: World, d: ChannelId, poll: Option<seq<Participant>>, order: Order, env: Env, ttl: nat,
                        c: ChannelId, u: UserId)
    requires PassOrder(w, d, poll, order)
    requires d != c || poll.None? || ByUser(poll.value) == map[] || !In(w.seats, u, c)
    ensures var r := Suspicion(Reconciled(w, d, poll, order, env, ttl), c, u);
            r == None || (r == Suspicion(w, c, u) && !(d == c && (poll.None? || u in ByUser(poll.value))))
  {
    if poll.Some? && ByUser(poll.value) != map[] {
      var w0 := w.(evidence := E.WithoutChannel(w.evidence, d));
      UncheckedSuspicion(w0, d, order.missing, env, ttl, c, u);
      var w1 := AllMissingChecked(w0, d, order.missing, env, ttl);
      AllAdoptedSuspicion(w1, d, order.rows, Members(w.seats, d), env, c, u);
      RowsListExactly(order.rows, poll.value, u);
    }
  }

  /** Evidence about a participant either survives an undisturbing step or is born in an observation. */
  lemma SuspicionStep(w: World, step: Step, ttl: nat, c: ChannelId, u: UserId)
    requires Enabled(w, step) && Suspicion(Next(w, step, ttl), c, u).Some?
    ensures || (Suspicion(Next(w, step, ttl), c, u) == Suspicion(w, c, u) && !Disturbs(w, step, u, c))
            || (Observes(w, step, u, c) && Suspicion(Next(w, step, ttl), c, u) == Some(step.env.now))
  {
    match step
    case Webhook(kind, hook, env) =>
      JoinedSuspicion(w, hook, env, c, u);
      LeftSuspicion(w, hook, env, c, u);
    case Pass(d, poll, order, env) =>
      if d == c && poll.Some? && ByUser(poll.value) != map[] && In(w.seats, u, c) {
        ListingPassEffect(w, c, poll.value, order, env, ttl, u);
      } else {
        OtherPassEffect(w, d, poll, order, env, ttl, c, u);
      }
    case _ =>
  }

  // ---------------------------------------------------------------------------
  // Over whole runs.
  // ---------------------------------------------------------------------------

  ghost predicate Quiet(t: Trace, k: nat, u: UserId, c: ChannelId)
    requires t.Shaped() && k < |t.steps|
  {
    !Disturbs(t.worlds[k], t.steps[k], u, c)
  }

  /** Step m first noticed the user missing at time first, and nothing cleared that before step n. */
  ghost predicate MissingSince(t: Trace, m: nat, n: nat, u: UserId, c: ChannelId, first: nat)
    requires t.Shaped() && m < n <= |t.steps|
  {
    && Observes(t.worlds[m], t.steps[m], u, c) && t.steps[m].env.now == first
    && forall k: nat | m < k < n :: Quiet(t, k, u, c)
  }

  lemma SuspicionStepAt(t: Trace, n: nat, u: UserId, c: ChannelId)
    requires t.Valid() && n < |t.steps| && Suspicion(t.worlds[n + 1], c, u).Some?
    ensures || (Suspicion(t.worlds[n + 1], c, u) == Suspicion(t.worlds[n], c, u) && Quiet(t, n, u, c))
            || (Observes(t.worlds[n], t.steps[n], u, c) && Suspicion(t.worlds[n + 1], c, u) == Some(t.steps[n].env.now))
  {
    assert t.Follows(n);
    SuspicionStep(t.worlds[n], t.steps[n], t.ttl, c, u);
  }

  /** Every recorded suspicion goes back to an observation that nothing has contradicted since. */
  lemma {:induction false} SuspicionHasHistory(t: Trace, n: nat, u: UserId, c: ChannelId) returns (m: nat)
    requires t.Valid() && n <= |t.steps| && Suspicion(t.worlds[n], c, u).Some?
    ensures m < n && MissingSince(t, m, n, u, c, Suspicion(t.worlds[n], c, u).value)
  {
    SuspicionStepAt(t, n - 1, u, c);
    if Observes(t.worlds[n - 1], t.steps[n - 1], u, c) && Suspicion(t.worlds[n], c, u) == Some(t.steps[n - 1].env.now) {
      m := n - 1;
    } else {
      m := SuspicionHasHistory(t, n - 1, u, c);
    }
  }

  /** The n-th step is a pass over the channel that lists somebody and takes the user's seat away. */
  ghost predicate RemovesMissing(t: Trace, n: nat, u: UserId, c: ChannelId)
    requires t.Shaped() && n < |t.steps|
  {
    && t.steps[n].Pass? && t.steps[n].channel == c
    && t.steps[n].poll.Some? && ByUser(t.steps[n].poll.value) != map[]
    && In(t.worlds[n].seats, u, c) && !In(t.worlds[n + 1].seats, u, c)
  }

  lemma RemovalWasConfirmed(t: Trace, n: nat, u: UserId, c: ChannelId)
    requires t.Valid() && n < |t.steps| && RemovesMissing(t, n, u, c)
    ensures Observes(t.worlds[n], t.steps[n], u, c)
    ensures Suspicion(t.worlds[n], c, u).Some? && t.steps[n].env.now >= Suspicion(t.worlds[n], c, u).value + t.ttl
  {
    assert t.Follows(n);
    var step := t.steps[n];
    ListingPassEffect(t.worlds[n], c, step.poll.value, step.order, step.env, t.ttl, u);
  }

  /** Step m began an undisturbed absence that had lasted the grace period when step n acted. */
  ghost predicate LongMissing(t: Trace, m: nat, n: nat, u: UserId, c: ChannelId)
    requires t.Shaped() && n < |t.steps| && t.steps[n].Pass?
  {
    && m < n && t.steps[m].Pass?
    && MissingSince(t, m, n, u, c, t.steps[m].env.now)
    && t.steps[n].env.now >= t.steps[m].env.now + t.ttl
  }

  /**
   In every run: a participant removed by a pass had no connected owner session at that pass and
   was not listed; they were first found missing at least the grace period earlier, and since
   then no poll failed, no poll listed them, no pass that listed anybody saw their owner
   connected, and no join, handled leave or finished room intervened.
   */
  lemma RemovalIsJustified(t: Trace, n: nat, u: UserId, c: ChannelId)
    requires t.Valid() && n < |t.steps| && RemovesMissing(t, n, u, c)
    ensures Observes(t.worlds[n], t.steps[n], u, c)
    ensures exists m :: LongMissing(t, m, n, u, c)
  {
    RemovalWasConfirmed(t, n, u, c);
    var m := SuspicionHasHistory(t, n, u, c);
    assert LongMissing(t, m, n, u, c);
  }

  /**
   Exactly which passes forget a suspicion because the owner is connected: all but those that list
   nobody, which look at the room as a whole and leave its members' evidence alone.
   */
  lemma ConnectedOwnerClearsIff(w: World, c: ChannelId, poll: Option<seq<Participant>>, order: Order, env: Env,
                                ttl: nat, u: UserId)
    requires OwnerLive(w.seats, u, c, env) && Suspicion(w, c, u).Some? && PassOrder(w, c, poll, order)
    ensures Suspicion(Reconciled(w, c, poll, order, env, ttl), c, u).None?
            <==> poll.None? || ByUser(poll.value) != map[]
  {
    if poll.Some? && ByUser(poll.value) != map[] {
      ListingPassEffect(w, c, poll.value, order, env, ttl, u);
    }
  }

  lemma OneRow(row: Participant)
    requires row.user.value != ""
    ensures ByUser([row]) == map[row.user := row] && Enumerates([row], ByUser([row]).Values)
  {
    assert [row] != [] && [row][..0] == [] && ByUser([]) == map[];
    assert ByUser([row]) == map[row.user := row];
    var m := ByUser([row]);
    assert row.user in m && m[row.user] == row;
    assert row in m.Values;
  }

  /** A pass over two members of which one is listed and the other is not. */
  lemma OneListedOrder(w: World, c: ChannelId, row: Participant, u: UserId)
    requires w.seats.Keys == {u, row.user} && u != row.user && row.user.value != ""
    requires In(w.seats, u, c) && In(w.seats, row.user, c)
    ensures PassOrder(w, c, Some([row]), Order([u], [row]))
  {
    OneRow(row);
    assert Members(w.seats, c) == {u, row.user};
    assert Members(w.seats, c) - ByUser([row]).Keys == {u};
  }

  lemma OneListedPass(w: World, c: ChannelId, row: Participant, u: UserId, env: Env, ttl: nat)
    requires In(w.seats, row.user, c) && row.user.value != ""
    ensures var w0 := w.(evidence := E.WithoutChannel(w.evidence, c));
            var r := MissingChecked(w0, c, u, env, ttl);
            Reconciled(w, c, Some([row]), Order([u], [row]), env, ttl)
            == r.(evidence := E.WithoutUser(r.evidence, c, row.user))
  {
    hide MissingChecked, Enumerates;
    OneRow(row);
    var w0 := w.(evidence := E.WithoutChannel(w.evidence, c));
    var r := MissingChecked(w0, c, u, env, ttl);
    assert [u][..0] == [];
    assert AllMissingChecked(w0, c, [u], env, ttl) == r;
    assert [row][..0] == [];
    assert row.user in Members(w.seats, c);
    assert AllAdopted(r, c, [row], Members(w.seats, c), env) == RowAdopted(r, c, row, true, env);
  }

  const ROOM := ChannelId("c")
  const ANN := UserId("a")
  const BOB := UserId("b")

  /** Ann and Bob sit in the room, with these suspicions about Ann. */
  ghost predicate TwoSeated(w: World, about: Option<nat>) {
    && w.seats == map[ANN := Seat(ROOM, 1, false, false), BOB := Seat(ROOM, 2, false, false)]
    && Suspicion(w, ROOM, ANN) == about
  }

  lemma TwoCanBeSeated() returns (w: World)
    ensures Reachable(w, 5) && TwoSeated(w, None)
  {
    var up := UpAt(1, map[]);
    InitialIsReachable(5);
    EnteredIs(INITIAL, Hook("", ROOM, ANN, 1, "n", 0), up, 5);
    var first := Entered(INITIAL, Hook("", ROOM, ANN, 1, "n", 0), up);
    EnteredIs(first, Hook("", ROOM, BOB, 2, "n", 0), up, 5);
    w := Entered(first, Hook("", ROOM, BOB, 2, "n", 0), up);
  }

  /** Only Bob is listed. */
  function BobListed(env: Env): Step {
    Pass(ROOM, Some([Participant(BOB, 2, "n")]), Order([ANN], [Participant(BOB, 2, "n")]), env)
  }

  lemma BobListedObserves(w: World, now: nat, about: Option<nat>)
    requires TwoSeated(w, about)
    ensures Enabled(w, BobListed(UpAt(now, map[]))) && Observes(w, BobListed(UpAt(now, map[])), ANN, ROOM)
  {
    hide Enumerates, PassOrder;
    OneRow(Participant(BOB, 2, "n"));
    OneListedOrder(w, ROOM, Participant(BOB, 2, "n"), ANN);
  }

  lemma BobListedEffect(w: World, now: nat, about: Option<nat>)
    requires TwoSeated(w, about)
    ensures var r := Next(w, BobListed(UpAt(now, map[])), 5);
            && (about.None? ==> TwoSeated(r, Some(now)))
            && (about.Some? && now >= about.value + 5 ==> !In(r.seats, ANN, ROOM))
  {
    hide Reconciled, Rotated, Cleared;
    OneListedPass(w, ROOM, Participant(BOB, 2, "n"), ANN, UpAt(now, map[]), 5);
  }

  /** The list is empty while Ann is connected. */
  function NobodyListed(now: nat): Step {
    Pass(ROOM, Some([]), Order([], []), UpAt(now, map[1 := ANN]))
  }

  lemma NobodyListedEffect(w: World, now: nat, about: Option<nat>)
    requires TwoSeated(w, about)
    ensures var step := NobodyListed(now);
            && Enabled(w, step) && OwnerLive(w.seats, ANN, ROOM, step.env) && !Disturbs(w, step, ANN, ROOM)
            && TwoSeated(Next(w, step, 5), about)
  {
    assert !NoLiveOwner(w.seats, ROOM, NobodyListed(now).env) by {
      assert OwnerLive(w.seats, ANN, ROOM, NobodyListed(now).env);
    }
  }

  /** Step k is a pass over the room during which the user's owner session was connected. */
  ghost predicate SeenConnected(t: Trace, k: nat, u: UserId, c: ChannelId)
    requires t.Shaped() && k < |t.steps|
  {
    t.steps[k].Pass? && t.steps[k].channel == c && OwnerLive(t.worlds[k].seats, u, c, t.steps[k].env)
  }

  /** Such a pass between the first suspicion and the removal is possible: an empty list keeps the suspicion alive. */
  lemma EmptyListKeepsSuspicion()
    ensures exists t: Trace, m: nat, k: nat, n: nat, u, c ::
              && t.Valid() && m < k < n < |t.steps| && RemovesMissing(t, n, u, c)
              && LongMissing(t, m, n, u, c) && SeenConnected(t, k, u, c)
  {
    hide Reconciled, Next, Enabled, TwoSeated;
    var w := TwoCanBeSeated();
    var t: Trace :| t.Valid() && t.ttl == 5 && t.worlds[|t.steps|] == w;
    var t3 := TwoSeatedContinues(t);
    var m := |t.steps|;
    assert RemovesMissing(t3, m + 2, ANN, ROOM) && LongMissing(t3, m, m + 2, ANN, ROOM);
    assert SeenConnected(t3, m + 1, ANN, ROOM);
  }

  lemma TwoSeatedContinues(t: Trace) returns (r: Trace)
    requires t.Valid() && t.ttl == 5 && TwoSeated(t.worlds[|t.steps|], None)
    ensures r.Valid() && r.ttl == 5 && |r.steps| == |t.steps| + 3
    ensures var m := |t.steps|;
            && RemovesMissing(r, m + 2, ANN, ROOM) && LongMissing(r, m, m + 2, ANN, ROOM)
            && SeenConnected(r, m + 1, ANN, ROOM)
  {
    hide Reconciled, Next, Enabled;
    var first, second, third := BobListed(UpAt(10, map[])), NobodyListed(11), BobListed(UpAt(15, map[]));
    BobListedObserves(t.worlds[|t.steps|], 10, None);
    BobListedEffect(t.worlds[|t.steps|], 10, None);
    t.ThenIsValid(first);
    var t1 := t.Then(first);
    NobodyListedEffect(t1.worlds[|t1.steps|], 11, Some(10));
    t1.ThenIsValid(second);
    var t2 := t1.Then(second);
    BobListedObserves(t2.worlds[|t2.steps|], 15, Some(10));
    BobListedEffect(t2.worlds[|t2.steps|], 15, Some(10));
    t2.ThenIsValid(third);
    r := t2.Then(third);
    assert Quiet(r, |t.steps| + 1, ANN, ROOM);
  }

  // ---------------------------------------------------------------------------
  // The same for a whole room.
  // ---------------------------------------------------------------------------

  /** The poll answers with an empty list while members are seated and none has a connected owner. */
  ghost predicate ObservesRoom(w: World, step: Step, c: ChannelId) {
    && step.Pass? && step.channel == c && step.poll == Some([])
    && !Vacant(w.seats, c) && NoLiveOwner(w.seats, c, step.env)
  }

  /** Any other pass over the room, a join event or join request for it, or a finished room. */
  ghost predicate DisturbsRoom(w: World, step: Step, c: ChannelId) {
    match step
    case Webhook(kind, hook, env) => kind.JoinedEvent? && hook.channel == c
    case RoomFinished(d, guarded) => d == c && !guarded
    case Ask(u, d, session, _, _, _, kickOk, _, _) =>
      d == c && (kickOk || !(u in w.seats && (w.seats[u].owner != session || w.seats[u].channel != c)))
    case Pass(d, _, _, _) => d == c && !ObservesRoom(w, step, c)
    case _ => false
  }

  function RoomSuspicion(w: World, c: ChannelId): Option<nat> {
    Lookup(w.evidence.channels, c)
  }

  lemma HandlersOnRooms(w: World, ev: Hook, env: Env, c: ChannelId)
    ensures RoomSuspicion(Joined(w, ev, env), c) == if ev.channel == c then None else RoomSuspicion(w, c)
    ensures RoomSuspicion(Left(w, ev, env), c) == RoomSuspicion(w, c)
  {
  }

  lemma {:induction false} AllMissingCheckedOnRooms(w: World, d: ChannelId, missing: seq<UserId>, env: Env, ttl: nat,
                                                    c: ChannelId)
    ensures RoomSuspicion(AllMissingChecked(w, d, missing, env, ttl), c) == RoomSuspicion(w, c)
    decreases |missing|
  {
    if missing != [] {
      AllMissingCheckedOnRooms(w, d, missing[..|missing| - 1], env, ttl, c);
    }
  }

  lemma {:induction false} AllAdoptedOnRooms(w: World, d: ChannelId, rows: seq<Participant>, locals: set<UserId>,
                                             env: Env, c: ChannelId)
    ensures var r := RoomSuspicion(AllAdopted(w, d, rows, locals, env), c);
            r == RoomSuspicion(w, c) || (d == c && r == None)
    decreases |rows|
  {
    if rows != [] {
      var n := |rows| - 1;
      AllAdoptedOnRooms(w, d, rows[..n], locals, env, c);
      var p := AllAdopted(w, d, rows[..n], locals, env);
      HandlersOnRooms(p.(evidence := E.WithoutUser(p.evidence, d, rows[n].user)),
                      Hook("", d, rows[n].user, rows[n].session, rows[n].nonce, env.now * 1000), env, c);
    }
  }

  lemma PassOnRooms(w: World, step: Step, ttl: nat, c: ChannelId)
    requires step.Pass?
    ensures var r := RoomSuspicion(Next(w, step, ttl), c);
            if step.channel != c then r == RoomSuspicion(w, c)
            else if !ObservesRoom(w, step, c) then r == None
            else Moves(RoomSuspicion(w, c), r, false, step.env.now, ttl)
  {
    var d := step.channel;
    if step.poll.Some? && ByUser(step.poll.value) != map[] {
      var w0 := w.(evidence := E.WithoutChannel(w.evidence, d));
      AllMissingCheckedOnRooms(w0, d, step.order.missing, step.env, ttl, c);
      var w1 := AllMissingChecked(w0, d, step.order.missing, step.env, ttl);
      AllAdoptedOnRooms(w1, d, step.order.rows, Members(w.seats, d), step.env, c);
    }
  }

  ghost predicate QuietRoom(t: Trace, k: nat, c: ChannelId)
    requires t.Shaped() && k < |t.steps|
  {
    !DisturbsRoom(t.worlds[k], t.steps[k], c)
  }

  lemma RoomSuspicionStepAt(t: Trace, n: nat, c: ChannelId)
    requires t.Valid() && n < |t.steps| && RoomSuspicion(t.worlds[n + 1], c).Some?
    ensures || (RoomSuspicion(t.worlds[n + 1], c) == RoomSuspicion(t.worlds[n], c) && QuietRoom(t, n, c))
            || (&& ObservesRoom(t.worlds[n], t.steps[n], c)
                && RoomSuspicion(t.worlds[n + 1], c) == Some(t.steps[n].env.now))
  {
    assert t.Follows(n);
    var w, step := t.worlds[n], t.steps[n];
    hide Reconciled, Joined, Left;
    match step
    case Webhook(kind, hook, env) => HandlersOnRooms(w, hook, env, c);
    case Pass(_, _, _, _) => PassOnRooms(w, step, t.ttl, c);
    case _ =>
  }

  ghost predicate RoomMissingSince(t: Trace, m: nat, n: nat, c: ChannelId, first: nat)
    requires t.Shaped() && m < n <= |t.steps|
  {
    && ObservesRoom(t.worlds[m], t.steps[m], c) && t.steps[m].env.now == first
    && forall k: nat | m < k < n :: QuietRoom(t, k, c)
  }

  lemma {:induction false} RoomSuspicionHasHistory(t: Trace, n: nat, c: ChannelId) returns (m: nat)
    requires t.Valid() && n <= |t.steps| && RoomSuspicion(t.worlds[n], c).Some?
    ensures m < n && RoomMissingSince(t, m, n, c, RoomSuspicion(t.worlds[n], c).value)
  {
    RoomSuspicionStepAt(t, n - 1, c);
    var last := t.steps[n - 1];
    if ObservesRoom(t.worlds[n - 1], last, c) && RoomSuspicion(t.worlds[n], c) == Some(last.env.now) {
      m := n - 1;
    } else {
      m := RoomSuspicionHasHistory(t, n - 1, c);
    }
  }

  /** The n-th step is a pass over the channel that lists nobody and takes the user's seat away. */
  ghost predicate ClosesRoom(t: Trace, n: nat, u: UserId, c: ChannelId)
    requires t.Shaped() && n < |t.steps|
  {
    && t.steps[n].Pass? && t.steps[n].channel == c
    && (t.steps[n].poll.Some? ==> ByUser(t.steps[n].poll.value) == map[])
    && In(t.worlds[n].seats, u, c) && !In(t.worlds[n + 1].seats, u, c)
  }

  ghost predicate RoomLongMissing(t: Trace, m: nat, n: nat, c: ChannelId)
    requires t.Shaped() && n < |t.steps| && t.steps[n].Pass?
  {
    && m < n && t.steps[m].Pass?
    && RoomMissingSince(t, m, n, c, t.steps[m].env.now)
    && t.steps[n].env.now >= t.steps[m].env.now + t.ttl
  }

  lemma ClosureWasConfirmed(t: Trace, n: nat, u: UserId, c: ChannelId)
    requires t.Valid() && n < |t.steps| && ClosesRoom(t, n, u, c)
    ensures ObservesRoom(t.worlds[n], t.steps[n], c)
    ensures RoomSuspicion(t.worlds[n], c).Some? && t.steps[n].env.now >= RoomSuspicion(t.worlds[n], c).value + t.ttl
  {
    assert t.Follows(n);
    assert !Vacant(t.worlds[n].seats, c) by {
      assert In(t.worlds[n].seats, u, c);
    }
  }

  /**
   In every run: a room is closed by a pass only if no member's owner session is connected, and
   every pass over the room for at least the grace period answered with an empty list while no
   owner was connected, without a join event, join request or finished room in between.
   */
  lemma ClosureIsJustified(t: Trace, n: nat, u: UserId, c: ChannelId)
    requires t.Valid() && n < |t.steps| && ClosesRoom(t, n, u, c)
    ensures ObservesRoom(t.worlds[n], t.steps[n], c)
    ensures exists m :: RoomLongMissing(t, m, n, c)
  {
    ClosureWasConfirmed(t, n, u, c);
    var m := RoomSuspicionHasHistory(t, n, c);
    assert RoomLongMissing(t, m, n, c);
  }

  // ---------------------------------------------------------------------------
  // Adopting participants the server does not know yet.
  // ---------------------------------------------------------------------------

  /**
   A remote participant without a local seat in the channel is adopted exactly when they have a
   pending intent for it with the same session and nonce. A live app session alone passes the
   first check but not the join handler behind it.
   */
  lemma AdoptionNeedsMatchingIntent(w: World, c: ChannelId, row: Participant, env: Env)
    requires !In(w.seats, row.user, c)
    ensures var pending := Pending(w, row.user, env);
            In(RowAdopted(w, c, row, false, env).seats, row.user, c)
            <==> && pending.Some? && pending.value.to == c && pending.value.nonce != ""
                 && row.session != 0 && row.session == pending.value.session && row.nonce == pending.value.nonce
  {
  }

  /** A connected session without an intent is trusted by the pass, yet not adopted. */
  lemma LiveSessionAloneIsNotAdopted()
    ensures exists w, c, row: Participant, env: Env ::
              && Reachable(w, 5) && Trusted(Pending(w, row.user, env), c, row, env)
              && !In(RowAdopted(w, c, row, false, env).seats, row.user, c)
  {
    var row, env := Participant(ANN, 7, "n"), UpAt(100, map[7 := ANN]);
    assert 7 in LiveSessions(env, row.user);
    InitialIsReachable(5);
    AdoptionNeedsMatchingIntent(INITIAL, ROOM, row, env);
    assert Trusted(Pending(INITIAL, row.user, env), ROOM, row, env)
           && !In(RowAdopted(INITIAL, ROOM, row, false, env).seats, row.user, ROOM);
  }
}
