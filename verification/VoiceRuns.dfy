/**
 What every run of the voice service keeps: deafened users are muted, keys belong to one channel,
 and a member who left cannot be reached by the channel's key again until they come back.
 */
module VoiceRuns {
  import opened Domain
  import opened VoiceSessions
  import opened ChannelKeys
  import opened VoiceWorld
  import KeyRing
  import E = Evidence
  import R = VoiceReconcile

  ghost predicate Inv(w: World) {
    DeafenedImpliesMuted(w.seats) && Sound(w.vault)
  }

  // ---------------------------------------------------------------------------
  // The invariant, step by step.
  // ---------------------------------------------------------------------------

  lemma JoinedKeepsInv(w: World, ev: Hook, env: Env)
    requires Inv(w)
    ensures Inv(Joined(w, ev, env))
  {
  }

  lemma VacatedKeepsInv(w: World, c: ChannelId, env: Env)
    requires Inv(w)
    ensures Inv(Vacated(w, c, env))
  {
    RotatedKeepsSound(w.vault, w.seats, c, env);
  }

  lemma LeftKeepsInv(w: World, ev: Hook, env: Env)
    requires Inv(w)
    ensures Inv(Left(w, ev, env))
  {
    if HandledLeave(w, ev, env) {
      VacatedKeepsInv(w.(seats := Unseated(w.seats, ev.channel, ev.user),
                         evidence := E.WithoutUser(w.evidence, ev.channel, ev.user)), ev.channel, env);
    }
  }

  lemma ForcedLeaveKeepsInv(w: World, c: ChannelId, u: UserId, env: Env)
    requires Inv(w)
    ensures Inv(ForcedLeave(w, c, u, env))
  {
    var seats := Unseated(w.seats, c, u);
    VacatedKeepsInv(w.(seats := seats, evidence := E.WithoutUser(w.evidence, c, u)), c, env);
    RotatedKeepsSound(w.vault, seats, c, env);
  }

  lemma {:induction false} AllMissingCheckedKeepsInv(w: World, c: ChannelId, missing: seq<UserId>, env: Env, ttl: nat)
    requires Inv(w)
    ensures Inv(AllMissingChecked(w, c, missing, env, ttl))
    decreases |missing|
  {
    if missing != [] {
      var n := |missing| - 1;
      AllMissingCheckedKeepsInv(w, c, missing[..n], env, ttl);
      var p := AllMissingChecked(w, c, missing[..n], env, ttl);
      ForcedLeaveKeepsInv(p.(evidence := E.UserObserved(p.evidence, c, missing[n], env.now, ttl)), c, missing[n], env);
    }
  }

  lemma {:induction false} AllAdoptedKeepsInv(w: World, c: ChannelId, rows: seq<Participant>, locals: set<UserId>,
                                              env: Env)
    requires Inv(w)
    ensures Inv(AllAdopted(w, c, rows, locals, env))
    decreases |rows|
  {
    if rows != [] {
      var n := |rows| - 1;
      AllAdoptedKeepsInv(w, c, rows[..n], locals, env);
      var p := AllAdopted(w, c, rows[..n], locals, env);
      JoinedKeepsInv(p.(evidence := E.WithoutUser(p.evidence, c, rows[n].user)),
                     Hook("", c, rows[n].user, rows[n].session, rows[n].nonce, env.now * 1000), env);
    }
  }

  lemma ReconciledKeepsInv(w: World, c: ChannelId, poll: Option<seq<Participant>>, order: Order, env: Env, ttl: nat)
    requires Inv(w)
    ensures Inv(Reconciled(w, c, poll, order, env, ttl))
  {
    var w0 := w.(evidence := E.WithoutChannel(w.evidence, c));
    AllMissingCheckedKeepsInv(w0, c, order.missing, env, ttl);
    AllAdoptedKeepsInv(AllMissingChecked(w0, c, order.missing, env, ttl), c, order.rows, Members(w.seats, c), env);
  }

  lemma AskedKeepsInv(w: World, u: UserId, c: ChannelId, session: SessionId, nonce: string, muted: bool, deafened: bool,
                      kickOk: bool, sweep: Option<bool>, env: Env)
    requires Inv(w)
    ensures Inv(Asked(w, u, c, session, nonce, muted, deafened, kickOk, sweep, env))
  {
    AcquiredKeepsSound(w.vault, w.seats, c, u, env, sweep);
  }

  lemma NextKeepsInv(w: World, step: Step, ttl: nat)
    requires Inv(w)
    ensures Inv(Next(w, step, ttl))
  {
    match step
    case Webhook(kind, hook, env) =>
      JoinedKeepsInv(w, hook, env);
      LeftKeepsInv(w, hook, env);
    case Ask(u, c, session, nonce, muted, deafened, kickOk, sweep, env) =>
      AskedKeepsInv(w, u, c, session, nonce, muted, deafened, kickOk, sweep, env);
    case Pass(c, poll, order, env) =>
      ReconciledKeepsInv(w, c, poll, order, env, ttl);
    case _ =>
  }

  /** In every reachable world a deafened user is muted, and no key serves two channels. */
  lemma {:induction false} ReachableWorldsKeepInv(t: Trace, n: nat)
    requires t.Valid() && n < |t.worlds|
    ensures Inv(t.worlds[n])
  {
    if n > 0 {
      ReachableWorldsKeepInv(t, n - 1);
      assert t.Follows(n - 1);
      NextKeepsInv(t.worlds[n - 1], t.steps[n - 1], t.ttl);
    }
  }

  // ---------------------------------------------------------------------------
  // Newcomers get keys that were never used before.
  // ---------------------------------------------------------------------------

  /** Nobody was ever sent this key. */
  ghost predicate Unused(w: World, key: nat) {
    forall p | p in w.vault.sent :: p.1 != key
  }

  /**
   A request to join an occupied channel rotates its key: the newcomer gets one never used before,
   and it is held by exactly the newcomer and the channel's members with a connected owner session.
   */
  lemma NewcomerGetsUnusedKey(w: World, u: UserId, c: ChannelId, session: SessionId, nonce: string, muted: bool,
                              deafened: bool, sweep: Option<bool>, env: Env)
    requires Inv(w) && !In(w.seats, u, c) && !Vacant(w.seats, c)
    requires env.redisUp && env.randOk && c in env.known && !Debounced(w.vault, c, u, env)
    ensures var v := Asked(w, u, c, session, nonce, muted, deafened, true, sweep, env).vault;
            && c in v.ring && Unused(w, v.ring[c].key) && Lookup(v.stored, c) == Some(v.ring[c])
            && forall x :: (x, v.ring[c].key) in v.sent <==> x == u || x in Recipients(w.seats, c, env)
  {
    hide Recipients;
    var seen := w.vault.(joinSeen := w.vault.joinSeen[(c, u) := env.now]);
    var r := Rotated(seen, w.seats, c, env);
    assert r.ring[c].key == |w.vault.minted|;
    assert r.sent == w.vault.sent + Copies(Recipients(w.seats, c, env), r.ring[c].key);
  }

  /** Requests by the user for the channel, each within the debounce window of the last one recorded. */
  ghost predicate Storm(w: World, u: UserId, c: ChannelId, asks: seq<Step>)
    decreases |asks|
  {
    asks == [] ||
    (&& asks[0].Ask? && asks[0].user == u && asks[0].channel == c && Debounced(w.vault, c, u, asks[0].env)
     && Storm(Next(w, asks[0], 0), u, c, asks[1..]))
  }

  function AskedRepeatedly(w: World, asks: seq<Step>): World
    decreases |asks|
  {
    if asks == [] then w else AskedRepeatedly(Next(w, asks[0], 0), asks[1..])
  }

  /** The two vaults differ in nothing but when users asked, and in that this user may now hold the channel's key. */
  ghost predicate HandsOverOnly(before: Vault, after: Vault, u: UserId, c: ChannelId)
    requires c in before.ring
  {
    && after == before.(joinSeen := after.joinSeen, sent := after.sent)
    && before.sent <= after.sent <= before.sent + {(u, before.ring[c].key)}
  }

  /**
   However long a retry storm lasts, after its first request no key is minted, stored or
   broadcast: every join token of the storm carries the key that request left behind.
   */
  lemma {:induction false} RetryStormRotatesOnce(w: World, u: UserId, c: ChannelId, asks: seq<Step>)
    requires !In(w.seats, u, c) && !Vacant(w.seats, c) && c in w.vault.ring && Storm(w, u, c, asks)
    ensures var r := AskedRepeatedly(w, asks);
            r.seats == w.seats && HandsOverOnly(w.vault, r.vault, u, c)
    decreases |asks|
  {
    if asks != [] {
      RetryKeepsKey(w, u, c, asks[0]);
      RetryStormRotatesOnce(Next(w, asks[0], 0), u, c, asks[1..]);
    }
  }

  lemma RetryKeepsKey(w: World, u: UserId, c: ChannelId, ask: Step)
    requires !In(w.seats, u, c) && !Vacant(w.seats, c) && c in w.vault.ring
    requires ask.Ask? && ask.user == u && ask.channel == c && Debounced(w.vault, c, u, ask.env)
    ensures Next(w, ask, 0).seats == w.seats && HandsOverOnly(w.vault, Next(w, ask, 0).vault, u, c)
  {
    hide Rotated;
  }

  /** The first to ask for a channel that is confirmed empty and has no live key never gets a stored one. */
  lemma EmptyChannelGetsUnusedKey(w: World, u: UserId, c: ChannelId, session: SessionId, nonce: string, muted: bool,
                                  deafened: bool, env: Env)
    requires Inv(w) && Vacant(w.seats, c) && c !in w.vault.ring && env.redisUp && env.randOk
    ensures var v := Asked(w, u, c, session, nonce, muted, deafened, true, Some(true), env).vault;
            && c in v.ring && Unused(w, v.ring[c].key) && Lookup(v.stored, c) == Some(v.ring[c])
            && forall x :: (x, v.ring[c].key) in v.sent <==> x == u
  {
    hide Recipients;
    var v := Created(w.vault, c, env);
    assert v.ring[c].key == |w.vault.minted| && v.sent == w.vault.sent;
  }

  // ---------------------------------------------------------------------------
  // Departures lock the departed member out.
  // ---------------------------------------------------------------------------

  /** The user is not in the channel, and was never given its live key or the stored copy. */
  ghost predicate LockedOut(w: World, u: UserId, c: ChannelId) {
    !In(w.seats, u, c) && NeverGiven(w.vault, u, c)
  }

  ghost predicate Holds(w: World, u: UserId, k: Option<KeyRing.ChannelKey>) {
    k.Some? && (u, k.value.key) in w.vault.sent
  }

  /**
   What it takes to cut a departing user off: the live key must be dropped or replaced, which needs
   random material unless the channel emptied, and the stored copy must be dropped or replaced,
   which needs Redis as well. A copy the user was never given may stay.
   */
  ghost predicate CutOff(w: World, u: UserId, c: ChannelId, emptied: bool, env: Env) {
    && (emptied || env.randOk || !Holds(w, u, Lookup(w.vault.ring, c)))
    && (((emptied || env.randOk) && env.redisUp) || !Holds(w, u, Lookup(w.vault.stored, c)))
  }

  lemma VacatedLocksOutIff(w: World, u: UserId, c: ChannelId, env: Env)
    requires Sound(w.vault) && !In(w.seats, u, c)
    ensures LockedOut(Vacated(w, c, env), u, c) <==> CutOff(w, u, c, Vacant(w.seats, c), env)
  {
  }

  /** Exactly when a handled leave locks the user out. */
  lemma LeaveLocksOutIff(w: World, ev: Hook, env: Env)
    requires Inv(w) && HandledLeave(w, ev, env)
    ensures LockedOut(Left(w, ev, env), ev.user, ev.channel)
            <==> CutOff(w, ev.user, ev.channel, Vacant(Unseated(w.seats, ev.channel, ev.user), ev.channel), env)
  {
    VacatedLocksOutIff(w.(seats := Unseated(w.seats, ev.channel, ev.user),
                          evidence := E.WithoutUser(w.evidence, ev.channel, ev.user)), ev.user, ev.channel, env);
  }

  /** Exactly when a forced removal does; someone who was not seated there leaves the channel as full as it was. */
  lemma ForcedLeaveLocksOutIff(w: World, c: ChannelId, u: UserId, env: Env)
    requires Inv(w)
    ensures LockedOut(ForcedLeave(w, c, u, env), u, c)
            <==> CutOff(w, u, c, In(w.seats, u, c) && Vacant(Unseated(w.seats, c, u), c), env)
  {
    VacatedLocksOutIff(w.(seats := Unseated(w.seats, c, u), evidence := E.WithoutUser(w.evidence, c, u)), u, c, env);
  }

  /** Exactly when closing the room does: the live key always goes, the stored copy only with Redis. */
  lemma FinishLocksOutIff(w: World, c: ChannelId, u: UserId, env: Env)
    requires Inv(w)
    ensures LockedOut(Finished(w, c, env), u, c) <==> CutOff(w, u, c, true, env)
  {
  }

  /** A run in which a user enters a channel and leaves it during a Redis outage: the stored key outlives them. */
  lemma StoredKeyCanOutliveDeparture()
    ensures exists w: World, ev: Hook, env: Env ::
              && Reachable(w, 5) && In(w.seats, ev.user, ev.channel) && HandledLeave(w, ev, env)
              && env.randOk && !env.redisUp && !LockedOut(Left(w, ev, env), ev.user, ev.channel)
  {
    hide Reachable, Entered, Inv, CutOff, LockedOut;
    var u, c := UserId("u"), ChannelId("c");
    var join, leave := Hook("e1", c, u, 1, "n", 0), Hook("e2", c, u, 1, "n", 0);
    var up := UpAt(100, map[]);
    InitialIsReachable(5);
    EnteredIs(INITIAL, join, up, 5);
    FirstToEnter(join, up);
    var w := Entered(INITIAL, join, up);
    var down := up.(redisUp := false);
    assert HandledLeave(w, leave, down);
    LeaveLocksOutIff(w, leave, down);
  }

  /** Whoever enters an untouched server first holds the key it stores. */
  lemma FirstToEnter(join: Hook, env: Env)
    requires env.redisUp && env.randOk && join.nonce != ""
    ensures var w := Entered(INITIAL, join, env);
            Inv(w) && forall emptied, down: Env | !down.redisUp :: !CutOff(w, join.user, join.channel, emptied, down)
  {
    var w := Entered(INITIAL, join, env);
    assert Holds(w, join.user, Lookup(w.vault.stored, join.channel));
  }

  lemma VacatedKeepsLockOut(w: World, d: ChannelId, env: Env, u: UserId, c: ChannelId)
    requires Sound(w.vault) && LockedOut(w, u, c)
    ensures LockedOut(Vacated(w, d, env), u, c)
  {
    RotatedKeepsLockOut(w.vault, w.seats, d, env, u, c);
  }

  lemma JoinedKeepsLockOut(w: World, ev: Hook, env: Env, u: UserId, c: ChannelId)
    requires Sound(w.vault) && LockedOut(w, u, c) && !In(Joined(w, ev, env).seats, u, c)
    ensures LockedOut(Joined(w, ev, env), u, c)
  {
  }

  lemma LeftKeepsLockOut(w: World, ev: Hook, env: Env, u: UserId, c: ChannelId)
    requires Sound(w.vault) && LockedOut(w, u, c)
    ensures LockedOut(Left(w, ev, env), u, c)
  {
    if HandledLeave(w, ev, env) {
      VacatedKeepsLockOut(w.(seats := Unseated(w.seats, ev.channel, ev.user),
                             evidence := E.WithoutUser(w.evidence, ev.channel, ev.user)), ev.channel, env, u, c);
    }
  }

  lemma ForcedLeaveKeepsLockOut(w: World, d: ChannelId, v: UserId, env: Env, u: UserId, c: ChannelId)
    requires Sound(w.vault) && LockedOut(w, u, c)
    ensures LockedOut(ForcedLeave(w, d, v, env), u, c)
  {
    var seats := Unseated(w.seats, d, v);
    VacatedKeepsLockOut(w.(seats := seats, evidence := E.WithoutUser(w.evidence, d, v)), d, env, u, c);
    RotatedKeepsLockOut(w.vault, seats, d, env, u, c);
  }

  lemma MissingCheckedKeepsLockOut(w: World, d: ChannelId, v: UserId, env: Env, ttl: nat, u: UserId, c: ChannelId)
    requires Inv(w) && LockedOut(w, u, c)
    ensures LockedOut(MissingChecked(w, d, v, env, ttl), u, c)
  {
    hide Sound, DeafenedImpliesMuted, NeverGiven, Rotated, Cleared;
    var w0 := w.(evidence := E.UserObserved(w.evidence, d, v, env.now, ttl));
    ForcedLeaveKeepsLockOut(w0, d, v, env, u, c);
  }

  lemma {:induction false} AllMissingCheckedKeepsLockOut(w: World, d: ChannelId, missing: seq<UserId>, env: Env,
                                                         ttl: nat, u: UserId, c: ChannelId)
    requires Inv(w) && LockedOut(w, u, c)
    ensures LockedOut(AllMissingChecked(w, d, missing, env, ttl), u, c)
    decreases |missing|
  {
    hide Inv, LockedOut, MissingChecked;
    if missing != [] {
      var n := |missing| - 1;
      AllMissingCheckedKeepsLockOut(w, d, missing[..n], env, ttl, u, c);
      AllMissingCheckedKeepsInv(w, d, missing[..n], env, ttl);
      MissingCheckedKeepsLockOut(AllMissingChecked(w, d, missing[..n], env, ttl), d, missing[n], env, ttl, u, c);
    }
  }

  /** Adopting a row moves people into the pass's channel only, and lets nobody else at a key. */
  lemma RowAdoptedKeepsLockOut(w: World, d: ChannelId, row: Participant, known: bool, env: Env, u: UserId, c: ChannelId)
    requires Inv(w) && (LockedOut(w, u, c) || (d == c && In(w.seats, u, c)))
    ensures var r := RowAdopted(w, d, row, known, env);
            LockedOut(r, u, c) || (d == c && In(r.seats, u, c))
    ensures d == c && In(w.seats, u, c) ==> In(RowAdopted(w, d, row, known, env).seats, u, c)
  {
  }

  lemma {:induction false} AllAdoptedKeepsLockOut(w: World, d: ChannelId, rows: seq<Participant>,
                                                  locals: set<UserId>, env: Env, u: UserId, c: ChannelId)
    requires Inv(w) && (LockedOut(w, u, c) || (d == c && In(w.seats, u, c)))
    ensures var r := AllAdopted(w, d, rows, locals, env);
            LockedOut(r, u, c) || (d == c && In(r.seats, u, c))
    decreases |rows|
  {
    if rows != [] {
      var n := |rows| - 1;
      AllAdoptedKeepsLockOut(w, d, rows[..n], locals, env, u, c);
      AllAdoptedKeepsInv(w, d, rows[..n], locals, env);
      RowAdoptedKeepsLockOut(AllAdopted(w, d, rows[..n], locals, env), d, rows[n], rows[n].user in locals, env, u, c);
    }
  }

  lemma ReconciledKeepsLockOut(w: World, d: ChannelId, poll: Option<seq<Participant>>, order: Order, env: Env,
                               ttl: nat, u: UserId, c: ChannelId)
    requires Inv(w) && LockedOut(w, u, c) && !In(Reconciled(w, d, poll, order, env, ttl).seats, u, c)
    ensures LockedOut(Reconciled(w, d, poll, order, env, ttl), u, c)
  {
    hide Sound, DeafenedImpliesMuted;
    if poll.Some? && ByUser(poll.value) != map[] {
      var w0 := w.(evidence := E.WithoutChannel(w.evidence, d));
      AllMissingCheckedKeepsLockOut(w0, d, order.missing, env, ttl, u, c);
      AllMissingCheckedKeepsInv(w0, d, order.missing, env, ttl);
      var w1 := AllMissingChecked(w0, d, order.missing, env, ttl);
      AllAdoptedKeepsLockOut(w1, d, order.rows, Members(w.seats, d), env, u, c);
    }
  }

  // ---------------------------------------------------------------------------
  // Removal by a whole pass
  // ---------------------------------------------------------------------------

  ghost predicate HoldsLive(w: World, u: UserId, c: ChannelId) {
    Holds(w, u, Lookup(w.vault.ring, c))
  }

  ghost predicate HoldsStored(w: World, u: UserId, c: ChannelId) {
    Holds(w, u, Lookup(w.vault.stored, c))
  }

  lemma LockedOutIs(w: World, u: UserId, c: ChannelId)
    ensures LockedOut(w, u, c) <==> !In(w.seats, u, c) && !HoldsLive(w, u, c) && !HoldsStored(w, u, c)
  {
  }

  /** Someone has been removed since w, and the keys were dealt with for the channel as it is left in r. */
  ghost predicate Dealt(w: World, r: World, u: UserId, c: ChannelId, env: Env) {
    var replaced := Vacant(r.seats, c) || env.randOk;
    && (HoldsLive(r, u, c) <==> !replaced && HoldsLive(w, u, c))
    && (HoldsStored(r, u, c) <==> !(replaced && env.redisUp) && HoldsStored(w, u, c))
  }

  lemma VacatedDeals(w: World, u: UserId, c: ChannelId, env: Env)
    requires Sound(w.vault) && u !in Recipients(w.seats, c, env)
    ensures Dealt(w, Vacated(w, c, env), u, c, env)
  {
  }

  lemma DealtAgain(w: World, p: World, r: World, u: UserId, c: ChannelId, env: Env)
    requires Dealt(w, p, u, c, env) && Dealt(p, r, u, c, env) && !Vacant(p.seats, c)
    ensures Dealt(w, r, u, c, env)
  {
    hide Holds, Vacant;
  }

  /** A seat kept is the same seat, and its owner is still not connected. */
  ghost predicate Away(w: World, r: World, u: UserId, c: ChannelId, env: Env) {
    In(r.seats, u, c) ==> u in w.seats && r.seats[u] == w.seats[u] && w.seats[u].owner !in env.live
  }

  ghost predicate SameKeys(w: World, r: World) {
    r.vault == w.vault && r.seats == w.seats
  }

  lemma RemovalDeals(w: World, c: ChannelId, v: UserId, env: Env, u: UserId)
    requires Sound(w.vault) && In(w.seats, v, c) && (In(w.seats, u, c) ==> w.seats[u].owner !in env.live)
    ensures Dealt(w, ForcedLeave(w, c, v, env), u, c, env)
  {
    hide Dealt, Rotated, Cleared, Vacant;
    var w0 := w.(seats := Unseated(w.seats, c, v), evidence := E.WithoutUser(w.evidence, c, v));
    VacatedDeals(w0, u, c, env);
    SameVaultDeals(w, w0, ForcedLeave(w, c, v, env), u, c, env);
  }

  lemma SameVaultDeals(w: World, w0: World, r: World, u: UserId, c: ChannelId, env: Env)
    requires w0.vault == w.vault && Dealt(w0, r, u, c, env)
    ensures Dealt(w, r, u, c, env)
  {
  }

  /** One unlisted member: nothing happens to the keys, or they are removed and the keys dealt with. */
  lemma MissingCheckedDeals(w: World, c: ChannelId, v: UserId, env: Env, ttl: nat, u: UserId)
    requires Sound(w.vault) && In(w.seats, v, c) && (In(w.seats, u, c) ==> w.seats[u].owner !in env.live)
    ensures var r := MissingChecked(w, c, v, env, ttl);
            && (SameKeys(w, r) || Dealt(w, r, u, c, env))
            && (In(r.seats, u, c) ==> In(w.seats, u, c) && r.seats[u] == w.seats[u])
  {
    hide Dealt, Rotated, Cleared, Vacant, Sound;
    var w0 := w.(evidence := E.UserObserved(w.evidence, c, v, env.now, ttl));
    RemovalDeals(w0, c, v, env, u);
    SameVaultDeals(w, w0, ForcedLeave(w0, c, v, env), u, c, env);
  }

  lemma DealtOnce(w: World, p: World, r: World, u: UserId, c: ChannelId, env: Env)
    requires SameKeys(w, p) && (SameKeys(p, r) || Dealt(p, r, u, c, env))
    ensures SameKeys(w, r) || Dealt(w, r, u, c, env)
  {
  }

  lemma DealtStays(w: World, p: World, r: World, u: UserId, c: ChannelId, env: Env)
    requires Dealt(w, p, u, c, env) && SameKeys(p, r)
    ensures Dealt(w, r, u, c, env)
  {
  }

  lemma {:induction false} AllMissingCheckedDeals(w: World, c: ChannelId, missing: seq<UserId>, env: Env, ttl: nat,
                                                  u: UserId)
    requires Inv(w) && Distinct(missing) && forall v | v in missing :: In(w.seats, v, c)
    requires In(w.seats, u, c) && w.seats[u].owner !in env.live
    ensures var r := AllMissingChecked(w, c, missing, env, ttl);
            (SameKeys(w, r) || Dealt(w, r, u, c, env)) && Away(w, r, u, c, env)
    decreases |missing|
  {
    hide Dealt, SameKeys, MissingChecked, Sound, DeafenedImpliesMuted;
    if missing == [] {
      NothingDealt(w);
    } else {
      var n := |missing| - 1;
      var p := AllMissingChecked(w, c, missing[..n], env, ttl);
      AllMissingCheckedDeals(w, c, missing[..n], env, ttl, u);
      AllMissingCheckedKeepsInv(w, c, missing[..n], env, ttl);
      assert missing[n] in missing && In(w.seats, missing[n], c);
      R.UncheckedSuspicion(w, c, missing[..n], env, ttl, c, missing[n]);
      assert Lookup(p.seats, missing[n]) == Lookup(w.seats, missing[n]);
      MissingCheckedDeals(p, c, missing[n], env, ttl, u);
      DealsTogether(w, p, MissingChecked(p, c, missing[n], env, ttl), u, c, env, missing[n]);
    }
  }

  lemma NothingDealt(w: World)
    ensures SameKeys(w, w)
  {
  }

  lemma DealsTogether(w: World, p: World, r: World, u: UserId, c: ChannelId, env: Env, v: UserId)
    requires (SameKeys(w, p) || Dealt(w, p, u, c, env)) && (SameKeys(p, r) || Dealt(p, r, u, c, env))
    requires In(p.seats, v, c)
    ensures SameKeys(w, r) || Dealt(w, r, u, c, env)
  {
    hide Dealt;
    if SameKeys(w, p) {
      DealtOnce(w, p, r, u, c, env);
    } else if SameKeys(p, r) {
      DealtStays(w, p, r, u, c, env);
    } else {
      assert !Vacant(p.seats, c);
      DealtAgain(w, p, r, u, c, env);
    }
  }

  lemma RowAdoptedKeepsKeys(w: World, c: ChannelId, row: Participant, known: bool, env: Env)
    ensures var r := RowAdopted(w, c, row, known, env).vault;
            r.ring == w.vault.ring && r.stored == w.vault.stored && w.vault.sent <= r.sent
  {
  }

  /** Adoption hands out keys but changes none. */
  lemma {:induction false} AllAdoptedKeepsKeys(w: World, c: ChannelId, rows: seq<Participant>, locals: set<UserId>,
                                               env: Env)
    ensures var r := AllAdopted(w, c, rows, locals, env).vault;
            r.ring == w.vault.ring && r.stored == w.vault.stored && w.vault.sent <= r.sent
    decreases |rows|
  {
    hide RowAdopted;
    if rows != [] {
      var n := |rows| - 1;
      AllAdoptedKeepsKeys(w, c, rows[..n], locals, env);
      RowAdoptedKeepsKeys(AllAdopted(w, c, rows[..n], locals, env), c, rows[n], rows[n].user in locals, env);
    }
  }

  /** Adopting others neither locks out nor lets in somebody who is not seated afterwards. */
  lemma AllAdoptedKeepsLockOutIff(w: World, c: ChannelId, rows: seq<Participant>, locals: set<UserId>, env: Env,
                                  u: UserId)
    requires Inv(w) && !In(w.seats, u, c) && !In(AllAdopted(w, c, rows, locals, env).seats, u, c)
    ensures LockedOut(AllAdopted(w, c, rows, locals, env), u, c) <==> LockedOut(w, u, c)
  {
    AllAdoptedKeepsKeys(w, c, rows, locals, env);
    if LockedOut(w, u, c) {
      AllAdoptedKeepsLockOut(w, c, rows, locals, env, u, c);
    }
  }

  /** The pass removes the member: not listed, no connected owner, and missing for long enough. */
  predicate Removable(w: World, c: ChannelId, listed: map<UserId, Participant>, env: Env, ttl: nat, v: UserId) {
    v !in listed && !OwnerLive(w.seats, v, c, env) && E.UserConfirmed(w.evidence, c, v, env.now, ttl)
  }

  /** The pass lists nobody, or removes every member of the room. */
  ghost predicate EmptiesRoom(w: World, c: ChannelId, poll: seq<Participant>, env: Env, ttl: nat) {
    ByUser(poll) == map[] || forall v | In(w.seats, v, c) :: Removable(w, c, ByUser(poll), env, ttl, v)
  }

  lemma SeatedAfterChecks(w: World, c: ChannelId, missing: seq<UserId>, listed: map<UserId, Participant>, env: Env,
                          ttl: nat, v: UserId)
    requires Enumerates(missing, Members(w.seats, c) - listed.Keys)
    ensures var r := AllMissingChecked(w.(evidence := E.WithoutChannel(w.evidence, c)), c, missing, env, ttl);
            In(r.seats, v, c) <==> In(w.seats, v, c) && !Removable(w, c, listed, env, ttl, v)
  {
    hide AllMissingChecked;
    var w0 := w.(evidence := E.WithoutChannel(w.evidence, c));
    if v in missing {
      assert v in Members(w.seats, c);
      R.CheckedSuspicion(w0, c, missing, env, ttl, v);
    } else {
      R.UncheckedSuspicion(w0, c, missing, env, ttl, c, v);
      assert In(w.seats, v, c) ==> v in Members(w.seats, c);
    }
  }

  lemma EmptiedIff(w: World, c: ChannelId, poll: seq<Participant>, missing: seq<UserId>, env: Env, ttl: nat)
    requires ByUser(poll) != map[] && Enumerates(missing, Members(w.seats, c) - ByUser(poll).Keys)
    ensures var r := AllMissingChecked(w.(evidence := E.WithoutChannel(w.evidence, c)), c, missing, env, ttl);
            Vacant(r.seats, c) <==> EmptiesRoom(w, c, poll, env, ttl)
  {
    hide AllMissingChecked, Enumerates, Removable;
    var r := AllMissingChecked(w.(evidence := E.WithoutChannel(w.evidence, c)), c, missing, env, ttl);
    forall v ensures In(r.seats, v, c) <==> In(w.seats, v, c) && !Removable(w, c, ByUser(poll), env, ttl, v) {
      SeatedAfterChecks(w, c, missing, ByUser(poll), env, ttl, v);
    }
    VacantIff(r.seats, c);
  }

  lemma VacantIff(seats: Seats, c: ChannelId)
    ensures Vacant(seats, c) <==> forall v :: !In(seats, v, c)
  {
  }

  lemma ListingPassLocksOutIff(w: World, c: ChannelId, poll: seq<Participant>, order: Order, env: Env, ttl: nat,
                               u: UserId)
    requires Inv(w) && ByUser(poll) != map[] && ValidOrder(order, w.seats, c, ByUser(poll))
    requires In(w.seats, u, c) && !In(Reconciled(w, c, Some(poll), order, env, ttl).seats, u, c)
    ensures LockedOut(Reconciled(w, c, Some(poll), order, env, ttl), u, c)
            <==> CutOff(w, u, c, EmptiesRoom(w, c, poll, env, ttl), env)
  {
    hide AllMissingChecked, AllAdopted, EmptiesRoom, Dealt, LockedOut, Vacant;
    var w0 := w.(evidence := E.WithoutChannel(w.evidence, c));
    var w1 := AllMissingChecked(w0, c, order.missing, env, ttl);
    R.ListingPassEffect(w, c, poll, order, env, ttl, u);
    SeatedAfterChecks(w, c, order.missing, ByUser(poll), env, ttl, u);
    EmptiedIff(w, c, poll, order.missing, env, ttl);
    MissingAreSeated(order.missing, w.seats, c, ByUser(poll).Keys);
    AllMissingCheckedDeals(w0, c, order.missing, env, ttl, u);
    AllMissingCheckedKeepsInv(w0, c, order.missing, env, ttl);
    AllAdoptedKeepsLockOutIff(w1, c, order.rows, Members(w.seats, c), env, u);
    assert !SameKeys(w0, w1);
    DealtLocksOutIff(w, w0, w1, u, c, env);
  }

  lemma MissingAreSeated(missing: seq<UserId>, seats: Seats, c: ChannelId, listed: set<UserId>)
    requires Enumerates(missing, Members(seats, c) - listed)
    ensures Distinct(missing) && forall v | v in missing :: In(seats, v, c)
  {
  }

  lemma DealtLocksOutIff(w: World, w0: World, r: World, u: UserId, c: ChannelId, env: Env)
    requires w0.vault == w.vault && Dealt(w0, r, u, c, env) && !In(r.seats, u, c)
    ensures LockedOut(r, u, c) <==> CutOff(w, u, c, Vacant(r.seats, c), env)
  {
    hide Vacant;
    LockedOutIs(r, u, c);
  }

  /** Exactly when a pass that takes a member's seat away locks them out. */
  lemma PassLocksOutIff(w: World, c: ChannelId, poll: Option<seq<Participant>>, order: Order, env: Env, ttl: nat,
                        u: UserId)
    requires Inv(w) && PassOrder(w, c, poll, order)
    requires In(w.seats, u, c) && !In(Reconciled(w, c, poll, order, env, ttl).seats, u, c)
    ensures poll.Some?
    ensures LockedOut(Reconciled(w, c, poll, order, env, ttl), u, c)
            <==> CutOff(w, u, c, EmptiesRoom(w, c, poll.value, env, ttl), env)
  {
    hide CutOff, LockedOut, Removable;
    if ByUser(poll.value) != map[] {
      ListingPassLocksOutIff(w, c, poll.value, order, env, ttl, u);
    } else {
      var w0 := w.(evidence := E.ChannelObserved(w.evidence, c, env.now, ttl));
      FinishLocksOutIff(w0, c, u, env);
      SameVaultCutOff(w, w0, u, c, env);
    }
  }

  lemma SameVaultCutOff(w: World, w0: World, u: UserId, c: ChannelId, env: Env)
    requires w0.vault == w.vault
    ensures CutOff(w, u, c, true, env) <==> CutOff(w0, u, c, true, env)
  {
  }

  lemma AskedKeepsLockOut(w: World, step: Step, u: UserId, c: ChannelId, ttl: nat)
    requires step.Ask? && Inv(w) && LockedOut(w, u, c) && (step.user, step.channel) != (u, c)
    ensures LockedOut(Next(w, step, ttl), u, c)
  {
    var (v, key) := Acquired(w.vault, w.seats, step.channel, step.user, step.env, step.sweep);
    AcquiredKeepsSound(w.vault, w.seats, step.channel, step.user, step.env, step.sweep);
    AcquiredKeepsLockOut(w.vault, w.seats, step.channel, step.user, step.env, step.sweep, u, c);
    if key.Some? {
      HandOverKeepsLockOut(v, step.channel, step.user, u, c);
    }
  }

  /** No step but the user's own request, or their re-admission, ends a lock-out. */
  lemma NextKeepsLockOut(w: World, step: Step, ttl: nat, u: UserId, c: ChannelId)
    requires Inv(w) && LockedOut(w, u, c)
    requires !(step.Ask? && step.user == u && step.channel == c)
    requires !In(Next(w, step, ttl).seats, u, c)
    ensures LockedOut(Next(w, step, ttl), u, c)
  {
    match step
    case Webhook(kind, hook, env) =>
      if kind.JoinedEvent? {
        JoinedKeepsLockOut(w, hook, env, u, c);
      } else {
        LeftKeepsLockOut(w, hook, env, u, c);
      }
    case Ask(_, _, _, _, _, _, _, _, _) =>
      AskedKeepsLockOut(w, step, u, c, ttl);
    case Resume(v, session, env) =>
      ResyncedKeepsLockOut(w.vault, Resumed(w, v, session, env).seats, v, env, u, c);
    case Pass(d, poll, order, env) =>
      ReconciledKeepsLockOut(w, d, poll, order, env, ttl, u, c);
    case _ =>
  }

  /** The step from w to w' handles the user's leave from the channel, or is a pass over it that removes them. */
  ghost predicate Departs(w: World, step: Step, w': World, u: UserId, c: ChannelId) {
    || (&& step.Webhook? && step.kind.LeftEvent? && step.hook.user == u && step.hook.channel == c
        && HandledLeave(w, step.hook, step.env))
    || (step.Pass? && step.channel == c && In(w.seats, u, c) && !In(w'.seats, u, c))
  }

  /** What the departure needs of Redis and the random source, as things stand before it. */
  ghost predicate DepartureCutsOff(w: World, step: Step, u: UserId, c: ChannelId, ttl: nat)
    requires step.Webhook? || step.Pass?
  {
    CutOff(w, u, c,
           if step.Webhook? then Vacant(Unseated(w.seats, c, u), c)
           else step.poll.Some? && EmptiesRoom(w, c, step.poll.value, step.env, ttl),
           step.env)
  }

  /** Exactly which departures in a run lock the user out. */
  lemma DepartureLocksOutIff(t: Trace, n: nat, u: UserId, c: ChannelId)
    requires t.Valid() && n < |t.steps| && Departs(t.worlds[n], t.steps[n], t.worlds[n + 1], u, c)
    ensures LockedOut(t.worlds[n + 1], u, c) <==> DepartureCutsOff(t.worlds[n], t.steps[n], u, c, t.ttl)
  {
    hide Inv, LockedOut, CutOff, EmptiesRoom, Reconciled, Left, HandledLeave;
    var w, step := t.worlds[n], t.steps[n];
    ReachableWorldsKeepInv(t, n);
    assert t.Follows(n);
    if step.Pass? {
      PassLocksOutIff(w, c, step.poll, step.order, step.env, t.ttl, u);
    } else {
      LeaveLocksOutIff(w, step.hook, step.env);
    }
  }

  /** With Redis and the random source up, every departure does. */
  lemma DepartureLocksOut(t: Trace, n: nat, u: UserId, c: ChannelId)
    requires t.Valid() && n < |t.steps| && Departs(t.worlds[n], t.steps[n], t.worlds[n + 1], u, c)
    requires t.steps[n].env.redisUp && t.steps[n].env.randOk
    ensures LockedOut(t.worlds[n + 1], u, c)
  {
    DepartureLocksOutIff(t, n, u, c);
  }

  /** The n-th step neither is the user's request for the channel nor seats them in it. */
  ghost predicate StaysAway(t: Trace, n: nat, u: UserId, c: ChannelId)
    requires t.Shaped() && n < |t.steps|
  {
    && !(t.steps[n].Ask? && t.steps[n].user == u && t.steps[n].channel == c)
    && !In(t.worlds[n + 1].seats, u, c)
  }

  lemma LockOutLastsOneStep(t: Trace, n: nat, u: UserId, c: ChannelId)
    requires t.Valid() && n < |t.steps| && LockedOut(t.worlds[n], u, c) && StaysAway(t, n, u, c)
    ensures LockedOut(t.worlds[n + 1], u, c)
  {
    ReachableWorldsKeepInv(t, n);
    assert t.Follows(n);
    NextKeepsLockOut(t.worlds[n], t.steps[n], t.ttl, u, c);
  }

  /**
   In every run: from a departure that cuts the user off until the user asks to join again or a
   join event re-admits them, the channel's key is absent or one the user was never given.
   */
  lemma {:induction false} DepartedUserStaysLockedOut(t: Trace, n: nat, m: nat, u: UserId, c: ChannelId)
    requires t.Valid() && n < m <= |t.steps|
    requires Departs(t.worlds[n], t.steps[n], t.worlds[n + 1], u, c)
    requires DepartureCutsOff(t.worlds[n], t.steps[n], u, c, t.ttl)
    requires forall k: nat | n < k < m :: StaysAway(t, k, u, c)
    ensures LockedOut(t.worlds[m], u, c)
    decreases m
  {
    if m == n + 1 {
      DepartureLocksOutIff(t, n, u, c);
    } else {
      DepartedUserStaysLockedOut(t, n, m - 1, u, c);
      LockOutLastsOneStep(t, m - 1, u, c);
    }
  }
}
