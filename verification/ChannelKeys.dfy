/**
 ChannelKeyService: acquiring, rotating, re-sending and clearing a channel's E2EE key, with the
 stored copy in Redis and the record of who was ever given which key.
 */
module ChannelKeys {
  import opened Domain
  import opened VoiceSessions
  import opened KeyRing

  /**
   What one handler call sees of the outside world: the clock, whether Redis and the random
   source work, which app sessions have a connection, and which channels resolve to a hub.
   */
  datatype Env = Env(
    now: nat,
    redisUp: bool,
    randOk: bool,
    live: map<SessionId, UserId>,
    known: set<ChannelId>,
    debounceTtl: nat)

  /**
   ring is the in-memory store and stored its Redis copy. minted records, token by token, the
   channel each key was generated for, so the next unused token is |minted|. sent is every
   (user, key) pair that ever left the server, in a token or in a key update.
   */
  datatype Vault = Vault(
    ring: Ring,
    stored: Ring,
    minted: seq<ChannelId>,
    sent: set<(UserId, nat)>,
    joinSeen: map<(ChannelId, UserId), nat>)

  const EMPTY_VAULT := Vault(map[], map[], [], {}, map[])

  /** Members of the channel whose owner session has a connection. */
  function Recipients(seats: Seats, c: ChannelId, env: Env): set<UserId> {
    set u | u in seats && In(seats, u, c) && seats[u].owner in env.live
  }

  function Persisted(v: Vault, c: ChannelId, k: ChannelKey, env: Env): Vault {
    if env.redisUp then v.(stored := v.stored[c := k]) else v
  }

  function Copies(users: set<UserId>, key: nat): set<(UserId, nat)> {
    set u | u in users :: (u, key)
  }

  function Broadcast(v: Vault, seats: Seats, c: ChannelId, k: ChannelKey, env: Env): Vault {
    if c in env.known
    then v.(sent := v.sent + Copies(Recipients(seats, c, env), k.key))
    else v
  }

  /** rotate_and_broadcast: unchanged when the random source fails. */
  function Rotated(v: Vault, seats: Seats, c: ChannelId, env: Env): Vault {
    if !env.randOk then v
    else
      var ring := Apply(v.ring, Rotate(c, |v.minted|));
      var w := Persisted(v.(ring := ring, minted := v.minted + [c]), c, ring[c], env);
      Broadcast(w, seats, c, ring[c], env)
  }

  /** Mints at slot 0 for a channel without a key. */
  function Created(v: Vault, c: ChannelId, env: Env): Vault
    requires c !in v.ring
  {
    var ring := Apply(v.ring, GetOrCreate(c, |v.minted|));
    Persisted(v.(ring := ring, minted := v.minted + [c]), c, ring[c], env)
  }

  function Cleared(v: Vault, c: ChannelId, env: Env): Vault {
    v.(ring := v.ring - {c},
       stored := if env.redisUp then v.stored - {c} else v.stored,
       joinSeen := map p | p in v.joinSeen && p.0 != c :: v.joinSeen[p])
  }

  function Resynced(v: Vault, seats: Seats, u: UserId, env: Env): Vault {
    if u in seats && seats[u].channel in v.ring && seats[u].channel in env.known && seats[u].owner in env.live
    then v.(sent := v.sent + {(u, v.ring[seats[u].channel].key)})
    else v
  }

  /** A repeated join request by the same user within the debounce window. */
  predicate Debounced(v: Vault, c: ChannelId, u: UserId, env: Env) {
    (c, u) in v.joinSeen && v.joinSeen[(c, u)] != 0 && env.now < v.joinSeen[(c, u)] + env.debounceTtl
  }

  /** Local members decide first; otherwise the answer of the node sweep, if it was conclusive. */
  function EffectivelyEmpty(seats: Seats, c: ChannelId, sweep: Option<bool>): Option<bool> {
    if Vacant(seats, c) then sweep else Some(false)
  }

  /** The join request finds other members: rotate, unless this user just caused a rotation. */
  function AcquiredAmongOthers(v: Vault, seats: Seats, c: ChannelId, u: UserId, env: Env): (Vault, Option<ChannelKey>) {
    var w := v.(joinSeen := v.joinSeen[(c, u) := env.now]);
    if Debounced(v, c, u, env) && c in v.ring then (w, Some(v.ring[c]))
    else
      var w' := Rotated(w, seats, c, env);
      (w', if env.randOk then Lookup(w'.ring, c) else None)
  }

  /** Nobody else is a member: keep the live key, restore the stored one, or mint a fresh one. */
  function AcquiredAlone(v: Vault, seats: Seats, c: ChannelId, env: Env, empty: Option<bool>): (Vault,
                         Option<ChannelKey>) {
    if c in v.ring then
      (Persisted(v, c, v.ring[c], env), Some(v.ring[c]))
    else if empty != Some(true) && env.redisUp && c in v.stored then
      var ring := Apply(v.ring, SetKey(c, v.stored[c].key, v.stored[c].index));
      (v.(ring := ring, stored := v.stored[c := ring[c]]), Some(ring[c]))
    else if !env.randOk then
      (v, None)
    else
      var w := Created(v, c, env);
      (if empty == Some(true) then w else Broadcast(w, seats, c, w.ring[c], env), Some(w.ring[c]))
  }

  /** acquire_for_join, before the key is handed to the user. */
  function Acquired(v: Vault, seats: Seats, c: ChannelId, u: UserId, env: Env, sweep: Option<bool>): (Vault,
                    Option<ChannelKey>) {
    if !In(seats, u, c) && !Vacant(seats, c) then AcquiredAmongOthers(v, seats, c, u, env)
    else AcquiredAlone(v, seats, c, env, EffectivelyEmpty(seats, c, sweep))
  }

  function HandedOver(v: Vault, u: UserId, k: ChannelKey): Vault {
    v.(sent := v.sent + {(u, k.key)})
  }

  /** Only a failing random source keeps a join request from getting a key. */
  lemma AcquiredGivesKey(v: Vault, seats: Seats, c: ChannelId, u: UserId, env: Env, sweep: Option<bool>)
    requires env.randOk
    ensures Acquired(v, seats, c, u, env, sweep).1.Some?
  {
    hide Recipients, Copies;
  }

  // ---------------------------------------------------------------------------
  // The service.
  // ---------------------------------------------------------------------------

  class ChannelKeyService {
    const e2ee: E2EEKeyManager
    const sessions: VoiceSessionManager
    var stored: Ring
    var minted: seq<ChannelId>
    var sent: set<(UserId, nat)>
    var joinSeen: map<(ChannelId, UserId), nat>

    ghost function View(): Vault
      reads this, e2ee
    {
      Vault(e2ee.channels, stored, minted, sent, joinSeen)
    }

    constructor (sessions: VoiceSessionManager)
      ensures this.sessions == sessions && fresh(e2ee)
      ensures View() == EMPTY_VAULT
    {
      this.sessions := sessions;
      e2ee := new E2EEKeyManager();
      stored, minted, sent, joinSeen := map[], [], {}, map[];
    }

    method Persist(channel: ChannelId, k: ChannelKey, env: Env)
      modifies this`stored
      ensures View() == Persisted(old(View()), channel, k, env)
    {
      if env.redisUp {
        stored := stored[channel := k];
      }
    }

    /** publish_voice_key_update: one message per participant with a connected owner session. */
    method PublishKeyUpdate(channel: ChannelId, k: ChannelKey, env: Env)
      requires sessions.Valid()
      modifies this`sent
      ensures View() == Broadcast(old(View()), sessions.Seats(), channel, k, env)
    {
      if channel !in env.known {
        return;
      }
      hide Consistent, Flat;
      var todo := sessions.UsersInChannel(channel);
      ghost var targets := Recipients(sessions.Seats(), channel, env);
      ghost var reached: set<UserId> := {};
      while todo != {}
        invariant todo <= Members(sessions.Seats(), channel)
        invariant reached <= targets <= reached + todo
        invariant sent == old(sent) + Copies(reached, k.key)
        decreases todo
      {
        var user :| user in todo;
        todo := todo - {user};
        var owner := sessions.UserSession(user);
        if owner.Some? && owner.value in env.live {
          sent := sent + {(user, k.key)};
          reached := reached + {user};
        }
      }
      assert reached == targets;
    }

    method RotateAndBroadcast(channel: ChannelId, env: Env) returns (k: Option<ChannelKey>)
      requires sessions.Valid()
      modifies this`stored, this`minted, this`sent, e2ee
      ensures View() == Rotated(old(View()), sessions.Seats(), channel, env)
      ensures k == if env.randOk then Lookup(View().ring, channel) else None
    {
      if !env.randOk {
        return None;
      }
      var rotated := e2ee.RotateKey(channel, |minted|);
      minted := minted + [channel];
      Persist(channel, rotated, env);
      PublishKeyUpdate(channel, rotated, env);
      k := Some(rotated);
    }

    method ResyncToUser(user: UserId, env: Env)
      requires sessions.Valid()
      modifies this`sent
      ensures View() == Resynced(old(View()), sessions.Seats(), user, env)
    {
      hide Consistent, Flat;
      var channel := sessions.UserChannel(user);
      if channel.None? || channel.value !in e2ee.channels || channel.value !in env.known {
        return;
      }
      var owner := sessions.UserSession(user);
      if owner.Some? && owner.value in env.live {
        sent := sent + {(user, e2ee.channels[channel.value].key)};
      }
    }

    method ClearChannel(channel: ChannelId, env: Env)
      modifies this`stored, this`joinSeen, e2ee
      ensures View() == Cleared(old(View()), channel, env)
    {
      e2ee.ClearKey(channel);
      if env.redisUp {
        stored := stored - {channel};
      }
      joinSeen := map p | p in joinSeen && p.0 != channel :: joinSeen[p];
    }

    /** The acquired key leaves the server inside the join token. */
    method HandOver(user: UserId, k: ChannelKey)
      modifies this`sent
      ensures View() == HandedOver(old(View()), user, k)
    {
      sent := sent + {(user, k.key)};
    }

    method RecordJoinAndShouldDebounce(channel: ChannelId, user: UserId, env: Env) returns (debounce: bool)
      modifies this`joinSeen
      ensures debounce <==> Debounced(old(View()), channel, user, env)
      ensures View() == old(View()).(joinSeen := old(joinSeen)[(channel, user) := env.now])
    {
      var last := if (channel, user) in joinSeen then joinSeen[(channel, user)] else 0;
      debounce := last != 0 && env.now < last + env.debounceTtl;
      joinSeen := joinSeen[(channel, user) := env.now];
    }

    method AcquireAmongOthers(channel: ChannelId, user: UserId, env: Env) returns (k: Option<ChannelKey>)
      requires sessions.Valid()
      modifies this, e2ee
      ensures (View(), k) == AcquiredAmongOthers(old(View()), sessions.Seats(), channel, user, env)
    {
      var debounce := RecordJoinAndShouldDebounce(channel, user, env);
      if debounce && channel in e2ee.channels {
        k := Some(e2ee.channels[channel]);
      } else {
        k := RotateAndBroadcast(channel, env);
      }
    }

    method AcquireAlone(channel: ChannelId, env: Env, emptyState: Option<bool>) returns (k: Option<ChannelKey>)
      requires sessions.Valid()
      modifies this, e2ee
      ensures (View(), k) == AcquiredAlone(old(View()), sessions.Seats(), channel, env, emptyState)
    {
      if channel in e2ee.channels {
        k := Some(e2ee.channels[channel]);
        Persist(channel, k.value, env);
        return;
      }
      if emptyState != Some(true) && env.redisUp && channel in stored {
        var loaded := stored[channel];
        e2ee.Install(channel, loaded.key, loaded.index);
        k := Some(e2ee.channels[channel]);
        Persist(channel, k.value, env);
        return;
      }
      if !env.randOk {
        return None;
      }
      var created := e2ee.GetOrCreateKey(channel, |minted|);
      minted := minted + [channel];
      Persist(channel, created, env);
      if emptyState != Some(true) {
        PublishKeyUpdate(channel, created, env);
      }
      k := Some(created);
    }

    method AcquireForJoin(channel: ChannelId, user: UserId, env: Env,
                          sweep: Option<bool>) returns (k: Option<ChannelKey>)
      requires sessions.Valid()
      modifies this, e2ee
      ensures (View(), k) == Acquired(old(View()), sessions.Seats(), channel, user, env, sweep)
    {
      hide Consistent, Flat;
      var current := sessions.UserChannel(user);
      var empty := sessions.IsEmpty(channel);
      var otherMembersPresent := current != Some(channel) && !empty;
      if otherMembersPresent {
        k := AcquireAmongOthers(channel, user, env);
      } else {
        k := AcquireAlone(channel, env, if empty then sweep else Some(false));
      }
    }
  }

  // ---------------------------------------------------------------------------
  // Keys are unique, and a locked-out user stays locked out.
  // ---------------------------------------------------------------------------

  ghost predicate KeyOf(minted: seq<ChannelId>, c: ChannelId, k: ChannelKey) {
    k.key < |minted| && minted[k.key] == c && k.index < KEYRING_SIZE
  }

  /** Every key in use was minted here, for the channel that uses it. */
  ghost predicate Sound(v: Vault) {
    && (forall c | c in v.ring :: KeyOf(v.minted, c, v.ring[c]))
    && (forall c | c in v.stored :: KeyOf(v.minted, c, v.stored[c]))
    && (forall p | p in v.sent :: p.1 < |v.minted|)
  }

  /** Neither the live key nor the stored copy was ever given to the user. */
  ghost predicate NeverGiven(v: Vault, u: UserId, c: ChannelId) {
    && (c in v.ring ==> (u, v.ring[c].key) !in v.sent)
    && (c in v.stored ==> (u, v.stored[c].key) !in v.sent)
  }

  lemma RotatedKeepsSound(v: Vault, seats: Seats, c: ChannelId, env: Env)
    requires Sound(v)
    ensures Sound(Rotated(v, seats, c, env))
  {
    hide Recipients;
  }

  lemma CreatedKeepsSound(v: Vault, c: ChannelId, env: Env)
    requires Sound(v) && c !in v.ring
    ensures Sound(Created(v, c, env))
  {
  }

  lemma BroadcastKeepsSound(v: Vault, seats: Seats, c: ChannelId, env: Env)
    requires Sound(v) && c in v.ring
    ensures Sound(Broadcast(v, seats, c, v.ring[c], env))
  {
  }

  lemma AcquiredAloneKeepsSound(v: Vault, seats: Seats, c: ChannelId, env: Env, empty: Option<bool>)
    requires Sound(v)
    ensures var (w, k) := AcquiredAlone(v, seats, c, env, empty);
            Sound(w) && (k.Some? ==> Lookup(w.ring, c) == k)
  {
    hide Recipients, Copies;
    if c !in v.ring && env.randOk {
      CreatedKeepsSound(v, c, env);
      BroadcastKeepsSound(Created(v, c, env), seats, c, env);
    }
  }

  lemma AcquiredKeepsSound(v: Vault, seats: Seats, c: ChannelId, u: UserId, env: Env, sweep: Option<bool>)
    requires Sound(v)
    ensures var (w, k) := Acquired(v, seats, c, u, env, sweep);
            Sound(w) && (k.Some? ==> Lookup(w.ring, c) == k)
  {
    RotatedKeepsSound(v.(joinSeen := v.joinSeen[(c, u) := env.now]), seats, c, env);
    AcquiredAloneKeepsSound(v, seats, c, env, EffectivelyEmpty(seats, c, sweep));
  }

  /** A fresh rotation cannot reach someone who is not in the channel. */
  lemma RotationLocksOut(v: Vault, seats: Seats, c: ChannelId, u: UserId, env: Env)
    requires Sound(v) && !In(seats, u, c) && env.randOk
    ensures var w := Rotated(v, seats, c, env);
            && c in w.ring && (u, w.ring[c].key) !in w.sent
            && (env.redisUp ==> NeverGiven(w, u, c))
            && (!env.redisUp ==> (c in w.stored <==> c in v.stored) && (c in v.stored ==> w.stored[c] == v.stored[c]))
  {
  }

  lemma RotatedKeepsLockOut(v: Vault, seats: Seats, d: ChannelId, env: Env, u: UserId, c: ChannelId)
    requires Sound(v) && !In(seats, u, c) && NeverGiven(v, u, c)
    ensures NeverGiven(Rotated(v, seats, d, env), u, c)
  {
  }

  lemma ResyncedKeepsLockOut(v: Vault, seats: Seats, w: UserId, env: Env, u: UserId, c: ChannelId)
    requires Sound(v) && !In(seats, u, c) && NeverGiven(v, u, c)
    ensures NeverGiven(Resynced(v, seats, w, env), u, c)
  {
  }

  lemma CreatedKeepsLockOut(v: Vault, d: ChannelId, env: Env, u: UserId, c: ChannelId)
    requires Sound(v) && NeverGiven(v, u, c) && d !in v.ring
    ensures NeverGiven(Created(v, d, env), u, c)
  {
  }

  lemma BroadcastKeepsLockOut(v: Vault, seats: Seats, d: ChannelId, env: Env, u: UserId, c: ChannelId)
    requires Sound(v) && !In(seats, u, c) && NeverGiven(v, u, c) && d in v.ring
    ensures NeverGiven(Broadcast(v, seats, d, v.ring[d], env), u, c)
  {
  }

  lemma AcquiredAloneKeepsLockOut(v: Vault, seats: Seats, d: ChannelId, env: Env, empty: Option<bool>, u: UserId,
                                  c: ChannelId)
    requires Sound(v) && !In(seats, u, c) && NeverGiven(v, u, c)
    ensures NeverGiven(AcquiredAlone(v, seats, d, env, empty).0, u, c)
  {
    if d !in v.ring && env.randOk {
      CreatedKeepsSound(v, d, env);
      CreatedKeepsLockOut(v, d, env, u, c);
      BroadcastKeepsLockOut(Created(v, d, env), seats, d, env, u, c);
    }
  }

  lemma AcquiredKeepsLockOut(v: Vault, seats: Seats, d: ChannelId, asker: UserId, env: Env, sweep: Option<bool>,
                             u: UserId, c: ChannelId)
    requires Sound(v) && !In(seats, u, c) && NeverGiven(v, u, c)
    ensures NeverGiven(Acquired(v, seats, d, asker, env, sweep).0, u, c)
  {
    RotatedKeepsLockOut(v.(joinSeen := v.joinSeen[(d, asker) := env.now]), seats, d, env, u, c);
    AcquiredAloneKeepsLockOut(v, seats, d, env, EffectivelyEmpty(seats, d, sweep), u, c);
  }

  lemma HandOverKeepsLockOut(v: Vault, d: ChannelId, asker: UserId, u: UserId, c: ChannelId)
    requires Sound(v) && NeverGiven(v, u, c) && d in v.ring && (asker, d) != (u, c)
    ensures NeverGiven(HandedOver(v, asker, v.ring[d]), u, c)
    ensures Sound(HandedOver(v, asker, v.ring[d]))
  {
  }
}
