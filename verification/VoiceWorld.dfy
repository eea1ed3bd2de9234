/**
 What VoiceService keeps, and how each webhook, command and reconcile pass changes it. Handlers
 are taken as atomic. VoiceService.dfy proves that the imperative handlers compute exactly these
 functions; the other Voice*.dfy files prove what they guarantee.
 */
module VoiceWorld {
  import opened Domain
  import opened VoiceSessions
  import opened ChannelKeys
  import E = Evidence

  /** A staged join or switch; from is the channel the user was in, when it differs from to. */
  datatype Intent = Intent(
    session: SessionId,
    nonce: string,
    to: ChannelId,
    from: Option<ChannelId>,
    muted: bool,
    deafened: bool,
    oldLeaveSeen: bool,
    newJoinSeen: bool)

  /** A participant_joined or participant_left webhook. */
  datatype Hook = Hook(
    id: string,
    channel: ChannelId,
    user: UserId,
    session: SessionId,
    nonce: string,
    timestampMs: nat)

  /** One row of a remote participant list. */
  datatype Participant = Participant(user: UserId, session: SessionId, nonce: string)

  datatype World = World(
    seats: Seats,
    intents: map<UserId, Intent>,
    started: map<ChannelId, nat>,
    vault: Vault,
    evidence: E.Evidence,
    requests: set<ChannelId>)

  const INITIAL := World(map[], map[], map[], EMPTY_VAULT, E.NO_EVIDENCE, {})

  function Requested(w: World, c: ChannelId): World {
    if c.value == "" then w else w.(requests := w.requests + {c})
  }

  function Pending(w: World, u: UserId, env: Env): Option<Intent> {
    if env.redisUp then Lookup(w.intents, u) else None
  }

  predicate IsSwitch(i: Intent) {
    i.from.Some? && i.from.value != i.to
  }

  function LiveSessions(env: Env, u: UserId): set<SessionId> {
    set s | s in env.live && env.live[s] == u
  }

  // ---------------------------------------------------------------------------
  // participant_joined
  // ---------------------------------------------------------------------------

  /** The session and audio state a join event is admitted with. */
  datatype Admission = Admission(session: SessionId, muted: bool, deafened: bool)

  function Correlated(pending: Option<Intent>, ev: Hook, env: Env): Option<Admission> {
    match pending
    case Some(i) =>
      var matches :=
        && ev.channel == i.to
        && if ev.session != 0 || ev.nonce != ""
           then ev.session == i.session && i.nonce != "" && ev.nonce == i.nonce
           else LiveSessions(env, ev.user) == {i.session};
      if matches then Some(Admission(i.session, i.muted, i.deafened)) else None
    case None =>
      if ev.session == 0 && ev.nonce == "" && exists s :: s in env.live && LiveSessions(env, ev.user) == {s} then
        var s :| s in env.live && LiveSessions(env, ev.user) == {s};
        Some(Admission(s, false, false))
      else None
  }

  predicate AlreadyOwnerHere(seats: Seats, ev: Hook) {
    ev.session != 0 && In(seats, ev.user, ev.channel) && seats[ev.user].owner == ev.session
  }

  function SeatedAs(seats: Seats, c: ChannelId, u: UserId, a: Admission): Seats {
    WithAudio(Seated(seats, c, u, a.session), u, a.muted, a.deafened)
  }

  function StartedBy(w: World, ev: Hook, env: Env): map<ChannelId, nat> {
    if Vacant(w.seats - {ev.user}, ev.channel)
    then w.started[ev.channel := if ev.timestampMs > 0 then ev.timestampMs / 1000 else env.now]
    else w.started
  }

  function IntentsAfterJoin(w: World, u: UserId, env: Env): map<UserId, Intent> {
    match Pending(w, u, env)
    case None => w.intents
    case Some(i) =>
      if IsSwitch(i) && !i.oldLeaveSeen then w.intents[u := i.(newJoinSeen := true)] else w.intents - {u}
  }

  /** The world once a join event is admitted. */
  function Admitted(w: World, ev: Hook, a: Admission, env: Env): World {
    var seats := SeatedAs(w.seats, ev.channel, ev.user, a);
    w.(seats := seats,
       started := StartedBy(w, ev, env),
       vault := Resynced(w.vault, seats, ev.user, env),
       intents := IntentsAfterJoin(w, ev.user, env))
  }

  function Joined(w: World, ev: Hook, env: Env): World {
    var w0 := w.(evidence := E.WithoutUser(E.WithoutChannel(w.evidence, ev.channel), ev.channel, ev.user));
    match Correlated(Pending(w, ev.user, env), ev, env)
    case None => if AlreadyOwnerHere(w.seats, ev) then w0 else Requested(w0, ev.channel)
    case Some(a) => Admitted(w0, ev, a, env)
  }

  // ---------------------------------------------------------------------------
  // participant_left
  // ---------------------------------------------------------------------------

  predicate NonceMismatch(pending: Option<Intent>, ev: Hook) {
    pending.Some? && pending.value.to == ev.channel && pending.value.nonce != "" && ev.nonce != ""
    && ev.nonce != pending.value.nonce
  }

  predicate LeavingCurrent(seats: Seats, pending: Option<Intent>, ev: Hook) {
    && In(seats, ev.user, ev.channel)
    && (ev.session == 0 || seats[ev.user].owner == ev.session)
    && !NonceMismatch(pending, ev)
  }

  predicate LeavingForSwitch(pending: Option<Intent>, ev: Hook) {
    pending.Some? && IsSwitch(pending.value) && pending.value.from == Some(ev.channel)
  }

  /** Someone left the channel: forget its key if it is now empty, rotate it otherwise. */
  function Vacated(w: World, c: ChannelId, env: Env): World {
    if Vacant(w.seats, c)
    then w.(started := w.started - {c}, vault := Cleared(w.vault, c, env))
    else w.(vault := Rotated(w.vault, w.seats, c, env))
  }

  function IntentsAfterLeave(w: World, ev: Hook, env: Env): map<UserId, Intent> {
    var pending := Pending(w, ev.user, env);
    if !LeavingForSwitch(pending, ev) then w.intents
    else if pending.value.newJoinSeen then w.intents - {ev.user}
    else w.intents[ev.user := pending.value.(oldLeaveSeen := true)]
  }

  predicate HandledLeave(w: World, ev: Hook, env: Env) {
    var pending := Pending(w, ev.user, env);
    LeavingCurrent(w.seats, pending, ev) || LeavingForSwitch(pending, ev)
  }

  function Left(w: World, ev: Hook, env: Env): World {
    if !HandledLeave(w, ev, env) then Requested(w, ev.channel)
    else
      var w0 := w.(seats := Unseated(w.seats, ev.channel, ev.user),
                   evidence := E.WithoutUser(w.evidence, ev.channel, ev.user));
      Vacated(w0, ev.channel, env).(intents := IntentsAfterLeave(w, ev, env))
  }

  // ---------------------------------------------------------------------------
  // Webhook front door: duplicate ids and out-of-order timestamps are dropped.
  // ---------------------------------------------------------------------------

  /** The latest event time of each user, and the webhook ids already processed. */
  datatype Inbox = Inbox(lastEvent: map<UserId, nat>, seenIds: set<string>)

  predicate Duplicate(x: Inbox, ev: Hook, env: Env) {
    env.redisUp && ev.id != "" && ev.id in x.seenIds
  }

  function LastEvent(x: Inbox, u: UserId): nat {
    if u in x.lastEvent then x.lastEvent[u] else 0
  }

  predicate Stale(x: Inbox, ev: Hook) {
    ev.timestampMs != 0 && ev.user.value != "" && ev.timestampMs < LastEvent(x, ev.user)
  }

  function Filed(x: Inbox, ev: Hook, env: Env): Inbox {
    if Duplicate(x, ev, env) then x
    else
      Inbox(if ev.user.value != "" && ev.timestampMs > LastEvent(x, ev.user)
            then x.lastEvent[ev.user := ev.timestampMs] else x.lastEvent,
            if env.redisUp && ev.id != "" then x.seenIds + {ev.id} else x.seenIds)
  }

  datatype HookKind = JoinedEvent | LeftEvent

  function Handled(w: World, kind: HookKind, ev: Hook, env: Env): World {
    if kind.JoinedEvent? then Joined(w, ev, env) else Left(w, ev, env)
  }

  /** on_livekit_event for participant events. */
  function Delivered(w: World, x: Inbox, kind: HookKind, ev: Hook, env: Env): World {
    if Duplicate(x, ev, env) then w
    else if Stale(x, ev) then Requested(w, ev.channel)
    else Handled(w, kind, ev, env)
  }

  // ---------------------------------------------------------------------------
  // Removal by the reconciler
  // ---------------------------------------------------------------------------

  function ForcedLeave(w: World, c: ChannelId, u: UserId, env: Env): World {
    var seats := Unseated(w.seats, c, u);
    var w0 := w.(seats := seats, evidence := E.WithoutUser(w.evidence, c, u));
    if In(w.seats, u, c) then Vacated(w0, c, env) else w0.(vault := Rotated(w.vault, seats, c, env))
  }

  function Finished(w: World, c: ChannelId, env: Env): World {
    w.(seats := WithoutChannel(w.seats, c),
       evidence := E.Reset(w.evidence, c),
       vault := Cleared(w.vault, c, env),
       started := w.started - {c})
  }

  predicate OwnerLive(seats: Seats, u: UserId, c: ChannelId, env: Env) {
    In(seats, u, c) && seats[u].owner in env.live
  }

  predicate NoLiveOwner(seats: Seats, c: ChannelId, env: Env) {
    forall u | u in seats :: !OwnerLive(seats, u, c, env)
  }

  /** The remote list keyed by user: nameless rows are skipped, the first row of a user wins. */
  function ByUser(rows: seq<Participant>): map<UserId, Participant> {
    if rows == [] then map[]
    else
      var m := ByUser(rows[..|rows| - 1]);
      var row := rows[|rows| - 1];
      if row.user.value == "" || row.user in m then m else m[row.user := row]
  }

  /** One local participant that the remote list does not show. */
  function MissingChecked(w: World, c: ChannelId, u: UserId, env: Env, ttl: nat): World {
    if OwnerLive(w.seats, u, c, env) then w.(evidence := E.WithoutUser(w.evidence, c, u))
    else
      var w0 := w.(evidence := E.UserObserved(w.evidence, c, u, env.now, ttl));
      if E.UserConfirmed(w.evidence, c, u, env.now, ttl) then ForcedLeave(w0, c, u, env) else w0
  }

  function AllMissingChecked(w: World, c: ChannelId, missing: seq<UserId>, env: Env, ttl: nat): World
    decreases |missing|
  {
    if missing == [] then w
    else
      var n := |missing| - 1;
      MissingChecked(AllMissingChecked(w, c, missing[..n], env, ttl), c, missing[n], env, ttl)
  }

  predicate Trusted(pending: Option<Intent>, c: ChannelId, row: Participant, env: Env) {
    if pending.Some? && pending.value.to == c
    then row.session != 0 && row.session == pending.value.session && pending.value.nonce != "" && row.nonce != ""
         && row.nonce == pending.value.nonce
    else row.session != 0 && row.session in LiveSessions(env, row.user)
  }

  /** One remote row; it is adopted through the ordinary join handler when it looks trustworthy. */
  function RowAdopted(w: World, c: ChannelId, row: Participant, known: bool, env: Env): World {
    var w0 := w.(evidence := E.WithoutUser(w.evidence, c, row.user));
    if known || !Trusted(Pending(w, row.user, env), c, row, env) then w0
    else Joined(w0, Hook("", c, row.user, row.session, row.nonce, env.now * 1000), env)
  }

  function AllAdopted(w: World, c: ChannelId, rows: seq<Participant>, locals: set<UserId>, env: Env): World
    decreases |rows|
  {
    if rows == [] then w
    else
      var n := |rows| - 1;
      RowAdopted(AllAdopted(w, c, rows[..n], locals, env), c, rows[n], rows[n].user in locals, env)
  }

  /** missing and rows list the local-only users and the remote rows in the order they are visited. */
  datatype Order = Order(missing: seq<UserId>, rows: seq<Participant>)

  ghost predicate Distinct<T(!new)>(s: seq<T>) {
    forall i, j | 0 <= i < j < |s| :: s[i] != s[j]
  }

  ghost predicate Enumerates<T(!new)>(s: seq<T>, elements: set<T>) {
    (forall x :: x in s <==> x in elements) && Distinct(s)
  }

  ghost predicate ValidOrder(order: Order, seats: Seats, c: ChannelId, remote: map<UserId, Participant>) {
    && Enumerates(order.missing, Members(seats, c) - remote.Keys)
    && Enumerates(order.rows, remote.Values)
  }

  ghost predicate PassOrder(w: World, c: ChannelId, poll: Option<seq<Participant>>, order: Order) {
    poll.Some? && ByUser(poll.value) != map[] ==> ValidOrder(order, w.seats, c, ByUser(poll.value))
  }

  /** The remote room shows nobody we can name; unnamed says it shows somebody all the same. */
  function EmptyReconciled(w: World, c: ChannelId, unnamed: bool, env: Env, ttl: nat): World {
    if unnamed || Vacant(w.seats, c) || !NoLiveOwner(w.seats, c, env) then
      w.(evidence := E.WithoutChannel(w.evidence, c))
    else
      var w0 := w.(evidence := E.ChannelObserved(w.evidence, c, env.now, ttl));
      if E.ChannelConfirmed(w.evidence, c, env.now, ttl) then Finished(w0, c, env) else w0
  }

  /** poll is the participant list of one cluster query, or None when it failed or no node exists. */
  function Reconciled(w: World, c: ChannelId, poll: Option<seq<Participant>>, order: Order, env: Env, ttl: nat): World {
    if poll.None? then w.(evidence := E.Reset(w.evidence, c))
    else if ByUser(poll.value) == map[] then EmptyReconciled(w, c, poll.value != [], env, ttl)
    else
      var w0 := w.(evidence := E.WithoutChannel(w.evidence, c));
      var w1 := AllMissingChecked(w0, c, order.missing, env, ttl);
      AllAdopted(w1, c, order.rows, Members(w.seats, c), env)
  }

  // ---------------------------------------------------------------------------
  // Commands
  // ---------------------------------------------------------------------------

  /** A join request from a session of the user; kickOk is the outcome of revoking the old voice session. */
  function Asked(w: World, u: UserId, c: ChannelId, session: SessionId, nonce: string, muted: bool, deafened: bool,
                 kickOk: bool, sweep: Option<bool>, env: Env): World
  {
    var revokes := u in w.seats && (w.seats[u].owner != session || w.seats[u].channel != c);
    if revokes && !kickOk then w
    else
      var (v, key) := Acquired(w.vault, w.seats, c, u, env, sweep);
      var w0 := w.(evidence := E.WithoutChannel(w.evidence, c), vault := v);
      if key.None? || !env.redisUp then w0
      else
        var from := if u in w.seats && w.seats[u].channel != c then Some(w.seats[u].channel) else None;
        w0.(vault := HandedOver(v, u, key.value),
            intents := w.intents[u := Intent(session, nonce, c, from, muted || deafened, deafened, false, false)])
  }

  /** A reconnecting client moves voice ownership to its new session and gets the live key again. */
  function Resumed(w: World, u: UserId, next: SessionId, env: Env): World {
    if u in w.seats && w.seats[u].channel in env.known && w.seats[u].owner != next then
      var seats := WithOwner(w.seats, u, w.seats[u].owner, next);
      w.(seats := seats, vault := Resynced(w.vault, seats, u, env))
    else w
  }

  function Activity(w: World, u: UserId, c: ChannelId, requester: SessionId, muted: bool, deafened: bool): World {
    if In(w.seats, u, c) && w.seats[u].owner == requester
    then w.(seats := WithAudio(w.seats, u, muted, deafened))
    else w
  }

  // ---------------------------------------------------------------------------
  // Runs
  // ---------------------------------------------------------------------------

  datatype Step =
    | Webhook(kind: HookKind, hook: Hook, env: Env)
    | WebhookDropped(channel: ChannelId)
    | RoomFinished(channel: ChannelId, guarded: bool)
    | Ask(user: UserId, channel: ChannelId, session: SessionId, nonce: string, muted: bool, deafened: bool,
          kickOk: bool, sweep: Option<bool>, env: Env)
    | Resume(user: UserId, session: SessionId, env: Env)
    | SetAudio(user: UserId, channel: ChannelId, session: SessionId, muted: bool, deafened: bool)
    | Pass(channel: ChannelId, poll: Option<seq<Participant>>, order: Order, env: Env)
    | SessionEnded(user: UserId)
    | IntentExpired(user: UserId)
    | StoredKeyExpired(channel: ChannelId)

  function Next(w: World, step: Step, ttl: nat): World {
    match step
    case Webhook(kind, hook, env) => Handled(w, kind, hook, env)
    case WebhookDropped(c) => Requested(w, c)
    case RoomFinished(c, guarded) =>
      if guarded then w else Requested(w.(evidence := E.Reset(w.evidence, c)), c)
    case Ask(u, c, session, nonce, muted, deafened, kickOk, sweep, env) =>
      Asked(w, u, c, session, nonce, muted, deafened, kickOk, sweep, env)
    case Resume(u, session, env) => Resumed(w, u, session, env)
    case SetAudio(u, c, session, muted, deafened) => Activity(w, u, c, session, muted, deafened)
    case Pass(c, poll, order, env) => Reconciled(w, c, poll, order, env, ttl)
    case SessionEnded(u) => if u in w.seats then Requested(w, w.seats[u].channel) else w
    case IntentExpired(u) => w.(intents := w.intents - {u})
    case StoredKeyExpired(c) => w.(vault := w.vault.(stored := w.vault.stored - {c}))
  }

  /** A reconcile pass visits each missing user and each remote row once; other steps are unconstrained. */
  ghost predicate Enabled(w: World, step: Step) {
    step.Pass? ==> PassOrder(w, step.channel, step.poll, step.order)
  }

  /** A run: worlds[0] is initial and each step leads from one world to the next. */
  datatype Trace = Trace(worlds: seq<World>, steps: seq<Step>, ttl: nat) {
    ghost predicate Shaped() {
      |worlds| == |steps| + 1 && worlds[0] == INITIAL
    }

    ghost predicate Follows(i: nat)
      requires Shaped() && i < |steps|
    {
      Enabled(worlds[i], steps[i]) && worlds[i + 1] == Next(worlds[i], steps[i], ttl)
    }

    ghost predicate Valid() {
      Shaped() && forall i: nat | i < |steps| :: Follows(i)
    }

    /** The run continued by one step. */
    ghost function Then(step: Step): Trace
      requires Shaped()
    {
      Trace(worlds + [Next(worlds[|steps|], step, ttl)], steps + [step], ttl)
    }

    lemma ThenIsValid(step: Step)
      requires Valid() && Enabled(worlds[|steps|], step)
      ensures Then(step).Valid()
    {
      hide Next, Enabled;
      forall i: nat | i < |steps| + 1 ensures Then(step).Follows(i) {
        assert i < |steps| ==> Follows(i);
      }
    }
  }

  /** Some run ends in this world. */
  ghost predicate Reachable(w: World, ttl: nat) {
    exists t: Trace :: t.Valid() && t.ttl == ttl && t.worlds[|t.steps|] == w
  }

  lemma InitialIsReachable(ttl: nat)
    ensures Reachable(INITIAL, ttl)
  {
    assert Trace([INITIAL], [], ttl).Valid();
  }

  lemma NextIsReachable(w: World, step: Step, ttl: nat)
    requires Reachable(w, ttl) && Enabled(w, step)
    ensures Reachable(Next(w, step, ttl), ttl)
  {
    var t: Trace :| t.Valid() && t.ttl == ttl && t.worlds[|t.steps|] == w;
    t.ThenIsValid(step);
    assert t.Then(step).worlds[|t.steps| + 1] == Next(w, step, ttl);
  }

  /** Redis and the random source work, and these sessions are connected. */
  function UpAt(now: nat, live: map<SessionId, UserId>): Env {
    Env(now, true, true, live, {}, 15)
  }

  /** A user asks for a channel and LiveKit reports their arrival. */
  function Entered(w: World, ev: Hook, env: Env): World {
    Joined(Asked(w, ev.user, ev.channel, ev.session, ev.nonce, false, false, true, Some(true), env), ev, env)
  }

  lemma EnteredIs(w: World, ev: Hook, env: Env, ttl: nat)
    requires Reachable(w, ttl) && env.redisUp && env.randOk && ev.nonce != ""
    requires ev.user in w.seats ==> w.seats[ev.user].channel == ev.channel
    ensures Reachable(Entered(w, ev, env), ttl)
    ensures Entered(w, ev, env).seats == w.seats[ev.user := Seat(ev.channel, ev.session, false, false)]
    ensures Entered(w, ev, env).intents == w.intents - {ev.user}
    ensures Entered(w, ev, env).evidence
            == E.WithoutUser(E.WithoutChannel(w.evidence, ev.channel), ev.channel, ev.user)
  {
    hide Reachable, Resynced, Acquired;
    AcquiredGivesKey(w.vault, w.seats, ev.channel, ev.user, env, Some(true));
    NextIsReachable(w, Ask(ev.user, ev.channel, ev.session, ev.nonce, false, false, true, Some(true), env), ttl);
    var w1 := Asked(w, ev.user, ev.channel, ev.session, ev.nonce, false, false, true, Some(true), env);
    var intent := Intent(ev.session, ev.nonce, ev.channel, None, false, false, false, false);
    assert w1.intents == w.intents[ev.user := intent];
    NextIsReachable(w1, Webhook(JoinedEvent, ev, env), ttl);
  }
}
