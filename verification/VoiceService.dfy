/**
 VoiceService itself: the webhook handlers, the reconciler's actions and the voice commands as
 they update the session manager, the key service, the evidence tracker and the service's own
 fields, each proved to compute the corresponding function of VoiceWorld.
 */
module VoiceServices {
  import opened Domain
  import opened VoiceSessions
  import opened ChannelKeys
  import opened VoiceWorld
  import E = Evidence
  import VoiceRuns

  class VoiceService {
    const sessions: VoiceSessionManager
    const keys: ChannelKeyService
    const tracker: E.ReconcileEvidenceTracker
    var intents: map<UserId, Intent>
    var started: map<ChannelId, nat>
    var requests: set<ChannelId>
    var lastEvent: map<UserId, nat>
    var seenIds: set<string>

    ghost predicate Valid()
      reads this, sessions, tracker
    {
      sessions.Valid() && tracker.Valid() && keys.sessions == sessions
    }

    ghost function State(): World
      reads this, sessions, keys, keys.e2ee, tracker
      requires Valid()
    {
      World(sessions.Seats(), intents, started, keys.View(), tracker.View(), requests)
    }

    ghost function Mail(): Inbox
      reads this
    {
      Inbox(lastEvent, seenIds)
    }

    constructor (ttl: nat)
      ensures Valid() && State() == INITIAL && Mail() == Inbox(map[], {}) && tracker.missingTtl == ttl
      ensures fresh(sessions) && fresh(keys) && fresh(keys.e2ee) && fresh(tracker)
    {
      var s := new VoiceSessionManager();
      sessions := s;
      keys := new ChannelKeyService(s);
      tracker := new E.ReconcileEvidenceTracker(ttl);
      intents, started, requests, lastEvent, seenIds := map[], map[], {}, map[], {};
    }

    method Request(channel: ChannelId)
      requires Valid()
      modifies this`requests
      ensures State() == Requested(old(State()), channel)
    {
      if channel.value != "" {
        requests := requests + {channel};
      }
    }

    /** The intent correlation of a join event: which session it is admitted for, if any. */
    method Correlate(pending: Option<Intent>, ev: Hook, env: Env) returns (admission: Option<Admission>)
      ensures admission == Correlated(pending, ev, env)
    {
      var live := LiveSessions(env, ev.user);
      if pending.Some? {
        var intent := pending.value;
        var correlated := false;
        if ev.channel == intent.to {
          if ev.session != 0 || ev.nonce != "" {
            correlated := ev.session == intent.session && intent.nonce != "" && ev.nonce == intent.nonce;
          } else {
            correlated := live == {intent.session};
          }
        }
        return if correlated then Some(Admission(intent.session, intent.muted, intent.deafened)) else None;
      }
      if ev.session == 0 && ev.nonce == "" && |live| == 1 {
        var s :| s in live;
        assert live == {s} by { Singleton(live, s); }
        return Some(Admission(s, false, false));
      }
      assert forall s :: live != {s} || |live| == 1;
      return None;
    }

    static lemma Singleton(live: set<SessionId>, s: SessionId)
      requires |live| == 1 && s in live
      ensures live == {s}
    {
      assert |live - {s}| == 0;
    }

    /** Seats an admitted user with the audio state of the admission. */
    method Seat(channel: ChannelId, user: UserId, a: Admission) returns (first: bool)
      requires Valid()
      modifies sessions
      ensures Valid()
      ensures sessions.Seats() == SeatedAs(old(sessions.Seats()), channel, user, a)
      ensures first <==> Vacant(old(sessions.Seats()) - {user}, channel)
    {
      hide Consistent, Flat;
      first := sessions.Join(channel, user, a.session);
      var _ := sessions.SetDeafened(user, a.deafened);
      if !a.deafened {
        var _ := sessions.SetMuted(user, a.muted);
      }
    }

    method HandleParticipantJoined(ev: Hook, env: Env)
      requires Valid()
      modifies this, sessions, keys, tracker
      ensures Valid()
      ensures State() == Joined(old(State()), ev, env) && Mail() == old(Mail())
    {
      hide Consistent, Flat, E.Tabulates, Correlated, Admitted, E.WithoutUser, E.WithoutChannel;
      tracker.ClearChannelMissing(ev.channel);
      tracker.ClearParticipantMissing(ev.channel, ev.user);

      var pending := if env.redisUp && ev.user in intents then Some(intents[ev.user]) else None;
      var admission := Correlate(pending, ev, env);
      if admission.None? {
        var currentChannel := sessions.UserChannel(ev.user);
        var currentOwner := sessions.UserSession(ev.user);
        if !(ev.session != 0 && currentChannel == Some(ev.channel) && currentOwner == Some(ev.session)) {
          Request(ev.channel);
        }
        return;
      }

      Admit(ev, admission.value, pending, env);
    }

    /** Seats the admitted user, re-sends them the live key and settles the intent. */
    method Admit(ev: Hook, a: Admission, pending: Option<Intent>, env: Env)
      requires Valid() && pending == Pending(State(), ev.user, env)
      modifies this, sessions, keys
      ensures Valid() && Mail() == old(Mail()) && tracker.View() == old(tracker.View())
      ensures State() == Admitted(old(State()), ev, a, env)
    {
      hide Consistent, Flat, E.Tabulates, SeatedAs, Resynced;
      var first := Seat(ev.channel, ev.user, a);
      if first {
        started := started[ev.channel := if ev.timestampMs > 0 then ev.timestampMs / 1000 else env.now];
      }
      keys.ResyncToUser(ev.user, env);
      if pending.Some? {
        var intent := pending.value;
        if intent.from.Some? && intent.from.value != intent.to && !intent.oldLeaveSeen {
          intents := intents[ev.user := intent.(newJoinSeen := true)];
        } else {
          intents := intents - {ev.user};
        }
      }
    }

    /** Others remain: rotate. Nobody remains: forget the channel's start time and key. */
    method AfterDeparture(channel: ChannelId, isEmpty: bool, env: Env)
      requires Valid() && (isEmpty <==> Vacant(sessions.Seats(), channel))
      modifies this`started, keys, keys.e2ee
      ensures Valid() && State() == Vacated(old(State()), channel, env)
    {
      hide Consistent, Flat, E.Tabulates;
      if isEmpty {
        started := started - {channel};
        keys.ClearChannel(channel, env);
      } else {
        var _ := keys.RotateAndBroadcast(channel, env);
      }
    }

    /** Whether a leave event ends the user's current stay, and whether it is the first half of a switch. */
    method ClassifyLeave(ev: Hook, pending: Option<Intent>) returns (current: bool, forSwitch: bool)
      requires Valid()
      ensures current == LeavingCurrent(sessions.Seats(), pending, ev)
      ensures forSwitch == LeavingForSwitch(pending, ev)
    {
      hide Consistent, Flat, E.Tabulates;
      var currentChannel := sessions.UserChannel(ev.user);
      var currentOwner := sessions.UserSession(ev.user);
      var matchesOwner := ev.session == 0 || currentOwner == Some(ev.session);
      var nonceMismatch := && pending.Some? && pending.value.to == ev.channel && pending.value.nonce != ""
                           && ev.nonce != "" && ev.nonce != pending.value.nonce;
      current := currentChannel == Some(ev.channel) && matchesOwner && !nonceMismatch;
      forSwitch := && pending.Some? && pending.value.from.Some? && pending.value.from.value == ev.channel
                   && pending.value.from.value != pending.value.to;
    }

    /** Takes the user out of the channel if they are in it and settles the channel's key. */
    method Remove(channel: ChannelId, user: UserId, current: bool, env: Env)
      requires Valid()
      requires current ==> In(sessions.Seats(), user, channel)
      modifies this`started, sessions, keys, keys.e2ee, tracker
      ensures Valid()
      ensures State() == Vacated(old(State()).(seats := Unseated(old(State()).seats, channel, user),
                                               evidence := E.WithoutUser(old(State()).evidence, channel, user)),
                                 channel, env)
    {
      hide Consistent, Flat, E.Tabulates, Vacated, Rotated, Cleared;
      tracker.ClearParticipantMissing(channel, user);
      var becameEmpty := sessions.Leave(channel, user);
      if !current {
        becameEmpty := sessions.IsEmpty(channel);
      }
      AfterDeparture(channel, becameEmpty, env);
    }

    method HandleParticipantLeft(ev: Hook, env: Env)
      requires Valid()
      modifies this, sessions, keys, keys.e2ee, tracker
      ensures Valid()
      ensures State() == Left(old(State()), ev, env) && Mail() == old(Mail())
    {
      hide Consistent, Flat, E.Tabulates, LeavingCurrent, Unseated, Rotated, Cleared, E.WithoutUser;
      var pending := if env.redisUp && ev.user in intents then Some(intents[ev.user]) else None;
      var leavingCurrent, oldLeaveForSwitch := ClassifyLeave(ev, pending);
      if !leavingCurrent && !oldLeaveForSwitch {
        Request(ev.channel);
        return;
      }

      assert leavingCurrent ==> In(sessions.Seats(), ev.user, ev.channel) by {
        CurrentIsSeated(sessions.Seats(), pending, ev);
      }
      Remove(ev.channel, ev.user, leavingCurrent, env);
      if oldLeaveForSwitch {
        if pending.value.newJoinSeen {
          intents := intents - {ev.user};
        } else {
          intents := intents[ev.user := pending.value.(oldLeaveSeen := true)];
        }
      }
    }

    static lemma CurrentIsSeated(seats: Seats, pending: Option<Intent>, ev: Hook)
      ensures LeavingCurrent(seats, pending, ev) ==> In(seats, ev.user, ev.channel)
    {}

    /** Records the event's id and time; duplicate and stale say why it would be dropped. */
    method File(ev: Hook, env: Env) returns (duplicate: bool, stale: bool)
      modifies this`lastEvent, this`seenIds
      ensures Mail() == Filed(old(Mail()), ev, env)
      ensures duplicate == Duplicate(old(Mail()), ev, env)
      ensures !duplicate ==> stale == Stale(old(Mail()), ev)
    {
      duplicate, stale := false, false;
      if ev.id != "" && env.redisUp {
        if ev.id in seenIds {
          return true, false;
        }
        seenIds := seenIds + {ev.id};
      }
      if ev.timestampMs != 0 && ev.user.value != "" {
        var last := if ev.user in lastEvent then lastEvent[ev.user] else 0;
        if last != 0 && ev.timestampMs < last {
          return false, true;
        }
        if ev.timestampMs > last {
          lastEvent := lastEvent[ev.user := ev.timestampMs];
        }
      }
    }

    /** on_livekit_event for participant events: drop repeats, then drop events older than the user's latest. */
    method OnParticipantEvent(kind: HookKind, ev: Hook, env: Env)
      requires Valid()
      modifies this, sessions, keys, keys.e2ee, tracker
      ensures Valid()
      ensures State() == Delivered(old(State()), old(Mail()), kind, ev, env) && Mail() == Filed(old(Mail()), ev, env)
    {
      hide Consistent, Flat, E.Tabulates, Joined, Left, Duplicate, Stale, Filed, Requested;
      var duplicate, stale := File(ev, env);
      if duplicate {
        return;
      }
      if stale {
        Request(ev.channel);
      } else if kind.JoinedEvent? {
        HandleParticipantJoined(ev, env);
      } else {
        HandleParticipantLeft(ev, env);
      }
    }

    method ForceLocalLeave(user: UserId, channel: ChannelId, env: Env)
      requires Valid()
      modifies this, sessions, keys, keys.e2ee, tracker
      ensures Valid()
      ensures State() == ForcedLeave(old(State()), channel, user, env) && Mail() == old(Mail())
    {
      hide Consistent, Flat, E.Tabulates, Rotated, Cleared, E.WithoutUser;
      tracker.ClearParticipantMissing(channel, user);
      var becameEmpty := sessions.Leave(channel, user);
      if becameEmpty {
        AfterDeparture(channel, true, env);
      } else {
        var _ := keys.RotateAndBroadcast(channel, env);
      }
    }

    method OnChannelFinish(channel: ChannelId, env: Env)
      requires Valid()
      modifies this, sessions, keys, keys.e2ee, tracker
      ensures Valid()
      ensures State() == Finished(old(State()), channel, env) && Mail() == old(Mail())
    {
      hide Consistent, Flat, E.Tabulates;
      tracker.ResetChannel(channel);
      var _ := sessions.ClearChannel(channel);
      keys.ClearChannel(channel, env);
      started := started - {channel};
    }

    // -------------------------------------------------------------------------
    // One reconcile pass
    // -------------------------------------------------------------------------

    static method IndexByUser(rows: seq<Participant>) returns (remote: map<UserId, Participant>)
      ensures remote == ByUser(rows)
    {
      remote := map[];
      for i := 0 to |rows|
        invariant remote == ByUser(rows[..i])
      {
        assert rows[..i + 1][..i] == rows[..i];
        if rows[i].user.value != "" && rows[i].user !in remote {
          remote := remote[rows[i].user := rows[i]];
        }
      }
      assert rows[..|rows|] == rows;
    }

    method HasActiveOwnerConnection(user: UserId, channel: ChannelId, env: Env) returns (active: bool)
      requires Valid()
      ensures active <==> OwnerLive(sessions.Seats(), user, channel, env)
    {
      hide Consistent, Flat, E.Tabulates;
      var current := sessions.UserChannel(user);
      var owner := sessions.UserSession(user);
      active := current == Some(channel) && owner.Some? && owner.value in env.live;
    }

    method ActiveOwnerConnectionCount(channel: ChannelId, env: Env) returns (count: nat)
      requires Valid()
      ensures count == |Recipients(sessions.Seats(), channel, env)|
    {
      hide Consistent, Flat, E.Tabulates;
      var todo := sessions.UsersInChannel(channel);
      ghost var owners := Recipients(sessions.Seats(), channel, env);
      ghost var counted: set<UserId> := {};
      count := 0;
      while todo != {}
        invariant todo <= Members(sessions.Seats(), channel)
        invariant counted <= owners <= counted + todo && counted !! todo
        invariant count == |counted|
        decreases todo
      {
        var user :| user in todo;
        todo := todo - {user};
        var active := HasActiveOwnerConnection(user, channel, env);
        if active {
          count, counted := count + 1, counted + {user};
        }
      }
      assert counted == owners;
    }

    /** A local participant absent from the remote list: held while connected, removed once confirmed. */
    method CheckMissing(channel: ChannelId, user: UserId, env: Env)
      requires Valid()
      modifies this, sessions, keys, keys.e2ee, tracker
      ensures Valid() && Mail() == old(Mail())
      ensures State() == MissingChecked(old(State()), channel, user, env, tracker.missingTtl)
    {
      hide Consistent, Flat, E.Tabulates, ForcedLeave, OwnerLive, E.WithoutUser, E.UserObserved, E.UserConfirmed;
      var active := HasActiveOwnerConnection(user, channel, env);
      if active {
        tracker.ClearParticipantMissing(channel, user);
        return;
      }
      var confirmed := tracker.ObserveParticipantMissing(channel, user, env.now);
      if confirmed {
        ForceLocalLeave(user, channel, env);
      }
    }

    method CheckAllMissing(channel: ChannelId, absent: set<UserId>, env: Env) returns (ghost missing: seq<UserId>)
      requires Valid()
      modifies this, sessions, keys, keys.e2ee, tracker
      ensures Valid() && Mail() == old(Mail())
      ensures Enumerates(missing, absent)
      ensures State() == AllMissingChecked(old(State()), channel, missing, env, tracker.missingTtl)
    {
      hide Consistent, Flat, E.Tabulates, MissingChecked;
      missing := [];
      var todo := absent;
      while todo != {}
        invariant Valid() && Mail() == old(Mail())
        invariant todo <= absent && Enumerates(missing, absent - todo)
        invariant State() == AllMissingChecked(old(State()), channel, missing, env, tracker.missingTtl)
        decreases todo
      {
        var user :| user in todo;
        todo := todo - {user};
        CheckMissing(channel, user, env);
        ghost var before := missing;
        missing := missing + [user];
        assert missing[..|missing| - 1] == before;
      }
    }

    method AdoptRow(channel: ChannelId, row: Participant, known: bool, env: Env)
      requires Valid()
      modifies this, sessions, keys, tracker
      ensures Valid() && Mail() == old(Mail())
      ensures State() == RowAdopted(old(State()), channel, row, known, env)
    {
      hide Consistent, Flat, E.Tabulates, Joined, E.WithoutUser, LiveSessions;
      tracker.ClearParticipantMissing(channel, row.user);
      if known {
        return;
      }
      var pending := if env.redisUp && row.user in intents then Some(intents[row.user]) else None;
      var trusted := false;
      if pending.Some? && pending.value.to == channel {
        var sessionMatch := row.session != 0 && row.session == pending.value.session;
        var nonceMatch := pending.value.nonce != "" && row.nonce != "" && pending.value.nonce == row.nonce;
        trusted := sessionMatch && nonceMatch;
      } else if row.session != 0 {
        trusted := row.session in LiveSessions(env, row.user);
      }
      if trusted {
        HandleParticipantJoined(Hook("", channel, row.user, row.session, row.nonce, env.now * 1000), env);
      }
    }

    method AdoptAll(channel: ChannelId, remote: set<Participant>, locals: set<UserId>, env: Env)
      returns (ghost rows: seq<Participant>)
      requires Valid()
      modifies this, sessions, keys, tracker
      ensures Valid() && Mail() == old(Mail())
      ensures Enumerates(rows, remote)
      ensures State() == AllAdopted(old(State()), channel, rows, locals, env)
    {
      hide Consistent, Flat, E.Tabulates, RowAdopted;
      rows := [];
      var todo := remote;
      while todo != {}
        invariant Valid() && Mail() == old(Mail())
        invariant todo <= remote && Enumerates(rows, remote - todo)
        invariant State() == AllAdopted(old(State()), channel, rows, locals, env)
        decreases todo
      {
        var row :| row in todo;
        todo := todo - {row};
        AdoptRow(channel, row, row.user in locals, env);
        ghost var before := rows;
        rows := rows + [row];
        assert rows[..|rows| - 1] == before;
      }
    }

    /** The remote room shows nobody we can name. */
    method ReconcileEmpty(channel: ChannelId, unnamed: bool, env: Env)
      requires Valid()
      modifies this, sessions, keys, keys.e2ee, tracker
      ensures Valid() && Mail() == old(Mail())
      ensures State() == EmptyReconciled(old(State()), channel, unnamed, env, tracker.missingTtl)
    {
      hide Consistent, Flat, E.Tabulates, Finished, E.WithoutChannel, E.ChannelObserved, E.ChannelConfirmed;
      var empty := sessions.IsEmpty(channel);
      var owners := ActiveOwnerConnectionCount(channel, env);
      OwnersCounted(sessions.Seats(), channel, env);
      if unnamed || empty || owners > 0 {
        tracker.ClearChannelMissing(channel);
        return;
      }
      var confirmed := tracker.ObserveChannelMissing(channel, env.now);
      if confirmed {
        OnChannelFinish(channel, env);
      }
    }

    static lemma OwnersCounted(seats: Seats, c: ChannelId, env: Env)
      ensures |Recipients(seats, c, env)| == 0 <==> NoLiveOwner(seats, c, env)
    {
      if NoLiveOwner(seats, c, env) {
        assert forall u | u in Recipients(seats, c, env) :: OwnerLive(seats, u, c, env);
      } else {
        var u :| u in seats && OwnerLive(seats, u, c, env);
        assert u in Recipients(seats, c, env);
      }
    }

    method ReconcileChannelState(channel: ChannelId, poll: Option<seq<Participant>>, env: Env)
      returns (ghost order: Order)
      requires Valid()
      modifies this, sessions, keys, keys.e2ee, tracker
      ensures Valid() && Mail() == old(Mail())
      ensures PassOrder(old(State()), channel, poll, order)
      ensures State() == Reconciled(old(State()), channel, poll, order, env, tracker.missingTtl)
    {
      hide Consistent, Flat, E.Tabulates, EmptyReconciled, AllMissingChecked, AllAdopted, E.WithoutChannel, E.Reset;
      order := Order([], []);
      if poll.None? {
        tracker.ResetChannel(channel);
        return;
      }
      var remote := IndexByUser(poll.value);
      if remote == map[] {
        ReconcileEmpty(channel, poll.value != [], env);
        return;
      }
      var locals := sessions.UsersInChannel(channel);
      tracker.ClearChannelMissing(channel);
      ghost var missing := CheckAllMissing(channel, locals - remote.Keys, env);
      ghost var rows := AdoptAll(channel, remote.Values, locals, env);
      order := Order(missing, rows);
    }

    // -------------------------------------------------------------------------
    // Commands
    // -------------------------------------------------------------------------

    /** The join request: revoke the old voice session, acquire the key, stage the intent. */
    method JoinVoiceChannel(user: UserId, channel: ChannelId, session: SessionId, nonce: string, muted: bool,
                            deafened: bool, kickOk: bool, sweep: Option<bool>, env: Env)
      requires Valid()
      modifies this, keys, keys.e2ee, tracker
      ensures Valid() && Mail() == old(Mail())
      ensures State() == Asked(old(State()), user, channel, session, nonce, muted, deafened, kickOk, sweep, env)
    {
      hide Consistent, Flat, E.Tabulates, Acquired, HandedOver, E.WithoutChannel;
      var currentChannel := sessions.UserChannel(user);
      var currentOwner := sessions.UserSession(user);
      if currentChannel.Some? && (currentOwner != Some(session) || currentChannel != Some(channel)) && !kickOk {
        return;
      }
      tracker.ClearChannelMissing(channel);
      var key := keys.AcquireForJoin(channel, user, env, sweep);
      if key.None? || !env.redisUp {
        return;
      }
      var from := if currentChannel.Some? && currentChannel != Some(channel) then currentChannel else None;
      intents := intents[user := Intent(session, nonce, channel, from, muted || deafened, deafened, false, false)];
      keys.HandOver(user, key.value);
    }

    method TryResumeVoiceOwnership(user: UserId, next: SessionId, env: Env)
      requires Valid()
      modifies sessions, keys
      ensures Valid() && Mail() == old(Mail())
      ensures State() == Resumed(old(State()), user, next, env)
    {
      hide Consistent, Flat, E.Tabulates, Resynced;
      var channel := sessions.UserChannel(user);
      var owner := sessions.UserSession(user);
      if channel.None? || channel.value !in env.known || owner.None? || owner == Some(next) {
        return;
      }
      var moved := sessions.TransferOwnerSession(user, owner.value, next);
      if moved {
        keys.ResyncToUser(user, env);
      }
    }

    // -------------------------------------------------------------------------
    // Whole runs of the service
    // -------------------------------------------------------------------------

    /** A finished room is not believed at once: its evidence is reset and a pass requested. */
    method OnRoomFinished(channel: ChannelId, guarded: bool)
      requires Valid()
      modifies this`requests, tracker
      ensures Valid() && Mail() == old(Mail())
      ensures State() == if guarded then old(State())
                         else Requested(old(State()).(evidence := E.Reset(old(State()).evidence, channel)), channel)
    {
      hide Consistent, Flat, E.Tabulates, E.Reset;
      if guarded {
        return;
      }
      tracker.ResetChannel(channel);
      Request(channel);
    }

    method OnSessionDestroyed(user: UserId)
      requires Valid()
      modifies this`requests
      ensures Valid() && Mail() == old(Mail())
      ensures State() == if user in old(State()).seats then Requested(old(State()), old(State()).seats[user].channel)
                         else old(State())
    {
      hide Consistent, Flat, E.Tabulates;
      var channel := sessions.UserChannel(user);
      if channel.Some? {
        Request(channel.value);
      }
    }

    method SetAudio(user: UserId, channel: ChannelId, session: SessionId, muted: bool, deafened: bool)
      requires Valid()
      modifies sessions
      ensures Valid() && Mail() == old(Mail())
      ensures State() == Activity(old(State()), user, channel, session, muted, deafened)
    {
      hide Consistent, Flat, E.Tabulates;
      var _ := sessions.ApplyVoiceActivity(user, channel, session, muted, deafened);
    }

    /** Entries that time out in Redis. */
    method Expire(step: Step)
      requires Valid() && (step.IntentExpired? || step.StoredKeyExpired?)
      modifies this`intents, keys`stored
      ensures Valid() && Mail() == old(Mail())
      ensures State() == Next(old(State()), step, tracker.missingTtl)
    {
      if step.IntentExpired? {
        intents := intents - {step.user};
      } else {
        keys.stored := keys.stored - {step.channel};
      }
    }

    /** Webhooks, commands and passes that touch the voice state; a pass reports the order it visited. */
    method PerformVoice(step: Step) returns (ghost taken: Step)
      requires Valid() && (step.Webhook? || step.Ask? || step.Pass?)
      modifies this, sessions, keys, keys.e2ee, tracker
      ensures Valid() && Enabled(old(State()), taken)
      ensures State() == Next(old(State()), taken, tracker.missingTtl)
      ensures taken == if step.Pass? && taken.Pass? then step.(order := taken.order) else step
    {
      hide Consistent, Flat, E.Tabulates, Handled, Asked, Reconciled, PassOrder;
      taken := step;
      if step.Webhook? {
        if step.kind.JoinedEvent? {
          HandleParticipantJoined(step.hook, step.env);
        } else {
          HandleParticipantLeft(step.hook, step.env);
        }
        HandledIs(old(State()), step.kind, step.hook, step.env);
      } else if step.Ask? {
        JoinVoiceChannel(step.user, step.channel, step.session, step.nonce, step.muted, step.deafened,
                         step.kickOk, step.sweep, step.env);
      } else {
        ghost var order := ReconcileChannelState(step.channel, step.poll, step.env);
        taken := step.(order := order);
      }
    }

    static lemma HandledIs(w: World, kind: HookKind, hook: Hook, env: Env)
      ensures Handled(w, kind, hook, env) == if kind.JoinedEvent? then Joined(w, hook, env) else Left(w, hook, env)
    {
    }

    method Perform(step: Step) returns (ghost taken: Step)
      requires Valid()
      modifies this, sessions, keys, keys.e2ee, tracker
      ensures Valid() && Enabled(old(State()), taken)
      ensures State() == Next(old(State()), taken, tracker.missingTtl)
      ensures taken == if step.Pass? && taken.Pass? then step.(order := taken.order) else step
    {
      hide Consistent, Flat, E.Tabulates, Handled, Asked, Reconciled, PassOrder, Requested, Resumed, Activity;
      taken := step;
      match step
      case WebhookDropped(c) => Request(c);
      case RoomFinished(c, guarded) => OnRoomFinished(c, guarded);
      case Resume(u, session, env) => TryResumeVoiceOwnership(u, session, env);
      case SetAudio(u, c, session, muted, deafened) => SetAudio(u, c, session, muted, deafened);
      case SessionEnded(u) => OnSessionDestroyed(u);
      case IntentExpired(_) => Expire(step);
      case StoredKeyExpired(_) => Expire(step);
      case _ => taken := PerformVoice(step);
    }

    /**
     Whatever calls arrive, in whatever order, the service goes through a run of the world, so
     everything proved about runs holds of it.
     */
    method Run(script: seq<Step>) returns (ghost t: Trace)
      requires Valid() && State() == INITIAL
      modifies this, sessions, keys, keys.e2ee, tracker
      ensures Valid() && t.Valid() && t.ttl == tracker.missingTtl && |t.steps| == |script|
      ensures t.worlds[|script|] == State() && VoiceRuns.Inv(State())
    {
      hide Consistent, Flat, E.Tabulates, Next, VoiceRuns.Inv;
      t := Trace([INITIAL], [], tracker.missingTtl);
      for i := 0 to |script|
        invariant Valid() && t.Valid() && t.ttl == tracker.missingTtl && |t.steps| == i
        invariant t.worlds[i] == State()
      {
        ghost var taken := Perform(script[i]);
        t.ThenIsValid(taken);
        t := t.Then(taken);
      }
      VoiceRuns.ReachableWorldsKeepInv(t, |script|);
    }
  }
}
