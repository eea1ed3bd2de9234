/**
 ReconcileEvidenceTracker: when a room or a participant was first seen missing remotely, and
 whether the absence has lasted for the whole grace period.
 */
module Evidence {
  import opened Domain

  /** First time each channel, and each participant of a channel, was seen missing. */
  datatype Evidence = Evidence(channels: map<ChannelId, nat>, users: map<(ChannelId, UserId), nat>)

  const NO_EVIDENCE := Evidence(map[], map[])

  function WithoutChannel(e: Evidence, c: ChannelId): Evidence {
    e.(channels := e.channels - {c})
  }

  function WithoutUser(e: Evidence, c: ChannelId, u: UserId): Evidence {
    e.(users := e.users - {(c, u)})
  }

  function Reset(e: Evidence, c: ChannelId): Evidence {
    Evidence(e.channels - {c}, map p | p in e.users && p.0 != c :: e.users[p])
  }

  /** The absence was recorded at least the grace period ago. */
  predicate ChannelConfirmed(e: Evidence, c: ChannelId, now: nat, ttl: nat) {
    c in e.channels && now >= e.channels[c] + ttl
  }

  predicate UserConfirmed(e: Evidence, c: ChannelId, u: UserId, now: nat, ttl: nat) {
    (c, u) in e.users && now >= e.users[(c, u)] + ttl
  }

  function ChannelObserved(e: Evidence, c: ChannelId, now: nat, ttl: nat): Evidence {
    if c !in e.channels then e.(channels := e.channels[c := now])
    else if ChannelConfirmed(e, c, now, ttl) then Reset(e, c)
    else e
  }

  function UserObserved(e: Evidence, c: ChannelId, u: UserId, now: nat, ttl: nat): Evidence {
    if (c, u) !in e.users then e.(users := e.users[(c, u) := now])
    else if UserConfirmed(e, c, u, now, ttl) then WithoutUser(e, c, u)
    else e
  }

  type ByChannel = map<ChannelId, map<UserId, nat>>

  predicate Noted(m: ByChannel, c: ChannelId, u: UserId) {
    c in m && u in m[c]
  }

  /** The nested table lists exactly the recorded pairs, and keeps no empty row. */
  ghost predicate Tabulates(m: ByChannel, users: map<(ChannelId, UserId), nat>) {
    && (forall c, u :: Noted(m, c, u) <==> (c, u) in users)
    && (forall c, u | Noted(m, c, u) :: m[c][u] == users[(c, u)])
    && (forall c | c in m :: exists u :: u in m[c])
  }

  class ReconcileEvidenceTracker {
    const missingTtl: nat
    var missingChannels: map<ChannelId, nat>
    var missingParticipants: ByChannel
    ghost var pairs: map<(ChannelId, UserId), nat>

    ghost predicate Valid()
      reads this
    {
      Tabulates(missingParticipants, pairs)
    }

    ghost function View(): Evidence
      reads this
    {
      Evidence(missingChannels, pairs)
    }

    constructor (ttl: nat)
      ensures Valid() && View() == NO_EVIDENCE && missingTtl == ttl
    {
      missingTtl, missingChannels, missingParticipants := ttl, map[], map[];
      pairs := map[];
    }

    method ObserveChannelMissing(channel: ChannelId, now: nat) returns (confirmed: bool)
      requires Valid()
      modifies this
      ensures Valid()
      ensures View() == ChannelObserved(old(View()), channel, now, missingTtl)
      ensures confirmed <==> ChannelConfirmed(old(View()), channel, now, missingTtl)
    {
      if channel !in missingChannels {
        missingChannels := missingChannels[channel := now];
        return false;
      }
      confirmed := now >= missingChannels[channel] + missingTtl;
      if confirmed {
        ResetChannel(channel);
      }
    }

    method ObserveParticipantMissing(channel: ChannelId, user: UserId, now: nat) returns (confirmed: bool)
      requires Valid()
      modifies this
      ensures Valid()
      ensures View() == UserObserved(old(View()), channel, user, now, missingTtl)
      ensures confirmed <==> UserConfirmed(old(View()), channel, user, now, missingTtl)
    {
      assert Noted(missingParticipants, channel, user) <==> (channel, user) in pairs;
      var byUser: map<UserId, nat> := if channel in missingParticipants then missingParticipants[channel] else map[];
      if user !in byUser {
        missingParticipants := missingParticipants[channel := byUser[user := now]];
        pairs := pairs[(channel, user) := now];
        assert user in missingParticipants[channel];
        return false;
      }
      confirmed := now >= byUser[user] + missingTtl;
      if confirmed {
        ClearParticipantMissing(channel, user);
      }
    }

    method ClearChannelMissing(channel: ChannelId)
      requires Valid()
      modifies this
      ensures Valid() && View() == WithoutChannel(old(View()), channel)
    {
      missingChannels := missingChannels - {channel};
    }

    method ClearParticipantMissing(channel: ChannelId, user: UserId)
      requires Valid()
      modifies this
      ensures Valid() && View() == WithoutUser(old(View()), channel, user)
    {
      if channel !in missingParticipants {
        assert !Noted(missingParticipants, channel, user);
        return;
      }
      var byUser := missingParticipants[channel] - {user};
      pairs := pairs - {(channel, user)};
      missingParticipants :=
        if byUser.Keys == {} then missingParticipants - {channel} else missingParticipants[channel := byUser];
      assert forall u :: u in old(missingParticipants)[channel] && u != user ==> u in byUser.Keys;
    }

    method ResetChannel(channel: ChannelId)
      requires Valid()
      modifies this
      ensures Valid() && View() == Reset(old(View()), channel)
    {
      missingChannels := missingChannels - {channel};
      missingParticipants := missingParticipants - {channel};
      pairs := Reset(View(), channel).users;
    }
  }
}
