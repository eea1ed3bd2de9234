/**
 Voice membership: the two mutually inverse maps of VoiceSessionManager, and the flat
 user-to-seat view that every other voice component reasons about.
 */
module VoiceSessions {
  import opened Domain

  datatype ParticipantState = ParticipantState(muted: bool, deafened: bool)
  datatype UserVoiceState = UserVoiceState(channel: ChannelId, owner: SessionId)

  type ChannelMap = map<ChannelId, map<UserId, ParticipantState>>
  type UserMap = map<UserId, UserVoiceState>

  // ---------------------------------------------------------------------------
  // Flat view: one seat per user.
  // ---------------------------------------------------------------------------

  datatype Seat = Seat(channel: ChannelId, owner: SessionId, muted: bool, deafened: bool)
  type Seats = map<UserId, Seat>

  predicate In(seats: Seats, u: UserId, c: ChannelId) {
    u in seats && seats[u].channel == c
  }

  predicate Vacant(seats: Seats, c: ChannelId) {
    forall u | u in seats :: !In(seats, u, c)
  }

  function Members(seats: Seats, c: ChannelId): set<UserId> {
    set u | u in seats && In(seats, u, c)
  }

  /** Mute and deafen survive only when the same app session joins again. */
  function Seated(seats: Seats, c: ChannelId, u: UserId, s: SessionId): Seats {
    seats[u := if u in seats && seats[u].owner == s
               then Seat(c, s, seats[u].muted, seats[u].deafened)
               else Seat(c, s, false, false)]
  }

  function Unseated(seats: Seats, c: ChannelId, u: UserId): Seats {
    if In(seats, u, c) then seats - {u} else seats
  }

  /** What set_deafened followed by the conditional set_muted leaves behind. */
  function WithAudio(seats: Seats, u: UserId, muted: bool, deafened: bool): Seats {
    if u in seats then seats[u := seats[u].(muted := muted || deafened, deafened := deafened)] else seats
  }

  function WithOwner(seats: Seats, u: UserId, expected: SessionId, next: SessionId): Seats {
    if u in seats && seats[u].owner == expected then seats[u := seats[u].(owner := next)] else seats
  }

  function WithoutChannel(seats: Seats, c: ChannelId): Seats {
    map u | u in seats && seats[u].channel != c :: seats[u]
  }

  ghost predicate DeafenedImpliesMuted(seats: Seats) {
    forall u | u in seats :: seats[u].deafened ==> seats[u].muted
  }

  // ---------------------------------------------------------------------------
  // The stored representation and its relation to the flat view.
  // ---------------------------------------------------------------------------

  predicate Listed(channels: ChannelMap, c: ChannelId, u: UserId) {
    c in channels && u in channels[c]
  }

  ghost predicate Occupied(participants: map<UserId, ParticipantState>) {
    exists u :: u in participants
  }

  /** The two maps are inverses of each other and no channel entry is empty. */
  ghost predicate Consistent(channels: ChannelMap, users: UserMap) {
    && (forall u | u in users :: Listed(channels, users[u].channel, u))
    && (forall c, u | Listed(channels, c, u) :: u in users && users[u].channel == c)
    && (forall c | c in channels :: Occupied(channels[c]))
  }

  ghost function SeatOf(channels: ChannelMap, users: UserMap, u: UserId): Seat
    requires u in users && Listed(channels, users[u].channel, u)
  {
    var p := channels[users[u].channel][u];
    Seat(users[u].channel, users[u].owner, p.muted, p.deafened)
  }

  ghost function Flat(channels: ChannelMap, users: UserMap): Seats
    requires Consistent(channels, users)
  {
    map u | u in users :: SeatOf(channels, users, u)
  }

  /** Nothing is lost in the flat view: it determines both maps. */
  lemma FlatIsFaithful(ch1: ChannelMap, us1: UserMap, ch2: ChannelMap, us2: UserMap)
    requires Consistent(ch1, us1) && Consistent(ch2, us2)
    requires Flat(ch1, us1) == Flat(ch2, us2)
    ensures us1 == us2 && ch1 == ch2
  {
    var f := Flat(ch1, us1);
    assert us1.Keys == f.Keys == us2.Keys;
    forall u | u in us1 ensures us1[u] == us2[u] {
      assert f[u] == SeatOf(ch1, us1, u) == SeatOf(ch2, us2, u);
    }
    assert us1 == us2;
    SameChannels(ch1, us1, ch2, us2);
    SameChannels(ch2, us2, ch1, us1);
    assert ch1.Keys == ch2.Keys;
  }

  lemma SameChannels(ch1: ChannelMap, us1: UserMap, ch2: ChannelMap, us2: UserMap)
    requires Consistent(ch1, us1) && Consistent(ch2, us2)
    requires us1 == us2 && Flat(ch1, us1) == Flat(ch2, us2)
    ensures forall c | c in ch1 :: c in ch2 && ch1[c] == ch2[c]
  {
    forall c | c in ch1 ensures c in ch2 && ch1[c] == ch2[c] {
      var v :| v in ch1[c];
      assert Listed(ch1, c, v) && Listed(ch2, c, v);
      forall u ensures u in ch1[c] <==> u in ch2[c] {
        assert Listed(ch1, c, u) <==> u in us1 && us1[u].channel == c;
        assert Listed(ch2, c, u) <==> u in us2 && us2[u].channel == c;
      }
      assert ch1[c].Keys == ch2[c].Keys;
      forall u | u in ch1[c] ensures ch1[c][u] == ch2[c][u] {
        assert Listed(ch1, c, u);
        assert Flat(ch1, us1)[u] == SeatOf(ch1, us1, u) == SeatOf(ch2, us2, u);
      }
    }
  }

  /** A channel has an entry exactly when someone is seated in it. */
  lemma EntryIffOccupied(channels: ChannelMap, users: UserMap, c: ChannelId)
    requires Consistent(channels, users)
    ensures c in channels <==> !Vacant(Flat(channels, users), c)
    ensures c in channels ==> channels[c].Keys == Members(Flat(channels, users), c)
  {
    var f := Flat(channels, users);
    if c in channels {
      var u :| u in channels[c];
      assert Listed(channels, c, u) && In(f, u, c);
      forall v ensures v in channels[c].Keys <==> v in Members(f, c) {
        assert Listed(channels, c, v) <==> v in users && users[v].channel == c;
      }
    } else {
      forall u | u in f ensures !In(f, u, c) {
        assert Listed(channels, users[u].channel, u);
      }
    }
  }

  ghost function TotalSeats(channels: ChannelMap): nat {
    if channels == map[] then 0
    else
      var c :| c in channels;
      |channels[c]| + TotalSeats(channels - {c})
  }

  lemma DropSize<K, V>(m: map<K, V>, gone: set<K>)
    requires gone <= m.Keys
    ensures |m - gone| + |gone| == |m|
  {
  }

  /** The active-user counter is the sum of the channel sizes. */
  lemma {:induction false} ActiveCountIsSumOfChannels(channels: ChannelMap, users: UserMap)
    requires Consistent(channels, users)
    ensures |users| == TotalSeats(channels)
    decreases |channels|
  {
    if channels == map[] {
      assert users == map[];
    } else {
      var c :| c in channels && TotalSeats(channels) == |channels[c]| + TotalSeats(channels - {c});
      var here := channels[c].Keys;
      forall u | u in here ensures u in users {
        assert Listed(channels, c, u);
      }
      DroppedChannelKeeps(channels, users, c);
      DropSize(channels, {c});
      DropSize(users, here);
      ActiveCountIsSumOfChannels(channels - {c}, users - here);
    }
  }

  // ---------------------------------------------------------------------------
  // How the stored maps change, and what that means for the flat view.
  // ---------------------------------------------------------------------------

  function Removed(channels: ChannelMap, c: ChannelId, u: UserId): ChannelMap
    requires c in channels
  {
    var rest := channels[c] - {u};
    if rest.Keys == {} then channels - {c} else channels[c := rest]
  }

  function Placed(channels: ChannelMap, c: ChannelId, u: UserId, p: ParticipantState): ChannelMap {
    channels[c := (if c in channels then channels[c] else map[])[u := p]]
  }

  lemma RemovedKeeps(channels: ChannelMap, users: UserMap, u: UserId)
    requires Consistent(channels, users) && u in users
    ensures var c := users[u].channel; Listed(channels, c, u) && Consistent(Removed(channels, c, u), users - {u})
    ensures Flat(Removed(channels, users[u].channel, u), users - {u}) == Flat(channels, users) - {u}
  {
    var c := users[u].channel;
    var ch, us := Removed(channels, c, u), users - {u};
    forall d, v ensures Listed(ch, d, v) <==> Listed(channels, d, v) && v != u {
      assert Listed(channels, d, u) ==> d == c;
      if d == c && Listed(channels, d, v) && v != u {
        assert v in (channels[c] - {u}).Keys;
      }
    }
    forall d | d in ch ensures Occupied(ch[d]) {
      if d == c {
        var v :| v in (channels[c] - {u}).Keys;
        assert v in ch[c];
      } else {
        assert Occupied(channels[d]);
      }
    }
    assert Consistent(ch, us);
    forall v | v in us ensures SeatOf(ch, us, v) == SeatOf(channels, users, v) {}
  }

  lemma PlacedKeeps(channels: ChannelMap, users: UserMap, c: ChannelId, u: UserId, s: SessionId, p: ParticipantState)
    requires Consistent(channels, users)
    requires u in users ==> users[u].channel == c
    ensures Consistent(Placed(channels, c, u, p), users[u := UserVoiceState(c, s)])
    ensures Flat(Placed(channels, c, u, p), users[u := UserVoiceState(c, s)])
            == Flat(channels, users)[u := Seat(c, s, p.muted, p.deafened)]
  {
    var ch, us := Placed(channels, c, u, p), users[u := UserVoiceState(c, s)];
    forall d, v ensures Listed(ch, d, v) <==> Listed(channels, d, v) || (d == c && v == u) {}
    forall d | d in ch ensures Occupied(ch[d]) {
      if d == c {
        assert u in ch[c];
      } else {
        assert Occupied(channels[d]);
      }
    }
    assert Consistent(ch, us);
    forall v | v in us
      ensures SeatOf(ch, us, v) == if v == u then Seat(c, s, p.muted, p.deafened) else SeatOf(channels, users, v)
    {}
  }

  lemma DroppedChannelKeeps(channels: ChannelMap, users: UserMap, c: ChannelId)
    requires Consistent(channels, users) && c in channels
    ensures Consistent(channels - {c}, users - channels[c].Keys)
    ensures Flat(channels - {c}, users - channels[c].Keys) == WithoutChannel(Flat(channels, users), c)
  {
    var ch, us := channels - {c}, users - channels[c].Keys;
    forall d, v ensures Listed(ch, d, v) <==> Listed(channels, d, v) && d != c {}
    forall v ensures v in us <==> v in users && users[v].channel != c {
      assert v in channels[c] <==> Listed(channels, c, v);
    }
    assert Consistent(ch, us);
    forall v | v in us ensures SeatOf(ch, us, v) == SeatOf(channels, users, v) {}
  }

  // ---------------------------------------------------------------------------
  // The manager itself.
  // ---------------------------------------------------------------------------

  class VoiceSessionManager {
    var channels: ChannelMap
    var users: UserMap

    ghost predicate Valid()
      reads this
    {
      Consistent(channels, users)
    }

    ghost function Seats(): Seats
      reads this
      requires Valid()
    {
      Flat(channels, users)
    }

    constructor ()
      ensures Valid() && Seats() == map[]
    {
      channels, users := map[], map[];
    }

    method UserChannel(user: UserId) returns (channel: Option<ChannelId>)
      requires Valid()
      ensures channel == if user in Seats() then Some(Seats()[user].channel) else None
    {
      channel := if user in users then Some(users[user].channel) else None;
    }

    method UserSession(user: UserId) returns (session: Option<SessionId>)
      requires Valid()
      ensures session == if user in Seats() then Some(Seats()[user].owner) else None
    {
      session := if user in users then Some(users[user].owner) else None;
    }

    method IsEmpty(channel: ChannelId) returns (empty: bool)
      requires Valid()
      ensures empty <==> Vacant(Seats(), channel)
    {
      EntryIffOccupied(channels, users, channel);
      empty := channel !in channels;
    }

    method UsersInChannel(channel: ChannelId) returns (members: set<UserId>)
      requires Valid()
      ensures members == Members(Seats(), channel)
    {
      EntryIffOccupied(channels, users, channel);
      members := if channel in channels then channels[channel].Keys else {};
      assert channel !in channels ==> Members(Seats(), channel) == {};
    }

    /** Takes the user out of the channel they are in, dropping the channel entry if it empties. */
    method Erase(user: UserId)
      requires Valid() && user in users
      modifies this
      ensures Valid() && user !in users
      ensures Seats() == old(Seats()) - {user}
    {
      RemovedKeeps(channels, users, user);
      channels := Removed(channels, users[user].channel, user);
      users := users - {user};
    }

    /** Adds an absent user to a channel; returns true when the channel had no entry. */
    method Place(channel: ChannelId, user: UserId, session: SessionId, state: ParticipantState) returns (first: bool)
      requires Valid() && user !in users
      modifies this
      ensures Valid()
      ensures Seats() == old(Seats())[user := Seat(channel, session, state.muted, state.deafened)]
      ensures first <==> Vacant(old(Seats()), channel)
    {
      EntryIffOccupied(channels, users, channel);
      first := channel !in channels;
      PlacedKeeps(channels, users, channel, user, session, state);
      channels := Placed(channels, channel, user, state);
      users := users[user := UserVoiceState(channel, session)];
    }

    /** Returns true when nobody else is in the channel. */
    method Join(channel: ChannelId, user: UserId, session: SessionId) returns (first: bool)
      requires Valid()
      modifies this
      ensures Valid()
      ensures Seats() == Seated(old(Seats()), channel, user, session)
      ensures first <==> Vacant(old(Seats()) - {user}, channel)
    {
      ghost var before := Seats();
      var carry := ParticipantState(false, false);
      if user in users {
        if users[user].owner == session {
          carry := channels[users[user].channel][user];
          assert before[user] == SeatOf(channels, users, user);
        }
        Erase(user);
      }
      assert Seats() == before - {user};
      first := Place(channel, user, session, carry);
      assert Seats() == before[user := Seat(channel, session, carry.muted, carry.deafened)];
    }

    /** Returns true exactly when this call removed the last member of the channel. */
    method Leave(channel: ChannelId, user: UserId) returns (becameEmpty: bool)
      requires Valid()
      modifies this
      ensures Valid()
      ensures Seats() == Unseated(old(Seats()), channel, user)
      ensures becameEmpty <==> In(old(Seats()), user, channel) && Vacant(Seats(), channel)
    {
      if user in users {
        if users[user].channel != channel {
          return false;
        }
        Erase(user);
        EntryIffOccupied(channels, users, channel);
        return channel !in channels;
      }
      // An unknown user is not listed in any channel, so there is nothing to erase.
      return false;
    }

    /** Removes the user from whatever channel they are in, if the session owns their voice. */
    method LeaveIfOwner(user: UserId, expected: SessionId) returns (removed: bool, from: Option<ChannelId>,
                        becameEmpty: bool)
      requires Valid()
      modifies this
      ensures Valid()
      ensures removed <==> user in old(Seats()) && old(Seats())[user].owner == expected
      ensures Seats() == if removed then old(Seats()) - {user} else old(Seats())
      ensures removed ==> from == Some(old(Seats())[user].channel)
      ensures removed ==> (becameEmpty <==> Vacant(Seats(), from.value))
    {
      if user !in users || users[user].owner != expected {
        return false, None, false;
      }
      removed := true;
      from := Some(users[user].channel);
      becameEmpty := Leave(users[user].channel, user);
    }

    method SetMuted(user: UserId, muted: bool) returns (changed: bool)
      requires Valid()
      modifies this
      ensures Valid()
      ensures var before := old(Seats());
              if user in before
              then && Seats() == before[user := before[user].(muted := muted)]
                   && (changed <==> before[user].muted != muted)
              else Seats() == before && !changed
    {
      if user !in users {
        return false;
      }
      var c := users[user].channel;
      var p := channels[c][user];
      changed := p.muted != muted;
      if changed {
        PlacedKeeps(channels, users, c, user, users[user].owner, p.(muted := muted));
        channels := Placed(channels, c, user, p.(muted := muted));
        users := users[user := UserVoiceState(c, users[user].owner)];
      } else {
        assert SeatOf(channels, users, user).muted == muted;
      }
    }

    /** Deafening also mutes; undeafening also unmutes. */
    method SetDeafened(user: UserId, deafened: bool) returns (changed: bool)
      requires Valid()
      modifies this
      ensures Valid()
      ensures Seats() == WithAudio(old(Seats()), user, false, deafened)
      ensures changed <==> Seats() != old(Seats())
    {
      ghost var before := Seats();
      if user !in users {
        return false;
      }
      var c := users[user].channel;
      var p := channels[c][user];
      changed := false;
      if p.deafened != deafened {
        p := p.(deafened := deafened);
        changed := true;
      }
      var desiredMuted := deafened;
      if p.muted != desiredMuted {
        p := p.(muted := desiredMuted);
        changed := true;
      }
      assert before[user] == SeatOf(channels, users, user);
      PlacedKeeps(channels, users, c, user, users[user].owner, p);
      channels := Placed(channels, c, user, p);
      users := users[user := UserVoiceState(c, users[user].owner)];
      assert changed <==> before[user] != Seats()[user];
      assert !changed ==> Seats() == before;
    }

    method TransferOwnerSession(user: UserId, expected: SessionId, next: SessionId) returns (ok: bool)
      requires Valid()
      modifies this
      ensures Valid()
      ensures Seats() == WithOwner(old(Seats()), user, expected, next)
      ensures ok <==> user in old(Seats()) && old(Seats())[user].owner == expected
    {
      if user !in users || users[user].owner != expected {
        return false;
      }
      users := users[user := users[user].(owner := next)];
      ok := true;
    }

    /** Removes every participant of the channel and reports exactly who was removed. */
    method ClearChannel(channel: ChannelId) returns (removed: set<UserId>)
      requires Valid()
      modifies this
      ensures Valid()
      ensures Seats() == WithoutChannel(old(Seats()), channel)
      ensures removed == Members(old(Seats()), channel)
    {
      ghost var before := Seats();
      EntryIffOccupied(channels, users, channel);
      removed := {};
      if channel !in channels {
        return;
      }
      DroppedChannelKeeps(channels, users, channel);
      var todo := channels[channel].Keys;
      while todo != {}
        invariant channels == old(channels)
        invariant removed + todo == channels[channel].Keys
        invariant users == old(users) - removed
        decreases todo
      {
        var user :| user in todo;
        todo := todo - {user};
        removed := removed + {user};
        assert Listed(channels, channel, user);
        if user in users && users[user].channel == channel {
          users := users - {user};
        }
      }
      channels := channels - {channel};
    }

    /** The mute/deafen command: two locked updates with a re-read in between. */
    method ApplyVoiceActivity(user: UserId, channel: ChannelId, requester: SessionId, isMuted: bool, isDeafened: bool)
      returns (changed: bool)
      requires Valid()
      modifies this
      ensures Valid()
      ensures var before := old(Seats());
              var accepted := In(before, user, channel) && before[user].owner == requester;
              && Seats() == (if accepted then WithAudio(before, user, isMuted, isDeafened) else before)
              && (changed <==> Seats() != before)
    {
      if user !in users || users[user].owner != requester || users[user].channel != channel {
        return false;
      }
      var current := channels[channel][user];
      var desiredDeafened := isDeafened;
      var desiredMuted := isMuted || desiredDeafened;
      changed := MoveAudioTo(user, current, desiredMuted, desiredDeafened);
    }

    /** Deafen first, then read the state again and mute, touching only what differs. */
    method MoveAudioTo(user: UserId, current: ParticipantState, desiredMuted: bool, desiredDeafened: bool)
      returns (changed: bool)
      requires Valid() && user in Seats() && (desiredDeafened ==> desiredMuted)
      requires current == ParticipantState(Seats()[user].muted, Seats()[user].deafened)
      modifies this
      ensures Valid()
      ensures Seats() == WithAudio(old(Seats()), user, desiredMuted, desiredDeafened)
      ensures changed <==> Seats() != old(Seats())
    {
      hide Consistent, Flat;
      ghost var before := Seats();
      if current.muted == desiredMuted && current.deafened == desiredDeafened {
        assert Seats() == WithAudio(before, user, desiredMuted, desiredDeafened);
        return false;
      }
      changed := false;
      if current.deafened != desiredDeafened {
        changed := SetDeafened(user, desiredDeafened);
      }
      var muted := IsMuted(user);
      if muted != desiredMuted {
        var c := SetMuted(user, desiredMuted);
        changed := c || changed;
      }
      assert before[user] != Seats()[user];
    }

    method IsMuted(user: UserId) returns (muted: bool)
      requires Valid() && user in Seats()
      ensures muted == Seats()[user].muted
    {
      muted := channels[users[user].channel][user].muted;
    }
  }
}
