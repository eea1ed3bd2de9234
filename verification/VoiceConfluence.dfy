/**
 Late, repeated and reordered webhooks: a channel switch ends in the same state whichever of its
 two webhooks arrives first, and events of superseded sessions do no harm.
 */
module VoiceConfluence {
  import opened Domain
  import opened VoiceSessions
  import opened ChannelKeys
  import opened VoiceWorld
  import K = KeyRing
  import E = Evidence

  // ---------------------------------------------------------------------------
  // Switching channels: the old leave and the new join commute.
  // ---------------------------------------------------------------------------

  /** The user has a freshly staged switch; join and leave are its two webhooks. */
  ghost predicate SwitchStaged(w: World, join: Hook, leave: Hook) {
    && join.user == leave.user && join.user in w.intents
    && var i := w.intents[join.user];
       && IsSwitch(i) && !i.oldLeaveSeen && !i.newJoinSeen
       && join.channel == i.to && leave.channel == i.from.value
       && i.nonce != "" && join.session == i.session && join.nonce == i.nonce
  }

  /** An accepted join request for another channel stages exactly such a switch. */
  lemma AskStagesSwitch(w: World, u: UserId, c: ChannelId, session: SessionId, nonce: string, muted: bool,
                        deafened: bool,
                        sweep: Option<bool>, env: Env, join: Hook, leave: Hook)
    requires u in w.seats && w.seats[u].channel != c && nonce != "" && env.redisUp
    requires Acquired(w.vault, w.seats, c, u, env, sweep).1.Some?
    requires join.user == u && join.channel == c && join.session == session && join.nonce == nonce
    requires leave.user == u && leave.channel == w.seats[u].channel
    ensures SwitchStaged(Asked(w, u, c, session, nonce, muted, deafened, true, sweep, env), join, leave)
  {
  }

  lemma SeatedAsIs(seats: Seats, c: ChannelId, u: UserId, a: Admission)
    ensures SeatedAs(seats, c, u, a) == seats[u := Seat(c, a.session, a.muted || a.deafened, a.deafened)]
  {
  }

  lemma SeatsCommute(seats: Seats, b: ChannelId, a: ChannelId, u: UserId, adm: Admission)
    requires a != b
    ensures SeatedAs(Unseated(seats, a, u), b, u, adm) == SeatedAs(seats, b, u, adm)
    ensures Unseated(SeatedAs(seats, b, u, adm), a, u) == SeatedAs(seats, b, u, adm)
    ensures Vacant(SeatedAs(seats, b, u, adm), a) <==> Vacant(Unseated(seats, a, u), a)
    ensures Vacant(Unseated(seats, a, u) - {u}, b) <==> Vacant(seats - {u}, b)
    ensures forall env :: Recipients(SeatedAs(seats, b, u, adm), a, env) == Recipients(Unseated(seats, a, u), a, env)
  {
    SeatedAsIs(seats, b, u, adm);
    SeatedAsIs(Unseated(seats, a, u), b, u, adm);
    assert Unseated(seats, a, u) - {u} == seats - {u};
    var after := SeatedAs(seats, b, u, adm);
    forall v | v != u ensures In(after, v, a) <==> In(Unseated(seats, a, u), v, a) {}
    assert !In(after, u, a) && !In(Unseated(seats, a, u), u, a);
    forall env ensures Recipients(after, a, env) == Recipients(Unseated(seats, a, u), a, env) {
      forall v ensures v in Recipients(after, a, env) <==> v in Recipients(Unseated(seats, a, u), a, env) {
        assert In(after, v, a) <==> In(Unseated(seats, a, u), v, a);
      }
    }
    assert Vacant(after, a) <==> forall v :: !In(after, v, a);
    assert Vacant(Unseated(seats, a, u), a) <==> forall v :: !In(Unseated(seats, a, u), v, a);
  }

  /** Touching the key of channel a and re-sending the key of channel b do not interfere. */
  lemma RotationCommutes(v: Vault, s1: Seats, s2: Seats, u: UserId, a: ChannelId, envA: Env, envB: Env)
    requires u in s2 && s2[u].channel != a
    requires Recipients(s1, a, envA) == Recipients(s2, a, envA)
    ensures Resynced(Rotated(v, s1, a, envA), s2, u, envB) == Rotated(Resynced(v, s2, u, envB), s2, a, envA)
  {
    hide Recipients, Copies, K.Apply;
    OtherKeyKept(v.ring, a, |v.minted|, s2[u].channel);
    if s2[u].channel in v.ring {
      var copies := Copies(Recipients(s1, a, envA), K.Apply(v.ring, K.Rotate(a, |v.minted|))[a].key);
      UnionSwaps(v.sent, copies, {(u, v.ring[s2[u].channel].key)});
    }
  }

  lemma OtherKeyKept(ring: K.Ring, a: ChannelId, key: nat, b: ChannelId)
    requires a != b
    ensures var r := K.Apply(ring, K.Rotate(a, key));
            a in r && (b in r <==> b in ring) && (b in ring ==> r[b] == ring[b])
  {
  }

  lemma UnionSwaps<T>(x: set<T>, y: set<T>, z: set<T>)
    ensures x + y + z == x + z + y
  {
  }

  lemma ClearingCommutes(v: Vault, s2: Seats, u: UserId, a: ChannelId, envA: Env, envB: Env)
    requires u in s2 && s2[u].channel != a
    ensures Resynced(Cleared(v, a, envA), s2, u, envB) == Cleared(Resynced(v, s2, u, envB), a, envA)
  {
  }

  /** The switch seen from the source channel: its key and start time once the user is gone. */
  function SourceVault(w: World, from: ChannelId, u: UserId, env: Env): Vault {
    var seats := Unseated(w.seats, from, u);
    if Vacant(seats, from) then Cleared(w.vault, from, env) else Rotated(w.vault, seats, from, env)
  }

  /** What a completed switch leaves behind, said without either handler. */
  function Switched(w: World, i: Intent, join: Hook, envJ: Env, envL: Env): World
    requires i.from.Some?
  {
    var u, from := join.user, i.from.value;
    var seats := w.seats[u := Seat(i.to, i.session, i.muted || i.deafened, i.deafened)];
    var ended := if Vacant(Unseated(w.seats, from, u), from) then w.started - {from} else w.started;
    var startedAt := if join.timestampMs > 0 then join.timestampMs / 1000 else envJ.now;
    w.(seats := seats,
       intents := w.intents - {u},
       started := if Vacant(w.seats - {u}, i.to) then ended[i.to := startedAt] else ended,
       vault := Resynced(SourceVault(w, from, u, envL), seats, u, envJ),
       evidence := E.WithoutUser(E.WithoutUser(E.WithoutChannel(w.evidence, i.to), i.to, u), from, u))
  }

  lemma SwitchJoinIs(w: World, join: Hook, env: Env)
    requires env.redisUp && join.user in w.intents
    requires var i := w.intents[join.user];
             join.channel == i.to && i.nonce != "" && join.session == i.session && join.nonce == i.nonce
    ensures var u, i := join.user, w.intents[join.user];
            var seats := w.seats[u := Seat(i.to, i.session, i.muted || i.deafened, i.deafened)];
            Joined(w, join, env) == w.(
              seats := seats,
              intents := IntentsAfterJoin(w, u, env),
              started := StartedBy(w, join, env),
              vault := Resynced(w.vault, seats, u, env),
              evidence := E.WithoutUser(E.WithoutChannel(w.evidence, i.to), i.to, u))
  {
  }

  lemma SwitchLeaveIs(w: World, leave: Hook, env: Env)
    requires LeavingForSwitch(Pending(w, leave.user, env), leave)
    ensures var u, from := leave.user, leave.channel;
            Left(w, leave, env) == w.(
              seats := Unseated(w.seats, from, u),
              intents := IntentsAfterLeave(w, leave, env),
              started := if Vacant(Unseated(w.seats, from, u), from) then w.started - {from} else w.started,
              vault := SourceVault(w, from, u, env),
              evidence := E.WithoutUser(w.evidence, from, u))
  {
  }

  lemma LeaveThenJoin(w: World, join: Hook, leave: Hook, envJ: Env, envL: Env)
    requires envJ.redisUp && envL.redisUp && SwitchStaged(w, join, leave)
    ensures Joined(Left(w, leave, envL), join, envJ) == Switched(w, w.intents[join.user], join, envJ, envL)
  {
    hide Left, Joined, SeatedAs, Rotated, Cleared, Resynced, Vacant, LeavingCurrent, Recipients, In;
    hide Correlated, LiveSessions;
    var u, i := join.user, w.intents[join.user];
    var a, from := Admission(i.session, i.muted, i.deafened), i.from.value;
    SwitchLeaveIs(w, leave, envL);
    var l := Left(w, leave, envL);
    assert l.intents == w.intents[u := i.(oldLeaveSeen := true)];
    SwitchJoinIs(l, join, envJ);
    SeatsCommute(w.seats, i.to, from, u, a);
    var seat := Seat(i.to, i.session, i.muted || i.deafened, i.deafened);
    assert Unseated(w.seats, from, u)[u := seat] == w.seats[u := seat];
    var lj, r := Joined(l, join, envJ), Switched(w, i, join, envJ, envL);
    assert lj.intents == r.intents;
    assert lj.evidence == r.evidence;
  }

  lemma JoinThenLeave(w: World, join: Hook, leave: Hook, envJ: Env, envL: Env)
    requires envJ.redisUp && envL.redisUp && SwitchStaged(w, join, leave)
    ensures Left(Joined(w, join, envJ), leave, envL) == Switched(w, w.intents[join.user], join, envJ, envL)
  {
    hide Left, Joined, SeatedAs, Rotated, Cleared, Resynced, Vacant, LeavingCurrent, Recipients, In;
    hide Correlated, LiveSessions;
    var u, i := join.user, w.intents[join.user];
    var a, from := Admission(i.session, i.muted, i.deafened), i.from.value;
    SwitchJoinIs(w, join, envJ);
    var j := Joined(w, join, envJ);
    assert j.intents == w.intents[u := i.(newJoinSeen := true)];
    SwitchLeaveIs(j, leave, envL);
    SeatsCommute(w.seats, i.to, from, u, a);
    SeatedAsIs(w.seats, i.to, u, a);
    RotationCommutes(w.vault, Unseated(w.seats, from, u), j.seats, u, from, envL, envJ);
    ClearingCommutes(w.vault, j.seats, u, from, envL, envJ);
    var jl, r := Left(j, leave, envL), Switched(w, i, join, envJ, envL);
    assert jl.intents == r.intents;
    assert jl.vault == r.vault;
    assert jl.started == r.started;
  }

  /**
   For every world with a staged switch, delivering the old leave and the correlated join in
   either order ends in the same world: the user sits in the new channel under the intent's
   session with the intent's audio state, the intent is gone, the old channel's start time and
   key are dropped or rotated, and nothing else differs.
   */
  lemma SwitchConfluent(w: World, join: Hook, leave: Hook, envJ: Env, envL: Env)
    requires envJ.redisUp && envL.redisUp && SwitchStaged(w, join, leave)
    ensures Joined(Left(w, leave, envL), join, envJ) == Left(Joined(w, join, envJ), leave, envL)
            == Switched(w, w.intents[join.user], join, envJ, envL)
  {
    LeaveThenJoin(w, join, leave, envJ, envL);
    JoinThenLeave(w, join, leave, envJ, envL);
  }

  // ---------------------------------------------------------------------------
  // The webhook front door.
  // ---------------------------------------------------------------------------

  /** The event is neither a repeat nor older than what the user already had. */
  ghost predicate Fresh(x: Inbox, ev: Hook, env: Env) {
    !Duplicate(x, ev, env) && !Stale(x, ev)
  }

  /** A webhook arrives, or Redis forgets that it has seen an id. */
  datatype Mail = Arrival(kind: HookKind, ev: Hook, env: Env) | IdExpired(id: string)

  const EMPTY_INBOX := Inbox(map[], {})

  /** What the front door remembers after the first n of these events. */
  function InboxAfter(mail: seq<Mail>, n: nat): Inbox
    requires n <= |mail|
  {
    if n == 0 then EMPTY_INBOX
    else
      var x := InboxAfter(mail, n - 1);
      match mail[n - 1]
      case Arrival(_, ev, env) => Filed(x, ev, env)
      case IdExpired(id) => x.(seenIds := x.seenIds - {id})
  }

  /** The id was seen at h, with Redis answering, and was not forgotten before n. */
  ghost predicate SeenSince(mail: seq<Mail>, h: nat, n: nat, id: string)
    requires h < n <= |mail|
  {
    && mail[h].Arrival? && mail[h].env.redisUp && mail[h].ev.id == id
    && forall k: nat | h < k < n :: mail[k] != IdExpired(id)
  }

  /** Redis answers, and knows the id from an earlier arrival. */
  ghost predicate Repeat(mail: seq<Mail>, i: nat)
    requires i < |mail| && mail[i].Arrival?
  {
    mail[i].env.redisUp && mail[i].ev.id != "" && exists h: nat | h < i :: SeenSince(mail, h, i, mail[i].ev.id)
  }

  /** An arrival of the user with a stamp later than t that was no repeat. */
  ghost predicate Newer(mail: seq<Mail>, h: nat, u: UserId, t: nat)
    requires h < |mail|
  {
    mail[h].Arrival? && mail[h].ev.user == u && t < mail[h].ev.timestampMs && !Repeat(mail, h)
  }

  /** A later-stamped webhook of the same user got here first. */
  ghost predicate Overtaken(mail: seq<Mail>, i: nat)
    requires i < |mail| && mail[i].Arrival?
  {
    && mail[i].ev.timestampMs != 0 && mail[i].ev.user.value != ""
    && exists h: nat | h < i :: Newer(mail, h, mail[i].ev.user, mail[i].ev.timestampMs)
  }

  lemma {:induction false} SeenIff(mail: seq<Mail>, n: nat, id: string)
    requires n <= |mail|
    ensures id in InboxAfter(mail, n).seenIds <==> id != "" && exists h: nat | h < n :: SeenSince(mail, h, n, id)
  {
    if n > 0 {
      SeenIff(mail, n - 1, id);
      var m := n - 1;
      forall h: nat | h < m
        ensures SeenSince(mail, h, n, id) <==> SeenSince(mail, h, m, id) && mail[m] != IdExpired(id)
      {
      }
      assert SeenSince(mail, m, n, id) <==> mail[m].Arrival? && mail[m].env.redisUp && mail[m].ev.id == id;
    }
  }

  lemma RepeatIff(mail: seq<Mail>, i: nat)
    requires i < |mail| && mail[i].Arrival?
    ensures Duplicate(InboxAfter(mail, i), mail[i].ev, mail[i].env) <==> Repeat(mail, i)
  {
    hide InboxAfter, SeenSince;
    SeenIff(mail, i, mail[i].ev.id);
  }

  /** A user's last event is the latest stamp among their webhooks that were no repeats. */
  lemma {:induction false} LastEventIff(mail: seq<Mail>, n: nat, u: UserId, t: nat)
    requires n <= |mail| && u.value != ""
    ensures t < LastEvent(InboxAfter(mail, n), u) <==> exists h: nat | h < n :: Newer(mail, h, u, t)
  {
    hide Repeat;
    if n > 0 {
      LastEventIff(mail, n - 1, u, t);
      if mail[n - 1].Arrival? {
        RepeatIff(mail, n - 1);
      }
      assert t < LastEvent(InboxAfter(mail, n), u)
             <==> t < LastEvent(InboxAfter(mail, n - 1), u) || Newer(mail, n - 1, u, t);
    }
  }

  /**
   Over any sequence of arrivals, exactly which webhooks get past the front door: those whose id
   Redis does not know from an earlier arrival, and that no later-stamped one of the same user
   overtook.
   */
  lemma HandledIff(mail: seq<Mail>, i: nat)
    requires i < |mail| && mail[i].Arrival?
    ensures Fresh(InboxAfter(mail, i), mail[i].ev, mail[i].env) <==> !Repeat(mail, i) && !Overtaken(mail, i)
  {
    hide InboxAfter, Repeat, Newer;
    RepeatIff(mail, i);
    if mail[i].ev.user.value != "" {
      LastEventIff(mail, i, mail[i].ev.user, mail[i].ev.timestampMs);
    }
  }

  /**
   So of webhooks that get through, one user's come in order of their stamps, and no id comes
   twice while Redis is up and has not forgotten it.
   */
  lemma HandledInOrder(mail: seq<Mail>, i: nat, j: nat)
    requires i < j < |mail| && mail[i].Arrival? && mail[j].Arrival?
    requires Fresh(InboxAfter(mail, i), mail[i].ev, mail[i].env) && Fresh(InboxAfter(mail, j), mail[j].ev, mail[j].env)
    ensures mail[i].ev.id == mail[j].ev.id != "" && mail[i].env.redisUp && mail[j].env.redisUp
            ==> exists k | i < k < j :: mail[k] == IdExpired(mail[j].ev.id)
    ensures mail[i].ev.user == mail[j].ev.user && mail[j].ev.user.value != "" && mail[j].ev.timestampMs != 0
            ==> mail[i].ev.timestampMs <= mail[j].ev.timestampMs
  {
    hide InboxAfter, Fresh;
    HandledIff(mail, i);
    HandledIff(mail, j);
    assert !SeenSince(mail, i, j, mail[j].ev.id) || !mail[j].env.redisUp || mail[j].ev.id == "";
    assert mail[j].ev.timestampMs != 0 && mail[j].ev.user.value != ""
           ==> !Newer(mail, i, mail[j].ev.user, mail[j].ev.timestampMs);
  }

  /** The front door leads from runs to runs: what holds in every run holds behind it. */
  lemma DeliveryKeepsReachable(w: World, x: Inbox, kind: HookKind, ev: Hook, env: Env, ttl: nat)
    requires Reachable(w, ttl)
    ensures Reachable(Delivered(w, x, kind, ev, env), ttl)
  {
    hide Reachable, Handled;
    if Fresh(x, ev, env) {
      NextIsReachable(w, Webhook(kind, ev, env), ttl);
    } else if Stale(x, ev) {
      NextIsReachable(w, WebhookDropped(ev.channel), ttl);
    }
  }

  // ---------------------------------------------------------------------------
  // The same switch through the webhook front door.
  // ---------------------------------------------------------------------------

  /** Both events of a staged switch are new to the server, with the message store up. */
  ghost predicate SwitchArrives(w: World, x: Inbox, join: Hook, leave: Hook, envJ: Env, envL: Env) {
    && envJ.redisUp && envL.redisUp && SwitchStaged(w, join, leave) && join.user.value != ""
    && Fresh(x, join, envJ) && Fresh(x, leave, envL) && (join.id != leave.id || join.id == "")
  }

  lemma SecondEventStaleIff(x: Inbox, first: Hook, second: Hook, envF: Env, envS: Env)
    requires first.user == second.user && first.user.value != ""
    requires envF.redisUp && envS.redisUp && Fresh(x, first, envF) && Fresh(x, second, envS)
    requires first.id != second.id || first.id == ""
    ensures !Duplicate(Filed(x, first, envF), second, envS)
    ensures Stale(Filed(x, first, envF), second) <==> second.timestampMs != 0 && second.timestampMs < first.timestampMs
  {
  }

  /**
   Through the front door the order matters exactly when both events carry a timestamp and the
   timestamps differ: the older event is then dropped as stale if it arrives second, and the
   intent stays behind. Otherwise both orders complete the switch.
   */
  lemma DeliveredSwitchConfluentIff(w: World, x: Inbox, join: Hook, leave: Hook, envJ: Env, envL: Env)
    requires SwitchArrives(w, x, join, leave, envJ, envL)
    ensures
      var left, joined := Delivered(w, x, LeftEvent, leave, envL), Delivered(w, x, JoinedEvent, join, envJ);
      var leaveFirst := Delivered(left, Filed(x, leave, envL), JoinedEvent, join, envJ);
      var joinFirst := Delivered(joined, Filed(x, join, envJ), LeftEvent, leave, envL);
      && (leaveFirst == joinFirst
          <==> join.timestampMs == 0 || leave.timestampMs == 0 || join.timestampMs == leave.timestampMs)
      && (leave.timestampMs <= join.timestampMs ==> leaveFirst == Switched(w, w.intents[join.user], join, envJ, envL))
      && (join.timestampMs <= leave.timestampMs ==> joinFirst == Switched(w, w.intents[join.user], join, envJ, envL))
  {
    SecondEventStaleIff(x, leave, join, envL, envJ);
    SecondEventStaleIff(x, join, leave, envJ, envL);
    SwitchConfluent(w, join, leave, envJ, envL);
    SwitchLeaveIs(w, leave, envL);
    SwitchJoinIs(w, join, envJ);
    var l, j := Left(w, leave, envL), Joined(w, join, envJ);
    assert join.user in l.intents && join.user in j.intents;
    assert join.user !in Switched(w, w.intents[join.user], join, envJ, envL).intents;
  }

  // A user sits in one channel under session 1 and has a switch to the other staged.
  const USER := UserId("u")
  const HERE := ChannelId("a")
  const THERE := ChannelId("b")
  const CALM := UpAt(100, map[])

  function SwitchAsked(w: World, session: SessionId, nonce: string): World {
    Asked(w, USER, THERE, session, nonce, false, false, true, Some(true), CALM)
  }

  lemma SwitchAskedIs(w: World, session: SessionId, nonce: string, ttl: nat)
    requires Reachable(w, ttl) && In(w.seats, USER, HERE)
    ensures var r := SwitchAsked(w, session, nonce);
            && Reachable(r, ttl) && r.seats == w.seats
            && r.intents == w.intents[USER := Intent(session, nonce, THERE, Some(HERE), false, false, false, false)]
  {
    hide Acquired, Reachable;
    AcquiredGivesKey(w.vault, w.seats, THERE, USER, CALM, Some(true));
    NextIsReachable(w, Ask(USER, THERE, session, nonce, false, false, true, Some(true), CALM), ttl);
  }

  lemma StampedSwitchArrives(w: World, x: Inbox, join: Hook, leave: Hook)
    requires w.intents == map[USER := Intent(1, "n2", THERE, Some(HERE), false, false, false, false)]
    requires x == Inbox(map[USER := 500], {"e0"})
    requires leave == Hook("e1", HERE, USER, 1, "n1", 1000) && join == Hook("e2", THERE, USER, 1, "n2", 2000)
    ensures SwitchArrives(w, x, join, leave, CALM, CALM)
  {
  }

  /** A run to a switch whose two stamped webhooks do not commute at the front door. */
  lemma StampedSwitchCanDiverge()
    ensures exists w, mail, join, leave ::
              var x := InboxAfter(mail, |mail|);
              && Reachable(w, 5) && SwitchArrives(w, x, join, leave, CALM, CALM)
              && Delivered(Delivered(w, x, LeftEvent, leave, CALM), Filed(x, leave, CALM), JoinedEvent, join, CALM)
                 != Delivered(Delivered(w, x, JoinedEvent, join, CALM), Filed(x, join, CALM), LeftEvent, leave, CALM)
  {
    hide Delivered, Entered, SwitchAsked, Reachable, SwitchArrives;
    var first := Hook("e0", HERE, USER, 1, "n1", 500);
    var leave, join := Hook("e1", HERE, USER, 1, "n1", 1000), Hook("e2", THERE, USER, 1, "n2", 2000);
    InitialIsReachable(5);
    EnteredIs(INITIAL, first, CALM, 5);
    SwitchAskedIs(Entered(INITIAL, first, CALM), 1, "n2", 5);
    var w := SwitchAsked(Entered(INITIAL, first, CALM), 1, "n2");
    var mail := [Arrival(JoinedEvent, first, CALM)];
    var x := InboxAfter(mail, 1);
    assert InboxAfter(mail, 0) == EMPTY_INBOX;
    assert x == Inbox(map[USER := 500], {"e0"});
    StampedSwitchArrives(w, x, join, leave);
    DeliveredSwitchConfluentIff(w, x, join, leave, CALM, CALM);
    assert x == InboxAfter(mail, |mail|);
  }

  // ---------------------------------------------------------------------------
  // Late leaves
  // ---------------------------------------------------------------------------

  /** The event names a session that lost the user's voice, or a join that a newer request replaced. */
  predicate Superseded(w: World, ev: Hook, env: Env) {
    && ev.session != 0 && ev.nonce != ""
    && ((ev.user in w.seats && w.seats[ev.user].owner != ev.session) || NonceMismatch(Pending(w, ev.user, env), ev))
  }

  /**
   A superseded leave leaves every seat alone, with exactly one exception: the user already has a
   switch away from that very channel staged, which the leave then completes early. The channel
   being joined is never vacated.
   */
  lemma SupersededLeaveHarmlessIff(w: World, ev: Hook, env: Env)
    requires Superseded(w, ev, env)
    ensures var pending := Pending(w, ev.user, env);
            && (Left(w, ev, env).seats == w.seats
                <==> !(LeavingForSwitch(pending, ev) && In(w.seats, ev.user, ev.channel)))
            && (pending.Some? && In(w.seats, ev.user, pending.value.to)
                ==> In(Left(w, ev, env).seats, ev.user, pending.value.to))
            && (forall v | v in w.seats && v != ev.user ::
                  v in Left(w, ev, env).seats && Left(w, ev, env).seats[v] == w.seats[v])
  {
  }

  /** The exception is real: a run in which the new session holds the channel and still loses the seat. */
  lemma SupersededLeaveCanUnseat()
    ensures exists w, ev ::
              && Reachable(w, 5) && Superseded(w, ev, CALM) && In(w.seats, ev.user, ev.channel)
              && w.seats[ev.user].owner != ev.session && ev.user !in Left(w, ev, CALM).seats
  {
    hide Entered, SwitchAsked, Reachable, Rotated, Cleared;
    var first, second := Hook("e1", HERE, USER, 1, "n1", 0), Hook("e2", HERE, USER, 2, "n2", 0);
    InitialIsReachable(5);
    EnteredIs(INITIAL, first, CALM, 5);
    var w1 := Entered(INITIAL, first, CALM);
    EnteredIs(w1, second, CALM, 5);
    var w2 := Entered(w1, second, CALM);
    SwitchAskedIs(w2, 2, "n3", 5);
    var w, late := SwitchAsked(w2, 2, "n3"), Hook("e3", HERE, USER, 1, "n1", 0);
    assert LeavingForSwitch(Pending(w, USER, CALM), late);
    assert Superseded(w, late, CALM) && USER !in Left(w, late, CALM).seats;
  }

  /**
   A second device takes the voice over in the same channel. The old session's leave may arrive
   before or after the new join: the user never drops out of the channel, and the new session
   ends up owning the seat.
   */
  lemma TakeoverSurvivesLateLeave(w: World, u: UserId, c: ChannelId, session: SessionId, nonce: string, muted: bool,
                                  deafened: bool,
                                  sweep: Option<bool>, env: Env, join: Hook, leave: Hook)
    requires In(w.seats, u, c) && w.seats[u].owner != session && nonce != "" && env.redisUp
    requires Acquired(w.vault, w.seats, c, u, env, sweep).1.Some?
    requires join.user == leave.user == u && join.channel == leave.channel == c
    requires join.session == session && join.nonce == nonce
    requires leave.session == w.seats[u].owner && leave.session != 0 && leave.nonce != "" && leave.nonce != nonce
    ensures
      var asked := Asked(w, u, c, session, nonce, muted, deafened, true, sweep, env);
      var seat := Seat(c, session, muted || deafened, deafened);
      && Left(asked, leave, env).seats == w.seats
      && Joined(Left(asked, leave, env), join, env).seats == w.seats[u := seat]
      && Left(Joined(asked, join, env), leave, env).seats == w.seats[u := seat]
  {
    var asked := Asked(w, u, c, session, nonce, muted, deafened, true, sweep, env);
    assert asked.intents[u] == Intent(session, nonce, c, None, muted || deafened, deafened, false, false);
    var l := Left(asked, leave, env);
    assert l == Requested(asked, c);
    SwitchJoinIs(l, join, env);
    SwitchJoinIs(asked, join, env);
    var j := Joined(asked, join, env);
    assert j.intents == asked.intents - {u};
    assert !HandledLeave(j, leave, env);
  }

  /** After a resume, the late leave of the session that lost the voice leaves the resumed seat alone. */
  lemma ResumedSeatOutlivesOldSession(w: World, u: UserId, next: SessionId, leave: Hook, envR: Env, envL: Env)
    requires u in w.seats && w.seats[u].channel in envR.known && w.seats[u].owner != next
    requires leave.user == u && leave.session == w.seats[u].owner && leave.session != 0
    requires !LeavingForSwitch(Pending(w, u, envL), leave)
    ensures Resumed(w, u, next, envR).seats == w.seats[u := w.seats[u].(owner := next)]
    ensures Left(Resumed(w, u, next, envR), leave, envL).seats == Resumed(w, u, next, envR).seats
  {
    var r := Resumed(w, u, next, envR);
    assert r.intents == w.intents && !HandledLeave(r, leave, envL);
  }

  // ---------------------------------------------------------------------------
  // Repeated webhooks
  // ---------------------------------------------------------------------------

  /** A join event that names its session and nonce can be delivered again without effect on any seat. */
  lemma RepeatedJoinIsIdempotent(w: World, ev: Hook, env1: Env, env2: Env)
    requires ev.session != 0 && ev.nonce != "" && (env2.redisUp ==> env1.redisUp)
    ensures Joined(Joined(w, ev, env1), ev, env2).seats == Joined(w, ev, env1).seats
  {
    var pending := Pending(w, ev.user, env1);
    var once := Joined(w, ev, env1);
    if Correlated(pending, ev, env1).Some? {
      var i := pending.value;
      var a := Admission(i.session, i.muted, i.deafened);
      SeatedAsIs(w.seats, ev.channel, ev.user, a);
      SeatedAsIs(once.seats, ev.channel, ev.user, a);
      if env2.redisUp && IsSwitch(i) && !i.oldLeaveSeen {
        assert Pending(once, ev.user, env2) == Some(i.(newJoinSeen := true));
        assert once.seats[ev.user := once.seats[ev.user]] == once.seats;
      } else {
        assert Pending(once, ev.user, env2) == None;
        assert AlreadyOwnerHere(once.seats, ev);
      }
    } else {
      assert once.intents == w.intents && once.seats == w.seats;
    }
  }

  /**
   Exactly when: the second delivery changes a seat only if Redis answered for the second one but
   not for the first, the event matches the intent found then, and the user does not already sit
   as that intent says.
   */
  lemma RepeatedJoinIdempotentIff(w: World, ev: Hook, env1: Env, env2: Env)
    requires ev.session != 0 && ev.nonce != ""
    ensures
      var a := Correlated(Pending(w, ev.user, env2), ev, env2);
      Joined(Joined(w, ev, env1), ev, env2).seats == Joined(w, ev, env1).seats
      <==> !(!env1.redisUp && env2.redisUp && a.Some? && SeatedAs(w.seats, ev.channel, ev.user, a.value) != w.seats)
  {
    hide SeatedAs, Resynced;
    if env1.redisUp || !env2.redisUp {
      RepeatedJoinIsIdempotent(w, ev, env1, env2);
    } else {
      var once := Joined(w, ev, env1);
      assert once.intents == w.intents && once.seats == w.seats;
    }
  }

  /**
   A leave delivered twice: the second delivery changes a seat only if the first was not handled,
   the second is, and the user sits in that channel.
   */
  lemma RepeatedLeaveIdempotentIff(w: World, ev: Hook, env1: Env, env2: Env)
    ensures Left(Left(w, ev, env1), ev, env2).seats == Left(w, ev, env1).seats
            <==> !(!HandledLeave(w, ev, env1) && HandledLeave(w, ev, env2) && In(w.seats, ev.user, ev.channel))
  {
    hide Rotated, Cleared, E.WithoutUser;
    var once := Left(w, ev, env1);
    if HandledLeave(w, ev, env1) {
      assert !In(once.seats, ev.user, ev.channel);
    } else if In(w.seats, ev.user, ev.channel) {
      assert ev.user !in Unseated(w.seats, ev.channel, ev.user);
    }
  }

  /** While Redis answers both deliveries alike, a repeated leave changes no seat. */
  lemma RepeatedLeaveIsIdempotent(w: World, ev: Hook, env1: Env, env2: Env)
    requires env1.redisUp == env2.redisUp
    ensures Left(Left(w, ev, env1), ev, env2).seats == Left(w, ev, env1).seats
  {
    hide Left;
    RepeatedLeaveIdempotentIff(w, ev, env1, env2);
  }
}
