/**
 SessionManager: six maps that together say which connection belongs to which session of which
 user. The sessions alive, each with its connection and user, determine all six.
 */
module Sessions {
  import opened Domain

  /** A live session's one connection and its user. */
  datatype Entry = Entry(conn: ConnId, user: UserId)

  type Table = map<SessionId, Entry>

  datatype Maps = Maps(
    infos: set<UserId>,
    connToUser: map<ConnId, UserId>,
    connToId: map<ConnId, SessionId>,
    idToUser: map<SessionId, UserId>,
    idToConns: map<SessionId, set<ConnId>>,
    userToIds: map<UserId, set<SessionId>>)

  const NO_MAPS := Maps({}, map[], map[], map[], map[], map[])

  /** A connection leads to its session and user, and only live sessions are led to. */
  ghost predicate ConnSide(connToUser: map<ConnId, UserId>, connToId: map<ConnId, SessionId>, live: Table) {
    && (forall s | s in live :: live[s].conn in connToId && connToId[live[s].conn] == s)
    && (forall c | c in connToId ::
          && connToId[c] in live && live[connToId[c]].conn == c
          && c in connToUser && connToUser[c] == live[connToId[c]].user)
    && connToUser.Keys == connToId.Keys
  }

  /** A session has one user and exactly one connection. */
  ghost predicate IdSide(idToUser: map<SessionId, UserId>, idToConns: map<SessionId, set<ConnId>>, live: Table) {
    && idToUser.Keys == live.Keys && idToConns.Keys == live.Keys
    && (forall s | s in live :: idToUser[s] == live[s].user && idToConns[s] == {live[s].conn})
  }

  function IdsIn(userToIds: map<UserId, set<SessionId>>, u: UserId): set<SessionId> {
    if u in userToIds then userToIds[u] else {}
  }

  /** A user has exactly their live sessions, and users without sessions have no entry. */
  ghost predicate UserSide(userToIds: map<UserId, set<SessionId>>, live: Table) {
    && (forall u, s :: s in IdsIn(userToIds, u) <==> s in live && live[s].user == u)
    && (forall u | u in userToIds :: userToIds[u] != {})
  }

  /** The maps hold the live sessions and nothing else. */
  ghost predicate Agree(m: Maps, live: Table) {
    && ConnSide(m.connToUser, m.connToId, live)
    && IdSide(m.idToUser, m.idToConns, live)
    && UserSide(m.userToIds, live)
    && m.infos == m.userToIds.Keys
  }

  function Inserted(m: Maps, s: SessionId, e: Entry): Maps {
    Maps(m.infos + {e.user},
         m.connToUser[e.conn := e.user],
         m.connToId[e.conn := s],
         m.idToUser[s := e.user],
         m.idToConns[s := {e.conn}],
         m.userToIds[e.user := IdsIn(m.userToIds, e.user) + {s}])
  }

  function Deleted(m: Maps, s: SessionId, e: Entry): Maps {
    var rest := IdsIn(m.userToIds, e.user) - {s};
    Maps(if rest == {} then m.infos - {e.user} else m.infos,
         m.connToUser - {e.conn},
         m.connToId - {e.conn},
         m.idToUser - {s},
         m.idToConns - {s},
         if rest == {} then m.userToIds - {e.user} else m.userToIds[e.user := rest])
  }

  lemma OneConnection(m: Maps, live: Table, conn: ConnId)
    requires Agree(m, live) && conn in m.connToId
    ensures m.connToId[conn] in m.idToConns && m.idToConns[m.connToId[conn]] - {conn} == {}
  {
  }

  lemma InsertKeepsUserSide(userToIds: map<UserId, set<SessionId>>, live: Table, s: SessionId, e: Entry)
    requires UserSide(userToIds, live) && s !in live
    ensures UserSide(userToIds[e.user := IdsIn(userToIds, e.user) + {s}], live[s := e])
  {
    var next := userToIds[e.user := IdsIn(userToIds, e.user) + {s}];
    forall u, t ensures t in IdsIn(next, u) <==> t in live[s := e] && live[s := e][t].user == u {
      assert t in IdsIn(userToIds, u) <==> t in live && live[t].user == u;
    }
  }

  lemma InsertKeepsAgree(m: Maps, live: Table, s: SessionId, e: Entry)
    requires Agree(m, live) && s !in live && e.conn !in m.connToId
    ensures Agree(Inserted(m, s, e), live[s := e])
  {
    hide UserSide, ConnSide, IdSide;
    InsertKeepsUserSide(m.userToIds, live, s, e);
    InsertKeepsConnSide(m.connToUser, m.connToId, live, s, e);
    InsertKeepsIdSide(m.idToUser, m.idToConns, live, s, e);
  }

  lemma InsertKeepsConnSide(connToUser: map<ConnId, UserId>, connToId: map<ConnId, SessionId>, live: Table,
                            s: SessionId, e: Entry)
    requires ConnSide(connToUser, connToId, live) && s !in live && e.conn !in connToId
    ensures ConnSide(connToUser[e.conn := e.user], connToId[e.conn := s], live[s := e])
  {
  }

  lemma InsertKeepsIdSide(idToUser: map<SessionId, UserId>, idToConns: map<SessionId, set<ConnId>>, live: Table,
                          s: SessionId, e: Entry)
    requires IdSide(idToUser, idToConns, live)
    ensures IdSide(idToUser[s := e.user], idToConns[s := {e.conn}], live[s := e])
  {
  }

  lemma DeleteKeepsUserSide(userToIds: map<UserId, set<SessionId>>, live: Table, s: SessionId)
    requires UserSide(userToIds, live) && s in live
    ensures var u := live[s].user;
            var rest := IdsIn(userToIds, u) - {s};
            && u in userToIds
            && UserSide(if rest == {} then userToIds - {u} else userToIds[u := rest], live - {s})
  {
    var u := live[s].user;
    assert s in IdsIn(userToIds, u);
    var rest := IdsIn(userToIds, u) - {s};
    var next := if rest == {} then userToIds - {u} else userToIds[u := rest];
    forall v, t ensures t in IdsIn(next, v) <==> t in live - {s} && live[t].user == v {
      assert t in IdsIn(userToIds, v) <==> t in live && live[t].user == v;
    }
  }

  lemma DeleteKeepsConnSide(connToUser: map<ConnId, UserId>, connToId: map<ConnId, SessionId>, live: Table,
                            s: SessionId)
    requires ConnSide(connToUser, connToId, live) && s in live
    ensures ConnSide(connToUser - {live[s].conn}, connToId - {live[s].conn}, live - {s})
  {
  }

  lemma DeleteKeepsAgree(m: Maps, live: Table, s: SessionId)
    requires Agree(m, live) && s in live
    ensures Agree(Deleted(m, s, live[s]), live - {s})
  {
    hide UserSide, ConnSide;
    DeleteKeepsUserSide(m.userToIds, live, s);
    DeleteKeepsConnSide(m.connToUser, m.connToId, live, s);
  }

  /** The users with sessions, read off the table. */
  function Users(live: Table): set<UserId> {
    set s | s in live :: live[s].user
  }

  lemma ActiveUsersHaveSessions(userToIds: map<UserId, set<SessionId>>, live: Table)
    requires UserSide(userToIds, live)
    ensures userToIds.Keys == Users(live)
  {
    forall u | u in userToIds ensures u in Users(live) {
      var s :| s in userToIds[u];
      assert s in IdsIn(userToIds, u);
      assert s in live && live[s].user == u;
    }
    forall s | s in live ensures live[s].user in userToIds {
      assert s in IdsIn(userToIds, live[s].user);
    }
  }

  /** No user has more sessions than a non-zero cap. */
  ghost predicate WithinCap(userToIds: map<UserId, set<SessionId>>, cap: nat) {
    cap > 0 ==> forall u | u in userToIds :: |userToIds[u]| <= cap
  }

  lemma AddKeepsCap(userToIds: map<UserId, set<SessionId>>, u: UserId, s: SessionId, cap: nat)
    requires WithinCap(userToIds, cap) && (cap > 0 ==> CountSessions(userToIds, u) < cap)
    ensures WithinCap(userToIds[u := IdsIn(userToIds, u) + {s}], cap)
  {
  }

  lemma RemoveKeepsCap(userToIds: map<UserId, set<SessionId>>, u: UserId, s: SessionId, cap: nat)
    requires WithinCap(userToIds, cap) && u in userToIds
    ensures WithinCap(userToIds - {u}, cap) && WithinCap(userToIds[u := userToIds[u] - {s}], cap)
  {
  }

  function CountUsers(userToIds: map<UserId, set<SessionId>>): nat {
    |userToIds|
  }

  function CountSessions(userToIds: map<UserId, set<SessionId>>, u: UserId): nat {
    |IdsIn(userToIds, u)|
  }

  /** The counter of active users is right and ids so far are at most last. */
  ghost predicate Sound(m: Maps, live: Table, activeUsers: nat, last: nat, cap: nat) {
    && Agree(m, live)
    && activeUsers == CountUsers(m.userToIds)
    && (forall s | s in live :: 1 <= s <= last)
    && WithinCap(m.userToIds, cap)
  }

  lemma NoEmptyEntry(m: Maps, live: Table, u: UserId)
    requires Agree(m, live)
    ensures IdsIn(m.userToIds, u) == {} <==> u !in m.userToIds
  {
  }

  lemma AddedKey(m: map<UserId, set<SessionId>>, u: UserId, ids: set<SessionId>)
    ensures CountUsers(m[u := ids]) == if u in m then CountUsers(m) else CountUsers(m) + 1
  {
  }

  lemma RemovedKey(m: map<UserId, set<SessionId>>, u: UserId)
    requires u in m
    ensures CountUsers(m) > 0 && CountUsers(m - {u}) == CountUsers(m) - 1
  {
  }

  lemma InsertedIds(m: Maps, s: SessionId, e: Entry)
    ensures Inserted(m, s, e).userToIds == m.userToIds[e.user := IdsIn(m.userToIds, e.user) + {s}]
  {
  }

  lemma InsertKeepsSound(m: Maps, live: Table, activeUsers: nat, last: nat, cap: nat, e: Entry)
    requires Sound(m, live, activeUsers, last, cap) && e.conn !in m.connToId
    requires cap > 0 ==> CountSessions(m.userToIds, e.user) < cap
    ensures Sound(Inserted(m, last + 1, e), live[last + 1 := e],
                  if IdsIn(m.userToIds, e.user) == {} then activeUsers + 1 else activeUsers, last + 1, cap)
  {
    hide Agree, WithinCap, IdsIn, Inserted, CountUsers, CountSessions;
    NoEmptyEntry(m, live, e.user);
    InsertKeepsAgree(m, live, last + 1, e);
    AddKeepsCap(m.userToIds, e.user, last + 1, cap);
    AddedKey(m.userToIds, e.user, IdsIn(m.userToIds, e.user) + {last + 1});
    InsertedIds(m, last + 1, e);
  }

  lemma DeleteKeepsSound(m: Maps, live: Table, activeUsers: nat, last: nat, cap: nat, s: SessionId)
    requires Sound(m, live, activeUsers, last, cap) && s in live
    ensures var gone := IdsIn(m.userToIds, live[s].user) - {s} == {};
            && (gone ==> activeUsers > 0)
            && Sound(Deleted(m, s, live[s]), live - {s}, if gone then activeUsers - 1 else activeUsers, last, cap)
  {
    hide ConnSide, IdSide, WithinCap, CountUsers;
    var u := live[s].user;
    DeleteKeepsAgree(m, live, s);
    DeleteKeepsUserSide(m.userToIds, live, s);
    RemovedKey(m.userToIds, u);
    AddedKey(m.userToIds, u, m.userToIds[u] - {s});
    RemoveKeepsCap(m.userToIds, u, s, cap);
  }

  datatype Attach = Attached(session: SessionId) | LimitExceeded

  class SessionManager {
    const maxSessionsPerUser: nat
    var nextSessionId: nat
    var maps: Maps
    var activeUsers: nat
    ghost var live: Table

    ghost predicate Valid()
      reads this
    {
      Sound(maps, live, activeUsers, nextSessionId, maxSessionsPerUser)
    }

    constructor (maxSessionsPerUser: nat)
      ensures Valid() && live == map[] && nextSessionId == 0 && this.maxSessionsPerUser == maxSessionsPerUser
    {
      this.maxSessionsPerUser := maxSessionsPerUser;
      nextSessionId, maps, activeUsers, live := 0, NO_MAPS, 0, map[];
    }

    /** A connection that is attached already keeps its session, whoever asks. */
    method AttachConnection(conn: ConnId, user: UserId) returns (r: Attach)
      requires Valid()
      modifies this
      ensures Valid()
      ensures forall s | s in old(live) && old(live)[s].conn == conn :: r == Attached(s) && unchanged(this)
      ensures (forall s | s in old(live) :: old(live)[s].conn != conn) ==>
                if maxSessionsPerUser > 0 && old(CountSessions(maps.userToIds, user)) >= maxSessionsPerUser
                then r == LimitExceeded && unchanged(this)
                else && r == Attached(nextSessionId) && nextSessionId == old(nextSessionId) + 1
                     && live == old(live)[nextSessionId := Entry(conn, user)]
    {
      hide IdSide, UserSide, WithinCap, CountUsers;
      if conn in maps.connToId {
        return Attached(maps.connToId[conn]);
      }
      var mine := IdsIn(maps.userToIds, user);
      if maxSessionsPerUser > 0 && |mine| >= maxSessionsPerUser {
        return LimitExceeded;
      }
      var session := Create(conn, user);
      r := Attached(session);
    }

    /** Mints the next id and enters the session into every map. */
    method Create(conn: ConnId, user: UserId) returns (session: SessionId)
      requires Valid() && conn !in maps.connToId
      requires maxSessionsPerUser > 0 ==> CountSessions(maps.userToIds, user) < maxSessionsPerUser
      modifies this
      ensures Valid() && session == nextSessionId == old(nextSessionId) + 1
      ensures live == old(live)[session := Entry(conn, user)]
    {
      hide Sound;
      InsertKeepsSound(maps, live, activeUsers, nextSessionId, maxSessionsPerUser, Entry(conn, user));
      if IdsIn(maps.userToIds, user) == {} {
        activeUsers := activeUsers + 1;
      }
      nextSessionId := nextSessionId + 1;
      session := nextSessionId;
      maps := Inserted(maps, session, Entry(conn, user));
      live := live[session := Entry(conn, user)];
    }

    method RemoveConnection(conn: ConnId)
      requires Valid()
      modifies this`maps, this`activeUsers, this`live
      ensures Valid()
      ensures conn !in old(maps).connToId ==> unchanged(this)
      ensures conn in old(maps).connToId ==> live == old(live) - {old(maps).connToId[conn]}
      ensures forall s :: s in live <==> s in old(live) && old(live)[s].conn != conn
    {
      hide IdSide, UserSide, WithinCap, CountUsers;
      if conn !in maps.connToUser {
        return;
      }
      var user, session := maps.connToUser[conn], maps.connToId[conn];
      // A session has no second connection, so the early return for one that is left is never taken.
      OneConnection(maps, live, conn);
      assert session in maps.idToConns && maps.idToConns[session] - {conn} == {};
      DeleteKeepsSound(maps, live, activeUsers, nextSessionId, maxSessionsPerUser, session);
      if IdsIn(maps.userToIds, user) - {session} == {} {
        activeUsers := activeUsers - 1;
      }
      maps := Deleted(maps, session, Entry(conn, user));
      live := live - {session};
    }

    method SessionIdHasConnections(s: SessionId) returns (has: bool)
      requires Valid()
      ensures has <==> s in live
    {
      has := s in maps.idToConns && maps.idToConns[s] != {};
    }

    /** Every connection of every session of the user. */
    method CollectUserConnections(u: UserId) returns (conns: set<ConnId>)
      requires Valid()
      ensures conns == set s | s in live && live[s].user == u :: live[s].conn
    {
      hide ConnSide;
      conns := {};
      var todo := IdsIn(maps.userToIds, u);
      assert todo == set s | s in live && live[s].user == u by {
        assert forall s :: s in IdsIn(maps.userToIds, u) <==> s in live && live[s].user == u;
      }
      ghost var all := todo;
      while todo != {}
        invariant todo <= all
        invariant conns == set s | s in all - todo :: live[s].conn
        decreases todo
      {
        var s :| s in todo;
        todo := todo - {s};
        conns := conns + maps.idToConns[s];
      }
      assert all - {} == all;
    }
  }
}
