/**
 HubService: hub snapshots and channels cached over the repository. Snapshots are cached under the
 hash of the hub id only; channels under their id.
 */
module Hubs {
  import opened Domain

  datatype HubId = HubId(value: string)
  datatype Role = User | Admin | Owner
  datatype HubRow = HubRow(name: string, owner: UserId, seed: string)
  datatype Channel = Channel(name: string, hub: HubId, voice: bool)
  datatype Snapshot = Snapshot(hub: HubId, row: HubRow, channels: set<ChannelId>, roles: map<UserId, Role>)

  /** What the repository stores. */
  datatype Db = Db(
    hubs: map<HubId, HubRow>,
    channels: map<ChannelId, Channel>,
    members: map<HubId, map<UserId, Role>>)

  /** Foreign keys: channels belong to existing hubs, and exactly the existing hubs have members. */
  ghost predicate Integral(db: Db) {
    && (forall c | c in db.channels :: db.channels[c].hub in db.hubs)
    && (forall h :: h in db.hubs <==> h in db.members)
  }

  function ChannelIds(db: Db, h: HubId): set<ChannelId> {
    set c | c in db.channels && db.channels[c].hub == h
  }

  function SnapshotOf(db: Db, h: HubId): Snapshot
    requires h in db.hubs && h in db.members
  {
    Snapshot(h, db.hubs[h], ChannelIds(db, h), db.members[h])
  }

  function RoleIn(db: Db, h: HubId, u: UserId): Option<Role> {
    if h in db.hubs && h in db.members then Lookup(db.members[h], u) else None
  }

  function SnapshotIn(db: Db, h: HubId): Option<Snapshot> {
    if h in db.hubs && h in db.members then Some(SnapshotOf(db, h)) else None
  }

  function MembersIn(db: Db, h: HubId): map<UserId, Role> {
    if h in db.hubs && h in db.members then db.members[h] else map[]
  }

  /** Every cached snapshot is its hub's, as the repository has it, under the hub's own key. */
  ghost predicate SnapshotsCoherent(db: Db, cache: map<nat, Snapshot>, hash: HubId -> nat) {
    forall k | k in cache ::
      && k == hash(cache[k].hub) && cache[k].hub in db.hubs && cache[k].hub in db.members
      && cache[k] == SnapshotOf(db, cache[k].hub)
  }

  /** Only these hubs are cached. */
  ghost predicate Within(cache: map<nat, Snapshot>, ids: set<HubId>) {
    forall k | k in cache :: cache[k].hub in ids
  }

  /** The slot the hub hashes to is empty or holds the hub itself. */
  predicate OwnSlot(cache: map<nat, Snapshot>, hash: HubId -> nat, h: HubId) {
    hash(h) in cache ==> cache[hash(h)].hub == h
  }

  ghost predicate ChannelsCoherent(db: Db, cache: map<ChannelId, Channel>) {
    forall c | c in cache :: c in db.channels && cache[c] == db.channels[c]
  }

  // ---------------------------------------------------------------------------
  // Repository writes
  // ---------------------------------------------------------------------------

  /** The owner becomes a member by trigger. */
  function HubCreated(db: Db, h: HubId, name: string, owner: UserId): Db {
    db.(hubs := db.hubs[h := HubRow(name, owner, "")], members := db.members[h := map[owner := Owner]])
  }

  function HubUpdated(db: Db, h: HubId, row: HubRow): Db {
    if h in db.hubs then db.(hubs := db.hubs[h := row]) else db
  }

  function HubDeleted(db: Db, h: HubId): Db {
    Db(db.hubs - {h}, map c | c in db.channels && db.channels[c].hub != h :: db.channels[c], db.members - {h})
  }

  function ChannelPut(db: Db, c: ChannelId, channel: Channel): Db {
    db.(channels := db.channels[c := channel])
  }

  function ChannelDeleted(db: Db, c: ChannelId): Db {
    db.(channels := db.channels - {c})
  }

  function RolesPut(db: Db, h: HubId, roles: map<UserId, Role>): Db {
    db.(members := db.members[h := roles])
  }

  function IsVoice(storedType: string): bool {
    ToLower(storedType) == "voice"
  }

  function ToLower(s: string): string {
    if s == [] then []
    else [if 'A' <= s[0] <= 'Z' then s[0] - 'A' + 'a' else s[0]] + ToLower(s[1..])
  }

  // ---------------------------------------------------------------------------
  // What each kind of write does to the coherence of a cache
  // ---------------------------------------------------------------------------

  /** Changing one hub's data leaves every other hub's snapshot right. */
  lemma OtherSnapshotsKept(db: Db, next: Db, cache: map<nat, Snapshot>, hash: HubId -> nat, h: HubId)
    requires SnapshotsCoherent(db, cache, hash)
    requires forall g | g != h && g in db.hubs && g in db.members ::
               g in next.hubs && g in next.members && SnapshotOf(next, g) == SnapshotOf(db, g)
    ensures SnapshotsCoherent(next, cache - {hash(h)}, hash)
  {
  }

  lemma PutKeepsCoherent(db: Db, cache: map<nat, Snapshot>, hash: HubId -> nat, h: HubId)
    requires SnapshotsCoherent(db, cache, hash) && h in db.hubs && h in db.members
    ensures SnapshotsCoherent(db, cache[hash(h) := SnapshotOf(db, h)], hash)
  {
  }

  // ---------------------------------------------------------------------------
  // Warming
  // ---------------------------------------------------------------------------

  type Record = (HubId, HubRow)

  predicate Names(records: seq<Record>, h: HubId) {
    exists i | 0 <= i < |records| :: records[i].0 == h
  }

  /** Nameless hubs are skipped and the first record of a hub wins. */
  function FirstRecords(hubs: seq<Record>): seq<Record> {
    if hubs == [] then []
    else
      var firsts := FirstRecords(hubs[..|hubs| - 1]);
      var x := hubs[|hubs| - 1];
      if x.0.value == "" || Names(firsts, x.0) then firsts else firsts + [x]
  }

  /** The caller's record with the repository's channels and members. */
  function WarmSnapshot(db: Db, x: Record): Snapshot {
    Snapshot(x.0, x.1, ChannelIds(db, x.0), if x.0 in db.members then db.members[x.0] else map[])
  }

  predicate Current(db: Db, x: Record) {
    x.0 in db.hubs && db.hubs[x.0] == x.1
  }

  /** Some named hub finds its slot empty. */
  predicate NeedsRefresh(cache: map<nat, Snapshot>, hash: HubId -> nat, records: seq<Record>) {
    exists i | 0 <= i < |records| :: hash(records[i].0) !in cache
  }

  /** No later record among the first n goes to the same slot. */
  predicate LastOfSlot(hash: HubId -> nat, records: seq<Record>, n: nat, i: nat)
    requires n <= |records|
  {
    i < n && forall j | i < j < n :: hash(records[j].0) != hash(records[i].0)
  }

  ghost predicate Kept(before: map<nat, Snapshot>, now: map<nat, Snapshot>, k: nat) {
    k in before && k in now && now[k] == before[k]
  }

  /** The slot holds the last of the first n records that goes there. */
  ghost predicate Put(db: Db, cache: map<nat, Snapshot>, hash: HubId -> nat, records: seq<Record>, n: nat, k: nat)
    requires n <= |records|
  {
    k in cache && exists i: nat ::
      LastOfSlot(hash, records, n, i) && k == hash(records[i].0) && cache[k] == WarmSnapshot(db, records[i])
  }

  lemma PutNext(db: Db, cache: map<nat, Snapshot>, hash: HubId -> nat, records: seq<Record>, n: nat, k: nat)
    requires n < |records|
    requires k in cache[hash(records[n].0) := WarmSnapshot(db, records[n])]
    requires k in cache && k != hash(records[n].0) ==> Put(db, cache, hash, records, n, k)
    ensures Put(db, cache[hash(records[n].0) := WarmSnapshot(db, records[n])], hash, records, n + 1, k)
  {
    if k == hash(records[n].0) {
      assert LastOfSlot(hash, records, n + 1, n);
    } else {
      var i: nat :|
        LastOfSlot(hash, records, n, i) && k == hash(records[i].0) && cache[k] == WarmSnapshot(db, records[i]);
      assert LastOfSlot(hash, records, n + 1, i);
    }
  }

  lemma EntryCurrentIff(db: Db, cache: map<nat, Snapshot>, hash: HubId -> nat, x: Record)
    requires Integral(db) && hash(x.0) in cache && cache[hash(x.0)] == WarmSnapshot(db, x)
    ensures Current(db, x) <==> x.0 in db.hubs && x.0 in db.members && cache[hash(x.0)] == SnapshotOf(db, x.0)
  {
  }

  class HubService {
    const hash: HubId -> nat
    var db: Db
    var cache: map<nat, Snapshot>
    var channelCache: map<ChannelId, Channel>
    /** The hubs that were ever cached. */
    ghost var used: set<HubId>

    ghost predicate Coherent()
      reads this
    {
      && Integral(db) && ChannelsCoherent(db, channelCache)
      && SnapshotsCoherent(db, cache, hash) && Within(cache, used)
    }

    constructor (hash: HubId -> nat, db: Db)
      requires Integral(db)
      ensures Coherent() && this.db == db && this.hash == hash && used == {}
    {
      this.hash, this.db := hash, db;
      cache, channelCache, used := map[], map[], {};
    }

    // -------------------------------------------------------------------------
    // Reads; each answers as the repository would whenever the hub's slot is its own.
    // -------------------------------------------------------------------------

    method BuildSnapshot(h: HubId) returns (s: Option<Snapshot>)
      requires Coherent()
      modifies this`cache, this`used
      ensures Coherent() && old(used) <= used <= old(used) + {h}
      ensures s == SnapshotIn(db, h)
      ensures cache == if s.Some? then old(cache)[hash(h) := s.value] else old(cache)
    {
      if h !in db.hubs {
        return None;
      }
      PutKeepsCoherent(db, cache, hash, h);
      var snapshot := Snapshot(h, db.hubs[h], ChannelIds(db, h), db.members[h]);
      cache := cache[hash(snapshot.hub) := snapshot];
      used := used + {h};
      s := Some(snapshot);
    }

    /** Right if and only if the slot is empty or the hub's own; otherwise it is another hub's snapshot. */
    method LoadSnapshot(h: HubId) returns (s: Option<Snapshot>)
      requires Coherent()
      modifies this`cache, this`used
      ensures Coherent() && old(used) <= used <= old(used) + {h}
      ensures s == SnapshotIn(db, h) <==> OwnSlot(old(cache), hash, h)
      ensures !OwnSlot(old(cache), hash, h) ==> s == SnapshotIn(db, old(cache)[hash(h)].hub) && cache == old(cache)
      ensures OwnSlot(old(cache), hash, h) ==> OwnSlot(cache, hash, h)
    {
      if hash(h) in cache {
        return Some(cache[hash(h)]);
      }
      s := BuildSnapshot(h);
    }

    method ResolveMembershipRole(h: HubId, u: UserId) returns (role: Option<Role>)
      requires Coherent()
      modifies this`cache, this`used
      ensures Coherent() && old(used) <= used <= old(used) + {h}
      ensures OwnSlot(old(cache), hash, h) ==> role == RoleIn(db, h, u)
      ensures !OwnSlot(old(cache), hash, h) ==> role == RoleIn(db, old(cache)[hash(h)].hub, u)
    {
      var s := LoadSnapshot(h);
      role := if s.Some? then Lookup(s.value.roles, u) else None;
    }

    method GetHubMembersWithRoles(h: HubId) returns (roles: map<UserId, Role>)
      requires Coherent()
      modifies this`cache, this`used
      ensures Coherent() && old(used) <= used <= old(used) + {h}
      ensures OwnSlot(old(cache), hash, h) ==> roles == MembersIn(db, h)
      ensures !OwnSlot(old(cache), hash, h) ==> roles == MembersIn(db, old(cache)[hash(h)].hub)
    {
      var s := LoadSnapshot(h);
      roles := if s.Some? then s.value.roles else map[];
    }

    method GetHubChannelIds(h: HubId) returns (ids: set<ChannelId>)
      requires Coherent()
      modifies this`cache, this`used
      ensures Coherent() && old(used) <= used <= old(used) + {h}
      ensures OwnSlot(old(cache), hash, h) ==> ids == ChannelIds(db, h)
      ensures !OwnSlot(old(cache), hash, h) ==> ids == ChannelIds(db, old(cache)[hash(h)].hub)
    {
      var s := LoadSnapshot(h);
      if s.None? {
        assert forall c | c in db.channels :: db.channels[c].hub != h;
        return {};
      }
      ids := s.value.channels;
    }

    method GetHub(h: HubId) returns (row: Option<HubRow>)
      requires Coherent()
      ensures OwnSlot(cache, hash, h) ==> row == Lookup(db.hubs, h)
      ensures !OwnSlot(cache, hash, h) ==> row == Lookup(db.hubs, cache[hash(h)].hub)
    {
      row := if hash(h) in cache then Some(cache[hash(h)].row) else Lookup(db.hubs, h);
    }

    method GetChannel(c: ChannelId) returns (channel: Option<Channel>)
      requires Coherent()
      modifies this`channelCache
      ensures Coherent() && channel == Lookup(db.channels, c)
    {
      if c in channelCache {
        return Some(channelCache[c]);
      }
      channel := Lookup(db.channels, c);
      if channel.Some? {
        channelCache := channelCache[c := channel.value];
      }
    }

    /** Empty ids and repeats are skipped, hits come from the cache, the rest from the repository. */
    method GetChannelsByIds(ids: seq<ChannelId>) returns (found: map<ChannelId, Channel>)
      requires Coherent()
      modifies this`channelCache
      ensures Coherent()
      ensures found == map c | c in ids && c.value != "" && c in db.channels :: db.channels[c]
    {
      hide Integral, SnapshotsCoherent, Within;
      found := map[];
      var seen: set<ChannelId>, misses: set<ChannelId> := {}, {};
      for i := 0 to |ids|
        invariant forall c :: c in seen <==> c in ids[..i] && c.value != ""
        invariant forall c :: c in found <==> c in seen && c in channelCache
        invariant misses == seen - found.Keys
        invariant forall c | c in found :: c in db.channels && found[c] == db.channels[c]
      {
        var c := ids[i];
        if c.value != "" && c !in seen {
          seen := seen + {c};
          if c in channelCache {
            found := found[c := channelCache[c]];
          } else {
            misses := misses + {c};
          }
        }
      }
      var todo := misses * db.channels.Keys;
      ghost var hits := found.Keys;
      while todo != {}
        invariant Coherent()
        invariant todo <= misses * db.channels.Keys && found.Keys == hits + (misses * db.channels.Keys - todo)
        invariant forall c | c in found :: c in db.channels && found[c] == db.channels[c]
        decreases todo
      {
        var c :| c in todo;
        todo := todo - {c};
        channelCache := channelCache[c := db.channels[c]];
        found := found[c := db.channels[c]];
      }
    }

    /** Caches every channel of the hub. */
    method CacheChannels(h: HubId)
      requires ChannelsCoherent(db, channelCache)
      modifies this`channelCache
      ensures ChannelsCoherent(db, channelCache)
    {
      var todo := ChannelIds(db, h);
      while todo != {}
        invariant ChannelsCoherent(db, channelCache) && todo <= ChannelIds(db, h)
        decreases todo
      {
        var c :| c in todo;
        todo := todo - {c};
        channelCache := channelCache[c := db.channels[c]];
      }
    }

    /** Id by id: right where the slot is empty or the hub's own, another hub's row where it is not. */
    method GetHubsByIds(ids: seq<HubId>) returns (found: map<HubId, HubRow>)
      requires Coherent()
      modifies this`cache, this`channelCache, this`used
      ensures Coherent() && old(used) <= used && forall h | h in used :: h in old(used) || h in ids
      ensures forall h | h in found :: h in ids && h.value != ""
      ensures forall h | h in ids && h.value != "" ::
                Lookup(found, h) == Lookup(db.hubs, if OwnSlot(old(cache), hash, h) then h else old(cache)[hash(h)].hub)
    {
      hide Integral, ChannelsCoherent, Within;
      found := map[];
      var seen: set<HubId>, misses: set<HubId> := {}, {};
      for i := 0 to |ids|
        invariant Coherent() && cache == old(cache) && used == old(used)
        invariant forall h :: h in seen <==> h in ids[..i] && h.value != ""
        invariant forall h :: h in found <==> h in seen && hash(h) in cache
        invariant misses == seen - found.Keys
        invariant forall h | h in found :: found[h] == cache[hash(h)].row
      {
        var h := ids[i];
        if h.value != "" && h !in seen {
          seen := seen + {h};
          if hash(h) in cache {
            found := found[h := cache[hash(h)].row];
          } else {
            misses := misses + {h};
          }
        }
      }
      assert ids[..|ids|] == ids;
      var fetched := Fetch(misses);
      found := found + fetched;
    }

    /** Reads the hubs from the repository and caches them with their channels. */
    method Fetch(misses: set<HubId>) returns (fetched: map<HubId, HubRow>)
      requires Coherent()
      modifies this`cache, this`channelCache, this`used
      ensures Coherent() && old(used) <= used <= old(used) + misses
      ensures fetched == map h | h in misses && h in db.hubs :: db.hubs[h]
    {
      hide Integral, SnapshotsCoherent, ChannelsCoherent, Within;
      fetched := map[];
      var todo := misses * db.hubs.Keys;
      while todo != {}
        invariant Coherent() && old(used) <= used <= old(used) + misses && todo <= misses * db.hubs.Keys
        invariant fetched == map h | h in misses && h in db.hubs && h !in todo :: db.hubs[h]
        decreases todo
      {
        var h :| h in todo;
        todo := todo - {h};
        fetched := fetched[h := db.hubs[h]];
        CacheChannels(h);
        var _ := BuildSnapshot(h);
      }
    }

    /**
     Hubs the caller has just read; if any finds its slot empty, all are cached again with the
     caller's records. The caches stay coherent if and only if nothing needed refreshing or every
     record that ends up in its slot is current.
     */
    method WarmSnapshotsForHubs(hubs: seq<Record>)
      requires Coherent()
      modifies this`cache, this`channelCache, this`used
      ensures old(used) <= used && forall h | h in used :: h in old(used) || Names(FirstRecords(hubs), h)
      ensures !NeedsRefresh(cache, hash, FirstRecords(hubs))
      ensures var records := FirstRecords(hubs);
              Coherent() <==>
                || !NeedsRefresh(old(cache), hash, records)
                || forall i: nat | LastOfSlot(hash, records, |records|, i) :: Current(db, records[i])
    {
      hide Integral, SnapshotsCoherent, ChannelsCoherent, Within;
      var records: seq<Record>, refresh := [], false;
      for i := 0 to |hubs|
        invariant Coherent() && cache == old(cache) && used == old(used)
        invariant records == FirstRecords(hubs[..i])
        invariant refresh <==> NeedsRefresh(cache, hash, records)
      {
        var x := hubs[i];
        assert hubs[..i + 1][..i] == hubs[..i];
        if x.0.value != "" && !Names(records, x.0) {
          ghost var before := records;
          records := records + [x];
          assert records[|before|] == x;
          assert forall k | 0 <= k < |before| :: records[k] == before[k];
          if hash(x.0) !in cache {
            refresh := true;
          }
        }
      }
      assert hubs[..|hubs|] == hubs;
      if refresh {
        PutRecords(records);
      }
    }

    method PutRecords(records: seq<Record>)
      requires Coherent()
      modifies this`cache, this`channelCache, this`used
      ensures old(used) <= used && forall h | h in used :: h in old(used) || Names(records, h)
      ensures !NeedsRefresh(cache, hash, records)
      ensures Coherent() <==> forall i: nat | LastOfSlot(hash, records, |records|, i) :: Current(db, records[i])
    {
      hide SnapshotsCoherent, Current, WarmSnapshot;
      for n := 0 to |records|
        invariant ChannelsCoherent(db, channelCache) && Within(cache, used)
        invariant old(used) <= used && forall h | h in used :: h in old(used) || Names(records, h)
        invariant forall i | 0 <= i < n :: hash(records[i].0) in cache
        invariant forall i: nat | LastOfSlot(hash, records, n, i) ::
                    hash(records[i].0) in cache && cache[hash(records[i].0)] == WarmSnapshot(db, records[i])
        invariant forall k | k in cache :: Kept(old(cache), cache, k) || Put(db, cache, hash, records, n, k)
      {
        PutOne(records, n);
      }
      CoherentIffCurrent(db, old(cache), cache, hash, records);
    }

    method PutOne(records: seq<Record>, n: nat)
      requires n < |records| && ChannelsCoherent(db, channelCache) && Within(cache, used)
      modifies this`cache, this`channelCache, this`used
      ensures ChannelsCoherent(db, channelCache) && Within(cache, used) && used == old(used) + {records[n].0}
      ensures Names(records, records[n].0)
      ensures cache == old(cache)[hash(records[n].0) := WarmSnapshot(db, records[n])]
      ensures forall k | k in cache && (k in old(cache) ==> Put(db, old(cache), hash, records, n, k)) ::
                Put(db, cache, hash, records, n + 1, k)
    {
      var x := records[n];
      CacheChannels(x.0);
      ghost var before := cache;
      cache := cache[hash(x.0) := WarmSnapshot(db, x)];
      used := used + {x.0};
      forall k | k in cache && (k in before ==> Put(db, before, hash, records, n, k))
        ensures Put(db, cache, hash, records, n + 1, k)
      {
        PutNext(db, before, hash, records, n, k);
      }
    }

    // -------------------------------------------------------------------------
    // Writes; accepted is false when the repository throws, having applied nothing.
    // -------------------------------------------------------------------------

    method CreateHub(h: HubId, name: string, owner: UserId, accepted: bool)
      requires Coherent() && h !in db.hubs
      modifies this`db, this`cache
      ensures Coherent()
      ensures db == if accepted then HubCreated(old(db), h, name, owner) else old(db)
    {
      if !accepted {
        return;
      }
      NewHubHasNoChannels(db, h);
      OtherSnapshotsKept(db, HubCreated(db, h, name, owner), cache, hash, h);
      db := HubCreated(db, h, name, owner);
      cache := cache - {hash(h)};
    }

    static lemma NewHubHasNoChannels(db: Db, h: HubId)
      requires Integral(db) && h !in db.hubs
      ensures ChannelIds(db, h) == {}
    {
    }

    /** Replaces a hub's row and forgets its snapshot; false when there is no such hub. */
    method UpdateHub(h: HubId, row: HubRow, accepted: bool) returns (updated: bool)
      requires Coherent()
      modifies this`db, this`cache
      ensures Coherent()
      ensures updated <==> accepted && h in old(db).hubs
      ensures db == if accepted then HubUpdated(old(db), h, row) else old(db)
    {
      updated := accepted && h in db.hubs;
      if updated {
        OtherSnapshotsKept(db, HubUpdated(db, h, row), cache, hash, h);
        db := HubUpdated(db, h, row);
        cache := cache - {hash(h)};
      }
    }

    method RenameHub(h: HubId, name: string, accepted: bool) returns (updated: bool)
      requires Coherent()
      modifies this`db, this`cache
      ensures Coherent() && (updated <==> accepted && h in old(db).hubs)
      ensures db == if updated then HubUpdated(old(db), h, old(db).hubs[h].(name := name)) else old(db)
    {
      if h !in db.hubs {
        return false;
      }
      updated := UpdateHub(h, db.hubs[h].(name := name), accepted);
    }

    method UpdateHubAvatarSeed(h: HubId, seed: string, accepted: bool) returns (updated: bool)
      requires Coherent()
      modifies this`db, this`cache
      ensures Coherent() && (updated <==> accepted && h in old(db).hubs)
      ensures db == if updated then HubUpdated(old(db), h, old(db).hubs[h].(seed := seed)) else old(db)
    {
      if h !in db.hubs {
        return false;
      }
      updated := UpdateHub(h, db.hubs[h].(seed := seed), accepted);
    }

    method SetMembers(h: HubId, roles: map<UserId, Role>)
      requires Coherent() && h in db.hubs
      modifies this`db, this`cache
      ensures Coherent() && db == RolesPut(old(db), h, roles)
    {
      OtherSnapshotsKept(db, RolesPut(db, h, roles), cache, hash, h);
      db := RolesPut(db, h, roles);
      cache := cache - {hash(h)};
    }

    /** Adding a member to a hub that does not exist violates a foreign key and throws. */
    method AddMember(h: HubId, u: UserId, role: Role, accepted: bool)
      requires Coherent()
      modifies this`db, this`cache
      ensures Coherent()
      ensures db == if accepted && h in old(db).hubs then RolesPut(old(db), h, old(db).members[h][u := role])
                    else old(db)
    {
      if accepted && h in db.hubs {
        SetMembers(h, db.members[h][u := role]);
      }
    }

    method RemoveMember(h: HubId, u: UserId, accepted: bool)
      requires Coherent()
      modifies this`db, this`cache
      ensures Coherent()
      ensures db == if accepted && h in old(db).hubs then RolesPut(old(db), h, old(db).members[h] - {u}) else old(db)
    {
      if accepted && h in db.hubs {
        SetMembers(h, db.members[h] - {u});
      } else if accepted {
        ghost var before := cache;
        cache := cache - {hash(h)};
        assert forall k | k in cache :: k in before;
      }
    }

    /** A snapshot found in the hub's slot gains the channel, even another hub's: coherent exactly if it is not. */
    method CreateChannel(c: ChannelId, h: HubId, name: string, storedType: string, accepted: bool)
      requires Coherent() && c !in db.channels
      modifies this`db, this`cache, this`channelCache
      ensures Coherent() <==> !(accepted && h in old(db).hubs && !OwnSlot(old(cache), hash, h))
      ensures db == if accepted && h in old(db).hubs
                    then ChannelPut(old(db), c, Channel(name, h, IsVoice(storedType))) else old(db)
    {
      if !accepted || h !in db.hubs {
        return;
      }
      var channel := Channel(name, h, IsVoice(storedType));
      GainsChannelIff(db, cache, hash, c, channel);
      db := ChannelPut(db, c, channel);
      channelCache := channelCache[c := channel];
      if hash(h) in cache {
        var s := cache[hash(h)];
        cache := cache[hash(h) := s.(channels := s.channels + {c})];
      }
    }

    /** The slot's snapshot, if there is one, with the channel. */
    static function Gained(cache: map<nat, Snapshot>, k: nat, c: ChannelId): map<nat, Snapshot> {
      if k in cache then cache[k := cache[k].(channels := cache[k].channels + {c})] else cache
    }

    /** Adding the channel to what its hub's slot holds keeps the snapshots right exactly if that is not another hub. */
    static lemma GainsChannelIff(db: Db, cache: map<nat, Snapshot>, hash: HubId -> nat, c: ChannelId, channel: Channel)
      requires Integral(db) && SnapshotsCoherent(db, cache, hash) && c !in db.channels && channel.hub in db.hubs
      ensures SnapshotsCoherent(ChannelPut(db, c, channel), Gained(cache, hash(channel.hub), c), hash)
              <==> OwnSlot(cache, hash, channel.hub)
    {
      var h := channel.hub;
      var k, next, others := hash(h), ChannelPut(db, c, channel), cache - {hash(h)};
      ChannelAdded(db, c, channel);
      OtherSnapshotsKept(db, next, cache, hash, h);
      if k !in cache {
        assert cache == others;
      } else if cache[k].hub == h {
        PutKeepsCoherent(next, others, hash, h);
        assert Gained(cache, k, c) == others[k := SnapshotOf(next, h)];
      } else {
        var s := Gained(cache, k, c)[k];
        assert c in s.channels && c !in ChannelIds(next, s.hub);
      }
    }

    static lemma ChannelAdded(db: Db, c: ChannelId, channel: Channel)
      requires c !in db.channels
      ensures var next := ChannelPut(db, c, channel);
              forall h :: ChannelIds(next, h) == if h == channel.hub then ChannelIds(db, h) + {c} else ChannelIds(db, h)
    {
    }

    method RenameChannel(c: ChannelId, name: string, accepted: bool) returns (renamed: bool)
      requires Coherent()
      modifies this`db, this`channelCache
      ensures Coherent() && (renamed <==> accepted && c in old(db).channels)
      ensures db == if renamed then ChannelPut(old(db), c, old(db).channels[c].(name := name)) else old(db)
    {
      renamed := accepted && c in db.channels;
      if !renamed {
        return;
      }
      ChannelRenamed(db, c, name);
      SameSnapshots(db, ChannelPut(db, c, db.channels[c].(name := name)), cache, hash);
      db := ChannelPut(db, c, db.channels[c].(name := name));
      if c in channelCache {
        channelCache := channelCache[c := channelCache[c].(name := name)];
      }
    }

    static lemma ChannelRenamed(db: Db, c: ChannelId, name: string)
      requires c in db.channels
      ensures forall h :: ChannelIds(ChannelPut(db, c, db.channels[c].(name := name)), h) == ChannelIds(db, h)
    {
    }

    static lemma SameSnapshots(db: Db, next: Db, cache: map<nat, Snapshot>, hash: HubId -> nat)
      requires SnapshotsCoherent(db, cache, hash) && next.hubs == db.hubs && next.members == db.members
      requires forall h :: ChannelIds(next, h) == ChannelIds(db, h)
      ensures SnapshotsCoherent(next, cache, hash)
    {
    }

    method DeleteChannel(c: ChannelId, h: HubId, accepted: bool) returns (deleted: bool)
      requires Coherent()
      modifies this`db, this`cache, this`channelCache
      ensures Coherent() && (deleted <==> accepted && c in old(db).channels && old(db).channels[c].hub == h)
      ensures db == if deleted then ChannelDeleted(old(db), c) else old(db)
    {
      deleted := accepted && c in db.channels && db.channels[c].hub == h;
      if !deleted {
        return;
      }
      LosesChannel(db, cache, hash, c);
      db := ChannelDeleted(db, c);
      channelCache := channelCache - {c};
      if hash(h) in cache {
        var s := cache[hash(h)];
        cache := cache[hash(h) := s.(channels := s.channels - {c})];
      }
    }

    /** The slot's snapshot, if there is one, without the channel. */
    static function Lost(cache: map<nat, Snapshot>, k: nat, c: ChannelId): map<nat, Snapshot> {
      if k in cache then cache[k := cache[k].(channels := cache[k].channels - {c})] else cache
    }

    /** Taking the channel from whatever its hub's slot holds keeps the snapshots right, whichever hub that is. */
    static lemma LosesChannel(db: Db, cache: map<nat, Snapshot>, hash: HubId -> nat, c: ChannelId)
      requires Integral(db) && SnapshotsCoherent(db, cache, hash) && c in db.channels
      ensures SnapshotsCoherent(ChannelDeleted(db, c), Lost(cache, hash(db.channels[c].hub), c), hash)
    {
      var h := db.channels[c].hub;
      var k, next, others := hash(h), ChannelDeleted(db, c), cache - {hash(h)};
      ChannelRemoved(db, c);
      OtherSnapshotsKept(db, next, cache, hash, h);
      if k in cache {
        PutKeepsCoherent(next, others, hash, cache[k].hub);
        assert Lost(cache, k, c) == others[k := SnapshotOf(next, cache[k].hub)];
      } else {
        assert cache == others;
      }
    }

    static lemma ChannelRemoved(db: Db, c: ChannelId)
      ensures forall h :: ChannelIds(ChannelDeleted(db, c), h) == ChannelIds(db, h) - {c}
    {
    }

    /**
     Deleting a hub deletes its channels with it; those its snapshot lists leave the channel cache.
     When the slot holds another hub's snapshot, the caches stay coherent only if none was cached.
     */
    method DeleteHub(h: HubId, owner: UserId, accepted: bool) returns (deleted: bool)
      requires Coherent()
      modifies this
      ensures old(used) <= used <= old(used) + {h}
      ensures deleted <==> accepted && h in old(db).hubs && old(db).hubs[h].owner == owner
      ensures db == if deleted then HubDeleted(old(db), h) else old(db)
      ensures Coherent() <==> || !deleted || OwnSlot(old(cache), hash, h)
                              || forall c | c in old(channelCache) :: old(channelCache)[c].hub != h
    {
      var ids := GetHubChannelIds(h);
      deleted := accepted && h in db.hubs && db.hubs[h].owner == owner;
      if !deleted {
        return;
      }
      OthersKeepChannels(db, h);
      OtherSnapshotsKept(db, HubDeleted(db, h), cache, hash, h);
      ghost var before := db;
      db := HubDeleted(db, h);
      cache := cache - {hash(h)};
      ForgetChannels(ids);
      ChannelsCoherentIff(before, old(channelCache), ids, h);
    }

    method ForgetChannels(ids: set<ChannelId>)
      modifies this`channelCache
      ensures channelCache == old(channelCache) - ids
    {
      var todo := ids;
      while todo != {}
        invariant todo <= ids && channelCache == old(channelCache) - (ids - todo)
        decreases todo
      {
        var c :| c in todo;
        todo := todo - {c};
        channelCache := channelCache - {c};
      }
    }

    /** After deleting a hub, what is left in the channel cache is right exactly if none of it is the hub's. */
    static lemma ChannelsCoherentIff(db: Db, cache: map<ChannelId, Channel>, ids: set<ChannelId>, h: HubId)
      requires ChannelsCoherent(db, cache)
      ensures ChannelsCoherent(HubDeleted(db, h), cache - ids) <==> forall c | c in cache - ids :: cache[c].hub != h
    {
    }

    static lemma OthersKeepChannels(db: Db, h: HubId)
      ensures forall g | g != h :: ChannelIds(HubDeleted(db, h), g) == ChannelIds(db, g)
    {
    }

    // -------------------------------------------------------------------------
    // Histories
    // -------------------------------------------------------------------------

    method PerformHubWrite(op: Op)
      requires Coherent() && op.IsHubWrite()
      modifies this`db, this`cache
      ensures Coherent() && db == Written(old(db), op)
    {
      assert forall h :: h in db.hubs <==> h in db.members;
      hide Coherent;
      match op
      case NewHub(h, name, owner, accepted) =>
        if h !in db.hubs {
          CreateHub(h, name, owner, accepted);
        }
      case NameHub(h, name, accepted) => var _ := RenameHub(h, name, accepted);
      case SeedHub(h, seed, accepted) => var _ := UpdateHubAvatarSeed(h, seed, accepted);
      case AddUser(h, u, role, accepted) => AddMember(h, u, role, accepted);
      case RemoveUser(h, u, accepted) => RemoveMember(h, u, accepted);
    }

    method PerformChannelWrite(op: Op)
      requires Coherent() && op.IsChannelWrite() && forall h | h in op.Hubs() :: OwnSlot(cache, hash, h)
      modifies this
      ensures Coherent() && db == Written(old(db), op) && old(used) <= used <= old(used) + op.Hubs()
    {
      assert forall h | h in op.Hubs() :: OwnSlot(cache, hash, h);
      hide Coherent;
      match op
      case DropHub(h, owner, accepted) => var _ := DeleteHub(h, owner, accepted);
      case NewChannel(c, h, name, storedType, accepted) =>
        if c !in db.channels {
          CreateChannel(c, h, name, storedType, accepted);
        }
      case NameChannel(c, name, accepted) => var _ := RenameChannel(c, name, accepted);
      case DropChannel(c, h, accepted) => var _ := DeleteChannel(c, h, accepted);
    }

    method PerformRead(op: Op)
      requires Coherent() && !op.IsHubWrite() && !op.IsChannelWrite()
      requires op.Warm? ==> forall i | 0 <= i < |op.records| :: Current(db, op.records[i])
      modifies this`cache, this`channelCache, this`used
      ensures Coherent() && old(used) <= used <= old(used) + op.Hubs()
    {
      hide Coherent;
      match op
      case ReadRole(h, u) => var _ := ResolveMembershipRole(h, u);
      case ReadMembers(h) => var _ := GetHubMembersWithRoles(h);
      case ReadHub(h) => var _ := GetHub(h);
      case ReadChannelIds(h) => var _ := GetHubChannelIds(h);
      case ReadChannel(c) => var _ := GetChannel(c);
      case ReadHubs(ids) => var _ := GetHubsByIds(ids);
      case ReadChannels(ids) => var _ := GetChannelsByIds(ids);
      case Warm(records) =>
        FirstRecordsAreRecords(records);
        WarmSnapshotsForHubs(records);
    }

    /**
     Any history of reads, warmings with current records, and writes, accepted or refused: as long
     as no two of the hubs it names or had cached hash alike, the caches stay coherent.
     */
    method Replay(history: seq<Op>, ids: set<HubId>)
      requires Coherent() && InjectiveOn(hash, ids) && used <= ids
      requires forall i | 0 <= i < |history| :: history[i].Hubs() <= ids
      requires forall i | 0 <= i < |history| :: UpToDate(WrittenAll(db, history[..i]), history[i])
      modifies this
      ensures Coherent() && db == WrittenAll(old(db), history) && used <= ids
    {
      hide Written, SnapshotsCoherent, ChannelsCoherent, Integral;
      for i := 0 to |history|
        invariant Coherent() && db == WrittenAll(old(db), history[..i]) && used <= ids
      {
        assert history[..i + 1][..i] == history[..i];
        assert UpToDate(WrittenAll(old(db), history[..i]), history[i]);
        forall h | h in history[i].Hubs() ensures OwnSlot(cache, hash, h) {
          OwnSlotAmong(db, cache, hash, ids, h);
        }
        if history[i].IsHubWrite() {
          PerformHubWrite(history[i]);
        } else if history[i].IsChannelWrite() {
          PerformChannelWrite(history[i]);
        } else {
          ReadsWriteNothing(db, history[i]);
          PerformRead(history[i]);
        }
      }
      assert history[..|history|] == history;
    }

    /** After any such history every read answers as the repository would. */
    method AnswersAfter(history: seq<Op>, ids: set<HubId>, h: HubId, u: UserId, c: ChannelId)
      returns (role: Option<Role>, members: map<UserId, Role>, row: Option<HubRow>, channelIds: set<ChannelId>,
               channel: Option<Channel>)
      requires Coherent() && InjectiveOn(hash, ids) && used <= ids && h in ids
      requires forall i | 0 <= i < |history| :: history[i].Hubs() <= ids
      requires forall i | 0 <= i < |history| :: UpToDate(WrittenAll(db, history[..i]), history[i])
      modifies this
      ensures var now := WrittenAll(old(db), history);
              && Coherent() && db == now && role == RoleIn(now, h, u) && members == MembersIn(now, h)
              && row == Lookup(now.hubs, h) && channelIds == ChannelIds(now, h) && channel == Lookup(now.channels, c)
    {
      hide SnapshotsCoherent, ChannelsCoherent, Integral;
      Replay(history, ids);
      OwnSlotAmong(db, cache, hash, ids, h);
      role := ResolveMembershipRole(h, u);
      OwnSlotAmong(db, cache, hash, ids, h);
      members := GetHubMembersWithRoles(h);
      OwnSlotAmong(db, cache, hash, ids, h);
      row := GetHub(h);
      channelIds := GetHubChannelIds(h);
      channel := GetChannel(c);
    }
  }

  /** One call of a history; accepted is false when the repository throws. */
  datatype Op =
    | NewHub(hub: HubId, name: string, owner: UserId, accepted: bool)
    | NameHub(hub: HubId, name: string, accepted: bool)
    | SeedHub(hub: HubId, seed: string, accepted: bool)
    | DropHub(hub: HubId, owner: UserId, accepted: bool)
    | AddUser(hub: HubId, user: UserId, role: Role, accepted: bool)
    | RemoveUser(hub: HubId, user: UserId, accepted: bool)
    | NewChannel(channel: ChannelId, hub: HubId, name: string, storedType: string, accepted: bool)
    | NameChannel(channel: ChannelId, name: string, accepted: bool)
    | DropChannel(channel: ChannelId, hub: HubId, accepted: bool)
    | ReadRole(hub: HubId, user: UserId)
    | ReadMembers(hub: HubId)
    | ReadHub(hub: HubId)
    | ReadChannelIds(hub: HubId)
    | ReadChannel(channel: ChannelId)
    | ReadHubs(hubIds: seq<HubId>)
    | ReadChannels(channelIds: seq<ChannelId>)
    | Warm(records: seq<Record>)
  {
    predicate IsHubWrite() {
      NewHub? || NameHub? || SeedHub? || AddUser? || RemoveUser?
    }

    predicate IsChannelWrite() {
      DropHub? || NewChannel? || NameChannel? || DropChannel?
    }

    /** The hubs the call looks up or caches. */
    function Hubs(): set<HubId> {
      match this
      case ReadHubs(ids) => set h | h in ids
      case Warm(records) => set i | 0 <= i < |records| :: records[i].0
      case NameChannel(_, _, _) => {}
      case ReadChannel(_) => {}
      case ReadChannels(_) => {}
      case _ => {hub}
    }
  }

  /** The caller of a warming passes what the repository has at that point. */
  predicate UpToDate(db: Db, op: Op) {
    op.Warm? ==> forall i | 0 <= i < |op.records| :: Current(db, op.records[i])
  }

  /** What a call does to the repository. */
  function Written(db: Db, op: Op): Db {
    if op.IsHubWrite() || op.IsChannelWrite() then if op.accepted then Accepted(db, op) else db else db
  }

  function Accepted(db: Db, op: Op): Db {
    match op
    case NewHub(h, name, owner, _) => if h in db.hubs then db else HubCreated(db, h, name, owner)
    case NameHub(h, name, _) => if h in db.hubs then HubUpdated(db, h, db.hubs[h].(name := name)) else db
    case SeedHub(h, seed, _) => if h in db.hubs then HubUpdated(db, h, db.hubs[h].(seed := seed)) else db
    case DropHub(h, owner, _) => if h in db.hubs && db.hubs[h].owner == owner then HubDeleted(db, h) else db
    case AddUser(h, u, role, _) =>
      if h in db.hubs && h in db.members then RolesPut(db, h, db.members[h][u := role]) else db
    case RemoveUser(h, u, _) => if h in db.hubs && h in db.members then RolesPut(db, h, db.members[h] - {u}) else db
    case NewChannel(c, h, name, storedType, _) =>
      if h in db.hubs && c !in db.channels then ChannelPut(db, c, Channel(name, h, IsVoice(storedType))) else db
    case NameChannel(c, name, _) => if c in db.channels then ChannelPut(db, c, db.channels[c].(name := name)) else db
    case DropChannel(c, h, _) => if c in db.channels && db.channels[c].hub == h then ChannelDeleted(db, c) else db
    case _ => db
  }

  function WrittenAll(db: Db, history: seq<Op>): Db
    decreases |history|
  {
    if history == [] then db else Written(WrittenAll(db, history[..|history| - 1]), history[|history| - 1])
  }

  lemma ReadsWriteNothing(db: Db, op: Op)
    requires !op.IsHubWrite() && !op.IsChannelWrite()
    ensures Written(db, op) == db
  {
  }

  lemma {:induction false} FirstRecordsAreRecords(hubs: seq<Record>)
    ensures forall i | 0 <= i < |FirstRecords(hubs)| :: FirstRecords(hubs)[i] in hubs
    decreases |hubs|
  {
    if hubs != [] {
      FirstRecordsAreRecords(hubs[..|hubs| - 1]);
    }
  }

  // ---------------------------------------------------------------------------
  // The hash
  // ---------------------------------------------------------------------------

  /** No two of these ids hash alike. */
  ghost predicate InjectiveOn(hash: HubId -> nat, ids: set<HubId>) {
    forall a, b | a in ids && b in ids && hash(a) == hash(b) :: a == b
  }

  /** Among ids that hash apart, every hub finds its slot empty or its own. */
  lemma OwnSlotAmong(db: Db, cache: map<nat, Snapshot>, hash: HubId -> nat, ids: set<HubId>, h: HubId)
    requires SnapshotsCoherent(db, cache, hash) && Within(cache, ids) && InjectiveOn(hash, ids) && h in ids
    ensures OwnSlot(cache, hash, h)
  {
  }

  /** Whatever coherent cache has come about from these hubs, a lookup of h finds h or nothing. */
  ghost predicate LookupsAreRight(hash: HubId -> nat, used: set<HubId>, h: HubId) {
    forall db: Db, cache: map<nat, Snapshot> | SnapshotsCoherent(db, cache, hash) && Within(cache, used) ::
      OwnSlot(cache, hash, h)
  }

  /** Lookups of a hub can be trusted if and only if no other hub in use hashes like it. */
  lemma LookupsRightIff(hash: HubId -> nat, used: set<HubId>, h: HubId)
    ensures LookupsAreRight(hash, used, h) <==> forall g | g in used && hash(g) == hash(h) :: g == h
  {
    if g :| g in used && hash(g) == hash(h) && g != h {
      CollisionServesOtherHub(hash, g, h);
    }
  }

  lemma CollisionServesOtherHub(hash: HubId -> nat, a: HubId, b: HubId)
    requires hash(a) == hash(b) && a != b
    ensures exists db: Db, cache: map<nat, Snapshot> ::
              && SnapshotsCoherent(db, cache, hash) && Within(cache, {a})
              && hash(b) in cache && cache[hash(b)].hub == a
  {
    var db := HubCreated(Db(map[], map[], map[]), a, "", UserId("u"));
    var cache := map[hash(a) := SnapshotOf(db, a)];
    assert SnapshotsCoherent(db, cache, hash) && Within(cache, {a}) && hash(b) in cache;
  }

  /** After warming, coherence comes down to the records that ended up in their slots. */
  lemma CoherentIffCurrent(db: Db, before: map<nat, Snapshot>, cache: map<nat, Snapshot>, hash: HubId -> nat,
                           records: seq<Record>)
    requires Integral(db) && SnapshotsCoherent(db, before, hash)
    requires forall k | k in cache :: Kept(before, cache, k) || Put(db, cache, hash, records, |records|, k)
    requires forall i: nat | LastOfSlot(hash, records, |records|, i) ::
               hash(records[i].0) in cache && cache[hash(records[i].0)] == WarmSnapshot(db, records[i])
    ensures SnapshotsCoherent(db, cache, hash)
            <==> forall i: nat | LastOfSlot(hash, records, |records|, i) :: Current(db, records[i])
  {
    forall i: nat | LastOfSlot(hash, records, |records|, i)
      ensures Current(db, records[i]) <==>
                && records[i].0 in db.hubs && records[i].0 in db.members
                && cache[hash(records[i].0)] == SnapshotOf(db, records[i].0)
    {
      EntryCurrentIff(db, cache, hash, records[i]);
    }
    if SnapshotsCoherent(db, cache, hash) {
      forall i: nat | LastOfSlot(hash, records, |records|, i) ensures Current(db, records[i]) {
        assert cache[hash(records[i].0)].hub == records[i].0;
      }
    }
  }
}
