/**
 ConnectionPool and TransactionRunner: slots are lent out and returned, connections are replaced
 when they break, and a unit of work is retried only where that cannot apply a write twice.
 */
module Pool {
  import opened Domain

  /** A database connection, known by its address; an address is unique among connections alive. */
  datatype Connection = Connection(address: nat)

  datatype Result<T> = Ok(value: T) | Error(message: string)

  type Slots = seq<Option<Connection>>

  /** The index is the exact inverse of the open slots. */
  ghost predicate Inverse(slots: Slots, index: map<Connection, nat>) {
    && (forall c | c in index :: index[c] < |slots| && slots[index[c]] == Some(c))
    && (forall i | 0 <= i < |slots| && slots[i].Some? :: slots[i].value in index && index[slots[i].value] == i)
  }

  /** Every slot is free exactly once or leased, never both. */
  ghost predicate Partition(n: nat, free: seq<nat>, leased: set<nat>) {
    && (forall i, j | 0 <= i < j < |free| :: free[i] != free[j])
    && (forall i: nat :: i < n <==> i in free || i in leased)
    && (forall i | i in leased :: i !in free)
  }

  lemma PopKeepsPartition(n: nat, free: seq<nat>, leased: set<nat>)
    requires Partition(n, free, leased) && free != []
    ensures Partition(n, free[..|free| - 1], leased + {free[|free| - 1]})
  {
    var k := |free| - 1;
    forall i: nat ensures i in free <==> i in free[..k] || i == free[k] {
      assert free == free[..k] + [free[k]];
    }
  }

  /** Freeing a slot keeps the partition exactly if the slot was leased; a free one would be listed twice. */
  lemma PushKeepsPartitionIff(n: nat, free: seq<nat>, leased: set<nat>, i: nat)
    requires Partition(n, free, leased) && i < n
    ensures Partition(n, free + [i], leased - {i}) <==> i in leased
  {
    if i !in leased {
      var p :| 0 <= p < |free| && free[p] == i;
      assert (free + [i])[p] == (free + [i])[|free|];
    }
  }

  lemma ReplaceKeepsInverse(slots: Slots, index: map<Connection, nat>, i: nat, c: Connection)
    requires Inverse(slots, index) && i < |slots| && c !in index
    ensures Inverse(slots[i := Some(c)], (if slots[i].Some? then index - {slots[i].value} else index)[c := i])
  {
  }

  class ConnectionPool {
    var slots: Slots
    var freeSlots: seq<nat>
    var connIndex: map<Connection, nat>
    ghost var leased: set<nat>

    ghost predicate Valid()
      reads this
    {
      Inverse(slots, connIndex) && Partition(|slots|, freeSlots, leased)
    }

    /** The connection is lent out: its slot is leased. */
    ghost predicate Lent(c: Connection)
      reads this
    {
      c in connIndex && connIndex[c] in leased
    }

    /** The slot acquire hands out next: the top of the free stack. */
    ghost function NextSlot(): (i: nat)
      reads this
      requires Valid() && freeSlots != []
      ensures i < |slots|
    {
      var i := freeSlots[|freeSlots| - 1];
      assert i in freeSlots;
      i
    }

    /** Acquire succeeds: a slot is free, and it holds an open connection or a new one can be dialed. */
    ghost predicate CanLease(stillOpen: bool, dialed: Option<Connection>)
      reads this
      requires Valid()
    {
      freeSlots != [] && (dialed.Some? || (stillOpen && slots[NextSlot()].Some?))
    }

    /** warm lists the connections opened before the first one that failed. */
    constructor (poolSize: nat, warm: seq<Connection>)
      requires poolSize > 0 && |warm| <= poolSize
      requires forall i, j | 0 <= i < j < |warm| :: warm[i] != warm[j]
      ensures Valid() && |slots| == poolSize && leased == {}
      ensures freeSlots == seq(poolSize, i requires 0 <= i < poolSize => poolSize - 1 - i)
      ensures forall i | 0 <= i < poolSize :: slots[i] == if i < |warm| then Some(warm[i]) else None
    {
      slots, freeSlots, connIndex, leased := seq(poolSize, _ => None), [], map[], {};
      new;
      for i := 0 to |warm|
        invariant |slots| == poolSize && freeSlots == [] && leased == {} && Inverse(slots, connIndex)
        invariant forall k | 0 <= k < poolSize :: slots[k] == if k < i then Some(warm[k]) else None
        invariant forall c | c in connIndex :: connIndex[c] < i && c == warm[connIndex[c]]
      {
        ReplaceKeepsInverse(slots, connIndex, i, warm[i]);
        slots := slots[i := Some(warm[i])];
        connIndex := connIndex[warm[i] := i];
      }
      ghost var all := seq(poolSize, i requires 0 <= i < poolSize => poolSize - 1 - i);
      var i := poolSize;
      while i > 0
        invariant 0 <= i <= poolSize && freeSlots == all[..poolSize - i]
        invariant |slots| == poolSize && leased == {} && Inverse(slots, connIndex)
        invariant forall k | 0 <= k < poolSize :: slots[k] == if k < |warm| then Some(warm[k]) else None
      {
        i := i - 1;
        freeSlots := freeSlots + [i];
      }
      assert all[..poolSize] == all;
      forall k: nat | k < poolSize ensures k in all {
        assert all[poolSize - 1 - k] == k;
      }
    }

    /** A pool without slots is refused. */
    static method Open(poolSize: nat, warm: seq<Connection>) returns (r: Result<ConnectionPool>)
      requires |warm| <= poolSize && forall i, j | 0 <= i < j < |warm| :: warm[i] != warm[j]
      ensures r.Error? <==> poolSize == 0
      ensures r.Ok? ==> fresh(r.value) && r.value.Valid() && |r.value.slots| == poolSize && r.value.leased == {}
    {
      if poolSize == 0 {
        return Error("pool_size must be greater than zero");
      }
      var pool := new ConnectionPool(poolSize, warm);
      r := Ok(pool);
    }

    /** First critical section of acquire: take a slot off the free stack, or time out. */
    method TakeSlot() returns (r: Result<nat>)
      requires Valid()
      modifies this`freeSlots, this`leased
      ensures Valid()
      ensures r.Ok? <==> old(freeSlots) != []
      ensures r.Ok? ==> && r.value == old(NextSlot()) && freeSlots + [r.value] == old(freeSlots)
                        && r.value !in old(leased) && leased == old(leased) + {r.value}
      ensures r.Error? ==> unchanged(this)
    {
      if freeSlots == [] {
        return Error("Connection pool timeout waiting for available connection");
      }
      PopKeepsPartition(|slots|, freeSlots, leased);
      var i := freeSlots[|freeSlots| - 1];
      freeSlots := freeSlots[..|freeSlots| - 1];
      leased := leased + {i};
      r := Ok(i);
    }

    /** Last critical section of acquire and refresh: put a fresh connection into the slot. */
    method Install(i: nat, renewal: Connection)
      requires Valid() && i < |slots| && renewal !in connIndex
      modifies this`slots, this`connIndex
      ensures Valid() && |slots| == |old(slots)| && renewal in connIndex && connIndex[renewal] == i
      ensures slots == old(slots)[i := Some(renewal)] && connIndex.Keys <= old(connIndex.Keys) + {renewal}
    {
      ReplaceKeepsInverse(slots, connIndex, i, renewal);
      if slots[i].Some? {
        connIndex := connIndex - {slots[i].value};
      }
      slots := slots[i := Some(renewal)];
      connIndex := connIndex[renewal := i];
    }

    method GiveBack(i: nat)
      requires Valid() && i < |slots|
      modifies this`freeSlots, this`leased
      ensures Valid() <==> i in old(leased)
      ensures leased == old(leased) - {i} && freeSlots == old(freeSlots) + [i]
    {
      PushKeepsPartitionIff(|slots|, freeSlots, leased, i);
      freeSlots := freeSlots + [i];
      leased := leased - {i};
    }

    /**
     stillOpen says whether the slot's connection answers; dialed is what connecting yields, or
     None when the database is unreachable.
     */
    method Acquire(stillOpen: bool, dialed: Option<Connection>) returns (r: Result<Connection>)
      requires Valid() && (dialed.Some? ==> dialed.value !in connIndex)
      modifies this
      ensures Valid() && |slots| == |old(slots)|
      ensures r.Ok? ==> Lent(r.value) && connIndex[r.value] !in old(leased)
                        && leased == old(leased) + {connIndex[r.value]}
      ensures r.Error? ==> leased == old(leased) && freeSlots == old(freeSlots) && slots == old(slots)
      ensures r.Ok? <==> old(CanLease(stillOpen, dialed))
      ensures forall c | c in connIndex :: c in old(connIndex) || Some(c) == dialed
    {
      var taken := TakeSlot();
      if taken.Error? {
        return Error(taken.message);
      }
      var i := taken.value;
      if slots[i].None? || !stillOpen {
        if dialed.None? {
          GiveBack(i);
          return Error("Failed to open database connection");
        }
        Install(i, dialed.value);
      }
      r := Ok(slots[i].value);
    }

    method Refresh(c: Connection, dialed: Option<Connection>) returns (r: Result<Connection>)
      requires Valid() && (dialed.Some? ==> dialed.value !in connIndex)
      modifies this`slots, this`connIndex
      ensures Valid() && |slots| == |old(slots)|
      ensures r.Ok? <==> old(c in connIndex) && dialed.Some?
      ensures r.Ok? ==> r.value == dialed.value && r.value in connIndex && connIndex[r.value] == old(connIndex)[c]
      ensures r.Error? ==> unchanged(this)
    {
      if c !in connIndex {
        return Error("Attempted to refresh unknown connection");
      }
      var i := connIndex[c];
      if dialed.None? {
        return Error("Failed to open database connection");
      }
      Install(i, dialed.value);
      r := Ok(dialed.value);
    }

    /** The slot goes back on the stack unchecked: the pool stays sound exactly if a known connection was lent out. */
    method Release(c: Connection) returns (r: Result<()>)
      requires Valid()
      modifies this`freeSlots, this`leased
      ensures Valid() <==> (c in connIndex ==> old(Lent(c)))
      ensures r.Ok? <==> c in connIndex
      ensures r.Ok? ==> leased == old(leased) - {connIndex[c]} && freeSlots == old(freeSlots) + [connIndex[c]]
      ensures r.Error? ==> unchanged(this)
    {
      if c !in connIndex {
        return Error("Attempted to release unknown connection");
      }
      GiveBack(connIndex[c]);
      r := Ok(());
    }
  }

  // ---------------------------------------------------------------------------
  // TransactionRunner
  // ---------------------------------------------------------------------------

  const MAX_ATTEMPTS := 2

  /** How one attempt at the unit of work goes. */
  datatype Attempt =
    | Completed
    | BrokenBeforeCommit
    | BrokenInCommit
    | FailedBeforeCommit
    | FailedInCommit

  datatype Outcome = Returned | Transient | Failed

  /** commits counts the attempts that reached commit. */
  datatype Report = Report(outcome: Outcome, attempts: nat, commits: nat)

  predicate Broken(a: Attempt) {
    a == BrokenBeforeCommit || a == BrokenInCommit
  }

  predicate ReachesCommit(a: Attempt) {
    a == Completed || a == BrokenInCommit || a == FailedInCommit
  }

  /** The connection broke where trying again cannot apply a write twice. */
  predicate RetrySafe(a: Attempt, idempotent: bool) {
    a == BrokenBeforeCommit || (idempotent && a == BrokenInCommit)
  }

  /** How many of the attempts reached commit. */
  function Commits(script: seq<Attempt>): nat {
    if script == [] then 0
    else Commits(script[..|script| - 1]) + if ReachesCommit(script[|script| - 1]) then 1 else 0
  }

  class TransactionRunner {
    const readPool: ConnectionPool
    const writePool: ConnectionPool

    constructor (readPool: ConnectionPool, writePool: ConnectionPool)
      ensures this.readPool == readPool && this.writePool == writePool
    {
      this.readPool, this.writePool := readPool, writePool;
    }

    /** Leases a connection, attempts the work, and gives the lease back however it ends. */
    method Run(pool: ConnectionPool, idempotent: bool, stillOpen: bool, dialed: Option<Connection>,
               script: seq<Attempt>, redialed: Option<Connection>) returns (r: Report)
      requires pool.Valid() && |script| >= MAX_ATTEMPTS
      requires dialed.Some? ==> dialed.value !in pool.connIndex
      requires redialed.Some? ==> redialed.value !in pool.connIndex && redialed != dialed
      modifies pool
      ensures pool.Valid() && pool.leased == old(pool.leased) && |pool.slots| == |old(pool.slots)|
      ensures r.attempts <= MAX_ATTEMPTS && r.commits == Commits(script[..r.attempts])
      ensures !idempotent ==> r.commits <= 1
      ensures r.outcome == Returned <==> r.attempts > 0 && script[r.attempts - 1] == Completed
      ensures r.outcome == Failed <==> r.attempts > 0 && script[r.attempts - 1] in {FailedBeforeCommit, FailedInCommit}
      ensures r.attempts > 0 <==> old(pool.CanLease(stillOpen, dialed))
      ensures r.attempts == 2 <==> r.attempts > 0 && RetrySafe(script[0], idempotent) && redialed.Some?
    {
      hide Inverse, Partition;
      var lease := pool.Acquire(stillOpen, dialed);
      if lease.Error? {
        return Report(Transient, 0, 0);
      }
      var conn := lease.value;
      ghost var slot := pool.connIndex[conn];
      var attempt, commits := 1, 0;
      while true
        invariant 1 <= attempt <= MAX_ATTEMPTS && commits == Commits(script[..attempt - 1])
        invariant pool.Valid() && |pool.slots| == |old(pool.slots)|
        invariant pool.Lent(conn) && pool.connIndex[conn] == slot && pool.leased == old(pool.leased) + {slot}
        invariant attempt == 1 ==> redialed.Some? ==> redialed.value !in pool.connIndex
        invariant attempt > 1 ==> RetrySafe(script[0], idempotent) && redialed.Some?
        decreases MAX_ATTEMPTS - attempt
      {
        var now := script[attempt - 1];
        assert script[..attempt][..attempt - 1] == script[..attempt - 1];
        var commitAttempted := ReachesCommit(now);
        if commitAttempted {
          commits := commits + 1;
        }
        OneSafeCommit(script, attempt);
        if now == Completed {
          r := Report(Returned, attempt, commits);
          break;
        }
        if !Broken(now) {
          r := Report(Failed, attempt, commits);
          break;
        }
        var safeToRetry := idempotent || !commitAttempted;
        if !(safeToRetry && attempt < MAX_ATTEMPTS) {
          r := Report(Transient, attempt, commits);
          break;
        }
        var renewed := pool.Refresh(conn, redialed);
        if renewed.Error? {
          r := Report(Transient, attempt, commits);
          break;
        }
        conn := renewed.value;
        attempt := attempt + 1;
      }
      var _ := pool.Release(conn);
    }

    static lemma OneSafeCommit(script: seq<Attempt>, n: nat)
      requires n <= |script| && n <= MAX_ATTEMPTS
      ensures n == 0 ==> Commits(script[..n]) == 0
      ensures n == 1 ==> Commits(script[..n]) <= 1
      ensures n == 2 && script[0] == BrokenBeforeCommit ==> Commits(script[..n]) <= 1
    {
      if n > 0 {
        assert script[..1][..0] == [];
        assert Commits(script[..1]) == if ReachesCommit(script[0]) then 1 else 0;
        assert n == 2 ==> script[..2][..1] == script[..1];
      }
    }

    method Read(stillOpen: bool, dialed: Option<Connection>, script: seq<Attempt>, redialed: Option<Connection>)
      returns (r: Report)
      requires readPool.Valid() && |script| >= MAX_ATTEMPTS
      requires dialed.Some? ==> dialed.value !in readPool.connIndex
      requires redialed.Some? ==> redialed.value !in readPool.connIndex && redialed != dialed
      modifies readPool
      ensures readPool.Valid() && readPool.leased == old(readPool.leased) && r.attempts <= MAX_ATTEMPTS
      ensures r.outcome == Returned <==> r.attempts > 0 && script[r.attempts - 1] == Completed
    {
      r := Run(readPool, true, stillOpen, dialed, script, redialed);
    }

    /** A write reaches commit at most once, so it is never applied twice. */
    method Write(stillOpen: bool, dialed: Option<Connection>, script: seq<Attempt>, redialed: Option<Connection>)
      returns (r: Report)
      requires writePool.Valid() && |script| >= MAX_ATTEMPTS
      requires dialed.Some? ==> dialed.value !in writePool.connIndex
      requires redialed.Some? ==> redialed.value !in writePool.connIndex && redialed != dialed
      modifies writePool
      ensures writePool.Valid() && writePool.leased == old(writePool.leased) && r.attempts <= MAX_ATTEMPTS
      ensures r.commits == Commits(script[..r.attempts]) <= 1
      ensures r.outcome == Returned ==> r.commits == 1
    {
      r := Run(writePool, false, stillOpen, dialed, script, redialed);
      if r.attempts > 0 {
        assert script[..r.attempts][|script[..r.attempts]| - 1] == script[r.attempts - 1];
      }
    }
  }
}
