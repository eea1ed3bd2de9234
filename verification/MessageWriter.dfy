/**
 AsyncMessageWriter over DbWriteQueue: producers reserve a slot and push, one worker pops, writes,
 and puts a failed write back while it has retries left. Accepted messages are numbered in order.
 */
module MessageWriter {
  datatype Fate = Inserted | Failed | DroppedOnRequeue

  /** What the worker is doing; Popped has not given its slot back yet, Repushing has a new one. */
  datatype Phase = Idle | Popped(id: nat) | Writing(id: nat) | Retrying(id: nat) | Repushing(id: nat)

  /** reserved holds messages whose producer has a slot but has not pushed yet. */
  datatype Writer = Writer(
    capacity: nat,
    maxRetries: nat,
    queue: seq<nat>,
    size: nat,
    reserved: set<nat>,
    worker: Phase,
    accepted: nat,
    attempt: map<nat, nat>,
    tries: map<nat, nat>,
    fates: map<nat, Fate>)

  function NewWriter(capacity: nat, maxRetries: nat): Writer {
    Writer(capacity, maxRetries, [], 0, {}, Idle, 0, map[], map[], map[])
  }

  datatype Step = Accept | Push(id: nat) | Pop | GiveBack | WriteOk | WriteFails | Requeue | Repush

  predicate HasRoom(w: Writer) {
    w.capacity == 0 || w.size < w.capacity
  }

  predicate Enabled(w: Writer, step: Step) {
    match step
    case Accept => HasRoom(w)
    case Push(id) => id in w.reserved
    case Pop => w.worker.Idle? && w.queue != []
    case GiveBack => w.worker.Popped? && w.size > 0
    case WriteOk => w.worker.Writing? && w.worker.id in w.tries
    case WriteFails => w.worker.Writing? && w.worker.id in w.tries && w.worker.id in w.attempt
    case Requeue => w.worker.Retrying?
    case Repush => w.worker.Repushing?
  }

  function Next(w: Writer, step: Step): Writer
    requires Enabled(w, step)
  {
    match step
    case Accept =>
      var id := w.accepted;
      w.(size := w.size + 1, reserved := w.reserved + {id}, accepted := id + 1,
         attempt := w.attempt[id := 0], tries := w.tries[id := 0])
    case Push(id) => w.(queue := w.queue + [id], reserved := w.reserved - {id})
    case Pop => w.(queue := w.queue[1..], worker := Popped(w.queue[0]))
    case GiveBack => w.(size := w.size - 1, worker := Writing(w.worker.id))
    case WriteOk =>
      var id := w.worker.id;
      w.(tries := w.tries[id := w.tries[id] + 1], fates := w.fates[id := Inserted], worker := Idle)
    case WriteFails =>
      var id := w.worker.id;
      var w' := w.(tries := w.tries[id := w.tries[id] + 1]);
      if w.attempt[id] < w.maxRetries
      then w'.(attempt := w.attempt[id := w.attempt[id] + 1], worker := Retrying(id))
      else w'.(fates := w.fates[id := Failed], worker := Idle)
    case Requeue =>
      var id := w.worker.id;
      if HasRoom(w) then w.(size := w.size + 1, worker := Repushing(id))
      else w.(fates := w.fates[id := DroppedOnRequeue], worker := Idle)
    case Repush => w.(queue := w.queue + [w.worker.id], worker := Idle)
  }

  // ---------------------------------------------------------------------------
  // Every accepted message is in exactly one place.
  // ---------------------------------------------------------------------------

  predicate Held(w: Writer, id: nat) {
    !w.worker.Idle? && w.worker.id == id
  }

  function One(b: bool): nat {
    if b then 1 else 0
  }

  /** In how many of the four places the message is: waiting to be pushed, queued, held, or settled. */
  function Places(w: Writer, id: nat): nat {
    One(id in w.reserved) + One(id in w.queue) + One(Held(w, id)) + One(id in w.fates)
  }

  ghost predicate Conserved(w: Writer) {
    && (forall id: nat :: Places(w, id) == One(id < w.accepted))
    && (forall i, j | 0 <= i < j < |w.queue| :: w.queue[i] != w.queue[j])
  }

  /** Tries so far against the attempt number; a message is tried at most once per attempt number. */
  predicate TriesMatch(w: Writer, id: nat) {
    && id in w.tries && id in w.attempt && w.attempt[id] <= w.maxRetries
    && w.tries[id] == w.attempt[id] + One(id in w.fates && w.fates[id] != DroppedOnRequeue)
    && (id in w.fates && w.fates[id] == Failed ==> w.attempt[id] == w.maxRetries)
  }

  ghost predicate TriesCounted(w: Writer) {
    forall id: nat | id < w.accepted :: TriesMatch(w, id)
  }

  /** The size counter is the queue plus slots reserved ahead of a push or not yet given back. */
  ghost predicate SizeRight(w: Writer) {
    && w.size == |w.queue| + |w.reserved| + One(w.worker.Popped? || w.worker.Repushing?)
    && (w.capacity > 0 ==> w.size <= w.capacity)
  }

  ghost predicate Inv(w: Writer) {
    Conserved(w) && TriesCounted(w) && SizeRight(w)
  }

  lemma StepKeepsPlace(w: Writer, step: Step, id: nat)
    requires Conserved(w) && Enabled(w, step)
    ensures Places(Next(w, step), id) == One(id < Next(w, step).accepted)
  {
    assert Places(w, id) == One(id < w.accepted);
    assert step.Pop? ==> w.queue == [w.queue[0]] + w.queue[1..];
  }

  lemma StepKeepsConserved(w: Writer, step: Step)
    requires Conserved(w) && Enabled(w, step)
    ensures Conserved(Next(w, step))
  {
    forall id: nat ensures Places(Next(w, step), id) == One(id < Next(w, step).accepted) {
      StepKeepsPlace(w, step, id);
    }
    hide Places;
    if step.Push? {
      NotQueued(w, step.id);
    } else if step.Repush? {
      NotQueued(w, w.worker.id);
    }
  }

  /** A message waiting to be pushed or held by the worker is not in the queue. */
  lemma NotQueued(w: Writer, id: nat)
    requires Conserved(w)
    ensures id in w.reserved || Held(w, id) ==> id !in w.queue
  {
    assert Places(w, id) == One(id < w.accepted);
  }

  lemma StepKeepsTries(w: Writer, step: Step)
    requires Conserved(w) && TriesCounted(w) && Enabled(w, step)
    ensures TriesCounted(Next(w, step))
  {
    var n := Next(w, step);
    assert !w.worker.Idle? ==> Places(w, w.worker.id) == One(w.worker.id < w.accepted);
    forall id: nat | id < n.accepted ensures TriesMatch(n, id) {
      assert Places(w, id) == One(id < w.accepted);
      assert id < w.accepted ==> TriesMatch(w, id);
    }
  }

  lemma StepKeepsSize(w: Writer, step: Step)
    requires Conserved(w) && SizeRight(w) && Enabled(w, step)
    ensures SizeRight(Next(w, step))
  {
    hide Conserved;
    NewIdIsNotReserved(w);
    if step.Accept? {
      assert |w.reserved + {w.accepted}| == |w.reserved| + 1;
    } else if step.Push? {
      assert |w.reserved - {step.id}| == |w.reserved| - 1;
    }
  }

  lemma NewIdIsNotReserved(w: Writer)
    requires Conserved(w)
    ensures w.accepted !in w.reserved
  {
    assert Places(w, w.accepted) == 0;
  }

  lemma StepKeepsInv(w: Writer, step: Step)
    requires Inv(w) && Enabled(w, step)
    ensures Inv(Next(w, step))
  {
    hide Next, Conserved, TriesCounted, SizeRight;
    StepKeepsConserved(w, step);
    StepKeepsTries(w, step);
    StepKeepsSize(w, step);
  }

  // ---------------------------------------------------------------------------
  // Runs
  // ---------------------------------------------------------------------------

  datatype Run = Run(states: seq<Writer>, steps: seq<Step>) {
    ghost predicate Shaped() {
      |states| == |steps| + 1 && states[0] == NewWriter(states[0].capacity, states[0].maxRetries)
    }

    ghost predicate Follows(i: nat)
      requires Shaped() && i < |steps|
    {
      Enabled(states[i], steps[i]) && states[i + 1] == Next(states[i], steps[i])
    }

    ghost predicate Valid() {
      Shaped() && forall i: nat | i < |steps| :: Follows(i)
    }
  }

  lemma {:induction false} RunKeepsInv(r: Run, n: nat)
    requires r.Valid() && n <= |r.steps|
    ensures Inv(r.states[n])
  {
    hide Next, Enabled;
    if n > 0 {
      RunKeepsInv(r, n - 1);
      assert r.Follows(n - 1);
      StepKeepsInv(r.states[n - 1], r.steps[n - 1]);
    }
  }

  /**
   For every interleaving: an accepted message is waiting, queued, held by the worker or settled,
   never two of these, and it is tried at most maxRetries + 1 times.
   */
  lemma EveryMessageSettlesOnce(r: Run, n: nat, id: nat)
    requires r.Valid() && n <= |r.steps| && id < r.states[n].accepted
    ensures var w := r.states[n];
            && Places(w, id) == 1 && id in w.tries && w.tries[id] <= w.maxRetries + 1
            && (id in w.fates && w.fates[id] == Failed ==> w.tries[id] == w.maxRetries + 1)
  {
    RunKeepsInv(r, n);
    assert Places(r.states[n], id) == 1 && TriesMatch(r.states[n], id);
  }

  lemma StepKeepsFate(w: Writer, step: Step, id: nat)
    requires Inv(w) && Enabled(w, step) && id in w.fates
    ensures var n := Next(w, step); id in n.fates && n.fates[id] == w.fates[id]
  {
    assert Places(w, id) == One(id < w.accepted);
  }

  /** A recorded fate is final: nothing later in the run changes it. */
  lemma {:induction false} FatesAreFinal(r: Run, i: nat, j: nat, id: nat)
    requires r.Valid() && i <= j <= |r.steps| && id in r.states[i].fates
    ensures id in r.states[j].fates && r.states[j].fates[id] == r.states[i].fates[id]
    decreases j
  {
    hide Next, Enabled, Inv;
    if i < j {
      FatesAreFinal(r, i, j - 1, id);
      RunKeepsInv(r, j - 1);
      assert r.Follows(j - 1);
      StepKeepsFate(r.states[j - 1], r.steps[j - 1], id);
    }
  }

  /** The size counter never undercounts the queue and never exceeds a non-zero capacity. */
  lemma SizeBoundsTheQueue(r: Run, n: nat)
    requires r.Valid() && n <= |r.steps|
    ensures var w := r.states[n]; |w.queue| <= w.size && (w.capacity > 0 ==> w.size <= w.capacity)
  {
    RunKeepsInv(r, n);
  }

  // ---------------------------------------------------------------------------
  // Draining ends
  // ---------------------------------------------------------------------------

  function Rank(w: Writer, id: nat): nat {
    if id in w.reserved then 4
    else if id in w.queue then 3
    else
      match w.worker
      case Popped(_) => 2
      case Writing(_) => 1
      case Retrying(_) => 5
      case Repushing(_) => 4
      case Idle => 0
  }

  /** Work left on one message: its remaining attempts, then how far the current one has come. */
  function Weight(w: Writer, id: nat): nat {
    if id in w.fates || id !in w.attempt || w.attempt[id] > w.maxRetries then 0
    else 6 * (w.maxRetries + 1 - w.attempt[id]) + Rank(w, id)
  }

  function WorkLeft(w: Writer, upTo: nat): nat {
    if upTo == 0 then 0 else WorkLeft(w, upTo - 1) + Weight(w, upTo - 1)
  }

  lemma {:induction false} OneWeightDrops(w: Writer, n: Writer, k: nat, upTo: nat)
    requires forall id: nat | id < upTo && id != k :: Weight(n, id) == Weight(w, id)
    requires k < upTo ==> Weight(n, k) < Weight(w, k)
    ensures if k < upTo then WorkLeft(n, upTo) < WorkLeft(w, upTo) else WorkLeft(n, upTo) == WorkLeft(w, upTo)
    decreases upTo
  {
    if upTo > 0 {
      OneWeightDrops(w, n, k, upTo - 1);
    }
  }

  /** The message a step is about. */
  function Subject(w: Writer, step: Step): nat
    requires Enabled(w, step)
  {
    match step
    case Accept => w.accepted
    case Push(id) => id
    case Pop => w.queue[0]
    case _ => w.worker.id
  }

  lemma StepDropsWeight(w: Writer, step: Step, id: nat)
    requires Inv(w) && Enabled(w, step) && !step.Accept? && id < w.accepted
    ensures var n := Next(w, step);
            if id == Subject(w, step) then Weight(n, id) < Weight(w, id) else Weight(n, id) == Weight(w, id)
  {
    assert Places(w, id) == 1 && TriesMatch(w, id);
    assert Places(w, Subject(w, step)) == One(Subject(w, step) < w.accepted);
    assert step.Pop? ==> forall i | 0 < i < |w.queue| :: w.queue[0] != w.queue[i];
  }

  /** Without new messages every step leaves strictly less to do. */
  lemma StepReducesWork(w: Writer, step: Step)
    requires Inv(w) && Enabled(w, step) && !step.Accept?
    ensures Next(w, step).accepted == w.accepted
    ensures WorkLeft(Next(w, step), w.accepted) < WorkLeft(w, w.accepted)
  {
    var k := Subject(w, step);
    assert Places(w, k) == One(k < w.accepted);
    forall id: nat | id < w.accepted
      ensures if id == k then Weight(Next(w, step), id) < Weight(w, id) else Weight(Next(w, step), id) == Weight(w, id)
    {
      StepDropsWeight(w, step, id);
    }
    OneWeightDrops(w, Next(w, step), k, w.accepted);
  }

  /** As long as a message is unsettled, some step other than accepting a new one is possible. */
  lemma NeverStuck(w: Writer, id: nat)
    requires Inv(w) && id < w.accepted && id !in w.fates
    ensures exists step: Step :: !step.Accept? && Enabled(w, step)
  {
    assert Places(w, id) == 1;
    if id in w.reserved {
      assert Enabled(w, Push(id));
    } else {
      assert !w.worker.Idle? ==> Places(w, w.worker.id) == One(w.worker.id < w.accepted);
      assert !w.worker.Idle? ==> TriesMatch(w, w.worker.id);
      match w.worker
      case Idle => assert Enabled(w, Pop);
      case Popped(_) => assert Enabled(w, GiveBack);
      case Writing(_) => assert Enabled(w, WriteOk);
      case Retrying(_) => assert Enabled(w, Requeue);
      case Repushing(_) => assert Enabled(w, Repush);
    }
  }

  /** From any reachable state, a run without new messages is no longer than the work left in it. */
  lemma {:induction false} DrainIsBounded(r: Run, start: nat, n: nat)
    requires r.Valid() && start <= n <= |r.steps|
    requires forall i | start <= i < n :: !r.steps[i].Accept?
    ensures r.states[n].accepted == r.states[start].accepted
    ensures WorkLeft(r.states[n], r.states[n].accepted) + (n - start)
            <= WorkLeft(r.states[start], r.states[start].accepted)
    decreases n
  {
    hide Next, Enabled, Inv, WorkLeft;
    if n > start {
      DrainIsBounded(r, start, n - 1);
      RunKeepsInv(r, n - 1);
      assert r.Follows(n - 1);
      StepReducesWork(r.states[n - 1], r.steps[n - 1]);
    }
  }

  // ---------------------------------------------------------------------------
  // The writer, draining alone
  // ---------------------------------------------------------------------------

  datatype Request = Request(id: nat, attempt: nat)

  /** What becomes of a request when writing id at attempt a succeeds exactly if ok(id, a). */
  function FateOf(r: Request, maxRetries: nat, ok: (nat, nat) -> bool): (f: Fate)
    ensures f != DroppedOnRequeue
    ensures f == Inserted <==> ok(r.id, r.attempt) || exists a :: r.attempt < a <= maxRetries && ok(r.id, a)
    decreases maxRetries - r.attempt
  {
    if ok(r.id, r.attempt) then Inserted
    else if r.attempt < maxRetries then
      var f := FateOf(Request(r.id, r.attempt + 1), maxRetries, ok);
      assert f == Inserted ==> exists a :: r.attempt < a <= maxRetries && ok(r.id, a);
      f
    else Failed
  }

  function Burden(q: seq<Request>, maxRetries: nat): nat {
    if q == [] then 0
    else
      var last := q[|q| - 1].attempt;
      Burden(q[..|q| - 1], maxRetries) + 1 + if last <= maxRetries then maxRetries - last else 0
  }

  lemma {:induction false} BurdenOfRest(q: seq<Request>, maxRetries: nat)
    requires q != []
    ensures Burden(q, maxRetries)
            == 1 + (if q[0].attempt <= maxRetries then maxRetries - q[0].attempt else 0) + Burden(q[1..], maxRetries)
    decreases |q|
  {
    if |q| == 1 {
      assert q[..0] == [] && q[1..] == [];
    } else {
      BurdenOfRest(q[..|q| - 1], maxRetries);
      assert q[..|q| - 1][1..] == q[1..][..|q[1..]| - 1];
    }
  }

  ghost predicate DistinctIds(q: seq<Request>) {
    forall i, j | 0 <= i < j < |q| :: q[i].id != q[j].id
  }

  function FinalFates(q: seq<Request>, maxRetries: nat, ok: (nat, nat) -> bool): map<nat, Fate> {
    if q == [] then map[]
    else
      var r := q[|q| - 1];
      FinalFates(q[..|q| - 1], maxRetries, ok)[r.id := FateOf(r, maxRetries, ok)]
  }

  lemma {:induction false} FinalFatesOfRest(q: seq<Request>, maxRetries: nat, ok: (nat, nat) -> bool)
    requires q != [] && DistinctIds(q)
    ensures var rest := FinalFates(q[1..], maxRetries, ok);
            q[0].id !in rest && FinalFates(q, maxRetries, ok) == rest[q[0].id := FateOf(q[0], maxRetries, ok)]
    decreases |q|
  {
    if |q| == 1 {
      assert q[..0] == [] && q[1..] == [];
    } else {
      FinalFatesOfRest(q[..|q| - 1], maxRetries, ok);
      assert q[..|q| - 1][1..] == q[1..][..|q[1..]| - 1];
    }
  }

  /** Putting the oldest request back with its next attempt changes no fate and lightens the burden. */
  lemma RequeueKeepsFates(q: seq<Request>, maxRetries: nat, ok: (nat, nat) -> bool)
    requires q != [] && DistinctIds(q) && q[0].attempt < maxRetries && !ok(q[0].id, q[0].attempt)
    ensures var next := q[1..] + [Request(q[0].id, q[0].attempt + 1)];
            && DistinctIds(next) && FinalFates(next, maxRetries, ok) == FinalFates(q, maxRetries, ok)
            && Burden(next, maxRetries) < Burden(q, maxRetries)
  {
    var next := q[1..] + [Request(q[0].id, q[0].attempt + 1)];
    assert next[..|next| - 1] == q[1..];
    BurdenOfRest(q, maxRetries);
    FinalFatesOfRest(q, maxRetries, ok);
  }

  /** Settling the oldest request records the fate it was bound for. */
  lemma SettleKeepsFates(q: seq<Request>, fates: map<nat, Fate>, maxRetries: nat, ok: (nat, nat) -> bool)
    requires q != [] && DistinctIds(q)
    ensures fates[q[0].id := FateOf(q[0], maxRetries, ok)] + FinalFates(q[1..], maxRetries, ok)
            == fates + FinalFates(q, maxRetries, ok)
    ensures Burden(q[1..], maxRetries) < Burden(q, maxRetries)
  {
    BurdenOfRest(q, maxRetries);
    FinalFatesOfRest(q, maxRetries, ok);
  }

  class AsyncMessageWriter {
    const capacity: nat
    const maxRetries: nat
    var queue: seq<Request>
    var size: nat
    var fates: map<nat, Fate>

    ghost predicate Valid()
      reads this
    {
      && size == |queue| && (capacity > 0 ==> size <= capacity)
      && (forall r | r in queue :: r.attempt <= maxRetries)
      && DistinctIds(queue)
    }

    constructor (capacity: nat, maxRetries: nat)
      ensures Valid() && queue == [] && fates == map[] && this.maxRetries == maxRetries && this.capacity == capacity
    {
      this.capacity, this.maxRetries := capacity, maxRetries;
      queue, size, fates := [], 0, map[];
    }

    /** try_push: refused exactly when a non-zero capacity is used up. */
    method TryPush(r: Request) returns (ok: bool)
      requires Valid() && r.attempt <= maxRetries && forall x | x in queue :: x.id != r.id
      modifies this`queue, this`size
      ensures Valid() && (ok <==> capacity == 0 || old(size) < capacity)
      ensures queue == if ok then old(queue) + [r] else old(queue)
    {
      if capacity > 0 && size >= capacity {
        return false;
      }
      size := size + 1;
      queue := queue + [r];
      ok := true;
    }

    method Enqueue(id: nat) returns (ok: bool)
      requires Valid() && forall x | x in queue :: x.id != id
      modifies this`queue, this`size
      ensures Valid() && (ok <==> capacity == 0 || old(size) < capacity)
      ensures queue == if ok then old(queue) + [Request(id, 0)] else old(queue)
    {
      ok := TryPush(Request(id, 0));
    }

    /** One turn of worker_loop: the oldest request is settled, or goes to the back with one attempt less. */
    method WriteOldest(ok: (nat, nat) -> bool)
      requires Valid() && queue != []
      modifies this
      ensures Valid() && Burden(queue, maxRetries) < Burden(old(queue), maxRetries)
      ensures fates + FinalFates(queue, maxRetries, ok) == old(fates) + FinalFates(old(queue), maxRetries, ok)
    {
      hide FinalFates, Burden;
      var r := queue[0];
      if !ok(r.id, r.attempt) && r.attempt < maxRetries {
        RequeueKeepsFates(queue, maxRetries, ok);
        queue := queue[1..];
        size := size - 1;
        var _ := TryPush(Request(r.id, r.attempt + 1));
      } else {
        SettleKeepsFates(queue, fates, maxRetries, ok);
        queue := queue[1..];
        size := size - 1;
        fates := fates[r.id := if ok(r.id, r.attempt) then Inserted else Failed];
      }
    }

    /** worker_loop on a stopped queue: it ends, and each request has met its fate. */
    method Drain(ok: (nat, nat) -> bool)
      requires Valid()
      modifies this
      ensures Valid() && queue == [] && size == 0
      ensures fates == old(fates) + FinalFates(old(queue), maxRetries, ok)
    {
      while queue != []
        invariant Valid()
        invariant fates + FinalFates(queue, maxRetries, ok) == old(fates) + FinalFates(old(queue), maxRetries, ok)
        decreases Burden(queue, maxRetries)
      {
        WriteOldest(ok);
      }
    }
  }
}
