/**
 WorkerPool's in-flight guard: workers mark the (connection, command type) they dispatch so that a
 second one of the same kind is dropped, and unmark it when done, exceptions included.
 */
module Workers {
  import opened Domain

  /** Command types: the four that may repeat freely, and all others. */
  datatype Type = MessageSend | MessageFetchBefore | Typing | VoiceActivity | Other(code: nat)

  predicate UsesInflightDedup(t: Type) {
    t.Other?
  }

  type Executing = map<ConnId, set<Type>>

  predicate Marked(ex: Executing, c: ConnId, t: Type) {
    c in ex && t in ex[c]
  }

  function WithMark(ex: Executing, c: ConnId, t: Type): Executing {
    ex[c := (if c in ex then ex[c] else {}) + {t}]
  }

  function WithoutMark(ex: Executing, c: ConnId, t: Type): Executing {
    if c !in ex then ex
    else if ex[c] - {t} == {} then ex - {c}
    else ex[c := ex[c] - {t}]
  }

  class InFlightGuard {
    var executing: Executing

    constructor ()
      ensures executing == map[]
    {
      executing := map[];
    }

    method TryMarkExecuting(c: ConnId, t: Type) returns (marked: bool)
      modifies this
      ensures marked <==> !Marked(old(executing), c, t)
      ensures executing == if marked then WithMark(old(executing), c, t) else old(executing)
    {
      var types := if c in executing then executing[c] else {};
      if t in types {
        return false;
      }
      executing := executing[c := types + {t}];
      marked := true;
    }

    method UnmarkExecuting(c: ConnId, t: Type)
      modifies this
      ensures executing == WithoutMark(old(executing), c, t)
    {
      if c !in executing {
        return;
      }
      executing := executing[c := executing[c] - {t}];
      if executing[c] == {} {
        executing := executing - {c};
      }
    }
  }

  // ---------------------------------------------------------------------------
  // Any number of workers, interleaved
  // ---------------------------------------------------------------------------

  /** Where a worker is in handle_event. */
  datatype Phase =
    | Idle
    | Taken(conn: ConnId, kind: Type)
    | Dispatching(conn: ConnId, kind: Type)
    | Ending(conn: ConnId, kind: Type)

  /** owner names the worker behind each mark. */
  datatype Machine = Machine(executing: Executing, workers: map<nat, Phase>, owner: map<(ConnId, Type), nat>)

  const INITIAL := Machine(map[], map[], map[])

  function PhaseOf(m: Machine, w: nat): Phase {
    if w in m.workers then m.workers[w] else Idle
  }

  /** Dispatch may throw; ThrowEarly is an exception between taking the event and marking it. */
  datatype Step =
    | Take(worker: nat, conn: ConnId, kind: Type)
    | RejectPayload(worker: nat)
    | ThrowEarly(worker: nat)
    | Mark(worker: nat)
    | DispatchReturns(worker: nat)
    | DispatchThrows(worker: nat)
    | Unmark(worker: nat)

  predicate Enabled(m: Machine, step: Step) {
    var p := PhaseOf(m, step.worker);
    match step
    case Take(_, _, _) => p.Idle?
    case RejectPayload(_) => p.Taken?
    case ThrowEarly(_) => p.Taken?
    case Mark(_) => p.Taken?
    case DispatchReturns(_) => p.Dispatching?
    case DispatchThrows(_) => p.Dispatching?
    case Unmark(_) => p.Ending?
  }

  /** Unmarks whatever is marked for the pair, as both the normal path and the exception path do. */
  function Finished(m: Machine, w: nat, c: ConnId, t: Type): Machine {
    Machine(WithoutMark(m.executing, c, t), m.workers[w := Idle], m.owner - {(c, t)})
  }

  function Next(m: Machine, step: Step): Machine
    requires Enabled(m, step)
  {
    var w := step.worker;
    var p := PhaseOf(m, w);
    match step
    case Take(_, c, t) => m.(workers := m.workers[w := Taken(c, t)])
    case RejectPayload(_) => m.(workers := m.workers[w := Idle])
    case ThrowEarly(_) => Finished(m, w, p.conn, p.kind)
    case Mark(_) =>
      if !UsesInflightDedup(p.kind) then m.(workers := m.workers[w := Dispatching(p.conn, p.kind)])
      else if Marked(m.executing, p.conn, p.kind) then m.(workers := m.workers[w := Idle])
      else Machine(WithMark(m.executing, p.conn, p.kind), m.workers[w := Dispatching(p.conn, p.kind)],
                   m.owner[(p.conn, p.kind) := w])
    case DispatchReturns(_) =>
      m.(workers := m.workers[w := if UsesInflightDedup(p.kind) then Ending(p.conn, p.kind) else Idle])
    case DispatchThrows(_) => Finished(m, w, p.conn, p.kind)
    case Unmark(_) => Finished(m, w, p.conn, p.kind)
  }

  /** The worker is past marking this deduplicated pair and has not unmarked it. */
  predicate InFlight(m: Machine, w: nat, c: ConnId, t: Type) {
    UsesInflightDedup(t) && (PhaseOf(m, w) == Dispatching(c, t) || PhaseOf(m, w) == Ending(c, t))
  }

  /** Every mark has a worker in flight behind it, and no entry is empty. */
  ghost predicate Backed(m: Machine) {
    && (forall c, t :: Marked(m.executing, c, t) <==> (c, t) in m.owner)
    && (forall c, t | (c, t) in m.owner :: InFlight(m, m.owner[(c, t)], c, t))
    && (forall c | c in m.executing :: m.executing[c] != {})
  }

  /** Every worker in flight is the one behind the mark of its pair. */
  ghost predicate Exclusive(m: Machine) {
    forall w, c, t | InFlight(m, w, c, t) :: (c, t) in m.owner && m.owner[(c, t)] == w
  }

  ghost predicate Exact(m: Machine) {
    Backed(m) && Exclusive(m)
  }

  lemma UnmarkedIs(ex: Executing, c: ConnId, t: Type)
    requires forall d | d in ex :: ex[d] != {}
    ensures forall d, u :: Marked(WithoutMark(ex, c, t), d, u) <==> Marked(ex, d, u) && (d, u) != (c, t)
    ensures forall d | d in WithoutMark(ex, c, t) :: WithoutMark(ex, c, t)[d] != {}
  {
  }

  lemma MarkedIs(ex: Executing, c: ConnId, t: Type)
    requires forall d | d in ex :: ex[d] != {}
    ensures forall d, u :: Marked(WithMark(ex, c, t), d, u) <==> Marked(ex, d, u) || (d, u) == (c, t)
    ensures forall d | d in WithMark(ex, c, t) :: WithMark(ex, c, t)[d] != {}
  {
  }

  /**
   An exception before the mark runs the same cleanup, so it keeps the guard exact if and only if
   no other worker is in flight with the same pair.
   */
  lemma EarlyThrowSafeIff(m: Machine, w: nat)
    requires Exact(m) && Enabled(m, ThrowEarly(w))
    ensures var p := PhaseOf(m, w);
            Exact(Next(m, ThrowEarly(w))) <==> !Marked(m.executing, p.conn, p.kind)
  {
    hide WithoutMark;
    var p := PhaseOf(m, w);
    var n := Next(m, ThrowEarly(w));
    UnmarkedIs(m.executing, p.conn, p.kind);
    assert forall v, c, t | v != w :: InFlight(n, v, c, t) <==> InFlight(m, v, c, t);
    assert forall c, t :: !InFlight(n, w, c, t) && !InFlight(m, w, c, t);
    if Marked(m.executing, p.conn, p.kind) {
      var v := m.owner[(p.conn, p.kind)];
      assert InFlight(n, v, p.conn, p.kind);
    }
  }

  /** The cleanup of a worker that holds the pair, in whatever phase, leaves every other mark backed. */
  lemma FinishKeepsBacked(m: Machine, w: nat, c: ConnId, t: Type)
    requires Backed(m) && PhaseOf(m, w) in {Taken(c, t), Dispatching(c, t), Ending(c, t)}
    ensures Backed(Finished(m, w, c, t))
  {
    hide WithoutMark;
    var n := Finished(m, w, c, t);
    UnmarkedIs(m.executing, c, t);
    assert forall v, d, u | v != w :: InFlight(n, v, d, u) <==> InFlight(m, v, d, u);
    assert forall d, u :: InFlight(m, w, d, u) ==> (d, u) == (c, t);
  }

  /** A worker that finishes its own pair takes away its own mark, if it had one. */
  lemma FinishKeepsExclusive(m: Machine, w: nat, c: ConnId, t: Type)
    requires Exact(m) && (PhaseOf(m, w) == Dispatching(c, t) || PhaseOf(m, w) == Ending(c, t))
    ensures Exclusive(Finished(m, w, c, t))
  {
    hide WithoutMark;
    var n := Finished(m, w, c, t);
    assert forall v, d, u | v != w :: InFlight(n, v, d, u) <==> InFlight(m, v, d, u);
    assert forall d, u :: !InFlight(n, w, d, u);
    assert (c, t) in m.owner ==> InFlight(m, w, c, t);
  }

  lemma MarkKeepsBacked(m: Machine, w: nat)
    requires Backed(m) && Enabled(m, Mark(w))
    ensures Backed(Next(m, Mark(w)))
  {
    hide WithMark;
    var p, n := PhaseOf(m, w), Next(m, Mark(w));
    MarkedIs(m.executing, p.conn, p.kind);
    assert forall v, c, t | v != w :: InFlight(n, v, c, t) <==> InFlight(m, v, c, t);
    assert forall c, t :: !InFlight(m, w, c, t);
  }

  lemma MarkKeepsExclusive(m: Machine, w: nat)
    requires Exact(m) && Enabled(m, Mark(w))
    ensures Exclusive(Next(m, Mark(w)))
  {
    hide WithMark;
    var n := Next(m, Mark(w));
    assert forall v, c, t | v != w :: InFlight(n, v, c, t) <==> InFlight(m, v, c, t);
  }

  /** No step leaves a mark without a worker, an exception before the mark included. */
  lemma StepKeepsBacked(m: Machine, step: Step)
    requires Backed(m) && Enabled(m, step)
    ensures Backed(Next(m, step))
  {
    hide WithoutMark, WithMark, Finished;
    var w := step.worker;
    var p := PhaseOf(m, w);
    if step.Mark? {
      MarkKeepsBacked(m, w);
    } else if step.ThrowEarly? || step.DispatchThrows? || step.Unmark? {
      FinishKeepsBacked(m, w, p.conn, p.kind);
    } else {
      assert forall v, c, t :: InFlight(Next(m, step), v, c, t) <==> InFlight(m, v, c, t);
    }
  }

  /** An exception before the mark, if this step is one, finds its pair unmarked. */
  predicate ThrowsSafely(m: Machine, step: Step) {
    var p := PhaseOf(m, step.worker);
    step.ThrowEarly? && p.Taken? ==> !Marked(m.executing, p.conn, p.kind)
  }

  lemma StepKeepsExact(m: Machine, step: Step)
    requires Exact(m) && Enabled(m, step) && ThrowsSafely(m, step)
    ensures Exact(Next(m, step))
  {
    hide Backed, WithoutMark, WithMark, Finished;
    var w := step.worker;
    var p := PhaseOf(m, w);
    StepKeepsBacked(m, step);
    if step.Mark? {
      MarkKeepsExclusive(m, w);
    } else if step.ThrowEarly? {
      EarlyThrowSafeIff(m, w);
    } else if step.DispatchThrows? || step.Unmark? {
      FinishKeepsExclusive(m, w, p.conn, p.kind);
    } else {
      assert forall v, c, t :: InFlight(Next(m, step), v, c, t) <==> InFlight(m, v, c, t);
    }
  }

  // ---------------------------------------------------------------------------
  // Runs
  // ---------------------------------------------------------------------------

  datatype Run = Run(states: seq<Machine>, steps: seq<Step>) {
    ghost predicate Shaped() {
      |states| == |steps| + 1 && states[0] == INITIAL
    }

    ghost predicate Follows(i: nat)
      requires Shaped() && i < |steps|
    {
      Enabled(states[i], steps[i]) && states[i + 1] == Next(states[i], steps[i])
    }

    ghost predicate Valid() {
      Shaped() && forall i: nat | i < |steps| :: Follows(i)
    }
  }

  lemma {:induction false} RunKeepsBacked(r: Run, n: nat)
    requires r.Valid() && n <= |r.steps|
    ensures Backed(r.states[n])
  {
    hide Next, Enabled;
    if n > 0 {
      RunKeepsBacked(r, n - 1);
      assert r.Follows(n - 1);
      StepKeepsBacked(r.states[n - 1], r.steps[n - 1]);
    }
  }

  /** No exception before a mark hits a pair another worker has marked. */
  ghost predicate SafeThrows(r: Run)
    requires r.Shaped()
  {
    forall i: nat | i < |r.steps| :: ThrowsSafely(r.states[i], r.steps[i])
  }

  lemma {:induction false} RunKeepsExact(r: Run, n: nat)
    requires r.Valid() && n <= |r.steps| && SafeThrows(r)
    ensures Exact(r.states[n])
  {
    hide Next, Enabled, ThrowsSafely;
    if n > 0 {
      RunKeepsExact(r, n - 1);
      assert r.Follows(n - 1);
      StepKeepsExact(r.states[n - 1], r.steps[n - 1]);
    }
  }

  /** At most one worker at a time dispatches a given connection's deduplicated command type. */
  lemma OneDispatchAtATime(r: Run, n: nat, v: nat, w: nat, c: ConnId, t: Type)
    requires r.Valid() && n <= |r.steps| && SafeThrows(r)
    requires InFlight(r.states[n], v, c, t) && InFlight(r.states[n], w, c, t)
    ensures v == w
  {
    RunKeepsExact(r, n);
  }

  /** In every run, whatever was thrown, a marked pair is one some worker is in flight with. */
  lemma MarksHaveWorkers(r: Run, n: nat, c: ConnId, t: Type)
    requires r.Valid() && n <= |r.steps| && Marked(r.states[n].executing, c, t)
    ensures exists w :: InFlight(r.states[n], w, c, t)
  {
    RunKeepsBacked(r, n);
    assert InFlight(r.states[n], r.states[n].owner[(c, t)], c, t);
  }

  /** The in-flight map lists exactly the pairs some worker is in flight with. */
  lemma MarksAreInFlight(r: Run, n: nat, c: ConnId, t: Type)
    requires r.Valid() && n <= |r.steps| && SafeThrows(r)
    ensures Marked(r.states[n].executing, c, t) <==> exists w :: InFlight(r.states[n], w, c, t)
  {
    RunKeepsExact(r, n);
    if Marked(r.states[n].executing, c, t) {
      MarksHaveWorkers(r, n, c, t);
    }
  }

  /** In every run: when all workers are idle nothing stays marked, whatever was thrown on the way. */
  lemma IdleMeansUnmarked(r: Run, n: nat)
    requires r.Valid() && n <= |r.steps| && forall w :: PhaseOf(r.states[n], w).Idle?
    ensures r.states[n].executing == map[]
  {
    RunKeepsBacked(r, n);
    var m := r.states[n];
    if c :| c in m.executing {
      var t :| t in m.executing[c];
      assert Marked(m.executing, c, t);
    }
  }

  /** An early exception in one worker lets a duplicate through next to another worker still dispatching. */
  lemma EarlyThrowAdmitsDuplicate()
    ensures exists r: Run, v, w, c, t ::
              r.Valid() && v != w && InFlight(Last(r), v, c, t) && InFlight(Last(r), w, c, t)
  {
    var c, t := ConnId("c"), Other(0);
    var r := Run([INITIAL], []);
    r := Extended(r, Take(0, c, t));
    r := Extended(r, Mark(0));
    r := Extended(r, Take(1, c, t));
    r := Extended(r, ThrowEarly(1));
    assert !Marked(Last(r).executing, c, t);
    r := Extended(r, Take(1, c, t));
    r := Extended(r, Mark(1));
    assert InFlight(Last(r), 0, c, t) && InFlight(Last(r), 1, c, t);
  }

  ghost function Last(r: Run): Machine
    requires r.Shaped()
  {
    r.states[|r.steps|]
  }

  lemma Extended(r: Run, step: Step) returns (next: Run)
    requires r.Valid() && Enabled(Last(r), step)
    ensures next.Valid() && Last(next) == Next(Last(r), step)
  {
    hide Next, Enabled;
    next := Run(r.states + [Next(Last(r), step)], r.steps + [step]);
    forall i: nat | i < |next.steps| ensures next.Follows(i) {
      if i < |r.steps| {
        assert r.Follows(i);
      }
    }
  }
}
