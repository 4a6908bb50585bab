/** `parallelWithLimit` of `src/agents/invoke-native-api.ts`: a pool of workers that share one
    counter. A worker runs without interruption from one `await` to the next; which awaited job
    settles next is up to the host. */
module ParallelLimit {
  import opened Text

  /** A worker awaits a job, has run out of jobs, or was stopped by a job that rejected. */
  datatype Worker = Running(job: nat) | Finished | Failed

  datatype Settlement<+T> = Resolved(value: T) | Rejected

  /** The shared counter, the result slots and the workers. `started` lists the jobs in the order
      they started and `outcome` tells how each has settled so far. */
  datatype Pool<T> = Pool(next: nat, results: seq<Option<T>>, workers: seq<Worker>,
                          started: seq<nat>, outcome: seq<Option<Settlement<T>>>)

  datatype Event<+T> = Settles(worker: nat, how: Settlement<T>)

  // --- The steps ---

  /** The head of the worker loop: take the next job or finish. */
  function Take<T>(p: Pool<T>, w: nat): Pool<T>
    requires w < |p.workers|
  {
    if p.next < |p.results| then
      p.(workers := p.workers[w := Running(p.next)], started := p.started + [p.next], next := p.next + 1)
    else
      p.(workers := p.workers[w := Finished])
  }

  /** The pool after the first `k` workers have been created. */
  function Created<T>(n: nat, k: nat): (p: Pool<T>)
    ensures |p.workers| == k && |p.results| == n && |p.outcome| == n
  {
    if k == 0 then Pool(0, seq(n, _ => None), [], [], seq(n, _ => None))
    else
      var p := Created<T>(n, k - 1);
      Take(p.(workers := p.workers + [Finished]), k - 1)
  }

  function PoolSize(n: nat, limit: nat): nat {
    if limit < n then limit else n
  }

  predicate Enabled<T>(p: Pool<T>, e: Event<T>) {
    e.worker < |p.workers| && p.workers[e.worker].Running? && p.workers[e.worker].job < |p.results| == |p.outcome|
  }

  function Next<T>(p: Pool<T>, e: Event<T>): Pool<T>
    requires Enabled(p, e)
  {
    var i := p.workers[e.worker].job;
    var q := p.(outcome := p.outcome[i := Some(e.how)]);
    match e.how
    case Resolved(v) => Take(q.(results := q.results[i := Some(v)]), e.worker)
    case Rejected => q.(workers := q.workers[e.worker := Failed])
  }

  // --- Runs ---

  ghost predicate Run<T(!new)>(n: nat, limit: nat, events: seq<Event<T>>, states: seq<Pool<T>>) {
    && |states| == |events| + 1
    && states[0] == Created(n, PoolSize(n, limit))
    && forall i | 0 <= i < |events| :: StepAt(events, states, i)
  }

  ghost predicate StepAt<T(!new)>(events: seq<Event<T>>, states: seq<Pool<T>>, i: nat)
    requires i < |events| && i + 1 < |states|
  {
    Enabled(states[i], events[i]) && states[i + 1] == Next(states[i], events[i])
  }

  // --- Invariants ---

  ghost predicate Held<T>(p: Pool<T>, i: nat) {
    exists w :: 0 <= w < |p.workers| && p.workers[w] == Running(i)
  }

  ghost predicate Sized<T>(p: Pool<T>, n: nat, k: nat) {
    |p.results| == |p.outcome| == n && |p.workers| == k
  }

  /** Jobs start in index order, each once, and no two workers hold one job. */
  ghost predicate StartsInOrder<T>(p: Pool<T>) {
    && p.next == |p.started| <= |p.results|
    && (forall i | 0 <= i < |p.started| :: p.started[i] == i)
    && (forall w | 0 <= w < |p.workers| && p.workers[w].Running? :: p.workers[w].job < p.next)
    && (forall v, w | 0 <= v < w < |p.workers| && p.workers[v].Running? && p.workers[w].Running? ::
          p.workers[v].job != p.workers[w].job)
  }

  /** A started job is held by a worker until it settles; a slot is filled exactly with what its job
      resolved to. */
  ghost predicate Accounted<T>(p: Pool<T>) {
    && |p.outcome| == |p.results|
    && (forall i | 0 <= i < |p.outcome| :: Held(p, i) <==> i < p.next && p.outcome[i].None?)
    && (forall i | p.next <= i < |p.outcome| :: p.outcome[i].None?)
    && (forall i | 0 <= i < |p.outcome| ::
          p.results[i] == match p.outcome[i] case Some(Resolved(v)) => Some(v) case _ => None)
  }

  ghost predicate SomeRejected<T>(p: Pool<T>) {
    exists i :: 0 <= i < |p.outcome| && p.outcome[i] == Some(Rejected)
  }

  /** A worker stops only when every job has started, or at a rejection. */
  ghost predicate StopsForReason<T>(p: Pool<T>) {
    forall w | 0 <= w < |p.workers| ::
      && (p.workers[w].Finished? ==> p.next == |p.results|)
      && (p.workers[w].Failed? ==> SomeRejected(p))
  }

  ghost predicate Inv<T>(p: Pool<T>) {
    StartsInOrder(p) && Accounted(p) && StopsForReason(p)
  }

  /** Taking a job keeps the invariants when the worker holds nothing. */
  lemma {:induction false} TakeKeepsInv<T>(p: Pool<T>, w: nat)
    requires w < |p.workers| && p.workers[w].Finished?
    requires StartsInOrder(p) && Accounted(p)
    requires forall v | 0 <= v < |p.workers| && v != w ::
               && (p.workers[v].Finished? ==> p.next == |p.results|)
               && (p.workers[v].Failed? ==> SomeRejected(p))
    ensures Inv(Take(p, w))
  {
    var q := Take(p, w);
    TakeHolds(p, w);
    if SomeRejected(p) {
      var i :| 0 <= i < |p.outcome| && p.outcome[i] == Some(Rejected);
      assert q.outcome[i] == Some(Rejected);
    }
  }

  lemma {:induction false} TakeHolds<T>(p: Pool<T>, w: nat)
    requires w < |p.workers| && p.workers[w].Finished?
    ensures forall i: nat :: Held(Take(p, w), i) <==> Held(p, i) || (i == p.next && p.next < |p.results|)
  {
    var q := Take(p, w);
    forall i: nat ensures Held(q, i) <==> Held(p, i) || (i == p.next && p.next < |p.results|) {
      if Held(p, i) {
        var v :| 0 <= v < |p.workers| && p.workers[v] == Running(i);
        assert q.workers[v] == Running(i);
      }
      if i == p.next && p.next < |p.results| {
        assert q.workers[w] == Running(i);
      }
    }
  }

  /** Freeing a worker whose job has just settled. */
  lemma {:induction false} ReleaseHolds<T>(p: Pool<T>, w: nat, stop: Worker)
    requires StartsInOrder(p) && w < |p.workers| && p.workers[w].Running? && !stop.Running?
    ensures forall i: nat :: Held(p.(workers := p.workers[w := stop]), i) <==> Held(p, i) && i != p.workers[w].job
  {
    var q := p.(workers := p.workers[w := stop]);
    forall i: nat ensures Held(q, i) <==> Held(p, i) && i != p.workers[w].job {
      if Held(p, i) && i != p.workers[w].job {
        var v :| 0 <= v < |p.workers| && p.workers[v] == Running(i);
        assert q.workers[v] == Running(i);
      }
      if Held(q, i) {
        var v :| 0 <= v < |q.workers| && q.workers[v] == Running(i);
        assert v != w && p.workers[v] == Running(i);
      }
    }
  }

  /** The pool just after a job has settled and its worker has let go of it. */
  function Released<T>(p: Pool<T>, e: Event<T>): Pool<T>
    requires Enabled(p, e)
  {
    var i := p.workers[e.worker].job;
    p.(outcome := p.outcome[i := Some(e.how)],
       results := match e.how case Resolved(v) => p.results[i := Some(v)] case Rejected => p.results,
       workers := p.workers[e.worker := if e.how.Resolved? then Finished else Failed])
  }

  lemma {:induction false} ReleasedAccounted<T>(p: Pool<T>, e: Event<T>)
    requires Inv(p) && Enabled(p, e)
    ensures Accounted(Released(p, e)) && StartsInOrder(Released(p, e))
  {
    var q := Released(p, e);
    ReleaseHolds(p, e.worker, q.workers[e.worker]);
    forall i: nat ensures Held(q, i) == Held(p.(workers := q.workers), i) {
    }
    assert p.results[p.workers[e.worker].job].None?;
  }

  lemma {:induction false} InvStep<T>(p: Pool<T>, e: Event<T>)
    requires Inv(p) && Enabled(p, e)
    ensures Inv(Next(p, e))
  {
    var q := Released(p, e);
    ReleasedAccounted(p, e);
    if SomeRejected(p) {
      var i :| 0 <= i < |p.outcome| && p.outcome[i] == Some(Rejected);
      assert Held(p, p.workers[e.worker].job);
      assert q.outcome[i] == Some(Rejected);
    }
    if e.how.Resolved? {
      TakeKeepsInv(q, e.worker);
      assert Next(p, e).workers == Take(q, e.worker).workers;
    } else {
      assert q.outcome[p.workers[e.worker].job] == Some(Rejected);
      assert Next(p, e) == q;
    }
  }

  lemma {:induction false} NewWorkerHoldsNothing<T>(p: Pool<T>)
    ensures forall i: nat :: Held(p.(workers := p.workers + [Finished]), i) <==> Held(p, i)
  {
    var q := p.(workers := p.workers + [Finished]);
    forall i: nat ensures Held(q, i) <==> Held(p, i) {
      if Held(p, i) {
        var w :| 0 <= w < |p.workers| && p.workers[w] == Running(i);
        assert q.workers[w] == Running(i);
      }
    }
  }

  lemma {:induction false} CreatedInv<T>(n: nat, k: nat)
    requires k <= n
    ensures Inv(Created<T>(n, k)) && Created<T>(n, k).next == k
  {
    if k > 0 {
      var p := Created<T>(n, k - 1);
      CreatedInv<T>(n, k - 1);
      NewWorkerHoldsNothing(p);
      NewWorkerTakes(p);
    } else {
      assert forall i: nat :: !Held(Created<T>(n, 0), i);
    }
  }

  lemma {:induction false} NewWorkerTakes<T>(p: Pool<T>)
    requires Inv(p)
    requires forall i: nat :: Held(p.(workers := p.workers + [Finished]), i) <==> Held(p, i)
    ensures Inv(Take(p.(workers := p.workers + [Finished]), |p.workers|))
  {
    var q := p.(workers := p.workers + [Finished]);
    assert forall v | 0 <= v < |p.workers| :: q.workers[v] == p.workers[v];
    assert SomeRejected(p) ==> SomeRejected(q);
    TakeKeepsInv(q, |p.workers|);
  }

  // --- Theorems over runs ---

  lemma {:induction false} InvHolds<T(!new)>(n: nat, limit: nat, events: seq<Event<T>>, states: seq<Pool<T>>, i: nat)
    requires Run(n, limit, events, states) && i < |states|
    ensures Inv(states[i]) && Sized(states[i], n, PoolSize(n, limit))
  {
    if i == 0 {
      CreatedInv<T>(n, PoolSize(n, limit));
    } else {
      InvHolds(n, limit, events, states, i - 1);
      assert StepAt(events, states, i - 1);
      InvStep(states[i - 1], events[i - 1]);
    }
  }

  function JobsOf(workers: seq<Worker>): set<nat> {
    if workers == [] then {}
    else
      var w := workers[|workers| - 1];
      JobsOf(workers[..|workers| - 1]) + (if w.Running? then {w.job} else {})
  }

  lemma {:induction false} JobsOfMeaning(ws: seq<Worker>, i: nat)
    ensures i in JobsOf(ws) <==> Running(i) in ws
    ensures |JobsOf(ws)| <= |ws|
  {
    if ws != [] {
      var before, last := ws[..|ws| - 1], ws[|ws| - 1];
      JobsOfMeaning(before, i);
      assert ws == before + [last];
    }
  }

  /** At every step the jobs started are exactly the first ones, each once and in order; at most
      `min(limit, n)` are in flight; and until a rejection every worker is busy while any job is left. */
  lemma {:induction false} StartsAndConcurrency<T(!new)>(
      n: nat, limit: nat, events: seq<Event<T>>, states: seq<Pool<T>>, i: nat, job: nat)
    requires Run(n, limit, events, states) && i < |states|
    ensures var p := states[i];
            && p.next == |p.started| <= n
            && (forall k | 0 <= k < |p.started| :: p.started[k] == k)
            && (job in JobsOf(p.workers) <==> job < p.next <= |p.outcome| && p.outcome[job].None?)
            && |JobsOf(p.workers)| <= PoolSize(n, limit)
            && (!SomeRejected(p) && p.next < n ==> forall w | 0 <= w < |p.workers| :: p.workers[w].Running?)
  {
    InvHolds(n, limit, events, states, i);
    JobsOfMeaning(states[i].workers, job);
    assert Held(states[i], job) <==> Running(job) in states[i].workers;
  }

  function Settled<T>(outcome: seq<Option<Settlement<T>>>): nat {
    if outcome == [] then 0
    else Settled(outcome[..|outcome| - 1]) + (if outcome[|outcome| - 1].Some? then 1 else 0)
  }

  lemma {:induction false} SettledAtMost<T>(outcome: seq<Option<Settlement<T>>>)
    ensures Settled(outcome) <= |outcome|
    ensures (forall i | 0 <= i < |outcome| :: outcome[i].None?) ==> Settled(outcome) == 0
  {
    if outcome != [] {
      SettledAtMost(outcome[..|outcome| - 1]);
    }
  }

  lemma {:induction false} SettleCounts<T>(outcome: seq<Option<Settlement<T>>>, i: nat, how: Settlement<T>)
    requires i < |outcome| && outcome[i].None?
    ensures Settled(outcome[i := Some(how)]) == Settled(outcome) + 1
  {
    var n := |outcome| - 1;
    if i < n {
      SettleCounts(outcome[..n], i, how);
      assert outcome[i := Some(how)][..n] == outcome[..n][i := Some(how)];
    } else {
      assert outcome[i := Some(how)][..n] == outcome[..n];
    }
  }

  lemma {:induction false} StepSettles<T>(p: Pool<T>, e: Event<T>)
    requires Inv(p) && Enabled(p, e)
    ensures Settled(Next(p, e).outcome) == Settled(p.outcome) + 1
  {
    var i := p.workers[e.worker].job;
    assert Held(p, i);
    SettleCounts(p.outcome, i, e.how);
  }

  /** Every event settles one more job, so a run has at most `n` events. */
  lemma {:induction false} RunsTerminate<T(!new)>(n: nat, limit: nat, events: seq<Event<T>>, states: seq<Pool<T>>,
      i: nat)
    requires Run(n, limit, events, states) && i < |states|
    ensures Settled(states[i].outcome) == i <= n
  {
    InvHolds(n, limit, events, states, i);
    SettledAtMost(states[i].outcome);
    if i > 0 {
      RunsTerminate(n, limit, events, states, i - 1);
      InvHolds(n, limit, events, states, i - 1);
      assert StepAt(events, states, i - 1);
      StepSettles(states[i - 1], events[i - 1]);
    } else {
      CreatedInv<T>(n, PoolSize(n, limit));
      FreshOutcome<T>(n, PoolSize(n, limit));
    }
  }

  lemma {:induction false} FreshOutcome<T>(n: nat, k: nat)
    ensures forall i | 0 <= i < n :: Created<T>(n, k).outcome[i].None?
  {
    if k > 0 {
      FreshOutcome<T>(n, k - 1);
    }
  }

  /** Until every job has settled, or one has rejected, some worker still awaits a job. */
  lemma {:induction false} RunsProgress<T(!new)>(n: nat, limit: nat, events: seq<Event<T>>, states: seq<Pool<T>>,
      i: nat)
    requires Run(n, limit, events, states) && i < |states| && limit >= 1
    requires !SomeRejected(states[i]) && i < n
    ensures exists w | 0 <= w < |states[i].workers| :: states[i].workers[w].Running?
  {
    var p := states[i];
    InvHolds(n, limit, events, states, i);
    if p.next == n {
      RunsTerminate(n, limit, events, states, i);
      var j := SomeUnsettled(p.outcome);
      assert Held(p, j);
      var w :| 0 <= w < |p.workers| && p.workers[w] == Running(j);
    } else {
      assert p.workers[0].Running?;
    }
  }

  lemma {:induction false} SomeUnsettled<T>(outcome: seq<Option<Settlement<T>>>) returns (j: nat)
    requires Settled(outcome) < |outcome|
    ensures j < |outcome| && outcome[j].None?
  {
    j := |outcome| - 1;
    if outcome[j].Some? {
      j := SomeUnsettled(outcome[..j]);
    }
  }

  ghost predicate Follows<T>(p: Pool<T>, job: nat -> T) {
    forall i | 0 <= i < |p.outcome| && p.outcome[i].Some? :: p.outcome[i].value == Resolved(job(i))
  }

  /** In every event the awaited job resolves, to its own value. */
  ghost predicate AllResolve<T(!new)>(events: seq<Event<T>>, states: seq<Pool<T>>, job: nat -> T) {
    forall i | 0 <= i < |events| && i < |states| && events[i].worker < |states[i].workers|
               && states[i].workers[events[i].worker].Running? ::
      events[i].how == Resolved(job(states[i].workers[events[i].worker].job))
  }

  lemma {:induction false} FollowsHolds<T(!new)>(
      n: nat, limit: nat, events: seq<Event<T>>, states: seq<Pool<T>>, job: nat -> T, i: nat)
    requires Run(n, limit, events, states) && AllResolve(events, states, job) && i < |states|
    ensures Follows(states[i], job)
  {
    if i > 0 {
      FollowsHolds(n, limit, events, states, job, i - 1);
      assert StepAt(events, states, i - 1);
    } else {
      FreshOutcome<T>(n, PoolSize(n, limit));
    }
  }

  /** When all jobs resolve and no worker is left running, every job has run and the results are
      those of the sequential map, in order. */
  lemma {:induction false} ResultsInOrder<T(!new)>(
      n: nat, limit: nat, events: seq<Event<T>>, states: seq<Pool<T>>, job: nat -> T)
    requires Run(n, limit, events, states) && AllResolve(events, states, job) && limit >= 1
    requires forall w | 0 <= w < |states[|events|].workers| :: !states[|events|].workers[w].Running?
    ensures |events| == n
    ensures |states[n].results| == n && forall i | 0 <= i < n :: states[n].results[i] == Some(job(i))
  {
    var p := states[|events|];
    InvHolds(n, limit, events, states, |events|);
    FollowsHolds(n, limit, events, states, job, |events|);
    RunsTerminate(n, limit, events, states, |events|);
    if |events| < n {
      RunsProgress(n, limit, events, states, |events|);
      assert false;
    }
    AllSettled(p.outcome);
  }

  lemma {:induction false} AllSettled<T>(outcome: seq<Option<Settlement<T>>>)
    requires Settled(outcome) == |outcome|
    ensures forall i | 0 <= i < |outcome| :: outcome[i].Some?
  {
    if outcome != [] {
      SettledAtMost(outcome[..|outcome| - 1]);
      AllSettled(outcome[..|outcome| - 1]);
    }
  }

  /** With limit 0 the call resolves at once and has run nothing. */
  lemma {:induction false} LimitZeroRunsNothing<T>(n: nat)
    ensures Created<T>(n, PoolSize(n, 0)).workers == []
    ensures forall i | 0 <= i < n :: Created<T>(n, PoolSize(n, 0)).results[i].None?
  {
  }

  // --- The pool in place ---

  class WorkerPool<T> {
    const results: array<Option<T>>
    var next: nat
    var workers: seq<Worker>
    ghost var started: seq<nat>
    ghost var outcome: seq<Option<Settlement<T>>>

    ghost function Model(): Pool<T>
      reads this, results
    {
      Pool(next, results[..], workers, started, outcome)
    }

    /** Creates `min(limit, n)` workers; each runs up to its first `await`. */
    constructor (n: nat, limit: nat)
      ensures Model() == Created(n, PoolSize(n, limit)) && fresh(results)
    {
      results := new Option<T>[n](_ => None);
      next, workers, started, outcome := 0, [], [], seq(n, _ => None);
      new;
      assert results[..] == seq(n, _ => None);
      var count := if limit < n then limit else n;
      for k := 0 to count
        invariant Model() == Created(n, k)
      {
        workers := workers + [Finished];
        TakeJob(k);
      }
    }

    /** The head of a worker's loop: start the next job, or finish when all have been started. */
    method TakeJob(w: nat)
      requires w < |workers|
      modifies this`next, this`workers, this`started
      ensures Model() == Take(old(Model()), w)
    {
      if next < results.Length {
        workers := workers[w := Running(next)];
        started := started + [next];
        next := next + 1;
      } else {
        workers := workers[w := Finished];
      }
    }

    /** A job has settled: a result goes into its slot and the worker goes on, a rejection ends the worker. */
    method Settle(w: nat, how: Settlement<T>)
      requires Enabled(Model(), Settles(w, how))
      modifies this, results
      ensures Model() == Next(old(Model()), Settles(w, how))
    {
      var i := workers[w].job;
      outcome := outcome[i := Some(how)];
      match how
      case Resolved(v) =>
        results[i] := Some(v);
        assert results[..] == old(results[..])[i := Some(v)];
        TakeJob(w);
      case Rejected =>
        workers := workers[w := Failed];
    }
  }
}
