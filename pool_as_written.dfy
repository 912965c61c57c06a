/** The workers of module Pool with the emptiness check and the `get()` as two separate
    steps, as `_internal_run_method` has them. `get()` takes the front task, and blocks
    while the queue is empty. Between the check and the `get()` another worker may take
    the last task; the blocked worker then waits for a task that never comes, and `join`
    waits for that worker. */
module PoolAsWritten {
  import opened Wrappers
  import opened Records
  import opened Worker

  /** Where a worker is in `_internal_run_method`. */
  datatype Phase =
    | AtTop                // at the head of the loop, about to check the queue
    | Getting              // found the queue non-empty, about to call `get()`
    | Holding(load: string) // popped `load`, about to look it up and deliver the record
    | AfterCallback        // delivered a record, about to check the queue again
    | Done(ok: bool)       // returned `ok`

  /** The shared queue and output and every worker's phase. */
  datatype RaceState = RaceState(queue: seq<string>, output: seq<ResultRecord>, phases: seq<Phase>)

  /** `n` workers about to start on `tasks`. */
  function Init(tasks: seq<string>, n: nat): RaceState
  {
    RaceState(tasks, [], seq(n, _ => AtTop))
  }

  /** One step of worker `i`. Only that worker's phase changes; a finished worker's step,
      and a `get()` on an empty queue, change nothing. */
  function Step(qt: QType, env: Env, sink: Sink, s: RaceState, i: nat): (r: RaceState)
    requires i < |s.phases|
    ensures |r.phases| == |s.phases|
    ensures forall j :: 0 <= j < |s.phases| && j != i ==> r.phases[j] == s.phases[j]
    ensures s.phases[i].Done? ==> r == s
    ensures s.phases[i] == Getting && s.queue == [] ==> r == s
  {
    match s.phases[i]
    case AtTop =>
      if s.queue == [] then s.(phases := s.phases[i := Done(true)])
      else s.(phases := s.phases[i := Getting])
    case Getting =>
      if s.queue == [] then s
      else s.(queue := s.queue[1..], phases := s.phases[i := Holding(s.queue[0])])
    case Holding(load) =>
      (match Process(qt, env, load)
       case Escaped => s.(phases := s.phases[i := Done(false)])
       case Produced(rec) =>
         match Deliver(Store(s.queue, s.output), rec, sink(rec))
         case None => s.(phases := s.phases[i := Done(false)])
         case Some(st) => s.(queue := st.queue, output := st.output, phases := s.phases[i := AfterCallback]))
    case AfterCallback =>
      if s.queue == [] then s.(phases := s.phases[i := Done(true)])
      else s.(phases := s.phases[i := AtTop])
    case Done(_) => s
  }

  predicate ValidSchedule(s: RaceState, sched: seq<nat>) {
    forall k :: 0 <= k < |sched| ==> sched[k] < |s.phases|
  }

  /** The steps of `sched`, in order. */
  function Run(qt: QType, env: Env, sink: Sink, s: RaceState, sched: seq<nat>): (r: RaceState)
    requires ValidSchedule(s, sched)
    ensures |r.phases| == |s.phases|
    decreases |sched|
  {
    if sched == [] then s else Run(qt, env, sink, Step(qt, env, sink, s, sched[0]), sched[1..])
  }

  predicate AllDone(ps: seq<Phase>) {
    forall j :: 0 <= j < |ps| ==> ps[j].Done?
  }

  /** For a callback that never re-adds tasks, an empty queue stays empty. */
  lemma StepKeepsEmpty(qt: QType, env: Env, sink: Sink, s: RaceState, i: nat)
    requires NeverRequeues(sink) && s.queue == [] && i < |s.phases|
    ensures Step(qt, env, sink, s, i).queue == []
  {
    if s.phases[i].Holding? && Process(qt, env, s.phases[i].load).Produced? {
      assert sink(Process(qt, env, s.phases[i].load).record) != Requeue;
    }
  }

  /** For a callback that never re-adds tasks, a worker blocked in `get()` on an empty
      queue stays blocked, whatever the other workers do. */
  lemma {:induction false} StaysBlocked(qt: QType, env: Env, sink: Sink, s: RaceState, sched: seq<nat>, j: nat)
    requires NeverRequeues(sink) && ValidSchedule(s, sched)
    requires s.queue == [] && j < |s.phases| && s.phases[j] == Getting
    ensures Run(qt, env, sink, s, sched).queue == []
    ensures Run(qt, env, sink, s, sched).phases[j] == Getting
    decreases |sched|
  {
    if sched != [] {
      StepKeepsEmpty(qt, env, sink, s, sched[0]);
      StaysBlocked(qt, env, sink, Step(qt, env, sink, s, sched[0]), sched[1..], j);
    }
  }

  /** Two workers and one task: both find the queue non-empty, worker 0 takes the task,
      and worker 1 is left in `get()` on an empty queue. From there no schedule lets
      every worker finish, so `join` never returns. */
  lemma TwoWorkersRace(qt: QType, env: Env, sink: Sink)
    requires NeverRequeues(sink)
    ensures ValidSchedule(Init(["x"], 2), [0, 1, 0])
    ensures Run(qt, env, sink, Init(["x"], 2), [0, 1, 0]).phases == [Holding("x"), Getting]
    ensures Run(qt, env, sink, Init(["x"], 2), [0, 1, 0]).queue == []
    ensures var s := Run(qt, env, sink, Init(["x"], 2), [0, 1, 0]);
              forall sched :: ValidSchedule(s, sched) ==> !AllDone(Run(qt, env, sink, s, sched).phases)
  {
    var s0 := Init(["x"], 2);
    var s1 := Step(qt, env, sink, s0, 0);
    var s2 := Step(qt, env, sink, s1, 1);
    var s3 := Step(qt, env, sink, s2, 0);
    assert s1.phases == [Getting, AtTop];
    assert s2.phases == [Getting, Getting];
    assert s3.phases == [Holding("x"), Getting] && s3.queue == [];
    assert Run(qt, env, sink, s0, [0, 1, 0]) == s3 by {
      assert [0, 1, 0][1..] == [1, 0] && [1, 0][1..] == [0] && [0][1..] == [];
    }
    forall sched | ValidSchedule(s3, sched)
      ensures !AllDone(Run(qt, env, sink, s3, sched).phases)
    {
      StaysBlocked(qt, env, sink, s3, sched, 1);
    }
  }
}
