/** What one worker, `_internal_run_method`, does with the queue and the output, as a
    function of where it starts. The environment is given as two functions: `env` says
    how the lookup of a name went (the resolver and the clock), `sink` what the result
    callback `thread_callback` did with a record. */
module Worker {
  import opened Wrappers
  import opened Records

  /** What one call of the result callback did, under the lock. */
  datatype SinkAction =
    | Write     // the default: the record's line was written to the output
    | Requeue   // the callback put the record's task back with `add_task`
    | Fault     // acquiring the lock or the callback raised

  /** How the resolver and the clock behave: the attempt for a name and query type. */
  type Env = (string, QType) -> Attempt

  /** What the result callback does with each record. */
  type Sink = ResultRecord -> SinkAction

  /** How a worker ended: it returned True or False, or it was still looping after the
      number of rounds the model lets it run. */
  datatype Exit = Returned(ok: bool) | OutOfFuel

  /** The shared state a worker reads and writes: the pending tasks and the output lines
      (one record per line). */
  datatype Store = Store(queue: seq<string>, output: seq<ResultRecord>)

  datatype WorkerEnd = WorkerEnd(store: Store, exit: Exit)

  /** A lookup of `t` under query type `qt`: `run_thread(t)` on that attempt. */
  function Process(qt: QType, env: Env, t: string): (r: Lookup)
    ensures r.Escaped? <==> env(t, qt) == StampFailed(false)
    ensures r.Produced? ==> r.record.name == t && WellFormed(r.record)
  {
    RunThread(t, env(t, qt))
  }

  /** No lookup lets an exception out of `run_thread`. */
  ghost predicate Completes(qt: QType, env: Env) {
    forall t :: Process(qt, env, t).Produced?
  }

  /** The default callback, which writes every record. */
  ghost predicate AlwaysWrites(sink: Sink) {
    forall r :: sink(r) == Write
  }

  ghost predicate NeverRequeues(sink: Sink) {
    forall r :: sink(r) != Requeue
  }

  ghost predicate AlwaysRequeues(sink: Sink) {
    forall r :: sink(r) == Requeue
  }

  /** The worker stops with False on task `t`: its lookup escaped or its callback raised. */
  predicate Faults(qt: QType, env: Env, sink: Sink, t: string) {
    match Process(qt, env, t)
    case Escaped => true
    case Produced(rec) => sink(rec) == Fault
  }

  /** The records of `tasks`, one each, in order. */
  function RecordsFor(qt: QType, env: Env, tasks: seq<string>): (rs: seq<ResultRecord>)
    requires Completes(qt, env)
    ensures |rs| == |tasks|
    ensures forall i :: 0 <= i < |tasks| ==> Produced(rs[i]) == Process(qt, env, tasks[i])
    ensures Names(rs) == tasks
  {
    seq(|tasks|, i requires 0 <= i < |tasks| => Process(qt, env, tasks[i]).record)
  }

  lemma RecordsCons(qt: QType, env: Env, tasks: seq<string>)
    requires Completes(qt, env) && tasks != []
    ensures RecordsFor(qt, env, tasks) == [Process(qt, env, tasks[0]).record] + RecordsFor(qt, env, tasks[1..])
  {
    var rs := RecordsFor(qt, env, tasks);
    var rest := RecordsFor(qt, env, tasks[1..]);
    assert forall i :: 1 <= i < |tasks| ==> rs[i] == rest[i - 1] by {
      forall i | 1 <= i < |tasks| ensures rs[i] == rest[i - 1] {
        assert tasks[1..][i - 1] == tasks[i];
      }
    }
  }

  /** The effect of one callback call on the shared state; None when it raised. Writing
      appends the record to the output; re-adding appends the record's task to the back
      of the queue. Either way one item is added and everything that was there is kept. */
  function Deliver(st: Store, rec: ResultRecord, action: SinkAction): (r: Option<Store>)
    ensures r.None? <==> action == Fault
    ensures r.Some? ==> st.queue <= r.value.queue && st.output <= r.value.output
    ensures r.Some? ==> |r.value.queue| + |r.value.output| == |st.queue| + |st.output| + 1
    ensures action == Write ==> r == Some(Store(st.queue, st.output + [rec]))
    ensures action == Requeue ==> r == Some(Store(st.queue + [rec.name], st.output))
  {
    match action
    case Write => Some(Store(st.queue, st.output + [rec]))
    case Requeue => Some(Store(st.queue + [rec.name], st.output))
    case Fault => None
  }

  /** One worker running alone from `st`, for at most `fuel` rounds. A round pops the
      front task, looks it up and hands the record to the callback; the worker returns
      True when it finds the queue empty (before a pop, or after a callback, which is the
      same check here since nothing runs in between) and False when the lookup or the
      callback raised. `WorkerLoopBounds` states what holds whatever the callback does. */
  function WorkerLoop(qt: QType, env: Env, sink: Sink,
                      st: Store, fuel: nat): WorkerEnd
    decreases fuel
  {
    if st.queue == [] then WorkerEnd(st, Returned(true))
    else if fuel == 0 then WorkerEnd(st, OutOfFuel)
    else
      var load := st.queue[0];
      var popped := Store(st.queue[1..], st.output);
      match Process(qt, env, load)
      case Escaped => WorkerEnd(popped, Returned(false))
      case Produced(rec) =>
        match Deliver(popped, rec, sink(rec))
        case None => WorkerEnd(popped, Returned(false))
        case Some(next) => WorkerLoop(qt, env, sink, next, fuel - 1)
  }

  /** Whatever the lookups and the callback do, a worker returns True only with the queue
      empty and runs out of rounds only with tasks left; it ends with no more tasks queued
      than it started with and no more tasks in all, and the output it started with is
      kept, followed by at most one record per round. */
  lemma {:induction false} WorkerLoopBounds(qt: QType, env: Env, sink: Sink, st: Store, fuel: nat)
    ensures WorkerLoop(qt, env, sink, st, fuel).exit == Returned(true) ==> WorkerLoop(qt, env, sink, st, fuel).store.queue == []
    ensures WorkerLoop(qt, env, sink, st, fuel).exit == OutOfFuel ==> WorkerLoop(qt, env, sink, st, fuel).store.queue != []
    ensures |WorkerLoop(qt, env, sink, st, fuel).store.queue| <= |st.queue|
    ensures |WorkerLoop(qt, env, sink, st, fuel).store.queue| + |WorkerLoop(qt, env, sink, st, fuel).store.output| <= |st.queue| + |st.output|
    ensures |st.output| <= |WorkerLoop(qt, env, sink, st, fuel).store.output| <= |st.output| + fuel
    ensures st.output <= WorkerLoop(qt, env, sink, st, fuel).store.output
    decreases fuel
  {
    if st.queue != [] && fuel != 0 {
      var popped := Store(st.queue[1..], st.output);
      var lookup := Process(qt, env, st.queue[0]);
      if lookup.Produced? {
        var d := Deliver(popped, lookup.record, sink(lookup.record));
        if d.Some? {
          WorkerLoopBounds(qt, env, sink, d.value, fuel - 1);
        }
      }
    }
  }

  /** A round whose record is written is followed by the rest of the run. */
  lemma WrittenRound(qt: QType, env: Env, sink: Sink, st: Store, fuel: nat)
    requires st.queue != [] && fuel != 0
    requires Process(qt, env, st.queue[0]).Produced?
    requires sink(Process(qt, env, st.queue[0]).record) == Write
    ensures WorkerLoop(qt, env, sink, st, fuel)
         == WorkerLoop(qt, env, sink, Store(st.queue[1..], st.output + [Process(qt, env, st.queue[0]).record]), fuel - 1)
  {
  }

  /** A round whose lookup or callback raises ends the run with False. */
  lemma FaultedRound(qt: QType, env: Env, sink: Sink, st: Store, fuel: nat)
    requires st.queue != [] && fuel != 0
    requires Faults(qt, env, sink, st.queue[0])
    ensures WorkerLoop(qt, env, sink, st, fuel) == WorkerEnd(Store(st.queue[1..], st.output), Returned(false))
  {
  }

  /** With the default callback and lookups that never raise, a worker given a round per
      task drains the queue: it writes one record per task, in queue order, leaves the
      queue empty and returns True. */
  lemma {:induction false} DrainAll(qt: QType, env: Env, sink: Sink, st: Store, fuel: nat)
    requires Completes(qt, env) && AlwaysWrites(sink) && fuel >= |st.queue|
    ensures WorkerLoop(qt, env, sink, st, fuel) == WorkerEnd(Store([], st.output + RecordsFor(qt, env, st.queue)), Returned(true))
    decreases fuel
  {
    if st.queue != [] {
      var q := st.queue;
      var rec := Process(qt, env, q[0]).record;
      var next := Store(q[1..], st.output + [rec]);
      var rest := RecordsFor(qt, env, q[1..]);
      assert WorkerLoop(qt, env, sink, st, fuel) == WorkerLoop(qt, env, sink, next, fuel - 1) by {
        assert sink(rec) == Write;
        WrittenRound(qt, env, sink, st, fuel);
      }
      assert WorkerLoop(qt, env, sink, next, fuel - 1) == WorkerEnd(Store([], next.output + rest), Returned(true)) by {
        DrainAll(qt, env, sink, next, fuel - 1);
      }
      assert RecordsFor(qt, env, q) == [rec] + rest by {
        RecordsCons(qt, env, q);
      }
      Assoc(st.output, [rec], rest);
    }
  }

  lemma Assoc<T>(a: seq<T>, b: seq<T>, c: seq<T>)
    ensures (a + b) + c == a + (b + c)
  {
  }

  /** What a worker that ended with `e` after starting from queue `q` and output `out`
      has done, for a callback that does not re-add tasks. With `k` the number of tasks
      it popped: the queue left is `q` without its first `k` tasks; the records written
      are those of the popped tasks in order, except that the last one is missing when
      the worker returned False; and
      - it returned True only with the queue empty;
      - it returned False right after the lookup or the callback of the `k`-th task
        raised; that task is written nowhere and the rest stay queued for other workers;
      - it ran out of rounds only with tasks left, after popping one task per round. */
  ghost predicate Progressed(qt: QType, env: Env, sink: Sink, q: seq<string>, out: seq<ResultRecord>,
                             e: WorkerEnd, fuel: nat)
  {
    var k := |q| - |e.store.queue|;
    var w := if e.exit == Returned(false) then k - 1 else k;
    && 0 <= w <= k
    && e.store.queue == q[k..]
    && Wrote(qt, env, out, q[..w], e.store.output)
    && Ended(qt, env, sink, q, e, fuel)
  }

  /** `after` is `before` followed by one record per task of `tasks`, in order, each
      the record that task's lookup produced. */
  ghost predicate Wrote(qt: QType, env: Env, before: seq<ResultRecord>, tasks: seq<string>, after: seq<ResultRecord>)
  {
    && |after| == |before| + |tasks|
    && before <= after
    && forall j :: 0 <= j < |tasks| ==> Produced(after[|before| + j]) == Process(qt, env, tasks[j])
  }

  lemma WroteCons(qt: QType, env: Env, before: seq<ResultRecord>, rec: ResultRecord, tasks: seq<string>, after: seq<ResultRecord>)
    requires tasks != [] && Produced(rec) == Process(qt, env, tasks[0])
    requires Wrote(qt, env, before + [rec], tasks[1..], after)
    ensures Wrote(qt, env, before, tasks, after)
  {
    var b := |before|;
    assert after[..b + 1] == before + [rec];
    assert after[..b] == after[..b + 1][..b];
    assert after[b] == rec;
    forall j | 1 <= j < |tasks|
      ensures Produced(after[b + j]) == Process(qt, env, tasks[j])
    {
      assert tasks[1..][j - 1] == tasks[j];
      assert b + j == |before + [rec]| + (j - 1);
    }
  }

  /** What each way of ending says, with `k` the number of tasks popped. */
  ghost predicate Ended(qt: QType, env: Env, sink: Sink, q: seq<string>, e: WorkerEnd, fuel: nat)
  {
    var k := |q| - |e.store.queue|;
    && (e.exit == Returned(true) ==> e.store.queue == [])
    && (e.exit == Returned(false) ==> 1 <= k <= |q| && Faults(qt, env, sink, q[k - 1]))
    && (e.exit == OutOfFuel ==> k == fuel && e.store.queue != [])
  }

  /** One written round followed by a run that progressed is a run that progressed. */
  lemma ProgressedCons(qt: QType, env: Env, sink: Sink, q: seq<string>, out: seq<ResultRecord>,
                       rec: ResultRecord, e: WorkerEnd, fuel: nat)
    requires q != [] && Produced(rec) == Process(qt, env, q[0]) && fuel >= 1
    requires Progressed(qt, env, sink, q[1..], out + [rec], e, fuel - 1)
    ensures Progressed(qt, env, sink, q, out, e, fuel)
  {
    var k := |q| - |e.store.queue|;
    var w := if e.exit == Returned(false) then k - 1 else k;
    assert q[..w][1..] == q[1..][..w - 1];
    WroteCons(qt, env, out, rec, q[..w], e.store.output);
    assert q[1..][k - 1..] == q[k..];
    EndedCons(qt, env, sink, q, e, fuel);
  }

  lemma EndedCons(qt: QType, env: Env, sink: Sink, q: seq<string>, e: WorkerEnd, fuel: nat)
    requires q != [] && |e.store.queue| < |q| && fuel >= 1 && Ended(qt, env, sink, q[1..], e, fuel - 1)
    ensures Ended(qt, env, sink, q, e, fuel)
  {
    var k := |q| - |e.store.queue|;
    if e.exit == Returned(false) {
      assert q[1..][k - 2] == q[k - 1];
    }
  }

  /** A run that stops without writing anything has progressed. */
  lemma ProgressedStop(qt: QType, env: Env, sink: Sink, st: Store, fuel: nat)
    requires st.queue == [] || fuel == 0 || Faults(qt, env, sink, st.queue[0])
    ensures Progressed(qt, env, sink, st.queue, st.output, WorkerLoop(qt, env, sink, st, fuel), fuel)
  {
    var e := WorkerLoop(qt, env, sink, st, fuel);
    if st.queue == [] {
      assert e == WorkerEnd(st, Returned(true));
    } else if fuel == 0 {
      assert e == WorkerEnd(st, OutOfFuel);
      assert st.queue[..0] == [] && st.queue[0..] == st.queue;
    } else {
      FaultedRound(qt, env, sink, st, fuel);
      assert st.queue[..0] == [];
    }
  }

  /** Every run of a worker whose callback does not re-add tasks progresses as above. */
  lemma {:induction false} WorkerProgress(qt: QType, env: Env, sink: Sink, st: Store, fuel: nat)
    requires NeverRequeues(sink)
    ensures Progressed(qt, env, sink, st.queue, st.output, WorkerLoop(qt, env, sink, st, fuel), fuel)
    decreases fuel, 1
  {
    if st.queue == [] || fuel == 0 || Faults(qt, env, sink, st.queue[0]) {
      ProgressedStop(qt, env, sink, st, fuel);
    } else {
      var lookup := Process(qt, env, st.queue[0]);
      assert lookup.Produced? && sink(lookup.record) == Write by {
        assert lookup.Produced? ==> sink(lookup.record) != Requeue;
      }
      ProgressedRound(qt, env, sink, st, lookup.record, fuel);
    }
  }

  /** A round that writes its record, followed by a run that progressed, is a run that
      progressed. */
  lemma {:induction false} ProgressedRound(qt: QType, env: Env, sink: Sink, st: Store, rec: ResultRecord, fuel: nat)
    requires NeverRequeues(sink)
    requires st.queue != [] && fuel != 0
    requires Process(qt, env, st.queue[0]) == Produced(rec) && sink(rec) == Write
    ensures Progressed(qt, env, sink, st.queue, st.output, WorkerLoop(qt, env, sink, st, fuel), fuel)
    decreases fuel, 0
  {
    var next := Store(st.queue[1..], st.output + [rec]);
    WorkerProgress(qt, env, sink, next, fuel - 1);
    WrittenRound(qt, env, sink, st, fuel);
    ProgressedCons(qt, env, sink, st.queue, st.output, rec, WorkerLoop(qt, env, sink, next, fuel - 1), fuel);
  }

  /** A callback that always re-adds its task keeps the worker looping: the queue never
      shrinks, nothing is written and the worker never returns, however many rounds it
      is given. */
  lemma {:induction false} RequeueSpins(qt: QType, env: Env, sink: Sink,
                                        st: Store, fuel: nat)
    requires Completes(qt, env) && AlwaysRequeues(sink) && st.queue != []
    ensures WorkerLoop(qt, env, sink, st, fuel).exit == OutOfFuel
    ensures |WorkerLoop(qt, env, sink, st, fuel).store.queue| == |st.queue|
    ensures WorkerLoop(qt, env, sink, st, fuel).store.output == st.output
    decreases fuel
  {
    if fuel != 0 {
      var load := st.queue[0];
      var rec := Process(qt, env, load).record;
      assert sink(rec) == Requeue;
      RequeueSpins(qt, env, sink, Store(st.queue[1..] + [load], st.output), fuel - 1);
    }
  }
}
