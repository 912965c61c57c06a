/** The `DNS_RR_Scanner` object: its configuration, its task queue and its output, and
    the methods that change them. Threads are run one after another (see `Start`); the
    interleaved runs are in module Pool. */
module Scanning {
  import opened Wrappers
  import opened Records
  import opened Configuration
  import opened Worker

  /** The state `start` leaves: the shared store and each worker's exit, in worker order. */
  datatype StartEnd = StartEnd(store: Store, exits: seq<Exit>)

  /** `range(n)`: the integers from 0 up to `n`, none when `n` is not positive. */
  function Range(n: int): (r: seq<int>)
    ensures forall i :: 0 <= i < |r| ==> r[i] == i
    ensures forall i :: 0 <= i < n <==> i in r
    decreases if n > 0 then n else 0
  {
    if n <= 0 then []
    else
      var r := Range(n - 1);
      assert |r| == n - 1 by {
        if n > 1 {
          assert n - 2 in r;
          assert r[|r| - 1] in r;
        }
      }
      r + [n - 1]
  }

  /** How many workers `start` creates: one per element of `range(num_of_threads)`. */
  function WorkerCount(numThreads: int): (k: nat)
    ensures k == |Range(numThreads)|
  {
    var r := Range(numThreads);
    if numThreads > 0 then
      assert numThreads - 1 in r;
      assert r[|r| - 1] in r;
      numThreads
    else
      0
  }

  /** The first `n` workers run one after another from `st`, each for at most `fuel`
      rounds. */
  function SequentialStart(n: nat, qt: QType, env: Env, sink: Sink, st: Store, fuel: nat): (r: StartEnd)
    ensures |r.exits| == n
  {
    if n == 0 then StartEnd(st, [])
    else
      var before := SequentialStart(n - 1, qt, env, sink, st, fuel);
      var e := WorkerLoop(qt, env, sink, before.store, fuel);
      StartEnd(e.store, before.exits + [e.exit])
  }

  /** With the default callback and lookups that never raise, running at least one
      worker with a round per task writes one record per task in queue order, empties
      the queue, and every worker returns True (the first drains the queue, the others
      find it empty). */
  lemma {:induction false} StartDrains(n: nat, qt: QType, env: Env, sink: Sink, st: Store, fuel: nat)
    requires Completes(qt, env) && AlwaysWrites(sink) && fuel >= |st.queue| && n >= 1
    ensures SequentialStart(n, qt, env, sink, st, fuel).store == Store([], st.output + RecordsFor(qt, env, st.queue))
    ensures forall i :: 0 <= i < n ==> SequentialStart(n, qt, env, sink, st, fuel).exits[i] == Returned(true)
  {
    if n == 1 {
      DrainAll(qt, env, sink, st, fuel);
    } else {
      StartDrains(n - 1, qt, env, sink, st, fuel);
    }
  }

  class DnsRrScanner {
    const qtype: QType
    const numThreads: int
    const isDebug: bool
    /** `load_queue`, front first. */
    var queue: seq<string>
    /** The records written to the output, one per line, oldest first. */
    var output: seq<ResultRecord>

    /** `__init__` once its checks have passed (`Configure` states them). */
    constructor (settings: Settings)
      ensures qtype == settings.qtype && numThreads == settings.numThreads && isDebug == settings.isDebug
      ensures queue == [] && output == []
    {
      qtype := settings.qtype;
      numThreads := settings.numThreads;
      isDebug := settings.isDebug;
      queue := [];
      output := [];
    }

    /** `add_task`: appends `task` at the back of the queue and returns True. */
    method AddTask(task: string) returns (ok: bool)
      modifies this
      ensures queue == old(queue) + [task]
      ensures output == old(output)
      ensures ok
    {
      queue := queue + [task];
      ok := true;
    }

    /** `thread_callback` under the lock, doing what `action` says; `faulted` when the lock
        or the callback raised, and then nothing changed. */
    method ThreadCallback(rec: ResultRecord, action: SinkAction) returns (faulted: bool)
      modifies this
      ensures faulted <==> action == Fault
      ensures faulted ==> queue == old(queue) && output == old(output)
      ensures !faulted ==> Deliver(old(Store(queue, output)), rec, action) == Some(Store(queue, output))
    {
      match action
      case Write =>
        output := output + [rec];
        faulted := false;
      case Requeue =>
        var _ := AddTask(rec.name);
        faulted := false;
      case Fault =>
        faulted := true;
    }

    /** `_internal_run_method`, for at most `fuel` rounds: its final queue, output and
        exit are those of `WorkerLoop`. */
    method InternalRun(env: Env, sink: Sink, fuel: nat) returns (exit: Exit)
      modifies this
      ensures WorkerLoop(qtype, env, sink, old(Store(queue, output)), fuel) == WorkerEnd(Store(queue, output), exit)
    {
      var budget := fuel;
      while true
        invariant WorkerLoop(qtype, env, sink, old(Store(queue, output)), fuel)
               == WorkerLoop(qtype, env, sink, Store(queue, output), budget)
        decreases budget
      {
        if queue == [] {
          return Returned(true);
        }
        if budget == 0 {
          return OutOfFuel;
        }
        var load := queue[0];
        queue := queue[1..];
        var lookup := RunThread(load, env(load, qtype));
        if lookup.Escaped? {
          return Returned(false);
        }
        var faulted := ThreadCallback(lookup.record, sink(lookup.record));
        if faulted {
          return Returned(false);
        }
        if queue == [] {
          return Returned(true);
        }
        budget := budget - 1;
      }
    }

    /** `start`, with the threads run one after another to completion: one worker per
        `range(num_of_threads)`, each with at most `fuel` rounds. */
    method Start(env: Env, sink: Sink, fuel: nat) returns (exits: seq<Exit>)
      modifies this
      ensures SequentialStart(WorkerCount(numThreads), qtype, env, sink, old(Store(queue, output)), fuel)
           == StartEnd(Store(queue, output), exits)
    {
      exits := [];
      for i := 0 to WorkerCount(numThreads)
        invariant SequentialStart(i, qtype, env, sink, old(Store(queue, output)), fuel)
               == StartEnd(Store(queue, output), exits)
      {
        var exit := InternalRun(env, sink, fuel);
        exits := exits + [exit];
      }
    }
  }

  /** `DNS_RR_Scanner(...)`: a fresh scanner with an empty queue and output, or the
      error the constructor raises. */
  method NewScanner(numThreads: Option<int>, verbose: bool, qtype: QTypeArg, cpus: nat)
    returns (r: Result<DnsRrScanner, ConfigError>)
    ensures Configure(numThreads, verbose, qtype, cpus).Err? ==> r == Err(Configure(numThreads, verbose, qtype, cpus).error)
    ensures Configure(numThreads, verbose, qtype, cpus).Ok? ==>
              && r.Ok? && fresh(r.value)
              && r.value.qtype == Configure(numThreads, verbose, qtype, cpus).value.qtype
              && r.value.numThreads == Configure(numThreads, verbose, qtype, cpus).value.numThreads
              && r.value.queue == [] && r.value.output == []
  {
    var settings := Configure(numThreads, verbose, qtype, cpus);
    if settings.Err? {
      return Err(settings.error);
    }
    var scanner := new DnsRrScanner(settings.value);
    return Ok(scanner);
  }
}
