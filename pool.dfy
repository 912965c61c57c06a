/** Several workers of one scanner interleaved by an explicit schedule. Each step is one
    atomic action of one worker: an emptiness check together with the pop that follows
    it, the lookup of a popped task together with its callback under the lock, or the
    emptiness check after a callback. Taking the check and the pop together is what
    makes every worker able to finish; module PoolAsWritten keeps them apart. */
module Pool {
  import opened Wrappers
  import opened Records
  import opened Worker

  /** Where a worker is in `_internal_run_method`. */
  datatype Phase =
    | AtTop                // at the head of the loop
    | Holding(load: string) // popped `load`, about to look it up and deliver the record
    | AfterCallback        // delivered a record, about to check the queue again
    | Done(ok: bool)       // returned `ok`

  /** The shared queue and output, every worker's phase, and the tasks lost with a worker
      whose lookup or callback raised. */
  datatype PoolState = PoolState(queue: seq<string>, output: seq<ResultRecord>, phases: seq<Phase>, dropped: seq<string>)

  /** `n` workers about to start on `tasks`. Nothing is popped, written or lost yet, so
      the accounts hold from the start, and the ranking is three per task plus one per
      worker. */
  function Init(tasks: seq<string>, n: nat): (s: PoolState)
    ensures Accounted(s, tasks)
    ensures Measure(s) == 3 * |tasks| + n
  {
    var ps := seq(n, _ => AtTop);
    StartingPhases(tasks, ps);
    PoolState(tasks, [], ps, [])
  }

  /** One atomic step of worker `i`. Only that worker's phase changes, and a finished
      worker's step changes nothing. */
  function Step(qt: QType, env: Env, sink: Sink, s: PoolState, i: nat): (r: PoolState)
    requires i < |s.phases|
    ensures |r.phases| == |s.phases|
    ensures forall j :: 0 <= j < |s.phases| && j != i ==> r.phases[j] == s.phases[j]
    ensures s.phases[i].Done? ==> r == s
  {
    match s.phases[i]
    case AtTop =>
      if s.queue == [] then s.(phases := s.phases[i := Done(true)])
      else s.(queue := s.queue[1..], phases := s.phases[i := Holding(s.queue[0])])
    case Holding(load) =>
      (match Process(qt, env, load)
       case Escaped => s.(phases := s.phases[i := Done(false)], dropped := s.dropped + [load])
       case Produced(rec) =>
         match Deliver(Store(s.queue, s.output), rec, sink(rec))
         case None => s.(phases := s.phases[i := Done(false)], dropped := s.dropped + [load])
         case Some(st) => s.(queue := st.queue, output := st.output, phases := s.phases[i := AfterCallback]))
    case AfterCallback =>
      if s.queue == [] then s.(phases := s.phases[i := Done(true)])
      else s.(phases := s.phases[i := AtTop])
    case Done(_) => s
  }

  predicate ValidSchedule(s: PoolState, sched: seq<nat>) {
    forall k :: 0 <= k < |sched| ==> sched[k] < |s.phases|
  }

  /** The steps of `sched`, in order. */
  function Run(qt: QType, env: Env, sink: Sink, s: PoolState, sched: seq<nat>): (r: PoolState)
    requires ValidSchedule(s, sched)
    ensures |r.phases| == |s.phases|
    decreases |sched|
  {
    if sched == [] then s else Run(qt, env, sink, Step(qt, env, sink, s, sched[0]), sched[1..])
  }

  predicate AllDone(ps: seq<Phase>) {
    forall j :: 0 <= j < |ps| ==> ps[j].Done?
  }

  /** The tasks the workers hold between pop and delivery. */
  function Held(ps: seq<Phase>): multiset<string> {
    if ps == [] then multiset{} else HeldBy(ps[0]) + Held(ps[1..])
  }

  function HeldBy(p: Phase): multiset<string> {
    if p.Holding? then multiset{p.load} else multiset{}
  }

  /** The sum of `f` over the phases. */
  function Tally(ps: seq<Phase>, f: Phase -> nat): nat {
    if ps == [] then 0 else f(ps[0]) + Tally(ps[1..], f)
  }

  function FaultedWeight(p: Phase): nat {
    if p == Done(false) then 1 else 0
  }

  /** Rounds a phase can still take before a pop or the end: the ranking behind
      termination. */
  function PhaseWeight(p: Phase): nat {
    match p
    case AtTop => 1
    case Holding(_) => 3
    case AfterCallback => 2
    case Done(_) => 0
  }

  /** Workers that returned False. */
  function Faulted(ps: seq<Phase>): nat {
    Tally(ps, FaultedWeight)
  }

  lemma {:induction false} HeldUpdate(ps: seq<Phase>, i: nat, p: Phase)
    requires i < |ps|
    ensures Held(ps[i := p]) + HeldBy(ps[i]) == Held(ps) + HeldBy(p)
  {
    var qs := ps[i := p];
    if i > 0 {
      var tail := ps[1..];
      UpdateTail(ps, i, p);
      HeldUpdate(tail, i - 1, p);
      var a, x, y, z, w := HeldBy(ps[0]), Held(tail[i - 1 := p]), HeldBy(ps[i]), Held(tail), HeldBy(p);
      assert Held(qs) == a + x;
      assert Held(ps) == a + z;
      forall o ensures (Held(qs) + y)[o] == (Held(ps) + w)[o] {
        assert (x + y)[o] == (z + w)[o];
      }
    } else {
      assert qs[1..] == ps[1..];
    }
  }

  lemma {:induction false} TallyUpdate(ps: seq<Phase>, i: nat, p: Phase, f: Phase -> nat)
    requires i < |ps|
    ensures Tally(ps[i := p], f) + f(ps[i]) == Tally(ps, f) + f(p)
  {
    if i > 0 {
      UpdateTail(ps, i, p);
      TallyUpdate(ps[1..], i - 1, p, f);
    } else {
      assert ps[i := p][1..] == ps[1..];
    }
  }

  /** Updating a later element and dropping the first commute. */
  lemma UpdateTail(ps: seq<Phase>, i: nat, p: Phase)
    requires 0 < i < |ps|
    ensures ps[i := p][1..] == ps[1..][i - 1 := p]
    ensures ps[i := p][0] == ps[0] && ps[1..][i - 1] == ps[i]
  {
    var qs := ps[i := p];
    assert |qs[1..]| == |ps[1..][i - 1 := p]|;
    assert forall j :: 0 <= j < |qs[1..]| ==> qs[1..][j] == ps[1..][i - 1 := p][j];
  }

  lemma {:induction false} HeldNone(ps: seq<Phase>)
    requires forall j :: 0 <= j < |ps| ==> !ps[j].Holding?
    ensures Held(ps) == multiset{}
  {
    if ps != [] {
      HeldNone(ps[1..]);
    }
  }

  lemma {:induction false} TallyZero(ps: seq<Phase>, f: Phase -> nat)
    requires forall j :: 0 <= j < |ps| ==> f(ps[j]) == 0
    ensures Tally(ps, f) == 0
  {
    if ps != [] {
      TallyZero(ps[1..], f);
    }
  }

  /** Fewer than all workers returned False only if some worker did something else. */
  lemma {:induction false} FaultedBelow(ps: seq<Phase>)
    ensures Faulted(ps) <= |ps|
    ensures Faulted(ps) < |ps| ==> exists j :: 0 <= j < |ps| && ps[j] != Done(false)
  {
    if ps != [] {
      FaultedBelow(ps[1..]);
      if Faulted(ps) < |ps| && ps[0] == Done(false) {
        var j :| 0 <= j < |ps[1..]| && ps[1..][j] != Done(false);
        assert ps[j + 1] != Done(false);
      }
    }
  }

  /** Every task in `popped` is written, held by a worker, or lost with a faulted worker,
      exactly once. */
  predicate Conserved(popped: seq<string>, s: PoolState) {
    multiset(popped) == multiset(Names(s.output)) + Held(s.phases) + multiset(s.dropped)
  }

  /** `q` is what is left of `tasks` after some pops from the front. */
  predicate QueueLeft(q: seq<string>, tasks: seq<string>) {
    |q| <= |tasks| && q == tasks[|tasks| - |q|..]
  }

  /** The tasks popped so far. */
  function Popped(q: seq<string>, tasks: seq<string>): (p: seq<string>)
    requires |q| <= |tasks|
    ensures |p| + |q| == |tasks|
  {
    tasks[..|tasks| - |q|]
  }

  /** Each faulted worker lost exactly one task. */
  predicate FaultsCounted(s: PoolState) {
    |s.dropped| == Faulted(s.phases)
  }

  /** Once a worker has returned True the queue stays empty. */
  predicate StaysDrained(s: PoolState) {
    forall j :: 0 <= j < |s.phases| && s.phases[j] == Done(true) ==> s.queue == []
  }

  /** The accounting every reachable state keeps, for a callback that does not re-add
      tasks. */
  predicate Accounted(s: PoolState, tasks: seq<string>) {
    && QueueLeft(s.queue, tasks)
    && Conserved(Popped(s.queue, tasks), s)
    && FaultsCounted(s)
    && StaysDrained(s)
  }

  /** Workers that have not started keep the accounts and are ranked one each. */
  lemma StartingPhases(tasks: seq<string>, ps: seq<Phase>)
    requires forall j :: 0 <= j < |ps| ==> ps[j] == AtTop
    ensures Accounted(PoolState(tasks, [], ps, []), tasks)
    ensures Measure(PoolState(tasks, [], ps, [])) == 3 * |tasks| + |ps|
  {
    HeldNone(ps);
    TallyZero(ps, FaultedWeight);
    TallyAtTop(ps);
    assert Popped(tasks, tasks) == [];
  }

  lemma {:induction false} TallyAtTop(ps: seq<Phase>)
    requires forall j :: 0 <= j < |ps| ==> ps[j] == AtTop
    ensures Tally(ps, PhaseWeight) == |ps|
  {
    if ps != [] {
      TallyAtTop(ps[1..]);
    }
  }

  /** `a + e == b + f` with `e` and `f` empty gives `a == b`. */
  lemma Unpad(a: multiset<string>, e: multiset<string>, b: multiset<string>, f: multiset<string>)
    requires a + e == b + f && e == multiset{} && f == multiset{}
    ensures a == b
  {
    forall o ensures a[o] == b[o] {
      assert (a + e)[o] == (b + f)[o];
    }
  }

  /** One more popped task, now held. */
  lemma MovePopped(m: multiset<string>, n: multiset<string>, h: multiset<string>, d: multiset<string>,
                   x: multiset<string>, e: multiset<string>, h2: multiset<string>)
    requires m == n + h + d && h2 + e == h + x && e == multiset{}
    ensures m + x == n + h2 + d
  {
    forall o ensures (m + x)[o] == (n + h2 + d)[o] {
      assert (h2 + e)[o] == (h + x)[o];
    }
  }

  /** A held task moves to the written names. */
  lemma MoveWritten(m: multiset<string>, n: multiset<string>, h: multiset<string>, d: multiset<string>,
                    x: multiset<string>, e: multiset<string>, h2: multiset<string>)
    requires m == n + h + d && h2 + x == h + e && e == multiset{}
    ensures m == (n + x) + h2 + d
  {
    forall o ensures m[o] == ((n + x) + h2 + d)[o] {
      assert (h2 + x)[o] == (h + e)[o];
    }
  }

  /** A held task moves to the lost ones. */
  lemma MoveDropped(m: multiset<string>, n: multiset<string>, h: multiset<string>, d: multiset<string>,
                    x: multiset<string>, e: multiset<string>, h2: multiset<string>)
    requires m == n + h + d && h2 + x == h + e && e == multiset{}
    ensures m == n + h2 + (d + x)
  {
    forall o ensures m[o] == (n + h2 + (d + x))[o] {
      assert (h2 + x)[o] == (h + e)[o];
    }
  }

  lemma NamesSnoc(rs: seq<ResultRecord>, rec: ResultRecord)
    ensures multiset(Names(rs + [rec])) == multiset(Names(rs)) + multiset{rec.name}
  {
    NamesAppend(rs, [rec]);
    assert Names([rec]) == [rec.name];
  }

  lemma PhaseChangeConserved(popped: seq<string>, s: PoolState, i: nat, p: Phase)
    requires i < |s.phases| && Conserved(popped, s) && !s.phases[i].Holding? && !p.Holding?
    ensures Conserved(popped, s.(phases := s.phases[i := p]))
  {
    HeldUpdate(s.phases, i, p);
    Unpad(Held(s.phases[i := p]), HeldBy(s.phases[i]), Held(s.phases), HeldBy(p));
  }

  lemma PopConserved(popped: seq<string>, after: seq<string>, s: PoolState, i: nat)
    requires i < |s.phases| && Conserved(popped, s) && s.phases[i] == AtTop && s.queue != []
    requires after == popped + [s.queue[0]]
    ensures Conserved(after, s.(queue := s.queue[1..], phases := s.phases[i := Holding(s.queue[0])]))
  {
    var x := s.queue[0];
    assert multiset(after) == multiset(popped) + multiset{x};
    HeldUpdate(s.phases, i, Holding(x));
    MovePopped(multiset(popped), multiset(Names(s.output)), Held(s.phases), multiset(s.dropped),
               multiset{x}, HeldBy(s.phases[i]), Held(s.phases[i := Holding(x)]));
  }

  lemma WriteConserved(popped: seq<string>, s: PoolState, i: nat, rec: ResultRecord)
    requires i < |s.phases| && Conserved(popped, s) && s.phases[i].Holding? && rec.name == s.phases[i].load
    ensures Conserved(popped, s.(output := s.output + [rec], phases := s.phases[i := AfterCallback]))
  {
    NamesSnoc(s.output, rec);
    HeldUpdate(s.phases, i, AfterCallback);
    MoveWritten(multiset(popped), multiset(Names(s.output)), Held(s.phases), multiset(s.dropped),
                multiset{rec.name}, HeldBy(AfterCallback), Held(s.phases[i := AfterCallback]));
  }

  lemma DropConserved(popped: seq<string>, s: PoolState, i: nat)
    requires i < |s.phases| && Conserved(popped, s) && s.phases[i].Holding?
    ensures Conserved(popped, s.(phases := s.phases[i := Done(false)], dropped := s.dropped + [s.phases[i].load]))
  {
    var x := s.phases[i].load;
    HeldUpdate(s.phases, i, Done(false));
    assert multiset(s.dropped + [x]) == multiset(s.dropped) + multiset{x};
    MoveDropped(multiset(popped), multiset(Names(s.output)), Held(s.phases), multiset(s.dropped),
                multiset{x}, HeldBy(Done(false)), Held(s.phases[i := Done(false)]));
  }

  /** A state that differs from an accounted one only in worker `i`'s phase, by a
      change that holds and loses nothing, is accounted. */
  lemma PhaseChangeAccounted(s: PoolState, i: nat, p: Phase, tasks: seq<string>)
    requires i < |s.phases| && Accounted(s, tasks)
    requires !s.phases[i].Holding? && !p.Holding?
    requires FaultedWeight(p) == FaultedWeight(s.phases[i])
    requires p == Done(true) ==> s.queue == []
    ensures Accounted(s.(phases := s.phases[i := p]), tasks)
  {
    var r := s.(phases := s.phases[i := p]);
    PhaseChangeConserved(Popped(s.queue, tasks), s, i, p);
    TallyUpdate(s.phases, i, p, FaultedWeight);
    forall j | 0 <= j < |r.phases| && r.phases[j] == Done(true) ensures r.queue == [] {
      if j != i {
        assert r.phases[j] == s.phases[j];
      }
    }
  }

  /** Popping the front task keeps the accounts. */
  lemma PopAccounted(s: PoolState, i: nat, tasks: seq<string>)
    requires i < |s.phases| && Accounted(s, tasks) && s.phases[i] == AtTop && s.queue != []
    ensures Accounted(s.(queue := s.queue[1..], phases := s.phases[i := Holding(s.queue[0])]), tasks)
  {
    var x := s.queue[0];
    var r := s.(queue := s.queue[1..], phases := s.phases[i := Holding(x)]);
    PopSlices(tasks, s.queue);
    PopConserved(Popped(s.queue, tasks), Popped(r.queue, tasks), s, i);
    TallyUpdate(s.phases, i, Holding(x), FaultedWeight);
    forall j | 0 <= j < |r.phases| ensures r.phases[j] != Done(true) {
      if j != i {
        assert r.phases[j] == s.phases[j];
      }
    }
  }

  /** Popping the front of the rest of `tasks` moves it to the popped prefix. */
  lemma PopSlices(tasks: seq<string>, q: seq<string>)
    requires QueueLeft(q, tasks) && q != []
    ensures QueueLeft(q[1..], tasks)
    ensures Popped(q[1..], tasks) == Popped(q, tasks) + [q[0]]
  {
    var k := |tasks| - |q|;
    assert tasks[k] == q[0];
  }

  /** Writing the held task's record keeps the accounts. */
  lemma WriteAccounted(s: PoolState, i: nat, rec: ResultRecord, tasks: seq<string>)
    requires i < |s.phases| && Accounted(s, tasks) && s.phases[i].Holding? && rec.name == s.phases[i].load
    ensures Accounted(s.(output := s.output + [rec], phases := s.phases[i := AfterCallback]), tasks)
  {
    var r := s.(output := s.output + [rec], phases := s.phases[i := AfterCallback]);
    WriteConserved(Popped(s.queue, tasks), s, i, rec);
    TallyUpdate(s.phases, i, AfterCallback, FaultedWeight);
    forall j | 0 <= j < |r.phases| && r.phases[j] == Done(true) ensures r.queue == [] {
      assert r.phases[j] == s.phases[j];
    }
  }

  /** Losing the held task with its faulted worker keeps the accounts. */
  lemma DropAccounted(s: PoolState, i: nat, tasks: seq<string>)
    requires i < |s.phases| && Accounted(s, tasks) && s.phases[i].Holding?
    ensures Accounted(s.(phases := s.phases[i := Done(false)], dropped := s.dropped + [s.phases[i].load]), tasks)
  {
    var r := s.(phases := s.phases[i := Done(false)], dropped := s.dropped + [s.phases[i].load]);
    DropConserved(Popped(s.queue, tasks), s, i);
    TallyUpdate(s.phases, i, Done(false), FaultedWeight);
    forall j | 0 <= j < |r.phases| && r.phases[j] == Done(true) ensures r.queue == [] {
      assert r.phases[j] == s.phases[j];
    }
  }

  lemma StepAccounted(qt: QType, env: Env, sink: Sink, s: PoolState, i: nat, tasks: seq<string>)
    requires NeverRequeues(sink) && i < |s.phases| && Accounted(s, tasks)
    ensures Accounted(Step(qt, env, sink, s, i), tasks)
  {
    match s.phases[i]
    case AtTop =>
      if s.queue == [] {
        PhaseChangeAccounted(s, i, Done(true), tasks);
      } else {
        PopAccounted(s, i, tasks);
      }
    case Holding(load) =>
      HoldingAccounted(qt, env, sink, s, i, tasks);
    case AfterCallback =>
      PhaseChangeAccounted(s, i, if s.queue == [] then Done(true) else AtTop, tasks);
    case Done(_) =>
  }

  lemma HoldingAccounted(qt: QType, env: Env, sink: Sink, s: PoolState, i: nat, tasks: seq<string>)
    requires NeverRequeues(sink) && i < |s.phases| && Accounted(s, tasks) && s.phases[i].Holding?
    ensures Accounted(Step(qt, env, sink, s, i), tasks)
  {
    var load := s.phases[i].load;
    var dropped := s.(phases := s.phases[i := Done(false)], dropped := s.dropped + [load]);
    match Process(qt, env, load)
    case Escaped =>
      assert Step(qt, env, sink, s, i) == dropped;
      DropAccounted(s, i, tasks);
    case Produced(rec) =>
      assert sink(rec) != Requeue;
      if sink(rec) == Fault {
        assert Step(qt, env, sink, s, i) == dropped;
        DropAccounted(s, i, tasks);
      } else {
        assert Step(qt, env, sink, s, i) == s.(output := s.output + [rec], phases := s.phases[i := AfterCallback]);
        WriteAccounted(s, i, rec, tasks);
      }
  }

  lemma {:induction false} RunAccounted(qt: QType, env: Env, sink: Sink, s: PoolState, sched: seq<nat>, tasks: seq<string>)
    requires NeverRequeues(sink) && ValidSchedule(s, sched) && Accounted(s, tasks)
    ensures Accounted(Run(qt, env, sink, s, sched), tasks)
    decreases |sched|
  {
    if sched != [] {
      StepAccounted(qt, env, sink, s, sched[0], tasks);
      RunAccounted(qt, env, sink, Step(qt, env, sink, s, sched[0]), sched[1..], tasks);
    }
  }

  /** When every worker has finished, each task was written, lost with a faulted worker
      or is still queued, exactly once; at most one task is lost per worker; and unless
      every worker faulted, the queue is empty. */
  lemma Finished(s: PoolState, tasks: seq<string>)
    requires Accounted(s, tasks) && AllDone(s.phases)
    ensures multiset(Names(s.output)) + multiset(s.dropped) + multiset(s.queue) == multiset(tasks)
    ensures |s.dropped| <= |s.phases|
    ensures |s.dropped| < |s.phases| ==> s.queue == []
  {
    HeldNone(s.phases);
    FaultedBelow(s.phases);
    assert tasks == Popped(s.queue, tasks) + s.queue;
  }

  /** With the default callback and lookups that never raise, no worker ever returns
      False and nothing is lost. */
  lemma {:induction false} RunNoFaults(qt: QType, env: Env, sink: Sink, s: PoolState, sched: seq<nat>)
    requires Completes(qt, env) && AlwaysWrites(sink) && ValidSchedule(s, sched)
    requires s.dropped == [] && forall j :: 0 <= j < |s.phases| ==> s.phases[j] != Done(false)
    ensures Run(qt, env, sink, s, sched).dropped == []
    ensures forall j :: 0 <= j < |s.phases| ==> Run(qt, env, sink, s, sched).phases[j] != Done(false)
    decreases |sched|
  {
    if sched != [] {
      var i := sched[0];
      if s.phases[i].Holding? {
        assert sink(Process(qt, env, s.phases[i].load).record) == Write;
      }
      RunNoFaults(qt, env, sink, Step(qt, env, sink, s, i), sched[1..]);
    }
  }

  /** No loss, no duplication: with the default callback and lookups that never raise,
      once every one of `n >= 1` workers has finished, whatever the interleaving, the
      output holds exactly one record per enqueued task and the queue is empty. */
  lemma DeliversAll(qt: QType, env: Env, sink: Sink, tasks: seq<string>, n: nat, sched: seq<nat>)
    requires Completes(qt, env) && AlwaysWrites(sink) && n >= 1
    requires ValidSchedule(Init(tasks, n), sched)
    requires AllDone(Run(qt, env, sink, Init(tasks, n), sched).phases)
    ensures multiset(Names(Run(qt, env, sink, Init(tasks, n), sched).output)) == multiset(tasks)
    ensures |Run(qt, env, sink, Init(tasks, n), sched).output| == |tasks|
    ensures Run(qt, env, sink, Init(tasks, n), sched).queue == []
  {
    var s := Init(tasks, n);
    var r := Run(qt, env, sink, s, sched);
    assert Accounted(r, tasks) by {
      RunAccounted(qt, env, sink, s, sched, tasks);
    }
    assert r.dropped == [] by {
      RunNoFaults(qt, env, sink, s, sched);
    }
    assert multiset(Names(r.output)) + multiset(r.dropped) + multiset(r.queue) == multiset(tasks) && r.queue == [] by {
      Finished(r, tasks);
    }
    NoDropsNoQueue(multiset(Names(r.output)), multiset(r.dropped), multiset(r.queue), multiset(tasks));
    assert |multiset(Names(r.output))| == |Names(r.output)|;
  }

  lemma NoDropsNoQueue(a: multiset<string>, d: multiset<string>, q: multiset<string>, t: multiset<string>)
    requires a + d + q == t && d == multiset{} && q == multiset{}
    ensures a == t
  {
    forall o ensures a[o] == t[o] {
      assert (a + d + q)[o] == t[o];
    }
  }

  /** The ranking: every step of an unfinished worker lowers it. */
  function Measure(s: PoolState): nat {
    3 * |s.queue| + Tally(s.phases, PhaseWeight)
  }

  /** Steps of unfinished workers; the steps of finished ones change nothing. */
  function EffectiveSteps(qt: QType, env: Env, sink: Sink, s: PoolState, sched: seq<nat>): nat
    requires ValidSchedule(s, sched)
    decreases |sched|
  {
    if sched == [] then 0
    else (if s.phases[sched[0]].Done? then 0 else 1) + EffectiveSteps(qt, env, sink, Step(qt, env, sink, s, sched[0]), sched[1..])
  }

  lemma StepDecreases(qt: QType, env: Env, sink: Sink, s: PoolState, i: nat)
    requires NeverRequeues(sink) && i < |s.phases| && !s.phases[i].Done?
    ensures Measure(Step(qt, env, sink, s, i)) < Measure(s)
  {
    var r := Step(qt, env, sink, s, i);
    TallyUpdate(s.phases, i, r.phases[i], PhaseWeight);
    if s.phases[i].Holding? && Process(qt, env, s.phases[i].load).Produced? {
      assert sink(Process(qt, env, s.phases[i].load).record) != Requeue;
    }
  }

  /** Termination under every interleaving: a schedule makes at most `Measure(s)` steps
      that do anything, which `Init` gives as `3 * |tasks| + n` for `n` fresh workers. */
  lemma {:induction false} StepsBounded(qt: QType, env: Env, sink: Sink, s: PoolState, sched: seq<nat>)
    requires NeverRequeues(sink) && ValidSchedule(s, sched)
    ensures EffectiveSteps(qt, env, sink, s, sched) + Measure(Run(qt, env, sink, s, sched)) <= Measure(s)
    decreases |sched|
  {
    if sched != [] {
      var i := sched[0];
      if !s.phases[i].Done? {
        StepDecreases(qt, env, sink, s, i);
      }
      StepsBounded(qt, env, sink, Step(qt, env, sink, s, i), sched[1..]);
    }
  }

  function FirstActive(ps: seq<Phase>): (i: nat)
    requires !AllDone(ps)
    ensures i < |ps| && !ps[i].Done?
  {
    if !ps[0].Done? then 0 else 1 + FirstActive(ps[1..])
  }

  /** A schedule that steps the first unfinished worker until all have finished. */
  function CompletionSchedule(qt: QType, env: Env, sink: Sink, s: PoolState): (sched: seq<nat>)
    requires NeverRequeues(sink)
    ensures ValidSchedule(s, sched)
    ensures AllDone(Run(qt, env, sink, s, sched).phases)
    decreases Measure(s)
  {
    if AllDone(s.phases) then []
    else
      var i := FirstActive(s.phases);
      StepDecreases(qt, env, sink, s, i);
      var rest := CompletionSchedule(qt, env, sink, Step(qt, env, sink, s, i));
      assert ([i] + rest)[1..] == rest;
      [i] + rest
  }
}
