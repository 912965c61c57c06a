/** The `__main__` block of the scanner: reading the thread count, building the scanner,
    queueing the input lines and starting it. Argument parsing, the files and the
    nameserver option are outside the model: the two arguments arrive as text, the input
    as its sequence of lines, and what the scanner writes is its output sequence. */
module Script {
  import opened Wrappers
  import opened PyText
  import opened Records
  import opened Configuration
  import opened Worker
  import opened Scanning

  /** The arguments the block reads: `-t` (default "") and `-q` (default "A"). */
  datatype CliArgs = CliArgs(threads: string, qtype: string)

  /** How a run of the block ends. */
  datatype ScriptEnd =
    | BadThreadCount               // printed the error line and exited with -1
    | Crashed(error: ConfigError)  // an exception escaped and ended the program
    | Finished(exits: seq<Exit>)   // `start()` returned; each worker's exit, in order

  const ThreadCountErrorMsg: string := "Error: Number of threads must be an integer > 0"

  /** Reading `-t`: the empty text leaves the count to the constructor; any other text
      must be something `int()` accepts, with a value of at least 1. */
  function ParseThreadCount(arg: string): (r: Result<Option<int>, string>)
    ensures arg == "" ==> r == Ok(None)
    ensures arg != "" ==> (r.Ok? <==> ParseInt(arg).Some? && ParseInt(arg).value >= 1)
    ensures r.Ok? && r.value.Some? ==> r.value.value >= 1 && ParseInt(arg) == r.value
    ensures r.Err? ==> r.error == ThreadCountErrorMsg
  {
    if arg == "" then Ok(None)
    else
      match ParseInt(arg)
      case None => Err(ThreadCountErrorMsg)
      case Some(n) => if n < 1 then Err(ThreadCountErrorMsg) else Ok(Some(n))
  }

  /** A count written in decimal, with any whitespace that `int()` skips around it, is
      accepted exactly when it is at least 1, and then read back as itself. */
  lemma ThreadCountDecimal(n: int, p: string, q: string)
    requires forall i :: 0 <= i < |p| ==> IsIntSpace(p[i])
    requires forall i :: 0 <= i < |q| ==> IsIntSpace(q[i])
    ensures n >= 1 ==> ParseThreadCount(p + DecimalString(n) + q) == Ok(Some(n))
    ensures n < 1 ==> ParseThreadCount(p + DecimalString(n) + q) == Err(ThreadCountErrorMsg)
  {
    ParseIntDecimal(n, p, q);
    DecimalParses(n);
    assert |p + DecimalString(n) + q| >= |DecimalString(n)| > 0;
  }

  /** Whitespace around a count is accepted. */
  lemma ThreadCountAccepts()
    ensures ParseThreadCount(" 8\n") == Ok(Some(8))
  {
    ThreadCountDecimal(8, " ", "\n");
    assert " " + DecimalString(8) + "\n" == " 8\n";
  }

  /** Counts below 1 are refused. */
  lemma ThreadCountRejectsSmall()
    ensures ParseThreadCount("0") == Err(ThreadCountErrorMsg)
    ensures ParseThreadCount("-3") == Err(ThreadCountErrorMsg)
  {
    StripByUnchanged(IsIntSpace, "0");
    assert "0"[..0] == "";
    StripByUnchanged(IsIntSpace, "-3");
    assert "-3"[1..] == "3";
  }

  /** A text that `int()` rejects is refused. */
  lemma ThreadCountRejectsWord()
    ensures ParseThreadCount("eight") == Err(ThreadCountErrorMsg)
  {
    StripByUnchanged(IsIntSpace, "eight");
    assert !IsDigit("eight"[0]);
  }

  /** Underscores may only stand alone between digits. */
  lemma ThreadCountRejectsDoubleUnderscore()
    ensures ParseThreadCount("1__0") == Err(ThreadCountErrorMsg)
  {
    StripByUnchanged(IsIntSpace, "1__0");
    assert "1__0"[1] == '_' && "1__0"[2] == '_';
  }

  /** A separator character is whitespace to `strip()` but not to `int()`, so a count
      led by U+001C is refused. */
  lemma ThreadCountRejectsSeparator()
    ensures ParseThreadCount("\U{1C}8") == Err(ThreadCountErrorMsg)
  {
    assert !IsIntSpace("\U{1C}8"[0]) && !IsNumeralChar("\U{1C}8"[0]);
  }

  /** The tasks the input loop queues: each line stripped, in input order, blank lines
      skipped. Every task is non-empty and has no whitespace at either end. */
  function InputTasks(lines: seq<string>): (tasks: seq<string>)
    ensures |tasks| <= |lines|
    ensures forall i :: 0 <= i < |tasks| ==> tasks[i] != [] && Strip(tasks[i]) == tasks[i]
  {
    if lines == [] then []
    else
      var rest := InputTasks(lines[..|lines| - 1]);
      var t := Strip(lines[|lines| - 1]);
      if t == [] then rest
      else
        StripUnchanged(t);
        rest + [t]
  }

  /** Every line stripped, blank ones included. */
  function Stripped(lines: seq<string>): seq<string>
  {
    if lines == [] then [] else Stripped(lines[..|lines| - 1]) + [Strip(lines[|lines| - 1])]
  }

  /** A text is queued exactly when it is the stripped form of some non-blank line. */
  lemma {:induction false} InputTasksExactly(lines: seq<string>, t: string)
    ensures t in InputTasks(lines) <==> t != [] && t in Stripped(lines)
  {
    if lines != [] {
      InputTasksExactly(lines[..|lines| - 1], t);
    }
  }

  /** Reading two pieces of input one after the other queues the tasks of each, in order. */
  lemma {:induction false} InputTasksAppend(a: seq<string>, b: seq<string>)
    ensures InputTasks(a + b) == InputTasks(a) + InputTasks(b)
    decreases |b|
  {
    if b == [] {
      assert a + b == a;
    } else {
      var b' := b[..|b| - 1];
      var t := Strip(b[|b| - 1]);
      var tail := if t == [] then [] else [t];
      assert InputTasks(a + b) == InputTasks(a + b') + tail by {
        assert (a + b)[..|a + b| - 1] == a + b';
        assert (a + b)[|a + b| - 1] == b[|b| - 1];
      }
      assert InputTasks(b) == InputTasks(b') + tail;
      InputTasksAppend(a, b');
      Assoc(InputTasks(a), InputTasks(b'), tail);
    }
  }

  /** The input loop: `add_task` for each stripped non-blank line. */
  method EnqueueLines(a: DnsRrScanner, lines: seq<string>)
    modifies a
    ensures a.queue == old(a.queue) + InputTasks(lines)
    ensures a.output == old(a.output)
  {
    for i := 0 to |lines|
      invariant a.queue == old(a.queue) + InputTasks(lines[..i])
      invariant a.output == old(a.output)
    {
      InputTasksStep(lines, i);
      var line := Strip(lines[i]);
      if line != [] {
        var _ := a.AddTask(line);
        Assoc(old(a.queue), InputTasks(lines[..i]), [line]);
      }
    }
    assert lines[..|lines|] == lines;
  }

  /** One more line adds its stripped form as a task, unless that is blank. */
  lemma InputTasksStep(lines: seq<string>, i: nat)
    requires i < |lines|
    ensures InputTasks(lines[..i + 1]) == InputTasks(lines[..i]) + (if Strip(lines[i]) == [] then [] else [Strip(lines[i])])
  {
    assert lines[..i + 1][..i] == lines[..i];
  }

  /** The settings the block builds the scanner with, `verbose` at its default. */
  function Settled(args: CliArgs, cpus: nat): Result<Settings, ConfigError>
    requires ParseThreadCount(args.threads).Ok?
  {
    Configure(ParseThreadCount(args.threads).value, false, Str(args.qtype), cpus)
  }

  /** The block with `verbose` passed as False. It stops with `BadThreadCount` when `-t`
      is refused and with the constructor's error when `-q` is not a valid type, writing
      nothing in either case; otherwise it queues the input's tasks on a fresh scanner
      and runs `start()`, whose outcome is `SequentialStart` from that queue. With the
      default callback, lookups that never raise and a round per task, the output holds
      one record per input task, in input order, and every worker returned True. */
  method RunScript(args: CliArgs, lines: seq<string>, cpus: nat, env: Env, sink: Sink, fuel: nat)
    returns (end: ScriptEnd, out: seq<ResultRecord>)
    ensures ParseThreadCount(args.threads).Err? ==> end == BadThreadCount && out == []
    ensures ParseThreadCount(args.threads).Ok? && Settled(args, cpus).Err? ==>
              end == Crashed(Settled(args, cpus).error) && out == []
    ensures end.Finished? <==> ParseThreadCount(args.threads).Ok? && Settled(args, cpus).Ok?
    ensures end.Finished? ==>
              var settings := Settled(args, cpus).value;
              var r := SequentialStart(WorkerCount(settings.numThreads), settings.qtype, env, sink,
                                       Store(InputTasks(lines), []), fuel);
              r.store.output == out && r.exits == end.exits
    ensures end.Finished? && cpus >= 1 && Completes(Settled(args, cpus).value.qtype, env) &&
            AlwaysWrites(sink) && fuel >= |InputTasks(lines)| ==>
              Names(out) == InputTasks(lines) && forall i :: 0 <= i < |end.exits| ==> end.exits[i] == Returned(true)
  {
    var threads := ParseThreadCount(args.threads);
    if threads.Err? {
      return BadThreadCount, [];
    }
    var made := NewScanner(threads.value, false, Str(args.qtype), cpus);
    if made.Err? {
      return Crashed(made.error), [];
    }
    var a := made.value;
    var settings := Settled(args, cpus).value;
    assert a.qtype == settings.qtype && a.numThreads == settings.numThreads;
    EnqueueLines(a, lines);
    assert a.queue == InputTasks(lines) && a.output == [];
    ghost var st := Store(a.queue, a.output);
    var exits := a.Start(env, sink, fuel);
    assert SequentialStart(WorkerCount(settings.numThreads), settings.qtype, env, sink, st, fuel)
        == StartEnd(Store(a.queue, a.output), exits);
    end, out := Finished(exits), a.output;
    if cpus >= 1 && Completes(settings.qtype, env) && AlwaysWrites(sink) && fuel >= |InputTasks(lines)| {
      ScriptDrains(settings, cpus, InputTasks(lines), env, sink, fuel);
    }
  }

  /** A scanner with at least one worker, the default callback, lookups that never raise
      and a round per task writes one record per task in order; every worker returns True. */
  lemma ScriptDrains(settings: Settings, cpus: nat, tasks: seq<string>, env: Env, sink: Sink, fuel: nat)
    requires WorkerCount(settings.numThreads) >= 1
    requires Completes(settings.qtype, env) && AlwaysWrites(sink) && fuel >= |tasks|
    ensures var r := SequentialStart(WorkerCount(settings.numThreads), settings.qtype, env, sink, Store(tasks, []), fuel);
      Names(r.store.output) == tasks && forall i :: 0 <= i < |r.exits| ==> r.exits[i] == Returned(true)
  {
    StartDrains(WorkerCount(settings.numThreads), settings.qtype, env, sink, Store(tasks, []), fuel);
    assert [] + RecordsFor(settings.qtype, env, tasks) == RecordsFor(settings.qtype, env, tasks);
  }

  /** The block as written: after the thread count is checked, the constructor call
      passes `verbose = verbose`, and no `verbose` is defined at module level, so the
      call raises a NameError before any scanner exists. */
  function ScriptAsWritten(args: CliArgs): (r: ScriptEnd)
    ensures !r.Finished?
    ensures r == BadThreadCount <==> ParseThreadCount(args.threads).Err?
    ensures r.Crashed? ==> r.error == NameError("verbose")
  {
    if ParseThreadCount(args.threads).Err? then BadThreadCount
    else Crashed(NameError("verbose"))
  }

  /** As written, the block never scans anything, whatever its arguments; with the
      defaults it crashes where the intended block finishes. */
  lemma ScriptAsWrittenNeverScans(args: CliArgs)
    ensures !ScriptAsWritten(args).Finished?
    ensures ParseThreadCount(args.threads).Ok? ==> ScriptAsWritten(args) == Crashed(NameError("verbose"))
    ensures ScriptAsWritten(CliArgs("", "A")) == Crashed(NameError("verbose"))
    ensures ParseThreadCount("").Ok? && Settled(CliArgs("", "A"), 1).Ok?
  {
    assert Upper("A") == "A";
  }
}
