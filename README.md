# dnsrrscanner in Dafny

A model of `dnsrrscanner.py`, a multi-threaded DNS resource-record scanner. The
scanner reads domain names, one per line. It queues each stripped, non-blank line as
a task. A pool of worker threads pops tasks and asks the resolver for one record type
(A, AAAA, NS, TXT, SOA or MX). Under a global lock, each worker writes one JSON line
per name to the output. Each line holds the name, a status (NOERROR, NOANSWER,
NXDOMAIN, TIMEOUT or EXCEPTION) and the answers.

The modules follow the program:

- `PyText`: the Python built-ins the scanner relies on. These are `str.isspace`,
  `str.strip()`, `str.upper()`, and `int()` applied to a string. `int()` skips less
  whitespace than `strip()` removes: the separators U+001C..U+001F are whitespace to
  `strip()` but not to `int()`.
- `Records`: `get_resource_record` and `run_thread`. They map how a lookup went to the
  record written for it, or to an exception that escapes.
- `Configuration`: the checks of `DNS_RR_Scanner.__init__`.
- `Worker`: `_internal_run_method` as a function `WorkerLoop` of the shared queue and
  output. It comes with lemmas on what one worker does.
- `Scanning`: the `DNS_RR_Scanner` object as a class. `queue` and `output` are fields
  that its methods update. Each method is proved against the functions of `Worker`.
  `Start` runs the workers one after another.
- `Pool`: several workers interleaved by an arbitrary schedule of atomic steps, with
  the emptiness check and the pop as one step. Under every interleaving, and for a
  callback that never re-adds tasks, it proves that every task is written once, lost
  with a worker whose lookup or callback raised, or left queued, and that the steps are
  bounded. With the default callback and lookups that never raise, it proves no loss
  and no duplication of tasks.
- `PoolAsWritten`: the same workers with the emptiness check and the `get()` as two
  separate steps, as the source has them. It exhibits a schedule after which `join`
  never returns.
- `Script`: the `__main__` block. It checks the thread count, builds the scanner,
  queues the input's lines and starts the scan.

The resolver and the clock are one function parameter, `env: (string, QType) ->
Attempt`. It says for each name whether formatting the timestamp raised, and how the
resolver call ended. The result callback is a parameter `sink` that says, for each
record, whether the callback writes it, re-adds its task with `add_task`, or raises.
The default callback only writes. The CPU count is a parameter `cpus`.

## Model

| member | source | states |
|---|---|---|
| `PyText.Strip` | dnsrrscanner.py:191 | `strip()` returns the part of the text that follows its whitespace prefix; everything after that part is whitespace, and neither end of the result is whitespace |
| `PyText.StripPadded` | dnsrrscanner.py:191 | `strip()` removes exactly the whitespace padding around a text whose ends are not whitespace |
| `PyText.StripUnchanged` | dnsrrscanner.py:191 | a text whose ends are not whitespace is its own stripped form, so stripping twice is stripping once |
| `PyText.IsSpaceAscii` | dnsrrscanner.py:191 | among ASCII, `str.isspace()` holds for exactly tab, line feed, vertical tab, form feed, carriage return, U+001C..U+001F and space; no digit, sign or underscore is whitespace |
| `PyText.IntSpaceIsSpace` | dnsrrscanner.py:176 | the whitespace `int()` skips is that of `str.isspace()` without the separators U+001C..U+001F |
| `PyText.UpperChar` | dnsrrscanner.py:28 | `upper()` of one character is never an ASCII lower-case letter and keeps ASCII capitals |
| `PyText.UpperTo` | dnsrrscanner.py:28 | a text upper-cases to a given run of ASCII capitals exactly when it has that length and each character is that capital, its lower-case letter, or U+0131 for I and U+017F for S |
| `PyText.UpperIdempotent` | dnsrrscanner.py:28 | upper-casing twice is upper-casing once |
| `PyText.ParseInt` | dnsrrscanner.py:176 | `int()` accepts a text only when it has a digit, a negative result only when it has a minus sign, and only when every character is whitespace that `int()` skips, a digit, a sign or an underscore |
| `PyText.DecimalParses` | dnsrrscanner.py:176 | the decimal text of any integer is non-empty, has no whitespace at either end, and `int()` reads it back |
| `PyText.ParseIntDecimal` | dnsrrscanner.py:176 | `int()` reads back the decimal text of any integer, whatever padding of the whitespace `int()` skips surrounds it |
| `Records.GetResourceRecord` | dnsrrscanner.py:40-55 | a record for the queried name is produced exactly when the timestamp was formatted; its status is NOERROR exactly when the resolver answered, and then its answers are the answers' texts; NoAnswer, NXDOMAIN, Timeout and any other exception give NOANSWER, NXDOMAIN, TIMEOUT and EXCEPTION with no answers |
| `Records.RunThread` | dnsrrscanner.py:69-75 | an exception escapes exactly when both timestamps fail; otherwise a well-formed record for the task; the record of `get_resource_record` when it returned, and an EXCEPTION record with no answers when only the handler's timestamp worked |
| `Worker.Process` | dnsrrscanner.py:69-75 | a lookup lets an exception escape exactly when both timestamps fail; otherwise it gives a well-formed record for the task's name |
| `Worker.Deliver` | dnsrrscanner.py:58-66 | the callback raises exactly for `Fault`; writing appends this record to the output and keeps the queue; re-adding appends its own task at the back of the queue and keeps the output; either way one item is added and the old queue and output are kept as prefixes |
| `Worker.WorkerLoopBounds` | dnsrrscanner.py:78-93 | whatever the lookups do and whichever of its three actions the callback takes, `WorkerLoop` returns True only with the queue empty and runs out of rounds only with tasks left; the queue never grows, the tasks and records together never grow, the starting output is kept as a prefix, and at most one record is written per round |
| `Configuration.ParseQType` | dnsrrscanner.py:25-30 | a type is found exactly for the six valid names, and its name is the text looked up |
| `Configuration.ParseQTypeName` | dnsrrscanner.py:25 | every query type's name parses back to that type |
| `Configuration.Configure` | dnsrrscanner.py:22-37 | construction succeeds exactly when `qtype` is a string whose upper-case form is a valid type; the stored type is that form; a missing thread count becomes 20 per CPU and a given one is kept; `is_debug` is `verbose`; the only error is the invalid-type message |
| `Configuration.ConfigureAsWritten` | dnsrrscanner.py:26-30 | the constructor as written succeeds exactly when `qtype` is a string whose upper-case form is a valid type; every refusal is a NameError for `qtype_error_msg` |
| `Configuration.AsWrittenAgrees` | dnsrrscanner.py:26-30 | the constructor as written accepts the same arguments and stores the same settings; each refusal raises a NameError for `qtype_error_msg` instead of the message |
| `Configuration.QTypeSpellings` | dnsrrscanner.py:25-30 | the `qtype` texts that select a given type are exactly those as long as its name whose every character is that name's capital there, its lower-case letter, or U+0131 for I and U+017F for S |
| `Configuration.QTypeExamples` | dnsrrscanner.py:22-37 | "mx" is accepted as MX with 80 threads on 4 CPUs; "ptr" is refused, and as written with a NameError |
| `Worker.DrainAll` | dnsrrscanner.py:78-93 | with the default callback, lookups that never raise and a round per task, one worker writes one record per task in queue order, empties the queue and returns True |
| `Worker.WorkerProgress` | dnsrrscanner.py:78-93 | for a callback that never re-adds tasks, whatever the lookups do: the queue left is the starting queue without the popped tasks; the output is the starting output followed by the records of the popped tasks, each the record that task's lookup produced, in order, except the last task's when the worker returned False; True comes only with the queue empty; False comes right after a lookup or callback of the last popped task raised; running out of rounds pops one task per round |
| `Worker.RequeueSpins` | dnsrrscanner.py:58-93 | with lookups that never raise and a non-empty queue, a callback that always re-adds its task keeps the worker looping: the queue never shrinks, nothing is written and the worker never returns, however many rounds it is given |
| `Scanning.SequentialStart` | dnsrrscanner.py:96-103 | `start` with the workers run one after another has one exit per worker |
| `Scanning.WorkerCount` | dnsrrscanner.py:98 | `start` creates one worker per element of `range(num_of_threads)`, which `Range` gives as 0, 1, ..., n - 1 for positive n and as none otherwise |
| `Scanning.StartDrains` | dnsrrscanner.py:96-103 | with the default callback, lookups that never raise and at least one worker with a round per task, the queue ends empty, the output gains one record per task in queue order, and every worker returns True |
| `Scanning.DnsRrScanner.constructor` | dnsrrscanner.py:31-37 | a new scanner holds the checked settings, an empty queue and no output |
| `Scanning.DnsRrScanner.AddTask` | dnsrrscanner.py:106-108 | the task goes to the back of the queue, nothing else changes, and the result is True |
| `Scanning.DnsRrScanner.ThreadCallback` | dnsrrscanner.py:58-66 | the callback either writes the record, or re-adds its task at the back of the queue, or raises and changes nothing |
| `Scanning.DnsRrScanner.InternalRun` | dnsrrscanner.py:78-93 | the loop leaves exactly the queue, output and exit of `WorkerLoop` from the state it started in |
| `Scanning.DnsRrScanner.Start` | dnsrrscanner.py:96-103 | `start` runs `range(num_of_threads)` workers and leaves the queue, output and exits of `SequentialStart` |
| `Scanning.NewScanner` | dnsrrscanner.py:22-37 | `DNS_RR_Scanner(...)` gives a fresh scanner with the query type and thread count of `Configure`, an empty queue and no output, or exactly the error `Configure` names |
| `Pool.Init` | dnsrrscanner.py:96-102 | `n` started workers on the queued tasks: the accounts hold from the start (nothing popped, written or lost), and the ranking is `3 * tasks + n` |
| `Pool.Step` | dnsrrscanner.py:80-92 | one step of one worker changes only that worker's phase and the shared state, and a finished worker's step changes nothing |
| `Pool.StepAccounted` | dnsrrscanner.py:80-92 | for a callback that never re-adds tasks, every step keeps the accounts: the queue is what is left of the tasks after the pops; every popped task is written, held by a worker or lost with a faulted worker, exactly once; each faulted worker lost one task; the queue stays empty once a worker returned True |
| `Pool.RunAccounted` | dnsrrscanner.py:96-103 | for a callback that never re-adds tasks, every interleaving of steps keeps the accounts |
| `Pool.Finished` | dnsrrscanner.py:103 | in a state whose accounts hold, once all workers have finished, the written names, the lost tasks and the queue together are the tasks, as multisets; at most one task is lost per worker; the queue is empty unless every worker returned False |
| `Pool.RunNoFaults` | dnsrrscanner.py:84-90 | with the default callback and lookups that never raise, no worker ever returns False and no task is lost |
| `Pool.DeliversAll` | dnsrrscanner.py:96-103 | with the default callback, lookups that never raise and at least one worker, after any interleaving in which all workers finished, the output names are the tasks as a multiset, one record per task, and the queue is empty |
| `Pool.StepDecreases` | dnsrrscanner.py:80-92 | for a callback that never re-adds tasks, every step of an unfinished worker lowers the ranking |
| `Pool.StepsBounded` | dnsrrscanner.py:96-103 | for a callback that never re-adds tasks, a schedule makes at most as many effective steps as the ranking of its starting state |
| `Pool.CompletionSchedule` | dnsrrscanner.py:103 | for a callback that never re-adds tasks, a schedule exists after which every worker has finished |
| `PoolAsWritten.Step` | dnsrrscanner.py:80-92 | one step of one worker changes only that worker's phase; a finished worker's step changes nothing; a `get()` on an empty queue blocks and changes nothing |
| `PoolAsWritten.StepKeepsEmpty` | dnsrrscanner.py:83-88 | for a callback that never re-adds tasks, no step refills an empty queue |
| `PoolAsWritten.StaysBlocked` | dnsrrscanner.py:83 | for a callback that never re-adds tasks, a worker blocked in `get()` on an empty queue stays blocked under every schedule, and the queue stays empty |
| `PoolAsWritten.TwoWorkersRace` | dnsrrscanner.py:81-83 | for a callback that never re-adds tasks, from two workers at the head of their loops and one queued task, both pass the emptiness check and worker 0 takes the task; worker 1 is then blocked in `get()` on an empty queue, and no continuation of that schedule lets every worker finish |
| `Script.ParseThreadCount` | dnsrrscanner.py:173-180 | an empty `-t` leaves the count to the constructor; any other text is accepted exactly when `int()` reads it as at least 1, and is then that number; a refusal carries the error line |
| `Script.ThreadCountDecimal` | dnsrrscanner.py:176-177 | a count written in decimal, padded with whitespace that `int()` skips, is accepted exactly when it is at least 1, and read back as itself |
| `Script.ThreadCountAccepts` | dnsrrscanner.py:176 | " 8" followed by a newline is accepted as 8 |
| `Script.ThreadCountRejectsSmall` | dnsrrscanner.py:177-180 | "0" and "-3" are refused |
| `Script.ThreadCountRejectsWord` | dnsrrscanner.py:176-180 | "eight" is refused |
| `Script.ThreadCountRejectsDoubleUnderscore` | dnsrrscanner.py:176-180 | "1__0" is refused |
| `Script.ThreadCountRejectsSeparator` | dnsrrscanner.py:176-180 | U+001C followed by "8" is refused, although `strip()` would remove the U+001C |
| `Script.InputTasks` | dnsrrscanner.py:190-193 | at most one task per line, each non-empty and with no whitespace at either end |
| `Script.InputTasksExactly` | dnsrrscanner.py:190-193 | a text is queued exactly when it is non-empty and is the stripped form of some line |
| `Script.InputTasksAppend` | dnsrrscanner.py:190-193 | reading two pieces of input one after the other queues the tasks of the first, then those of the second |
| `Script.EnqueueLines` | dnsrrscanner.py:190-193 | the input loop appends exactly `InputTasks` of the lines to the queue and writes nothing |
| `Script.RunScript` | dnsrrscanner.py:173-194 | a refused count ends with the error line, a bad type with the constructor's error, neither writing anything; otherwise the scan runs `SequentialStart` on the input's tasks; with the default callback, lookups that never raise and a round per task, the output names are the input's tasks in input order and every worker returns True |
| `Script.ScriptDrains` | dnsrrscanner.py:194 | with the default callback, lookups that never raise and a round per task, a scanner with at least one worker writes one record per queued task, in order, and all its workers return True |
| `Script.ScriptAsWrittenNeverScans` | dnsrrscanner.py:188 | as written, the block never starts a scan; every accepted thread count ends in a NameError for `verbose`, even with the default arguments, which the intended block accepts |
| `Script.ScriptAsWritten` | dnsrrscanner.py:173-188 | the block as written never finishes a scan: it ends with the error line exactly when the thread count is refused, and otherwise with a NameError for `verbose` |

## Left out

- The resolver, the network and the clock are not modelled. `env` stands for them. It is a function, so repeated lookups of one name under one type give the same outcome.
- The nameserver option (dnsrrscanner.py:182-184) only reconfigures the resolver, which `env` stands for.
- The time field and the JSON encoding of each line are left out. A record holds the name, the status and the answers; `output` is the sequence of lines written.
- Argument parsing, `open_file` and the files (dnsrrscanner.py:112-166, 169-172 and 189) are left out. The arguments arrive as text, the input as its sequence of lines, and the output is the scanner's `output`.
- Scanning.DnsRrScanner.Start: runs the workers one after another, not as concurrent threads. The interleavings are in `Pool`, whose state is a value rather than the object.
- Thread creation, `daemon`, `join` and the lock are not modelled as such. In `Pool`, a worker's lookup and callback form one atomic step: the lookup touches no shared state, and the callback runs under the lock.
- Pool.Step: the emptiness check at line 81 and the `get()` at line 83 are one atomic step, which is the corrected behaviour of the third finding. `PoolAsWritten` keeps the two apart, but proves only the race, not the accounts of `Pool`.
- Worker.WorkerLoop and Scanning.DnsRrScanner.InternalRun run for at most `fuel` rounds. A callback that re-adds tasks can make the real loop run for ever, which `RequeueSpins` shows; `OutOfFuel` marks that case.
- Pool.StepAccounted, Pool.RunAccounted, Pool.StepsBounded: proved only for callbacks that never re-add tasks. With re-adding, the accounts would also have to track re-queued copies, and a worker can loop for ever, so there is no bound on the steps.
- The value the callback returns (`cb_result`, line 88) is ignored by the source, and by the model.
- The final `return` of `run_thread` (line 75) cannot be reached, and is not modelled.
- `BaseException`s that `except Exception` does not catch (for example KeyboardInterrupt) are not modelled.
- PyText.ParseInt, PyText.DecimalParses, PyText.ParseIntDecimal, Script.ThreadCountDecimal: `int()` also accepts non-ASCII decimal digits; the model accepts ASCII digits only.
- PyText.ParseInt, PyText.DecimalParses, PyText.ParseIntDecimal, Script.ThreadCountDecimal: from Python 3.11 on, `int()` refuses decimal texts of more than 4300 digits by default. The limit depends on the Python version and its settings, so the model has no digit limit.
- For `upper()`, the model covers the characters whose upper-case form is one ASCII letter. Characters that expand to several characters are kept as they are. No such text can become a valid query type, so acceptance is unaffected.
- A thread count passed to the constructor is modelled as an integer; `range` of a non-integer, which raises TypeError, is not modelled.
- If `thread_callback` runs while `output` is still None (line 24), it raises; the `Fault` action of `sink` stands for every raising callback.

## Findings

| source | as written | input that shows it | evidently intended | confidence | as-written member | corrected member |
|---|---|---|---|---|---|---|
| dnsrrscanner.py:27-30 | both refusals raise with the bare name `qtype_error_msg`, but the message is only defined as the attribute `self.qtype_error_msg`, so a NameError is raised | `DNS_RR_Scanner(qtype='ptr')` | raise an Exception that carries the invalid-type message | high, not executed | `Configuration.AsWrittenAgrees` | `Configuration.Configure` |
| dnsrrscanner.py:188 | the constructor call passes `verbose = verbose`, and no `verbose` exists at module level, so every run with an accepted thread count ends in a NameError before any scan | the default arguments: no `-t`, query type A | pass `verbose` at its default, False | high, not executed | `Script.ScriptAsWrittenNeverScans` | `Script.RunScript` |
| dnsrrscanner.py:81-83 | a worker checks `empty()` and then calls the blocking `get()` in a separate step, so another worker can take the last task in between; the first worker then waits in `get()` for ever, and `join` (line 103) never returns | two workers and one task, scheduled check, check, get | take a task only when one is there, for example `get_nowait()` with the empty case ending the loop, so every worker can finish | medium (depends on thread scheduling), not executed | `PoolAsWritten.TwoWorkersRace` | `Pool.CompletionSchedule` |
