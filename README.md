# tcp-connscan, modelled in Dafny

tcp-connscan is a TCP connect scanner for Node.js. A coordinator (`scannerlib.js`) splits a
port range `START_PORT..END_PORT` round-robin over `WORKERS` forked worker processes. Each
worker (`childscanner.js`) queues the `{port, addr}` messages it receives and opens at most
`CONCURRENT_CONNECTS` connections at a time. It classifies each port as open, closed or
filtered from the socket events and a watchdog timer, and reports `{port, state}` back. The
coordinator collects the reports into result lists and keeps an `assigned` table per worker,
marking each port "waiting" or "scanned". A worker that exits with ports still waiting is
replaced and sent exactly those ports. A worker that exits with no waiting ports advances a
counter gate (`workersGate`), which fires once when every worker has finished.

The model has five modules:

- `Common` holds the shared vocabulary: `Option`, and a JavaScript number argument that
  may be `NaN` (`Numeric`). It also holds sequence and set facts: sortedness, distinctness,
  the size of an integer interval, and the minimum of a finite set.
- `RoundRobin` holds the arithmetic of the round-robin split. `Stride` is the sequence of
  ports the default path of `initChild` sends. `Owned` is the set of ports a worker owns.
  The lemmas prove that the split partitions the range.
- `ScannerLib` models the coordinator.
  - `ScanSession` is the module state `mod`: the range, the result lists, the worker table,
    the services database, the address and the gate.
  - `Worker` is a forked child: its index, its `assigned` table, its connection flag, its
    `lastworker` flag, and a ghost log of the messages sent to it.
  - `Gate` is the closure returned by `workersGate`.
  - The methods are `setNumPorts`, `scanInit`, `beginScan`, `initChild`, and the message and
    exit handlers that `initChild` installs.
  - The table-level invariants are stated on a value snapshot of the table. They are:
    exclusive ownership (no port in two workers' tables), and the set of waiting ports
    (no waiting work lost or duplicated).
- `ChildScanner` models the worker.
  - `Throttle` is the module state: `msgqueue`, `running`, the two tunables, and ghost logs of
    the reports sent to the coordinator and of the retries scheduled.
  - `Probe` is one `checkPort` call: the message object with its `determined` flag, and its
    connection.
  - `ProbeStep` is the `determined`-flag state machine, and `Replay` runs it over a sequence
    of events.
  - Each socket and timer callback is a method that is proved to follow `ProbeStep`.
- `Scenarios` holds concrete runs that mirror the repository's tests.

Socket events, timer firings and worker exits arrive from outside. Each one is a method
call, and the caller chooses which call to make. The services database that
`initServicesObject` reads from `/etc/services` is a parameter of `BeginScan`.

## Model

| member | source | states |
|---|---|---|
| RoundRobin.StrideShape | scannerlib.js:175-178 | The default-path ports of a worker are strictly increasing and all lie in `[lo, hi]`. The sequence is empty exactly when `lo > hi`. |
| RoundRobin.StrideMembers | scannerlib.js:175-178 | A port is sent exactly when it lies in `[lo, hi]` and is a whole number of steps past `lo`. |
| RoundRobin.SentAt | scannerlib.js:175-178 | Worker `num` is sent port `p` exactly when `p` is in the range and `(p - START_PORT) mod WORKERS == num`. |
| RoundRobin.SentIsOwned | scannerlib.js:175-178 | The set of ports sent to worker `num` equals the set the round-robin split gives it. |
| RoundRobin.RoundRobinPartition | scannerlib.js:110-114 | Every port of the range lies in the share of its owner, one of workers `0..WORKERS-1`. Shares are disjoint because the owner is a function of the port. The per-worker counts add up to the size of the range, which is the real content. |
| ScannerLib.CheckRange | scannerlib.js:57-62 | A range is accepted exactly when both bounds are numbers and `1 <= start <= end <= 65535`. |
| ScannerLib.ScanSession.RangeSize | scannerlib.js:54-56 | With no arguments the result is `END_PORT - START_PORT + 1`, which equals `NUM_PORTS` and lies in `1..65535`. |
| ScannerLib.ScanSession.SetNumPorts | scannerlib.js:53-69 | An accepted range replaces the start, end and count and is returned with its size. Anything else leaves the configuration alone and returns the old count. |
| ScannerLib.Results.Count | scannerlib.js:72-76 | `countResults()`: every entry of each of the three lists counts, and the count is zero exactly when all three lists are empty. `scanned` does not enter it. |
| ScannerLib.ListedPorts | scannerlib.js:72-76 | The ports listed in the three result lists, in list order. There are exactly `countResults()` of them. |
| ScannerLib.Record | scannerlib.js:148-157 | A message appends its port to exactly the list its state names, and an open port carries its service lookup. The port is marked scanned. The count grows by one, or by nothing for an unrecognised state. |
| ScannerLib.RecordListed | scannerlib.js:148-156 | As a multiset, the listed ports grow by the reported port for a recognised state, and by nothing otherwise. |
| ScannerLib.RecordLists | scannerlib.js:148-156 | As multisets, the reported port joins exactly the list its state names, and the other two lists are unchanged. |
| ScannerLib.AccountingBound | scannerlib.js:160-169 | If the listed ports are distinct and in range, the count cannot exceed the range size. It equals the range size exactly when every port of the range is listed. So the over-count error needs a duplicate or out-of-range report. |
| ScannerLib.AllWaiting | scannerlib.js:180-185 | The table of a worker just sent `ports` has exactly those keys, and every one of them is waiting. |
| ScannerLib.Messages | scannerlib.js:180-185 | One `{port, addr}` message per port, in sending order. |
| ScannerLib.CollectWaiting | scannerlib.js:129-135 | The loop collects exactly the waiting keys of the table, in ascending order (the order of `Object.keys` on integer keys). |
| ScannerLib.ResentTable | scannerlib.js:136-141 | The table of a worker re-sent exactly the waiting ports of another table has the same waiting ports, and no key that table lacks. |
| ScannerLib.ReplaceKeepsWork | scannerlib.js:136-141 | Replacing a worker's table with one that has the same waiting ports and no new ports leaves the table's waiting work unchanged. Exclusive ownership is preserved. |
| ScannerLib.MarkScannedRemoves | scannerlib.js:157 | With exclusive ownership, marking a worker's port scanned removes exactly that port from the waiting work and keeps ownership exclusive. |
| ScannerLib.RoundRobinTable | scannerlib.js:110-114 | The table of default-path workers `0..WORKERS-1` has exclusive ownership, and its waiting work is exactly the whole range. |
| ScannerLib.GateRun | scannerlib.js:198-224 | Call `i` of the gate answers `GateAt(numTasks, i)`. |
| ScannerLib.GateFiresOnce | scannerlib.js:198-224 | Over any number of calls the gate answers `true` exactly once when `1 <= numTasks <= calls`. Before that it answers the call count, and after it `false`. |
| ScannerLib.Gate.constructor | scannerlib.js:198-199 | A new gate has count 0. |
| ScannerLib.Gate.Call | scannerlib.js:200-223 | The count goes up by one and the answer is `GateAt(numTasks, count)`. The history of answers stays `GateRun`. |
| ScannerLib.Worker.constructor | scannerlib.js:123 | A forked worker with its index has an empty `assigned` table, is connected, and has been sent nothing. |
| ScannerLib.ScanSession.constructor | scannerlib.js:32-48 | Module load gives the range `1..65535` with 65535 ports, empty results, an empty table, no address, and a fresh gate for `WORKERS` tasks. `WORKERS` may be zero. |
| ScannerLib.ScanSession.InitChild | scannerlib.js:172-187 | The default path sends and records as waiting exactly the worker's round-robin ports. The restart path does the same for exactly the given ports. The table starts empty. The default path is used only with at least one worker, since its only caller `scanInit` runs it for indices below `WORKERS`. |
| ScannerLib.ScanSession.SendStride | scannerlib.js:175-178 | The default-path loop sends, and records as waiting, exactly `Sent(START_PORT, END_PORT, WORKERS, num)`, in order. |
| ScannerLib.ScanSession.SendEach | scannerlib.js:182-185 | The restart loop sends, and records as waiting, exactly the given ports, in order. |
| ScannerLib.ScanSession.ScanInit | scannerlib.js:105-116 | With no address nothing happens. Otherwise it stores a fresh default-path worker at every index `0..WORKERS-1`, each holding exactly its owned ports. With at least one worker the table then has exclusive ownership, and its waiting work is the whole range. With no workers (no cores reported) the table stays empty and nothing is scanned. |
| ScannerLib.ScanSession.BeginScan | scannerlib.js:80-84 | Records the address and merges the services database. The scan starts exactly when the address is non-empty. It then gives the same guarantees as `ScanInit`: a fresh default-path worker at every index `0..WORKERS-1` holding exactly its owned ports and sent exactly their messages. With at least one worker the table has exclusive ownership and its waiting work is the whole range. |
| ScannerLib.ScanSession.MarkScanned | scannerlib.js:157 | Only this worker's entry for the port changes, to scanned. A port the worker held leaves the waiting work, and ownership stays exclusive. |
| ScannerLib.ScanSession.DisconnectAll | scannerlib.js:163-165 | Every worker of the table is disconnected, and no worker's table changes. |
| ScannerLib.ScanSession.OnMessage | scannerlib.js:147-171 | Results are updated by `Record`, and only the reporting worker's entry becomes scanned. While the count is below `NUM_PORTS` the outcome is pending and nothing is disconnected. At `NUM_PORTS` the scan completes, the worker is marked last, and every worker is disconnected. Beyond `NUM_PORTS` the outcome is the over-count error. |
| ScannerLib.ScanSession.Restart | scannerlib.js:136-141 | A fresh worker with the same index takes the table slot. It holds and is sent exactly the given ports. The waiting work is unchanged, and exclusive ownership is preserved. |
| ScannerLib.ScanSession.OnExit | scannerlib.js:127-146 | A restart happens exactly when the worker still has waiting ports, and the replacement is sent exactly those ports in ascending order. Otherwise the table is untouched and the gate advances once. Either way the table's waiting work is unchanged, and exclusive ownership is preserved. |
| ChildScanner.ProbeStep | childscanner.js:91-134 | The watchdog never reports or releases a slot, and destroys the connection exactly when the probe is undetermined. Close and watchdog do nothing to a determined probe. Every other event leaves the probe determined. |
| ChildScanner.DeterminedIsInert | childscanner.js:125-133 | A determined probe that meets only closes and watchdog firings sends nothing and releases nothing. |
| ChildScanner.ProbeAccounting | childscanner.js:103-133 | Over any socket lifecycle a fresh probe releases its slot exactly once if it ends and never otherwise. It sends one report per release, except for an error with an unknown code. It is determined exactly when it has ended. |
| ChildScanner.Drained | childscanner.js:73-75 | The drain count is at most the queue length. It stops only at the end of the queue or at the ceiling, and never starts a probe beyond the ceiling. |
| ChildScanner.DrainedUnique | childscanner.js:73-75 | These stopping facts determine the drain count uniquely. |
| ChildScanner.Probe.constructor | childscanner.js:93-94 | A new probe carries its work message and the current timeout. It is undetermined and not destroyed. |
| ChildScanner.Throttle.constructor | childscanner.js:3-8 | Module load gives an empty queue, nothing running, a ceiling of 100 and a timeout of 5000. |
| ChildScanner.Throttle.SetConnectTimeout | childscanner.js:48-53 | A number replaces the timeout and `NaN` leaves it unchanged. The current value is returned either way. |
| ChildScanner.Throttle.SetConcurrent | childscanner.js:55-60 | A number replaces the ceiling and `NaN` leaves it unchanged. The current value is returned either way. |
| ChildScanner.Throttle.CheckPort | childscanner.js:91-102 | A fresh undetermined probe for the message takes one slot and is armed with the current timeout. |
| ChildScanner.Throttle.HandleMessage | childscanner.js:68-79 | A defined message joins the tail of the queue. Exactly `Drained` probes start, from the head in FIFO order, each taking one slot. Afterwards the queue is empty or the ceiling is reached. A retry is scheduled exactly when work is left. |
| ChildScanner.Throttle.OnError | childscanner.js:103-117 | Refused reports closed, timed out reports filtered, and any other code reports nothing. The probe is always determined and destroyed, and one slot is released. The step agrees with `ProbeStep`. |
| ChildScanner.Throttle.OnConnect | childscanner.js:118-124 | Reports open, determines and destroys the probe, and releases one slot, in agreement with `ProbeStep`. |
| ChildScanner.Throttle.OnClose | childscanner.js:125-133 | An undetermined probe is reported filtered, becomes determined and releases one slot. A determined probe is left unchanged. The step agrees with `ProbeStep`. |
| ChildScanner.Throttle.OnWatchdog | childscanner.js:95-102 | Destroys the connection exactly when the probe is undetermined. It never reports or releases a slot, in agreement with `ProbeStep`. |
| Scenarios.GateScenario | tests/tests.js:22-29 | A gate for three tasks answers 1, 2, `true`, then `false`. |
| Scenarios.SetNumPortsScenario | tests/tests.js:7-19 | `1..1024` is applied. A reversed range, an end past 65535 and a negative start all return the kept count 1024. |
| Scenarios.MessageScenario | tests/tests.js:31-52 | Reports for ports 22 (open), 23 (closed) and 24 (filtered) each land in one list, port 22 with no service name. All three ports become scanned, and the third report completes the scan. |
| Scenarios.CeilingScenario | childscanner.js:73-78 | The ceiling is lowered to 0 and 101 messages are queued. The ceiling is then raised to 100 and one more message arrives. Exactly 100 probes start, 2 messages stay queued, and a retry is scheduled. |

## Left out

- Reading the services database from `/etc/services` (`initServicesObject`) is file I/O. The parsed map is a parameter of `BeginScan`, and an absent port has no service name.
- Child processes and IPC are represented by ghost state:
  - Forking is the allocation of a `Worker`.
  - `child.send` appends to the worker's ghost `sent` log.
  - `disconnect` clears its `connected` flag.
  - The worker's `sendParent` appends to the ghost `toParent` log.
  - `setProcessHandlers` and the parent-disconnect handler are left out.
- Sockets and timers (`net.connect`, `conn.destroy`, `setTimeout`, `process.nextTick`) are not modelled as real resources. Their events are the methods `OnError`, `OnConnect`, `OnClose` and `OnWatchdog`, called in an order the caller chooses. A destroyed connection is a flag. `mockNet` is left out.
- The retry scheduled by `setTimeout(childMsgHandler, 2000)` is a ghost counter. The delayed re-run is a later call of `HandleMessage` with no message.
- The CLI (`bin/scanrunner.js`), all `console.log` output, the report printed by the gate, and `FISHY_ADDRESS` are left out. They only produce output.
- The worker `error` handler of `initChild` only logs, so it is left out.
- Concurrency between processes is left out. Each handler runs atomically, one at a time.
- ScannerLib.ScanSession.SetNumPorts: a new range does not clear the result lists. The code never resets them, and the model follows the code.
- ScannerLib.ScanSession.OnExit: requires the exiting worker to be the one the table holds at its index. In the program every forked worker is stored before it can exit. The model does not cover a worker that is not in the table.
- ScannerLib.ScanSession.InitChild: the restart path of the program re-sends the string keys returned by `Object.keys`. The model re-sends the integer ports, which name the same table entries.
- Number arguments to `setNumPorts`, `setConnectTimeout` and `setConcurrent` are integers or `NaN`. Strings that JavaScript coerces and fractional values are not modelled.
- `results.scanned` is the set of reported ports. The sparse JavaScript array is not modelled.
- The test's worker in `tests/tests.js:31-52` has no index, so its `initChild` default loop sends nothing. `Scenarios.MessageScenario` starts from a worker with an empty table for that reason.
