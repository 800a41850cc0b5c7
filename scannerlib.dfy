/** The scan coordinator of scannerlib.js: the port range, the result lists, the table of
    worker records with their port assignments, crash recovery and the completion gate.
    Event handlers of a worker (`exit`, `message`) are methods, called one at a time. */
module ScannerLib {
  import opened Common
  import RoundRobin

  /** The state of a port in one worker's `assigned` table. */
  datatype PortState = Waiting | Scanned

  /** The `state` of a classification message; any other string is `Unrecognised`. */
  datatype Classification = Open | Closed | Filtered | Unrecognised

  /** An entry of the open list: the port and its service name (`None` prints as
      "undefined"). */
  datatype OpenEntry = OpenEntry(port: int, service: Option<string>)

  /** `mod.results`: the three result lists and the set of ports marked scanned. */
  datatype Results = Results(open: seq<OpenEntry>, closed: seq<int>, filtered: seq<int>, scanned: set<int>)
  {
    /** `countResults`: the entries of the three lists; `scanned` is not counted. */
    function Count(): (c: nat)
      ensures c >= |open| && c >= |closed| && c >= |filtered|
      ensures c == 0 <==> open == [] && closed == [] && filtered == []
    {
      |open| + |closed| + |filtered|
    }
  }

  const NoResults := Results([], [], [], {})

  datatype PortRange = PortRange(start: int, end: int)

  /** What `setNumPorts(start, end)` returns: the new range, or the port count it kept. */
  datatype RangeReply = Applied(start: int, end: int, numPorts: int) | Kept(numPorts: int)

  /** What a `workersGate` counter returns: a call count, or `true`/`false`. */
  datatype GateValue = Calls(n: int) | Flag(b: bool)

  /** How a classification message leaves the scan: still going, complete, or over-counted
      (the source throws an Error). */
  datatype MsgOutcome = Pending | Complete | OverCounted

  /** What the exit handler did: restart the worker with its waiting ports, or advance the
      gate. */
  datatype ExitOutcome = Restarted(replacement: Worker, resent: seq<int>) | GateCalled(value: GateValue)

  /** An assignment message `{port, addr}` sent to a worker. */
  datatype PortMsg = PortMsg(port: int, addr: Option<string>)

  /** The validation of `setNumPorts`: the range it accepts, if any. */
  function CheckRange(start: Numeric, end: Numeric): (r: Option<PortRange>)
    ensures r.Some? <==> start.Num? && end.Num? && 1 <= start.n <= end.n <= 65535
    ensures r.Some? ==> r.value == PortRange(start.n, end.n)
  {
    if start.NaN? || end.NaN? || start.n <= 0 || end.n > 65535 then None
    else if end.n - start.n < 0 then None
    else Some(PortRange(start.n, end.n))
  }

  /** `ServicesDBTcp[port]`. */
  function Lookup(services: map<int, string>, port: int): Option<string>
  {
    if port in services then Some(services[port]) else None
  }

  /** The ports of the open list, in list order. */
  function OpenPorts(open: seq<OpenEntry>): (ports: seq<int>)
    ensures |ports| == |open|
    ensures forall i :: 0 <= i < |open| ==> ports[i] == open[i].port
  {
    seq(|open|, i requires 0 <= i < |open| => open[i].port)
  }

  /** The ports listed in the three result lists, in list order. */
  function ListedPorts(res: Results): (ports: seq<int>)
    ensures |ports| == res.Count()
    ensures forall i :: 0 <= i < |res.open| ==> ports[i] == res.open[i].port
  {
    OpenPorts(res.open) + res.closed + res.filtered
  }

  /** The result update of the message handler: the port joins exactly the list its state
      names (an open port with its service name) and is marked scanned. */
  function Record(res: Results, port: int, state: Classification, services: map<int, string>): (r: Results)
    ensures r.open == res.open + (if state == Open then [OpenEntry(port, Lookup(services, port))] else [])
    ensures r.closed == res.closed + (if state == Closed then [port] else [])
    ensures r.filtered == res.filtered + (if state == Filtered then [port] else [])
    ensures r.scanned == res.scanned + {port}
    ensures r.Count() == res.Count() + (if state == Unrecognised then 0 else 1)
  {
    var res := res.(scanned := res.scanned + {port});
    match state
    case Open => res.(open := res.open + [OpenEntry(port, Lookup(services, port))])
    case Closed => res.(closed := res.closed + [port])
    case Filtered => res.(filtered := res.filtered + [port])
    case Unrecognised => res
  }

  /** A recognised message adds its port to the listed ports once; an unrecognised one adds
      nothing. */
  lemma RecordListed(res: Results, port: int, state: Classification, services: map<int, string>)
    ensures var r := Record(res, port, state, services);
      multiset(ListedPorts(r)) == multiset(ListedPorts(res)) + (if state == Unrecognised then multiset{} else multiset{port})
  {
    var r := Record(res, port, state, services);
    var o, c, f := OpenPorts(res.open), res.closed, res.filtered;
    var o', c', f' := OpenPorts(r.open), r.closed, r.filtered;
    RecordLists(res, port, state, services);
    assert multiset(ListedPorts(r)) == multiset(o') + multiset(c') + multiset(f');
    assert multiset(ListedPorts(res)) == multiset(o) + multiset(c) + multiset(f);
  }

  /** Each list of the result update, as ports: the reported port is appended to the list
      its state names and the other lists are unchanged. */
  lemma RecordLists(res: Results, port: int, state: Classification, services: map<int, string>)
    ensures var r := Record(res, port, state, services);
      && multiset(OpenPorts(r.open)) == multiset(OpenPorts(res.open)) + (if state == Open then multiset{port} else multiset{})
      && multiset(r.closed) == multiset(res.closed) + (if state == Closed then multiset{port} else multiset{})
      && multiset(r.filtered) == multiset(res.filtered) + (if state == Filtered then multiset{port} else multiset{})
  {
    var r := Record(res, port, state, services);
    if state == Open {
      assert OpenPorts(r.open) == OpenPorts(res.open) + [port];
    } else {
      assert OpenPorts(r.open) == OpenPorts(res.open);
    }
  }

  /** The over-count error of the message handler can only be raised when some port was
      reported twice or lies outside the range: with every listed port distinct and in
      range, the count stays within the range size, and reaches it exactly when every port
      of the range has been reported. */
  lemma AccountingBound(res: Results, start: int, end: int)
    requires start <= end + 1
    requires NoRepeats(ListedPorts(res))
    requires forall i :: 0 <= i < |ListedPorts(res)| ==> start <= ListedPorts(res)[i] <= end
    ensures res.Count() <= end - start + 1
    ensures res.Count() == end - start + 1 <==> forall p :: start <= p <= end ==> p in ListedPorts(res)
  {
    var listed := set x | x in ListedPorts(res);
    NoRepeatsSize(ListedPorts(res));
    assert listed <= Interval(start, end);
    IntervalSize(start, end);
    SubsetSize(listed, Interval(start, end));
    if forall p :: start <= p <= end ==> p in ListedPorts(res) {
      assert listed == Interval(start, end);
    }
    if res.Count() == end - start + 1 {
      assert listed == Interval(start, end);
      forall p | start <= p <= end
        ensures p in ListedPorts(res)
      {
        assert p in Interval(start, end);
      }
    }
  }

  /** The ports of an `assigned` table still marked "waiting". */
  function WaitingOf(table: map<int, PortState>): set<int>
  {
    set p | p in table && table[p] == Waiting
  }

  /** The `assigned` table of a worker just sent `ports`: each of them "waiting". */
  function AllWaiting(ports: seq<int>): (a: map<int, PortState>)
    ensures a.Keys == set p | p in ports
    ensures WaitingOf(a) == a.Keys
  {
    map p | p in ports :: Waiting
  }

  /** The assignment messages for `ports`, in sending order. */
  function Messages(ports: seq<int>, addr: Option<string>): (msgs: seq<PortMsg>)
    ensures |msgs| == |ports|
    ensures forall i :: 0 <= i < |ports| ==> msgs[i] == PortMsg(ports[i], addr)
  {
    seq(|ports|, i requires 0 <= i < |ports| => PortMsg(ports[i], addr))
  }

  /** A snapshot of the worker table: each index with its worker's `assigned` table. */
  type Table = map<nat, map<int, PortState>>

  /** The ports some worker of the table still holds as "waiting". */
  ghost function WaitingIn(t: Table): set<int>
  {
    set n, p | n in t && p in WaitingOf(t[n]) :: p
  }

  /** No port is in the `assigned` tables of two workers. */
  ghost predicate ExclusiveIn(t: Table)
  {
    forall m, n, p :: m in t && n in t && m != n && p in t[m] ==> p !in t[n]
  }

  /** Replacing a worker's table by one with the same waiting ports and no new ports (the
      restart path of the exit handler) neither loses nor duplicates waiting work. */
  lemma ReplaceKeepsWork(t: Table, n: nat, a: map<int, PortState>)
    requires n in t && WaitingOf(a) == WaitingOf(t[n]) && a.Keys <= t[n].Keys
    ensures WaitingIn(t[n := a]) == WaitingIn(t)
    ensures ExclusiveIn(t) ==> ExclusiveIn(t[n := a])
  {
    var u := t[n := a];
    forall p
      ensures p in WaitingIn(u) <==> p in WaitingIn(t)
    {
      if p in WaitingIn(u) {
        var m :| m in u && p in WaitingOf(u[m]);
        assert p in WaitingOf(t[m]);
      }
      if p in WaitingIn(t) {
        var m :| m in t && p in WaitingOf(t[m]);
        assert p in WaitingOf(u[m]);
      }
    }
  }

  /** The table of a worker re-sent exactly the waiting ports of `table` has the same
      waiting ports and no port `table` lacks. */
  lemma ResentTable(table: map<int, PortState>, waiting: seq<int>)
    requires forall p :: p in waiting <==> p in WaitingOf(table)
    ensures WaitingOf(AllWaiting(waiting)) == WaitingOf(table)
    ensures AllWaiting(waiting).Keys <= table.Keys
  {
    forall p
      ensures p in WaitingOf(AllWaiting(waiting)) <==> p in WaitingOf(table)
    {
      assert p in WaitingOf(AllWaiting(waiting)) <==> p in waiting;
    }
    forall p | p in AllWaiting(waiting)
      ensures p in table
    {
      assert p in waiting;
    }
  }

  /** Marking a port of one worker "scanned" takes it out of the waiting work when no other
      worker holds it, and keeps the tables exclusive. */
  lemma MarkScannedRemoves(t: Table, n: nat, port: int)
    requires n in t && port in t[n] && ExclusiveIn(t)
    ensures WaitingIn(t[n := t[n][port := Scanned]]) == WaitingIn(t) - {port}
    ensures ExclusiveIn(t[n := t[n][port := Scanned]])
  {
    var u := t[n := t[n][port := Scanned]];
    forall p
      ensures p in WaitingIn(u) <==> p in WaitingIn(t) && p != port
    {
      if p in WaitingIn(u) {
        var m :| m in u && p in WaitingOf(u[m]);
        assert p in WaitingOf(t[m]);
      }
      if p in WaitingIn(t) && p != port {
        var m :| m in t && p in WaitingOf(t[m]);
        assert p in WaitingOf(u[m]);
      }
    }
  }

  /** A table holding, for every index `0 .. workers-1`, the ports the default path of
      `initChild` sends that worker is exclusive and holds the whole range as waiting work. */
  lemma RoundRobinTable(start: int, end: int, workers: int, t: Table)
    requires workers > 0 && start <= end + 1
    requires forall n :: n in t <==> 0 <= n < workers
    requires forall n :: n in t ==> t[n] == AllWaiting(RoundRobin.Sent(start, end, workers, n))
    ensures ExclusiveIn(t) && WaitingIn(t) == Interval(start, end)
  {
    RoundRobin.RoundRobinPartition(start, end, workers);
    forall m, n, p | m in t && n in t && m != n && p in t[m]
      ensures p !in t[n]
    {
      RoundRobin.SentAt(start, end, workers, m, p);
      RoundRobin.SentAt(start, end, workers, n, p);
    }
    forall p
      ensures p in WaitingIn(t) <==> p in Interval(start, end)
    {
      if p in WaitingIn(t) {
        var n :| n in t && p in WaitingOf(t[n]);
        RoundRobin.SentAt(start, end, workers, n, p);
      }
      if p in Interval(start, end) {
        var n := RoundRobin.Owner(start, workers, p);
        RoundRobin.SentAt(start, end, workers, n, p);
        assert p in WaitingOf(t[n]);
      }
    }
  }

  /** The loop of the exit handler: the keys of an `assigned` table still "waiting", visited as
      `Object.keys` lists integer keys, in ascending order. */
  method CollectWaiting(table: map<int, PortState>) returns (waiting: seq<int>)
    ensures Increasing(waiting)
    ensures forall p :: p in waiting <==> p in WaitingOf(table)
  {
    var keys := table.Keys;
    waiting := [];
    while keys != {}
      invariant keys <= table.Keys
      invariant Increasing(waiting)
      invariant forall p :: p in waiting <==> p in WaitingOf(table) && p !in keys
      invariant forall i, q :: 0 <= i < |waiting| && q in keys ==> waiting[i] < q
      decreases |keys|
    {
      HasMinimum(keys);
      var p :| p in keys && forall q :: q in keys ==> p <= q;
      keys := keys - {p};
      if table[p] == Waiting {
        waiting := waiting + [p];
      }
    }
  }

  /** The value the gate built by `workersGate(numTasks)` returns on its `k`-th call. */
  function GateAt(numTasks: int, k: int): GateValue
  {
    if k == numTasks then Flag(true) else if k < numTasks then Calls(k) else Flag(false)
  }

  /** The values of calls `1 .. n` of a gate built by `workersGate(numTasks)`. */
  function GateRun(numTasks: int, n: nat): (run: seq<GateValue>)
    ensures |run| == n
    ensures forall i :: 0 <= i < n ==> run[i] == GateAt(numTasks, i + 1)
  {
    if n == 0 then [] else GateRun(numTasks, n - 1) + [GateAt(numTasks, n)]
  }

  /** How many values of `run` are `true`. */
  function Fired(run: seq<GateValue>): nat
  {
    if run == [] then 0 else Fired(run[..|run| - 1]) + (if run[|run| - 1] == Flag(true) then 1 else 0)
  }

  /** Over any number of calls the gate answers a count before call `numTasks`, `true` on
      that call and on no other, and `false` after it. */
  lemma {:induction false} GateFiresOnce(numTasks: int, n: nat)
    ensures Fired(GateRun(numTasks, n)) == (if 1 <= numTasks <= n then 1 else 0)
    ensures forall i :: 0 <= i < n && i + 1 < numTasks ==> GateRun(numTasks, n)[i] == Calls(i + 1)
    ensures forall i :: 0 <= i < n && i + 1 > numTasks ==> GateRun(numTasks, n)[i] == Flag(false)
  {
    if n > 0 {
      GateFiresOnce(numTasks, n - 1);
      assert GateRun(numTasks, n)[..n - 1] == GateRun(numTasks, n - 1);
    }
  }

  /** The counter closure returned by `workersGate(numTasks)`. */
  class Gate {
    const numTasks: int
    var count: nat
    ghost var history: seq<GateValue>

    ghost predicate Valid()
      reads this
    {
      history == GateRun(numTasks, count)
    }

    constructor(numTasks: int)
      ensures Valid() && this.numTasks == numTasks && count == 0 && history == []
    {
      this.numTasks := numTasks;
      count := 0;
      history := [];
    }

    /** One call of the closure: `count++`, then `true` on reaching `numTasks`, the count
        before it, `false` after it. */
    method Call() returns (v: GateValue)
      requires Valid()
      modifies this
      ensures Valid()
      ensures count == old(count) + 1 && history == old(history) + [v]
      ensures v == GateAt(numTasks, count)
    {
      count := count + 1;
      if count == numTasks {
        v := Flag(true);
      } else if count < numTasks {
        v := Calls(count);
      } else {
        v := Flag(false);
      }
      history := history + [v];
    }
  }

  /** A forked worker process as the coordinator records it: its index `num`, its
      `assigned` table, whether its IPC channel is connected, the `lastworker` mark, and the
      assignment messages sent to it. */
  class Worker {
    const num: nat
    var assignment: map<int, PortState>
    var connected: bool
    var lastWorker: bool
    ghost var sent: seq<PortMsg>

    constructor(num: nat)
      ensures this.num == num && assignment == map[] && connected && !lastWorker && sent == []
    {
      this.num := num;
      assignment := map[];
      connected := true;
      lastWorker := false;
      sent := [];
    }
  }

  /** The coordinator's module state `mod`. */
  class ScanSession {
    const workers: nat
    const guard: Gate
    var startPort: int
    var endPort: int
    var numPorts: int
    var results: Results
    var children: map<nat, Worker>
    var services: map<int, string>
    var addr: Option<string>

    ghost predicate Valid()
      reads this, guard
    {
      && 1 <= startPort <= endPort <= 65535
      && numPorts == endPort - startPort + 1
      && guard.numTasks == workers
      && guard.Valid()
      && forall n :: n in children ==> n < workers && children[n].num == n
    }

    /** The worker is the one the table holds at its index. */
    predicate Live(child: Worker)
      reads this
    {
      child.num in children && children[child.num] == child
    }

    /** `mod.ADDR` is truthy. */
    predicate AddressSet()
      reads this
    {
      addr.Some? && addr.value != ""
    }

    /** The table as values: each index with its worker's `assigned` table. */
    ghost function Snapshot(): (t: Table)
      reads this`children, children.Values`assignment
      ensures t.Keys == children.Keys
      ensures forall n :: n in t ==> t[n] == children[n].assignment
    {
      map n | n in children :: children[n].assignment
    }

    /** No port is in the `assigned` table of two workers of the table. */
    ghost predicate Exclusive()
      reads this`children, children.Values`assignment
    {
      ExclusiveIn(Snapshot())
    }

    /** The ports some worker of the table still holds as "waiting". */
    ghost function WaitingPorts(): set<int>
      reads this`children, children.Values`assignment
    {
      WaitingIn(Snapshot())
    }

    /** A worker fresh from the default path of `initChild`. */
    ghost predicate RoundRobinWorker(c: Worker)
      reads this, c
      requires workers > 0
    {
      && c.assignment == AllWaiting(RoundRobin.Sent(startPort, endPort, workers, c.num))
      && c.sent == Messages(RoundRobin.Sent(startPort, endPort, workers, c.num), addr)
      && c.connected && !c.lastWorker
    }

    /** Module load: ports 1 to 65535, no results, no workers, no address, and the gate
        `workersGate(WORKERS)`; the worker count (the number of cores) is a parameter, and
        may be zero when the host reports no processors. */
    constructor(workers: nat)
      ensures Valid() && fresh(guard) && guard.count == 0
      ensures this.workers == workers && startPort == 1 && endPort == 65535 && numPorts == 65535
      ensures results == NoResults && children == map[] && services == map[] && addr == None
    {
      this.workers := workers;
      guard := new Gate(workers);
      startPort, endPort := 1, 65535;
      numPorts := 65535;
      results := NoResults;
      children := map[];
      services := map[];
      addr := None;
    }

    /** `setNumPorts()` with no arguments: the size of the configured range. */
    method RangeSize() returns (n: int)
      requires Valid()
      ensures n == numPorts && 1 <= n <= 65535
    {
      n := endPort - startPort + 1;
    }

    /** `setNumPorts(start, end)`: a valid range replaces the configured one and is
        returned with its size; anything else keeps the configuration and returns the
        previous port count. */
    method SetNumPorts(start: Numeric, end: Numeric) returns (reply: RangeReply)
      requires Valid()
      modifies this`startPort, this`endPort, this`numPorts
      ensures Valid()
      ensures CheckRange(start, end).Some? ==>
        && startPort == start.n && endPort == end.n && numPorts == end.n - start.n + 1
        && reply == Applied(start.n, end.n, end.n - start.n + 1)
      ensures CheckRange(start, end).None? ==>
        && startPort == old(startPort) && endPort == old(endPort) && numPorts == old(numPorts)
        && reply == Kept(old(numPorts))
    {
      if start.NaN? || end.NaN? || start.n <= 0 || end.n > 65535 {
        return Kept(numPorts);
      } else if end.n - start.n < 0 {
        return Kept(numPorts);
      } else {
        startPort := start.n;
        endPort := end.n;
        numPorts := endPort - startPort + 1;
        return Applied(startPort, endPort, numPorts);
      }
    }

    /** `initChild(child)` sends the worker every `WORKERS`-th port from
        `START_PORT + num` and records each "waiting"; `initChild(child, waiting)` sends and
        records exactly `waiting`. The table itself is not touched. */
    method InitChild(child: Worker, resend: Option<seq<int>>)
      requires Valid() && (resend.None? ==> workers > 0)
      modifies child`assignment, child`sent
      ensures var ports := if resend.Some? then resend.value
                           else RoundRobin.Sent(startPort, endPort, workers, child.num);
        && child.assignment == AllWaiting(ports)
        && child.sent == old(child.sent) + Messages(ports, addr)
    {
      child.assignment := map[];
      if resend.None? {
        SendStride(child);
      } else {
        SendEach(child, resend.value);
      }
    }

    /** The default path of `initChild`: the `for` loop from `START_PORT + num` in steps of
        `WORKERS`, sending each port and recording it "waiting". */
    method SendStride(child: Worker)
      requires workers > 0 && child.assignment == map[]
      modifies child`assignment, child`sent
      ensures child.assignment == AllWaiting(RoundRobin.Sent(startPort, endPort, workers, child.num))
      ensures child.sent == old(child.sent) + Messages(RoundRobin.Sent(startPort, endPort, workers, child.num), addr)
    {
      var port := startPort + child.num;
      ghost var done: seq<int> := [];
      ghost var rest := RoundRobin.Sent(startPort, endPort, workers, child.num);
      while port <= endPort
        invariant rest == RoundRobin.Stride(port, endPort, workers)
        invariant done + rest == RoundRobin.Sent(startPort, endPort, workers, child.num)
        invariant child.assignment == AllWaiting(done)
        invariant child.sent == old(child.sent) + Messages(done, addr)
        decreases endPort - port
      {
        SendOne(done, port);
        child.sent := child.sent + [PortMsg(port, addr)];
        child.assignment := child.assignment[port := Waiting];
        done, rest := done + [port], rest[1..];
        port := port + workers;
      }
    }

    /** The restart path of `initChild`: each port of `ports`, in order, is sent and recorded
        "waiting". */
    method SendEach(child: Worker, ports: seq<int>)
      requires child.assignment == map[]
      modifies child`assignment, child`sent
      ensures child.assignment == AllWaiting(ports)
      ensures child.sent == old(child.sent) + Messages(ports, addr)
    {
      var i := 0;
      while i < |ports|
        invariant 0 <= i <= |ports|
        invariant child.assignment == AllWaiting(ports[..i])
        invariant child.sent == old(child.sent) + Messages(ports[..i], addr)
      {
        assert ports[..i + 1] == ports[..i] + [ports[i]];
        SendOne(ports[..i], ports[i]);
        child.sent := child.sent + [PortMsg(ports[i], addr)];
        child.assignment := child.assignment[ports[i] := Waiting];
        i := i + 1;
      }
      assert ports[..i] == ports;
    }

    /** Sending one more port extends the messages by one and the table by one entry. */
    lemma SendOne(ports: seq<int>, port: int)
      ensures Messages(ports + [port], addr) == Messages(ports, addr) + [PortMsg(port, addr)]
      ensures AllWaiting(ports + [port]) == AllWaiting(ports)[port := Waiting]
    {
      assert Messages(ports + [port], addr) == Messages(ports, addr) + [PortMsg(port, addr)];
    }

    /** `scanInit`: with an address set, one worker per index `0 .. WORKERS-1` is forked,
        initialised by the default path of `initChild` and stored in the table; the
        workers' assignments then partition the port range. Without an address nothing
        happens; with no cores no worker is forked and nothing is scanned. */
    method ScanInit() returns (ok: bool)
      requires Valid()
      modifies this`children
      ensures Valid()
      ensures ok == AddressSet()
      ensures !ok ==> children == old(children)
      ensures ok ==> forall n :: n in children <==> 0 <= n < workers
      ensures ok ==> forall n :: 0 <= n < workers ==>
        && fresh(children[n]) && RoundRobinWorker(children[n])
        && children[n].assignment.Keys == RoundRobin.Owned(startPort, endPort, workers, n)
      ensures ok && workers > 0 ==> Exclusive() && WaitingPorts() == Interval(startPort, endPort)
      ensures ok && workers == 0 ==> children == map[]
    {
      if !AddressSet() {
        return false;
      }
      var i := 0;
      while i < workers
        invariant 0 <= i <= workers
        invariant Valid()
        invariant forall n :: n in children ==> n in old(children) || n < i
        invariant forall n :: 0 <= n < i ==> n in children && fresh(children[n]) && RoundRobinWorker(children[n])
      {
        var child := new Worker(i);
        InitChild(child, None);
        children := children[i := child];
        i := i + 1;
      }
      ok := true;
      forall n | 0 <= n < workers
        ensures children[n].assignment.Keys == RoundRobin.Owned(startPort, endPort, workers, n)
      {
        RoundRobin.SentIsOwned(startPort, endPort, workers, n);
      }
      if workers > 0 {
        RoundRobinTable(startPort, endPort, workers, Snapshot());
      }
    }

    /** `beginScan(addr)`: records the address, merges the services database (read from
        the system file, here a parameter) and runs `scanInit`. */
    method BeginScan(address: string, servicesDb: map<int, string>) returns (ok: bool)
      requires Valid()
      modifies this`addr, this`services, this`children
      ensures Valid()
      ensures addr == Some(address) && services == old(services) + servicesDb
      ensures ok == (address != "")
      ensures !ok ==> children == old(children)
      ensures ok ==> forall n :: n in children <==> 0 <= n < workers
      ensures ok ==> forall n :: 0 <= n < workers ==>
        && fresh(children[n]) && RoundRobinWorker(children[n])
        && children[n].assignment.Keys == RoundRobin.Owned(startPort, endPort, workers, n)
      ensures ok && workers > 0 ==> Exclusive() && WaitingPorts() == Interval(startPort, endPort)
    {
      addr := Some(address);
      services := services + servicesDb;
      ok := ScanInit();
    }

    /** The worker's table entry for `port` becomes "scanned"; every other table is
        untouched, and a port the worker held leaves the waiting work of the table. */
    method MarkScanned(child: Worker, port: int)
      requires Valid()
      modifies child`assignment
      ensures child.assignment == old(child.assignment)[port := Scanned]
      ensures old(Exclusive()) && (Live(child) ==> port in old(child.assignment)) ==> Exclusive()
      ensures old(Exclusive()) && Live(child) && port in old(child.assignment) ==>
        WaitingPorts() == old(WaitingPorts()) - {port}
    {
      child.assignment := child.assignment[port := Scanned];
      if old(Exclusive()) && Live(child) && port in old(child.assignment) {
        MarkScannedRemoves(old(Snapshot()), child.num, port);
        assert Snapshot() == old(Snapshot())[child.num := child.assignment];
      } else if !Live(child) {
        assert Snapshot() == old(Snapshot());
      }
    }

    /** The `forEach` over the table: every worker is disconnected. */
    method DisconnectAll()
      modifies children.Values`connected
      ensures forall c :: c in children.Values ==> !c.connected
    {
      forall c | c in children.Values {
        c.connected := false;
      }
    }

    /** The message handler of a worker, for a classification `{port, state}`: the result
        lists and the worker's table are updated; once the count reaches the port count every
        worker of the table is disconnected, and a count beyond it is the over-count error.
        Other workers' tables are untouched. */
    method OnMessage(child: Worker, port: int, state: Classification) returns (outcome: MsgOutcome)
      requires Valid()
      modifies this`results, child`assignment, child`lastWorker, children.Values`connected
      ensures Valid()
      ensures results == Record(old(results), port, state, services)
      ensures child.assignment == old(child.assignment)[port := Scanned]
      ensures forall c :: c in children.Values && c != child ==> c.assignment == old(c.assignment)
      ensures outcome == (if results.Count() < numPorts then Pending
                          else if results.Count() == numPorts then Complete
                          else OverCounted)
      ensures outcome != Pending ==> child.lastWorker && forall c :: c in children.Values ==> !c.connected
      ensures outcome == Pending ==>
        child.lastWorker == old(child.lastWorker) && forall c :: c in children.Values ==> c.connected == old(c.connected)
    {
      results := Record(results, port, state, services);
      MarkScanned(child, port);
      var count := results.Count();
      if count >= numPorts {
        child.lastWorker := true;
        DisconnectAll();
        if count != numPorts {
          outcome := OverCounted;
        } else {
          outcome := Complete;
        }
      } else {
        outcome := Pending;
      }
    }

    /** The restart path of the exit handler: a replacement with the worker's index takes
        its place in the table and is sent `waiting`, the worker's waiting ports in
        ascending order. The waiting work of the table is neither lost nor duplicated. */
    method Restart(child: Worker, waiting: seq<int>) returns (replacement: Worker)
      requires Valid() && Live(child)
      requires waiting != []
      requires forall p :: p in waiting <==> p in WaitingOf(child.assignment)
      modifies this`children
      ensures Valid()
      ensures fresh(replacement) && replacement.num == child.num
      ensures children == old(children)[child.num := replacement]
      ensures replacement.assignment == AllWaiting(waiting)
      ensures replacement.sent == Messages(waiting, addr)
      ensures replacement.connected && !replacement.lastWorker
      ensures WaitingPorts() == old(WaitingPorts())
      ensures old(Exclusive()) ==> Exclusive()
    {
      ghost var t0 := Snapshot();
      replacement := new Worker(child.num);
      children := children[child.num := replacement];
      InitChild(replacement, Some(waiting));
      ResentTable(child.assignment, waiting);
      ReplaceKeepsWork(t0, child.num, replacement.assignment);
      SnapshotReplaced(t0, child.num, replacement);
    }

    /** A table that agrees with the snapshot `t0` except at index `n`, which now holds `c`,
        has `t0` with entry `n` replaced as its snapshot. */
    lemma SnapshotReplaced(t0: Table, n: nat, c: Worker)
      requires n in children && children[n] == c && children.Keys == t0.Keys + {n}
      requires forall m :: m in children && m != n ==> children[m].assignment == t0[m]
      ensures Snapshot() == t0[n := c.assignment]
    {
    }

    /** The exit handler of a worker of the table: if some of its ports are still waiting, it
        is restarted with exactly those ports, in ascending order; otherwise the gate is
        advanced once. Either way the waiting work of the table is neither lost nor
        duplicated. */
    method OnExit(child: Worker) returns (outcome: ExitOutcome)
      requires Valid() && Live(child)
      modifies this`children, guard
      ensures Valid()
      ensures outcome.Restarted? <==> WaitingOf(child.assignment) != {}
      ensures outcome.Restarted? ==>
        var r := outcome.replacement;
        && fresh(r) && r.num == child.num && children == old(children)[child.num := r]
        && Increasing(outcome.resent)
        && (forall p :: p in outcome.resent <==> p in WaitingOf(child.assignment))
        && r.assignment == AllWaiting(outcome.resent)
        && r.sent == Messages(outcome.resent, addr)
        && r.connected && !r.lastWorker
        && guard.count == old(guard.count)
      ensures outcome.GateCalled? ==>
        && children == old(children)
        && guard.count == old(guard.count) + 1
        && outcome.value == GateAt(workers, guard.count)
      ensures WaitingPorts() == old(WaitingPorts())
      ensures old(Exclusive()) ==> Exclusive()
    {
      var waiting := CollectWaiting(child.assignment);
      if waiting != [] {
        assert waiting[0] in waiting;
        var replacement := Restart(child, waiting);
        outcome := Restarted(replacement, waiting);
      } else {
        assert forall p :: p !in WaitingOf(child.assignment);
        assert WaitingOf(child.assignment) == {};
        var v := guard.Call();
        outcome := GateCalled(v);
      }
    }
  }
}
