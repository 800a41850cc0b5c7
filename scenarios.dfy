/** Concrete runs of the model that mirror the repository's tests (tests/tests.js) and the
    drain ceiling of the worker. */
module Scenarios {
  import opened Common
  import opened ScannerLib
  import ChildScanner

  /** "test worker control": a gate for three tasks answers 1, 2, `true`, then `false`. */
  method GateScenario() returns (a: GateValue, b: GateValue, c: GateValue, d: GateValue)
    ensures a == Calls(1) && b == Calls(2)
    ensures c == Flag(true) && d == Flag(false)
  {
    var guard := new Gate(3);
    a := guard.Call();
    b := guard.Call();
    c := guard.Call();
    d := guard.Call();
  }

  /** "set number ports": `1..1024` is applied; a reversed range, an end past 65535 and a
      negative start each keep the configured count. */
  method SetNumPortsScenario() returns (r1: RangeReply, r2: RangeReply, r3: RangeReply, r4: RangeReply)
    ensures r1 == Applied(1, 1024, 1024)
    ensures r2 == Kept(1024) && r3 == Kept(1024) && r4 == Kept(1024)
  {
    var session := new ScanSession(4);
    r1 := session.SetNumPorts(Num(1), Num(1024));
    r2 := session.SetNumPorts(Num(1024), Num(1));
    r3 := session.SetNumPorts(Num(65535), Num(65536));
    r4 := session.SetNumPorts(Num(-1), Num(65533));
  }

  /** "test child worker initialization, no services DB": with ports `22..24` configured,
      the messages open 22, closed 23 and filtered 24 land in one list each, port 22 with no
      service name, all three are marked scanned, and the third completes the scan. */
  method MessageScenario() returns (res: Results, table: map<int, PortState>, last: MsgOutcome)
    ensures res.open == [OpenEntry(22, None)] && res.closed == [23] && res.filtered == [24]
    ensures res.scanned == {22, 23, 24} && res.Count() == 3
    ensures table == map[22 := Scanned, 23 := Scanned, 24 := Scanned]
    ensures last == Complete
  {
    var session := new ScanSession(4);
    var worker := new Worker(0);
    var numPorts := session.SetNumPorts(Num(22), Num(24));
    var o1 := session.OnMessage(worker, 22, Classification.Open);
    var o2 := session.OnMessage(worker, 23, Classification.Closed);
    last := session.OnMessage(worker, 24, Classification.Filtered);
    res := session.results;
    table := worker.assignment;
  }

  /** With a ceiling of 100, nothing in flight and 101 messages queued while the ceiling
      was 0, one more message starts exactly 100 probes, leaves two messages queued and
      schedules a retry. */
  method CeilingScenario() returns (startedCount: nat, left: nat, ghost retried: bool)
    ensures startedCount == 100 && left == 2 && retried
  {
    var throttle := new ChildScanner.Throttle();
    var ceiling := throttle.SetConcurrent(Num(0));
    var port := 1;
    while port <= 101
      invariant 1 <= port <= 102
      invariant throttle.concurrentConnects == 0 && throttle.running == 0
      invariant |throttle.msgqueue| == port - 1
      modifies throttle
    {
      var none := throttle.HandleMessage(Some(ChildScanner.Work(port, Some("localhost"))));
      port := port + 1;
    }
    ceiling := throttle.SetConcurrent(Num(100));
    ghost var retries0 := throttle.retries;
    var started := throttle.HandleMessage(Some(ChildScanner.Work(102, Some("localhost"))));
    startedCount := |started|;
    left := |throttle.msgqueue|;
    retried := throttle.retries == retries0 + 1;
  }
}
