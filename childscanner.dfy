/** The worker side of the scan (childscanner.js): a FIFO queue of work messages drained
    into at most `CONCURRENT_CONNECTS` in-flight probes, and the per-probe state machine on
    the `determined` flag that turns socket events into classification reports. */
module ChildScanner {
  import opened Common

  /** A work message `{port, addr}` as it reaches the worker. */
  datatype Work = Work(port: int, addr: Option<string>)

  /** The `state` of a classification report sent to the coordinator. */
  datatype Status = Open | Closed | Filtered

  /** A report `{port, state}` sent to the coordinator. */
  datatype Report = Report(port: int, state: Status)

  /** The `code` of a socket error. */
  datatype ErrorCode = ECONNREFUSED | ETIMEDOUT | OtherCode(name: string)

  /** What can happen to a probe: a socket event, or the firing of its watchdog timer. */
  datatype SocketEvent = Error(code: ErrorCode) | Connect | Close | Watchdog

  /** What one event does to a probe: its new `determined` flag, the report it sends (if
      any), whether it gives back its slot (`running--`) and whether it destroys the
      connection. */
  datatype Effect = Effect(determined: bool, report: Option<Status>, release: bool, destroy: bool)

  /** The report a socket error sends: refused is closed, timed out is filtered, any other
      code sends nothing. */
  function ErrorReport(code: ErrorCode): Option<Status>
  {
    match code
    case ECONNREFUSED => Some(Closed)
    case ETIMEDOUT => Some(Filtered)
    case OtherCode(_) => None
  }

  /** The probe state machine: the effect of event `e` on a probe whose flag is
      `determined`. */
  function ProbeStep(determined: bool, e: SocketEvent): (r: Effect)
    ensures e.Watchdog? ==> r.report == None && !r.release && r.determined == determined
    ensures e.Watchdog? ==> (r.destroy <==> !determined)
    ensures determined && (e.Close? || e.Watchdog?) ==> r == Effect(true, None, false, false)
    ensures !e.Watchdog? ==> r.determined
  {
    match e
    case Error(code) => Effect(true, ErrorReport(code), true, true)
    case Connect => Effect(true, Some(Open), true, true)
    case Close =>
      if !determined then Effect(true, Some(Filtered), true, false)
      else Effect(determined, None, false, false)
    case Watchdog => Effect(determined, None, false, !determined)
  }

  /** The reports, released slots and final flag of a sequence of events. */
  datatype Tally = Tally(reports: seq<Status>, releases: nat, determined: bool)

  /** The events of `trace` applied one after the other from flag `determined`. */
  function Replay(determined: bool, trace: seq<SocketEvent>): Tally
    decreases |trace|
  {
    if trace == [] then Tally([], 0, determined)
    else
      var eff := ProbeStep(determined, trace[0]);
      var rest := Replay(eff.determined, trace[1..]);
      Tally((if eff.report.Some? then [eff.report.value] else []) + rest.reports,
            (if eff.release then 1 else 0) + rest.releases,
            rest.determined)
  }

  /** The event settles the connection: it connected, or it failed. */
  predicate Settles(e: SocketEvent)
  {
    e.Connect? || e.Error?
  }

  /** The order in which a socket emits events: at most one connect-or-error, and after a
      close nothing but the watchdog timer. */
  predicate Lifecycle(t: seq<SocketEvent>)
  {
    forall i, j :: 0 <= i < j < |t| ==>
      (Settles(t[i]) ==> !Settles(t[j])) && (t[i].Close? ==> t[j].Watchdog?)
  }

  /** Some event of the trace ends the probe: it settles or the socket closes. */
  predicate Ends(t: seq<SocketEvent>)
  {
    exists i :: 0 <= i < |t| && !t[i].Watchdog?
  }

  /** The trace holds an error whose code sends no report. */
  predicate LostError(t: seq<SocketEvent>)
  {
    exists i :: 0 <= i < |t| && t[i].Error? && t[i].code.OtherCode?
  }

  /** Once determined, a probe ignores closes and watchdog firings: nothing is reported and
      no slot is released. */
  lemma {:induction false} DeterminedIsInert(t: seq<SocketEvent>)
    requires forall i :: 0 <= i < |t| ==> !Settles(t[i])
    ensures Replay(true, t) == Tally([], 0, true)
    decreases |t|
  {
    if t != [] {
      DeterminedIsInert(t[1..]);
    }
  }

  /** Over any socket lifecycle a fresh probe gives back its slot exactly once if the probe
      ends and never otherwise, and sends one report per released slot except for an error
      whose code sends none. */
  lemma {:induction false} ProbeAccounting(t: seq<SocketEvent>)
    requires Lifecycle(t)
    ensures Replay(false, t).releases == (if Ends(t) then 1 else 0)
    ensures |Replay(false, t).reports| + (if LostError(t) then 1 else 0) == Replay(false, t).releases
    ensures Replay(false, t).determined <==> Ends(t)
    decreases |t|
  {
    if t == [] {
      return;
    }
    var rest := t[1..];
    assert forall i :: 0 <= i < |rest| ==> rest[i] == t[i + 1];
    match t[0]
    case Watchdog =>
      ProbeAccounting(rest);
      assert Ends(t) <==> Ends(rest) by {
        if Ends(t) {
          var i :| 0 <= i < |t| && !t[i].Watchdog?;
          assert !rest[i - 1].Watchdog?;
        }
        if Ends(rest) {
          var i :| 0 <= i < |rest| && !rest[i].Watchdog?;
          assert !t[i + 1].Watchdog?;
        }
      }
      assert LostError(t) <==> LostError(rest) by {
        if LostError(t) {
          var i :| 0 <= i < |t| && t[i].Error? && t[i].code.OtherCode?;
          assert rest[i - 1] == t[i];
        }
        if LostError(rest) {
          var i :| 0 <= i < |rest| && rest[i].Error? && rest[i].code.OtherCode?;
          assert t[i + 1] == rest[i];
        }
      }
    case Connect =>
      DeterminedIsInert(rest);
      assert !t[0].Watchdog?;
      assert !LostError(t) by {
        forall i | 0 < i < |t|
          ensures !t[i].Error?
        {
          assert Settles(t[0]);
        }
      }
    case Error(code) =>
      DeterminedIsInert(rest);
      assert !t[0].Watchdog?;
      assert LostError(t) <==> code.OtherCode? by {
        forall i | 0 < i < |t|
          ensures !t[i].Error?
        {
          assert Settles(t[0]);
        }
      }
    case Close =>
      assert forall i :: 0 <= i < |rest| ==> rest[i].Watchdog? by {
        forall i | 0 <= i < |rest|
          ensures rest[i].Watchdog?
        {
          assert t[0].Close? && t[i + 1].Watchdog?;
        }
      }
      DeterminedIsInert(rest);
      assert !t[0].Watchdog?;
      assert !LostError(t);
  }

  /** How many probes the drain loop starts from `running` in flight, a ceiling `cc` and
      `n` queued messages: starts go on while a slot is free and work is queued. */
  function Drained(running: int, cc: int, n: nat): (k: nat)
    ensures k <= n
    ensures k == n || running + k >= cc
    ensures k > 0 ==> running + k <= cc
  {
    if running >= cc then 0
    else if cc - running < n then cc - running
    else n
  }

  /** The three facts of `Drained` pin its value down: no other count both stops where the
      loop stops and starts its last probe into a free slot. */
  lemma DrainedUnique(running: int, cc: int, n: nat, k: nat)
    requires k <= n && (k == n || running + k >= cc)
    requires k > 0 ==> running + k <= cc
    ensures k == Drained(running, cc, n)
  {
  }

  /** The reports a probe's effect sends to the coordinator. */
  function Sends(port: int, report: Option<Status>): seq<Report>
  {
    if report.Some? then [Report(port, report.value)] else []
  }

  /** A probe: the work message `obj` with its `determined` flag, and the connection opened
      for it. */
  class Probe {
    const work: Work
    /** The watchdog delay, `CONNECT_TIMEOUT` when the probe started. */
    const timeout: int
    var determined: bool
    var destroyed: bool

    constructor(work: Work, timeout: int)
      ensures this.work == work && this.timeout == timeout
      ensures !determined && !destroyed
    {
      this.work := work;
      this.timeout := timeout;
      determined := false;
      destroyed := false;
    }
  }

  /** The worker's module state: the queue, the in-flight count, the two tunables, and as
      ghost logs the reports sent to the coordinator and the retries scheduled. */
  class Throttle {
    var msgqueue: seq<Work>
    var running: int
    var concurrentConnects: int
    var connectTimeout: int
    ghost var toParent: seq<Report>
    ghost var retries: nat

    /** Module load: an empty queue, nothing in flight, 100 concurrent connects and a
        5000 ms connect timeout. */
    constructor()
      ensures msgqueue == [] && running == 0
      ensures concurrentConnects == 100 && connectTimeout == 5000
      ensures toParent == [] && retries == 0
    {
      msgqueue := [];
      running := 0;
      concurrentConnects := 100;
      connectTimeout := 5000;
      toParent := [];
      retries := 0;
    }

    /** The handler took event `e` on probe `p` as the state machine says. */
    twostate predicate Took(p: Probe, e: SocketEvent)
      reads this, p
    {
      var eff := ProbeStep(old(p.determined), e);
      && p.determined == eff.determined
      && running == old(running) - (if eff.release then 1 else 0)
      && toParent == old(toParent) + Sends(p.work.port, eff.report)
      && p.destroyed == (old(p.destroyed) || eff.destroy)
    }

    /** `setConnectTimeout(timeout)`: a number replaces the timeout; the current timeout is
        returned either way. */
    method SetConnectTimeout(timeout: Numeric) returns (current: int)
      modifies this`connectTimeout
      ensures timeout.Num? ==> connectTimeout == timeout.n
      ensures timeout.NaN? ==> connectTimeout == old(connectTimeout)
      ensures current == connectTimeout
    {
      if timeout.Num? {
        connectTimeout := timeout.n;
      }
      return connectTimeout;
    }

    /** `setConcurrent(concurrent)`: a number replaces the ceiling on probes in flight; the
        current ceiling is returned either way. */
    method SetConcurrent(concurrent: Numeric) returns (current: int)
      modifies this`concurrentConnects
      ensures concurrent.Num? ==> concurrentConnects == concurrent.n
      ensures concurrent.NaN? ==> concurrentConnects == old(concurrentConnects)
      ensures current == concurrentConnects
    {
      if concurrent.Num? {
        concurrentConnects := concurrent.n;
      }
      return concurrentConnects;
    }

    /** `checkPort(obj)`: a connection is opened for the work message, it takes one slot,
        and its watchdog is armed with the current connect timeout. */
    method CheckPort(w: Work) returns (p: Probe)
      modifies this`running
      ensures fresh(p) && p.work == w && p.timeout == connectTimeout
      ensures !p.determined && !p.destroyed
      ensures running == old(running) + 1
    {
      p := new Probe(w, connectTimeout);
      running := running + 1;
    }

    /** `childMsgHandler(msg)`: a defined message joins the tail of the queue; probes are
        then started from the head while a slot is free; a retry is scheduled exactly when
        work is left over. */
    method HandleMessage(msg: Option<Work>) returns (started: seq<Probe>)
      modifies this`msgqueue, this`running, this`retries
      ensures var q := old(msgqueue) + (if msg.Some? then [msg.value] else []);
        var k := Drained(old(running), concurrentConnects, |q|);
        && |started| == k
        && msgqueue == q[k..]
        && running == old(running) + k
        && forall i :: 0 <= i < k ==> started[i].work == q[i]
      ensures forall i :: 0 <= i < |started| ==>
        fresh(started[i]) && !started[i].determined && started[i].timeout == connectTimeout
      ensures msgqueue == [] || running >= concurrentConnects
      ensures retries == old(retries) + (if msgqueue != [] then 1 else 0)
    {
      if msg.Some? {
        msgqueue := msgqueue + [msg.value];
      }
      ghost var q := msgqueue;
      ghost var r0 := running;
      started := [];
      while running < concurrentConnects && msgqueue != []
        invariant |started| <= |q| && msgqueue == q[|started|..]
        invariant running == r0 + |started| && retries == old(retries)
        invariant |started| > 0 ==> running <= concurrentConnects
        invariant forall i :: 0 <= i < |started| ==> started[i].work == q[i]
        invariant forall i :: 0 <= i < |started| ==>
          fresh(started[i]) && !started[i].determined && started[i].timeout == connectTimeout
        decreases |msgqueue|
      {
        var w := msgqueue[0];
        msgqueue := msgqueue[1..];
        var p := CheckPort(w);
        started := started + [p];
      }
      DrainedUnique(r0, concurrentConnects, |q|, |started|);
      if msgqueue != [] {
        retries := retries + 1;
      }
    }

    /** The socket's `error` handler: a refused connection is reported closed, a timed-out
        one filtered, any other code is not reported; the probe is determined, its
        connection destroyed and its slot released. */
    method OnError(p: Probe, code: ErrorCode)
      modifies this`running, this`toParent, p`determined, p`destroyed
      ensures Took(p, Error(code))
      ensures p.determined && p.destroyed && running == old(running) - 1
      ensures toParent == old(toParent) + (match code
        case ECONNREFUSED => [Report(p.work.port, Closed)]
        case ETIMEDOUT => [Report(p.work.port, Filtered)]
        case OtherCode(_) => [])
    {
      if code == ECONNREFUSED {
        p.determined := true;
        toParent := toParent + [Report(p.work.port, Closed)];
      } else if code == ETIMEDOUT {
        toParent := toParent + [Report(p.work.port, Filtered)];
        p.determined := true;
      }
      p.determined := true;
      p.destroyed := true;
      running := running - 1;
    }

    /** The socket's `connect` handler: the port is reported open, the probe determined,
        its connection destroyed and its slot released. */
    method OnConnect(p: Probe)
      modifies this`running, this`toParent, p`determined, p`destroyed
      ensures Took(p, Connect)
      ensures p.determined && p.destroyed && running == old(running) - 1
      ensures toParent == old(toParent) + [Report(p.work.port, Open)]
    {
      toParent := toParent + [Report(p.work.port, Open)];
      p.determined := true;
      p.destroyed := true;
      running := running - 1;
    }

    /** The socket's `close` handler: an undetermined probe is reported filtered, becomes
        determined and releases its slot; a determined one is left as it is. */
    method OnClose(p: Probe)
      modifies this`running, this`toParent, p`determined
      ensures Took(p, Close)
      ensures !old(p.determined) ==>
        p.determined && running == old(running) - 1 && toParent == old(toParent) + [Report(p.work.port, Filtered)]
      ensures old(p.determined) ==>
        p.determined && running == old(running) && toParent == old(toParent)
    {
      if !p.determined {
        toParent := toParent + [Report(p.work.port, Filtered)];
        p.determined := true;
        running := running - 1;
      }
    }

    /** The watchdog timer: the connection of a probe still undetermined is destroyed;
        nothing is reported and no slot is released. */
    method OnWatchdog(p: Probe)
      modifies p`destroyed
      ensures Took(p, Watchdog)
      ensures p.destroyed == (old(p.destroyed) || !p.determined)
    {
      if !p.determined {
        p.destroyed := true;
      }
    }
  }
}
