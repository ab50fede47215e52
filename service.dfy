/**
 The Windows service lifecycle wrapper of base/service.cpp.

 A `Service` owns a SERVICE_STATUS record that it overwrites on every
 transition and submits to the service manager; `ServiceMain` drives the
 fixed start/run/stop sequence around the user's `Worker`; the control
 handler maps control codes to results and forwards STOP and SHUTDOWN to
 `OnStop`. The service manager itself is abstract: the registration outcome
 is an input, and every `SetServiceStatus` submission, `Worker` call and
 `OnStop` call is appended to a ghost trace of events.
 */
module BaseService {
  import opened Win32

  // ---------------------------------------------------------------------
  // The status record update
  // ---------------------------------------------------------------------

  /** SERVICE_ACCEPT_STOP | SERVICE_ACCEPT_SHUTDOWN, the controls accepted while running
      (the two flags are distinct bits, so their | is their sum). */
  const RUNNING_CONTROLS: DWORD := SERVICE_ACCEPT_STOP + SERVICE_ACCEPT_SHUTDOWN

  /** States on which the checkpoint goes back to zero instead of advancing. */
  predicate ResetsCheckPoint(state: DWORD) {
    state == SERVICE_RUNNING || state == SERVICE_STOPPED
  }

  /** The record offers both STOP and SHUTDOWN to the service manager. */
  predicate AcceptsStopAndShutdown(s: ServiceStatus) {
    HasFlag(s.controlsAccepted, SERVICE_ACCEPT_STOP) && HasFlag(s.controlsAccepted, SERVICE_ACCEPT_SHUTDOWN)
  }

  /** The record SetStatus leaves behind when it reports `state` over `prev`. */
  function NextStatus(prev: ServiceStatus, state: DWORD): (r: ServiceStatus)
    ensures r.currentState == state
    ensures r.serviceType == SERVICE_WIN32
    ensures r.win32ExitCode == NO_ERROR && r.serviceSpecificExitCode == NO_ERROR
    ensures r.waitHint == 0
    ensures state == SERVICE_RUNNING ==> r.controlsAccepted == RUNNING_CONTROLS
    ensures state != SERVICE_RUNNING ==> r.controlsAccepted == 0
    ensures AcceptsStopAndShutdown(r) <==> state == SERVICE_RUNNING
    ensures ResetsCheckPoint(state) ==> r.checkPoint == 0
    ensures !ResetsCheckPoint(state) && prev.checkPoint < MAX_DWORD ==> r.checkPoint == prev.checkPoint + 1
    // the DWORD counter wraps, like ++ on the C field
    ensures !ResetsCheckPoint(state) && prev.checkPoint == MAX_DWORD ==> r.checkPoint == 0
  {
    var accepted := if state == SERVICE_RUNNING then RUNNING_CONTROLS else 0;
    var checkPoint := if !ResetsCheckPoint(state) then Increment(prev.checkPoint) else 0;
    ServiceStatus(SERVICE_WIN32, state, accepted, NO_ERROR, NO_ERROR, checkPoint, 0)
  }

  /** Only the previous checkpoint survives an update: the other fields are overwritten. */
  lemma NextStatusForgetsPrevious(p: ServiceStatus, q: ServiceStatus, state: DWORD)
    requires p.checkPoint == q.checkPoint
    ensures NextStatus(p, state) == NextStatus(q, state)
  {
  }

  /** The records reported by SetStatus(states[0]), SetStatus(states[1]), ... in turn,
      starting from the record `prev`: each report is the update of the one before it. */
  function Reports(prev: ServiceStatus, states: seq<DWORD>): (r: seq<ServiceStatus>)
    ensures |r| == |states|
    ensures |r| > 0 ==> r[0] == NextStatus(prev, states[0])
    ensures forall i :: 0 < i < |r| ==> r[i] == NextStatus(r[i - 1], states[i])
    decreases |states|
  {
    if states == [] then []
    else
      var first := NextStatus(prev, states[0]);
      [first] + Reports(first, states[1..])
  }

  /** Along a run of pending reports the checkpoint counts up by one per report. */
  lemma {:induction false} PendingCheckPointsCount(prev: ServiceStatus, states: seq<DWORD>)
    requires forall i :: 0 <= i < |states| ==> !ResetsCheckPoint(states[i])
    requires prev.checkPoint + |states| <= MAX_DWORD
    ensures forall i :: 0 <= i < |states| ==>
              Reports(prev, states)[i].checkPoint == prev.checkPoint + i + 1
    decreases |states|
  {
    if states != [] {
      var first := NextStatus(prev, states[0]);
      PendingCheckPointsCount(first, states[1..]);
      var r := Reports(prev, states);
      assert r == [first] + Reports(first, states[1..]);
    }
  }

  /** Consecutive pending reports carry strictly increasing checkpoints. */
  lemma PendingCheckPointsIncrease(prev: ServiceStatus, states: seq<DWORD>, i: nat, j: nat)
    requires forall k :: 0 <= k < |states| ==> !ResetsCheckPoint(states[k])
    requires prev.checkPoint + |states| <= MAX_DWORD
    requires i < j < |states|
    ensures Reports(prev, states)[i].checkPoint < Reports(prev, states)[j].checkPoint
  {
    PendingCheckPointsCount(prev, states);
  }

  /** Every report carries its own state, offers STOP and SHUTDOWN exactly when it announces
      RUNNING, and has its checkpoint reset to 0 when it announces RUNNING or STOPPED. */
  lemma ReportsAcceptControlsIffRunning(prev: ServiceStatus, states: seq<DWORD>, i: nat)
    requires i < |states|
    ensures Reports(prev, states)[i].currentState == states[i]
    ensures AcceptsStopAndShutdown(Reports(prev, states)[i]) <==> states[i] == SERVICE_RUNNING
    ensures ResetsCheckPoint(states[i]) ==> Reports(prev, states)[i].checkPoint == 0
  {
    var r := Reports(prev, states);
    var before := if i == 0 then prev else r[i - 1];
    assert r[i] == NextStatus(before, states[i]);
  }

  // ---------------------------------------------------------------------
  // The trace of what the service does towards the outside
  // ---------------------------------------------------------------------

  /** One externally visible step: a SetServiceStatus submission, a call of Worker, a call of OnStop. */
  datatype Event = Report(handle: StatusHandle, status: ServiceStatus) | WorkerCall | OnStopCall

  /** The records submitted to the service manager, in order. */
  ghost function ReportedStatuses(trace: seq<Event>): seq<ServiceStatus>
    decreases |trace|
  {
    if trace == [] then []
    else
      var last := trace[|trace| - 1];
      ReportedStatuses(trace[..|trace| - 1]) + (if last.Report? then [last.status] else [])
  }

  lemma {:induction false} ReportedStatusesAppend(a: seq<Event>, b: seq<Event>)
    ensures ReportedStatuses(a + b) == ReportedStatuses(a) + ReportedStatuses(b)
    decreases |b|
  {
    if b != [] {
      var b' := b[..|b| - 1];
      assert (a + b)[..|a + b| - 1] == a + b';
      assert (a + b)[|a + b| - 1] == b[|b| - 1];
      ReportedStatusesAppend(a, b');
    } else {
      assert a + b == a;
    }
  }

  /** The record last submitted, or the zeroed record when nothing has been submitted yet. */
  ghost function LastReported(trace: seq<Event>): ServiceStatus {
    var rs := ReportedStatuses(trace);
    if rs == [] then ZeroStatus else rs[|rs| - 1]
  }

  /** The states ServiceMain reports, in the order it reports them. */
  const LifecycleStates: seq<DWORD> :=
    [SERVICE_START_PENDING, SERVICE_RUNNING, SERVICE_STOP_PENDING, SERVICE_STOPPED]

  /** What a ServiceMain whose registration returned `handle` does, starting from the record `start`:
      two reports, one Worker call, two reports. */
  ghost function LifecycleEvents(handle: StatusHandle, start: ServiceStatus): seq<Event> {
    var r := Reports(start, LifecycleStates);
    [Report(handle, r[0]), Report(handle, r[1]), WorkerCall, Report(handle, r[2]), Report(handle, r[3])]
  }

  /** The lifecycle submits exactly the four lifecycle records, and calls Worker once,
      between the RUNNING and the STOP_PENDING report, whatever the starting record. */
  lemma LifecycleShape(handle: StatusHandle, start: ServiceStatus)
    ensures ReportedStatuses(LifecycleEvents(handle, start)) == Reports(start, LifecycleStates)
    ensures forall i :: 0 <= i < |LifecycleEvents(handle, start)| ==>
              (LifecycleEvents(handle, start)[i] == WorkerCall <==> i == 2)
    ensures forall i :: 0 <= i < |LifecycleEvents(handle, start)| && LifecycleEvents(handle, start)[i].Report? ==>
              LifecycleEvents(handle, start)[i].handle == handle
    ensures LifecycleEvents(handle, start)[1].status.currentState == SERVICE_RUNNING
    ensures LifecycleEvents(handle, start)[3].status.currentState == SERVICE_STOP_PENDING
  {
    var e := LifecycleEvents(handle, start);
    var r := Reports(start, LifecycleStates);
    ReportedStatusesAppend(e[..2], e[2..]);
    ReportedStatusesAppend(e[..1], e[1..2]);
    ReportedStatusesAppend(e[2..3], e[3..]);
    ReportedStatusesAppend(e[3..4], e[4..]);
    assert e == e[..2] + e[2..] && e[..2] == e[..1] + e[1..2];
    assert e[2..] == e[2..3] + e[3..] && e[3..] == e[3..4] + e[4..];
    assert ReportedStatuses(e) == [r[0], r[1], r[2], r[3]];
  }

  /** On a record that starts out zeroed the lifecycle reports START_PENDING with checkpoint 1,
      RUNNING with 0, STOP_PENDING with 1 and STOPPED with 0; only RUNNING accepts controls. */
  lemma FreshLifecycle(handle: StatusHandle)
    ensures LifecycleEvents(handle, ZeroStatus) ==
      [ Report(handle, ServiceStatus(SERVICE_WIN32, SERVICE_START_PENDING, 0, NO_ERROR, NO_ERROR, 1, 0)),
        Report(handle, ServiceStatus(SERVICE_WIN32, SERVICE_RUNNING, RUNNING_CONTROLS, NO_ERROR, NO_ERROR, 0, 0)),
        WorkerCall,
        Report(handle, ServiceStatus(SERVICE_WIN32, SERVICE_STOP_PENDING, 0, NO_ERROR, NO_ERROR, 1, 0)),
        Report(handle, ServiceStatus(SERVICE_WIN32, SERVICE_STOPPED, 0, NO_ERROR, NO_ERROR, 0, 0)) ]
  {
  }

  // ---------------------------------------------------------------------
  // Control-code dispatch
  // ---------------------------------------------------------------------

  /** What the control handler does with one control code: the value it returns and
      whether it calls OnStop on the context instance. */
  datatype ControlOutcome = ControlOutcome(returnCode: DWORD, callsOnStop: bool)

  function ControlDispatch(controlCode: DWORD): (r: ControlOutcome)
    ensures controlCode == SERVICE_CONTROL_INTERROGATE ==> r == ControlOutcome(NO_ERROR, false)
    ensures controlCode == SERVICE_CONTROL_STOP || controlCode == SERVICE_CONTROL_SHUTDOWN ==>
              r == ControlOutcome(NO_ERROR, true)
    ensures r.returnCode == NO_ERROR <==>
              controlCode in {SERVICE_CONTROL_INTERROGATE, SERVICE_CONTROL_STOP, SERVICE_CONTROL_SHUTDOWN}
    ensures r.returnCode != NO_ERROR ==> r == ControlOutcome(ERROR_CALL_NOT_IMPLEMENTED, false)
    ensures r.callsOnStop <==> controlCode == SERVICE_CONTROL_STOP || controlCode == SERVICE_CONTROL_SHUTDOWN
    // PAUSE and CONTINUE fall into the default case
    ensures controlCode == SERVICE_CONTROL_PAUSE || controlCode == SERVICE_CONTROL_CONTINUE ==>
              r == ControlOutcome(ERROR_CALL_NOT_IMPLEMENTED, false)
  {
    if controlCode == SERVICE_CONTROL_INTERROGATE then ControlOutcome(NO_ERROR, false)
    else if controlCode == SERVICE_CONTROL_SHUTDOWN || controlCode == SERVICE_CONTROL_STOP then
      ControlOutcome(NO_ERROR, true)
    else ControlOutcome(ERROR_CALL_NOT_IMPLEMENTED, false)
  }

  // ---------------------------------------------------------------------
  // The process-wide instance slot and the service object
  // ---------------------------------------------------------------------

  /** The `_self` pointer: the one instance currently alive, or null. The C++ global is
      passed explicitly, so callers that share one slot get the one-instance guarantee. */
  class SelfSlot {
    var instance: Service?

    constructor ()
      ensures instance == null
    {
      instance := null;
    }
  }

  class Service {
    const serviceName: string
    var statusHandle: StatusHandle
    var status: ServiceStatus
    // everything the service has submitted or called so far, in order
    ghost var trace: seq<Event>

    /** The status record always holds what was last submitted, or zeros before the first report. */
    ghost predicate Valid()
      reads this
    {
      status == LastReported(trace)
    }

    /** Creating a service while another one holds the slot is a contract violation. */
    constructor (name: string, slot: SelfSlot)
      requires slot.instance == null
      modifies slot
      ensures slot.instance == this
      ensures serviceName == name && statusHandle == NullHandle
      ensures status == ZeroStatus && trace == []
      ensures Valid()
    {
      serviceName := name;
      statusHandle := NullHandle;
      status := ZeroStatus;
      trace := [];
      new;
      slot.instance := this;
    }

    /** The destructor empties the slot. */
    method Destroy(slot: SelfSlot)
      modifies slot
      ensures slot.instance == null
    {
      slot.instance := null;
    }

    function ServiceName(): (r: string)
      ensures r == serviceName
    {
      serviceName
    }

    /** The user's blocking work; only the fact that it was called is visible here. */
    method Worker()
      modifies this`trace
      ensures trace == old(trace) + [WorkerCall]
    {
      trace := trace + [WorkerCall];
    }

    /** The user's stop request; only the fact that it was called is visible here. */
    method OnStop()
      modifies this`trace
      ensures trace == old(trace) + [OnStopCall]
    {
      trace := trace + [OnStopCall];
    }

    /** Overwrites the status record for `state` and submits it with the status handle. */
    method SetStatus(state: DWORD)
      requires Valid()
      modifies this`status, this`trace
      ensures status == NextStatus(old(status), state)
      ensures trace == old(trace) + [Report(statusHandle, status)]
      ensures Valid()
    {
      status := status.(serviceType := SERVICE_WIN32);
      status := status.(controlsAccepted := 0);
      status := status.(currentState := state);
      status := status.(win32ExitCode := NO_ERROR);
      status := status.(serviceSpecificExitCode := NO_ERROR);
      status := status.(waitHint := 0);

      if state == SERVICE_RUNNING {
        status := status.(controlsAccepted := RUNNING_CONTROLS);
      }

      if state != SERVICE_RUNNING && state != SERVICE_STOPPED {
        status := status.(checkPoint := Increment(status.checkPoint));
      } else {
        status := status.(checkPoint := 0);
      }

      // SetServiceStatus; its result is ignored
      ReportedStatusesAppend(trace, [Report(statusHandle, status)]);
      trace := trace + [Report(statusHandle, status)];
    }

    /** The control handler the service manager calls with the instance as context.
        It never touches the status record or the status handle. */
    static method ServiceControlHandler(controlCode: DWORD, context: Service) returns (r: DWORD)
      requires context.Valid()
      modifies context`trace
      ensures r == ControlDispatch(controlCode).returnCode
      ensures context.trace ==
                old(context.trace) + (if ControlDispatch(controlCode).callsOnStop then [OnStopCall] else [])
      ensures context.status == old(context.status) && context.statusHandle == old(context.statusHandle)
      ensures context.Valid()
    {
      if controlCode == SERVICE_CONTROL_INTERROGATE {
        r := NO_ERROR;
      } else if controlCode == SERVICE_CONTROL_SHUTDOWN || controlCode == SERVICE_CONTROL_STOP {
        ReportedStatusesAppend(context.trace, [OnStopCall]);
        context.OnStop();
        r := NO_ERROR;
      } else {
        r := ERROR_CALL_NOT_IMPLEMENTED;
      }
    }

    /** The service entry point: registers the control handler for the instance in the slot
        (the outcome of the registration is `registration`) and, if that succeeded, runs
        the lifecycle around Worker. */
    static method ServiceMain(slot: SelfSlot, registration: StatusHandle)
      requires slot.instance != null && slot.instance.Valid()
      modifies slot.instance
      ensures slot.instance.statusHandle == registration
      ensures registration == NullHandle ==>
                slot.instance.status == old(slot.instance.status) && slot.instance.trace == old(slot.instance.trace)
      ensures registration != NullHandle ==>
                slot.instance.trace == old(slot.instance.trace) + LifecycleEvents(registration, old(slot.instance.status))
      ensures registration != NullHandle ==>
                slot.instance.status == Reports(old(slot.instance.status), LifecycleStates)[3]
      ensures slot.instance.Valid()
    {
      var self := slot.instance;
      self.statusHandle := registration;
      if self.statusHandle == NullHandle {
        return;
      }

      ghost var start := self.status;
      ghost var before := self.trace;
      ghost var r := Reports(start, LifecycleStates);

      self.SetStatus(SERVICE_START_PENDING);
      self.SetStatus(SERVICE_RUNNING);

      ReportedStatusesAppend(self.trace, [WorkerCall]);
      self.Worker();

      self.SetStatus(SERVICE_STOP_PENDING);
      self.SetStatus(SERVICE_STOPPED);

      assert self.trace == before + LifecycleEvents(registration, start);
    }

    /** Runs the service control dispatcher, which reports whether it could be started. */
    method Run(dispatcherStarted: bool) returns (ok: bool)
      ensures ok == dispatcherStarted
    {
      if !dispatcherStarted {
        return false;
      }
      return true;
    }
  }

  /** A freshly constructed service whose registration succeeds submits START_PENDING (1),
      RUNNING (0), STOP_PENDING (1) and STOPPED (0) around one Worker call; one whose
      registration fails submits nothing. */
  method FreshServiceScenario(name: string, id: nat)
  {
    var slot := new SelfSlot();
    var s := new Service(name, slot);
    Service.ServiceMain(slot, Registered(id));
    FreshLifecycle(Registered(id));
    assert s.trace == LifecycleEvents(Registered(id), ZeroStatus);
    assert s.trace[2] == WorkerCall && s.trace[4].status.currentState == SERVICE_STOPPED;
    s.Destroy(slot);

    var slot' := new SelfSlot();
    var failed := new Service(name, slot');
    Service.ServiceMain(slot', NullHandle);
    assert failed.trace == [] && failed.status == ZeroStatus;
  }
}
