# Aspia service wrapper — Dafny model

This project models `aspia::Service` from `base/service.cpp`, the wrapper that runs the
Aspia remote-desktop host as a Windows service:

- the `_self` slot (a static global in the code), filled by the constructor and emptied by the
  destructor;
- `ServiceMain`, the entry point the service control dispatcher calls. It registers the
  control handler. If that fails it returns at once. Otherwise it reports START_PENDING and
  RUNNING, calls the user's `Worker`, then reports STOP_PENDING and STOPPED;
- `SetStatus`, which overwrites the persistent `SERVICE_STATUS` record field by field and
  submits it. STOP and SHUTDOWN are offered only while RUNNING. The checkpoint goes up by one
  on every other state except STOPPED, and is reset to zero on RUNNING and STOPPED;
- the control handler, which answers INTERROGATE with NO_ERROR, forwards STOP and SHUTDOWN to
  `OnStop` and answers NO_ERROR, and answers every other code with ERROR_CALL_NOT_IMPLEMENTED;
- `Run`, which passes on the dispatcher's outcome, and the `ServiceName` accessor.

The service manager is abstract:
- The outcome of `RegisterServiceCtrlHandlerExW` is an input, `registration`, which is
  either `NullHandle` or a registered handle.
- The success of `StartServiceCtrlDispatcherW` is the input `dispatcherStarted` of `Run`.
- Every `SetServiceStatus` call, every `Worker` call and every `OnStop` call is appended to a
  ghost `trace` of events. A status submission is recorded with the handle it was sent with.
- `Service.Valid()` is the object invariant: the status record always equals the record last
  submitted, or the all-zero record before the first submission.

Files:
- `win32.dfy`, module `Win32`: the DWORD type, which is an int bounded to 32 bits; the
  `SERVICE_STATUS` record; the status handle; and the numeric values of the Windows SDK
  constants the wrapper uses. `++` on a DWORD is written out as a wrapping `Increment`.
- `service.dfy`, module `BaseService`: the status update as a function (`NextStatus`) and the
  `SetStatus` method proved against it; `Reports`, the records produced by a series of
  `SetStatus` calls; the control dispatch as a function (`ControlDispatch`); the classes
  `SelfSlot` and `Service`; the lemmas; and `FreshServiceScenario`, a client that builds a
  fresh service and runs `ServiceMain` with a successful and with a failed registration.

Points where the code's behaviour is narrower than one might expect, as modelled:
- The code has no lifecycle-state field and no "Uninitialized" state. The only state is the
  status record, and `SetStatus` accepts any DWORD. So "no backward transitions" is not an
  invariant of the class. It is a fact about the one sequence `ServiceMain` issues
  (`LifecycleShape`).
- `ServiceMain` returns nothing; a failed registration is visible only through the unchanged
  trace and record. `Run`'s result reflects only the dispatcher call.
- In the code the checkpoint is a DWORD, so it wraps to 0 after 0xFFFFFFFF. The model keeps
  the wrap. "Strictly increasing" is proved for runs that stay below the maximum.
- The code's control handler accepts calls before registration. The model does not forbid
  them either.

## Model

| member | source | states |
|---|---|---|
| Win32.Increment | base/service.cpp:108 | `++` on the DWORD checkpoint adds one below the maximum and wraps to 0 at 0xFFFFFFFF |
| BaseService.NextStatus | base/service.cpp:91-113 | the new record has the given state, type SERVICE_WIN32, both exit codes NO_ERROR and wait hint 0; it offers STOP and SHUTDOWN exactly when the state is RUNNING; its checkpoint is 0 on RUNNING and STOPPED and the previous checkpoint plus one (wrapping) otherwise |
| BaseService.NextStatusForgetsPrevious | base/service.cpp:93-98 | whatever the previous record held, only its checkpoint affects the new record |
| BaseService.Reports | base/service.cpp:91-116 | a series of SetStatus calls yields one record per call, and each record is the update of the record before it |
| BaseService.PendingCheckPointsCount | base/service.cpp:106-109 | over a run of reports that are neither RUNNING nor STOPPED, report i carries the starting checkpoint plus i+1, while the counter stays below 0xFFFFFFFF |
| BaseService.PendingCheckPointsIncrease | base/service.cpp:106-109 | so consecutive pending reports have strictly increasing checkpoints, while the counter stays below 0xFFFFFFFF |
| BaseService.ReportsAcceptControlsIffRunning | base/service.cpp:100-113 | in any series of reports, each report carries its own state, offers STOP and SHUTDOWN iff that state is RUNNING, and has checkpoint 0 on RUNNING or STOPPED |
| BaseService.ReportedStatusesAppend | base/service.cpp:115 | the submitted records of two consecutive stretches of activity are those of the first followed by those of the second |
| BaseService.LifecycleShape | base/service.cpp:81-87 | a successful ServiceMain submits exactly the four lifecycle records in order, all with the registered handle; Worker is called exactly once, between the RUNNING and the STOP_PENDING report |
| BaseService.FreshLifecycle | base/service.cpp:81-87 | starting from the zeroed record, the reports are START_PENDING with checkpoint 1, RUNNING with 0 and STOP and SHUTDOWN accepted, STOP_PENDING with 1, and STOPPED with 0 |
| BaseService.ControlDispatch | base/service.cpp:42-60 | INTERROGATE gives NO_ERROR without OnStop; STOP and SHUTDOWN give NO_ERROR with one OnStop call; every other code, PAUSE and CONTINUE among them, gives ERROR_CALL_NOT_IMPLEMENTED without OnStop; NO_ERROR exactly for those three codes |
| BaseService.SelfSlot.constructor | base/service.cpp:13 | the `_self` slot starts out null |
| BaseService.Service.constructor | base/service.cpp:16-25 | requires the slot to be empty; leaves it pointing at the new instance, with the given name, a null status handle, an all-zero record and no events |
| BaseService.Service.Destroy | base/service.cpp:28-31 | the destructor leaves the slot null |
| BaseService.Service.ServiceName | base/service.cpp:134-137 | returns the name given at construction |
| BaseService.Service.Worker | base/service.cpp:84 | the user's worker; its only visible effect is one Worker event |
| BaseService.Service.OnStop | base/service.cpp:52 | the user's stop request; its only visible effect is one OnStop event |
| BaseService.Service.SetStatus | base/service.cpp:91-116 | the record becomes NextStatus of the old record; exactly one submission of that record with the current handle is added to the trace; the invariant is kept |
| BaseService.Service.ServiceControlHandler | base/service.cpp:34-61 | returns ControlDispatch's code; adds one OnStop event exactly for STOP and SHUTDOWN and nothing otherwise; never changes the status record or the handle |
| BaseService.Service.ServiceMain | base/service.cpp:64-88 | requires the slot to be filled; stores the registration outcome as the handle; on a null handle changes neither the record nor the trace; otherwise appends the lifecycle events (four reports around one Worker call) and leaves the STOPPED record |
| BaseService.Service.Run | base/service.cpp:118-132 | returns true exactly when the service control dispatcher started |

## Left out

- `_self` is a `SelfSlot` object passed explicitly to the constructor, `Destroy` and `ServiceMain`,
  because Dafny has no mutable globals. The one-instance guarantee holds only for callers that
  share one slot; nothing stops a caller from allocating a second slot.
- The Win32 calls `RegisterServiceCtrlHandlerExW`, `SetServiceStatus`, `StartServiceCtrlDispatcherW`
  and `GetLastError` are foreign OS calls. They are modelled only as inputs and trace events.
  `SetServiceStatus`'s result is ignored by the code, so it has no error path here.
- `Run`'s service-table construction and the function-pointer casts are OS plumbing.
  `Run` does not call `ServiceMain` in the model. The dispatcher's own invocation of the entry
  point is not modelled.
- `LOG(ERROR)` output is logging and is not modelled.
- The bodies of `Worker` and `OnStop` are virtual and defined elsewhere. They appear here only
  as recorded calls.
- The control handler runs on a thread of the service manager, concurrently with `Worker`.
  Concurrency is not modelled: each handler call is a standalone sequential step.
- The ignored `argc`/`argv`, `event_type` and `event_data` parameters are not modelled.
- The `memset` of the record is modelled as "every field starts at 0".
- `DCHECK` is a debug-build assertion. Both `DCHECK`s are modelled as preconditions
  (the slot is empty at construction, and filled in `ServiceMain`).
- The control handler receives its context as an untyped pointer and casts it to `Service*`.
  The model passes a `Service` directly.
- The wrapper stores the status record in a `SERVICE_STATUS` struct. The model keeps the
  record as one value-typed field that `SetStatus` updates one field at a time.
