/**
 The slice of the Win32 service-control interface that the service wrapper
 uses: the 32-bit DWORD, the SERVICE_STATUS record, the status handle and the
 numeric values of the constants, as the Windows SDK headers define them.
 */
module Win32 {

  /** A DWORD is an unsigned 32-bit word. */
  type DWORD = x: int | 0 <= x < 0x1_0000_0000

  const MAX_DWORD: DWORD := 0xFFFF_FFFF

  /** `++` on a DWORD: wraps from MAX_DWORD to 0. */
  function Increment(x: DWORD): (r: DWORD)
    ensures x < MAX_DWORD ==> r == x + 1
    ensures x == MAX_DWORD ==> r == 0
  {
    (x + 1) % 0x1_0000_0000
  }

  /** Whether the single-bit `flag` is set in `mask`. */
  predicate HasFlag(mask: DWORD, flag: DWORD)
    requires flag > 0
  {
    (mask / flag) % 2 == 1
  }

  // Service types
  const SERVICE_WIN32_OWN_PROCESS: DWORD := 0x10
  const SERVICE_WIN32_SHARE_PROCESS: DWORD := 0x20
  // SERVICE_WIN32_OWN_PROCESS | SERVICE_WIN32_SHARE_PROCESS: the bits are disjoint, so | is +
  const SERVICE_WIN32: DWORD := SERVICE_WIN32_OWN_PROCESS + SERVICE_WIN32_SHARE_PROCESS

  // Current states
  const SERVICE_STOPPED: DWORD := 1
  const SERVICE_START_PENDING: DWORD := 2
  const SERVICE_STOP_PENDING: DWORD := 3
  const SERVICE_RUNNING: DWORD := 4

  // Controls-accepted flags
  const SERVICE_ACCEPT_STOP: DWORD := 0x1
  const SERVICE_ACCEPT_SHUTDOWN: DWORD := 0x4

  // Control codes
  const SERVICE_CONTROL_STOP: DWORD := 1
  const SERVICE_CONTROL_PAUSE: DWORD := 2
  const SERVICE_CONTROL_CONTINUE: DWORD := 3
  const SERVICE_CONTROL_INTERROGATE: DWORD := 4
  const SERVICE_CONTROL_SHUTDOWN: DWORD := 5

  // Error codes
  const NO_ERROR: DWORD := 0
  const ERROR_CALL_NOT_IMPLEMENTED: DWORD := 120

  /** The SERVICE_STATUS record, field for field. */
  datatype ServiceStatus = ServiceStatus(
    serviceType: DWORD,
    currentState: DWORD,
    controlsAccepted: DWORD,
    win32ExitCode: DWORD,
    serviceSpecificExitCode: DWORD,
    checkPoint: DWORD,
    waitHint: DWORD)

  /** A record whose every field is zero, as after a memset to 0. */
  const ZeroStatus := ServiceStatus(0, 0, 0, 0, 0, 0, 0)

  /** The SERVICE_STATUS_HANDLE the service manager hands out on registration. */
  datatype StatusHandle = NullHandle | Registered(id: nat)
}
