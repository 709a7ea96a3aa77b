/** The entities the slot workers, the pool and the service exchange. */
module Slots {

  datatype Option<+T> = None | Some(value: T)

  datatype Result<+T, +E> = Ok(value: T) | Err(error: E)

  datatype SlotState = Empty | Booting | Occupied | Failed

  datatype SlotStatus = SlotStatus(
    slot: nat,
    generation: nat,
    state: SlotState,
    name: Option<string>,
    mac: Option<string>,
    tap: Option<string>,
    pid: Option<nat>,
    startedAt: Option<string>,
    lastError: Option<string>)

  datatype PoolError =
    | InvalidTransition(slot: nat, from: SlotState, action: string)
    | SlotNotFound(slot: nat)
    | VmAlreadyRunning(name: string)
    | NoAvailableSlot
    | ChannelClosed
    | Backend(message: string)

  /** The commands a slot worker accepts; the response channel is modelled by tickets. */
  datatype Command =
    | ReserveVm(name: string, mac: string, tap: string)
    | MarkVmBooted(startedAt: string)
    | ReleaseVm
    | ResetVm
    | GetVmStatus

  type Reply = Result<SlotStatus, PoolError>

  datatype VmRuntime = VmRuntime(
    name: string,
    mac: string,
    tap: string,
    pid: nat,
    startedAt: string)

  /** The lenient conversion used when listing: anything incomplete is skipped. */
  function RuntimeFromSlotStatus(status: SlotStatus): Option<VmRuntime>
  {
    if !status.state.Occupied? then None
    else if status.name.None? || status.mac.None? || status.tap.None? || status.pid.None? || status.startedAt.None? then None
    else Some(VmRuntime(status.name.value, status.mac.value, status.tap.value, status.pid.value, status.startedAt.value))
  }

  /** The strict conversion used at the end of a create: the first missing part names the error. */
  function TryIntoRuntime(status: SlotStatus): Result<VmRuntime, PoolError>
  {
    if !status.state.Occupied? then Err(InvalidTransition(status.slot, status.state, "convert_runtime"))
    else if status.name.None? then Err(Backend("missing VM name"))
    else if status.mac.None? then Err(Backend("missing MAC address"))
    else if status.tap.None? then Err(Backend("missing tap device"))
    else if status.pid.None? then Err(Backend("missing pid"))
    else if status.startedAt.None? then Err(Backend("missing started_at"))
    else Ok(VmRuntime(status.name.value, status.mac.value, status.tap.value, status.pid.value, status.startedAt.value))
  }

  /** Both conversions give a runtime for exactly the same statuses, each part from the field of its name. */
  lemma ConversionsAgree(status: SlotStatus, runtime: VmRuntime)
    ensures RuntimeFromSlotStatus(status) == Some(runtime) <==> TryIntoRuntime(status) == Ok(runtime)
    ensures TryIntoRuntime(status) == Ok(runtime) <==>
              && status.state == Occupied
              && status.name == Some(runtime.name) && status.mac == Some(runtime.mac) && status.tap == Some(runtime.tap)
              && status.pid == Some(runtime.pid) && status.startedAt == Some(runtime.startedAt)
  {
  }
}
