/**
 * The director: the main thread that opens, perhaps evacuates, and closes the office, and the
 * thread that collects reports of rejected tickets.
 */
module Director {
  import opened Tickets
  import opened SharedState

  datatype Pc =
    | ConfigLock | ConfigUnlock
    | OpenLock | SetOpen | OpenUnlock | OpenTurnstile | OpenGate
    | Working
    | Sweep(slot: nat) | Clear(slot: nat)
    | CloseTurnstile | CloseLock | SetClosed | CloseUnlock | CloseGate
    | Writing | StopThread
    | LastSweep(slot: nat) | LastClear(slot: nat)
    | Finished

  /** swept is history: a sweep over the table of petents has begun. */
  datatype Director = Director(pc: Pc, swept: bool)

  /** The collecting thread; running is the flag the main thread clears. */
  datatype Collector = Collector(running: bool, held: seq<Msg>, reports: seq<Msg>, stopped: bool)

  const TURNSTILE_TOKENS := 100

  /** The call of the main thread; lobby is building_max. */
  function CallOf(d: Director, lobby: nat): Call
  {
    match d.pc
    case ConfigLock | OpenLock | CloseLock => LockRecord
    case ConfigUnlock | OpenUnlock | CloseUnlock => UnlockRecord
    case SetOpen => SetOpened(true)
    case OpenTurnstile => SetTurnstile(TURNSTILE_TOKENS)
    case OpenGate => SetGate(lobby)
    case Clear(slot) => WritePid(slot, 0)
    case LastClear(slot) => WritePid(slot, 0)
    case CloseTurnstile => SetTurnstile(0)
    case SetClosed => SetOpened(false)
    case CloseGate => SetGate(0)
    case _ => NoCall
  }

  predicate CanStep(sh: Shared, d: Director)
  {
    d.pc != Finished && Possible(sh, CallOf(d, 0))
  }

  /** The next position; evacuate is the draw of the evacuation event. */
  function After(sh: Shared, d: Director, evacuate: bool): Director
  {
    match d.pc
    case ConfigLock => d.(pc := ConfigUnlock)
    case ConfigUnlock => d.(pc := OpenLock)
    case OpenLock => d.(pc := SetOpen)
    case SetOpen => d.(pc := OpenUnlock)
    case OpenUnlock => d.(pc := OpenTurnstile)
    case OpenTurnstile => d.(pc := OpenGate)
    case OpenGate => d.(pc := Working)
    case Working =>
      if evacuate then d.(pc := Sweep(0), swept := true) else d.(pc := CloseTurnstile)
    case Sweep(slot) =>
      d.(pc := if slot >= |sh.pids| then CloseTurnstile
               else if sh.pids[slot] != 0 then Clear(slot)
               else Sweep(slot + 1))
    case Clear(slot) => d.(pc := Sweep(slot + 1))
    case CloseTurnstile => d.(pc := CloseLock)
    case CloseLock => d.(pc := SetClosed)
    case SetClosed => d.(pc := CloseUnlock)
    case CloseUnlock => d.(pc := CloseGate)
    case CloseGate => d.(pc := Writing)
    case Writing => d.(pc := StopThread)
    case StopThread => d.(pc := LastSweep(0), swept := true)
    case LastSweep(slot) =>
      d.(pc := if slot >= |sh.pids| then Finished
               else if sh.pids[slot] != 0 then LastClear(slot)
               else LastSweep(slot + 1))
    case LastClear(slot) => d.(pc := LastSweep(slot + 1))
    case Finished => d
  }

  /** The collecting thread takes a report whenever it is free, running, and finds one. */
  function CollectorCall(sh: Shared, k: Collector): Call
  {
    if !k.stopped && k.held == [] && k.running && Has(sh, REPORT_QUEUE) then Receive(REPORT_QUEUE)
    else NoCall
  }

  /** It stores what it holds before it looks at the running flag again. */
  function AfterCollect(sh: Shared, k: Collector): Collector
  {
    if k.stopped then k
    else if k.held != [] then k.(reports := k.reports + k.held, held := [])
    else if !k.running then k.(stopped := true)
    else if Has(sh, REPORT_QUEUE) then k.(held := [Front(sh, REPORT_QUEUE)])
    else k
  }

  predicate HoldsLock(pc: Pc)
  {
    pc.ConfigUnlock? || pc.SetOpen? || pc.OpenUnlock? || pc.SetClosed? || pc.CloseUnlock?
  }

  /** The gate has not been opened yet. */
  predicate BeforeGate(pc: Pc)
  {
    pc.ConfigLock? || pc.ConfigUnlock? || pc.OpenLock? || pc.SetOpen? || pc.OpenUnlock? || pc.OpenTurnstile? || pc.OpenGate?
  }

  /** is_opened is set: exactly between SetOpen and SetClosed. */
  predicate FlagUp(pc: Pc)
  {
    || pc.OpenUnlock? || pc.OpenTurnstile? || pc.OpenGate? || pc.Working? || pc.Sweep? || pc.Clear?
    || pc.CloseTurnstile? || pc.CloseLock? || pc.SetClosed?
  }

  /** The gate has been closed for the day. */
  predicate AfterGate(pc: Pc)
  {
    pc.Writing? || pc.StopThread? || pc.LastSweep? || pc.LastClear? || pc.Finished?
  }
}
