/**
 * What the processes share: the semaphore set, the shared record of the office, and the
 * message queue.  The logs of everything sent and taken are history of the model alone.
 */
module SharedState {
  import opened Tickets
  import opened Mailbox

  /** PETENT_COUNT and DYREKTOR_MAX_LOBBY. */
  datatype Config = Config(petentCount: nat, lobby: nat)

  datatype Shared = Shared(
    semlock: int,
    turnstile: int,       // the "opened" semaphore
    building: int,
    tickets: int,
    slots: seq<int>,      // queue semaphores of offices 1..5
    limits: seq<int>,     // KM, ML, PD, SC, SA1, SA2
    isOpened: bool,
    isLocked: bool,
    takenCount: int,
    pids: seq<int>,
    queue: seq<Msg>,
    sent: seq<Msg>,
    taken: seq<Msg>)

  const SA1 := 4
  const SA2 := 5

  /** Which limit counts the places of an office other than SA. */
  function LimitIndex(f: int): (i: nat)
    ensures i < 4
  {
    if f == KM then 0 else if f == ML then 1 else if f == PD then 2 else 3
  }

  /** Places left at an office; the two SA limits together are SA's. */
  function OfficeLimit(limits: seq<int>, f: int): int
    requires |limits| == 6
  {
    if f == SA then limits[SA1] + limits[SA2] else limits[LimitIndex(f)]
  }

  function QueueCapacity(f: int): int { if f == SA then 2 else 1 }

  const TICKET_MACHINES := 3

  /** SA's share after its rounding is aligned with the other four. */
  function SaMax(p: nat): int
  {
    var share := p * 60 / 100;
    share + (p - share - 4 * (p * 10 / 100))
  }

  function InitialLimits(p: nat): (limits: seq<int>)
    ensures |limits| == 6
  {
    var tenth := p * 10 / 100;
    var half := SaMax(p) / 2;
    [tenth, tenth, tenth, tenth, half, p - half]
  }

  function InitialShared(c: Config): Shared
  {
    Shared(1, 0, 0, TICKET_MACHINES, [1, 1, 1, 1, 2], InitialLimits(c.petentCount),
           false, false, 0, seq(c.petentCount, i => 0), [], [], [])
  }

  // ----- the atomic accesses -----

  /** One semop, semctl(SETVAL), msgsnd, msgrcv or write to the shared record.  Reads leave the
      shared state alone and are NoCall. */
  datatype Call =
    | NoCall
    | LockRecord | UnlockRecord
    | PassIn | PassOut | SetTurnstile(tokens: nat)
    | EnterGate(people: nat) | LeaveGate(people: nat) | SetGate(units: nat)
    | JoinMachines | QuitMachines
    | JoinQueue(f: int) | QuitQueue(f: int)
    | TakePlace(limit: nat)
    | Send(m: Msg) | Receive(ty: int)
    | WritePid(slot: nat, pid: int)
    | SetOpened(flag: bool) | SetLocked
    | WriteCount(n: nat)

  predicate Has(sh: Shared, ty: int) { FirstOf(sh.queue, ty) < |sh.queue| }

  function Front(sh: Shared, ty: int): Msg
    requires Has(sh, ty)
  {
    sh.queue[FirstOf(sh.queue, ty)]
  }

  /** The shapes and signs of the shared state. */
  predicate WellFormed(sh: Shared)
  {
    && |sh.slots| == 5 && |sh.limits| == 6
    && sh.semlock >= 0 && sh.turnstile >= 0 && sh.building >= 0 && sh.tickets >= 0 && sh.takenCount >= 0
    && (forall k :: 0 <= k < 5 ==> sh.slots[k] >= 0)
    && (forall k :: 0 <= k < 6 ==> sh.limits[k] >= 0)
  }

  /** A call that would block, or has no meaning, is not possible: POSIX.1-2017, System
      Interfaces, semop() lets no semaphore fall below 0. */
  predicate Possible(sh: Shared, call: Call)
  {
    match call
    case LockRecord => sh.semlock >= 1
    case PassIn => sh.turnstile >= 1
    case EnterGate(people) => sh.building >= people
    case JoinMachines => sh.tickets >= 1
    case JoinQueue(f) => 1 <= f <= |sh.slots| && sh.slots[f - 1] >= 1
    case QuitQueue(f) => 1 <= f <= |sh.slots|
    case TakePlace(limit) => limit < |sh.limits| && sh.limits[limit] >= 1
    case Receive(ty) => Has(sh, ty)
    case WritePid(slot, _) => slot < |sh.pids|
    case _ => true
  }

  /** msgsnd on a queue without size limits is refused exactly when the type is not positive. */
  function Perform(sh: Shared, call: Call): Shared
    requires Possible(sh, call)
  {
    match call
    case NoCall => sh
    case LockRecord => sh.(semlock := sh.semlock - 1)
    case UnlockRecord => sh.(semlock := sh.semlock + 1)
    case PassIn => sh.(turnstile := sh.turnstile - 1)
    case PassOut => sh.(turnstile := sh.turnstile + 1)
    case SetTurnstile(tokens) => sh.(turnstile := tokens)
    case EnterGate(people) => sh.(building := sh.building - people)
    case LeaveGate(people) => sh.(building := sh.building + people)
    case SetGate(units) => sh.(building := units)
    case JoinMachines => sh.(tickets := sh.tickets - 1)
    case QuitMachines => sh.(tickets := sh.tickets + 1)
    case JoinQueue(f) => sh.(slots := sh.slots[f - 1 := sh.slots[f - 1] - 1])
    case QuitQueue(f) => sh.(slots := sh.slots[f - 1 := sh.slots[f - 1] + 1])
    case TakePlace(limit) => sh.(limits := sh.limits[limit := sh.limits[limit] - 1])
    case Send(m) =>
      if m.t.mtype > 0 then sh.(queue := sh.queue + [m], sent := sh.sent + [m]) else sh
    case Receive(ty) =>
      sh.(queue := Without(sh.queue, FirstOf(sh.queue, ty)), taken := sh.taken + [Front(sh, ty)])
    case WritePid(slot, pid) => sh.(pids := sh.pids[slot := pid])
    case SetOpened(flag) => sh.(isOpened := flag)
    case SetLocked => sh.(isLocked := true)
    case WriteCount(n) => sh.(takenCount := n)
  }

  lemma PerformWellFormed(sh: Shared, call: Call)
    requires WellFormed(sh) && Possible(sh, call)
    ensures WellFormed(Perform(sh, call))
  {
  }

  predicate AllZero(limits: seq<int>)
  {
    |limits| == 6 && forall k :: 0 <= k < 6 ==> limits[k] == 0
  }

  /** The split of the day's places: SA's two limits make up the whole count P, although the
      aligned share of SA, of which the first clerk's is half, is only what the other four offices
      leave of P. */
  lemma LimitSplit(p: nat)
    ensures var l := InitialLimits(p);
      && (forall k :: 0 <= k < 6 ==> l[k] >= 0)
      && SaMax(p) + 4 * (p * 10 / 100) == p
      && OfficeLimit(l, SA) == p && l[SA1] == (p - 4 * (p * 10 / 100)) / 2
      && OfficeLimit(l, SC) == OfficeLimit(l, KM) == OfficeLimit(l, ML) == OfficeLimit(l, PD) == p * 10 / 100
  {
  }

  /** With at least one petent planned for, some limit starts above 0. */
  lemma SomePlaceAtFirst(p: nat)
    requires p >= 1
    ensures !AllZero(InitialLimits(p))
  {
    LimitSplit(p);
  }
}
