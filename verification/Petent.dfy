/**
 * One petent: registration, the turnstile and the gate, the ticket machines, the clerks and
 * the way out, one step per system call or access to shared memory.
 */
module Petent {
  import opened Tickets
  import opened SharedState

  datatype RegPc = RegLock | RegScan(slot: nat) | RegWrite(slot: nat) | RegUnlock(entered: bool)

  datatype EntryPc = Arrive | AtTurnstile | PassTurnstile | PeekLock | PeekRead | PeekUnlock | AtGate

  datatype LinePc = Inside | JoinLine | SendRequest | AwaitTicket | GotTicket | LeaveLine

  datatype ClerkPc = Loop | AtQueue | SendTicket | AwaitClerk | LeaveQueue | Examine

  datatype ExitPc = ExitLock | ReadOpened | ReadLocked(wasOpened: bool) | ReleaseUnits | ExitUnlock

  /** What unlock_sem_building is followed by at its call sites. */
  datatype Then = Home | FreeTickets | FreeQueue

  datatype Pc =
    | NotStarted
    | Registering(reg: RegPc)
    | Entering(entry: EntryPc)
    | InLine(line: LinePc)
    | AtClerks(clerk: ClerkPc)
    | Leaving(exit: ExitPc, next: Then)
    | GiveBackTickets
    | GiveBackQueue
    | Gone

  /** The last three fields are history: whether a request is still unanswered, the queues that
      have answered, and whether building units were left behind. */
  datatype Petent = Petent(
    pid: int,
    faculty: int,
    people: nat,
    vip: bool,
    pc: Pc,
    tck: Ticket,
    queueIdx: int,
    sig2: bool,
    unanswered: bool,
    visits: seq<int>,
    abandoned: bool)

  /** get_queue_index: the office whose queue semaphore counts the waiting room, or -1. */
  function QueueIndex(f: int): int
  {
    if f == KM then KM
    else if f == PD then PD
    else if f == ML then ML
    else if f == SA then SA
    else if f == SC then SC
    else -1
  }

  function FirstRequest(p: Petent): Ticket
  {
    Ticket(MACHINE_QUEUE, p.pid, 0, p.faculty, MACHINE_QUEUE, NotNeeded, if p.vip then 1 else 0)
  }

  // ----- the next call -----

  /** The call p is about to make. */
  function CallOf(p: Petent): Call
  {
    match p.pc
    case Registering(reg) =>
      (match reg
       case RegLock => LockRecord
       case RegWrite(slot) => WritePid(slot, p.pid)
       case RegUnlock(_) => UnlockRecord
       case _ => NoCall)
    case Entering(entry) =>
      (match entry
       case AtTurnstile => PassIn
       case PassTurnstile => PassOut
       case PeekLock => LockRecord
       case PeekUnlock => UnlockRecord
       case AtGate => EnterGate(p.people)
       case _ => NoCall)
    case InLine(line) =>
      (match line
       case JoinLine => JoinMachines
       case SendRequest => Send(Msg(p.tck, p.tck))
       case AwaitTicket => Receive(p.pid)
       case LeaveLine => QuitMachines
       case _ => NoCall)
    case AtClerks(clerk) =>
      (match clerk
       case AtQueue => JoinQueue(p.queueIdx)
       case SendTicket => Send(Msg(p.tck, p.tck))
       case AwaitClerk => Receive(p.pid)
       case LeaveQueue => if p.vip then NoCall else QuitQueue(p.queueIdx)
       case _ => NoCall)
    case Leaving(exit, _) =>
      (match exit
       case ExitLock => LockRecord
       case ReleaseUnits => LeaveGate(p.people)
       case ExitUnlock => UnlockRecord
       case _ => NoCall)
    case GiveBackTickets => QuitMachines
    case GiveBackQueue => QuitQueue(p.queueIdx)
    case _ => NoCall
  }

  /** Can p move without waiting? */
  predicate CanStep(sh: Shared, p: Petent)
  {
    p.pc != Gone && Possible(sh, CallOf(p))
  }

  // ----- the position after it -----

  /** Where p stands after its call, given the shared state it saw. */
  function After(sh: Shared, p: Petent): Petent
    requires CanStep(sh, p)
  {
    match p.pc
    case NotStarted => p.(pc := Registering(RegLock))
    case Registering(reg) => p.(pc := Register(sh, reg))
    case Entering(entry) => p.(pc := Enter(p, entry))
    case InLine(line) => AfterLine(sh, p, line)
    case AtClerks(clerk) => AfterClerk(sh, p, clerk)
    case Leaving(exit, next) => p.(pc := Leave(sh, p, exit, next))
    case _ => p.(pc := Gone)
  }

  /** The scan for a free slot in the table of pids. */
  function Register(sh: Shared, reg: RegPc): Pc
  {
    match reg
    case RegLock => Registering(RegScan(0))
    case RegScan(slot) =>
      Registering(if slot >= |sh.pids| then RegUnlock(false)
                  else if sh.pids[slot] == 0 then RegWrite(slot)
                  else RegScan(slot + 1))
    case RegWrite(_) => Registering(RegUnlock(true))
    case RegUnlock(entered) => if entered then Entering(Arrive) else Gone
  }

  function Enter(p: Petent, entry: EntryPc): Pc
  {
    match entry
    case Arrive => if p.sig2 then Gone else Entering(AtTurnstile)
    case AtTurnstile => Entering(PassTurnstile)
    case PassTurnstile => Entering(PeekLock)
    case PeekLock => Entering(PeekRead)
    case PeekRead => Entering(PeekUnlock)
    case PeekUnlock => Entering(AtGate)
    case AtGate => InLine(Inside)
  }

  function AfterLine(sh: Shared, p: Petent, line: LinePc): Petent
    requires line == AwaitTicket ==> Has(sh, p.pid)
  {
    match line
    case Inside =>
      if p.sig2 then p.(pc := Leaving(ExitLock, Home))
      else p.(pc := InLine(JoinLine), tck := FirstRequest(p))
    case JoinLine => p.(pc := InLine(SendRequest))
    case SendRequest => AfterSend(p, InLine(AwaitTicket), FreeTickets)
    case AwaitTicket => Read(sh, p, InLine(GotTicket))
    case GotTicket =>
      p.(pc := if p.tck.ticketid == -1 then Leaving(ExitLock, FreeTickets) else InLine(LeaveLine))
    case LeaveLine => p.(pc := AtClerks(Loop))
  }

  function AfterClerk(sh: Shared, p: Petent, clerk: ClerkPc): Petent
    requires clerk == AwaitClerk ==> Has(sh, p.pid)
  {
    match clerk
    case Loop => Choose(p)
    case AtQueue => p.(pc := AtClerks(SendTicket))
    case SendTicket => AfterSend(p, AtClerks(AwaitClerk), FreeQueue)
    case AwaitClerk => Read(sh, p, AtClerks(LeaveQueue))
    case LeaveQueue => p.(pc := AtClerks(Examine))
    case Examine =>
      p.(pc := if p.tck.ticketid == -1 && p.tck.queueid != -1 then Leaving(ExitLock, Home) else AtClerks(Loop))
  }

  /** After msgsnd: wait for the answer, or leave when the type was refused. */
  function AfterSend(p: Petent, await: Pc, failed: Then): Petent
  {
    if p.tck.mtype > 0 then p.(pc := await, unanswered := true) else p.(pc := Leaving(ExitLock, failed))
  }

  function Read(sh: Shared, p: Petent, then': Pc): Petent
    requires Has(sh, p.pid)
  {
    p.(pc := then', unanswered := false, visits := p.visits + [p.tck.mtype], tck := Front(sh, p.pid).t)
  }

  /** Head of the clerk loop: done, called away, or off to the next queue. */
  function Choose(p: Petent): Petent
  {
    if p.tck.faculty == 0 then p.(pc := Leaving(ExitLock, Home))
    else if p.sig2 then p.(pc := Gone, abandoned := true)
    else
      var q := p.(tck := p.tck.(mtype := p.tck.queueid), queueIdx := QueueIndex(p.tck.faculty));
      if q.queueIdx == -1 then q.(pc := Leaving(ExitLock, Home))
      else q.(pc := AtClerks(if p.vip then SendTicket else AtQueue))
  }

  /** unlock_sem_building and what its callers do next. */
  function Leave(sh: Shared, p: Petent, exit: ExitPc, next: Then): Pc
  {
    match exit
    case ExitLock => Leaving(ReadOpened, next)
    case ReadOpened => Leaving(ReadLocked(sh.isOpened), next)
    case ReadLocked(wasOpened) =>
      Leaving(if wasOpened && !sh.isLocked then ReleaseUnits else ExitUnlock, next)
    case ReleaseUnits => Leaving(ExitUnlock, next)
    case ExitUnlock =>
      if next == FreeTickets then GiveBackTickets
      else if next == FreeQueue && !p.vip then GiveBackQueue
      else Gone
  }

  // ----- signals -----

  /** Where a signal breaks off the wait, and where the petent goes from there. */
  function Interrupted(pc: Pc): Pc
  {
    if pc == Entering(AtTurnstile) || pc == Entering(AtGate) then Gone
    else if pc == InLine(JoinLine) || pc == AtClerks(AtQueue) then Leaving(ExitLock, Home)
    else if pc == InLine(AwaitTicket) then Leaving(ExitLock, FreeTickets)
    else if pc == AtClerks(AwaitClerk) then Leaving(ExitLock, FreeQueue)
    else pc
  }

  /** SIGUSR2 or SIGINT arrives, perhaps while p sleeps in a system call. */
  function Signalled(p: Petent, asleep: bool): Petent
  {
    if p.pc == NotStarted || p.pc == Gone then p
    else p.(sig2 := true, pc := if asleep then Interrupted(p.pc) else p.pc)
  }

  // ----- what the position of a petent means -----

  /** Holds the lock of the shared record. */
  predicate HoldsLock(pc: Pc)
  {
    match pc
    case Registering(reg) => reg != RegLock
    case Entering(entry) => entry == PeekRead || entry == PeekUnlock
    case Leaving(exit, _) => exit != ExitLock
    case _ => false
  }

  /** Holds one of the places in front of the machines. */
  predicate HoldsTicketSlot(pc: Pc)
  {
    match pc
    case InLine(line) => line != Inside && line != JoinLine
    case Leaving(_, next) => next == FreeTickets
    case GiveBackTickets => true
    case _ => false
  }

  /** Has to give back a place in a waiting room, if it ever took one. */
  predicate InWaitingRoom(pc: Pc)
  {
    match pc
    case AtClerks(clerk) => clerk == SendTicket || clerk == AwaitClerk || clerk == LeaveQueue
    case Leaving(_, next) => next == FreeQueue
    case GiveBackQueue => true
    case _ => false
  }

  /** Holds a place in the waiting room of office f. */
  predicate HoldsQueueSlot(p: Petent, f: int)
  {
    !p.vip && p.queueIdx == f && InWaitingRoom(p.pc)
  }

  /** Has not (yet) come through the gate. */
  predicate Outside(pc: Pc) { pc.NotStarted? || pc.Registering? || pc.Entering? }

  /** In the building, its units neither given back nor forfeited. */
  predicate InBuilding(pc: Pc)
  {
    pc.InLine? || pc.AtClerks? || (pc.Leaving? && pc.exit != ExitUnlock)
  }

  /** Building units out because of p: those it occupies or left behind. */
  function Units(p: Petent): int
  {
    if InBuilding(p.pc) || p.abandoned then p.people else 0
  }

  /** The registration has put p's pid into the table. */
  predicate Registered(pc: Pc)
  {
    match pc
    case NotStarted => false
    case Registering(reg) => reg == RegUnlock(true)
    case _ => true
  }

  /** Waiting for the answer to a request. */
  predicate Waiting(pc: Pc) { pc == InLine(AwaitTicket) || pc == AtClerks(AwaitClerk) }

  predicate OnTheWayOut(pc: Pc)
  {
    pc.Leaving? || pc.GiveBackTickets? || pc.GiveBackQueue? || pc.Gone?
  }

  // ----- what p keeps about itself -----

  /** Control: who may have a request out, and which waiting room it sits in. */
  predicate PetentOk(p: Petent)
  {
    && p.pid > 26 && IsOffice(p.faculty) && 1 <= p.people <= 2
    && (p.abandoned ==> p.pc == Gone && p.sig2)
    && (Waiting(p.pc) ==> p.unanswered)
    && (p.unanswered ==> RequestOk(p.tck) && p.tck.requester == p.pid)
    && (p.unanswered && !Waiting(p.pc) ==> p.sig2 && OnTheWayOut(p.pc))
    && (p.pc == InLine(AwaitTicket) ==> p.tck.mtype == MACHINE_QUEUE)
    && (p.pc == AtClerks(AwaitClerk) ==> p.tck.mtype != MACHINE_QUEUE && (p.vip ==> IsPriority(p.tck.mtype)))
    && (p.pc == AtClerks(AtQueue) || p.pc == AtClerks(SendTicket) || p.pc == AtClerks(AwaitClerk) ==>
          p.queueIdx == p.tck.faculty)
    && (p.pc == AtClerks(AtQueue) || p.pc == GiveBackQueue ==> !p.vip)
    && (InWaitingRoom(p.pc) || p.pc == AtClerks(AtQueue) ==> IsOffice(p.queueIdx))
  }

  /** The visit so far, and what the petent has in hand. */
  predicate VisitOk(p: Petent)
  {
    && p.tck.ticketid >= -1
    && (p.visits != [] ==> Path(p.visits) && (p.vip ==> AllPriority(p.visits)))
    && (match p.pc
        case InLine(line) =>
          (match line
           case Inside => p.visits == [] && p.tck.ticketid == 0
           case GotTicket => OnTheWay(p)
           case LeaveLine => OnTheWay(p) && p.tck.ticketid != -1
           case _ => p.visits == [] && p.tck == FirstRequest(p))
        case AtClerks(clerk) =>
          && OnTheWay(p)
          && (clerk != LeaveQueue && clerk != Examine && p.tck.ticketid == -1 ==> p.tck.queueid == -1)
          && (clerk == AtQueue || clerk == SendTicket || clerk == AwaitClerk ==>
                p.tck.mtype == p.tck.queueid && p.tck.faculty != 0)
        case _ => Outside(p.pc) ==> p.visits == [] && p.tck.ticketid == 0)
  }

  /** Has an answer in hand, addressed to it, and a lawful journey behind it. */
  predicate OnTheWay(p: Petent)
  {
    p.visits != [] && p.tck.requester == p.pid && Journey(p.visits, p.tck, p.vip)
  }
}
