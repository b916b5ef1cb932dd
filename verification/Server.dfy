/**
 * The processes that serve petents: ticket machines (desk 0) and clerks (desks 1 to 6, the
 * cashier being 6), one step per system call or access to shared memory.  Both end a service
 * the same way: number the ticket, answer, report a rejection, check whether to lock the gate.
 */
module Server {
  import opened Tickets
  import opened Mailbox
  import opened SharedState

  const MACHINE := 0

  /** Re-reading is_opened; active tells a machine that is switched on. */
  datatype FreshPc = FreshLock | FreshRead | FreshUnlock(sawOpen: bool)

  datatype ServePc =
    | GrantLock | FirstTry | SecondTry(idx: nat) | GrantUnlock   // a machine
    | Decide | NumLock | NumUnlock                               // a clerk
    | Load | Store(loaded: nat) | Reply | Report                 // both

  /** The look at the six limits, in any order: C leaves it open. */
  datatype CheckPc =
    | CheckLock | CheckFlag
    | Reading(wasLocked: bool, read: set<nat>, total: int)
    | RaiseLock | CloseGate | CheckUnlock

  datatype DrainPc = DrainPoll | DrainReport | DrainReply

  datatype Pc =
    | Waiting | PassTurnstile
    | Fresh(at: FreshPc, active: bool)
    | Poll | PollNormal
    | Serving(serve: ServePc)
    | Checking(check: CheckPc)
    | Draining(drain: DrainPc, urgent: bool)
    | Stopped

  /** req is the request as received, tck the ticket being rewritten; mark is history: how much
      had been sent when the last look at the priority queue found nothing. */
  datatype Server = Server(
    desk: int,
    pc: Pc,
    req: Ticket,
    tck: Ticket,
    priority: bool,
    mark: nat)

  /** What rand(), the arrival of SIGUSR1, a machine's threshold and the order of the six reads
      may decide. */
  datatype Chance = Chance(
    redirect: bool,
    pick: int,
    pay: bool,
    second: bool,
    signalled: bool,
    toggle: bool,
    next: nat)

  const ALL_LIMITS: set<nat> := {0, 1, 2, 3, 4, 5}

  /** The queue a server is about to take from. */
  function PollQueue(sv: Server): int
  {
    if sv.desk == MACHINE then MACHINE_QUEUE
    else DeskQueue(sv.desk, sv.pc == Poll || (sv.pc.Draining? && sv.pc.urgent))
  }

  /** The limit a machine tries first. */
  function FirstPlace(f: int, second: bool): (i: nat)
    ensures i < 6
  {
    if f != SA then LimitIndex(f) else if second then SA1 else SA2
  }

  function PickOffice(pick: int): (f: int)
    ensures SC <= f <= PD
  {
    if pick == 0 then KM else if pick == 1 then ML else if pick == 2 then PD else SC
  }

  // ----- the next call -----

  /** The call sv is about to make; a receive or a decrement that would not succeed at once
      (IPC_NOWAIT) leaves the shared state alone. */
  function CallOf(sh: Shared, sv: Server, c: Chance): Call
    requires WellFormed(sh)
  {
    match sv.pc
    case Waiting => PassIn
    case PassTurnstile => PassOut
    case Fresh(at, _) =>
      (match at
       case FreshLock => if sv.desk != MACHINE && c.signalled then NoCall else LockRecord
       case FreshRead => NoCall
       case FreshUnlock(_) => UnlockRecord)
    case Poll | PollNormal => TryReceive(sh, PollQueue(sv))
    case Serving(serve) => ServeCall(sh, sv, c, serve)
    case Checking(check) =>
      (match check
       case CheckLock => LockRecord
       case RaiseLock => SetLocked
       case CloseGate => SetGate(0)
       case CheckUnlock => UnlockRecord
       case _ => NoCall)
    case Draining(drain, _) =>
      (match drain
       case DrainPoll => TryReceive(sh, PollQueue(sv))
       case DrainReport => Send(Msg(Rejection(sv), sv.req))
       case DrainReply => Send(Msg(Dismissal(sv), sv.req)))
    case Stopped => NoCall
  }

  function ServeCall(sh: Shared, sv: Server, c: Chance, serve: ServePc): Call
    requires WellFormed(sh)
  {
    match serve
    case GrantLock | NumLock => LockRecord
    case GrantUnlock | NumUnlock => UnlockRecord
    case FirstTry =>
      if IsOffice(sv.tck.faculty) then TryLimit(sh, FirstPlace(sv.tck.faculty, c.second)) else NoCall
    case SecondTry(idx) => TryLimit(sh, idx)
    case Decide =>
      if sv.desk == SA && c.redirect then TryLimit(sh, LimitIndex(PickOffice(c.pick))) else NoCall
    case Load => NoCall
    case Store(loaded) => WriteCount(loaded + 1)
    case Reply => Send(Msg(Answer(sv), sv.req))
    case Report => Send(Msg(Rejection(sv), sv.req))
  }

  function TryReceive(sh: Shared, ty: int): Call
  {
    if Has(sh, ty) then Receive(ty) else NoCall
  }

  predicate PlaceLeft(sh: Shared, idx: nat)
    requires WellFormed(sh)
  {
    idx < 6 && sh.limits[idx] >= 1
  }

  function TryLimit(sh: Shared, idx: nat): Call
    requires WellFormed(sh)
  {
    if PlaceLeft(sh, idx) then TakePlace(idx) else NoCall
  }

  predicate CanStep(sh: Shared, sv: Server, c: Chance)
    requires WellFormed(sh)
  {
    && sv.pc != Stopped
    && Possible(sh, CallOf(sh, sv, c))
    && (sv.pc.Checking? && sv.pc.check.Reading? && sv.pc.check.read != ALL_LIMITS ==>
          c.next in ALL_LIMITS && c.next !in sv.pc.check.read)
  }

  // ----- the position after it -----

  /** Where sv stands after the call, given the shared state it saw. */
  function After(sh: Shared, sv: Server, c: Chance): Server
    requires WellFormed(sh) && CanStep(sh, sv, c)
  {
    match sv.pc
    case Waiting => sv.(pc := PassTurnstile)
    case PassTurnstile => sv.(pc := Fresh(FreshLock, false))
    case Fresh(at, active) => sv.(pc := AfterFresh(sh, sv, c, at, active))
    case Poll =>
      if Has(sh, PollQueue(sv)) then Took(sh, sv, Serving(if sv.desk == MACHINE then GrantLock else Decide), true)
      else if sv.desk == MACHINE then sv.(pc := Checking(CheckLock))
      else sv.(pc := PollNormal, mark := |sh.sent|)
    case PollNormal =>
      if Has(sh, PollQueue(sv)) then Took(sh, sv, Serving(Decide), false)
      else sv.(pc := Fresh(FreshLock, true))
    case Serving(serve) => AfterServe(sh, sv, c, serve)
    case Checking(check) => sv.(pc := AfterCheck(sh, c, check))
    case Draining(drain, urgent) =>
      (match drain
       case DrainPoll =>
         if Has(sh, PollQueue(sv)) then Took(sh, sv, Draining(DrainReport, urgent), urgent)
         else sv.(pc := if urgent then Draining(DrainPoll, false) else Stopped)
       case DrainReport => sv.(pc := Draining(DrainReply, urgent))
       case DrainReply => sv.(pc := Draining(DrainPoll, urgent)))
    case Stopped => sv
  }

  /** Is the office still open, has SIGUSR1 come, is a machine switched on or off? */
  function AfterFresh(sh: Shared, sv: Server, c: Chance, at: FreshPc, active: bool): Pc
  {
    match at
    case FreshLock =>
      if sv.desk != MACHINE && c.signalled then Draining(DrainPoll, true) else Fresh(FreshRead, active)
    case FreshRead => Fresh(FreshUnlock(sh.isOpened), active)
    case FreshUnlock(sawOpen) =>
      if sv.desk == MACHINE then
        if !sawOpen then Stopped
        else if c.toggle then Fresh(FreshLock, !active)
        else if active then Poll
        else Fresh(FreshLock, false)
      else if !sawOpen || c.signalled then Draining(DrainPoll, true)
      else Poll
  }

  function AfterServe(sh: Shared, sv: Server, c: Chance, serve: ServePc): Server
    requires WellFormed(sh)
  {
    match serve
    case GrantLock => sv.(pc := Serving(FirstTry))
    // only SA has a second limit to fall back on
    case FirstTry =>
      var idx := FirstPlace(sv.tck.faculty, c.second);
      if !IsOffice(sv.tck.faculty) || PlaceLeft(sh, idx) then sv.(pc := Serving(Load))
      else if sv.tck.faculty == SA then sv.(pc := Serving(SecondTry(if idx == SA1 then SA2 else SA1)))
      else sv.(pc := Serving(Reply), tck := sv.tck.(ticketid := -1))
    case SecondTry(idx) =>
      if PlaceLeft(sh, idx) then sv.(pc := Serving(Load))
      else sv.(pc := Serving(Reply), tck := sv.tck.(ticketid := -1))
    case GrantUnlock => sv.(pc := Checking(CheckLock))
    case Decide =>
      var t := Routed(sv.tck, sv.desk, sv.priority, c, PlaceLeft(sh, LimitIndex(PickOffice(c.pick))));
      sv.(pc := Serving(if t.ticketid != -1 then NumLock else Reply), tck := t)
    case NumLock => sv.(pc := Serving(Load))
    case NumUnlock => sv.(pc := Serving(Reply))
    case Load => sv.(pc := Serving(if sh.takenCount >= 0 then Store(sh.takenCount) else Load))
    case Store(loaded) =>
      sv.(pc := Serving(if sv.desk == MACHINE then Reply else NumUnlock), tck := sv.tck.(ticketid := loaded + 1))
    case Reply =>
      sv.(pc := if sv.tck.ticketid == -1 then Serving(Report) else AfterAnswer(sv.desk), tck := Answer(sv))
    case Report => sv.(pc := AfterAnswer(sv.desk))
  }

  function AfterAnswer(desk: int): Pc
  {
    if desk == MACHINE then Serving(GrantUnlock) else Checking(CheckLock)
  }

  function AfterCheck(sh: Shared, c: Chance, check: CheckPc): Pc
    requires WellFormed(sh)
    requires check.Reading? && check.read != ALL_LIMITS ==> c.next in ALL_LIMITS
  {
    match check
    case CheckLock => Checking(CheckFlag)
    case CheckFlag => Checking(Reading(sh.isLocked, {}, 0))
    case Reading(wasLocked, read, total) =>
      Checking(if read != ALL_LIMITS then Reading(wasLocked, read + {c.next}, total + sh.limits[c.next])
               else if total == 0 && !wasLocked then RaiseLock
               else CheckUnlock)
    case RaiseLock => Checking(CloseGate)
    case CloseGate => Checking(CheckUnlock)
    case CheckUnlock => Fresh(FreshLock, true)
  }

  function Took(sh: Shared, sv: Server, next: Pc, priority: bool): Server
    requires Has(sh, PollQueue(sv))
  {
    var t := Front(sh, PollQueue(sv)).t;
    sv.(pc := next, req := t, tck := t, priority := priority)
  }

  // ----- the tickets a server writes -----

  /** The ticket as the clerk rewrites it with its draws; place tells whether the semop on the
      drawn office's limit succeeded. */
  function Routed(t: Ticket, desk: int, priority: bool, c: Chance, place: bool): Ticket
  {
    if desk == SA && c.redirect then
      var office := PickOffice(c.pick);
      if place then t.(faculty := office, redirectedFrom := SA, queueid := DeskQueue(office, priority))
      else t.(faculty := office, redirectedFrom := t.faculty, ticketid := -1, queueid := 0)
    else if desk != SA && desk != CASHIER && t.payment == NotNeeded && c.pay then
      t.(payment := Needed, redirectedFrom := t.faculty, queueid := DeskQueue(CASHIER, priority))
    else if desk == CASHIER then
      t.(payment := Paid, faculty := t.redirectedFrom, queueid := DeskQueue(t.redirectedFrom, true))
    else t.(faculty := 0, queueid := 0)
  }

  /** The ticket as it goes back to the petent. */
  function Answer(sv: Server): Ticket
  {
    var t := sv.tck.(mtype := sv.tck.requester);
    if sv.desk == MACHINE then t.(queueid := DeskQueue(t.faculty, t.redirectedFrom == 1)) else t
  }

  /** The report of a rejection, with the number and faculty the ticket came with. */
  function Rejection(sv: Server): Ticket
  {
    sv.tck.(mtype := REPORT_QUEUE, ticketid := sv.req.ticketid, faculty := sv.req.faculty,
            queueid := if sv.desk == MACHINE then 1 else sv.desk)
  }

  /** The answer of a closing desk. */
  function Dismissal(sv: Server): Ticket
  {
    sv.tck.(mtype := sv.tck.requester, ticketid := -1, queueid := -1)
  }

  // ----- what the position of a server means -----

  /** Holds the lock of the shared record: a machine from grant to report, a clerk only while
      numbering, both while they look at flags and limits. */
  predicate HoldsLock(sv: Server)
  {
    match sv.pc
    case Fresh(at, _) => at != FreshLock
    case Serving(serve) =>
      || serve.FirstTry? || serve.SecondTry? || serve.GrantUnlock? || serve.NumUnlock? || serve.Load? || serve.Store?
      || (sv.desk == MACHINE && (serve.Reply? || serve.Report?))
    case Checking(check) => check != CheckLock
    case _ => false
  }

  /** Has a petent's request in hand and has not answered it. */
  predicate Carrying(pc: Pc)
  {
    match pc
    case Serving(serve) => serve != Report && serve != GrantUnlock
    case Draining(drain, _) => drain != DrainPoll
    case _ => false
  }

  /** Has decided and not yet handed out the ticket. */
  predicate Deciding(pc: Pc)
  {
    pc.Serving? && (pc.serve.Load? || pc.serve.Store? || pc.serve.NumLock? || pc.serve.NumUnlock? || pc.serve.Reply?)
  }

  /** The request in hand was for this desk. */
  predicate AtItsDesk(sv: Server)
  {
    && RequestOk(sv.req)
    && sv.tck.requester == sv.req.requester
    && sv.req.mtype == (if sv.desk == MACHINE then MACHINE_QUEUE else DeskQueue(sv.desk, sv.priority))
  }

  /** What holds of one server in every state. */
  predicate ServerOk(sv: Server)
  {
    && 0 <= sv.desk <= 6
    && (match sv.pc
        case Serving(serve) => (serve != GrantUnlock ==> AtItsDesk(sv)) && ServingOk(sv, serve)
        case PollNormal => sv.desk != MACHINE
        case Draining(drain, urgent) =>
          && sv.desk != MACHINE
          && (drain != DrainPoll ==> AtItsDesk(sv) && sv.tck == sv.req && sv.priority == urgent)
        case Checking(check) => check.Reading? ==> check.read <= ALL_LIMITS
        case _ => true)
  }

  predicate ServingOk(sv: Server, serve: ServePc)
  {
    match serve
    case GrantLock | FirstTry => sv.desk == MACHINE && sv.tck == sv.req
    case SecondTry(idx) => sv.desk == MACHINE && sv.tck == sv.req && sv.req.faculty == SA && SA1 <= idx <= SA2
    case GrantUnlock => sv.desk == MACHINE
    case Decide => sv.desk != MACHINE && sv.tck == sv.req
    case NumLock => sv.desk != MACHINE && Unnumbered(sv)
    case Load => Unnumbered(sv)
    case Store(loaded) => Unnumbered(sv)
    case NumUnlock => sv.desk != MACHINE && AnswerOk(sv.req, Answer(sv)) && sv.tck.ticketid >= 1
    case Reply => AnswerOk(sv.req, Answer(sv))
    case Report => sv.tck.payment == sv.req.payment
  }

  /** Rewritten but still under the number it came with. */
  predicate Unnumbered(sv: Server)
  {
    && sv.tck.ticketid == sv.req.ticketid >= 0
    && Granted(sv.req, Answer(sv))
    && (sv.desk == MACHINE ==> sv.tck == sv.req)
  }
}
