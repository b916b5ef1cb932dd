/**
 * Conservation laws of the protocol as accounts.  What the shared state holds of an account,
 * plus what each process holds, is the same in every state: every call moves as much into the
 * shared part as it takes from the process that makes it, and the other way round.
 */
module Ledger {
  import opened Tally
  import opened Tickets
  import opened Mailbox
  import opened SharedState
  import opened Interference
  import opened Office
  import P = Petent
  import S = Server
  import D = Director

  /** Which requests an account of requests counts. */
  datatype Pattern =
    | ByPid(pid: int)
    | ByRequest(r: Ticket)
    | ByNormalQueue(f: int)   // to any normal desk queue, for a ticket of office f

  datatype Account =
    | Lock                             // the lock of the shared record
    | TicketSlots                      // places in front of the machines
    | QueueSlots(f: int)               // places in the waiting room of office f
    | Requests(pat: Pattern)           // requests on their way to an answer
    | Numbers(n: int)                  // ticket number n
    | Places(f: int)                   // places of office f for the day
    | Rejections(pid: int, id: int)    // denials of petent pid under number id
    | Refusals(pid: int)               // denials that petent pid has read

  predicate Matches(r: Ticket, pat: Pattern)
  {
    match pat
    case ByPid(pid) => r.requester == pid
    case ByRequest(q) => r == q
    case ByNormalQueue(f) => 11 <= r.mtype <= 16 && r.faculty == f
  }

  function Bit(b: bool): int { if b then 1 else 0 }

  // ----- what messages count for -----

  /** A request, or the answer to one, as opposed to a report. */
  predicate IsToken(m: Msg, pat: Pattern)
  {
    m.t.mtype != REPORT_QUEUE && Matches(m.origin, pat)
  }

  predicate HandsOutNumber(m: Msg, n: int) { m.t.mtype > 26 && m.t.ticketid == n >= 1 }

  /** A machine's answer with a ticket for office f. */
  predicate IsMachineGrant(m: Msg, f: int)
  {
    && m.t.mtype > 26 && m.t.ticketid >= 1 && m.t.faculty == f && IsOffice(f)
    && m.origin.mtype == MACHINE_QUEUE
  }

  /** SA's answer with a ticket for office f. */
  predicate IsRedirect(m: Msg, f: int)
  {
    && m.t.mtype > 26 && m.t.ticketid >= 1 && m.t.faculty == f && IsOffice(f)
    && DeskOf(m.origin.mtype) == SA
  }

  predicate IsDenial(m: Msg, pid: int, id: int)
  {
    m.t.mtype > 26 && m.t.ticketid == -1 && m.t.requester == pid && m.origin.ticketid == id
  }

  /** A denial addressed to pid, whatever its number. */
  predicate Refuses(m: Msg, pid: int)
  {
    m.t.mtype > 26 && m.t.ticketid == -1 && m.t.requester == pid
  }

  predicate IsReport(m: Msg, pid: int, id: int)
  {
    m.t.mtype == REPORT_QUEUE && m.t.requester == pid && m.t.ticketid == id
  }

  ghost function Tokens(pat: Pattern): Msg -> int { m => Bit(IsToken(m, pat)) }
  ghost function NumberCount(n: int): Msg -> int { m => Bit(HandsOutNumber(m, n)) }
  ghost function MachineGrants(f: int): Msg -> int { m => Bit(IsMachineGrant(m, f)) }
  ghost function Redirects(f: int): Msg -> int { m => Bit(IsRedirect(m, f)) }
  ghost function Denials(pid: int, id: int): Msg -> int { m => Bit(IsDenial(m, pid, id)) }
  ghost function DenialsTo(pid: int): Msg -> int { m => Bit(Refuses(m, pid)) }
  ghost function Reports(pid: int, id: int): Msg -> int { m => Bit(IsReport(m, pid, id)) }

  // ----- what each part of the state holds -----

  ghost function SharedPart(sh: Shared, a: Account): int
    requires WellFormed(sh)
  {
    match a
    case Lock => sh.semlock
    case TicketSlots => sh.tickets
    case QueueSlots(f) => if IsOffice(f) then sh.slots[f - 1] else 0
    case Requests(pat) => Sum(sh.queue, Tokens(pat))
    case Numbers(n) => Sum(sh.sent, NumberCount(n)) - Bit(1 <= n <= sh.takenCount)
    case Places(f) =>
      (if IsOffice(f) then OfficeLimit(sh.limits, f) else 0)
      + Sum(sh.sent, MachineGrants(f)) + Sum(sh.sent, Redirects(f))
    case Rejections(pid, id) => Sum(sh.sent, Denials(pid, id)) - Sum(sh.sent, Reports(pid, id))
    case Refusals(pid) => Sum(sh.sent, DenialsTo(pid)) - Sum(sh.queue, DenialsTo(pid))
  }

  /** Has been told that it will not be served. */
  predicate Dismissed(p: P.Petent) { p.tck.ticketid == -1 && !p.unanswered }

  function PetentPart(p: P.Petent, a: Account): int
  {
    match a
    case Lock => Bit(P.HoldsLock(p.pc))
    case TicketSlots => Bit(P.HoldsTicketSlot(p.pc))
    case QueueSlots(f) => Bit(P.HoldsQueueSlot(p, f) && IsOffice(f))
    case Requests(pat) => -Bit(p.unanswered && Matches(p.tck, pat))
    case Refusals(pid) => -Bit(p.pid == pid && Dismissed(p))
    case _ => 0
  }

  /** A ticket for a place already taken but not yet handed out. */
  predicate PlaceInHand(sv: S.Server, f: int)
  {
    && S.Deciding(sv.pc) && sv.tck.ticketid != -1 && sv.tck.faculty == f && IsOffice(f)
    && (sv.desk == S.MACHINE || sv.desk == SA)
  }

  predicate NumberInHand(sv: S.Server, n: int)
  {
    (sv.pc == S.Serving(S.NumUnlock) || sv.pc == S.Serving(S.Reply)) && sv.tck.ticketid == n >= 1
  }

  function ServerPart(sv: S.Server, a: Account): int
  {
    match a
    case Lock => Bit(S.HoldsLock(sv))
    case Requests(pat) => Bit(S.Carrying(sv.pc) && Matches(sv.req, pat))
    case Numbers(n) => Bit(NumberInHand(sv, n))
    case Places(f) => Bit(PlaceInHand(sv, f))
    case Rejections(pid, id) =>
      if sv.req.requester != pid || sv.req.ticketid != id then 0
      else if sv.pc == S.Serving(S.Report) then -1
      else if sv.pc.Draining? && sv.pc.drain == S.DrainReply then 1
      else 0
    case _ => 0
  }

  function DirectorPart(d: D.Director, a: Account): int
  {
    if a == Lock then Bit(D.HoldsLock(d.pc)) else 0
  }

  ghost function PetentParts(a: Account): P.Petent -> int { p => PetentPart(p, a) }
  ghost function ServerParts(a: Account): S.Server -> int { sv => ServerPart(sv, a) }

  ghost function Balance(s: State, a: Account): int
    requires WellFormed(s.sh)
  {
    SharedPart(s.sh, a) + Sum(s.petents, PetentParts(a)) + Sum(s.servers, ServerParts(a))
    + DirectorPart(s.director, a)
  }

  /** What every account stands at from beginning to end. */
  function Opening(a: Account, c: Config): int
  {
    match a
    case Lock => 1
    case TicketSlots => TICKET_MACHINES
    case QueueSlots(f) => if IsOffice(f) then QueueCapacity(f) else 0
    case Places(f) => if IsOffice(f) then OfficeLimit(InitialLimits(c.petentCount), f) else 0
    case _ => 0
  }

  // ----- how a call moves the shared part -----

  function Delta(sh: Shared, call: Call, a: Account): int
    requires WellFormed(sh) && Possible(sh, call)
  {
    match a
    case Lock => if call == LockRecord then -1 else if call == UnlockRecord then 1 else 0
    case TicketSlots => if call == JoinMachines then -1 else if call == QuitMachines then 1 else 0
    case QueueSlots(f) => if call == JoinQueue(f) then -1 else if call == QuitQueue(f) then 1 else 0
    case Requests(pat) =>
      if call.Send? && call.m.t.mtype > 0 then Bit(IsToken(call.m, pat))
      else if call.Receive? then -Bit(IsToken(Front(sh, call.ty), pat))
      else 0
    case Numbers(n) =>
      if call.Send? && call.m.t.mtype > 0 then Bit(HandsOutNumber(call.m, n))
      else if call.WriteCount? then Bit(1 <= n <= sh.takenCount) - Bit(1 <= n <= call.n)
      else 0
    case Places(f) =>
      if call.Send? && call.m.t.mtype > 0 then Bit(IsMachineGrant(call.m, f)) + Bit(IsRedirect(call.m, f))
      else if call.TakePlace? then -Bit(IsOffice(f) && PlaceOf(f, call.limit))
      else 0
    case Rejections(pid, id) =>
      if call.Send? && call.m.t.mtype > 0 then Bit(IsDenial(call.m, pid, id)) - Bit(IsReport(call.m, pid, id))
      else 0
    case Refusals(pid) => if call.Receive? then Bit(Refuses(Front(sh, call.ty), pid)) else 0
  }

  /** Does limit i count places of office f? */
  predicate PlaceOf(f: int, i: nat)
  {
    if f == SA then i == SA1 || i == SA2 else i == LimitIndex(f)
  }

  lemma CallMovesLogs(sh: Shared, call: Call, w: Msg -> int)
    requires Possible(sh, call)
    ensures Sum(Perform(sh, call).sent, w) ==
      Sum(sh.sent, w) + if call.Send? && call.m.t.mtype > 0 then w(call.m) else 0
    ensures Sum(Perform(sh, call).queue, w) == Sum(sh.queue, w) +
      (if call.Send? && call.m.t.mtype > 0 then w(call.m)
       else if call.Receive? then -w(Front(sh, call.ty)) else 0)
  {
    if call.Send? {
      SumAppend(sh.sent, call.m, w);
      SumAppend(sh.queue, call.m, w);
    } else if call.Receive? {
      SumRemove(sh.queue, FirstOf(sh.queue, call.ty), w);
    }
  }

  lemma CallMovesShared(sh: Shared, call: Call, a: Account)
    requires WellFormed(sh) && Possible(sh, call) && WellFormed(Perform(sh, call))
    ensures SharedPart(Perform(sh, call), a) == SharedPart(sh, a) + Delta(sh, call, a)
  {
    match a
    case Requests(pat) => CallMovesLogs(sh, call, Tokens(pat));
    case Numbers(n) => CallMovesLogs(sh, call, NumberCount(n));
    case Places(f) => CallMovesPlacesGiven(sh, call, f);
    case Rejections(pid, id) => CallMovesRejections(sh, call, pid, id);
    case Refusals(pid) => CallMovesLogs(sh, call, DenialsTo(pid));
    case _ => CallMovesSemaphores(sh, call, a);
  }

  lemma CallMovesPlacesGiven(sh: Shared, call: Call, f: int)
    requires WellFormed(sh) && Possible(sh, call) && WellFormed(Perform(sh, call))
    ensures SharedPart(Perform(sh, call), Places(f)) == SharedPart(sh, Places(f)) + Delta(sh, call, Places(f))
  {
    CallMovesLogs(sh, call, MachineGrants(f));
    CallMovesLogs(sh, call, Redirects(f));
  }

  lemma CallMovesRejections(sh: Shared, call: Call, pid: int, id: int)
    requires WellFormed(sh) && Possible(sh, call) && WellFormed(Perform(sh, call))
    ensures SharedPart(Perform(sh, call), Rejections(pid, id))
         == SharedPart(sh, Rejections(pid, id)) + Delta(sh, call, Rejections(pid, id))
  {
    CallMovesLogs(sh, call, Denials(pid, id));
    CallMovesLogs(sh, call, Reports(pid, id));
  }

  lemma CallMovesSemaphores(sh: Shared, call: Call, a: Account)
    requires WellFormed(sh) && Possible(sh, call) && WellFormed(Perform(sh, call))
    requires a.Lock? || a.TicketSlots? || a.QueueSlots?
    ensures SharedPart(Perform(sh, call), a) == SharedPart(sh, a) + Delta(sh, call, a)
  {
  }

  // ----- each process pays for its calls -----

  lemma PetentPays(sh: Shared, p: P.Petent, a: Account)
    requires WellFormed(sh) && P.PetentOk(p) && Prepared(p) && P.CanStep(sh, p)
    requires P.Waiting(p.pc) ==> Front(sh, p.pid).origin == p.tck && MsgOk(Front(sh, p.pid))
    ensures Delta(sh, P.CallOf(p), a) + PetentPart(P.After(sh, p), a) == PetentPart(p, a)
  {
    match a
    case Lock => PetentPaysLock(sh, p);
    case TicketSlots => PetentPaysLine(sh, p);
    case QueueSlots(f) => PetentPaysQueue(sh, p, f);
    case Requests(pat) => PetentPaysRequest(sh, p, pat);
    case Refusals(pid) => PetentPaysRefusal(sh, p, pid);
    case _ => PetentPaysNothing(sh, p, a);
  }

  lemma PetentPaysLock(sh: Shared, p: P.Petent)
    requires WellFormed(sh) && P.PetentOk(p) && P.CanStep(sh, p)
    ensures Delta(sh, P.CallOf(p), Lock) + PetentPart(P.After(sh, p), Lock) == PetentPart(p, Lock)
  {
  }

  lemma PetentPaysLine(sh: Shared, p: P.Petent)
    requires WellFormed(sh) && P.PetentOk(p) && P.CanStep(sh, p)
    ensures Delta(sh, P.CallOf(p), TicketSlots) + PetentPart(P.After(sh, p), TicketSlots) == PetentPart(p, TicketSlots)
  {
  }

  /** A petent sends requests only, which hand out, deny and report nothing. */
  lemma PetentPaysNothing(sh: Shared, p: P.Petent, a: Account)
    requires WellFormed(sh) && P.PetentOk(p) && Prepared(p) && P.CanStep(sh, p)
    requires a.Numbers? || a.Places? || a.Rejections?
    ensures Delta(sh, P.CallOf(p), a) == 0
  {
  }

  lemma PetentPaysQueue(sh: Shared, p: P.Petent, f: int)
    requires WellFormed(sh) && P.PetentOk(p) && P.CanStep(sh, p)
    ensures Delta(sh, P.CallOf(p), QueueSlots(f)) + PetentPart(P.After(sh, p), QueueSlots(f))
         == PetentPart(p, QueueSlots(f))
  {
  }

  lemma PetentPaysRequest(sh: Shared, p: P.Petent, pat: Pattern)
    requires WellFormed(sh) && P.PetentOk(p) && Prepared(p) && P.CanStep(sh, p)
    requires P.Waiting(p.pc) ==> Front(sh, p.pid).origin == p.tck
    ensures Delta(sh, P.CallOf(p), Requests(pat)) + PetentPart(P.After(sh, p), Requests(pat))
         == PetentPart(p, Requests(pat))
  {
  }

  /** A petent reads a denial and is dismissed from then on; there is no other way to be. */
  lemma PetentPaysRefusal(sh: Shared, p: P.Petent, pid: int)
    requires WellFormed(sh) && P.PetentOk(p) && Prepared(p) && P.CanStep(sh, p)
    requires P.Waiting(p.pc) ==> MsgOk(Front(sh, p.pid))
    ensures Delta(sh, P.CallOf(p), Refusals(pid)) + PetentPart(P.After(sh, p), Refusals(pid))
         == PetentPart(p, Refusals(pid))
  {
    if P.Waiting(p.pc) {
      ReadingRefusal(sh, p, pid);
    } else {
      NoRefusal(sh, p);
    }
  }

  lemma ReadingRefusal(sh: Shared, p: P.Petent, pid: int)
    requires WellFormed(sh) && P.PetentOk(p) && P.CanStep(sh, p) && P.Waiting(p.pc) && MsgOk(Front(sh, p.pid))
    ensures Delta(sh, P.CallOf(p), Refusals(pid)) + PetentPart(P.After(sh, p), Refusals(pid))
         == PetentPart(p, Refusals(pid))
  {
  }

  lemma NoRefusal(sh: Shared, p: P.Petent)
    requires P.PetentOk(p) && Prepared(p) && P.CanStep(sh, p) && !P.Waiting(p.pc)
    ensures P.After(sh, p).pid == p.pid && !P.CallOf(p).Receive?
    ensures Dismissed(P.After(sh, p)) <==> Dismissed(p)
  {
  }

  lemma SignalIsFree(p: P.Petent, asleep: bool, a: Account)
    requires P.PetentOk(p)
    ensures PetentPart(P.Signalled(p, asleep), a) == PetentPart(p, a)
  {
  }

  lemma ServerPays(sh: Shared, sv: S.Server, c: S.Chance, a: Account)
    requires WellFormed(sh) && S.ServerOk(sv) && ServerKnows(sv, sh) && S.CanStep(sh, sv, c)
    requires forall m :: m in sh.queue ==> MsgOk(m)
    ensures Delta(sh, S.CallOf(sh, sv, c), a) + ServerPart(S.After(sh, sv, c), a) == ServerPart(sv, a)
  {
    match a
    case Lock => ServerPaysLock(sh, sv, c);
    case Requests(pat) => ServerPaysRequest(sh, sv, c, pat);
    case Numbers(n) => ServerPaysNumber(sh, sv, c, n);
    case Places(f) => ServerPaysPlace(sh, sv, c, f);
    case Rejections(pid, id) => ServerPaysRejection(sh, sv, c, pid, id);
    case Refusals(pid) => ServerReadsNoRefusal(sh, sv, c, pid);
    case _ => ServerPaysNothing(sh, sv, c, a);
  }

  lemma ServerPaysLock(sh: Shared, sv: S.Server, c: S.Chance)
    requires WellFormed(sh) && S.ServerOk(sv) && S.CanStep(sh, sv, c)
    ensures Delta(sh, S.CallOf(sh, sv, c), Lock) + ServerPart(S.After(sh, sv, c), Lock) == ServerPart(sv, Lock)
  {
    if sv.pc.Serving? {
      ServingPaysLock(sh, sv, c);
    }
  }

  lemma ServingPaysLock(sh: Shared, sv: S.Server, c: S.Chance)
    requires WellFormed(sh) && S.ServerOk(sv) && S.CanStep(sh, sv, c) && sv.pc.Serving?
    ensures Delta(sh, S.CallOf(sh, sv, c), Lock) + ServerPart(S.After(sh, sv, c), Lock) == ServerPart(sv, Lock)
  {
  }

  lemma ServerPaysNothing(sh: Shared, sv: S.Server, c: S.Chance, a: Account)
    requires WellFormed(sh) && S.CanStep(sh, sv, c) && (a.TicketSlots? || a.QueueSlots?)
    ensures Delta(sh, S.CallOf(sh, sv, c), a) == 0
  {
  }

  lemma ServerPaysRequest(sh: Shared, sv: S.Server, c: S.Chance, pat: Pattern)
    requires WellFormed(sh) && S.ServerOk(sv) && S.CanStep(sh, sv, c)
    requires forall m :: m in sh.queue ==> MsgOk(m)
    ensures Delta(sh, S.CallOf(sh, sv, c), Requests(pat)) + ServerPart(S.After(sh, sv, c), Requests(pat))
         == ServerPart(sv, Requests(pat))
  {
    if sv.pc.Serving? {
      ServingPaysRequest(sh, sv, c, pat);
    } else {
      PollingPaysRequest(sh, sv, c, pat);
    }
  }

  lemma PollingPaysRequest(sh: Shared, sv: S.Server, c: S.Chance, pat: Pattern)
    requires WellFormed(sh) && S.ServerOk(sv) && S.CanStep(sh, sv, c) && !sv.pc.Serving?
    requires forall m :: m in sh.queue ==> MsgOk(m)
    ensures Delta(sh, S.CallOf(sh, sv, c), Requests(pat)) + ServerPart(S.After(sh, sv, c), Requests(pat))
         == ServerPart(sv, Requests(pat))
  {
    if Has(sh, S.PollQueue(sv)) {
      FoundAtDesk(sh, sv);
    }
  }

  lemma ServingPaysRequest(sh: Shared, sv: S.Server, c: S.Chance, pat: Pattern)
    requires WellFormed(sh) && S.ServerOk(sv) && S.CanStep(sh, sv, c) && sv.pc.Serving?
    ensures Delta(sh, S.CallOf(sh, sv, c), Requests(pat)) + ServerPart(S.After(sh, sv, c), Requests(pat))
         == ServerPart(sv, Requests(pat))
  {
  }

  lemma ServerPaysNumber(sh: Shared, sv: S.Server, c: S.Chance, n: int)
    requires WellFormed(sh) && S.ServerOk(sv) && ServerKnows(sv, sh) && S.CanStep(sh, sv, c)
    ensures Delta(sh, S.CallOf(sh, sv, c), Numbers(n)) + ServerPart(S.After(sh, sv, c), Numbers(n))
         == ServerPart(sv, Numbers(n))
  {
    if sv.pc.Serving? {
      ServingPaysNumber(sh, sv, c, n);
    }
  }

  lemma ServingPaysNumber(sh: Shared, sv: S.Server, c: S.Chance, n: int)
    requires WellFormed(sh) && S.ServerOk(sv) && ServerKnows(sv, sh) && S.CanStep(sh, sv, c) && sv.pc.Serving?
    ensures Delta(sh, S.CallOf(sh, sv, c), Numbers(n)) + ServerPart(S.After(sh, sv, c), Numbers(n))
         == ServerPart(sv, Numbers(n))
  {
  }

  lemma ServerPaysPlace(sh: Shared, sv: S.Server, c: S.Chance, f: int)
    requires WellFormed(sh) && S.ServerOk(sv) && S.CanStep(sh, sv, c)
    ensures Delta(sh, S.CallOf(sh, sv, c), Places(f)) + ServerPart(S.After(sh, sv, c), Places(f))
         == ServerPart(sv, Places(f))
  {
    if sv.pc.Serving? {
      if sv.pc.serve == S.Reply {
        HandingOutPlace(sh, sv, c, f);
      } else if sv.pc.serve == S.Decide {
        RedirectTakesPlace(sh, sv, c, f);
      } else {
        GrantTakesPlace(sh, sv, c, f);
      }
    }
  }

  lemma GrantTakesPlace(sh: Shared, sv: S.Server, c: S.Chance, f: int)
    requires WellFormed(sh) && S.ServerOk(sv) && S.CanStep(sh, sv, c)
    requires sv.pc.Serving? && sv.pc.serve != S.Reply && sv.pc.serve != S.Decide
    ensures Delta(sh, S.CallOf(sh, sv, c), Places(f)) + ServerPart(S.After(sh, sv, c), Places(f))
         == ServerPart(sv, Places(f))
  {
  }

  lemma RedirectTakesPlace(sh: Shared, sv: S.Server, c: S.Chance, f: int)
    requires WellFormed(sh) && S.ServerOk(sv) && S.CanStep(sh, sv, c) && sv.pc == S.Serving(S.Decide)
    ensures Delta(sh, S.CallOf(sh, sv, c), Places(f)) + ServerPart(S.After(sh, sv, c), Places(f))
         == ServerPart(sv, Places(f))
  {
  }

  lemma HandingOutPlace(sh: Shared, sv: S.Server, c: S.Chance, f: int)
    requires WellFormed(sh) && S.ServerOk(sv) && S.CanStep(sh, sv, c) && sv.pc == S.Serving(S.Reply)
    ensures Delta(sh, S.CallOf(sh, sv, c), Places(f)) + ServerPart(S.After(sh, sv, c), Places(f))
         == ServerPart(sv, Places(f))
  {
  }

  lemma ServerPaysRejection(sh: Shared, sv: S.Server, c: S.Chance, pid: int, id: int)
    requires WellFormed(sh) && S.ServerOk(sv) && S.CanStep(sh, sv, c)
    ensures Delta(sh, S.CallOf(sh, sv, c), Rejections(pid, id)) + ServerPart(S.After(sh, sv, c), Rejections(pid, id))
         == ServerPart(sv, Rejections(pid, id))
  {
  }

  /** What servers take is requests. */
  lemma ServerReadsNoRefusal(sh: Shared, sv: S.Server, c: S.Chance, pid: int)
    requires WellFormed(sh) && S.ServerOk(sv) && S.CanStep(sh, sv, c)
    ensures Delta(sh, S.CallOf(sh, sv, c), Refusals(pid)) == 0
  {
  }

  lemma DirectorPays(sh: Shared, d: D.Director, lobby: nat, evacuate: bool, a: Account)
    requires WellFormed(sh) && D.CanStep(sh, d)
    ensures Delta(sh, D.CallOf(d, lobby), a) + DirectorPart(D.After(sh, d, evacuate), a) == DirectorPart(d, a)
  {
  }

  lemma CollectorPays(sh: Shared, k: D.Collector, a: Account)
    requires WellFormed(sh)
    ensures Delta(sh, D.CollectorCall(sh, k), a) == 0
  {
  }
}
