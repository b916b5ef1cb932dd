/**
 * What the accounts say about every state of every run: single tokens, ticket numbers, daily
 * limits, waiting places, rejections.
 */
module Conservation {
  import opened Tally
  import opened Tickets
  import opened SharedState
  import opened Interference
  import opened Office
  import opened Ledger
  import opened Invariant
  import P = Petent
  import S = Server

  // ----- one request, one token -----

  /** Requests of pid queued or in some server's hands, and answers to them queued. */
  ghost function TokensOf(s: State, pid: int): int
  {
    Sum(s.sh.queue, Tokens(ByPid(pid))) + Sum(s.servers, ServerParts(Requests(ByPid(pid))))
  }

  lemma TokensAreUnanswered(s: State, c: Config, i: nat)
    requires Core(s, c) && i < |s.petents|
    ensures TokensOf(s, s.petents[i].pid) == Bit(s.petents[i].unanswered)
  {
    var a := Requests(ByPid(s.petents[i].pid));
    assert Balance(s, a) == Opening(a, c);
    SumOnly(s.petents, i, PetentParts(a));
  }

  /** A signal has ended the wait for an answer that it had asked for. */
  predicate BrokeOff(p: P.Petent) { p.unanswered && !P.Waiting(p.pc) }

  /** A petent blocked for an answer has exactly one message in the system, and so has one
      that broke off its wait, which is then on its way out; any other petent has none. */
  lemma SingleToken(tr: seq<State>, c: Config, k: nat, i: nat)
    requires Run(tr, c) && k < |tr| && i < |tr[k].petents|
    ensures var s, p := tr[k], tr[k].petents[i];
      && (P.Waiting(p.pc) ==> TokensOf(s, p.pid) == 1)
      && (!P.Waiting(p.pc) ==> TokensOf(s, p.pid) == Bit(BrokeOff(p)))
      && (BrokeOff(p) ==> p.sig2 && P.OnTheWayOut(p.pc))
  {
    CoreThroughout(tr, c, k);
    TokensAreUnanswered(tr[k], c, i);
  }

  /** Whatever a waiting petent reads is a lawful answer to its own latest request. */
  lemma ReadsOwnAnswer(tr: seq<State>, c: Config, k: nat, i: nat)
    requires Run(tr, c) && k < |tr| && i < |tr[k].petents|
    requires P.Waiting(tr[k].petents[i].pc) && Enabled(tr[k], PetentStep(i))
    ensures AnswerOk(tr[k].petents[i].tck, Apply(tr[k], PetentStep(i), c.lobby).petents[i].tck)
  {
    CoreThroughout(tr, c, k);
    AnswerIsMine(tr[k], c, i);
  }

  // ----- ticket numbers -----

  /** The numbers handed out or about to be are exactly 1 to the shared counter, each once. */
  lemma NumbersUnique(tr: seq<State>, c: Config, k: nat, n: int)
    requires Run(tr, c) && k < |tr|
    ensures Sum(tr[k].sh.sent, NumberCount(n)) + Sum(tr[k].servers, ServerParts(Numbers(n)))
         == Bit(1 <= n <= tr[k].sh.takenCount)
  {
    CoreThroughout(tr, c, k);
    assert Balance(tr[k], Numbers(n)) == 0;
    SumOfZeros(tr[k].petents, PetentParts(Numbers(n)));
  }

  /** So no two answers ever carry the same number. */
  lemma NoNumberTwice(tr: seq<State>, c: Config, k: nat, x: nat, y: nat)
    requires Run(tr, c) && k < |tr| && x < y < |tr[k].sh.sent|
    requires HandsOutNumber(tr[k].sh.sent[x], tr[k].sh.sent[x].t.ticketid)
    requires HandsOutNumber(tr[k].sh.sent[y], tr[k].sh.sent[y].t.ticketid)
    ensures tr[k].sh.sent[x].t.ticketid != tr[k].sh.sent[y].t.ticketid
  {
    var n := tr[k].sh.sent[x].t.ticketid;
    NumbersUnique(tr, c, k, n);
    SumNonNegative(tr[k].servers, ServerParts(Numbers(n)));
    if tr[k].sh.sent[y].t.ticketid == n {
      SumAtLeastTwo(tr[k].sh.sent, x, y, NumberCount(n));
    }
  }

  // ----- daily limits -----

  /** Tickets for office f handed out by machines and by SA, and those about to be. */
  ghost function PlacesGiven(s: State, f: int): int
  {
    Sum(s.sh.sent, MachineGrants(f)) + Sum(s.sh.sent, Redirects(f)) + Sum(s.servers, ServerParts(Places(f)))
  }

  /** The day's limit of an office is what is left of it plus what machines and SA redirects
      have given away. */
  lemma LimitConserved(tr: seq<State>, c: Config, k: nat, f: int)
    requires Run(tr, c) && k < |tr| && IsOffice(f)
    ensures |tr[k].sh.limits| == 6
    ensures OfficeLimit(tr[k].sh.limits, f) + PlacesGiven(tr[k], f)
         == OfficeLimit(InitialLimits(c.petentCount), f)
  {
    CoreThroughout(tr, c, k);
    assert Balance(tr[k], Places(f)) == Opening(Places(f), c);
    SumOfZeros(tr[k].petents, PetentParts(Places(f)));
  }

  /** Neither source alone nor both together exceed it. */
  lemma LimitNotExceeded(tr: seq<State>, c: Config, k: nat, f: int)
    requires Run(tr, c) && k < |tr| && IsOffice(f)
    ensures 0 <= Sum(tr[k].sh.sent, MachineGrants(f)) && 0 <= Sum(tr[k].sh.sent, Redirects(f))
    ensures Sum(tr[k].sh.sent, MachineGrants(f)) + Sum(tr[k].sh.sent, Redirects(f))
         <= OfficeLimit(InitialLimits(c.petentCount), f)
  {
    LimitConserved(tr, c, k, f);
    CoreThroughout(tr, c, k);
    SumNonNegative(tr[k].servers, ServerParts(Places(f)));
    SumNonNegative(tr[k].sh.sent, MachineGrants(f));
    SumNonNegative(tr[k].sh.sent, Redirects(f));
  }

  // ----- places in front of machines and in waiting rooms -----

  /** No place is lost or gained, whatever signals and errors petents leave by. */
  lemma SlotsConserved(tr: seq<State>, c: Config, k: nat, f: int)
    requires Run(tr, c) && k < |tr| && IsOffice(f)
    ensures |tr[k].sh.slots| == 5
    ensures tr[k].sh.tickets + Sum(tr[k].petents, PetentParts(TicketSlots)) == TICKET_MACHINES
    ensures tr[k].sh.slots[f - 1] + Sum(tr[k].petents, PetentParts(QueueSlots(f))) == QueueCapacity(f)
  {
    CoreThroughout(tr, c, k);
    SlotsInState(tr[k], c, f);
  }

  lemma SlotsInState(s: State, c: Config, f: int)
    requires Core(s, c) && IsOffice(f)
    ensures |s.sh.slots| == 5
    ensures s.sh.tickets + Sum(s.petents, PetentParts(TicketSlots)) == TICKET_MACHINES
    ensures s.sh.slots[f - 1] + Sum(s.petents, PetentParts(QueueSlots(f))) == QueueCapacity(f)
  {
    assert Balance(s, TicketSlots) == Opening(TicketSlots, c);
    assert Balance(s, QueueSlots(f)) == Opening(QueueSlots(f), c);
    SumOfZeros(s.servers, ServerParts(TicketSlots));
    SumOfZeros(s.servers, ServerParts(QueueSlots(f)));
  }

  /** When every petent is gone every place is back. */
  lemma AllPlacesBack(tr: seq<State>, c: Config, k: nat, f: int)
    requires Run(tr, c) && k < |tr| && IsOffice(f)
    requires forall i :: 0 <= i < |tr[k].petents| ==> tr[k].petents[i].pc == P.Gone || tr[k].petents[i].pc == P.NotStarted
    ensures |tr[k].sh.slots| == 5 && tr[k].sh.tickets == TICKET_MACHINES && tr[k].sh.slots[f - 1] == QueueCapacity(f)
  {
    SlotsConserved(tr, c, k, f);
    SumOfZeros(tr[k].petents, PetentParts(TicketSlots));
    SumOfZeros(tr[k].petents, PetentParts(QueueSlots(f)));
  }

  /** A petent with a normal-priority request out that no signal has reached sits in the waiting
      room of its office. */
  lemma NormalWaitsInRoom(p: P.Petent, f: int)
    requires P.PetentOk(p) && !p.sig2 && IsOffice(f)
    ensures -PetentPart(p, Requests(ByNormalQueue(f))) <= PetentPart(p, QueueSlots(f))
  {
  }

  ghost function NormalMessages(f: int): Msg -> int
  {
    (m: Msg) => Bit(11 <= m.t.mtype <= 16 && m.t.faculty == f)
  }

  /** Normal-priority requests for tickets of office f that are queued or in a server's hands,
      at its clerk or at the cashier, and answers to them not yet read. */
  ghost function NormalOutstanding(s: State, f: int): int
  {
    Sum(s.sh.queue, Tokens(ByNormalQueue(f))) + Sum(s.servers, ServerParts(Requests(ByNormalQueue(f))))
  }

  /** Without an evacuation, no more of them are outstanding than the waiting room of the office
      has places, and so no more are queued. */
  lemma NormalQueueBounded(tr: seq<State>, c: Config, k: nat, f: int)
    requires Run(tr, c) && k < |tr| && IsOffice(f)
    requires forall i :: 0 <= i < |tr[k].petents| ==> !tr[k].petents[i].sig2
    ensures NormalOutstanding(tr[k], f) <= QueueCapacity(f)
    ensures Sum(tr[k].sh.queue, NormalMessages(f)) <= NormalOutstanding(tr[k], f)
  {
    var s, a := tr[k], Requests(ByNormalQueue(f));
    CoreThroughout(tr, c, k);
    SlotsConserved(tr, c, k, f);
    assert Balance(s, a) == Opening(a, c);
    SumNonNegative(s.servers, ServerParts(a));
    QueuedAreTokens(s.sh, f);
    forall i | 0 <= i < |s.petents|
      ensures 0 <= PetentParts(a)(s.petents[i]) + PetentParts(QueueSlots(f))(s.petents[i])
    {
      NormalWaitsInRoom(s.petents[i], f);
    }
    SumBoth(s.petents, PetentParts(a), PetentParts(QueueSlots(f)));
  }

  lemma QueuedAreTokens(sh: Shared, f: int)
    requires MessagesOk(sh)
    ensures Sum(sh.queue, NormalMessages(f)) <= Sum(sh.queue, Tokens(ByNormalQueue(f)))
  {
    forall k | 0 <= k < |sh.queue|
      ensures NormalMessages(f)(sh.queue[k]) <= Tokens(ByNormalQueue(f))(sh.queue[k])
    {
      assert sh.queue[k] in sh.queue;
    }
    SumMonotone(sh.queue, NormalMessages(f), Tokens(ByNormalQueue(f)));
  }

  // ----- rejections -----

  /** A server is between the two sends of a rejection of pid under number id. */
  predicate MidRejection(sv: S.Server, pid: int, id: int)
  {
    ServerPart(sv, Rejections(pid, id)) != 0
  }

  /** Denials and reports differ, petent by petent and number by number, by exactly the servers
      between their two sends: a closing desk is then one report ahead, any other one behind. */
  lemma DenialsMatchReports(tr: seq<State>, c: Config, k: nat, pid: int, id: int)
    requires Run(tr, c) && k < |tr|
    ensures Sum(tr[k].sh.sent, Denials(pid, id)) + Sum(tr[k].servers, ServerParts(Rejections(pid, id)))
         == Sum(tr[k].sh.sent, Reports(pid, id))
    ensures (forall j :: 0 <= j < |tr[k].servers| ==> !MidRejection(tr[k].servers[j], pid, id)) ==>
      Sum(tr[k].sh.sent, Denials(pid, id)) == Sum(tr[k].sh.sent, Reports(pid, id))
  {
    CoreThroughout(tr, c, k);
    assert Balance(tr[k], Rejections(pid, id)) == 0;
    SumOfZeros(tr[k].petents, PetentParts(Rejections(pid, id)));
    if forall j :: 0 <= j < |tr[k].servers| ==> !MidRejection(tr[k].servers[j], pid, id) {
      SumOfZeros(tr[k].servers, ServerParts(Rejections(pid, id)));
    }
  }

  // ----- at most one rejection per petent -----

  /** Denials of pid queued or sent and read, and its requests still in servers' hands, are one
      at most: a petent that has read a denial has nothing out, and any other one thing. */
  lemma OneRefusal(s: State, c: Config, pid: int)
    requires Core(s, c)
    ensures Sum(s.sh.sent, DenialsTo(pid)) + Sum(s.servers, ServerParts(Requests(ByPid(pid)))) <= 1
  {
    var a, r := Requests(ByPid(pid)), Refusals(pid);
    assert Balance(s, a) == Opening(a, c) && Balance(s, r) == Opening(r, c);
    QueuedRefusals(s.sh, pid);
    SumOfZeros(s.servers, ServerParts(r));
    if i :| 0 <= i < |s.petents| && s.petents[i].pid == pid {
      SumOnly(s.petents, i, PetentParts(a));
      SumOnly(s.petents, i, PetentParts(r));
    } else {
      SumOfZeros(s.petents, PetentParts(a));
      SumOfZeros(s.petents, PetentParts(r));
    }
  }

  lemma QueuedRefusals(sh: Shared, pid: int)
    requires MessagesOk(sh)
    ensures Sum(sh.queue, DenialsTo(pid)) <= Sum(sh.queue, Tokens(ByPid(pid)))
  {
    forall k | 0 <= k < |sh.queue|
      ensures DenialsTo(pid)(sh.queue[k]) <= Tokens(ByPid(pid))(sh.queue[k])
    {
      assert sh.queue[k] in sh.queue;
    }
    SumMonotone(sh.queue, DenialsTo(pid), Tokens(ByPid(pid)));
  }

  /** No petent is ever denied twice, in a whole run, by machines and desks together. */
  lemma DeniedAtMostOnce(tr: seq<State>, c: Config, k: nat, pid: int)
    requires Run(tr, c) && k < |tr|
    ensures 0 <= Sum(tr[k].sh.sent, DenialsTo(pid)) <= 1
  {
    CoreThroughout(tr, c, k);
    OneRefusal(tr[k], c, pid);
    SumNonNegative(tr[k].servers, ServerParts(Requests(ByPid(pid))));
    SumNonNegative(tr[k].sh.sent, DenialsTo(pid));
  }

  /** Nor is one ever reported twice, under whatever numbers. */
  lemma ReportedAtMostOnce(tr: seq<State>, c: Config, k: nat, x: nat, y: nat)
    requires Run(tr, c) && k < |tr| && x < y < |tr[k].sh.sent|
    requires tr[k].sh.sent[x].t.mtype == tr[k].sh.sent[y].t.mtype == REPORT_QUEUE
    ensures tr[k].sh.sent[x].t.requester != tr[k].sh.sent[y].t.requester
  {
    var s := tr[k];
    var m, n := s.sh.sent[x].t, s.sh.sent[y].t;
    if m.requester == n.requester {
      CoreThroughout(tr, c, k);
      OneRefusal(s, c, m.requester);
      DenialsMatchReports(tr, c, k, m.requester, m.ticketid);
      DenialsMatchReports(tr, c, k, m.requester, n.ticketid);
      if m.ticketid == n.ticketid {
        SumAtLeastTwo(s.sh.sent, x, y, Reports(m.requester, m.ticketid));
        OneNumber(s, m.requester, m.ticketid);
      } else {
        SumAtLeastOne(s.sh.sent, x, Reports(m.requester, m.ticketid));
        SumAtLeastOne(s.sh.sent, y, Reports(m.requester, n.ticketid));
        TwoNumbers(s, m.requester, m.ticketid, n.ticketid);
      }
    }
  }

  lemma OneNumber(s: State, pid: int, id: int)
    ensures Sum(s.sh.sent, Denials(pid, id)) <= Sum(s.sh.sent, DenialsTo(pid))
    ensures Sum(s.servers, ServerParts(Rejections(pid, id))) <= Sum(s.servers, ServerParts(Requests(ByPid(pid))))
  {
    SumMonotone(s.sh.sent, Denials(pid, id), DenialsTo(pid));
    SumMonotone(s.servers, ServerParts(Rejections(pid, id)), ServerParts(Requests(ByPid(pid))));
  }

  lemma TwoNumbers(s: State, pid: int, id: int, id': int)
    requires id != id'
    ensures Sum(s.sh.sent, Denials(pid, id)) + Sum(s.sh.sent, Denials(pid, id')) <= Sum(s.sh.sent, DenialsTo(pid))
    ensures Sum(s.servers, ServerParts(Rejections(pid, id))) + Sum(s.servers, ServerParts(Rejections(pid, id')))
         <= Sum(s.servers, ServerParts(Requests(ByPid(pid))))
  {
    SumPairBelow(s.sh.sent, Denials(pid, id), Denials(pid, id'), DenialsTo(pid));
    SumPairBelow(s.servers, ServerParts(Rejections(pid, id)), ServerParts(Rejections(pid, id')),
                 ServerParts(Requests(ByPid(pid))));
  }

  /** Every report ever sent carries the number, faculty and desk of the request it rejects,
      and never the number -1. */
  lemma ReportsTellTheRequest(tr: seq<State>, c: Config, k: nat, x: nat)
    requires Run(tr, c) && k < |tr| && x < |tr[k].sh.sent| && tr[k].sh.sent[x].t.mtype == REPORT_QUEUE
    ensures ReportOk(tr[k].sh.sent[x].origin, tr[k].sh.sent[x].t) && RequestOk(tr[k].sh.sent[x].origin)
    ensures tr[k].sh.sent[x].t.ticketid >= 0
  {
    CoreThroughout(tr, c, k);
    assert tr[k].sh.sent[x] in tr[k].sh.sent;
  }

  /** A report without a denial, or a denial without a report, exists only while some server
      is between its two sends. */
  lemma ReportNeedsDenial(tr: seq<State>, c: Config, k: nat, pid: int, id: int) returns (j: nat)
    requires Run(tr, c) && k < |tr|
    requires Sum(tr[k].sh.sent, Denials(pid, id)) != Sum(tr[k].sh.sent, Reports(pid, id))
    ensures j < |tr[k].servers| && MidRejection(tr[k].servers[j], pid, id)
  {
    if forall i :: 0 <= i < |tr[k].servers| ==> !MidRejection(tr[k].servers[i], pid, id) {
      DenialsMatchReports(tr, c, k, pid, id);
      assert false;
    }
    j :| 0 <= j < |tr[k].servers| && MidRejection(tr[k].servers[j], pid, id);
  }

  /** The report and the denial of one redirect that found no place disagree: the denial names the
      office that refused, the report names SA as desk and as faculty. */
  lemma FailedRedirectReportedUnderSA(tr: seq<State>, c: Config, k: nat, x: nat, y: nat)
    requires Run(tr, c) && k < |tr| && x < |tr[k].sh.sent| && y < |tr[k].sh.sent|
    requires tr[k].sh.sent[x].origin == tr[k].sh.sent[y].origin && DeskOf(tr[k].sh.sent[x].origin.mtype) == SA
    requires tr[k].sh.sent[x].t.mtype == REPORT_QUEUE
    requires tr[k].sh.sent[y].t.mtype > 26 && tr[k].sh.sent[y].t.ticketid == -1 && tr[k].sh.sent[y].t.queueid == 0
    ensures var report, denial := tr[k].sh.sent[x].t, tr[k].sh.sent[y].t;
      && report.requester == denial.requester
      && SC <= denial.faculty <= PD && report.faculty == SA && report.queueid == SA
  {
    CoreThroughout(tr, c, k);
    assert tr[k].sh.sent[x] in tr[k].sh.sent && tr[k].sh.sent[y] in tr[k].sh.sent;
  }
}
