/**
 * The ticket that petents, ticket machines and clerks pass to one another, and what
 * each kind of message may say.  Numbers are those of the shared header.
 */
module Tickets {

  const SC := 1
  const KM := 2
  const ML := 3
  const PD := 4
  const SA := 5
  const CASHIER := 6

  const MACHINE_QUEUE := 1
  const REPORT_QUEUE := 2
  const WORKER_OFFSET := 10
  const PRIORITY_OFFSET := 20

  datatype Payment = NotNeeded | Needed | Paid

  datatype Ticket = Ticket(
    mtype: int,
    requester: int,
    ticketid: int,
    faculty: int,
    queueid: int,
    payment: Payment,
    redirectedFrom: int)

  /** A queued message.  The origin is a tag of the model alone: the request this message
      is, answers or reports.  No step reads it to decide anything. */
  datatype Msg = Msg(t: Ticket, origin: Ticket)

  predicate IsOffice(f: int) { SC <= f <= SA }

  predicate IsDeskQueue(q: int) { 11 <= q <= 16 || 21 <= q <= 26 }

  predicate IsPriority(q: int) { 21 <= q <= 26 }

  /** The clerk type behind a desk queue. */
  function DeskOf(q: int): int
  {
    if q >= PRIORITY_OFFSET then q - PRIORITY_OFFSET else q - WORKER_OFFSET
  }

  function DeskQueue(desk: int, priority: bool): int
  {
    desk + if priority then PRIORITY_OFFSET else WORKER_OFFSET
  }

  // ----- requests -----

  /** A request a petent may send: to the machines, or to a clerk. */
  predicate RequestOk(r: Ticket)
  {
    && r.requester > 26
    && r.queueid == r.mtype
    && IsOffice(r.faculty)
    && (if r.mtype == MACHINE_QUEUE then
          r.ticketid == 0 && r.payment == NotNeeded && 0 <= r.redirectedFrom <= 1
        else
          && IsDeskQueue(r.mtype) && r.ticketid >= 1
          && (if DeskOf(r.mtype) == CASHIER then
                r.payment == Needed && r.redirectedFrom == r.faculty && r.faculty != SA
              else
                && DeskOf(r.mtype) == r.faculty && r.payment != Needed
                && (r.faculty == SA ==> r.payment == NotNeeded)))
  }

  // ----- answers -----

  /** The answer t gives the petent of request r its next step; its number is another matter. */
  predicate Granted(r: Ticket, t: Ticket)
  {
    var priority := r.mtype > PRIORITY_OFFSET;
    if r.mtype == MACHINE_QUEUE then
      && t.faculty == r.faculty && t.payment == NotNeeded && t.redirectedFrom == r.redirectedFrom
      && t.queueid == DeskQueue(r.faculty, r.redirectedFrom == 1)
    else if DeskOf(r.mtype) == CASHIER then
      && t.faculty == r.faculty && t.payment == Paid && t.redirectedFrom == r.redirectedFrom
      && t.queueid == DeskQueue(r.faculty, true)
    else
      || (t.faculty == 0 && t.queueid == 0 && t.payment == r.payment && t.redirectedFrom == r.redirectedFrom)
      || (&& DeskOf(r.mtype) == SA
          && SC <= t.faculty <= PD && t.payment == NotNeeded
          && t.queueid == DeskQueue(t.faculty, priority) && t.redirectedFrom == SA)
      || (&& DeskOf(r.mtype) != SA && r.payment == NotNeeded
          && t.faculty == r.faculty && t.payment == Needed
          && t.queueid == DeskQueue(CASHIER, priority) && t.redirectedFrom == r.faculty)
  }

  /** The answer t turns the petent away: no limit left at a machine, no limit left for a
      redirect from SA, or the desk is closing. */
  predicate Denied(r: Ticket, t: Ticket)
  {
    && IsOffice(t.faculty) && t.payment == r.payment
    && (if r.mtype == MACHINE_QUEUE then
          && t.faculty == r.faculty && t.redirectedFrom == r.redirectedFrom
          && t.queueid == DeskQueue(r.faculty, r.redirectedFrom == 1)
        else
          || (t.faculty == r.faculty && t.queueid == -1 && t.redirectedFrom == r.redirectedFrom)
          || (DeskOf(r.mtype) == SA && t.faculty != SA && t.queueid == 0 && t.redirectedFrom == SA))
  }

  predicate AnswerOk(r: Ticket, t: Ticket)
  {
    && t.requester == r.requester == t.mtype
    && if t.ticketid == -1 then Denied(r, t) else t.ticketid >= 1 && Granted(r, t)
  }

  // ----- reports -----

  /** Who issued the rejection of r: 1 for a machine, otherwise the clerk type. */
  function Issuer(r: Ticket): int
  {
    if r.mtype == MACHINE_QUEUE then 1 else DeskOf(r.mtype)
  }

  predicate ReportOk(r: Ticket, t: Ticket)
  {
    && t.mtype == REPORT_QUEUE
    && t.requester == r.requester
    && t.ticketid == r.ticketid >= 0
    && t.faculty == r.faculty && t.payment == r.payment
    && t.queueid == Issuer(r)
  }

  predicate MsgOk(m: Msg)
  {
    && RequestOk(m.origin)
    && if m.t.mtype == REPORT_QUEUE then ReportOk(m.origin, m.t)
       else if m.t.mtype > 26 then AnswerOk(m.origin, m.t)
       else m.t == m.origin
  }

  // ----- how far a ticket still has to go -----

  /** Services still ahead of a ticket at most. */
  function Rank(t: Ticket): nat
  {
    if t.ticketid == -1 || !IsDeskQueue(t.queueid) then 0
    else if DeskOf(t.queueid) == SA then 4
    else if DeskOf(t.queueid) == CASHIER then 2
    else if t.payment == NotNeeded then 3
    else 1
  }

  /** Every clerk's answer leaves strictly less to do, whatever the clerk drew at random. */
  lemma ServiceLowersRank(r: Ticket, t: Ticket)
    requires RequestOk(r) && r.mtype != MACHINE_QUEUE && AnswerOk(r, t)
    ensures Rank(t) < Rank(r) <= 4
  {
  }

  // ----- the itinerary of one visit -----

  /** Position of the first office other than SA on an itinerary. */
  function OfficeStop(w: seq<int>): nat
  {
    if |w| > 1 && DeskOf(w[1]) == SA then 2 else 1
  }

  /** The queues one visit may be answered at, in order: a machine, then possibly SA, one
      office, the cashier, and that office again on its priority queue; once on a priority
      queue, never again on a normal one. */
  predicate Path(w: seq<int>)
  {
    var k := OfficeStop(w);
    && 1 <= |w| <= k + 3
    && w[0] == MACHINE_QUEUE
    && (forall j :: 1 <= j < |w| ==> IsDeskQueue(w[j]))
    && (|w| > k ==> SC <= DeskOf(w[k]) <= PD)
    && (|w| > k + 1 ==> DeskOf(w[k + 1]) == CASHIER)
    && (|w| > k + 2 ==> w[k + 2] == DeskQueue(DeskOf(w[k]), true))
    && (forall j :: 1 <= j < |w| - 1 && IsPriority(w[j]) ==> IsPriority(w[j + 1]))
  }

  /** On any itinerary SA, and the cashier, come at most once. */
  lemma DesksOnce(w: seq<int>, i: nat, j: nat)
    requires Path(w) && i < j < |w| && DeskOf(w[i]) == DeskOf(w[j])
    ensures DeskOf(w[i]) != SA && DeskOf(w[i]) != CASHIER && |w| <= 5
    ensures j == i + 2 && DeskOf(w[i + 1]) == CASHIER && IsPriority(w[j])
  {
    var k := OfficeStop(w);
    assert i >= 1;
  }

  /** Priority at every stop after the machine. */
  predicate AllPriority(w: seq<int>) { forall j :: 1 <= j < |w| ==> IsPriority(w[j]) }

  /** A ticket that needs no further send. */
  predicate Settled(t: Ticket)
  {
    t.ticketid == -1 || (t.faculty == 0 && t.queueid == 0)
  }

  /** Where the visit stands when its last answer (or, before any, its first request) is t and
      the queues in visits have answered so far. */
  predicate Journey(visits: seq<int>, t: Ticket, vip: bool)
  {
    if visits == [] then
      t.mtype == MACHINE_QUEUE && RequestOk(t) && (vip <==> t.redirectedFrom == 1)
    else
      && Path(visits)
      && (vip ==> AllPriority(visits))
      && (if Settled(t) then t.ticketid == -1 ==> IsOffice(t.faculty) else Onward(visits, t, vip))
  }

  /** The next send of t continues the path, with the payment state that position calls for. */
  predicate Onward(visits: seq<int>, t: Ticket, vip: bool)
    requires visits != []
  {
    var w := visits + [t.queueid];
    var k := OfficeStop(w);
    && RequestOk(t.(mtype := t.queueid))
    && IsDeskQueue(t.queueid)
    && Path(w)
    && (vip ==> IsPriority(t.queueid))
    && (t.payment == NotNeeded <==> |visits| <= k)
    && (t.payment == Needed <==> |visits| == k + 1)
    && (t.payment != NotNeeded ==> t.faculty == DeskOf(w[k]))
  }

  /** An answer to the current request carries the journey one stop further. */
  lemma JourneyGoesOn(visits: seq<int>, r: Ticket, t: Ticket, vip: bool)
    requires Journey(visits, r, vip) && RequestOk(r) && AnswerOk(r, t)
    ensures Journey(visits + [r.mtype], t, vip)
  {
    var w := visits + [r.mtype];
    assert Path(w);
    if !Settled(t) {
      var u := w + [t.queueid];
      assert forall j :: 0 <= j < |w| ==> u[j] == w[j];
      assert Path(u);
    }
  }
}
