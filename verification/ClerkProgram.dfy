/**
 * urzednik.c in its own form: the clerk's decision on one ticket, and the drain loops with
 * which a desk closes.
 */
module ClerkProgram {
  import opened Tickets
  import opened Mailbox
  import opened SharedState
  import opened Memory
  import opened Rounds
  import opened Solo
  import opened Tally
  import S = Server

  // ----- serving one ticket -----

  /** What three draws of rand() decide. */
  function Drawn(redirect: nat, office: nat, payment: nat): S.Chance
  {
    S.Chance(redirect % 100 < 40, office % 4, payment % 10 == 0, false, false, false, 0)
  }

  /** The messages that end the service of request t with the rewritten ticket r. */
  function Closing(t: Ticket, r: Ticket, desk: int, number: int): seq<Msg>
  {
    var a := r.(mtype := t.requester);
    if r.ticketid != -1 then [Msg(a.(ticketid := number), t)]
    else [Msg(a, t), Msg(r.(mtype := REPORT_QUEUE, ticketid := t.ticketid, faculty := t.faculty, queueid := desk), t)]
  }

  /** The whole effect of a clerk's service of request t. */
  function ServedBy(sh: Shared, t: Ticket, desk: int, vip: bool, c: S.Chance): Shared
    requires WellFormed(sh)
  {
    var i := LimitIndex(S.PickOffice(c.pick));
    var place := sh.limits[i] >= 1;
    var r := S.Routed(t, desk, vip, c, place);
    var out := Closing(t, r, desk, sh.takenCount + 1);
    sh.(limits := if desk == SA && c.redirect && place then sh.limits[i := sh.limits[i] - 1] else sh.limits,
        takenCount := if r.ticketid != -1 then sh.takenCount + 1 else sh.takenCount,
        queue := sh.queue + out, sent := sh.sent + out)
  }

  /** Whatever a clerk draws, it answers a lawful request lawfully: its answer, under any new
      number, sends the petent where the protocol allows, or turns it away. */
  lemma RoutingLawful(t: Ticket, desk: int, vip: bool, c: S.Chance, place: bool, number: int)
    requires RequestOk(t) && 1 <= desk <= 6 && t.mtype == DeskQueue(desk, vip) && number >= 1
    ensures var r := S.Routed(t, desk, vip, c, place).(mtype := t.requester);
      AnswerOk(t, if r.ticketid != -1 then r.(ticketid := number) else r)
  {
  }

  /** The draws reach every office but SA, and a redirect happens at SA alone. */
  lemma RedirectsFromSAOnly(t: Ticket, desk: int, vip: bool, c: S.Chance, place: bool)
    requires RequestOk(t) && 1 <= desk <= 6 && t.mtype == DeskQueue(desk, vip)
    ensures var r := S.Routed(t, desk, vip, c, place);
      (r.faculty != 0 && r.faculty != t.faculty <==> desk == SA && c.redirect)
      && (r.ticketid == -1 <==> desk == SA && c.redirect && !place)
  {
  }

  /** A clerk of an office other than SA sends a petent to the cashier exactly at a payment event
      for a ticket not yet paid; the cashier alone makes it paid and sends it back by priority. */
  lemma PaymentEvents(t: Ticket, desk: int, vip: bool, c: S.Chance, place: bool)
    requires RequestOk(t) && 1 <= desk <= 6 && t.mtype == DeskQueue(desk, vip)
    ensures var r := S.Routed(t, desk, vip, c, place);
      && (r.payment == Needed <==> SC <= desk <= PD && t.payment == NotNeeded && c.pay)
      && (r.payment == Needed <==> DeskOf(r.queueid) == CASHIER)
      && (r.payment == Paid && t.payment != Paid <==> desk == CASHIER)
      && (desk == CASHIER ==> r.queueid == DeskQueue(t.faculty, true) && r.faculty == t.faculty)
  {
  }

  /** The matter is settled exactly when nothing else happens: no redirect, no payment event, and
      the desk is not the cashier. */
  lemma SettledOtherwise(t: Ticket, desk: int, vip: bool, c: S.Chance, place: bool)
    requires RequestOk(t) && 1 <= desk <= 6 && t.mtype == DeskQueue(desk, vip)
    ensures var r := S.Routed(t, desk, vip, c, place);
      var redirect, payment := desk == SA && c.redirect, desk != SA && t.payment == NotNeeded && c.pay;
      && (r.faculty == 0 <==> !redirect && !payment && desk != CASHIER)
      && (r.faculty == 0 ==> r == t.(faculty := 0, queueid := 0))
      && (redirect ==> r.redirectedFrom == SA && r.payment == t.payment)
      && (redirect && place ==> r.faculty == S.PickOffice(c.pick) && r.queueid == DeskQueue(r.faculty, vip))
  {
  }

  /** Of a hundred values of the first draw forty redirect, of ten of the third one sends to the
      cashier ... */
  lemma EventShares(r0: nat, r1: nat, r2: nat)
    ensures Share(100, (r: nat) => Drawn(r, r1, r2).redirect) == 40
    ensures Share(10, (r: nat) => Drawn(r0, r1, r).pay) == 1
  {
    ShareBelow(100, 40, (r: nat) => Drawn(r, r1, r2).redirect);
    ShareBelow(10, 1, (r: nat) => Drawn(r0, r1, r).pay);
  }

  /** ... and the second draw reaches every office but SA, in equal shares. */
  lemma OfficeShares(f: int, r0: nat, r2: nat)
    requires SC <= f <= PD
    ensures Share(4, (r: nat) => S.PickOffice(Drawn(r0, r, r2).pick) == f) == 1
  {
    var p := (r: nat) => S.PickOffice(Drawn(r0, r, r2).pick) == f;
    assert Share(1, p) == if p(0) then 1 else 0;
    assert Share(2, p) == Share(1, p) + if p(1) then 1 else 0;
    assert Share(3, p) == Share(2, p) + if p(2) then 1 else 0;
  }

  /** One service, from the ticket taken to its report sent. */
  method ServeTicket(mem: Memory, request: Ticket, desk: int, vip: bool, r0: nat, r1: nat, r2: nat)
    requires WellFormed(mem.sh) && mem.sh.semlock >= 1
    requires request.requester > 26
    modifies mem
    ensures mem.sh == ServedBy(old(mem.sh), request, desk, vip, Drawn(r0, r1, r2))
  {
    var tck := Decide(mem, request, desk, vip, r0, r1, r2);
    ghost var routed := tck;
    if tck.ticketid != -1 {
      mem.Do(LockRecord);
      var count := mem.sh.takenCount;
      mem.Do(WriteCount(count + 1));
      tck := tck.(ticketid := count + 1);
      mem.Do(UnlockRecord);
    }
    Finish(mem, request, routed, tck, desk);
  }

  /** The branches over the clerk's type, with the semop of a redirect. */
  method Decide(mem: Memory, request: Ticket, desk: int, vip: bool, r0: nat, r1: nat, r2: nat)
    returns (tck: Ticket)
    requires WellFormed(mem.sh)
    modifies mem
    ensures WellFormed(mem.sh)
    ensures var c, sh := Drawn(r0, r1, r2), old(mem.sh);
      var i := LimitIndex(S.PickOffice(c.pick));
      && tck == S.Routed(request, desk, vip, c, sh.limits[i] >= 1)
      && mem.sh == if desk == SA && c.redirect && sh.limits[i] >= 1
                   then sh.(limits := sh.limits[i := sh.limits[i] - 1]) else sh
  {
    tck := request;
    if desk == SA && r0 % 100 < 40 {
      tck := tck.(redirectedFrom := tck.faculty);
      if r1 % 4 == 0 {
        tck := tck.(faculty := KM);
      } else if r1 % 4 == 1 {
        tck := tck.(faculty := ML);
      } else if r1 % 4 == 2 {
        tck := tck.(faculty := PD);
      } else {
        tck := tck.(faculty := SC);
      }
      var status := mem.TryPlace(LimitIndex(tck.faculty));
      if status == -1 {
        tck := tck.(ticketid := -1, queueid := 0);
      } else {
        tck := tck.(redirectedFrom := SA);
        tck := tck.(queueid := tck.faculty + if vip then PRIORITY_OFFSET else WORKER_OFFSET);
      }
    } else if desk != SA && desk != CASHIER && tck.payment == NotNeeded && r2 % 10 == 0 {
      tck := tck.(payment := Needed, redirectedFrom := tck.faculty);
      tck := tck.(queueid := CASHIER + if vip then PRIORITY_OFFSET else WORKER_OFFSET);
    } else if desk == CASHIER {
      tck := tck.(payment := Paid, faculty := tck.redirectedFrom);
      tck := tck.(queueid := tck.redirectedFrom + PRIORITY_OFFSET);
    } else {
      tck := tck.(faculty := 0, queueid := 0);
    }
  }

  /** The answer to the petent and the report to the director. */
  method Finish(mem: Memory, request: Ticket, ghost routed: Ticket, numbered: Ticket, desk: int)
    requires request.requester > 26 && numbered.requester == request.requester
    requires numbered == routed || (routed.ticketid != -1 && numbered.ticketid != -1 && numbered == routed.(ticketid := numbered.ticketid))
    modifies mem
    ensures var out := Closing(request, routed, desk, numbered.ticketid);
      mem.sh == old(mem.sh).(queue := old(mem.sh).queue + out, sent := old(mem.sh).sent + out)
  {
    var tck := numbered;
    tck := tck.(mtype := tck.requester);
    mem.Do(Send(Msg(tck, request)));
    if tck.ticketid == -1 {
      tck := tck.(mtype := REPORT_QUEUE, ticketid := request.ticketid, faculty := request.faculty, queueid := desk);
      mem.Do(Send(Msg(tck, request)));
    }
    ghost var out := Closing(request, routed, desk, numbered.ticketid);
    assert mem.sh.queue == old(mem.sh).queue + out;
    assert mem.sh.sent == old(mem.sh).sent + out;
  }

  // ----- closing the desk -----

  /** The messages of every other type, in order. */
  function Others(q: seq<Msg>, ty: int): seq<Msg>
  {
    if q == [] then []
    else Others(q[..|q| - 1], ty) + if q[|q| - 1].t.mtype == ty then [] else [q[|q| - 1]]
  }

  /** Report and dismissal for each of the messages ms, in order. */
  function Dismissals(ms: seq<Msg>, desk: int): seq<Msg>
  {
    if ms == [] then []
    else
      var t := ms[|ms| - 1].t;
      Dismissals(ms[..|ms| - 1], desk)
      + [Msg(t.(mtype := REPORT_QUEUE, queueid := desk), t),
         Msg(t.(mtype := t.requester, ticketid := -1, queueid := -1), t)]
  }

  lemma {:induction false} OthersConcat(p: seq<Msg>, q: seq<Msg>, ty: int)
    ensures Others(p + q, ty) == Others(p, ty) + Others(q, ty)
    decreases |q|
  {
    if q == [] {
      assert p + q == p;
    } else {
      var n := |q| - 1;
      OthersConcat(p, q[..n], ty);
      assert (p + q)[..|p + q| - 1] == p + q[..n];
    }
  }

  lemma {:induction false} OthersAll(q: seq<Msg>, ty: int)
    requires forall k :: 0 <= k < |q| ==> q[k].t.mtype != ty
    ensures Others(q, ty) == q
    decreases |q|
  {
    if q != [] {
      OthersAll(q[..|q| - 1], ty);
    }
  }

  lemma OthersWithout(q: seq<Msg>, k: nat, ty: int)
    requires k < |q| && q[k].t.mtype == ty
    ensures Others(Without(q, k), ty) == Others(q, ty)
  {
    var a, b := q[..k], q[k + 1..];
    OthersConcat(a, b, ty);
    OthersConcat(a + [q[k]], b, ty);
    assert (a + [q[k]])[..k] == a;
    assert a + [q[k]] + b == q;
  }

  /** The queue after a desk has dismissed everyone on one of its queues. */
  function DrainedOnce(q: seq<Msg>, ty: int, desk: int): seq<Msg>
  {
    Others(q, ty) + Dismissals(OfType(q, ty), desk)
  }

  /** The queue after a desk has closed: first the priority queue, then the normal one. */
  function Drained(q: seq<Msg>, desk: int): seq<Msg>
  {
    DrainedOnce(DrainedOnce(q, DeskQueue(desk, true), desk), DeskQueue(desk, false), desk)
  }

  /** Everyone queued for the desk has a pid outside the message types. */
  predicate RealPetents(q: seq<Msg>, ty: int)
  {
    forall k :: 0 <= k < |q| && q[k].t.mtype == ty ==> q[k].t.requester > 26
  }

  lemma {:induction false} DismissalsAre(ms: seq<Msg>, desk: int, k: nat)
    requires k < |ms|
    ensures |Dismissals(ms, desk)| == 2 * |ms|
    ensures var t := ms[k].t;
      && Dismissals(ms, desk)[2 * k] == Msg(t.(mtype := REPORT_QUEUE, queueid := desk), t)
      && Dismissals(ms, desk)[2 * k + 1] == Msg(t.(mtype := t.requester, ticketid := -1, queueid := -1), t)
    decreases |ms|
  {
    var n := |ms| - 1;
    if k < n {
      DismissalsAre(ms[..n], desk, k);
    } else if n > 0 {
      DismissalsAre(ms[..n], desk, 0);
    } else {
      assert ms[..n] == [];
    }
  }

  /** How far a drain of q0 has come: the messages done are answered, in order, at the end of
      the queue, and the rest of them is still to be taken. */
  ghost predicate DrainedSoFar(q0: seq<Msg>, done: seq<Msg>, q: seq<Msg>, ty: int, desk: int)
  {
    && done + OfType(q, ty) == OfType(q0, ty)
    && Others(q, ty) == Others(q0, ty) + Dismissals(done, desk)
    && RealPetents(q, ty)
  }

  /** The queue once message k is taken and answered. */
  function DismissedOne(q: seq<Msg>, k: nat, desk: int): seq<Msg>
    requires k < |q|
  {
    Without(q, k) + Dismissals([q[k]], desk)
  }

  lemma DismissalsOne(done: seq<Msg>, m: Msg, desk: int)
    ensures Dismissals(done + [m], desk) == Dismissals(done, desk) + Dismissals([m], desk)
    ensures |Dismissals([m], desk)| == 2
  {
    assert (done + [m])[..|done|] == done;
    assert [m][..0] == [];
  }

  /** Report and dismissal are on neither desk queue. */
  lemma DismissalsElsewhere(m: Msg, ty: int, desk: int)
    requires 11 <= ty <= 26 && m.t.requester > 26
    ensures OfType(Dismissals([m], desk), ty) == [] && Others(Dismissals([m], desk), ty) == Dismissals([m], desk)
    ensures RealPetents(Dismissals([m], desk), ty)
  {
    DismissalsOne([], m, desk);
    assert [] + [m] == [m];
    var d := Dismissals([m], desk);
    assert forall j :: 0 <= j < |d| ==> d[j].t.mtype != ty;
    OfTypeNone(d, ty);
    OthersAll(d, ty);
  }

  lemma RealAppend(a: seq<Msg>, b: seq<Msg>, ty: int)
    requires RealPetents(a, ty) && RealPetents(b, ty)
    ensures RealPetents(a + b, ty)
  {
  }

  lemma RealWithout(q: seq<Msg>, k: nat, ty: int)
    requires k < |q| && RealPetents(q, ty)
    ensures RealPetents(Without(q, k), ty)
  {
    var w := Without(q, k);
    forall j | 0 <= j < |w| && w[j].t.mtype == ty ensures w[j].t.requester > 26 {
      assert w[j] == q[if j < k then j else j + 1];
    }
  }

  lemma DismissedQueue(q: seq<Msg>, ty: int, desk: int)
    requires 11 <= ty <= 26 && FirstOf(q, ty) < |q| && RealPetents(q, ty)
    ensures var k := FirstOf(q, ty); var r := DismissedOne(q, k, desk);
      && OfType(q, ty) == [q[k]] + OfType(r, ty)
      && Others(r, ty) == Others(q, ty) + Dismissals([q[k]], desk)
      && RealPetents(r, ty)
  {
    var k := FirstOf(q, ty);
    var w, d := Without(q, k), Dismissals([q[k]], desk);
    DismissalsElsewhere(q[k], ty, desk);
    RealWithout(q, k, ty);
    RealAppend(w, d, ty);
    assert OfType(q, ty) == [q[k]] + OfType(w + d, ty) by {
      ReceiveOldest(q, ty, ty);
      OfTypeConcat(w, d, ty);
      assert OfType(w, ty) + [] == OfType(w, ty);
    }
    assert Others(w + d, ty) == Others(q, ty) + d by {
      OthersWithout(q, k, ty);
      OthersConcat(w, d, ty);
    }
  }

  lemma DrainProgress(q0: seq<Msg>, done: seq<Msg>, q: seq<Msg>, ty: int, desk: int)
    requires 11 <= ty <= 26 && FirstOf(q, ty) < |q| && DrainedSoFar(q0, done, q, ty, desk)
    ensures var k := FirstOf(q, ty);
      && DrainedSoFar(q0, done + [q[k]], DismissedOne(q, k, desk), ty, desk)
      && |OfType(DismissedOne(q, k, desk), ty)| < |OfType(q, ty)|
  {
    var k := FirstOf(q, ty);
    DismissedQueue(q, ty, desk);
    DismissalsOne(done, q[k], desk);
    var rest := OfType(DismissedOne(q, k, desk), ty);
    Regroup(done, [q[k]], rest);
    var o, d, e := Others(q0, ty), Dismissals(done, desk), Dismissals([q[k]], desk);
    Regroup(o, d, e);
  }

  lemma DrainBegins(q: seq<Msg>, ty: int, desk: int)
    requires RealPetents(q, ty)
    ensures DrainedSoFar(q, [], q, ty, desk)
  {
    assert [] + OfType(q, ty) == OfType(q, ty);
    assert Others(q, ty) + [] == Others(q, ty);
  }

  lemma DrainEnds(q0: seq<Msg>, done: seq<Msg>, q: seq<Msg>, ty: int, desk: int)
    requires DrainedSoFar(q0, done, q, ty, desk) && FirstOf(q, ty) == |q|
    ensures q == DrainedOnce(q0, ty, desk)
  {
    NoneFound(q, ty);
    OthersAll(q, ty);
    assert done + [] == done;
  }

  /** Queue and logs apart, b is a. */
  predicate OnlyMessagesMoved(a: Shared, b: Shared)
  {
    b == a.(queue := b.queue, sent := b.sent, taken := b.taken)
  }

  /** One drain loop: takes the queue's messages in order until none is left. */
  method DrainQueue(mem: Memory, ty: int, desk: int)
    requires 11 <= ty <= 26 && RealPetents(mem.sh.queue, ty)
    modifies mem
    ensures mem.sh.queue == DrainedOnce(old(mem.sh.queue), ty, desk)
    ensures OnlyMessagesMoved(old(mem.sh), mem.sh)
  {
    ghost var q0 := mem.sh.queue;
    ghost var done: seq<Msg> := [];
    DrainBegins(q0, ty, desk);
    while true
      invariant DrainedSoFar(q0, done, mem.sh.queue, ty, desk)
      invariant OnlyMessagesMoved(old(mem.sh), mem.sh)
      decreases |OfType(mem.sh.queue, ty)|
    {
      ghost var q := mem.sh.queue;
      var m := mem.TryReceive(ty);
      if m.None? {
        DrainEnds(q0, done, q, ty, desk);
        break;
      }
      DrainProgress(q0, done, q, ty, desk);
      done := done + [m.value];
      Dismiss(mem, m.value, desk);
    }
  }

  method Dismiss(mem: Memory, m: Msg, desk: int)
    requires m.t.requester > 26
    modifies mem
    ensures mem.sh == old(mem.sh).(queue := old(mem.sh).queue + Dismissals([m], desk),
                                   sent := old(mem.sh).sent + Dismissals([m], desk))
  {
    DismissalsOne([], m, desk);
    var tck := m.t;
    tck := tck.(mtype := REPORT_QUEUE, queueid := desk);
    mem.Do(Send(Msg(tck, m.t)));
    tck := tck.(mtype := tck.requester, ticketid := -1, queueid := -1);
    mem.Do(Send(Msg(tck, m.t)));
    DismissalsAre([m], desk, 0);
    assert mem.sh.queue == old(mem.sh).queue + Dismissals([m], desk);
    assert mem.sh.sent == old(mem.sh).sent + Dismissals([m], desk);
  }

  lemma {:induction false} DismissalTypes(ms: seq<Msg>, desk: int)
    requires forall k :: 0 <= k < |ms| ==> ms[k].t.requester > 26
    ensures forall j :: 0 <= j < |Dismissals(ms, desk)| ==>
      Dismissals(ms, desk)[j].t.mtype == REPORT_QUEUE || Dismissals(ms, desk)[j].t.mtype > 26
    decreases |ms|
  {
    if ms != [] {
      DismissalTypes(ms[..|ms| - 1], desk);
    }
  }

  /** What a drain adds is on no desk's queue. */
  lemma AllDismissalsElsewhere(ms: seq<Msg>, ty: int, desk: int)
    requires 11 <= ty <= 26 && forall k :: 0 <= k < |ms| ==> ms[k].t.requester > 26
    ensures OfType(Dismissals(ms, desk), ty) == [] && Others(Dismissals(ms, desk), ty) == Dismissals(ms, desk)
    ensures RealPetents(Dismissals(ms, desk), ty)
  {
    DismissalTypes(ms, desk);
    OfTypeNone(Dismissals(ms, desk), ty);
    OthersAll(Dismissals(ms, desk), ty);
  }

  lemma {:induction false} OfTypeOfOthers(q: seq<Msg>, ty: int, other: int)
    ensures OfType(Others(q, ty), other) == if other == ty then [] else OfType(q, other)
    decreases |q|
  {
    if q != [] {
      var n := |q| - 1;
      OfTypeOfOthers(q[..n], ty, other);
      if q[n].t.mtype != ty {
        OfTypeAppend(Others(q[..n], ty), q[n], other);
      } else {
        assert Others(q, ty) == Others(q[..n], ty);
        assert other != ty ==> OfType(q, other) == OfType(q[..n], other);
      }
    }
  }

  lemma {:induction false} OthersReal(q: seq<Msg>, ty: int, other: int)
    requires RealPetents(q, other)
    ensures RealPetents(Others(q, ty), other)
    decreases |q|
  {
    if q != [] {
      OthersReal(q[..|q| - 1], ty, other);
    }
  }

  lemma {:induction false} OfTypeReal(q: seq<Msg>, ty: int)
    requires RealPetents(q, ty)
    ensures forall k :: 0 <= k < |OfType(q, ty)| ==> OfType(q, ty)[k].t.requester > 26
    decreases |q|
  {
    if q != [] {
      OfTypeReal(q[..|q| - 1], ty);
    }
  }

  lemma DrainKeepsReal(q: seq<Msg>, ty: int, other: int, desk: int)
    requires 11 <= ty <= 26 && 11 <= other <= 26 && RealPetents(q, ty) && RealPetents(q, other)
    ensures RealPetents(DrainedOnce(q, ty, desk), other)
  {
    OthersReal(q, ty, other);
    OfTypeReal(q, ty);
    AllDismissalsElsewhere(OfType(q, ty), other, desk);
  }

  /** Closing leaves nobody on the desk's two queues, keeps all other messages in their order,
      and adds one report and one dismissal per petent, those with priority first. */
  lemma DrainedCompletely(q: seq<Msg>, desk: int)
    requires 1 <= desk <= 6
    requires RealPetents(q, DeskQueue(desk, true)) && RealPetents(q, DeskQueue(desk, false))
    ensures var urgent, normal := DeskQueue(desk, true), DeskQueue(desk, false);
      && Drained(q, desk) == Others(Others(q, urgent), normal)
                             + (Dismissals(OfType(q, urgent), desk) + Dismissals(OfType(q, normal), desk))
      && OfType(Drained(q, desk), urgent) == [] && OfType(Drained(q, desk), normal) == []
  {
    var urgent, normal := DeskQueue(desk, true), DeskQueue(desk, false);
    var p, u, n := Others(q, urgent), Dismissals(OfType(q, urgent), desk), Dismissals(OfType(q, normal), desk);
    OfTypeReal(q, urgent);
    OfTypeReal(q, normal);
    var q1 := p + u;
    assert Others(q1, normal) == Others(p, normal) + u && OfType(q1, normal) == OfType(q, normal) by {
      AllDismissalsElsewhere(OfType(q, urgent), normal, desk);
      OthersConcat(p, u, normal);
      OfTypeConcat(p, u, normal);
      OfTypeOfOthers(q, urgent, normal);
    }
    Regroup(Others(p, normal), u, n);
    DrainedHolds(q, desk);
  }

  lemma DrainedHolds(q: seq<Msg>, desk: int)
    requires 1 <= desk <= 6
    requires RealPetents(q, DeskQueue(desk, true)) && RealPetents(q, DeskQueue(desk, false))
    ensures OfType(Drained(q, desk), DeskQueue(desk, true)) == [] && OfType(Drained(q, desk), DeskQueue(desk, false)) == []
  {
    var urgent, normal := DeskQueue(desk, true), DeskQueue(desk, false);
    DrainKeepsReal(q, urgent, normal, desk);
    DrainLeavesNone(q, urgent, urgent, desk);
    var q1 := DrainedOnce(q, urgent, desk);
    DrainLeavesNone(q1, normal, normal, desk);
    DrainLeavesNone(q1, normal, urgent, desk);
  }

  lemma DrainLeavesNone(q: seq<Msg>, ty: int, other: int, desk: int)
    requires 11 <= ty <= 26 && 11 <= other <= 26 && RealPetents(q, ty)
    requires other == ty || OfType(q, other) == []
    ensures OfType(DrainedOnce(q, ty, desk), other) == []
  {
    OfTypeReal(q, ty);
    AllDismissalsElsewhere(OfType(q, ty), other, desk);
    OfTypeOfOthers(q, ty, other);
    OfTypeConcat(Others(q, ty), Dismissals(OfType(q, ty), desk), other);
  }

  /** Closing a desk: the priority queue first, then the normal one. */
  method CloseDesk(mem: Memory, desk: int)
    requires 1 <= desk <= 6
    requires RealPetents(mem.sh.queue, DeskQueue(desk, true)) && RealPetents(mem.sh.queue, DeskQueue(desk, false))
    modifies mem
    ensures mem.sh.queue == Drained(old(mem.sh.queue), desk)
    ensures OnlyMessagesMoved(old(mem.sh), mem.sh)
  {
    DrainKeepsReal(mem.sh.queue, DeskQueue(desk, true), DeskQueue(desk, false), desk);
    DrainQueue(mem, desk + PRIORITY_OFFSET, desk);
    DrainQueue(mem, desk + WORKER_OFFSET, desk);
  }

  // ----- the same through the steps of the protocol -----

  predicate AtDrain(sv: S.Server, urgent: bool) { sv.desk != S.MACHINE && sv.pc == S.Draining(S.DrainPoll, urgent) }

  /** One petent is taken, reported and dismissed in three steps. */
  lemma DismissAlone(a: ServerScene, urgent: bool, c: S.Chance) returns (b: ServerScene)
    requires WellFormed(a.sh) && 1 <= a.me.desk <= 6 && AtDrain(a.me, urgent)
    requires Has(a.sh, S.PollQueue(a.me)) && Front(a.sh, S.PollQueue(a.me)).t.requester > 26
    ensures WellFormed(b.sh) && AtDrain(b.me, urgent) && b.me.desk == a.me.desk
    ensures Reaches(a, b, ServerSteps(c))
    ensures b.sh.queue == DismissedOne(a.sh.queue, FirstOf(a.sh.queue, S.PollQueue(a.me)), a.me.desk)
    ensures OnlyMessagesMoved(a.sh, b.sh)
  {
    var s1 := Move(a, c);
    b := SendBothAlone(s1, Front(a.sh, S.PollQueue(a.me)), urgent, c);
    MoveThen(a, b, c);
  }

  /** Report and dismissal. */
  lemma SendBothAlone(a: ServerScene, m: Msg, urgent: bool, c: S.Chance) returns (b: ServerScene)
    requires WellFormed(a.sh) && 1 <= a.me.desk <= 6 && a.me.pc == S.Draining(S.DrainReport, urgent)
    requires m.t == a.me.req == a.me.tck && m.t.requester > 26
    ensures Reaches(a, b, ServerSteps(c)) && b.me == a.me.(pc := S.Draining(S.DrainPoll, urgent))
    ensures b.sh == a.sh.(queue := a.sh.queue + Dismissals([m], a.me.desk), sent := a.sh.sent + Dismissals([m], a.me.desk))
  {
    var s1 := Move(a, c);
    b := Move(s1, c);
    var report, dismissal := Msg(S.Rejection(a.me), a.me.req), Msg(S.Dismissal(a.me), a.me.req);
    assert Dismissals([m], a.me.desk) == [report] + [dismissal] by {
      DismissalsAre([m], a.me.desk, 0);
    }
    Regroup(a.sh.queue, [report], [dismissal]);
    Regroup(a.sh.sent, [report], [dismissal]);
    MoveThen(s1, b, c);
    MoveThen(a, b, c);
  }

  /** Left alone, a desk's drain of one queue has the effect of its loop. */
  lemma {:induction false} DrainAlone(a: ServerScene, urgent: bool, c: S.Chance, q0: seq<Msg>, done: seq<Msg>) returns (b: ServerScene)
    requires WellFormed(a.sh) && 1 <= a.me.desk <= 6 && AtDrain(a.me, urgent)
    requires DrainedSoFar(q0, done, a.sh.queue, DeskQueue(a.me.desk, urgent), a.me.desk)
    ensures Reaches(a, b, ServerSteps(c)) && WellFormed(b.sh) && b.me.desk == a.me.desk
    ensures b.sh.queue == DrainedOnce(q0, DeskQueue(a.me.desk, urgent), a.me.desk) && OnlyMessagesMoved(a.sh, b.sh)
    ensures if urgent then AtDrain(b.me, false) else b.me.pc == S.Stopped
    decreases |OfType(a.sh.queue, DeskQueue(a.me.desk, urgent))|
  {
    var ty := S.PollQueue(a.me);
    if Has(a.sh, ty) {
      var s1 := DismissAlone(a, urgent, c);
      DrainProgress(q0, done, a.sh.queue, ty, a.me.desk);
      b := DrainAlone(s1, urgent, c, q0, done + [Front(a.sh, ty)]);
      Chain(a, s1, b, ServerSteps(c));
    } else {
      DrainEnds(q0, done, a.sh.queue, ty, a.me.desk);
      b := Move(a, c);
        MoveThen(a, b, c);
    }
  }

  /** Left alone, the steps of a closing desk have the effect of CloseDesk. */
  lemma ClosingAlone(a: ServerScene, c: S.Chance) returns (b: ServerScene)
    requires WellFormed(a.sh) && 1 <= a.me.desk <= 6 && AtDrain(a.me, true)
    requires RealPetents(a.sh.queue, DeskQueue(a.me.desk, true)) && RealPetents(a.sh.queue, DeskQueue(a.me.desk, false))
    ensures Reaches(a, b, ServerSteps(c)) && b.me.pc == S.Stopped && b.sh.queue == Drained(a.sh.queue, a.me.desk)
    ensures OnlyMessagesMoved(a.sh, b.sh)
  {
    var desk := a.me.desk;
    DrainBegins(a.sh.queue, DeskQueue(desk, true), desk);
    var s1 := DrainAlone(a, true, c, a.sh.queue, []);
    DrainKeepsReal(a.sh.queue, DeskQueue(desk, true), DeskQueue(desk, false), desk);
    DrainBegins(s1.sh.queue, DeskQueue(desk, false), desk);
    b := DrainAlone(s1, false, c, s1.sh.queue, []);
    Chain(a, s1, b, ServerSteps(c));
  }

  /** A clerk that has read the flag leaves its loop to drain when the office is closed or the
      director has sent it home, and drains both queues before it stops. */
  lemma LeavesAlone(a: ServerScene, c: S.Chance) returns (b: ServerScene)
    requires WellFormed(a.sh) && 1 <= a.me.desk <= 6
    requires a.me.pc.Fresh? && a.me.pc.at.FreshUnlock? && (!a.me.pc.at.sawOpen || c.signalled)
    requires RealPetents(a.sh.queue, DeskQueue(a.me.desk, true)) && RealPetents(a.sh.queue, DeskQueue(a.me.desk, false))
    ensures Reaches(a, b, ServerSteps(c)) && b.me.pc == S.Stopped
    ensures var free := a.sh.(semlock := a.sh.semlock + 1);
      b.sh.queue == Drained(a.sh.queue, a.me.desk) && OnlyMessagesMoved(free, b.sh)
  {
    var s1 := Move(a, c);
    b := ClosingAlone(s1, c);
    MoveThen(a, b, c);
  }

  /** The same from the head of the loop: signalled there, or at a closed office. */
  lemma EndsAlone(a: ServerScene, active: bool, c: S.Chance) returns (b: ServerScene)
    requires WellFormed(a.sh) && 1 <= a.me.desk <= 6 && a.sh.semlock >= 1
    requires a.me.pc == S.Fresh(S.FreshLock, active) && (!a.sh.isOpened || c.signalled)
    requires RealPetents(a.sh.queue, DeskQueue(a.me.desk, true)) && RealPetents(a.sh.queue, DeskQueue(a.me.desk, false))
    ensures Reaches(a, b, ServerSteps(c)) && b.me.pc == S.Stopped
    ensures b.sh.queue == Drained(a.sh.queue, a.me.desk) && OnlyMessagesMoved(a.sh, b.sh)
  {
    if c.signalled {
      var s1 := Move(a, c);
      b := ClosingAlone(s1, c);
      MoveThen(a, b, c);
    } else {
      var s1 := FlagAlone(a, active, c);
      b := ClosingAlone(s1, c);
      Chain(a, s1, b, ServerSteps(c));
    }
  }

  // ----- and one service -----

  /** Numbering and answering, or answering and reporting. */
  lemma FinishAlone(a: ServerScene, c: S.Chance) returns (b: ServerScene)
    requires WellFormed(a.sh) && a.sh.semlock >= 1 && 1 <= a.me.desk <= 6 && a.me.req.requester > 26
    requires a.me.tck.requester == a.me.req.requester
    requires a.me.pc == S.Serving(if a.me.tck.ticketid != -1 then S.NumLock else S.Reply)
    ensures Reaches(a, b, ServerSteps(c)) && b.me.pc == S.Checking(S.CheckLock) && b.me.desk == a.me.desk
    ensures var out := Closing(a.me.req, a.me.tck, a.me.desk, a.sh.takenCount + 1);
      b.sh == a.sh.(takenCount := if a.me.tck.ticketid != -1 then a.sh.takenCount + 1 else a.sh.takenCount,
                    queue := a.sh.queue + out, sent := a.sh.sent + out)
  {
    if a.me.tck.ticketid != -1 {
      b := NumberAlone(a, c);
    } else {
      b := RejectAlone(a, c);
    }
  }

  lemma NumberAlone(a: ServerScene, c: S.Chance) returns (b: ServerScene)
    requires WellFormed(a.sh) && a.sh.semlock >= 1 && 1 <= a.me.desk <= 6 && a.me.req.requester > 26
    requires a.me.tck.requester == a.me.req.requester && a.me.tck.ticketid != -1 && a.me.pc == S.Serving(S.NumLock)
    ensures Reaches(a, b, ServerSteps(c)) && b.me.pc == S.Checking(S.CheckLock) && b.me.desk == a.me.desk
    ensures var out := Closing(a.me.req, a.me.tck, a.me.desk, a.sh.takenCount + 1);
      b.sh == a.sh.(takenCount := a.sh.takenCount + 1, queue := a.sh.queue + out, sent := a.sh.sent + out)
  {
    var s3 := CountAlone(a, c);
    var s4 := Move(s3, c);
    b := Move(s4, c);
    MoveThen(s4, b, c);
    MoveThen(s3, b, c);
    Chain(a, s3, b, ServerSteps(c));
  }

  /** ++taken_ticket_count under the lock, in three steps. */
  lemma CountAlone(a: ServerScene, c: S.Chance) returns (b: ServerScene)
    requires WellFormed(a.sh) && a.sh.semlock >= 1 && 1 <= a.me.desk <= 6 && a.me.pc == S.Serving(S.NumLock)
    ensures Reaches(a, b, ServerSteps(c))
    ensures b.sh == a.sh.(semlock := a.sh.semlock - 1, takenCount := a.sh.takenCount + 1)
    ensures b.me == a.me.(pc := S.Serving(S.NumUnlock), tck := a.me.tck.(ticketid := a.sh.takenCount + 1))
  {
    var s1 := Move(a, c);
    var s2 := Move(s1, c);
    b := Move(s2, c);
    MoveThen(s2, b, c);
    MoveThen(s1, b, c);
    MoveThen(a, b, c);
  }

  lemma RejectAlone(a: ServerScene, c: S.Chance) returns (b: ServerScene)
    requires WellFormed(a.sh) && 1 <= a.me.desk <= 6 && a.me.req.requester > 26
    requires a.me.tck.requester == a.me.req.requester && a.me.tck.ticketid == -1 && a.me.pc == S.Serving(S.Reply)
    ensures Reaches(a, b, ServerSteps(c)) && b.me.pc == S.Checking(S.CheckLock) && b.me.desk == a.me.desk
    ensures var out := Closing(a.me.req, a.me.tck, a.me.desk, a.sh.takenCount + 1);
      b.sh == a.sh.(queue := a.sh.queue + out, sent := a.sh.sent + out)
  {
    var s1 := Move(a, c);
    b := Move(s1, c);
    var out := Closing(a.me.req, a.me.tck, a.me.desk, a.sh.takenCount + 1);
    assert b.sh.queue == a.sh.queue + out;
    assert b.sh.sent == a.sh.sent + out;
    MoveThen(s1, b, c);
    MoveThen(a, b, c);
  }

  lemma DecideAlone(a: ServerScene, c: S.Chance) returns (b: ServerScene)
    requires WellFormed(a.sh) && a.me.pc == S.Serving(S.Decide)
    ensures Reaches(a, b, ServerSteps(c)) && WellFormed(b.sh)
    ensures var i := LimitIndex(S.PickOffice(c.pick)); var place := a.sh.limits[i] >= 1;
      var t := S.Routed(a.me.tck, a.me.desk, a.me.priority, c, place);
      && b.sh == (if a.me.desk == SA && c.redirect && place
                  then a.sh.(limits := a.sh.limits[i := a.sh.limits[i] - 1]) else a.sh)
      && b.me == a.me.(pc := S.Serving(if t.ticketid != -1 then S.NumLock else S.Reply), tck := t)
  {
    b := Move(a, c);
    MoveThen(a, b, c);
  }

  /** Left alone, the steps of a clerk's service have the effect of ServeTicket. */
  lemma ServiceAlone(a: ServerScene, c: S.Chance) returns (b: ServerScene)
    requires WellFormed(a.sh) && a.sh.semlock >= 1 && 1 <= a.me.desk <= 6
    requires a.me.pc == S.Serving(S.Decide) && a.me.req == a.me.tck && a.me.tck.requester > 26
    ensures Reaches(a, b, ServerSteps(c)) && b.me.pc == S.Checking(S.CheckLock) && b.me.desk == a.me.desk
    ensures b.sh == ServedBy(a.sh, a.me.req, a.me.desk, a.me.priority, c)
  {
    var s1 := DecideAlone(a, c);
    b := FinishAlone(s1, c);
    Chain(a, s1, b, ServerSteps(c));
  }

  // ----- one round of the loop -----

  /** Which queue a clerk takes the next petent from: the priority queue while anyone is there. */
  function NextQueue(sh: Shared, desk: int): int
  {
    if Has(sh, DeskQueue(desk, true)) then DeskQueue(desk, true) else DeskQueue(desk, false)
  }

  /** What one round of a clerk at an open office does: one service, if anyone is there, and the
      check of the entry lock after it. */
  function Turned(sh: Shared, desk: int, c: S.Chance): Shared
    requires WellFormed(sh)
  {
    var ty := NextQueue(sh, desk);
    if !Has(sh, ty) then sh
    else Checked(ServedBy(Perform(sh, Receive(ty)), Front(sh, ty).t, desk, ty == DeskQueue(desk, true), c))
  }

  lemma ServedWell(sh: Shared, t: Ticket, desk: int, vip: bool, c: S.Chance)
    requires WellFormed(sh)
    ensures WellFormed(ServedBy(sh, t, desk, vip, c))
  {
  }

  /** The round up to the check; sig1 is the director's signal as seen at the head of the loop or
      after the look at the flag. */
  method Turn(mem: Memory, desk: int, sig1: bool, r0: nat, r1: nat, r2: nat) returns (goesOn: bool)
    requires WellFormed(mem.sh) && mem.sh.semlock >= 1 && 1 <= desk <= 6
    requires RealPetents(mem.sh.queue, DeskQueue(desk, true)) && RealPetents(mem.sh.queue, DeskQueue(desk, false))
    modifies mem
    ensures goesOn <==> old(mem.sh).isOpened && !sig1
    ensures mem.sh == if goesOn then Turned(old(mem.sh), desk, Drawn(r0, r1, r2)) else old(mem.sh)
  {
    var isOpened := LookAtFlag(mem);
    if !isOpened || sig1 {
      return false;
    }
    goesOn := true;
    var vip := true;
    var m := mem.TryReceive(desk + PRIORITY_OFFSET);
    if m.None? {
      vip := false;
      m := mem.TryReceive(desk + WORKER_OFFSET);
      if m.None? {
        return;
      }
    }
    ServeTicket(mem, m.value.t, desk, vip, r0, r1, r2);
    ServedWell(Perform(old(mem.sh), Receive(DeskQueue(desk, vip))), m.value.t, desk, vip, Drawn(r0, r1, r2));
    CheckEntryLock(mem);
  }

  /** Left alone, the steps of a clerk in one round at an open office have the effect of Turn. */
  lemma TurnAlone(a: ServerScene, active: bool, c: S.Chance) returns (b: ServerScene)
    requires WellFormed(a.sh) && a.sh.semlock >= 1 && 1 <= a.me.desk <= 6 && a.sh.isOpened && !c.signalled
    requires RealPetents(a.sh.queue, DeskQueue(a.me.desk, true)) && RealPetents(a.sh.queue, DeskQueue(a.me.desk, false))
    requires a.me.pc == S.Fresh(S.FreshLock, active)
    ensures Reaches(a, b, ServerSteps(c)) && b.me.desk == a.me.desk && b.me.pc == S.Fresh(S.FreshLock, true)
    ensures b.sh == Turned(a.sh, a.me.desk, c)
  {
    var s1 := FlagAlone(a, active, c);
    var s2 := TakeAlone(s1, c);
    Chain(a, s1, s2, ServerSteps(c));
    b := s2;
    if s2.me.pc == S.Serving(S.Decide) {
      var s3 := ServiceAlone(s2, c);
      ServedWell(s2.sh, s2.me.req, a.me.desk, s2.me.priority, c);
      b := CheckAlone(s3, c);
      Chain(s2, s3, b, ServerSteps(c));
      Chain(a, s2, b, ServerSteps(c));
    }
  }

  /** The clerk looks at its priority queue first, and at the normal one when nobody is there. */
  lemma TakeAlone(a: ServerScene, c: S.Chance) returns (b: ServerScene)
    requires WellFormed(a.sh) && 1 <= a.me.desk <= 6 && a.me.pc == S.Poll
    ensures Reaches(a, b, ServerSteps(c)) && WellFormed(b.sh) && b.me.desk == a.me.desk
    ensures var ty := NextQueue(a.sh, a.me.desk);
      if !Has(a.sh, ty) then b.sh == a.sh && b.me.pc == S.Fresh(S.FreshLock, true)
      else
        && b.sh == Perform(a.sh, Receive(ty)) && b.me.pc == S.Serving(S.Decide)
        && b.me.req == b.me.tck == Front(a.sh, ty).t && b.me.priority == (ty == DeskQueue(a.me.desk, true))
  {
    var s1 := Move(a, c);
    b := s1;
    if s1.me.pc == S.PollNormal {
      b := Move(s1, c);
      MoveThen(s1, b, c);
    }
    MoveThen(a, b, c);
  }
}
