/**
 * rejestracja.c in its own form: what a ticket machine does with one request between taking
 * and releasing the lock, and the daily limits seen as one counter per office.
 */
module MachineProgram {
  import opened Tickets
  import opened SharedState
  import opened Memory
  import opened Mailbox
  import opened Rounds
  import opened Solo
  import S = Server

  // ----- the two limits of SA -----

  /** What a machine's tries leave of the limits; nothing changes when there is no place. */
  function LimitsAfter(limits: seq<int>, f: int, second: bool): (r: seq<int>)
    requires |limits| == 6
    ensures |r| == 6
  {
    var i := S.FirstPlace(f, second);
    if limits[i] >= 1 then limits[i := limits[i] - 1]
    else if f == SA && limits[if i == SA1 then SA2 else SA1] >= 1 then
      var o := if i == SA1 then SA2 else SA1; limits[o := limits[o] - 1]
    else limits
  }

  /** Whichever of the two limits the coin picks first, SA has one counter: a request gets a
      place exactly when the sum is not 0, and takes one off it; other offices are untouched. */
  lemma OneCounter(limits: seq<int>, f: int, second: bool, g: int)
    requires |limits| == 6 && (forall k :: 0 <= k < 6 ==> limits[k] >= 0) && IsOffice(f) && IsOffice(g)
    ensures var r := LimitsAfter(limits, f, second);
      && (forall k :: 0 <= k < 6 ==> r[k] >= 0)
      && (r == limits <==> OfficeLimit(limits, f) == 0)
      && OfficeLimit(r, g) == OfficeLimit(limits, g) - if g == f && OfficeLimit(limits, f) >= 1 then 1 else 0
  {
    var i := S.FirstPlace(f, second);
    assert limits[i] >= 1 ==> LimitsAfter(limits, f, second)[i] != limits[i];
    if f == SA {
      var o := if i == SA1 then SA2 else SA1;
      assert limits[i] == 0 && limits[o] >= 1 ==> LimitsAfter(limits, f, second)[o] != limits[o];
    }
  }

  /** Each side of the coin takes from its own limit of SA while that has a place. */
  lemma CoinChooses(limits: seq<int>, second: bool)
    requires |limits| == 6
    ensures var own, other := if second then SA1 else SA2, if second then SA2 else SA1;
      var r := LimitsAfter(limits, SA, second);
      && (limits[own] >= 1 ==> r[own] == limits[own] - 1 && r[other] == limits[other])
      && (limits[own] < 1 && limits[other] >= 1 ==> r[other] == limits[other] - 1 && r[own] == limits[own])
  {
  }

  /** The limits after a whole day of requests for office f, one coin each. */
  function LimitsAfterAll(limits: seq<int>, f: int, coins: seq<bool>): (r: seq<int>)
    requires |limits| == 6
    ensures |r| == 6
  {
    if coins == [] then limits
    else LimitsAfter(LimitsAfterAll(limits, f, coins[..|coins| - 1]), f, coins[|coins| - 1])
  }

  /** Over any requests and any coins, an office serves exactly its initial total and then
      denies: after n requests max(total - n, 0) places are left. */
  lemma {:induction false} ExactlyTheTotal(limits: seq<int>, f: int, coins: seq<bool>)
    requires |limits| == 6 && (forall k :: 0 <= k < 6 ==> limits[k] >= 0) && IsOffice(f)
    ensures var r := LimitsAfterAll(limits, f, coins);
      && (forall k :: 0 <= k < 6 ==> r[k] >= 0)
      && OfficeLimit(r, f) == if |coins| <= OfficeLimit(limits, f) then OfficeLimit(limits, f) - |coins| else 0
    decreases |coins|
  {
    if coins != [] {
      var n := |coins| - 1;
      ExactlyTheTotal(limits, f, coins[..n]);
      OneCounter(LimitsAfterAll(limits, f, coins[..n]), f, coins[n], f);
    }
  }

  // ----- printing one ticket -----

  /** The answer and, for a denial, the report. */
  function Printed(t: Ticket, number: int): seq<Msg>
  {
    var a := t.(mtype := t.requester, ticketid := number, queueid := DeskQueue(t.faculty, t.redirectedFrom == 1));
    if number != -1 then [Msg(a, t)]
    else [Msg(a, t), Msg(a.(mtype := REPORT_QUEUE, ticketid := t.ticketid, queueid := 1), t)]
  }

  /** The whole effect of serving request t. */
  function Served(sh: Shared, t: Ticket, second: bool): Shared
    requires WellFormed(sh)
  {
    var place := OfficeLimit(sh.limits, t.faculty) >= 1;
    var out := Printed(t, if place then sh.takenCount + 1 else -1);
    sh.(limits := LimitsAfter(sh.limits, t.faculty, second),
        takenCount := if place then sh.takenCount + 1 else sh.takenCount,
        queue := sh.queue + out, sent := sh.sent + out)
  }

  /** The critical section of a machine around one request. */
  method PrintTicket(mem: Memory, tck: Ticket, second: bool)
    requires WellFormed(mem.sh) && mem.sh.semlock >= 1
    requires tck.requester > 26 && IsOffice(tck.faculty)
    modifies mem
    ensures mem.sh == Served(old(mem.sh), tck, second)
  {
    mem.Do(LockRecord);
    var number := -1;
    var status := TakePlaceFor(mem, tck.faculty, second);
    if status != -1 {
      var count := mem.sh.takenCount;
      mem.Do(WriteCount(count + 1));
      number := count + 1;
    }
    AnswerAndReport(mem, tck, number);
    mem.Do(UnlockRecord);
  }

  /** Rewrites the ticket for the petent, and once more for the director after a denial. */
  method AnswerAndReport(mem: Memory, request: Ticket, number: int)
    requires request.requester > 26
    modifies mem
    ensures mem.sh == old(mem.sh).(queue := old(mem.sh).queue + Printed(request, number),
                                   sent := old(mem.sh).sent + Printed(request, number))
  {
    var tck := request;
    var originalTicketId := tck.ticketid;
    var originalFaculty := tck.faculty;
    tck := tck.(ticketid := number);
    tck := tck.(mtype := tck.requester);
    tck := tck.(queueid := tck.faculty + if tck.redirectedFrom == 1 then PRIORITY_OFFSET else WORKER_OFFSET);
    mem.Do(Send(Msg(tck, request)));
    if tck.ticketid == -1 {
      tck := tck.(mtype := REPORT_QUEUE, ticketid := originalTicketId, faculty := originalFaculty, queueid := 1);
      mem.Do(Send(Msg(tck, request)));
    }
    assert mem.sh.queue == old(mem.sh).queue + Printed(request, number);
    assert mem.sh.sent == old(mem.sh).sent + Printed(request, number);
  }

  /** The switch over the faculty with its fallback for SA. */
  method TakePlaceFor(mem: Memory, faculty: int, second: bool) returns (status: int)
    requires WellFormed(mem.sh) && IsOffice(faculty)
    modifies mem
    ensures status == (if OfficeLimit(old(mem.sh).limits, faculty) >= 1 then 0 else -1)
    ensures mem.sh == old(mem.sh).(limits := LimitsAfter(old(mem.sh).limits, faculty, second))
  {
    if faculty == SA {
      if second {
        status := mem.TryPlace(SA1);
        if status == -1 {
          status := mem.TryPlace(SA2);
        }
      } else {
        status := mem.TryPlace(SA2);
        if status == -1 {
          status := mem.TryPlace(SA1);
        }
      }
    } else {
      status := mem.TryPlace(LimitIndex(faculty));
    }
  }

  // ----- the same through the steps of the protocol -----

  /** Handing out a ticket: load, store, answer, unlock. */
  lemma GrantAlone(a: ServerScene, c: S.Chance) returns (b: ServerScene)
    requires WellFormed(a.sh) && a.me.desk == S.MACHINE && a.me.pc == S.Serving(S.Load)
    requires a.me.tck.requester > 26 && a.me.req == a.me.tck
    ensures Reaches(a, b, ServerSteps(c)) && b.me.pc == S.Checking(S.CheckLock) && b.me.desk == S.MACHINE
    ensures b.sh == a.sh.(semlock := a.sh.semlock + 1, takenCount := a.sh.takenCount + 1,
      queue := a.sh.queue + Printed(a.me.tck, a.sh.takenCount + 1),
      sent := a.sh.sent + Printed(a.me.tck, a.sh.takenCount + 1))
  {
    var s1 := Move(a, c);
    var s2 := Move(s1, c);
    b := HandOutAlone(s2, a.me.req, c);
    MoveThen(s1, b, c);
    MoveThen(a, b, c);
  }

  lemma HandOutAlone(a: ServerScene, request: Ticket, c: S.Chance) returns (b: ServerScene)
    requires WellFormed(a.sh) && a.me.desk == S.MACHINE && a.me.pc == S.Serving(S.Reply)
    requires request.requester > 26 && a.me.req == request
    requires a.me.tck == request.(ticketid := a.me.tck.ticketid) && a.me.tck.ticketid >= 1
    ensures Reaches(a, b, ServerSteps(c)) && b.me.pc == S.Checking(S.CheckLock) && b.me.desk == S.MACHINE
    ensures var out := Printed(request, a.me.tck.ticketid);
      b.sh == a.sh.(semlock := a.sh.semlock + 1, queue := a.sh.queue + out, sent := a.sh.sent + out)
  {
    var s1 := Move(a, c);
    b := Move(s1, c);
    MoveThen(s1, b, c);
    MoveThen(a, b, c);
  }

  /** Turning a petent away: answer, report, unlock. */
  lemma DenyAlone(a: ServerScene, request: Ticket, c: S.Chance) returns (b: ServerScene)
    requires WellFormed(a.sh) && a.me.desk == S.MACHINE && a.me.pc == S.Serving(S.Reply)
    requires request.requester > 26 && a.me.req == request && a.me.tck == request.(ticketid := -1)
    ensures Reaches(a, b, ServerSteps(c)) && b.me.pc == S.Checking(S.CheckLock) && b.me.desk == S.MACHINE
    ensures b.sh == a.sh.(semlock := a.sh.semlock + 1,
      queue := a.sh.queue + Printed(request, -1), sent := a.sh.sent + Printed(request, -1))
  {
    var s1 := Move(a, c);
    var s2 := Move(s1, c);
    b := Move(s2, c);
    assert b.sh.queue == a.sh.queue + Printed(request, -1);
    assert b.sh.sent == a.sh.sent + Printed(request, -1);
    MoveThen(s2, b, c);
    MoveThen(s1, b, c);
    MoveThen(a, b, c);
  }

  lemma AnswerAlone(a: ServerScene, request: Ticket, c: S.Chance) returns (b: ServerScene)
    requires WellFormed(a.sh) && a.me.desk == S.MACHINE && request.requester > 26 && a.me.req == request
    requires (a.me.pc == S.Serving(S.Load) && a.me.tck == request)
      || (a.me.pc == S.Serving(S.Reply) && a.me.tck == request.(ticketid := -1))
    ensures Reaches(a, b, ServerSteps(c)) && b.me.pc == S.Checking(S.CheckLock) && b.me.desk == S.MACHINE
    ensures var granted := a.me.pc == S.Serving(S.Load); var n := a.sh.takenCount + 1;
      var out := Printed(request, if granted then n else -1);
      b.sh == a.sh.(semlock := a.sh.semlock + 1, takenCount := if granted then n else a.sh.takenCount,
                    queue := a.sh.queue + out, sent := a.sh.sent + out)
  {
    if a.me.pc == S.Serving(S.Load) {
      b := GrantAlone(a, c);
    } else {
      b := DenyAlone(a, request, c);
    }
  }

  lemma SecondTryAlone(a: ServerScene, c: S.Chance, idx: nat) returns (b: ServerScene)
    requires WellFormed(a.sh) && idx < 6 && a.me.pc == S.Serving(S.SecondTry(idx))
    ensures Reaches(a, b, ServerSteps(c))
    ensures if a.sh.limits[idx] >= 1
            then b == Scene(a.sh.(limits := a.sh.limits[idx := a.sh.limits[idx] - 1]), a.me.(pc := S.Serving(S.Load)))
            else b == Scene(a.sh, a.me.(pc := S.Serving(S.Reply), tck := a.me.tck.(ticketid := -1)))
  {
    b := Move(a, c);
    MoveThen(a, b, c);
  }

  lemma FirstTryAlone(a: ServerScene, c: S.Chance) returns (b: ServerScene)
    requires WellFormed(a.sh) && a.me.pc == S.Serving(S.FirstTry) && IsOffice(a.me.tck.faculty)
    ensures Reaches(a, b, ServerSteps(c))
    ensures var i := S.FirstPlace(a.me.tck.faculty, c.second);
      if a.sh.limits[i] >= 1
      then b == Scene(a.sh.(limits := a.sh.limits[i := a.sh.limits[i] - 1]), a.me.(pc := S.Serving(S.Load)))
      else if a.me.tck.faculty == SA
      then b == Scene(a.sh, a.me.(pc := S.Serving(S.SecondTry(if i == SA1 then SA2 else SA1))))
      else b == Scene(a.sh, a.me.(pc := S.Serving(S.Reply), tck := a.me.tck.(ticketid := -1)))
  {
    b := Move(a, c);
    MoveThen(a, b, c);
  }

  /** The tries: they end at the grant or at the denial, with the limits as they should be. */
  lemma TriesAlone(a: ServerScene, c: S.Chance) returns (b: ServerScene)
    requires WellFormed(a.sh) && a.me.pc == S.Serving(S.FirstTry) && IsOffice(a.me.tck.faculty)
    ensures Reaches(a, b, ServerSteps(c))
    ensures b.sh == a.sh.(limits := LimitsAfter(a.sh.limits, a.me.tck.faculty, c.second))
    ensures b.me == if OfficeLimit(a.sh.limits, a.me.tck.faculty) >= 1 then a.me.(pc := S.Serving(S.Load))
                    else a.me.(pc := S.Serving(S.Reply), tck := a.me.tck.(ticketid := -1))
  {
    var s1 := FirstTryAlone(a, c);
    if s1.me.pc.serve.SecondTry? {
      b := SecondTryAlone(s1, c, s1.me.pc.serve.idx);
      Chain(a, s1, b, ServerSteps(c));
    } else {
      b := s1;
    }
  }

  /** Left alone, the steps of a machine around one request have the effect of PrintTicket. */
  lemma MachineAlone(a: ServerScene, c: S.Chance) returns (b: ServerScene)
    requires WellFormed(a.sh) && a.sh.semlock >= 1
    requires a.me.desk == S.MACHINE && a.me.pc == S.Serving(S.GrantLock)
    requires a.me.req == a.me.tck && a.me.tck.requester > 26 && IsOffice(a.me.tck.faculty)
    ensures Reaches(a, b, ServerSteps(c)) && b.me.pc == S.Checking(S.CheckLock) && b.me.desk == S.MACHINE
    ensures b.sh == Served(a.sh, a.me.tck, c.second)
  {
    var s1 := Move(a, c);
    b := LockedAlone(s1, c);
    MoveThen(a, b, c);
  }

  lemma LockedAlone(a: ServerScene, c: S.Chance) returns (b: ServerScene)
    requires WellFormed(a.sh)
    requires a.me.desk == S.MACHINE && a.me.pc == S.Serving(S.FirstTry)
    requires a.me.req == a.me.tck && a.me.tck.requester > 26 && IsOffice(a.me.tck.faculty)
    ensures Reaches(a, b, ServerSteps(c)) && b.me.pc == S.Checking(S.CheckLock) && b.me.desk == S.MACHINE
    ensures var served := Served(a.sh, a.me.tck, c.second); b.sh == served.(semlock := served.semlock + 1)
  {
    var s1 := TriesAlone(a, c);
    OneCounter(a.sh.limits, a.me.tck.faculty, c.second, a.me.tck.faculty);
    b := AnswerAlone(s1, a.me.tck, c);
    Chain(a, s1, b, ServerSteps(c));
  }

  // ----- one round of the loop -----

  /** What one round of a machine that is on and stays on does. */
  function Turned(sh: Shared, second: bool): Shared
    requires WellFormed(sh)
  {
    Checked(if Has(sh, MACHINE_QUEUE) then Served(Perform(sh, Receive(MACHINE_QUEUE)), Front(sh, MACHINE_QUEUE).t, second)
            else sh)
  }

  /** The request at the front, if there is one, is a petent's and for an office. */
  predicate FrontLawful(sh: Shared)
  {
    Has(sh, MACHINE_QUEUE) ==> Front(sh, MACHINE_QUEUE).t.requester > 26 && IsOffice(Front(sh, MACHINE_QUEUE).t.faculty)
  }

  /** One round of the inner loop; fewWaiting is the machine's threshold. */
  method Turn(mem: Memory, fewWaiting: bool, second: bool) returns (goesOn: bool)
    requires WellFormed(mem.sh) && mem.sh.semlock >= 1 && FrontLawful(mem.sh)
    modifies mem
    ensures goesOn <==> old(mem.sh).isOpened && !fewWaiting
    ensures mem.sh == if goesOn then Turned(old(mem.sh), second) else old(mem.sh)
  {
    var isOpened := LookAtFlag(mem);
    if !isOpened || fewWaiting {
      return false;
    }
    var m := mem.TryReceive(MACHINE_QUEUE);
    if m.Some? {
      PrintTicket(mem, m.value.t, second);
      ServedWell(Perform(old(mem.sh), Receive(MACHINE_QUEUE)), m.value.t, second);
    }
    CheckEntryLock(mem);
    goesOn := true;
  }

  lemma ServedWell(sh: Shared, t: Ticket, second: bool)
    requires WellFormed(sh) && IsOffice(t.faculty)
    ensures WellFormed(Served(sh, t, second))
  {
    OneCounter(sh.limits, t.faculty, second, t.faculty);
  }

  /** Left alone, the steps of a machine in one round have the effect of Turn when it is on and
      stays on; otherwise it switches, stays off, or, at a closed office, stops. */
  lemma TurnAlone(a: ServerScene, active: bool, c: S.Chance) returns (b: ServerScene)
    requires WellFormed(a.sh) && a.sh.semlock >= 1 && FrontLawful(a.sh)
    requires a.me.desk == S.MACHINE && a.me.pc == S.Fresh(S.FreshLock, active)
    ensures Reaches(a, b, ServerSteps(c)) && b.me.desk == S.MACHINE
    ensures b.me.pc == if a.sh.isOpened then S.Fresh(S.FreshLock, c.toggle != active) else S.Stopped
    ensures b.sh == if a.sh.isOpened && active && !c.toggle then Turned(a.sh, c.second) else a.sh
  {
    var s1 := FlagAlone(a, active, c);
    b := s1;
    if s1.me.pc == S.Poll {
      b := PollAlone(s1, c);
      Chain(a, s1, b, ServerSteps(c));
    }
  }

  lemma PollAlone(a: ServerScene, c: S.Chance) returns (b: ServerScene)
    requires WellFormed(a.sh) && a.sh.semlock >= 1 && FrontLawful(a.sh)
    requires a.me.desk == S.MACHINE && a.me.pc == S.Poll
    ensures Reaches(a, b, ServerSteps(c)) && b.me.desk == S.MACHINE && b.me.pc == S.Fresh(S.FreshLock, true)
    ensures b.sh == Turned(a.sh, c.second)
  {
    var s1 := Move(a, c);
    var s2 := s1;
    if Has(a.sh, MACHINE_QUEUE) {
      s2 := MachineAlone(s1, c);
      ServedWell(s1.sh, s1.me.tck, c.second);
    }
    MoveThen(a, s2, c);
    b := CheckAlone(s2, c);
    Chain(a, s2, b, ServerSteps(c));
  }
}
