/**
 * The stretches of a petent's visit: in through the gate, to a machine, from clerk to clerk, and
 * home, whether served, denied, dismissed or called away.
 */
module Visits {
  import opened Tickets
  import opened Mailbox
  import opened SharedState
  import opened Registry
  import opened Solo
  import opened PetentProgram
  import P = Petent

  // ----- in -----

  /** A petent passes turnstile and gate. */
  lemma EnterAlone(a: PetentScene) returns (b: PetentScene)
    requires a.me.pc == P.Entering(P.Arrive) && !a.me.sig2
    requires a.sh.turnstile >= 1 && a.sh.semlock >= 1 && a.sh.building >= a.me.people
    ensures Reaches(a, b, PetentSteps())
    ensures b.sh == a.sh.(building := a.sh.building - a.me.people) && b.me == a.me.(pc := P.InLine(P.Inside))
  {
    var s1 := PetentMove(a);
    var s2 := PetentMove(s1);
    var s3 := PetentMove(s2);
    b := GateAlone(s3);
    PetentThen(s2, b);
    PetentThen(s1, b);
    PetentThen(a, b);
  }

  lemma GateAlone(a: PetentScene) returns (b: PetentScene)
    requires a.me.pc == P.Entering(P.PeekLock) && a.sh.semlock >= 1 && a.sh.building >= a.me.people
    ensures Reaches(a, b, PetentSteps())
    ensures b.sh == a.sh.(building := a.sh.building - a.me.people) && b.me == a.me.(pc := P.InLine(P.Inside))
  {
    var s1 := PetentMove(a);
    var s2 := PetentMove(s1);
    b := PeekedAlone(s2);
    PetentThen(s1, b);
    PetentThen(a, b);
  }

  lemma PeekedAlone(a: PetentScene) returns (b: PetentScene)
    requires a.me.pc == P.Entering(P.PeekUnlock) && a.sh.building >= a.me.people
    ensures Reaches(a, b, PetentSteps())
    ensures b.sh == a.sh.(semlock := a.sh.semlock + 1, building := a.sh.building - a.me.people)
    ensures b.me == a.me.(pc := P.InLine(P.Inside))
  {
    var s1 := PetentMove(a);
    b := PetentMove(s1);
    PetentThen(s1, b);
    PetentThen(a, b);
  }

  /** A petent inside sends its first request. */
  lemma AskAlone(a: PetentScene) returns (b: PetentScene)
    requires a.me.pc == P.InLine(P.Inside) && !a.me.sig2 && a.sh.tickets >= 1
    ensures Reaches(a, b, PetentSteps())
    ensures var r := P.FirstRequest(a.me);
      && b.sh == a.sh.(tickets := a.sh.tickets - 1, queue := a.sh.queue + [Msg(r, r)], sent := a.sh.sent + [Msg(r, r)])
      && b.me == a.me.(pc := P.InLine(P.AwaitTicket), tck := r, unanswered := true)
  {
    var s1 := PetentMove(a);
    var s2 := PetentMove(s1);
    b := PetentMove(s2);
    PetentThen(s2, b);
    PetentThen(s1, b);
    PetentThen(a, b);
  }

  /** A new petent gets in and asks for its ticket. */
  lemma ArriveAlone(a: PetentScene) returns (b: PetentScene)
    requires a.me.pc == P.NotStarted && !a.me.sig2 && FreeSlot(a.sh.pids) < |a.sh.pids|
    requires a.sh.semlock >= 1 && a.sh.turnstile >= 1 && a.sh.building >= a.me.people && a.sh.tickets >= 1
    ensures Reaches(a, b, PetentSteps())
    ensures var r := P.FirstRequest(a.me);
      && b.sh == a.sh.(pids := Entered(a.sh.pids, a.me.pid), building := a.sh.building - a.me.people,
                       tickets := a.sh.tickets - 1, queue := a.sh.queue + [Msg(r, r)], sent := a.sh.sent + [Msg(r, r)])
      && b.me == a.me.(pc := P.InLine(P.AwaitTicket), tck := r, unanswered := true)
  {
    var s1 := PetentMove(a);
    var s2 := RegisterAlone(s1);
    var s3 := EnterAlone(s2);
    b := AskAlone(s3);
    Chain(s2, s3, b, PetentSteps());
    Chain(s1, s2, b, PetentSteps());
    PetentThen(a, b);
  }

  /** A petent reads its ticket and goes to the clerks. */
  lemma TicketAlone(a: PetentScene) returns (b: PetentScene)
    requires a.me.pc == P.InLine(P.AwaitTicket) && Has(a.sh, a.me.pid) && Front(a.sh, a.me.pid).t.ticketid != -1
    ensures Reaches(a, b, PetentSteps())
    ensures var sh := Perform(a.sh, Receive(a.me.pid)); b.sh == sh.(tickets := sh.tickets + 1)
    ensures b.me == a.me.(pc := P.AtClerks(P.Loop), unanswered := false, visits := a.me.visits + [a.me.tck.mtype],
                          tck := Front(a.sh, a.me.pid).t)
  {
    var s1 := PetentMove(a);
    var s2 := PetentMove(s1);
    b := PetentMove(s2);
    PetentThen(s2, b);
    PetentThen(s1, b);
    PetentThen(a, b);
  }

  // ----- from clerk to clerk -----

  /** The place in the waiting room of office f given back, or taken. */
  function SlotsMoved(sh: Shared, p: P.Petent, f: int, change: int): Shared
    requires |sh.slots| == 5 && IsOffice(f)
  {
    if p.vip then sh else sh.(slots := sh.slots[f - 1 := sh.slots[f - 1] + change])
  }

  /** Once petent p has read its answer and left the waiting room. */
  function Heard(sh: Shared, p: P.Petent): Shared
    requires |sh.slots| == 5 && IsOffice(p.queueIdx) && Has(sh, p.pid)
  {
    SlotsMoved(Perform(sh, Receive(p.pid)), p, p.queueIdx, 1)
  }

  /** A petent reads a clerk's answer: refused a place for good it goes home, otherwise round the
      loop. */
  lemma HearAlone(a: PetentScene) returns (b: PetentScene)
    requires a.me.pc == P.AtClerks(P.AwaitClerk) && P.PetentOk(a.me) && Has(a.sh, a.me.pid) && |a.sh.slots| == 5
    ensures Reaches(a, b, PetentSteps()) && b.sh == Heard(a.sh, a.me)
    ensures var t := Front(a.sh, a.me.pid).t;
      b.me == a.me.(pc := if t.ticketid == -1 && t.queueid != -1 then P.Leaving(P.ExitLock, P.Home) else P.AtClerks(P.Loop),
                    tck := t, unanswered := false, visits := a.me.visits + [a.me.tck.mtype])
  {
    var s1 := PetentMove(a);
    b := LeaveRoomAlone(s1);
    PetentThen(a, b);
  }

  lemma LeaveRoomAlone(a: PetentScene) returns (b: PetentScene)
    requires a.me.pc == P.AtClerks(P.LeaveQueue) && IsOffice(a.me.queueIdx) && |a.sh.slots| == 5
    ensures Reaches(a, b, PetentSteps()) && b.sh == SlotsMoved(a.sh, a.me, a.me.queueIdx, 1)
    ensures var t := a.me.tck;
      b.me == a.me.(pc := if t.ticketid == -1 && t.queueid != -1 then P.Leaving(P.ExitLock, P.Home) else P.AtClerks(P.Loop))
  {
    var s1 := PetentMove(a);
    b := PetentMove(s1);
    PetentThen(s1, b);
    PetentThen(a, b);
  }

  /** A petent with a ticket takes its place, unless it has priority, and sends the ticket to the
      queue it names. */
  lemma GoAlone(a: PetentScene) returns (b: PetentScene)
    requires a.me.pc == P.AtClerks(P.Loop) && !a.me.sig2 && IsOffice(a.me.tck.faculty) && a.me.tck.queueid > 0
    requires |a.sh.slots| == 5 && a.sh.slots[a.me.tck.faculty - 1] >= 1
    ensures Reaches(a, b, PetentSteps())
    ensures var r := a.me.tck.(mtype := a.me.tck.queueid);
      && b.sh == SlotsMoved(a.sh, a.me, r.faculty, -1).(queue := a.sh.queue + [Msg(r, r)], sent := a.sh.sent + [Msg(r, r)])
      && b.me == a.me.(pc := P.AtClerks(P.AwaitClerk), tck := r, queueIdx := r.faculty, unanswered := true)
  {
    var s1 := PetentMove(a);
    if a.me.vip {
      b := SendAlone(s1);
    } else {
      b := QueueAlone(s1);
    }
    PetentThen(a, b);
  }

  lemma QueueAlone(a: PetentScene) returns (b: PetentScene)
    requires a.me.pc == P.AtClerks(P.AtQueue) && IsOffice(a.me.queueIdx) && a.me.tck.mtype > 0
    requires |a.sh.slots| == 5 && a.sh.slots[a.me.queueIdx - 1] >= 1
    ensures Reaches(a, b, PetentSteps())
    ensures var r, f := a.me.tck, a.me.queueIdx - 1;
      && b.sh == a.sh.(slots := a.sh.slots[f := a.sh.slots[f] - 1], queue := a.sh.queue + [Msg(r, r)], sent := a.sh.sent + [Msg(r, r)])
      && b.me == a.me.(pc := P.AtClerks(P.AwaitClerk), unanswered := true)
  {
    var s1 := PetentMove(a);
    b := SendAlone(s1);
    PetentThen(a, b);
  }

  lemma SendAlone(a: PetentScene) returns (b: PetentScene)
    requires a.me.pc == P.AtClerks(P.SendTicket) && a.me.tck.mtype > 0
    ensures Reaches(a, b, PetentSteps())
    ensures var r := a.me.tck;
      && b.sh == a.sh.(queue := a.sh.queue + [Msg(r, r)], sent := a.sh.sent + [Msg(r, r)])
      && b.me == a.me.(pc := P.AtClerks(P.AwaitClerk), unanswered := true)
  {
    b := PetentMove(a);
    PetentThen(a, b);
  }

  /** An answer that leaves the matter open sends the petent on, to the queue it names, as soon as
      there is a place for it. */
  lemma NextStopAlone(a: PetentScene) returns (b: PetentScene)
    requires a.me.pc == P.AtClerks(P.AwaitClerk) && P.PetentOk(a.me) && Has(a.sh, a.me.pid) && |a.sh.slots| == 5
    requires var t := Front(a.sh, a.me.pid).t;
      t.ticketid != -1 && IsOffice(t.faculty) && t.queueid > 0 && Heard(a.sh, a.me).slots[t.faculty - 1] >= 1
    requires !a.me.sig2
    ensures Reaches(a, b, PetentSteps())
    ensures var t, sh := Front(a.sh, a.me.pid).t, Heard(a.sh, a.me); var r := t.(mtype := t.queueid);
      && b.sh == SlotsMoved(sh, a.me, t.faculty, -1).(queue := sh.queue + [Msg(r, r)], sent := sh.sent + [Msg(r, r)])
      && b.me == a.me.(pc := P.AtClerks(P.AwaitClerk), tck := r, queueIdx := t.faculty, unanswered := true,
                       visits := a.me.visits + [a.me.tck.mtype])
  {
    var s1 := HearAlone(a);
    b := GoAlone(s1);
    Chain(a, s1, b, PetentSteps());
  }

  // ----- home -----

  /** What petent p holds given back: its units, to a gate that takes them, and its place in front of
      the machines or in a waiting room. */
  function GivenBack(sh: Shared, p: P.Petent): Shared
    requires |sh.slots| == 5
  {
    var out := if P.InBuilding(p.pc) then Unlocked(sh, p.people) else sh;
    var line := if P.HoldsTicketSlot(p.pc) then out.(tickets := out.tickets + 1) else out;
    if P.InWaitingRoom(p.pc) && IsOffice(p.queueIdx) then SlotsMoved(line, p, p.queueIdx, 1) else line
  }

  /** Whatever way a petent leaves by, it ends gone and has given back exactly what it held. */
  lemma HomeAlone(a: PetentScene) returns (b: PetentScene)
    requires a.me.pc.Leaving? && a.me.pc.exit == P.ExitLock && P.PetentOk(a.me) && a.sh.semlock >= 1 && |a.sh.slots| == 5
    ensures Reaches(a, b, PetentSteps())
    ensures b.me == a.me.(pc := P.Gone) && b.sh == GivenBack(a.sh, a.me)
  {
    var s1 := UnlockAlone(a);
    b := s1;
    if s1.me.pc != P.Gone {
      b := PetentMove(s1);
      PetentThen(s1, b);
      Chain(a, s1, b, PetentSteps());
    }
  }

  /** Served: the petent gives its units back and is gone, signalled or not. */
  lemma SettledAlone(a: PetentScene) returns (b: PetentScene)
    requires a.me.pc == P.AtClerks(P.AwaitClerk) && P.PetentOk(a.me) && Has(a.sh, a.me.pid)
    requires |a.sh.slots| == 5 && a.sh.semlock >= 1
    requires Front(a.sh, a.me.pid).t.ticketid != -1 && Front(a.sh, a.me.pid).t.faculty == 0
    ensures Reaches(a, b, PetentSteps()) && b.sh == Unlocked(Heard(a.sh, a.me), a.me.people)
    ensures b.me == a.me.(pc := P.Gone, tck := Front(a.sh, a.me.pid).t, unanswered := false,
                          visits := a.me.visits + [a.me.tck.mtype])
  {
    var s1 := HearAlone(a);
    var s2 := PetentMove(s1);
    b := UnlockAlone(s2);
    PetentThen(s1, b);
    Chain(a, s1, b, PetentSteps());
  }

  /** Refused by an office, likewise; nothing more is sent. */
  lemma RefusedAlone(a: PetentScene) returns (b: PetentScene)
    requires a.me.pc == P.AtClerks(P.AwaitClerk) && P.PetentOk(a.me) && Has(a.sh, a.me.pid)
    requires |a.sh.slots| == 5 && a.sh.semlock >= 1
    requires Front(a.sh, a.me.pid).t.ticketid == -1 && Front(a.sh, a.me.pid).t.queueid != -1
    ensures Reaches(a, b, PetentSteps()) && b.sh == Unlocked(Heard(a.sh, a.me), a.me.people)
    ensures b.me.pc == P.Gone && !b.me.abandoned
  {
    var s1 := HearAlone(a);
    b := UnlockAlone(s1);
    Chain(a, s1, b, PetentSteps());
  }

  /** Dismissed by a closing desk and not called away, it queues once more, is refused by msgsnd, and
      leaves without having sent anything. */
  lemma DismissedAlone(a: PetentScene) returns (b: PetentScene)
    requires a.me.pc == P.AtClerks(P.AwaitClerk) && P.PetentOk(a.me) && Has(a.sh, a.me.pid) && !a.me.sig2
    requires |a.sh.slots| == 5 && a.sh.semlock >= 1
    requires var t := Front(a.sh, a.me.pid).t;
      t.ticketid == -1 && t.queueid == -1 && IsOffice(t.faculty) && Heard(a.sh, a.me).slots[t.faculty - 1] >= 1
    ensures Reaches(a, b, PetentSteps()) && b.sh == Unlocked(Heard(a.sh, a.me), a.me.people)
    ensures b.me.pc == P.Gone && !b.me.abandoned
  {
    var s1 := HearAlone(a);
    b := RefusedSendAlone(s1);
    Chain(a, s1, b, PetentSteps());
  }

  lemma RefusedSendAlone(a: PetentScene) returns (b: PetentScene)
    requires a.me.pc == P.AtClerks(P.Loop) && P.PetentOk(a.me) && !a.me.sig2 && !a.me.unanswered && a.me.tck.queueid == -1
    requires IsOffice(a.me.tck.faculty)
    requires |a.sh.slots| == 5 && a.sh.slots[a.me.tck.faculty - 1] >= 1 && a.sh.semlock >= 1
    ensures Reaches(a, b, PetentSteps()) && b.sh == Unlocked(a.sh, a.me.people)
    ensures b.me.pc == P.Gone && !b.me.abandoned
  {
    var s1 := PetentMove(a);
    if a.me.vip {
      b := FailedSendAlone(s1);
    } else {
      b := QueueInVainAlone(s1);
    }
    PetentThen(a, b);
  }

  lemma QueueInVainAlone(a: PetentScene) returns (b: PetentScene)
    requires a.me.pc == P.AtClerks(P.AtQueue) && P.PetentOk(a.me) && a.me.tck.mtype == -1
    requires |a.sh.slots| == 5 && a.sh.slots[a.me.queueIdx - 1] >= 1 && a.sh.semlock >= 1
    ensures Reaches(a, b, PetentSteps()) && b.me == a.me.(pc := P.Gone) && b.sh == Unlocked(a.sh, a.me.people)
  {
    var s1 := PetentMove(a);
    b := FailedSendAlone(s1);
    assert b.sh.slots == a.sh.slots;
    PetentThen(a, b);
  }

  lemma FailedSendAlone(a: PetentScene) returns (b: PetentScene)
    requires a.me.pc == P.AtClerks(P.SendTicket) && P.PetentOk(a.me) && a.me.tck.mtype == -1
    requires |a.sh.slots| == 5 && a.sh.semlock >= 1
    ensures Reaches(a, b, PetentSteps()) && b.me == a.me.(pc := P.Gone)
    ensures b.sh == SlotsMoved(Unlocked(a.sh, a.me.people), a.me, a.me.queueIdx, 1)
  {
    var s1 := PetentMove(a);
    b := HomeAlone(s1);
    PetentThen(a, b);
  }

  /** Denied a ticket at the machines, it gives back units and place and is gone. */
  lemma DeniedAlone(a: PetentScene) returns (b: PetentScene)
    requires a.me.pc == P.InLine(P.AwaitTicket) && P.PetentOk(a.me) && Has(a.sh, a.me.pid)
    requires |a.sh.slots| == 5 && a.sh.semlock >= 1 && Front(a.sh, a.me.pid).t.ticketid == -1
    ensures Reaches(a, b, PetentSteps()) && b.me.pc == P.Gone && !b.me.abandoned
    ensures var sh := Unlocked(Perform(a.sh, Receive(a.me.pid)), a.me.people); b.sh == sh.(tickets := sh.tickets + 1)
  {
    var s1 := PetentMove(a);
    var s2 := PetentMove(s1);
    b := HomeAlone(s2);
    PetentThen(s1, b);
    PetentThen(a, b);
  }

  // ----- called away -----

  /** Asleep in a call that a signal breaks off. */
  predicate Asleep(p: P.Petent)
  {
    var call := P.CallOf(p);
    call == PassIn || call.EnterGate? || call == JoinMachines || call.JoinQueue? || call.Receive?
  }

  /** A signal ends any such wait and no other: whoever waits for an answer breaks that wait off and
      is on its way out, and whoever waits at the turnstile or the gate is gone. */
  lemma SignalEndsWait(p: P.Petent)
    requires P.PetentOk(p)
    ensures var q := P.Signalled(p, true);
      && (Asleep(p) ==> q.sig2 && q.pc != p.pc && P.OnTheWayOut(q.pc))
      && (!Asleep(p) ==> q.pc == p.pc)
      && !Asleep(q)
      && (P.Waiting(p.pc) ==> q.unanswered && !P.Waiting(q.pc))
      && (P.CallOf(p) == PassIn || P.CallOf(p).EnterGate? ==> q.pc == P.Gone)
      && P.Signalled(p, false).pc == p.pc
  {
  }

  /** Woken like that a petent goes home at once: it sends nothing more and gives back exactly what
      it held when it slept. */
  lemma WokenAlone(a: PetentScene) returns (b: PetentScene)
    requires P.PetentOk(a.me) && Asleep(a.me) && a.sh.semlock >= 1 && |a.sh.slots| == 5
    ensures Reaches(Scene(a.sh, P.Signalled(a.me, true)), b, PetentSteps())
    ensures b.me == P.Signalled(a.me, true).(pc := P.Gone) && b.sh == GivenBack(a.sh, a.me)
  {
    var s1 := Scene(a.sh, P.Signalled(a.me, true));
    WokenHolds(a.sh, a.me);
    if s1.me.pc == P.Gone {
      b := s1;
      ReachesItself(b, PetentSteps());
    } else {
      SignalKeepsOk(a.me);
      b := HomeAlone(s1);
    }
  }

  /** Waking up changes nothing in what a petent has to give back, or it has nothing. */
  lemma WokenHolds(sh: Shared, p: P.Petent)
    requires P.PetentOk(p) && Asleep(p) && |sh.slots| == 5
    ensures var q := P.Signalled(p, true);
      && GivenBack(sh, q) == GivenBack(sh, p) && q.sig2
      && (q.pc == P.Gone ==> GivenBack(sh, p) == sh)
      && (q.pc != P.Gone ==> q.pc.Leaving? && q.pc.exit == P.ExitLock)
  {
    WokenKeeps(p);
  }

  lemma WokenKeeps(p: P.Petent)
    requires P.PetentOk(p) && Asleep(p)
    ensures var q := P.Signalled(p, true);
      && P.InBuilding(q.pc) == P.InBuilding(p.pc) && P.HoldsTicketSlot(q.pc) == P.HoldsTicketSlot(p.pc)
      && P.InWaitingRoom(q.pc) == P.InWaitingRoom(p.pc) && q.sig2
      && q == p.(pc := q.pc, sig2 := true)
      && (q.pc == P.Gone || (q.pc.Leaving? && q.pc.exit == P.ExitLock))
  {
  }

  lemma SignalKeepsOk(p: P.Petent)
    requires P.PetentOk(p)
    ensures P.PetentOk(P.Signalled(p, true))
  {
  }

  /** A signalled petent that comes to one of its three tests goes no further in. */
  lemma TestsHeedSignal(sh: Shared, p: P.Petent)
    requires P.PetentOk(p) && P.CanStep(sh, p) && p.sig2
    requires p.pc == P.Entering(P.Arrive) || p.pc == P.InLine(P.Inside) || p.pc == P.AtClerks(P.Loop)
    ensures P.OnTheWayOut(P.After(sh, p).pc) && !P.CallOf(p).Send?
  {
  }

  /** A petent leaves the clerks by its own step only when it is served, refused, dismissed or called
      away: at the head of the loop, on reading a refusal, or on a send that was refused. */
  lemma LeavesClerksWhenDone(sh: Shared, p: P.Petent)
    requires P.PetentOk(p) && P.VisitOk(p) && P.CanStep(sh, p) && p.pc.AtClerks?
    ensures !P.After(sh, p).pc.AtClerks? <==>
      || (p.pc.clerk == P.Loop && (p.tck.faculty == 0 || p.sig2))
      || (p.pc.clerk == P.Examine && p.tck.ticketid == -1 && p.tck.queueid != -1)
      || (p.pc.clerk == P.SendTicket && p.tck.ticketid == -1)
    ensures !P.After(sh, p).pc.AtClerks? ==> P.OnTheWayOut(P.After(sh, p).pc)
  {
  }
}
