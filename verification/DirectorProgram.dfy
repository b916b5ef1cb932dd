/**
 * dyrektor.c in its own form: the growing array of reports, the sweep over the pid table, and
 * the times of opening and closing.
 */
module DirectorProgram {
  import opened Tickets
  import opened Mailbox
  import opened SharedState
  import opened Memory
  import opened Registry
  import opened Solo
  import D = Director

  // ----- reports -----

  /** The array of reports with its count. */
  class ReportBook {
    var tickets: array<Msg>
    var count: nat

    ghost predicate Valid()
      reads this
    {
      count <= tickets.Length
    }

    ghost function Contents(): seq<Msg>
      requires Valid()
      reads this, tickets
    {
      tickets[..count]
    }

    constructor (blank: Msg)
      ensures Valid() && Contents() == [] && fresh(tickets)
    {
      tickets := new Msg[1](_ => blank);
      count := 0;
    }

    /** realloc to one more element and store; a failed realloc loses the report. */
    method Append(t: Msg, granted: bool)
      requires Valid()
      modifies this, tickets
      ensures Valid() && (tickets == old(tickets) || fresh(tickets))
      ensures Contents() == if granted then old(Contents()) + [t] else old(Contents())
    {
      if granted {
        var grown := new Msg[count + 1](_ => t);
        var i := 0;
        while i < count
          invariant 0 <= i <= count && count == old(count) && tickets == old(tickets)
          invariant tickets[..] == old(tickets[..])
          invariant grown.Length == count + 1 && fresh(grown)
          invariant grown[..i] == tickets[..i] && grown[count] == t
        {
          grown[i] := tickets[i];
          i := i + 1;
        }
        tickets := grown;
        count := count + 1;
        assert tickets[..count] == old(tickets[..count]) + [t];
      }
    }
  }

  /** From book b0 and queue q0 to book b and queue q with so many reports lost: every report is
      in the book, queued or lost; with none lost the book is a prefix of them in send order; no
      other message is touched. */
  ghost predicate Collected(b0: seq<Msg>, q0: seq<Msg>, b: seq<Msg>, q: seq<Msg>, lost: nat)
  {
    && lost + |b| + |OfType(q, REPORT_QUEUE)| == |b0| + |OfType(q0, REPORT_QUEUE)|
    && (lost == 0 ==> b + OfType(q, REPORT_QUEUE) == b0 + OfType(q0, REPORT_QUEUE))
    && forall ty :: ty != REPORT_QUEUE ==> OfType(q, ty) == OfType(q0, ty)
  }

  lemma CollectOne(b0: seq<Msg>, q0: seq<Msg>, b: seq<Msg>, q: seq<Msg>, lost: nat)
    requires Collected(b0, q0, b, q, lost) && FirstOf(q, REPORT_QUEUE) < |q|
    ensures var k := FirstOf(q, REPORT_QUEUE);
      && Collected(b0, q0, b + [q[k]], Without(q, k), lost)
      && Collected(b0, q0, b, Without(q, k), lost + 1)
  {
    var k := FirstOf(q, REPORT_QUEUE);
    var r := Without(q, k);
    ReceiveOldest(q, REPORT_QUEUE, REPORT_QUEUE);
    forall ty | ty != REPORT_QUEUE ensures OfType(r, ty) == OfType(q0, ty) {
      ReceiveOldest(q, REPORT_QUEUE, ty);
    }
    Regroup(b, [q[k]], OfType(r, REPORT_QUEUE));
  }

  /** One turn: take a report if there is one and put it into the book. */
  method CollectTurn(mem: Memory, book: ReportBook, granted: bool) returns (lost: nat)
    requires book.Valid()
    modifies mem, book, book.tickets
    ensures book.Valid() && (book.tickets == old(book.tickets) || fresh(book.tickets))
    ensures var q, k := old(mem.sh.queue), FirstOf(old(mem.sh.queue), REPORT_QUEUE);
      if k == |q| then mem.sh.queue == q && book.Contents() == old(book.Contents()) && lost == 0
      else
        && mem.sh.queue == Without(q, k)
        && lost == (if granted then 0 else 1)
        && book.Contents() == if granted then old(book.Contents()) + [q[k]] else old(book.Contents())
  {
    lost := 0;
    var m := mem.TryReceive(REPORT_QUEUE);
    if m.Some? {
      book.Append(m.value, granted);
      lost := if granted then 0 else 1;
    }
  }

  /** The reports whose realloc succeeded. */
  function Kept(reports: seq<Msg>, allocations: seq<bool>): (kept: seq<Msg>)
    requires |reports| == |allocations|
  {
    if reports == [] then []
    else
      var n := |reports| - 1;
      Kept(reports[..n], allocations[..n]) + if allocations[n] then [reports[n]] else []
  }

  function Failures(allocations: seq<bool>): nat
  {
    if allocations == [] then 0
    else Failures(allocations[..|allocations| - 1]) + if allocations[|allocations| - 1] then 0 else 1
  }

  /** Every report is kept or counted as a failure ... */
  lemma {:induction false} KeptOrFailed(reports: seq<Msg>, allocations: seq<bool>)
    requires |reports| == |allocations|
    ensures |Kept(reports, allocations)| + Failures(allocations) == |reports|
    decreases |reports|
  {
    if reports != [] {
      KeptOrFailed(reports[..|reports| - 1], allocations[..|reports| - 1]);
    }
  }

  /** ... and without failures all are kept. */
  lemma {:induction false} AllKept(reports: seq<Msg>, allocations: seq<bool>)
    requires |reports| == |allocations| && forall k :: 0 <= k < |allocations| ==> allocations[k]
    ensures Failures(allocations) == 0 && Kept(reports, allocations) == reports
    decreases |reports|
  {
    if reports != [] {
      AllKept(reports[..|reports| - 1], allocations[..|reports| - 1]);
    }
  }

  lemma {:induction false} NoFailures(allocations: seq<bool>, k: nat)
    requires k < |allocations| && Failures(allocations) == 0
    ensures allocations[k]
    decreases |allocations|
  {
    if k < |allocations| - 1 {
      NoFailures(allocations[..|allocations| - 1], k);
    }
  }

  /** Where the reports rs stand after so many turns: the first of them are taken, one a turn. */
  ghost predicate CollectedAt(rs: seq<Msg>, allocations: seq<bool>, turns: nat, b0: seq<Msg>,
                              b: seq<Msg>, left: seq<Msg>, lost: nat)
    requires turns <= |allocations|
  {
    var found := if turns <= |rs| then turns else |rs|;
    && b == b0 + Kept(rs[..found], allocations[..found])
    && left == rs[found..]
    && lost == Failures(allocations[..found])
  }

  lemma CollectedNext(rs: seq<Msg>, allocations: seq<bool>, turns: nat, b0: seq<Msg>, b: seq<Msg>, left: seq<Msg>, lost: nat)
    requires turns < |allocations| && CollectedAt(rs, allocations, turns, b0, b, left, lost)
    ensures left == [] ==> CollectedAt(rs, allocations, turns + 1, b0, b, left, lost)
    ensures left != [] ==> CollectedAt(rs, allocations, turns + 1, b0,
      if allocations[turns] then b + [left[0]] else b, left[1..], if allocations[turns] then lost else lost + 1)
  {
    if left != [] {
      assert rs[..turns + 1][..turns] == rs[..turns];
      assert allocations[..turns + 1][..turns] == allocations[..turns];
    }
  }

  lemma CollectedEnds(q0: seq<Msg>, allocations: seq<bool>, b0: seq<Msg>, b: seq<Msg>, q: seq<Msg>, lost: nat)
    requires CollectedAt(OfType(q0, REPORT_QUEUE), allocations, |allocations|, b0, b, OfType(q, REPORT_QUEUE), lost)
    requires forall ty :: ty != REPORT_QUEUE ==> OfType(q, ty) == OfType(q0, ty)
    ensures Collected(b0, q0, b, q, lost)
    ensures (forall k :: 0 <= k < |allocations| ==> allocations[k]) ==> lost == 0
  {
    var rs := OfType(q0, REPORT_QUEUE);
    var found := if |allocations| <= |rs| then |allocations| else |rs|;
    KeptOrFailed(rs[..found], allocations[..found]);
    if lost == 0 {
      NoneLost(rs[..found], allocations[..found]);
      Pieced(b0, rs, found);
    }
    if forall k :: 0 <= k < |allocations| ==> allocations[k] {
      AllKept(rs[..found], allocations[..found]);
    }
  }

  lemma NoneLost(reports: seq<Msg>, allocations: seq<bool>)
    requires |reports| == |allocations| && Failures(allocations) == 0
    ensures Kept(reports, allocations) == reports
  {
    forall k | 0 <= k < |allocations| ensures allocations[k] { NoFailures(allocations, k); }
    AllKept(reports, allocations);
  }

  lemma Pieced(b: seq<Msg>, rs: seq<Msg>, n: nat)
    requires n <= |rs|
    ensures (b + rs[..n]) + rs[n..] == b + rs
  {
    Regroup(b, rs[..n], rs[n..]);
    assert rs == rs[..n] + rs[n..];
  }

  /** Turns of the collecting loop, one per entry of allocations, which tells whether realloc
      succeeds then.  Each turn takes the oldest report while there is one; one whose realloc
      fails loses it, and no other does. */
  method CollectReports(mem: Memory, book: ReportBook, allocations: seq<bool>) returns (lost: nat)
    requires book.Valid()
    modifies mem, book, book.tickets
    ensures book.Valid()
    ensures CollectedAt(OfType(old(mem.sh.queue), REPORT_QUEUE), allocations, |allocations|,
                        old(book.Contents()), book.Contents(), OfType(mem.sh.queue, REPORT_QUEUE), lost)
    ensures Collected(old(book.Contents()), old(mem.sh.queue), book.Contents(), mem.sh.queue, lost)
    ensures (forall k :: 0 <= k < |allocations| ==> allocations[k]) ==> lost == 0
  {
    ghost var b0, q0 := book.Contents(), mem.sh.queue;
    ghost var rs := OfType(q0, REPORT_QUEUE);
    lost := 0;
    var turn := 0;
    while turn < |allocations|
      invariant 0 <= turn <= |allocations| && book.Valid()
      invariant book.tickets == old(book.tickets) || fresh(book.tickets)
      invariant CollectedAt(rs, allocations, turn, b0, book.Contents(), OfType(mem.sh.queue, REPORT_QUEUE), lost)
      invariant forall ty :: ty != REPORT_QUEUE ==> OfType(mem.sh.queue, ty) == OfType(q0, ty)
    {
      ghost var b, q := book.Contents(), mem.sh.queue;
      TakeOne(q);
      CollectedNext(rs, allocations, turn, b0, b, OfType(q, REPORT_QUEUE), lost);
      var gone := CollectTurn(mem, book, allocations[turn]);
      lost := lost + gone;
      turn := turn + 1;
    }
    CollectedEnds(q0, allocations, b0, book.Contents(), mem.sh.queue, lost);
  }

  /** Taking the oldest report, if there is one. */
  lemma TakeOne(q: seq<Msg>)
    ensures var k := FirstOf(q, REPORT_QUEUE);
      if k == |q| then OfType(q, REPORT_QUEUE) == []
      else
        && OfType(q, REPORT_QUEUE) != [] && OfType(q, REPORT_QUEUE)[0] == q[k]
        && OfType(Without(q, k), REPORT_QUEUE) == OfType(q, REPORT_QUEUE)[1..]
        && forall ty :: ty != REPORT_QUEUE ==> OfType(Without(q, k), ty) == OfType(q, ty)
  {
    var k := FirstOf(q, REPORT_QUEUE);
    if k == |q| {
      NoneFound(q, REPORT_QUEUE);
    } else {
      ReceiveOldest(q, REPORT_QUEUE, REPORT_QUEUE);
      forall ty | ty != REPORT_QUEUE ensures OfType(Without(q, k), ty) == OfType(q, ty) {
        ReceiveOldest(q, REPORT_QUEUE, ty);
      }
    }
  }

  /** A turn of the collecting thread alone: it takes a report and stores it, as CollectTurn does
      with a granted realloc. */
  lemma TurnAlone(a: CollectorScene) returns (b: CollectorScene)
    requires !a.me.stopped && a.me.running && a.me.held == [] && Has(a.sh, REPORT_QUEUE)
    ensures Reaches(a, b, CollectorSteps())
    ensures b.sh == Perform(a.sh, Receive(REPORT_QUEUE))
    ensures b.me == a.me.(reports := a.me.reports + [Front(a.sh, REPORT_QUEUE)])
  {
    var s1 := CollectorMove(a);
    b := CollectorMove(s1);
    CollectorThen(s1, b);
    CollectorThen(a, b);
  }

  /** Left alone, the collecting thread empties the report queue into its array, as CollectReports
      does when no realloc fails, and touches nothing else. */
  lemma {:induction false} CollectAlone(a: CollectorScene, b0: seq<Msg>, q0: seq<Msg>) returns (b: CollectorScene)
    requires !a.me.stopped && a.me.running && a.me.held == []
    requires Collected(b0, q0, a.me.reports, a.sh.queue, 0)
    ensures Reaches(a, b, CollectorSteps()) && b.me == a.me.(reports := b.me.reports)
    ensures Collected(b0, q0, b.me.reports, b.sh.queue, 0) && OfType(b.sh.queue, REPORT_QUEUE) == []
    ensures b.sh == a.sh.(queue := b.sh.queue, taken := b.sh.taken)
    decreases |a.sh.queue|
  {
    if Has(a.sh, REPORT_QUEUE) {
      var s1 := TurnAlone(a);
      CollectOne(b0, q0, a.me.reports, a.sh.queue, 0);
      b := CollectAlone(s1, b0, q0);
      Chain(a, s1, b, CollectorSteps());
    } else {
      NoneFound(a.sh.queue, REPORT_QUEUE);
      ReachesItself(a, CollectorSteps());
      b := a;
    }
  }

  // ----- sweeping the table -----

  /** The pids in the table, in order. */
  function Signalled(pids: seq<int>): seq<int>
  {
    if pids == [] then []
    else Signalled(pids[..|pids| - 1]) + if pids[|pids| - 1] != 0 then [pids[|pids| - 1]] else []
  }

  /** Exactly the pids in the table are signalled. */
  lemma {:induction false} SignalsReachTheListed(pids: seq<int>, pid: int)
    requires pid != 0
    ensures pid in Signalled(pids) <==> Entry(pids, pid)
    decreases |pids|
  {
    if pids != [] {
      var n := |pids| - 1;
      SignalsReachTheListed(pids[..n], pid);
      EntryOrLast(pids, pid);
      assert pid in Signalled(pids) <==> pid in Signalled(pids[..n]) || pids[n] == pid;
    }
  }

  lemma EntryOrLast(pids: seq<int>, pid: int)
    requires pids != []
    ensures Entry(pids, pid) <==> Entry(pids[..|pids| - 1], pid) || pids[|pids| - 1] == pid
  {
    var n := |pids| - 1;
    if k :| 0 <= k < n && pids[k] == pid {
      assert pids[..n][k] == pid;
    }
    if k :| 0 <= k < n && pids[..n][k] == pid {
      assert pids[k] == pid;
    }
  }

  /** SIGUSR2 to every listed petent, each slot cleared as it goes. */
  method SweepTable(pids: array<int>) returns (signalled: seq<int>)
    modifies pids
    ensures signalled == Signalled(old(pids[..]))
    ensures Cleared(pids[..])
  {
    signalled := [];
    var i := 0;
    while i < pids.Length
      invariant 0 <= i <= pids.Length
      invariant signalled == Signalled(old(pids[..])[..i])
      invariant forall k :: 0 <= k < i ==> pids[k] == 0
      invariant forall k :: i <= k < pids.Length ==> pids[k] == old(pids[..])[k]
    {
      assert old(pids[..])[..i + 1][..i] == old(pids[..])[..i];
      if pids[i] != 0 {
        signalled := signalled + [pids[i]];
        pids[i] := 0;
      }
      i := i + 1;
    }
    assert old(pids[..])[..pids.Length] == old(pids[..]);
  }

  predicate Cleared(pids: seq<int>) { forall k :: 0 <= k < |pids| ==> pids[k] == 0 }

  /** Where the director looks at slot k, in the evacuation or in the sweep of closing time. */
  function SweepAt(last: bool, k: nat): D.Pc { if last then D.LastSweep(k) else D.Sweep(k) }

  /** One slot of a sweep, in one step or two. */
  lemma SlotAlone(a: DirectorScene, last: bool, k: nat, lobby: nat, evacuate: bool) returns (b: DirectorScene)
    requires a.me.pc == SweepAt(last, k) && k < |a.sh.pids|
    ensures Reaches(a, b, DirectorSteps(lobby, evacuate))
    ensures b == Scene(a.sh.(pids := a.sh.pids[k := 0]), a.me.(pc := SweepAt(last, k + 1)))
  {
    var s1 := DirectorMove(a, lobby, evacuate);
    if a.sh.pids[k] == 0 {
      assert a.sh.pids[k := 0] == a.sh.pids;
      b := s1;
    } else {
      b := DirectorMove(s1, lobby, evacuate);
      DirectorThen(s1, b, lobby, evacuate);
    }
    DirectorThen(a, b, lobby, evacuate);
  }

  /** Left alone, the director's steps over the table have the effect of SweepTable. */
  lemma {:induction false} SweepAlone(a: DirectorScene, last: bool, k: nat, lobby: nat, evacuate: bool) returns (b: DirectorScene)
    requires a.me.pc == SweepAt(last, k) && k <= |a.sh.pids| && Cleared(a.sh.pids[..k])
    ensures Reaches(a, b, DirectorSteps(lobby, evacuate))
    ensures b.sh == a.sh.(pids := b.sh.pids) && |b.sh.pids| == |a.sh.pids| && Cleared(b.sh.pids)
    ensures b.me == a.me.(pc := if last then D.Finished else D.CloseTurnstile)
    decreases |a.sh.pids| - k
  {
    if k == |a.sh.pids| {
      b := DirectorMove(a, lobby, evacuate);
      assert Cleared(a.sh.pids[..k]) && a.sh.pids[..k] == a.sh.pids;
      DirectorThen(a, b, lobby, evacuate);
    } else {
      var s1 := SlotAlone(a, last, k, lobby, evacuate);
      assert s1.sh.pids[..k + 1] == a.sh.pids[..k] + [0];
      b := SweepAlone(s1, last, k + 1, lobby, evacuate);
      Chain(a, s1, b, DirectorSteps(lobby, evacuate));
    }
  }

  // ----- opening and closing the office -----

  /** The office as the director opens it for at most lobby people. */
  function Opened(sh: Shared, lobby: nat): Shared
  {
    sh.(isOpened := true, turnstile := D.TURNSTILE_TOKENS, building := lobby)
  }

  method OpenOffice(mem: Memory, lobby: nat)
    requires mem.sh.semlock >= 1
    modifies mem
    ensures mem.sh == Opened(old(mem.sh), lobby)
  {
    mem.Do(LockRecord);
    mem.Do(SetOpened(true));
    mem.Do(UnlockRecord);
    mem.Do(SetTurnstile(D.TURNSTILE_TOKENS));
    mem.Do(SetGate(lobby));
  }

  /** No token at the turnstile, no unit at the gate, the flag down. */
  function ShutDown(sh: Shared): Shared
  {
    sh.(isOpened := false, turnstile := 0, building := 0)
  }

  method CloseOffice(mem: Memory)
    requires mem.sh.semlock >= 1
    modifies mem
    ensures mem.sh == ShutDown(old(mem.sh))
  {
    mem.Do(SetTurnstile(0));
    mem.Do(LockRecord);
    mem.Do(SetOpened(false));
    mem.Do(UnlockRecord);
    mem.Do(SetGate(0));
  }

  /** Left alone, the director's first steps have the effect of OpenOffice. */
  lemma OpenAlone(a: DirectorScene, lobby: nat) returns (b: DirectorScene)
    requires a.me.pc == D.ConfigLock && a.sh.semlock >= 1
    ensures Reaches(a, b, DirectorSteps(lobby, false)) && b == Scene(Opened(a.sh, lobby), a.me.(pc := D.Working))
  {
    var s1 := DirectorMove(a, lobby, false);
    var s2 := DirectorMove(s1, lobby, false);
    b := OpenFlagAlone(s2, lobby);
    DirectorThen(s1, b, lobby, false);
    DirectorThen(a, b, lobby, false);
  }

  lemma OpenFlagAlone(a: DirectorScene, lobby: nat) returns (b: DirectorScene)
    requires a.me.pc == D.OpenLock && a.sh.semlock >= 1
    ensures Reaches(a, b, DirectorSteps(lobby, false)) && b == Scene(Opened(a.sh, lobby), a.me.(pc := D.Working))
  {
    var s1 := DirectorMove(a, lobby, false);
    var s2 := DirectorMove(s1, lobby, false);
    b := OpenGateAlone(s2, lobby);
    DirectorThen(s1, b, lobby, false);
    DirectorThen(a, b, lobby, false);
  }

  lemma OpenGateAlone(a: DirectorScene, lobby: nat) returns (b: DirectorScene)
    requires a.me.pc == D.OpenUnlock
    ensures Reaches(a, b, DirectorSteps(lobby, false)) && b.me == a.me.(pc := D.Working)
    ensures b.sh == a.sh.(semlock := a.sh.semlock + 1, turnstile := D.TURNSTILE_TOKENS, building := lobby)
  {
    var s1 := DirectorMove(a, lobby, false);
    var s2 := DirectorMove(s1, lobby, false);
    b := DirectorMove(s2, lobby, false);
    DirectorThen(s2, b, lobby, false);
    DirectorThen(s1, b, lobby, false);
    DirectorThen(a, b, lobby, false);
  }

  /** Left alone, the steps from the closing of the turnstile on have the effect of CloseOffice, and
      lead to the report and to the last sweep. */
  lemma CloseAlone(a: DirectorScene, lobby: nat, evacuate: bool) returns (b: DirectorScene)
    requires a.me.pc == D.CloseTurnstile && a.sh.semlock >= 1
    ensures Reaches(a, b, DirectorSteps(lobby, evacuate))
    ensures b == Scene(ShutDown(a.sh), a.me.(pc := D.LastSweep(0), swept := true))
  {
    var s1 := DirectorMove(a, lobby, evacuate);
    var s2 := DirectorMove(s1, lobby, evacuate);
    b := CloseGateAlone(s2, lobby, evacuate);
    DirectorThen(s1, b, lobby, evacuate);
    DirectorThen(a, b, lobby, evacuate);
  }

  lemma CloseGateAlone(a: DirectorScene, lobby: nat, evacuate: bool) returns (b: DirectorScene)
    requires a.me.pc == D.SetClosed
    ensures Reaches(a, b, DirectorSteps(lobby, evacuate))
    ensures b.sh == a.sh.(semlock := a.sh.semlock + 1, isOpened := false, building := 0)
    ensures b.me == a.me.(pc := D.LastSweep(0), swept := true)
  {
    var s1 := DirectorMove(a, lobby, evacuate);
    var s2 := DirectorMove(s1, lobby, evacuate);
    b := ReportAlone(s2, lobby, evacuate);
    DirectorThen(s1, b, lobby, evacuate);
    DirectorThen(a, b, lobby, evacuate);
  }

  lemma ReportAlone(a: DirectorScene, lobby: nat, evacuate: bool) returns (b: DirectorScene)
    requires a.me.pc == D.CloseGate
    ensures Reaches(a, b, DirectorSteps(lobby, evacuate))
    ensures b == Scene(a.sh.(building := 0), a.me.(pc := D.LastSweep(0), swept := true))
  {
    var s1 := DirectorMove(a, lobby, evacuate);
    var s2 := DirectorMove(s1, lobby, evacuate);
    b := DirectorMove(s2, lobby, evacuate);
    DirectorThen(s2, b, lobby, evacuate);
    DirectorThen(s1, b, lobby, evacuate);
    DirectorThen(a, b, lobby, evacuate);
  }

  /** The whole of the director's day from the opening on, with an evacuation or without: in the end
      the office is shut and the table has been swept from the first slot to the last. */
  lemma DayEndsAlone(a: DirectorScene, lobby: nat, evacuate: bool) returns (b: DirectorScene)
    requires a.me.pc == D.Working && a.sh.semlock >= 1
    ensures Reaches(a, b, DirectorSteps(lobby, evacuate)) && b.me == D.Director(D.Finished, true)
    ensures b.sh == ShutDown(a.sh).(pids := b.sh.pids) && |b.sh.pids| == |a.sh.pids| && Cleared(b.sh.pids)
  {
    var s1 := DirectorMove(a, lobby, evacuate);
    var s2 := s1;
    if evacuate {
      s2 := SweepAlone(s1, false, 0, lobby, evacuate);
      DirectorThen(a, s2, lobby, evacuate);
    } else {
      DirectorThen(a, s2, lobby, evacuate);
    }
    var s3 := CloseAlone(s2, lobby, evacuate);
    b := SweepAlone(s3, true, 0, lobby, evacuate);
    Chain(a, s2, s3, DirectorSteps(lobby, evacuate));
    Chain(a, s3, b, DirectorSteps(lobby, evacuate));
  }

  // ----- opening and closing time -----

  const DAY: int := 86_400

  /** C's remainder, which has the sign of the dividend. */
  function Remainder(a: int, b: int): int
    requires b > 0
  {
    if a >= 0 then a % b else -((-a) % b)
  }

  /** Seconds from midnight UTC to a configured local minute. */
  function LocalMinute(minute: int, offset: int): int
  {
    Remainder(minute, 24 * 60) * 60 - offset
  }

  /** At t a clock offset seconds east of UTC shows the configured minute of some day. */
  predicate OnTheMinute(t: int, minute: int, offset: int)
  {
    (t + offset - minute * 60) % DAY == 0
  }

  /** The loop that adds days to a time until it is not past. */
  method NextOccurrence(now: int, minute: int, offset: int) returns (t: int)
    requires now >= 0
    ensures t >= now && OnTheMinute(t, minute, offset)
    ensures t < now + DAY <==> LocalMinute(minute, offset) < now % DAY + DAY
    ensures t >= now + DAY ==> t == now - now % DAY + LocalMinute(minute, offset)
  {
    var base := now - now % DAY;
    t := base + Remainder(minute, 24 * 60) * 60 - offset;
    Midnight(now, minute, offset);
    while t < now
      invariant OnTheMinute(t, minute, offset)
      invariant t == base + LocalMinute(minute, offset) || t < now + DAY
      invariant LocalMinute(minute, offset) >= now % DAY + DAY ==> t == base + LocalMinute(minute, offset)
      decreases now - t
    {
      NextDay(t, minute, offset);
      t := t + DAY;
    }
  }

  lemma WholeDays(q: int)
    ensures (DAY * q) % DAY == 0
  {
  }

  /** C's remainder leaves the minute of the day as it was. */
  lemma SameMinute(minute: int) returns (q: int)
    ensures Remainder(minute, 24 * 60) * 60 - minute * 60 == DAY * q
  {
    q := if minute >= 0 then -(minute / 1440) else (-minute) / 1440;
  }

  lemma Midnight(now: int, minute: int, offset: int)
    requires now >= 0
    ensures OnTheMinute(now - now % DAY + LocalMinute(minute, offset), minute, offset)
  {
    var q := SameMinute(minute);
    var p := now / DAY;
    assert now - now % DAY == DAY * p;
    WholeDays(p + q);
  }

  lemma NextDay(t: int, minute: int, offset: int)
    requires OnTheMinute(t, minute, offset)
    ensures OnTheMinute(t + DAY, minute, offset)
  {
    var x := t + offset - minute * 60;
    assert x == DAY * (x / DAY);
    WholeDays(x / DAY + 1);
  }

  /** East of Greenwich, and at it, the condition always holds ... */
  lemma EastIsWithinTheDay(now: int, minute: int, offset: int)
    requires now >= 0 && offset >= 0
    ensures LocalMinute(minute, offset) < now % DAY + DAY
  {
  }

  /** ... and there is only one such instant. */
  lemma OneInstantADay(now: int, s: int, t: int, minute: int, offset: int)
    requires now <= s < now + DAY && now <= t < now + DAY
    requires OnTheMinute(s, minute, offset) && OnTheMinute(t, minute, offset)
    ensures s == t
  {
    SameMultiple(s + offset - minute * 60, t + offset - minute * 60);
  }

  lemma SameMultiple(a: int, b: int)
    requires a % DAY == 0 && b % DAY == 0 && -DAY < a - b < DAY
    ensures a == b
  {
    var i, j := a / DAY, b / DAY;
    assert a == DAY * i && b == DAY * j;
    assert -1 < i - j < 1;
  }

  /** West of it the first candidate can lie a day too far, and the loop does not go back: at
      midnight UTC, one hour west, 23:59 comes out more than a day ahead. */
  lemma WestCanOvershoot()
    ensures !(LocalMinute(1439, -3600) < 0 % DAY + DAY)
  {
  }

  /** wygeneruj_stan_urzedu: -1 stands for the built-in times. */
  method GenerateTimes(now: int, openAt: int, closeAt: int, offset: int) returns (opening: int, closing: int)
    requires now >= 0
    ensures openAt == -1 ==> opening == now + 10
    ensures openAt != -1 ==> opening >= now && OnTheMinute(opening, openAt, offset)
    ensures openAt != -1 && offset >= 0 ==> opening < now + DAY
    ensures closeAt == -1 ==> closing == opening + 300
    ensures closeAt != -1 ==> closing >= now && OnTheMinute(closing, closeAt, offset)
    ensures closeAt != -1 && offset >= 0 ==> closing < now + DAY
  {
    if openAt == -1 {
      opening := now + 10;
    } else {
      opening := NextOccurrence(now, openAt, offset);
      if offset >= 0 { EastIsWithinTheDay(now, openAt, offset); }
    }
    if closeAt == -1 {
      closing := opening + 5 * 60;
    } else {
      closing := NextOccurrence(now, closeAt, offset);
      if offset >= 0 { EastIsWithinTheDay(now, closeAt, offset); }
    }
  }
}
