/**
 * What machines and clerks do alike in every round of their loops: look whether the office is
 * still open, and check whether entry has to be locked.
 */
module Rounds {
  import opened SharedState
  import opened Memory
  import opened Solo
  import S = Server

  // ----- the look at the flag -----

  /** A server comes through the turnstile. */
  lemma StartAlone(a: ServerScene, c: S.Chance) returns (b: ServerScene)
    requires WellFormed(a.sh) && a.me.pc == S.Waiting && a.sh.turnstile >= 1
    ensures Reaches(a, b, ServerSteps(c)) && b == Scene(a.sh, a.me.(pc := S.Fresh(S.FreshLock, false)))
  {
    var s1 := Move(a, c);
    b := Move(s1, c);
    assert b.sh == a.sh;
    MoveThen(s1, b, c);
    MoveThen(a, b, c);
  }

  /** is_opened, read under the lock. */
  method LookAtFlag(mem: Memory) returns (isOpened: bool)
    requires mem.sh.semlock >= 1
    modifies mem
    ensures isOpened == old(mem.sh).isOpened && mem.sh == old(mem.sh)
  {
    mem.Do(LockRecord);
    isOpened := mem.sh.isOpened;
    mem.Do(UnlockRecord);
  }

  /** At a closed office a machine stops and a clerk starts to drain; at an open one a machine is
      switched on or off, or goes on as it was, and a clerk takes the next petent. */
  lemma FlagAlone(a: ServerScene, active: bool, c: S.Chance) returns (b: ServerScene)
    requires WellFormed(a.sh) && a.me.pc == S.Fresh(S.FreshLock, active) && a.sh.semlock >= 1
    requires a.me.desk != S.MACHINE ==> !c.signalled
    ensures Reaches(a, b, ServerSteps(c)) && b.sh == a.sh
    ensures b.me == a.me.(pc :=
      if !a.sh.isOpened then (if a.me.desk == S.MACHINE then S.Stopped else S.Draining(S.DrainPoll, true))
      else if a.me.desk == S.MACHINE && (c.toggle || !active) then S.Fresh(S.FreshLock, c.toggle != active)
      else S.Poll)
  {
    var s1 := Move(a, c);
    var s2 := Move(s1, c);
    b := Move(s2, c);
    assert b.sh == a.sh;
    MoveThen(s2, b, c);
    MoveThen(s1, b, c);
    MoveThen(a, b, c);
  }

  // ----- the entry lock -----

  /** What the entry-lock check does on its own: it acts when all limits are gone. */
  function Checked(sh: Shared): Shared
  {
    if AllZero(sh.limits) && !sh.isLocked then sh.(isLocked := true, building := 0) else sh
  }

  method CheckEntryLock(mem: Memory)
    requires WellFormed(mem.sh) && mem.sh.semlock >= 1
    modifies mem
    ensures mem.sh == Checked(old(mem.sh))
  {
    mem.Do(LockRecord);
    var isLocked := mem.sh.isLocked;
    var total, k := 0, 0;
    while k < 6
      invariant 0 <= k <= 6 && mem.sh == Perform(old(mem.sh), LockRecord) && total >= 0
      invariant total == 0 <==> forall j :: 0 <= j < k ==> mem.sh.limits[j] == 0
    {
      total := total + mem.sh.limits[k];
      k := k + 1;
    }
    if total == 0 && !isLocked {
      mem.Do(SetLocked);
      mem.Do(SetGate(0));
    }
    mem.Do(UnlockRecord);
  }

  /** The rest of the look at the limits, whichever have been read; total is 0 if those all are. */
  lemma {:induction false} LookAlone(a: ServerScene, c: S.Chance, read: set<nat>) returns (b: ServerScene)
    requires WellFormed(a.sh) && a.me.pc.Checking? && a.me.pc.check.Reading?
    requires a.me.pc.check.read == read <= S.ALL_LIMITS && a.me.pc.check.total >= 0
    requires a.me.pc.check.total == 0 <==> forall j :: j in read ==> a.sh.limits[j] == 0
    ensures Reaches(a, b, ServerSteps(c)) && b.sh == a.sh
    ensures b.me == a.me.(pc := S.Checking(
      if AllZero(a.sh.limits) && !a.me.pc.check.wasLocked then S.RaiseLock else S.CheckUnlock))
    decreases S.ALL_LIMITS - read
  {
    if read == S.ALL_LIMITS {
      b := Move(a, c);
        MoveThen(a, b, c);
    } else {
      var k :| k in S.ALL_LIMITS && k !in read;
      var s1 := Move(a, NextRead(c, k));
      b := LookAlone(s1, c, read + {k});
      NextThen(a, b, c, k);
    }
  }

  /** Left alone, the steps of any server's check have the effect of CheckEntryLock. */
  lemma CheckAlone(a: ServerScene, c: S.Chance) returns (b: ServerScene)
    requires WellFormed(a.sh) && a.sh.semlock >= 1 && a.me.pc == S.Checking(S.CheckLock)
    ensures Reaches(a, b, ServerSteps(c)) && b.sh == Checked(a.sh)
    ensures b.me == a.me.(pc := S.Fresh(S.FreshLock, true))
  {
    var s1 := Move(a, c);
    var s2 := Move(s1, c);
    var s3 := LookAlone(s2, c, {});
    b := DoneAlone(s3, c);
    Chain(s2, s3, b, ServerSteps(c));
    MoveThen(s1, b, c);
    MoveThen(a, b, c);
  }

  lemma DoneAlone(a: ServerScene, c: S.Chance) returns (b: ServerScene)
    requires WellFormed(a.sh) && a.me.pc in {S.Checking(S.RaiseLock), S.Checking(S.CheckUnlock)}
    ensures Reaches(a, b, ServerSteps(c)) && b.me == a.me.(pc := S.Fresh(S.FreshLock, true))
    ensures var open := a.sh.(semlock := a.sh.semlock + 1);
      b.sh == if a.me.pc == S.Checking(S.RaiseLock) then open.(isLocked := true, building := 0) else open
  {
    var s1 := a;
    if a.me.pc == S.Checking(S.RaiseLock) {
      var s0 := Move(a, c);
      s1 := Move(s0, c);
        MoveThen(s0, s1, c);
      MoveThen(a, s1, c);
    } else {
      ReachesItself(a, ServerSteps(c));
    }
    b := Move(s1, c);
    MoveThen(s1, b, c);
    Chain(a, s1, b, ServerSteps(c));
  }
}
