/**
 * petent.c in its own form: the scan of the pid table and unlock_sem_building.
 */
module PetentProgram {
  import opened SharedState
  import opened Memory
  import opened Registry
  import opened Solo
  import P = Petent

  /** The table after a petent has looked for a place in it. */
  function Entered(pids: seq<int>, pid: int): seq<int>
  {
    if FreeSlot(pids) < |pids| then pids[FreeSlot(pids) := pid] else pids
  }

  /** Registration in the table, as the loop under the lock does it. */
  method Register(pids: array<int>, pid: int) returns (entered: bool)
    requires pid != 0
    modifies pids
    ensures entered <==> FreeSlot(old(pids[..])) < pids.Length
    ensures pids[..] == Entered(old(pids[..]), pid)
    ensures EntriesDistinct(old(pids[..])) && !Entry(old(pids[..]), pid) ==> EntriesDistinct(pids[..])
    ensures entered ==> Entry(pids[..], pid)
  {
    entered := false;
    var i := 0;
    while i < pids.Length
      invariant 0 <= i <= pids.Length && !entered
      invariant pids[..] == old(pids[..])
      invariant forall k :: 0 <= k < i ==> pids[k] != 0
    {
      if pids[i] == 0 {
        FirstFree(pids[..], i);
        pids[i] := pid;
        entered := true;
        assert pids[..] == old(pids[..])[i := pid];
        break;
      }
      i := i + 1;
    }
    if entered {
      if EntriesDistinct(old(pids[..])) && !Entry(old(pids[..]), pid) {
        Registration(old(pids[..]), i, pid);
      }
      assert pids[i] == pid;
    } else {
      assert forall k :: 0 <= k < pids.Length ==> old(pids[..])[k] == pids[k];
    }
  }

  lemma FirstFree(pids: seq<int>, k: nat)
    requires k < |pids| && pids[k] == 0 && forall j :: 0 <= j < k ==> pids[j] != 0
    ensures FreeSlot(pids) == k
  {
  }

  /** Units go back only to a gate that is open and not locked. */
  function Unlocked(sh: Shared, count: nat): Shared
  {
    if sh.isOpened && !sh.isLocked then sh.(building := sh.building + count) else sh
  }

  /** unlock_sem_building. */
  method UnlockBuilding(mem: Memory, count: nat)
    requires mem.sh.semlock >= 1
    modifies mem
    ensures mem.sh == Unlocked(old(mem.sh), count)
  {
    mem.Do(LockRecord);
    var isOpened := mem.sh.isOpened;
    var isLocked := mem.sh.isLocked;
    if isOpened && !isLocked {
      mem.Do(LeaveGate(count));
    }
    mem.Do(UnlockRecord);
  }

  // ----- the steps of the protocol, one petent running alone -----

  /** The scan from slot k on, all earlier slots taken. */
  lemma {:induction false} ScanAlone(a: PetentScene, k: nat) returns (b: PetentScene)
    requires a.me.pc == P.Registering(P.RegScan(k)) && k <= |a.sh.pids|
    requires forall j :: 0 <= j < k ==> a.sh.pids[j] != 0
    ensures Reaches(a, b, PetentSteps()) && b.sh == a.sh.(pids := Entered(a.sh.pids, a.me.pid))
    ensures b.me == a.me.(pc := P.Registering(P.RegUnlock(FreeSlot(a.sh.pids) < |a.sh.pids|)))
    decreases |a.sh.pids| - k
  {
    var s1 := PetentMove(a);
    if k == |a.sh.pids| {
      b := s1;
    } else if a.sh.pids[k] == 0 {
      FirstFree(a.sh.pids, k);
      b := PetentMove(s1);
      PetentThen(s1, b);
    } else {
      b := ScanAlone(s1, k + 1);
    }
    PetentThen(a, b);
  }

  /** Left alone, the steps of a registration have the effect of Register. */
  lemma RegisterAlone(a: PetentScene) returns (b: PetentScene)
    requires a.me.pc == P.Registering(P.RegLock) && a.sh.semlock >= 1
    ensures Reaches(a, b, PetentSteps()) && b.sh == a.sh.(pids := Entered(a.sh.pids, a.me.pid))
    ensures b.me == a.me.(pc := if FreeSlot(a.sh.pids) < |a.sh.pids| then P.Entering(P.Arrive) else P.Gone)
  {
    var s1 := PetentMove(a);
    var s2 := ScanAlone(s1, 0);
    b := PetentMove(s2);
    PetentThen(s2, b);
    Chain(s1, s2, b, PetentSteps());
    PetentThen(a, b);
  }

  /** Left alone, the steps of a petent on its way out have the effect of UnlockBuilding. */
  lemma UnlockAlone(a: PetentScene) returns (b: PetentScene)
    requires a.me.pc.Leaving? && a.me.pc.exit == P.ExitLock && a.sh.semlock >= 1
    ensures Reaches(a, b, PetentSteps()) && b.sh == Unlocked(a.sh, a.me.people)
    ensures b.me == a.me.(pc := match a.me.pc.next
      case Home => P.Gone
      case FreeTickets => P.GiveBackTickets
      case FreeQueue => if a.me.vip then P.Gone else P.GiveBackQueue)
  {
    var s1 := PetentMove(a);
    var s2 := PetentMove(s1);
    var s3 := PetentMove(s2);
    b := ReleaseAlone(s3);
    PetentThen(s2, b);
    PetentThen(s1, b);
    PetentThen(a, b);
  }

  lemma ReleaseAlone(a: PetentScene) returns (b: PetentScene)
    requires a.me.pc.Leaving? && a.me.pc.exit in {P.ReleaseUnits, P.ExitUnlock}
    ensures Reaches(a, b, PetentSteps())
    ensures var free := a.sh.(semlock := a.sh.semlock + 1);
      b.sh == if a.me.pc.exit == P.ReleaseUnits then free.(building := free.building + a.me.people) else free
    ensures b.me == a.me.(pc := P.Leave(a.sh, a.me, P.ExitUnlock, a.me.pc.next))
  {
    var s1 := if a.me.pc.exit == P.ReleaseUnits then PetentMove(a) else a;
    b := PetentMove(s1);
    PetentThen(s1, b);
    if s1 != a {
      PetentThen(a, b);
    }
  }
}
