/**
 * The table of petents' pids: scanned and written under the lock by petents, cleared without
 * it by the director's sweeps.
 */
module Registry {
  import opened SharedState
  import opened Interference
  import opened Office
  import opened Invariant
  import P = Petent
  import S = Server
  import D = Director

  /** Entered in the table and still about. */
  predicate Admitted(pc: P.Pc)
  {
    P.Registered(pc) && pc != P.Gone
  }

  predicate Entry(pids: seq<int>, pid: int) { exists k :: 0 <= k < |pids| && pids[k] == pid }

  /** The first free slot, or |pids| when there is none. */
  function FreeSlot(pids: seq<int>): (k: nat)
    ensures k <= |pids| && (k < |pids| ==> pids[k] == 0) && forall j :: 0 <= j < k ==> pids[j] != 0
  {
    if pids == [] || pids[0] == 0 then 0 else 1 + FreeSlot(pids[1..])
  }

  /** No pid stands in the table twice. */
  predicate EntriesDistinct(pids: seq<int>)
  {
    forall k, l :: 0 <= k < l < |pids| && pids[k] != 0 ==> pids[k] != pids[l]
  }

  /** Slots a scan has passed, or all of them once it has given up. */
  predicate ScannedFull(pc: P.Pc, pids: seq<int>)
  {
    match pc
    case Registering(reg) =>
      (match reg
       case RegScan(slot) => forall k :: 0 <= k < slot && k < |pids| ==> pids[k] != 0
       case RegWrite(slot) => forall k :: 0 <= k < slot && k < |pids| ==> pids[k] != 0
       case RegUnlock(entered) => !entered ==> forall k :: 0 <= k < |pids| ==> pids[k] != 0
       case _ => true)
    case _ => true
  }

  /** Petent p against the table: absent before it registers; while nothing has been swept, it
      is there as long as it is about, and it found full what it scanned. */
  predicate Listed(p: P.Petent, pids: seq<int>, swept: bool)
  {
    && (!P.Registered(p.pc) ==> !Entry(pids, p.pid))
    && (!swept && Admitted(p.pc) ==> Entry(pids, p.pid))
    && (!swept ==> ScannedFull(p.pc, pids))
  }

  predicate SweepIsMarked(d: D.Director)
  {
    d.pc.Sweep? || d.pc.Clear? || d.pc.LastSweep? || d.pc.LastClear? || d.pc.Finished? ==> d.swept
  }

  ghost predicate RegistryOk(s: State)
  {
    && EntriesDistinct(s.sh.pids)
    && SweepIsMarked(s.director)
    && forall i :: 0 <= i < |s.petents| ==> Listed(s.petents[i], s.sh.pids, s.director.swept)
  }

  // ----- what a write to the table does -----

  /** Registering fills a free slot with a pid not yet in the table. */
  lemma Registration(pids: seq<int>, slot: nat, pid: int)
    requires slot < |pids| && pids[slot] == 0 && pid != 0 && EntriesDistinct(pids) && !Entry(pids, pid)
    ensures EntriesDistinct(pids[slot := pid]) && Entry(pids[slot := pid], pid)
    ensures forall q :: q != pid && q != 0 ==> (Entry(pids[slot := pid], q) <==> Entry(pids, q))
    ensures forall k :: 0 <= k < |pids| && pids[k] != 0 ==> pids[slot := pid][k] == pids[k]
  {
    var t := pids[slot := pid];
    assert t[slot] == pid;
    forall q | q != pid && q != 0 && Entry(pids, q) ensures Entry(t, q) {
      var k :| 0 <= k < |pids| && pids[k] == q;
      assert t[k] == q;
    }
  }

  lemma Clearing(pids: seq<int>, slot: nat)
    requires slot < |pids| && EntriesDistinct(pids)
    ensures EntriesDistinct(pids[slot := 0])
    ensures forall q :: q != 0 && Entry(pids[slot := 0], q) ==> Entry(pids, q)
  {
    var t := pids[slot := 0];
    forall q | q != 0 && Entry(t, q) ensures Entry(pids, q) {
      var k :| 0 <= k < |t| && t[k] == q;
      assert pids[k] == q;
    }
  }

  // ----- steps -----

  lemma ServedNotScanning(sh: Shared, p: P.Petent)
    requires P.CanStep(sh, p) && (p.pc.InLine? || p.pc.AtClerks?)
    ensures var pc := P.After(sh, p).pc; !pc.Registering? && P.Registered(pc)
    ensures Perform(sh, P.CallOf(p)).pids == sh.pids
  {
    if p.pc.AtClerks? {
      ClerksNotScanning(sh, p);
    }
  }

  lemma ClerksNotScanning(sh: Shared, p: P.Petent)
    requires P.CanStep(sh, p) && p.pc.AtClerks?
    ensures var pc := P.After(sh, p).pc; !pc.Registering? && P.Registered(pc)
    ensures Perform(sh, P.CallOf(p)).pids == sh.pids
  {
  }

  lemma PetentKeepsTable(sh: Shared, p: P.Petent)
    requires P.PetentOk(p) && PetentKnows(p, sh) && P.CanStep(sh, p) && !(p.pc.Registering? && p.pc.reg.RegWrite?)
    ensures Perform(sh, P.CallOf(p)).pids == sh.pids
    ensures P.Registered(P.After(sh, p).pc) ==> P.Registered(p.pc) || P.After(sh, p).pc == P.Gone
    ensures P.Registered(p.pc) ==> P.Registered(P.After(sh, p).pc)
    ensures Admitted(P.After(sh, p).pc) <==> Admitted(p.pc) && P.After(sh, p).pc != P.Gone
  {
    if p.pc.InLine? || p.pc.AtClerks? {
      ServedNotScanning(sh, p);
    }
  }

  lemma PetentScans(sh: Shared, p: P.Petent)
    requires P.CanStep(sh, p) && ScannedFull(p.pc, sh.pids)
    requires !(p.pc.Registering? && p.pc.reg.RegWrite?)
    ensures ScannedFull(P.After(sh, p).pc, sh.pids)
  {
    if !p.pc.Registering? {
      NotScanning(sh, p);
    }
  }

  lemma NotScanning(sh: Shared, p: P.Petent)
    requires P.CanStep(sh, p) && !p.pc.Registering?
    ensures ScannedFull(P.After(sh, p).pc, sh.pids)
  {
    if p.pc.InLine? || p.pc.AtClerks? {
      ServedNotScanning(sh, p);
    }
  }

  lemma ActorListed(sh: Shared, p: P.Petent, swept: bool)
    requires P.PetentOk(p) && PetentKnows(p, sh) && P.CanStep(sh, p)
    requires EntriesDistinct(sh.pids) && Listed(p, sh.pids, swept)
    ensures var pids := Perform(sh, P.CallOf(p)).pids;
      EntriesDistinct(pids) && Listed(P.After(sh, p), pids, swept)
  {
    if p.pc.Registering? && p.pc.reg.RegWrite? {
      Registration(sh.pids, p.pc.reg.slot, p.pid);
    } else {
      PetentKeepsTable(sh, p);
      if !swept {
        PetentScans(sh, p);
      }
    }
  }

  /** One petent's registration leaves the others listed as they were. */
  lemma OtherListed(sh: Shared, p: P.Petent, q: P.Petent, swept: bool)
    requires P.PetentOk(p) && PetentKnows(p, sh) && P.CanStep(sh, p) && P.PetentOk(q) && p.pid != q.pid
    requires EntriesDistinct(sh.pids) && Listed(p, sh.pids, swept) && Listed(q, sh.pids, swept)
    ensures Listed(q, Perform(sh, P.CallOf(p)).pids, swept)
  {
    if p.pc.Registering? && p.pc.reg.RegWrite? {
      Registration(sh.pids, p.pc.reg.slot, p.pid);
    } else {
      PetentKeepsTable(sh, p);
    }
  }

  lemma SignalledListed(p: P.Petent, asleep: bool, pids: seq<int>, swept: bool)
    requires Listed(p, pids, swept)
    ensures Listed(P.Signalled(p, asleep), pids, swept)
  {
  }

  lemma DirectorAndTable(sh: Shared, d: D.Director, evacuate: bool, lobby: nat, q: P.Petent)
    requires D.CanStep(sh, d) && P.PetentOk(q) && EntriesDistinct(sh.pids) && SweepIsMarked(d) && Listed(q, sh.pids, d.swept)
    ensures var pids := Perform(sh, D.CallOf(d, lobby)).pids;
      && Listed(q, pids, D.After(sh, d, evacuate).swept)
      && |pids| == |sh.pids| && (forall k :: 0 <= k < |pids| ==> pids[k] == sh.pids[k] || pids[k] == 0)
  {
    if d.pc.Clear? || d.pc.LastClear? {
      Clearing(sh.pids, d.pc.slot);
    }
  }

  lemma DirectorMarksSweep(sh: Shared, d: D.Director, evacuate: bool, lobby: nat)
    requires D.CanStep(sh, d) && EntriesDistinct(sh.pids) && SweepIsMarked(d)
    ensures EntriesDistinct(Perform(sh, D.CallOf(d, lobby)).pids) && SweepIsMarked(D.After(sh, d, evacuate))
  {
    if d.pc.Clear? || d.pc.LastClear? {
      Clearing(sh.pids, d.pc.slot);
    }
  }

  lemma ServerKeepsTable(sh: Shared, sv: S.Server, chance: S.Chance)
    requires WellFormed(sh) && Possible(sh, S.CallOf(sh, sv, chance))
    ensures Perform(sh, S.CallOf(sh, sv, chance)).pids == sh.pids
  {
  }

  lemma PetentKeepsRegistry(s: State, i: nat, c: Config)
    requires Core(s, c) && RegistryOk(s) && Enabled(s, PetentStep(i))
    ensures RegistryOk(Apply(s, PetentStep(i), c.lobby))
  {
    var t := Apply(s, PetentStep(i), c.lobby);
    ActorListed(s.sh, s.petents[i], s.director.swept);
    forall k | 0 <= k < |s.petents| ensures Listed(t.petents[k], t.sh.pids, t.director.swept) {
      if k != i {
        OtherListed(s.sh, s.petents[i], s.petents[k], s.director.swept);
      }
    }
  }

  lemma StepKeepsRegistry(s: State, a: Action, c: Config)
    requires Core(s, c) && RegistryOk(s) && Enabled(s, a)
    ensures RegistryOk(Apply(s, a, c.lobby))
  {
    match a
    case PetentStep(i) => PetentKeepsRegistry(s, i, c);
    case Signal(i, asleep) => SignalledListed(s.petents[i], asleep, s.sh.pids, s.director.swept);
    case ServerStep(j, chance) => ServerKeepsTable(s.sh, s.servers[j], chance);
    case DirectorStep(evacuate) =>
      DirectorMarksSweep(s.sh, s.director, evacuate, c.lobby);
      forall k | 0 <= k < |s.petents|
        ensures Listed(s.petents[k], Perform(s.sh, D.CallOf(s.director, c.lobby)).pids, D.After(s.sh, s.director, evacuate).swept)
      {
        DirectorAndTable(s.sh, s.director, evacuate, c.lobby, s.petents[k]);
      }
    case CollectorStep =>
  }

  lemma InitialRegistry(s: State, c: Config)
    requires Init(s, c)
    ensures RegistryOk(s)
  {
  }

  lemma NextKeepsRegistry(s: State, t: State, c: Config)
    requires Core(s, c) && RegistryOk(s) && Next(s, t, c)
    ensures RegistryOk(t)
  {
    var a :| Enabled(s, a) && t == Apply(s, a, c.lobby);
    StepKeepsRegistry(s, a, c);
  }

  lemma RegistryNextState(tr: seq<State>, c: Config, k: nat)
    requires Run(tr, c) && k + 1 < |tr| && RegistryOk(tr[k])
    ensures RegistryOk(tr[k + 1])
  {
    CoreThroughout(tr, c, k);
    assert Follows(tr, k, c);
    NextKeepsRegistry(tr[k], tr[k + 1], c);
  }

  lemma {:induction false} RegistryThroughout(tr: seq<State>, c: Config, k: nat)
    requires Run(tr, c) && k < |tr|
    ensures RegistryOk(tr[k])
  {
    if k == 0 {
      InitialRegistry(tr[0], c);
    } else {
      RegistryThroughout(tr, c, k - 1);
      RegistryNextState(tr, c, k - 1);
    }
  }
}
