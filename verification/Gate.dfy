/**
 * The gate: how many are in the building, when the gate shuts, and that it stays shut.
 */
module Gate {
  import opened Tally
  import opened SharedState
  import opened Interference
  import opened Office
  import opened Invariant
  import P = Petent
  import S = Server
  import D = Director

  ghost function UnitParts(): P.Petent -> int { p => P.Units(p) }

  /** Building units that petents occupy or have left behind. */
  ghost function UnitsOut(s: State): int { Sum(s.petents, UnitParts()) }

  predicate NeverIn(p: P.Petent) { !p.abandoned && (P.Outside(p.pc) || p.pc == P.Gone) }

  /** Has no petent's business in hand. */
  predicate Resting(sv: S.Server)
  {
    !sv.pc.Serving? && (sv.pc.Draining? ==> sv.pc.drain == S.DrainPoll)
  }

  /** Before the gate opens nobody has come in and nothing has been asked. */
  ghost predicate Quiet(s: State, c: Config)
  {
    && s.sh.building == 0 && !s.sh.isLocked
    && s.sh.queue == [] && s.sh.sent == []
    && s.sh.limits == InitialLimits(c.petentCount)
    && (forall i :: 0 <= i < |s.petents| ==> NeverIn(s.petents[i]))
    && (forall j :: 0 <= j < |s.servers| ==> Resting(s.servers[j]))
  }

  /** Some server has raised is_locked and is about to empty the gate. */
  ghost predicate LockUnderWay(s: State)
  {
    exists j :: 0 <= j < |s.servers| && s.servers[j].pc == S.Checking(S.CloseGate)
  }

  /** Flag, semaphore and lock against the director's position, the units out, and whether a
      lock is under way. */
  ghost predicate Doors(sh: Shared, pc: D.Pc, units: int, underWay: bool, c: Config)
  {
    && sh.isOpened == D.FlagUp(pc)
    && (!D.BeforeGate(pc) ==> sh.building + units <= c.lobby)
    && (!D.BeforeGate(pc) && sh.isOpened && !sh.isLocked ==> sh.building + units == c.lobby)
    && (D.AfterGate(pc) ==> sh.building == 0)
    && (sh.isLocked ==> AllZero(sh.limits) && (sh.building == 0 || underWay))
  }

  ghost predicate GateOk(s: State, c: Config)
  {
    && c.petentCount >= 1
    && Doors(s.sh, s.director.pc, UnitsOut(s), LockUnderWay(s), c)
    && (D.BeforeGate(s.director.pc) ==> Quiet(s, c))
  }

  /** The director has closed the gate for the day, or a server has completed the entry lock. */
  ghost predicate GateShut(s: State)
  {
    D.AfterGate(s.director.pc) || (s.sh.isLocked && !LockUnderWay(s))
  }

  // ----- petents -----

  lemma PetentCalls(p: P.Petent)
    ensures var call := P.CallOf(p);
      !call.SetOpened? && !call.SetLocked? && !call.SetGate? && !call.TakePlace? && !call.WriteCount?
  {
  }

  /** A petent moves units between the gate and itself; it drops some only when the gate no
      longer takes them back. */
  lemma PetentMovesUnits(sh: Shared, p: P.Petent)
    requires P.PetentOk(p) && PetentKnows(p, sh) && P.CanStep(sh, p)
    ensures var b := Perform(sh, P.CallOf(p)).building;
      && b + P.Units(P.After(sh, p)) <= sh.building + P.Units(p)
      && (sh.isOpened && !sh.isLocked ==> b + P.Units(P.After(sh, p)) == sh.building + P.Units(p))
      && (!sh.isOpened || sh.isLocked ==> b <= sh.building)
  {
    if p.pc.Leaving? {
      LeavingMovesUnits(sh, p);
    } else {
      OthersMoveUnits(sh, p);
    }
  }

  lemma LeavingMovesUnits(sh: Shared, p: P.Petent)
    requires P.PetentOk(p) && PetentKnows(p, sh) && P.CanStep(sh, p) && p.pc.Leaving?
    ensures var b := Perform(sh, P.CallOf(p)).building;
      && b + P.Units(P.After(sh, p)) <= sh.building + P.Units(p)
      && (sh.isOpened && !sh.isLocked ==> b + P.Units(P.After(sh, p)) == sh.building + P.Units(p))
      && (!sh.isOpened || sh.isLocked ==> b <= sh.building)
  {
  }

  lemma OthersMoveUnits(sh: Shared, p: P.Petent)
    requires P.PetentOk(p) && P.CanStep(sh, p) && !p.pc.Leaving?
    ensures var b := Perform(sh, P.CallOf(p)).building;
      b + P.Units(P.After(sh, p)) == sh.building + P.Units(p) && b <= sh.building
  {
    if p.pc.AtClerks? || p.pc.InLine? {
      ServedMovesNoUnits(sh, p);
    }
  }

  lemma ClerksMoveNoUnits(sh: Shared, p: P.Petent)
    requires P.PetentOk(p) && P.CanStep(sh, p) && p.pc.AtClerks?
    ensures Perform(sh, P.CallOf(p)).building == sh.building && P.Units(P.After(sh, p)) == P.Units(p)
  {
  }

  lemma ServedMovesNoUnits(sh: Shared, p: P.Petent)
    requires P.PetentOk(p) && P.CanStep(sh, p) && (p.pc.AtClerks? || p.pc.InLine?)
    ensures Perform(sh, P.CallOf(p)).building == sh.building && P.Units(P.After(sh, p)) == P.Units(p)
  {
    if p.pc.AtClerks? {
      ClerksMoveNoUnits(sh, p);
    }
  }

  lemma SignalMovesNoUnits(p: P.Petent, asleep: bool)
    requires P.PetentOk(p)
    ensures P.Units(P.Signalled(p, asleep)) == P.Units(p)
    ensures NeverIn(p) ==> NeverIn(P.Signalled(p, asleep))
  {
  }

  lemma PetentStaysOut(sh: Shared, p: P.Petent)
    requires P.PetentOk(p) && P.CanStep(sh, p) && NeverIn(p) && sh.building == 0
    ensures NeverIn(P.After(sh, p))
    ensures var call := P.CallOf(p); !call.Send? && !call.Receive? && Perform(sh, call).building == 0
  {
  }

  lemma PetentKeepsDoors(sh: Shared, p: P.Petent, pc: D.Pc, units: int, underWay: bool, c: Config)
    requires WellFormed(sh) && P.PetentOk(p) && PetentKnows(p, sh) && P.CanStep(sh, p)
    requires Doors(sh, pc, units, underWay, c)
    ensures Doors(Perform(sh, P.CallOf(p)), pc, units - P.Units(p) + P.Units(P.After(sh, p)), underWay, c)
  {
    PetentCalls(p);
    PetentMovesUnits(sh, p);
    PerformWellFormed(sh, P.CallOf(p));
    UnitsKeepDoors(sh, P.CallOf(p), pc, units, units - P.Units(p) + P.Units(P.After(sh, p)), underWay, c);
  }

  /** Doors stay in order when a call moves units in and out of the gate as petents do. */
  lemma UnitsKeepDoors(sh: Shared, call: Call, pc: D.Pc, before: int, after: int, underWay: bool, c: Config)
    requires WellFormed(sh) && Possible(sh, call) && Doors(sh, pc, before, underWay, c)
    requires !call.SetOpened? && !call.SetLocked? && !call.SetGate? && !call.TakePlace? && WellFormed(Perform(sh, call))
    requires var b := Perform(sh, call).building;
      && b + after <= sh.building + before
      && (sh.isOpened && !sh.isLocked ==> b + after == sh.building + before)
      && (!sh.isOpened || sh.isLocked ==> b <= sh.building)
    ensures Doors(Perform(sh, call), pc, after, underWay, c)
  {
  }

  lemma PetentKeepsGate(s: State, i: nat, c: Config)
    requires Core(s, c) && GateOk(s, c) && Enabled(s, PetentStep(i))
    ensures GateOk(Apply(s, PetentStep(i), c.lobby), c)
  {
    var p, t := s.petents[i], Apply(s, PetentStep(i), c.lobby);
    PetentKeepsDoors(s.sh, p, s.director.pc, UnitsOut(s), LockUnderWay(s), c);
    SumUpdate(s.petents, i, P.After(s.sh, p), UnitParts());
    assert t.servers == s.servers;
    if D.BeforeGate(s.director.pc) {
      PetentCalls(p);
      PetentStaysOut(s.sh, p);
    }
  }

  // ----- servers -----

  lemma ServerCalls(sh: Shared, sv: S.Server, chance: S.Chance)
    requires WellFormed(sh)
    ensures var call := S.CallOf(sh, sv, chance);
      !call.SetOpened? && !call.EnterGate? && !call.LeaveGate?
      && (call.SetGate? <==> sv.pc == S.Checking(S.CloseGate)) && (call.SetGate? ==> call.units == 0)
      && (call.SetLocked? <==> sv.pc == S.Checking(S.RaiseLock))
  {
  }

  lemma ServerStaysQuiet(sh: Shared, sv: S.Server, chance: S.Chance)
    requires WellFormed(sh) && S.CanStep(sh, sv, chance) && ServerKnows(sv, sh) && Resting(sv)
    requires sh.queue == [] && !AllZero(sh.limits) && !sh.isLocked
    ensures Resting(S.After(sh, sv, chance))
    ensures var call := S.CallOf(sh, sv, chance); !call.Send? && !call.Receive? && !call.TakePlace? && !call.SetLocked? && !call.SetGate?
  {
  }

  lemma ServerLocks(sh: Shared, sv: S.Server, chance: S.Chance)
    requires WellFormed(sh) && S.CanStep(sh, sv, chance)
    ensures S.After(sh, sv, chance).pc == S.Checking(S.CloseGate) <==> sv.pc == S.Checking(S.RaiseLock)
  {
  }

  /** A lock under way stays so until the server that raised it has emptied the gate. */
  lemma LockProgress(s: State, j: nat, chance: S.Chance, c: Config)
    requires Core(s, c) && Enabled(s, ServerStep(j, chance))
    requires s.servers[j].pc != S.Checking(S.CloseGate) && LockUnderWay(s)
    ensures LockUnderWay(Apply(s, ServerStep(j, chance), c.lobby))
  {
    var k :| 0 <= k < |s.servers| && s.servers[k].pc == S.Checking(S.CloseGate);
    assert Apply(s, ServerStep(j, chance), c.lobby).servers[k] == s.servers[k];
  }

  lemma LockBegins(s: State, j: nat, chance: S.Chance, c: Config)
    requires Core(s, c) && Enabled(s, ServerStep(j, chance)) && s.servers[j].pc == S.Checking(S.RaiseLock)
    ensures LockUnderWay(Apply(s, ServerStep(j, chance), c.lobby))
  {
    ServerLocks(s.sh, s.servers[j], chance);
    assert Apply(s, ServerStep(j, chance), c.lobby).servers[j].pc == S.Checking(S.CloseGate);
  }

  lemma CallKeepsDoors(sh: Shared, call: Call, pc: D.Pc, units: int, before: bool, after: bool, c: Config)
    requires WellFormed(sh) && Possible(sh, call) && Doors(sh, pc, units, before, c)
    requires !call.SetOpened? && !call.EnterGate? && !call.LeaveGate?
    requires call.SetGate? ==> call.units == 0 && sh.isLocked
    requires call.SetLocked? ==> AllZero(sh.limits) && after
    requires !call.SetGate? && before ==> after
    ensures Doors(Perform(sh, call), pc, units, after, c)
  {
  }

  lemma ServerKeepsDoors(sh: Shared, sv: S.Server, chance: S.Chance, pc: D.Pc, units: int, before: bool, after: bool, c: Config)
    requires WellFormed(sh) && ServerKnows(sv, sh) && S.CanStep(sh, sv, chance)
    requires Doors(sh, pc, units, before, c)
    requires sv.pc == S.Checking(S.RaiseLock) ==> after
    requires sv.pc != S.Checking(S.CloseGate) && before ==> after
    ensures Doors(Perform(sh, S.CallOf(sh, sv, chance)), pc, units, after, c)
  {
    ServerCalls(sh, sv, chance);
    CallKeepsDoors(sh, S.CallOf(sh, sv, chance), pc, units, before, after, c);
  }

  lemma ServerKeepsQuiet(s: State, j: nat, chance: S.Chance, c: Config)
    requires Core(s, c) && GateOk(s, c) && Enabled(s, ServerStep(j, chance)) && D.BeforeGate(s.director.pc)
    ensures Quiet(Apply(s, ServerStep(j, chance), c.lobby), c)
  {
    SomePlaceAtFirst(c.petentCount);
    ServerCalls(s.sh, s.servers[j], chance);
    ServerStaysQuiet(s.sh, s.servers[j], chance);
    assert Apply(s, ServerStep(j, chance), c.lobby).petents == s.petents;
  }

  lemma ServerKeepsGate(s: State, j: nat, chance: S.Chance, c: Config)
    requires Core(s, c) && GateOk(s, c) && Enabled(s, ServerStep(j, chance))
    ensures GateOk(Apply(s, ServerStep(j, chance), c.lobby), c)
  {
    var t := Apply(s, ServerStep(j, chance), c.lobby);
    if s.servers[j].pc == S.Checking(S.RaiseLock) {
      LockBegins(s, j, chance, c);
    } else if s.servers[j].pc != S.Checking(S.CloseGate) && LockUnderWay(s) {
      LockProgress(s, j, chance, c);
    }
    ServerKeepsDoors(s.sh, s.servers[j], chance, s.director.pc, UnitsOut(s), LockUnderWay(s), LockUnderWay(t), c);
    if D.BeforeGate(s.director.pc) {
      ServerKeepsQuiet(s, j, chance, c);
    }
  }

  // ----- the director and the rest -----

  lemma NobodyInYet(s: State, c: Config)
    requires Core(s, c) && Quiet(s, c)
    ensures UnitsOut(s) == 0
  {
    SumOfZeros(s.petents, UnitParts());
  }

  lemma DirectorKeepsDoors(sh: Shared, d: D.Director, evacuate: bool, units: int, underWay: bool, c: Config)
    requires WellFormed(sh) && D.CanStep(sh, d) && Doors(sh, d.pc, units, underWay, c)
    requires D.BeforeGate(d.pc) ==> units == 0 && !sh.isLocked
    ensures Doors(Perform(sh, D.CallOf(d, c.lobby)), D.After(sh, d, evacuate).pc, units, underWay, c)
  {
  }

  /** Until the gate opens the director leaves everything else as it was. */
  lemma DirectorKeepsQuiet(sh: Shared, d: D.Director, evacuate: bool, c: Config)
    requires D.CanStep(sh, d) && D.BeforeGate(D.After(sh, d, evacuate).pc)
    ensures D.BeforeGate(d.pc)
    ensures var t := Perform(sh, D.CallOf(d, c.lobby));
      && t.building == sh.building && t.isLocked == sh.isLocked && t.queue == sh.queue
      && t.sent == sh.sent && t.limits == sh.limits
  {
  }

  lemma DirectorKeepsGate(s: State, evacuate: bool, c: Config)
    requires Core(s, c) && GateOk(s, c) && Enabled(s, DirectorStep(evacuate))
    ensures GateOk(Apply(s, DirectorStep(evacuate), c.lobby), c)
  {
    var t := Apply(s, DirectorStep(evacuate), c.lobby);
    assert t.petents == s.petents && t.servers == s.servers;
    if D.BeforeGate(s.director.pc) {
      NobodyInYet(s, c);
    }
    DirectorKeepsDoors(s.sh, s.director, evacuate, UnitsOut(s), LockUnderWay(s), c);
    if D.BeforeGate(t.director.pc) {
      DirectorKeepsQuiet(s.sh, s.director, evacuate, c);
    }
  }

  lemma SignalKeepsGate(s: State, i: nat, asleep: bool, c: Config)
    requires Core(s, c) && GateOk(s, c) && i < |s.petents|
    ensures GateOk(Apply(s, Signal(i, asleep), c.lobby), c)
  {
    SignalMovesNoUnits(s.petents[i], asleep);
    SumUpdate(s.petents, i, P.Signalled(s.petents[i], asleep), UnitParts());
    assert Apply(s, Signal(i, asleep), c.lobby).servers == s.servers;
  }

  lemma StepKeepsGate(s: State, a: Action, c: Config)
    requires Core(s, c) && GateOk(s, c) && Enabled(s, a)
    ensures GateOk(Apply(s, a, c.lobby), c)
  {
    match a
    case PetentStep(i) => PetentKeepsGate(s, i, c);
    case Signal(i, asleep) => SignalKeepsGate(s, i, asleep, c);
    case ServerStep(j, chance) => ServerKeepsGate(s, j, chance, c);
    case DirectorStep(evacuate) => DirectorKeepsGate(s, evacuate, c);
    case CollectorStep => assert Apply(s, a, c.lobby).servers == s.servers;
  }

  lemma InitialGate(s: State, c: Config)
    requires Init(s, c)
    ensures GateOk(s, c)
  {
  }

  lemma NextKeepsGate(s: State, t: State, c: Config)
    requires Core(s, c) && GateOk(s, c) && Next(s, t, c)
    ensures GateOk(t, c)
  {
    var a :| Enabled(s, a) && t == Apply(s, a, c.lobby);
    StepKeepsGate(s, a, c);
  }

  lemma GateNextState(tr: seq<State>, c: Config, k: nat)
    requires Run(tr, c) && k + 1 < |tr| && Core(tr[k], c) && GateOk(tr[k], c)
    ensures GateOk(tr[k + 1], c)
  {
    assert Follows(tr, k, c);
    NextKeepsGate(tr[k], tr[k + 1], c);
  }

  lemma {:induction false} GateThroughout(tr: seq<State>, c: Config, k: nat)
    requires Run(tr, c) && k < |tr|
    ensures Core(tr[k], c) && GateOk(tr[k], c)
  {
    CoreThroughout(tr, c, k);
    if k == 0 {
      InitialGate(tr[0], c);
    } else {
      GateThroughout(tr, c, k - 1);
      GateNextState(tr, c, k - 1);
    }
  }

  // ----- the gate stays shut -----

  lemma ShutMeansEmpty(s: State, c: Config)
    requires Core(s, c) && GateOk(s, c) && GateShut(s)
    ensures s.sh.building == 0
  {
  }

  lemma NoNewLock(s: State, a: Action, c: Config)
    requires Core(s, c) && GateOk(s, c) && Enabled(s, a) && s.sh.isLocked && !LockUnderWay(s)
    ensures Apply(s, a, c.lobby).sh.isLocked && !LockUnderWay(Apply(s, a, c.lobby))
  {
    StepRespects(s, a, c);
    var t := Apply(s, a, c.lobby);
    SameCrowd(s, a, c);
    forall k | 0 <= k < |t.servers| ensures t.servers[k].pc != S.Checking(S.CloseGate) {
      assert s.servers[k].pc != S.Checking(S.CloseGate);
      if a.ServerStep? && a.j == k {
        ServerLocks(s.sh, s.servers[k], a.chance);
      }
    }
  }

  lemma ClosedForTheDay(s: State, a: Action, c: Config)
    requires Enabled(s, a) && D.AfterGate(s.director.pc)
    ensures D.AfterGate(Apply(s, a, c.lobby).director.pc)
  {
  }

  lemma ShutStaysShut(s: State, a: Action, c: Config)
    requires Core(s, c) && GateOk(s, c) && GateShut(s) && Enabled(s, a)
    ensures GateShut(Apply(s, a, c.lobby))
  {
    if D.AfterGate(s.director.pc) {
      ClosedForTheDay(s, a, c);
    } else {
      NoNewLock(s, a, c);
    }
  }

  /** At a shut gate no petent comes in. */
  lemma NobodyEnters(s: State, a: Action, c: Config, i: nat)
    requires Core(s, c) && s.sh.building == 0 && Enabled(s, a) && i < |s.petents|
    ensures i < |Apply(s, a, c.lobby).petents|
    ensures P.InBuilding(Apply(s, a, c.lobby).petents[i].pc) ==> P.InBuilding(s.petents[i].pc)
  {
    SameCrowd(s, a, c);
    if a == PetentStep(i) {
      NoWayIn(s.sh, s.petents[i]);
    } else if a.Signal? && a.i == i {
      SignalMovesNobodyIn(s.petents[i], a.asleep);
    }
  }

  lemma NoWayIn(sh: Shared, p: P.Petent)
    requires P.PetentOk(p) && P.CanStep(sh, p) && sh.building == 0
    ensures P.InBuilding(P.After(sh, p).pc) ==> P.InBuilding(p.pc)
  {
  }

  lemma SignalMovesNobodyIn(p: P.Petent, asleep: bool)
    ensures P.InBuilding(P.Signalled(p, asleep).pc) ==> P.InBuilding(p.pc)
  {
  }
}
