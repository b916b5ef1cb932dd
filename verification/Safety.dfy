/**
 * Safety over whole runs: the lock, the gate, the entry lock, routing, order of service, the
 * director's reports, dismissed petents, and the table of petents.
 */
module Safety {
  import opened Tally
  import opened Tickets
  import opened Mailbox
  import opened SharedState
  import opened Interference
  import opened Office
  import opened Ledger
  import opened Invariant
  import opened Gate
  import opened Registry
  import opened Conservation
  import P = Petent
  import S = Server
  import D = Director

  /** At most one process of all is inside the lock. */
  lemma LockExclusive(tr: seq<State>, c: Config, k: nat, x: Process, y: Process)
    requires Run(tr, c) && k < |tr| && Holds(tr[k], x) && Holds(tr[k], y)
    ensures x == y
  {
    CoreThroughout(tr, c, k);
    MutualExclusion(tr[k], c, x, y);
  }

  // ----- the building -----

  ghost function PeopleInside(s: State): int { Sum(s.petents, InsideParts()) }
  ghost function InsideParts(): P.Petent -> int { (p: P.Petent) => if P.InBuilding(p.pc) then p.people else 0 }
  ghost function UnitsAbandoned(s: State): int { Sum(s.petents, AbandonedParts()) }
  ghost function AbandonedParts(): P.Petent -> int { (p: P.Petent) => if p.abandoned then p.people else 0 }

  lemma UnitsSplit(s: State, c: Config)
    requires Core(s, c)
    ensures UnitsOut(s) == PeopleInside(s) + UnitsAbandoned(s)
    ensures PeopleInside(s) >= 0 && UnitsAbandoned(s) >= 0
  {
    SumPlus(s.petents, InsideParts(), AbandonedParts(), UnitParts());
    SumNonNegative(s.petents, InsideParts());
    SumNonNegative(s.petents, AbandonedParts());
  }

  /** Never more than N people inside, counting a child with its parent; and while the gate is
      open and not locked, gate, people and units left behind by fugitives make exactly N. */
  lemma BuildingCapacity(tr: seq<State>, c: Config, k: nat)
    requires Run(tr, c) && k < |tr|
    ensures tr[k].sh.building >= 0 && tr[k].sh.building + PeopleInside(tr[k]) <= c.lobby
    ensures tr[k].sh.isOpened && !tr[k].sh.isLocked && !D.BeforeGate(tr[k].director.pc) ==>
      tr[k].sh.building + PeopleInside(tr[k]) + UnitsAbandoned(tr[k]) == c.lobby
  {
    GateThroughout(tr, c, k);
    UnitsSplit(tr[k], c);
    if D.BeforeGate(tr[k].director.pc) {
      NobodyInYet(tr[k], c);
    }
  }

  /** A petent called away at the head of the clerk loop leaves without giving its units back:
      at an open, unlocked gate with nobody inside all N units are back exactly when no petent
      has left that way. */
  lemma UnitsBackUnlessAbandoned(tr: seq<State>, c: Config, k: nat)
    requires Run(tr, c) && k < |tr|
    requires tr[k].sh.isOpened && !tr[k].sh.isLocked && !D.BeforeGate(tr[k].director.pc) && PeopleInside(tr[k]) == 0
    ensures tr[k].sh.building == c.lobby <==> forall i :: 0 <= i < |tr[k].petents| ==> !tr[k].petents[i].abandoned
  {
    BuildingCapacity(tr, c, k);
    CoreThroughout(tr, c, k);
    AbandonedCount(tr[k], c);
  }

  lemma AbandonedCount(s: State, c: Config)
    requires Core(s, c)
    ensures UnitsAbandoned(s) == 0 <==> forall i :: 0 <= i < |s.petents| ==> !s.petents[i].abandoned
  {
    if forall i :: 0 <= i < |s.petents| ==> !s.petents[i].abandoned {
      SumOfZeros(s.petents, AbandonedParts());
    } else {
      var i :| 0 <= i < |s.petents| && s.petents[i].abandoned;
      SumAtLeastOne(s.petents, i, AbandonedParts());
    }
  }

  /** Of all steps of a petent this alone leaves units behind: called away at the head of the
      clerk loop with its matter unsettled, it goes home at once, its units with it. */
  lemma AbandoningStep(sh: Shared, p: P.Petent)
    requires P.PetentOk(p) && P.CanStep(sh, p)
    ensures P.After(sh, p).abandoned <==> p.pc == P.AtClerks(P.Loop) && p.sig2 && p.tck.faculty != 0
    ensures P.After(sh, p).abandoned ==> P.After(sh, p).pc == P.Gone && P.CallOf(p) == NoCall
  {
    if p.pc.AtClerks? {
      AbandoningClerks(sh, p);
    }
  }

  lemma AbandoningClerks(sh: Shared, p: P.Petent)
    requires P.PetentOk(p) && P.CanStep(sh, p) && p.pc.AtClerks?
    ensures P.After(sh, p).abandoned <==> p.pc == P.AtClerks(P.Loop) && p.sig2 && p.tck.faculty != 0
    ensures P.After(sh, p).abandoned ==> P.After(sh, p).pc == P.Gone && P.CallOf(p) == NoCall
  {
  }

  /** Nobody has come into the building between s and t. */
  ghost predicate NobodyCameIn(s: State, t: State)
  {
    && |t.petents| == |s.petents|
    && forall i :: 0 <= i < |s.petents| && P.InBuilding(t.petents[i].pc) ==> P.InBuilding(s.petents[i].pc)
  }

  lemma ShutOneStep(s: State, t: State, c: Config)
    requires Core(s, c) && GateOk(s, c) && GateShut(s) && Next(s, t, c)
    ensures GateShut(t) && NobodyCameIn(s, t)
  {
    var a :| Enabled(s, a) && t == Apply(s, a, c.lobby);
    ShutStaysShut(s, a, c);
    ShutMeansEmpty(s, c);
    SameCrowd(s, a, c);
    forall i | 0 <= i < |s.petents| ensures P.InBuilding(t.petents[i].pc) ==> P.InBuilding(s.petents[i].pc) {
      NobodyEnters(s, a, c, i);
    }
  }

  lemma RunStep(tr: seq<State>, c: Config, k: nat)
    requires Run(tr, c) && k + 1 < |tr|
    ensures Core(tr[k], c) && GateOk(tr[k], c) && Next(tr[k], tr[k + 1], c)
  {
    GateThroughout(tr, c, k);
    assert Follows(tr, k, c);
  }

  lemma ShutNextState(tr: seq<State>, c: Config, k: nat)
    requires Run(tr, c) && k + 1 < |tr| && GateShut(tr[k])
    ensures GateShut(tr[k + 1]) && NobodyCameIn(tr[k], tr[k + 1])
  {
    RunStep(tr, c, k);
    ShutOneStep(tr[k], tr[k + 1], c);
  }

  lemma {:induction false} ShutThroughout(tr: seq<State>, c: Config, k: nat, l: nat)
    requires Run(tr, c) && k <= l < |tr| && GateShut(tr[k])
    ensures GateShut(tr[l]) && NobodyCameIn(tr[k], tr[l])
    decreases l
  {
    if k < l {
      ShutThroughout(tr, c, k, l - 1);
      ShutNextState(tr, c, l - 1);
    }
  }

  /** Once the director has closed, or a server has completed the entry lock, the gate is at 0
      for good and nobody comes in any more. */
  lemma GateStaysShut(tr: seq<State>, c: Config, k: nat, l: nat)
    requires Run(tr, c) && k <= l < |tr| && GateShut(tr[k])
    ensures GateShut(tr[l]) && tr[l].sh.building == 0 && NobodyCameIn(tr[k], tr[l])
  {
    ShutThroughout(tr, c, k, l);
    GateThroughout(tr, c, l);
    ShutMeansEmpty(tr[l], c);
  }

  // ----- the entry lock -----

  /** Six reads at six moments, other processes decrementing in between, and still the lock is
      raised only when all limits are 0. */
  lemma LockOnlyWhenExhausted(tr: seq<State>, c: Config, k: nat, j: nat)
    requires Run(tr, c) && k < |tr| && j < |tr[k].servers|
    requires tr[k].servers[j].pc == S.Checking(S.RaiseLock)
    ensures AllZero(tr[k].sh.limits)
  {
    CoreThroughout(tr, c, k);
  }

  /** Server j is in a check that began with all limits gone: it adds up nothing but zeros, and
      ends with the lock up, its own doing or not. */
  ghost predicate EndsLocked(s: State, j: nat)
  {
    && j < |s.servers| && s.servers[j].pc.Checking? && AllZero(s.sh.limits)
    && (match s.servers[j].pc.check
        case Reading(_, _, total) => total == 0
        case CheckUnlock => s.sh.isLocked
        case _ => true)
  }

  lemma CheckGoesOn(sh: Shared, sv: S.Server, chance: S.Chance)
    requires WellFormed(sh) && S.ServerOk(sv) && ServerKnows(sv, sh) && S.CanStep(sh, sv, chance) && sv.pc.Checking?
    requires AllZero(sh.limits) && (sv.pc.check.Reading? ==> sv.pc.check.total == 0)
    ensures var pc := S.After(sh, sv, chance).pc;
      && (pc.Checking? && pc.check.Reading? ==> pc.check.total == 0)
      && (pc == S.Checking(S.CheckUnlock) ==> Perform(sh, S.CallOf(sh, sv, chance)).isLocked)
  {
  }

  lemma EndsLockedOneStep(s: State, t: State, c: Config, j: nat)
    requires Core(s, c) && Next(s, t, c) && EndsLocked(s, j) && j < |t.servers| && t.servers[j].pc.Checking?
    ensures EndsLocked(t, j)
  {
    var a :| Enabled(s, a) && t == Apply(s, a, c.lobby);
    StepRespects(s, a, c);
    if a.ServerStep? && a.j == j {
      CheckGoesOn(s.sh, s.servers[j], a.chance);
    } else {
      assert t.servers[j] == s.servers[j];
    }
  }

  lemma EndsLockedNextState(tr: seq<State>, c: Config, k: nat, j: nat)
    requires Run(tr, c) && k + 1 < |tr| && EndsLocked(tr[k], j)
    requires j < |tr[k + 1].servers| && tr[k + 1].servers[j].pc.Checking?
    ensures EndsLocked(tr[k + 1], j)
  {
    RunStep(tr, c, k);
    EndsLockedOneStep(tr[k], tr[k + 1], c, j);
  }

  /** Server j is in one and the same check from state k to state l. */
  ghost predicate InCheck(tr: seq<State>, k: nat, l: nat, j: nat)
    requires k <= l < |tr|
  {
    forall m :: k <= m <= l ==> j < |tr[m].servers| && tr[m].servers[j].pc.Checking?
  }

  lemma {:induction false} CheckThroughout(tr: seq<State>, c: Config, k: nat, l: nat, j: nat)
    requires Run(tr, c) && k <= l < |tr| && InCheck(tr, k, l, j)
    requires AllZero(tr[k].sh.limits) && tr[k].servers[j].pc == S.Checking(S.CheckLock)
    ensures EndsLocked(tr[l], j)
    decreases l
  {
    if k < l {
      CheckThroughout(tr, c, k, l - 1, j);
      EndsLockedNextState(tr, c, l - 1, j);
    }
  }

  /** The other half of the torn reads: a check that began with all limits gone does not end, under
      any interference, before the lock is up and the gate shut. */
  lemma ExhaustedMeansLocked(tr: seq<State>, c: Config, k: nat, l: nat, j: nat)
    requires Run(tr, c) && k <= l < |tr| && InCheck(tr, k, l, j)
    requires AllZero(tr[k].sh.limits) && tr[k].servers[j].pc == S.Checking(S.CheckLock)
    requires tr[l].servers[j].pc == S.Checking(S.CheckUnlock)
    ensures tr[l].sh.isLocked && GateShut(tr[l])
  {
    CheckThroughout(tr, c, k, l, j);
    if n :| 0 <= n < |tr[l].servers| && tr[l].servers[n].pc == S.Checking(S.CloseGate) {
      LockExclusive(tr, c, l, Srv(j), Srv(n));
    }
  }

  /** All limits are gone, and entry is locked or server j is on its way to a check, or in one, that
      will end with the lock up. */
  ghost predicate WillLock(s: State, j: nat)
  {
    && j < |s.servers| && AllZero(s.sh.limits)
    && (|| s.sh.isLocked || s.servers[j].pc.Serving? || EndsLocked(s, j)
        || (s.servers[j].desk == S.MACHINE && s.servers[j].pc == S.Poll))
  }

  lemma GoesToCheck(sh: Shared, sv: S.Server, chance: S.Chance)
    requires WellFormed(sh) && S.CanStep(sh, sv, chance)
    requires sv.pc.Serving? || (sv.desk == S.MACHINE && sv.pc == S.Poll)
    ensures var pc := S.After(sh, sv, chance).pc; pc.Serving? || pc == S.Checking(S.CheckLock)
  {
  }

  lemma CheckEnds(sh: Shared, sv: S.Server, chance: S.Chance)
    requires WellFormed(sh) && S.CanStep(sh, sv, chance) && sv.pc.Checking?
    ensures S.After(sh, sv, chance).pc.Checking? <==> sv.pc.check != S.CheckUnlock
  {
  }

  lemma WillLockOneStep(s: State, t: State, c: Config, j: nat)
    requires Core(s, c) && Next(s, t, c) && WillLock(s, j)
    ensures WillLock(t, j)
  {
    var a :| Enabled(s, a) && t == Apply(s, a, c.lobby);
    StepRespects(s, a, c);
    SameCrowd(s, a, c);
    if !s.sh.isLocked {
      if a.ServerStep? && a.j == j {
        if EndsLocked(s, j) {
          CheckEnds(s.sh, s.servers[j], a.chance);
          EndsLockedOneStep(s, t, c, j);
        } else {
          GoesToCheck(s.sh, s.servers[j], a.chance);
        }
      } else {
        assert t.servers[j] == s.servers[j];
      }
    }
  }

  lemma WillLockNextState(tr: seq<State>, c: Config, k: nat, j: nat)
    requires Run(tr, c) && k + 1 < |tr| && WillLock(tr[k], j)
    ensures WillLock(tr[k + 1], j)
  {
    RunStep(tr, c, k);
    WillLockOneStep(tr[k], tr[k + 1], c, j);
  }

  lemma {:induction false} WillLockThroughout(tr: seq<State>, c: Config, k: nat, l: nat, j: nat)
    requires Run(tr, c) && k <= l < |tr| && WillLock(tr[k], j)
    ensures WillLock(tr[l], j)
    decreases l
  {
    if k < l {
      WillLockThroughout(tr, c, k, l - 1, j);
      WillLockNextState(tr, c, l - 1, j);
    }
  }

  /** A server that is serving when the last place is gone, or a machine that then looks for the next
      request, comes back to the head of its loop only with entry locked: it takes nobody more
      before. */
  lemma LocksBeforeNextRound(tr: seq<State>, c: Config, k: nat, l: nat, j: nat)
    requires Run(tr, c) && k <= l < |tr| && j < |tr[k].servers| && AllZero(tr[k].sh.limits)
    requires tr[k].servers[j].pc.Serving? || (tr[k].servers[j].desk == S.MACHINE && tr[k].servers[j].pc == S.Poll)
    ensures j < |tr[l].servers| && (tr[l].servers[j].pc.Fresh? ==> tr[l].sh.isLocked)
  {
    WillLockThroughout(tr, c, k, l, j);
  }

  /** A machine grants when its office has a place left and denies when it has none: the second
      limit of SA is tried only when the first was empty, and that one cannot refill. */
  lemma MachineDeniesExactly(tr: seq<State>, c: Config, k: nat, j: nat, chance: S.Chance)
    requires Run(tr, c) && k < |tr| && Enabled(tr[k], ServerStep(j, chance)) && tr[k].servers[j].pc.Serving?
    requires tr[k].servers[j].pc.serve.FirstTry? || tr[k].servers[j].pc.serve.SecondTry?
    ensures var s, sv, after := tr[k], tr[k].servers[j], S.After(tr[k].sh, tr[k].servers[j], chance);
      && IsOffice(sv.tck.faculty) && |s.sh.limits| == 6
      && (after.pc == S.Serving(S.Load) ==> OfficeLimit(s.sh.limits, sv.tck.faculty) >= 1)
      && (after.tck.ticketid == -1 ==> OfficeLimit(s.sh.limits, sv.tck.faculty) == 0)
      && (after.pc == S.Serving(S.Load) || after.tck.ticketid == -1 || (after.pc.Serving? && after.pc.serve.SecondTry?))
  {
    CoreThroughout(tr, c, k);
    assert S.ServerOk(tr[k].servers[j]) && ServerKnows(tr[k].servers[j], tr[k].sh);
  }

  /** Once the lock is up, no machine and no redirect finds a place. */
  lemma DeniedAfterLock(tr: seq<State>, c: Config, k: nat, j: nat, chance: S.Chance)
    requires Run(tr, c) && k < |tr| && Enabled(tr[k], ServerStep(j, chance)) && tr[k].sh.isLocked
    ensures var sv, after := tr[k].servers[j], S.After(tr[k].sh, tr[k].servers[j], chance);
      && (sv.pc == S.Serving(S.FirstTry) || (sv.pc.Serving? && sv.pc.serve.SecondTry?) ==> after.pc != S.Serving(S.Load))
      && (sv.pc == S.Serving(S.Decide) && sv.desk == SA && chance.redirect ==> after.tck.ticketid == -1)
  {
    GateThroughout(tr, c, k);
    LockedTriesFail(tr[k].sh, tr[k].servers[j], chance);
  }

  lemma LockedTriesFail(sh: Shared, sv: S.Server, chance: S.Chance)
    requires WellFormed(sh) && S.ServerOk(sv) && S.CanStep(sh, sv, chance) && AllZero(sh.limits)
    ensures sv.pc == S.Serving(S.FirstTry) || (sv.pc.Serving? && sv.pc.serve.SecondTry?) ==>
      S.After(sh, sv, chance).pc != S.Serving(S.Load)
    ensures sv.pc == S.Serving(S.Decide) && sv.desk == SA && chance.redirect ==>
      S.After(sh, sv, chance).tck.ticketid == -1
  {
  }

  lemma LockedOneStep(s: State, t: State, c: Config)
    requires Core(s, c) && Next(s, t, c) && s.sh.isLocked
    ensures t.sh.isLocked
  {
    var a :| Enabled(s, a) && t == Apply(s, a, c.lobby);
    StepRespects(s, a, c);
  }

  lemma LockedNextState(tr: seq<State>, c: Config, k: nat)
    requires Run(tr, c) && k + 1 < |tr| && tr[k].sh.isLocked
    ensures tr[k + 1].sh.isLocked
  {
    RunStep(tr, c, k);
    LockedOneStep(tr[k], tr[k + 1], c);
  }

  lemma {:induction false} LockedForGood(tr: seq<State>, c: Config, k: nat, l: nat)
    requires Run(tr, c) && k <= l < |tr| && tr[k].sh.isLocked
    ensures tr[l].sh.isLocked
    decreases l
  {
    if k < l {
      LockedForGood(tr, c, k, l - 1);
      LockedNextState(tr, c, l - 1);
    }
  }

  /** While the lock is up every place of the day has been given. */
  lemma LockedMeansGiven(tr: seq<State>, c: Config, k: nat, f: int)
    requires Run(tr, c) && k < |tr| && tr[k].sh.isLocked && IsOffice(f)
    ensures AllZero(tr[k].sh.limits) && PlacesGiven(tr[k], f) == OfficeLimit(InitialLimits(c.petentCount), f)
  {
    GateThroughout(tr, c, k);
    LimitConserved(tr, c, k, f);
  }

  /** From the moment the lock is up, for the rest of the run, all limits are 0 and no office
      gives another place, neither at a machine nor by a redirect. */
  lemma NothingGivenAfterLock(tr: seq<State>, c: Config, k: nat, l: nat, f: int)
    requires Run(tr, c) && k <= l < |tr| && tr[k].sh.isLocked && IsOffice(f)
    ensures tr[l].sh.isLocked && AllZero(tr[l].sh.limits)
    ensures PlacesGiven(tr[l], f) == PlacesGiven(tr[k], f)
  {
    LockedForGood(tr, c, k, l);
    LockedMeansGiven(tr, c, k, f);
    LockedMeansGiven(tr, c, l, f);
  }

  // ----- routing -----

  /** A clerk or machine only ever has its own desk's requests in hand, and every request queued
      anywhere carries an office, its desk's queue and the payment state that goes with it. */
  lemma RoutingSound(tr: seq<State>, c: Config, k: nat, j: nat, x: nat)
    requires Run(tr, c) && k < |tr| && j < |tr[k].servers| && x < |tr[k].sh.queue|
    ensures S.Carrying(tr[k].servers[j].pc) ==> S.AtItsDesk(tr[k].servers[j])
    ensures var t := tr[k].sh.queue[x].t; t.mtype <= 26 && t.mtype != REPORT_QUEUE ==> RequestOk(t)
  {
    CoreThroughout(tr, c, k);
    assert tr[k].sh.queue[x] in tr[k].sh.queue;
  }

  /** No petent ever fails to find the queue its ticket names. */
  lemma QueueAlwaysKnown(tr: seq<State>, c: Config, k: nat, i: nat)
    requires Run(tr, c) && k < |tr| && i < |tr[k].petents| && tr[k].petents[i].pc == P.AtClerks(P.Loop)
    ensures tr[k].petents[i].tck.faculty == 0 || P.QueueIndex(tr[k].petents[i].tck.faculty) != -1
  {
    CoreThroughout(tr, c, k);
  }

  /** Every visit keeps to the itinerary: at most one redirect, one office, one cashier and one
      return, so at most four services; priority is never lost, and a VIP never without it. */
  lemma VisitsKeepToPath(tr: seq<State>, c: Config, k: nat, i: nat)
    requires Run(tr, c) && k < |tr| && i < |tr[k].petents|
    ensures var p := tr[k].petents[i];
      && |p.visits| <= 5
      && (p.visits != [] ==> Path(p.visits) && (p.vip ==> AllPriority(p.visits)))
      && (p.pc == P.AtClerks(P.AwaitClerk) ==> Path(p.visits + [p.tck.mtype]) && (p.vip ==> IsPriority(p.tck.mtype)))
  {
    CoreThroughout(tr, c, k);
  }

  // ----- order of service -----

  /** Per message type, what has been taken is what was sent first, in that order. */
  lemma TakenInOrder(tr: seq<State>, c: Config, k: nat, ty: int)
    requires Run(tr, c) && k < |tr|
    ensures OfType(tr[k].sh.sent, ty) == OfType(tr[k].sh.taken, ty) + OfType(tr[k].sh.queue, ty)
  {
    CoreThroughout(tr, c, k);
  }

  /** A clerk looks at the normal queue only after everything that had been on its priority
      queue when it last looked there is taken. */
  lemma PriorityFirst(tr: seq<State>, c: Config, k: nat, j: nat)
    requires Run(tr, c) && k < |tr| && j < |tr[k].servers| && tr[k].servers[j].pc == S.PollNormal
    ensures var s, sv := tr[k], tr[k].servers[j];
      && sv.mark <= |s.sh.sent|
      && OfType(s.sh.sent[..sv.mark], DeskQueue(sv.desk, true)) <= OfType(s.sh.taken, DeskQueue(sv.desk, true))
  {
    CoreThroughout(tr, c, k);
    PriorityTaken(tr[k], c, j);
  }

  lemma PriorityTaken(s: State, c: Config, j: nat)
    requires Core(s, c) && j < |s.servers| && s.servers[j].pc == S.PollNormal
    ensures var sv := s.servers[j];
      && sv.mark <= |s.sh.sent|
      && OfType(s.sh.sent[..sv.mark], DeskQueue(sv.desk, true)) <= OfType(s.sh.taken, DeskQueue(sv.desk, true))
  {
    var sv := s.servers[j];
    assert ServerKnows(sv, s.sh);
    var ty := DeskQueue(sv.desk, true);
    assert s.sh.sent == s.sh.sent[..sv.mark] + s.sh.sent[sv.mark..];
    OfTypeConcat(s.sh.sent[..sv.mark], s.sh.sent[sv.mark..], ty);
    assert OfType(s.sh.sent, ty) == OfType(s.sh.taken, ty) + OfType(s.sh.queue, ty);
    PrefixByLength(OfType(s.sh.sent[..sv.mark], ty), OfType(s.sh.taken, ty), OfType(s.sh.sent, ty));
  }

  lemma PrefixByLength(a: seq<Msg>, b: seq<Msg>, whole: seq<Msg>)
    requires a <= whole && b <= whole && |a| <= |b|
    ensures a <= b
  {
  }

  // ----- the director's reports -----

  /** The array of reports is a prefix of all reports ever sent, in the order sent; the rest is
      the one in hand and those still queued.  The thread stops with nothing in hand. */
  lemma ReportsComplete(tr: seq<State>, c: Config, k: nat)
    requires Run(tr, c) && k < |tr|
    ensures |tr[k].collector.held| <= 1 && (tr[k].collector.stopped ==> tr[k].collector.held == [])
    ensures OfType(tr[k].sh.sent, REPORT_QUEUE)
         == tr[k].collector.reports + tr[k].collector.held + OfType(tr[k].sh.queue, REPORT_QUEUE)
    ensures tr[k].collector.reports == OfType(tr[k].sh.sent, REPORT_QUEUE) <==>
      tr[k].collector.held == [] && OfType(tr[k].sh.queue, REPORT_QUEUE) == []
  {
    CoreThroughout(tr, c, k);
    WholeWithoutRest(tr[k].collector.reports, tr[k].collector.held, OfType(tr[k].sh.queue, REPORT_QUEUE));
  }

  lemma WholeWithoutRest(a: seq<Msg>, b: seq<Msg>, c: seq<Msg>)
    ensures a == a + b + c <==> b == [] && c == []
  {
    if a == a + b + c {
      assert |a| == |a| + |b| + |c|;
    }
  }

  // ----- dismissed petents -----

  /** Requests petent pid has sent. */
  ghost function RequestsBy(pid: int): Msg -> int
  {
    (m: Msg) => Bit(m.t.mtype <= 26 && m.t.mtype != REPORT_QUEUE && m.t.requester == pid)
  }

  /** Own steps left at most to a dismissed petent before it is gone. */
  function WayOut(pc: P.Pc): nat
  {
    match pc
    case NotStarted => 40
    case Registering(_) => 40
    case Entering(_) => 40
    case InLine(_) => 20
    case AtClerks(clerk) =>
      (match clerk
       case AwaitClerk => 17 case LeaveQueue => 16 case Examine => 15 case Loop => 14
       case AtQueue => 13 case SendTicket => 12)
    case Leaving(exit, _) =>
      (match exit
       case ExitLock => 9 case ReadOpened => 8 case ReadLocked(_) => 7
       case ReleaseUnits => 6 case ExitUnlock => 5)
    case GiveBackTickets => 1
    case GiveBackQueue => 1
    case Gone => 0
  }

  /** A dismissed petent's own steps send nothing and bring it closer to the exit. */
  lemma DismissedHeadsOut(sh: Shared, p: P.Petent)
    requires P.PetentOk(p) && P.VisitOk(p) && P.CanStep(sh, p) && Dismissed(p)
    ensures Dismissed(P.After(sh, p)) && WayOut(P.After(sh, p).pc) < WayOut(p.pc)
    ensures P.CallOf(p).Send? ==> P.CallOf(p).m.t.mtype <= 0
  {
    if p.pc.AtClerks? {
      DismissedLeavesClerks(sh, p);
    }
  }

  lemma DismissedLeavesClerks(sh: Shared, p: P.Petent)
    requires P.PetentOk(p) && P.VisitOk(p) && P.CanStep(sh, p) && Dismissed(p) && p.pc.AtClerks?
    ensures Dismissed(P.After(sh, p)) && WayOut(P.After(sh, p).pc) < WayOut(p.pc)
    ensures P.CallOf(p).Send? ==> P.CallOf(p).m.t.mtype <= 0
  {
  }

  lemma SignalledStillDismissed(p: P.Petent, asleep: bool)
    requires P.PetentOk(p) && P.VisitOk(p) && Dismissed(p)
    ensures Dismissed(P.Signalled(p, asleep)) && WayOut(P.Signalled(p, asleep).pc) <= WayOut(p.pc)
  {
  }

  /** Petents ask for themselves only, and servers never ask. */
  lemma PetentAsksForItself(p: P.Petent, pid: int)
    requires P.PetentOk(p) && Prepared(p) && p.pid != pid && P.CallOf(p).Send? && P.CallOf(p).m.t.mtype > 0
    ensures RequestsBy(pid)(P.CallOf(p).m) == 0
  {
  }

  lemma ServerNeverAsks(sh: Shared, sv: S.Server, chance: S.Chance, pid: int)
    requires WellFormed(sh) && S.ServerOk(sv) && S.CallOf(sh, sv, chance).Send?
    ensures RequestsBy(pid)(S.CallOf(sh, sv, chance).m) == 0
  {
  }

  /** Nobody but petent i sends requests in its name. */
  lemma OthersDoNotAskFor(s: State, a: Action, c: Config, i: nat)
    requires Core(s, c) && Enabled(s, a) && i < |s.petents| && a != PetentStep(i)
    ensures var call := CallOf(s, a, c.lobby);
      call.Send? && call.m.t.mtype > 0 ==> RequestsBy(s.petents[i].pid)(call.m) == 0
  {
    match a
    case PetentStep(k) =>
      VisitPrepares(s.petents[k]);
      if P.CallOf(s.petents[k]).Send? && P.CallOf(s.petents[k]).m.t.mtype > 0 {
        PetentAsksForItself(s.petents[k], s.petents[i].pid);
      }
    case ServerStep(j, chance) =>
      if S.CallOf(s.sh, s.servers[j], chance).Send? {
        ServerNeverAsks(s.sh, s.servers[j], chance, s.petents[i].pid);
      }
    case _ =>
  }

  lemma DismissedSendsNothing(s: State, a: Action, c: Config, i: nat)
    requires Core(s, c) && Enabled(s, a) && i < |s.petents| && Dismissed(s.petents[i])
    ensures Sum(Apply(s, a, c.lobby).sh.sent, RequestsBy(s.petents[i].pid))
         == Sum(s.sh.sent, RequestsBy(s.petents[i].pid))
  {
    CallMovesLogs(s.sh, CallOf(s, a, c.lobby), RequestsBy(s.petents[i].pid));
    if a == PetentStep(i) {
      DismissedHeadsOut(s.sh, s.petents[i]);
    } else {
      OthersDoNotAskFor(s, a, c, i);
    }
  }

  lemma DismissedStaysSo(s: State, a: Action, c: Config, i: nat)
    requires Core(s, c) && Enabled(s, a) && i < |s.petents| && Dismissed(s.petents[i])
    ensures var t := Apply(s, a, c.lobby);
      && |t.petents| == |s.petents| && t.petents[i].pid == s.petents[i].pid
      && Dismissed(t.petents[i]) && WayOut(t.petents[i].pc) <= WayOut(s.petents[i].pc)
  {
    EveryPetentAfter(s, a, c, i);
    if a == PetentStep(i) {
      DismissedHeadsOut(s.sh, s.petents[i]);
    } else if a.Signal? && a.i == i {
      SignalledStillDismissed(s.petents[i], a.asleep);
    }
  }

  /** Between s and t petent i stays dismissed, gets no further from the exit, and no request of
      its own goes through. */
  ghost predicate OnlyLeaving(s: State, t: State, i: nat)
  {
    && i < |s.petents| == |t.petents| && t.petents[i].pid == s.petents[i].pid
    && Dismissed(t.petents[i]) && WayOut(t.petents[i].pc) <= WayOut(s.petents[i].pc)
    && Sum(t.sh.sent, RequestsBy(s.petents[i].pid)) == Sum(s.sh.sent, RequestsBy(s.petents[i].pid))
  }

  lemma DismissedOneStep(s: State, t: State, c: Config, i: nat)
    requires Core(s, c) && Next(s, t, c) && i < |s.petents| && Dismissed(s.petents[i])
    ensures OnlyLeaving(s, t, i)
  {
    var a :| Enabled(s, a) && t == Apply(s, a, c.lobby);
    DismissedStaysSo(s, a, c, i);
    DismissedSendsNothing(s, a, c, i);
  }

  lemma DismissedNextState(tr: seq<State>, c: Config, k: nat, i: nat)
    requires Run(tr, c) && k + 1 < |tr| && i < |tr[k].petents| && Dismissed(tr[k].petents[i])
    ensures OnlyLeaving(tr[k], tr[k + 1], i)
  {
    RunStep(tr, c, k);
    DismissedOneStep(tr[k], tr[k + 1], c, i);
  }

  /** A petent once turned away never gets another request through: not after a denial, and not
      after the (-1, -1) of a closing desk, where it tries once more and is refused. */
  lemma {:induction false} DismissedForGood(tr: seq<State>, c: Config, k: nat, l: nat, i: nat)
    requires Run(tr, c) && k <= l < |tr| && i < |tr[k].petents| && Dismissed(tr[k].petents[i])
    ensures OnlyLeaving(tr[k], tr[l], i)
    decreases l
  {
    if k < l {
      DismissedForGood(tr, c, k, l - 1, i);
      DismissedNextState(tr, c, l - 1, i);
    }
  }

  // ----- the table of petents -----

  /** No pid twice in the table; until a sweep begins, every petent that was let in is in it. */
  lemma TableKeepsPetents(tr: seq<State>, c: Config, k: nat, i: nat)
    requires Run(tr, c) && k < |tr| && i < |tr[k].petents|
    ensures EntriesDistinct(tr[k].sh.pids)
    ensures !tr[k].director.swept && Admitted(tr[k].petents[i].pc) ==> Entry(tr[k].sh.pids, tr[k].petents[i].pid)
  {
    RegistryThroughout(tr, c, k);
  }

  /** A petent writes only into a free slot, the first one unless a sweep has begun, and is
      turned away only by a full table. */
  lemma TableWrittenSafely(tr: seq<State>, c: Config, k: nat, i: nat)
    requires Run(tr, c) && k < |tr| && i < |tr[k].petents| && tr[k].petents[i].pc.Registering?
    ensures var sh, reg, swept := tr[k].sh, tr[k].petents[i].pc.reg, tr[k].director.swept;
      && |sh.pids| == c.petentCount
      && (reg.RegWrite? ==> reg.slot < |sh.pids| && sh.pids[reg.slot] == 0)
      && (reg.RegWrite? && !swept ==> reg.slot == FreeSlot(sh.pids))
      && (reg == P.RegUnlock(false) && !swept ==> FreeSlot(sh.pids) == |sh.pids|)
  {
    RegistryThroughout(tr, c, k);
    CoreThroughout(tr, c, k);
  }
}
