/**
 * How the day ends: servers heed the flag, desks are drained before they stop, the last sweep
 * passes every slot, and a petent called away asks for at most one thing more.
 */
module Closing {
  import opened Tally
  import opened Tickets
  import opened Mailbox
  import opened SharedState
  import opened Interference
  import opened Office
  import opened Ledger
  import opened Invariant
  import opened Safety
  import P = Petent
  import S = Server
  import D = Director

  // ----- the flag -----

  /** Whoever has read the flag acts on what it still is: at a closed office a machine stops and a
      clerk drains, and nobody takes another petent; a clerk drains at an open office only when the
      director has sent it home. */
  lemma FlagHeeded(tr: seq<State>, c: Config, k: nat, j: nat, chance: S.Chance)
    requires Run(tr, c) && k < |tr| && Enabled(tr[k], ServerStep(j, chance))
    requires tr[k].servers[j].pc.Fresh? && tr[k].servers[j].pc.at.FreshUnlock?
    ensures var sv, after := tr[k].servers[j], S.After(tr[k].sh, tr[k].servers[j], chance);
      && (sv.desk == S.MACHINE ==> (after.pc == S.Stopped <==> !tr[k].sh.isOpened))
      && (sv.desk != S.MACHINE ==>
            (after.pc == S.Draining(S.DrainPoll, true) <==> !tr[k].sh.isOpened || chance.signalled))
      && (after.pc == S.Poll ==> tr[k].sh.isOpened)
  {
    CoreThroughout(tr, c, k);
    assert ServerKnows(tr[k].servers[j], tr[k].sh);
  }

  // ----- a desk is drained before its clerk stops -----

  /** Has not got as far as its normal queue in closing. */
  predicate BeforeNormalDrain(pc: S.Pc)
  {
    pc != S.Stopped && !(pc.Draining? && !pc.urgent)
  }

  /** Of what had been sent, all that went to the queue is taken. */
  ghost predicate AllTaken(sent: seq<Msg>, sh: Shared, ty: int)
  {
    OfType(sent, ty) <= OfType(sh.taken, ty)
  }

  /** How far a clerk's closing has got with what had been sent before. */
  ghost predicate Emptied(sv: S.Server, sent: seq<Msg>, sh: Shared)
  {
    && (!BeforeNormalDrain(sv.pc) ==> AllTaken(sent, sh, DeskQueue(sv.desk, true)))
    && (sv.pc == S.Stopped ==> AllTaken(sent, sh, DeskQueue(sv.desk, false)))
  }

  /** A clerk stops only when it has just found its normal queue empty, and turns to that only when
      it has just found its priority queue empty. */
  lemma StopsOnlyWhenEmpty(sh: Shared, sv: S.Server, chance: S.Chance)
    requires WellFormed(sh) && S.ServerOk(sv) && S.CanStep(sh, sv, chance) && sv.desk != S.MACHINE
    ensures var after := S.After(sh, sv, chance);
      && after.desk == sv.desk
      && (after.pc == S.Stopped ==> sv.pc == S.Draining(S.DrainPoll, false) && !Has(sh, DeskQueue(sv.desk, false)))
      && (BeforeNormalDrain(sv.pc) && !BeforeNormalDrain(after.pc) ==>
            sv.pc == S.Draining(S.DrainPoll, true) && !Has(sh, DeskQueue(sv.desk, true)))
      && (BeforeNormalDrain(after.pc) ==> BeforeNormalDrain(sv.pc))
  {
    if sv.pc.Serving? {
      ServingGoesOn(sh, sv, chance);
    }
  }

  lemma ServingGoesOn(sh: Shared, sv: S.Server, chance: S.Chance)
    requires WellFormed(sh) && S.CanStep(sh, sv, chance) && sv.pc.Serving?
    ensures var after := S.After(sh, sv, chance); after.desk == sv.desk && (after.pc.Serving? || after.pc.Checking?)
  {
  }

  lemma OfTypePrefix(a: seq<Msg>, b: seq<Msg>, ty: int)
    requires a <= b
    ensures OfType(a, ty) <= OfType(b, ty)
  {
    assert b == a + b[|a|..];
    OfTypeConcat(a, b[|a|..], ty);
  }

  /** An empty queue means that everything ever sent there is taken. */
  lemma EmptyMeansTaken(sent: seq<Msg>, sh: Shared, ty: int)
    requires InOrder(sh) && sent <= sh.sent && !Has(sh, ty)
    ensures AllTaken(sent, sh, ty)
  {
    OfTypePrefix(sent, sh.sent, ty);
    NoneFound(sh.queue, ty);
    assert OfType(sh.sent, ty) == OfType(sh.taken, ty) + OfType(sh.queue, ty);
  }

  lemma TakenStays(sent: seq<Msg>, a: Shared, b: Shared, ty: int)
    requires AllTaken(sent, a, ty) && a.taken <= b.taken
    ensures AllTaken(sent, b, ty)
  {
    OfTypePrefix(a.taken, b.taken, ty);
  }

  lemma ClerkEmpties(sh: Shared, sv: S.Server, chance: S.Chance, sent: seq<Msg>)
    requires WellFormed(sh) && S.ServerOk(sv) && S.CanStep(sh, sv, chance) && sv.desk != S.MACHINE
    requires InOrder(sh) && sent <= sh.sent && Emptied(sv, sent, sh)
    requires sh.taken <= Perform(sh, S.CallOf(sh, sv, chance)).taken
    ensures Emptied(S.After(sh, sv, chance), sent, Perform(sh, S.CallOf(sh, sv, chance)))
  {
    var sh' := Perform(sh, S.CallOf(sh, sv, chance));
    StopsOnlyWhenEmpty(sh, sv, chance);
    forall ty | AllTaken(sent, sh, ty) ensures AllTaken(sent, sh', ty) {
      TakenStays(sent, sh, sh', ty);
    }
    if !Has(sh, DeskQueue(sv.desk, true)) {
      EmptyMeansTaken(sent, sh, DeskQueue(sv.desk, true));
    }
    if !Has(sh, DeskQueue(sv.desk, false)) {
      EmptyMeansTaken(sent, sh, DeskQueue(sv.desk, false));
    }
  }

  /** Server j is a clerk that has got so far with what had been sent before. */
  ghost predicate DeskEmptied(s: State, j: nat, sent: seq<Msg>)
  {
    j < |s.servers| && s.servers[j].desk != S.MACHINE && sent <= s.sh.sent && Emptied(s.servers[j], sent, s.sh)
  }

  lemma EmptiedOneStep(s: State, t: State, c: Config, j: nat, sent: seq<Msg>)
    requires Core(s, c) && Next(s, t, c) && DeskEmptied(s, j, sent)
    ensures DeskEmptied(t, j, sent)
  {
    var a :| Enabled(s, a) && t == Apply(s, a, c.lobby);
    StepRespects(s, a, c);
    SameCrowd(s, a, c);
    if a.ServerStep? && a.j == j {
      StopsOnlyWhenEmpty(s.sh, s.servers[j], a.chance);
      ClerkEmpties(s.sh, s.servers[j], a.chance, sent);
    } else {
      assert t.servers[j] == s.servers[j];
      forall ty | AllTaken(sent, s.sh, ty) ensures AllTaken(sent, t.sh, ty) {
        TakenStays(sent, s.sh, t.sh, ty);
      }
    }
  }

  lemma EmptiedNextState(tr: seq<State>, c: Config, k: nat, j: nat, sent: seq<Msg>)
    requires Run(tr, c) && k + 1 < |tr| && DeskEmptied(tr[k], j, sent)
    ensures DeskEmptied(tr[k + 1], j, sent)
  {
    RunStep(tr, c, k);
    EmptiedOneStep(tr[k], tr[k + 1], c, j, sent);
  }

  lemma {:induction false} EmptiedThroughout(tr: seq<State>, c: Config, k: nat, l: nat, j: nat)
    requires Run(tr, c) && k <= l < |tr| && j < |tr[k].servers|
    requires tr[k].servers[j].desk != S.MACHINE && BeforeNormalDrain(tr[k].servers[j].pc)
    ensures DeskEmptied(tr[l], j, tr[k].sh.sent)
    decreases l
  {
    if k < l {
      EmptiedThroughout(tr, c, k, l - 1, j);
      EmptiedNextState(tr, c, l - 1, j, tr[k].sh.sent);
    }
  }

  /** When a clerk has stopped, everybody who had sent it a request at any time while it still worked,
      or was still busy with its priority queue, has been taken off both its queues. */
  lemma NobodyLeftAtDesk(tr: seq<State>, c: Config, k: nat, l: nat, j: nat, urgent: bool)
    requires Run(tr, c) && k <= l < |tr| && j < |tr[k].servers|
    requires tr[k].servers[j].desk != S.MACHINE && BeforeNormalDrain(tr[k].servers[j].pc)
    ensures j < |tr[l].servers|
    ensures var sv := tr[l].servers[j];
      sv.pc == S.Stopped ==> AllTaken(tr[k].sh.sent, tr[l].sh, DeskQueue(sv.desk, urgent))
  {
    EmptiedThroughout(tr, c, k, l, j);
  }

  // ----- the last sweep -----

  /** The last sweep is past slot n. */
  predicate SweptPast(pc: D.Pc, n: nat)
  {
    match pc
    case LastSweep(slot) => slot > n
    case LastClear(slot) => slot >= n
    case Finished => true
    case _ => false
  }

  lemma SweepReachesSlot(s: State, t: State, c: Config, n: nat)
    requires Core(s, c) && Next(s, t, c) && n < c.petentCount
    requires !SweptPast(s.director.pc, n) && SweptPast(t.director.pc, n)
    ensures s.director.pc == D.LastSweep(n)
  {
  }

  lemma SweepNextState(tr: seq<State>, c: Config, k: nat, n: nat)
    requires Run(tr, c) && k + 1 < |tr| && n < c.petentCount
    requires !SweptPast(tr[k].director.pc, n) && SweptPast(tr[k + 1].director.pc, n)
    ensures tr[k].director.pc == D.LastSweep(n)
  {
    RunStep(tr, c, k);
    SweepReachesSlot(tr[k], tr[k + 1], c, n);
  }

  /** The director finishes only after it has looked at every slot of the table once more. */
  lemma {:induction false} EverySlotSwept(tr: seq<State>, c: Config, l: nat, n: nat) returns (m: nat)
    requires Run(tr, c) && l < |tr| && n < c.petentCount && SweptPast(tr[l].director.pc, n)
    ensures m < l && tr[m].director.pc == D.LastSweep(n)
    decreases l
  {
    if l == 0 {
      assert false;
    } else if SweptPast(tr[l - 1].director.pc, n) {
      m := EverySlotSwept(tr, c, l - 1, n);
    } else {
      SweepNextState(tr, c, l - 1, n);
      m := l - 1;
    }
  }

  // ----- called away -----

  /** Requests a petent may still send before it comes to a test of its signal. */
  function Budget(pc: P.Pc): int
  {
    Bit(pc == P.InLine(P.JoinLine) || pc == P.InLine(P.SendRequest)
        || pc == P.AtClerks(P.AtQueue) || pc == P.AtClerks(P.SendTicket))
  }

  /** Requests of its own that a petent's next call sends. */
  ghost function Asks(p: P.Petent): int
  {
    if P.CallOf(p).Send? && P.CallOf(p).m.t.mtype > 0 then RequestsBy(p.pid)(P.CallOf(p).m) else 0
  }

  lemma SignalledSpends(sh: Shared, p: P.Petent)
    requires P.PetentOk(p) && P.VisitOk(p) && P.CanStep(sh, p) && p.sig2
    ensures P.After(sh, p).sig2 && Asks(p) + Budget(P.After(sh, p).pc) <= Budget(p.pc)
  {
    if p.pc.AtClerks? {
      SignalledAtClerks(sh, p);
    }
  }

  lemma SignalledAtClerks(sh: Shared, p: P.Petent)
    requires P.PetentOk(p) && P.VisitOk(p) && P.CanStep(sh, p) && p.sig2 && p.pc.AtClerks?
    ensures P.After(sh, p).sig2 && Asks(p) + Budget(P.After(sh, p).pc) <= Budget(p.pc)
  {
  }

  lemma SignalSpendsNothing(p: P.Petent, asleep: bool)
    requires p.sig2
    ensures P.Signalled(p, asleep).sig2 && Budget(P.Signalled(p, asleep).pc) <= Budget(p.pc)
  {
  }

  /** Requests sent so far by petent i, and those it may still send. */
  ghost function AskedAtMost(s: State, i: nat): int
    requires i < |s.petents|
  {
    Sum(s.sh.sent, RequestsBy(s.petents[i].pid)) + Budget(s.petents[i].pc)
  }

  /** Between s and t petent i stays signalled and asks for no more than it might have. */
  ghost predicate AsksNoMore(s: State, t: State, i: nat)
  {
    && i < |s.petents| == |t.petents| && t.petents[i].pid == s.petents[i].pid && t.petents[i].sig2
    && AskedAtMost(t, i) <= AskedAtMost(s, i)
  }

  lemma SignalledOneStep(s: State, t: State, c: Config, i: nat)
    requires Core(s, c) && Next(s, t, c) && i < |s.petents| && s.petents[i].sig2
    ensures AsksNoMore(s, t, i)
  {
    var a :| Enabled(s, a) && t == Apply(s, a, c.lobby);
    SameCrowd(s, a, c);
    SamePetent(s, a, c, i);
    if a == PetentStep(i) {
      SignalledActs(s, c, i);
    } else {
      SignalledWaits(s, a, c, i);
    }
  }

  lemma SignalledActs(s: State, c: Config, i: nat)
    requires Core(s, c) && Enabled(s, PetentStep(i)) && s.petents[i].sig2
    ensures var t := Apply(s, PetentStep(i), c.lobby);
      && t.petents[i].sig2
      && Sum(t.sh.sent, RequestsBy(s.petents[i].pid)) + Budget(t.petents[i].pc) <= AskedAtMost(s, i)
  {
    CallMovesLogs(s.sh, P.CallOf(s.petents[i]), RequestsBy(s.petents[i].pid));
    SignalledSpends(s.sh, s.petents[i]);
  }

  lemma SignalledWaits(s: State, a: Action, c: Config, i: nat)
    requires Core(s, c) && Enabled(s, a) && i < |s.petents| && s.petents[i].sig2 && a != PetentStep(i)
    ensures var t := Apply(s, a, c.lobby);
      && i < |t.petents| && t.petents[i].sig2
      && Sum(t.sh.sent, RequestsBy(s.petents[i].pid)) + Budget(t.petents[i].pc) <= AskedAtMost(s, i)
  {
    SameCrowd(s, a, c);
    SamePetent(s, a, c, i);
    CallMovesLogs(s.sh, CallOf(s, a, c.lobby), RequestsBy(s.petents[i].pid));
    OthersDoNotAskFor(s, a, c, i);
    if a.Signal? && a.i == i {
      SignalSpendsNothing(s.petents[i], a.asleep);
    }
  }

  lemma SignalledNextState(tr: seq<State>, c: Config, k: nat, i: nat)
    requires Run(tr, c) && k + 1 < |tr| && i < |tr[k].petents| && tr[k].petents[i].sig2
    ensures AsksNoMore(tr[k], tr[k + 1], i)
  {
    RunStep(tr, c, k);
    SignalledOneStep(tr[k], tr[k + 1], c, i);
  }

  lemma {:induction false} SignalledThroughout(tr: seq<State>, c: Config, k: nat, l: nat, i: nat)
    requires Run(tr, c) && k <= l < |tr| && i < |tr[k].petents| && tr[k].petents[i].sig2
    ensures AsksNoMore(tr[k], tr[l], i)
    decreases l
  {
    if k < l {
      SignalledThroughout(tr, c, k, l - 1, i);
      SignalledNextState(tr, c, l - 1, i);
    }
  }

  /** After its signal a petent gets at most one more request through in the rest of the run, the one
      it was about to send. */
  lemma SignalledAsksOnceMore(tr: seq<State>, c: Config, k: nat, l: nat, i: nat)
    requires Run(tr, c) && k <= l < |tr| && i < |tr[k].petents| && tr[k].petents[i].sig2
    ensures Sum(tr[l].sh.sent, RequestsBy(tr[k].petents[i].pid)) <= Sum(tr[k].sh.sent, RequestsBy(tr[k].petents[i].pid)) + 1
  {
    SignalledThroughout(tr, c, k, l, i);
  }
}
