/**
 * What one process may do to the shared state under the others' feet, and what each process
 * may therefore rely on while it is not looking.
 */
module Interference {
  import opened Tickets
  import opened Mailbox
  import opened SharedState
  import P = Petent
  import S = Server
  import D = Director

  /** What a process may call, by whether it holds the lock: flags, counter and pids are
      written under it (except that the director clears pids without), and only lawful
      messages are sent. */
  predicate Allowed(call: Call, held: bool)
  {
    match call
    case SetOpened(_) | SetLocked | WriteCount(_) => held
    case WritePid(_, pid) => held || pid == 0
    case Send(m) => m.t.mtype > 0 ==> MsgOk(m)
    case _ => true
  }

  /** The effect on the shared state of an allowed call. */
  ghost predicate Respects(a: Shared, b: Shared, held: bool)
    requires WellFormed(a)
  {
    && WellFormed(b)
    && (forall k :: 0 <= k < 6 ==> b.limits[k] <= a.limits[k])
    && (a.isLocked ==> b.isLocked)
    && a.sent <= b.sent && a.taken <= b.taken
    && |b.pids| == |a.pids|
    && (!held ==>
          && b.isOpened == a.isOpened && b.isLocked == a.isLocked && b.takenCount == a.takenCount
          && forall k :: 0 <= k < |a.pids| ==> b.pids[k] == a.pids[k] || b.pids[k] == 0)
  }

  lemma AllowedRespects(sh: Shared, call: Call, held: bool)
    requires WellFormed(sh) && Possible(sh, call) && Allowed(call, held)
    ensures Respects(sh, Perform(sh, call), held)
  {
    PerformWellFormed(sh, call);
  }

  /** Lawful messages only, in the queue and in the log. */
  ghost predicate MessagesOk(sh: Shared)
  {
    (forall m :: m in sh.queue ==> MsgOk(m)) && (forall m :: m in sh.sent ==> MsgOk(m))
  }

  lemma AllowedKeepsMessages(sh: Shared, call: Call, held: bool)
    requires Possible(sh, call) && Allowed(call, held) && MessagesOk(sh)
    ensures MessagesOk(Perform(sh, call))
  {
  }

  // ----- what a process knows of the shared state where it stands -----

  predicate PetentKnows(p: P.Petent, sh: Shared)
  {
    match p.pc
    case Registering(reg) => reg.RegWrite? ==> reg.slot < |sh.pids| && sh.pids[reg.slot] == 0
    case Leaving(exit, _) =>
      (match exit
       case ReadLocked(wasOpened) => wasOpened == sh.isOpened
       case ReleaseUnits => sh.isOpened && !sh.isLocked
       case _ => true)
    case _ => true
  }

  ghost predicate ServerKnows(sv: S.Server, sh: Shared)
    requires WellFormed(sh)
  {
    match sv.pc
    case Fresh(at, _) => at.FreshUnlock? ==> at.sawOpen == sh.isOpened
    case Serving(serve) =>
      (match serve
       case Store(loaded) => loaded == sh.takenCount
       case SecondTry(idx) => sh.limits[if idx == SA1 then SA2 else SA1] == 0
       case _ => true)
    case Checking(check) =>
      (match check
       case Reading(wasLocked, read, total) =>
         && wasLocked == sh.isLocked
         && total >= 0
         && (total == 0 ==> forall k :: k in read && k < 6 ==> sh.limits[k] == 0)
       case RaiseLock => AllZero(sh.limits) && !sh.isLocked
       case CloseGate => sh.isLocked
       case _ => true)
    case PollNormal =>
      && sv.mark <= |sh.sent|
      && |OfType(sh.sent[..sv.mark], DeskQueue(sv.desk, true))| <= |OfType(sh.taken, DeskQueue(sv.desk, true))|
    case _ => true
  }

  lemma {:induction false} OfTypeGrows(a: seq<Msg>, b: seq<Msg>, ty: int)
    requires a <= b
    ensures |OfType(a, ty)| <= |OfType(b, ty)|
  {
    assert b == a + b[|a|..];
    OfTypeConcat(a, b[|a|..], ty);
  }

  /** Knowledge survives a step of anybody else; what rests on the lock, because the other one
      did not hold it, and the rest because limits only fall and logs only grow. */
  lemma PetentKnowledgeStable(p: P.Petent, a: Shared, b: Shared, held: bool)
    requires WellFormed(a) && Respects(a, b, held) && PetentKnows(p, a)
    requires !(held && P.HoldsLock(p.pc))
    ensures PetentKnows(p, b)
  {
  }

  lemma ServerKnowledgeStable(sv: S.Server, a: Shared, b: Shared, held: bool)
    requires WellFormed(a) && Respects(a, b, held) && ServerKnows(sv, a)
    requires !(held && S.HoldsLock(sv))
    ensures ServerKnows(sv, b)
  {
    if sv.pc.PollNormal? {
      assert b.sent[..sv.mark] == a.sent[..sv.mark];
      OfTypeGrows(a.taken, b.taken, DeskQueue(sv.desk, true));
    }
  }

  // ----- petents -----

  /** What the visit so far contributes to the control of the next step. */
  predicate Prepared(p: P.Petent)
  {
    && (p.pc == P.InLine(P.SendRequest) ==> p.tck == P.FirstRequest(p))
    && (p.pc == P.AtClerks(P.SendTicket) && p.tck.mtype > 0 ==>
          && RequestOk(p.tck) && p.tck.requester == p.pid && IsDeskQueue(p.tck.mtype)
          && (p.vip ==> IsPriority(p.tck.mtype)))
    && (p.pc == P.InLine(P.Inside) ==> p.tck.ticketid == 0)
    && (p.pc == P.AtClerks(P.Loop) ==> p.tck.faculty == 0 || IsOffice(p.tck.faculty))
  }

  lemma VisitPrepares(p: P.Petent)
    requires P.VisitOk(p)
    ensures Prepared(p)
  {
    assert p.tck.mtype == p.tck.queueid ==> p.tck.(mtype := p.tck.queueid) == p.tck;
  }

  lemma PetentAllowed(p: P.Petent)
    requires P.PetentOk(p) && Prepared(p)
    ensures Allowed(P.CallOf(p), P.HoldsLock(p.pc))
  {
  }

  lemma PetentLearns(sh: Shared, p: P.Petent)
    requires P.CanStep(sh, p) && PetentKnows(p, sh)
    ensures PetentKnows(P.After(sh, p), Perform(sh, P.CallOf(p)))
  {
    if p.pc.Leaving? {
      LeavingLearns(sh, p);
    } else if p.pc.Registering? {
      RegisteringLearns(sh, p);
    } else {
      NothingToKnow(sh, p);
    }
  }

  lemma LeavingLearns(sh: Shared, p: P.Petent)
    requires P.CanStep(sh, p) && PetentKnows(p, sh) && p.pc.Leaving?
    ensures PetentKnows(P.After(sh, p), Perform(sh, P.CallOf(p)))
  {
  }

  lemma RegisteringLearns(sh: Shared, p: P.Petent)
    requires P.CanStep(sh, p) && p.pc.Registering?
    ensures PetentKnows(P.After(sh, p), Perform(sh, P.CallOf(p)))
  {
  }

  lemma NothingToKnow(sh: Shared, p: P.Petent)
    requires P.CanStep(sh, p) && !p.pc.Leaving? && !p.pc.Registering?
    ensures PetentKnows(P.After(sh, p), Perform(sh, P.CallOf(p)))
  {
  }

  lemma PetentStaysOk(sh: Shared, p: P.Petent)
    requires P.PetentOk(p) && Prepared(p) && P.CanStep(sh, p)
    ensures P.PetentOk(P.After(sh, p))
  {
    if p.pc.InLine? {
      InLineStaysOk(sh, p);
    } else if p.pc.AtClerks? {
      AtClerksStaysOk(sh, p);
    }
  }

  lemma InLineStaysOk(sh: Shared, p: P.Petent)
    requires P.PetentOk(p) && Prepared(p) && P.CanStep(sh, p) && p.pc.InLine?
    ensures P.PetentOk(P.After(sh, p))
  {
  }

  lemma AtClerksStaysOk(sh: Shared, p: P.Petent)
    requires P.PetentOk(p) && Prepared(p) && P.CanStep(sh, p) && p.pc.AtClerks?
    ensures P.PetentOk(P.After(sh, p))
  {
    if p.pc.clerk == P.Loop {
      ChoiceOk(p);
    }
  }

  lemma ChoiceOk(p: P.Petent)
    requires P.PetentOk(p) && Prepared(p) && p.pc == P.AtClerks(P.Loop)
    ensures P.PetentOk(P.Choose(p))
  {
  }

  /** The answer a petent reads carries its visit one stop further. */
  lemma PetentReads(sh: Shared, p: P.Petent)
    requires P.PetentOk(p) && P.VisitOk(p) && P.CanStep(sh, p) && P.Waiting(p.pc)
    requires MsgOk(Front(sh, p.pid)) && Front(sh, p.pid).origin == p.tck
    ensures P.VisitOk(P.After(sh, p))
  {
    var t := Front(sh, p.pid).t;
    JourneyGoesOn(p.visits, p.tck, t, p.vip);
    assert Path(p.visits + [p.tck.mtype]);
  }

  lemma PetentMovesOn(sh: Shared, p: P.Petent)
    requires P.PetentOk(p) && P.VisitOk(p) && P.CanStep(sh, p) && !P.Waiting(p.pc)
    ensures P.VisitOk(P.After(sh, p))
  {
    if p.pc == P.AtClerks(P.Loop) {
      LoopMovesOn(sh, p);
    } else if p.pc.AtClerks? {
      ClerksMoveOn(sh, p);
    } else if p.pc.InLine? {
      LineMovesOn(sh, p);
    } else {
      OthersMoveOn(sh, p);
    }
  }

  lemma LoopMovesOn(sh: Shared, p: P.Petent)
    requires P.PetentOk(p) && P.VisitOk(p) && P.CanStep(sh, p) && p.pc == P.AtClerks(P.Loop)
    ensures P.VisitOk(P.After(sh, p))
  {
    if p.tck.faculty != 0 && !p.sig2 {
      SendingOn(p);
    }
  }

  lemma SendingOn(p: P.Petent)
    requires P.PetentOk(p) && P.VisitOk(p) && p.pc == P.AtClerks(P.Loop) && p.tck.faculty != 0 && !p.sig2
    ensures P.VisitOk(P.Choose(p))
  {
    OnTheWayAnyType(p);
  }

  lemma ClerksMoveOn(sh: Shared, p: P.Petent)
    requires P.PetentOk(p) && P.VisitOk(p) && P.CanStep(sh, p) && !P.Waiting(p.pc)
    requires p.pc.AtClerks? && p.pc.clerk != P.Loop
    ensures P.VisitOk(P.After(sh, p))
  {
  }

  lemma LineMovesOn(sh: Shared, p: P.Petent)
    requires P.PetentOk(p) && P.VisitOk(p) && P.CanStep(sh, p) && !P.Waiting(p.pc) && p.pc.InLine?
    ensures P.VisitOk(P.After(sh, p))
  {
  }

  lemma OthersMoveOn(sh: Shared, p: P.Petent)
    requires P.PetentOk(p) && P.VisitOk(p) && P.CanStep(sh, p) && !p.pc.InLine? && !p.pc.AtClerks?
    ensures P.VisitOk(P.After(sh, p))
  {
  }

  /** The journey does not depend on the type the ticket in hand was last sent under. */
  lemma OnTheWayAnyType(p: P.Petent)
    requires P.OnTheWay(p)
    ensures Journey(p.visits, p.tck.(mtype := p.tck.queueid), p.vip)
  {
  }

  lemma SignalledStaysOk(p: P.Petent, asleep: bool)
    requires P.PetentOk(p) && P.VisitOk(p)
    ensures P.PetentOk(P.Signalled(p, asleep)) && P.VisitOk(P.Signalled(p, asleep))
  {
  }

  // ----- servers -----

  lemma ServerAllowed(sh: Shared, sv: S.Server, c: S.Chance)
    requires WellFormed(sh) && S.ServerOk(sv)
    ensures Allowed(S.CallOf(sh, sv, c), S.HoldsLock(sv))
  {
  }

  /** What a server finds on the queue it polls is a request made to its desk. */
  lemma FoundAtDesk(sh: Shared, sv: S.Server)
    requires 0 <= sv.desk <= 6 && Has(sh, S.PollQueue(sv))
    requires forall m :: m in sh.queue ==> MsgOk(m)
    ensures RequestOk(Front(sh, S.PollQueue(sv)).t)
    ensures Front(sh, S.PollQueue(sv)).origin == Front(sh, S.PollQueue(sv)).t
    ensures Front(sh, S.PollQueue(sv)).t.mtype == S.PollQueue(sv)
  {
    var m := Front(sh, S.PollQueue(sv));
    assert m in sh.queue;
    assert MsgOk(m) && m.t.mtype == S.PollQueue(sv);
  }

  /** Each clerk's rewriting is a lawful answer, with or without its new number. */
  lemma DecisionOk(sh: Shared, sv: S.Server, c: S.Chance)
    requires WellFormed(sh) && S.ServerOk(sv) && S.CanStep(sh, sv, c) && sv.pc == S.Serving(S.Decide)
    ensures S.ServerOk(S.After(sh, sv, c))
  {
  }

  lemma ServingStaysOk(sh: Shared, sv: S.Server, c: S.Chance)
    requires WellFormed(sh) && S.ServerOk(sv) && S.CanStep(sh, sv, c)
    requires sv.pc.Serving? && sv.pc.serve != S.Decide
    ensures S.ServerOk(S.After(sh, sv, c))
  {
    if !sv.pc.serve.FirstTry? && !sv.pc.serve.SecondTry? {
      NumberingStaysOk(sh, sv, c);
    }
  }

  lemma NumberingStaysOk(sh: Shared, sv: S.Server, c: S.Chance)
    requires WellFormed(sh) && S.ServerOk(sv) && S.CanStep(sh, sv, c)
    requires sv.pc.Serving? && sv.pc.serve != S.Decide && !sv.pc.serve.FirstTry? && !sv.pc.serve.SecondTry?
    ensures S.ServerOk(S.After(sh, sv, c))
  {
  }

  lemma ServerTakesOk(sh: Shared, sv: S.Server, c: S.Chance)
    requires WellFormed(sh) && S.ServerOk(sv) && S.CanStep(sh, sv, c)
    requires !sv.pc.Serving? && Has(sh, S.PollQueue(sv))
    requires forall m :: m in sh.queue ==> MsgOk(m)
    ensures S.ServerOk(S.After(sh, sv, c))
  {
    if sv.pc.Draining? {
      DrainTakesOk(sh, sv, c);
    } else {
      FoundAtDesk(sh, sv);
    }
  }

  lemma DrainTakesOk(sh: Shared, sv: S.Server, c: S.Chance)
    requires WellFormed(sh) && S.ServerOk(sv) && S.CanStep(sh, sv, c)
    requires sv.pc.Draining? && Has(sh, S.PollQueue(sv))
    requires forall m :: m in sh.queue ==> MsgOk(m)
    ensures S.ServerOk(S.After(sh, sv, c))
  {
    FoundAtDesk(sh, sv);
  }

  lemma ServerStaysOk(sh: Shared, sv: S.Server, c: S.Chance)
    requires WellFormed(sh) && S.ServerOk(sv) && S.CanStep(sh, sv, c)
    requires forall m :: m in sh.queue ==> MsgOk(m)
    ensures S.ServerOk(S.After(sh, sv, c))
  {
    if sv.pc == S.Serving(S.Decide) {
      DecisionOk(sh, sv, c);
    } else if sv.pc.Serving? {
      ServingStaysOk(sh, sv, c);
    } else if Has(sh, S.PollQueue(sv)) {
      ServerTakesOk(sh, sv, c);
    }
  }

  /** After an unsuccessful look at the priority queue, all that was ever sent there is taken. */
  lemma PollLearns(sh: Shared, sv: S.Server, c: S.Chance)
    requires WellFormed(sh) && S.CanStep(sh, sv, c) && sv.pc == S.Poll && !Has(sh, S.PollQueue(sv))
    requires forall ty :: OfType(sh.sent, ty) == OfType(sh.taken, ty) + OfType(sh.queue, ty)
    ensures ServerKnows(S.After(sh, sv, c), sh)
  {
    NoneFound(sh.queue, S.PollQueue(sv));
    assert sh.sent[..|sh.sent|] == sh.sent;
  }

  lemma ServerLearns(sh: Shared, sv: S.Server, c: S.Chance)
    requires WellFormed(sh) && S.ServerOk(sv) && ServerKnows(sv, sh) && S.CanStep(sh, sv, c)
    requires sv.pc == S.Poll ==> Has(sh, S.PollQueue(sv))
    ensures WellFormed(Perform(sh, S.CallOf(sh, sv, c)))
    ensures ServerKnows(S.After(sh, sv, c), Perform(sh, S.CallOf(sh, sv, c)))
  {
    PerformWellFormed(sh, S.CallOf(sh, sv, c));
    if sv.pc.Checking? {
      CheckLearns(sh, sv, c);
    } else if sv.pc.Serving? {
      ServingLearns(sh, sv, c);
    }
  }

  lemma ServingLearns(sh: Shared, sv: S.Server, c: S.Chance)
    requires WellFormed(sh) && S.ServerOk(sv) && ServerKnows(sv, sh) && S.CanStep(sh, sv, c) && sv.pc.Serving?
    requires WellFormed(Perform(sh, S.CallOf(sh, sv, c)))
    ensures ServerKnows(S.After(sh, sv, c), Perform(sh, S.CallOf(sh, sv, c)))
  {
  }

  /** Torn reads: limits read at different times add up to 0 only if each was 0 when read, and
      a limit that was 0 still is. */
  lemma CheckLearns(sh: Shared, sv: S.Server, c: S.Chance)
    requires WellFormed(sh) && S.ServerOk(sv) && ServerKnows(sv, sh) && S.CanStep(sh, sv, c) && sv.pc.Checking?
    ensures ServerKnows(S.After(sh, sv, c), Perform(sh, S.CallOf(sh, sv, c)))
  {
  }

  // ----- the director -----

  lemma DirectorAllowed(d: D.Director, lobby: nat)
    ensures Allowed(D.CallOf(d, lobby), D.HoldsLock(d.pc))
  {
  }
}
