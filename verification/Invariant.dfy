/**
 * What every step of the office keeps, and why it holds in every state of every run.
 */
module Invariant {
  import opened Tally
  import opened Tickets
  import opened Mailbox
  import opened SharedState
  import opened Interference
  import opened Office
  import opened Ledger
  import P = Petent
  import S = Server
  import D = Director

  // ----- the parts -----

  /** Every process is in order and knows what it needs to know. */
  ghost predicate ProcessesOk(s: State)
    requires WellFormed(s.sh)
  {
    && DistinctPids(s.petents)
    && (forall i :: 0 <= i < |s.petents| ==>
          P.PetentOk(s.petents[i]) && P.VisitOk(s.petents[i]) && PetentKnows(s.petents[i], s.sh))
    && (forall j :: 0 <= j < |s.servers| ==>
          S.ServerOk(s.servers[j]) && ServerKnows(s.servers[j], s.sh))
  }

  /** Per message type: what was sent is what was taken, followed by what is queued. */
  ghost predicate InOrder(sh: Shared)
  {
    forall ty :: OfType(sh.sent, ty) == OfType(sh.taken, ty) + OfType(sh.queue, ty)
  }

  /** Every account stands at its opening balance. */
  ghost predicate Balanced(s: State, c: Config)
    requires WellFormed(s.sh)
  {
    forall a :: Balance(s, a) == Opening(a, c)
  }

  /** The director's array, with the report in hand, is what was taken of the report queue. */
  ghost predicate ReportsKept(s: State)
  {
    && |s.collector.held| <= 1 && (s.collector.stopped ==> s.collector.held == [] && !s.collector.running)
    && OfType(s.sh.taken, REPORT_QUEUE) == s.collector.reports + s.collector.held
  }

  ghost predicate Core(s: State, c: Config)
  {
    && WellFormed(s.sh) && |s.sh.pids| == c.petentCount
    && ProcessesOk(s) && MessagesOk(s.sh) && InOrder(s.sh) && Balanced(s, c) && ReportsKept(s)
  }

  // ----- mutual exclusion -----

  datatype Process = Pet(i: nat) | Srv(j: nat) | Dir

  predicate Holds(s: State, x: Process)
  {
    match x
    case Pet(i) => i < |s.petents| && P.HoldsLock(s.petents[i].pc)
    case Srv(j) => j < |s.servers| && S.HoldsLock(s.servers[j])
    case Dir => D.HoldsLock(s.director.pc)
  }

  /** No two processes are ever inside the lock of the shared record at once. */
  lemma MutualExclusion(s: State, c: Config, x: Process, y: Process)
    requires WellFormed(s.sh) && Balanced(s, c)
    requires Holds(s, x) && Holds(s, y)
    ensures x == y
  {
    var w, v := PetentParts(Lock), ServerParts(Lock);
    assert Balance(s, Lock) == 1;
    SumNonNegative(s.petents, w);
    SumNonNegative(s.servers, v);
    if x.Pet? { SumAtLeastOne(s.petents, x.i, w); }
    if y.Pet? { SumAtLeastOne(s.petents, y.i, w); }
    if x.Srv? { SumAtLeastOne(s.servers, x.j, v); }
    if y.Srv? { SumAtLeastOne(s.servers, y.j, v); }
    if x.Pet? && y.Pet? && x.i != y.i {
      SumAtLeastTwo(s.petents, if x.i < y.i then x.i else y.i, if x.i < y.i then y.i else x.i, w);
    }
    if x.Srv? && y.Srv? && x.j != y.j {
      SumAtLeastTwo(s.servers, if x.j < y.j then x.j else y.j, if x.j < y.j then y.j else x.j, v);
    }
  }

  // ----- an answer belongs to the request that waits for it -----

  /** Every token in the queue has a petent with that very request unanswered. */
  lemma TokenHasOwner(s: State, c: Config, k: nat) returns (i: nat)
    requires WellFormed(s.sh) && Balanced(s, c) && k < |s.sh.queue| && s.sh.queue[k].t.mtype != REPORT_QUEUE
    ensures i < |s.petents| && s.petents[i].unanswered && s.petents[i].tck == s.sh.queue[k].origin
  {
    var a := Requests(ByRequest(s.sh.queue[k].origin));
    assert Balance(s, a) == 0;
    SumAtLeastOne(s.sh.queue, k, Tokens(a.pat));
    SumNonNegative(s.servers, ServerParts(a));
    if forall j :: 0 <= j < |s.petents| ==> PetentParts(a)(s.petents[j]) == 0 {
      SumOfZeros(s.petents, PetentParts(a));
      assert false;
    }
    i :| 0 <= i < |s.petents| && PetentParts(a)(s.petents[i]) != 0;
  }

  /** The first message in a waiting petent's mailbox answers its own latest request. */
  lemma AnswerIsMine(s: State, c: Config, i: nat)
    requires Core(s, c) && i < |s.petents| && s.petents[i].unanswered && Has(s.sh, s.petents[i].pid)
    ensures var m := Front(s.sh, s.petents[i].pid);
      MsgOk(m) && m.t.mtype > 26 && m.origin == s.petents[i].tck
  {
    var p := s.petents[i];
    var k := FirstOf(s.sh.queue, p.pid);
    var m := s.sh.queue[k];
    assert m in s.sh.queue;
    var o := TokenHasOwner(s, c, k);
    assert s.petents[o].pid == p.pid;
    assert o == i;
  }

  // ----- one step -----

  predicate ActorHolds(s: State, a: Action)
    requires Enabled(s, a)
  {
    match a
    case PetentStep(i) => P.HoldsLock(s.petents[i].pc)
    case Signal(_, _) => false
    case ServerStep(j, _) => S.HoldsLock(s.servers[j])
    case DirectorStep(_) => D.HoldsLock(s.director.pc)
    case CollectorStep => false
  }

  lemma CallIsAllowed(s: State, a: Action, c: Config)
    requires Core(s, c) && Enabled(s, a)
    ensures Possible(s.sh, CallOf(s, a, c.lobby)) && Allowed(CallOf(s, a, c.lobby), ActorHolds(s, a))
  {
    match a
    case PetentStep(i) =>
      VisitPrepares(s.petents[i]);
      PetentAllowed(s.petents[i]);
    case ServerStep(j, chance) => ServerAllowed(s.sh, s.servers[j], chance);
    case DirectorStep(_) => DirectorAllowed(s.director, c.lobby);
    case _ =>
  }

  lemma StepRespects(s: State, a: Action, c: Config)
    requires Core(s, c) && Enabled(s, a)
    ensures Respects(s.sh, Apply(s, a, c.lobby).sh, ActorHolds(s, a))
    ensures MessagesOk(Apply(s, a, c.lobby).sh)
  {
    CallIsAllowed(s, a, c);
    AllowedRespects(s.sh, CallOf(s, a, c.lobby), ActorHolds(s, a));
    AllowedKeepsMessages(s.sh, CallOf(s, a, c.lobby), ActorHolds(s, a));
  }

  /** The petent or server that acts stays in order and knows where it stands. */
  lemma ActorStaysOk(s: State, a: Action, c: Config)
    requires Core(s, c) && Enabled(s, a)
    ensures var t := Apply(s, a, c.lobby); WellFormed(t.sh) && match a
      case PetentStep(i) =>
        P.PetentOk(t.petents[i]) && P.VisitOk(t.petents[i]) && PetentKnows(t.petents[i], t.sh)
      case Signal(i, _) =>
        P.PetentOk(t.petents[i]) && P.VisitOk(t.petents[i]) && PetentKnows(t.petents[i], t.sh)
      case ServerStep(j, _) => S.ServerOk(t.servers[j]) && ServerKnows(t.servers[j], t.sh)
      case _ => true
  {
    StepRespects(s, a, c);
    match a
    case PetentStep(i) => PetentActs(s, i, c);
    case Signal(i, asleep) =>
      SignalledStaysOk(s.petents[i], asleep);
      SignalledKnows(s.petents[i], asleep, s.sh);
    case ServerStep(j, chance) => ServerActs(s, j, chance, c);
    case _ =>
  }

  lemma SignalledKnows(p: P.Petent, asleep: bool, sh: Shared)
    requires PetentKnows(p, sh)
    ensures PetentKnows(P.Signalled(p, asleep), sh)
  {
  }

  lemma PetentActs(s: State, i: nat, c: Config)
    requires Core(s, c) && i < |s.petents| && P.CanStep(s.sh, s.petents[i])
    ensures var p := P.After(s.sh, s.petents[i]);
      P.PetentOk(p) && P.VisitOk(p) && PetentKnows(p, Perform(s.sh, P.CallOf(s.petents[i])))
  {
    var p := s.petents[i];
    VisitPrepares(p);
    PetentStaysOk(s.sh, p);
    PetentLearns(s.sh, p);
    if P.Waiting(p.pc) {
      AnswerIsMine(s, c, i);
      PetentReads(s.sh, p);
    } else {
      PetentMovesOn(s.sh, p);
    }
  }

  lemma ServerActs(s: State, j: nat, chance: S.Chance, c: Config)
    requires Core(s, c) && j < |s.servers| && S.CanStep(s.sh, s.servers[j], chance)
    ensures var sv := S.After(s.sh, s.servers[j], chance);
      var sh := Perform(s.sh, S.CallOf(s.sh, s.servers[j], chance));
      S.ServerOk(sv) && WellFormed(sh) && ServerKnows(sv, sh)
  {
    var sv := s.servers[j];
    ServerStaysOk(s.sh, sv, chance);
    if sv.pc == S.Poll && !Has(s.sh, S.PollQueue(sv)) {
      PollLearns(s.sh, sv, chance);
    } else {
      ServerLearns(s.sh, sv, chance);
    }
  }

  lemma BystanderPetent(s: State, a: Action, c: Config, i: nat)
    requires Core(s, c) && Enabled(s, a) && i < |s.petents|
    requires a != PetentStep(i) && !(a.Signal? && a.i == i)
    ensures PetentKnows(s.petents[i], Apply(s, a, c.lobby).sh)
  {
    StepRespects(s, a, c);
    if ActorHolds(s, a) && P.HoldsLock(s.petents[i].pc) {
      MutualExclusion(s, c, Pet(i), match a
        case PetentStep(k) => Pet(k) case ServerStep(k, _) => Srv(k) case _ => Dir);
    }
    PetentKnowledgeStable(s.petents[i], s.sh, Apply(s, a, c.lobby).sh, ActorHolds(s, a));
  }

  lemma BystanderServer(s: State, a: Action, c: Config, j: nat)
    requires Core(s, c) && Enabled(s, a) && j < |s.servers|
    requires !(a.ServerStep? && a.j == j)
    ensures WellFormed(Apply(s, a, c.lobby).sh)
    ensures ServerKnows(s.servers[j], Apply(s, a, c.lobby).sh)
  {
    StepRespects(s, a, c);
    if ActorHolds(s, a) && S.HoldsLock(s.servers[j]) {
      MutualExclusion(s, c, Srv(j), match a
        case PetentStep(k) => Pet(k) case ServerStep(k, _) => Srv(k) case _ => Dir);
    }
    ServerKnowledgeStable(s.servers[j], s.sh, Apply(s, a, c.lobby).sh, ActorHolds(s, a));
  }

  lemma SameCrowd(s: State, a: Action, c: Config)
    requires Enabled(s, a)
    ensures |Apply(s, a, c.lobby).petents| == |s.petents|
    ensures |Apply(s, a, c.lobby).servers| == |s.servers|
  {
  }

  lemma SamePetent(s: State, a: Action, c: Config, i: nat)
    requires Enabled(s, a) && i < |s.petents| && |Apply(s, a, c.lobby).petents| == |s.petents|
    ensures var p := Apply(s, a, c.lobby).petents[i];
      p.pid == s.petents[i].pid && (a != PetentStep(i) && !(a.Signal? && a.i == i) ==> p == s.petents[i])
  {
    if a == PetentStep(i) {
      PidStays(s.sh, s.petents[i]);
    }
  }

  lemma PidStays(sh: Shared, p: P.Petent)
    requires P.CanStep(sh, p)
    ensures P.After(sh, p).pid == p.pid
  {
  }

  lemma EveryPetentAfter(s: State, a: Action, c: Config, i: nat)
    requires Core(s, c) && Enabled(s, a) && i < |s.petents|
    ensures var t := Apply(s, a, c.lobby);
      && |t.petents| == |s.petents| && t.petents[i].pid == s.petents[i].pid
      && P.PetentOk(t.petents[i]) && P.VisitOk(t.petents[i]) && PetentKnows(t.petents[i], t.sh)
  {
    SameCrowd(s, a, c);
    SamePetent(s, a, c, i);
    if a == PetentStep(i) || (a.Signal? && a.i == i) {
      ActorStaysOk(s, a, c);
    } else {
      BystanderPetent(s, a, c, i);
    }
  }

  lemma EveryServerAfter(s: State, a: Action, c: Config, j: nat)
    requires Core(s, c) && Enabled(s, a) && j < |s.servers|
    ensures var t := Apply(s, a, c.lobby);
      && |t.servers| == |s.servers| && WellFormed(t.sh)
      && S.ServerOk(t.servers[j]) && ServerKnows(t.servers[j], t.sh)
  {
    if a.ServerStep? && a.j == j {
      ActorStaysOk(s, a, c);
    } else {
      BystanderServer(s, a, c, j);
    }
  }

  lemma StepKeepsProcesses(s: State, a: Action, c: Config)
    requires Core(s, c) && Enabled(s, a)
    requires WellFormed(Apply(s, a, c.lobby).sh)
    ensures ProcessesOk(Apply(s, a, c.lobby))
  {
    var t := Apply(s, a, c.lobby);
    SameCrowd(s, a, c);
    forall i | 0 <= i < |s.petents|
      ensures t.petents[i].pid == s.petents[i].pid
      ensures P.PetentOk(t.petents[i]) && P.VisitOk(t.petents[i]) && PetentKnows(t.petents[i], t.sh)
    {
      EveryPetentAfter(s, a, c, i);
    }
    forall j | 0 <= j < |s.servers|
      ensures S.ServerOk(t.servers[j]) && ServerKnows(t.servers[j], t.sh)
    {
      EveryServerAfter(s, a, c, j);
    }
  }

  lemma StepKeepsOrder(sh: Shared, call: Call)
    requires Possible(sh, call) && InOrder(sh)
    ensures InOrder(Perform(sh, call))
  {
    var sh' := Perform(sh, call);
    forall ty
      ensures OfType(sh'.sent, ty) == OfType(sh'.taken, ty) + OfType(sh'.queue, ty)
    {
      assert OfType(sh.sent, ty) == OfType(sh.taken, ty) + OfType(sh.queue, ty);
      if call.Send? && call.m.t.mtype > 0 {
        SendInOrder(sh.sent, sh.taken, sh.queue, call.m, ty);
      } else if call.Receive? {
        ReceiveInOrder(sh.sent, sh.taken, sh.queue, call.ty, ty);
      }
    }
  }

  lemma SendInOrder(sent: seq<Msg>, taken: seq<Msg>, queue: seq<Msg>, m: Msg, ty: int)
    requires OfType(sent, ty) == OfType(taken, ty) + OfType(queue, ty)
    ensures OfType(sent + [m], ty) == OfType(taken, ty) + OfType(queue + [m], ty)
  {
    var more := if m.t.mtype == ty then [m] else [];
    calc {
      OfType(sent + [m], ty);
      { OfTypeAppend(sent, m, ty); }
      (OfType(taken, ty) + OfType(queue, ty)) + more;
      { Regroup(OfType(taken, ty), OfType(queue, ty), more); }
      OfType(taken, ty) + (OfType(queue, ty) + more);
      { OfTypeAppend(queue, m, ty); }
      OfType(taken, ty) + OfType(queue + [m], ty);
    }
  }

  lemma ReceiveInOrder(sent: seq<Msg>, taken: seq<Msg>, queue: seq<Msg>, asked: int, ty: int)
    requires FirstOf(queue, asked) < |queue|
    requires OfType(sent, ty) == OfType(taken, ty) + OfType(queue, ty)
    ensures var k := FirstOf(queue, asked);
      OfType(sent, ty) == OfType(taken + [queue[k]], ty) + OfType(Without(queue, k), ty)
  {
    var k := FirstOf(queue, asked);
    var one := if ty == asked then [queue[k]] else [];
    var rest := OfType(Without(queue, k), ty);
    assert OfType(queue, ty) == one + rest by { ReceiveOldest(queue, asked, ty); }
    assert OfType(taken + [queue[k]], ty) == OfType(taken, ty) + one by { OfTypeAppend(taken, queue[k], ty); }
    Regroup(OfType(taken, ty), one, rest);
  }

  /** Nobody but the collecting thread takes reports. */
  lemma PetentLeavesReports(p: P.Petent)
    requires p.pid > 26
    ensures P.CallOf(p) != Receive(REPORT_QUEUE)
  {
  }

  lemma ServerLeavesReports(sh: Shared, sv: S.Server, chance: S.Chance)
    requires WellFormed(sh) && 0 <= sv.desk <= 6
    ensures S.CallOf(sh, sv, chance) != Receive(REPORT_QUEUE)
  {
  }

  lemma ReportsLeftAlone(s: State, a: Action, c: Config)
    requires Core(s, c) && Enabled(s, a) && !a.CollectorStep?
    ensures CallOf(s, a, c.lobby) != Receive(REPORT_QUEUE)
    ensures Apply(s, a, c.lobby).collector.reports == s.collector.reports
    ensures Apply(s, a, c.lobby).collector.held == s.collector.held
    ensures Apply(s, a, c.lobby).collector.stopped == s.collector.stopped
    ensures Apply(s, a, c.lobby).collector.running ==> s.collector.running
  {
    CollectorLeftAlone(s, a, c);
    match a
    case PetentStep(i) => PetentLeavesReports(s.petents[i]);
    case ServerStep(j, chance) => ServerLeavesReports(s.sh, s.servers[j], chance);
    case _ =>
  }

  lemma CollectorLeftAlone(s: State, a: Action, c: Config)
    requires Enabled(s, a) && !a.CollectorStep?
    ensures var k := Apply(s, a, c.lobby).collector; k == s.collector.(running := k.running) && (k.running ==> s.collector.running)
  {
  }

  lemma CallLeavesReports(sh: Shared, call: Call)
    requires Possible(sh, call) && call != Receive(REPORT_QUEUE)
    ensures OfType(Perform(sh, call).taken, REPORT_QUEUE) == OfType(sh.taken, REPORT_QUEUE)
  {
    if call.Receive? {
      OfTypeAppend(sh.taken, Front(sh, call.ty), REPORT_QUEUE);
    }
  }

  lemma CollectorKeepsReports(sh: Shared, k: D.Collector)
    requires |k.held| <= 1 && OfType(sh.taken, REPORT_QUEUE) == k.reports + k.held
    requires k.stopped ==> k.held == [] && !k.running
    ensures var h := D.AfterCollect(sh, k);
      && (h.stopped ==> h.held == [] && !h.running)
      && |h.held| <= 1 && OfType(Perform(sh, D.CollectorCall(sh, k)).taken, REPORT_QUEUE) == h.reports + h.held
  {
    if D.CollectorCall(sh, k).Receive? {
      OfTypeAppend(sh.taken, Front(sh, REPORT_QUEUE), REPORT_QUEUE);
    }
  }

  lemma StepKeepsReports(s: State, a: Action, c: Config)
    requires Core(s, c) && Enabled(s, a)
    ensures ReportsKept(Apply(s, a, c.lobby))
  {
    if a.CollectorStep? {
      CollectorKeepsReports(s.sh, s.collector);
    } else {
      ReportsLeftAlone(s, a, c);
      CallLeavesReports(s.sh, CallOf(s, a, c.lobby));
    }
  }

  lemma PetentPaysHere(s: State, i: nat, c: Config, x: Account)
    requires Core(s, c) && i < |s.petents| && P.CanStep(s.sh, s.petents[i])
    ensures var p := s.petents[i];
      Delta(s.sh, P.CallOf(p), x) + PetentPart(P.After(s.sh, p), x) == PetentPart(p, x)
  {
    var p := s.petents[i];
    VisitPrepares(p);
    if P.Waiting(p.pc) {
      AnswerIsMine(s, c, i);
    }
    PetentPays(s.sh, p, x);
  }

  lemma PetentKeepsBalance(s: State, i: nat, c: Config, x: Account)
    requires Core(s, c) && Enabled(s, PetentStep(i)) && WellFormed(Apply(s, PetentStep(i), c.lobby).sh)
    ensures Balance(Apply(s, PetentStep(i), c.lobby), x) == Balance(s, x)
  {
    var p := s.petents[i];
    PetentPaysHere(s, i, c, x);
    CallMovesShared(s.sh, P.CallOf(p), x);
    SumUpdate(s.petents, i, P.After(s.sh, p), PetentParts(x));
  }

  lemma ServerKeepsBalance(s: State, j: nat, chance: S.Chance, c: Config, x: Account)
    requires Core(s, c) && Enabled(s, ServerStep(j, chance)) && WellFormed(Apply(s, ServerStep(j, chance), c.lobby).sh)
    ensures Balance(Apply(s, ServerStep(j, chance), c.lobby), x) == Balance(s, x)
  {
    ServerPays(s.sh, s.servers[j], chance, x);
    CallMovesShared(s.sh, S.CallOf(s.sh, s.servers[j], chance), x);
    SumUpdate(s.servers, j, S.After(s.sh, s.servers[j], chance), ServerParts(x));
  }

  lemma SignalKeepsBalance(s: State, i: nat, asleep: bool, c: Config, x: Account)
    requires Core(s, c) && i < |s.petents|
    ensures Balance(Apply(s, Signal(i, asleep), c.lobby), x) == Balance(s, x)
  {
    SignalIsFree(s.petents[i], asleep, x);
    SumUpdate(s.petents, i, P.Signalled(s.petents[i], asleep), PetentParts(x));
  }

  lemma DirectorKeepsBalance(s: State, evacuate: bool, c: Config, x: Account)
    requires WellFormed(s.sh) && Enabled(s, DirectorStep(evacuate)) && WellFormed(Apply(s, DirectorStep(evacuate), c.lobby).sh)
    ensures Balance(Apply(s, DirectorStep(evacuate), c.lobby), x) == Balance(s, x)
  {
    DirectorPays(s.sh, s.director, c.lobby, evacuate, x);
    CallMovesShared(s.sh, D.CallOf(s.director, c.lobby), x);
  }

  lemma CollectorKeepsBalance(s: State, c: Config, x: Account)
    requires WellFormed(s.sh) && WellFormed(Apply(s, CollectorStep, c.lobby).sh)
    ensures Balance(Apply(s, CollectorStep, c.lobby), x) == Balance(s, x)
  {
    CollectorPays(s.sh, s.collector, x);
    CallMovesShared(s.sh, D.CollectorCall(s.sh, s.collector), x);
  }

  lemma StepKeepsBalance(s: State, a: Action, c: Config, x: Account)
    requires Core(s, c) && Enabled(s, a) && WellFormed(Apply(s, a, c.lobby).sh)
    ensures Balance(Apply(s, a, c.lobby), x) == Balance(s, x)
  {
    match a
    case PetentStep(i) => PetentKeepsBalance(s, i, c, x);
    case Signal(i, asleep) => SignalKeepsBalance(s, i, asleep, c, x);
    case ServerStep(j, chance) => ServerKeepsBalance(s, j, chance, c, x);
    case DirectorStep(evacuate) => DirectorKeepsBalance(s, evacuate, c, x);
    case CollectorStep => CollectorKeepsBalance(s, c, x);
  }

  lemma StepKeepsBalanced(s: State, a: Action, c: Config)
    requires Core(s, c) && Enabled(s, a) && WellFormed(Apply(s, a, c.lobby).sh)
    ensures Balanced(Apply(s, a, c.lobby), c)
  {
    forall x ensures Balance(Apply(s, a, c.lobby), x) == Opening(x, c) {
      assert Balance(s, x) == Opening(x, c);
      StepKeepsBalance(s, a, c, x);
    }
  }

  lemma StepKeepsCore(s: State, a: Action, c: Config)
    requires Core(s, c) && Enabled(s, a)
    ensures Core(Apply(s, a, c.lobby), c)
  {
    StepRespects(s, a, c);
    StepKeepsProcesses(s, a, c);
    StepKeepsOrder(s.sh, CallOf(s, a, c.lobby));
    StepKeepsReports(s, a, c);
    StepKeepsBalanced(s, a, c);
  }

  lemma InitialBalance(s: State, c: Config, a: Account)
    requires Init(s, c)
    ensures WellFormed(s.sh) && Balance(s, a) == Opening(a, c)
  {
    LimitSplit(c.petentCount);
    SumOfZeros(s.petents, PetentParts(a));
    SumOfZeros(s.servers, ServerParts(a));
  }

  lemma InitialCore(s: State, c: Config)
    requires Init(s, c)
    ensures Core(s, c)
  {
    InitialProcesses(s, c);
    forall a ensures Balance(s, a) == Opening(a, c) {
      InitialBalance(s, c, a);
    }
  }

  lemma InitialProcesses(s: State, c: Config)
    requires Init(s, c)
    ensures WellFormed(s.sh) && |s.sh.pids| == c.petentCount && ProcessesOk(s) && ReportsKept(s)
    ensures MessagesOk(s.sh) && InOrder(s.sh)
  {
    LimitSplit(c.petentCount);
  }

  lemma CoreNextState(s: State, s': State, c: Config)
    requires Core(s, c) && Next(s, s', c)
    ensures Core(s', c)
  {
    var a :| Enabled(s, a) && s' == Apply(s, a, c.lobby);
    StepKeepsCore(s, a, c);
  }

  /** The core invariant holds throughout every run. */
  lemma {:induction false} CoreThroughout(tr: seq<State>, c: Config, k: nat)
    requires Run(tr, c) && k < |tr|
    ensures Core(tr[k], c)
  {
    if k == 0 {
      InitialCore(tr[0], c);
    } else {
      CoreThroughout(tr, c, k - 1);
      assert Follows(tr, k - 1, c);
      CoreNextState(tr[k - 1], tr[k], c);
    }
  }
}
