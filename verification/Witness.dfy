/**
 * Runs that exist: in any office with a machine a petent can get as far as the clerks, be
 * called away and leave the gate short of its units; and a redirect can fail and be reported.
 */
module Witness {
  import opened Tally
  import opened Tickets
  import opened Mailbox
  import opened SharedState
  import opened Office
  import opened Conservation
  import opened Solo
  import opened Registry
  import opened Rounds
  import opened Safety
  import opened Setup
  import opened Visits
  import M = MachineProgram
  import C = ClerkProgram
  import DP = DirectorProgram
  import PP = PetentProgram
  import P = Petent
  import S = Server
  import D = Director

  // ----- a process alone is a stretch of a run of the office -----

  ghost function OfficeSteps(c: Config): iset<(State, State)>
  {
    iset s: (State, State) | Next(s.0, s.1, c)
  }

  function PetentIn(s: State, i: nat): PetentScene -> State
    requires i < |s.petents|
  {
    (a: PetentScene) => s.(sh := a.sh, petents := s.petents[i := a.me])
  }

  lemma PetentRuns(s: State, i: nat, b: PetentScene, c: Config)
    requires i < |s.petents| && Reaches(Scene(s.sh, s.petents[i]), b, PetentSteps())
    ensures Reaches(s, s.(sh := b.sh, petents := s.petents[i := b.me]), OfficeSteps(c))
  {
    var f := PetentIn(s, i);
    forall x, y | (x, y) in PetentSteps() ensures (f(x), f(y)) in OfficeSteps(c) {
      assert Enabled(f(x), PetentStep(i)) && Apply(f(x), PetentStep(i), c.lobby) == f(y);
    }
    assert f(Scene(s.sh, s.petents[i])) == s;
    Lifted(Scene(s.sh, s.petents[i]), b, PetentSteps(), f, OfficeSteps(c));
  }

  function ServerIn(s: State, j: nat): ServerScene -> State
    requires j < |s.servers|
  {
    (a: ServerScene) => s.(sh := a.sh, servers := s.servers[j := a.me])
  }

  lemma ServerRuns(s: State, j: nat, b: ServerScene, chance: S.Chance, c: Config)
    requires j < |s.servers| && Reaches(Scene(s.sh, s.servers[j]), b, ServerSteps(chance))
    ensures Reaches(s, s.(sh := b.sh, servers := s.servers[j := b.me]), OfficeSteps(c))
  {
    var f := ServerIn(s, j);
    forall x, y | (x, y) in ServerSteps(chance) ensures (f(x), f(y)) in OfficeSteps(c) {
      var n: nat :| CanMove(x, NextRead(chance, n)) && y == Move(x, NextRead(chance, n));
      var a := ServerStep(j, NextRead(chance, n));
      assert Enabled(f(x), a) && Apply(f(x), a, c.lobby) == f(y);
    }
    assert f(Scene(s.sh, s.servers[j])) == s;
    Lifted(Scene(s.sh, s.servers[j]), b, ServerSteps(chance), f, OfficeSteps(c));
  }

  /** The director has told the collecting thread to stop. */
  predicate ThreadStopped(pc: D.Pc) { pc.LastSweep? || pc.LastClear? || pc.Finished? }

  function DirectorIn(s: State): DirectorScene -> State
  {
    (a: DirectorScene) => s.(sh := a.sh, director := a.me,
                             collector := s.collector.(running := s.collector.running && !ThreadStopped(a.me.pc)))
  }

  lemma DirectorStepsIn(s: State, x: DirectorScene, c: Config)
    requires D.CanStep(x.sh, x.me)
    ensures Next(DirectorIn(s)(x), DirectorIn(s)(DirectorMove(x, c.lobby, false)), c)
  {
    var a := DirectorIn(s)(x);
    assert Enabled(a, DirectorStep(false));
    ThreadStopsOnce(x, c.lobby);
    assert Apply(a, DirectorStep(false), c.lobby) == DirectorIn(s)(DirectorMove(x, c.lobby, false));
  }

  lemma ThreadStopsOnce(x: DirectorScene, lobby: nat)
    requires D.CanStep(x.sh, x.me)
    ensures ThreadStopped(DirectorMove(x, lobby, false).me.pc) <==> ThreadStopped(x.me.pc) || x.me.pc.StopThread?
  {
  }

  lemma DirectorRuns(s: State, b: DirectorScene, c: Config)
    requires Reaches(Scene(s.sh, s.director), b, DirectorSteps(c.lobby, false)) && !ThreadStopped(s.director.pc)
    ensures Reaches(s, DirectorIn(s)(b), OfficeSteps(c))
  {
    var f := DirectorIn(s);
    forall x, y | (x, y) in DirectorSteps(c.lobby, false) ensures (f(x), f(y)) in OfficeSteps(c) {
      DirectorStepsIn(s, x, c);
    }
    assert f(Scene(s.sh, s.director)) == s;
    Lifted(Scene(s.sh, s.director), b, DirectorSteps(c.lobby, false), f, OfficeSteps(c));
  }

  lemma SignalRuns(s: State, i: nat, c: Config)
    requires i < |s.petents|
    ensures Reaches(s, s.(petents := s.petents[i := P.Signalled(s.petents[i], false)]), OfficeSteps(c))
  {
    var t := Apply(s, Signal(i, false), c.lobby);
    assert Enabled(s, Signal(i, false));
    assert (s, t) in OfficeSteps(c);
    StepThen(s, t, t, OfficeSteps(c));
  }

  ghost predicate RunBetween(tr: seq<State>, s: State, t: State, c: Config)
  {
    Run(tr, c) && tr[0] == s && tr[|tr| - 1] == t
  }

  ghost predicate Connected(s: State, t: State, c: Config) { exists tr :: RunBetween(tr, s, t, c) }

  lemma RunTo(s: State, t: State, c: Config) returns (tr: seq<State>)
    requires Init(s, c) && Reaches(s, t, OfficeSteps(c))
    ensures RunBetween(tr, s, t, c)
  {
    var ends := iset e: State | Connected(s, e, c);
    assert RunBetween([s], s, s, c);
    forall x, y | (x, y) in OfficeSteps(c) && x in ends ensures y in ends {
      var r :| RunBetween(r, s, x, c);
      OneMore(r, y, c);
      assert RunBetween(r + [y], s, y, c);
    }
    assert t in ends;
    tr :| RunBetween(tr, s, t, c);
  }

  lemma OneMore(tr: seq<State>, t: State, c: Config)
    requires Run(tr, c) && Next(tr[|tr| - 1], t, c)
    ensures Run(tr + [t], c)
  {
    var longer := tr + [t];
    forall k | 0 <= k < |longer| - 1 ensures Follows(longer, k, c) {
      if k < |tr| - 1 {
        assert Follows(tr, k, c);
      }
    }
  }

  // ----- from the opening to the clerks -----

  /** An office not yet started with a petent that fits into the building, wants an office that
      has a place, and finds a machine. */
  ghost predicate Suited(s: State, c: Config, i: nat, j: nat)
  {
    && Init(s, c) && i < |s.petents| && j < |s.servers| && s.servers[j].desk == S.MACHINE
    && s.petents[i].people <= c.lobby
    && OfficeLimit(InitialLimits(c.petentCount), s.petents[i].faculty) >= 1
  }

  lemma Opens(s: State, c: Config) returns (t: State)
    requires Init(s, c)
    ensures Reaches(s, t, OfficeSteps(c)) && t.petents == s.petents && t.servers == s.servers
    ensures t.sh == s.sh.(isOpened := true, turnstile := D.TURNSTILE_TOKENS, building := c.lobby)
    ensures t.director.pc == D.Working && t.collector == s.collector
  {
    var b := DP.OpenAlone(Scene(s.sh, s.director), c.lobby);
    DirectorRuns(s, b, c);
    t := DirectorIn(s)(b);
  }

  /** Draws with which a machine switches itself on, and with which it stays as it is. */
  const SWITCH_ON: S.Chance := S.Chance(false, 0, false, false, false, true, 0)
  const STAY: S.Chance := S.Chance(false, 0, false, false, false, false, 0)

  /** A machine switched on serves the only request there is. */
  lemma ServeAlone(a: ServerScene, r: Ticket) returns (b: ServerScene)
    requires WellFormed(a.sh) && a.sh.semlock >= 1 && a.sh.isOpened
    requires a.me.desk == S.MACHINE && a.me.pc == S.Fresh(S.FreshLock, true)
    requires a.sh.queue == [Msg(r, r)] && r.mtype == MACHINE_QUEUE && r.requester > 26 && IsOffice(r.faculty)
    ensures Reaches(a, b, ServerSteps(STAY)) && b.me.pc == S.Checking(S.CheckLock)
    ensures b.sh == M.Served(a.sh.(queue := [], taken := a.sh.taken + [Msg(r, r)]), r, false)
  {
    var s1 := FlagAlone(a, true, STAY);
    assert FirstOf(s1.sh.queue, MACHINE_QUEUE) == 0;
    var s2 := Move(s1, STAY);
    assert s2.sh == a.sh.(queue := [], taken := a.sh.taken + [Msg(r, r)]);
    b := M.MachineAlone(s2, STAY);
    MoveThen(s1, b, STAY);
    Chain(a, s1, b, ServerSteps(STAY));
  }

  /** The whole of a machine's part. */
  lemma MachineServes(s: State, j: nat, r: Ticket, c: Config) returns (t: State)
    requires WellFormed(s.sh) && s.sh.semlock >= 1 && s.sh.isOpened && s.sh.turnstile >= 1
    requires j < |s.servers| && s.servers[j].desk == S.MACHINE && s.servers[j].pc == S.Waiting
    requires s.sh.queue == [Msg(r, r)] && r.mtype == MACHINE_QUEUE && r.requester > 26 && IsOffice(r.faculty)
    ensures Reaches(s, t, OfficeSteps(c))
    ensures t == s.(sh := M.Served(s.sh.(queue := [], taken := s.sh.taken + [Msg(r, r)]), r, false), servers := t.servers)
    ensures |t.servers| == |s.servers| && forall k :: 0 <= k < |s.servers| && k != j ==> t.servers[k] == s.servers[k]
  {
    var b1 := StartAlone(Scene(s.sh, s.servers[j]), STAY);
    ServerRuns(s, j, b1, STAY, c);
    var s1 := s.(sh := b1.sh, servers := s.servers[j := b1.me]);
    var b2 := FlagAlone(Scene(s1.sh, s1.servers[j]), false, SWITCH_ON);
    ServerRuns(s1, j, b2, SWITCH_ON, c);
    var s2 := s1.(sh := b2.sh, servers := s1.servers[j := b2.me]);
    var b3 := ServeAlone(Scene(s2.sh, s2.servers[j]), r);
    ServerRuns(s2, j, b3, STAY, c);
    t := s2.(sh := b3.sh, servers := s2.servers[j := b3.me]);
    Chain(s, s1, s2, OfficeSteps(c));
    Chain(s, s2, t, OfficeSteps(c));
  }

  /** The ticket a machine prints first. */
  function FirstTicket(p: P.Petent): Ticket
  {
    P.FirstRequest(p).(mtype := p.pid, ticketid := 1, queueid := DeskQueue(p.faculty, p.vip))
  }

  /** The petent as it stands at the head of the clerk loop with it. */
  function WithTicket(p: P.Petent): P.Petent
  {
    p.(pc := P.AtClerks(P.Loop), tck := FirstTicket(p), visits := [MACHINE_QUEUE])
  }

  lemma ReadsAlone(a: PetentScene, p: P.Petent) returns (b: PetentScene)
    requires p.pid > 26 && p.visits == [] && !p.unanswered
    requires a.me == p.(pc := P.InLine(P.AwaitTicket), tck := P.FirstRequest(p), unanswered := true)
    requires a.sh.queue == [Msg(FirstTicket(p), P.FirstRequest(p))]
    ensures Reaches(a, b, PetentSteps()) && b.me == WithTicket(p)
    ensures b.sh == a.sh.(tickets := a.sh.tickets + 1, queue := [], taken := a.sh.taken + a.sh.queue)
  {
    assert FirstOf(a.sh.queue, p.pid) == 0;
    b := TicketAlone(a);
    assert b.me.visits == [MACHINE_QUEUE];
  }

  /** What the shared state is once petent p has been through the opened office to the clerks. */
  ghost predicate AfterOneTicket(sh: Shared, p: P.Petent, c: Config)
  {
    && sh.semlock == 1 && sh.turnstile == D.TURNSTILE_TOKENS && sh.building == c.lobby - p.people
    && sh.tickets == TICKET_MACHINES && sh.slots == InitialShared(c).slots
    && sh.limits == M.LimitsAfter(InitialLimits(c.petentCount), p.faculty, false) && WellFormed(sh)
    && sh.isOpened && !sh.isLocked && sh.takenCount == 1 && sh.queue == []
  }

  /** From any suited office there is a run with petent i at the clerks and all others yet to come;
      no server but machine j has moved. */
  lemma ToTheClerks(s: State, c: Config, i: nat, j: nat) returns (t: State)
    requires Suited(s, c, i, j)
    ensures Reaches(s, t, OfficeSteps(c)) && AfterOneTicket(t.sh, s.petents[i], c)
    ensures t.petents == s.petents[i := WithTicket(s.petents[i])] && t.director.pc == D.Working && t.collector == s.collector
    ensures |t.servers| == |s.servers| && forall k :: 0 <= k < |s.servers| && k != j ==> t.servers[k] == s.servers[k]
  {
    LimitSplit(c.petentCount);
    var p := s.petents[i];
    var s1 := Opens(s, c);
    var b2 := ArriveAlone(Scene(s1.sh, s1.petents[i]));
    PetentRuns(s1, i, b2, c);
    var s2 := s1.(sh := b2.sh, petents := s1.petents[i := b2.me]);
    var s3 := MachineServes(s2, j, P.FirstRequest(p), c);
    var b4 := ReadsAlone(Scene(s3.sh, s3.petents[i]), p);
    PetentRuns(s3, i, b4, c);
    t := s3.(sh := b4.sh, petents := s3.petents[i := b4.me]);
    Chain(s, s1, s2, OfficeSteps(c));
    Chain(s, s2, s3, OfficeSteps(c));
    Chain(s, s3, t, OfficeSteps(c));
  }

  // ----- units lost -----

  /** The exit of the clerk loop is taken in some run of every office with a machine and a petent
      that fits: open, unlocked, with nobody inside, the gate is short of that petent's units. */
  lemma UnitsCanBeLost(s: State, c: Config, i: nat, j: nat) returns (tr: seq<State>)
    requires Suited(s, c, i, j)
    ensures Run(tr, c) && tr[0] == s
    ensures var t := tr[|tr| - 1];
      && t.sh.isOpened && !t.sh.isLocked && !D.BeforeGate(t.director.pc) && PeopleInside(t) == 0
      && t.sh.building == c.lobby - s.petents[i].people < c.lobby
  {
    var t := ToTheClerks(s, c, i, j);
    SignalRuns(t, i, c);
    var u := t.(petents := t.petents[i := P.Signalled(t.petents[i], false)]);
    var a := Scene(u.sh, u.petents[i]);
    var b := PetentMove(a);
    PetentThen(a, b);
    PetentRuns(u, i, b, c);
    var v := u.(sh := b.sh, petents := u.petents[i := b.me]);
    Chain(s, t, u, OfficeSteps(c));
    Chain(s, u, v, OfficeSteps(c));
    tr := RunTo(s, v, c);
    SumOfZeros(v.petents, InsideParts());
  }

  // ----- a redirect that fails -----

  /** Draws with which SA redirects to KM. */
  const TO_KM: S.Chance := S.Chance(true, 0, false, false, false, false, 0)

  /** A request that is alone in the queue is the next one of its desk. */
  lemma OnlyMessage(r: Ticket, desk: int, urgent: bool)
    requires r.mtype == DeskQueue(desk, urgent)
    ensures FirstOf([Msg(r, r)], r.mtype) == 0 && Without([Msg(r, r)], 0) == []
    ensures !urgent ==> FirstOf([Msg(r, r)], DeskQueue(desk, true)) == 1
  {
  }

  /** SA's clerk finds no place at KM: it denies and reports. */
  lemma RefuseAlone(a: ServerScene, r: Ticket, urgent: bool) returns (b: ServerScene)
    requires WellFormed(a.sh) && a.sh.semlock >= 1 && a.sh.isOpened && a.sh.limits[LimitIndex(KM)] == 0
    requires a.me.desk == SA && a.me.pc == S.Fresh(S.FreshLock, false)
    requires a.sh.queue == [Msg(r, r)] && r.mtype == DeskQueue(SA, urgent) && r.requester > 26
    ensures Reaches(a, b, ServerSteps(TO_KM))
    ensures b.sh.sent == a.sh.sent + [Refusal(r), Complaint(r)]
  {
    var s1 := FlagAlone(a, false, TO_KM);
    OnlyMessage(r, SA, urgent);
    var s2 := C.TakeAlone(s1, TO_KM);
    var s3 := C.DecideAlone(s2, TO_KM);
    b := C.RejectAlone(s3, TO_KM);
    Chain(s2, s3, b, ServerSteps(TO_KM));
    Chain(s1, s2, b, ServerSteps(TO_KM));
    Chain(a, s1, b, ServerSteps(TO_KM));
  }

  /** The denial names KM, the report SA twice. */
  function Refusal(r: Ticket): Msg
  {
    Msg(r.(mtype := r.requester, ticketid := -1, faculty := KM, queueid := 0, redirectedFrom := r.faculty), r)
  }

  function Complaint(r: Ticket): Msg
  {
    Msg(r.(mtype := REPORT_QUEUE, queueid := SA, redirectedFrom := r.faculty), r)
  }

  lemma ClerkRefuses(s: State, h: nat, r: Ticket, urgent: bool, c: Config) returns (t: State)
    requires WellFormed(s.sh) && s.sh.semlock >= 1 && s.sh.isOpened && s.sh.turnstile >= 1 && s.sh.limits[LimitIndex(KM)] == 0
    requires h < |s.servers| && s.servers[h].desk == SA && s.servers[h].pc == S.Waiting
    requires s.sh.queue == [Msg(r, r)] && r.mtype == DeskQueue(SA, urgent) && r.requester > 26
    ensures Reaches(s, t, OfficeSteps(c)) && t.sh.sent == s.sh.sent + [Refusal(r), Complaint(r)]
  {
    var b1 := StartAlone(Scene(s.sh, s.servers[h]), STAY);
    ServerRuns(s, h, b1, STAY, c);
    var s1 := s.(sh := b1.sh, servers := s.servers[h := b1.me]);
    var b2 := RefuseAlone(Scene(s1.sh, s1.servers[h]), r, urgent);
    ServerRuns(s1, h, b2, TO_KM, c);
    t := s1.(sh := b2.sh, servers := s1.servers[h := b2.me]);
    Chain(s, s1, t, OfficeSteps(c));
  }

  /** With fewer than ten petents planned for only SA has places, so in some run of every office
      with a machine, a clerk of SA and a petent for it a redirect fails: the last two messages are
      its denial, naming KM, and its report, naming SA. */
  lemma RedirectCanFail(s: State, c: Config, i: nat, j: nat, h: nat) returns (tr: seq<State>, y: nat)
    requires Suited(s, c, i, j) && s.petents[i].faculty == SA && c.petentCount < 10
    requires h < |s.servers| && h != j && s.servers[h].desk == SA
    ensures Run(tr, c) && tr[0] == s
    ensures var sent := tr[|tr| - 1].sh.sent;
      && y + 2 == |sent|
      && sent[y].origin == sent[y + 1].origin && sent[y].origin.requester == s.petents[i].pid
      && DeskOf(sent[y].origin.mtype) == SA
      && sent[y] == Refusal(sent[y].origin) && sent[y + 1] == Complaint(sent[y].origin)
  {
    LimitSplit(c.petentCount);
    var p := s.petents[i];
    var r := FirstTicket(p).(mtype := DeskQueue(SA, p.vip));
    var s1 := ToTheClerks(s, c, i, j);
    var b2 := GoAlone(Scene(s1.sh, s1.petents[i]));
    PetentRuns(s1, i, b2, c);
    var s2 := s1.(sh := b2.sh, petents := s1.petents[i := b2.me]);
    var t := ClerkRefuses(s2, h, r, p.vip, c);
    Chain(s, s1, s2, OfficeSteps(c));
    Chain(s, s2, t, OfficeSteps(c));
    tr := RunTo(s, t, c);
    y := |s2.sh.sent|;
  }

  // ----- the longest visit -----

  /** A server at the turnstile or at the head of its loop. */
  predicate Ready(sv: S.Server) { sv.pc == S.Waiting || (sv.pc.Fresh? && sv.pc.at == S.FreshLock) }

  /** A clerk takes one turn. */
  lemma ClerkTurns(s: State, h: nat, chance: S.Chance, c: Config) returns (t: State)
    requires WellFormed(s.sh) && s.sh.semlock >= 1 && s.sh.isOpened && s.sh.turnstile >= 1 && !chance.signalled
    requires h < |s.servers| && 1 <= s.servers[h].desk <= 6 && Ready(s.servers[h])
    requires forall m :: m in s.sh.queue ==> m.t.requester > 26
    ensures Reaches(s, t, OfficeSteps(c))
    ensures t == s.(sh := C.Turned(s.sh, s.servers[h].desk, chance), servers := t.servers)
    ensures |t.servers| == |s.servers| && t.servers[h].desk == s.servers[h].desk && Ready(t.servers[h])
    ensures forall k :: 0 <= k < |s.servers| && k != h ==> t.servers[k] == s.servers[k]
  {
    var a := Scene(s.sh, s.servers[h]);
    var b := a;
    if s.servers[h].pc == S.Waiting {
      b := StartAlone(a, chance);
    } else {
      ReachesItself(a, ServerSteps(chance));
    }
    var d := C.TurnAlone(b, b.me.pc.active, chance);
    Chain(a, b, d, ServerSteps(chance));
    ServerRuns(s, h, d, chance, c);
    t := s.(sh := d.sh, servers := s.servers[h := d.me]);
  }

  /** The answer to request r under number n. */
  function AnswerTo(r: Ticket, desk: int, urgent: bool, chance: S.Chance, n: int): Ticket
  {
    S.Routed(r, desk, urgent, chance, true).(mtype := r.requester, ticketid := n)
  }

  /** A turn with one request there is, and a place for a redirect, answers that request. */
  lemma TurnAnswers(sh: Shared, r: Ticket, desk: int, urgent: bool, chance: S.Chance)
    requires WellFormed(sh) && sh.queue == [Msg(r, r)] && 1 <= desk <= 6 && r.mtype == DeskQueue(desk, urgent)
    requires r.ticketid != -1 && sh.limits[SA2] >= 1
    requires desk == SA && chance.redirect ==> sh.limits[LimitIndex(S.PickOffice(chance.pick))] >= 1
    ensures AnsweredBy(sh, C.Turned(sh, desk, chance), Msg(AnswerTo(r, desk, urgent, chance, sh.takenCount + 1), r))
  {
    OnlyMessage(r, desk, urgent);
    ServiceAnswers(Perform(sh, Receive(r.mtype)), r, desk, urgent, chance);
  }

  lemma ServiceAnswers(sh: Shared, r: Ticket, desk: int, urgent: bool, chance: S.Chance)
    requires WellFormed(sh) && sh.queue == [] && 1 <= desk <= 6 && r.ticketid != -1 && sh.limits[SA2] >= 1
    requires desk == SA && chance.redirect ==> sh.limits[LimitIndex(S.PickOffice(chance.pick))] >= 1
    ensures var t := C.ServedBy(sh, r, desk, urgent, chance); var m := Msg(AnswerTo(r, desk, urgent, chance, sh.takenCount + 1), r);
      && t == sh.(limits := t.limits, takenCount := sh.takenCount + 1, queue := [m], sent := t.sent)
      && WellFormed(t) && t.limits[SA2] == sh.limits[SA2] && Checked(t) == t
  {
  }

  /** The shared state while petent p, alone in the building, has request r out at a clerk; n numbers
      have been handed out. */
  ghost predicate OneOut(sh: Shared, c: Config, p: P.Petent, r: Ticket, n: int)
  {
    && WellFormed(sh) && sh.limits[SA2] >= 1
    && sh.semlock == 1 && sh.turnstile == D.TURNSTILE_TOKENS && sh.building == c.lobby - p.people
    && sh.tickets == TICKET_MACHINES && sh.isOpened && !sh.isLocked && sh.takenCount == n
    && sh.queue == [Msg(r, r)] && r.requester == p.pid && IsOffice(r.faculty)
    && sh.slots == SlotsMoved(InitialShared(c), p, r.faculty, -1).slots
  }

  /** Petent p waiting for the answer to r. */
  function Awaiting(p: P.Petent, r: Ticket, visits: seq<int>): P.Petent
  {
    p.(pc := P.AtClerks(P.AwaitClerk), tck := r, queueIdx := r.faculty, unanswered := true, visits := visits)
  }

  ghost predicate AtStop(s: State, c: Config, i: nat, p: P.Petent, r: Ticket, visits: seq<int>, n: int)
  {
    && i < |s.petents| && s.petents[i] == Awaiting(p, r, visits) && P.PetentOk(Awaiting(p, r, visits))
    && s.director.pc == D.Working && OneOut(s.sh, c, p, r, n) && !p.sig2
  }

  /** The same once the answer m lies in the petent's mailbox. */
  ghost predicate OneBack(sh: Shared, c: Config, p: P.Petent, r: Ticket, m: Msg, n: int)
  {
    OneOut(sh.(queue := [Msg(r, r)]), c, p, r, n) && sh.queue == [m] && m.t.mtype == p.pid && p.pid > 26
  }

  /** Server h is the clerk that request r goes to, and has a place for its redirect, if it makes one. */
  predicate DeskReady(s: State, h: nat, r: Ticket, urgent: bool, chance: S.Chance)
    requires WellFormed(s.sh)
  {
    && h < |s.servers| && Ready(s.servers[h]) && 1 <= s.servers[h].desk <= 6 && !chance.signalled
    && r.mtype == DeskQueue(s.servers[h].desk, urgent) && r.ticketid != -1
    && (s.servers[h].desk == SA && chance.redirect ==> s.sh.limits[LimitIndex(S.PickOffice(chance.pick))] >= 1)
  }

  /** Only server h has moved, and stands ready again. */
  ghost predicate OnlyServerMoved(s: State, t: State, h: nat)
  {
    && h < |s.servers| == |t.servers| && t.servers[h].desk == s.servers[h].desk && Ready(t.servers[h])
    && forall k :: 0 <= k < |s.servers| && k != h ==> t.servers[k] == s.servers[k]
  }

  /** The clerk answers. */
  lemma Answered(s: State, c: Config, i: nat, p: P.Petent, r: Ticket, visits: seq<int>, n: int,
                 h: nat, urgent: bool, chance: S.Chance) returns (t: State)
    requires AtStop(s, c, i, p, r, visits, n) && DeskReady(s, h, r, urgent, chance)
    ensures Reaches(s, t, OfficeSteps(c)) && t.petents == s.petents && t.director == s.director && OnlyServerMoved(s, t, h)
    ensures OneBack(t.sh, c, p, r, Msg(AnswerTo(r, s.servers[h].desk, urgent, chance, n + 1), r), n + 1)
  {
    t := ClerkAnswers(s, h, r, urgent, chance, c);
    AnswerBrought(s.sh, t.sh, c, p, r, Msg(AnswerTo(r, s.servers[h].desk, urgent, chance, n + 1), r), n);
  }

  /** t is sh after r has been answered by m. */
  predicate AnsweredBy(sh: Shared, t: Shared, m: Msg)
  {
    && t == sh.(limits := t.limits, takenCount := sh.takenCount + 1, queue := [m], sent := t.sent, taken := t.taken)
    && WellFormed(t) && |sh.limits| == 6 && t.limits[SA2] == sh.limits[SA2]
  }

  lemma ClerkAnswers(s: State, h: nat, r: Ticket, urgent: bool, chance: S.Chance, c: Config) returns (t: State)
    requires WellFormed(s.sh) && DeskReady(s, h, r, urgent, chance) && s.sh.limits[SA2] >= 1
    requires s.sh.semlock >= 1 && s.sh.isOpened && s.sh.turnstile >= 1
    requires s.sh.queue == [Msg(r, r)] && r.requester > 26
    ensures Reaches(s, t, OfficeSteps(c)) && t.petents == s.petents && t.director == s.director && OnlyServerMoved(s, t, h)
    ensures AnsweredBy(s.sh, t.sh, Msg(AnswerTo(r, s.servers[h].desk, urgent, chance, s.sh.takenCount + 1), r))
  {
    OnlyRequester(s.sh.queue, r);
    t := ClerkTurns(s, h, chance, c);
    TurnAnswers(s.sh, r, s.servers[h].desk, urgent, chance);
  }

  lemma OnlyRequester(q: seq<Msg>, r: Ticket)
    requires q == [Msg(r, r)] && r.requester > 26
    ensures forall m :: m in q ==> m.t.requester > 26
  {
  }

  lemma AnswerBrought(sh: Shared, t: Shared, c: Config, p: P.Petent, r: Ticket, m: Msg, n: int)
    requires OneOut(sh, c, p, r, n) && p.pid > 26 && AnsweredBy(sh, t, m) && m.t.mtype == p.pid
    ensures OneBack(t, c, p, r, m, n + 1)
  {
  }

  /** An answer alone in the queue is at the front of its petent's mailbox. */
  lemma OnlyAnswer(m: Msg, pid: int)
    requires m.t.mtype == pid
    ensures FirstOf([m], pid) == 0 && Without([m], 0) == []
  {
  }

  /** Giving back one place and taking another leaves only the other one taken. */
  lemma PlacesMoved(sh: Shared, p: P.Petent, f: int, g: int)
    requires |sh.slots| == 5 && IsOffice(f) && IsOffice(g)
    ensures SlotsMoved(SlotsMoved(SlotsMoved(sh, p, f, -1), p, f, 1), p, g, -1).slots == SlotsMoved(sh, p, g, -1).slots
    ensures SlotsMoved(SlotsMoved(sh, p, f, -1), p, f, 1).slots == sh.slots
  {
  }

  /** What is left of it all once the petent has read the answer. */
  lemma HeardOne(sh: Shared, c: Config, p: P.Petent, r: Ticket, visits: seq<int>, m: Msg, n: int)
    requires OneBack(sh, c, p, r, m, n)
    ensures Has(sh, p.pid) && Front(sh, p.pid) == m
    ensures Heard(sh, Awaiting(p, r, visits)) == sh.(queue := [], taken := sh.taken + [m], slots := InitialShared(c).slots)
  {
    OnlyAnswer(m, p.pid);
    PlacesMoved(InitialShared(c), p, r.faculty, r.faculty);
  }

  /** An open answer leads to the next stop. */
  lemma GoesOnAlone(a: PetentScene, c: Config, p: P.Petent, r: Ticket, visits: seq<int>, m: Msg, n: int) returns (b: PetentScene)
    requires a.me == Awaiting(p, r, visits) && P.PetentOk(a.me) && !p.sig2 && OneBack(a.sh, c, p, r, m, n)
    requires m.t.requester == p.pid && m.t.ticketid != -1 && IsOffice(m.t.faculty) && m.t.queueid > 0
    ensures Reaches(a, b, PetentSteps())
    ensures var r' := m.t.(mtype := m.t.queueid); b.me == Awaiting(p, r', visits + [r.mtype]) && OneOut(b.sh, c, p, r', n)
  {
    HeardOne(a.sh, c, p, r, visits, m, n);
    b := NextStopAlone(a);
    SentOn(a.sh, b.sh, c, p, r, m, n);
  }

  lemma SentOn(sh: Shared, t: Shared, c: Config, p: P.Petent, r: Ticket, m: Msg, n: int)
    requires OneBack(sh, c, p, r, m, n) && m.t.requester == p.pid && IsOffice(m.t.faculty)
    requires var r' := m.t.(mtype := m.t.queueid);
      var heard := sh.(queue := [], taken := sh.taken + [m], slots := InitialShared(c).slots);
      t == SlotsMoved(heard, p, m.t.faculty, -1).(queue := [] + [Msg(r', r')], sent := heard.sent + [Msg(r', r')])
    ensures OneOut(t, c, p, m.t.(mtype := m.t.queueid), n)
  {
  }

  /** From one stop to the next. */
  lemma NextStop(s: State, c: Config, i: nat, p: P.Petent, r: Ticket, visits: seq<int>, n: int,
                 h: nat, urgent: bool, chance: S.Chance) returns (t: State)
    requires AtStop(s, c, i, p, r, visits, n) && DeskReady(s, h, r, urgent, chance)
    requires var a := AnswerTo(r, s.servers[h].desk, urgent, chance, n + 1);
      a.ticketid != -1 && IsOffice(a.faculty) && P.PetentOk(Awaiting(p, a.(mtype := a.queueid), visits + [r.mtype]))
    ensures Reaches(s, t, OfficeSteps(c)) && OnlyServerMoved(s, t, h)
    ensures var a := AnswerTo(r, s.servers[h].desk, urgent, chance, n + 1);
      AtStop(t, c, i, p, a.(mtype := a.queueid), visits + [r.mtype], n + 1)
  {
    var u := Answered(s, c, i, p, r, visits, n, h, urgent, chance);
    var b := GoesOnAlone(Scene(u.sh, u.petents[i]), c, p, r, visits, u.sh.queue[0], n + 1);
    PetentRuns(u, i, b, c);
    t := u.(sh := b.sh, petents := u.petents[i := b.me]);
    Chain(s, u, t, OfficeSteps(c));
  }

  /** The last stop: the petent is served and goes home. */
  lemma LastStop(s: State, c: Config, i: nat, p: P.Petent, r: Ticket, visits: seq<int>, n: int,
                 h: nat, urgent: bool, chance: S.Chance) returns (t: State)
    requires AtStop(s, c, i, p, r, visits, n) && DeskReady(s, h, r, urgent, chance) && n >= 0
    requires AnswerTo(r, s.servers[h].desk, urgent, chance, n + 1).faculty == 0
    ensures Reaches(s, t, OfficeSteps(c)) && i < |t.petents|
    ensures t.sh.building == c.lobby && t.sh.tickets == TICKET_MACHINES && t.sh.slots == InitialShared(c).slots
    ensures t.sh.isOpened && !t.sh.isLocked && t.sh.queue == [] && t.sh.takenCount == n + 1
    ensures t.petents[i].pc == P.Gone && t.petents[i].abandoned == p.abandoned && !t.petents[i].unanswered
    ensures t.petents[i].visits == visits + [r.mtype]
  {
    var u := Answered(s, c, i, p, r, visits, n, h, urgent, chance);
    HeardOne(u.sh, c, p, r, visits, u.sh.queue[0], n + 1);
    var b := SettledAlone(Scene(u.sh, u.petents[i]));
    PetentRuns(u, i, b, c);
    t := u.(sh := b.sh, petents := u.petents[i := b.me]);
    Chain(s, u, t, OfficeSteps(c));
  }

  /** Draws with which a clerk sends a petent to the cashier. */
  const TO_CASHIER: S.Chance := S.Chance(false, 0, true, false, false, false, 0)

  /** A petent in the queue of the first clerk it goes to. */
  lemma ToFirstStop(s: State, c: Config, i: nat, j: nat) returns (t: State)
    requires Suited(s, c, i, j) && s.petents[i].faculty == SA && c.petentCount >= 10
    ensures Reaches(s, t, OfficeSteps(c))
    ensures AtStop(t, c, i, s.petents[i], FirstTicket(s.petents[i]).(mtype := DeskQueue(SA, s.petents[i].vip)), [MACHINE_QUEUE], 1)
    ensures t.sh.limits[LimitIndex(KM)] >= 1
    ensures |t.servers| == |s.servers| && forall k :: 0 <= k < |s.servers| && k != j ==> t.servers[k] == s.servers[k]
  {
    LimitSplit(c.petentCount);
    var u := ToTheClerks(s, c, i, j);
    var b := GoAlone(Scene(u.sh, u.petents[i]));
    PetentRuns(u, i, b, c);
    t := u.(sh := b.sh, petents := u.petents[i := b.me]);
    Chain(s, u, t, OfficeSteps(c));
    M.OneCounter(InitialLimits(c.petentCount), SA, false, KM);
  }

  /** The clerks a long visit needs, all on their way in. */
  predicate Staffed(s: State, h: nat, g: nat, q: nat)
  {
    && h < |s.servers| && s.servers[h].desk == SA && Ready(s.servers[h])
    && g < |s.servers| && s.servers[g].desk == KM && Ready(s.servers[g])
    && q < |s.servers| && s.servers[q].desk == CASHIER && Ready(s.servers[q])
  }

  /** The longest itinerary there is happens: machine, SA, KM, the cashier and KM again by priority.
      After four services the petent goes home, and every unit and place is back. */
  lemma LongestVisitHappens(s: State, c: Config, i: nat, j: nat, h: nat, g: nat, q: nat) returns (tr: seq<State>)
    requires Suited(s, c, i, j) && s.petents[i].faculty == SA && c.petentCount >= 10 && Staffed(s, h, g, q)
    ensures Run(tr, c) && tr[0] == s
    ensures var t, vip := tr[|tr| - 1], s.petents[i].vip;
      && i < |t.petents| && t.petents[i].pc == P.Gone && !t.petents[i].abandoned && !t.petents[i].unanswered
      && t.petents[i].visits ==
           [MACHINE_QUEUE, DeskQueue(SA, vip), DeskQueue(KM, vip), DeskQueue(CASHIER, vip), DeskQueue(KM, true)]
      && t.sh.building == c.lobby && t.sh.tickets == TICKET_MACHINES && t.sh.slots == InitialShared(c).slots
      && t.sh.isOpened && !t.sh.isLocked && t.sh.queue == [] && t.sh.takenCount == 5
  {
    var p := s.petents[i];
    var v := p.vip;
    var s1, r := ToTheCashier(s, c, i, j, h, g, q);
    var s2 := NextStop(s1, c, i, p, r, [MACHINE_QUEUE, DeskQueue(SA, v), DeskQueue(KM, v)], 3, q, v, STAY);
    var r' := AnswerTo(r, CASHIER, v, STAY, 4).(mtype := DeskQueue(KM, true));
    var s3 := LastStop(s2, c, i, p, r', [MACHINE_QUEUE, DeskQueue(SA, v), DeskQueue(KM, v), DeskQueue(CASHIER, v)],
                       4, g, true, STAY);
    Chain(s, s1, s2, OfficeSteps(c));
    Chain(s, s2, s3, OfficeSteps(c));
    tr := RunTo(s, s3, c);
  }

  /** Its first half: SA redirects to KM, and KM sends to the cashier. */
  lemma ToTheCashier(s: State, c: Config, i: nat, j: nat, h: nat, g: nat, q: nat) returns (t: State, r: Ticket)
    requires Suited(s, c, i, j) && s.petents[i].faculty == SA && c.petentCount >= 10 && Staffed(s, h, g, q)
    ensures Reaches(s, t, OfficeSteps(c)) && Staffed(t, h, g, q)
    ensures var p := s.petents[i];
      && AtStop(t, c, i, p, r, [MACHINE_QUEUE, DeskQueue(SA, p.vip), DeskQueue(KM, p.vip)], 3)
      && r == Ticket(DeskQueue(CASHIER, p.vip), p.pid, 3, KM, DeskQueue(CASHIER, p.vip), Needed, KM)
  {
    var p := s.petents[i];
    var v := p.vip;
    var r1 := FirstTicket(p).(mtype := DeskQueue(SA, v));
    var s1 := ToFirstStop(s, c, i, j);
    var s2 := NextStop(s1, c, i, p, r1, [MACHINE_QUEUE], 1, h, v, TO_KM);
    var r2 := AnswerTo(r1, SA, v, TO_KM, 2).(mtype := DeskQueue(KM, v));
    t := NextStop(s2, c, i, p, r2, [MACHINE_QUEUE, DeskQueue(SA, v)], 2, g, v, TO_CASHIER);
    r := AnswerTo(r2, KM, v, TO_CASHIER, 3).(mtype := DeskQueue(CASHIER, v));
    Chain(s, s1, s2, OfficeSteps(c));
    Chain(s, s2, t, OfficeSteps(c));
  }

  // ----- a wait broken off -----

  lemma WokenRuns(s: State, i: nat, c: Config)
    requires i < |s.petents|
    ensures Reaches(s, s.(petents := s.petents[i := P.Signalled(s.petents[i], true)]), OfficeSteps(c))
  {
    var t := Apply(s, Signal(i, true), c.lobby);
    assert Enabled(s, Signal(i, true));
    assert (s, t) in OfficeSteps(c);
    StepThen(s, t, t, OfficeSteps(c));
  }

  /** A petent called away while it waits for its ticket is gone with its request still queued: it is
      the one message a petent may leave behind, and units and place are back. */
  lemma WaitBrokenOff(s: State, c: Config, i: nat, j: nat) returns (tr: seq<State>)
    requires Suited(s, c, i, j)
    ensures Run(tr, c) && tr[0] == s
    ensures var t := tr[|tr| - 1];
      && i < |t.petents| && t.petents[i].pc == P.Gone && BrokeOff(t.petents[i]) && !t.petents[i].abandoned
      && t.sh.queue == [Msg(P.FirstRequest(s.petents[i]), P.FirstRequest(s.petents[i]))]
      && t.sh.building == c.lobby && t.sh.tickets == TICKET_MACHINES
  {
    LimitSplit(c.petentCount);
    var s1 := Opens(s, c);
    var b := ArriveAlone(Scene(s1.sh, s1.petents[i]));
    PetentRuns(s1, i, b, c);
    var s2 := s1.(sh := b.sh, petents := s1.petents[i := b.me]);
    WokenRuns(s2, i, c);
    var s3 := s2.(petents := s2.petents[i := P.Signalled(s2.petents[i], true)]);
    var d := WokenAlone(Scene(s2.sh, s2.petents[i]));
    PetentRuns(s3, i, d, c);
    var s4 := s3.(sh := d.sh, petents := s3.petents[i := d.me]);
    Chain(s, s1, s2, OfficeSteps(c));
    Chain(s, s2, s3, OfficeSteps(c));
    Chain(s, s3, s4, OfficeSteps(c));
    tr := RunTo(s, s4, c);
  }

  // ----- a rejection at closing time -----

  /** The report of a request rejected by a closing desk. */
  function ClosingReport(r: Ticket, desk: int): Msg { Msg(r.(mtype := REPORT_QUEUE, queueid := desk), r) }

  function ClosingDenial(r: Ticket): Msg { Msg(r.(mtype := r.requester, ticketid := -1, queueid := -1), r) }

  lemma Single(m: Msg, ty: int)
    ensures OfType([m], ty) == (if m.t.mtype == ty then [m] else [])
    ensures C.Others([m], ty) == if m.t.mtype == ty then [] else [m]
  {
    assert [m][..0] == [];
  }

  /** A desk with one petent queued leaves its report and its dismissal. */
  lemma OneDismissed(r: Ticket, desk: int, urgent: bool)
    requires 1 <= desk <= 6 && r.mtype == DeskQueue(desk, urgent) && r.requester > 26
    ensures C.RealPetents([Msg(r, r)], DeskQueue(desk, true)) && C.RealPetents([Msg(r, r)], DeskQueue(desk, false))
    ensures C.Drained([Msg(r, r)], desk) == [ClosingReport(r, desk), ClosingDenial(r)]
  {
    var m, up, low := Msg(r, r), DeskQueue(desk, true), DeskQueue(desk, false);
    Single(m, up);
    Single(m, low);
    C.DrainedCompletely([m], desk);
    C.DismissalsAre([m], desk, 0);
    PairIs(C.Dismissals([m], desk), ClosingReport(r, desk), ClosingDenial(r));
    NothingAdded(C.Dismissals([m], desk));
  }

  lemma NothingAdded(d: seq<Msg>)
    ensures [] + (d + []) == d && [] + ([] + d) == d
  {
  }

  lemma PairIs(q: seq<Msg>, x: Msg, y: Msg)
    requires |q| == 2 && q[0] == x && q[1] == y
    ensures q == [x, y]
  {
  }

  lemma DenialSecond(x: Msg, y: Msg, pid: int)
    requires x.t.mtype != pid == y.t.mtype
    ensures FirstOf([x, y], pid) == 1 && Without([x, y], 1) == [x]
  {
    assert [x, y][1..] == [y];
  }

  /** The director goes through the end of its day, and the collecting thread stops. */
  lemma DayEnds(s: State, c: Config) returns (t: State)
    requires s.director.pc == D.Working && s.sh.semlock >= 1 && s.collector.held == [] && !s.collector.stopped
    ensures Reaches(s, t, OfficeSteps(c)) && t.petents == s.petents && t.servers == s.servers
    ensures t.director.pc == D.Finished && t.collector == s.collector.(running := false, stopped := true)
    ensures t.sh == DP.ShutDown(s.sh).(pids := t.sh.pids)
  {
    var b := DP.DayEndsAlone(Scene(s.sh, s.director), c.lobby, false);
    DirectorRuns(s, b, c);
    var u := DirectorIn(s)(b);
    t := Apply(u, CollectorStep, c.lobby);
    assert (u, t) in OfficeSteps(c);
    StepThen(u, t, t, OfficeSteps(c));
    Chain(s, u, t, OfficeSteps(c));
  }

  /** A clerk on its way in finds the office closed, and drains. */
  lemma ClerkDrains(s: State, h: nat, r: Ticket, urgent: bool, c: Config) returns (t: State)
    requires WellFormed(s.sh) && s.sh.semlock >= 1 && !s.sh.isOpened
    requires h < |s.servers| && 1 <= s.servers[h].desk <= 6 && s.servers[h].pc == S.Fresh(S.FreshLock, false)
    requires s.sh.queue == [Msg(r, r)] && r.mtype == DeskQueue(s.servers[h].desk, urgent) && r.requester > 26
    ensures Reaches(s, t, OfficeSteps(c)) && t.petents == s.petents && t.director == s.director && t.collector == s.collector
    ensures |t.servers| == |s.servers| && t.servers[h].pc == S.Stopped && C.OnlyMessagesMoved(s.sh, t.sh)
    ensures t.sh.queue == [ClosingReport(r, s.servers[h].desk), ClosingDenial(r)]
  {
    OneDismissed(r, s.servers[h].desk, urgent);
    var b := C.EndsAlone(Scene(s.sh, s.servers[h]), false, STAY);
    ServerRuns(s, h, b, STAY, c);
    t := s.(sh := b.sh, servers := s.servers[h := b.me]);
  }

  /** A petent queued at closing time is rejected and goes home, and its report is sent: but a clerk
      that drains after the collecting thread has stopped leaves it in the queue for good. */
  lemma ReportCanBeMissed(s: State, c: Config, i: nat, j: nat, h: nat) returns (tr: seq<State>)
    requires Suited(s, c, i, j) && h < |s.servers|
    requires s.servers[h].desk == s.petents[i].faculty
    ensures Run(tr, c) && tr[0] == s
    ensures var t, p := tr[|tr| - 1], s.petents[i];
      && t.director.pc == D.Finished && t.collector.stopped && t.collector.reports == []
      && i < |t.petents| && t.petents[i].pc == P.Gone && h < |t.servers| && t.servers[h].pc == S.Stopped
      && t.sh.queue == [ClosingReport(FirstTicket(p).(mtype := DeskQueue(p.faculty, p.vip)), p.faculty)]
  {
    var s1, r := QueuedAtClosing(s, c, i, j, h);
    var s2 := DayEnds(s1, c);
    var s3 := ClerkDrains(s2, h, r, s.petents[i].vip, c);
    var s4 := DismissedGoes(s3, i, s.petents[i], r, c);
    Chain(s, s1, s2, OfficeSteps(c));
    Chain(s, s2, s3, OfficeSteps(c));
    Chain(s, s3, s4, OfficeSteps(c));
    tr := RunTo(s, s4, c);
  }

  /** The petent reads its dismissal and goes home. */
  lemma DismissedGoes(s: State, i: nat, p: P.Petent, r: Ticket, c: Config) returns (t: State)
    requires i < |s.petents| && s.petents[i] == Awaiting(p, r, [MACHINE_QUEUE]) && P.PetentOk(s.petents[i]) && !p.sig2
    requires s.sh.semlock >= 1 && s.sh.slots == SlotsMoved(InitialShared(c), p, r.faculty, -1).slots
    requires r.requester == p.pid && IsOffice(r.faculty) && s.sh.queue == [ClosingReport(r, r.faculty), ClosingDenial(r)]
    ensures Reaches(s, t, OfficeSteps(c)) && t == s.(sh := t.sh, petents := t.petents)
    ensures i < |t.petents| && t.petents[i].pc == P.Gone && t.sh.queue == [ClosingReport(r, r.faculty)]
  {
    DenialSecond(ClosingReport(r, r.faculty), ClosingDenial(r), p.pid);
    PlacesMoved(InitialShared(c), p, r.faculty, r.faculty);
    var b := DismissedAlone(Scene(s.sh, s.petents[i]));
    PetentRuns(s, i, b, c);
    t := s.(sh := b.sh, petents := s.petents[i := b.me]);
  }

  /** Petent i is queued at clerk h, who is on its way in, and the office is open. */
  lemma QueuedAtClosing(s: State, c: Config, i: nat, j: nat, h: nat) returns (t: State, r: Ticket)
    requires Suited(s, c, i, j) && h < |s.servers| && s.servers[h].desk == s.petents[i].faculty
    ensures Reaches(s, t, OfficeSteps(c)) && WellFormed(t.sh) && t.sh.semlock == 1
    ensures i < |t.petents| && t.petents[i] == Awaiting(s.petents[i], r, [MACHINE_QUEUE]) && P.PetentOk(t.petents[i])
    ensures var p := s.petents[i];
      && r == FirstTicket(p).(mtype := DeskQueue(p.faculty, p.vip)) && t.sh.queue == [Msg(r, r)]
      && t.sh.slots == SlotsMoved(InitialShared(c), p, p.faculty, -1).slots
    ensures h < |t.servers| && t.servers[h].desk == s.servers[h].desk && t.servers[h].pc == S.Fresh(S.FreshLock, false)
    ensures t.director.pc == D.Working && t.collector == s.collector
  {
    LimitSplit(c.petentCount);
    var p := s.petents[i];
    r := FirstTicket(p).(mtype := DeskQueue(p.faculty, p.vip));
    var s1 := ToTheClerks(s, c, i, j);
    var b := GoAlone(Scene(s1.sh, s1.petents[i]));
    PetentRuns(s1, i, b, c);
    var s2 := s1.(sh := b.sh, petents := s1.petents[i := b.me]);
    var d := StartAlone(Scene(s2.sh, s2.servers[h]), STAY);
    ServerRuns(s2, h, d, STAY, c);
    t := s2.(sh := d.sh, servers := s2.servers[h := d.me]);
    Chain(s, s1, s2, OfficeSteps(c));
    Chain(s, s2, t, OfficeSteps(c));
  }

  /** All these runs exist from the office that main sets up, once a petent for SA comes to it. */
  lemma SetUpIsSuited(c: Config, petents: seq<P.Petent>, servers: seq<S.Server>, blank: Ticket, i: nat) returns (s: State)
    requires c.petentCount >= 1 && DistinctPids(petents) && forall k :: 0 <= k < |petents| ==> NewPetent(petents[k])
    requires |servers| == |DESKS| && forall k :: 0 <= k < |servers| ==> servers[k] == NewServer(DESKS[k], blank)
    requires i < |petents| && petents[i].faculty == SA && petents[i].people <= c.lobby
    ensures s.petents == petents && s.servers == servers && Suited(s, c, i, 0)
    ensures Staffed(s, 7, 3, 9)
  {
    s := State(InitialShared(c), petents, servers, D.Director(D.ConfigLock, false), D.Collector(true, [], [], false));
    SetUpIsInitial(c, petents, servers, blank);
    assert Init([s][0], c);
    LimitSplit(c.petentCount);
    assert DESKS[0] == S.MACHINE && DESKS[7] == SA && DESKS[3] == KM && DESKS[9] == CASHIER;
  }
}
