/**
 * alloc_res of main.c in its own form: one array of semaphores, an index handed out per use,
 * and the initial values from which the protocol starts.
 */
module Setup {
  import opened Tally
  import opened Tickets
  import opened SharedState
  import opened Office
  import P = Petent
  import S = Server
  import D = Director

  /** Where each semaphore sits in the set. */
  datatype Sems = Sems(
    lock: nat, configured: nat, turnstile: nat, building: nat, tickets: nat,
    kmLimit: nat, kmQueue: nat, mlLimit: nat, mlQueue: nat, pdLimit: nat, pdQueue: nat,
    scLimit: nat, scQueue: nat, sa1Limit: nat, sa2Limit: nat, saQueue: nat,
    cashierLimit: nat, cashierQueue: nat)

  function Indices(s: Sems): seq<nat>
  {
    [s.lock, s.configured, s.turnstile, s.building, s.tickets,
     s.kmLimit, s.kmQueue, s.mlLimit, s.mlQueue, s.pdLimit, s.pdQueue,
     s.scLimit, s.scQueue, s.sa1Limit, s.sa2Limit, s.saQueue, s.cashierLimit, s.cashierQueue]
  }

  /** No two uses share a semaphore. */
  ghost predicate AllApart(s: Sems, size: nat)
  {
    && (forall k :: 0 <= k < |Indices(s)| ==> Indices(s)[k] < size)
    && (forall k, l :: 0 <= k < l < |Indices(s)| ==> Indices(s)[k] != Indices(s)[l])
  }

  /** The shared state that the set, the record's flags and counter, and the table stand for. */
  function SharedOf(vals: seq<int>, s: Sems, isOpened: bool, isLocked: bool, takenCount: int, pids: seq<int>): Shared
    requires forall k :: 0 <= k < |Indices(s)| ==> Indices(s)[k] < |vals|
  {
    assert Indices(s)[0] == s.lock && Indices(s)[2] == s.turnstile && Indices(s)[3] == s.building && Indices(s)[4] == s.tickets;
    assert Indices(s)[5] == s.kmLimit && Indices(s)[6] == s.kmQueue && Indices(s)[7] == s.mlLimit && Indices(s)[8] == s.mlQueue;
    assert Indices(s)[9] == s.pdLimit && Indices(s)[10] == s.pdQueue && Indices(s)[11] == s.scLimit && Indices(s)[12] == s.scQueue;
    assert Indices(s)[13] == s.sa1Limit && Indices(s)[14] == s.sa2Limit && Indices(s)[15] == s.saQueue;
    Shared(vals[s.lock], vals[s.turnstile], vals[s.building], vals[s.tickets],
           [vals[s.scQueue], vals[s.kmQueue], vals[s.mlQueue], vals[s.pdQueue], vals[s.saQueue]],
           [vals[s.kmLimit], vals[s.mlLimit], vals[s.pdLimit], vals[s.scLimit], vals[s.sa1Limit], vals[s.sa2Limit]],
           isOpened, isLocked, takenCount, pids, [], [], [])
  }

  const SET_SIZE: nat := 30

  /** sem_create: every semaphore of the set at the same value. */
  method CreateSemaphores(size: nat, value: int) returns (vals: array<int>)
    ensures fresh(vals) && vals.Length == size && forall k :: 0 <= k < size ==> vals[k] == value
  {
    vals := new int[size];
    var i := 0;
    while i < size
      invariant 0 <= i <= size && forall k :: 0 <= k < i ==> vals[k] == value
    {
      vals[i] := value;
      i := i + 1;
    }
  }

  /** stan_urzedu as shmat finds it: what it holds before alloc_res has written it is not known. */
  class OfficeRecord {
    var sems: Sems
    var timeOpen: int
    var timeClose: int
    var isOpened: bool
    var isLocked: bool
    var buildingMax: nat
    var takenCount: int
    var pids: array<int>
    var pidsLimit: nat

    constructor (petentCount: nat)
      ensures fresh(pids) && pids.Length == petentCount
    {
      pids := new int[petentCount];
    }
  }

  method ClearTable(pids: array<int>)
    modifies pids
    ensures pids[..] == seq(pids.Length, i => 0)
  {
    var i := 0;
    while i < pids.Length
      invariant 0 <= i <= pids.Length && forall k :: 0 <= k < i ==> pids[k] == 0
    {
      pids[i] := 0;
      i := i + 1;
    }
  }

  /** The semaphore set with the next index to hand out (curr_sem_idx). */
  class SemaphoreSet {
    var vals: array<int>
    var next: nat

    /** Semaphores not yet in use still have the value the set was created with. */
    ghost predicate Valid()
      reads this, vals
    {
      next <= vals.Length == SET_SIZE && forall k :: next <= k < vals.Length ==> vals[k] == 1
    }

    /** The values of the semaphores in use, in the order of their indices. */
    ghost function Used(): seq<int>
      requires Valid()
      reads this, vals
    {
      vals[..next]
    }

    constructor ()
      ensures Valid() && fresh(vals) && Used() == []
    {
      var v := CreateSemaphores(SET_SIZE, 1);
      vals := v;
      next := 0;
    }

    /** curr_sem_idx++ alone: the semaphore keeps the value of its creation. */
    method Reserve() returns (idx: nat)
      requires Valid() && next < SET_SIZE
      modifies this`next
      ensures Valid() && idx == old(next) && next == old(next) + 1 && Used() == old(Used()) + [1]
    {
      idx := next;
      next := next + 1;
    }

    /** curr_sem_idx++ and SETVAL. */
    method Add(value: int) returns (idx: nat)
      requires Valid() && next < SET_SIZE
      modifies this`next, vals
      ensures Valid() && vals == old(vals)
      ensures idx == old(next) && next == old(next) + 1 && Used() == old(Used()) + [value]
    {
      idx := next;
      vals[idx] := value;
      next := next + 1;
    }

    /** semop by amount on a semaphore in use. */
    method Shift(idx: nat, amount: int)
      requires Valid() && idx < next && vals[idx] + amount >= 0
      modifies vals
      ensures Valid() && Used() == old(Used())[idx := old(vals[idx]) + amount]
    {
      vals[idx] := vals[idx] + amount;
    }
  }

  /** The values in index order, from the lock to the cashier's queue, while the lock is held. */
  function Locked(p: nat): seq<int>
  {
    [0] + [0, 0, 0, TICKET_MACHINES] + FourOffices(p) + SAValues(p)
  }

  function FourOffices(p: nat): seq<int>
  {
    var tenth := p * 10 / 100;
    [tenth, 1, tenth, 1, tenth, 1, tenth, 1]
  }

  function SAValues(p: nat): seq<int>
  {
    var half := SaMax(p) / 2;
    [half, p - half, 2, p, 1]
  }

  const LAYOUT: Sems := Sems(0, 1, 2, 3, 4, 5, 6, 7, 8, 9, 10, 11, 12, 13, 14, 15, 16, 17)

  lemma LayoutApart()
    ensures AllApart(LAYOUT, |Indices(LAYOUT)|) && |Indices(LAYOUT)| == 18
    ensures forall k :: 0 <= k < 18 ==> Indices(LAYOUT)[k] == k
  {
  }

  lemma LayoutHolds(vals: seq<int>, pids: seq<int>, c: Config)
    requires vals == Locked(c.petentCount)[0 := 1]
    requires pids == seq(c.petentCount, i => 0)
    ensures AllApart(LAYOUT, |vals|)
    ensures SharedOf(vals, LAYOUT, false, false, 0, pids) == InitialShared(c)
  {
    LayoutApart();
  }

  /** The turnstiles, the gate and the places in front of the machines. */
  method AddEntrance(sems: SemaphoreSet) returns (configured: nat, turnstile: nat, building: nat, tickets: nat)
    requires sems.Valid() && sems.next + 4 <= SET_SIZE
    modifies sems`next, sems.vals
    ensures sems.Valid() && sems.vals == old(sems.vals) && sems.next == old(sems.next) + 4
    ensures var n := old(sems.next); configured == n && turnstile == n + 1 && building == n + 2 && tickets == n + 3
    ensures sems.Used() == old(sems.Used()) + [0, 0, 0, TICKET_MACHINES]
  {
    configured := sems.Add(0);
    turnstile := sems.Add(0);
    building := sems.Add(0);
    tickets := sems.Add(TICKET_MACHINES);
  }

  /** Limit and queue of an office with one clerk. */
  method AddOffice(sems: SemaphoreSet, p: nat) returns (limit: nat, queue: nat)
    requires sems.Valid() && sems.next + 2 <= SET_SIZE
    modifies sems`next, sems.vals
    ensures sems.Valid() && sems.vals == old(sems.vals) && sems.next == old(sems.next) + 2
    ensures limit == old(sems.next) && queue == limit + 1
    ensures sems.Used() == old(sems.Used()) + [p * 10 / 100, 1]
  {
    limit := sems.Add(p * 10 / 100);
    queue := sems.Add(1);
  }

  method AddFour(sems: SemaphoreSet, p: nat)
    returns (kmLimit: nat, kmQueue: nat, mlLimit: nat, mlQueue: nat, pdLimit: nat, pdQueue: nat, scLimit: nat, scQueue: nat)
    requires sems.Valid() && sems.next + 8 <= SET_SIZE
    modifies sems`next, sems.vals
    ensures sems.Valid() && sems.vals == old(sems.vals) && sems.next == old(sems.next) + 8
    ensures var n := old(sems.next);
      && kmLimit == n && kmQueue == n + 1 && mlLimit == n + 2 && mlQueue == n + 3
      && pdLimit == n + 4 && pdQueue == n + 5 && scLimit == n + 6 && scQueue == n + 7
    ensures sems.Used() == old(sems.Used()) + FourOffices(p)
  {
    kmLimit, kmQueue := AddOffice(sems, p);
    mlLimit, mlQueue := AddOffice(sems, p);
    pdLimit, pdQueue := AddOffice(sems, p);
    scLimit, scQueue := AddOffice(sems, p);
  }

  /** SA's two limits and its queue, and the cashier's pair that nothing uses. */
  method AddSA(sems: SemaphoreSet, p: nat) returns (sa1: nat, sa2: nat, queue: nat, cashierLimit: nat, cashierQueue: nat)
    requires sems.Valid() && sems.next + 5 <= SET_SIZE
    modifies sems`next, sems.vals
    ensures sems.Valid() && sems.vals == old(sems.vals) && sems.next == old(sems.next) + 5
    ensures var n := old(sems.next);
      sa1 == n && sa2 == n + 1 && queue == n + 2 && cashierLimit == n + 3 && cashierQueue == n + 4
    ensures sems.Used() == old(sems.Used()) + SAValues(p)
  {
    var saMax := p * 60 / 100;
    saMax := saMax + (p - saMax - 4 * (p * 10 / 100));
    var saHalf := saMax / 2;
    sa1 := sems.Add(saHalf);
    sa2 := sems.Add(p - saHalf);
    queue := sems.Add(2);
    cashierLimit := sems.Add(p);
    cashierQueue := sems.Add(1);
  }

  /** All indices in order, while the record is locked. */
  method AddAll(sems: SemaphoreSet, p: nat, lock: nat) returns (s: Sems)
    requires sems.Valid() && sems.next == 1 && lock == 0 && sems.Used() == [0]
    modifies sems`next, sems.vals
    ensures sems.Valid() && sems.vals == old(sems.vals) && s == LAYOUT
    ensures sems.Used() == Locked(p) && sems.Used()[0] == 0
  {
    var configured, turnstile, building, tickets := AddEntrance(sems);
    var kmLimit, kmQueue, mlLimit, mlQueue, pdLimit, pdQueue, scLimit, scQueue := AddFour(sems, p);
    var sa1Limit, sa2Limit, saQueue, cashierLimit, cashierQueue := AddSA(sems, p);
    s := Sems(lock, configured, turnstile, building, tickets, kmLimit, kmQueue, mlLimit, mlQueue,
              pdLimit, pdQueue, scLimit, scQueue, sa1Limit, sa2Limit, saQueue, cashierLimit, cashierQueue);
  }

  /** The semaphores in index order, the first of them locked meanwhile. */
  method AllocSemaphores(sems: SemaphoreSet, p: nat) returns (s: Sems)
    requires sems.Valid() && sems.next == 0
    modifies sems`next, sems.vals
    ensures sems.Valid() && sems.vals == old(sems.vals)
    ensures s == LAYOUT && sems.Used() == Locked(p)[0 := 1]
  {
    var lock := sems.Reserve();
    sems.Shift(lock, -1);
    s := AddAll(sems, p, lock);
    sems.Shift(lock, 1);
  }

  /** The set, the record and the table: every use has its own semaphore, and together they are
      the state the protocol starts in, whatever the memory held before. */
  method AllocRes(c: Config) returns (sems: SemaphoreSet, record: OfficeRecord)
    ensures sems.Valid() && AllApart(record.sems, |sems.Used()|)
    ensures SharedOf(sems.Used(), record.sems, record.isOpened, record.isLocked, record.takenCount, record.pids[..])
         == InitialShared(c)
    ensures record.buildingMax == c.lobby && record.pidsLimit == record.pids.Length == c.petentCount
  {
    sems := new SemaphoreSet();
    record := new OfficeRecord(c.petentCount);
    ClearTable(record.pids);
    record.pidsLimit := c.petentCount;
    record.buildingMax := c.lobby;
    record.timeClose, record.timeOpen := 0, 0;
    record.isOpened, record.isLocked := false, false;
    record.takenCount := 0;
    record.sems := AllocSemaphores(sems, c.petentCount);
    LayoutHolds(sems.Used(), record.pids[..], c);
  }

  // ----- who works -----

  /** The clerks generate_workers starts: one per office, two for SA, and the cashier. */
  const WORKERS: seq<int> := [KM, PD, ML, SC, SA, SA, CASHIER]

  function NewServer(desk: int, blank: Ticket): S.Server
  {
    S.Server(desk, S.Waiting, blank, blank, false, 0)
  }

  /** The desks of the day: three machines and the clerks. */
  const DESKS: seq<int> := [S.MACHINE, S.MACHINE, S.MACHINE] + WORKERS

  /** Three machines, two clerks of SA, and one at every other office and at the cashier's: as many as
      places in front of the machines and in each waiting room. */
  lemma ServersPerDesk(desk: int)
    ensures |DESKS| == 10
    ensures Share(10, (k: nat) => k < 10 && DESKS[k] == desk) ==
      if desk == S.MACHINE then 3 else if desk == SA then 2 else if SC <= desk <= CASHIER then 1 else 0
    ensures TICKET_MACHINES == 3 && (IsOffice(desk) ==> QueueCapacity(desk) == if desk == SA then 2 else 1)
  {
    var p := (k: nat) => k < 10 && DESKS[k] == desk;
    assert Share(2, p) == Share(1, p) + if p(1) then 1 else 0;
    assert Share(3, p) == Share(2, p) + if p(2) then 1 else 0;
    assert Share(4, p) == Share(3, p) + if p(3) then 1 else 0;
    assert Share(5, p) == Share(4, p) + if p(4) then 1 else 0;
    assert Share(6, p) == Share(5, p) + if p(5) then 1 else 0;
    assert Share(7, p) == Share(6, p) + if p(6) then 1 else 0;
    assert Share(8, p) == Share(7, p) + if p(7) then 1 else 0;
    assert Share(9, p) == Share(8, p) + if p(8) then 1 else 0;
  }

  method GenerateServers(blank: Ticket) returns (servers: seq<S.Server>)
    ensures |servers| == |DESKS|
    ensures forall k :: 0 <= k < |servers| ==> servers[k] == NewServer(DESKS[k], blank)
  {
    servers := [];
    var i := 0;
    while i < TICKET_MACHINES
      invariant 0 <= i <= TICKET_MACHINES && |servers| == i
      invariant forall k :: 0 <= k < i ==> servers[k] == NewServer(DESKS[k], blank)
    {
      servers := servers + [NewServer(S.MACHINE, blank)];
      i := i + 1;
    }
    i := 0;
    while i < |WORKERS|
      invariant 0 <= i <= |WORKERS| && |servers| == TICKET_MACHINES + i
      invariant forall k :: 0 <= k < |servers| ==> servers[k] == NewServer(DESKS[k], blank)
    {
      servers := servers + [NewServer(WORKERS[i], blank)];
      i := i + 1;
    }
  }

  /** The office as set up, with any petents to come, is an initial state of the protocol. */
  lemma SetUpIsInitial(c: Config, petents: seq<P.Petent>, servers: seq<S.Server>, blank: Ticket)
    requires c.petentCount >= 1 && DistinctPids(petents) && forall i :: 0 <= i < |petents| ==> NewPetent(petents[i])
    requires |servers| == |DESKS| && forall k :: 0 <= k < |servers| ==> servers[k] == NewServer(DESKS[k], blank)
    ensures Run([State(InitialShared(c), petents, servers, D.Director(D.ConfigLock, false), D.Collector(true, [], [], false))], c)
  {
    forall j | 0 <= j < |servers| ensures servers[j].pc == S.Waiting && 0 <= servers[j].desk <= 6 {
      assert servers[j] == NewServer(DESKS[j], blank);
    }
  }
}
