/**
 * The office as one concurrent protocol: any number of petents and servers, the director and
 * the collecting thread, interleaved step by step.
 */
module Office {
  import opened Tickets
  import opened SharedState
  import P = Petent
  import S = Server
  import D = Director

  datatype State = State(
    sh: Shared,
    petents: seq<P.Petent>,
    servers: seq<S.Server>,
    director: D.Director,
    collector: D.Collector)

  datatype Action =
    | PetentStep(i: nat)
    | Signal(i: nat, asleep: bool)
    | ServerStep(j: nat, chance: S.Chance)
    | DirectorStep(evacuate: bool)
    | CollectorStep

  predicate Enabled(s: State, a: Action)
  {
    match a
    case PetentStep(i) => i < |s.petents| && P.CanStep(s.sh, s.petents[i])
    case Signal(i, _) => i < |s.petents|
    case ServerStep(j, c) => j < |s.servers| && WellFormed(s.sh) && S.CanStep(s.sh, s.servers[j], c)
    case DirectorStep(_) => D.CanStep(s.sh, s.director)
    case CollectorStep => true
  }

  /** The call an action makes. */
  function CallOf(s: State, a: Action, lobby: nat): Call
    requires Enabled(s, a)
  {
    match a
    case PetentStep(i) => P.CallOf(s.petents[i])
    case Signal(_, _) => NoCall
    case ServerStep(j, c) => S.CallOf(s.sh, s.servers[j], c)
    case DirectorStep(_) => D.CallOf(s.director, lobby)
    case CollectorStep => D.CollectorCall(s.sh, s.collector)
  }

  function Apply(s: State, a: Action, lobby: nat): State
    requires Enabled(s, a)
  {
    var sh := Perform(s.sh, CallOf(s, a, lobby));
    match a
    case PetentStep(i) =>
      s.(sh := sh, petents := s.petents[i := P.After(s.sh, s.petents[i])])
    case Signal(i, asleep) =>
      s.(sh := sh, petents := s.petents[i := P.Signalled(s.petents[i], asleep)])
    case ServerStep(j, c) =>
      s.(sh := sh, servers := s.servers[j := S.After(s.sh, s.servers[j], c)])
    case DirectorStep(evacuate) =>
      s.(sh := sh, director := D.After(s.sh, s.director, evacuate),
         collector := if s.director.pc.StopThread? then s.collector.(running := false) else s.collector)
    case CollectorStep =>
      s.(sh := sh, collector := D.AfterCollect(s.sh, s.collector))
  }

  ghost predicate Next(s: State, t: State, c: Config)
  {
    exists a :: Enabled(s, a) && t == Apply(s, a, c.lobby)
  }

  /** The state alloc_res leaves, with everybody still to act.  Petents have distinct pids above
      every message type in use; servers are of the seven kinds, any number of each. */
  ghost predicate Init(s: State, c: Config)
  {
    && c.petentCount >= 1
    && s.sh == InitialShared(c)
    && (forall i :: 0 <= i < |s.petents| ==> NewPetent(s.petents[i]))
    && DistinctPids(s.petents)
    && (forall j :: 0 <= j < |s.servers| ==> s.servers[j].pc == S.Waiting && 0 <= s.servers[j].desk <= 6)
    && s.director == D.Director(D.ConfigLock, false)
    && s.collector == D.Collector(true, [], [], false)
  }

  predicate NewPetent(p: P.Petent)
  {
    && p.pid > 26 && IsOffice(p.faculty) && 1 <= p.people <= 2
    && p.pc == P.NotStarted && p.tck.ticketid == 0
    && !p.sig2 && !p.unanswered && p.visits == [] && !p.abandoned
  }

  ghost predicate DistinctPids(ps: seq<P.Petent>)
  {
    forall i, j :: 0 <= i < j < |ps| ==> ps[i].pid != ps[j].pid
  }

  ghost predicate Follows(tr: seq<State>, k: nat, c: Config)
    requires k + 1 < |tr|
  {
    Next(tr[k], tr[k + 1], c)
  }

  /** A run: the states passed through, in order. */
  ghost predicate Run(tr: seq<State>, c: Config)
  {
    && |tr| > 0 && Init(tr[0], c)
    && forall k :: 0 <= k < |tr| - 1 ==> Follows(tr, k, c)
  }
}
