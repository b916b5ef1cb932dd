/**
 * Runs of any kind of step, and the four kinds of process running alone: the protocol's steps
 * put end to end without interference.
 */
module Solo {
  import opened SharedState
  import P = Petent
  import S = Server
  import D = Director

  // ----- runs -----

  /** Nothing leads out of things. */
  ghost predicate Closed<A(!new)>(things: iset<A>, steps: iset<(A, A)>)
  {
    forall a, b {:trigger (a, b) in steps} :: (a, b) in steps && a in things ==> b in things
  }

  /** Some number of the steps leads from a to b: b is in every closed collection that a is in. */
  ghost predicate Reaches<A(!new)>(a: A, b: A, steps: iset<(A, A)>)
  {
    forall things: iset<A> :: Closed(things, steps) && a in things ==> b in things
  }

  lemma ReachesItself<A(!new)>(a: A, steps: iset<(A, A)>)
    ensures Reaches(a, a, steps)
  {
  }

  lemma StepThen<A(!new)>(a: A, m: A, b: A, steps: iset<(A, A)>)
    requires (a, m) in steps && (m == b || Reaches(m, b, steps))
    ensures Reaches(a, b, steps)
  {
  }

  lemma Chain<A(!new)>(a: A, m: A, b: A, steps: iset<(A, A)>)
    requires Reaches(a, m, steps) && Reaches(m, b, steps)
    ensures Reaches(a, b, steps)
  {
  }

  /** A run seen through f is a run of the steps that f makes of its own. */
  lemma Lifted<A(!new), B(!new)>(a: A, b: A, steps: iset<(A, A)>, f: A -> B, lifted: iset<(B, B)>)
    requires Reaches(a, b, steps)
    requires forall x, y :: (x, y) in steps ==> (f(x), f(y)) in lifted
    ensures Reaches(f(a), f(b), lifted)
  {
    forall things: iset<B> | Closed(things, lifted) && f(a) in things ensures f(b) in things {
      var below := iset x: A | f(x) in things;
      assert Closed(below, steps) by {
        forall x, y | (x, y) in steps && x in below ensures y in below {
          assert (f(x), f(y)) in lifted;
        }
      }
      assert a in below;
    }
  }

  // ----- one process in the shared state it sees -----

  datatype Scene<+M> = Scene(sh: Shared, me: M)

  type ServerScene = Scene<S.Server>
  type PetentScene = Scene<P.Petent>
  type DirectorScene = Scene<D.Director>
  type CollectorScene = Scene<D.Collector>

  // ----- servers -----

  predicate CanMove(a: ServerScene, c: S.Chance) { WellFormed(a.sh) && S.CanStep(a.sh, a.me, c) }

  function Move(a: ServerScene, c: S.Chance): ServerScene
    requires CanMove(a, c)
  {
    Scene(Perform(a.sh, S.CallOf(a.sh, a.me, c)), S.After(a.sh, a.me, c))
  }

  /** The draws c, with limit n as the next one to be read. */
  function NextRead(c: S.Chance, n: nat): S.Chance { c.(next := n) }

  ghost predicate ServerStep(a: ServerScene, b: ServerScene, c: S.Chance)
  {
    exists n: nat :: CanMove(a, NextRead(c, n)) && b == Move(a, NextRead(c, n))
  }

  /** The steps of a server whose draws are c, except that the limits may be read in any order. */
  ghost function ServerSteps(c: S.Chance): iset<(ServerScene, ServerScene)>
  {
    iset s: (ServerScene, ServerScene) | ServerStep(s.0, s.1, c)
  }

  lemma MoveThen(a: ServerScene, b: ServerScene, c: S.Chance)
    requires CanMove(a, c) && (b == Move(a, c) || Reaches(Move(a, c), b, ServerSteps(c)))
    ensures Reaches(a, b, ServerSteps(c))
  {
    assert NextRead(c, c.next) == c;
    NextThen(a, b, c, c.next);
  }

  lemma NextThen(a: ServerScene, b: ServerScene, c: S.Chance, n: nat)
    requires CanMove(a, NextRead(c, n)) && (b == Move(a, NextRead(c, n)) || Reaches(Move(a, NextRead(c, n)), b, ServerSteps(c)))
    ensures Reaches(a, b, ServerSteps(c))
  {
    assert ServerStep(a, Move(a, NextRead(c, n)), c);
    StepThen(a, Move(a, NextRead(c, n)), b, ServerSteps(c));
  }

  // ----- petents -----

  function PetentMove(a: PetentScene): PetentScene
    requires P.CanStep(a.sh, a.me)
  {
    Scene(Perform(a.sh, P.CallOf(a.me)), P.After(a.sh, a.me))
  }

  ghost function PetentSteps(): iset<(PetentScene, PetentScene)>
  {
    iset s: (PetentScene, PetentScene) | P.CanStep(s.0.sh, s.0.me) && s.1 == PetentMove(s.0)
  }

  lemma PetentThen(a: PetentScene, b: PetentScene)
    requires P.CanStep(a.sh, a.me) && (b == PetentMove(a) || Reaches(PetentMove(a), b, PetentSteps()))
    ensures Reaches(a, b, PetentSteps())
  {
    StepThen(a, PetentMove(a), b, PetentSteps());
  }

  // ----- the director's two threads -----

  function DirectorMove(a: DirectorScene, lobby: nat, evacuate: bool): DirectorScene
    requires D.CanStep(a.sh, a.me)
  {
    Scene(Perform(a.sh, D.CallOf(a.me, lobby)), D.After(a.sh, a.me, evacuate))
  }

  ghost function DirectorSteps(lobby: nat, evacuate: bool): iset<(DirectorScene, DirectorScene)>
  {
    iset s: (DirectorScene, DirectorScene) | D.CanStep(s.0.sh, s.0.me) && s.1 == DirectorMove(s.0, lobby, evacuate)
  }

  lemma DirectorThen(a: DirectorScene, b: DirectorScene, lobby: nat, evacuate: bool)
    requires D.CanStep(a.sh, a.me)
    requires b == DirectorMove(a, lobby, evacuate)
      || Reaches(DirectorMove(a, lobby, evacuate), b, DirectorSteps(lobby, evacuate))
    ensures Reaches(a, b, DirectorSteps(lobby, evacuate))
  {
    StepThen(a, DirectorMove(a, lobby, evacuate), b, DirectorSteps(lobby, evacuate));
  }

  function CollectorMove(a: CollectorScene): CollectorScene
  {
    Scene(Perform(a.sh, D.CollectorCall(a.sh, a.me)), D.AfterCollect(a.sh, a.me))
  }

  ghost function CollectorSteps(): iset<(CollectorScene, CollectorScene)>
  {
    iset s: (CollectorScene, CollectorScene) | s.1 == CollectorMove(s.0)
  }

  lemma CollectorThen(a: CollectorScene, b: CollectorScene)
    requires b == CollectorMove(a) || Reaches(CollectorMove(a), b, CollectorSteps())
    ensures Reaches(a, b, CollectorSteps())
  {
    StepThen(a, CollectorMove(a), b, CollectorSteps());
  }
}
