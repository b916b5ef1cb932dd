/**
 * The tokens of the turnstile: whoever passes takes one and gives it back, so after closing the
 * turnstile lets in only as many as were passing it then.
 */
module Turnstile {
  import opened Tally
  import opened SharedState
  import opened Office
  import opened Invariant
  import opened Safety
  import P = Petent
  import S = Server
  import D = Director

  function PetentPasses(p: P.Petent): int { if p.pc == P.Entering(P.PassTurnstile) then 1 else 0 }
  function ServerPasses(sv: S.Server): int { if sv.pc == S.PassTurnstile then 1 else 0 }
  ghost function PetentsPassing(): P.Petent -> int { p => PetentPasses(p) }
  ghost function ServersPassing(): S.Server -> int { sv => ServerPasses(sv) }

  /** Tokens at the turnstile and in the hands of those who pass it. */
  ghost function AllTokens(s: State): int
  {
    s.sh.turnstile + Sum(s.petents, PetentsPassing()) + Sum(s.servers, ServersPassing())
  }

  /** The turnstile has not been opened yet; it has been closed for the day. */
  predicate BeforeTurnstile(pc: D.Pc)
  {
    pc.ConfigLock? || pc.ConfigUnlock? || pc.OpenLock? || pc.SetOpen? || pc.OpenUnlock? || pc.OpenTurnstile?
  }

  predicate AfterTurnstile(pc: D.Pc)
  {
    pc.CloseLock? || pc.SetClosed? || pc.CloseUnlock? || pc.CloseGate? || D.AfterGate(pc)
  }

  ghost predicate TokensOk(s: State)
  {
    && (BeforeTurnstile(s.director.pc) ==> AllTokens(s) == 0)
    && (!BeforeTurnstile(s.director.pc) && !AfterTurnstile(s.director.pc) ==> AllTokens(s) == 100)
    && 0 <= AllTokens(s) <= 100
  }

  // ----- steps -----

  lemma PetentKeepsTokens(sh: Shared, p: P.Petent)
    requires P.CanStep(sh, p)
    ensures Perform(sh, P.CallOf(p)).turnstile + PetentPasses(P.After(sh, p)) == sh.turnstile + PetentPasses(p)
  {
    if !p.pc.Entering? {
      if p.pc.AtClerks? || p.pc.InLine? {
        ServedPassesNot(sh, p);
      }
    }
  }

  lemma ServedPassesNot(sh: Shared, p: P.Petent)
    requires P.CanStep(sh, p) && (p.pc.AtClerks? || p.pc.InLine?)
    ensures Perform(sh, P.CallOf(p)).turnstile == sh.turnstile && !P.After(sh, p).pc.Entering?
  {
  }

  lemma SignalledKeepsToken(p: P.Petent, asleep: bool)
    ensures PetentPasses(P.Signalled(p, asleep)) == PetentPasses(p)
  {
  }

  lemma ServerKeepsTokens(sh: Shared, sv: S.Server, chance: S.Chance)
    requires WellFormed(sh) && S.CanStep(sh, sv, chance)
    ensures Perform(sh, S.CallOf(sh, sv, chance)).turnstile + ServerPasses(S.After(sh, sv, chance))
         == sh.turnstile + ServerPasses(sv)
  {
    if sv.pc.Serving? {
      ServingPassesNot(sh, sv, chance);
    }
  }

  lemma ServingPassesNot(sh: Shared, sv: S.Server, chance: S.Chance)
    requires WellFormed(sh) && S.CanStep(sh, sv, chance) && sv.pc.Serving?
    ensures Perform(sh, S.CallOf(sh, sv, chance)).turnstile == sh.turnstile
    ensures S.After(sh, sv, chance).pc != S.PassTurnstile
  {
  }

  lemma DirectorAndTokens(sh: Shared, d: D.Director, lobby: nat, evacuate: bool)
    requires D.CanStep(sh, d)
    ensures var pc, t := D.After(sh, d, evacuate).pc, Perform(sh, D.CallOf(d, lobby)).turnstile;
      && t == (if d.pc.OpenTurnstile? then D.TURNSTILE_TOKENS else if d.pc.CloseTurnstile? then 0 else sh.turnstile)
      && (BeforeTurnstile(pc) <==> BeforeTurnstile(d.pc) && !d.pc.OpenTurnstile?)
      && (AfterTurnstile(pc) <==> AfterTurnstile(d.pc) || d.pc.CloseTurnstile?)
  {
  }

  /** All steps but the director's two settings of the turnstile keep the tokens. */
  lemma StepAndTokens(s: State, a: Action, c: Config)
    requires WellFormed(s.sh) && Enabled(s, a)
    requires a.DirectorStep? ==> !s.director.pc.OpenTurnstile? && !s.director.pc.CloseTurnstile?
    ensures AllTokens(Apply(s, a, c.lobby)) == AllTokens(s)
  {
    match a
    case PetentStep(i) =>
      PetentKeepsTokens(s.sh, s.petents[i]);
      SumUpdate(s.petents, i, P.After(s.sh, s.petents[i]), PetentsPassing());
    case Signal(i, asleep) =>
      SignalledKeepsToken(s.petents[i], asleep);
      SumUpdate(s.petents, i, P.Signalled(s.petents[i], asleep), PetentsPassing());
    case ServerStep(j, chance) =>
      ServerKeepsTokens(s.sh, s.servers[j], chance);
      SumUpdate(s.servers, j, S.After(s.sh, s.servers[j], chance), ServersPassing());
    case DirectorStep(evacuate) => DirectorAndTokens(s.sh, s.director, c.lobby, evacuate);
    case CollectorStep =>
  }

  /** The director's steps against the tokens. */
  lemma DirectorKeepsTokens(s: State, evacuate: bool, c: Config)
    requires WellFormed(s.sh) && TokensOk(s) && Enabled(s, DirectorStep(evacuate))
    ensures TokensOk(Apply(s, DirectorStep(evacuate), c.lobby))
  {
    var t := Apply(s, DirectorStep(evacuate), c.lobby);
    SumNonNegative(s.petents, PetentsPassing());
    SumNonNegative(s.servers, ServersPassing());
    DirectorAndTokens(s.sh, s.director, c.lobby, evacuate);
    assert t.petents == s.petents && t.servers == s.servers;
  }

  lemma TokensOneStep(s: State, t: State, c: Config)
    requires Core(s, c) && Next(s, t, c) && TokensOk(s)
    ensures TokensOk(t)
    ensures AfterTurnstile(s.director.pc) ==> AfterTurnstile(t.director.pc) && AllTokens(t) == AllTokens(s)
    ensures s.director.pc.CloseTurnstile? && !t.director.pc.CloseTurnstile? ==> t.sh.turnstile == 0
  {
    var a :| Enabled(s, a) && t == Apply(s, a, c.lobby);
    if a.DirectorStep? {
      DirectorKeepsTokens(s, a.evacuate, c);
      DirectorAndTokens(s.sh, s.director, c.lobby, a.evacuate);
    }
    if !(a.DirectorStep? && (s.director.pc.OpenTurnstile? || s.director.pc.CloseTurnstile?)) {
      StepAndTokens(s, a, c);
    }
  }

  // ----- runs -----

  lemma InitialTokens(s: State, c: Config)
    requires Init(s, c)
    ensures TokensOk(s)
  {
    SumOfZeros(s.petents, PetentsPassing());
    SumOfZeros(s.servers, ServersPassing());
  }

  lemma TokensNextState(tr: seq<State>, c: Config, k: nat)
    requires Run(tr, c) && k + 1 < |tr| && TokensOk(tr[k])
    ensures TokensOk(tr[k + 1])
    ensures AfterTurnstile(tr[k].director.pc) ==>
      AfterTurnstile(tr[k + 1].director.pc) && AllTokens(tr[k + 1]) == AllTokens(tr[k])
    ensures tr[k].director.pc.CloseTurnstile? && !tr[k + 1].director.pc.CloseTurnstile? ==> tr[k + 1].sh.turnstile == 0
  {
    RunStep(tr, c, k);
    TokensOneStep(tr[k], tr[k + 1], c);
  }

  /** No token before the opening, a hundred from then to the closing, and never more. */
  lemma {:induction false} TokensThroughout(tr: seq<State>, c: Config, k: nat)
    requires Run(tr, c) && k < |tr|
    ensures TokensOk(tr[k])
  {
    if k == 0 {
      InitialTokens(tr[0], c);
    } else {
      TokensThroughout(tr, c, k - 1);
      TokensNextState(tr, c, k - 1);
    }
  }

  /** Closing leaves no token at the turnstile ... */
  lemma ClosingEmptiesTurnstile(tr: seq<State>, c: Config, k: nat)
    requires Run(tr, c) && k + 1 < |tr|
    requires tr[k].director.pc.CloseTurnstile? && !tr[k + 1].director.pc.CloseTurnstile?
    ensures tr[k + 1].sh.turnstile == 0
  {
    TokensThroughout(tr, c, k);
    TokensNextState(tr, c, k);
  }

  /** ... and from then on there are only those that passers give back: when nobody was passing,
      nobody passes again. */
  lemma {:induction false} TokensAfterClosing(tr: seq<State>, c: Config, k: nat, l: nat)
    requires Run(tr, c) && k <= l < |tr| && AfterTurnstile(tr[k].director.pc)
    ensures AfterTurnstile(tr[l].director.pc) && AllTokens(tr[l]) == AllTokens(tr[k])
    decreases l
  {
    if k < l {
      TokensAfterClosing(tr, c, k, l - 1);
      TokensThroughout(tr, c, l - 1);
      TokensNextState(tr, c, l - 1);
    }
  }
}
