/**
 * The shared state as an object, for the stretches of the programs that run in one go: each
 * method is one call of the protocol.
 */
module Memory {
  import opened Tickets
  import opened Mailbox
  import opened SharedState

  datatype Option<+T> = None | Some(value: T)

  class Memory {
    var sh: Shared

    constructor (initial: Shared)
      ensures sh == initial
    {
      sh := initial;
    }

    method Do(call: Call)
      requires Possible(sh, call)
      modifies this
      ensures sh == Perform(old(sh), call)
    {
      sh := Perform(sh, call);
    }

    /** semop with IPC_NOWAIT on a limit. */
    method TryPlace(limit: nat) returns (status: int)
      requires WellFormed(sh) && limit < 6
      modifies this
      ensures status == (if old(sh).limits[limit] >= 1 then 0 else -1)
      ensures sh == if status == 0 then Perform(old(sh), TakePlace(limit)) else old(sh)
    {
      if sh.limits[limit] >= 1 {
        Do(TakePlace(limit));
        status := 0;
      } else {
        status := -1;
      }
    }

    /** msgrcv with IPC_NOWAIT: the first message of the type, found by walking the queue. */
    method TryReceive(ty: int) returns (m: Option<Msg>)
      modifies this
      ensures m.None? <==> !Has(old(sh), ty)
      ensures m.None? ==> sh == old(sh)
      ensures m.Some? ==> m.value == Front(old(sh), ty) && sh == Perform(old(sh), Receive(ty))
    {
      var k := 0;
      while k < |sh.queue| && sh.queue[k].t.mtype != ty
        invariant 0 <= k <= |sh.queue|
        invariant forall j :: 0 <= j < k ==> sh.queue[j].t.mtype != ty
      {
        k := k + 1;
      }
      if k == |sh.queue| {
        return None;
      }
      FirstIsUnique(sh.queue, ty, k);
      m := Some(sh.queue[k]);
      Do(Receive(ty));
    }
  }

  lemma FirstIsUnique(q: seq<Msg>, ty: int, k: nat)
    requires k < |q| && q[k].t.mtype == ty && forall j :: 0 <= j < k ==> q[j].t.mtype != ty
    ensures FirstOf(q, ty) == k
  {
  }
}
