/**
 * The single System V message queue: sending appends, receiving takes the first message of
 * the asked-for type (POSIX.1-2017, System Interfaces, msgsnd() and msgrcv()).
 */
module Mailbox {
  import opened Tickets

  /** Index of the first message of type ty, or |q| when there is none. */
  function FirstOf(q: seq<Msg>, ty: int): (k: nat)
    ensures k <= |q|
    ensures k < |q| ==> q[k].t.mtype == ty
    ensures forall j :: 0 <= j < k ==> q[j].t.mtype != ty
  {
    if q == [] then 0
    else if q[0].t.mtype == ty then 0
    else 1 + FirstOf(q[1..], ty)
  }

  function Without(q: seq<Msg>, k: nat): seq<Msg>
    requires k < |q|
  {
    q[..k] + q[k + 1..]
  }

  /** The messages of type ty, in order. */
  function OfType(q: seq<Msg>, ty: int): seq<Msg> {
    if q == [] then [] else
      OfType(q[..|q| - 1], ty) + if q[|q| - 1].t.mtype == ty then [q[|q| - 1]] else []
  }

  lemma Regroup<T>(a: seq<T>, b: seq<T>, c: seq<T>)
    ensures (a + b) + c == a + (b + c)
  {
  }

  lemma OfTypeAppend(q: seq<Msg>, m: Msg, ty: int)
    ensures OfType(q + [m], ty) == OfType(q, ty) + if m.t.mtype == ty then [m] else []
  {
    assert (q + [m])[..|q|] == q;
  }

  lemma {:induction false} OfTypeConcat(p: seq<Msg>, q: seq<Msg>, ty: int)
    ensures OfType(p + q, ty) == OfType(p, ty) + OfType(q, ty)
    decreases |q|
  {
    if q == [] {
      assert p + q == p;
    } else {
      var q', m := q[..|q| - 1], q[|q| - 1];
      OfTypeConcat(p, q', ty);
      assert p + q == (p + q') + [m];
      OfTypeAppend(p + q', m, ty);
    }
  }

  lemma {:induction false} OfTypeNone(q: seq<Msg>, ty: int)
    requires forall j :: 0 <= j < |q| ==> q[j].t.mtype != ty
    ensures OfType(q, ty) == []
    decreases |q|
  {
    if q != [] {
      OfTypeNone(q[..|q| - 1], ty);
    }
  }

  lemma OfTypeAround(q: seq<Msg>, k: nat, ty: int)
    requires k < |q|
    ensures OfType(q, ty) ==
      OfType(q[..k], ty) + (if q[k].t.mtype == ty then [q[k]] else []) + OfType(q[k + 1..], ty)
    ensures OfType(Without(q, k), ty) == OfType(q[..k], ty) + OfType(q[k + 1..], ty)
  {
    var a, b := q[..k], q[k + 1..];
    OfTypeConcat(a, b, ty);
    OfTypeAppend(a, q[k], ty);
    OfTypeConcat(a + [q[k]], b, ty);
    assert a + [q[k]] + b == q;
  }

  /** Receiving takes the oldest message of its type and disturbs no other type. */
  lemma ReceiveOldest(q: seq<Msg>, ty: int, other: int)
    requires FirstOf(q, ty) < |q|
    ensures var k := FirstOf(q, ty);
      && OfType(q, ty) == [q[k]] + OfType(Without(q, k), ty)
      && (other != ty ==> OfType(Without(q, k), other) == OfType(q, other))
  {
    var k := FirstOf(q, ty);
    OfTypeAround(q, k, ty);
    OfTypeNone(q[..k], ty);
    OfTypeAround(q, k, other);
  }

  /** Nothing of a type queued means nothing of it is found. */
  lemma NoneFound(q: seq<Msg>, ty: int)
    requires FirstOf(q, ty) == |q|
    ensures OfType(q, ty) == []
  {
    OfTypeNone(q, ty);
  }
}
