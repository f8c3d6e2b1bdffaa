/**
 * The observable history of a store, as a log of events. It exists only
 * for the proofs: the store keeps it as a ghost field.
 */
module Trace {
  import opened Patch

  datatype Event<K, V, L> =
    // the listener of slot `handle` was called with `value`, when the handles below `issued` had been handed out
    | Notify(handle: nat, listener: L, value: map<K, V>, issued: nat)
    | Submit(patch: map<K, V>)                            // `set` accepted a patch with at least one key
    | Cancel(handle: nat)                                 // the unsubscribe function of slot `handle` was called

  /** No patch was accepted from position `from` on. */
  ghost predicate NoSubmit<K, V, L>(t: seq<Event<K, V, L>>, from: nat)
  {
    forall k :: from <= k < |t| ==> !t[k].Submit?
  }

  /** No listener was called from position `from` on. */
  ghost predicate NoNotify<K, V, L>(t: seq<Event<K, V, L>>, from: nat)
  {
    forall k :: from <= k < |t| ==> !t[k].Notify?
  }

  /** Event `e` is a call of listener `l` of slot `h` with `v`. */
  ghost predicate CallOf<K, V, L>(e: Event<K, V, L>, h: nat, l: L, v: map<K, V>)
  {
    e.Notify? && e.handle == h && e.listener == l && e.value == v
  }

  /** From position `from` on, listener `l` of slot `h` was called with `v`. */
  ghost predicate Notified<K, V, L>(t: seq<Event<K, V, L>>, from: nat, h: nat, l: L, v: map<K, V>)
  {
    exists k :: from <= k < |t| && CallOf(t[k], h, l, v)
  }

  /** No patch was accepted after `from` exactly when none was up to a later point and none after it. */
  lemma NoSubmitSplit<K, V, L>(t: seq<Event<K, V, L>>, u: seq<Event<K, V, L>>, from: nat)
    requires from <= |t| && t <= u
    ensures NoSubmit(u, from) <==> NoSubmit(t, from) && NoSubmit(u, |t|)
  {
    if NoSubmit(t, from) && NoSubmit(u, |t|) {
      forall k | from <= k < |u|
        ensures !u[k].Submit?
      {
        if k < |t| {
          assert u[k] == t[k];
        }
      }
    }
  }

  /** The patches accepted in the log, in order of acceptance. */
  function Submits<K, V, L>(t: seq<Event<K, V, L>>): (r: seq<map<K, V>>)
    ensures |r| <= |t|
    ensures NoSubmit(t, 0) ==> r == []
    decreases |t|
  {
    if t == [] then []
    else Submits(t[..|t| - 1]) + (if t[|t| - 1].Submit? then [t[|t| - 1].patch] else [])
  }

  /** `base` with every patch accepted in the log from position `from` on applied, in order. */
  function AppliedSince<K, V, L>(base: map<K, V>, t: seq<Event<K, V, L>>, from: nat): (r: map<K, V>)
    requires from <= |t|
    ensures base.Keys <= r.Keys
  {
    ApplyAll(base, Submits(t[from..]))
  }

  /** The patches accepted in two stretches of the log are those of the first, then those of the second. */
  lemma {:induction false} SubmitsConcat<K, V, L>(t: seq<Event<K, V, L>>, u: seq<Event<K, V, L>>)
    ensures Submits(t + u) == Submits(t) + Submits(u)
    decreases |u|
  {
    if u == [] {
      assert t + u == t;
    } else {
      var front := u[..|u| - 1];
      assert (t + u)[..|t + u| - 1] == t + front;
      SubmitsConcat(t, front);
    }
  }

  /** Applying what was accepted up to `t`, then what was accepted after it, is applying everything accepted. */
  lemma AppliedSinceSplit<K, V, L>(base: map<K, V>, t: seq<Event<K, V, L>>, u: seq<Event<K, V, L>>, from: nat)
    requires from <= |t| && t <= u
    ensures AppliedSince(base, u, from) == AppliedSince(AppliedSince(base, t, from), u, |t|)
  {
    assert u[from..] == t[from..] + u[|t|..];
    SubmitsConcat(t[from..], u[|t|..]);
    ApplyAllConcat(base, Submits(t[from..]), Submits(u[|t|..]));
  }

  /** A stretch of the log in which nothing was accepted leaves the value as it was. */
  lemma AppliedSinceNoSubmit<K, V, L>(base: map<K, V>, t: seq<Event<K, V, L>>, from: nat)
    requires from <= |t| && NoSubmit(t, from)
    ensures AppliedSince(base, t, from) == base
  {
    assert NoSubmit(t[from..], 0);
  }

  /** Accepting one patch applies it. */
  lemma AppliedSinceSubmit<K, V, L>(base: map<K, V>, t: seq<Event<K, V, L>>, p: map<K, V>)
    ensures AppliedSince(base, t + [Submit(p)], |t|) == Apply(base, p)
  {
    var u := (t + [Submit(p)])[|t|..];
    assert u == [Submit(p)] && u[..0] == [];
    assert Submits(u) == [p];
    assert ApplyAll(base, [p]) == Apply(ApplyAll(base, []), p) by {
      assert [p][..0] == [];
    }
  }

  /** Once the unsubscribe function of a slot was called, that slot's listener is never called again. */
  ghost predicate NoNotifyAfterCancel<K, V, L>(t: seq<Event<K, V, L>>)
  {
    forall a, b :: 0 <= a < b < |t| && t[a].Cancel? && t[b].Notify? ==> t[a].handle != t[b].handle
  }

  /**
   * `cancelled` maps the handle of every slot whose unsubscribe function was
   * called to the position of the first such call in the log; handles below
   * `next` were handed out. No listener call of such a slot comes after it.
   */
  ghost predicate CancelLog<K, V, L>(t: seq<Event<K, V, L>>, cancelled: map<nat, nat>, next: nat)
  {
    && (forall h :: h in cancelled ==> h < next && cancelled[h] < |t| && t[cancelled[h]] == Cancel(h))
    && (forall k :: 0 <= k < |t| && t[k].Cancel? ==> t[k].handle in cancelled && cancelled[t[k].handle] <= k)
    && (forall k :: 0 <= k < |t| && t[k].Notify? && t[k].handle in cancelled ==> k < cancelled[t[k].handle])
  }

  /** Logging a listener call of a slot that was never unsubscribed keeps the log consistent. */
  lemma CancelLogNotify<K, V, L>(t: seq<Event<K, V, L>>, cancelled: map<nat, nat>, next: nat, h: nat, l: L, v: map<K, V>,
                                 n: nat)
    requires CancelLog(t, cancelled, next) && h !in cancelled
    ensures CancelLog(t + [Notify(h, l, v, n)], cancelled, next)
  {
  }

  lemma CancelLogSubmit<K, V, L>(t: seq<Event<K, V, L>>, cancelled: map<nat, nat>, next: nat, p: map<K, V>)
    requires CancelLog(t, cancelled, next)
    ensures CancelLog(t + [Submit(p)], cancelled, next)
  {
  }

  /** Logging an unsubscribe records its position the first time only. */
  lemma CancelLogCancel<K, V, L>(t: seq<Event<K, V, L>>, cancelled: map<nat, nat>, next: nat, h: nat)
    requires CancelLog(t, cancelled, next) && h < next
    ensures CancelLog(t + [Cancel(h)], if h in cancelled then cancelled else cancelled[h := |t|], next)
  {
  }

  lemma CancelLogIssue<K, V, L>(t: seq<Event<K, V, L>>, cancelled: map<nat, nat>, next: nat)
    requires CancelLog(t, cancelled, next)
    ensures next !in cancelled && CancelLog(t, cancelled, next + 1)
  {
  }

  lemma CancelLogOrdered<K, V, L>(t: seq<Event<K, V, L>>, cancelled: map<nat, nat>, next: nat)
    requires CancelLog(t, cancelled, next)
    ensures NoNotifyAfterCancel(t)
  {
  }

  /**
   * A longer log keeps every unsubscribe of a shorter one, at the same
   * position: the first `Cancel` of a handle stays its first.
   */
  lemma CancelLogKept<K, V, L>(t1: seq<Event<K, V, L>>, c1: map<nat, nat>, n1: nat,
                               t2: seq<Event<K, V, L>>, c2: map<nat, nat>, n2: nat)
    requires CancelLog(t1, c1, n1) && CancelLog(t2, c2, n2) && t1 <= t2
    ensures forall h :: h in c1 ==> h in c2 && c2[h] == c1[h]
  {
    forall h | h in c1
      ensures h in c2 && c2[h] == c1[h]
    {
      assert t2[c1[h]] == t1[c1[h]];
      assert t1[c2[h]] == t2[c2[h]];
    }
  }

  lemma NotifiedGrows<K, V, L>(t: seq<Event<K, V, L>>, u: seq<Event<K, V, L>>, from: nat, h: nat, l: L, v: map<K, V>)
    requires t <= u && Notified(t, from, h, l, v)
    ensures Notified(u, from, h, l, v)
  {
    var k :| from <= k < |t| && CallOf(t[k], h, l, v);
    assert u[k] == t[k];
  }
}
