/**
 * The subscriber list of the store: an ordered sequence of listener slots.
 * A slot whose listener is gone is a tombstone; tombstones stay in place
 * until a compaction removes them.
 */
module Slots {
  import opened Wrappers

  /**
   * One listener slot. `handle` names the slot object itself, which is what
   * an unsubscribe function holds on to; `ref` is the listener, `None` once
   * the slot is tombstoned.
   */
  datatype Slot<L> = Slot(handle: nat, ref: Option<L>)

  predicate Live<L>(s: Slot<L>)
  {
    s.ref.Some?
  }

  /** Handles strictly increase along the list: the list is in subscription order. */
  ghost predicate Increasing<L>(s: seq<Slot<L>>)
  {
    forall i, j :: 0 <= i < j < |s| ==> s[i].handle < s[j].handle
  }

  /** Every slot of the list is live. */
  ghost predicate AllLive<L>(s: seq<Slot<L>>)
  {
    forall i :: 0 <= i < |s| ==> Live(s[i])
  }

  /** The list after compaction: the live slots, in their original order. */
  function Compact<L>(s: seq<Slot<L>>): (r: seq<Slot<L>>)
    ensures |r| <= |s|
    decreases |s|
  {
    if s == [] then []
    else Compact(s[..|s| - 1]) + (if Live(s[|s| - 1]) then [s[|s| - 1]] else [])
  }

  /** Compaction walks the list front to back, one slot at a time. */
  lemma CompactSnoc<L>(s: seq<Slot<L>>, x: Slot<L>)
    ensures Compact(s + [x]) == Compact(s) + (if Live(x) then [x] else [])
  {
    assert (s + [x])[..|s|] == s;
  }

  /** Compaction keeps exactly the live slots. */
  lemma {:induction false} CompactMember<L>(s: seq<Slot<L>>, x: Slot<L>)
    ensures x in Compact(s) <==> x in s && Live(x)
    decreases |s|
  {
    if s != [] {
      var front, last := s[..|s| - 1], s[|s| - 1];
      assert s == front + [last];
      CompactMember(front, x);
    }
  }

  /** Nothing but live slots is left after compaction. */
  lemma CompactAllLive<L>(s: seq<Slot<L>>)
    ensures AllLive(Compact(s))
  {
    forall i | 0 <= i < |Compact(s)|
      ensures Live(Compact(s)[i])
    {
      CompactMember(s, Compact(s)[i]);
    }
  }

  /** Compaction keeps the relative order of the slots it keeps. */
  lemma {:induction false} CompactIncreasing<L>(s: seq<Slot<L>>)
    requires Increasing(s)
    ensures Increasing(Compact(s))
    decreases |s|
  {
    if s != [] {
      var front, last := s[..|s| - 1], s[|s| - 1];
      CompactIncreasing(front);
      forall x | x in Compact(front)
        ensures x.handle < last.handle
      {
        CompactMember(front, x);
      }
    }
  }

  /** A list without tombstones is left as it is. */
  lemma {:induction false} CompactNoTombstones<L>(s: seq<Slot<L>>)
    requires AllLive(s)
    ensures Compact(s) == s
    decreases |s|
  {
    if s != [] {
      var front := s[..|s| - 1];
      CompactNoTombstones(front);
      assert s == front + [s[|s| - 1]];
    }
  }

  /** Compacting twice is compacting once. */
  lemma CompactIdempotent<L>(s: seq<Slot<L>>)
    ensures Compact(Compact(s)) == Compact(s)
  {
    CompactAllLive(s);
    CompactNoTombstones(Compact(s));
  }

  /** Two lists in subscription order with the same slots are the same list. */
  lemma {:induction false} IncreasingUnique<L>(a: seq<Slot<L>>, b: seq<Slot<L>>)
    requires Increasing(a) && Increasing(b)
    requires forall x :: x in a <==> x in b
    ensures a == b
    decreases |a| + |b|
  {
    assert a != [] ==> a[0] in b;
    assert b != [] ==> b[0] in a;
    if a != [] && b != [] {
      assert a[0] == b[0];
      forall x
        ensures x in a[1..] <==> x in b[1..]
      {
        TailMember(a, x);
        TailMember(b, x);
      }
      IncreasingUnique(a[1..], b[1..]);
      assert a == [a[0]] + a[1..];
      assert b == [b[0]] + b[1..];
    }
  }

  /** In a list in subscription order, the tail holds every slot but the first. */
  lemma TailMember<L>(s: seq<Slot<L>>, x: Slot<L>)
    requires Increasing(s) && s != []
    ensures x in s[1..] <==> x in s && x != s[0]
  {
    if x in s[1..] {
      var i :| 0 <= i < |s[1..]| && s[1..][i] == x;
      assert s[i + 1] == x;
    }
  }

  /**
   * Compaction is characterised by its result: any list in subscription
   * order that holds exactly the live slots of `s` is `Compact(s)`.
   */
  lemma CompactUnique<L>(s: seq<Slot<L>>, r: seq<Slot<L>>)
    requires Increasing(s) && Increasing(r)
    requires forall x :: x in r <==> x in s && Live(x)
    ensures r == Compact(s)
  {
    CompactIncreasing(s);
    forall x
      ensures x in r <==> x in Compact(s)
    {
      CompactMember(s, x);
    }
    IncreasingUnique(r, Compact(s));
  }

  /**
   * The list after the unsubscribe function of slot `h` ran: that slot is
   * tombstoned, no slot moves.
   */
  function Tombstone<L>(s: seq<Slot<L>>, h: nat): (r: seq<Slot<L>>)
    ensures |r| == |s|
    ensures forall i :: 0 <= i < |s| ==> r[i].handle == s[i].handle
    ensures forall i :: 0 <= i < |s| && s[i].handle == h ==> !Live(r[i])
    ensures forall i :: 0 <= i < |s| && s[i].handle != h ==> r[i] == s[i]
  {
    seq(|s|, i requires 0 <= i < |s| => if s[i].handle == h then Slot(h, None) else s[i])
  }

  /** Tombstoning a slot twice is tombstoning it once. */
  lemma TombstoneIdempotent<L>(s: seq<Slot<L>>, h: nat)
    ensures Tombstone(Tombstone(s, h), h) == Tombstone(s, h)
  {
  }

  /**
   * `b` came from `a` by tombstoning slots whose handles are in `cancelled`
   * and appending slots whose handles are at least `bound`: no slot of `a`
   * moved, was removed, changed its listener, or lost it without an
   * unsubscribe call.
   */
  ghost predicate Grown<L>(a: seq<Slot<L>>, b: seq<Slot<L>>, bound: nat, cancelled: set<nat>)
  {
    && |a| <= |b|
    && (forall i :: 0 <= i < |a| ==> b[i].handle == a[i].handle && (Live(b[i]) ==> b[i] == a[i]))
    && (forall i :: 0 <= i < |a| && Live(a[i]) && !Live(b[i]) ==> a[i].handle in cancelled)
    && (forall i :: |a| <= i < |b| ==> b[i].handle >= bound)
  }

  /** Appending a slot with a new handle grows the list. */
  lemma GrownAppend<L>(a: seq<Slot<L>>, x: Slot<L>, bound: nat, cancelled: set<nat>)
    requires x.handle >= bound
    ensures Grown(a, a + [x], bound, cancelled)
  {
  }

  /** Tombstoning the slot of an unsubscribed handle grows the list. */
  lemma GrownTombstone<L>(a: seq<Slot<L>>, h: nat, bound: nat, cancelled: set<nat>)
    requires h in cancelled
    ensures Grown(a, Tombstone(a, h), bound, cancelled)
  {
  }

  lemma GrownTransitive<L>(a: seq<Slot<L>>, b: seq<Slot<L>>, c: seq<Slot<L>>, bound: nat, later: nat,
                           early: set<nat>, late: set<nat>)
    requires Grown(a, b, bound, early) && Grown(b, c, later, late) && bound <= later && early <= late
    ensures Grown(a, c, bound, late)
  {
  }

  /**
   * The shape the store keeps its subscriber list in, where `listeners[h]`
   * is the listener slot `h` was subscribed with: subscription order,
   * handles that were handed out, no live slot whose unsubscribe function
   * was called, the slot of every handle whose unsubscribe function was not
   * called still live in the list, and no tombstone unless compaction is
   * pending.
   */
  ghost predicate SlotsInvariant<L>(slots: seq<Slot<L>>, listeners: seq<L>, hasEmpty: bool, cancelled: set<nat>)
  {
    && Increasing(slots)
    && (forall i :: 0 <= i < |slots| ==>
          slots[i].handle < |listeners| && (Live(slots[i]) ==> slots[i].handle !in cancelled))
    && (forall h :: 0 <= h < |listeners| && h !in cancelled ==> Slot(h, Some(listeners[h])) in slots)
    && (!hasEmpty ==> AllLive(slots))
  }

  /** Compaction keeps the invariant and leaves no tombstone; without pending compaction there is none to remove. */
  lemma CompactKeepsInvariant<L>(slots: seq<Slot<L>>, listeners: seq<L>, hasEmpty: bool, cancelled: set<nat>)
    requires SlotsInvariant(slots, listeners, hasEmpty, cancelled)
    ensures SlotsInvariant(Compact(slots), listeners, false, cancelled)
    ensures !hasEmpty ==> Compact(slots) == slots
  {
    CompactIncreasing(slots);
    CompactAllLive(slots);
    forall i | 0 <= i < |Compact(slots)|
      ensures Compact(slots)[i] in slots
    {
      CompactMember(slots, Compact(slots)[i]);
    }
    forall h | 0 <= h < |listeners| && h !in cancelled
      ensures Slot(h, Some(listeners[h])) in Compact(slots)
    {
      CompactMember(slots, Slot(h, Some(listeners[h])));
    }
    if !hasEmpty {
      CompactNoTombstones(slots);
    }
  }

  /** Subscribing `l`: a new live slot with the next handle goes at the end. */
  lemma AppendKeepsInvariant<L>(slots: seq<Slot<L>>, listeners: seq<L>, hasEmpty: bool, cancelled: set<nat>, l: L)
    requires SlotsInvariant(slots, listeners, hasEmpty, cancelled) && |listeners| !in cancelled
    ensures SlotsInvariant(slots + [Slot(|listeners|, Some(l))], listeners + [l], hasEmpty, cancelled)
  {
    var s, ls := slots + [Slot(|listeners|, Some(l))], listeners + [l];
    forall h | 0 <= h < |ls| && h !in cancelled
      ensures Slot(h, Some(ls[h])) in s
    {
      if h < |listeners| {
        assert ls[h] == listeners[h];
      } else {
        assert s[|slots|] == Slot(h, Some(ls[h]));
      }
    }
  }

  /** Tombstoning a slot keeps the invariant once its handle counts as unsubscribed and compaction is pending. */
  lemma TombstoneKeepsInvariant<L>(slots: seq<Slot<L>>, listeners: seq<L>, hasEmpty: bool, cancelled: set<nat>, h: nat)
    requires SlotsInvariant(slots, listeners, hasEmpty, cancelled)
    ensures SlotsInvariant(Tombstone(slots, h), listeners, true, cancelled + {h})
  {
    var r := Tombstone(slots, h);
    forall g | 0 <= g < |listeners| && g !in cancelled + {h}
      ensures Slot(g, Some(listeners[g])) in r
    {
      var i :| 0 <= i < |slots| && slots[i] == Slot(g, Some(listeners[g]));
      assert r[i] == slots[i];
    }
  }
}
