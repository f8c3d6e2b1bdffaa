/**
 * The store engine created by `createStore`: the current value, one
 * pending patch that absorbs every update made while a pass runs, and the
 * subscriber list with lazy compaction.
 *
 * Listeners are not code here. A listener is an id of type `L`, and the
 * store's `behaviour` says which store operations the listener with a given
 * id calls when it is handed a given value; a sweep runs those calls inline,
 * through the same entry points a caller uses, so a listener that calls
 * `set`, `subscribe` or an unsubscribe function re-enters the store exactly
 * as in the source.
 */
module StoreEngine {
  import opened Wrappers
  import opened Patch
  import opened Slots
  import opened Trace
  import opened Notification

  class Store<K(==,!new), V(!new), L(!new)> {
    /** The current value. */
    var value: map<K, V>
    /** The pending patch, `null` in the source when nothing is pending. */
    var nextValue: Option<map<K, V>>
    /** A pass is running: the apply loop has an owner. */
    var running: bool
    /** The current sweep may go on; cleared by a reentrant `set`. */
    var keepGoing: bool
    /** Some slot was tombstoned since the last compaction. */
    var hasEmpty: bool
    /** The subscriber list, in notification order. */
    var slots: seq<Slot<L>>
    /** The handle the next subscription gets: slot handles are 0, 1, 2, ... in subscription order. */
    var nextHandle: nat

    /** What each listener does when it is called with a value. */
    const behaviour: (L, map<K, V>) -> seq<Command<K, V, L>>
    /** How many rounds of the apply loop one pass may run before the model stops following it. */
    const fuel: nat

    /** The value every patch accepted so far, applied in order of acceptance, gives. */
    ghost var settled: map<K, V>
    /** Every listener call, accepted patch and unsubscribe call so far, in order. */
    ghost var trace: seq<Event<K, V, L>>
    /** For each slot whose unsubscribe function was called, where in `trace` that first happened. */
    ghost var cancelled: map<nat, nat>
    /** The listener each handed-out handle was subscribed with. */
    ghost var listeners: seq<L>

    /** The part of the state a sweep's progress is measured by. */
    ghost function Now(): (s: Snapshot<K, V, L>)
      reads this
    {
      Snapshot(slots, nextHandle, trace, value, settled, cancelled, listeners)
    }

    /** No listener ever sets anything. */
    ghost predicate Silent()
    {
      forall l, v :: Quiet(behaviour(l, v))
    }

    /** No listener ever calls an unsubscribe function. */
    ghost predicate Loyal()
    {
      forall l, v :: NoUnsubscribe(behaviour(l, v))
    }

    /**
     * The store's invariant: the slot list is well formed and holds a live
     * slot for every subscription not unsubscribed, the log is consistent
     * with the unsubscribe calls, an idle store has nothing pending, and
     * nothing accepted is lost.
     */
    ghost predicate Valid()
      reads this
    {
      StoreInvariant(slots, listeners, hasEmpty, cancelled, trace, nextHandle, running, keepGoing, value, nextValue, settled)
    }

    /** Once the unsubscribe function of a slot was called, the slot's listener is never called again. */
    lemma SilentAfterUnsubscribe()
      requires Valid()
      ensures NoNotifyAfterCancel(trace)
    {
      CancelLogOrdered(trace, cancelled, nextHandle);
    }

    /** The store as `createStore` leaves it, with `init` the value the initializer returned. */
    constructor (init: map<K, V>, behaviour: (L, map<K, V>) -> seq<Command<K, V, L>>, fuel: nat)
      ensures Valid()
      ensures value == init && nextValue.None? && slots == [] && nextHandle == 0
      ensures !running && keepGoing && !hasEmpty
      ensures this.behaviour == behaviour && this.fuel == fuel && settled == init && trace == []
      ensures cancelled == map[] && listeners == []
    {
      value := init;
      nextValue := None;
      running := false;
      keepGoing := true;
      hasEmpty := false;
      slots := [];
      nextHandle := 0;
      this.behaviour := behaviour;
      this.fuel := fuel;
      settled := init;
      trace := [];
      cancelled := map[];
      listeners := [];
    }

    /** `get`: the current value; nothing changes. */
    method Get() returns (v: map<K, V>)
      requires Valid()
      ensures v == value
      ensures !running ==> v == settled
    {
      v := value;
    }

    /**
     * `clean`: when some slot was tombstoned, compact the list in place,
     * keeping exactly the live slots in their order; otherwise do nothing.
     */
    method Clean()
      requires Valid()
      modifies this`slots, this`hasEmpty
      ensures Valid()
      ensures slots == if old(hasEmpty) then Compact(old(slots)) else old(slots)
      ensures slots == Compact(old(slots)) && !hasEmpty
    {
      if hasEmpty {
        hasEmpty := false;
        CompactInPlace();
      }
      CompactKeepsInvariant(old(slots), listeners, old(hasEmpty), cancelled.Keys);
    }

    /**
     * The loop of `clean`: move every live slot down to the next free index
     * `lazy`, in order, then cut the list at `lazy`.
     */
    method CompactInPlace()
      modifies this`slots
      ensures slots == Compact(old(slots))
    {
      ghost var s0 := slots;
      var lazy := 0;
      for i := 0 to |slots|
        invariant |slots| == |s0|
        invariant lazy <= i
        invariant slots[..lazy] == Compact(s0[..i])
        invariant slots[i..] == s0[i..]
      {
        ghost var before := slots;
        assert before[i] == s0[i] && before[i + 1..] == s0[i + 1..] by {
          assert before[i..][0] == s0[i..][0] && before[i..][1..] == s0[i..][1..];
        }
        assert s0[..i + 1] == s0[..i] + [s0[i]];
        CompactSnoc(s0[..i], s0[i]);
        if Live(slots[i]) {
          slots := slots[lazy := slots[i]];
          assert slots[..lazy + 1] == before[..lazy] + [s0[i]];
          assert slots[i + 1..] == before[i + 1..];
          lazy := lazy + 1;
        }
      }
      slots := slots[..lazy];
      assert s0[..|s0|] == s0;
    }

    /**
     * `subscribe`: append a live slot for `listener`, compacting first when
     * no pass is running (a running sweep's indices are never moved). The
     * returned handle stands for the unsubscribe function.
     */
    method Subscribe(listener: L) returns (handle: nat)
      requires Valid()
      modifies this
      ensures Valid()
      ensures handle == old(nextHandle) && nextHandle == handle + 1
      ensures slots == (if !old(running) && old(hasEmpty) then Compact(old(slots)) else old(slots))
                       + [Slot(handle, Some(listener))]
      ensures hasEmpty == (old(running) && old(hasEmpty))
      ensures value == old(value) && nextValue == old(nextValue) && running == old(running)
      ensures keepGoing == old(keepGoing) && settled == old(settled) && trace == old(trace)
      ensures cancelled == old(cancelled) && listeners == old(listeners) + [listener]
    {
      if !running {
        Clean();
      }
      handle := Append(listener);
    }

    /** The end of `subscribe`: a live slot for `listener`, with the next handle, at the end of the list. */
    method Append(listener: L) returns (handle: nat)
      requires Valid()
      modifies this`slots, this`listeners, this`nextHandle
      ensures Valid()
      ensures handle == old(nextHandle) && nextHandle == handle + 1
      ensures slots == old(slots) + [Slot(handle, Some(listener))] && listeners == old(listeners) + [listener]
    {
      CancelLogIssue(trace, cancelled, nextHandle);
      AppendKeepsInvariant(slots, listeners, hasEmpty, cancelled.Keys, listener);
      handle := nextHandle;
      slots := slots + [Slot(handle, Some(listener))];
      listeners := listeners + [listener];
      nextHandle := nextHandle + 1;
    }

    /**
     * The unsubscribe function of slot `handle`: mark compaction as pending
     * and tombstone that slot, wherever it is now. A second call tombstones
     * nothing more.
     */
    method Unsubscribe(handle: nat)
      requires Valid() && handle < nextHandle
      modifies this`slots, this`hasEmpty, this`trace, this`cancelled
      ensures Valid()
      ensures hasEmpty && slots == Tombstone(old(slots), handle)
      ensures Tombstone(slots, handle) == slots
      ensures trace == old(trace) + [Cancel(handle)] && cancelled.Keys == old(cancelled).Keys + {handle}
    {
      ghost var recorded := if handle in cancelled then cancelled else cancelled[handle := |trace|];
      assert recorded.Keys == cancelled.Keys + {handle};
      TombstoneKeepsInvariant(slots, listeners, hasEmpty, cancelled.Keys, handle);
      CancelLogCancel(trace, cancelled, nextHandle, handle);
      TombstoneIdempotent(slots, handle);
      hasEmpty := true;
      slots := Tombstone(slots, handle);
      cancelled := recorded;
      trace := trace + [Cancel(handle)];
    }

    /**
     * What calls a listener makes during a sweep do to the store: the value
     * stays, the slots neither move nor change listener nor lose it without
     * an unsubscribe call, no listener is called, `keepGoing` is cleared
     * exactly when a patch was accepted, the patches accepted and settled on
     * are `patches`, the listeners subscribed are `subs`, and the handles
     * newly unsubscribed are those of `unsubs`.
     */
    twostate predicate ListenerCallEffect(patches: seq<map<K, V>>, subs: seq<L>, unsubs: set<nat>)
      reads this
    {
      && Valid() && running && (keepGoing <==> nextValue.None?)
      && CallEffect(old(Now()), old(keepGoing), Now(), keepGoing, patches, subs, unsubs)
    }

    /** A `subscribe` during a pass: one live slot with the next handle is appended, and nothing else changes. */
    twostate predicate Subscribed(listener: L)
      reads this
    {
      && slots == old(slots) + [Slot(old(nextHandle), Some(listener))]
      && listeners == old(listeners) + [listener] && nextHandle == old(nextHandle) + 1
      && value == old(value) && nextValue == old(nextValue) && running == old(running) && keepGoing == old(keepGoing)
      && hasEmpty == old(hasEmpty) && settled == old(settled) && trace == old(trace) && cancelled == old(cancelled)
    }

    /**
     * A call of the unsubscribe function of slot `handle`: compaction is
     * pending, the slot is tombstoned, the call is logged and recorded, and
     * nothing else changes.
     */
    twostate predicate Unsubscribed(handle: nat)
      reads this
    {
      && hasEmpty && slots == Tombstone(old(slots), handle)
      && trace == old(trace) + [Cancel(handle)] && cancelled.Keys == old(cancelled).Keys + {handle}
      && value == old(value) && nextValue == old(nextValue) && running == old(running) && keepGoing == old(keepGoing)
      && settled == old(settled) && listeners == old(listeners) && nextHandle == old(nextHandle)
    }

    /** One call a listener makes into the store, during a sweep. */
    method Exec(cmd: Command<K, V, L>)
      requires Valid() && running
      requires keepGoing <==> nextValue.None?
      modifies this
      decreases 2
      ensures ListenerCallEffect(SetPatches([cmd]), Subscribes([cmd]), Cancels([cmd], old(nextHandle)))
      ensures cmd.CallSet? ==> if |cmd.patch| == 0 then Untouched() else Absorbed(cmd.patch)
      ensures cmd.CallSubscribe? ==> Subscribed(cmd.listener)
      ensures cmd.CallUnsubscribe? ==> if cmd.handle < old(nextHandle) then Unsubscribed(cmd.handle) else Untouched()
      ensures keepGoing <==> old(keepGoing) && !(cmd.CallSet? && |cmd.patch| > 0)
      ensures !cmd.CallUnsubscribe? ==> cancelled == old(cancelled)
    {
      ScriptOne(cmd, nextHandle);
      match cmd
      case CallSet(patch) =>
        ListenerSet(patch);
      case CallSubscribe(listener) =>
        ListenerSubscribe(listener);
      case CallUnsubscribe(handle) =>
        ListenerUnsubscribe(handle);
    }

    /** A listener calls `subscribe`: a pass is running, so nothing is compacted. */
    method ListenerSubscribe(listener: L)
      requires Valid() && running
      requires keepGoing <==> nextValue.None?
      modifies this
      decreases 1
      ensures ListenerCallEffect([], [listener], {}) && Subscribed(listener)
    {
      var handle := Subscribe(listener);
      CallEffectAppend(old(Now()), old(keepGoing), listener, Now());
    }

    /**
     * A listener calls the unsubscribe function of slot `handle`. Only a
     * handle that was handed out has one; a script naming another is skipped.
     */
    method ListenerUnsubscribe(handle: nat)
      requires Valid() && running
      requires keepGoing <==> nextValue.None?
      modifies this
      decreases 1
      ensures ListenerCallEffect([], [], if handle < old(nextHandle) then {handle} else {})
      ensures if handle < old(nextHandle) then Unsubscribed(handle) else Untouched()
    {
      if handle < nextHandle {
        Unsubscribe(handle);
        CallEffectCancel(old(Now()), old(keepGoing), handle, Now());
      } else {
        CallEffectNone(Now(), keepGoing);
      }
    }

    /** A listener calls `set`: the call is reentrant, as a pass is running. */
    method ListenerSet(patch: map<K, V>)
      requires Valid() && running
      requires keepGoing <==> nextValue.None?
      modifies this
      decreases 1
      ensures ListenerCallEffect(if |patch| > 0 then [patch] else [], [], {})
      ensures |patch| == 0 ==> Untouched()
      ensures |patch| > 0 ==> Absorbed(patch)
    {
      Set(patch);
      if |patch| == 0 {
        CallEffectNone(old(Now()), old(keepGoing));
      } else {
        CallEffectSubmit(old(Now()), old(keepGoing), patch, Now());
      }
    }

    /** `slots[i].ref?.(value)` for a live slot: log the call, then run the listener's calls into the store. */
    method Invoke(i: nat)
      requires Valid() && running && keepGoing && nextValue.None?
      requires i < |slots| && Live(slots[i])
      modifies this
      decreases 4
      ensures Valid() && running && Extends(old(Now()), Now())
      ensures old(trace) + [Notify(old(slots)[i].handle, old(slots)[i].ref.value, value, old(nextHandle))] <= trace
      ensures NoNotify(trace, |old(trace)| + 1)
      ensures keepGoing <==> nextValue.None?
      ensures keepGoing <==> NoSubmit(trace, |old(trace)|)
      // the sweep may go on exactly when the listener set nothing
      ensures keepGoing <==> Quiet(behaviour(old(slots)[i].ref.value, value))
      ensures NoUnsubscribe(behaviour(old(slots)[i].ref.value, value)) ==> cancelled == old(cancelled)
      // what the listener's calls did: the patches it set were accepted and settled on, in order,
      // the listeners it subscribed were appended, and the handles it unsubscribed while they were handed out,
      // and no others, are newly unsubscribed
      ensures Submits(trace[|old(trace)| + 1..]) == SetPatches(behaviour(old(slots)[i].ref.value, value))
      ensures settled == ApplyAll(old(settled), SetPatches(behaviour(old(slots)[i].ref.value, value)))
      ensures listeners == old(listeners) + Subscribes(behaviour(old(slots)[i].ref.value, value))
      ensures cancelled.Keys == old(cancelled).Keys + Cancels(behaviour(old(slots)[i].ref.value, value), old(nextHandle))
    {
      var listener := slots[i].ref.value;
      CancelLogNotify(trace, cancelled, nextHandle, slots[i].handle, listener, value, nextHandle);
      trace := trace + [Notify(slots[i].handle, listener, value, nextHandle)];
      ghost var s1 := Now();
      AppliedSinceNoSubmit(settled, trace, |old(trace)|);
      assert Extends(old(Now()), s1);
      RunScript(behaviour(listener, value));
      ExtendsTransitive(old(Now()), s1, Now());
      NoSubmitSplit(s1.trace, trace, |old(trace)|);
    }

    /** The calls a listener makes into the store, one after the other. */
    method RunScript(script: seq<Command<K, V, L>>)
      requires Valid() && running && (keepGoing <==> nextValue.None?)
      modifies this
      decreases 3, |script|
      ensures ListenerCallEffect(SetPatches(script), Subscribes(script), Cancels(script, old(nextHandle)))
      ensures keepGoing <==> old(keepGoing) && Quiet(script)
      ensures NoUnsubscribe(script) ==> cancelled == old(cancelled)
    {
      if |script| == 0 {
        CallEffectNone(Now(), keepGoing);
        return;
      }
      ScriptHead(script);
      var head := script[0];
      Exec(head);
      ghost var s1, k1 := Now(), keepGoing;
      RunScript(script[1..]);
      CallEffectScript(script, old(Now()), old(keepGoing), s1, k1, Now(), keepGoing);
    }

    /**
     * One sweep (the `for` loop of `set`): call the listener of every live
     * slot below the length fixed at the start, in order, until a reentrant
     * `set` clears `keepGoing`.
     */
    method Sweep()
      requires Valid() && running && keepGoing && nextValue.None?
      modifies this
      decreases 7
      ensures Valid() && running && Extends(old(Now()), Now())
      ensures Loyal() ==> cancelled == old(cancelled)
      // the sweep was stopped exactly when a listener's `set` was accepted, which left a patch pending
      ensures keepGoing <==> nextValue.None?
      ensures keepGoing <==> NoSubmit(trace, |old(trace)|)
      ensures Silent() ==> keepGoing
      // only slots that existed when the sweep started are called, all with the sweep's value,
      // in list order, each at most once, and none after a reentrant `set` was accepted
      ensures Calls(trace, |old(trace)|, value, old(nextHandle))
      // a slot that was there at the start and is still live was called, unless the sweep stopped before it
      ensures forall j :: 0 <= j < |old(slots)| && Live(slots[j]) ==>
                || Notified(trace, |old(trace)|, slots[j].handle, slots[j].ref.value, value)
                || (!keepGoing &&
                    forall k :: |old(trace)| <= k < |trace| && trace[k].Notify? ==> trace[k].handle < slots[j].handle)
      // a sweep that ran to its end called every such slot, and only listeners that set nothing
      ensures keepGoing ==>
                Covered(slots, |old(slots)|, trace, |old(trace)|, value) && AllQuiet(trace, |old(trace)|, behaviour)
      // a stopped sweep settles on its value with the patches of the listener that stopped it applied
      ensures !keepGoing ==> Stops(value, settled, behaviour)
      // every listener called had the unsubscribe functions it called on handles handed out at the time take
      // effect, before the next listener was called, and only those handles were newly unsubscribed
      ensures UnsubscribesKept(trace, |old(trace)|, old(cancelled).Keys, cancelled.Keys, old(nextHandle), behaviour)
    {
      ghost var s0 := Now();
      ProgressStart(s0, behaviour);
      var i := Visits(s0);
      ProgressEnd(i, s0, Now(), !keepGoing, behaviour);
    }

    /**
     * The loop of a sweep that started in state `s0`: visit the slots below
     * the length fixed at the start, in order, until one of them stops the
     * sweep; `i` is where the loop ended.
     */
    method Visits(ghost s0: Snapshot<K, V, L>) returns (i: nat)
      requires s0 == Now() && Swept(0, s0)
      modifies this
      decreases 6
      ensures Swept(i, s0) && (!keepGoing || i == |s0.slots|)
      ensures Silent() ==> keepGoing
    {
      var length := |slots|;
      i := 0;
      while keepGoing && i < length
        invariant i <= length == |s0.slots|
        invariant Swept(i, s0)
        invariant Silent() ==> keepGoing
        decreases length - i
      {
        Visit(i, s0);
        i := i + 1;
      }
    }

    /**
     * How far a sweep that started in state `s0` has come when it is about
     * to look at index `i` (see `SweepProgress`); `keepGoing` is cleared
     * exactly when the sweep was stopped, which left a patch pending.
     */
    ghost predicate Swept(i: nat, s0: Snapshot<K, V, L>)
      reads this
    {
      && Valid() && running
      && (keepGoing <==> nextValue.None?)
      && (Loyal() ==> cancelled == s0.cancelled)
      && SweepProgress(i, s0, Now(), !keepGoing, behaviour)
    }

    /** One step of a sweep: call the listener of slot `i` when the slot is live. */
    method Visit(i: nat, ghost s0: Snapshot<K, V, L>)
      requires Swept(i, s0) && keepGoing && i < |s0.slots|
      modifies this
      decreases 5
      ensures Swept(i + 1, s0)
      ensures Silent() ==> keepGoing
    {
      ghost var s1 := Now();
      if Live(slots[i]) {
        assert slots[i].handle !in cancelled;
        Invoke(i);
        assert s1.value == value;
        ProgressNotify(i, s0, s1, Now(), !keepGoing, behaviour);
      } else {
        ProgressSkip(i, s0, s1, behaviour);
      }
    }

    /** Nothing of the store changed. */
    twostate predicate Untouched()
      reads this
    {
      && value == old(value) && nextValue == old(nextValue) && slots == old(slots)
      && running == old(running) && keepGoing == old(keepGoing) && hasEmpty == old(hasEmpty)
      && nextHandle == old(nextHandle) && settled == old(settled) && trace == old(trace)
      && cancelled == old(cancelled) && listeners == old(listeners)
    }

    /**
     * A reentrant `set` of `patch`: the patch is folded into the pending
     * one and the running sweep is told to stop; no listener is called and
     * nothing else changes.
     */
    twostate predicate Absorbed(patch: map<K, V>)
      reads this
    {
      && nextValue == Some(Accumulate(old(nextValue), patch)) && !keepGoing && running
      && value == old(value) && slots == old(slots) && hasEmpty == old(hasEmpty)
      && nextHandle == old(nextHandle) && cancelled == old(cancelled) && listeners == old(listeners)
      && settled == Apply(old(settled), patch) && trace == old(trace) + [Submit(patch)]
    }

    /**
     * The first step of a non-empty `set`: fold `patch` into the pending
     * patch and log it as accepted. Everything but the ownership
     * bookkeeping of the store stays consistent.
     */
    method Merge(patch: map<K, V>)
      requires Valid()
      modifies this`nextValue, this`settled, this`trace
      ensures SlotsInvariant(slots, listeners, hasEmpty, cancelled.Keys) && nextHandle == |listeners|
      ensures CancelLog(trace, cancelled, nextHandle)
      ensures Settled(value, nextValue) == settled
      ensures nextValue == Some(Accumulate(old(nextValue), patch))
      ensures settled == Apply(old(settled), patch) && trace == old(trace) + [Submit(patch)]
    {
      SettledAccumulate(value, nextValue, patch);
      CancelLogSubmit(trace, cancelled, nextHandle, patch);
      nextValue := Some(Accumulate(nextValue, patch));
      settled := Apply(settled, patch);
      trace := trace + [Submit(patch)];
    }

    /**
     * `set`. An empty patch changes nothing. Otherwise the patch is folded
     * into the pending one; a reentrant call stops there and aborts the
     * running sweep, and a call from outside becomes the pass owner. Either
     * way, what the store settles on is what it settled on before with every
     * patch accepted during the call applied, in order of acceptance.
     */
    method Set(patch: map<K, V>)
      requires Valid()
      modifies this
      decreases if running then 0 else 12
      ensures Valid() && old(trace) <= trace
      ensures settled == AppliedSince(old(settled), trace, |old(trace)|)
      ensures !old(running) && !running ==> value == AppliedSince(old(value), trace, |old(trace)|)
      ensures |patch| == 0 ==> Untouched()
      ensures |patch| > 0 && old(running) ==> Absorbed(patch)
      ensures |patch| > 0 && !old(running) ==>
                && old(trace) + [Submit(patch)] <= trace && old(listeners) <= listeners
                && PassOutcome(|old(trace)| + 1, old(nextHandle), Apply(old(settled), patch), old(cancelled))
      // with no listener setting anything, the pass ends with exactly the patch applied
      ensures |patch| > 0 && !old(running) && fuel > 0 && NoSubmit(trace, |old(trace)| + 1) ==>
                !running && nextValue.None? && value == Apply(old(value), patch)
    {
      if |patch| == 0 {
        AppliedSinceNoSubmit(settled, trace, |trace|);
      } else if running {
        AppliedSinceSubmit(settled, trace, patch);
        Absorb(patch);
      } else {
        Own(patch);
      }
    }

    /** A reentrant `set` of a non-empty patch: fold it in and tell the running sweep to stop. */
    method Absorb(patch: map<K, V>)
      requires Valid() && running
      modifies this
      ensures Valid() && Absorbed(patch)
    {
      Merge(patch);
      keepGoing := false;
    }

    /** A `set` of a non-empty patch from outside any pass: fold it in and run the pass. */
    method Own(patch: map<K, V>)
      requires Valid() && !running
      modifies this
      decreases 11
      ensures Valid()
      ensures old(trace) + [Submit(patch)] <= trace && old(listeners) <= listeners
      ensures PassOutcome(|old(trace)| + 1, old(nextHandle), Apply(old(settled), patch), old(cancelled))
      ensures settled == AppliedSince(old(settled), trace, |old(trace)|)
      ensures fuel > 0 && NoSubmit(trace, |old(trace)| + 1) ==>
                !running && nextValue.None? && value == Apply(old(value), patch)
    {
      Merge(patch);
      ghost var t1 := trace;
      running := true;
      Pass();
      AppliedSinceSubmit(old(settled), old(trace), patch);
      AppliedSinceSplit(old(settled), t1, trace, |old(trace)|);
      if NoSubmit(trace, |t1|) {
        AppliedSinceNoSubmit(Apply(old(settled), patch), trace, |t1|);
      }
    }

    /**
     * Every slot subscribed before handle `h0` whose unsubscribe function was
     * not called was called, from log position `t0` on, with the current
     * value, and its listener sets nothing when handed that value: the
     * value is stable.
     */
    ghost predicate Stable(t0: nat, h0: nat)
      reads this
    {
      StableIn(Now(), t0, h0, behaviour)
    }

    /**
     * What a pass leaves behind that started at log position `t0` with next
     * handle `h0`, settled value `s0` and unsubscribe record `c0`. Either
     * the pass ended, or the model stopped following it with a patch still
     * pending; it always ends when no listener sets anything. What the
     * store settles on is `s0` with every patch accepted during the pass
     * applied, in order. When the pass ended, its final value is stable for
     * every subscription made before it and not unsubscribed.
     */
    ghost predicate PassOutcome(t0: nat, h0: nat, s0: map<K, V>, c0: map<nat, nat>)
      reads this
    {
      && t0 <= |trace| && nextHandle >= h0
      && (running ==> nextValue.Some?)
      && (fuel > 0 && NoSubmit(trace, t0) ==> !running)
      && settled == AppliedSince(s0, trace, t0)
      && (Silent() ==> NoSubmit(trace, t0))
      && (Loyal() ==> cancelled == c0)
      && (!running ==> Stable(t0, h0))
      // a pass in which nobody set anything was one sweep, in subscription order, with the final value
      && (!running && NoSubmit(trace, t0) ==> Calls(trace, t0, value, h0))
      // the value is that of the pass's last round, reached from `s0` through rounds each stopped by a
      // listener that set something; a pass still running spent its fuel and was stopped again
      && (fuel > 0 ==> exists n: nat :: n < fuel && AfterStops(s0, n, value, behaviour)
                                   && (running ==> n == fuel - 1 && Stops(value, settled, behaviour)))
      // every listener called had the unsubscribe functions it called on handles handed out at the time take
      // effect, before the next listener was called, and no other handle was newly unsubscribed
      && UnsubscribesKept(trace, t0, c0.Keys, cancelled.Keys, h0, behaviour)
    }

    /**
     * One round of the apply loop: apply the pending patch to the value,
     * clear it, compact, sweep with the new value, and let the next sweep go on. The round leaves a
     * patch pending exactly when a listener set one; when it leaves none,
     * the new value is stable for every subscription made before the round.
     */
    method Round()
      requires Valid() && running && keepGoing && nextValue.Some?
      modifies this
      decreases 8
      ensures Valid() && running && keepGoing
      ensures value == Apply(old(value), old(nextValue).value)
      ensures Grown(Compact(old(slots)), slots, old(nextHandle), cancelled.Keys) && nextHandle >= old(nextHandle)
      ensures old(listeners) <= listeners && old(cancelled).Keys <= cancelled.Keys
      ensures Loyal() ==> cancelled == old(cancelled)
      ensures old(trace) <= trace
      ensures settled == AppliedSince(old(settled), trace, |old(trace)|)
      ensures nextValue.None? <==> NoSubmit(trace, |old(trace)|)
      ensures Silent() ==> NoSubmit(trace, |old(trace)|)
      ensures Calls(trace, |old(trace)|, value, old(nextHandle))
      ensures nextValue.None? ==> Stable(|old(trace)|, old(nextHandle))
      // a round that leaves a patch pending was stopped by a listener, whose patches the next round's value holds
      ensures nextValue.Some? ==> Stops(value, settled, behaviour)
      // every listener called had the unsubscribe functions it called on handles handed out at the time take
      // effect, before the next listener was called, and only those handles were newly unsubscribed
      ensures UnsubscribesKept(trace, |old(trace)|, old(cancelled).Keys, cancelled.Keys, old(nextHandle), behaviour)
    {
      Advance();
      ghost var sm := Now();
      Sweep();
      keepGoing := true;
      if nextValue.None? {
        SweptStable(sm.slots, sm.listeners, sm.cancelled.Keys, Now(), |old(trace)|, old(nextHandle), behaviour);
      }
    }

    /** The start of a round: apply the pending patch to the value, clear it, and compact. */
    method Advance()
      requires Valid() && running && keepGoing && nextValue.Some?
      modifies this`value, this`nextValue, this`slots, this`hasEmpty
      ensures Valid() && running && keepGoing && nextValue.None?
      ensures value == Apply(old(value), old(nextValue).value)
      ensures slots == Compact(old(slots)) && !hasEmpty
    {
      TakePending();
      Clean();
    }

    /** Apply the pending patch to the value and clear it; the store settles on the same value. */
    method TakePending()
      requires Valid() && running && nextValue.Some?
      modifies this`value, this`nextValue
      ensures Valid() && nextValue.None?
      ensures value == Apply(old(value), old(nextValue).value)
    {
      value := Apply(value, nextValue.value);
      nextValue := None;
    }

    /**
     * What holds after `rounds` rounds of a pass that started with log
     * `t`, listeners `ls`, next handle `h0`, settled value `s0` and
     * unsubscribe record `c0`.
     */
    ghost predicate Looping(t: seq<Event<K, V, L>>, ls: seq<L>, h0: nat, s0: map<K, V>, c0: map<nat, nat>, rounds: nat)
      reads this
    {
      && t <= trace && ls <= listeners && nextHandle >= h0
      && (Loyal() ==> cancelled == c0)
      && (rounds == 0 ==> nextValue.Some? && trace == t && nextHandle == h0)
      && (nextValue.Some? && rounds > 0 ==> !NoSubmit(trace, |t|))
      && settled == AppliedSince(s0, trace, |t|)
      && (Silent() ==> NoSubmit(trace, |t|))
      && (nextValue.None? ==> Stable(|t|, h0))
      && (rounds > 0 && NoSubmit(trace, |t|) ==> Calls(trace, |t|, value, h0))
      && (rounds > 0 ==> AfterStops(s0, rounds - 1, value, behaviour))
      && (rounds > 0 && nextValue.Some? ==> Stops(value, settled, behaviour))
      && UnsubscribesKept(trace, |t|, c0.Keys, cancelled.Keys, h0, behaviour)
    }

    /** One more round of the apply loop keeps what the loop knows. */
    method Repeat(ghost t: seq<Event<K, V, L>>, ghost ls: seq<L>, ghost h0: nat, ghost s0: map<K, V>, ghost c0: map<nat, nat>,
                  rounds: nat) returns (next: nat)
      requires Valid() && running && keepGoing && nextValue.Some?
      requires Looping(t, ls, h0, s0, c0, rounds)
      modifies this
      decreases 9
      ensures Valid() && running && keepGoing && next == rounds + 1
      ensures Looping(t, ls, h0, s0, c0, next)
    {
      next := rounds + 1;
      ghost var p := Now();
      Round();
      Continued(p, t, ls, h0, s0, c0, rounds);
    }

    /**
     * A round that followed `rounds` rounds of the apply loop makes
     * `rounds + 1`; `p` is the store as the round found it.
     */
    lemma Continued(p: Snapshot<K, V, L>, t: seq<Event<K, V, L>>, ls: seq<L>, h0: nat, s0: map<K, V>, c0: map<nat, nat>,
                    rounds: nat)
      // what the loop knew before the round (see `Looping`)
      requires CancelLog(p.trace, p.cancelled, p.nextHandle)
      requires t <= p.trace && ls <= p.listeners && p.nextHandle >= h0
      requires Loyal() ==> p.cancelled == c0
      requires rounds == 0 ==> p.trace == t && p.nextHandle == h0
      requires rounds > 0 ==> !NoSubmit(p.trace, |t|)
      requires p.settled == AppliedSince(s0, p.trace, |t|)
      requires Silent() ==> NoSubmit(p.trace, |t|)
      requires rounds > 0 ==> AfterStops(s0, rounds - 1, p.value, behaviour) && Stops(p.value, p.settled, behaviour)
      requires UnsubscribesKept(p.trace, |t|, c0.Keys, p.cancelled.Keys, h0, behaviour)
      // what the round did (see `Round`)
      requires Valid() && running && keepGoing && value == p.settled
      requires p.listeners <= listeners && p.cancelled.Keys <= cancelled.Keys && nextHandle >= p.nextHandle
      requires Loyal() ==> cancelled == p.cancelled
      requires p.trace <= trace
      requires settled == AppliedSince(p.settled, trace, |p.trace|)
      requires nextValue.None? <==> NoSubmit(trace, |p.trace|)
      requires Silent() ==> NoSubmit(trace, |p.trace|)
      requires Calls(trace, |p.trace|, value, p.nextHandle)
      requires nextValue.None? ==> Stable(|p.trace|, p.nextHandle)
      requires nextValue.Some? ==> Stops(value, settled, behaviour)
      requires UnsubscribesKept(trace, |p.trace|, p.cancelled.Keys, cancelled.Keys, p.nextHandle, behaviour)
      ensures Looping(t, ls, h0, s0, c0, rounds + 1)
    {
      AppliedSinceSplit(s0, p.trace, trace, |t|);
      NoSubmitSplit(p.trace, trace, |t|);
      if nextValue.None? {
        StableWeaken(Now(), |t|, |p.trace|, h0, p.nextHandle, behaviour);
      }
      if rounds == 0 {
        AppliedSinceNoSubmit(s0, t, |t|);
      } else {
        assert AfterStops(s0, rounds - 1, p.value, behaviour) && Stops(p.value, value, behaviour);
      }
      KeptJoin(p.trace, trace, |t|, c0.Keys, p.cancelled, p.nextHandle, cancelled, nextHandle, h0, p.nextHandle,
               behaviour);
    }

    /**
     * The apply loop of the pass owner: while a patch is pending, apply it
     * to the value, clear it, compact, sweep; then release ownership. The
     * model follows at most `fuel` rounds; past that the store stays
     * `running` with the patch pending, where the source would go on looping.
     */
    method Pass()
      requires Valid() && running && keepGoing && nextValue.Some?
      modifies this
      decreases 10
      ensures Valid() && old(trace) <= trace && old(listeners) <= listeners
      ensures PassOutcome(|old(trace)|, old(nextHandle), old(settled), old(cancelled))
    {
      Begun();
      var rounds := 0;
      while nextValue.Some? && rounds < fuel
        invariant Valid() && running && keepGoing && rounds <= fuel
        invariant Looping(old(trace), old(listeners), old(nextHandle), old(settled), old(cancelled), rounds)
        decreases fuel - rounds
      {
        rounds := Repeat(old(trace), old(listeners), old(nextHandle), old(settled), old(cancelled), rounds);
      }
      if nextValue.None? {
        Release(old(trace), old(listeners), old(nextHandle), old(settled), old(cancelled), rounds);
      } else {
        Concluded(old(trace), old(listeners), old(nextHandle), old(settled), old(cancelled), rounds);
      }
    }

    /** The apply loop ran out of pending patches: release ownership, which concludes the pass. */
    method Release(ghost t: seq<Event<K, V, L>>, ghost ls: seq<L>, ghost h0: nat, ghost s0: map<K, V>,
                   ghost c0: map<nat, nat>, ghost rounds: nat)
      requires Valid() && running && keepGoing && nextValue.None?
      requires Looping(t, ls, h0, s0, c0, rounds) && rounds <= fuel
      modifies this`running
      ensures Valid() && !running
      ensures PassOutcome(|t|, h0, s0, c0)
    {
      running := false;
      Concluded(t, ls, h0, s0, c0, rounds);
    }

    /** Before its first round, the apply loop knows what it started from. */
    lemma Begun()
      requires Valid() && nextValue.Some?
      ensures Looping(trace, listeners, nextHandle, settled, cancelled, 0)
    {
      AppliedSinceNoSubmit(settled, trace, |trace|);
    }

    /** The apply loop that stopped after `rounds` rounds, and released ownership unless a patch is pending, concluded the pass. */
    lemma Concluded(t: seq<Event<K, V, L>>, ls: seq<L>, h0: nat, s0: map<K, V>, c0: map<nat, nat>, rounds: nat)
      requires Looping(t, ls, h0, s0, c0, rounds) && rounds <= fuel
      requires (running <==> nextValue.Some?) && (rounds < fuel ==> nextValue.None?)
      ensures PassOutcome(|t|, h0, s0, c0)
    {
      if fuel > 0 {
        assert rounds > 0 && AfterStops(s0, rounds - 1, value, behaviour);
      }
    }
  }
}
