# A verified model of the `createStore` engine

`createStore` (`src/store.ts`) is a small synchronous state container. It
holds a current value (a map from field names to data) and one pending
patch. Every update made while a notification pass is running is merged
into that pending patch. It also holds a subscriber list whose slots are
tombstoned on unsubscribe and compacted lazily. This project models the
engine as a Dafny class `StoreEngine.Store` whose fields are the engine's
closure variables:

- `value` and `nextValue`;
- `running`, the pass-owner flag;
- `keepGoing`, the sweep-abort flag;
- `hasEmpty`, which means compaction is pending;
- `slots`, the subscriber list.

The methods are the engine's functions (`clean`, `get`, `set`, `subscribe`
and the returned `unsubscribe`), written as the same step-by-step updates.
`clean` is an in-place loop over the slot list. The apply loop is a `while`
loop around the sweep's loop.

Listeners are ids of type `L`. The store's `behaviour` maps a listener and a
value to a script of calls into the store (`set`, `subscribe` or an
unsubscribe function). A sweep runs each script inline through the same
entry points an outside caller uses, so reentrancy is modelled as the
source has it. For example, a listener's `set` reaches `Set` while
`running` holds.

For the proofs the store also keeps some ghost state:

- `trace`: a log of listener calls, accepted patches and unsubscribe calls;
- `settled`: the value the store settles on, that is, the current value with the pending patch applied;
- `cancelled`: where in the log each slot was first unsubscribed;
- `listeners`: the listener each handed-out handle was subscribed with.

`settled` is tied to the log. Every `set` leaves `settled` equal to its old
value with every patch accepted during the call applied, in order of
acceptance (`Trace.AppliedSince`, which is `Patch.ApplyAll` over the
accepted patches of the log). When no pass runs, `settled` is the current
value.

The log is tied to the listeners' scripts:

- When a listener is called, the patches accepted in the log after that call are exactly the non-empty `set` patches of its script, in order (`SetPatches`), and `settled` gains exactly those (`Invoke`, `RunScript`, `Exec`).
- The listeners its script subscribes are appended (`Subscribes`).
- Every handle its script unsubscribes that is handed out at the time of that unsubscribe call, including one the script subscribed itself a moment earlier, is unsubscribed before the next listener is called, and no other handle is (`Cancels`, `Honoured`, `Prompt`, `Warranted`, together `UnsubscribesKept`). The log records, with each listener call, how many handles were handed out when it was made, so this covers every call of a pass, including calls of listeners that run after earlier ones subscribed new slots. A slot whose unsubscribe function an earlier listener of the pass called is therefore not called later in the pass.
- A round that a listener's `set` stopped hands the next round its own value with the patches of a script that sets something for that value applied (`Stops`, proved by `Sweep` and `Round`).
- The value a pass ends with is reached from the patched value through such rounds (`AfterStops`, in `Pass`).

Modules:

- `Patch`: the shallow right-biased merge, pending-patch accumulation, and runs of patches.
- `Slots`: slots, compaction, tombstoning and the list invariant.
- `Trace`: the event log, the patches it accepted, and its consistency with unsubscribe calls.
- `Notification`: listener scripts, the effect of a listener's calls on the store, and the progress of a sweep, stated over plain values.
- `StoreEngine`: the store class.
- `Scenarios`: small stores, each verified:
  - a counter;
  - three listeners called in order;
  - a listener whose own `set` aborts a sweep;
  - a listener whose `set` during the sweep is merged into the final value;
  - a listener that unsubscribes itself;
  - a listener that unsubscribes a later slot before that slot's turn;
  - a listener that subscribes a slot and unsubscribes it in the same call.
- `Wrappers`: `Option`.

Two behaviours of the code are stated directly:

- A slot appended during a sweep is never visited by that sweep. The bound is fixed at line 55 before the sweep starts. `StoreEngine.Store.Sweep` proves that a sweep calls only slots that existed when it started.
- The code has no `try`/`finally` around the apply loop, so a listener that throws would leave `running` set. Exceptions are left out (see below).

## Model

| member | source | states |
|---|---|---|
| Patch.Apply | src/store.ts:52 | The merge keeps every key of the base and every key of the patch, and patch keys win. |
| Patch.Accumulate | src/store.ts:43-44 | With nothing pending, the new pending patch is the patch itself. Otherwise its keys are the union of both patches' keys: keys of the new patch win and keys only in the older patch are kept. |
| Patch.SettledAccumulate | src/store.ts:43-44 | Folding a patch into the pending one and then applying the result equals applying the old pending patch and then the new one. No accepted key is lost. |
| Patch.ApplyAssociative | src/store.ts:43-52 | Merging a patch into the pending one and applying the result is the same as applying the two one after the other. |
| Patch.ApplyDisjointCommutes | src/store.ts:52 | Patches on disjoint keys can be merged in either order. |
| Patch.ApplyAllConcat | src/store.ts:43-52 | Merging two runs of patches one after the other equals merging their concatenation. The store's contracts compose the rounds of a pass and the calls of a sweep with it (through `Trace.AppliedSinceSplit`). |
| Patch.ApplyAllLastWins | src/store.ts:43-52 | After a run of merges, a key has the value given by the last patch that mentions it. With the `Set` contract, this holds for what the store settles on after a `set`. |
| Patch.ApplyAllUntouched | src/store.ts:43-52 | A key that no patch of a run mentions keeps its presence and its value. With the `Set` contract, this holds for what the store settles on after a `set`. |
| Trace.Submits | src/store.ts:39-44 | The accepted patches of a log, in order, are no more than its events, and a log with no accepted patch has none. |
| Trace.AppliedSince | src/store.ts:43-52 | Applying the patches accepted since a log position never removes a key of the base. |
| Trace.SubmitsConcat | src/store.ts:43-52 | The patches accepted in two stretches of the log are those of the first stretch followed by those of the second. |
| Trace.AppliedSinceSplit | src/store.ts:43-52 | Applying what was accepted up to a point and then what was accepted after it equals applying everything accepted. |
| Trace.AppliedSinceNoSubmit | src/store.ts:39-41 | A stretch of the log with no accepted patch leaves the value as it was. |
| Trace.AppliedSinceSubmit | src/store.ts:43-44 | Accepting one patch applies exactly that patch. |
| Trace.CancelLogOrdered | src/store.ts:57 | In a log consistent with the unsubscribe calls, no listener call of a slot comes after that slot's unsubscribe. |
| Trace.CancelLogKept | src/store.ts:70-73 | A longer log keeps every unsubscribe recorded for a shorter one, at the same position: the first unsubscribe of a slot stays its first. |
| Slots.CompactMember | src/store.ts:21-32 | Compaction keeps exactly the live slots: a slot is in the result if and only if it was in the list and is live. |
| Slots.CompactIncreasing | src/store.ts:21-32 | Compaction keeps the relative order of the slots it keeps. |
| Slots.CompactAllLive | src/store.ts:21-32 | No tombstone is left after compaction. |
| Slots.CompactNoTombstones | src/store.ts:21-32 | A list without tombstones is left unchanged. |
| Slots.CompactIdempotent | src/store.ts:21-32 | Compacting twice is the same as compacting once. |
| Slots.IncreasingUnique | src/store.ts:21-32 | Two lists in subscription order that hold the same slots are equal. |
| Slots.CompactUnique | src/store.ts:21-32 | Any list in subscription order that holds exactly the live slots is the compacted list, so compaction is fully characterised. |
| Slots.CompactKeepsInvariant | src/store.ts:21-32 | Compaction keeps the list invariant, including a live slot for every subscription not unsubscribed, and leaves no tombstone. Without pending compaction the list is already free of tombstones. |
| Slots.Tombstone | src/store.ts:70-73 | Tombstoning keeps the length and every handle, clears the slot with the given handle, and changes nothing else. |
| Slots.TombstoneIdempotent | src/store.ts:70-73 | Tombstoning the same slot twice is the same as tombstoning it once. |
| Slots.AppendKeepsInvariant | src/store.ts:68-69 | Appending a live slot with a fresh handle keeps the list in subscription order, with a live slot for every subscription not unsubscribed. |
| Slots.TombstoneKeepsInvariant | src/store.ts:70-73 | Tombstoning the slot of an unsubscribed handle keeps the list invariant once compaction is marked pending. |
| Slots.GrownAppend | src/store.ts:68-69 | Appending a slot with a new handle moves no existing slot and changes none. |
| Slots.GrownTombstone | src/store.ts:70-73 | Tombstoning the slot of an unsubscribed handle moves no slot, and only that slot loses its listener. |
| Slots.GrownTransitive | src/store.ts:56-58 | Two such growth steps in a row make one: during a sweep no slot below the bound moves, changes listener, or loses it without an unsubscribe call. |
| Notification.SetPatches | src/store.ts:39-48 | The patches a script's `set` calls hand to the store and it accepts are at most one per call, and there are none exactly when the script sets nothing. |
| Notification.Subscribes | src/store.ts:64-69 | The listeners a script subscribes, at most one per call: every one is the listener of a `subscribe` call of the script, and the listener of every `subscribe` call of the script is among them. |
| Notification.Unsubscribes | src/store.ts:70-73 | A handle is among a script's unsubscribes exactly when the script calls its unsubscribe function; there are none exactly when the script unsubscribes nothing. |
| Notification.CancelsWithin | src/store.ts:64-73 | The handles a script unsubscribes while they are handed out are among its unsubscribes, include every unsubscribed handle that was handed out before the script began, and are all below the handle count after the script's own subscriptions. |
| Notification.CancelsMeans | src/store.ts:64-73 | A handle is unsubscribed by a script exactly when the script calls its unsubscribe function at a point where the handles handed out before the script plus those of the script's own earlier `subscribe` calls include it. |
| Notification.CancelsHas | src/store.ts:64-73 | Every handle a script unsubscribes while handed out has an unsubscribe call in the script at a point where the handle was handed out. |
| Notification.CancelsFrom | src/store.ts:64-73 | An unsubscribe call made while its handle was handed out, before the script or by the script's own earlier `subscribe` calls, counts among the script's unsubscribes. |
| Notification.CallEffectScript | src/store.ts:57 | The effect of a script's first call followed by the effect of the rest is the effect of the whole script: the handle count the rest starts from is raised by the first call's subscription. |
| Notification.AccountedTransitive | src/store.ts:57 | The accepted patches, subscriptions and unsubscriptions of two stretches of listener calls in a row add up. |
| Notification.CallEffectNone | src/store.ts:57 | No call has no effect: no patch, no subscription, no unsubscription. |
| Notification.UnsubscribedSinceHas | src/store.ts:57 | Every handle that the script of a listener called since a log position unsubscribes is among the handles unsubscribed since that position. |
| Notification.UnsubscribedSinceFrom | src/store.ts:57 | Conversely, every handle unsubscribed since a log position is unsubscribed by the script of some listener called since then. |
| Notification.UnsubscribedSinceSplit | src/store.ts:51-60 | The handles unsubscribed since a position in a longer log are those of a shorter log plus those of the rest. |
| Notification.UnsubscribedSinceNone | src/store.ts:70-73 | A stretch of the log with no listener call unsubscribes nothing. |
| Notification.UnsubscribedSinceNotify | src/store.ts:57 | One listener call followed by none adds exactly that listener's unsubscribes. |
| Notification.HonouredMeans | src/store.ts:57 | A log is honoured exactly when, for every listener called, every handle its script unsubscribes while handed out (counted from the handles handed out when that listener was called) is unsubscribed. |
| Notification.HonouredNotify | src/store.ts:57 | A listener call whose unsubscribe calls took effect keeps every listener called so far honoured. |
| Notification.HonouredJoin | src/store.ts:51-60 | Two rounds each honouring their listeners' unsubscribe calls make a pass that honours them. |
| Notification.WarrantedNotify | src/store.ts:57 | A listener call that unsubscribes no handle beyond its script's keeps the unsubscribed set within what the listeners called so far unsubscribed. |
| Notification.WarrantedJoin | src/store.ts:51-60 | Two stretches each unsubscribing only what their listeners' scripts unsubscribe make one that does. |
| Notification.PromptMeans | src/store.ts:56-57 | A log is prompt exactly when no listener called is the listener of a handed-out slot that an earlier-called listener's script unsubscribes: the `?.` at line 57 finds that slot empty. |
| Notification.PromptNotify | src/store.ts:56-57 | Calling the listener of a slot that is not unsubscribed keeps an honoured log prompt. |
| Notification.PromptJoin | src/store.ts:51-60 | Two prompt stretches make one, because a slot the first unsubscribed is recorded as such and is never called again. |
| Notification.IssuedBeforeNotify | src/store.ts:56-57 | A listener call made when at least the given number of handles were handed out keeps every call of the stretch recorded with at least that many. |
| Notification.KeptJoin | src/store.ts:51-60 | Two stretches whose unsubscribe calls were kept (honoured, prompt and warranted) make one. This composes the sweeps of a pass. |
| Notification.ProgressStart | src/store.ts:55-56 | A sweep starts with nothing called, nothing accepted and nothing to honour. |
| Notification.ExtendsTransitive | src/store.ts:56-58 | Listener calls in a row keep the value and the old slots in place. What the store settles on is the old settled value with every patch accepted in between applied, in order. |
| Notification.CallEffectSubmit | src/store.ts:43-48 | A reentrant `set` only logs and settles its patch, calls no listener, and stops the sweep. |
| Notification.CallEffectAppend | src/store.ts:64-69 | A `subscribe` during a pass only appends a slot with the next handle. It compacts nothing and does not stop the sweep. |
| Notification.CallEffectCancel | src/store.ts:70-73 | An unsubscribe during a pass only tombstones its slot and records the call. It does not stop the sweep. |
| Notification.CallEffectTransitive | src/store.ts:57 | A listener's calls in sequence have the combined effect of one call. The sweep goes on only if none of them was an accepted `set`. |
| Notification.CallsInOrder | src/store.ts:55-58 | Within the calls of one sweep, a slot with a smaller handle is called before a slot with a larger one, and no slot is called twice. |
| Notification.StableWeaken | src/store.ts:51-60 | A value stable for the subscriptions made before a later round is stable for those made before the pass, counted from the start of the pass. |
| Notification.ProgressNotify | src/store.ts:56-57 | Calling a live slot's listener moves the sweep's progress invariant one index on, including that every listener called so far had its unsubscribes take effect before the next was called and that no other handle was unsubscribed. The sweep has stopped exactly when the listener set something. |
| Notification.ProgressSkip | src/store.ts:56-57 | Skipping a tombstoned slot moves the sweep's progress invariant one index on. |
| Notification.ProgressEnd | src/store.ts:55-58 | At the end of a sweep, every call went to a slot below the bound, with the sweep's value, in order. Every still-live slot of the start was called unless the sweep stopped before it. A sweep that was not stopped called every such slot and only listeners that set nothing. |
| Notification.SweptStable | src/store.ts:54-58 | A sweep over the compacted list that was not stopped leaves the value stable. Every subscription made before it and not unsubscribed was called with the value, and its listener sets nothing for that value. |
| StoreEngine.Store.constructor | src/store.ts:12-19 | A new store holds the initial value. Nothing is pending, no pass runs, the list is empty and no compaction is pending. |
| StoreEngine.Store.Get | src/store.ts:34-36 | `get` returns the current value and changes nothing. When no pass runs, that value is what the store settled on: the value with every accepted patch applied in order. |
| StoreEngine.Store.SilentAfterUnsubscribe | src/store.ts:70-73 | In the log, no listener call of a slot comes after a logged call of that slot's unsubscribe function. Every unsubscribe call, from outside or from a listener, is logged (`Unsubscribe`, `ListenerUnsubscribe`). |
| StoreEngine.Store.Clean | src/store.ts:21-32 | The list becomes its compaction: exactly the live slots, in order. With no compaction pending it is unchanged. Afterwards no compaction is pending and the store invariant holds. |
| StoreEngine.Store.CompactInPlace | src/store.ts:24-30 | The in-place loop (move each live slot down to `lazy`, then cut the list at `lazy`) leaves exactly the compaction of the old list. |
| StoreEngine.Store.Subscribe | src/store.ts:64-69 | One live slot with a fresh handle is appended. The list is compacted first only when no pass runs. Nothing else changes, including the pending-compaction flag during a pass. |
| StoreEngine.Store.Append | src/store.ts:68-69 | The new live slot goes at the end of the list with the next handle, and the store invariant holds. |
| StoreEngine.Store.Unsubscribe | src/store.ts:70-73 | Compaction becomes pending and the slot with that handle is tombstoned wherever it now stands. A second call leaves the list as it is. The call is logged. |
| StoreEngine.Store.Exec | src/store.ts:57 | A call a listener makes into the store leaves the value and the slots below the sweep's bound in place, and calls no listener. A non-empty `set` is absorbed: it is logged as the one accepted patch and settled on, and it alone clears `keepGoing`; an empty one changes nothing. A `subscribe` appends exactly one live slot with the next handle. An unsubscribe of a handed-out handle tombstones that slot and logs and records the call; any other changes nothing. |
| StoreEngine.Store.ListenerSet | src/store.ts:45-48 | A listener's `set` during a sweep: an empty patch changes nothing, and a non-empty one is absorbed into the pending patch and stops the sweep. |
| StoreEngine.Store.ListenerSubscribe | src/store.ts:64-69 | A listener's `subscribe` during a sweep appends one live slot with the next handle and records its listener. It compacts nothing, logs nothing, accepts no patch and does not stop the sweep. |
| StoreEngine.Store.ListenerUnsubscribe | src/store.ts:70-73 | A listener's call of the unsubscribe function of a handed-out handle tombstones that slot, marks compaction pending, logs the call and records the handle as unsubscribed. Nothing else changes and the sweep goes on. A handle never handed out changes nothing. |
| StoreEngine.Store.RunScript | src/store.ts:57 | A listener's calls, one after the other, have the combined effect. The patches accepted are exactly the script's non-empty `set` patches, in order, and are settled on. The listeners subscribed are those of the script, in order. Every handle the script unsubscribes while it is handed out, including one the script subscribed itself, is unsubscribed, and no other. The sweep goes on exactly when none of the calls was a non-empty `set`. |
| StoreEngine.Store.Invoke | src/store.ts:57 | The listener is logged as called with the current value, and its calls into the store then run. The value stays, and slots below the sweep's bound neither move nor change listener. The patches accepted after the call are exactly its script's `set` patches, and `settled` gains them in order. The listeners it subscribes are appended. The log records how many handles were handed out when it was called. The unsubscribed set grows by exactly the handles its script unsubscribes while they are handed out, including ones it subscribed itself. `keepGoing` is cleared exactly when its script sets something. |
| StoreEngine.Store.Visit | src/store.ts:56-57 | One step of the sweep: a tombstoned slot is skipped and a live slot's listener is called. The sweep's progress invariant moves one index on. |
| StoreEngine.Store.Sweep | src/store.ts:55-58 | Only slots that existed when the sweep started are called, all with the sweep's value, in list order and each at most once. Once a reentrant `set` is accepted no further listener is called. Every still-live slot below the bound was called unless the sweep stopped before it. A sweep that was not stopped called only listeners that set nothing. A stopped sweep settles on its value with the `set` patches of a listener script that sets something for that value applied. Every handle a called listener unsubscribes while it is handed out, including one subscribed during the sweep, is unsubscribed before the next listener is called, so no later call of the sweep goes to it. No other handle is newly unsubscribed. |
| StoreEngine.Store.Merge | src/store.ts:43-44 | The pending patch becomes the accumulation of the old pending patch and the new one. The patch is logged as accepted and settled on. |
| StoreEngine.Store.Set | src/store.ts:38-62 | An empty patch changes nothing and calls no listener, whether or not a pass runs. A reentrant call only merges into the pending patch and clears `keepGoing`: no listener is called and no second loop starts. A call from outside runs the pass (see `Pass`). Either way, what the store settles on is its old settled value with every patch accepted during the call applied in order. After an outside call that ends its pass, the value is the old value with those patches applied. If no listener set anything, the pass ends with exactly the patch applied to the value. The pass keeps the listeners' unsubscribe calls as `Pass` states. |
| StoreEngine.Store.Absorb | src/store.ts:45-48 | The reentrant path: the pending patch absorbs the new one and the sweep is told to stop. The value and the slots are untouched and no listener is called. |
| StoreEngine.Store.Own | src/store.ts:49-61 | The pass-owner path: merge, take ownership, then run the pass. The settled value gains the patch and then every patch accepted during the pass, in order. With fuel, the value is that of the pass's last round, reached from the patched value through rounds each stopped by a listener script whose `set` patches it applies (`Set` and `Pass` give the same outcome). The unsubscribe calls of the listeners called during the pass, including those of handles subscribed during the pass, take effect before the next listener is called, and are the only new ones. |
| StoreEngine.Store.Pass | src/store.ts:50-61 | The apply loop runs rounds while a patch is pending, and ownership is released exactly when nothing is pending. The pass ends when no listener sets anything. What the store settles on gains every patch accepted during the pass, in order. With fuel, the value is reached from the first round's value through rounds each stopped by a listener script whose `set` patches it applies. A pass still running spent its fuel, with its last round stopped again. When the pass has ended, every subscription made before it and not unsubscribed was called with the final value, and its listener sets nothing for it. A pass in which nobody set anything was one sweep in subscription order with the final value. Every handle a called listener unsubscribed while it was handed out, including one subscribed during the pass, is unsubscribed before the next listener was called, so an earlier listener's unsubscribe skips a later slot in every round after it. No other handle is newly unsubscribed. |
| StoreEngine.Store.Repeat | src/store.ts:51-60 | One more round of the apply loop keeps the loop's invariant. The patches accepted so far are settled on. The round's value follows from the first round's value through stopped rounds. When nothing is pending, the value is stable for every subscription made before the pass. The listeners' unsubscribe calls since the pass began were kept. |
| StoreEngine.Store.Continued | src/store.ts:51-60 | What the apply loop knows after some rounds, together with what one more round does, is what it knows after one round more. |
| StoreEngine.Store.Begun | src/store.ts:50-51 | Before its first round, the apply loop has accepted nothing since the pass began and its invariant holds. |
| StoreEngine.Store.Release | src/store.ts:61 | Ownership is released once no patch is pending, and the pass's outcome holds. |
| StoreEngine.Store.Visits | src/store.ts:55-57 | The loop of a sweep keeps the sweep's progress invariant and ends at the length fixed at the start or once a listener's `set` stopped the sweep. |
| StoreEngine.Store.Round | src/store.ts:52-59 | One round: the value becomes the value with the pending patch applied, and the pending patch is cleared. The list is compacted and swept, and may have grown by tombstones of unsubscribed slots and by new slots. Every listener called in the round gets the new value, in order. A patch is left pending exactly when a listener set one, and then the next round's value is this one with the `set` patches of a script that sets something for it applied. If none is left, the new value is stable for every subscription made before the round. Every handle a called listener unsubscribed while it was handed out, including one subscribed during the pass, is unsubscribed before the next listener was called, and no other handle is newly unsubscribed. |
| StoreEngine.Store.Advance | src/store.ts:52-54 | The start of a round: the pending patch is applied to the value and cleared, and the list is compacted. |
| StoreEngine.Store.TakePending | src/store.ts:52-53 | The pending patch is applied to the value and cleared, and what the store settles on stays the same. |
| StoreEngine.Store.Concluded | src/store.ts:51-61 | When the apply loop stops, after at most `fuel` rounds and with ownership released unless a patch is pending, the pass's outcome holds: the value is reached from the first round's value through stopped rounds, and a pass still running spent its fuel. |
| Scenarios.QuietSet | src/store.ts:50-61 | With listeners that never call `set` or an unsubscribe function, an outside `set` ends its pass after one round with exactly the patch applied. It called every subscription made before it and not unsubscribed, in subscription order, once each, with the new value, and no other slot. |
| Scenarios.CounterFirst | src/store.ts:38-62 | On a counter with one listener, `set({count: 1})` calls the listener with `{count: 1}` in one sweep, and the following `set({})` changes nothing. |
| Scenarios.CounterSecond | src/store.ts:38-73 | After an unsubscribe, `set({count: 2})` gives `{count: 2}` and does not call the unsubscribed listener. |
| Scenarios.CalledOnce | src/store.ts:55-58 | In a log with one sweep over slot 0, followed by slot 0's unsubscribe and no call of slot 0 after it, the call of slot 0 in the sweep is its only one. |
| Scenarios.CounterScenario | src/store.ts:34-73 | The store is created with `{count: 0}`. After one subscribe, `set({count: 1})`, `get()`, `set({})`, unsubscribe, `set({count: 2})` and `get()`, the gets give `{count: 1}` and `{count: 2}`. No pass is left running. The listener was called exactly once, with `{count: 1}`, before its unsubscribe. |
| Scenarios.ThreeInOrder | src/store.ts:55-58 | When one sweep reached the three slots 0, 1 and 2, it reached them in that order. |
| Scenarios.InOrder | src/store.ts:55-69 | Three listeners subscribed in the order 10, 20, 30, then `set({x: 0})`: each is called with `{x: 0}`, in subscription order, and the pass was that one sweep. |
| Scenarios.Echo | src/store.ts:45-48 | Listener 1's script sets `x` to 1 exactly when it is handed a value whose `x` is not 1. No listener unsubscribes. |
| Scenarios.EchoSettled | src/store.ts:51-60 | A value stable for the two `Echo` listeners has `x` equal to 1 and reached both of them. |
| Scenarios.ReentrantAbort | src/store.ts:45-60 | Listeners 1 and 2 subscribed, then `set({x: 0})`. Listener 1's own `set` aborts the sweep and starts another round. The pass ends within its two rounds, `get()` gives a value with `x` equal to 1, and both listeners were called with that final value. |
| Scenarios.OutsideSet | src/store.ts:38-62 | An outside `set` of a non-empty patch with fuel leaves a value reached from the patched value through stopped rounds. Unless the pass still runs, the value is stable for every earlier subscription. Every called listener's unsubscribes took effect before the next listener was called, and were the only new ones. With listeners that never set, the pass ends with exactly the patch applied. |
| Scenarios.SilentSet | src/store.ts:38-62 | With listeners that never call `set`, an outside `set` ends its pass after one round with exactly the patch applied. It was one sweep in subscription order with the new value, stable for every earlier subscription not unsubscribed, and every called listener's unsubscribes took effect before the next listener was called. |
| Scenarios.EchoStop | src/store.ts:45-52 | A round that the `Echo` listener stopped hands the next round a value with `x` equal to 1. |
| Scenarios.EchoFixed | src/store.ts:56-57 | No `Echo` listener stops a round whose value has `x` equal to 1. |
| Scenarios.EchoPassEnds | src/store.ts:51-61 | A pass of the `Echo` store with fuel 2 started from `{x: 0}` has ended. |
| Scenarios.EchoSet | src/store.ts:38-62 | `set({x: 0})` on the `Echo` store ends its pass, with a value stable for listeners 1 and 2. |
| Scenarios.Bump | src/store.ts:45-48 | The listener's script sets `{a: 2, b: 3}` exactly when it is handed a value with `a` equal to 1, and never unsubscribes. |
| Scenarios.BumpStop | src/store.ts:43-52 | A round with value `{a: 1}` that a `Bump` listener stopped hands the next round `{a: 2, b: 3}`. |
| Scenarios.BumpFixed | src/store.ts:56-57 | No `Bump` listener stops a round whose value does not have `a` equal to 1. |
| Scenarios.BumpSettled | src/store.ts:51-60 | A value stable for the `Bump` listener does not have `a` equal to 1. |
| Scenarios.BumpAfter | src/store.ts:51-60 | In a pass of the `Bump` store started from `{a: 1}`, the first round has `a` equal to 1 and the second has the value `{a: 2, b: 3}`. |
| Scenarios.BumpPassEnds | src/store.ts:51-61 | A pass of the `Bump` store with fuel 2 started from `{a: 1}` has ended with `{a: 2, b: 3}`. |
| Scenarios.BumpSet | src/store.ts:38-62 | `set({a: 1})` on `{a: 0}` with the `Bump` listener ends its pass with `{a: 2, b: 3}`. |
| Scenarios.MergedReentrantSet | src/store.ts:38-62 | `createStore` with `{a: 0}`, one listener that sets `{a: 2, b: 3}` when it sees `a` equal to 1, then `set({a: 1})`: the pass ends and `get()` gives `{a: 2, b: 3}`, so the listener's patch is merged in. |
| Scenarios.Leave | src/store.ts:70-73 | Each listener's script is one call of its own unsubscribe function. It sets nothing. |
| Scenarios.LeaveCalled | src/store.ts:57 | If listener 0 was called and its unsubscribe call took effect, handle 0 is unsubscribed. |
| Scenarios.LeaveGone | src/store.ts:51-61 | After a pass that ended, the `Leave` listener subscribed first has unsubscribed itself. |
| Scenarios.LeaveSet | src/store.ts:38-73 | `set({x: 0})` on the `Leave` store ends the pass with `{x: 0}`, and the listener has unsubscribed itself. |
| Scenarios.LeaveFirst | src/store.ts:38-73 | Create the `Leave` store, subscribe listener 0, and `set({x: 0})`: handle 0 is unsubscribed, and the log holds that unsubscribe. |
| Scenarios.SecondSet | src/store.ts:38-62 | `set({x: 1})` on a store at `{x: 0}` whose listeners never set ends its pass with `{x: 1}`, and no listener call follows its own slot's unsubscribe in the log. |
| Scenarios.NoCallFrom | src/store.ts:70-73 | A log that holds the unsubscribe of a slot has no call of that slot after it, so none in any later stretch. |
| Scenarios.SelfUnsubscribe | src/store.ts:38-73 | A listener that calls its own unsubscribe function is subscribed, then `set({x: 0})` and `set({x: 1})`: the first leaves it unsubscribed, the second does not call it, and `get()` gives `{x: 1}`. |
| Scenarios.Prune | src/store.ts:70-73 | Listener 0's script calls the unsubscribe function of slot 1; every other listener's script is empty. Nobody sets anything. |
| Scenarios.PruneSpares | src/store.ts:70-73 | However often `Prune` listeners are called, they unsubscribe slot 1 and no other. |
| Scenarios.PruneSkips | src/store.ts:55-58 | After a one-round pass over slots 0 and 1 of the `Prune` store, slot 0 was called, slot 1 was unsubscribed, and slot 1 was never called, although its turn came after slot 0's. |
| Scenarios.PruneSet | src/store.ts:38-62 | `set({x: 0})` on the `Prune` store gives `{x: 0}`, calls listener 0, and never calls listener 1. |
| Scenarios.UnsubscribeAhead | src/store.ts:38-73 | Subscribe listener 0, which unsubscribes slot 1 when called, and listener 1, then `set({x: 0})`: the log holds the accepted patch, listener 0 is called, slot 1 is unsubscribed, and no call of slot 1 follows the `set`. |
| Scenarios.Spawn | src/store.ts:64-73 | Listener 0's script subscribes listener 1 and then calls the unsubscribe function of slot 1; every other listener's script is empty. Nobody sets anything. |
| Scenarios.SpawnCancels | src/store.ts:64-73 | Called when slot 0 is handed out, listener 0 unsubscribes slot 1, the slot it subscribed itself in the same call. |
| Scenarios.SpawnSpares | src/store.ts:70-73 | However often `Spawn` listeners are called, they unsubscribe slot 1 and no other. |
| Scenarios.SpawnGone | src/store.ts:51-73 | After a one-round pass of the `Spawn` store begun with only slot 0 handed out, slot 1, subscribed and unsubscribed during the pass, is recorded as unsubscribed. |
| Scenarios.SpawnSet | src/store.ts:38-73 | `set({x: 0})` on the `Spawn` store ends its pass with `{x: 0}`, and the log holds the unsubscribe of slot 1 at the recorded position. |
| Scenarios.SpawnStore | src/store.ts:64-69 | `createStore(() => ({}))` with `Spawn` listeners and listener 0 subscribed: slot 0 handed out, nothing logged or unsubscribed. |
| Scenarios.ShortLived | src/store.ts:38-73 | Subscribe listener 0 of `Spawn`, then `set({x: 0})` and `set({x: 1})`: the first pass logs the unsubscribe of slot 1, which it subscribed itself, the second never calls slot 1, and `get()` gives `{x: 1}`. |
| Scenarios.ThreeSet | src/store.ts:38-62 | `set({x: 0})` on the three listeners that only read is one sweep from log position 1 over handles below 3, and leaves `{x: 0}` stable for them. |

## Left out

- The `init` callback (src/store.ts:76). The constructor takes the initial value directly. Calls to `set` or `get` made from inside the initializer are not modelled.
- Listener exceptions. The source has no `try`/`finally`, so after a throw `running` would stay true. The model has no exceptions and claims no recovery.
- `src/store-context.ts` is not part of this model: it is glue over a UI library's context, memoisation and external-store subscription primitives.
- JavaScript object identity and `Object.assign` reference semantics. Values and patches are maps, and shallow key-wise merge is the only operation on them. `get` returning "the same reference" is modelled as returning the same map.
- `Object.keys` on non-object arguments. A patch is always a map, and "has no keys" is `|patch| == 0`.
- A listener is represented by its effect on the store, a script of `set`, `subscribe` and unsubscribe calls that depends on its id and the value it receives. Listener calls to `get` are not in the script, because `get` changes nothing. A script call to the unsubscribe function of a handle never handed out is skipped, since no such function can exist in the source.
- StoreEngine.Store.Pass: termination of the apply loop is not modelled, because listeners can keep setting forever. A pass follows at most `fuel` rounds. If a patch is still pending after that, the model stops following the pass and leaves the store `running` with the patch pending, where the source would loop on.
- StoreEngine.Store.Set: "when the top-level `set` returns, nothing is pending and no pass runs" is proved for passes that end within `fuel` rounds. That always happens when no listener sets anything and `fuel` is at least 1. For other passes, `running` implies that a patch is still pending.
- Scenarios.ReentrantAbort: does not state that listener 2 was skipped for the aborted value `{x: 0}`.
- Notification.Stops: names a listener whose script sets something for the round's value, not the slot whose call stopped the sweep.
