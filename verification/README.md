# A verified model of go-fsm

go-fsm is a finite state machine library for Go. A `Machine` holds a current state and a
transition table, runs guards before and actions after each transition, and broadcasts every
state change to subscribers. The project models its three cores, and the machine that joins
them, and proves what callers rely on.

`dafny verify dfyconfig.toml` checks everything.

## How the model is laid out

| file | what it holds |
|---|---|
| `Basics.dfy` | options, lists of sets, string order, an unstable sort |
| `Table.dfy` | `transitions/config.go`: validation, the index, the sorted views |
| `RegistrySpec.dfy`, `RegistryLaws.dfy` | the hook registry as a registration log, and what its index answers; what that means in terms of the names and lists callers give |
| `GoSlices.dfy`, `Registry.dfy` | `hooks/registry.go` on the heap: slices over shared arrays, snapshots taken by executors, edits at any point of an execution |
| `Machine.dfy` | `fsm.go` under its write lock, and `json.go` |
| `Broadcast.dfy` | `hooks/broadcast/manager.go` as a protocol: one label for each atomic step of each actor |
| `BroadcastSafety.dfy`, `BroadcastDelivery.dfy`, `BroadcastStreams.dfy` | inductive invariants of the protocol: channel safety, delivery records, what is on the channels |
| `BroadcastTheorems.dfy`, `BroadcastPlaces.dfy`, `BroadcastOutcomes.dfy`, `BroadcastServing.dfy` | what follows in every reachable state and over whole runs |
| `BroadcastOptions.dfy`, `BroadcastManager.dfy` | the options, and the manager's own loops as methods of a class whose every execution is a run of the protocol |
| `System.dfy` | the whole machine as concurrent threads over registry, table and manager |
| `SystemLocks.dfy`, `SystemHistory.dfy`, `SystemStream.dfy`, `SystemEcho.dfy` | inductive invariants of the whole: locks, history, broadcast log, greetings |
| `SystemProjection.dfy` | every run of the machine is a run of the broadcast protocol |
| `SystemTheorems.dfy`, `SystemOperations.dfy`, `SystemProgress.dfy`, `SystemFinish.dfy` | the subscriber's stream, atomicity and real-time order, freedom from deadlock, coming to rest |
| `SystemDiary.dfy` | what each call really did over a run: the hooks called, in which order and to which end, and the edits made, against the hooks registered at the time |

Three things are worth knowing before reading the proofs.

*The registry.* `Registry` keeps both index maps and both wildcard lists as one map from a
query to a Go slice (backing array and length; the array's length is the capacity). `append`
writes in place while there is room. Executors keep the slices they captured in the ghost set
`snapshots`; `Valid()` says that slots never share an array, that no snapshot on a slot's
current array is longer than the slot, and that each slot holds what its query picks from the
registration log. A `World` says what else happens between any two steps of an execution:
any edits and captures, by other goroutines or by the hooks themselves.

*The broadcast protocol.* All nondeterminism of the scheduler, of contexts, timers and
consumers is in the choice of the next label. `Safe`, `Ordered`, `Live`, `Complete`, `Streams`,
`Buffered` and `Passes` are kept by every label, so they hold in every reachable state.
`panicked` would be set by a send on, or a second close of, a closed channel.

*The whole machine.* Every operation is a thread that takes one small step at a time: the
locks, each check, each snapshot, each guard, the store, each action, the broadcast's own steps.
`commits` records stores, `State(s, k)` is the state after `k` of them, and `base[i]` is the
position at which subscription `i` was registered. Locks, the setup Once and the registry's
lock are explicit; waiting is a label that is not enabled.

## What is assumed of the environment

- A caller does not close its channel while it is subscribed, nor while a `Subscribe` call on it
  is under way (`hooks/broadcast/manager.go:79-82`).
- There is one machine for each registry, nobody removes the broadcast hook or registers its
  callback again, and hooks do not call the machine's locking methods (`fsm.go:360-365`,
  `fsm.go:378-381`). Hooks may edit the registry, and return.
- The manager of a machine is used through `Subscribe` and the broadcast hook only.

## Where the code and its documentation part

`UnsubscribeAll` is documented to end every subscription stored before its second pass takes
the mutex (`hooks/broadcast/manager.go:135-141`), and a subscription to stay registered until it
is cancelled. Entries are stored and deleted by channel, without comparing the subscription
(`hooks/broadcast/manager.go:121-122`, `243-247`), so both can fail while two subscriptions of
one channel overlap. `UnsubscribeAllMissesReplaced` and `LateCallbackDropsSuccessor` are runs
that show it. When the code does what is documented is settled exactly:

- A subscription is *displaced* when another one of its channel is stored, or removed by its
  callback, while it is stored itself. Over every run, a stored and uncancelled subscription is
  in the table if and only if no step of the run displaced it (`PlaceExactly`), and with nothing
  outstanding the table holds exactly the uncancelled, undisplaced ones (`TableExact`). A
  subscription alone on its channel is never displaced (`AloneUndisplaced`), nor is one that
  takes over a channel after the callbacks of its predecessors have run (`Resubscribed`).
- Of the subscriptions stored when the second pass takes the mutex, `UnsubscribeAll` cancels
  those that are in the table at that moment and no others (`SweepExactly`).
- A guaranteed subscription in the table misses nothing (`GuaranteedDelivery`,
  `UndisplacedDelivery`, `NoGaps`); one that is out of it is sent nothing more
  (`SilentOnceGone`).

Channel safety, the order of delivery and the stream of a subscription need no condition.

## Model

| member | source | states |
|---|---|---|
| TransitionTable.ValidNameExactly | transitions/config.go:231-245 | a state name is accepted exactly when it is not empty, neither starts nor ends with white space, and is not the wildcard |
| TransitionTable.IndexSource | transitions/config.go:200-214 | one source's row: its valid targets, the undefined ones among them, one error for each invalid name |
| TransitionTable.BuildIndex | transitions/config.go:184-227 | in any walking order: succeeds iff every name is valid and every destination is a source; the index is that of the map; the errors name exactly the invalid sources, the invalid destinations and, ascending, the undefined ones |
| TransitionTable.Config.New | transitions/config.go:38-62 | a table exists iff the map is not empty and well formed; it stands for that map; otherwise the exact errors |
| TransitionTable.Config.UnmarshalJSON | transitions/config.go:161-179 | replaces the whole table by a well-formed one or leaves it untouched |
| TransitionTable.Config.GetAllowedTransitions | transitions/config.go:89-101 | the ascending list of exactly the destinations of a defined state, nothing for an unknown one |
| TransitionTable.Config.GetAllStates | transitions/config.go:122-140 | the strictly ascending list of exactly the defined states, although it also collects destinations |
| TransitionTable.IndexExact | transitions/config.go:184-227 | in a well-formed table the index denotes exactly the relation of the map, and its sources are all the states |
| TransitionTable.LookupsExact | transitions/config.go:77-118 | IsTransitionAllowed, HasState and IsTerminal answer for the relation of the map, over every pair of names |
| Sorting.AscendingUnique | transitions/config.go:137-139 | a set has one strictly ascending list, so sorting settles the answer whatever the map order |
| Sorting.StrLessExactly | transitions/config.go:137-139 | one name is before another exactly if at the first place where they differ it has ended or has the smaller character |
| RegistrySpec.EditsConsistent | hooks/registry.go:100-116 | after any registrations, removals and clears, in any order, names and log agree, each hook is live once and sequence numbers rise along the log |
| RegistrySpec.RegisterConsistent | hooks/registry.go:317-389 | a registration, accepted or rejected, keeps names, log and sequence numbers consistent |
| RegistrySpec.RemoveConsistent | hooks/registry.go:273-299 | a removal keeps names, log and sequence numbers consistent |
| RegistrySpec.RemoveInvertsRegister | hooks/registry.go:273-299 | a rejected registration changes nothing; an accepted one followed by RemoveHook of the name restores names and log, hence every selection |
| RegistrySpec.WithoutKeepsOrder | hooks/registry.go:77-84 | the hooks that stay keep their relative order |
| RegistrySpec.PickWithout | hooks/registry.go:282-294 | taking an entry out of a slot is the same as asking the slot's question of the log without it |
| RegistrySpec.MergeMultiset | hooks/registry.go:156-163 | index slot plus matching wildcard hooks are exactly the live hooks of the type that match, each as often as in the log |
| RegistrySpec.SortedIsUnique | hooks/registry.go:165-168 | sequence numbers are distinct, so an unstable sort has one possible result |
| RegistrySpec.MergeAndSort | hooks/registry.go:156-168 | any sorted arrangement of slot plus matching wildcards is the log filtered by type and match, in registration order |
| RegistrySpec.FastPath | hooks/registry.go:145-154 | with no wildcard hook of the type the slot alone is that selection |
| RegistryLaws.SelectionMeaning | hooks/registry.go:94-98 | what is run for a type and a pair of states is exactly the registered hooks, by name, of that type whose From list holds the one state or "*" and whose To list the other or "*", each once, in registration order |
| RegistryLaws.ByNameUnique | hooks/registry.go:165-168 | and there is only one such list |
| RegistryLaws.WildcardIsAll | hooks/registry.go:94-98 | writing out all the states for a "*" changes no selection between defined states |
| RegistryLaws.RegisterVerdict | hooks/registry.go:317-361 | a registration is accepted exactly if nothing is wrong with name, lists, callback, wildcards and states, and otherwise reports the first fault in the order of the checks |
| RegistryLaws.RegisterAdds | hooks/registry.go:244-270 | an accepted registration adds one last hook, with the callback given, to exactly the selections of its type between states its own From and To lists hold or cover by "*"; all other selections and names are as before |
| RegistryLaws.RemoveTakes | hooks/registry.go:273-299 | a removal takes exactly the entry of that name out of every selection and keeps the order of the rest |
| RegistryLaws.ClearEmpties | hooks/registry.go:302-312 | after Clear no name is taken and every selection is empty |
| GoSlices.Append | hooks/registry.go:371-386 | append keeps every element before the end, writes in place only just past the slice, and otherwise reallocates |
| GoSlices.RemoveFrom | hooks/registry.go:67-84 | removeFrom takes every occurrence out and never writes an existing array |
| GoSlices.Delete | hooks/registry.go:81-83 | the in-place compaction keeps exactly the other entries, in order |
| HookRegistry.Registry.constructor | hooks/registry.go:120-135 | an empty registry |
| HookRegistry.Registry.ValidateUniqueStates | hooks/registry.go:430-446 | succeeds iff every pattern is a known state, and then lists each once |
| HookRegistry.Registry.BuildConcreteIndexKeys | hooks/registry.go:394-415 | the cartesian product of the patterns, each key once; fails iff a state is unknown |
| HookRegistry.Registry.Install | hooks/registry.go:286-286 | a slot may be pointed at a new array or at a longer stretch of its own without disturbing any snapshot |
| HookRegistry.Registry.AppendAt | hooks/registry.go:372-376 | an append to one slot, in place or not, leaves every other slot and every snapshot as it was |
| HookRegistry.Registry.RemoveAt | hooks/registry.go:284-288 | a removal from one slot leaves every other slot and every snapshot as it was |
| HookRegistry.Registry.IndexEntry | hooks/registry.go:368-386 | after indexing, every slot again holds what its query picks from the longer log |
| HookRegistry.Registry.UnindexEntry | hooks/registry.go:282-294 | after the scan, in any order, every slot holds what its query picks from the log without the entry |
| HookRegistry.Registry.Register | hooks/registry.go:236-270 | the first fault found, if any, and then no field and no array changes; otherwise one new entry under the name, with the lists, callback and type that were given, last in exactly the selections those lists cover; no snapshot is disturbed |
| HookRegistry.Registry.RemoveHook | hooks/registry.go:273-299 | fails only for an unknown name, and then changes nothing; otherwise takes that entry out of the names and out of every selection, keeping the order, and writes no existing array |
| HookRegistry.Registry.Clear | hooks/registry.go:302-312 | no hook left and every selection empty, numbering restarts, snapshots still intact |
| HookRegistry.Registry.GetHooks | hooks/registry.go:217-231 | in any walking order, exactly one description for each registered hook, with its patterns and its phase |
| HookRegistry.Registry.Interleave | hooks/registry.go:67-84 | snapshot isolation: after any sequence of edits and captures, every slice captured before holds the entries it was captured with |
| HookRegistry.Registry.Capture | hooks/registry.go:139-143 | a captured slot holds exactly the live hooks of its kind |
| HookRegistry.Registry.ReadOut | hooks/registry.go:157-163 | a captured slice read element by element while others edit yields its content at capture |
| HookRegistry.Registry.RunSlice | hooks/registry.go:145-154 | running straight out of the captured array, with edits between any two hooks, runs its content at capture |
| HookRegistry.Registry.RunList | hooks/registry.go:170-176 | running the merged list: guards stop at the first that does not pass, actions never stop |
| HookRegistry.Registry.Execute | hooks/registry.go:139-214 | whatever is edited meanwhile, the hooks run are exactly those registered at the capture whose type and own lists fit the transition, in registration order |
| HookRegistry.Registry.ExecutePreTransitionHooks | hooks/registry.go:139-178 | the guards registered for the transition run up to and including the first that fails or panics, and its index is reported |
| HookRegistry.Registry.ExecutePostTransitionHooks | hooks/registry.go:182-214 | every action registered for the transition runs exactly once, in order, whatever panics, and no other one runs |
| HookRegistry.AppendedExact | hooks/registry.go:368-386 | appending the entry to the slots of its keys keeps every slot exact for the longer log |
| HookRegistry.RemovedExact | hooks/registry.go:282-294 | removing the entry from the slots of its type keeps every slot exact for the shorter log |
| StateMachine.Machine.New | fsm.go:97-132 | a machine exists iff there is a table that defines the initial state |
| StateMachine.Machine.AvailableTransitions | fsm.go:192-205 | scanning the state list gives the one ascending list of the successors of the current state, which is also GetAllowedTransitions of it |
| StateMachine.Machine.IsTerminal | fsm.go:209-217 | scanning the state list agrees with the table's own IsTerminal of the current state |
| StateMachine.Machine.RunGuards | fsm.go:335-342 | the guards registered for the transition, or none without a registry, and every edit they made |
| StateMachine.Machine.RunActions | fsm.go:347-351 | the actions registered for the transition, all of them once and no other, or none without a registry |
| StateMachine.Machine.SetState | fsm.go:227-252 | refused exactly when canceled or undefined, changing nothing; otherwise the state is stored and every action registered for the move runs, no guard |
| StateMachine.Machine.Transition | fsm.go:321-354 | run to completion: all guards registered for the move passed, the state was stored and every action registered once the guards had run was run once; or nothing was stored, no action ran and the failing guard is named |
| StateMachine.Machine.TransitionIfCurrentState | fsm.go:299-315 | succeeds only from the expected state, checked before anything else, and then as Transition does |
| StateMachine.Machine.NewFromJSON | json.go:38-76 | a machine exists iff the record names a state of a non-empty well-formed map; each failure has its error, in order |
| StateMachine.Machine.MarshalState | json.go:81-104 | the record holds the current state, the table's map and a description of every registered hook, none without a registry |
| StateMachine.Machine.RoundTrip | json.go:38-97 | rebuilding from one's own record never fails and gives the same state, table and accepted hook-free runs |
| BroadcastOptions.Resolve | hooks/broadcast/manager.go:93-119 | the last channel option alone decides whose channel it is, a nil channel or none falls back to an owned one of capacity one; the sign of the last timeout decides between guaranteed, timed and best effort |
| BroadcastSafety.StepSafe | hooks/broadcast/manager.go:121-247 | every step of every actor keeps: nothing panicked, the table matches its subscriptions, whoever holds the mutex has what it needs, owned channels are closed exactly when stored and out of the table |
| BroadcastSafety.RemoveSafe | hooks/broadcast/manager.go:233-247 | taking an entry out leaves its owned channel's close due, and no one else's |
| BroadcastSafety.SweepDeleteSafe | hooks/broadcast/manager.go:149-152 | the sweep's deletion, after its cancellation, does the same with entries still to visit |
| BroadcastSafety.SendSafe | hooks/broadcast/manager.go:182-207 | a parked sender's channel is still open when it sends, whatever has happened meanwhile |
| BroadcastSafety.StepExtends | hooks/broadcast/manager.go:121-220 | no step undoes a store, a cancellation or a logged broadcast |
| BroadcastDelivery.StepOrdered | hooks/broadcast/manager.go:161-220 | every step keeps: each subscription's deliveries rise strictly between its store and the last broadcast, and those a broadcast waits on have not had it |
| BroadcastDelivery.StepLive | hooks/broadcast/manager.go:99-130 | every step keeps: a stored, uncancelled subscription alone on its channel is in the table, and every subscription is out of it once its callback has run |
| BroadcastDelivery.StepComplete | hooks/broadcast/manager.go:182-193 | every step keeps: a guaranteed, uncancelled subscription in the table lacks at most the broadcast that holds the mutex |
| BroadcastStreams.StepStreams | hooks/broadcast/manager.go:176-217 | every step keeps: the values on each channel are an interleaving of exactly what its subscriptions were greeted with and sent |
| BroadcastStreams.StepBuffered | hooks/broadcast/manager.go:186-216 | every step keeps: no channel holds more than its capacity, nothing is buffered past a parked receiver, and what was sent and received on a channel only grows, in order |
| BroadcastTheorems.StepPasses | hooks/broadcast/manager.go:142-145 | every step keeps: behind a broadcast that still holds the mutex a first pass meets every entry and ends with all of them cancelled |
| BroadcastTheorems.RunInvariant | hooks/broadcast/manager.go:49-153 | the invariant holds after every run |
| BroadcastTheorems.ReachableInvariant | hooks/broadcast/manager.go:49-153 | the invariant holds in every reachable state of every interleaving |
| BroadcastTheorems.ChannelSafety | hooks/broadcast/manager.go:121-247 | no send on and no second close of a closed channel, no close of a caller's channel; a stored owned channel is closed exactly when out of the table |
| BroadcastTheorems.ReceivedInOrder | hooks/broadcast/manager.go:186-216 | of what each subscription of a channel was sent, the consumers of the channel have received a first part, in order, and the rest fits the buffer |
| BroadcastTheorems.ReceivedAlone | hooks/broadcast/manager.go:186-216 | on a channel named once that is a first part of its greeting and broadcasts and nothing else |
| BroadcastTheorems.TotalOrder | hooks/broadcast/manager.go:164-169 | no two subscriptions see two broadcasts in opposite orders |
| BroadcastTheorems.GuaranteedDelivery | hooks/broadcast/manager.go:182-193 | a guaranteed, uncancelled subscription in the table has been sent every broadcast since its store, each once and in order |
| BroadcastTheorems.AloneListed | hooks/broadcast/manager.go:99-130 | a stored, uncancelled subscription alone on its channel is in the table |
| BroadcastTheorems.BroadcastAdvances | hooks/broadcast/manager.go:170-219 | each of a broadcast's steps lowers unvisited plus pending work until the unlock, and nobody else's step touches it |
| BroadcastTheorems.StuckExactly | hooks/broadcast/manager.go:182-219 | a broadcast is stuck exactly when all are visited and only uncancelled guaranteed subscribers on full channels are left |
| BroadcastTheorems.ReleasedFinishes | hooks/broadcast/manager.go:182-219 | once those it waits on are cancelled every pending sender can step, and the broadcast can run to its unlock by its own steps within its measure |
| BroadcastTheorems.FirstPassReleases | hooks/broadcast/manager.go:142-147 | after a first pass, a broadcast that held the mutex throughout waits on cancelled subscriptions only and can finish |
| BroadcastTheorems.SweepOutcome | hooks/broadcast/manager.go:147-153 | at the unlock the table is empty, stored channels are closed exactly if owned, and those alone on their channel are cancelled |
| BroadcastTheorems.SweepExcludesStores | hooks/broadcast/manager.go:135-148 | nothing is stored while a sweep holds the mutex |
| BroadcastTheorems.LateCallback | hooks/broadcast/manager.go:238-247 | a callback that comes after the channel was closed, or for a caller's channel, closes nothing |
| BroadcastPlaces.LosesPlaceExactly | hooks/broadcast/manager.go:121-122 | a live subscription leaves its place in the table at exactly the steps that displace it |
| BroadcastPlaces.StaysGone | hooks/broadcast/manager.go:238-247 | a stored subscription that is out of the table never comes back |
| BroadcastPlaces.PlaceExactly | hooks/broadcast/manager.go:99-130 | over every run: a stored, uncancelled subscription is in the table if and only if no step displaced it |
| BroadcastPlaces.TableExact | hooks/broadcast/manager.go:99-130 | with nothing outstanding a stored subscription is in the table if and only if it is neither cancelled nor was displaced |
| BroadcastPlaces.UndisplacedDelivery | hooks/broadcast/manager.go:182-193 | over every run: a guaranteed subscription neither cancelled nor displaced has been sent every broadcast since its store, whatever its channel was used for before |
| BroadcastPlaces.AloneUndisplaced | hooks/broadcast/manager.go:49-58 | a subscription alone on its channel is never displaced |
| BroadcastPlaces.Resubscribed | hooks/broadcast/manager.go:79-82 | a channel may be used again: once the callbacks of its earlier subscriptions have run, a later one keeps its place until cancelled, if no further one is begun |
| BroadcastOutcomes.SweepExactly | hooks/broadcast/manager.go:135-153 | of the subscriptions stored when the second pass takes the mutex, it cancels those in the table then and no others |
| BroadcastOutcomes.ServedExactly | hooks/broadcast/manager.go:155-217 | at the step that settles a subscriber, a best-effort one gets the broadcast exactly if its channel is ready, a blocking one exactly if that step is a send, and the record never changes after |
| BroadcastServing.ServedOnce | hooks/broadcast/manager.go:170-219 | from the lock to the unlock of a broadcast every subscription in the table at the lock is settled exactly once, at its visit if best effort and otherwise by its sender sending, departing or timing out, and no other subscription is |
| BroadcastServing.MissExactly | hooks/broadcast/manager.go:182-216 | over every run: a subscription in the table has been sent a broadcast begun since its store, and done with it, exactly if no step of the run was its sender timing out, its sender leaving a cancelled one, or a visit that found its channel not ready |
| BroadcastServing.ConsumerReleases | hooks/broadcast/manager.go:182-207 | a receive, or a waiting receiver, makes the channel take another value, and a receive takes exactly one |
| BroadcastOutcomes.SilentOnceGone | hooks/broadcast/manager.go:229-247 | nothing more is sent to a subscription that is out of the table |
| BroadcastPlaces.LateCallbackDropsSuccessor | hooks/broadcast/manager.go:243-247 | a run in which an earlier subscription's callback takes a later live one on the same channel out of the table |
| BroadcastPlaces.UnsubscribeAllMissesReplaced | hooks/broadcast/manager.go:135-153 | a run in which UnsubscribeAll leaves a replaced subscription uncancelled |
| BroadcastManager.StepKept | hooks/broadcast/manager.go:49-58 | what no other actor can take from the code that is running |
| BroadcastManager.Manager.Yield | hooks/broadcast/manager.go:49-58 | any steps of others, in any order, are a run of the protocol and leave that alone |
| BroadcastManager.Manager.Register | hooks/broadcast/manager.go:121-130 | stored under the mutex, then armed; a live subscription is then in the table exactly if nothing displaced it |
| BroadcastManager.Manager.GetStateChan | hooks/broadcast/manager.go:88-133 | channel, ownership, capacity and mode are what the options settle, the mode by the sign of the last timeout; the new subscription is registered among whatever else runs |
| BroadcastManager.Manager.Remove | hooks/broadcast/manager.go:233-247 | when the callback is done its channel is out of the table, closed if it is owned and not if it is a caller's |
| BroadcastManager.Manager.FanOut | hooks/broadcast/manager.go:174-219 | the visiting loop ends with nobody unvisited and waits exactly for the senders it left behind |
| BroadcastManager.Manager.Broadcast | hooks/broadcast/manager.go:161-220 | when it returns the value is the log's last entry, and a live subscription of any mode, stored before the call and never displaced, has been sent it exactly if its sender did not time out and, for best effort, its channel was ready when visited |
| BroadcastManager.Manager.SignalAll | hooks/broadcast/manager.go:143-145 | the first pass ends without the mutex, whatever the others do and whichever extra entries it meets |
| BroadcastManager.Manager.Sweep | hooks/broadcast/manager.go:147-152 | the sweep empties the table, ends every stored subscription that was never displaced and closes exactly the owned channels |
| BroadcastManager.Manager.UnsubscribeAll | hooks/broadcast/manager.go:142-153 | once it returns the table is empty, every stored subscription that was never displaced is cancelled, and channels are closed exactly if owned; and if a broadcast still holds the mutex it found held, everyone that broadcast waits on is cancelled |
| SystemLocks.StepLocks | fsm.go:227-289 | every step keeps: each point of the code holds exactly its locks, writers exclude readers, the registry's lock is held for registry work only and a broadcast runs under the write lock |
| SystemHistory.StepStory | fsm.go:299-354 | every step keeps: each stored move was legal from the state before it, each thread's place agrees with the history and its checks still hold at its store |
| SystemHistory.StepRefines | fsm.go:321-345 | refinement: a step leaves the history alone or is a store, and a store is one legal move of the atomic machine from its current state |
| SystemStream.EditKeepsCast | fsm.go:446-451 | edits by users leave the broadcast hook registered exactly once |
| SystemStream.SelectionCasts | hooks/registry.go:182-208 | every captured list of actions holds the broadcast hook exactly once after the setup, and never before |
| SystemEcho.WriteEcho | fsm.go:344-350 | every step under the write lock keeps the broadcast log the tail of the history, up to the store being broadcast |
| SystemEcho.SubEcho | fsm.go:466-486 | subscribing joins registration and greeting into one point of the history |
| SystemEcho.StepEcho | fsm.go:439-488 | every step of every thread keeps log, bases, greetings and the broadcast hook in step with the history |
| SystemProjection.ProjectRun | fsm.go:439-488 | every run of the machine is, at its manager, a run of the broadcast protocol |
| SystemProjection.ReachableMgr | fsm.go:439-488 | in every reachable state of the machine all that holds of the protocol holds of its manager |
| SystemTheorems.ReachableWhole | fsm.go:60-80 | the invariants of locks, history, log and manager hold in every reachable state of every interleaving |
| SystemTheorems.SubscriberStream | fsm.go:425-489 | once Subscribe has returned nil, its subscription is stored on the caller's channel at a moment of the call; all it sends is a subsequence of the history that begins with the state current at that moment; its channel carries an interleaving of its subscriptions' streams, and if named once that stream alone |
| SystemTheorems.NoGaps | fsm.go:371-386 | with guaranteed delivery an uncancelled subscription in the table has been sent the whole rest of the history, whenever the write lock is free |
| SystemTheorems.NoGapsUndisplaced | fsm.go:371-386 | which is so over every run that did not displace it, whatever its channel was used for before |
| SystemTheorems.NoGapsAlone | fsm.go:371-386 | and on a channel named once that is all the channel carries |
| SystemOperations.AlwaysDefined | fsm.go:227-256 | the state is a defined state at every point of every history, and every unforced move is along the relation |
| SystemOperations.StaysInClosure | transitions/config.go:77-84 | without SetState the state stays in every closed set that holds the initial state |
| SystemOperations.TerminalStays | transitions/config.go:109-118 | a state without successors is left only by SetState |
| SystemOperations.OperationsAtomic | fsm.go:299-354 | every finished operation was one move of the atomic machine during the call, or left it alone: names a moment of the call at which the comparison failed, the move was not allowed, the state was undefined, or the move was allowed and its guard failed; a conditional refusal other than the comparison names a moment at which that held; a Subscribe that returned nil has its own subscription, with the machine's delivery and its removal armed, and one that did not was refused because the set-up failed or its own subscription was cancelled |
| SystemOperations.OwnSubsDiffer | fsm.go:466-489 | no two Subscribe calls share a subscription |
| SystemOperations.SetUpExactly | fsm.go:439-456 | the one set-up of the broadcast hook fails exactly for a registry that was given no table |
| SystemOperations.DistinctMoves | fsm.go:299-315 | no two operations share a move of the history |
| SystemOperations.ConsumesItsOwn | fsm.go:299-315 | two successful TransitionIfCurrentState calls from one state consume two of its occurrences |
| SystemOperations.EveryMoveOwned | fsm.go:254-258 | every move of the history is what some operation asked for |
| SystemOperations.RunLater | fsm.go:164-167 | later states keep the history, the finished operations and the calls of earlier ones |
| SystemOperations.RealTimeOrder | fsm.go:155-167 | linearizability: an operation, lock-free read or subscription called after another returned comes after it in the history |
| SystemProgress.WaitsDescend | fsm.go:439-470 | whoever waits for a lock, the setup Once, the registry or the manager's mutex waits for a thread of lower rank |
| SystemProgress.NoWaitCycle | fsm.go:439-470 | no chain of waiting threads closes, even if a waiting writer keeps new readers out |
| SystemProgress.DeadlockFree | fsm.go:227-289 | every call that has not returned waits, by a chain of threads, for one with an enabled step of the program's own, or for one parked on a full channel whose subscription nobody cancelled |
| SystemFinish.OwnStepLowers | fsm.go:227-354 | every step of the program's own lowers a measure, so no run of them goes on for ever |
| SystemFinish.ReachableComesToRest | fsm.go:227-489 | from every reachable state they lead to a state in which none is enabled, and there every call has returned or waits, by a chain of threads, on a parked send |
| SystemDiary.CallsExactly | fsm.go:321-354 | over every run, by the steps a thread took: a move is one store; between the capture of its guards and that store the thread called exactly the guards registered at the capture for the move, once each, in order, and all passed (none for SetState), then after the store exactly the actions registered at their capture; a refused call ran no action, no guard unless one failed, and reports a cancellation only if its context was; a read saw the state current at its step |
| SystemDiary.GuardFailedExactly | fsm.go:335-342 | a call reports a failed guard exactly if one of those it called failed |
| SystemDiary.EditsMade | hooks/registry.go:236-312 | every edit of the registry a thread asked for, itself or from inside its hooks, has been made once, in order, when its call returns |
| SystemDiary.RegistryOverRun | hooks/registry.go:100-116 | the registry at the end of a run is what the edits of the run, in the order in which they held its lock, made of it |

## Left out

- JSON text: `encoding/json` is not part of this model; the round trip is on the persistent record.
- SystemOperations.OperationsAtomic: a refusal by cancellation names its moment; that the context was cancelled is in `CallsExactly`, as contexts of operations are not part of the state.
- Logging and error texts: kinds of errors and the index of a failing hook are kept.
- Durations: a positive timeout is a step that may happen at any time while the send is parked.
- `sync.Map`, `sync.Once`, `RWMutex`, `context` and channels are modelled by what they promise; which waiter gets a lock is free, and queueing of readers behind a waiting writer appears only in `WaitsFor`.
- BroadcastManager.Manager: a blocked `Lock` is a method that returns `done == false`; the protocol has the later attempts.
- `MarshalJSON` takes the read lock; it is modelled in `Machine.dfy` only, not as a thread of the concurrent model.
- In the concurrent model the registry's read lock is exclusive, which only removes overlaps of readers that change nothing.
- In the concurrent model a machine always has a registry; `Subscribe` without one, with a nil context or on a nil channel is not part of it, and `UnsubscribeAll`, which the machine never calls, is proved for the manager alone.
- HookRegistry.Registry: the source's two index maps and two wildcard lists are one map keyed by query, entries are told apart by their sequence number and fields instead of by pointer, and the cleared tail of a compacted clone is not written.
- StateMachine.Machine: the table is not replaced under it; `UnmarshalJSON` on a table in use is outside the source's contract too.
- TransitionTable.Config.AsMap: maps are values here, so that the copy is deep holds by itself and is not stated.
- TransitionTable.ValidNameExactly: white space is the Unicode set that `strings.TrimSpace` trims, over characters, not bytes.
- Wrappers and accessors that add nothing hard: `NewSimple`, `MustNew`, the `Bool` variants, `String` methods, options for loggers, `transitions/common.go`, the examples.
- Custom tables, custom callback executors and registries shared by several machines.
