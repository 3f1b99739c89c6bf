# A model of libbtctools in Dafny

libbtctools scans, configures and reboots mining machines. This project models the parts of it that keep state, and
proves the rules they rely on for all inputs, all orders of events and all reachable states:

- **The cached class model of LOOP** (`ClassGraph`, `FieldUpdate`, `Relinking`, `Walks`, `Redefinitions`,
  `CachedClass`, `ClassCalls`, `LoopCalls`, `UnevenDiamond`): every class holds a table with its own and all inherited
  members, so that a lookup is one read. It has to agree at all times with the recursive first-match lookup it
  replaces. Assignments travel down the hierarchy through a work queue; redefined classes are rebuilt by a
  breadth-first walk.
- **The userdata cache of OOLua** (`TypeLists`, `UserdataModel`, `UserdataCollector`, `UserdataRegistration`,
  `UserdataAliasing`, `UserdataIdentity`, `UserdataCounts`, `UserdataOwners`, `UserdataChain`, `UserdataLeftovers`,
  `UserdataCache`): it remembers the userdata of each C++ object under the addresses of all its base subobjects, with
  collision tables where several share an address, so that one object has one userdata. Lua's collector takes entries
  away behind its back.
- **The scan and configure scheduler** (`SchedulerModel`, `SchedulerRounds`, `Scheduler`): a window of work contexts,
  each driven by a script, refilled from a source. `MinerScanner.cpp` and `MinerConfigurator.cpp` hold the same loops;
  most rows below cite the first.
- **The TCP session** (`SessionModel`, `SessionOutcome`, `Session`): connections, handshakes, writes, reads and timers
  complete in any order; a file upload is chunked. `Scanning` puts the scheduler and its sessions together.
- **The executor scripts** (`ExecutorModel`, `Retries`, `ScriptExecutor`, `MiningProgram`, `WhatsMinerModel`,
  `WhatsMinerOutcome`, `WhatsMiner`, `RebootModel`, `RebootOutcome`, `Reboot`, `ConfiguringAll`): request and response
  steps in turn, a retry layer that rewrites the current step, fallback over program names, and reboot polling.
- **Lua registry references** (`LuaRefModel`, `LuaRef`) and **IP range generators** (`IpRangeModel`, `IpGenerator`,
  `IpRangeText`).

Each component comes as a specification on values, about which the theorems are proved, and as classes whose methods
change fields as the program does and are proved to follow the specification; methods that drive an object through
arbitrary events (`MakeAll`, `Run`, `Serve`, `HandleAll`, `Configure`, `ConfigureAvalon`, `RebootAntminer`) prove the
theorems of the object itself. `Wrappers` holds the option type they share. Steps whose outcome the program does not
control are inputs: events, completions, script decisions and replies are arbitrary sequences, the order in which a
table is traversed and the slot Lua hands out are arbitrary choices.

Assumptions stated as preconditions: class hierarchies are acyclic (a rank falls along superclass links); `OrderedSet`
is a first-in-first-out queue without duplicates (its code is not part of this model); Lua clears a dead userdata from
weak values before its finalizer; an operation is reported as aborted only after the session was closed.

Findings, each proved with a concrete input or an exact condition:

- Assigning nil to a member does not always restore what is inherited: `FieldUpdate.ClearingKeepsCache` is the exact
  condition under which it does no harm, `FieldUpdate.NilHidesInherited` an input where it does.
- Redefining a class where every table is right can leave stale members exactly when paths of different length lead
  down to some class (`Redefinitions.RedefinitionRepairsIffLevelled`; from arbitrary tables below,
  `Walks.Region.WalksRepairIffLevelled`); `UnevenDiamond.WalkGoesStale` is an example where every walk does.
- An upgrade of a userdata found through a root base registers the bases but not the pushed address, so one object can
  end up with two userdata (`UserdataModel.UpgradeRegistersIff`, `UserdataModel.UpgradeLosesObject`).
- Where two other objects share the pushed address the search stops at their collision table and does not go on to the
  roots, so an object cached under a base elsewhere gets a second userdata (`UserdataChain.TableHidesObject`).
  `UserdataRegistration.AddsAnotherIff` is the exact condition for one push, of this and the item above, and
  `UserdataChain.ChainLeavesOneIff` for pushes along a chain.
- The search compares classes and addresses but not objects, so a push can hand out the userdata of another object: an
  object takes that of a member of one of its bases (`UserdataAliasing.MemberIsLost`), or the member gets that of the
  object (`UserdataIdentity.MemberIsNeverFound`). `UserdataIdentity.FindsOwnIff` and
  `UserdataIdentity.RunsAreFaithfulIff` are the exact conditions.
- An upgrade of another object's userdata can leave a collision table behind for good
  (`UserdataAliasing.AliasingLeavesTable`). `UserdataLeftovers.NothingIsLeftIff` says exactly when nothing is left.
- A session whose host does not resolve, or with an unknown scheme and no timeout, never answers
  (`SessionModel.ExhaustedHasAnswered`).
- With a window of less than one nothing is scanned, silently (`SchedulerModel.DrainedMeansDone`). Otherwise a scan in
  which nothing can happen any more has dealt with everything exactly when no request was one of those
  (`Scanning.ScanIsDoneIff`).
- A delay set by a script is lost after two retries of one request (`ExecutorModel.DelayAfterRetries`).
- A rejected reboot request is polled for like an accepted one (`RebootModel.RejectionIsPolled`).
- A generator's unused `int` step counter overflows on ranges of more than 2^31 - 1 addresses
  (`IpGenerator.Generator.GenIpRange`, `IpGenerator.DrainHalf`).

## Model

| member | source | states |
|---|---|---|
| `CachedModel.CachedClass.UpdateField` | src/lua/scripts/loop/cached.lua:178-213 | Assigning a member (or nil), in whatever state the tables are: the hierarchy is kept, entries of other names are untouched and the previous entry is returned; where every table agreed with the recursive lookup, all tables agree afterwards for all names **if and only if** a value was assigned, or it was nil and clearing happened to be safe |
| `FieldUpdate.Assignment.ProgressEnds` | src/lua/scripts/loop/cached.lua:178-213 | With the work queue empty, tables are right everywhere exactly when a value was assigned or the clearing was safe: the exact condition under which assigning nil meets the promise |
| `FieldUpdate.Assignment.ProgressUpdates` | src/lua/scripts/loop/cached.lua:198-207 | The invariant of the queue, every class not waiting is consistent with its superclasses, survives copying an inherited value and queueing the subclasses |
| `FieldUpdate.Assignment.ProgressSkips` | src/lua/scripts/loop/cached.lua:193-197 | The invariant survives dropping a class that has its own member or is already up to date |
| `FieldUpdate.Assignment.EndUnlinked` | src/lua/scripts/loop/cached.lua:178-213 | For a nil that is not safe: a class whose entry is wrong afterwards |
| `FieldUpdate.NilHidesInherited` | src/lua/scripts/loop/cached.lua:178-213 | A concrete one: nil assigned to the member of a class whose superclass has it too leaves no entry, where the lookup finds the inherited value |
| `CachedModel.Propagate` | src/lua/scripts/loop/cached.lua:189-211 | The work queue ends on every acyclic hierarchy and from any tables, although classes are queued again: the weight of the queue, one plus the number of nonempty downward paths per class, falls; no entry of another name moves, and from right tables it ends with the queue invariant and an empty queue |
| `CachedModel.QueueGrows` | src/lua/scripts/loop/cached.lua:194-207 | Replacing a queued class by those of its direct subclasses that are not queued makes the queue strictly lighter |
| `CachedModel.CachedClass.InheritedValue` | src/lua/scripts/loop/cached.lua:198-210 | The value a class takes is that of the first superclass that has one |
| `CachedModel.CachedClass.Inherit` | src/lua/scripts/loop/cached.lua:194-210 | One class taken off the queue: whether it changes, and what its table is then |
| `CachedModel.EnqueueAll` | src/lua/scripts/loop/cached.lua:190-192 | Subclasses join the queue once each, in an order of their own, and only if they are not waiting already |
| `ClassGraph.CoherentIffLinked` | src/lua/scripts/loop/multiple.lua:43-49 | Tables agree with the recursive first-match lookup for every class and name exactly when each class agrees with its own members and its direct superclasses' tables |
| `ClassGraph.FirstMatchFinds` | src/lua/scripts/loop/multiple.lua:45-48 | The search over the superclasses fails exactly when none of them has the name |
| `ClassGraph.SubclassOfDecidesReachability` | src/lua/scripts/loop/cached.lua:278-284 | `subclassof` holds exactly when a path of superclass links leads from the class to the other |
| `CachedModel.CachedClass.UpdateHierarchy` | src/lua/scripts/loop/cached.lua:94-120 | Leaving the old superclasses and entering the new ones keeps `subs` the exact inverse of `supers`, repeated superclasses included |
| `Relinking.RelinkedInverse` | src/lua/scripts/loop/cached.lua:107-119 | The same on snapshots of the links |
| `Relinking.RedefinitionAcyclicIff` | src/lua/scripts/loop/cached.lua:215-220 | A redefinition keeps the hierarchy acyclic exactly when no new superclass is the class itself or below it |
| `CachedModel.CachedClass.UpdateMembers` | src/lua/scripts/loop/cached.lua:159-176 | The rebuilt table has, for each name but `__index`, the own member or else that of the first superclass with one: copying in reverse order gives the first superclass priority |
| `CachedModel.CachedClass.UpdateInheritance` | src/lua/scripts/loop/cached.lua:122-128 | The walk visits each class at or below the redefined one exactly once and no other, and its effect on the tables is that of rebuilding them in that order; when it meets superclasses first, as it does where all paths down to each class are equally long, every table agrees with the lookup afterwards |
| `CachedModel.CachedClass.Redefine` | src/lua/scripts/loop/cached.lua:215-220 | Redefining a class, in whatever state the tables are: the links change as asked, the hierarchy stays acyclic with exact subclass links, and everything outside the class and its subclasses is untouched; if the tables out there were right and the walk meets superclasses first, as on a levelled hierarchy, all are right; the tables are exactly those that a finished breadth-first walk leaves |
| `CachedModel.CachedClass.Relink` | src/lua/scripts/loop/cached.lua:215-219 | The change of links on its own keeps the hierarchy, and keeps right the tables of classes that are not below |
| `CachedModel.DefineClass` | src/lua/scripts/loop/cached.lua:215-220 | Defining a new class, in whatever state the tables are, keeps the hierarchy and changes no other table; if all tables were right they all are |
| `ClassCalls.CallKeepsSoundIff` | src/lua/scripts/loop/cached.lua:94-120 | A class is defined or redefined: the hierarchy stays acyclic with exact subclass links if and only if no new superclass is the class itself or below it |
| `ClassCalls.CallsKeepSoundIff` | src/lua/scripts/loop/cached.lua:215-220 | Over any sequence of such calls it is so at every point exactly when each call is of that kind |
| `Relinking.WalkIsComplete` | src/lua/scripts/loop/cached.lua:48-61 | A finished walk over `subs` has met every transitive subclass |
| `Relinking.LowerLevelsAreDone` | src/lua/scripts/loop/cached.lua:48-61 | On a levelled hierarchy the breadth-first walk reaches a class only after everything below the start on a smaller level |
| `Relinking.PathLengthIsLevel` | src/lua/scripts/loop/cached.lua:48-61 | What levelled means: every superclass path from a class up to the redefined one is as long as the levels are apart |
| `Walks.Region.RepairsIffTopological` | src/lua/scripts/loop/cached.lua:122-128 | For one order of visits: it leaves all tables right, whatever stale entries there were at and below the class, exactly when every class comes after its superclasses |
| `Walks.Region.LevelledIsTopological` | src/lua/scripts/loop/cached.lua:48-61 | On a levelled hierarchy every breadth-first walk has such an order |
| `Walks.Region.WalksRepairIffLevelled` | src/lua/scripts/loop/cached.lua:122-128 | The exact condition for redefinition: every breadth-first walk, in whatever order it takes the subclasses of a class, from all tables that are right outside, leaves all tables right **if and only if** the paths down to each class are equally long |
| `UnevenDiamond.DComesFirst` | src/lua/scripts/loop/cached.lua:48-61 | In a concrete hierarchy with paths of different length, every breadth-first walk meets a class before one of its superclasses |
| `Redefinitions.RedefinitionRepairsIffLevelled` | src/lua/scripts/loop/cached.lua:215-220 | The exact condition from right tables: with the classes at and below a class as they are, and whatever superclasses it had, whatever the members and whatever other classes there are, redefining it where every table is right leaves every table right on every walk **if and only if** the paths down to each class are equally long |
| `Relinking.LevelledHasEqualWays` | src/lua/scripts/loop/cached.lua:48-61 | Levels exist exactly where one way up from each class, followed class by class, is as long as all others |
| `LoopCalls.MakeAll` | src/lua/scripts/loop/cached.lua:178-220 | Any sequence of definitions, redefinitions and assignments on the objects: the hierarchy is kept all along, links and members are what the calls ask for; every table is right all along if each redefinition leaves paths of equal length and each nil is safe; and from right tables a nil that is not safe leaves a wrong one |
| `UnevenDiamond.WalkGoesStale` | src/lua/scripts/loop/cached.lua:122-128 | Every such walk leaves that class with the wrong member; the hierarchy is acyclic and its subclass links exact |
| `UnevenDiamond.RightBefore` | src/lua/scripts/loop/cached.lua:122-128 | In that hierarchy every table was right before the redefinition |
| `Walks.MergedIsFirstMatch` | src/lua/scripts/loop/cached.lua:161-169 | Copying the superclass tables last to first gives each name the value of the first that has it |
| `TypeLists.AllBasesIsProperBases` | src/lua/oolua/proxy_class.h:63-98 | The flattened list of bases holds exactly the proper bases of a class |
| `TypeLists.HasRoot` | src/lua/oolua/proxy_class.h:112-144 | Every class that is not a root has a root among its root bases |
| `TypeLists.RootsInherited` | src/lua/oolua/proxy_class.h:112-144 | The roots of a base are root bases of the derived class, so searching below them is not needed |
| `UserdataCache.WeakTable.AddPtrIfRequired` | src/lua/oolua/proxy_storage.cpp:73-144 | The table after an add in each of the three cases, no entry, a single userdata, a collision table |
| `UserdataModel.AddInsertsOne` | src/lua/oolua/proxy_storage.cpp:73-144 | Refinement of a map from address to set of userdata: an add inserts exactly the one pair, whatever the representation of the slot |
| `UserdataModel.AddKeepsConsistent` | src/lua/oolua/proxy_storage.cpp:73-144 | An add keeps the representation consistent: collision flags, anchors and the place of every userdata |
| `UserdataCache.WeakTable.Add` | src/lua/oolua/proxy_storage.h:412-449 | A new userdata registered at its own address and at those of all its bases |
| `UserdataCache.WeakTable.ResetMetatable` | src/lua/oolua/proxy_storage.h:376-410 | The userdata becomes one of the derived class and is registered at the bases of that class |
| `UserdataCache.WeakTable.AdjustIfCorrect` | src/lua/oolua/proxy_storage.h:189-202 | Which userdata are accepted, and what becomes of their class and constness |
| `UserdataCache.WeakTable.RootEntry` | src/lua/oolua/proxy_storage.h:498-561 | The entry found under the root bases: the first root at another address where a userdata of a base class sits decides |
| `UserdataCache.WeakTable.CheckRoots` | src/lua/oolua/proxy_storage.h:204-228 | What the root search finds is upgraded to the pushed class |
| `UserdataCache.WeakTable.FindUd` | src/lua/oolua/proxy_storage.h:233-285 | The userdata found for an object, if any, and the state of the cache after adjusting it |
| `UserdataCache.WeakTable.PushPointer` | src/lua/oolua/push_pointer_internal.h:45-52 | A push finds the userdata of the object and adjusts it, or adds one |
| `UserdataCache.WeakTable.SetOwnerIfChange` | src/lua/oolua/push_pointer_internal.cpp:49-55 | Ownership changes only when asked for |
| `UserdataModel.PushKeepsValidIff` | src/lua/oolua/push_pointer_internal.h:45-52 | A push keeps the cache valid, with its flags, its anchors and every userdata registered where it must be, if and only if an upgrade it makes, if any, is contained: the userdata it takes is registered at addresses of the pushed object only |
| `UserdataModel.ResetKeepsValidIff` | src/lua/oolua/proxy_storage.h:376-410 | The same for the upgrade on its own |
| `UserdataModel.FoundFits` | src/lua/oolua/proxy_storage.h:189-285 | A userdata is returned only for a class related to its own; one of an unrelated class at the same address never is |
| `UserdataModel.FindIsComplete` | src/lua/oolua/proxy_storage.h:204-285 | Searching only root bases is complete, in every cache whose userdata are registered at their bases: without a collision table at the pushed address, the search finds a userdata of a related class whenever one of the object is cached under a base or a derived class, bases at any offsets |
| `UserdataRegistration.RegisteredInEveryRun` | src/lua/oolua/proxy_storage.h:287-410 | At every point of every run, whether or not its upgrades were contained, every userdata is registered at all bases of its class |
| `UserdataRegistration.FindIsCompleteInRuns` | src/lua/oolua/proxy_storage.h:204-285 | So searching only root bases is complete at every point of every run |
| `UserdataRegistration.AddsAnotherIff` | src/lua/oolua/proxy_storage.h:204-285 | The exact condition under which the search misses the userdata that an object has of a related class, so that the push adds another: no related one is at the pushed address, and either a collision table is there, or the userdata is of the pushed class itself and no other root has one of a base |
| `UserdataRegistration.AddsAnotherInRunsIff` | src/lua/oolua/proxy_storage.h:204-285 | The same at every point of every run |
| `UserdataCounts.EventCounts` | src/lua/oolua/push_pointer_internal.h:45-52 | A push that finds nothing, or upgrades the userdata of another object, gives its object one more; an object loses one exactly when its userdata is upgraded for another object or cleared; nothing else changes how many an object has |
| `UserdataCounts.RunCounts` | src/lua/oolua/push_pointer_internal.h:45-52 | At every point of every run, whatever neighbours an object has, its userdata are as many as it has gained less those it has lost |
| `UserdataOwners.TellsWhatItWasTold` | src/lua/oolua/push_pointer_internal.h:45-52 | At every point of every run, with any neighbours: Lua may collect the object of a userdata exactly when the owner named last for it was Lua, and it is const exactly when every push of it was |
| `UserdataIdentity.FindIsCompleteAndOwn` | src/lua/oolua/proxy_storage.h:204-285 | What it finds then is a userdata of the object itself **if and only if** those it sees first are, again in every cache whose userdata are registered at their bases |
| `UserdataIdentity.FindsOwnIff` | src/lua/oolua/proxy_storage.h:189-285 | For every cache: whatever a push may find is a userdata of the object pushed **if and only if** related userdata at the pushed address are, and, where the search goes on to the roots, those at the first root elsewhere that has any |
| `UserdataIdentity.RunIsFaithfulIff` | src/lua/oolua/push_pointer_internal.h:45-52 | A run hands out, at every push, a userdata that stands for the object pushed, and lets none change its object, **if and only if** no push found the userdata of another object |
| `UserdataIdentity.RunsAreFaithfulIff` | src/lua/oolua/push_pointer_internal.h:45-52 | For any sequence of pushes, changes of ownership, clearings and finalizers: all runs, whatever the pushes find in collision tables, are like this **if and only if** what a push sees first is always the object's own |
| `UserdataIdentity.ObjectStays` | src/lua/oolua/push_pointer_internal.h:45-52 | In such a run a userdata stands for one object for as long as it lives |
| `UserdataIdentity.MemberIsNeverFound` | src/lua/oolua/proxy_storage.h:189-202 | A concrete layout where an object is pushed and then a member of one of its bases: the push of the member can only hand out the userdata of the object, although no upgrade is made and the cache is valid throughout |
| `UserdataModel.SameClassFoundIff` | src/lua/oolua/proxy_storage.h:233-285 | For a userdata cached under the pushed class itself the search succeeds exactly when its own address is registered |
| `UserdataModel.UpgradeRegistersIff` | src/lua/oolua/proxy_storage.h:376-410 | An upgrade leaves the userdata at the pushed address exactly when it was registered there or some base lies there |
| `UserdataModel.UpgradeLosesObject` | src/lua/oolua/proxy_storage.h:376-410 | So an object pushed as its base at another address and then twice as itself gets two userdata: a concrete run |
| `UserdataChain.ChainLeavesOneIff` | src/lua/oolua/proxy_storage.h:204-285 | For any sequence of pushes of an object along an inheritance chain, from any cache a run can reach, its subobjects at any offsets, with unrelated neighbours: there is exactly one userdata for it all along **if and only if** the class of an upgrade with no base at its address is not pushed again before the next upgrade, and no push meets a collision table at an address where the userdata is not registered |
| `UserdataChain.EveryRunIsSound` | src/lua/oolua/push_pointer_internal.h:45-52 | What the chain of pushes relies on holds of the cache at every point of every run |
| `UserdataChain.ChainSumsUpIff` | src/lua/oolua/proxy_storage.h:204-285 | All along that userdata is of the most derived class pushed, const exactly when every push was, and registered at all addresses of the object, with other addresses as they were and other userdata too but for the collision flag, **if and only if** every class pushed that is derived from all before it has one of its bases at its address, and neither thing above happens |
| `UserdataChain.OneAddressIsEnough` | src/lua/oolua/proxy_storage.h:204-285 | With all subobjects at one address these conditions hold as soon as the neighbours there are unrelated |
| `UserdataChain.TableHidesObject` | src/lua/oolua/proxy_storage.h:261-281 | A concrete run where two unrelated objects share the address of a third: pushed as one of its bases and then as itself, the third gets two userdata, although a base lies at its address |
| `UserdataCache.WeakTable.GcCleanTable` | src/lua/oolua/oolua_registration.h:156-175 | An empty collision table loses its slot and its anchor; anything else stays |
| `UserdataCache.WeakTable.CleanBases` | src/lua/oolua/oolua_registration.h:177-212 | The recursive cleaner cleans the addresses of the bases in its order |
| `UserdataCache.WeakTable.Collect` | src/lua/oolua/oolua_registration.h:234-254 | The finalizer cleans only for a userdata with the collision flag |
| `UserdataCollector.FinalizerReaches` | src/lua/oolua/oolua_registration.h:177-254 | The cleaner, which skips bases at the address of the class it comes from, reaches every address its userdata may be registered at |
| `UserdataCollector.ClearKeepsValid` | src/lua/oolua/oolua_registration.h:156-255 | Lua clearing a dead userdata keeps the cache valid: a table left empty awaits a finalizer that will reach it |
| `UserdataCollector.FinalizeKeepsValid` | src/lua/oolua/oolua_registration.h:156-255 | A finalizer keeps the cache valid |
| `UserdataCollector.RunsAreValidIff` | src/lua/oolua/oolua_registration.h:156-255 | For every sequence of pushes, changes of ownership, clearings and finalizers, in any order: the cache is valid all along if and only if every upgrade in it is contained |
| `UserdataCollector.NothingIsLeft` | src/lua/oolua/oolua_registration.h:156-255 | In such a run, once all userdata are collected, in any order, no entry and no anchored table remains |
| `UserdataLeftovers.NothingIsLeftIff` | src/lua/oolua/oolua_registration.h:156-255 | The exact condition, whether or not upgrades were contained: clearing and finalizing everything, in whatever order, leaves no entry and no anchored table **if and only if** the finalizer of every userdata in a collision table reaches the table, and for every empty table some userdata that has been in a collision and whose finalizer reaches it is still to be finalized |
| `UserdataLeftovers.NothingIsLeftInRunsIff` | src/lua/oolua/oolua_registration.h:156-255 | The same at every point of every run |
| `UserdataLeftovers.ValidIsCleanable` | src/lua/oolua/oolua_registration.h:156-255 | A valid cache meets the condition |
| `UserdataAliasing.AliasingCanCleanUp` | src/lua/oolua/oolua_registration.h:156-255 | It is met by runs that are not contained, too: a concrete one after which nothing is left |
| `UserdataAliasing.FlagsInEveryRun` | src/lua/oolua/oolua_registration.h:156-255 | In all runs, contained or not, each userdata in a collision table is alive and carries the flag |
| `UserdataAliasing.OnlyEmptyTablesAreLeft` | src/lua/oolua/oolua_registration.h:156-255 | In all runs, once all are collected, what remains are empty collision tables and nothing else |
| `UserdataAliasing.MemberIsLost` | src/lua/oolua/proxy_storage.h:204-228 | An upgrade that is not contained, on a concrete layout: an object takes the userdata of a member of one of its bases, and pushes of the member return it from then on |
| `UserdataAliasing.AliasingLeavesTable` | src/lua/oolua/oolua_registration.h:156-255 | A run over that layout after which all is collected and a collision table and its anchor are left |
| `Scheduler.MinerScheduler.FillWindow` | src/miner/MinerScanner.cpp:46-72 | The fill loop with its counter taken back on an early end |
| `Scheduler.MinerScheduler.DoNextWork` | src/miner/MinerScanner.cpp:125-150 | Refilling after an end: items are taken until one has a request or the source is exhausted |
| `Scheduler.MinerScheduler.OnResponse` | src/miner/MinerScanner.cpp:77-114 | One response: the result, then the next request, either of which may end the context |
| `Scheduler.MinerScheduler.Run` | src/miner/MinerScanner.cpp:41-118 | A whole run ends, with no more responses than script calls are left to make after the fill, and then everything taken was deleted exactly once, its script having been called once and twice for each of its responses, the last of which may have saved the second call |
| `SchedulerModel.RespondKeeps` | src/miner/MinerScanner.cpp:77-150 | A response keeps items taken split between contexts in flight and contexts deleted, and the window within bounds |
| `SchedulerModel.RunsAreConserved` | src/miner/MinerScanner.cpp:46-150 | For every source, script and order of responses: the consumed prefix is partitioned into in flight and deleted, each deleted once at the first call that ended it; at most `stepSize` are in flight, and fewer only when the source is exhausted |
| `SchedulerModel.DrainedMeansDone` | src/miner/MinerScanner.cpp:46-118 | A finished run has consumed everything exactly when `stepSize` is at least 1 or there was nothing to consume |
| `SchedulerModel.RespondUses` | src/miner/MinerScanner.cpp:77-114 | A response uses up at least one of the script calls that remain |
| `SchedulerModel.RunsAreBounded` | src/miner/MinerScanner.cpp:77-114 | If each script is finite, so is every run: it has no more responses than script calls |
| `SchedulerRounds.CallsMatchResponses` | src/miner/MinerScanner.cpp:77-114 | At every point of every run: the script of a context in flight has been called once when it was taken and twice for each of its responses, for the result and for the next request; a context that has been deleted ended with its last result or with the request after it |
| `SchedulerRounds.InFlightHasNotEnded` | src/miner/MinerScanner.cpp:77-114 | The last of these calls, like those before it, has not ended a context in flight |
| `Scanning.StepKeepsPaired` | src/tcpclient/Client.cpp:13-44 | An event of any session keeps the contexts in flight matched with the open sessions, one each; when the session delivers, the scheduler handles that one response, and its new requests get sessions |
| `Scanning.ScansArePaired` | src/miner/MinerScanner.cpp:74-118 | At every point of every scan, events of all sessions in any order, late ones included: each context in flight has exactly one session that has not delivered, no other context has one, and the scheduler has handled exactly one response for every session that has |
| `Scanning.ScansAreCurrent` | src/miner/MinerScanner.cpp:97-110 | At every point of every scan a session that has not delivered is about what its context asked for last |
| `Scanning.ResponsesAreBounded` | src/miner/MinerScanner.cpp:74-118 | With finite scripts the sessions of a scan deliver no more responses than script calls are left after the fill |
| `Scanning.EndedIsDrained` | src/tcpclient/Client.cpp:27-44 | When no session can do anything any more, nothing is in flight **if and only if** every request submitted had a host that resolves, and a known scheme or a timeout |
| `Scanning.ScanIsDoneIff` | src/miner/MinerScanner.cpp:41-118 | When nothing can happen any more, every item has been taken and its context deleted, exactly once each, **if and only if** the window was at least one wide or there was nothing to scan, and no request submitted was one that is never answered; without this no scan gets that far |
| `Session.TcpSession.RunNow` | src/tcpclient/Session.cpp:80-163 | Starting: a host that does not resolve raises an error out of the call, with nothing started; otherwise the timer is set, and the session connects if it knows the scheme |
| `Session.TcpSession.RunSession` | src/tcpclient/Session.cpp:165-186 | A delayed start waits for its timer |
| `Session.TcpSession.Write` | src/tcpclient/Session.cpp:207-233 | Writing the content, or the upload instead |
| `Session.TcpSession.WriteFile` | src/tcpclient/Session.cpp:271-281 | Uploading a file, or an error if it cannot be opened |
| `Session.TcpSession.WriteNextChunk` | src/tcpclient/Session.cpp:312-342 | The next bufferful of the file |
| `Session.TcpSession.YieldResponse` | src/tcpclient/Session.cpp:395-416 | Delivering a response closes the session |
| `Session.TcpSession.OnCompleted` | src/tcpclient/Session.cpp:110-161 | The handler of a completed operation in every state of the session |
| `Session.TcpSession.OnResume` | src/tcpclient/Session.cpp:418-440 | Resuming does nothing once the session is closed |
| `Session.TcpSession.Serve` | src/tcpclient/Session.cpp:80-440 | The session object under any sequence of events that can happen to it: at most one response, a final one, with exactly what was read and the reason for the end; exactly one pending operation while it runs if it could connect, and its timer set if it was given a timeout; and exactly one response once nothing is left to happen, unless it could never answer |
| `SessionModel.AtMostOneResponse` | src/tcpclient/Session.cpp:80-440 | At every point of every interleaving: at most one response, a final one; while a session that could connect runs, exactly one pending operation |
| `SessionModel.ExhaustedHasAnswered` | src/tcpclient/Session.cpp:80-440 | A run with nothing left to handle has delivered exactly one response if and only if the host resolves, and the scheme is known or a timeout was set |
| `SessionModel.MuteStaysSilent` | src/tcpclient/Session.cpp:102-163 | Otherwise, with a host that does not resolve or with an unknown scheme and no timeout, nothing is ever started or delivered |
| `SessionModel.AfterwardsNothing` | src/tcpclient/Session.cpp:110-205 | After the response late completions, timers and attempts to resume change nothing the client can see |
| `SessionModel.ContentIsReceived` | src/tcpclient/Session.cpp:344-367 | The content of the response is the concatenation, in order, of the chunks read |
| `SessionModel.UploadIsComplete` | src/tcpclient/Session.cpp:235-342 | For every file and buffer size: once a response is read, exactly the expected bytes have been written |
| `SessionModel.ExpectedReplacesFirstTag` | src/tcpclient/Session.cpp:242-307 | These bytes are the content before the first tag, the whole file, and the content after the tag |
| `SessionModel.ExpectedIsFile` | src/tcpclient/Session.cpp:243-251 | With an empty content or tag, or no tag in the content, they are exactly the file |
| `SessionModel.HandleKeepsOrdered` | src/tcpclient/Session.cpp:80-440 | Every event keeps the session in order: one pending operation while running, the bytes written as far as that operation says, nothing delivered before the end |
| `SessionOutcome.TimerIsSet` | src/tcpclient/Session.cpp:102-205 | At every point of every run: a session that was given a timeout has its timer set for exactly as long as it runs |
| `SessionOutcome.TimeoutAnswers` | src/tcpclient/Session.cpp:188-205 | So it can be cut short at any time, and its response then says that it timed out, with what had been read so far |
| `SessionOutcome.DelayIsWaited` | src/tcpclient/Session.cpp:165-186 | A session is waiting for its delay timer exactly when it was given a delay and that timer has not fired |
| `SessionOutcome.NothingBeforeDelay` | src/tcpclient/Session.cpp:165-186 | Until then nothing is started, sent or timed |
| `SessionOutcome.PreparedInTurn` | src/tcpclient/Session.cpp:107-161 | A running session sends and reads only after a connection has been made and, where the scheme asks for TLS, a handshake |
| `SessionOutcome.EndsForReason` | src/tcpclient/Session.cpp:110-161 | A running session ends with an event exactly when an operation fails, the file to upload cannot be opened when it is its turn, or the timer fires; the response gives just that reason, with what has been read |
| `SessionOutcome.ResponseGivesReason` | src/tcpclient/Session.cpp:395-416 | Every response delivered in a run was caused by such an event, and gives its reason and what had been read by then |
| `SessionOutcome.LateEventsRunOut` | src/tcpclient/Session.cpp:110-205 | After the end each late completion and each late timer is one fewer to come |
| `SessionOutcome.ResumingStartsOver` | src/tcpclient/Session.cpp:418-440 | Resuming a session while it runs would clear the content, set a timer for the delay, and write again, or answer with an error where the scheme is unknown |
| `ScriptExecutor.ExecutorBase.TryRetry` | src/lua/scripts/ExecutorBase.lua:47-58 | When a retry is allowed, and the state it leaves |
| `ScriptExecutor.ExecutorBase.StopRetrying` | src/lua/scripts/ExecutorBase.lua:27-31 | The delay is restored and the layer starts afresh |
| `ScriptExecutor.ExecutorBase.TakeResult` | src/lua/scripts/HelperBase.lua:32-44 | What happens to a result before the script sees it: another try, or the end of the tries |
| `ScriptExecutor.ExecutorObject.ExecRequest` | src/lua/scripts/HelperBase.lua:20-30 | One request step |
| `ScriptExecutor.ExecutorObject.ExecResult` | src/lua/scripts/HelperBase.lua:32-53 | One response: repeated, or handed to the script after the retry layer is put to rest |
| `ScriptExecutor.ExecutorObject.OnResult` | src/lua/scripts/HelperBase.lua:20-53 | A response and, unless the script ends, the request after it |
| `ScriptExecutor.ExecutorObject.HandleAll` | src/lua/scripts/HelperBase.lua:20-53 | An executor driven by responses until its script ends is where the run of the retry layer over its script ends |
| `ExecutorModel.RoundKeepsRest` | src/lua/scripts/HelperBase.lua:20-53 | The invariant of the retry layer between two requests |
| `ExecutorModel.RetryResends` | src/lua/scripts/ExecutorBase.lua:47-64 | A retry sends the same request again and awaits the response in the same step |
| `ExecutorModel.RetryIsTransparent` | src/lua/scripts/HelperBase.lua:32-53 | Retrying is transparent: a run with failures is, in step and data, where the script alone would be after the replies that reached it |
| `ExecutorModel.RetryIsBounded` | src/lua/scripts/ExecutorBase.lua:47-58 | There are at most max(0, limit) retries between two replies that reach the script |
| `ExecutorModel.DelayAfterRetries` | src/lua/scripts/ExecutorBase.lua:27-58 | A burst of at most `limit` failures leaves the script where it was; the delay restored afterwards is the original one after a single retry and the retry delay after two or more |
| `ExecutorModel.SwitchingOffHolds` | src/lua/scripts/ExecutorBase.lua:38-41 | A response step that switches retrying off does so while no retry is under way, so no later `stopRetry` switches it on again |
| `ExecutorModel.SwitchedOffForGood` | src/lua/scripts/ExecutorBase.lua:27-58 | From then on no result is retried: every one reaches the script |
| `Retries.ExecutedIsPassed` | src/lua/scripts/HelperBase.lua:32-53 | For a script that leaves retrying on: a failed session reaches it exactly when its request has been sent again max(0, limit) times since the last reply that did; which replies reach it is a function of the results alone |
| `Retries.RunIsPassed` | src/lua/scripts/HelperBase.lua:32-53 | From a fresh start, the script is where those replies bring it |
| `Retries.BurstIsAbsorbed` | src/lua/scripts/ExecutorBase.lua:14-25 | A fresh layer makes up for as many failures in a row as the limit says, each after one second, with the script none the wiser |
| `Retries.BurstPasses` | src/lua/scripts/ExecutorBase.lua:47-58 | One failure more, and the script gets to see it |
| `MiningProgramModel.MiningProgram.constructor` | src/lua/scripts/MiningProgram.lua:3-7 | A list with the best program moved or added to its end, all of it still to be tried |
| `MiningProgramModel.MiningProgram.SetBestProgram` | src/lua/scripts/MiningProgram.lua:18-24 | The best program, trimmed, goes to the end of the list; a blank one changes nothing |
| `MiningProgramModel.MiningProgram.RemoveProgram` | src/lua/scripts/utils/utils.lua:32-38 | The first occurrence of a value leaves the list |
| `MiningProgramModel.MiningProgram.GetNext` | src/lua/scripts/MiningProgram.lua:35-38 | The last name not yet tried, or none |
| `MiningProgramModel.MiningProgram.HasNext` | src/lua/scripts/MiningProgram.lua:31-33 | Whether there is a name to try |
| `MiningProgramModel.BestIsTriedFirst` | src/lua/scripts/MiningProgram.lua:9-38 | The best program is tried first and once, the other names as often as listed |
| `MiningProgramModel.TriedBackwards` | src/lua/scripts/MiningProgram.lua:26-38 | Names are tried from the end of the list to its beginning, all of them |
| `MiningProgramModel.DefaultsAndBest` | src/lua/scripts/MiningProgram.lua:11-24 | A WhatsMiner's list has two names, or three when the best program is neither of the defaults |
| `MiningProgramModel.RemovesFirst` | src/lua/scripts/utils/utils.lua:32-38 | Removing a value takes out its first occurrence and keeps the order of the others |
| `MiningProgramModel.RemovesNothingElse` | src/lua/scripts/utils/utils.lua:32-38 | Without an occurrence the list stays as it is |
| `MiningProgramModel.TrimCuts` | src/lua/scripts/utils/utils.lua:56-58 | Trimming a name cuts off all white space at its ends and nothing else |
| `WhatsMiner.WhatsMinerHttpsLuci.GetSession` | src/lua/scripts/configurator/WhatsMinerHttpsLuci.lua:42-45 | The step as a transition of the script: the login; without stored login data the script still goes on |
| `WhatsMiner.WhatsMinerHttpsLuci.ParseSession` | src/lua/scripts/configurator/WhatsMinerHttpsLuci.lua:47-55 | The step as a transition of the script: a failed login leads to one without password |
| `WhatsMiner.WhatsMinerHttpsLuci.GetNoPswdSession` | src/lua/scripts/configurator/WhatsMinerHttpsLuci.lua:57-60 | The step as a transition of the script: the login without password |
| `WhatsMiner.WhatsMinerHttpsLuci.ParseNoPswdSession` | src/lua/scripts/configurator/WhatsMinerHttpsLuci.lua:62-69 | The step as a transition of the script: a second failure ends the script |
| `WhatsMiner.WhatsMinerHttpsLuci.GetToken` | src/lua/scripts/configurator/WhatsMinerHttpsLuci.lua:71-82 | The step as a transition of the script: the token page of the next program |
| `WhatsMiner.WhatsMinerHttpsLuci.ParseToken` | src/lua/scripts/configurator/WhatsMinerHttpsLuci.lua:84-121 | The step as a transition of the script: another program on 404, the end on other failures, else the configuration with the token |
| `WhatsMiner.WhatsMinerHttpsLuci.SetMinerConf` | src/lua/scripts/configurator/WhatsMinerHttpsLuci.lua:123-155 | The step as a transition of the script: the configuration for the current program |
| `WhatsMiner.WhatsMinerHttpsLuci.ParseSetMinerConf` | src/lua/scripts/configurator/WhatsMinerHttpsLuci.lua:157-193 | The step as a transition of the script: the end on failure, else the power mode or the restart |
| `WhatsMiner.WhatsMinerHttpsLuci.SetPowerMode` | src/lua/scripts/configurator/WhatsMinerHttpsLuci.lua:195-218 | The step as a transition of the script: the power page of the next program |
| `WhatsMiner.WhatsMinerHttpsLuci.ParseSetPowerMode` | src/lua/scripts/configurator/WhatsMinerHttpsLuci.lua:220-240 | The step as a transition of the script: another program on 404, else the restart, failed or not |
| `WhatsMiner.WhatsMinerHttpsLuci.RestartCGMiner` | src/lua/scripts/configurator/WhatsMinerHttpsLuci.lua:242-249 | The step as a transition of the script: the restart page of the next program |
| `WhatsMiner.WhatsMinerHttpsLuci.ParseRestartCGMiner` | src/lua/scripts/configurator/WhatsMinerHttpsLuci.lua:251-269 | The step as a transition of the script: another program on 404, else the end |
| `WhatsMinerModel.ConfigurationEnds` | src/lua/scripts/configurator/WhatsMinerHttpsLuci.lua:42-269 | Every configuration, with any replies and any failing sessions, ends within (max(0, limit) + 1) * (3 + 3 * programs) responses; `getNext` never finds an empty list, retries included; and what `setMinerConf` posts goes to the program whose token page answered, with the token of that page |
| `WhatsMinerModel.ConfigFollowsToken` | src/lua/scripts/configurator/WhatsMinerHttpsLuci.lua:84-155 | The configuration is posted exactly after a token page answered 200 with a token, and to the program of that page |
| `WhatsMinerModel.HandledSoundly` | src/lua/scripts/configurator/WhatsMinerHttpsLuci.lua:42-269 | Every response keeps the script sound and lowers the number of responses left |
| `WhatsMinerModel.RunIsSound` | src/lua/scripts/HelperBase.lua:32-53 | The same over runs with retries |
| `WhatsMinerModel.OkIsAcknowledgedInRun` | src/lua/scripts/configurator/WhatsMinerHttpsLuci.lua:157-269 | Through the retry layer, with any replies and failures: the user is told "ok" only if one of the replies that reached the script acknowledged, with 200, a configuration that carried the token of its own page |
| `WhatsMinerModel.OkIsAcknowledged` | src/lua/scripts/configurator/WhatsMinerHttpsLuci.lua:157-269 | The same for the script on its own, from any sound state |
| `WhatsMiner.Configure` | src/lua/scripts/configurator/WhatsMinerHttpsLuci.lua:42-269 | The executor object, driven by responses: it ends within the bound, never looks for a program name where there is none, and says "ok" exactly when the miner acknowledged a restart, having acknowledged a configuration with the right token |
| `WhatsMinerOutcome.LoginIsFirst` | src/lua/scripts/ExecutorBase.lua:154-184 | The first request is the login with the password; no stored login leaves it empty, and one without a user name ends the script |
| `WhatsMinerOutcome.SecondLoginIff` | src/lua/scripts/configurator/WhatsMinerHttpsLuci.lua:47-60 | The login is sent again, without the password, exactly when the first one was not accepted, and never a third time |
| `WhatsMinerOutcome.TokenPageIff` | src/lua/scripts/configurator/WhatsMinerHttpsLuci.lua:47-104 | A token page is asked for exactly after an accepted login, under the first name, and after a page that was not found while names are left, under the next |
| `WhatsMinerOutcome.PowerModeIff` | src/lua/scripts/configurator/WhatsMinerHttpsLuci.lua:157-229 | The power mode is posted exactly after an acknowledged configuration when another mode was asked for, under the first name, and after a page that was not found, under the next, with the token fetched last |
| `WhatsMinerOutcome.RestartIff` | src/lua/scripts/configurator/WhatsMinerHttpsLuci.lua:191-260 | The restart is asked for exactly after an acknowledged configuration when no other mode was, after the power mode whether it could be set or not, and after a page that was not found while names are left |
| `WhatsMinerOutcome.OkIffRestarts` | src/lua/scripts/configurator/WhatsMinerHttpsLuci.lua:251-269 | Over all runs of the script: "ok" exactly when a restart was acknowledged with 302 |
| `WhatsMinerOutcome.OkIffRestartsInRun` | src/lua/scripts/configurator/WhatsMinerHttpsLuci.lua:251-269 | The same through the retry layer |
| `WhatsMinerOutcome.ServedIsConfigured` | src/lua/scripts/configurator/WhatsMinerHttpsLuci.lua:42-269 | A miner that accepts the login and answers its pages under one of the names listed, 404 under all others, is configured within the bound, and the user is told "ok" |
| `WhatsMinerOutcome.ServedPowersIff` | src/lua/scripts/configurator/WhatsMinerHttpsLuci.lua:168-240 | By then its own power page has acknowledged the mode, posted with its own token, exactly when another mode was asked for |
| `WhatsMinerOutcome.HealthyIsConfigured` | src/lua/scripts/configurator/WhatsMinerHttpsLuci.lua:42-269 | Both through the retry layer, however many sessions fail, as long as the replies that are handed on are such a miner's |
| `ConfiguringAll.ConfiguringEnds` | src/miner/MinerConfigurator.cpp:41-119 | Configuring a source of WhatsMiners under the scheduler, whatever the miners reply and in whatever order responses come: no more responses than the sum of the bounds of the miners, and once nothing is in flight every miner has been dealt with exactly once |
| `ConfiguringAll.ConfiguringScanEnds` | src/miner/MinerConfigurator.cpp:41-119 | The same with the sessions of the client in place of the assumption that what is in flight answers: no more responses than that sum, and when nothing can happen any more every miner has been dealt with, if and only if every request could be answered |
| `ConfiguringAll.InFlightAwaits` | src/miner/MinerConfigurator.cpp:80-112 | At every point of every run the script of a miner in flight is exactly where its responses so far have brought it, and awaits another: no response is handed to a request step, and no call is skipped |
| `Reboot.ConfigureAvalon` | src/lua/scripts/configurator/AvalonDeviceCgi.lua:3-180 | The Avalon executor object, driven by responses, ends within the bound below, and is always at the step that the replies call for |
| `Reboot.RebootAntminer` | src/lua/scripts/rebooter/AntminerHttpCgi.lua:4-75 | The Antminer executor object, driven by responses, ends within the bound below, and is always at the step that the replies call for |
| `RebootOutcome.AvalonFollows` | src/lua/scripts/configurator/AvalonDeviceCgi.lua:3-180 | Where the script is after any run, as a function of the replies that reach it: login, configuration, reboot request and polls in turn, ended by a login or configuration that is refused, by a poll that is answered, or by 32 polls |
| `RebootOutcome.AvalonRebootsIff` | src/lua/scripts/configurator/AvalonDeviceCgi.lua:31-138 | The reboot request is sent at some point exactly when the login and then the configuration are accepted |
| `RebootOutcome.AntminerFollows` | src/lua/scripts/rebooter/AntminerHttpCgi.lua:4-75 | The same for the Antminer, and its requests are authorized exactly when an authorization could be given by then |
| `RebootOutcome.AntminerRebootsIff` | src/lua/scripts/rebooter/AntminerHttpCgi.lua:21-38 | The authorized reboot request is sent at some point exactly when the first reply is a 401 challenge, and answering it raises no error |
| `Reboot.AvalonDeviceCgi.DoReboot` | src/lua/scripts/configurator/AvalonDeviceCgi.lua:140-145 | The counter is reset, the first wait is 20 seconds, and retrying is switched off |
| `Reboot.AvalonDeviceCgi.DoWaitFinish` | src/lua/scripts/configurator/AvalonDeviceCgi.lua:163-180 | A poll's outcome: done, given up, or another poll after 5 seconds |
| `RebootModel.AvalonEnds` | src/lua/scripts/configurator/AvalonDeviceCgi.lua:3-180 | Configuring an Avalon ends within 3 * (max(0, limit) + 1) + 32 responses |
| `RebootModel.AvalonPolls` | src/lua/scripts/configurator/AvalonDeviceCgi.lua:140-180 | No poll is retried; polling ends exactly when one is answered or 32 were not, and the user is told which |
| `RebootModel.AvalonRound` | src/lua/scripts/configurator/AvalonDeviceCgi.lua:3-180 | While polling, retrying is off, and the wait before a poll is 20 seconds for the first and 5 for the others |
| `RebootModel.AvalonRebootIsPolled` | src/lua/scripts/configurator/AvalonDeviceCgi.lua:140-161 | Whatever the answer to the reboot, polling starts at zero |
| `Reboot.AntminerHttpCgi.OnReboot` | src/lua/scripts/rebooter/AntminerHttpCgi.lua:40-50 | The step after the reboot request, whose branch for a rejected login is never taken |
| `Reboot.AntminerHttpCgi.Wait` | src/lua/scripts/rebooter/AntminerHttpCgi.lua:52-57 | A poll is sent after 5 seconds, authorized or not; only an error ends the script |
| `Reboot.AntminerHttpCgi.OnWait` | src/lua/scripts/rebooter/AntminerHttpCgi.lua:59-75 | A poll's outcome |
| `RebootModel.AntminerEnds` | src/lua/scripts/rebooter/AntminerHttpCgi.lua:4-75 | Rebooting an Antminer ends within 2 * (max(0, limit) + 1) + 32 responses |
| `RebootModel.AntminerPolls` | src/lua/scripts/rebooter/AntminerHttpCgi.lua:52-75 | No poll is retried; polling ends exactly when one is answered, 32 were not, or an authorization raises an error |
| `RebootModel.RejectionIsPolled` | src/lua/scripts/rebooter/AntminerHttpCgi.lua:40-50 | A reboot request rejected with 401 is polled for like an accepted one: the end meant for it is never reached |
| `LuaRef.LuaRef.Copy` | src/lua/oolua/oolua_ref.h:235-246 | A copy takes a slot of its own for the same value |
| `LuaRef.LuaRef.Release` | src/lua/oolua/oolua_ref.h:298-306 | A valid reference gives its slot back, and is invalid afterwards; the state is kept |
| `LuaRef.LuaRef.Assign` | src/lua/oolua/oolua_ref.h:254-260 | Assignment by copy, swap and destruction, self-assignment included |
| `LuaRef.LuaRef.Swap` | src/lua/oolua/oolua_ref.h:308-317 | The references exchange slots |
| `LuaRef.LuaRef.SetRef` | src/lua/oolua/oolua_ref.h:290-296 | The old slot is given back and the new one taken over |
| `LuaRef.LuaRef.PullIfValid` | src/lua/oolua/oolua_ref.h:348-404 | A value of the right kind takes a new slot, nil releases, anything else, an empty stack too, changes nothing |
| `LuaRef.LuaRef.IsValid` | src/lua/oolua/oolua_ref.h:278-282 | When a reference is valid |
| `LuaRefModel.EventRefines` | src/lua/oolua/oolua_ref.h:217-404 | Every operation keeps ownership, each valid reference holding one slot in use, no two the same and no slot without a holder, and acts on the values referred to as on plain variables |
| `LuaRefModel.RunsRefine` | src/lua/oolua/oolua_ref.h:217-404 | So does any sequence of operations: copies refer to the same value and stay independent of their source |
| `LuaRefModel.NothingIsLeft` | src/lua/oolua/oolua_ref.h:248-306 | The registries are empty exactly when no reference refers to a value |
| `LuaRefModel.AssignReplaces` | src/lua/oolua/oolua_ref.h:254-260 | Assignment, to itself too, replaces the slot held by a fresh one with the value assigned, and frees the old one |
| `LuaRefModel.OwnersFollow` | src/lua/oolua/oolua_ref.h:160-300 | After any operation every reference belongs to the state it should: that of what was copied or taken over, none after copying one that refers to nothing, and the same as before when a value is given up or refused |
| `IpRangeModel.MakeRangeCovers` | src/utils/IpGenerator.cpp:17-38 | The range of two addresses does not depend on their order and holds exactly the addresses between them but for 255.255.255.255 |
| `IpRangeModel.NoWrap` | src/utils/IpGenerator.cpp:76-104 | No 32-bit counter of a range wraps: the count is the number of addresses and counting up stays in range |
| `IpGenerator.Generator.constructor` | src/utils/IpGenerator.cpp:17-38 | The ends in order, the highest address cut off |
| `IpGenerator.Generator.Next` | src/utils/IpGenerator.cpp:81-84 | The first address left, and the rest |
| `IpGenerator.Generator.GenIpRange` | src/utils/IpGenerator.cpp:40-56 | All addresses left, in order; the unused signed step counter overflows exactly when there are more than 2^31 - 1 of them |
| `IpGenerator.HalfIsTooMany` | src/utils/IpGenerator.cpp:17-56 | 0.0.0.0 to 127.255.255.255 is one too many, and the range without its first address is not |
| `IpGenerator.DrainHalf` | src/utils/IpGenerator.cpp:40-56 | Draining a generator of that range overflows the counter |
| `IpGenerator.Generator.GenIpRangeStep` | src/utils/IpGenerator.cpp:58-74 | The first `stepSize` addresses, or all when there are fewer |
| `IpGenerator.GeneratorGroup.AddIpRange` | src/utils/IpGenerator.cpp:182-189 | A nonempty range joins at the end and is counted |
| `IpGenerator.GeneratorGroup.HasMore` | src/utils/IpGenerator.cpp:227-230 | More addresses are reported exactly when there are some |
| `IpGenerator.GeneratorGroup.Next` | src/utils/IpGenerator.cpp:232-244 | The first address of the group; a used-up generator is dropped |
| `IpGenerator.GeneratorGroup.GenIpRange` | src/utils/IpGenerator.cpp:197-214 | Everything, in order; at each suspension the count is right with the address just yielded still included, and no listed generator is empty |
| `IpGenerator.GeneratorGroup.GenIpRangeStep` | src/utils/IpGenerator.cpp:216-225 | A batch; at each suspension the count is right with the address just yielded excluded, and no listed generator is empty |
| `IpRangeModel.TakeTakesFirst` | src/utils/IpGenerator.cpp:232-244 | Taking an address takes the first one and leaves count and list right |
| `IpRangeModel.RunsConserve` | src/utils/IpGenerator.cpp:177-244 | Any mix of single addresses, drained batches and added ranges: what was yielded, followed by what is left, is what there was, followed by what was added |
| `IpRangeText.SplitIpRange` | src/utils/IpGenerator.cpp:121-167 | The two ends of a range text |
| `IpRangeText.DashCompletes` | src/utils/IpGenerator.cpp:130-150 | Two addresses with a dash: the second is completed by as many leading sections of the first as it has fewer |
| `IpRangeText.QuadCompletes` | src/utils/IpGenerator.cpp:130-150 | The same for two dotted quads of which the second keeps its last k sections |
| `IpRangeText.NotationIgnored` | src/utils/IpGenerator.cpp:125-126 | A tilde counts as a dash, and a character outside digits, `*`, `.` and `-` as nothing, wherever it stands |
| `IpRangeText.OrderIgnored` | src/utils/IpGenerator.cpp:17-38 | For two full addresses the constructed range does not depend on their order |
| `IpRangeText.AsterisksSpan` | src/utils/IpGenerator.cpp:152-159 | Section by section, asterisks are 0 in the first address and 255 in the last |
| `IpRangeText.SingleIsBoth` | src/utils/IpGenerator.cpp:161-166 | An address without a dash or an asterisk is both ends |
| `IpRangeText.AllowedAre` | src/utils/IpGenerator.cpp:125-126 | The characters kept are the digits, asterisk, dot and dash |
| `IpRangeText.SplitJoin` | src/utils/IpGenerator.cpp:138-139 | Splitting at the dots undoes joining |

## Left out

- Redefinitions.RedefinitionRepairsIffLevelled: quantifies over members, former superclasses and other classes; for one given set of members uneven paths can do no harm, and which members they harm is not characterised.
- The special member `__index` and uncached superclasses of cached classes: the copying code treats both apart from all other members.
- IpRangeModel.RunsConserve: counts addresses of a group without a bound, because 2^32 full ranges would be needed to exceed the 64-bit count.
- IpRangeModel.RunsConserve: batches are drained; taking single addresses between two of a batch, or leaving a batch part-way, is not modelled.
- UserdataChain.ChainLeavesOneIff: the other userdata at the addresses of the object are of unrelated classes; where they are not, UserdataCounts.RunCounts counts the userdata of an object by its pushes, UserdataRegistration.AddsAnotherIff and UserdataIdentity.FindsOwnIff say what a push finds, and no condition on the sequence of classes alone is given.
- UserdataCache.WeakTable.PushPointer: userdata are records in a map of the cache object rather than objects of their own, and the Lua stack is not modelled.
- LoopCalls.MakeAll: for redefinitions over uneven paths it promises the hierarchy, the links and the members, and nothing about tables.
- ExecutorModel.RetryIsBounded: the limit is a whole number that stays the same; the program reads it from an option each time a retry ends.
- WhatsMinerModel.ConfigurationEnds: whether a login is stored does not change while a miner is configured.
- SchedulerModel.RunsAreConserved: miners yielded to the consumer between script calls, and `stop`, are not modelled.
- Scanning.ScanIsDoneIff: time is not modelled, so a peer that sends for ever, with no timeout set, is a scan that does not end; and once a host lookup has raised an error nothing happens any more, but requests of the initial fill that came after it count as submitted.
- ConfiguringAll.ConfiguringScanEnds: what a script makes of the responses is arbitrary and not tied to the bytes that its sessions received.
- SessionModel.AtMostOneResponse: the branch of `yield` for a response that is not final is left out, because every call passes an error code, which makes the response final.
- Session.TcpSession.RunNow: an error of the host lookup leaves the session as raised; what becomes of the client, of the other sessions and of the event loop when it leaves `run` is not modelled.
- Sockets, TLS, stack switching of coroutines and file opening appear as completion events, byte sequences and suspension points; whether a host resolves is part of the request.
- Parsing of HTTP, JSON and page texts in the scripts: what a handler finds in a response is an arbitrary reply.
- The client side of `Client.cpp` beyond submitting all requests before the event loop and one session per request.
- Two contexts for miners with one IP: their executors would be shared by `HelperBase`.
- Session timeouts and status texts set by the scripts, and all executors other than the three modelled.
- Shared-pointer configuration of OOLua, metatables, type traits, converters, macros and generated export tables.
- Comparison and pushing of Lua references: they read a slot and change nothing.
- The conversion of an address text to a number and back, which the C library does.
- `Crypto.cpp`, the toolkits, the demonstration programs and the build scripts.
