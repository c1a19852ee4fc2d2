# CoreStore context hierarchy, modelled in Dafny

This project models how CoreStore (`NSManagedObjectContext+Setup.swift`) sets up and links
its Core Data contexts. Core Data itself is abstracted away. The model covers:

- **Owning-stack resolution (`parentStack`).** The getter walks up `parentContext` links to
  the parentless context and reads that context's weak stack association. The setter is
  ignored on a context that has a parent. On a parentless context it stores or clears
  the association.
- **The root (writer) context** built by `rootSavingContextForCoordinator`. It is a
  private-queue context bound to the coordinator, with the object-trump merge policy and
  no undo manager. It has one observer for ubiquitous-content imports from that
  coordinator.
- **The main (reader) context** built by `mainContextForRootContext`. It is a main-queue
  child of the root, with the rollback merge policy and no undo manager. It has one
  observer for the root's did-save notifications.
- **The merge-on-save rule.** If the observing context is gone, nothing happens.
  Otherwise every updated object is fault-fetched and then the notification is merged.
  The merge runs before the handler returns when the root is saving synchronously.
  Otherwise it is enqueued on the context's queue.

Files:

- `types.dfy` (module `Types`) holds the identities, the context configuration, the
  observers and notifications, and reads and writes of one association slot.
- `parent_stack.dfy` (module `ParentStack`) holds the `parentStack` getter as a function
  over the parent map and the association map, with its lemmas.
- `merge.dfy` (module `Merge`) holds the framework merge, the intended merge, the merge
  block (fault-fetch loop, then merge) and a serial queue running its blocks.
- `context_table.dfy` (module `ContextSetup`) holds the class `ContextTable`. Its map
  fields are the live contexts, the parent links and the association table. Its methods
  are the setters, the two constructors and the two observer closures.
- `scenarios.dfy` (module `Scenarios`) holds end-to-end runs: a synchronous save, an
  asynchronous save, an import reaching the reader, and a released reader.

Modelling choices:

- **Context identities.** Contexts are numbered in creation order, and a parent always
  precedes its child. The source always gives a freshly created context an existing
  parent, so this holds. It is also what makes the recursive getter terminate.
- **A gone context** is one absent from the table. `Release` models deallocation. A
  context can only be released when no child exists, because a child retains its parent.
  Its associations go with it.
- **The framework merge** (`mergeChangesFromContextDidSaveNotification`) refreshes only
  objects registered in the destination context. The fault-fetch
  (`objectWithID(id).willAccessValueForKey(nil)`) registers an object. So the fault-fetch
  loop is what makes every updated object take its committed value.
- **A context's queue** is the sequence of blocks handed to `performBlock` that have not
  run yet. Where a `performBlockAndWait` block runs depends on the thread the did-save
  notification is delivered on, which the model takes as a parameter of the handler.
  Called from another queue, the block waits behind the blocks already queued, so the
  synchronous branch runs the whole queue up to and including the new block before it
  returns. Called on the context's own queue, the call is reentrant: the block runs at
  once, ahead of the waiting blocks, which stay queued and run after it. Under the merge
  abstraction below, their values then replace the new ones.
- **Back-reference writes.** A parentless context's association can be overwritten or
  cleared at any time; nothing makes it write-once. The model follows the code.

## Model

| member | source | states |
|---|---|---|
| ParentStack.ResolveStack | Pods/CoreStore/Sources/Internal/NSManagedObjectContext+Setup.swift:39-47 | the getter only ever answers with a stack that some context holds as its association, or with none |
| ParentStack.RootOf | Pods/CoreStore/Sources/Internal/NSManagedObjectContext+Setup.swift:41-44 | following parent links from a context reaches a parentless context created no later than it |
| ParentStack.ResolveAtAncestor | Pods/CoreStore/Sources/Internal/NSManagedObjectContext+Setup.swift:41-44 | every ancestor of a context resolves to the same stack as the context |
| ParentStack.ResolveIsRootStack | Pods/CoreStore/Sources/Internal/NSManagedObjectContext+Setup.swift:39-47 | a context's resolved stack is its root's association, or none when the root has none |
| ParentStack.ResolveAfterSet | Pods/CoreStore/Sources/Internal/NSManagedObjectContext+Setup.swift:55-59 | writing a context's association changes the resolved stack of exactly the contexts rooted at it, to the written value |
| ParentStack.ResolveAfterNewChild | Pods/CoreStore/Sources/Internal/NSManagedObjectContext+Setup.swift:100 | giving a new context a parent leaves every existing context's resolved stack unchanged |
| ParentStack.ResolveAfterLeafRemoved | Pods/CoreStore/Sources/Internal/NSManagedObjectContext+Setup.swift:107-113 | removing a context that is nobody's parent leaves every other context's resolved stack unchanged |
| Types.SetAssociated | Pods/CoreStore/Sources/Internal/NSManagedObjectContext+Setup.swift:157-163 | an association slot holds one value per key: writing replaces it, `None` clears it, other keys keep theirs |
| Merge.MergeUpdated | Pods/CoreStore/Sources/Internal/NSManagedObjectContext+Setup.swift:121 | the intended merge: updated objects take the notification's values, all other objects keep theirs |
| Merge.MergeDidSave | Pods/CoreStore/Sources/Internal/NSManagedObjectContext+Setup.swift:121 | the framework merge refreshes registered updated objects only and leaves every other object as it was |
| Merge.MergeAfterFaulting | Pods/CoreStore/Sources/Internal/NSManagedObjectContext+Setup.swift:117-121 | once every updated object is registered, the framework merge equals the intended merge |
| Merge.MergeSkipsUnfaulted | Pods/CoreStore/Sources/Internal/NSManagedObjectContext+Setup.swift:117-121 | without the fault-fetch, an updated object the context has neither materialised nor registered stays absent, though the intended merge would add it |
| Merge.RunMergeBlock | Pods/CoreStore/Sources/Internal/NSManagedObjectContext+Setup.swift:114-122 | the merge block registers every updated object and then leaves each updated object with its committed value and every other object unchanged |
| Merge.RunQueue | Pods/CoreStore/Sources/Internal/NSManagedObjectContext+Setup.swift:124-131 | a serial queue running its blocks in order reaches the fold of their merges and registers every object they update |
| Merge.PendingIds | Pods/CoreStore/Sources/Internal/NSManagedObjectContext+Setup.swift:116-119 | every object updated by a waiting block is among those the queue will fault-fetch |
| Merge.PendingIdsOnlyFromBlocks | Pods/CoreStore/Sources/Internal/NSManagedObjectContext+Setup.swift:116-119 | the queue fault-fetches no object that none of its blocks updates |
| Merge.ApplyPending | Pods/CoreStore/Sources/Internal/NSManagedObjectContext+Setup.swift:130 | running the waiting blocks touches only the objects they update |
| Merge.PendingIdsAppend | Pods/CoreStore/Sources/Internal/NSManagedObjectContext+Setup.swift:130 | enqueuing a block adds exactly its updated objects to those the queue will touch |
| Merge.ApplyPendingAppend | Pods/CoreStore/Sources/Internal/NSManagedObjectContext+Setup.swift:124-131 | a block enqueued behind others takes effect after them, in enqueue order |
| Merge.LastMergeWins | Pods/CoreStore/Sources/Internal/NSManagedObjectContext+Setup.swift:124-127 | once the queue has run through a block, every object it updated holds that block's value |
| ContextSetup.ContextTable.NewContext | Pods/CoreStore/Sources/Internal/NSManagedObjectContext+Setup.swift:66 | a new context is fresh, parentless, has Core Data's default configuration, no objects and an empty queue |
| ContextSetup.ContextTable.SetParentStack | Pods/CoreStore/Sources/Internal/NSManagedObjectContext+Setup.swift:48-60 | on a context with a parent nothing changes; otherwise the association is written, the next read returns it, and only contexts rooted there change their resolved stack |
| ContextSetup.ContextTable.SetDidSaveObserver | Pods/CoreStore/Sources/Internal/NSManagedObjectContext+Setup.swift:157-164 | the did-save observer slot holds at most one observer per context; setting replaces it |
| ContextSetup.ContextTable.SetImportObserver | Pods/CoreStore/Sources/Internal/NSManagedObjectContext+Setup.swift:177-184 | the import observer slot holds at most one observer per context; setting replaces it |
| ContextSetup.ContextTable.SetSavingSynchronously | Pods/CoreStore/Sources/Internal/NSManagedObjectContext+Setup.swift:124 | records the flag the did-save handler reads on the saving context |
| ContextSetup.ContextTable.SetParentContext | Pods/CoreStore/Sources/Internal/NSManagedObjectContext+Setup.swift:100 | the child resolves to its parent's stack and every other context keeps its resolved stack |
| ContextSetup.ContextTable.RootSavingContextForCoordinator | Pods/CoreStore/Sources/Internal/NSManagedObjectContext+Setup.swift:64-94 | a new parentless private-queue context with the coordinator, object-trump policy, no undo manager, the root name, no stack yet, and exactly one import observer scoped to the coordinator |
| ContextSetup.ContextTable.MainContextForRootContext | Pods/CoreStore/Sources/Internal/NSManagedObjectContext+Setup.swift:97-135 | a new main-queue child of the root with rollback policy, no undo manager, the main name, exactly one did-save observer scoped to the root, resolving to the root's stack while existing contexts keep theirs |
| ContextSetup.ContextTable.RunNextBlock | Pods/CoreStore/Sources/Internal/NSManagedObjectContext+Setup.swift:130 | the queue runs its oldest block; the state the queue will eventually reach is unchanged |
| ContextSetup.ContextTable.DidSaveObserverFired | Pods/CoreStore/Sources/Internal/NSManagedObjectContext+Setup.swift:107-132 | nothing changes when the sender is not a context or the target is gone; a synchronous save is merged before return, leaving every updated object with its committed value, after the waiting blocks when called from another queue and ahead of them (which stay queued) when called on the target's own queue; otherwise the merge is only enqueued and the objects are untouched |
| ContextSetup.ContextTable.ImportObserverFired | Pods/CoreStore/Sources/Internal/NSManagedObjectContext+Setup.swift:77-88 | for a live target the merge block is always enqueued, never run at once; a gone target is left alone |
| ContextSetup.ContextTable.Release | Pods/CoreStore/Sources/Internal/NSManagedObjectContext+Setup.swift:107-130 | only a context that is nobody's parent and, if it observes did-saves, has no waiting merge block (which would hold it strongly) can go; it leaves the table with all its associations, and every remaining context keeps its resolved stack |
| Scenarios.SynchronousSaveIsVisible | Pods/CoreStore/Sources/Internal/NSManagedObjectContext+Setup.swift:124-127 | after a synchronous save the reader already holds the committed value, whichever queue the notification arrives on, and resolves to the writer's stack |
| Scenarios.AsynchronousSaveIsEventual | Pods/CoreStore/Sources/Internal/NSManagedObjectContext+Setup.swift:128-131 | after an asynchronous save the reader is unchanged until its queue runs the block, then holds the committed value |
| Scenarios.ImportReachesReader | Pods/CoreStore/Sources/Internal/NSManagedObjectContext+Setup.swift:74-89 | an import reaches the writer on its queue and the writer's next synchronous save carries it to the reader |
| Scenarios.ReleasedReaderIsUntouched | Pods/CoreStore/Sources/Internal/NSManagedObjectContext+Setup.swift:107-113 | a released reader has no observer, and a later save changes no context |
| Scenarios.ReentrantSaveIsOverwritten | Pods/CoreStore/Sources/Internal/NSManagedObjectContext+Setup.swift:124-131 | a synchronous save arriving on the reader's own queue is visible at return, and an older asynchronous merge still waiting there runs after it and, since the model's merge writes each note's values, replaces it |

## Left out

- The demo view controller (`RockCoreStore/ViewController.swift`) only calls library APIs and prints.
- Notification delivery: the handlers are called with their target directly. `NotificationCenter` and the lifetime of `NotificationObserver` are not modelled.
- Queues and threads: a queue is the list of blocks it has not run yet. Thread confinement and the thread safety of the association table are not modelled.
- The `#if os(iOS) || os(OSX)` gating: the import observer is always installed.
- `setupForCoreStoreWithContextName` and the `cs_getAssociated*`/`cs_setAssociated*` helpers are not part of this model. The first is not shown; the model keeps only the name passed to it (`ContextConfig.name`). The others are modelled as map reads and writes.
- Weak and retained ownership: whether the owning stack is still alive is not modelled. An association stays until it is cleared or its context is released.
- The save machinery that sets `isSavingSynchronously` is not part of this model. `SetSavingSynchronously` stands in for it.
- Merge.MergeDidSave: the merge writes the notification's values instead of refreshing from the parent's current state, so a late, older merge brings back the older value where Core Data's refresh need not.
- Merge contents: only updated objects are merged. Inserted and deleted objects are not modelled, and neither is conflict resolution by the recorded merge policies.
- Fault-fetch: `objectWithID` registers an object but does not load a value from the store.
- Coordinator inheritance: a child context's coordinator is reached through its parent in Core Data; the model records only the coordinator set directly.
- The undo manager Core Data gives a new context depends on the platform. The model starts every new context with one, and both constructors clear it.
- Merge failures: a merge always succeeds; store errors belong to the surrounding save machinery.
