/** The context hierarchy as CoreStore builds it: a table of live contexts, each with its
    configuration, in-memory objects and waiting merge blocks; the parent links between
    them; and the associations kept beside each context (the weak owning-stack reference
    and the two retained notification observers). */
module ContextSetup {
  import opened Types
  import opened ParentStack
  import opened Merge

  /** One live context: how it was configured, the values of the objects it holds, the
      objects it has materialised by identifier, and the blocks handed to its
      `performBlock` that have not run yet, oldest first. */
  datatype ManagedContext = ManagedContext(
    config: ContextConfig,
    objects: map<ObjectID, Value>,
    registered: set<ObjectID>,
    pending: seq<PendingMerge>)

  class ContextTable {
    /** The live contexts; a context that is gone is absent. */
    var contexts: map<Ctx, ManagedContext>
    /** `parentContext` of every context that has one. */
    var parent: map<Ctx, Ctx>
    /** The weak `parentStack` association. */
    var assocStack: map<Ctx, StackRef>
    /** The retained `observerForDidSaveNotification` association. */
    var didSaveObserver: map<Ctx, Observer>
    /** The retained `observerForDidImportUbiquitousContentChangesNotification` association. */
    var importObserver: map<Ctx, Observer>
    /** The contexts whose `isSavingSynchronously` is true. */
    var savingSynchronously: set<Ctx>
    /** The identity the next context created receives. */
    var nextCtx: Ctx

    ghost predicate Valid()
      reads this
    {
      && ParentsPrecede(parent)
      && parent.Keys <= contexts.Keys
      && (forall c :: c in parent ==> parent[c] in contexts)
      && assocStack.Keys <= contexts.Keys
      && didSaveObserver.Keys <= contexts.Keys
      && importObserver.Keys <= contexts.Keys
      && savingSynchronously <= contexts.Keys
      && (forall c :: c in contexts ==> c < nextCtx)
    }

    constructor ()
      ensures Valid()
      ensures contexts == map[] && nextCtx == 0
    {
      contexts, parent, assocStack := map[], map[], map[];
      didSaveObserver, importObserver, savingSynchronously := map[], map[], {};
      nextCtx := 0;
    }

    /** `NSManagedObjectContext(concurrencyType:)`: a new parentless context with Core
        Data's defaults (no coordinator, the error merge policy, an undo manager, no
        name), no objects and an empty queue. */
    method NewContext(concurrency: ConcurrencyType) returns (c: Ctx)
      requires Valid()
      modifies this`contexts, this`nextCtx
      ensures Valid()
      ensures c == old(nextCtx) && c !in old(contexts)
      ensures forall d :: d in old(contexts) ==> d < c
      ensures contexts == old(contexts)[c := ManagedContext(ContextConfig(concurrency, None, ErrorMergePolicy, true, None), map[], {}, [])]
    {
      c := nextCtx;
      contexts := contexts[c := ManagedContext(ContextConfig(concurrency, None, ErrorMergePolicy, true, None), map[], {}, [])];
      nextCtx := nextCtx + 1;
    }

    /** The `parentStack` setter: a context that has a parent ignores the write; a
        parentless one stores (or, for `None`, clears) its association, which then
        becomes the resolved stack of every context under it and of no other. */
    method SetParentStack(c: Ctx, s: Option<StackRef>)
      requires Valid() && c in contexts
      modifies this`assocStack
      ensures Valid()
      ensures c in parent ==> assocStack == old(assocStack)
      ensures c !in parent ==> assocStack == SetAssociated(old(assocStack), c, s)
      ensures c !in parent ==> ResolveStack(parent, assocStack, c) == s
      ensures forall d :: ResolveStack(parent, assocStack, d)
                       == if c !in parent && RootOf(parent, d) == c then s else old(ResolveStack(parent, assocStack, d))
    {
      if c in parent {
        return;
      }
      assocStack := SetAssociated(assocStack, c, s);
      forall d ensures ResolveStack(parent, assocStack, d)
                    == if RootOf(parent, d) == c then s else old(ResolveStack(parent, assocStack, d))
      {
        ResolveAfterSet(parent, old(assocStack), c, s, d);
      }
    }

    /** The did-save observer property's setter: one slot per context, so a new
        observer replaces the previous one and `None` releases it. */
    method SetDidSaveObserver(c: Ctx, o: Option<Observer>)
      requires Valid() && c in contexts
      modifies this`didSaveObserver
      ensures Valid()
      ensures didSaveObserver == SetAssociated(old(didSaveObserver), c, o)
    {
      didSaveObserver := SetAssociated(didSaveObserver, c, o);
    }

    /** The import observer property's setter, with the same one-slot behaviour. */
    method SetImportObserver(c: Ctx, o: Option<Observer>)
      requires Valid() && c in contexts
      modifies this`importObserver
      ensures Valid()
      ensures importObserver == SetAssociated(old(importObserver), c, o)
    {
      importObserver := SetAssociated(importObserver, c, o);
    }

    /** Records the save machinery's `isSavingSynchronously` flag on a context. */
    method SetSavingSynchronously(c: Ctx, flag: bool)
      requires Valid() && c in contexts
      modifies this`savingSynchronously
      ensures Valid()
      ensures savingSynchronously == if flag then old(savingSynchronously) + {c} else old(savingSynchronously) - {c}
    {
      savingSynchronously := if flag then savingSynchronously + {c} else savingSynchronously - {c};
    }

    /** Setting `parentContext` on a context that has no links yet, to a context created
        before it. The new child resolves to its parent's stack, and every other context
        keeps its resolved stack. */
    method SetParentContext(c: Ctx, p: Ctx)
      requires Valid() && c in contexts && p in contexts && p < c
      requires c !in parent && c !in parent.Values
      modifies this`parent
      ensures Valid()
      ensures parent == old(parent)[c := p]
      ensures ResolveStack(parent, assocStack, c) == ResolveStack(parent, assocStack, p)
      ensures forall d :: d != c ==> ResolveStack(parent, assocStack, d) == old(ResolveStack(parent, assocStack, d))
    {
      ghost var known := contexts.Keys - {c};
      forall d | d != c
        ensures ParentsPrecede(parent[c := p])
        ensures ResolveStack(parent[c := p], assocStack, d) == ResolveStack(parent, assocStack, d)
      {
        if d in known {
          ResolveAfterNewChild(parent, assocStack, known, c, p, d);
        } else {
          ResolveAfterNewChild(parent, assocStack, known + {d}, c, p, d);
        }
      }
      parent := parent[c := p];
    }

    /** `rootSavingContextForCoordinator`: a parentless private-queue context bound to
        the coordinator, with the object-trump merge policy, no undo manager, the root
        context name, and a single import observer scoped to that coordinator. It has no
        owning stack until one is set. */
    method RootSavingContextForCoordinator(coordinator: Coordinator) returns (c: Ctx)
      requires Valid()
      modifies this`contexts, this`nextCtx, this`importObserver
      ensures Valid()
      ensures c !in old(contexts) && c !in parent
      ensures contexts == old(contexts)[c := ManagedContext(
                ContextConfig(PrivateQueueConcurrency, Some(coordinator), MergeByPropertyObjectTrump, false, Some(RootContextName)),
                map[], {}, [])]
      ensures importObserver == old(importObserver)[c := Observer(DidImportUbiquitousContentChanges, CoordinatorSender(coordinator))]
      ensures c !in didSaveObserver
      ensures ResolveStack(parent, assocStack, c) == None
    {
      c := NewContext(PrivateQueueConcurrency);
      var config := contexts[c].config;
      config := config.(coordinator := Some(coordinator));
      config := config.(mergePolicy := MergeByPropertyObjectTrump);
      config := config.(hasUndoManager := false);
      config := config.(name := Some(RootContextName));
      contexts := contexts[c := contexts[c].(config := config)];
      SetImportObserver(c, Some(Observer(DidImportUbiquitousContentChanges, CoordinatorSender(coordinator))));
    }

    /** `mainContextForRootContext`: a main-queue context whose parent is `root`, with
        the rollback merge policy, no undo manager, the main context name, and a single
        did-save observer scoped to `root`. It resolves to the root's stack, and every
        context that already existed keeps its resolved stack. */
    method MainContextForRootContext(root: Ctx) returns (c: Ctx)
      requires Valid() && root in contexts
      modifies this`contexts, this`nextCtx, this`parent, this`didSaveObserver
      ensures Valid()
      ensures c !in old(contexts)
      ensures parent == old(parent)[c := root]
      ensures contexts == old(contexts)[c := ManagedContext(
                ContextConfig(MainQueueConcurrency, None, RollbackMergePolicy, false, Some(MainContextName)),
                map[], {}, [])]
      ensures didSaveObserver == old(didSaveObserver)[c := Observer(ContextDidSave, ContextSender(root))]
      ensures c !in importObserver
      ensures ResolveStack(parent, assocStack, c) == ResolveStack(parent, assocStack, root)
      ensures forall d :: d in old(contexts) ==> ResolveStack(parent, assocStack, d) == old(ResolveStack(parent, assocStack, d))
    {
      c := NewContext(MainQueueConcurrency);
      forall v | v in parent.Values
        ensures v != c
      {
        var k :| k in parent && parent[k] == v;
      }
      SetParentContext(c, root);
      var config := contexts[c].config;
      config := config.(mergePolicy := RollbackMergePolicy);
      config := config.(hasUndoManager := false);
      config := config.(name := Some(MainContextName));
      contexts := contexts[c := contexts[c].(config := config)];
      SetDidSaveObserver(c, Some(Observer(ContextDidSave, ContextSender(root))));
    }

    /** The context's queue runs its oldest waiting block. What the queue will
        eventually have produced is unchanged by running one block. */
    method RunNextBlock(c: Ctx)
      requires Valid() && c in contexts && contexts[c].pending != []
      modifies this`contexts
      ensures Valid()
      ensures var was := old(contexts[c]);
              contexts == old(contexts)[c := was.(
                objects := MergeUpdated(was.objects, was.pending[0].updated),
                registered := was.registered + was.pending[0].updated.Keys,
                pending := was.pending[1..])]
      ensures ApplyPending(contexts[c].objects, contexts[c].pending)
           == old(ApplyPending(contexts[c].objects, contexts[c].pending))
    {
      var ctx := contexts[c];
      var state, regs := RunMergeBlock(ctx.objects, ctx.registered, ctx.pending[0].updated);
      contexts := contexts[c := ctx.(objects := state, registered := regs, pending := ctx.pending[1..])];
    }

    /** The did-save observer installed on `target` fires. If the notification's object
        is not a context, or `target` is gone, nothing happens. If the saving context is
        saving synchronously, `performBlockAndWait` runs the merge before the handler
        returns, and every updated object holds its committed value. Where it runs
        depends on the thread the notification arrives on (`onTargetQueue`): off the
        target's queue, the block waits behind those already queued and the whole queue
        runs; on the target's own queue the call is reentrant, so the block runs at once,
        ahead of the waiting blocks, which stay queued and run over it later. Otherwise
        the merge is only enqueued and the target's objects are untouched. */
    method DidSaveObserverFired(target: Ctx, note: SaveNote, onTargetQueue: bool)
      requires Valid()
      modifies this`contexts
      ensures Valid()
      ensures note.source.None? || target !in old(contexts) ==> contexts == old(contexts)
      ensures note.source.Some? && target in old(contexts) && note.source.value in savingSynchronously ==>
                && target in contexts
                && forall id :: id in note.updated ==>
                  id in contexts[target].objects && contexts[target].objects[id] == note.updated[id]
      ensures note.source.Some? && target in old(contexts) && note.source.value in savingSynchronously
              && !onTargetQueue ==>
                var was := old(contexts[target]);
                var queue := was.pending + [PendingMerge(note.updated)];
                contexts == old(contexts)[target := was.(
                  objects := ApplyPending(was.objects, queue),
                  registered := was.registered + PendingIds(queue),
                  pending := [])]
      ensures note.source.Some? && target in old(contexts) && note.source.value in savingSynchronously
              && onTargetQueue ==>
                var was := old(contexts[target]);
                && contexts == old(contexts)[target := was.(
                     objects := MergeUpdated(was.objects, note.updated),
                     registered := was.registered + note.updated.Keys)]
                && ApplyPending(contexts[target].objects, contexts[target].pending)
                   == ApplyPending(MergeUpdated(was.objects, note.updated), was.pending)
      ensures note.source.Some? && target in old(contexts) && note.source.value !in savingSynchronously ==>
                var was := old(contexts[target]);
                && contexts == old(contexts)[target := was.(pending := was.pending + [PendingMerge(note.updated)])]
                && contexts[target].objects == was.objects
    {
      if note.source.None? || target !in contexts {
        return;
      }
      var root := note.source.value;
      var ctx := contexts[target];
      var block := PendingMerge(note.updated);
      if root in savingSynchronously && onTargetQueue {
        // performBlockAndWait from the target's own queue: the block runs in place
        var state, regs := RunMergeBlock(ctx.objects, ctx.registered, note.updated);
        contexts := contexts[target := ctx.(objects := state, registered := regs)];
      } else if root in savingSynchronously {
        // performBlockAndWait from another queue: the block runs after those already queued
        var state, regs := RunQueue(ctx.objects, ctx.registered, ctx.pending + [block]);
        forall id | id in note.updated
          ensures id in state && state[id] == note.updated[id]
        {
          LastMergeWins(ctx.objects, ctx.pending, block, id);
        }
        contexts := contexts[target := ctx.(objects := state, registered := regs, pending := [])];
      } else {
        contexts := contexts[target := ctx.(pending := ctx.pending + [block])];
      }
    }

    /** The import observer installed on `target` fires: if `target` is still alive, the
        merge block is enqueued on its queue; nothing else changes. */
    method ImportObserverFired(target: Ctx, note: ImportNote)
      requires Valid()
      modifies this`contexts
      ensures Valid()
      ensures target !in old(contexts) ==> contexts == old(contexts)
      ensures target in old(contexts) ==>
                var was := old(contexts[target]);
                contexts == old(contexts)[target := was.(pending := was.pending + [PendingMerge(note.updated)])]
    {
      if target in contexts {
        var ctx := contexts[target];
        contexts := contexts[target := ctx.(pending := ctx.pending + [PendingMerge(note.updated)])];
      }
    }

    /** A context is deallocated. Only a context that is nobody's parent can go, since
        a child retains its parent. A context with a did-save observer cannot go while
        blocks wait on its queue either, since a waiting did-save merge block holds its
        context strongly; a waiting import block holds its context weakly and is dropped.
        Its associations (stack reference, observers), its objects and any waiting import
        blocks go with it; every other context keeps its resolved stack. */
    method Release(c: Ctx)
      requires Valid() && c in contexts && c !in parent.Values
      requires c in didSaveObserver ==> contexts[c].pending == []
      modifies this`contexts, this`parent, this`assocStack, this`didSaveObserver, this`importObserver
      modifies this`savingSynchronously
      ensures Valid()
      ensures contexts == old(contexts) - {c} && parent == old(parent) - {c}
      ensures assocStack == old(assocStack) - {c}
      ensures didSaveObserver == old(didSaveObserver) - {c} && importObserver == old(importObserver) - {c}
      ensures savingSynchronously == old(savingSynchronously) - {c}
      ensures forall d :: d in contexts ==> ResolveStack(parent, assocStack, d) == old(ResolveStack(parent, assocStack, d))
    {
      forall d | d in contexts && d != c
        ensures ParentsPrecede(parent - {c})
        ensures ResolveStack(parent - {c}, assocStack - {c}, d) == ResolveStack(parent, assocStack, d)
      {
        ResolveAfterLeafRemoved(parent, assocStack, c, d);
      }
      contexts, parent, assocStack := contexts - {c}, parent - {c}, assocStack - {c};
      didSaveObserver, importObserver := didSaveObserver - {c}, importObserver - {c};
      savingSynchronously := savingSynchronously - {c};
    }
  }
}
