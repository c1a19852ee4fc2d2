/** End-to-end runs of the hierarchy: a stack builds its writer and reader contexts, points
    the writer back at itself, and the writer's saves and imports reach the reader. */
module Scenarios {
  import opened Types
  import opened ParentStack
  import opened ContextSetup

  /** A save performed synchronously on the writer is visible in the reader by the time
      the did-save handler returns, on whichever queue the notification arrives, and the
      reader resolves to the writer's stack. */
  method SynchronousSaveIsVisible(coordinator: Coordinator, stack: StackRef, id: ObjectID, v: Value, onReaderQueue: bool)
    returns (owner: Option<StackRef>, seen: Option<Value>)
    ensures owner == Some(stack)
    ensures seen == Some(v)
  {
    var t := new ContextTable();
    var root := t.RootSavingContextForCoordinator(coordinator);
    t.SetParentStack(root, Some(stack));
    var main := t.MainContextForRootContext(root);
    owner := ResolveStack(t.parent, t.assocStack, main);
    t.SetSavingSynchronously(root, true);
    t.DidSaveObserverFired(main, SaveNote(Some(root), map[id := v]), onReaderQueue);
    seen := Get(t.contexts[main].objects, id);
  }

  /** A save that is not synchronous leaves the reader as it was until its queue runs the
      enqueued block; after that the reader holds the committed value. */
  method AsynchronousSaveIsEventual(coordinator: Coordinator, id: ObjectID, v: Value)
    returns (before: Option<Value>, after: Option<Value>)
    ensures before == None
    ensures after == Some(v)
  {
    var t := new ContextTable();
    var root := t.RootSavingContextForCoordinator(coordinator);
    var main := t.MainContextForRootContext(root);
    t.SetSavingSynchronously(root, false);
    t.DidSaveObserverFired(main, SaveNote(Some(root), map[id := v]), false);
    before := Get(t.contexts[main].objects, id);
    t.RunNextBlock(main);
    after := Get(t.contexts[main].objects, id);
  }

  /** An import merges into the writer on the writer's own queue; a synchronous did-save
      whose note carries the writer's value then brings it into the reader. The model does
      not turn a save into a did-save note: the note here is built by the caller from the
      writer's state, and the import merge itself posts no did-save. */
  method ImportReachesReader(coordinator: Coordinator, id: ObjectID, v: Value)
    returns (inWriter: Option<Value>, inReader: Option<Value>)
    ensures inWriter == Some(v)
    ensures inReader == Some(v)
  {
    var t := new ContextTable();
    var root := t.RootSavingContextForCoordinator(coordinator);
    var main := t.MainContextForRootContext(root);
    t.ImportObserverFired(root, ImportNote(map[id := v]));
    t.RunNextBlock(root);
    inWriter := Get(t.contexts[root].objects, id);
    t.SetSavingSynchronously(root, true);
    t.DidSaveObserverFired(main, SaveNote(Some(root), map[id := t.contexts[root].objects[id]]), false);
    inReader := Get(t.contexts[main].objects, id);
  }

  /** Once the reader is released, its observer is gone and a later save on the writer
      touches no context. */
  method ReleasedReaderIsUntouched(coordinator: Coordinator, id: ObjectID, v: Value)
    returns (observerGone: bool, untouched: bool)
    ensures observerGone
    ensures untouched
  {
    var t := new ContextTable();
    var root := t.RootSavingContextForCoordinator(coordinator);
    var main := t.MainContextForRootContext(root);
    t.Release(main);
    observerGone := main !in t.didSaveObserver;
    var before := t.contexts;
    t.SetSavingSynchronously(root, true);
    t.DidSaveObserverFired(main, SaveNote(Some(root), map[id := v]), false);
    untouched := t.contexts == before;
  }

  /** A synchronous save whose notification arrives on the reader's own queue merges at
      once, ahead of an older asynchronous merge still waiting there; when the reader's
      queue later runs that older block, the older value replaces the newer one. The
      overwrite follows from the merge abstraction, which writes each note's values
      (`MergeDidSave`); Core Data's refresh would re-read the parent's current state. */
  method ReentrantSaveIsOverwritten(coordinator: Coordinator, id: ObjectID, older: Value, newer: Value)
    returns (atReturn: Option<Value>, afterQueue: Option<Value>)
    ensures atReturn == Some(newer)
    ensures afterQueue == Some(older)
  {
    var t := new ContextTable();
    var root := t.RootSavingContextForCoordinator(coordinator);
    var main := t.MainContextForRootContext(root);
    t.SetSavingSynchronously(root, false);
    t.DidSaveObserverFired(main, SaveNote(Some(root), map[id := older]), false);
    t.SetSavingSynchronously(root, true);
    t.DidSaveObserverFired(main, SaveNote(Some(root), map[id := newer]), true);
    atReturn := Get(t.contexts[main].objects, id);
    t.RunNextBlock(main);
    afterQueue := Get(t.contexts[main].objects, id);
  }
}
