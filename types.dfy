/** Values shared by the context-hierarchy model: identities of contexts, stacks and
    managed objects, the configuration a context is given at construction, the two
    kinds of notification observer, and the notifications they react to. */
module Types {

  datatype Option<T> = None | Some(value: T)

  /** Identity of a managed object context. Contexts are numbered in creation order. */
  type Ctx = nat

  /** Identity of the owning `DataStack` that a root context points back to. */
  type StackRef = nat

  /** A managed object identifier (`NSManagedObjectID`). */
  type ObjectID = nat

  /** The committed attribute values of one managed object, abstracted to one value. */
  type Value = string

  /** An opaque persistent store coordinator. */
  datatype Coordinator = Coordinator(id: nat)

  datatype ConcurrencyType = PrivateQueueConcurrency | MainQueueConcurrency

  /** The three merge policies that matter here: Core Data's default (raise an error on
      conflict), "object trumps" for the writer, and "rollback" for the reader. */
  datatype MergePolicy = ErrorMergePolicy | MergeByPropertyObjectTrump | RollbackMergePolicy

  /** What a context is configured with. `name` is what `setupForCoreStoreWithContextName`
      records; `hasUndoManager` is false once the undo manager has been cleared. */
  datatype ContextConfig = ContextConfig(
    concurrency: ConcurrencyType,
    coordinator: Option<Coordinator>,
    mergePolicy: MergePolicy,
    hasUndoManager: bool,
    name: Option<string>)

  const RootContextName: string := "com.corestore.rootcontext"
  const MainContextName: string := "com.corestore.maincontext"

  /** The notification a `NotificationObserver` listens for. */
  datatype NotificationName = ContextDidSave | DidImportUbiquitousContentChanges

  /** The object an observer is scoped to: a context or a coordinator. */
  datatype Sender = ContextSender(ctx: Ctx) | CoordinatorSender(coordinator: Coordinator)

  datatype Observer = Observer(name: NotificationName, source: Sender)

  /** A context-did-save notification: the posting object (absent when it is not a
      context) and the updated objects with their committed values. */
  datatype SaveNote = SaveNote(source: Option<Ctx>, updated: map<ObjectID, Value>)

  /** A ubiquitous-content import notification: the updated objects and their values. */
  datatype ImportNote = ImportNote(updated: map<ObjectID, Value>)

  /** A merge block enqueued on a context's queue and not yet run. */
  datatype PendingMerge = PendingMerge(updated: map<ObjectID, Value>)

  /** Reading an associated value: absence is a normal outcome, not an error. */
  function Get<K, V>(m: map<K, V>, k: K): Option<V>
  {
    if k in m then Some(m[k]) else None
  }

  /** Writing an associated value under one key: a value replaces whatever was stored
      under that key, and `None` clears it. Every other key keeps its value. */
  function SetAssociated<V>(m: map<Ctx, V>, k: Ctx, v: Option<V>): (r: map<Ctx, V>)
    ensures Get(r, k) == v
    ensures forall k' :: k' != k ==> Get(r, k') == Get(m, k')
    ensures r.Keys <= m.Keys + {k}
  {
    match v
    case Some(x) => m[k := x]
    case None => m - {k}
  }
}
