/** The merge a destination context performs when it receives a save or import
    notification, with Core Data abstracted to maps from object identifier to value,
    and the fold of the merge blocks still waiting on a context's queue. */
module Merge {
  import opened Types

  /** What a merge is meant to achieve: every updated object takes its committed value,
      and every other object keeps the value it had. */
  function MergeUpdated(state: map<ObjectID, Value>, updated: map<ObjectID, Value>): (r: map<ObjectID, Value>)
    ensures r.Keys == state.Keys + updated.Keys
    ensures forall id :: id in updated ==> r[id] == updated[id]
    ensures forall id :: id in state && id !in updated ==> r[id] == state[id]
  {
    state + updated
  }

  /** `mergeChangesFromContextDidSaveNotification`, abstracted: only the updated objects
      registered in the destination context are refreshed; an update for an object the
      context has not materialised is skipped, leaving whatever the context held. */
  function MergeDidSave(state: map<ObjectID, Value>, registered: set<ObjectID>, updated: map<ObjectID, Value>): (r: map<ObjectID, Value>)
    ensures r.Keys == state.Keys + (updated.Keys * registered)
    ensures forall id :: id in updated && id in registered ==> r[id] == updated[id]
    ensures forall id :: id in state && (id !in updated || id !in registered) ==> r[id] == state[id]
  {
    state + map id | id in updated && id in registered :: updated[id]
  }

  /** Once every updated object has been fault-fetched, the framework's merge has exactly
      the intended effect. */
  lemma MergeAfterFaulting(state: map<ObjectID, Value>, registered: set<ObjectID>, updated: map<ObjectID, Value>)
    requires updated.Keys <= registered
    ensures MergeDidSave(state, registered, updated) == MergeUpdated(state, updated)
  {
  }

  /** Without the fault-fetch, an update to an object the context has neither
      materialised nor registered never reaches it: the object stays absent. */
  lemma MergeSkipsUnfaulted(state: map<ObjectID, Value>, registered: set<ObjectID>, updated: map<ObjectID, Value>, id: ObjectID)
    requires id in updated && id !in state && id !in registered
    ensures id !in MergeDidSave(state, registered, updated)
    ensures id in MergeUpdated(state, updated)
  {
  }

  /** Every object identifier updated by some block of the queue. */
  function PendingIds(q: seq<PendingMerge>): (ids: set<ObjectID>)
    ensures forall i :: 0 <= i < |q| ==> q[i].updated.Keys <= ids
  {
    if q == [] then {} else q[0].updated.Keys + PendingIds(q[1..])
  }

  /** ... and nothing else: each identifier in it is updated by some block. */
  lemma {:induction false} PendingIdsOnlyFromBlocks(q: seq<PendingMerge>, id: ObjectID)
    requires id in PendingIds(q)
    ensures exists i :: 0 <= i < |q| && id in q[i].updated
    decreases |q|
  {
    if id !in q[0].updated {
      PendingIdsOnlyFromBlocks(q[1..], id);
      var i :| 0 <= i < |q[1..]| && id in q[1..][i].updated;
      assert id in q[i + 1].updated;
    }
  }

  /** The state a context reaches once its queue has run every block in `q`, in order. */
  function ApplyPending(state: map<ObjectID, Value>, q: seq<PendingMerge>): (r: map<ObjectID, Value>)
    ensures r.Keys == state.Keys + PendingIds(q)
    ensures forall id :: id in state && id !in PendingIds(q) ==> r[id] == state[id]
    decreases |q|
  {
    if q == [] then state else ApplyPending(MergeUpdated(state, q[0].updated), q[1..])
  }

  lemma {:induction false} PendingIdsAppend(q: seq<PendingMerge>, m: PendingMerge)
    ensures PendingIds(q + [m]) == PendingIds(q) + m.updated.Keys
    decreases |q|
  {
    if q != [] {
      assert (q + [m])[1..] == q[1..] + [m];
      PendingIdsAppend(q[1..], m);
    } else {
      assert [] + [m] == [m];
    }
  }

  /** Enqueuing a block behind `q` and running the queue is the same as running `q` and
      then merging the block: blocks take effect in the order they were enqueued. */
  lemma {:induction false} ApplyPendingAppend(state: map<ObjectID, Value>, q: seq<PendingMerge>, m: PendingMerge)
    ensures ApplyPending(state, q + [m]) == MergeUpdated(ApplyPending(state, q), m.updated)
    decreases |q|
  {
    if q != [] {
      assert (q + [m])[0] == q[0];
      assert (q + [m])[1..] == q[1..] + [m];
      ApplyPendingAppend(MergeUpdated(state, q[0].updated), q[1..], m);
    } else {
      assert [] + [m] == [m];
    }
  }

  /** The block both notification observers hand to the destination context: fault-fetch
      every updated object (`objectWithID(id).willAccessValueForKey(nil)` registers it),
      then merge. Because every updated object is registered first, the framework's merge
      gives each of them its committed value. */
  method RunMergeBlock(state: map<ObjectID, Value>, registered: set<ObjectID>, updated: map<ObjectID, Value>)
    returns (state': map<ObjectID, Value>, registered': set<ObjectID>)
    ensures registered' == registered + updated.Keys
    ensures state' == MergeUpdated(state, updated)
  {
    registered' := registered;
    var todo := updated.Keys;
    while todo != {}
      invariant todo <= updated.Keys
      invariant registered' == registered + (updated.Keys - todo)
      decreases todo
    {
      var id :| id in todo;
      registered' := registered' + {id};
      todo := todo - {id};
    }
    MergeAfterFaulting(state, registered', updated);
    state' := MergeDidSave(state, registered', updated);
  }

  /** A serial queue running the blocks `q`, oldest first. */
  method RunQueue(state: map<ObjectID, Value>, registered: set<ObjectID>, q: seq<PendingMerge>)
    returns (state': map<ObjectID, Value>, registered': set<ObjectID>)
    ensures state' == ApplyPending(state, q)
    ensures registered' == registered + PendingIds(q)
  {
    state', registered' := state, registered;
    var i := 0;
    while i < |q|
      invariant 0 <= i <= |q|
      invariant ApplyPending(state', q[i..]) == ApplyPending(state, q)
      invariant registered' + PendingIds(q[i..]) == registered + PendingIds(q)
      invariant registered <= registered'
      decreases |q| - i
    {
      assert q[i..][1..] == q[i + 1..];
      state', registered' := RunMergeBlock(state', registered', q[i].updated);
      i := i + 1;
    }
    assert q[i..] == [];
  }

  /** After the queue has run up to and including a block, every object that block
      updated holds the block's value, whatever was queued before it. */
  lemma {:induction false} LastMergeWins(state: map<ObjectID, Value>, q: seq<PendingMerge>, m: PendingMerge, id: ObjectID)
    requires id in m.updated
    ensures id in ApplyPending(state, q + [m]) && ApplyPending(state, q + [m])[id] == m.updated[id]
  {
    ApplyPendingAppend(state, q, m);
  }
}
