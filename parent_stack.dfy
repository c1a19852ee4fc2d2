/** The `parentStack` property of a context: a context with a parent defers to its
    parent, and a context without one answers from its own weak association. The
    association table is a map from context to stack; the hierarchy is a map from
    context to parent. */
module ParentStack {
  import opened Types

  /** A parent is always created before its child, so following parent links strictly
      decreases the context identity and the walk up the hierarchy terminates. */
  ghost predicate ParentsPrecede(parent: map<Ctx, Ctx>)
  {
    forall c :: c in parent ==> parent[c] < c
  }

  /** The `parentStack` getter: walk up to the parentless context and read its
      association. The answer is always a stack some context was associated with. */
  function ResolveStack(parent: map<Ctx, Ctx>, assoc: map<Ctx, StackRef>, c: Ctx): (r: Option<StackRef>)
    requires ParentsPrecede(parent)
    ensures r.Some? ==> r.value in assoc.Values
    decreases c
  {
    if c in parent then ResolveStack(parent, assoc, parent[c])
    else Get(assoc, c)
  }

  /** The context reached from `c` by following at most `n` parent links. */
  function Ancestor(parent: map<Ctx, Ctx>, c: Ctx, n: nat): (a: Ctx)
    requires ParentsPrecede(parent)
    ensures a <= c
    ensures c <= n ==> a !in parent
    decreases n
  {
    if n == 0 || c !in parent then c else Ancestor(parent, parent[c], n - 1)
  }

  /** The root of `c`'s hierarchy: the parentless context its parent links lead to. */
  function RootOf(parent: map<Ctx, Ctx>, c: Ctx): (r: Ctx)
    requires ParentsPrecede(parent)
    ensures r !in parent && r <= c
    ensures c !in parent ==> r == c
  {
    Ancestor(parent, c, c)
  }

  /** Every ancestor of a context resolves to the same stack as the context itself. */
  lemma {:induction false} ResolveAtAncestor(parent: map<Ctx, Ctx>, assoc: map<Ctx, StackRef>, c: Ctx, n: nat)
    requires ParentsPrecede(parent)
    ensures ResolveStack(parent, assoc, Ancestor(parent, c, n)) == ResolveStack(parent, assoc, c)
    decreases n
  {
    if n > 0 && c in parent {
      ResolveAtAncestor(parent, assoc, parent[c], n - 1);
    }
  }

  /** The resolved stack of any context is the association of its root. */
  lemma {:induction false} ResolveIsRootStack(parent: map<Ctx, Ctx>, assoc: map<Ctx, StackRef>, c: Ctx)
    requires ParentsPrecede(parent)
    ensures ResolveStack(parent, assoc, c) == Get(assoc, RootOf(parent, c))
  {
    ResolveAtAncestor(parent, assoc, c, c);
  }

  /** Writing the association of context `r` changes the resolved stack of exactly the
      contexts whose root is `r`, to the value written; every other context keeps its
      resolved stack. */
  lemma {:induction false} ResolveAfterSet(parent: map<Ctx, Ctx>, assoc: map<Ctx, StackRef>, r: Ctx, s: Option<StackRef>, c: Ctx)
    requires ParentsPrecede(parent)
    ensures ResolveStack(parent, SetAssociated(assoc, r, s), c)
         == if RootOf(parent, c) == r then s else ResolveStack(parent, assoc, c)
  {
    ResolveIsRootStack(parent, assoc, c);
    ResolveIsRootStack(parent, SetAssociated(assoc, r, s), c);
  }

  /** Giving a new context `c` a parent leaves the resolved stack of every context that
      already existed unchanged. */
  lemma {:induction false} ResolveAfterNewChild(parent: map<Ctx, Ctx>, assoc: map<Ctx, StackRef>, known: set<Ctx>, c: Ctx, p: Ctx, d: Ctx)
    requires ParentsPrecede(parent) && p < c
    requires parent.Keys <= known && (forall x :: x in parent ==> parent[x] in known)
    requires c !in known && d in known
    ensures ParentsPrecede(parent[c := p])
    ensures ResolveStack(parent[c := p], assoc, d) == ResolveStack(parent, assoc, d)
    decreases d
  {
    if d in parent {
      ResolveAfterNewChild(parent, assoc, known, c, p, parent[d]);
    }
  }

  /** Removing a context that is nobody's parent, together with its association, leaves
      the resolved stack of every other context unchanged. */
  lemma {:induction false} ResolveAfterLeafRemoved(parent: map<Ctx, Ctx>, assoc: map<Ctx, StackRef>, c: Ctx, d: Ctx)
    requires ParentsPrecede(parent) && c !in parent.Values && d != c
    ensures ParentsPrecede(parent - {c})
    ensures ResolveStack(parent - {c}, assoc - {c}, d) == ResolveStack(parent, assoc, d)
    decreases d
  {
    if d in parent {
      assert parent[d] in parent.Values;
      ResolveAfterLeafRemoved(parent, assoc, c, parent[d]);
    }
  }
}
