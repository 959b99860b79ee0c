/** The read tree: a search tree over keys with a least-recently-used list beside it, bounded in size. */
module ReadTree {
  import opened Types

  datatype CacheNode = CacheNode(pba: nat, valid: bool, ts: nat)

  // ---------------------------------------------------------------- specification

  /** `order` lists the cached keys, least recently used first. */
  datatype Cache = Cache(nodes: map<nat, CacheNode>, order: seq<nat>, limit: nat)

  function LimitOf(limit: nat): nat { if limit == 0 then READ_TREE_LIMIT else limit }

  function Without(order: seq<nat>, key: nat): (rest: seq<nat>)
    ensures |rest| <= |order|
  {
    if order == [] then []
    else
      var front := Without(order[..|order| - 1], key);
      if order[|order| - 1] == key then front else front + [order[|order| - 1]]
  }

  /** The last `n` of a sequence, or all of it. */
  function LastOf(order: seq<nat>, n: nat): seq<nat> {
    if |order| <= n then order else order[|order| - n..]
  }

  /** Drop the least recently used nodes beyond the limit. */
  function Evict(c: Cache): Cache {
    var order := LastOf(c.order, LimitOf(c.limit));
    c.(order := order, nodes := Keep(c.nodes, order))
  }

  function Keep(nodes: map<nat, CacheNode>, order: seq<nat>): map<nat, CacheNode> {
    map k | k in nodes && k in order :: nodes[k]
  }

  function Touch(c: Cache, key: nat): Cache {
    c.(order := Without(c.order, key) + [key])
  }

  /** A cached version is replaced unless it is newer; an uncached one is added, which may evict. */
  function Update(c: Cache, key: nat, node: CacheNode): Cache {
    if key in c.nodes then
      Touch(if node.ts >= c.nodes[key].ts then c.(nodes := c.nodes[key := node]) else c, key)
    else
      Evict(c.(nodes := c.nodes[key := node], order := c.order + [key]))
  }

  function Lookup(c: Cache, key: nat): Cache { if key in c.nodes then Touch(c, key) else c }

  function Remove(c: Cache, key: nat): Cache {
    if key in c.nodes then c.(nodes := c.nodes - {key}, order := Without(c.order, key)) else c
  }

  function Clear(c: Cache): Cache { c.(nodes := map[], order := []) }

  function SetLimit(c: Cache, limit: nat): Cache { Evict(c.(limit := limit)) }

  predicate Distinct(order: seq<nat>) {
    forall i, j :: 0 <= i < j < |order| ==> order[i] != order[j]
  }

  /** List and tree hold the same keys once each, and no more than the limit. */
  ghost predicate CacheOk(c: Cache) {
    && Distinct(c.order)
    && (forall k :: k in c.order <==> k in c.nodes)
    && |c.order| <= LimitOf(c.limit)
  }

  lemma DistinctAppend(order: seq<nat>, key: nat)
    requires Distinct(order) && key !in order
    ensures Distinct(order + [key])
  {
  }

  lemma {:induction false} WithoutFacts(order: seq<nat>, key: nat)
    requires Distinct(order)
    ensures Distinct(Without(order, key))
    ensures forall k :: k in Without(order, key) <==> k in order && k != key
    ensures |Without(order, key)| == (if key in order then |order| - 1 else |order|)
    ensures key !in order ==> Without(order, key) == order
    ensures Distinct(Without(order, key) + [key])
  {
    if order != [] {
      var n := |order| - 1;
      var last := order[n];
      WithoutFacts(order[..n], key);
      assert order == order[..n] + [last];
      assert last !in order[..n];
      if last != key {
        DistinctAppend(Without(order[..n], key), last);
      }
      DistinctAppend(Without(order, key), key);
    }
  }

  lemma LastOfFacts(order: seq<nat>, n: nat)
    requires Distinct(order)
    ensures Distinct(LastOf(order, n)) && |LastOf(order, n)| == Min(|order|, n)
    ensures forall k :: k in LastOf(order, n) ==> k in order
  {
  }

  lemma EvictOk(c: Cache)
    requires Distinct(c.order) && forall k :: k in c.order <==> k in c.nodes
    ensures CacheOk(Evict(c))
  {
    hide LastOf, Distinct;
    LastOfFacts(c.order, LimitOf(c.limit));
  }

  lemma UpdateOk(c: Cache, key: nat, node: CacheNode)
    requires CacheOk(c)
    ensures CacheOk(Update(c, key, node))
  {
    hide LastOf, Distinct, Without, Evict;
    WithoutFacts(c.order, key);
    if key !in c.nodes {
      DistinctAppend(c.order, key);
      EvictOk(c.(nodes := c.nodes[key := node], order := c.order + [key]));
    }
  }

  /** A key is in the tree after its own update, with the given version if it was not there. */
  lemma UpdateCaches(c: Cache, key: nat, node: CacheNode)
    requires CacheOk(c)
    ensures key in Update(c, key, node).nodes
    ensures key !in c.nodes ==> Update(c, key, node).nodes[key] == node
  {
    if key !in c.nodes {
      var order := LastOf(c.order + [key], LimitOf(c.limit));
      assert order[|order| - 1] == key;
    }
  }

  /** Every operation keeps list, tree and bound in step. */
  lemma OperationsOk(c: Cache, key: nat, limit: nat)
    requires CacheOk(c)
    ensures CacheOk(Lookup(c, key)) && CacheOk(Remove(c, key)) && CacheOk(Clear(c)) && CacheOk(SetLimit(c, limit))
  {
    hide LastOf, Distinct, Without, Evict;
    WithoutFacts(c.order, key);
    EvictOk(c.(limit := limit));
    assert Distinct([]) by { EmptyDistinct(); }
  }

  lemma EmptyDistinct()
    ensures Distinct([])
  {
  }

  /** Adding to a full tree evicts the least recently used node and nothing else. */
  lemma EvictsOldest(c: Cache, key: nat, node: CacheNode)
    requires CacheOk(c) && key !in c.nodes
    ensures var u := Update(c, key, node);
            if |c.order| < LimitOf(c.limit) then u.nodes == c.nodes[key := node]
            else u.nodes == (c.nodes - {c.order[0]})[key := node]
  {
    var u := Update(c, key, node);
    var order := c.order + [key];
    assert u.order == LastOf(order, LimitOf(c.limit));
    if |c.order| == LimitOf(c.limit) {
      assert u.order == order[1..];
      forall k ensures k in u.order <==> (k in c.order && k != c.order[0]) || k == key {
        if k in c.order && k != c.order[0] {
          var i :| 0 <= i < |c.order| && c.order[i] == k;
          assert u.order[i - 1] == k;
        }
        assert u.order[|u.order| - 1] == key;
      }
    }
  }

  lemma KeepStep(nodes: map<nat, CacheNode>, order: seq<nat>, dropped: nat)
    requires Distinct(order) && dropped < |order|
    ensures order[dropped..][1..] == order[dropped + 1..]
    ensures Keep(nodes, order[dropped + 1..]) == Keep(nodes, order[dropped..]) - {order[dropped]}
  {
    assert order[dropped..] == [order[dropped]] + order[dropped + 1..];
    assert order[dropped] !in order[dropped + 1..];
  }

  // ---------------------------------------------------------------- the LRU law

  /** Distinct keys of a trace of uses, in order of last use. */
  function ByLastUse(uses: seq<nat>): seq<nat> {
    if uses == [] then [] else Without(ByLastUse(uses[..|uses| - 1]), uses[|uses| - 1]) + [uses[|uses| - 1]]
  }

  /** A use of the tree: an update, or a lookup (which counts only when it hits). */
  datatype Use = Put(key: nat, node: CacheNode) | Get(key: nat)

  function UseAll(c: Cache, uses: seq<Use>): Cache {
    if uses == [] then c
    else
      var before := UseAll(c, uses[..|uses| - 1]);
      match uses[|uses| - 1]
      case Put(k, node) => Update(before, k, node)
      case Get(k) => Lookup(before, k)
  }

  /** The keys that were really used: lookups that missed are left out. */
  function Used(c: Cache, uses: seq<Use>): seq<nat> {
    if uses == [] then []
    else
      var front := Used(c, uses[..|uses| - 1]);
      match uses[|uses| - 1]
      case Put(k, _) => front + [k]
      case Get(k) => if k in UseAll(c, uses[..|uses| - 1]).nodes then front + [k] else front
  }

  lemma {:induction false} ByLastUseDistinct(uses: seq<nat>)
    ensures Distinct(ByLastUse(uses))
  {
    if uses != [] {
      ByLastUseDistinct(uses[..|uses| - 1]);
      WithoutFacts(ByLastUse(uses[..|uses| - 1]), uses[|uses| - 1]);
    }
  }

  lemma {:induction false} WithoutConcat(xs: seq<nat>, ys: seq<nat>, key: nat)
    ensures Without(xs + ys, key) == Without(xs, key) + Without(ys, key)
  {
    if ys == [] {
      assert xs + ys == xs;
    } else {
      var n := |ys| - 1;
      WithoutConcat(xs, ys[..n], key);
      var all := xs + ys;
      assert all[..|all| - 1] == xs + ys[..n] && all[|all| - 1] == ys[n];
      assert Without(xs, key) + Without(ys[..n], key) + [ys[n]] == Without(xs, key) + (Without(ys[..n], key) + [ys[n]]);
    }
  }

  /** Keeping the last `n` commutes with a use. */
  lemma LastOfUse(order: seq<nat>, n: nat, key: nat)
    requires Distinct(order) && n > 0
    ensures LastOf(Without(order, key) + [key], n) ==
            if key in LastOf(order, n) then Without(LastOf(order, n), key) + [key]
            else LastOf(LastOf(order, n) + [key], n)
  {
    hide Without, Distinct;
    WithoutFacts(order, key);
    if |order| > n {
      var m := |order| - n;
      assert order == order[..m] + order[m..];
      assert Distinct(order[m..]) by { SuffixDistinct(order, m); }
      WithoutConcat(order[..m], order[m..], key);
      LastOfSplit(Without(order[..m], key), order[m..], n, key);
    }
  }

  lemma SuffixDistinct(order: seq<nat>, m: nat)
    requires Distinct(order) && m <= |order|
    ensures Distinct(order[m..])
  {
  }

  lemma LastOfSplit(xs: seq<nat>, ys: seq<nat>, n: nat, key: nat)
    requires Distinct(ys) && |ys| == n > 0
    ensures LastOf(xs + Without(ys, key) + [key], n) ==
            if key in ys then Without(ys, key) + [key] else LastOf(ys + [key], n)
  {
    hide Without, Distinct;
    WithoutFacts(ys, key);
    var kept := Without(ys, key) + [key];
    assert xs + Without(ys, key) + [key] == xs + kept;
    if key in ys {
      assert LastOf(xs + kept, n) == kept;
    } else {
      assert LastOf(xs + kept, n) == kept[1..];
    }
  }

  /** From an empty tree and without removals, the tree always holds exactly the most recently used
      keys, as many as the limit allows, in order of last use. */
  lemma {:induction false} HoldsMostRecentlyUsed(c: Cache, uses: seq<Use>)
    requires c.nodes == map[] && c.order == []
    ensures CacheOk(UseAll(c, uses)) && UseAll(c, uses).limit == c.limit
    ensures UseAll(c, uses).order == LastOf(ByLastUse(Used(c, uses)), LimitOf(c.limit))
  {
    hide LastOf, Without, Distinct, Keep;
    if uses == [] {
      assert Distinct([]) by { EmptyDistinct(); }
      LastOfFacts([], LimitOf(c.limit));
    } else {
      var front := uses[..|uses| - 1];
      var before, used := UseAll(c, front), Used(c, front);
      HoldsMostRecentlyUsed(c, front);
      UseKeepsRecent(before, used, uses[|uses| - 1]);
    }
  }

  /** One more use. */
  lemma UseKeepsRecent(before: Cache, used: seq<nat>, use: Use)
    requires CacheOk(before) && before.order == LastOf(ByLastUse(used), LimitOf(before.limit))
    ensures var after := match use { case Put(k, node) => Update(before, k, node) case Get(k) => Lookup(before, k) };
            && CacheOk(after) && after.limit == before.limit
            && after.order == LastOf(ByLastUse(if use.Put? || use.key in before.nodes then used + [use.key] else used),
                                     LimitOf(before.limit))
  {
    hide LastOf, Without, Distinct, Keep;
    var k := use.key;
    ByLastUseDistinct(used);
    LastOfUse(ByLastUse(used), LimitOf(before.limit), k);
    assert (used + [k])[..|used|] == used;
    OperationsOk(before, k, before.limit);
    if use.Put? {
      UpdateOk(before, k, use.node);
    }
  }

  // ---------------------------------------------------------------- the search tree

  datatype Tree = Leaf | Node(left: Tree, key: nat, node: CacheNode, right: Tree)

  function Contents(t: Tree): map<nat, CacheNode> {
    if t.Leaf? then map[] else (Contents(t.left) + Contents(t.right))[t.key := t.node]
  }

  /** In-order keys ascend: left keys are below, right keys above. */
  ghost predicate Ordered(t: Tree) {
    t.Node? ==>
      && Ordered(t.left) && Ordered(t.right)
      && (forall k :: k in Contents(t.left) ==> k < t.key)
      && (forall k :: k in Contents(t.right) ==> t.key < k)
  }

  lemma PutInside(a: map<nat, CacheNode>, b: map<nat, CacheNode>, r: nat, w: CacheNode, k: nat, v: CacheNode)
    requires k != r
    ensures k !in b ==> (a[k := v] + b)[r := w] == (a + b)[r := w][k := v]
    ensures (a + b[k := v])[r := w] == (a + b)[r := w][k := v]
  {
  }

  lemma CutInside(a: map<nat, CacheNode>, b: map<nat, CacheNode>, r: nat, w: CacheNode, k: nat)
    ensures k != r && k !in b ==> ((a - {k}) + b)[r := w] == (a + b)[r := w] - {k}
    ensures k != r && k !in a ==> (a + (b - {k}))[r := w] == (a + b)[r := w] - {k}
    ensures r !in a && r !in b ==> (a + b)[r := w] - {r} == a + b
  {
  }

  /** A key is linked as a leaf where its search ends; a key that is present keeps its place. */
  function Insert(t: Tree, key: nat, node: CacheNode): Tree {
    if t.Leaf? then Node(Leaf, key, node, Leaf)
    else if key < t.key then t.(left := Insert(t.left, key, node))
    else if key > t.key then t.(right := Insert(t.right, key, node))
    else t.(node := node)
  }

  function LeastKey(t: Tree): (k: nat)
    requires t.Node?
  {
    if t.left.Leaf? then t.key else LeastKey(t.left)
  }

  function EraseLeast(t: Tree): Tree
    requires t.Node?
  {
    if t.left.Leaf? then t.right else t.(left := EraseLeast(t.left))
  }

  /** The two subtrees of an erased node become one. */
  function Join(left: Tree, right: Tree): Tree {
    if left.Leaf? then right
    else if right.Leaf? then left
    else
      var next := LeastKey(right);
      var node := if next in Contents(right) then Contents(right)[next] else CacheNode(0, false, 0);
      Node(left, next, node, EraseLeast(right))
  }

  function Erase(t: Tree, key: nat): Tree {
    if t.Leaf? then t
    else if key < t.key then t.(left := Erase(t.left, key))
    else if key > t.key then t.(right := Erase(t.right, key))
    else Join(t.left, t.right)
  }

  lemma {:induction false} InsertFacts(t: Tree, key: nat, node: CacheNode)
    requires Ordered(t)
    ensures Contents(Insert(t, key, node)) == Contents(t)[key := node]
    ensures Ordered(Insert(t, key, node))
  {
    if t.Node? {
      if key < t.key {
        InsertFacts(t.left, key, node);
        PutInside(Contents(t.left), Contents(t.right), t.key, t.node, key, node);
      } else if key > t.key {
        InsertFacts(t.right, key, node);
        PutInside(Contents(t.left), Contents(t.right), t.key, t.node, key, node);
      }
    }
  }

  lemma {:induction false} LeastFacts(t: Tree)
    requires t.Node? && Ordered(t)
    ensures LeastKey(t) in Contents(t) && forall k :: k in Contents(t) ==> LeastKey(t) <= k
    ensures Contents(EraseLeast(t)) == Contents(t) - {LeastKey(t)}
    ensures Ordered(EraseLeast(t))
  {
    if t.left.Leaf? {
      CutInside(Contents(t.left), Contents(t.right), t.key, t.node, t.key);
      assert map[] + Contents(t.right) == Contents(t.right);
    } else {
      LeastFacts(t.left);
      CutInside(Contents(t.left), Contents(t.right), t.key, t.node, LeastKey(t));
    }
  }

  lemma PutBack(a: map<nat, CacheNode>, b: map<nat, CacheNode>, k: nat)
    requires k in b && k !in a
    ensures (a + (b - {k}))[k := b[k]] == a + b
  {
  }

  lemma JoinFacts(left: Tree, right: Tree)
    requires Ordered(left) && Ordered(right)
    requires forall j, k :: j in Contents(left) && k in Contents(right) ==> j < k
    ensures Contents(Join(left, right)) == Contents(left) + Contents(right)
    ensures Ordered(Join(left, right))
  {
    if left.Node? && right.Node? {
      LeastFacts(right);
      var a, b, next := Contents(left), Contents(right), LeastKey(right);
      PutBack(a, b, next);
    }
  }

  lemma {:induction false} EraseFacts(t: Tree, key: nat)
    requires Ordered(t)
    ensures Contents(Erase(t, key)) == Contents(t) - {key}
    ensures Ordered(Erase(t, key))
  {
    if t.Node? {
      CutInside(Contents(t.left), Contents(t.right), t.key, t.node, key);
      if key < t.key {
        EraseFacts(t.left, key);
      } else if key > t.key {
        EraseFacts(t.right, key);
      } else {
        JoinFacts(t.left, t.right);
      }
    }
  }

  lemma SmallerMap(m: map<nat, CacheNode>, k: nat)
    requires k in m
    ensures |m - {k}| < |m|
  {
    assert m.Keys == (m - {k}).Keys + {k};
  }

  lemma LeafEmpty(t: Tree)
    requires t.Leaf?
    ensures Contents(t) == map[]
  {
  }

  class LruTree {
    var root: Tree
    var lru: seq<nat>
    var limit: nat
    var size: nat

    ghost predicate Valid()
      reads this
    {
      Ordered(root) && size == |lru| && CacheOk(View())
    }

    ghost function View(): Cache
      reads this
    {
      Cache(Contents(root), lru, limit)
    }

    constructor ()
      ensures Valid() && View() == Cache(map[], [], READ_TREE_LIMIT)
    {
      root, lru, limit, size := Leaf, [], READ_TREE_LIMIT, 0;
    }

    /** Descent of imr_lsm_tree_find_node_locked. */
    method Find(key: nat) returns (found: bool, node: CacheNode)
      requires Valid()
      ensures found <==> key in View().nodes
      ensures found ==> node == View().nodes[key]
    {
      var t := root;
      while t.Node?
        invariant Ordered(t)
        invariant key in Contents(root) <==> key in Contents(t)
        invariant key in Contents(t) ==> Contents(root)[key] == Contents(t)[key]
        decreases t
      {
        if key < t.key {
          t := t.left;
        } else if key > t.key {
          t := t.right;
        } else {
          return true, t.node;
        }
      }
      return false, CacheNode(0, false, 0);
    }

    /** imr_lsm_tree_lookup_locked: a hit moves the node to the tail of the LRU list. */
    method LookupKey(key: nat) returns (found: bool, node: CacheNode)
      requires Valid()
      modifies this
      ensures Valid() && View() == Lookup(old(View()), key)
      ensures found <==> key in old(View()).nodes
      ensures found ==> node == old(View()).nodes[key]
    {
      OperationsOk(View(), key, 0);
      found, node := Find(key);
      if found {
        lru := Without(lru, key) + [key];
        size := |lru|;
      }
    }

    /** imr_lsm_tree_remove_locked. */
    method RemoveKey(key: nat)
      requires Valid()
      modifies this
      ensures Valid() && View() == Remove(old(View()), key)
    {
      OperationsOk(View(), key, 0);
      WithoutFacts(lru, key);
      var found, node := Find(key);
      if found {
        EraseFacts(root, key);
        root := Erase(root, key);
        lru := Without(lru, key);
        if size > 0 {
          size := size - 1;
        }
      }
    }

    /** The head of the LRU list goes. */
    method EvictOne()
      requires Ordered(root) && size == |lru| && lru != []
      modifies this`root, this`lru, this`size
      ensures Ordered(root) && Contents(root) == old(Contents(root)) - {old(lru[0])}
      ensures lru == old(lru[1..]) && size == |lru|
    {
      EraseFacts(root, lru[0]);
      root := Erase(root, lru[0]);
      lru := lru[1..];
      size := size - 1;
    }

    /** imr_lsm_tree_evict_locked: the head of the LRU list goes until the size fits. */
    method EvictKeys()
      requires Ordered(root) && size == |lru| && Distinct(lru)
      requires forall k :: k in lru <==> k in Contents(root)
      modifies this`root, this`lru, this`size
      ensures Valid() && View() == Evict(old(View()))
    {
      hide Ordered, Contents;
      ghost var c := View();
      EvictOk(c);
      var bound := LimitOf(limit);
      ghost var dropped := 0;
      assert Contents(root) == Keep(c.nodes, c.order);
      while size > bound && lru != []
        invariant Ordered(root) && size == |lru|
        invariant dropped <= |c.order| && lru == c.order[dropped..]
        invariant dropped > 0 ==> |lru| >= bound
        invariant Contents(root) == Keep(c.nodes, lru)
      {
        KeepStep(c.nodes, c.order, dropped);
        EvictOne();
        dropped := dropped + 1;
      }
      assert lru == LastOf(c.order, bound);
    }

    /** imr_lsm_tree_update_locked, node allocation succeeding. */
    method UpdateKey(key: nat, node: CacheNode)
      requires Valid()
      modifies this
      ensures Valid() && View() == Update(old(View()), key, node)
    {
      hide Ordered, Contents, Without, Distinct, Evict;
      UpdateOk(View(), key, node);
      WithoutFacts(lru, key);
      var found, was := Find(key);
      if found {
        if node.ts >= was.ts {
          InsertFacts(root, key, node);
          root := Insert(root, key, node);
        }
        lru := Without(lru, key) + [key];
        return;
      }
      DistinctAppend(lru, key);
      InsertFacts(root, key, node);
      root := Insert(root, key, node);
      lru := lru + [key];
      size := size + 1;
      EvictKeys();
    }

    /** imr_lsm_clear_read_tree_locked: the first node in key order goes until none is left. */
    method ClearKeys()
      requires Valid()
      modifies this
      ensures Valid() && View() == Clear(old(View()))
    {
      hide Ordered, Contents, Without, Distinct, Erase, LeastKey;
      assert Distinct([]) by { EmptyDistinct(); }
      while root.Node?
        invariant Ordered(root) && limit == old(limit)
        decreases |Contents(root)|
      {
        var first := LeastKey(root);
        LeastFacts(root);
        EraseFacts(root, first);
        SmallerMap(Contents(root), first);
        root := Erase(root, first);
        lru := Without(lru, first);
      }
      assert Contents(root) == map[] by { LeafEmpty(root); }
      lru, size := [], 0;
    }

    /** The debugfs limit write, for an accepted limit. */
    method SetLimitTo(newLimit: nat)
      requires Valid()
      modifies this
      ensures Valid() && View() == SetLimit(old(View()), newLimit)
    {
      limit := newLimit;
      EvictKeys();
    }
  }
}
