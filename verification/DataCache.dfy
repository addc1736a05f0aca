/** The cache of fetched data in extern/src_netcdf4/cache.c: a list of nodes, the most recently used last,
    bounded in bytes and in number, beside one prefetched node. */
module DataCache {
  import opened Wrappers

  type Var = nat

  /** A node: the variables it holds, whether it holds them whole, and its size. */
  datatype Node = Node(vars: seq<Var>, whole: bool, size: nat)

  function Total(nodes: seq<Node>): nat {
    if nodes == [] then 0 else nodes[0].size + Total(nodes[1..])
  }

  predicate Holds(node: Node, target: Var) {
    node.whole && target in node.vars
  }

  /** The list after node i has been used. */
  function Used<T>(s: seq<T>, i: nat): seq<T>
    requires i < |s|
  {
    s[..i] + s[i + 1..] + [s[i]]
  }

  /** How many nodes leave before a node of this size comes in: as few as make room for its bytes, and then
      leave at most `count`. */
  function Evicted(nodes: seq<Node>, size: nat, limit: nat, count: nat): (k: nat)
    ensures k <= |nodes|
  {
    if nodes != [] && (Total(nodes) + size > limit || |nodes| > count) then 1 + Evicted(nodes[1..], size, limit, count)
    else 0
  }

  /** It is the least number that does. */
  lemma {:induction false} EvictedIsLeast(nodes: seq<Node>, size: nat, limit: nat, count: nat)
    ensures var k := Evicted(nodes, size, limit, count);
      && (k < |nodes| ==> Total(nodes[k..]) + size <= limit && |nodes| - k <= count)
      && (forall j | 0 <= j < k :: Total(nodes[j..]) + size > limit || |nodes| - j > count)
  {
    if nodes != [] && (Total(nodes) + size > limit || |nodes| > count) {
      EvictedIsLeast(nodes[1..], size, limit, count);
      var k := Evicted(nodes, size, limit, count);
      assert nodes[1..][k - 1..] == nodes[k..];
      forall j | 0 <= j < k ensures Total(nodes[j..]) + size > limit || |nodes| - j > count {
        if j > 0 { assert nodes[1..][j - 1..] == nodes[j..]; }
      }
    }
  }

  lemma {:induction false} TotalConcat(a: seq<Node>, b: seq<Node>)
    ensures Total(a + b) == Total(a) + Total(b)
  {
    if a == [] {
      assert a + b == b;
    } else {
      TotalConcat(a[1..], b);
      assert (a + b)[1..] == a[1..] + b;
    }
  }

  lemma TotalUsed(nodes: seq<Node>, i: nat)
    requires i < |nodes|
    ensures Total(Used(nodes, i)) == Total(nodes)
  {
    TotalConcat(nodes[..i], nodes[i + 1..]);
    TotalConcat(nodes[..i] + nodes[i + 1..], [nodes[i]]);
    TotalConcat(nodes[..i], [nodes[i]] + nodes[i + 1..]);
    TotalConcat([nodes[i]], nodes[i + 1..]);
    assert nodes == nodes[..i] + ([nodes[i]] + nodes[i + 1..]);
  }

  /** Ascending times before the clock. */
  predicate Ordered(times: seq<nat>, clock: nat) {
    && (forall i, j | 0 <= i < j < |times| :: times[i] < times[j])
    && (forall i | 0 <= i < |times| :: times[i] < clock)
  }

  lemma UseKeepsOrder(times: seq<nat>, clock: nat, i: nat)
    requires Ordered(times, clock) && i < |times|
    ensures Ordered(times[..i] + times[i + 1..] + [clock], clock + 1)
  { }

  lemma LaterClock(times: seq<nat>, clock: nat)
    requires Ordered(times, clock)
    ensures Ordered(times, clock + 1)
  { }

  lemma EvictionKeepsOrder(times: seq<nat>, clock: nat, k: nat)
    requires Ordered(times, clock) && k <= |times|
    ensures Ordered(times[k..] + [clock], clock + 1)
  { }

  class NCcache {
    var prefetch: Option<Node>
    var nodes: seq<Node>
    var cachesize: nat
    const cachelimit: nat
    const cachecount: nat
    /** When each node was last used, and the time. */
    ghost var times: seq<nat>
    ghost var clock: nat

    /** The size is that of the nodes; the list is in the order of last use; it is within its limits, but for
        a single node. */
    ghost predicate Valid()
      reads this
    {
      && cachesize == Total(nodes) && |times| == |nodes|
      && Ordered(times, clock)
      && (cachesize <= cachelimit || |nodes| == 1)
      && |nodes| <= cachecount + 1
    }

    constructor (cachelimit: nat, cachecount: nat)
      ensures Valid() && nodes == [] && prefetch == None
      ensures this.cachelimit == cachelimit && this.cachecount == cachecount
    {
      this.cachelimit, this.cachecount := cachelimit, cachecount;
      prefetch, nodes, cachesize := None, [], 0;
      times, clock := [], 0;
    }

    static method Lists(vars: seq<Var>, target: Var) returns (found: bool)
      ensures found <==> target in vars
    {
      found := false;
      for j := 0 to |vars|
        invariant !found && target !in vars[..j]
      {
        if vars[j] == target { return true; }
        assert vars[..j + 1] == vars[..j] + [vars[j]];
      }
      assert vars[..|vars|] == vars;
    }

    /** The latest node that holds the whole target. */
    method Search(target: Var) returns (index: int)
      ensures -1 <= index < |nodes|
      ensures index >= 0 ==> Holds(nodes[index], target)
      ensures forall i | index < i < |nodes| :: !Holds(nodes[i], target)
    {
      index := |nodes| - 1;
      while index >= 0
        invariant -1 <= index < |nodes|
        invariant forall i | index < i < |nodes| :: !Holds(nodes[i], target)
      {
        if nodes[index].whole {
          var found := Lists(nodes[index].vars, target);
          if found { return; }
        }
        index := index - 1;
      }
    }

    /** iscached: the prefetched node if it holds the target, else the most recently used node that holds the
        whole of it, which becomes the last. */
    method IsCached(target: Option<Var>) returns (node: Option<Node>)
      requires Valid()
      modifies this`nodes, this`times, this`clock
      ensures Valid() && clock == old(clock) + 1
      ensures target.None? ==> node == None && nodes == old(nodes)
      ensures target.Some? && prefetch.Some? && target.value in prefetch.value.vars ==> node == prefetch && nodes == old(nodes)
      ensures target.Some? && !(prefetch.Some? && target.value in prefetch.value.vars) ==>
        if node.None? then
          && nodes == old(nodes) && times == old(times)
          && (forall i | 0 <= i < |nodes| :: !(nodes[i].whole && target.value in nodes[i].vars))
        else exists i | 0 <= i < |old(nodes)| ::
          && node.value == old(nodes)[i] && node.value.whole && target.value in node.value.vars
          && (forall j | 0 <= j < |old(nodes)| && old(times)[j] > old(times)[i] ::
                !(old(nodes)[j].whole && target.value in old(nodes)[j].vars))
          && nodes == old(nodes)[..i] + old(nodes)[i + 1..] + [node.value]
          && times == old(times)[..i] + old(times)[i + 1..] + [old(clock)]
    {
      hide Total, Ordered;
      LaterClock(times, clock);
      clock := clock + 1;
      if target.None? { return None; }
      if prefetch.Some? {
        var found := Lists(prefetch.value.vars, target.value);
        if found { return prefetch; }
      }
      var index := Search(target.value);
      if index < 0 { return None; }
      node := Some(nodes[index]);
      TotalUsed(nodes, index);
      UseKeepsOrder(times, clock - 1, index);
      if |nodes| > 1 {
        nodes := nodes[..index] + nodes[index + 1..] + [nodes[index]];
      } else {
        assert Used(nodes, index) == nodes;
      }
      times := times[..index] + times[index + 1..] + [clock - 1];
    }

    /** The insertion in buildcachenode34: the least recently used nodes make room. */
    method Insert(node: Node)
      requires Valid()
      modifies this`nodes, this`cachesize, this`times, this`clock
      ensures Valid() && clock == old(clock) + 1
      ensures var k := Evicted(old(nodes), node.size, cachelimit, cachecount);
        nodes == old(nodes)[k..] + [node] && times == old(times)[k..] + [old(clock)]
      ensures cachesize <= cachelimit || nodes == [node]
      ensures forall i, j | 0 <= i < |old(nodes)| - |nodes| + 1 <= j < |old(nodes)| :: old(times)[i] < old(times)[j]
    {
      ghost var k := MakeRoom(node.size);
      TotalConcat(nodes, [node]);
      EvictionKeepsOrder(old(times), clock, k);
      hide Ordered, Evicted;
      nodes, times := nodes + [node], times + [clock];
      cachesize := cachesize + node.size;
      clock := clock + 1;
    }

    method MakeRoom(size: nat) returns (ghost k: nat)
      requires cachesize == Total(nodes) && |times| == |nodes|
      modifies this`nodes, this`cachesize, this`times
      ensures k == Evicted(old(nodes), size, cachelimit, cachecount)
      ensures nodes == old(nodes)[k..] && times == old(times)[k..] && cachesize == Total(nodes)
      ensures (cachesize + size <= cachelimit || nodes == []) && |nodes| <= cachecount
    {
      k := 0;
      while cachesize + size > cachelimit && |nodes| > 0
        invariant k <= |old(nodes)| && nodes == old(nodes)[k..] && times == old(times)[k..] && cachesize == Total(nodes)
        invariant Evicted(old(nodes), size, cachelimit, cachecount) == k + Evicted(nodes, size, cachelimit, cachecount)
        decreases |nodes|
      {
        cachesize := cachesize - nodes[0].size;
        nodes, times := nodes[1..], times[1..];
        k := k + 1;
      }
      while |nodes| > cachecount
        invariant k <= |old(nodes)| && nodes == old(nodes)[k..] && times == old(times)[k..] && cachesize == Total(nodes)
        invariant cachesize + size <= cachelimit || nodes == []
        invariant Evicted(old(nodes), size, cachelimit, cachecount) == k + Evicted(nodes, size, cachelimit, cachecount)
        decreases |nodes|
      {
        cachesize := cachesize - nodes[0].size;
        nodes, times := nodes[1..], times[1..];
        k := k + 1;
      }
    }

    /** A prefetch goes beside the list. */
    method Prefetch(node: Node)
      requires Valid()
      modifies this`prefetch
      ensures Valid() && prefetch == Some(node.(whole := true))
    {
      prefetch := Some(node.(whole := true));
    }
  }
}
