/** Gathering the registries of all processes to the first one (src/registry.cpp).  A communicator is
    the sequence of the registries of its processes, in rank order. */
module RegistryGather {
  import opened Buffers
  import opened Registry

  // ---------------------------------------------------------------- specification

  /** The key-wise union in which the lowest rank that holds a key wins. */
  function Flat(ms: seq<Store>): Store {
    if ms == [] then map[] else Merge(ms[0], Flat(ms[1..]))
  }

  /** The registries of a communicator after the hierarchical gather. */
  function Half(n: nat): nat {
    n / 2 + n % 2
  }

  function Hier(ms: seq<Store>): (r: seq<Store>)
    ensures |r| == |ms|
    decreases |ms|
  {
    if |ms| <= 1 then ms else
    var h := Half(|ms|);
    var up := if |ms| > 2 then Hier(ms[..h]) + Hier(ms[h..]) else ms;
    up[0 := Merge(up[0], up[h])]
  }

  lemma MergeAssociative(a: Store, b: Store, c: Store)
    ensures Merge(Merge(a, b), c) == Merge(a, Merge(b, c))
    ensures Merge(a, map[]) == a && Merge(map[], a) == a
  {}

  lemma {:induction false} FlatConcat(ms: seq<Store>, ns: seq<Store>)
    ensures Flat(ms + ns) == Merge(Flat(ms), Flat(ns))
  {
    if ms == [] {
      assert ms + ns == ns;
      MergeAssociative(Flat(ns), map[], map[]);
    } else {
      assert (ms + ns)[1..] == ms[1..] + ns;
      FlatConcat(ms[1..], ns);
      MergeAssociative(ms[0], Flat(ms[1..]), Flat(ns));
    }
  }

  lemma FlatOne(m: Store)
    ensures Flat([m]) == m
  {
    MergeAssociative(m, map[], map[]);
  }

  /** Flat is what it is called: for every key, the value of the first registry that has it. */
  lemma {:induction false} FlatLowest(ms: seq<Store>, k: Key)
    ensures k in Flat(ms) <==> exists i :: 0 <= i < |ms| && k in ms[i]
    ensures forall i | 0 <= i < |ms| && k in ms[i] && (forall j | 0 <= j < i :: k !in ms[j]) :: Flat(ms)[k] == ms[i][k]
  {
    if ms != [] {
      FlatLowest(ms[1..], k);
      if k in ms[0] {
      } else {
        assert forall i | 0 <= i < |ms| - 1 :: ms[1..][i] == ms[i + 1];
        if i :| 0 <= i < |ms[1..]| && k in ms[1..][i] { assert k in ms[i + 1]; }
        if i :| 0 <= i < |ms| && k in ms[i] { assert k in ms[1..][i - 1]; }
        forall i | 0 <= i < |ms| && k in ms[i] && (forall j | 0 <= j < i :: k !in ms[j])
          ensures Flat(ms)[k] == ms[i][k]
        {
          assert i > 0 && ms[1..][i - 1] == ms[i];
          forall j | 0 <= j < i - 1 ensures k !in ms[1..][j] { assert ms[1..][j] == ms[j + 1]; }
        }
      }
    }
  }

  /** The hierarchical gather leaves at the first process what the flat one does. */
  lemma {:induction false} HierIsFlat(ms: seq<Store>)
    requires ms != []
    ensures Hier(ms)[0] == Flat(ms)
    decreases |ms|
  {
    if |ms| == 1 {
      FlatOne(ms[0]);
    } else {
      var h := Half(|ms|);
      assert ms == ms[..h] + ms[h..];
      FlatConcat(ms[..h], ms[h..]);
      if |ms| > 2 {
        HierIsFlat(ms[..h]);
        HierIsFlat(ms[h..]);
      } else {
        assert ms[..h] == [ms[0]] && ms[h..] == [ms[1]];
        FlatOne(ms[0]);
        FlatOne(ms[1]);
      }
    }
  }

  /** The processes that take part: the first one, and those whose registry is not empty. */
  function Taking(ms: seq<Store>): seq<Store> {
    if ms == [] then [] else
    Taking(ms[..|ms| - 1]) + (if |ms| == 1 || ms[|ms| - 1] != map[] then [ms[|ms| - 1]] else [])
  }

  lemma {:induction false} TakingFlat(ms: seq<Store>)
    ensures Flat(Taking(ms)) == Flat(ms)
    ensures ms != [] ==> Taking(ms) != [] && Taking(ms)[0] == ms[0]
  {
    if ms != [] {
      var i := |ms| - 1;
      TakingFlat(ms[..i]);
      if i == 0 { assert Taking(ms) == [ms[0]] == ms; }
      assert Taking(ms[..i]) + [] == Taking(ms[..i]);
      assert ms == ms[..i] + [ms[i]];
      FlatConcat(ms[..i], [ms[i]]);
      FlatConcat(Taking(ms[..i]), [ms[i]]);
      FlatOne(ms[i]);
      MergeAssociative(Flat(ms[..i]), map[], map[]);
    }
  }

  /** All registries fit in messages: u has all keys. */
  predicate Fit(ms: seq<Store>, u: set<Key>) {
    && |u| < WORD
    && forall i | 0 <= i < |ms| :: FitsIn(ms[i], u)
  }

  predicate FitsIn(m: Store, u: set<Key>) {
    m.Keys <= u && forall k | k in m :: |k| < WORD && |m[k]| < WORD
  }

  lemma {:induction false} SubsetSize(a: set<Key>, b: set<Key>)
    requires a <= b
    ensures |a| <= |b|
  {
    if a != {} {
      var k :| k in a;
      SubsetSize(a - {k}, b - {k});
    }
  }

  lemma FitSmall(ms: seq<Store>, u: set<Key>, i: nat)
    requires Fit(ms, u) && i < |ms|
    ensures Small(ms[i])
  {
    assert FitsIn(ms[i], u);
    SubsetSize(ms[i].Keys, u);
    assert |ms[i]| == |ms[i].Keys|;
  }

  lemma MergeFits(a: Store, b: Store, u: set<Key>)
    requires FitsIn(a, u) && FitsIn(b, u)
    ensures FitsIn(Merge(a, b), u)
  {}

  lemma {:induction false} HierFits(ms: seq<Store>, u: set<Key>)
    requires Fit(ms, u)
    ensures Fit(Hier(ms), u)
    decreases |ms|
  {
    if |ms| > 1 {
      var h := Half(|ms|);
      var up := if |ms| > 2 then Hier(ms[..h]) + Hier(ms[h..]) else ms;
      if |ms| > 2 {
        HierFits(ms[..h], u);
        HierFits(ms[h..], u);
      }
      assert Fit(up, u);
      MergeFits(up[0], up[h], u);
    }
  }

  // ---------------------------------------------------------------- the gathers

  function Maps(regs: seq<CRegistry>): (ms: seq<Store>)
    reads regs
    ensures |ms| == |regs| && forall i | 0 <= i < |regs| :: ms[i] == regs[i].registry
  {
    seq(|regs|, i requires 0 <= i < |regs| reads regs => regs[i].registry)
  }

  predicate Apart(regs: seq<CRegistry>) {
    forall i, j | 0 <= i < j < |regs| :: regs[i] != regs[j]
  }

  lemma OverEmpty(m: Store)
    ensures Override(map[], m) == m
  {}

  /** The message of a registry: a buffer of exactly size() bytes, filled by toBuffer. */
  method Message(from: CRegistry) returns (localBuffer: CBufferOut, ghost ks: seq<Key>)
    ensures fresh(localBuffer) && fresh(localBuffer.begin) && localBuffer.Valid()
    ensures Enumerates(ks, from.registry) && localBuffer.Written() == Encoding(from.registry, ks)
  {
    hide Encoding;
    var size := from.Size();
    localBuffer := new CBufferOut(size);
    var ok;
    ok, ks := from.ToBuffer(localBuffer);
    assert localBuffer.Written() == [] + Encoding(from.registry, ks);
  }

  /** An empty registry reads a message. */
  method ReadMessage(begin: array<byte>, size: nat, ghost m: Store, ghost ks: seq<Key>) returns (reg: CRegistry)
    requires size <= begin.Length && Small(m) && Enumerates(ks, m) && begin[..size] == Encoding(m, ks)
    ensures fresh(reg) && reg.registry == m
  {
    OverEmpty(m);
    assert forall k | k in ks :: k in m;
    hide *;
    var buffer := new CBufferIn(begin, size);
    reg := new CRegistry();
    assert buffer.Rest() == Encoding(m, ks) + [];
    reg.FromBuffer(buffer, m, ks, []);
  }

  /** One process sends its registry, and the first one merges it. */
  method Transfer(to: CRegistry, from: CRegistry)
    requires to != from && Small(from.registry)
    modifies to
    ensures to.registry == Merge(old(to.registry), from.registry)
  {
    hide Encoding, Enumerates, Small, Merge;
    var localBuffer, ks := Message(from);
    var reg := ReadMessage(localBuffer.begin, localBuffer.count, from.registry, ks);
    to.MergeRegistry(reg);
  }

  /** gatherRegistry: the first process receives all registries and merges them in rank order. */
  method GatherRegistry(regs: seq<CRegistry>, ghost u: set<Key>)
    requires regs != [] && Apart(regs) && Fit(Maps(regs), u)
    modifies regs[0]
    ensures regs[0].registry == Flat(old(Maps(regs)))
    ensures forall i | 1 <= i < |regs| :: regs[i].registry == old(regs[i].registry)
  {
    ghost var ms := Maps(regs);
    FlatFirst(ms, 0);
    hide Flat, Merge, Fit, Small;
    for i := 1 to |regs|
      invariant regs[0].registry == Flat(ms[..i])
      invariant forall j | 1 <= j < |regs| :: regs[j].registry == ms[j]
    {
      FitSmall(ms, u, i);
      FlatFirst(ms, i);
      Transfer(regs[0], regs[i]);
    }
    assert ms[..|regs|] == ms;
  }

  lemma FlatFirst(ms: seq<Store>, i: nat)
    requires i < |ms|
    ensures Flat(ms[..1]) == ms[0] && Flat(ms[..i + 1]) == Merge(Flat(ms[..i]), ms[i])
  {
    assert ms[..1] == [ms[0]] && ms[..i + 1] == ms[..i] + [ms[i]];
    FlatOne(ms[0]);
    FlatOne(ms[i]);
    FlatConcat(ms[..i], [ms[i]]);
  }

  /** hierarchicalGatherRegistry(comm): first in both halves, then between the leaders of the halves. */
  method HierarchicalGather(regs: seq<CRegistry>, ghost u: set<Key>)
    requires regs != [] && Apart(regs) && Fit(Maps(regs), u)
    modifies regs
    ensures Maps(regs) == Hier(old(Maps(regs)))
    decreases |regs|, 1
  {
    ghost var ms := Maps(regs);
    var mpiSize := |regs|;
    var h := mpiSize / 2 + mpiSize % 2;
    if mpiSize > 2 {
      GatherHalves(regs, h, u);
    }
    if mpiSize > 1 {
      UpFits(ms, u, h);
      hide Fit, Merge;
      GatherLeaders(regs, h, u);
    }
  }

  /** The first processes of the two halves gather between them. */
  method GatherLeaders(regs: seq<CRegistry>, h: nat, ghost u: set<Key>)
    requires 1 <= h < |regs| && Apart(regs) && Fit([regs[0].registry, regs[h].registry], u)
    modifies regs[0]
    ensures Maps(regs) == old(Maps(regs))[0 := Merge(old(regs[0].registry), old(regs[h].registry))]
  {
    FlatPair(regs[0].registry, regs[h].registry);
    hide Flat, Merge, Fit;
    var pair := [regs[0], regs[h]];
    assert Maps(pair) == [regs[0].registry, regs[h].registry];
    GatherRegistry(pair, u);
  }

  method GatherHalves(regs: seq<CRegistry>, h: nat, ghost u: set<Key>)
    requires 1 <= h < |regs| && Apart(regs) && Fit(Maps(regs), u)
    modifies regs
    ensures Maps(regs) == Hier(old(Maps(regs))[..h]) + Hier(old(Maps(regs))[h..])
    decreases |regs|, 0
  {
    ghost var ms := Maps(regs);
    assert Maps(regs[..h]) == ms[..h] && Maps(regs[h..]) == ms[h..];
    hide Hier, Fit, Merge;
    HalvesApart(regs, h, u);
    var left, right := regs[..h], regs[h..];
    hide Apart;
    HierarchicalGather(left, u);
    assert Maps(right) == ms[h..];
    HierarchicalGather(right, u);
    assert Maps(left) == Hier(ms[..h]);
    assert regs == left + right;
    MapsConcat(left, right);
  }

  lemma MapsConcat(a: seq<CRegistry>, b: seq<CRegistry>)
    ensures Maps(a + b) == Maps(a) + Maps(b)
  { }

  lemma HalvesApart(regs: seq<CRegistry>, h: nat, u: set<Key>)
    requires h <= |regs| && Apart(regs) && Fit(Maps(regs), u)
    ensures Apart(regs[..h]) && Apart(regs[h..]) && (forall x | x in regs[..h] :: x !in regs[h..])
    ensures Fit(Maps(regs[..h]), u) && Fit(Maps(regs[h..]), u)
  { }

  lemma FlatPair(a: Store, b: Store)
    ensures Flat([a, b]) == Merge(a, b)
  {
    assert [a, b][1..] == [b];
    FlatOne(b);
  }

  lemma UpFits(ms: seq<Store>, u: set<Key>, h: nat)
    requires |ms| > 1 && h == Half(|ms|) && Fit(ms, u)
    ensures var up := if |ms| > 2 then Hier(ms[..h]) + Hier(ms[h..]) else ms;
      Fit(up, u) && Fit([up[0], up[h]], u)
  {
    if |ms| > 2 {
      HierFits(ms[..h], u);
      HierFits(ms[h..], u);
    }
  }

  /** hierarchicalGatherRegistry(): processes with an empty registry stay out, except the first one.  The
      first process ends with the same registry as after gatherRegistry over all processes. */
  method HierarchicalGatherAll(regs: seq<CRegistry>, ghost u: set<Key>)
    requires regs != [] && Apart(regs) && Fit(Maps(regs), u)
    modifies regs
    ensures regs[0].registry == Flat(old(Maps(regs)))
  {
    var newComm := Split(regs);
    TakenGather(Maps(regs), u);
    hide *;
    assert forall i | 0 <= i < |newComm| :: newComm[i] in newComm && newComm[i] in regs;
    HierarchicalGather(newComm, u);
    assert Maps(newComm)[0] == newComm[0].registry;
  }

  lemma TakenGather(ms: seq<Store>, u: set<Key>)
    requires ms != [] && Fit(ms, u)
    ensures Taking(ms) != [] && Fit(Taking(ms), u) && Hier(Taking(ms))[0] == Flat(ms)
  {
    TakingFit(ms, u);
    TakingFlat(ms);
    HierIsFlat(Taking(ms));
  }

  /** The communicator of the processes that take part. */
  method Split(regs: seq<CRegistry>) returns (newComm: seq<CRegistry>)
    requires regs != [] && Apart(regs)
    ensures Apart(newComm) && (forall r | r in newComm :: r in regs)
    ensures Maps(newComm) == Taking(Maps(regs)) && newComm != [] && newComm[0] == regs[0]
  {
    newComm := [];
    ghost var ms := Maps(regs);
    for rank := 0 to |regs|
      invariant Apart(newComm) && (forall r | r in newComm :: r in regs[..rank])
      invariant Maps(newComm) == Taking(ms[..rank])
      invariant rank > 0 ==> newComm != [] && newComm[0] == regs[0]
    {
      assert ms[..rank + 1][..rank] == ms[..rank] && ms[..rank + 1][rank] == ms[rank];
      assert regs[..rank + 1] == regs[..rank] + [regs[rank]];
      if regs[rank].registry != map[] || rank == 0 {
        assert regs[rank] !in regs[..rank];
        assert Maps(newComm + [regs[rank]]) == Maps(newComm) + [ms[rank]];
        newComm := newComm + [regs[rank]];
      }
    }
    assert ms[..|regs|] == ms && regs[..|regs|] == regs;
  }

  lemma {:induction false} TakingFit(ms: seq<Store>, u: set<Key>)
    requires Fit(ms, u)
    ensures Fit(Taking(ms), u)
  {
    if ms != [] { TakingFit(ms[..|ms| - 1], u); }
  }
}
