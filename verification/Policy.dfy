/** The nested groups of DivideAdaptiveComm (src/policy.cpp). */
module Policy {
  import opened SchedulerTree

  /** Level l holds the group of a rank after l divisions. */
  ghost predicate Groups(begins: seq<nat>, nbs: seq<nat>, g0: Group, mc: nat, rank: nat, n: nat)
    requires mc >= 2
  {
    && n <= |begins| == |nbs|
    && forall l | 0 <= l < n :: Group(begins[l], nbs[l]) == At(g0, mc, rank, l)
  }

  /** The rows hold the children of g. */
  ghost predicate Children(row: seq<nat>, lens: seq<nat>, mc: nat, g: Group)
    requires mc >= 2
  {
    && Count(g, mc) <= |row| && Count(g, mc) <= |lens|
    && forall i | 0 <= i < Count(g, mc) :: Group(row[i], lens[i]) == Child(g, mc, i)
  }

  /** The rows hold each single rank of g. */
  ghost predicate Singles(row: seq<nat>, lens: seq<nat>, g: Group) {
    && g.nb <= |row| && g.nb <= |lens|
    && forall i | 0 <= i < g.nb :: row[i] == g.begin + i && lens[i] == 1
  }

  /** The first n rows hold the children of a rank's groups. */
  ghost predicate AllChildren(rows: seq<seq<nat>>, lens: seq<seq<nat>>, g0: Group, mc: nat, rank: nat, n: nat)
    requires mc >= 2
  {
    && n <= |rows| == |lens|
    && forall l {:trigger At(g0, mc, rank, l)} | 0 <= l < n :: Children(rows[l], lens[l], mc, At(g0, mc, rank, l))
  }

  lemma MoreGroups(begins: seq<nat>, nbs: seq<nat>, g0: Group, mc: nat, rank: nat, n: nat, begin: nat, nb: nat)
    requires mc >= 2 && Groups(begins, nbs, g0, mc, rank, n) && n < |begins| == |nbs|
    requires Group(begin, nb) == At(g0, mc, rank, n)
    ensures Groups(begins[n := begin], nbs[n := nb], g0, mc, rank, n + 1)
  {}

  lemma NoGroups(begins: seq<nat>, nbs: seq<nat>, g0: Group, mc: nat, rank: nat)
    requires mc >= 2 && |begins| == |nbs|
    ensures Groups(begins, nbs, g0, mc, rank, 0)
  {}

  lemma NoChildren(rows: seq<seq<nat>>, lens: seq<seq<nat>>, g0: Group, mc: nat, rank: nat)
    requires mc >= 2 && |rows| == |lens|
    ensures AllChildren(rows, lens, g0, mc, rank, 0)
  {}

  lemma MoreChildren(rows: seq<seq<nat>>, lens: seq<seq<nat>>, g0: Group, mc: nat, rank: nat, n: nat, row: seq<nat>, len: seq<nat>)
    requires mc >= 2 && AllChildren(rows, lens, g0, mc, rank, n) && n < |rows| == |lens|
    ensures AllChildren(rows[n := row], lens[n := len], g0, mc, rank, n)
    ensures Children(row, len, mc, At(g0, mc, rank, n)) ==> AllChildren(rows[n := row], lens[n := len], g0, mc, rank, n + 1)
  {}

  lemma LastGroup(begins: seq<nat>, nbs: seq<nat>, g0: Group, mc: nat, rank: nat, n: nat)
    requires mc >= 2 && n >= 1 && Groups(begins, nbs, g0, mc, rank, n)
    ensures Group(begins[n - 1], nbs[n - 1]) == At(g0, mc, rank, n - 1)
  {}

  /** The last group has at most maxChild ranks. */
  lemma LastFits(size: nat, rank: nat, mc: nat, maxLevel: nat, level: nat)
    requires rank < size && mc >= 2 && IsMaxLevel(size, mc, maxLevel) && 1 <= level <= maxLevel
    requires At(Group(0, size), mc, rank, level - 1).nb <= 2 || level == maxLevel
    ensures At(Group(0, size), mc, rank, level - 1).nb <= mc
  {
    if level == maxLevel {
      Shrinks(Group(0, size), mc, rank, maxLevel - 1, maxLevel);
      assert Pow(mc, 1) == mc * Pow(mc, 0);
    }
  }

  class DivideAdaptiveComm {
    const mpiSize: nat
    const mpiRank: nat
    var computed: bool
    var level: nat
    var groupBegin: seq<nat>
    var nbInGroup: seq<nat>
    var groupParentsBegin: seq<seq<nat>>
    var nbInGroupParents: seq<seq<nat>>

    constructor (mpiSize: nat, mpiRank: nat)
      requires mpiRank < mpiSize
      ensures this.mpiSize == mpiSize && this.mpiRank == mpiRank && !computed && level == 0
    {
      this.mpiSize, this.mpiRank := mpiSize, mpiRank;
      computed, level := false, 0;
      groupBegin, nbInGroup, groupParentsBegin, nbInGroupParents := [], [], [], [];
    }

    /** Builds the levels once.  The last group has at most maxChild ranks, so its list of single ranks
        fits in the arrays. */
    method ComputeMPICommLevel()
      requires mpiRank < mpiSize
      modifies this
      ensures computed
      ensures old(computed) ==> unchanged(this)
      ensures !old(computed) ==>
        var g0, mc := Group(0, mpiSize), MaxChildOf(mpiSize);
        && level >= 1 && Groups(groupBegin, nbInGroup, g0, mc, mpiRank, level)
        && AllChildren(groupParentsBegin, nbInGroupParents, g0, mc, mpiRank, level - 1)
        && level <= |groupParentsBegin| == |nbInGroupParents|
        && var last := At(g0, mc, mpiRank, level - 1);
        && last.nb <= mc && Singles(groupParentsBegin[level - 1], nbInGroupParents[level - 1], last)
    {
      hide *;
      if computed { return; }
      computed := true;
      var maxChild := MaxChild(mpiSize);
      var maxLevel := MaxLevel(mpiSize, maxChild);
      BuildGroups(maxChild, maxLevel);
      LastFits(mpiSize, mpiRank, maxChild, maxLevel, level);
      ghost var g0 := Group(0, mpiSize);
      LastGroup(groupBegin, nbInGroup, g0, maxChild, mpiRank, level);
      var row, lens := SingleRows(groupBegin[level - 1], nbInGroup[level - 1],
                                  groupParentsBegin[level - 1], nbInGroupParents[level - 1]);
      MoreChildren(groupParentsBegin, nbInGroupParents, g0, maxChild, mpiRank, level - 1, row, lens);
      groupParentsBegin := groupParentsBegin[level - 1 := row];
      nbInGroupParents := nbInGroupParents[level - 1 := lens];
    }

    /** The division loop. */
    method BuildGroups(maxChild: nat, maxLevel: nat)
      requires mpiRank < mpiSize && maxChild >= 2 && maxLevel >= 1
      modifies `level, `groupBegin, `nbInGroup, `groupParentsBegin, `nbInGroupParents
      ensures 1 <= level <= maxLevel == |groupBegin| == |nbInGroup| == |groupParentsBegin| == |nbInGroupParents|
      ensures |groupParentsBegin[level - 1]| == maxChild && |nbInGroupParents[level - 1]| == maxChild
      ensures Groups(groupBegin, nbInGroup, Group(0, mpiSize), maxChild, mpiRank, level)
      ensures AllChildren(groupParentsBegin, nbInGroupParents, Group(0, mpiSize), maxChild, mpiRank, level - 1)
      ensures At(Group(0, mpiSize), maxChild, mpiRank, level - 1).nb <= 2 || level == maxLevel
    {
      hide Children, Next, Groups, AllChildren;
      ghost var g0 := Group(0, mpiSize);
      level := 0;
      var begin: nat, end: int, nb: nat := 0, mpiSize - 1, mpiSize;
      nbInGroup := seq(maxLevel, _ => 0);
      groupBegin := nbInGroup;
      nbInGroupParents := seq(maxLevel, _ => seq(maxChild, _ => 0));
      groupParentsBegin := nbInGroupParents;
      NoGroups(groupBegin, nbInGroup, g0, maxChild, mpiRank);
      NoChildren(groupParentsBegin, nbInGroupParents, g0, maxChild, mpiRank);
      MoreGroups(groupBegin, nbInGroup, g0, maxChild, mpiRank, 0, begin, nb);
      groupBegin := groupBegin[level := begin];
      nbInGroup := nbInGroup[level := nb];
      level := level + 1;
      while nb > 2 && level < maxLevel
        invariant 1 <= level <= maxLevel
        invariant |groupBegin| == |nbInGroup| == |groupParentsBegin| == |nbInGroupParents| == maxLevel
        invariant forall l | 0 <= l < maxLevel :: |groupParentsBegin[l]| == maxChild && |nbInGroupParents[l]| == maxChild
        invariant Group(begin, nb) == At(g0, maxChild, mpiRank, level - 1) && end == begin + nb - 1
        invariant Groups(groupBegin, nbInGroup, g0, maxChild, mpiRank, level)
        invariant AllChildren(groupParentsBegin, nbInGroupParents, g0, maxChild, mpiRank, level - 1)
        decreases maxLevel - level
      {
        AtIn(g0, maxChild, mpiRank, level - 1);
        var row, lens;
        begin, end, row, lens := Divide(begin, end, groupParentsBegin[level - 1], nbInGroupParents[level - 1]);
        MoreChildren(groupParentsBegin, nbInGroupParents, g0, maxChild, mpiRank, level - 1, row, lens);
        groupParentsBegin := groupParentsBegin[level - 1 := row];
        nbInGroupParents := nbInGroupParents[level - 1 := lens];
        MoreGroups(groupBegin, nbInGroup, g0, maxChild, mpiRank, level, begin, end - begin + 1);
        groupBegin := groupBegin[level := begin];
        nb := end - begin + 1;
        nbInGroup := nbInGroup[level := nb];
        level := level + 1;
      }
    }

    /** The inner loop: children of begin0..end0, and the next group of this rank. */
    method Divide(begin0: nat, end0: int, row0: seq<nat>, lens0: seq<nat>)
      returns (begin: nat, end: int, row: seq<nat>, lens: seq<nat>)
      requires |row0| == |lens0| >= 2 && begin0 <= mpiRank <= end0
      ensures var g, mc := Group(begin0, end0 - begin0 + 1), |row0|;
        && begin <= end + 1 && Group(begin, end - begin + 1) == Next(g, mc, mpiRank)
        && |row| == |lens| == mc && Children(row, lens, mc, g)
    {
      hide Next, SlotFrom, At, Start;
      var maxChild := |row0|;
      begin, end, row, lens := begin0, end0, row0, lens0;
      var nb: nat := end - begin + 1;
      ghost var g := Group(begin0, nb);
      Partition(g, maxChild);
      DivStep(nb, maxChild);
      StartStep(g, maxChild, 0);
      var pos: nat := begin;
      var i := 0;
      while i < maxChild && i < nb
        invariant 0 <= i <= Count(g, maxChild)
        invariant pos == Start(g, maxChild, i) && |row| == |lens| == maxChild
        invariant forall k | 0 <= k < i :: Group(row[k], lens[k]) == Child(g, maxChild, k)
        invariant if mpiRank < pos then begin <= end + 1 && Group(begin, end - begin + 1) == Next(g, maxChild, mpiRank)
                  else begin == begin0 && end == end0
      {
        var n := if i < nb % maxChild then nb / maxChild + 1 else nb / maxChild;
        if mpiRank >= pos && mpiRank < pos + n {
          begin := pos;
          end := pos + n - 1;
          NextIs(g, maxChild, mpiRank, i);
        }
        StartStep(g, maxChild, i);
        row := row[i := pos];
        lens := lens[i := n];
        pos := pos + n;
        i := i + 1;
      }
    }

    method SingleRows(begin: nat, nb: nat, row0: seq<nat>, lens0: seq<nat>) returns (row: seq<nat>, lens: seq<nat>)
      requires nb <= |row0| == |lens0|
      ensures |row| == |lens| == |row0| && Singles(row, lens, Group(begin, nb))
    {
      row, lens := row0, lens0;
      for i := 0 to nb
        invariant |row| == |lens| == |row0| && forall k | 0 <= k < i :: row[k] == begin + k && lens[k] == 1
      {
        row := row[i := begin + i];
        lens := lens[i := 1];
      }
    }
  }
}
