/** Distributing files over servers by annealing (src/distribute_file_server2.cpp).  Bandwidth, memory and
    grid counts of the servers are kept up to date by additions and removals; doubles are integers here,
    and every random choice is free. */
module FileDistribution {

  /** A file: its bandwidth and the grids it uses (a grid may be listed more than once). */
  datatype File = File(bandwith: nat, grids: seq<nat>)

  /** A server: totals, and how often each grid is used by its files. */
  datatype Server = Server(bandwith: int, memory: int, energy: int, counts: seq<int>)

  // ---------------------------------------------------------------- totals from scratch

  /** The weighted sum of x; the weight of a file at a server is how often it has been added there. */
  function Dot(w: seq<int>, x: seq<int>): int
    requires |w| == |x|
  {
    if w == [] then 0 else w[0] * x[0] + Dot(w[1..], x[1..])
  }

  lemma {:induction false} DotUpdate(w: seq<int>, x: seq<int>, f: nat, d: int)
    requires |w| == |x| && f < |w|
    ensures Dot(w[f := w[f] + d], x) == Dot(w, x) + d * x[f]
  {
    if f == 0 {
      assert (w[0] + d) * x[0] == w[0] * x[0] + d * x[0];
    } else {
      DotUpdate(w[1..], x[1..], f - 1, d);
      assert w[f := w[f] + d][1..] == w[1..][f - 1 := w[f] + d];
    }
  }

  function Occ(gs: seq<nat>, g: nat): nat {
    if gs == [] then 0 else (if gs[|gs| - 1] == g then 1 else 0) + Occ(gs[..|gs| - 1], g)
  }

  function Bandwiths(files: seq<File>): seq<int> {
    seq(|files|, f requires 0 <= f < |files| => files[f].bandwith)
  }

  function Uses(files: seq<File>, g: nat): seq<int> {
    seq(|files|, f requires 0 <= f < |files| => Occ(files[f].grids, g))
  }

  /** The sizes of the grids with a positive count. */
  function Mem(counts: seq<int>, sizes: seq<nat>): int
    requires |counts| == |sizes|
  {
    if counts == [] then 0 else (if counts[0] > 0 then sizes[0] else 0) + Mem(counts[1..], sizes[1..])
  }

  lemma {:induction false} MemUpdate(counts: seq<int>, sizes: seq<nat>, g: nat, v: int)
    requires |counts| == |sizes| && g < |counts|
    ensures Mem(counts[g := v], sizes)
         == Mem(counts, sizes) - (if counts[g] > 0 then sizes[g] else 0) + if v > 0 then sizes[g] else 0
  {
    if g > 0 {
      MemUpdate(counts[1..], sizes[1..], g - 1, v);
      assert counts[g := v][1..] == counts[1..][g - 1 := v];
    }
  }

  /** The server that weights w stand for. */
  function FromScratch(w: seq<int>, files: seq<File>, sizes: seq<nat>): Server
    requires |w| == |files|
  {
    var counts := seq(|sizes|, g requires 0 <= g < |sizes| => Dot(w, Uses(files, g)));
    var b := Dot(w, Bandwiths(files));
    Server(b, Mem(counts, sizes), b + Mem(counts, sizes), counts)
  }

  /** The weights of an assignment of files to servers. */
  function Weights(a: seq<nat>, s: nat): seq<int> {
    seq(|a|, f requires 0 <= f < |a| => if a[f] == s then 1 else 0)
  }

  /** The largest energy, or 0. */
  function MaxEnergy(servers: seq<Server>): int {
    if servers == [] then 0 else
    var m := MaxEnergy(servers[..|servers| - 1]);
    if m < servers[|servers| - 1].energy then servers[|servers| - 1].energy else m
  }

  lemma {:induction false} MaxEnergyIs(servers: seq<Server>)
    ensures forall i | 0 <= i < |servers| :: servers[i].energy <= MaxEnergy(servers)
    ensures MaxEnergy(servers) == 0 || exists i :: 0 <= i < |servers| && servers[i].energy == MaxEnergy(servers)
  {
    if servers != [] {
      var k := |servers| - 1;
      MaxEnergyIs(servers[..k]);
      forall i | 0 <= i < |servers| ensures servers[i].energy <= MaxEnergy(servers) {
        if i < k { assert servers[..k][i].energy <= MaxEnergy(servers[..k]); }
      }
      if i :| 0 <= i < k && servers[..k][i].energy == MaxEnergy(servers[..k]) {
        assert servers[i].energy == MaxEnergy(servers[..k]);
      }
    }
  }

  /** One more or one less of file f, with the tests and updates of addFile and removeFile. */
  method AddFile(s0: Server, f: nat, files: seq<File>, sizes: seq<nat>, ghost w: seq<int>) returns (s: Server)
    requires f < |files| == |w| && (forall g | g in files[f].grids :: g < |sizes|)
    requires s0 == FromScratch(w, files, sizes)
    ensures s == FromScratch(w[f := w[f] + 1], files, sizes)
  {
    s := s0.(bandwith := s0.bandwith + files[f].bandwith);
    var gs := files[f].grids;
    for i := 0 to |gs|
      invariant s.bandwith == s0.bandwith + files[f].bandwith
      invariant |s.counts| == |sizes| && s.memory == Mem(s.counts, sizes)
      invariant forall g | 0 <= g < |sizes| :: s.counts[g] == s0.counts[g] + Occ(gs[..i], g)
    {
      var numGrid := gs[i];
      assert gs[..i + 1][..i] == gs[..i];
      assert numGrid in gs;
      MemUpdate(s.counts, sizes, numGrid, s.counts[numGrid] + 1);
      if s.counts[numGrid] == 0 { s := s.(memory := s.memory + sizes[numGrid]); }
      s := s.(counts := s.counts[numGrid := s.counts[numGrid] + 1]);
    }
    assert gs[..|gs|] == gs;
    s := s.(energy := s.bandwith + s.memory);
    Shifted(s0, s, f, 1, files, sizes, w);
  }

  method RemoveFile(s0: Server, f: nat, files: seq<File>, sizes: seq<nat>, ghost w: seq<int>) returns (s: Server)
    requires f < |files| == |w| && (forall g | g in files[f].grids :: g < |sizes|)
    requires s0 == FromScratch(w, files, sizes)
    ensures s == FromScratch(w[f := w[f] - 1], files, sizes)
  {
    s := s0.(bandwith := s0.bandwith - files[f].bandwith);
    var gs := files[f].grids;
    for i := 0 to |gs|
      invariant s.bandwith == s0.bandwith - files[f].bandwith
      invariant |s.counts| == |sizes| && s.memory == Mem(s.counts, sizes)
      invariant forall g | 0 <= g < |sizes| :: s.counts[g] == s0.counts[g] - Occ(gs[..i], g)
    {
      var numGrid := gs[i];
      assert gs[..i + 1][..i] == gs[..i];
      assert numGrid in gs;
      MemUpdate(s.counts, sizes, numGrid, s.counts[numGrid] - 1);
      if s.counts[numGrid] == 1 { s := s.(memory := s.memory - sizes[numGrid]); }
      s := s.(counts := s.counts[numGrid := s.counts[numGrid] - 1]);
    }
    assert gs[..|gs|] == gs;
    s := s.(energy := s.bandwith + s.memory);
    Shifted(s0, s, f, -1, files, sizes, w);
  }

  lemma Shifted(s0: Server, s: Server, f: nat, d: int, files: seq<File>, sizes: seq<nat>, w: seq<int>)
    requires f < |files| == |w| && s0 == FromScratch(w, files, sizes)
    requires s.bandwith == s0.bandwith + d * files[f].bandwith
    requires |s.counts| == |sizes| && s.memory == Mem(s.counts, sizes) && s.energy == s.bandwith + s.memory
    requires forall g | 0 <= g < |sizes| :: s.counts[g] == s0.counts[g] + d * Occ(files[f].grids, g)
    ensures s == FromScratch(w[f := w[f] + d], files, sizes)
  {
    var w' := w[f := w[f] + d];
    DotUpdate(w, Bandwiths(files), f, d);
    forall g | 0 <= g < |sizes| ensures s.counts[g] == Dot(w', Uses(files, g)) {
      DotUpdate(w, Uses(files, g), f, d);
    }
    assert s.counts == FromScratch(w', files, sizes).counts;
  }

  // ---------------------------------------------------------------- what an assignment gives

  /** The servers that assignment a of the files gives. */
  function AllServers(a: seq<nat>, n: nat, files: seq<File>, sizes: seq<nat>): seq<Server>
    requires |a| == |files|
  {
    seq(n, s requires 0 <= s < n => FromScratch(Weights(a, s), files, sizes))
  }

  function EnergyOf(a: seq<nat>, n: nat, files: seq<File>, sizes: seq<nat>): int
    requires |a| == |files|
  {
    MaxEnergy(AllServers(a, n, files, sizes))
  }

  /** Files f and g at each other's server. */
  function Swapped(a: seq<nat>, f: nat, g: nat): seq<nat>
    requires f < |a| && g < |a|
  {
    a[f := a[g]][g := a[f]]
  }

  /** Every file of server si that uses the grid goes to sj. */
  function Regrouped(a: seq<nat>, files: seq<File>, si: nat, sj: nat, grid: nat): seq<nat>
    requires |a| == |files|
  {
    seq(|a|, f requires 0 <= f < |a| => if a[f] == si && grid in files[f].grids then sj else a[f])
  }

  lemma {:induction false} DotSign(w: seq<int>, x: seq<int>)
    requires |w| == |x| && forall i | 0 <= i < |w| :: w[i] >= 0 && x[i] >= 0
    ensures Dot(w, x) >= 0
    ensures Dot(w, x) > 0 <==> exists i :: 0 <= i < |w| && w[i] > 0 && x[i] > 0
  {
    if w != [] {
      DotSign(w[1..], x[1..]);
      assert w[0] > 0 && x[0] > 0 ==> w[0] * x[0] > 0;
      assert w[0] == 0 || x[0] == 0 ==> w[0] * x[0] == 0;
      if i :| 0 <= i < |w[1..]| && w[1..][i] > 0 && x[1..][i] > 0 {
        assert w[i + 1] > 0 && x[i + 1] > 0;
      }
      if i :| 0 <= i < |w| && w[i] > 0 && x[i] > 0 {
        if i > 0 { assert w[1..][i - 1] > 0 && x[1..][i - 1] > 0; }
      }
    }
  }

  lemma {:induction false} OccIs(gs: seq<nat>, g: nat)
    ensures Occ(gs, g) >= 0 && (Occ(gs, g) > 0 <==> g in gs)
  {
    if gs != [] {
      OccIs(gs[..|gs| - 1], g);
      assert gs == gs[..|gs| - 1] + [gs[|gs| - 1]];
    }
  }

  /** A server counts a grid exactly when one of its files uses it. */
  lemma CountIs(a: seq<nat>, s: nat, n: nat, files: seq<File>, sizes: seq<nat>, g: nat)
    requires |a| == |files| && s < n && g < |sizes|
    ensures AllServers(a, n, files, sizes)[s].counts[g] >= 0
    ensures AllServers(a, n, files, sizes)[s].counts[g] != 0
       <==> exists f :: 0 <= f < |files| && a[f] == s && g in files[f].grids
  {
    var w, x := Weights(a, s), Uses(files, g);
    forall f | 0 <= f < |files| ensures x[f] >= 0 && (x[f] > 0 <==> g in files[f].grids) { OccIs(files[f].grids, g); }
    DotSign(w, x);
    if i :| 0 <= i < |w| && w[i] > 0 && x[i] > 0 { assert a[i] == s && g in files[i].grids; }
    if f :| 0 <= f < |files| && a[f] == s && g in files[f].grids { assert w[f] > 0 && x[f] > 0; }
  }

  lemma {:induction false} MemSign(counts: seq<int>, sizes: seq<nat>)
    requires |counts| == |sizes|
    ensures Mem(counts, sizes) >= 0
  {
    if counts != [] { MemSign(counts[1..], sizes[1..]); }
  }

  /** The energy of an assignment is the largest energy of a server. */
  lemma EnergyIsLargest(a: seq<nat>, n: nat, files: seq<File>, sizes: seq<nat>)
    requires |a| == |files| && n > 0
    ensures forall s | 0 <= s < n :: AllServers(a, n, files, sizes)[s].energy <= EnergyOf(a, n, files, sizes)
    ensures exists s :: 0 <= s < n && AllServers(a, n, files, sizes)[s].energy == EnergyOf(a, n, files, sizes)
  {
    var all := AllServers(a, n, files, sizes);
    MaxEnergyIs(all);
    DotSign(Weights(a, 0), Bandwiths(files));
    MemSign(all[0].counts, sizes);
    assert all[0].energy >= 0;
  }

  // ---------------------------------------------------------------- the annealing

  class Distribution {
    const files: seq<File>
    const sizes: seq<nat>
    var servers: seq<Server>
    /** The server of each file. */
    var assignment: seq<nat>
    var energy: int
    /** How often each file has been added to each server. */
    ghost var added: seq<seq<int>>

    ghost predicate Shape()
      reads this
    {
      && |added| == |servers| > 0 && |assignment| == |files|
      && (forall f | 0 <= f < |files| :: assignment[f] < |servers|)
      && (forall f, g | 0 <= f < |files| && g in files[f].grids :: g < |sizes|)
      && (forall s | 0 <= s < |servers| :: |added[s]| == |files|)
      && (forall s | 0 <= s < |servers| :: servers[s] == FromScratch(added[s], files, sizes))
    }

    /** Each file has been added to its own server, once, and to no other. */
    ghost predicate Placed()
      requires Shape()
      reads this
    {
      forall s, f | 0 <= s < |servers| && 0 <= f < |files| :: added[s][f] == if assignment[f] == s then 1 else 0
    }

    /** Between two steps: the servers are those of the assignment, and so is the energy. */
    ghost predicate Settled()
      reads this
    {
      && |assignment| == |files| && |servers| > 0
      && (forall f | 0 <= f < |files| :: assignment[f] < |servers|)
      && (forall f, g | 0 <= f < |files| && g in files[f].grids :: g < |sizes|)
      && |added| == |servers|
      && (forall s | 0 <= s < |servers| :: added[s] == Weights(assignment, s))
      && servers == AllServers(assignment, |servers|, files, sizes)
      && energy == EnergyOf(assignment, |servers|, files, sizes)
    }

    lemma Settle()
      requires Shape() && Placed() && energy == MaxEnergy(servers)
      ensures Settled()
    {
      PlacedServers();
    }

    lemma PlacedServers()
      requires Shape() && Placed()
      ensures forall s | 0 <= s < |servers| :: added[s] == Weights(assignment, s)
      ensures servers == AllServers(assignment, |servers|, files, sizes)
    {
      forall s | 0 <= s < |servers| ensures added[s] == Weights(assignment, s) { }
    }

    lemma Unsettle()
      requires Settled()
      ensures Shape() && Placed() && energy == MaxEnergy(servers)
    { }

    constructor (nbServers: nat, files: seq<File>, sizes: seq<nat>)
      requires nbServers > 0
      requires forall f, g | 0 <= f < |files| && g in files[f].grids :: g < |sizes|
      ensures Settled() && this.files == files && this.sizes == sizes && |servers| == nbServers
      ensures forall f | 0 <= f < |files| :: assignment[f] == f % nbServers
    {
      this.files := files;
      this.sizes := sizes;
      var counts := seq(|sizes|, g => 0);
      servers := seq(nbServers, s => Server(0, 0, 0, counts));
      assignment := seq(|files|, f => 0);
      energy := 0;
      added := seq(nbServers, s => seq(|files|, f => 0));
      new;
      hide FromScratch, EnergyOf;
      Empty();
      for i := 0 to |files|
        invariant Shape() && |servers| == nbServers
        invariant forall f | 0 <= f < i :: assignment[f] == f % nbServers
        invariant forall s, f | 0 <= s < nbServers && 0 <= f < |files| ::
                    added[s][f] == if f < i && f % nbServers == s then 1 else 0
      {
        Add(i % nbServers, i);
      }
      PlacedServers();
      energy := Largest();
      Settle();
    }

    lemma Empty()
      requires |added| == |servers|
      requires forall s | 0 <= s < |servers| :: added[s] == seq(|files|, f => 0)
      requires forall s | 0 <= s < |servers| :: servers[s] == Server(0, 0, 0, seq(|sizes|, g => 0))
      ensures forall s | 0 <= s < |servers| :: servers[s] == FromScratch(added[s], files, sizes)
    {
      forall s | 0 <= s < |servers| ensures servers[s] == FromScratch(added[s], files, sizes) {
        DotZero(added[s], Bandwiths(files));
        forall g | 0 <= g < |sizes| ensures Dot(added[s], Uses(files, g)) == 0 { DotZero(added[s], Uses(files, g)); }
        assert servers[s].counts == FromScratch(added[s], files, sizes).counts;
        MemZero(servers[s].counts, sizes);
      }
    }

    method Add(s: nat, f: nat)
      requires Shape() && s < |servers| && f < |files|
      modifies this`servers, this`assignment, this`added
      ensures Shape() && |servers| == old(|servers|)
      ensures assignment == old(assignment)[f := s]
      ensures added == old(added)[s := old(added)[s][f := old(added)[s][f] + 1]]
    {
      var server := AddFile(servers[s], f, files, sizes, added[s]);
      servers := servers[s := server];
      assignment := assignment[f := s];
      added := added[s := added[s][f := added[s][f] + 1]];
    }

    method Remove(s: nat, f: nat)
      requires Shape() && s < |servers| && f < |files|
      modifies this`servers, this`added
      ensures Shape() && |servers| == old(|servers|)
      ensures added == old(added)[s := old(added)[s][f := old(added)[s][f] - 1]]
    {
      var server := RemoveFile(servers[s], f, files, sizes, added[s]);
      servers := servers[s := server];
      added := added[s := added[s][f := added[s][f] - 1]];
    }

    method Largest() returns (e: int)
      ensures e == MaxEnergy(servers)
    {
      e := 0;
      for i := 0 to |servers|
        invariant e == MaxEnergy(servers[..i])
      {
        assert servers[..i + 1][..i] == servers[..i];
        if e < servers[i].energy { e := servers[i].energy; }
      }
      assert servers[..|servers|] == servers;
    }

    /** File nf1 goes to server sj; if the energy would grow it may be refused (the outcome of the random test), and
        then nothing has changed. */
    method MoveStep(nf1: nat, sj: nat, refuse: bool) returns (accepted: bool)
      requires Settled() && nf1 < |files| && sj < |servers|
      modifies this
      ensures Settled() && |servers| == old(|servers|)
      ensures accepted ==> assignment[nf1] == sj && forall f | 0 <= f < |files| && f != nf1 :: assignment[f] == old(assignment)[f]
      ensures !accepted ==> assignment == old(assignment) && servers == old(servers) && energy == old(energy)
      ensures !accepted <==> refuse && EnergyOf(old(assignment)[nf1 := sj], |servers|, files, sizes) > old(energy)
    {
      hide FromScratch, MaxEnergy;
      Unsettle();
      var si := assignment[nf1];
      Move(si, sj, nf1);
      PlacedServers();
      var newEnergy := Largest();
      accepted := true;
      if newEnergy > energy {
        if refuse {
          Move(sj, si, nf1);
          accepted := false;
          assert assignment == old(assignment);
        } else {
          energy := newEnergy;
        }
      } else {
        energy := newEnergy;
      }
      PlacedServers();
      Settle();
    }

    method Move(si: nat, sj: nat, nf1: nat)
      requires Shape() && Placed() && nf1 < |files| && si < |servers| && sj < |servers| && assignment[nf1] == si
      modifies this`servers, this`assignment, this`added
      ensures Shape() && Placed() && |servers| == old(|servers|)
      ensures assignment == old(assignment)[nf1 := sj]
    {
      hide FromScratch;
      Remove(si, nf1);
      Add(sj, nf1);
    }

    /** Files nf1 and nf2 change places, or nothing has changed. */
    method SwapStep(nf1: nat, nf2: nat, refuse: bool) returns (accepted: bool)
      requires Settled() && nf1 < |files| && nf2 < |files|
      modifies this
      ensures Settled() && |servers| == old(|servers|)
      ensures accepted ==> assignment[nf1] == old(assignment)[nf2] && assignment[nf2] == old(assignment)[nf1]
      ensures accepted ==> forall f | 0 <= f < |files| && f != nf1 && f != nf2 :: assignment[f] == old(assignment)[f]
      ensures !accepted ==> assignment == old(assignment) && servers == old(servers) && energy == old(energy)
      ensures !accepted <==> refuse && EnergyOf(Swapped(old(assignment), nf1, nf2), |servers|, files, sizes) > old(energy)
      ensures multiset(assignment) == multiset(old(assignment))
    {
      hide FromScratch, MaxEnergy, AllServers, Weights, EnergyOf, Swapped, Settled;
      Unsettle();
      Same();
      SwapIs(assignment, nf1, nf2);
      var si, sj := assignment[nf1], assignment[nf2];
      Exchange(si, sj, nf1, nf2);
      PlacedServers();
      var newEnergy := Largest();
      EnergyThen();
      accepted := newEnergy <= energy || !refuse;
      if accepted {
        energy := newEnergy;
      } else {
        Exchange(si, sj, nf2, nf1);
        PlacedServers();
      }
      Settle();
      Same();
    }

    lemma EnergyThen()
      requires Shape() && Placed()
      ensures MaxEnergy(servers) == EnergyOf(assignment, |servers|, files, sizes)
    {
      PlacedServers();
    }

    lemma Same()
      requires Settled()
      ensures servers == AllServers(assignment, |servers|, files, sizes) && energy == EnergyOf(assignment, |servers|, files, sizes)
    { }

    /** With nf1 == nf2 the file is removed twice: its count is -1 in between. */
    method Exchange(si: nat, sj: nat, nf1: nat, nf2: nat)
      requires Shape() && Placed() && nf1 < |files| && nf2 < |files| && si < |servers| && sj < |servers|
      requires assignment[nf1] == si && assignment[nf2] == sj
      modifies this`servers, this`assignment, this`added
      ensures Shape() && Placed() && |servers| == old(|servers|)
      ensures assignment == Swapped(old(assignment), nf1, nf2)
    {
      hide FromScratch;
      Remove(si, nf1);
      Remove(sj, nf2);
      Add(si, nf2);
      Add(sj, nf1);
    }

    /** The files of server si that use the grid go to sj, or nothing has changed. */
    method GridStep(si: nat, sj: nat, numGrid: nat, refuse: bool) returns (accepted: bool)
      requires Settled() && si < |servers| && sj < |servers| && numGrid < |sizes|
      modifies this
      ensures Settled() && |servers| == old(|servers|)
      ensures accepted ==> forall f | 0 <= f < |files| ::
        assignment[f] == if old(assignment)[f] == si && numGrid in files[f].grids then sj else old(assignment)[f]
      ensures !accepted ==> assignment == old(assignment) && servers == old(servers) && energy == old(energy)
      ensures !accepted <==> refuse && EnergyOf(Regrouped(old(assignment), files, si, sj, numGrid), |servers|, files, sizes) > old(energy)
    {
      hide FromScratch, MaxEnergy;
      Unsettle();
      ghost var was := assignment;
      var listFile := Regroup(si, sj, numGrid);
      PlacedServers();
      var newEnergy := Largest();
      accepted := true;
      if newEnergy > energy {
        if refuse {
          SendBack(si, sj, listFile, was);
          accepted := false;
          PlacedServers();
        } else {
          energy := newEnergy;
        }
      } else {
        energy := newEnergy;
      }
      Settle();
    }

    method Regroup(si: nat, sj: nat, numGrid: nat) returns (listFile: seq<nat>)
      requires Shape() && Placed() && si < |servers| && sj < |servers|
      modifies this`servers, this`assignment, this`added
      ensures Shape() && Placed() && |servers| == old(|servers|)
      ensures assignment == Regrouped(old(assignment), files, si, sj, numGrid)
      ensures forall f | f in listFile :: f < |files|
      ensures forall f | 0 <= f < |files| :: f in listFile <==> old(assignment)[f] == si && numGrid in files[f].grids
      ensures forall k, l | 0 <= k < l < |listFile| :: listFile[k] < listFile[l]
    {
      hide FromScratch;
      listFile := [];
      for i := 0 to |files|
        invariant Shape() && Placed() && |servers| == old(|servers|)
        invariant forall f | f in listFile :: f < i
        invariant forall f | 0 <= f < |files| ::
          f in listFile <==> f < i && old(assignment)[f] == si && numGrid in files[f].grids
        invariant forall k, l | 0 <= k < l < |listFile| :: listFile[k] < listFile[l]
        invariant forall f | 0 <= f < |files| ::
                    assignment[f] == if f in listFile then sj else old(assignment)[f]
      {
        if assignment[i] == si {
          var used := UsesGrid(files[i].grids, numGrid);
          if used {
            Remove(si, i);
            Add(sj, i);
            assert forall k | 0 <= k < |listFile| :: listFile[k] in listFile;
            listFile := listFile + [i];
          }
        }
      }
    }

    /** The rollback: every listed file goes back from sj to si. */
    method SendBack(si: nat, sj: nat, listFile: seq<nat>, ghost was: seq<nat>)
      requires Shape() && Placed() && si < |servers| && sj < |servers| && |was| == |files|
      requires forall f | f in listFile :: f < |files| && was[f] == si
      requires forall k, l | 0 <= k < l < |listFile| :: listFile[k] < listFile[l]
      requires forall f | 0 <= f < |files| :: assignment[f] == if f in listFile then sj else was[f]
      modifies this`servers, this`assignment, this`added
      ensures Shape() && Placed() && |servers| == old(|servers|) && assignment == was
    {
      hide FromScratch;
      for i := 0 to |listFile|
        invariant Shape() && Placed() && |servers| == old(|servers|)
        invariant forall f | 0 <= f < |files| :: assignment[f] == if f in listFile[i..] then sj else was[f]
      {
        var f := listFile[i];
        assert f in listFile[i..] && f in listFile;
        Move(sj, si, f);
        assert listFile[i..] == [f] + listFile[i + 1..];
        assert f !in listFile[i + 1..];
      }
      assert assignment == was;
    }

    method UsesGrid(gs: seq<nat>, numGrid: nat) returns (used: bool)
      ensures used <==> numGrid in gs
    {
      used := false;
      for j := 0 to |gs|
        invariant !used && numGrid !in gs[..j]
      {
        if gs[j] == numGrid { return true; }
        assert gs[..j + 1] == gs[..j] + [gs[j]];
      }
      assert gs[..|gs|] == gs;
    }

    /** The retry loops: a server and a grid with a count other than 0; there is one if a file uses a grid. */
    method ChooseGrid() returns (si: nat, numGrid: nat)
      requires Settled() && exists f :: 0 <= f < |files| && files[f].grids != []
      ensures si < |servers| && numGrid < |sizes|
      ensures exists f :: 0 <= f < |files| && assignment[f] == si && numGrid in files[f].grids
    {
      ghost var f :| 0 <= f < |files| && files[f].grids != [];
      assert files[f].grids[0] in files[f].grids;
      CountIs(assignment, assignment[f], |servers|, files, sizes, files[f].grids[0]);
      si, numGrid :| si < |servers| && numGrid < |sizes| && servers[si].counts[numGrid] != 0;
      CountIs(assignment, si, |servers|, files, sizes, numGrid);
    }

    /** The whole run, with the random draws: ten rounds for every pair of files, every tenth of which also regroups a
        grid.  The source draws servers until it meets one with a grid.  It finds none, and goes on drawing for ever,
        exactly when there are files and none of them uses a grid; the method then returns `endless`.  Otherwise
        `states` are the assignments from the first to the last, each led to the next by one round. */
    method Anneal(draws: seq<Draw>) returns (endless: bool, ghost states: seq<seq<nat>>)
      requires Settled() && |draws| == 10 * |files| * |files| && forall i | 0 <= i < |draws| :: InRange(draws[i], |files|, |servers|)
      modifies this
      ensures Settled() && |servers| == old(|servers|)
      ensures endless <==> files != [] && forall f | 0 <= f < |files| :: files[f].grids == []
      ensures !endless ==> |states| == |draws| + 1 && states[0] == old(assignment) && states[|draws|] == assignment
      ensures !endless ==> forall i | 0 <= i < |draws| :: Round(states[i], states[i + 1], draws[i], i, |servers|, files, sizes)
    {
      var itMax := 10 * |files| * |files|;
      states := [assignment];
      for it := 0 to itMax
        invariant Settled() && |servers| == old(|servers|)
        invariant it > 0 ==> exists f :: 0 <= f < |files| && files[f].grids != []
        invariant |states| == it + 1 && states[0] == old(assignment) && states[it] == assignment
        invariant forall i | 0 <= i < it :: Round(states[i], states[i + 1], draws[i], i, |servers|, files, sizes)
      {
        hide Settled, Round;
        var stuck := OneRound(draws[it], it);
        if stuck { return true, states; }
        states := states + [assignment];
      }
      endless := false;
    }

    /** One round; `stuck` if the source would draw servers for ever. */
    method OneRound(d: Draw, it: nat) returns (stuck: bool)
      requires Settled() && InRange(d, |files|, |servers|)
      modifies this
      ensures Settled() && |servers| == old(|servers|)
      ensures stuck <==> it % 10 == 0 && forall f | 0 <= f < |files| :: files[f].grids == []
      ensures !stuck ==> Round(old(assignment), assignment, d, it, |servers|, files, sizes)
    {
      hide Settled, EnergyOf, Swapped, Regrouped, Taken;
      LengthIs();
      ghost var a, n := assignment, |servers|;
      var ok1 := MoveStep(d.file, d.server, d.refuse1);
      ghost var b := assignment;
      LengthIs();
      var ok2 := SwapStep(d.file1, d.file2, d.refuse2);
      ghost var c := assignment;
      LengthIs();
      Moved(a, b, c, d, ok1, ok2, n, files, sizes);
      if it % 10 == 0 {
        if forall f | 0 <= f < |files| :: files[f].grids == [] { return true; }
        var si, numGrid := ChooseGrid();
        var ok3 := GridStep(si, d.server3, numGrid, d.refuse3);
        LengthIs();
        Gathered(c, assignment, d, si, numGrid, ok3, n, files, sizes);
      }
      stuck := false;
    }

    lemma LengthIs()
      requires Settled()
      ensures |assignment| == |files| && |servers| > 0 && energy == EnergyOf(assignment, |servers|, files, sizes)
    { }

    lemma Moved(a: seq<nat>, b: seq<nat>, c: seq<nat>, d: Draw, ok1: bool, ok2: bool, n: nat, files: seq<File>, sizes: seq<nat>)
      requires |a| == |b| == |c| == |files| && InRange(d, |files|, n)
      requires ok1 ==> b[d.file] == d.server && forall f | 0 <= f < |files| && f != d.file :: b[f] == a[f]
      requires !ok1 ==> b == a
      requires !ok1 <==> d.refuse1 && EnergyOf(a[d.file := d.server], n, files, sizes) > EnergyOf(a, n, files, sizes)
      requires ok2 ==> c[d.file1] == b[d.file2] && c[d.file2] == b[d.file1]
      requires ok2 ==> forall f | 0 <= f < |files| && f != d.file1 && f != d.file2 :: c[f] == b[f]
      requires !ok2 ==> c == b
      requires !ok2 <==> d.refuse2 && EnergyOf(Swapped(b, d.file1, d.file2), n, files, sizes) > EnergyOf(b, n, files, sizes)
      ensures b == Taken(a, a[d.file := d.server], d.refuse1, n, files, sizes)
      ensures c == Taken(b, Swapped(b, d.file1, d.file2), d.refuse2, n, files, sizes)
    {
      hide EnergyOf;
      assert ok1 ==> b == a[d.file := d.server];
      assert ok2 ==> c == Swapped(b, d.file1, d.file2);
    }

    lemma Gathered(a: seq<nat>, b: seq<nat>, d: Draw, si: nat, grid: nat, ok: bool, n: nat, files: seq<File>, sizes: seq<nat>)
      requires |a| == |b| == |files|
      requires ok ==> forall f | 0 <= f < |files| :: b[f] == if a[f] == si && grid in files[f].grids then d.server3 else a[f]
      requires !ok ==> b == a
      requires !ok <==> d.refuse3 && EnergyOf(Regrouped(a, files, si, d.server3, grid), n, files, sizes) > EnergyOf(a, n, files, sizes)
      ensures b == Taken(a, Regrouped(a, files, si, d.server3, grid), d.refuse3, n, files, sizes)
    {
      hide EnergyOf;
      assert ok ==> b == Regrouped(a, files, si, d.server3, grid);
    }
  }

  // ---------------------------------------------------------------- a whole run

  /** The random draws of one round: a file and a server for it, two files to exchange, a server for the files of a
      grid, and whether a larger energy would be refused. */
  datatype Draw = Draw(file: nat, server: nat, refuse1: bool, file1: nat, file2: nat, refuse2: bool, server3: nat, refuse3: bool)

  predicate InRange(d: Draw, m: nat, n: nat) {
    d.file < m && d.file1 < m && d.file2 < m && d.server < n && d.server3 < n
  }

  /** A change from a to b is taken unless it is refused and the energy would grow. */
  function Taken(a: seq<nat>, b: seq<nat>, refuse: bool, n: nat, files: seq<File>, sizes: seq<nat>): seq<nat>
    requires |a| == |b| == |files|
  {
    if refuse && EnergyOf(b, n, files, sizes) > EnergyOf(a, n, files, sizes) then a else b
  }

  /** One round leads from assignment a to z: a move, an exchange, and every tenth time the regrouping of a grid that
      some file uses. */
  ghost predicate Round(a: seq<nat>, z: seq<nat>, d: Draw, it: nat, n: nat, files: seq<File>, sizes: seq<nat>) {
    && |a| == |files| && InRange(d, |files|, n)
    && var b := Taken(a, a[d.file := d.server], d.refuse1, n, files, sizes);
    var c := Taken(b, Swapped(b, d.file1, d.file2), d.refuse2, n, files, sizes);
    if it % 10 != 0 then z == c else
    exists f: nat, grid: nat :: f < |files| && grid in files[f].grids
      && z == Taken(c, Regrouped(c, files, c[f], d.server3, grid), d.refuse3, n, files, sizes)
  }

  lemma SwapIs(a: seq<nat>, f: nat, g: nat)
    requires f < |a| && g < |a|
    ensures var b := Swapped(a, f, g);
      && |b| == |a| && b[f] == a[g] && b[g] == a[f] && (forall h | 0 <= h < |a| && h != f && h != g :: b[h] == a[h])
      && Swapped(b, g, f) == a && multiset(b) == multiset(a)
  { }

  // ---------------------------------------------------------------- conservation

  /** The sum over the servers below n of the files assigned to each, every file counted with its x. */
  function Loads(a: seq<nat>, n: nat, x: seq<int>): int
    requires |a| == |x|
  {
    if n == 0 then 0 else Loads(a, n - 1, x) + Dot(Weights(a, n - 1), x)
  }

  function Sum(x: seq<int>): int {
    if x == [] then 0 else x[0] + Sum(x[1..])
  }

  lemma {:induction false} LoadsFirst(a: seq<nat>, n: nat, x: seq<int>)
    requires |a| == |x| && a != []
    ensures Loads(a, n, x) == (if a[0] < n then x[0] else 0) + Loads(a[1..], n, x[1..])
  {
    if n > 0 {
      LoadsFirst(a, n - 1, x);
      assert Weights(a, n - 1)[1..] == Weights(a[1..], n - 1);
    }
  }

  lemma {:induction false} LoadsNone(n: nat)
    ensures Loads([], n, []) == 0
  {
    if n > 0 { LoadsNone(n - 1); }
  }

  lemma {:induction false} LoadsAll(a: seq<nat>, n: nat, x: seq<int>)
    requires |a| == |x| && forall f | 0 <= f < |a| :: a[f] < n
    ensures Loads(a, n, x) == Sum(x)
  {
    if a == [] {
      LoadsNone(n);
    } else {
      LoadsFirst(a, n, x);
      LoadsAll(a[1..], n, x[1..]);
    }
  }

  function TotalBandwith(servers: seq<Server>): int {
    if servers == [] then 0 else
    TotalBandwith(servers[..|servers| - 1]) + servers[|servers| - 1].bandwith
  }

  lemma {:induction false} TotalLoads(a: seq<nat>, n: nat, files: seq<File>, sizes: seq<nat>)
    requires |a| == |files|
    ensures TotalBandwith(AllServers(a, n, files, sizes)) == Loads(a, n, Bandwiths(files))
  {
    if n > 0 {
      assert AllServers(a, n, files, sizes)[..n - 1] == AllServers(a, n - 1, files, sizes);
      TotalLoads(a, n - 1, files, sizes);
    }
  }

  /** Whatever the assignment, the bandwidths of the servers add up to those of the files. */
  lemma BandwithConserved(a: seq<nat>, n: nat, files: seq<File>, sizes: seq<nat>)
    requires |a| == |files| && forall f | 0 <= f < |a| :: a[f] < n
    ensures TotalBandwith(AllServers(a, n, files, sizes)) == Sum(Bandwiths(files))
  {
    TotalLoads(a, n, files, sizes);
    LoadsAll(a, n, Bandwiths(files));
  }

  lemma {:induction false} DotZero(w: seq<int>, x: seq<int>)
    requires |w| == |x| && forall i | 0 <= i < |w| :: w[i] == 0
    ensures Dot(w, x) == 0
  {
    if w != [] { DotZero(w[1..], x[1..]); }
  }

  lemma {:induction false} MemZero(counts: seq<int>, sizes: seq<nat>)
    requires |counts| == |sizes| && forall i | 0 <= i < |counts| :: counts[i] == 0
    ensures Mem(counts, sizes) == 0
  {
    if counts != [] { MemZero(counts[1..], sizes[1..]); }
  }
}
