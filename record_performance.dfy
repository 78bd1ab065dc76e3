/**
 * Aux_Record_Performance: after every global step, rank 0 appends one line to the
 * Record__Performance log (preceded once by a header), counting cells and cell updates over all
 * levels, and keeps running totals from which it appends an average-performance summary at the
 * end of the run.
 */
module RecordPerformance {
  import opened Gamer

  // ---------------------------------------------------------------------------------------
  // The log
  // ---------------------------------------------------------------------------------------

  /** The particle columns of a record (present only when the code is built with PARTICLE). */
  datatype ParColumns =
    | NoParColumns
    | ParColumns(nParticle: int, nUpdatePar: int, perfOverall: real, perfPerRank: real)

  /** One block appended to Record__Performance. A Header names the particle columns (when
      present) and levelColumns per-level NUpdate_Lv columns; a Record is one global step; a
      Summary is the average-performance block written at the end of the run. */
  datatype Entry =
    | Header(particle: bool, levelColumns: nat)
    | Record(time: real, step: int, dt: real, nCell: int, nUpdateCell: int, elapsed: real,
             perfOverall: real, perfPerRank: real, par: ParColumns, nUpdateLv: seq<int>)
    | Summary(totalTime: real, avgPerfOverall: real, avgPerfPerRank: real)

  // ---------------------------------------------------------------------------------------
  // Counting cells and updates
  // ---------------------------------------------------------------------------------------

  /** Cells on each level: NPatchTotal[lv]*CUBE(PATCH_SIZE). */
  function CellsPerLevel(nPatchTotal: seq<int>): (cells: seq<int>)
    ensures |cells| == |nPatchTotal|
  {
    seq(|nPatchTotal|, lv requires 0 <= lv < |nPatchTotal| => nPatchTotal[lv] * Cube(PATCH_SIZE))
  }

  /** xs[0] + ... + xs[n-1]. */
  function Sum(xs: seq<int>, n: nat): int
    requires n <= |xs|
  {
    if n == 0 then 0 else Sum(xs, n - 1) + xs[n - 1]
  }

  /** xs[0]*ws[0] + ... + xs[n-1]*ws[n-1]: a per-level count weighted by how many times the
      level was advanced during the global step (NUpdateLv). */
  function WeightedSum(xs: seq<int>, ws: seq<int>, n: nat): int
    requires n <= |xs| && n <= |ws|
  {
    if n == 0 then 0 else WeightedSum(xs, ws, n - 1) + xs[n - 1] * ws[n - 1]
  }

  /** The per-level counting loop: NCell, NUpdateCell and NUpdatePar over levels 0 .. NLEVEL-1. */
  method CountUpdates(nPatchTotal: seq<int>, nUpdateLv: seq<int>, nParLvAllRank: seq<int>)
    returns (nCell: int, nUpdateCell: int, nUpdatePar: int)
    requires |nPatchTotal| == NLEVEL && |nUpdateLv| == NLEVEL && |nParLvAllRank| == NLEVEL
    ensures nCell == Sum(CellsPerLevel(nPatchTotal), NLEVEL)
    ensures nUpdateCell == WeightedSum(CellsPerLevel(nPatchTotal), nUpdateLv, NLEVEL)
    ensures nUpdatePar == WeightedSum(nParLvAllRank, nUpdateLv, NLEVEL)
  {
    ghost var cells := CellsPerLevel(nPatchTotal);
    nCell, nUpdateCell, nUpdatePar := 0, 0, 0;
    for lv := 0 to NLEVEL
      invariant nCell == Sum(cells, lv)
      invariant nUpdateCell == WeightedSum(cells, nUpdateLv, lv)
      invariant nUpdatePar == WeightedSum(nParLvAllRank, nUpdateLv, lv)
    {
      var nCellThisLevel := nPatchTotal[lv] * Cube(PATCH_SIZE);
      nCell := nCell + nCellThisLevel;
      nUpdateCell := nUpdateCell + nCellThisLevel * nUpdateLv[lv];
      nUpdatePar := nUpdatePar + nParLvAllRank[lv] * nUpdateLv[lv];
    }
  }

  /** With a shared time step every level is advanced once per global step, and the number of
      updates is the number of cells (particles). */
  lemma {:induction false} SharedTimeStepUpdatesEachOnce(xs: seq<int>, ws: seq<int>, n: nat)
    requires n <= |xs| && n <= |ws|
    requires forall lv :: 0 <= lv < n ==> ws[lv] == 1
    ensures WeightedSum(xs, ws, n) == Sum(xs, n)
  {
    if n > 0 {
      SharedTimeStepUpdatesEachOnce(xs, ws, n - 1);
    }
  }

  /** When every level is advanced at least once, every cell is updated at least once:
      NUpdate_Cell >= NCell. */
  lemma {:induction false} UpdatesCoverCells(xs: seq<int>, ws: seq<int>, n: nat)
    requires n <= |xs| && n <= |ws|
    requires forall lv :: 0 <= lv < n ==> xs[lv] >= 0 && ws[lv] >= 1
    ensures WeightedSum(xs, ws, n) >= Sum(xs, n) >= 0
  {
    if n > 0 {
      UpdatesCoverCells(xs, ws, n - 1);
      assert xs[n - 1] * ws[n - 1] >= xs[n - 1];
    }
  }

  /** NCell counts whole patches: it is a multiple of CUBE(PATCH_SIZE). */
  lemma {:induction false} CellsAreWholePatches(nPatchTotal: seq<int>, n: nat)
    requires n <= |nPatchTotal|
    ensures Sum(CellsPerLevel(nPatchTotal), n) == Sum(nPatchTotal, n) * Cube(PATCH_SIZE)
  {
    if n > 0 {
      CellsAreWholePatches(nPatchTotal, n - 1);
    }
  }

  // ---------------------------------------------------------------------------------------
  // The particle reduction
  // ---------------------------------------------------------------------------------------

  /** perRank[0][lv] + ... + perRank[n-1][lv]. */
  function RankSum(perRank: seq<seq<int>>, lv: nat, n: nat): int
    requires n <= |perRank| && forall r :: 0 <= r < |perRank| ==> lv < |perRank[r]|
  {
    if n == 0 then 0 else RankSum(perRank, lv, n - 1) + perRank[n - 1][lv]
  }

  /** Every rank's NPar_Lv holds one count per level. */
  predicate PerLevelCounts(perRank: seq<seq<int>>) {
    forall r :: 0 <= r < |perRank| ==> |perRank[r]| == NLEVEL
  }

  /** The element-wise sum of the per-level counts of ranks 0 .. n-1. */
  function PartialReduce(perRank: seq<seq<int>>, n: nat): (partial: seq<int>)
    requires PerLevelCounts(perRank) && n <= |perRank|
    ensures |partial| == NLEVEL
  {
    seq(NLEVEL, lv requires 0 <= lv < NLEVEL => RankSum(perRank, lv, n))
  }

  /** MPI_Reduce(NPar_Lv, NPar_Lv_AllRank, NLEVEL, MPI_LONG, MPI_SUM, 0): the element-wise sum
      of the ranks' per-level particle counts, as received by rank 0. */
  function ReduceParLv(perRank: seq<seq<int>>): (allRank: seq<int>)
    requires PerLevelCounts(perRank)
    ensures |allRank| == NLEVEL
  {
    PartialReduce(perRank, |perRank|)
  }

  /** The particle updates each rank counts on its own: the sum over ranks 0 .. n-1 of the rank's
      per-level counts weighted by the level's update count. */
  function RankUpdates(perRank: seq<seq<int>>, ws: seq<int>, n: nat): int
    requires PerLevelCounts(perRank) && n <= |perRank| && |ws| == NLEVEL
  {
    if n == 0 then 0 else RankUpdates(perRank, ws, n - 1) + WeightedSum(perRank[n - 1], ws, NLEVEL)
  }

  /** Weighting the reduction of no rank gives nothing. */
  lemma {:induction false} EmptyReduceWeighsZero(perRank: seq<seq<int>>, ws: seq<int>, k: nat)
    requires PerLevelCounts(perRank) && |ws| == NLEVEL && k <= NLEVEL
    ensures WeightedSum(PartialReduce(perRank, 0), ws, k) == 0
  {
    if k > 0 {
      EmptyReduceWeighsZero(perRank, ws, k - 1);
    }
  }

  /** Adding rank n-1 to the reduction adds that rank's own weighted count, over levels 0 .. k-1. */
  lemma {:induction false} ReduceAddsRank(perRank: seq<seq<int>>, ws: seq<int>, n: nat, k: nat)
    requires PerLevelCounts(perRank) && |ws| == NLEVEL && 1 <= n <= |perRank| && k <= NLEVEL
    ensures WeightedSum(PartialReduce(perRank, n), ws, k)
            == WeightedSum(PartialReduce(perRank, n - 1), ws, k) + WeightedSum(perRank[n - 1], ws, k)
  {
    if k > 0 {
      ReduceAddsRank(perRank, ws, n, k - 1);
      var lv := k - 1;
      assert PartialReduce(perRank, n)[lv] == PartialReduce(perRank, n - 1)[lv] + perRank[n - 1][lv];
      assert PartialReduce(perRank, n)[lv] * ws[lv]
             == PartialReduce(perRank, n - 1)[lv] * ws[lv] + perRank[n - 1][lv] * ws[lv];
    }
  }

  /** NUpdate_Par as rank 0 computes it, from the reduced per-level counts, is the sum of the
      particle updates every rank counts on its own: reducing over ranks and weighting over
      levels commute. */
  lemma {:induction false} ParticleUpdatesSumOverRanks(perRank: seq<seq<int>>, ws: seq<int>, n: nat)
    requires PerLevelCounts(perRank) && |ws| == NLEVEL && n <= |perRank|
    ensures WeightedSum(PartialReduce(perRank, n), ws, NLEVEL) == RankUpdates(perRank, ws, n)
    ensures n == |perRank| ==> WeightedSum(ReduceParLv(perRank), ws, NLEVEL) == RankUpdates(perRank, ws, n)
  {
    if n == 0 {
      EmptyReduceWeighsZero(perRank, ws, NLEVEL);
    } else {
      ParticleUpdatesSumOverRanks(perRank, ws, n - 1);
      ReduceAddsRank(perRank, ws, n, NLEVEL);
    }
  }

  /** On a single rank the reduction is the identity. */
  lemma SingleRankReduce(perRank: seq<seq<int>>)
    requires PerLevelCounts(perRank) && |perRank| == 1
    ensures ReduceParLv(perRank) == perRank[0]
  {
    forall lv | 0 <= lv < NLEVEL
      ensures ReduceParLv(perRank)[lv] == perRank[0][lv]
    {
      assert RankSum(perRank, lv, 1) == RankSum(perRank, lv, 0) + perRank[0][lv];
    }
  }

  // ---------------------------------------------------------------------------------------
  // Totals over the log
  // ---------------------------------------------------------------------------------------

  /** Sum of NUpdate_Cell over the records of a log. */
  function TotalUpdates(f: seq<Entry>): int {
    if f == [] then 0
    else TotalUpdates(f[..|f| - 1]) + (if f[|f| - 1].Record? then f[|f| - 1].nUpdateCell else 0)
  }

  /** Sum of ElapsedTime over the records of a log. */
  function TotalElapsed(f: seq<Entry>): real {
    if f == [] then 0.0
    else TotalElapsed(f[..|f| - 1]) + (if f[|f| - 1].Record? then f[|f| - 1].elapsed else 0.0)
  }

  /** Sum of Perf_PerRank over the records of a log. */
  function TotalPerfPerRank(f: seq<Entry>): real {
    if f == [] then 0.0
    else TotalPerfPerRank(f[..|f| - 1]) + (if f[|f| - 1].Record? then f[|f| - 1].perfPerRank else 0.0)
  }

  /** Appending one entry adds its own contribution to each total. */
  lemma TotalsAppend(f: seq<Entry>, e: Entry)
    ensures TotalUpdates(f + [e]) == TotalUpdates(f) + (if e.Record? then e.nUpdateCell else 0)
    ensures TotalElapsed(f + [e]) == TotalElapsed(f) + (if e.Record? then e.elapsed else 0.0)
    ensures TotalPerfPerRank(f + [e]) == TotalPerfPerRank(f) + (if e.Record? then e.perfPerRank else 0.0)
  {
    assert (f + [e])[..|f|] == f;
  }

  /** A record's columns: Perf_Overall is NUpdate_Cell/ElapsedTime and Perf_PerRank is that over
      MPI_NRank; the particle columns likewise from NUpdate_Par. */
  predicate ConsistentRecord(e: Entry, particle: bool, nRank: nat)
    requires e.Record?
  {
    && e.elapsed > 0.0 && nRank >= 1
    && |e.nUpdateLv| == NLEVEL
    && e.perfOverall == e.nUpdateCell as real / e.elapsed
    && e.perfPerRank == e.perfOverall / nRank as real
    && (e.par.ParColumns? <==> particle)
    && (e.par.ParColumns? ==>
          e.par.perfOverall == e.par.nUpdatePar as real / e.elapsed
          && e.par.perfPerRank == e.par.perfOverall / nRank as real)
  }

  /** The shape of the log: a header first, then records and summaries, no second header. */
  predicate WellFormedLog(f: seq<Entry>, particle: bool, nRank: nat) {
    f == [] ||
    (&& f[0] == Header(particle, NLEVEL)
     && forall i :: 1 <= i < |f| ==>
          !f[i].Header? && (f[i].Record? ==> ConsistentRecord(f[i], particle, nRank)))
  }

  /** Dropping the last entry keeps a log well formed. */
  lemma WellFormedPrefix(f: seq<Entry>, particle: bool, nRank: nat)
    requires WellFormedLog(f, particle, nRank) && f != []
    ensures WellFormedLog(f[..|f| - 1], particle, nRank)
  {
    var g := f[..|f| - 1];
    if g != [] {
      assert g[0] == f[0];
      forall i | 1 <= i < |g|
        ensures !g[i].Header? && (g[i].Record? ==> ConsistentRecord(g[i], particle, nRank))
      {
        assert g[i] == f[i];
      }
    }
  }

  /** Appending a record or a summary after the header keeps a log well formed. */
  lemma WellFormedAppend(f: seq<Entry>, e: Entry, particle: bool, nRank: nat)
    requires WellFormedLog(f, particle, nRank) && f != []
    requires !e.Header? && (e.Record? ==> ConsistentRecord(e, particle, nRank))
    ensures WellFormedLog(f + [e], particle, nRank)
  {
    var g := f + [e];
    assert g[0] == f[0];
    forall i | 1 <= i < |g|
      ensures !g[i].Header? && (g[i].Record? ==> ConsistentRecord(g[i], particle, nRank))
    {
      if i < |f| {
        assert g[i] == f[i];
      }
    }
  }

  /** Total elapsed time is positive as soon as one step has been recorded. */
  lemma {:induction false} ElapsedPositive(f: seq<Entry>, particle: bool, nRank: nat)
    requires WellFormedLog(f, particle, nRank)
    ensures TotalElapsed(f) >= 0.0
    ensures (exists i :: 0 <= i < |f| && f[i].Record?) ==> TotalElapsed(f) > 0.0
  {
    if f != [] {
      var g := f[..|f| - 1];
      WellFormedPrefix(f, particle, nRank);
      ElapsedPositive(g, particle, nRank);
      if exists i :: 0 <= i < |f| && f[i].Record? {
        var i :| 0 <= i < |f| && f[i].Record?;
        if i < |f| - 1 {
          assert g[i].Record?;
        } else {
          assert i != 0;
        }
      }
    }
  }

  /** lo*t <= n <= hi*t: n updates in time t ran at between lo and hi updates per unit time. */
  predicate Bracketed(lo: real, hi: real, t: real, n: real) {
    lo * t <= n <= hi * t
  }

  /** The overall average is bracketed by the per-step performances: if every recorded step ran
      at between lo and hi cell updates per second, then so does the whole run,
      lo*TotalTime <= Total_NUpdateCell <= hi*TotalTime. */
  lemma {:induction false} AverageWithinStepRange(f: seq<Entry>, particle: bool, nRank: nat, lo: real, hi: real)
    requires WellFormedLog(f, particle, nRank)
    requires forall i :: 0 <= i < |f| && f[i].Record? ==> lo <= f[i].perfOverall <= hi
    ensures Bracketed(lo, hi, TotalElapsed(f), TotalUpdates(f) as real)
  {
    if f != [] {
      var g := f[..|f| - 1];
      WellFormedPrefix(f, particle, nRank);
      assert forall i :: 0 <= i < |g| && g[i].Record? ==> lo <= g[i].perfOverall <= hi by {
        forall i | 0 <= i < |g| && g[i].Record?
          ensures lo <= g[i].perfOverall <= hi
        {
          assert g[i] == f[i];
        }
      }
      AverageWithinStepRange(g, particle, nRank, lo, hi);
      var e := f[|f| - 1];
      if e.Record? {
        assert |f| - 1 != 0;
        assert ConsistentRecord(e, particle, nRank) && lo <= e.perfOverall <= hi;
        StepBracket(e.nUpdateCell as real, e.elapsed, lo, hi);
        AddBrackets(lo, hi, TotalElapsed(g), TotalUpdates(g) as real, e.elapsed, e.nUpdateCell as real);
        assert TotalElapsed(f) == TotalElapsed(g) + e.elapsed;
        assert TotalUpdates(f) as real == TotalUpdates(g) as real + e.nUpdateCell as real;
      } else {
        assert TotalElapsed(f) == TotalElapsed(g);
        assert TotalUpdates(f) == TotalUpdates(g);
      }
    }
  }

  /** Brackets add up: lo*T <= U <= hi*T and lo*t <= n <= hi*t give the same for T+t, U+n. */
  lemma AddBrackets(lo: real, hi: real, bigT: real, bigU: real, t: real, n: real)
    requires Bracketed(lo, hi, bigT, bigU) && Bracketed(lo, hi, t, n)
    ensures Bracketed(lo, hi, bigT + t, bigU + n)
  {
    assert lo * (bigT + t) == lo * bigT + lo * t;
    assert hi * (bigT + t) == hi * bigT + hi * t;
  }

  /** One step: lo <= n/t <= hi with t > 0 gives lo*t <= n <= hi*t. */
  lemma StepBracket(n: real, t: real, lo: real, hi: real)
    requires t > 0.0 && lo <= n / t <= hi
    ensures Bracketed(lo, hi, t, n)
  {
    assert (n / t) * t == n;
  }

  // ---------------------------------------------------------------------------------------
  // The ledger
  // ---------------------------------------------------------------------------------------

  /** The record a step appends, from the step's counts (NCell, NUpdate_Cell, NUpdate_Par) and
      the run's constants. */
  function StepRecord(
      time: real, step: int, dTimeBase: real, nCell: int, nUpdateCell: int, elapsed: real,
      particle: bool, nParActiveAllRank: int, nUpdatePar: int, nRank: nat, nUpdateLv: seq<int>): (e: Entry)
    requires elapsed > 0.0 && nRank >= 1 && |nUpdateLv| == NLEVEL
    ensures e.Record? && ConsistentRecord(e, particle, nRank)
    ensures e.time == time && e.step == step && e.dt == dTimeBase && e.elapsed == elapsed
    ensures e.nCell == nCell && e.nUpdateCell == nUpdateCell && e.nUpdateLv == nUpdateLv
    ensures particle ==> e.par.nParticle == nParActiveAllRank && e.par.nUpdatePar == nUpdatePar
  {
    var perSec := nUpdateCell as real / elapsed;
    var par :=
      if particle then
        var parPerSec := nUpdatePar as real / elapsed;
        ParColumns(nParActiveAllRank, nUpdatePar, parPerSec, parPerSec / nRank as real)
      else NoParColumns;
    Record(time, step, dTimeBase, nCell, nUpdateCell, elapsed, perSec, perSec / nRank as real, par, nUpdateLv)
  }

  /** The per-level particle counts summed over ranks, or no particles without PARTICLE. */
  function ParLvAllRank(particle: bool, nParLvPerRank: seq<seq<int>>): (allRank: seq<int>)
    requires particle ==> PerLevelCounts(nParLvPerRank)
    ensures |allRank| == NLEVEL
  {
    if particle then ReduceParLv(nParLvPerRank) else seq(NLEVEL, lv => 0)
  }

  /** The function-static state of Aux_Record_Performance on one MPI rank, together with what
      this rank has appended to Record__Performance. particle is the PARTICLE build option;
      mpiRank, mpiNRank, endStep and endT are MPI_Rank, MPI_NRank, END_STEP and END_T. */
  class PerformanceLedger {
    const particle: bool
    const mpiRank: nat
    const mpiNRank: nat
    const endStep: int
    const endT: real

    var firstTime: bool
    var totalNUpdateCell: int
    var totalElapsedTime: real
    var totalNUpdateCellPerSecPerRank: real
    ghost var log: seq<Entry>

    /** The header is written once, by rank 0 only, and the totals are the sums over the
        records written so far. */
    ghost predicate Valid()
      reads this
    {
      && mpiRank < mpiNRank
      && (firstTime <==> log == [])
      && (mpiRank != 0 ==> log == [])
      && WellFormedLog(log, particle, mpiNRank)
      && totalNUpdateCell == TotalUpdates(log)
      && totalElapsedTime == TotalElapsed(log)
      && totalNUpdateCellPerSecPerRank == TotalPerfPerRank(log)
    }

    constructor (particle: bool, mpiRank: nat, mpiNRank: nat, endStep: int, endT: real)
      requires mpiRank < mpiNRank
      ensures Valid()
      ensures this.particle == particle && this.mpiRank == mpiRank && this.mpiNRank == mpiNRank
      ensures this.endStep == endStep && this.endT == endT
      ensures firstTime && log == []
      ensures totalNUpdateCell == 0 && totalElapsedTime == 0.0 && totalNUpdateCellPerSecPerRank == 0.0
    {
      this.particle := particle;
      this.mpiRank := mpiRank;
      this.mpiNRank := mpiNRank;
      this.endStep := endStep;
      this.endT := endT;
      firstTime := true;
      totalNUpdateCell := 0;
      totalElapsedTime := 0.0;
      totalNUpdateCellPerSecPerRank := 0.0;
      log := [];
    }

    /** The record Aux_Record_Performance appends for a step on this rank. */
    function StepOf(
        elapsed: real, time: real, step: int, dTimeBase: real,
        nPatchTotal: seq<int>, nUpdateLv: seq<int>, nParLvPerRank: seq<seq<int>>, nParActiveAllRank: int): (e: Entry)
      requires elapsed > 0.0 && mpiNRank >= 1
      requires |nPatchTotal| == NLEVEL && |nUpdateLv| == NLEVEL
      requires particle ==> PerLevelCounts(nParLvPerRank)
      ensures e.Record? && ConsistentRecord(e, particle, mpiNRank)
      ensures e.nCell == Sum(CellsPerLevel(nPatchTotal), NLEVEL)
      ensures e.nUpdateCell == WeightedSum(CellsPerLevel(nPatchTotal), nUpdateLv, NLEVEL)
      ensures particle ==> e.par.nUpdatePar == WeightedSum(ReduceParLv(nParLvPerRank), nUpdateLv, NLEVEL)
    {
      var cells := CellsPerLevel(nPatchTotal);
      StepRecord(time, step, dTimeBase, Sum(cells, NLEVEL), WeightedSum(cells, nUpdateLv, NLEVEL),
                 elapsed, particle, nParActiveAllRank,
                 WeightedSum(ParLvAllRank(particle, nParLvPerRank), nUpdateLv, NLEVEL), mpiNRank, nUpdateLv)
    }

    /** True when the step ends the run: Step == END_STEP or Time[0] >= END_T. */
    predicate EndOfRun(time: real, step: int)
      reads this
    {
      step == endStep || time >= endT
    }

    /** Aux_Record_Performance(ElapsedTime) after global step `step` at time Time[0] = time with
        time-step dTime_Base. nPatchTotal and nUpdateLv are NPatchTotal and amr->NUpdateLv;
        nParLvPerRank is every rank's amr->Par->NPar_Lv and nParActiveAllRank is
        amr->Par->NPar_Active_AllRank. */
    method RecordStep(
        elapsed: real, time: real, step: int, dTimeBase: real,
        nPatchTotal: seq<int>, nUpdateLv: seq<int>, nParLvPerRank: seq<seq<int>>, nParActiveAllRank: int)
      requires Valid()
      requires elapsed > 0.0 && (EndOfRun(time, step) ==> step != 0)
      requires |nPatchTotal| == NLEVEL && |nUpdateLv| == NLEVEL
      requires particle ==> |nParLvPerRank| == mpiNRank && PerLevelCounts(nParLvPerRank)
      modifies this
      ensures Valid()
      ensures mpiRank != 0 ==>
        firstTime == old(firstTime) && log == old(log)
        && totalNUpdateCell == old(totalNUpdateCell) && totalElapsedTime == old(totalElapsedTime)
        && totalNUpdateCellPerSecPerRank == old(totalNUpdateCellPerSecPerRank)
      ensures mpiRank == 0 ==> !firstTime
      ensures mpiRank == 0 ==> totalNUpdateCell == old(totalNUpdateCell) + StepOf(elapsed, time, step, dTimeBase, nPatchTotal, nUpdateLv, nParLvPerRank, nParActiveAllRank).nUpdateCell
      ensures mpiRank == 0 ==> totalElapsedTime == old(totalElapsedTime) + elapsed && totalElapsedTime > 0.0
      ensures mpiRank == 0 ==> totalNUpdateCellPerSecPerRank == old(totalNUpdateCellPerSecPerRank) + StepOf(elapsed, time, step, dTimeBase, nPatchTotal, nUpdateLv, nParLvPerRank, nParActiveAllRank).perfPerRank
      ensures mpiRank == 0 ==>
        log == old(log)
               + (if old(firstTime) then [Header(particle, NLEVEL)] else [])
               + [StepOf(elapsed, time, step, dTimeBase, nPatchTotal, nUpdateLv, nParLvPerRank, nParActiveAllRank)]
               + (if EndOfRun(time, step)
                  then [Summary(totalElapsedTime, totalNUpdateCell as real / totalElapsedTime,
                                totalNUpdateCellPerSecPerRank / step as real)]
                  else [])
    {
      if mpiRank == 0 {
        // per-level sums of cells, cell updates and particle updates
        var nParLvAllRank := ParLvAllRank(particle, nParLvPerRank);
        var nCell, nUpdateCell, nUpdatePar := CountUpdates(nPatchTotal, nUpdateLv, nParLvAllRank);
        var rec := StepRecord(time, step, dTimeBase, nCell, nUpdateCell, elapsed, particle,
                              nParActiveAllRank, nUpdatePar, mpiNRank, nUpdateLv);
        assert rec == StepOf(elapsed, time, step, dTimeBase, nPatchTotal, nUpdateLv, nParLvPerRank, nParActiveAllRank);
        WriteRecord(rec, time, step);
      }
    }

    /** What rank 0 writes for one step: the header on the first call, the step record `rec`,
        and the average performance when the step ends the run. */
    method WriteRecord(rec: Entry, time: real, step: int)
      requires Valid() && mpiRank == 0 && (EndOfRun(time, step) ==> step != 0)
      requires rec.Record? && rec.elapsed > 0.0 && ConsistentRecord(rec, particle, mpiNRank)
      modifies this
      ensures Valid() && !firstTime
      ensures totalNUpdateCell == old(totalNUpdateCell) + rec.nUpdateCell
      ensures totalElapsedTime == old(totalElapsedTime) + rec.elapsed && totalElapsedTime > 0.0
      ensures totalNUpdateCellPerSecPerRank == old(totalNUpdateCellPerSecPerRank) + rec.perfPerRank
      ensures log == old(log)
               + (if old(firstTime) then [Header(particle, NLEVEL)] else [])
               + [rec]
               + (if EndOfRun(time, step)
                  then [Summary(totalElapsedTime, totalNUpdateCell as real / totalElapsedTime,
                                totalNUpdateCellPerSecPerRank / step as real)]
                  else [])
    {
      // column titles, first call only
      if firstTime {
        WriteHeader();
      }

      // the step's record, added to the running totals
      Append(rec);

      // averages over the whole run, on its last step
      if step == endStep || time >= endT {
        var summary := Summary(totalElapsedTime, totalNUpdateCell as real / totalElapsedTime,
                               totalNUpdateCellPerSecPerRank / step as real);
        Append(summary);
      }
    }

    /** The first call on rank 0 writes the header and clears FirstTime. */
    method WriteHeader()
      requires Valid() && firstTime && mpiRank == 0
      modifies this
      ensures Valid() && !firstTime
      ensures log == [Header(particle, NLEVEL)]
      ensures totalNUpdateCell == old(totalNUpdateCell) && totalElapsedTime == old(totalElapsedTime)
      ensures totalNUpdateCellPerSecPerRank == old(totalNUpdateCellPerSecPerRank)
    {
      firstTime := false;
      log := log + [Header(particle, NLEVEL)];
      assert log[..0] == [];
    }

    /** Appends a record or a summary after the header, adding a record to the totals. */
    method Append(e: Entry)
      requires Valid() && !firstTime && mpiRank == 0
      requires !e.Header? && (e.Record? ==> ConsistentRecord(e, particle, mpiNRank))
      modifies this
      ensures Valid() && !firstTime
      ensures log == old(log) + [e]
      ensures totalNUpdateCell == old(totalNUpdateCell) + (if e.Record? then e.nUpdateCell else 0)
      ensures totalElapsedTime == old(totalElapsedTime) + (if e.Record? then e.elapsed else 0.0)
      ensures totalNUpdateCellPerSecPerRank == old(totalNUpdateCellPerSecPerRank) + (if e.Record? then e.perfPerRank else 0.0)
      ensures e.Record? ==> totalElapsedTime > 0.0
    {
      TotalsAppend(log, e);
      WellFormedAppend(log, e, particle, mpiNRank);
      ElapsedPositive(log, particle, mpiNRank);
      if e.Record? {
        totalNUpdateCell := totalNUpdateCell + e.nUpdateCell;
        totalElapsedTime := totalElapsedTime + e.elapsed;
        totalNUpdateCellPerSecPerRank := totalNUpdateCellPerSecPerRank + e.perfPerRank;
      }
      log := log + [e];
    }
  }
}
