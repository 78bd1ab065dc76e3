# GAMER: particle time-step, Grackle copy-back and performance record

A Dafny model of three routines of GAMER, an adaptive-mesh-refinement (AMR) code for
astrophysics. The model follows the C++ routines loop by loop.

- **`Par_GetTimeStep_VelAcc`** (`par_timestep.dfy`, module `ParTimeStep`). It estimates the
  particle time step. A scan rebuilds, in place, the per-level maxima `MaxVel[lv]` and
  `MaxAcc[lv]` of the absolute particle velocity and acceleration components. A level loop
  turns them into candidates `dh/MaxVel` and `sqrt(dh/MaxAcc)`. Under `INDIVIDUAL_TIMESTEP`
  these are inflated by `2^(lv+1)`. The loop keeps the lowest level holding the strict minimum
  below the `__FLT_MAX__` sentinel. The minima are reduced over ranks and checked for
  degeneracy (a warning for velocity, a fatal error for acceleration). The finish scales them
  into `dt` and `dTime`. The scan and the finish work on `array`s, as the source writes the
  global `MinDtInfo_ParVelAcc` and the output arrays in place. The selection loop is proved
  equal to an independent reference definition, `ArgMinFrom`.
- **`Grackle_Close`** (`grackle_close.dfy`, module `GrackleClose`). It copies the chemistry
  solver's results back into the patches of one level. A triple loop runs over patch groups,
  local patches and cells, with a running index `idx_pg` into the flat buffer `h_Che_Array`.
  For each cell it floors the pressure `sEint*Dens*(GAMMA-1)` with `CPU_CheckMinPres`, writes
  the total energy `Pres/(GAMMA-1) + Ek`, and under `DUAL_ENERGY == DE_ENPY` writes the entropy
  from the same pressure. Patch fluid blocks are `array2`s written in place.
- **`Aux_Record_Performance`** (`record_performance.dfy`, module `RecordPerformance`). Its
  function-static state (`FirstTime` and the `Total_*` accumulators) becomes the class
  `PerformanceLedger`. The `Record__Performance` file becomes a ghost log of `Header`,
  `Record` and `Summary` entries. A per-level loop counts cells, cell updates and particle
  updates, and its results are proved equal to recursive sums. The ledger invariant says four
  things: the header is written once, by rank 0 only; every record carries `NLEVEL` per-level
  columns; each record's performance columns are its update counts over its elapsed time; the
  totals are the sums over the records written so far.

`gamer.dfy` (module `Gamer`) holds the compile-time constants shared by the three routines:
`NLEVEL = 10`, `PATCH_SIZE = PS1 = 8`, `PS2 = 16`, and 8 patches per patch group.

Calls into code that is not part of this model are parameters. `sqrt` is passed to
`GetTimeStepVelAcc`. `CPU_CheckMinPres` and `CPU_DensPres2Entropy` are fields of `Eos`. The
field indices `ENGY`, `ENPY` and `CheIdx_*` are parameters too. The MPI reductions are
functions over the sequence of per-rank values (`AllReduceMin`, `ReduceParLv`).

With `INDIVIDUAL_TIMESTEP`, `dh = [1, 0.5]` and `MaxVel = [2, 4]` give the candidates
`[1.0, 0.5]`, and level 1 is still selected (`ParTimeStep.ScenarioWithSubcycling`).

## Model

| member | source | states |
|---|---|---|
| ParTimeStep.RaiseOverComponents | src/Particle/Par_GetTimeStep_VelAcc.cpp:65-70 | after the component loop the extremum bounds `FABS` of all three components of the particle, never decreases, is either unchanged or equal to one of those magnitudes, and no other level's entry changes |
| ParTimeStep.RaiseParticle | src/Particle/Par_GetTimeStep_VelAcc.cpp:63-70 | after particle p of patch PID, the running maximum is non-negative, bounds the component magnitudes of every particle read so far (earlier patches and particles 0..p of PID), and is 0 or one of those magnitudes; other levels are untouched |
| ParTimeStep.RaiseBoth | src/Particle/Par_GetTimeStep_VelAcc.cpp:62-71 | one particle advances the running `MaxVel[lv]` and, when `UseAcc`, `MaxAcc[lv]` as above; without `UseAcc` `MaxAcc[lv]` stays 0 |
| ParTimeStep.ScanPatch | src/Particle/Par_GetTimeStep_VelAcc.cpp:61-71 | after the particle loop of patch PID both running maxima cover every particle of patches 0..PID |
| ParTimeStep.ScannedIsLevelMax | src/Particle/Par_GetTimeStep_VelAcc.cpp:60-71 | once every real patch (`PID < NPatchComma[lv][1]`) is scanned, the running maximum is the level maximum |
| ParTimeStep.ScanLevel | src/Particle/Par_GetTimeStep_VelAcc.cpp:55-71 | after resetting to 0 and scanning the real patches of level lv, `MaxVel[lv]` is the level maximum: non-negative, bounds every component magnitude of every listed particle, and is 0 or attained; `MaxAcc[lv]` is the same when `UseAcc` and stays 0 otherwise; other levels are untouched |
| ParTimeStep.ScanExtrema | src/Particle/Par_GetTimeStep_VelAcc.cpp:53-73 | every level's `MaxVel` (and, with the acceleration criterion, `MaxAcc`) is the level maximum; with the criterion off every `MaxAcc[lv]` is 0 |
| ParTimeStep.ArgMinFrom | src/Particle/Par_GetTimeStep_VelAcc.cpp:93-106 | the reference choice is -1 or a level in range whose candidate is finite and below `__FLT_MAX__` |
| ParTimeStep.MinCandidate | src/Particle/Par_GetTimeStep_VelAcc.cpp:93-95 | the value `dt_local` ends with is at most `__FLT_MAX__`, and equals it exactly when no level is selected |
| ParTimeStep.ArgMinFromIsLowestArgMin | src/Particle/Par_GetTimeStep_VelAcc.cpp:93-106 | the reference choice is the lowest level holding the minimum of the usable candidates, with every earlier usable candidate strictly larger, or -1 when none is usable |
| ParTimeStep.LowestArgMinIsUnique | src/Particle/Par_GetTimeStep_VelAcc.cpp:93-106 | at most one level satisfies that characterisation |
| ParTimeStep.SelectTimeStep | src/Particle/Par_GetTimeStep_VelAcc.cpp:77-107 | the strict-`<` level loop from `FLT_MAX` and -1 selects exactly the reference level, `dt_local` is its candidate (or `FLT_MAX` exactly when the level is -1), and `MinDtVar` is that level's extremum or is left as it was |
| ParTimeStep.ZeroExtremumNeverSelected | src/Particle/Par_GetTimeStep_VelAcc.cpp:82-101 | a level whose extremum is 0 is never selected, for velocity or acceleration, with or without subcycling |
| ParTimeStep.SubcyclingEqualisesRefinement | src/Particle/Par_GetTimeStep_VelAcc.cpp:86-91 | with the `2^(lv+1)` factor, a level with half the cell width and the same velocity gets the same candidate as the level below it |
| ParTimeStep.ScenarioWithoutSubcycling | src/Particle/Par_GetTimeStep_VelAcc.cpp:80-98 | `dh = [1, 0.5]`, `MaxVel = [2, 4]`: candidates `[0.5, 0.125]`, level 1 selected, `dt = 0.0625` for `DT__PARVEL = 0.5` |
| ParTimeStep.ScenarioWithSubcycling | src/Particle/Par_GetTimeStep_VelAcc.cpp:86-98 | the same input under `INDIVIDUAL_TIMESTEP` gives candidates `[1.0, 0.5]` and level 1 is still selected |
| ParTimeStep.AllReduceMin | src/Particle/Par_GetTimeStep_VelAcc.cpp:110-114 | the reduced value is one of the ranks' values and no larger than any of them |
| ParTimeStep.VelStep | src/Particle/Par_GetTimeStep_VelAcc.cpp:177-178 | `dt[0]` is `DT__PARVEL*dt_min` when `DT__PARVEL_MAX < 0`; otherwise it is at most both `DT__PARVEL_MAX` and `DT__PARVEL*dt_min` and equals one of them |
| ParTimeStep.FinishTimeStep | src/Particle/Par_GetTimeStep_VelAcc.cpp:177-185 | `dt[0]` is the capped velocity step and `dTime[0] = dt[0]/dt_dTime`; `dt[1]`, `dTime[1]` are `DT__PARACC*dt_min[1]` and its conversion when `UseAcc`, and unchanged otherwise |
| ParTimeStep.SelectAndFinish | src/Particle/Par_GetTimeStep_VelAcc.cpp:77-185 | from given extrema: `MinDtLv`/`MinDtVar` follow the reference selection, the degenerate cases give the warning or the fatal error, and on success `dt`/`dTime` are the scaled reduced minima |
| ParTimeStep.GetTimeStepVelAcc | src/Particle/Par_GetTimeStep_VelAcc.cpp:29-185 | `UseAcc` without `STORE_PAR_ACC` is fatal and touches nothing; otherwise the extrema are rebuilt (or kept under `OPT__ADAPTIVE_DT`); `MinDtLv`/`MinDtVar` follow the reference selection (`MinDtLv[1] = -1` when `UseAcc` is off); no velocity candidate with active particles gives a warning, no acceleration candidate a fatal error that leaves `dt`/`dTime` unchanged; on success `dt` and `dTime` are the scaled minima |
| GrackleClose.PatchSizes | src/Grackle/Grackle_Close.cpp:49 | a patch holds `CUBE(PS1) = 512` cells and a patch group `CUBE(PS2) = 4096 = 8*512` |
| GrackleClose.CellOffsetRoundTrip | src/Grackle/Grackle_Close.cpp:69-103 | cell `idx_p` of local patch `LocalID` of group `TID` is read at offset `TID*Size1pg + LocalID*CUBE(PS1) + idx_p`, which lies inside group `TID`'s block and determines `(TID, LocalID, idx_p)` uniquely |
| GrackleClose.SplitOffsetRoundTrip | src/Grackle/Grackle_Close.cpp:69-103 | every offset is the offset of exactly one (group, local patch, cell): the traversal is a bijection onto the buffer slice |
| GrackleClose.SourceIndex | src/Grackle/Grackle_Close.cpp:49-76 | the index read for a field lies inside that field's slice `[field*Size1v, (field+1)*Size1v)`, `Size1v = NPG*Size1pg` |
| GrackleClose.EnergyPressureRoundTrip | src/Grackle/Grackle_Close.cpp:86-91 | the pressure recovered from the written energy, `(E - Ek)*(GAMMA-1)`, is exactly the floored pressure |
| GrackleClose.Target | src/Grackle/Grackle_Close.cpp:71-91 | the patch written for `(TID, LocalID)` is `PID0_List[TID] + LocalID` at `SaveSg`, `lv`, and has `NCOMP` fields of `CUBE(PS1)` cells |
| GrackleClose.TargetsDistinct | src/Grackle/Grackle_Close.cpp:69-81 | distinct `(TID, LocalID)` pairs write distinct patches |
| GrackleClose.SliceIndex | src/Grackle/Grackle_Close.cpp:54-77 | `Ptr_X0 + offset + idx_pg`, with `Ptr_X0 = CheIdx_X*Size1v` and `offset = TID*Size1pg`, is the cell's index in field X's slice, which lies inside the buffer |
| GrackleClose.CloseCell | src/Grackle/Grackle_Close.cpp:85-96 | the loop body writes ENGY of cell `idx_p` as `CPU_CheckMinPres(sEint*Dens*(GAMMA-1), MIN_PRES)/(GAMMA-1) + Ek` and, under `DE_ENPY`, ENPY as the entropy of `Dens` and that pressure; no other cell or field changes |
| GrackleClose.ClosePatch | src/Grackle/Grackle_Close.cpp:81-104 | after the cell loop of one patch, `idx_pg` has advanced by `CUBE(PS1)`, every cell's ENGY (and under `DE_ENPY` its ENPY) holds the recomputed value, and every other field is unchanged |
| GrackleClose.Close | src/Grackle/Grackle_Close.cpp:46-108 | only the listed patches are modified; every cell of every listed patch has the new ENGY (and ENPY) and every other field unchanged |
| RecordPerformance.CountUpdates | src/Auxiliary/Aux_Record_Performance.cpp:64-78 | the per-level loop yields `NCell` as the sum of the levels' cells, `NUpdateCell` as the sum weighted by `NUpdateLv`, and `NUpdatePar` as the particle counts weighted by `NUpdateLv` |
| RecordPerformance.SharedTimeStepUpdatesEachOnce | src/Auxiliary/Aux_Record_Performance.cpp:70-78 | when every level is advanced once per step, `NUpdate_Cell == NCell` (and `NUpdate_Par` is the particle count) |
| RecordPerformance.UpdatesCoverCells | src/Auxiliary/Aux_Record_Performance.cpp:70-78 | when every level is advanced at least once, `NUpdate_Cell >= NCell >= 0` |
| RecordPerformance.CellsAreWholePatches | src/Auxiliary/Aux_Record_Performance.cpp:72-73 | `NCell` is the total patch count times `CUBE(PATCH_SIZE)` |
| RecordPerformance.ParticleUpdatesSumOverRanks | src/Auxiliary/Aux_Record_Performance.cpp:29-76 | `NUpdate_Par`, computed on rank 0 from the MPI_SUM-reduced `NPar_Lv_AllRank` weighted by `NUpdateLv`, equals the sum over ranks of each rank's own `NPar_Lv` weighted the same way: reducing over ranks and weighting over levels commute |
| RecordPerformance.ReduceAddsRank | src/Auxiliary/Aux_Record_Performance.cpp:29-32 | adding one more rank to the element-wise reduction adds exactly that rank's weighted particle count |
| RecordPerformance.SingleRankReduce | src/Auxiliary/Aux_Record_Performance.cpp:29-32 | on one rank the reduction returns that rank's counts |
| RecordPerformance.ParLvAllRank | src/Auxiliary/Aux_Record_Performance.cpp:29-32 | the counts entering `NUpdate_Par` have `NLEVEL` entries |
| RecordPerformance.TotalsAppend | src/Auxiliary/Aux_Record_Performance.cpp:80-87 | appending an entry adds exactly its `NUpdate_Cell`, `ElapsedTime` and `Perf_PerRank` to the log totals, and a summary adds nothing |
| RecordPerformance.WellFormedPrefix | src/Auxiliary/Aux_Record_Performance.cpp:37-110 | a prefix of a well-formed log is well formed |
| RecordPerformance.WellFormedAppend | src/Auxiliary/Aux_Record_Performance.cpp:94-123 | appending a consistent record or a summary after the header keeps the log well formed |
| RecordPerformance.ElapsedPositive | src/Auxiliary/Aux_Record_Performance.cpp:82-115 | the total elapsed time is non-negative, and positive once a record has been written, so the summary's division is defined |
| RecordPerformance.AverageWithinStepRange | src/Auxiliary/Aux_Record_Performance.cpp:80-115 | if every recorded step ran at between lo and hi cell updates per second, then `lo*Total_ElapsedTime <= Total_NUpdateCell <= hi*Total_ElapsedTime`: the overall average lies within the per-step range |
| RecordPerformance.StepRecord | src/Auxiliary/Aux_Record_Performance.cpp:84-107 | a record carries the step's time, step, `dTime_Base`, counts and `NLEVEL` per-level columns; `Perf_Overall = NUpdate_Cell/ElapsedTime`, `Perf_PerRank = Perf_Overall/MPI_NRank`, and the particle columns likewise exactly when `PARTICLE` is on |
| RecordPerformance.PerformanceLedger.constructor | src/Auxiliary/Aux_Record_Performance.cpp:22-27 | `FirstTime` starts true, the totals start at 0 and the log is empty |
| RecordPerformance.PerformanceLedger.StepOf | src/Auxiliary/Aux_Record_Performance.cpp:64-107 | the record of a step is consistent, with `NCell`, `NUpdate_Cell` and `NUpdate_Par` the level sums |
| RecordPerformance.PerformanceLedger.WriteHeader | src/Auxiliary/Aux_Record_Performance.cpp:37-62 | the first call writes the header with the particle columns and `NLEVEL` level columns and clears `FirstTime` |
| RecordPerformance.PerformanceLedger.Append | src/Auxiliary/Aux_Record_Performance.cpp:80-123 | appending a record adds its counts to the totals; the ledger invariant is kept |
| RecordPerformance.PerformanceLedger.RecordStep | src/Auxiliary/Aux_Record_Performance.cpp:19-125 | other ranks change nothing; on rank 0 `FirstTime` becomes false, the log grows by the header on the first call only, then the step's record, then a summary (`Total_ElapsedTime`, `Total_NUpdateCell/Total_ElapsedTime`, per-rank total over `Step`) exactly when `Step == END_STEP` or `Time[0] >= END_T`; the totals grow by exactly this step's `NUpdateCell`, `ElapsedTime` and per-rank performance; the ledger invariant is kept |
| RecordPerformance.PerformanceLedger.WriteRecord | src/Auxiliary/Aux_Record_Performance.cpp:34-123 | on rank 0, the log grows by the header on the first call only, then the record, then the summary exactly at the end of the run; the totals grow by the record's counts and the ledger invariant is kept |

## Left out

- Floating point: all quantities are exact reals. Rounding, the single-precision `real` type
  and the double `dt_local` are not distinguished. The IEEE values +inf and NaN appear only as
  the `NonFinite` candidate, which fails every `<` as both do.
- ParTimeStep.AccCandidate: `sqrt` is an arbitrary function parameter. Nothing about its
  values is assumed or proved, so the acceleration candidates are only characterised up to it.
- ParTimeStep.VelCandidates: its contract gives only the length. The candidate formula
  (including the `2^(lv+1)` factor) is what the function computes. It is stated through
  `SubcyclingEqualisesRefinement` and the two scenario lemmas.
- ParTimeStep.AccStep: no contract of its own. It is the product `DT__PARACC*dt_min[1]` used
  in the postconditions of `FinishTimeStep` and `GetTimeStepVelAcc`.
- MPI: only the `SERIAL` build compiles (`#error` otherwise), so `MPI_Allreduce` reduces over a
  single rank. The commented-out `MPI_Gather` attribution block is not modelled. `COMOVING` is
  rejected by the source and not represented (`dt_dTime` is a parameter).
- `Aux_Error` and `Aux_Message` are results (`Status`, `VelWarning`), not printing.
  `Aux_Error` is treated as ending the routine at that point.
- `1<<(lv+1)` is taken as the exact power of two. With `NLEVEL = 10` it never overflows an int.
- GrackleClose: `CPU_CheckMinPres` and `CPU_DensPres2Entropy` are arbitrary functions carried
  in `Eos`. `GAMMA != 1` is required so that `1/(GAMMA-1)` is defined. `DE_EINT` is rejected by
  the source and not represented.
- GrackleClose: the OpenMP parallel region is modelled as the sequential loop. Each group
  writes disjoint patches (`TargetsDistinct`), so the order does not matter.
- GrackleClose: `amr->patch` is a sequence of `Patch` objects with a `fluid` array per patch.
  The other patch data and the `h_Che_Array` layout beyond the three slices read are not
  modelled.
- RecordPerformance: file I/O (`fopen`, `fprintf` formats and column widths, `fclose`) and the
  `Aux_CheckFileExist` warning are left out. The file is the ghost log of entries.
- RecordPerformance.PerformanceLedger.RecordStep: requires `Step != 0` only on a step that
  ends the run, where the summary divides by `Step`. It also requires `ElapsedTime > 0`. That
  is stronger than the source needs: a zero `ElapsedTime` would give an infinite rate, but a
  negative one gives finite negative rates. The model keeps every record's time positive, so
  `Total_ElapsedTime` is positive when the summary divides by it. The same preconditions hold
  for `WriteRecord`. `MPI_NRank >= 1` is required through the ledger invariant.
- RecordPerformance: `long` counters are unbounded integers. 64-bit overflow of
  `Total_NUpdateCell` is not modelled.
- RecordPerformance: `NPatchTotal`, `amr->NUpdateLv`, `Time[0]`, `Step`, `dTime_Base`,
  `END_STEP`, `END_T` and `amr->Par->NPar_Active_AllRank` are inputs. How they are maintained
  is not part of this model.
