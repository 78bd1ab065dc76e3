/**
 * Grackle_Close: copy the chemistry solver's results from the flat host buffer h_Che_Array back
 * into the fluid arrays of the patches of one level, recomputing total energy (and, with the
 * entropy-based dual-energy formalism, entropy) from a floored pressure.
 */
module GrackleClose {
  import opened Gamer

  /** Cells in one patch (CUBE(PS1)). */
  const CELLS_PER_PATCH: nat := 512

  /** Cells in one patch group (Size1pg = CUBE(PS2)). */
  const SIZE1PG: nat := 4096

  lemma PatchSizes()
    ensures Cube(PS1) == CELLS_PER_PATCH && Cube(PS2) == SIZE1PG
    ensures SIZE1PG == GROUP_PATCHES * CELLS_PER_PATCH
  {
  }

  /** A patch of the AMR hierarchy. fluid[v, idx_p] is field v at cell idx_p of the patch, the
      PS1^3 cells flattened in the order GAMER stores them. */
  class Patch {
    const fluid: array2<real>

    constructor (nComp: nat)
      ensures fluid.Length0 == nComp && fluid.Length1 == CELLS_PER_PATCH && fresh(fluid)
    {
      fluid := new real[nComp, CELLS_PER_PATCH];
    }
  }

  /** Where the fields live in h_Che_Array: Che_NField slices of Size1v values each, and the slice
      indices CheIdx_Dens, CheIdx_sEint and CheIdx_Ek. */
  datatype CheLayout = CheLayout(nField: nat, idxDens: nat, idxSEint: nat, idxEk: nat)

  /** The fluid-side constants and the two helpers the routine calls: CPU_CheckMinPres(Pres,
      MIN_PRES) and CPU_DensPres2Entropy(Dens, Pres, Gamma_m1). */
  datatype Eos = Eos(
    gamma: real, minPres: real,
    checkMinPres: (real, real) -> real,
    densPres2Entropy: (real, real, real) -> real)

  /** The DUAL_ENERGY option: off, or DE_ENPY with the field index of ENPY. DE_EINT does not
      compile and is not represented. */
  datatype DualEnergy = NoDualEnergy | DeEnpy(enpy: nat)

  // ---------------------------------------------------------------------------------------
  // Index arithmetic
  // ---------------------------------------------------------------------------------------

  /** The offset within one field's slice of cell idxP of local patch localId of patch group tid:
      the group offset TID*Size1pg plus the running idx_pg. */
  function CellOffset(tid: nat, localId: nat, idxP: nat): nat {
    tid * SIZE1PG + localId * CELLS_PER_PATCH + idxP
  }

  /** The inverse of CellOffset: the patch group, local patch and cell of an offset. */
  function SplitOffset(k: nat): (nat, nat, nat) {
    (k / SIZE1PG, (k % SIZE1PG) / CELLS_PER_PATCH, k % CELLS_PER_PATCH)
  }

  /** Multiplying by a positive d keeps a non-zero integer at least d away from 0. */
  lemma MulMono(x: int, d: int)
    requires d > 0
    ensures x >= 1 ==> x * d >= d
    ensures x <= -1 ==> x * d <= -d
  {
    if x >= 1 {
      assert x * d == (x - 1) * d + d;
    } else if x <= -1 {
      assert x * d == (x + 1) * d - d;
    }
  }

  /** Euclidean division is determined by its quotient and remainder. */
  lemma DivModUnique(k: int, d: int, q: int, r: int)
    requires d > 0 && 0 <= r < d && k == q * d + r
    ensures k / d == q && k % d == r
  {
    var q', r' := k / d, k % d;
    assert k == q' * d + r';
    assert (q - q') * d == r' - r;
    MulMono(q - q', d);
  }

  /** The offset of a cell lies in its group's block and determines the group, the local patch
      and the cell. */
  lemma CellOffsetRoundTrip(tid: nat, localId: nat, idxP: nat)
    requires localId < GROUP_PATCHES && idxP < CELLS_PER_PATCH
    ensures tid * SIZE1PG <= CellOffset(tid, localId, idxP) < (tid + 1) * SIZE1PG
    ensures SplitOffset(CellOffset(tid, localId, idxP)) == (tid, localId, idxP)
  {
    var r := localId * CELLS_PER_PATCH + idxP;
    assert r < SIZE1PG;
    DivModUnique(CellOffset(tid, localId, idxP), SIZE1PG, tid, r);
    DivModUnique(r, CELLS_PER_PATCH, localId, idxP);
    DivModUnique(CellOffset(tid, localId, idxP), CELLS_PER_PATCH, tid * GROUP_PATCHES + localId, idxP);
  }

  /** Every offset is the offset of exactly one (group, local patch, cell). */
  lemma SplitOffsetRoundTrip(k: nat)
    ensures SplitOffset(k).1 < GROUP_PATCHES && SplitOffset(k).2 < CELLS_PER_PATCH
    ensures CellOffset(SplitOffset(k).0, SplitOffset(k).1, SplitOffset(k).2) == k
  {
    var q, r := k / SIZE1PG, k % SIZE1PG;
    var l, i := r / CELLS_PER_PATCH, r % CELLS_PER_PATCH;
    assert k == q * SIZE1PG + r;
    assert r == l * CELLS_PER_PATCH + i;
    DivModUnique(k, CELLS_PER_PATCH, q * GROUP_PATCHES + l, i);
  }

  /** Index in h_Che_Array of field slice `field` at the cell (tid, localId, idxP): the slice
      starts at field*Size1v, Size1v = NPG*Size1pg. It stays inside that slice. */
  function SourceIndex(field: nat, npg: nat, tid: nat, localId: nat, idxP: nat): (i: nat)
    requires tid < npg && localId < GROUP_PATCHES && idxP < CELLS_PER_PATCH
    ensures field * (npg * SIZE1PG) <= i < (field + 1) * (npg * SIZE1PG)
  {
    CellOffsetRoundTrip(tid, localId, idxP);
    assert (tid + 1) * SIZE1PG <= npg * SIZE1PG;
    field * (npg * SIZE1PG) + CellOffset(tid, localId, idxP)
  }

  // ---------------------------------------------------------------------------------------
  // The values written
  // ---------------------------------------------------------------------------------------

  predicate BufferFits(buf: seq<real>, che: CheLayout, npg: nat) {
    && che.idxDens < che.nField && che.idxSEint < che.nField && che.idxEk < che.nField
    && |buf| == che.nField * (npg * SIZE1PG)
  }

  lemma SliceInBuffer(che: CheLayout, npg: nat, field: nat)
    requires field < che.nField
    ensures (field + 1) * (npg * SIZE1PG) <= che.nField * (npg * SIZE1PG)
  {
  }

  /** The pressure of an ideal gas from the specific internal energy: sEint*Dens*(GAMMA-1). */
  function EintPres(sEint: real, dens: real, gammaM1: real): real {
    sEint * dens * gammaM1
  }

  /** CPU_CheckMinPres(pres, MIN_PRES). */
  function CheckMinPres(eos: Eos, pres: real): real {
    eos.checkMinPres(pres, eos.minPres)
  }

  /** CPU_DensPres2Entropy(dens, pres, gammaM1). */
  function DensPres2Entropy(eos: Eos, dens: real, pres: real, gammaM1: real): real {
    eos.densPres2Entropy(dens, pres, gammaM1)
  }

  /** Density of a cell, read from the CheIdx_Dens slice. */
  function Dens(buf: seq<real>, che: CheLayout, npg: nat, tid: nat, localId: nat, idxP: nat): real
    requires BufferFits(buf, che, npg) && tid < npg && localId < GROUP_PATCHES && idxP < CELLS_PER_PATCH
  {
    SliceInBuffer(che, npg, che.idxDens);
    buf[SourceIndex(che.idxDens, npg, tid, localId, idxP)]
  }

  /** The floored pressure of a cell: sEint*Dens*(GAMMA-1) through CPU_CheckMinPres. */
  function Pres(buf: seq<real>, che: CheLayout, eos: Eos, npg: nat, tid: nat, localId: nat, idxP: nat): real
    requires BufferFits(buf, che, npg) && tid < npg && localId < GROUP_PATCHES && idxP < CELLS_PER_PATCH
  {
    SliceInBuffer(che, npg, che.idxSEint);
    var sEint := buf[SourceIndex(che.idxSEint, npg, tid, localId, idxP)];
    CheckMinPres(eos, EintPres(sEint, Dens(buf, che, npg, tid, localId, idxP), eos.gamma - 1.0))
  }

  /** Kinetic energy density of a cell, read from the CheIdx_Ek slice. */
  function Ek(buf: seq<real>, che: CheLayout, npg: nat, tid: nat, localId: nat, idxP: nat): real
    requires BufferFits(buf, che, npg) && tid < npg && localId < GROUP_PATCHES && idxP < CELLS_PER_PATCH
  {
    SliceInBuffer(che, npg, che.idxEk);
    buf[SourceIndex(che.idxEk, npg, tid, localId, idxP)]
  }

  /** The total energy written: Pres*(1/(GAMMA-1)) + Ek. */
  function NewEngy(buf: seq<real>, che: CheLayout, eos: Eos, npg: nat, tid: nat, localId: nat, idxP: nat): real
    requires BufferFits(buf, che, npg) && tid < npg && localId < GROUP_PATCHES && idxP < CELLS_PER_PATCH
    requires eos.gamma != 1.0
  {
    Pres(buf, che, eos, npg, tid, localId, idxP) * (1.0 / (eos.gamma - 1.0)) + Ek(buf, che, npg, tid, localId, idxP)
  }

  /** The entropy written under DE_ENPY, from the same floored pressure. */
  function NewEnpy(buf: seq<real>, che: CheLayout, eos: Eos, npg: nat, tid: nat, localId: nat, idxP: nat): real
    requires BufferFits(buf, che, npg) && tid < npg && localId < GROUP_PATCHES && idxP < CELLS_PER_PATCH
  {
    DensPres2Entropy(eos, Dens(buf, che, npg, tid, localId, idxP), Pres(buf, che, eos, npg, tid, localId, idxP), eos.gamma - 1.0)
  }

  /** The written total energy is consistent with the floored pressure: the pressure recovered
      from it, (E - Ek)*(GAMMA-1), is exactly the pressure after CPU_CheckMinPres. */
  lemma EnergyPressureRoundTrip(buf: seq<real>, che: CheLayout, eos: Eos, npg: nat, tid: nat, localId: nat, idxP: nat)
    requires BufferFits(buf, che, npg) && tid < npg && localId < GROUP_PATCHES && idxP < CELLS_PER_PATCH
    requires eos.gamma != 1.0
    ensures (NewEngy(buf, che, eos, npg, tid, localId, idxP) - Ek(buf, che, npg, tid, localId, idxP)) * (eos.gamma - 1.0)
            == Pres(buf, che, eos, npg, tid, localId, idxP)
  {
    var p := Pres(buf, che, eos, npg, tid, localId, idxP);
    var g := eos.gamma - 1.0;
    calc {
      (p * (1.0 / g)) * g;
      == p * ((1.0 / g) * g);
      == p;
    }
  }

  // ---------------------------------------------------------------------------------------
  // The copy-back
  // ---------------------------------------------------------------------------------------

  /** The target patches: the groups PID0_List[0 .. NPG-1] of level lv at sandglass SaveSg are
      disjoint (each PID0 is the LocalID-0 patch of its group, a multiple of 8, and no group is
      listed twice), lie inside the level, and the patches of the level do not share arrays. */
  predicate ValidTargets(level: seq<Patch>, npg: nat, pid0List: seq<int>, nComp: nat) {
    && npg <= |pid0List|
    && (forall t :: 0 <= t < npg ==>
          0 <= pid0List[t] && pid0List[t] % GROUP_PATCHES == 0 && pid0List[t] + GROUP_PATCHES <= |level|)
    && (forall t, u :: 0 <= t < u < npg ==> pid0List[t] != pid0List[u])
    && (forall pid :: 0 <= pid < |level| ==>
          level[pid].fluid.Length0 == nComp && level[pid].fluid.Length1 == CELLS_PER_PATCH)
    && (forall p, q :: 0 <= p < q < |level| ==> level[p].fluid != level[q].fluid)
  }

  /** The fluid array of local patch localId of group tid: patch PID0_List[tid] + localId. */
  function Target(level: seq<Patch>, npg: nat, pid0List: seq<int>, nComp: nat, tid: nat, localId: nat): (a: array2<real>)
    requires ValidTargets(level, npg, pid0List, nComp) && tid < npg && localId < GROUP_PATCHES
    ensures a.Length0 == nComp && a.Length1 == CELLS_PER_PATCH
  {
    level[pid0List[tid] + localId].fluid
  }

  /** Two listed (group, local patch) pairs name the same array only if they are the same pair. */
  lemma TargetsDistinct(level: seq<Patch>, npg: nat, pid0List: seq<int>, nComp: nat, t: nat, l: nat, u: nat, m: nat)
    requires ValidTargets(level, npg, pid0List, nComp)
    requires t < npg && u < npg && l < GROUP_PATCHES && m < GROUP_PATCHES
    requires t != u || l != m
    ensures Target(level, npg, pid0List, nComp, t, l) != Target(level, npg, pid0List, nComp, u, m)
  {
    assert pid0List[t] + l != pid0List[u] + m;
  }

  /** The field v of a target is left alone by the copy-back. */
  predicate Untouched(v: nat, engy: nat, dual: DualEnergy) {
    v != engy && !(dual.DeEnpy? && v == dual.enpy)
  }

  /** Fields engy (and, under DE_ENPY, enpy) of every cell of a hold the values computed from
      the buffer for local patch localId of group tid. */
  ghost predicate Written(a: array2<real>, buf: seq<real>, che: CheLayout, eos: Eos, npg: nat, tid: nat, localId: nat,
                          engy: nat, dual: DualEnergy)
    reads a
  {
    && BufferFits(buf, che, npg) && tid < npg && localId < GROUP_PATCHES && eos.gamma != 1.0
    && engy < a.Length0 && a.Length1 == CELLS_PER_PATCH && (dual.DeEnpy? ==> dual.enpy < a.Length0)
    && (forall i :: 0 <= i < CELLS_PER_PATCH ==> a[engy, i] == NewEngy(buf, che, eos, npg, tid, localId, i))
    && (dual.DeEnpy? ==> forall i :: 0 <= i < CELLS_PER_PATCH ==> a[dual.enpy, i] == NewEnpy(buf, che, eos, npg, tid, localId, i))
  }

  /** Ptr_X0 + offset + idx_pg, with Ptr_X0 = field*Size1v and offset = TID*Size1pg, is the
      cell's index in the field's slice of the buffer. */
  lemma SliceIndex(che: CheLayout, npg: nat, field: nat, tid: nat, localId: nat, idxP: nat, idxPg: nat)
    requires field < che.nField && tid < npg && localId < GROUP_PATCHES && idxP < CELLS_PER_PATCH
    requires idxPg == localId * CELLS_PER_PATCH + idxP
    ensures field * (npg * SIZE1PG) + tid * SIZE1PG + idxPg == SourceIndex(field, npg, tid, localId, idxP)
    ensures SourceIndex(field, npg, tid, localId, idxP) < che.nField * (npg * SIZE1PG)
  {
    SliceInBuffer(che, npg, field);
  }

  /** The loop body of Grackle_Close for cell idx_p of local patch localId of group tid, given the
      buffer indices Ptr_Dens[idx_pg], Ptr_sEint[idx_pg] and Ptr_Ek[idx_pg] of that cell: it writes
      the new total energy (and, under DE_ENPY, the new entropy) of that cell and nothing else. */
  method CloseCell(
      fluid: array2<real>, hCheArray: seq<real>, che: CheLayout, eos: Eos, npg: nat, tid: nat, localId: nat,
      idxP: nat, iDens: nat, iSEint: nat, iEk: nat, gammaM1: real, invGammaM1: real, engy: nat, dual: DualEnergy)
    requires BufferFits(hCheArray, che, npg) && tid < npg && localId < GROUP_PATCHES && idxP < CELLS_PER_PATCH
    requires eos.gamma != 1.0 && gammaM1 == eos.gamma - 1.0 && invGammaM1 == 1.0 / gammaM1
    requires iDens == SourceIndex(che.idxDens, npg, tid, localId, idxP)
    requires iSEint == SourceIndex(che.idxSEint, npg, tid, localId, idxP)
    requires iEk == SourceIndex(che.idxEk, npg, tid, localId, idxP)
    requires fluid.Length1 == CELLS_PER_PATCH && engy < fluid.Length0
    requires dual.DeEnpy? ==> dual.enpy < fluid.Length0 && dual.enpy != engy
    modifies fluid
    ensures fluid[engy, idxP] == NewEngy(hCheArray, che, eos, npg, tid, localId, idxP)
    ensures dual.DeEnpy? ==> fluid[dual.enpy, idxP] == NewEnpy(hCheArray, che, eos, npg, tid, localId, idxP)
    ensures forall v, i :: 0 <= v < fluid.Length0 && 0 <= i < CELLS_PER_PATCH && (i != idxP || Untouched(v, engy, dual)) ==>
      fluid[v, i] == old(fluid[v, i])
  {
    SliceInBuffer(che, npg, che.idxDens);
    SliceInBuffer(che, npg, che.idxSEint);
    SliceInBuffer(che, npg, che.idxEk);

    // floor the pressure recovered from the specific internal energy
    var dens := hCheArray[iDens];
    var pres := EintPres(hCheArray[iSEint], dens, gammaM1);
    pres := CheckMinPres(eos, pres);

    // new total energy from the floored pressure and the kinetic energy
    fluid[engy, idxP] := pres * invGammaM1 + hCheArray[iEk];

    // under DE_ENPY, the entropy from the same floored pressure
    if dual.DeEnpy? {
      fluid[dual.enpy, idxP] := DensPres2Entropy(eos, dens, pres, gammaM1);
    }
  }

  /** The innermost loop of Grackle_Close for one patch: cells idx_p = 0 .. CUBE(PS1)-1 of patch
      PID0+LocalID, reading the buffer at the running index idx_pg of its patch group. */
  method ClosePatch(
      fluid: array2<real>, hCheArray: seq<real>, che: CheLayout, eos: Eos, npg: nat, tid: nat, localId: nat,
      idxPg0: nat, engy: nat, dual: DualEnergy)
    returns (idxPg: nat)
    requires BufferFits(hCheArray, che, npg) && tid < npg && localId < GROUP_PATCHES && eos.gamma != 1.0
    requires idxPg0 == localId * CELLS_PER_PATCH
    requires fluid.Length1 == CELLS_PER_PATCH && engy < fluid.Length0
    requires dual.DeEnpy? ==> dual.enpy < fluid.Length0 && dual.enpy != engy
    modifies fluid
    ensures idxPg == idxPg0 + CELLS_PER_PATCH
    ensures Written(fluid, hCheArray, che, eos, npg, tid, localId, engy, dual)
    ensures forall v, i :: 0 <= v < fluid.Length0 && 0 <= i < CELLS_PER_PATCH && Untouched(v, engy, dual) ==>
      fluid[v, i] == old(fluid[v, i])
  {
    var gammaM1 := eos.gamma - 1.0;
    var invGammaM1 := 1.0 / gammaM1;
    var size1v := npg * SIZE1PG;
    var offset := tid * SIZE1PG;
    var ptrDens, ptrSEint, ptrEk := che.idxDens * size1v + offset, che.idxSEint * size1v + offset, che.idxEk * size1v + offset;
    idxPg := idxPg0;

    for idxP := 0 to CELLS_PER_PATCH
      invariant idxPg == idxPg0 + idxP
      invariant forall i :: 0 <= i < idxP ==> fluid[engy, i] == NewEngy(hCheArray, che, eos, npg, tid, localId, i)
      invariant dual.DeEnpy? ==>
        forall i :: 0 <= i < idxP ==> fluid[dual.enpy, i] == NewEnpy(hCheArray, che, eos, npg, tid, localId, i)
      invariant forall v, i :: 0 <= v < fluid.Length0 && 0 <= i < CELLS_PER_PATCH && (idxP <= i || Untouched(v, engy, dual)) ==>
        fluid[v, i] == old(fluid[v, i])
    {
      SliceIndex(che, npg, che.idxDens, tid, localId, idxP, idxPg);
      SliceIndex(che, npg, che.idxSEint, tid, localId, idxP, idxPg);
      SliceIndex(che, npg, che.idxEk, tid, localId, idxP, idxPg);
      CloseCell(fluid, hCheArray, che, eos, npg, tid, localId, idxP,
                ptrDens + idxPg, ptrSEint + idxPg, ptrEk + idxPg, gammaM1, invGammaM1, engy, dual);
      idxPg := idxPg + 1;
    }
  }

  /** Grackle_Close(lv, SaveSg, h_Che_Array, NPG, PID0_List). patch[sg][lv][pid] is
      amr->patch[sg][lv][pid]; engy is the field index of ENGY and nComp the number of fields. */
  method Close(
      lv: nat, saveSg: nat, hCheArray: seq<real>, npg: nat, pid0List: seq<int>,
      patch: seq<seq<seq<Patch>>>, che: CheLayout, eos: Eos, engy: nat, dual: DualEnergy, nComp: nat)
    requires saveSg < |patch| && lv < |patch[saveSg]|
    requires ValidTargets(patch[saveSg][lv], npg, pid0List, nComp)
    requires BufferFits(hCheArray, che, npg)
    requires eos.gamma != 1.0
    requires engy < nComp && (dual.DeEnpy? ==> dual.enpy < nComp && dual.enpy != engy)
    modifies set t: nat, l: nat | t < npg && l < GROUP_PATCHES :: Target(patch[saveSg][lv], npg, pid0List, nComp, t, l)
    ensures forall t: nat, l: nat :: t < npg && l < GROUP_PATCHES ==>
      Written(Target(patch[saveSg][lv], npg, pid0List, nComp, t, l), hCheArray, che, eos, npg, t, l, engy, dual)
    ensures forall t: nat, l: nat, v: nat, i ::
      (t < npg && l < GROUP_PATCHES && v < nComp && 0 <= i < CELLS_PER_PATCH && Untouched(v, engy, dual)) ==>
        Target(patch[saveSg][lv], npg, pid0List, nComp, t, l)[v, i]
          == old(Target(patch[saveSg][lv], npg, pid0List, nComp, t, l)[v, i])
  {
    var level := patch[saveSg][lv];

    for tid := 0 to npg
      invariant forall t: nat, l: nat :: t < tid && l < GROUP_PATCHES ==>
        Written(Target(level, npg, pid0List, nComp, t, l), hCheArray, che, eos, npg, t, l, engy, dual)
      invariant forall t: nat, l: nat, v: nat, i ::
        (t < npg && l < GROUP_PATCHES && v < nComp && 0 <= i < CELLS_PER_PATCH && (tid <= t || Untouched(v, engy, dual))) ==>
          Target(level, npg, pid0List, nComp, t, l)[v, i] == old(Target(level, npg, pid0List, nComp, t, l)[v, i])
    {
      var pid0 := pid0List[tid];
      var idxPg := 0;

      for localId := 0 to GROUP_PATCHES
        invariant idxPg == localId * CELLS_PER_PATCH
        invariant forall t: nat, l: nat :: (t < npg && l < GROUP_PATCHES && (t < tid || (t == tid && l < localId))) ==>
          Written(Target(level, npg, pid0List, nComp, t, l), hCheArray, che, eos, npg, t, l, engy, dual)
        invariant forall t: nat, l: nat, v: nat, i ::
          (t < npg && l < GROUP_PATCHES && v < nComp && 0 <= i < CELLS_PER_PATCH
           && (tid < t || (t == tid && localId <= l) || Untouched(v, engy, dual))) ==>
            Target(level, npg, pid0List, nComp, t, l)[v, i] == old(Target(level, npg, pid0List, nComp, t, l)[v, i])
      {
        var pid := pid0 + localId;
        var fluid := level[pid].fluid;
        assert fluid == Target(level, npg, pid0List, nComp, tid, localId);
        forall t: nat, l: nat | t < npg && l < GROUP_PATCHES && (t != tid || l != localId)
          ensures Target(level, npg, pid0List, nComp, t, l) != fluid
        {
          TargetsDistinct(level, npg, pid0List, nComp, t, l, tid, localId);
        }
        idxPg := ClosePatch(fluid, hCheArray, che, eos, npg, tid, localId, idxPg, engy, dual);
      }
    }
  }
}
