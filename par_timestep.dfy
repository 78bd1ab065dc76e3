/**
 * The particle time-step estimator of GAMER (Par_GetTimeStep_VelAcc): per-level extrema of the
 * particle velocity and acceleration, per-level candidate steps, the lowest-level strict minimum,
 * the serial cross-rank reduction, the degeneracy guard and the final scaling.
 */
module ParTimeStep {
  import opened Gamer

  /** __FLT_MAX__, the largest single-precision value, which the estimator uses as its
      "no candidate yet" sentinel. */
  const FLT_MAX: real := 340282346638528859811704183484516925440.0

  /** A per-level candidate time-step. NonFinite stands for the IEEE results +inf (a cell width
      divided by a zero extremum) and NaN (0/0, or the square root of a negative ratio): both
      compare false under `<`, so neither can ever be selected. */
  datatype Candidate = Finite(t: real) | NonFinite

  /** The run-time parameters and compile-time options the estimator reads. */
  datatype Config = Config(
    parVel: real,              // DT__PARVEL
    parAcc: real,              // DT__PARACC; the acceleration criterion is on when it is positive
    parVelMax: real,           // DT__PARVEL_MAX; a negative value disables the ceiling
    adaptiveDt: bool,          // OPT__ADAPTIVE_DT: reuse the cached extrema instead of scanning
    individualTimestep: bool,  // INDIVIDUAL_TIMESTEP: subcycled integration
    storeParAcc: bool)         // STORE_PAR_ACC: particle accelerations are stored

  /** The part of the AMR hierarchy the scan reads. Level lv has the cell width dh[lv], its
      real patches are 0 .. nReal[lv]-1 (NPatchComma[lv][1]; buffer patches follow), and
      parList[lv][pid] is the particle list of patch pid at sandglass 0. */
  datatype Hierarchy = Hierarchy(dh: seq<real>, nReal: seq<int>, parList: seq<seq<seq<int>>>)

  /** Particle attributes: vel[d][id] and acc[d][id] for d in 0..2, and NPar_Active. */
  datatype Particles = Particles(vel: seq<seq<real>>, acc: seq<seq<real>>, nParActive: int)

  /** The non-fatal diagnostic of the velocity criterion. */
  datatype VelWarning =
    | NoWarning
      // no level gave a velocity candidate although particles are active;
      // suggestCeiling: the extra hint printed when DT__PARVEL_MAX is negative
    | ZeroVelocity(dtMin: real, suggestCeiling: bool)

  datatype TimeStepError =
    | AccWithoutStorage(parAcc: real)   // DT__PARACC > 0 while STORE_PAR_ACC is off
    | AccDegenerate(dtMin: real)        // no level gave an acceleration candidate

  /** Ok: the run goes on; Fatal: Aux_Error aborts it. */
  datatype Status = Ok | Fatal(error: TimeStepError)

  function Abs(x: real): real {
    if x < 0.0 then -x else x
  }

  /** The MAX macro of GAMER. */
  function Max(a: real, b: real): real {
    if a > b then a else b
  }

  /** The MIN macro of GAMER. */
  function Min(a: real, b: real): real {
    if a < b then a else b
  }

  function Pow2(n: nat): (r: nat)
    ensures r >= 1
  {
    if n == 0 then 1 else 2 * Pow2(n - 1)
  }

  predicate UseAcc(cfg: Config) {
    cfg.parAcc > 0.0
  }

  // ---------------------------------------------------------------------------------------
  // Scan: the per-level maximum of the absolute particle velocity / acceleration components
  // ---------------------------------------------------------------------------------------

  predicate WellFormed(h: Hierarchy) {
    && |h.dh| == NLEVEL && |h.nReal| == NLEVEL && |h.parList| == NLEVEL
    && forall lv :: 0 <= lv < NLEVEL ==> 0 <= h.nReal[lv] <= |h.parList[lv]|
  }

  /** comp holds three components, each with an entry for each of the n particle slots, and
      every particle listed in a real patch is one of those slots. */
  predicate Covers(h: Hierarchy, comp: seq<seq<real>>)
    requires WellFormed(h)
  {
    && |comp| == 3
    && (forall d :: 0 <= d < 3 ==> |comp[d]| == |comp[0]|)
    && (forall lv, pid, p :: 0 <= lv < NLEVEL && 0 <= pid < h.nReal[lv] && 0 <= p < |h.parList[lv][pid]| ==>
          0 <= h.parList[lv][pid][p] < |comp[0]|)
  }

  /** m is the maximum of 0 and of |comp[d][id]| over d in 0..2 and every particle id listed in a
      real patch of level lv: it is non-negative, bounds every such magnitude, and is either 0 or
      one of them. */
  ghost predicate IsLevelMax(m: real, h: Hierarchy, comp: seq<seq<real>>, lv: int)
    requires WellFormed(h) && Covers(h, comp) && 0 <= lv < NLEVEL
  {
    && m >= 0.0
    && (forall pid, p, d :: 0 <= pid < h.nReal[lv] && 0 <= p < |h.parList[lv][pid]| && 0 <= d < 3 ==>
          Abs(comp[d][h.parList[lv][pid][p]]) <= m)
    && (m == 0.0 ||
        exists pid, p, d :: 0 <= pid < h.nReal[lv] && 0 <= p < |h.parList[lv][pid]| && 0 <= d < 3 &&
          Abs(comp[d][h.parList[lv][pid][p]]) == m)
  }

  /** m is attained at the scanned position w = (pid, p, d) of level lv, unless m is 0. */
  ghost predicate Witnessed(m: real, w: (int, int, int), h: Hierarchy, comp: seq<seq<real>>, lv: int)
    requires WellFormed(h) && Covers(h, comp) && 0 <= lv < NLEVEL
  {
    m != 0.0 ==>
      (&& 0 <= w.0 < h.nReal[lv] && 0 <= w.1 < |h.parList[lv][w.0]| && 0 <= w.2 < 3
       && Abs(comp[w.2][h.parList[lv][w.0][w.1]]) == m)
  }

  /** m bounds the magnitudes of the real patches 0 .. pid-1 of level lv, of the particles
      0 .. p-1 of patch pid, and of the components 0 .. d-1 of particle p of patch pid. */
  ghost predicate BoundsSoFar(m: real, h: Hierarchy, comp: seq<seq<real>>, lv: int, pid: int, p: int, d: int)
    requires WellFormed(h) && Covers(h, comp) && 0 <= lv < NLEVEL
    requires 0 <= pid <= h.nReal[lv]
    requires pid < h.nReal[lv] ==> 0 <= p <= |h.parList[lv][pid]|
    requires pid < h.nReal[lv] && p < |h.parList[lv][pid]| ==> 0 <= d <= 3
  {
    && (forall q, p', d' :: 0 <= q < pid && 0 <= p' < |h.parList[lv][q]| && 0 <= d' < 3 ==>
          Abs(comp[d'][h.parList[lv][q][p']]) <= m)
    && (pid < h.nReal[lv] ==>
          forall p', d' :: 0 <= p' < p && 0 <= d' < 3 ==> Abs(comp[d'][h.parList[lv][pid][p']]) <= m)
    && (pid < h.nReal[lv] && p < |h.parList[lv][pid]| ==>
          forall d' :: 0 <= d' < d ==> Abs(comp[d'][h.parList[lv][pid][p]]) <= m)
  }

  /** Having read the three components of particle p with the running maximum raised from m to
      m2, the bounds cover particles 0 .. p. */
  lemma NextParticle(m: real, m2: real, h: Hierarchy, comp: seq<seq<real>>, lv: int, pid: int, p: int)
    requires WellFormed(h) && Covers(h, comp) && 0 <= lv < NLEVEL
    requires 0 <= pid < h.nReal[lv] && 0 <= p < |h.parList[lv][pid]|
    requires BoundsSoFar(m, h, comp, lv, pid, p, 0) && m <= m2
    requires forall d :: 0 <= d < 3 ==> Abs(comp[d][h.parList[lv][pid][p]]) <= m2
    ensures BoundsSoFar(m2, h, comp, lv, pid, p + 1, 0)
  {
  }

  /** Having read every particle of patch pid, the bounds cover patches 0 .. pid. */
  lemma NextPatch(m: real, h: Hierarchy, comp: seq<seq<real>>, lv: int, pid: int)
    requires WellFormed(h) && Covers(h, comp) && 0 <= lv < NLEVEL
    requires 0 <= pid < h.nReal[lv]
    requires BoundsSoFar(m, h, comp, lv, pid, |h.parList[lv][pid]|, 0)
    ensures BoundsSoFar(m, h, comp, lv, pid + 1, 0, 0)
  {
  }

  /** The innermost loop of the scan: raise extrema[lv] over the three components of particle
      parId. The ghost result says which component the new value was read from, if it changed. */
  method RaiseOverComponents(extrema: array<real>, lv: nat, comp: seq<seq<real>>, parId: int)
      returns (ghost wd: int)
    requires lv < extrema.Length && |comp| == 3
    requires 0 <= parId && forall d :: 0 <= d < 3 ==> parId < |comp[d]|
    modifies extrema
    ensures forall d :: 0 <= d < 3 ==> Abs(comp[d][parId]) <= extrema[lv]
    ensures old(extrema[lv]) <= extrema[lv]
    ensures extrema[lv] == old(extrema[lv]) || (0 <= wd < 3 && extrema[lv] == Abs(comp[wd][parId]))
    ensures forall l :: 0 <= l < extrema.Length && l != lv ==> extrema[l] == old(extrema[l])
  {
    wd := -1;
    for d := 0 to 3
      invariant forall d' :: 0 <= d' < d ==> Abs(comp[d'][parId]) <= extrema[lv]
      invariant old(extrema[lv]) <= extrema[lv]
      invariant extrema[lv] == old(extrema[lv]) || (0 <= wd < 3 && extrema[lv] == Abs(comp[wd][parId]))
      invariant forall l :: 0 <= l < extrema.Length && l != lv ==> extrema[l] == old(extrema[l])
    {
      if Abs(comp[d][parId]) > extrema[lv] {
        wd := d;
      }
      extrema[lv] := Max(extrema[lv], Abs(comp[d][parId]));
    }
  }

  /** Position w = (pid', p', d) comes before particle p of patch pid in the scan order. */
  predicate ReadBefore(w: (int, int, int), pid: int, p: int) {
    w.0 < pid || (w.0 == pid && w.1 < p)
  }

  /** The running maximum m after the scan has reached particle p of real patch pid of level lv:
      non-negative, bounding everything read so far, and, unless it is 0, read at a position w
      the scan has already passed. */
  ghost predicate Scanned(m: real, w: (int, int, int), h: Hierarchy, comp: seq<seq<real>>, lv: int, pid: int, p: int)
    requires WellFormed(h) && Covers(h, comp) && 0 <= lv < NLEVEL
    requires 0 <= pid <= h.nReal[lv]
    requires pid < h.nReal[lv] ==> 0 <= p <= |h.parList[lv][pid]|
  {
    && m >= 0.0
    && BoundsSoFar(m, h, comp, lv, pid, p, 0)
    && Witnessed(m, w, h, comp, lv)
    && (m != 0.0 ==> ReadBefore(w, pid, p))
  }

  /** The scan of one particle for one kind: raise extrema[lv] over the three components of
      particle p of patch pid. */
  method RaiseParticle(extrema: array<real>, h: Hierarchy, comp: seq<seq<real>>, lv: nat, pid: int, p: int,
                       ghost w0: (int, int, int))
      returns (ghost w: (int, int, int))
    requires WellFormed(h) && Covers(h, comp) && lv < NLEVEL && extrema.Length == NLEVEL
    requires 0 <= pid < h.nReal[lv] && 0 <= p < |h.parList[lv][pid]|
    requires Scanned(extrema[lv], w0, h, comp, lv, pid, p)
    modifies extrema
    ensures Scanned(extrema[lv], w, h, comp, lv, pid, p + 1)
    ensures forall l :: 0 <= l < NLEVEL && l != lv ==> extrema[l] == old(extrema[l])
  {
    var parId := h.parList[lv][pid][p];
    ghost var m0 := extrema[lv];
    ghost var wd := RaiseOverComponents(extrema, lv, comp, parId);
    w := if extrema[lv] != m0 then (pid, p, wd) else w0;
    NextParticle(m0, extrema[lv], h, comp, lv, pid, p);
  }

  /** The body of the particle loop: particle p of patch pid raises MaxVel[lv] and, when
      accelerations are used, MaxAcc[lv]. */
  method RaiseBoth(h: Hierarchy, ps: Particles, useAcc: bool, lv: nat, pid: int, p: int,
                   maxVel: array<real>, maxAcc: array<real>, ghost wv0: (int, int, int), ghost wa0: (int, int, int))
      returns (ghost wv: (int, int, int), ghost wa: (int, int, int))
    requires WellFormed(h) && Covers(h, ps.vel) && (useAcc ==> Covers(h, ps.acc))
    requires lv < NLEVEL && maxVel.Length == NLEVEL && maxAcc.Length == NLEVEL && maxVel != maxAcc
    requires 0 <= pid < h.nReal[lv] && 0 <= p < |h.parList[lv][pid]|
    requires Scanned(maxVel[lv], wv0, h, ps.vel, lv, pid, p)
    requires useAcc ==> Scanned(maxAcc[lv], wa0, h, ps.acc, lv, pid, p)
    requires !useAcc ==> maxAcc[lv] == 0.0
    modifies maxVel, maxAcc
    ensures Scanned(maxVel[lv], wv, h, ps.vel, lv, pid, p + 1)
    ensures useAcc ==> Scanned(maxAcc[lv], wa, h, ps.acc, lv, pid, p + 1)
    ensures !useAcc ==> maxAcc[lv] == 0.0
    ensures forall l :: 0 <= l < NLEVEL && l != lv ==> maxVel[l] == old(maxVel[l]) && maxAcc[l] == old(maxAcc[l])
  {
    wv, wa := wv0, wa0;
    wv := RaiseParticle(maxVel, h, ps.vel, lv, pid, p, wv);
    if useAcc {
      wa := RaiseParticle(maxAcc, h, ps.acc, lv, pid, p, wa);
    }
  }

  /** The particle loop of the scan over real patch pid of level lv. */
  method ScanPatch(h: Hierarchy, ps: Particles, useAcc: bool, lv: nat, pid: int,
                   maxVel: array<real>, maxAcc: array<real>, ghost wv0: (int, int, int), ghost wa0: (int, int, int))
      returns (ghost wv: (int, int, int), ghost wa: (int, int, int))
    requires WellFormed(h) && Covers(h, ps.vel) && (useAcc ==> Covers(h, ps.acc))
    requires lv < NLEVEL && maxVel.Length == NLEVEL && maxAcc.Length == NLEVEL && maxVel != maxAcc
    requires 0 <= pid < h.nReal[lv]
    requires Scanned(maxVel[lv], wv0, h, ps.vel, lv, pid, 0)
    requires useAcc ==> Scanned(maxAcc[lv], wa0, h, ps.acc, lv, pid, 0)
    requires !useAcc ==> maxAcc[lv] == 0.0
    modifies maxVel, maxAcc
    ensures Scanned(maxVel[lv], wv, h, ps.vel, lv, pid + 1, 0)
    ensures useAcc ==> Scanned(maxAcc[lv], wa, h, ps.acc, lv, pid + 1, 0)
    ensures !useAcc ==> maxAcc[lv] == 0.0
    ensures forall l :: 0 <= l < NLEVEL && l != lv ==> maxVel[l] == old(maxVel[l]) && maxAcc[l] == old(maxAcc[l])
  {
    wv, wa := wv0, wa0;
    for p := 0 to |h.parList[lv][pid]|
      invariant Scanned(maxVel[lv], wv, h, ps.vel, lv, pid, p)
      invariant useAcc ==> Scanned(maxAcc[lv], wa, h, ps.acc, lv, pid, p)
      invariant !useAcc ==> maxAcc[lv] == 0.0
      invariant forall l :: 0 <= l < NLEVEL && l != lv ==> maxVel[l] == old(maxVel[l]) && maxAcc[l] == old(maxAcc[l])
    {
      wv, wa := RaiseBoth(h, ps, useAcc, lv, pid, p, maxVel, maxAcc, wv, wa);
    }
    NextPatch(maxVel[lv], h, ps.vel, lv, pid);
    if useAcc {
      NextPatch(maxAcc[lv], h, ps.acc, lv, pid);
    }
  }

  /** Scanning every real patch leaves the level maximum. */
  lemma ScannedIsLevelMax(m: real, w: (int, int, int), h: Hierarchy, comp: seq<seq<real>>, lv: int)
    requires WellFormed(h) && Covers(h, comp) && 0 <= lv < NLEVEL
    requires Scanned(m, w, h, comp, lv, h.nReal[lv], 0)
    ensures IsLevelMax(m, h, comp, lv)
  {
    if m != 0.0 {
      assert Abs(comp[w.2][h.parList[lv][w.0][w.1]]) == m;
    }
  }

  /** One pass of the level loop of the scan: reset MaxVel[lv] and MaxAcc[lv] to 0, then raise
      them over the particles of the level's real patches (accelerations only when useAcc). */
  method ScanLevel(h: Hierarchy, ps: Particles, useAcc: bool, lv: nat, maxVel: array<real>, maxAcc: array<real>)
    requires WellFormed(h) && Covers(h, ps.vel) && (useAcc ==> Covers(h, ps.acc))
    requires lv < NLEVEL && maxVel.Length == NLEVEL && maxAcc.Length == NLEVEL && maxVel != maxAcc
    modifies maxVel, maxAcc
    ensures IsLevelMax(maxVel[lv], h, ps.vel, lv)
    ensures useAcc ==> IsLevelMax(maxAcc[lv], h, ps.acc, lv)
    ensures !useAcc ==> maxAcc[lv] == 0.0
    ensures forall l :: 0 <= l < NLEVEL && l != lv ==> maxVel[l] == old(maxVel[l]) && maxAcc[l] == old(maxAcc[l])
  {
    maxVel[lv] := 0.0;
    maxAcc[lv] := 0.0;
    // where the current maxima were read (meaningful once they are non-zero)
    ghost var wv: (int, int, int) := (0, 0, 0);
    ghost var wa: (int, int, int) := (0, 0, 0);

    for pid := 0 to h.nReal[lv]
      invariant Scanned(maxVel[lv], wv, h, ps.vel, lv, pid, 0)
      invariant useAcc ==> Scanned(maxAcc[lv], wa, h, ps.acc, lv, pid, 0)
      invariant !useAcc ==> maxAcc[lv] == 0.0
      invariant forall l :: 0 <= l < NLEVEL && l != lv ==> maxVel[l] == old(maxVel[l]) && maxAcc[l] == old(maxAcc[l])
    {
      wv, wa := ScanPatch(h, ps, useAcc, lv, pid, maxVel, maxAcc, wv, wa);
    }
    ScannedIsLevelMax(maxVel[lv], wv, h, ps.vel, lv);
    if useAcc {
      ScannedIsLevelMax(maxAcc[lv], wa, h, ps.acc, lv);
    }
  }

  /** The scan stage: every level's MaxVel (and, with the acceleration criterion, MaxAcc) is
      rebuilt from scratch. */
  method ScanExtrema(h: Hierarchy, ps: Particles, useAcc: bool, maxVel: array<real>, maxAcc: array<real>)
    requires WellFormed(h) && Covers(h, ps.vel) && (useAcc ==> Covers(h, ps.acc))
    requires maxVel.Length == NLEVEL && maxAcc.Length == NLEVEL && maxVel != maxAcc
    modifies maxVel, maxAcc
    ensures forall lv :: 0 <= lv < NLEVEL ==> IsLevelMax(maxVel[lv], h, ps.vel, lv)
    ensures forall lv :: 0 <= lv < NLEVEL ==> (useAcc ==> IsLevelMax(maxAcc[lv], h, ps.acc, lv))
    ensures forall lv :: 0 <= lv < NLEVEL ==> (!useAcc ==> maxAcc[lv] == 0.0)
  {
    for lv := 0 to NLEVEL
      invariant forall l :: 0 <= l < lv ==> IsLevelMax(maxVel[l], h, ps.vel, l)
      invariant forall l :: 0 <= l < lv ==> (useAcc ==> IsLevelMax(maxAcc[l], h, ps.acc, l))
      invariant forall l :: 0 <= l < lv ==> (!useAcc ==> maxAcc[l] == 0.0)
    {
      ScanLevel(h, ps, useAcc, lv, maxVel, maxAcc);
    }
  }

  // ---------------------------------------------------------------------------------------
  // Select: per-level candidates and the lowest-level strict minimum
  // ---------------------------------------------------------------------------------------

  /** Under INDIVIDUAL_TIMESTEP level lv advances 2^lv times per base-level step and the base
      level itself takes two sub-steps, so a level's candidate is inflated by 2^(lv+1) to the
      equivalent base-level budget. +inf and NaN stay what they are. */
  function Subcycle(c: Candidate, lv: nat, individual: bool): Candidate {
    if individual && c.Finite? then Finite(c.t * (Pow2(lv + 1) as real)) else c
  }

  /** dt_tmp[0] of level lv: dh/MaxVel, +inf (or NaN) when MaxVel is 0. */
  function VelCandidate(dh: real, maxVel: real, lv: nat, individual: bool): Candidate {
    Subcycle(if maxVel == 0.0 then NonFinite else Finite(dh / maxVel), lv, individual)
  }

  /** dt_tmp[1] of level lv: sqrt(dh/MaxAcc), +inf (or NaN) when MaxAcc is 0, NaN when the
      ratio is negative. */
  function AccCandidate(dh: real, maxAcc: real, lv: nat, individual: bool, sqrt: real -> real): Candidate {
    var c := if maxAcc == 0.0 then NonFinite
             else if dh / maxAcc < 0.0 then NonFinite
             else Finite(sqrt(dh / maxAcc));
    Subcycle(c, lv, individual)
  }

  function VelCandidates(dh: seq<real>, maxVel: seq<real>, individual: bool): (cs: seq<Candidate>)
    requires |maxVel| == |dh|
    ensures |cs| == |dh|
  {
    seq(|dh|, lv requires 0 <= lv < |dh| => VelCandidate(dh[lv], maxVel[lv], lv, individual))
  }

  function AccCandidates(dh: seq<real>, maxAcc: seq<real>, individual: bool, sqrt: real -> real): (cs: seq<Candidate>)
    requires |maxAcc| == |dh|
    ensures |cs| == |dh|
  {
    seq(|dh|, lv requires 0 <= lv < |dh| => AccCandidate(dh[lv], maxAcc[lv], lv, individual, sqrt))
  }

  /** A candidate the selection can pick: finite and strictly below the FLT_MAX sentinel. */
  predicate Usable(c: Candidate) {
    c.Finite? && c.t < FLT_MAX
  }

  /** lv is the lowest index in [lo, hi) holding the minimum of the usable candidates there, or
      -1 when none of them is usable. */
  predicate IsLowestArgMinIn(c: seq<Candidate>, lo: int, hi: int, lv: int)
    requires 0 <= lo <= hi <= |c|
  {
    if lv == -1 then
      forall j :: lo <= j < hi ==> !Usable(c[j])
    else
      && lo <= lv < hi && Usable(c[lv])
      && (forall j :: lo <= j < hi && Usable(c[j]) ==> c[lv].t <= c[j].t)
      && (forall j :: lo <= j < lv && Usable(c[j]) ==> c[lv].t < c[j].t)
  }

  /** Reference definition of the selected level, independent of the loop: a right fold that
      keeps the earlier of two equal minima. */
  function ArgMinFrom(c: seq<Candidate>, i: nat): (lv: int)
    requires i <= |c|
    ensures lv == -1 || (i <= lv < |c| && Usable(c[lv]))
    decreases |c| - i
  {
    if i == |c| then -1
    else
      var rest := ArgMinFrom(c, i + 1);
      if Usable(c[i]) && (rest == -1 || c[i].t <= c[rest].t) then i else rest
  }

  /** The value dt_local ends with: the selected candidate, or the sentinel. */
  function MinCandidate(c: seq<Candidate>): (t: real)
    ensures t <= FLT_MAX
    ensures t == FLT_MAX <==> ArgMinFrom(c, 0) == -1
  {
    var lv := ArgMinFrom(c, 0);
    if lv == -1 then FLT_MAX else c[lv].t
  }

  lemma {:induction false} ArgMinFromIsLowestArgMin(c: seq<Candidate>, i: nat)
    requires i <= |c|
    ensures IsLowestArgMinIn(c, i, |c|, ArgMinFrom(c, i))
    decreases |c| - i
  {
    if i < |c| {
      ArgMinFromIsLowestArgMin(c, i + 1);
    }
  }

  lemma LowestArgMinIsUnique(c: seq<Candidate>, lo: int, hi: int, a: int, b: int)
    requires 0 <= lo <= hi <= |c|
    requires IsLowestArgMinIn(c, lo, hi, a) && IsLowestArgMinIn(c, lo, hi, b)
    ensures a == b
  {
  }

  /** The level loop of the estimator for one kind of candidate: keep the strictly smaller
      candidate, its level and the extremum that produced it. MinDtLv starts at -1 and MinDtVar
      keeps its previous value var0 when no level qualifies. */
  method SelectTimeStep(c: seq<Candidate>, extrema: seq<real>, var0: real)
      returns (dtLocal: real, minDtLv: int, minDtVar: real)
    requires |extrema| == |c|
    ensures minDtLv == ArgMinFrom(c, 0)
    ensures IsLowestArgMinIn(c, 0, |c|, minDtLv)
    ensures dtLocal == MinCandidate(c)
    ensures minDtLv == -1 <==> dtLocal == FLT_MAX
    ensures minDtVar == if minDtLv == -1 then var0 else extrema[minDtLv]
  {
    dtLocal, minDtLv, minDtVar := FLT_MAX, -1, var0;
    for lv := 0 to |c|
      invariant IsLowestArgMinIn(c, 0, lv, minDtLv)
      invariant dtLocal == if minDtLv == -1 then FLT_MAX else c[minDtLv].t
      invariant minDtVar == if minDtLv == -1 then var0 else extrema[minDtLv]
    {
      if c[lv].Finite? && c[lv].t < dtLocal {
        dtLocal := c[lv].t;
        minDtLv := lv;
        minDtVar := extrema[lv];
      }
    }
    ArgMinFromIsLowestArgMin(c, 0);
    LowestArgMinIsUnique(c, 0, |c|, minDtLv, ArgMinFrom(c, 0));
  }

  /** A level whose extremum is 0 gives +inf (or NaN) and is never selected, for either kind. */
  lemma ZeroExtremumNeverSelected(dh: seq<real>, extrema: seq<real>, individual: bool, sqrt: real -> real, lv: int)
    requires |extrema| == |dh| && 0 <= lv < |dh| && extrema[lv] == 0.0
    ensures ArgMinFrom(VelCandidates(dh, extrema, individual), 0) != lv
    ensures ArgMinFrom(AccCandidates(dh, extrema, individual, sqrt), 0) != lv
  {
  }

  /** Why the subcycling factor is 2^(lv+1): a level whose cells are half as wide as those of the
      level below, carrying particles just as fast, gets the same subcycled velocity candidate. */
  lemma {:induction false} SubcyclingEqualisesRefinement(dh: real, maxVel: real, lv: nat)
    requires maxVel != 0.0
    ensures VelCandidate(dh / 2.0, maxVel, lv + 1, true) == VelCandidate(dh, maxVel, lv, true)
  {
    var k := Pow2(lv + 1) as real;
    assert Pow2(lv + 2) as real == 2.0 * k;
    calc {
      (dh / 2.0 / maxVel) * (2.0 * k);
      ==
      (dh / maxVel) * k;
    }
  }

  /** Without subcycling the finer level of two (dh = [1, 0.5], MaxVel = [2, 4]) sets the step:
      candidates 0.5 and 0.125, level 1 selected, and dt = 0.5 * 0.125. */
  lemma ScenarioWithoutSubcycling()
    ensures VelCandidates([1.0, 0.5], [2.0, 4.0], false) == [Finite(0.5), Finite(0.125)]
    ensures ArgMinFrom(VelCandidates([1.0, 0.5], [2.0, 4.0], false), 0) == 1
    ensures VelStep(0.5, -1.0, MinCandidate(VelCandidates([1.0, 0.5], [2.0, 4.0], false))) == 0.0625
  {
    var c := VelCandidates([1.0, 0.5], [2.0, 4.0], false);
    assert c[0] == Finite(0.5) && c[1] == Finite(0.125);
  }

  /** With subcycling the same levels give 0.5 * 2 = 1.0 and 0.125 * 4 = 0.5: level 1 is still
      selected. */
  lemma ScenarioWithSubcycling()
    ensures VelCandidates([1.0, 0.5], [2.0, 4.0], true) == [Finite(1.0), Finite(0.5)]
    ensures ArgMinFrom(VelCandidates([1.0, 0.5], [2.0, 4.0], true), 0) == 1
  {
    var c := VelCandidates([1.0, 0.5], [2.0, 4.0], true);
    assert Pow2(1) == 2 && Pow2(2) == 4;
    assert c[0] == Finite(1.0) && c[1] == Finite(0.5);
  }

  // ---------------------------------------------------------------------------------------
  // Reduce and finish
  // ---------------------------------------------------------------------------------------

  /** MPI_Allreduce with MPI_MIN over the per-rank values of one kind. */
  function AllReduceMin(perRank: seq<real>): (m: real)
    requires |perRank| > 0
    ensures m in perRank
    ensures forall x :: x in perRank ==> m <= x
  {
    if |perRank| == 1 then perRank[0]
    else
      var rest := AllReduceMin(perRank[1..]);
      assert forall x :: x in perRank ==> x == perRank[0] || x in perRank[1..];
      Min(perRank[0], rest)
  }

  /** dt[0]: DT__PARVEL times the minimum, capped by DT__PARVEL_MAX exactly when that is
      non-negative. */
  function VelStep(parVel: real, parVelMax: real, dtMin: real): (dt: real)
    ensures parVelMax < 0.0 ==> dt == parVel * dtMin
    ensures parVelMax >= 0.0 ==> dt <= parVelMax && dt <= parVel * dtMin
    ensures parVelMax >= 0.0 ==> dt == parVelMax || dt == parVel * dtMin
  {
    var dt := parVel * dtMin;
    if parVelMax >= 0.0 then Min(dt, parVelMax) else dt
  }

  // ---------------------------------------------------------------------------------------
  // The estimator
  // ---------------------------------------------------------------------------------------

  /** dt[1]: DT__PARACC times the minimum, with no ceiling. */
  function AccStep(parAcc: real, dtMin: real): real {
    parAcc * dtMin
  }

  /** The finishing stage: scale the reduced minima by their coefficients, cap the velocity step
      by DT__PARVEL_MAX when that is non-negative, and convert to physical time. The acceleration
      entries are written only when the acceleration criterion is on. */
  method FinishTimeStep(cfg: Config, dtMinVel: real, dtMinAcc: real, dtdTime: real, dt: array<real>, dTime: array<real>)
    requires dt.Length == 2 && dTime.Length == 2 && dt != dTime && dtdTime != 0.0
    modifies dt, dTime
    ensures dt[0] == VelStep(cfg.parVel, cfg.parVelMax, dtMinVel) && dTime[0] == dt[0] / dtdTime
    ensures UseAcc(cfg) ==> dt[1] == AccStep(cfg.parAcc, dtMinAcc) && dTime[1] == dt[1] / dtdTime
    ensures !UseAcc(cfg) ==> dt[1] == old(dt[1]) && dTime[1] == old(dTime[1])
  {
    dt[0] := cfg.parVel * dtMinVel;
    if cfg.parVelMax >= 0.0 {
      dt[0] := Min(dt[0], cfg.parVelMax);
    }
    dTime[0] := dt[0] / dtdTime;

    if cfg.parAcc > 0.0 {
      dt[1] := cfg.parAcc * dtMinAcc;
      dTime[1] := dt[1] / dtdTime;
    }
  }

  /** The stages after the scan: select in one rank, reduce over the ranks, verify the minima
      and finish. MinDtInfo_ParVelAcc is only read here. */
  method SelectAndFinish(
      cfg: Config, h: Hierarchy, ps: Particles, dtdTime: real, sqrt: real -> real,
      maxVel: array<real>, maxAcc: array<real>,
      dt: array<real>, dTime: array<real>, minDtLv: array<int>, minDtVar: array<real>)
      returns (warning: VelWarning, status: Status)
    requires WellFormed(h)
    requires maxVel.Length == NLEVEL && maxAcc.Length == NLEVEL
    requires dt.Length == 2 && dTime.Length == 2 && minDtLv.Length == 2 && minDtVar.Length == 2
    requires dt != dTime
    requires minDtVar !in {maxVel, maxAcc, dt, dTime} && dt !in {maxVel, maxAcc} && dTime !in {maxVel, maxAcc}
    requires dtdTime != 0.0
    modifies dt, dTime, minDtLv, minDtVar
    ensures
      var vc := VelCandidates(h.dh, maxVel[..], cfg.individualTimestep);
      var ac := AccCandidates(h.dh, maxAcc[..], cfg.individualTimestep, sqrt);
      && minDtLv[0] == ArgMinFrom(vc, 0)
      && minDtVar[0] == (if minDtLv[0] == -1 then old(minDtVar[0]) else maxVel[minDtLv[0]])
      && minDtLv[1] == (if UseAcc(cfg) then ArgMinFrom(ac, 0) else -1)
      && minDtVar[1] == (if UseAcc(cfg) && minDtLv[1] != -1 then maxAcc[minDtLv[1]] else old(minDtVar[1]))
      && warning == (if minDtLv[0] == -1 && ps.nParActive > 0
                     then ZeroVelocity(FLT_MAX, cfg.parVelMax < 0.0) else NoWarning)
      && status == (if UseAcc(cfg) && minDtLv[1] == -1 && ps.nParActive > 0
                    then Fatal(AccDegenerate(FLT_MAX)) else Ok)
      && (status.Fatal? ==> unchanged(dt, dTime))
      && (status.Ok? ==>
            && dt[0] == VelStep(cfg.parVel, cfg.parVelMax, MinCandidate(vc))
            && dTime[0] == dt[0] / dtdTime
            && (UseAcc(cfg) ==> dt[1] == AccStep(cfg.parAcc, MinCandidate(ac)) && dTime[1] == dt[1] / dtdTime)
            && (!UseAcc(cfg) ==> dt[1] == old(dt[1]) && dTime[1] == old(dTime[1])))
  {
    var useAcc := cfg.parAcc > 0.0;

    // this rank's candidates and their lowest-level minima
    var vc := VelCandidates(h.dh, maxVel[..], cfg.individualTimestep);
    var dtLocalVel, lvVel, varVel := SelectTimeStep(vc, maxVel[..], minDtVar[0]);
    minDtLv[0], minDtVar[0] := lvVel, varVel;
    minDtLv[1] := -1;

    var dtLocalAcc := FLT_MAX;
    if useAcc {
      var ac := AccCandidates(h.dh, maxAcc[..], cfg.individualTimestep, sqrt);
      var lvAcc, varAcc;
      dtLocalAcc, lvAcc, varAcc := SelectTimeStep(ac, maxAcc[..], minDtVar[1]);
      minDtLv[1], minDtVar[1] := lvAcc, varAcc;
    }

    // MPI_MIN over the ranks, one rank in a SERIAL build
    var dtMinVel := AllReduceMin([dtLocalVel]);
    var dtMinAcc := AllReduceMin([dtLocalAcc]);
    assert dtMinVel == MinCandidate(vc);
    assert useAcc ==> dtMinAcc == MinCandidate(AccCandidates(h.dh, maxAcc[..], cfg.individualTimestep, sqrt));

    // degenerate minima: a warning for velocity, a fatal error for acceleration
    warning := NoWarning;
    if dtMinVel == FLT_MAX && ps.nParActive > 0 {
      warning := ZeroVelocity(dtMinVel, cfg.parVelMax < 0.0);
    }
    if useAcc && dtMinAcc == FLT_MAX && ps.nParActive > 0 {
      return warning, Fatal(AccDegenerate(dtMinAcc));
    }

    FinishTimeStep(cfg, dtMinVel, dtMinAcc, dtdTime, dt, dTime);
    status := Ok;
  }

  /** Par_GetTimeStep_VelAcc in a SERIAL build without COMOVING. maxVel and maxAcc are the global
      MinDtInfo_ParVelAcc[0] and [1]; dt, dTime, minDtLv and minDtVar are the two-element output
      arrays ([0] velocity, [1] acceleration). An Aux_Error aborts the run: the arrays keep
      whatever they held at that point. */
  method GetTimeStepVelAcc(
      cfg: Config, h: Hierarchy, ps: Particles, dtdTime: real, sqrt: real -> real,
      maxVel: array<real>, maxAcc: array<real>,
      dt: array<real>, dTime: array<real>, minDtLv: array<int>, minDtVar: array<real>)
      returns (warning: VelWarning, status: Status)
    requires WellFormed(h) && Covers(h, ps.vel) && (cfg.storeParAcc ==> Covers(h, ps.acc))
    requires maxVel.Length == NLEVEL && maxAcc.Length == NLEVEL
    requires dt.Length == 2 && dTime.Length == 2 && minDtLv.Length == 2 && minDtVar.Length == 2
    requires maxVel != maxAcc && dt != dTime
    requires minDtVar !in {maxVel, maxAcc, dt, dTime} && dt !in {maxVel, maxAcc} && dTime !in {maxVel, maxAcc}
    requires dtdTime != 0.0
    modifies maxVel, maxAcc, dt, dTime, minDtLv, minDtVar
    // configuration error: nothing is touched
    ensures UseAcc(cfg) && !cfg.storeParAcc ==>
      && status == Fatal(AccWithoutStorage(cfg.parAcc)) && warning == NoWarning
      && unchanged(maxVel, maxAcc, dt, dTime, minDtLv, minDtVar)
    // scan: rebuilt unless OPT__ADAPTIVE_DT, then left as they were
    ensures !(UseAcc(cfg) && !cfg.storeParAcc) && cfg.adaptiveDt ==> unchanged(maxVel, maxAcc)
    ensures !(UseAcc(cfg) && !cfg.storeParAcc) && !cfg.adaptiveDt ==>
      forall lv :: 0 <= lv < NLEVEL ==>
        && IsLevelMax(maxVel[lv], h, ps.vel, lv)
        && (UseAcc(cfg) ==> IsLevelMax(maxAcc[lv], h, ps.acc, lv))
        && (!UseAcc(cfg) ==> maxAcc[lv] == 0.0)
    // select, reduce, guard, finish
    ensures !(UseAcc(cfg) && !cfg.storeParAcc) ==>
      var vc := VelCandidates(h.dh, maxVel[..], cfg.individualTimestep);
      var ac := AccCandidates(h.dh, maxAcc[..], cfg.individualTimestep, sqrt);
      && minDtLv[0] == ArgMinFrom(vc, 0)
      && minDtVar[0] == (if minDtLv[0] == -1 then old(minDtVar[0]) else maxVel[minDtLv[0]])
      && minDtLv[1] == (if UseAcc(cfg) then ArgMinFrom(ac, 0) else -1)
      && minDtVar[1] == (if UseAcc(cfg) && minDtLv[1] != -1 then maxAcc[minDtLv[1]] else old(minDtVar[1]))
      && warning == (if minDtLv[0] == -1 && ps.nParActive > 0
                     then ZeroVelocity(FLT_MAX, cfg.parVelMax < 0.0) else NoWarning)
      && status == (if UseAcc(cfg) && minDtLv[1] == -1 && ps.nParActive > 0
                    then Fatal(AccDegenerate(FLT_MAX)) else Ok)
      && (status.Fatal? ==> unchanged(dt, dTime))
      && (status.Ok? ==>
            && dt[0] == VelStep(cfg.parVel, cfg.parVelMax, MinCandidate(vc))
            && dTime[0] == dt[0] / dtdTime
            && (UseAcc(cfg) ==> dt[1] == AccStep(cfg.parAcc, MinCandidate(ac)) && dTime[1] == dt[1] / dtdTime)
            && (!UseAcc(cfg) ==> dt[1] == old(dt[1]) && dTime[1] == old(dTime[1])))
  {
    var useAcc := cfg.parAcc > 0.0;

    if !cfg.storeParAcc && useAcc {
      return NoWarning, Fatal(AccWithoutStorage(cfg.parAcc));
    }

    // rebuild the per-level extrema from the particles
    if !cfg.adaptiveDt {
      ScanExtrema(h, ps, useAcc, maxVel, maxAcc);
    }

    warning, status := SelectAndFinish(cfg, h, ps, dtdTime, sqrt, maxVel, maxAcc, dt, dTime, minDtLv, minDtVar);
  }
}
