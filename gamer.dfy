/**
 * Compile-time constants shared by the modelled routines. GAMER fixes them with
 * preprocessor macros; the values below are its defaults.
 */
module Gamer {

  /** Number of refinement levels (the NLEVEL macro). */
  const NLEVEL: nat := 10

  /** Cells per patch along one dimension (PATCH_SIZE, also written PS1). */
  const PATCH_SIZE: nat := 8
  const PS1: nat := PATCH_SIZE

  /** Cells per patch group along one dimension: a group is 2x2x2 patches. */
  const PS2: nat := 2 * PATCH_SIZE

  /** Number of patches in a patch group. */
  const GROUP_PATCHES: nat := 8

  function Cube(n: nat): nat {
    n * n * n
  }
}
