/**
 * Patch flags: bits telling the runtime which parts of a vnode may change.
 * The values are those of the Vue runtime's shared PatchFlags enum; the proofs
 * rely only on each being a distinct single bit.
 */
module PatchFlags {

  /** A patch-flag bitmask (a 32-bit integer in the generated code). */
  type Mask = bv32

  const TEXT: Mask := 1
  const CLASS: Mask := 2
  const STYLE: Mask := 4
  const PROPS: Mask := 8
  const FULL_PROPS: Mask := 16
  const HYDRATE_EVENTS: Mask := 32
  const STABLE_FRAGMENT: Mask := 64
  const KEYED_FRAGMENT: Mask := 128
  const UNKEYED_FRAGMENT: Mask := 256
  const NEED_PATCH: Mask := 512
  const DYNAMIC_SLOTS: Mask := 1024

  predicate Has(flag: Mask, bit: Mask) {
    flag & bit != 0
  }
}
