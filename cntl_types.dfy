/** Types that every control tree of the library shares: the implementation
    class of a node (impl_t), the algorithmic variant it selects (varnum_t),
    and the control objects of the other operations a her2 node delegates to.
    Those objects are built and owned by other parts of the library, so here
    they are opaque heap objects: only their identity matters. */
module CntlTypes {

  /** How a node is implemented: a leaf that calls one fused kernel, or a
      blocked node that partitions the problem and delegates to sub-trees. */
  datatype Impl = UnbFused | Blocked

  /** The algorithmic variant (loop order / partition direction) of a node. */
  datatype VarNum = Variant1 | Variant2 | Variant3 | Variant4

  /** Cache blocksize object (blksz_t), one tile size per precision. */
  class Blksz { }

  /** bl2_blksz_obj_create: a newly allocated blocksize object. The four
      per-precision sizes it stores are not modelled. */
  method BlkszObjCreate() returns (b: Blksz)
    ensures fresh(b)
  {
    b := new Blksz;
  }

  /** Control tree of a vector pack (packv_t). */
  class Packv { }

  /** Control tree of a matrix pack (packm_t). */
  class Packm { }

  /** Control tree of a matrix unpack (unpackm_t). */
  class Unpackm { }

  /** Control tree of a rank-1 update (ger_t). */
  class Ger { }
}
