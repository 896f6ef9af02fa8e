/** Control trees of the Hermitian rank-2 update (her2): the node type
    her2_t, its two factories (fresh allocation and in-place initialisation),
    and the file's global registry of one blocksize object and four trees,
    built by bl2_her2_cntl_init and released by bl2_her2_cntl_finalize. */
module Her2Cntl {
  import opened CntlTypes

  /** The two storage preferences the registry builds a tree for. */
  datatype StorageOrder = Row | Col

  /** The variant paired with each storage order: var1 partitions for row
      storage, var4 for column storage. */
  function VariantFor(o: StorageOrder): VarNum
  {
    if o == Row then Variant1 else Variant4
  }

  /** The ten fields of a her2_t node, as one value. References are compared
      by identity. */
  datatype Fields = Fields(
    implType: Impl,
    varNum: VarNum,
    b: Blksz?,
    subPackvX1: Packv?,
    subPackvY1: Packv?,
    subPackmC11: Packm?,
    subGerRp: Ger?,
    subGerCp: Ger?,
    subHer2: Her2?,
    subUnpackmC11: Unpackm?)

  /** A her2 control node (her2_t). */
  class Her2 {
    var implType: Impl
    var varNum: VarNum
    var b: Blksz?
    var subPackvX1: Packv?
    var subPackvY1: Packv?
    var subPackmC11: Packm?
    var subGerRp: Ger?
    var subGerCp: Ger?
    var subHer2: Her2?
    var subUnpackmC11: Unpackm?

    /** The current values of all ten fields. */
    function View(): Fields
      reads this
    {
      Fields(implType, varNum, b, subPackvX1, subPackvY1, subPackmC11,
             subGerRp, subGerCp, subHer2, subUnpackmC11)
    }
  }

  /** No sub-object of any kind: the node is a recursion leaf. */
  predicate Terminal(f: Fields)
  {
    f.b == null && f.subPackvX1 == null && f.subPackvY1 == null &&
    f.subPackmC11 == null && f.subGerRp == null && f.subGerCp == null &&
    f.subHer2 == null && f.subUnpackmC11 == null
  }

  /** The shape of the nodes bl2_her2_cntl_init builds: a fused leaf refers to nothing,
      a blocked node has a blocksize and a leaf delegate. */
  predicate WellFormed(f: Fields)
  {
    (f.implType == UnbFused ==> Terminal(f)) &&
    (f.implType == Blocked ==> f.b != null && f.subHer2 != null)
  }

  /** A packed output must be unpacked: no unpack node without a matrix
      pack node. Neither factory checks this. */
  predicate PackingPaired(f: Fields)
  {
    f.subPackmC11 == null ==> f.subUnpackmC11 == null
  }

  /** bl2_her2_cntl_obj_create: a fresh node holding exactly the arguments. */
  method ObjCreate(implType: Impl, varNum: VarNum, b: Blksz?,
                   subPackvX1: Packv?, subPackvY1: Packv?, subPackmC11: Packm?,
                   subGerRp: Ger?, subGerCp: Ger?,
                   subHer2: Her2?, subUnpackmC11: Unpackm?)
    returns (cntl: Her2)
    ensures fresh(cntl)
    ensures cntl.View() == Fields(implType, varNum, b, subPackvX1, subPackvY1,
                                  subPackmC11, subGerRp, subGerCp, subHer2,
                                  subUnpackmC11)
  {
    cntl := new Her2;
    cntl.implType := implType;
    cntl.varNum := varNum;
    cntl.b := b;
    cntl.subPackvX1 := subPackvX1;
    cntl.subPackvY1 := subPackvY1;
    cntl.subPackmC11 := subPackmC11;
    cntl.subGerRp := subGerRp;
    cntl.subGerCp := subGerCp;
    cntl.subHer2 := subHer2;
    cntl.subUnpackmC11 := subUnpackmC11;
  }

  /** bl2_her2_cntl_obj_init: overwrites the ten fields of an existing node
      and changes no other object. */
  method ObjInit(cntl: Her2, implType: Impl, varNum: VarNum, b: Blksz?,
                 subPackvX1: Packv?, subPackvY1: Packv?, subPackmC11: Packm?,
                 subGerRp: Ger?, subGerCp: Ger?,
                 subHer2: Her2?, subUnpackmC11: Unpackm?)
    modifies cntl
    ensures cntl.View() == Fields(implType, varNum, b, subPackvX1, subPackvY1,
                                  subPackmC11, subGerRp, subGerCp, subHer2,
                                  subUnpackmC11)
  {
    cntl.implType := implType;
    cntl.varNum := varNum;
    cntl.b := b;
    cntl.subPackvX1 := subPackvX1;
    cntl.subPackvY1 := subPackvY1;
    cntl.subPackmC11 := subPackmC11;
    cntl.subGerRp := subGerRp;
    cntl.subGerCp := subGerCp;
    cntl.subHer2 := subHer2;
    cntl.subUnpackmC11 := subUnpackmC11;
  }

  /** Creating a node and re-initialising another one with the same
      arguments give two distinct nodes with identical fields. */
  method CreateMatchesInit(n: Her2, f: Fields) returns (c: Her2)
    modifies n
    ensures fresh(c) && c != n
    ensures c.View() == f && n.View() == f
  {
    c := ObjCreate(f.implType, f.varNum, f.b, f.subPackvX1, f.subPackvY1,
                   f.subPackmC11, f.subGerRp, f.subGerCp, f.subHer2,
                   f.subUnpackmC11);
    ObjInit(n, f.implType, f.varNum, f.b, f.subPackvX1, f.subPackvY1,
            f.subPackmC11, f.subGerRp, f.subGerCp, f.subHer2,
            f.subUnpackmC11);
  }

  /** The factory accepts a blocked node with no pack node at all but with
      an unpack node: it validates none of its arguments. */
  method CreateWithoutPackingCheck(mc: Blksz, leaf: Her2, u: Unpackm)
    returns (c: Her2)
    ensures c.View() == Fields(Blocked, Variant1, mc, null, null, null,
                               null, null, leaf, u)
    ensures WellFormed(c.View()) && !PackingPaired(c.View())
  {
    c := ObjCreate(Blocked, Variant1, mc, null, null, null, null, null, leaf, u);
  }

  /** The nodes met by following sub_her2 from n, n first, while the next
      node lies in `nodes` and has not been met yet. */
  ghost function DelegateChain(n: Her2, nodes: set<Her2>): (c: seq<Her2>)
    requires n in nodes
    reads nodes
    ensures 1 <= |c| <= |nodes|
    ensures c[0] == n
    ensures forall i :: 0 <= i < |c| ==> c[i] in nodes
    ensures forall i :: 0 <= i < |c| - 1 ==> c[i].subHer2 == c[i + 1]
    ensures forall i, j :: 0 <= i < j < |c| ==> c[i] != c[j]
    ensures c[|c| - 1].subHer2 == null || c[|c| - 1].subHer2 !in nodes ||
            c[|c| - 1].subHer2 in c
    decreases nodes
  {
    var rest := nodes - {n};
    if n.subHer2 != null && n.subHer2 in rest then
      [n] + DelegateChain(n.subHer2, rest)
    else
      [n]
  }

  /** The file's globals: the blocksize her2_mc, the two leaf trees
      her2_cntl_bs_ke_row/col and the two blocked trees her2_cntl_ge_row/col,
      together with the externally defined control objects they refer to.
      `freed` records what bl2_cntl_obj_free has released. */
  class Registry {
    const packvCntl: Packv
    const packmCntlNoscale: Packm
    const unpackmCntl: Unpackm
    const gerCntlRpBsRow: Ger
    const gerCntlCpBsCol: Ger

    var her2Mc: Blksz?
    var keRow: Her2?
    var keCol: Her2?
    var geRow: Her2?
    var geCol: Her2?

    ghost var freed: set<object>

    /** The globals before initialisation: all null, nothing freed. */
    constructor (packvCntl: Packv, packmCntlNoscale: Packm, unpackmCntl: Unpackm,
                 gerCntlRpBsRow: Ger, gerCntlCpBsCol: Ger)
      ensures this.packvCntl == packvCntl && this.packmCntlNoscale == packmCntlNoscale
      ensures this.unpackmCntl == unpackmCntl
      ensures this.gerCntlRpBsRow == gerCntlRpBsRow && this.gerCntlCpBsCol == gerCntlCpBsCol
      ensures her2Mc == null && keRow == null && keCol == null
      ensures geRow == null && geCol == null
      ensures freed == {}
    {
      this.packvCntl := packvCntl;
      this.packmCntlNoscale := packmCntlNoscale;
      this.unpackmCntl := unpackmCntl;
      this.gerCntlRpBsRow := gerCntlRpBsRow;
      this.gerCntlCpBsCol := gerCntlCpBsCol;
      her2Mc, keRow, keCol, geRow, geCol := null, null, null, null, null;
      freed := {};
    }

    /** Initialised and not yet finalised: the five globals are set, the four
        trees are distinct objects, and none of them has been freed. */
    ghost predicate Live()
      reads this
    {
      her2Mc != null && keRow != null && keCol != null &&
      geRow != null && geCol != null &&
      keRow != keCol && keRow != geRow && keRow != geCol &&
      keCol != geRow && keCol != geCol && geRow != geCol &&
      her2Mc !in freed && keRow !in freed && keCol !in freed &&
      geRow !in freed && geCol !in freed
    }

    /** The four trees the registry owns. */
    ghost function Trees(): (s: set<Her2>)
      requires Live()
      reads this
      ensures |s| == 4
      ensures keRow in s && keCol in s && geRow in s && geCol in s
    {
      {keRow, keCol, geRow, geCol}
    }

    /** The leaf tree for a storage order. */
    function Leaf(o: StorageOrder): Her2?
      reads this
    {
      if o == Row then keRow else keCol
    }

    /** The blocked tree for a storage order. */
    function Full(o: StorageOrder): Her2?
      reads this
    {
      if o == Row then geRow else geCol
    }

    /** The rank-1 update tree a blocked tree of this order delegates to. */
    function GerFor(o: StorageOrder): Ger
    {
      if o == Row then gerCntlRpBsRow else gerCntlCpBsCol
    }

    /** The fields bl2_her2_cntl_init gives the leaf of an order. */
    function LeafDesign(o: StorageOrder): Fields
    {
      Fields(UnbFused, VariantFor(o), null, null, null, null, null, null, null, null)
    }

    /** The fields bl2_her2_cntl_init gives the blocked tree of an order. */
    function BlockedDesign(o: StorageOrder): Fields
      reads this
    {
      Fields(Blocked, VariantFor(o), her2Mc, packvCntl, packvCntl, packmCntlNoscale,
             GerFor(o), GerFor(o), Leaf(o), unpackmCntl)
    }

    /** The registry as bl2_her2_cntl_init leaves it. */
    ghost predicate Valid()
      reads this, keRow, keCol, geRow, geCol
    {
      Live() &&
      keRow.View() == LeafDesign(Row) && keCol.View() == LeafDesign(Col) &&
      geRow.View() == BlockedDesign(Row) && geCol.View() == BlockedDesign(Col)
    }

    /** bl2_her2_cntl_init: a fresh blocksize object, then the two leaves,
        then the two blocked trees that refer to them. Nothing is freed, and
        trees built by an earlier call are dropped without being freed. */
    method Init()
      modifies this
      ensures Valid()
      ensures fresh(her2Mc) && fresh(keRow) && fresh(keCol)
      ensures fresh(geRow) && fresh(geCol)
      ensures freed == old(freed)
    {
      her2Mc := BlkszObjCreate();
      keRow := ObjCreate(UnbFused, Variant1,
                         null, null, null, null, null, null, null, null);
      keCol := ObjCreate(UnbFused, Variant4,
                         null, null, null, null, null, null, null, null);
      geRow := ObjCreate(Blocked, Variant1, her2Mc,
                         packvCntl, packvCntl, packmCntlNoscale,
                         gerCntlRpBsRow, gerCntlRpBsRow,
                         keRow, unpackmCntl);
      geCol := ObjCreate(Blocked, Variant4, her2Mc,
                         packvCntl, packvCntl, packmCntlNoscale,
                         gerCntlCpBsCol, gerCntlCpBsCol,
                         keCol, unpackmCntl);
    }

    /** bl2_cntl_obj_free on one node; freeing a node twice is undefined. */
    method CntlObjFree(p: Her2)
      requires p !in freed
      modifies this`freed
      ensures freed == old(freed) + {p}
    {
      freed := freed + {p};
    }

    /** bl2_her2_cntl_finalize: frees the four trees, each exactly once, and
        nothing else; her2_mc and the external objects stay allocated. */
    method Finalize()
      requires Live()
      modifies this`freed
      ensures freed == old(freed) + old(Trees())
      ensures forall t :: t in old(Trees()) ==> t !in old(freed)
      ensures her2Mc !in freed
      ensures !Live()
    {
      CntlObjFree(keRow);
      CntlObjFree(keCol);
      CntlObjFree(geRow);
      CntlObjFree(geCol);
    }

    /** The pre-built tree for a storage order, blocked or base case. */
    method Tree(o: StorageOrder, blocked: bool) returns (t: Her2)
      requires Valid()
      ensures t in Trees()
      ensures t == (if blocked then Full(o) else Leaf(o))
      ensures t.implType == (if blocked then Blocked else UnbFused)
      ensures t.varNum == VariantFor(o)
      ensures blocked ==> t.subHer2 == Leaf(o)
    {
      if blocked {
        t := if o == Row then geRow else geCol;
      } else {
        t := if o == Row then keRow else keCol;
      }
    }

    /** Both leaves are fused kernels with no sub-object, var1 for rows and
        var4 for columns. */
    lemma LeavesTerminal(o: StorageOrder)
      requires Valid()
      ensures Leaf(o) != null && Leaf(o).implType == UnbFused
      ensures Terminal(Leaf(o).View())
      ensures Leaf(o).varNum == (if o == Row then Variant1 else Variant4)
    {
    }

    /** The blocked tree of an order: blocked, the order's variant, her2_mc
        as blocksize, the order's ger tree in both ger slots, and the very
        leaf node of the same order as sub_her2. */
    lemma BlockedShape(o: StorageOrder)
      requires Valid()
      ensures Full(o) != null && Full(o).implType == Blocked
      ensures Full(o).varNum == (if o == Row then Variant1 else Variant4)
      ensures Full(o).b == her2Mc
      ensures Full(o).subGerRp == Full(o).subGerCp
      ensures Full(o).subGerRp == (if o == Row then gerCntlRpBsRow else gerCntlCpBsCol)
      ensures Full(o).subHer2 == (if o == Row then keRow else keCol)
    {
    }

    /** The two blocked trees share one blocksize object and the same pack
        and unpack control objects. */
    lemma SharedSubObjects()
      requires Valid()
      ensures geRow.b == geCol.b == her2Mc
      ensures geRow.subPackvX1 == geRow.subPackvY1 == geCol.subPackvX1 == geCol.subPackvY1 == packvCntl
      ensures geRow.subPackmC11 == geCol.subPackmC11 == packmCntlNoscale
      ensures geRow.subUnpackmC11 == geCol.subUnpackmC11 == unpackmCntl
    {
    }

    /** The row and column blocked trees share no variant, no leaf and, when
        the two ger trees are distinct objects, no rank-1 delegate. */
    lemma RowColDisjoint()
      requires Valid()
      ensures geRow.varNum != geCol.varNum
      ensures geRow.subHer2 != geCol.subHer2
      ensures gerCntlRpBsRow != gerCntlCpBsCol ==>
                geRow.subGerRp != geCol.subGerRp && geRow.subGerRp != geCol.subGerCp &&
                geRow.subGerCp != geCol.subGerRp && geRow.subGerCp != geCol.subGerCp
    {
    }

    /** Every tree in the registry is well formed, and every one
        with an unpack node also has a matrix pack node. */
    lemma TreesWellFormed()
      requires Valid()
      ensures forall t :: t in Trees() ==> WellFormed(t.View()) && PackingPaired(t.View())
    {
    }

    /** Following sub_her2 within the registry, a blocked tree reaches its
        own leaf in one step and the leaf ends the chain. */
    lemma BottomsOut(o: StorageOrder)
      requires Valid()
      ensures Full(o) != null && Leaf(o) != null
      ensures DelegateChain(Leaf(o), Trees()) == [Leaf(o)]
      ensures DelegateChain(Full(o), Trees()) == [Full(o), Leaf(o)]
      ensures Leaf(o).implType == UnbFused
    {
    }
  }

  /** Fetching the blocked tree and the base-case tree of one order from an
      initialised registry: the blocked tree's sub_her2 is that same
      base-case object, not merely a node with equal fields. */
  method FetchedLeafIsDelegate(r: Registry, o: StorageOrder) returns (full: Her2, leaf: Her2)
    requires r.Valid()
    ensures full == r.Full(o) && leaf == r.Leaf(o)
    ensures full.implType == Blocked && leaf.implType == UnbFused
    ensures full.varNum == leaf.varNum == VariantFor(o)
    ensures full.subHer2 == leaf
  {
    full := r.Tree(o, true);
    leaf := r.Tree(o, false);
  }

  /** A whole lifecycle: the globals start null, bl2_her2_cntl_init builds
      them and bl2_her2_cntl_finalize then frees exactly the four trees,
      keeping her2_mc. */
  method Lifecycle(packvCntl: Packv, packmCntlNoscale: Packm, unpackmCntl: Unpackm,
                   gerCntlRpBsRow: Ger, gerCntlCpBsCol: Ger)
    returns (r: Registry)
    ensures r.keRow != null && r.keCol != null && r.geRow != null && r.geCol != null
    ensures r.freed == {r.keRow, r.keCol, r.geRow, r.geCol}
    ensures |r.freed| == 4
    ensures r.her2Mc != null && r.her2Mc !in r.freed
  {
    r := new Registry(packvCntl, packmCntlNoscale, unpackmCntl,
                      gerCntlRpBsRow, gerCntlCpBsCol);
    r.Init();
    r.Finalize();
  }

  /** Re-initialising a leaf in place changes what its blocked tree sees
      through the unchanged reference, and changes no other node. */
  method ReinitLeafSeenByParent(r: Registry, o: StorageOrder, f: Fields)
    requires r.Valid()
    modifies r.Leaf(o)
    ensures r.Full(o) == old(r.Full(o)) && r.Full(o).subHer2 == r.Leaf(o)
    ensures r.Full(o).subHer2.View() == f
    ensures r.Full(o).View() == old(r.Full(o).View())
    ensures r.Leaf(if o == Row then Col else Row).View() ==
            old(r.Leaf(if o == Row then Col else Row).View())
  {
    var leaf := r.Leaf(o);
    ObjInit(leaf, f.implType, f.varNum, f.b, f.subPackvX1, f.subPackvY1,
            f.subPackmC11, f.subGerRp, f.subGerCp, f.subHer2, f.subUnpackmC11);
  }
}
