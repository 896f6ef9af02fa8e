# Control trees of the BLIS her2 operation

This is a Dafny model of how BLIS builds the control trees for the Hermitian
rank-2 update (her2), in `frame/2/her2/bl2_her2_cntl.c`. A control tree is a
`her2_t` node. It holds an implementation class (unblocked-fused leaf or
blocked), a variant number, a blocksize object, and references to sub-trees:
pack nodes for the vectors x1, y1 and the matrix C11, two rank-1 update (ger)
trees, a her2 leaf tree, and an unpack node for C11.

The model has two files:

- `cntl_types.dfy` (module `CntlTypes`) holds `impl_t` and `varnum_t` as
  datatypes. It also holds the control objects of other operations
  (`blksz_t`, `packv_t`, `packm_t`, `unpackm_t`, `ger_t`) as opaque classes,
  so only their identity matters.
- `her2_cntl.dfy` (module `Her2Cntl`) holds the rest:
  - the class `Her2`, with the ten fields of `her2_t`;
  - the two factories: `ObjCreate` allocates a fresh node, and `ObjInit`
    overwrites an existing node in place;
  - the class `Registry`, which holds the file's globals. These are the
    blocksize `her2_mc`, the two leaf trees `her2_cntl_bs_ke_row/col`, the two
    blocked trees `her2_cntl_ge_row/col`, and the external control objects
    they refer to. Its `Init` and `Finalize` are `bl2_her2_cntl_init` and
    `bl2_her2_cntl_finalize`.

What `bl2_cntl_obj_free` has released is kept in a ghost set `freed`.
Freeing an object that is already in it is undefined behaviour in C, so the
model makes it a precondition. `Finalize` verifies against that
precondition, which proves that each of the four trees is freed exactly once.
`Valid()` is the state `Init` leaves behind: the four trees have the fields
that lines 72-114 give them. The lemmas on `Registry` derive the structural
properties from `Valid()`. That includes the ghost function `DelegateChain`,
which follows `sub_her2` references. Sub-tree references are compared by
object identity throughout, not by field values.

## Model

| member | source | states |
|---|---|---|
| `CntlTypes.BlkszObjCreate` | frame/2/her2/bl2_her2_cntl.c:64-67 | creating the blocksize object returns a newly allocated object |
| `Her2Cntl.ObjCreate` | frame/2/her2/bl2_her2_cntl.c:126-153 | the returned node is freshly allocated and its ten fields are exactly the ten arguments, references by identity |
| `Her2Cntl.ObjInit` | frame/2/her2/bl2_her2_cntl.c:155-177 | the given node's ten fields become exactly the arguments and no other object changes |
| `Her2Cntl.CreateMatchesInit` | frame/2/her2/bl2_her2_cntl.c:126-177 | creating one node and re-initialising another with the same arguments gives two distinct nodes with identical fields |
| `Her2Cntl.CreateWithoutPackingCheck` | frame/2/her2/bl2_her2_cntl.c:139-152 | the factory builds a blocked node that has an unpack node but no matrix pack node, so it performs no packing/unpacking consistency check |
| `Her2Cntl.DelegateChain` | frame/2/her2/bl2_her2_cntl.c:149 | following `sub_her2` inside a node set visits each node at most once, each step is the previous node's `sub_her2`, the chain is no longer than the set, and it stops only where the last node's `sub_her2` is null, outside the set or already in the chain |
| `Her2Cntl.ReinitLeafSeenByParent` | frame/2/her2/bl2_her2_cntl.c:155-177 | after a leaf is re-initialised in place, its blocked parent still refers to the same object and sees the new fields through it; the parent and the other leaf are unchanged |
| `Her2Cntl.FetchedLeafIsDelegate` | frame/2/her2/bl2_her2_cntl.c:91-114 | in an initialised registry, the two trees fetched for an order are that order's blocked and base-case trees, both with the order's variant, and the blocked tree's `sub_her2` is the very base-case object |
| `Her2Cntl.Lifecycle` | frame/2/her2/bl2_her2_cntl.c:61-123 | building the globals, initialising and then finalising frees exactly the four trees: a set of four distinct nodes. `her2_mc` stays unfreed |
| `Her2Cntl.Registry.constructor` | frame/2/her2/bl2_her2_cntl.c:37-50 | before initialisation the blocksize and the four tree globals are null and nothing is freed; the five external control objects are given |
| `Her2Cntl.Registry.Trees` | frame/2/her2/bl2_her2_cntl.c:46-50 | the registry owns four distinct trees: both leaves and both blocked trees |
| `Her2Cntl.Registry.Init` | frame/2/her2/bl2_her2_cntl.c:61-115 | leaves the registry `Valid()`: the blocksize and the four trees are freshly allocated, the leaves and blocked trees carry the fields of lines 72-114, and nothing is freed |
| `Her2Cntl.Registry.CntlObjFree` | frame/2/her2/bl2_her2_cntl.c:119-122 | freeing a node that has not been freed adds exactly that node to the freed set |
| `Her2Cntl.Registry.Finalize` | frame/2/her2/bl2_her2_cntl.c:117-123 | the freed set grows by exactly the four trees, none of which was freed before; `her2_mc` is not freed |
| `Her2Cntl.Registry.Tree` | frame/2/her2/bl2_her2_cntl.c:46-50 | the pre-built tree for a storage order, blocked or base case, is one of the four trees. It has the matching implementation class and the order's variant (row gives var1, column gives var4). If it is blocked, its `sub_her2` is the leaf of the same order |
| `Her2Cntl.Registry.LeavesTerminal` | frame/2/her2/bl2_her2_cntl.c:72-85 | both leaves are `BLIS_UNB_FUSED` with every reference field null; the row leaf uses var1 and the column leaf var4 |
| `Her2Cntl.Registry.BlockedShape` | frame/2/her2/bl2_her2_cntl.c:91-114 | each blocked tree is `BLIS_BLOCKED` with its order's variant and `b == her2_mc`. Both of its ger slots hold its order's ger tree. Its `sub_her2` is the very leaf node of its order |
| `Her2Cntl.Registry.SharedSubObjects` | frame/2/her2/bl2_her2_cntl.c:95-114 | the two blocked trees share `her2_mc`. Both vector pack slots of both trees hold `packv_cntl`, both matrix pack slots hold `packm_cntl_noscale`, and both unpack slots hold `unpackm_cntl` |
| `Her2Cntl.Registry.RowColDisjoint` | frame/2/her2/bl2_her2_cntl.c:91-114 | the row and column blocked trees have different variants and different leaves; when the two external ger trees are distinct objects, the two blocked trees share no ger delegate |
| `Her2Cntl.Registry.TreesWellFormed` | frame/2/her2/bl2_her2_cntl.c:72-114 | every tree of the registry is well formed: a leaf refers to nothing, a blocked tree has a blocksize and a leaf delegate. Every tree with an unpack node also has a matrix pack node |
| `Her2Cntl.Registry.BottomsOut` | frame/2/her2/bl2_her2_cntl.c:72-114 | within the registry, the chain from a blocked tree is the tree followed by its own leaf, and the leaf, a fused kernel, ends the chain |

## Left out

- The test drivers `testsuite/src/test_ger.c` and `testsuite/src/test_scal2v.c` are not part of this model. They cover floating-point residual checks, timing loops, random operands and calls into numeric routines defined elsewhere in the library.
- `bl2_blksz_obj_create`, `bl2_malloc` and `bl2_cntl_obj_free` are foreign calls. The first two are modelled as a fresh allocation and the third as insertion into the ghost `freed` set. The four blocksize values (`BLIS_DEFAULT_L2_MC_S/D/C/Z`) have no meaning in the model.
- `Her2Cntl.ObjCreate`: does not model `bl2_malloc` returning NULL. The C code does not check for it, so the model assumes allocation succeeds.
- `packv_cntl`, `packm_cntl_noscale`, `unpackm_cntl`, `ger_cntl_rp_bs_row` and `ger_cntl_cp_bs_col` are defined in other files. The model receives them as given non-null objects.
- `impl_t` and `varnum_t` are declared in headers that are not part of this model. `Impl` has only the two enumerators this file uses, and `VarNum` has four variants.
- The model does not cover executing or walking the trees: the blocked variants, the packing decisions and the kernels. `DelegateChain` is a ghost observation of the structure, not an execution.
- The model leaves out concurrent readers of the built trees.
- Neither factory detects cycles, and the model adds no such check. `DelegateChain` stays defined on cyclic structures because it never visits a node twice.
- The file does not guard against calling `bl2_her2_cntl_init` twice. `Registry.Init` has no precondition, so a second call replaces the globals and leaks the earlier trees without freeing them.
- `bl2_her2_cntl_finalize` frees the four trees but never `her2_mc`, so the blocksize object that `bl2_her2_cntl_init` creates is never released. `Registry.Finalize` states that `her2_mc` is not freed.
- `bl2_her2_cntl_obj_create` does not check that a node with an unpack node also has a matrix pack node. `CreateWithoutPackingCheck` builds such a node.
