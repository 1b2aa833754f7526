/**
 * The physical-memory manager of lib/mm/mm.c: an instance (`struct mm`) that
 * records its configuration and keeps a singly threaded list of nodes
 * (`struct mmnode`), aligned allocation and freeing being stubs.
 *
 * The nodes live in an arena: `nodes` holds every node the instance ever
 * allocated, addressed by index, and `prev`/`next`/`head` are indices into it
 * (`None` is NULL). A node is only ever linked to nodes allocated before it,
 * so following `next` from `head` always terminates.
 */
module MM {
  import opened Wrappers
  import opened Errors
  import opened Caps

  /** `enum objtype`, reduced to the values the modelled code uses. */
  datatype ObjType = ObjTypeNull | ObjTypeRAM | OtherObjType(tag: nat)

  /** A C function pointer or an opaque `void *`, named by the C symbol it points to. */
  datatype FuncRef = FuncRef(symbol: string)
  datatype InstRef = InstRef(symbol: string)

  /** The slab allocator for node records: only the refill function `slab_init` records is kept. */
  datatype Slabs = SlabsUninitialised | Slabs(refill: Option<FuncRef>)

  datatype NodeType = NodeTypeFree | NodeTypeAllocated

  /** `struct capinfo`: the capability a node is carved from, with its range. */
  datatype CapInfo = CapInfo(cap: CapRef, base: nat, size: nat)

  /** `struct mmnode`, with `prev` and `next` as arena indices. */
  datatype MmNode = MmNode(
    nodeType: NodeType,
    cap: CapInfo,
    prev: Option<nat>,
    next: Option<nat>,
    base: nat,
    size: nat)

  /** `BASE_PAGE_SIZE` on ARMv8 (4 KiB pages). */
  const BasePageSize: nat := 4096

  /** A link of node `i`: NULL, or a node allocated before `i`. */
  predicate LinksBackward(link: Option<nat>, i: nat) {
    link.None? || link.value < i
  }

  /**
   * The arena is well formed when `head` names an existing node and every
   * `next` link points to an older node. The list is singly threaded: no
   * node has a `prev` link, since the only write to `prev` stores NULL.
   */
  predicate WellLinked(nodes: seq<MmNode>, head: Option<nat>) {
    && LinksBackward(head, |nodes|)
    && (forall i :: 0 <= i < |nodes| ==> LinksBackward(nodes[i].next, i))
    && (forall i :: 0 <= i < |nodes| ==> nodes[i].prev.None?)
  }

  /** The list reached from `h` by following `next`, head first. */
  function ListFrom(nodes: seq<MmNode>, h: Option<nat>): (list: seq<MmNode>)
    requires WellLinked(nodes, h)
    decreases if h.Some? then h.value + 1 else 0
  {
    if h.None? then []
    else [nodes[h.value]] + ListFrom(nodes, nodes[h.value].next)
  }

  /** The node `mm_add(mm, cap, base, size)` creates when the list head is `oldHead`. */
  function AddedNode(cap: CapRef, base: nat, size: nat, oldHead: Option<nat>): (node: MmNode) {
    MmNode(NodeTypeFree, CapInfo(cap, base, size), None, oldHead, base, size)
  }

  /** Allocating one more node leaves every list already in the arena as it was. */
  lemma {:induction false} ListFromExtend(nodes: seq<MmNode>, h: Option<nat>, x: MmNode)
    requires WellLinked(nodes, h)
    requires LinksBackward(x.next, |nodes|) && x.prev.None?
    ensures WellLinked(nodes + [x], h)
    ensures ListFrom(nodes + [x], h) == ListFrom(nodes, h)
    decreases if h.Some? then h.value + 1 else 0
  {
    var ext := nodes + [x];
    assert forall i :: 0 <= i < |ext| ==> LinksBackward(ext[i].next, i) by {
      forall i | 0 <= i < |ext| ensures LinksBackward(ext[i].next, i) {
        if i < |nodes| { assert ext[i] == nodes[i]; }
      }
    }
    assert forall i :: 0 <= i < |ext| ==> ext[i].prev.None? by {
      forall i | 0 <= i < |ext| ensures ext[i].prev.None? {
        if i < |nodes| { assert ext[i] == nodes[i]; }
      }
    }
    if h.Some? {
      assert ext[h.value] == nodes[h.value];
      ListFromExtend(nodes, nodes[h.value].next, x);
    }
  }

  /**
   * The list after `mm_add` is the new Free node, carrying `{cap, base, size}`
   * and no `prev` link, followed by exactly the previous list in order.
   */
  lemma AddPrepends(nodes: seq<MmNode>, head: Option<nat>, cap: CapRef, base: nat, size: nat)
    requires WellLinked(nodes, head)
    ensures WellLinked(nodes + [AddedNode(cap, base, size, head)], Some(|nodes|))
    ensures ListFrom(nodes + [AddedNode(cap, base, size, head)], Some(|nodes|))
         == [MmNode(NodeTypeFree, CapInfo(cap, base, size), None, head, base, size)] + ListFrom(nodes, head)
  {
    var x := AddedNode(cap, base, size, head);
    ListFromExtend(nodes, head, x);
    assert (nodes + [x])[|nodes|] == x;
  }

  /** `mm_add` on an empty list yields a one-node list whose `prev` and `next` are both NULL. */
  lemma AddToEmpty(nodes: seq<MmNode>, cap: CapRef, base: nat, size: nat)
    requires WellLinked(nodes, None)
    ensures var list := ListFrom(nodes + [AddedNode(cap, base, size, None)], Some(|nodes|));
            |list| == 1 && list[0].prev.None? && list[0].next.None?
            && list[0].nodeType == NodeTypeFree && list[0].base == base && list[0].size == size
  {
    AddPrepends(nodes, None, cap, base, size);
  }

  /** An instance of the memory manager (`struct mm`). */
  class Mm {
    var slabs: Slabs
    var slotAlloc: Option<FuncRef>
    var slotRefill: Option<FuncRef>
    var slotAllocInst: Option<InstRef>
    var objtype: ObjType
    /** Index of the list head, `None` for NULL. */
    var head: Option<nat>
    /** Every node this instance has allocated, by arena index. */
    var nodes: seq<MmNode>

    /** The arena is well formed and the head, when set, is the most recently allocated node. */
    ghost predicate Valid()
      reads this
    {
      WellLinked(nodes, head) && (head.Some? ==> head.value + 1 == |nodes|)
    }

    /** The node list, head first. */
    ghost function List(): seq<MmNode>
      reads this
      requires Valid()
    {
      ListFrom(nodes, head)
    }

    /** A statically allocated instance (`struct mm aos_mm;`), zero-initialised. */
    constructor ()
      ensures Valid() && List() == [] && nodes == []
      ensures slabs == SlabsUninitialised && objtype == ObjTypeNull
      ensures slotAlloc.None? && slotRefill.None? && slotAllocInst.None? && head.None?
    {
      slabs := SlabsUninitialised;
      slotAlloc, slotRefill, slotAllocInst := None, None, None;
      objtype := ObjTypeNull;
      head := None;
      nodes := [];
    }

    /**
     * `mm_init`: records the configuration and empties the list. The source
     * returns LIB_ERR_NOT_IMPLEMENTED even though the work is done.
     */
    method Init(objtype': ObjType, slabRefillFunc: Option<FuncRef>, slotAllocFunc: Option<FuncRef>,
                slotRefillFunc: Option<FuncRef>, slotAllocInst': Option<InstRef>) returns (err: ErrVal)
      requires Valid()
      modifies this
      ensures Valid() && List() == []
      ensures slabs == Slabs(slabRefillFunc)
      ensures slotAlloc == slotAllocFunc && slotRefill == slotRefillFunc && slotAllocInst == slotAllocInst'
      ensures objtype == objtype' && head.None? && nodes == old(nodes)
      ensures err == NotImplemented
    {
      slabs := Slabs(slabRefillFunc);
      slotAlloc := slotAllocFunc;
      slotRefill := slotRefillFunc;
      slotAllocInst := slotAllocInst';
      objtype := objtype';
      head := None;
      err := NotImplemented;
    }

    /**
     * `mm_add`: allocates a Free node for `[base, base + size)` backed by
     * `cap` and links it in front of the list. No `prev` link is set, on the
     * new node or on the old head. Returns LIB_ERR_NOT_IMPLEMENTED.
     */
    method Add(cap: CapRef, base: nat, size: nat) returns (err: ErrVal)
      requires Valid()
      modifies this`head, this`nodes
      ensures Valid()
      ensures nodes == old(nodes) + [MmNode(NodeTypeFree, CapInfo(cap, base, size), None, old(head), base, size)]
      ensures head == Some(|old(nodes)|)
      ensures List() == [nodes[|old(nodes)|]] + old(List())
      ensures old(head).Some? ==> forall i :: 0 <= i < |nodes| && nodes[i].next == old(head) ==> i == |old(nodes)|
      ensures err == NotImplemented
    {
      var node := AddedNode(cap, base, size, None);
      if head == None {
        nodes := nodes + [node];
        head := Some(|nodes| - 1);
      } else {
        node := node.(next := head);
        nodes := nodes + [node];
        head := Some(|nodes| - 1);
      }
      AddPrepends(old(nodes), old(head), cap, base, size);
      err := NotImplemented;
    }

    /**
     * `mm_alloc_aligned`: a stub that leaves the instance and `*retcap`
     * alone. `call` is the request it received.
     */
    method AllocAligned(size: nat, alignment: nat, retcap: CapRef) returns (r: AllocOutcome, call: AllocAlignedCall)
      ensures r == AllocAlignedOutcome(size, alignment, retcap)
      ensures call == AllocAlignedCall(size, alignment, retcap)
    {
      r := AllocOutcome(NotImplemented, retcap);
      call := AllocAlignedCall(size, alignment, retcap);
    }

    /**
     * `mm_alloc`: `mm_alloc_aligned` at base-page alignment. `call` is the
     * request `mm_alloc_aligned` received.
     */
    method Alloc(size: nat, retcap: CapRef) returns (r: AllocOutcome, call: AllocAlignedCall)
      ensures call.size == size && call.alignment == BasePageSize && call.retcap == retcap
      ensures r == AllocAlignedOutcome(size, BasePageSize, retcap)
    {
      r, call := AllocAligned(size, BasePageSize, retcap);
    }

    /** `mm_free`: a stub that leaves the instance alone. `call` is the request it received. */
    method Free(cap: CapRef, base: nat, size: nat) returns (err: ErrVal, call: FreeCall)
      ensures err == NotImplemented
      ensures call == FreeCall(cap, base, size)
    {
      err := NotImplemented;
      call := FreeCall(cap, base, size);
    }
  }

  /** The arguments `mm_alloc_aligned` was called with. */
  datatype AllocAlignedCall = AllocAlignedCall(size: nat, alignment: nat, retcap: CapRef)

  /** The arguments `mm_free` was called with. */
  datatype FreeCall = FreeCall(cap: CapRef, base: nat, size: nat)

  /** The error an allocation returns and the value left in `*retcap`. */
  datatype AllocOutcome = AllocOutcome(err: ErrVal, retcap: CapRef)

  /** What `mm_alloc_aligned(mm, size, alignment, retcap)` does in the source. */
  function AllocAlignedOutcome(size: nat, alignment: nat, retcap: CapRef): (r: AllocOutcome)
    ensures IsFail(r.err) && r.err.stack == [LibErrNotImplemented]
    ensures r.retcap == retcap
  {
    AllocOutcome(NotImplemented, retcap)
  }
}
