/**
 * Init's local RAM allocator (usr/init/mem_alloc.c): the forwarding
 * functions over the global memory manager `aos_mm`, its set-up, and the walk
 * over the boot-info memory regions that hands every Empty region to
 * `mm_add`.
 *
 * The global `aos_mm` is passed explicitly as an `Mm` object. Results of
 * collaborators whose code is not modelled (`slot_prealloc_init`,
 * `cap_direct_identify`, `ram_alloc_set`, and `mm_add` inside the walk) are
 * inputs.
 */
module MemAlloc {
  import opened Wrappers
  import opened Errors
  import opened Caps
  import opened MM

  /** `mem_avail` is a `uint64_t`: additions wrap modulo 2^64. */
  const U64Modulus: nat := 0x1_0000_0000_0000_0000

  /** `enum region_type`, reduced to the value the walk tests for. */
  datatype RegionType = RegionTypeEmpty | OtherRegionType(tag: nat)

  /** One entry of `bi->regions` (`struct mem_region`). */
  datatype MemRegion = MemRegion(mrBase: nat, mrBytes: nat, mrType: RegionType)

  /** One call `mm_add(&aos_mm, cap, base, size)` made by the walk. */
  datatype MmAddCall = MmAddCall(cap: CapRef, base: nat, size: nat)

  /** How a set-up step ends: it returns an error value, or it panics. */
  datatype InitOutcome = Returned(err: ErrVal) | Panicked(err: ErrVal)

  // ---------------------------------------------------------------------
  // Specification of the region walk.
  // ---------------------------------------------------------------------

  /** The Empty regions of `regions`, in order. */
  function EmptyRegions(regions: seq<MemRegion>): (empty: seq<MemRegion>)
    decreases |regions|
  {
    if regions == [] then []
    else
      var last := regions[|regions| - 1];
      EmptyRegions(regions[..|regions| - 1]) + (if last.mrType == RegionTypeEmpty then [last] else [])
  }

  /**
   * The `mm_add` calls the walk makes: one per Empty region, in order, the
   * slot of `mem_cap` advancing once per call.
   */
  function AddCalls(cnode: CNodeRef, regions: seq<MemRegion>): (calls: seq<MmAddCall>)
    decreases |regions|
  {
    if regions == [] then []
    else
      var earlier := AddCalls(cnode, regions[..|regions| - 1]);
      var last := regions[|regions| - 1];
      if last.mrType == RegionTypeEmpty
      then earlier + [MmAddCall(CapRef(cnode, |earlier|), last.mrBase, last.mrBytes)]
      else earlier
  }

  /**
   * The bytes of the regions the walk reports as added: those of the Empty
   * regions whose `mm_add` succeeded (`outcomes[i]` is what `mm_add`
   * returned for region `i`), before the 64-bit wrap.
   */
  function BytesAdded(regions: seq<MemRegion>, outcomes: seq<ErrVal>): (bytes: nat)
    requires |outcomes| == |regions|
    decreases |regions|
  {
    if regions == [] then 0
    else
      var n := |regions| - 1;
      BytesAdded(regions[..n], outcomes[..n])
        + (if regions[n].mrType == RegionTypeEmpty && IsOk(outcomes[n]) then regions[n].mrBytes else 0)
  }

  /** The total size of a sequence of regions. */
  function TotalBytes(regions: seq<MemRegion>): (total: nat)
    decreases |regions|
  {
    if regions == [] then 0 else TotalBytes(regions[..|regions| - 1]) + regions[|regions| - 1].mrBytes
  }

  /** Exactly the Empty regions are kept: nothing else, and none of them left out. */
  lemma {:induction false} EmptyRegionsExactly(regions: seq<MemRegion>)
    ensures |EmptyRegions(regions)| <= |regions|
    ensures forall r :: r in EmptyRegions(regions) ==> r in regions && r.mrType == RegionTypeEmpty
    ensures forall r :: r in regions && r.mrType == RegionTypeEmpty ==> r in EmptyRegions(regions)
    ensures forall r :: multiset(EmptyRegions(regions))[r]
                        == (if r.mrType == RegionTypeEmpty then multiset(regions)[r] else 0)
    decreases |regions|
  {
    if regions != [] {
      var n := |regions| - 1;
      EmptyRegionsExactly(regions[..n]);
      assert regions == regions[..n] + [regions[n]];
    }
  }

  /**
   * The `k`-th call (counting from 0) adds the `k`-th Empty region, with
   * capability slot `k` in `cnode`.
   */
  lemma {:induction false} AddCallsFollowEmptyRegions(cnode: CNodeRef, regions: seq<MemRegion>)
    ensures |AddCalls(cnode, regions)| == |EmptyRegions(regions)|
    ensures forall k :: 0 <= k < |AddCalls(cnode, regions)| ==>
              AddCalls(cnode, regions)[k]
              == MmAddCall(CapRef(cnode, k), EmptyRegions(regions)[k].mrBase, EmptyRegions(regions)[k].mrBytes)
    decreases |regions|
  {
    if regions != [] {
      AddCallsFollowEmptyRegions(cnode, regions[..|regions| - 1]);
    }
  }

  /**
   * Walking one more region: a failed add, or a region that is not Empty,
   * changes nothing; a successful add of an Empty region adds its bytes.
   */
  lemma FailedAddLeavesBytes(regions: seq<MemRegion>, outcomes: seq<ErrVal>, r: MemRegion, outcome: ErrVal)
    requires |outcomes| == |regions|
    ensures IsFail(outcome) || r.mrType != RegionTypeEmpty ==>
              BytesAdded(regions + [r], outcomes + [outcome]) == BytesAdded(regions, outcomes)
    ensures IsOk(outcome) && r.mrType == RegionTypeEmpty ==>
              BytesAdded(regions + [r], outcomes + [outcome]) == BytesAdded(regions, outcomes) + r.mrBytes
  {
    assert (regions + [r])[..|regions|] == regions;
    assert (outcomes + [outcome])[..|outcomes|] == outcomes;
  }

  /** If every `mm_add` fails, the walk reports no memory at all. */
  lemma {:induction false} FailedAddsAddNothing(regions: seq<MemRegion>, outcomes: seq<ErrVal>)
    requires |outcomes| == |regions|
    requires forall i :: 0 <= i < |outcomes| ==> IsFail(outcomes[i])
    ensures BytesAdded(regions, outcomes) == 0
    decreases |regions|
  {
    if regions != [] {
      var n := |regions| - 1;
      FailedAddsAddNothing(regions[..n], outcomes[..n]);
    }
  }

  /** If every `mm_add` succeeds, the walk reports the total size of the Empty regions. */
  lemma {:induction false} SuccessfulAddsAddAllEmpty(regions: seq<MemRegion>, outcomes: seq<ErrVal>)
    requires |outcomes| == |regions|
    requires forall i :: 0 <= i < |outcomes| ==> IsOk(outcomes[i])
    ensures BytesAdded(regions, outcomes) == TotalBytes(EmptyRegions(regions))
    decreases |regions|
  {
    if regions != [] {
      var n := |regions| - 1;
      SuccessfulAddsAddAllEmpty(regions[..n], outcomes[..n]);
      TotalBytesAppend(EmptyRegions(regions[..n]), if regions[n].mrType == RegionTypeEmpty then [regions[n]] else []);
    }
  }

  /** Whatever the outcomes, the walk never reports more than the Empty regions hold. */
  lemma {:induction false} BytesAddedBounded(regions: seq<MemRegion>, outcomes: seq<ErrVal>)
    requires |outcomes| == |regions|
    ensures BytesAdded(regions, outcomes) <= TotalBytes(EmptyRegions(regions))
    decreases |regions|
  {
    if regions != [] {
      var n := |regions| - 1;
      BytesAddedBounded(regions[..n], outcomes[..n]);
      TotalBytesAppend(EmptyRegions(regions[..n]), if regions[n].mrType == RegionTypeEmpty then [regions[n]] else []);
    }
  }

  lemma {:induction false} TotalBytesAppend(a: seq<MemRegion>, b: seq<MemRegion>)
    ensures TotalBytes(a + b) == TotalBytes(a) + TotalBytes(b)
    decreases |b|
  {
    if b != [] {
      var n := |b| - 1;
      assert (a + b)[..|a + b| - 1] == a + b[..n];
      TotalBytesAppend(a, b[..n]);
    } else {
      assert a + b == a;
    }
  }

  /**
   * The memory manager of lib/mm/mm.c answers every `mm_add` with
   * LIB_ERR_NOT_IMPLEMENTED, so with it the walk reports no memory.
   */
  lemma StubbedMmAddsNothing(regions: seq<MemRegion>)
    ensures BytesAdded(regions, seq(|regions|, _ => NotImplemented)) == 0
  {
    FailedAddsAddNothing(regions, seq(|regions|, _ => NotImplemented));
  }

  // ---------------------------------------------------------------------
  // The operations.
  // ---------------------------------------------------------------------

  /**
   * `aos_ram_alloc_aligned`: forwards size and alignment unchanged to
   * `mm_alloc_aligned` on `aos_mm`. `call` is the request that call received.
   */
  method AosRamAllocAligned(aosMm: Mm, retcap: CapRef, size: nat, alignment: nat)
    returns (r: AllocOutcome, call: AllocAlignedCall)
    ensures call.size == size && call.alignment == alignment && call.retcap == retcap
    ensures r == AllocAlignedOutcome(size, alignment, retcap)
  {
    r, call := aosMm.AllocAligned(size, alignment, retcap);
  }

  /**
   * `aos_ram_free`: identifies `cap` (`identifyErr` and `identified` are
   * what `cap_direct_identify` returned) and, unless that failed, frees
   * the identified range from `aos_mm`. `freed` is the request `mm_free`
   * received, `None` when it was not called.
   */
  method AosRamFree(aosMm: Mm, cap: CapRef, identifyErr: ErrVal, identified: Capability)
    returns (err: ErrVal, freed: Option<FreeCall>)
    ensures IsFail(identifyErr) ==> err == identifyErr && freed.None?
    ensures IsOk(identifyErr) ==> freed == Some(FreeCall(cap, identified.address, identified.size))
    ensures IsOk(identifyErr) ==> err == NotImplemented
  {
    if IsFail(identifyErr) {
      return identifyErr, None;
    }
    var call;
    err, call := aosMm.Free(cap, identified.address, identified.size);
    freed := Some(call);
  }

  /**
   * `initialize_ram_allocator`: sets up the slot allocator (its result is
   * `slotInitErr`), then `aos_mm`, panicking if `mm_init` fails. Since the
   * modelled `mm_init` always fails, a successful slot set-up always ends in
   * the panic. The static slab buffer handed to `slab_grow` is not modelled.
   */
  method InitializeRamAllocator(aosMm: Mm, slotInitErr: ErrVal) returns (r: InitOutcome)
    requires aosMm.Valid()
    modifies aosMm
    ensures aosMm.Valid()
    ensures IsFail(slotInitErr) ==> r == Returned(Push(slotInitErr, MmErrSlotAllocInit)) && unchanged(aosMm)
    ensures IsOk(slotInitErr) ==>
              && aosMm.objtype == ObjTypeRAM && aosMm.slabs == Slabs(None)
              && aosMm.slotAlloc == Some(FuncRef("slot_alloc_prealloc"))
              && aosMm.slotRefill == Some(FuncRef("slot_prealloc_refill"))
              && aosMm.slotAllocInst == Some(InstRef("init_slot_alloc"))
              && aosMm.List() == []
              && r == Panicked(NotImplemented)
  {
    if IsFail(slotInitErr) {
      return Returned(Push(slotInitErr, MmErrSlotAllocInit));
    }
    var err := aosMm.Init(ObjTypeRAM, None, Some(FuncRef("slot_alloc_prealloc")),
                          Some(FuncRef("slot_prealloc_refill")), Some(InstRef("init_slot_alloc")));
    r := if IsFail(err) then Panicked(err) else Returned(SysErrOk);
  }

  /**
   * The walk over `bi->regions` in `initialize_ram_alloc`: every Empty region
   * is handed to `mm_add` with the next slot of `cnode_super`, and the slot
   * advances whether or not the add succeeded; `mem_avail` sums the bytes of
   * the successful adds. `addOutcomes[i]` is what `mm_add` returns for
   * region `i`; `calls` are the `mm_add` calls made, in order.
   */
  method AddBootRegions(cnodeSuper: CNodeRef, regions: seq<MemRegion>, addOutcomes: seq<ErrVal>)
    returns (memAvail: nat, memCap: CapRef, calls: seq<MmAddCall>)
    requires |addOutcomes| == |regions|
    ensures calls == AddCalls(cnodeSuper, regions)
    ensures memCap == CapRef(cnodeSuper, |EmptyRegions(regions)|)
    ensures memAvail == BytesAdded(regions, addOutcomes) % U64Modulus
  {
    memAvail := 0;
    memCap := CapRef(cnodeSuper, 0);
    calls := [];
    var i := 0;
    while i < |regions|
      invariant 0 <= i <= |regions|
      invariant calls == AddCalls(cnodeSuper, regions[..i])
      invariant |calls| == |EmptyRegions(regions[..i])|
      invariant memCap == CapRef(cnodeSuper, |calls|)
      invariant memAvail == BytesAdded(regions[..i], addOutcomes[..i]) % U64Modulus
    {
      assert regions[..i + 1][..i] == regions[..i];
      assert addOutcomes[..i + 1][..i] == addOutcomes[..i];
      if regions[i].mrType == RegionTypeEmpty {
        var err := addOutcomes[i];
        calls := calls + [MmAddCall(memCap, regions[i].mrBase, regions[i].mrBytes)];
        if IsOk(err) {
          memAvail := (memAvail + regions[i].mrBytes) % U64Modulus;
        }
        memCap := memCap.(slot := memCap.slot + 1);
      }
      i := i + 1;
    }
    assert regions[..i] == regions;
    assert addOutcomes[..i] == addOutcomes;
  }

  /**
   * `initialize_ram_alloc`, from the point where `initialize_ram_allocator`
   * has returned `allocatorErr` (had it panicked, nothing here would run):
   * an error is passed on; otherwise the regions are walked and the local
   * allocator is installed with `ram_alloc_set` (its result is
   * `ramAllocSetErr`), whose failure is pushed with LIB_ERR_RAM_ALLOC_SET.
   */
  method InitializeRamAlloc(allocatorErr: ErrVal, cnodeSuper: CNodeRef, regions: seq<MemRegion>,
                            addOutcomes: seq<ErrVal>, ramAllocSetErr: ErrVal)
    returns (err: ErrVal, memAvail: nat, calls: seq<MmAddCall>)
    requires |addOutcomes| == |regions|
    ensures IsFail(allocatorErr) ==> err == allocatorErr && calls == []
    ensures IsOk(allocatorErr) ==>
              && calls == AddCalls(cnodeSuper, regions)
              && memAvail == BytesAdded(regions, addOutcomes) % U64Modulus
              && err == (if IsFail(ramAllocSetErr) then Push(ramAllocSetErr, LibErrRamAllocSet) else SysErrOk)
  {
    if IsFail(allocatorErr) {
      return allocatorErr, 0, [];
    }
    var memCap;
    memAvail, memCap, calls := AddBootRegions(cnodeSuper, regions, addOutcomes);
    if IsFail(ramAllocSetErr) {
      return Push(ramAllocSetErr, LibErrRamAllocSet), memAvail, calls;
    }
    err := SysErrOk;
  }
}
