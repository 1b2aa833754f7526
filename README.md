# Model of the AOS physical-memory manager, init's RAM bootstrap and the AOS message formats

This project models five small parts of an AOS (Barrelfish-based) teaching
operating system and proves properties of the model in Dafny 4.11.

- **The memory manager** (`lib/mm/mm.c`, module `MM`). An instance of
  `struct mm` is the class `MM.Mm`. `mm_init` records the object type, the
  slab refill function and the slot-allocator functions, and empties the node
  list. `mm_add` links a new Free node, carrying `{cap, base, size}`, in front
  of the list. Aligned allocation and freeing are stubs. Nodes live in an
  arena (`nodes`, addressed by index). `head`, `prev` and `next` are indices
  into it, and `None` stands for NULL. `MM.ListFrom` gives the list reached
  from the head. Every `errval_t`-returning function of this file returns
  `LIB_ERR_NOT_IMPLEMENTED`, including `mm_init` and `mm_add` after they have
  done their work. The model keeps that. `mm_destroy` returns nothing.
- **Init's RAM bootstrap** (`usr/init/mem_alloc.c`, module `MemAlloc`).
  - `aos_ram_alloc_aligned` and `aos_ram_free` forward to the global
    instance `aos_mm`, which is passed in explicitly as an `Mm` object.
  - `initialize_ram_allocator` sets that instance up.
  - The walk over the boot-info regions in `initialize_ram_alloc` hands every
    Empty region to `mm_add`, each with the next slot of the super CNode, and
    sums the bytes of the adds that succeeded in a 64-bit `mem_avail`.
    `MemAlloc.AddBootRegions` is this loop. It is proved against the recursive
    specification functions `EmptyRegions`, `AddCalls` and `BytesAdded`.
- **The LMP header word** (`include/aos/aos_lmp.h`, module `AosLmp`). An
  8-bit type goes in bits 24-31 and a 24-bit length in bits 0-23 of a 32-bit
  word. There is one packing function and two extractors, all on `bv32`.
- **The UMP flags byte and channel** (`include/aos/aos_ump.h`, module
  `AosUmp`).
  - Bits 7, 6 and 5 of the flags byte are the full, fragment and last flags.
    Bits 0-4 are the length.
  - A channel is 31 packet bytes followed by the flags byte.
  - `urpc_wait` and `urpc_reply` pick the channel of a pair they use.
- **The AOS message layout** (`include/aos/aos_msg_def.h`, module
  `AosMsgDef`).
  - The module covers the size constants and the four-field header union,
    encoded into and decoded from one 64-bit word, plus the static size
    assertions on raw and string messages.
  - Bit-fields are assumed to be laid out least-significant bit first:
    `msgtype` bits 0-7, `length` bits 8-61, `fragment` bit 62, `last` bit 63.
    This is an assumption of the model, not something the header states.
  - This header is a different layout from the 32-bit LMP word. The two
    models are kept apart.

Supporting modules:
- `Errors` models `errval_t` as a stack of error codes. `err_push` puts a code
  on top. The empty stack is `SYS_ERR_OK`.
- `Caps` models `struct capref` and the result of identifying a capability.
- `Wrappers` holds `Option`, which stands for a possibly NULL pointer.

Collaborators whose code is not part of this model are represented by the
results they return, passed in as inputs. These are `slot_prealloc_init`,
`cap_direct_identify`, `ram_alloc_set`, and `mm_add` as called from the region
walk. `LMP_MSG_LENGTH` is a parameter, and so is `cnode_super`.

Points where the code and its comments disagree, and how the model reads them:
- `mm_add` dereferences two uninitialised pointers (lib/mm/mm.c:35, 40). The
  model reads them as a freshly allocated node record.
- `mm_init` always returns `LIB_ERR_NOT_IMPLEMENTED`. As written,
  `initialize_ram_allocator` therefore panics whenever the slot allocator was
  set up successfully, and the region walk is never reached.
  - `MemAlloc.InitializeRamAllocator` states this panic.
  - `MemAlloc.InitializeRamAlloc` takes the allocator's returned error as an
    input, so the walk can be stated for a set-up that returns.
  - `MemAlloc.StubbedMmAddsNothing` shows that with this `mm_add` the walk
    would report no memory.
- The static assertion on `AOS_MSGTYPE_MAX` checks `< 256`, but its message
  says "less than 128". The value is 81, so both hold.
- The comment at include/aos/aos_msg_def.h:159 calls the header "one 32-bit
  word". Its bit-fields total 64 bits, and `aos_lmp.h` asserts a 4-byte
  `uintptr_t`. The message-layout model uses 64-bit words and the LMP model
  uses 32-bit words.
- The two headers cannot both hold. include/aos/aos_lmp.h:25 includes
  `aos_msg_def.h`, whose 54-bit `uintptr_t` bit-field (line 189) and size
  assertion (line 198) need an 8-byte `uintptr_t`. Wherever both compile, the
  assertion `sizeof(uintptr_t) == 4` at include/aos/aos_lmp.h:62 fails on
  every call of `aos_chan_msg_set_type_and_length`, unless assertions are
  disabled. `AosLmp.SetTypeAndLength` models the packing as the code writes
  it, on a 32-bit word.

## Model

| member | source | states |
|---|---|---|
| `Errors.Push` | usr/init/mem_alloc.c:48 | `err_push(err, code)` gives a failing error with `code` on top and exactly `err`'s codes beneath it, so the cause is kept |
| `MM.Mm.constructor` | usr/init/mem_alloc.c:12 | a statically allocated instance starts with an empty list, no configuration and no nodes |
| `MM.Mm.Init` | lib/mm/mm.c:12-26 | after `mm_init` the list is empty; slabs record the refill function; slot_alloc, slot_refill, slot_alloc_inst and objtype equal the arguments; result is LIB_ERR_NOT_IMPLEMENTED |
| `MM.Mm.Add` | lib/mm/mm.c:33-55 | the arena gains exactly one Free node `{cap, base, size}` with no prev link whose next is the old head; older nodes are untouched; head is the new node; the list is the new node followed by the old list; only the new node links to the old head; result is LIB_ERR_NOT_IMPLEMENTED |
| `MM.ListFromExtend` | lib/mm/mm.c:40-46 | allocating a new node record leaves every list already in the arena unchanged and well linked |
| `MM.AddPrepends` | lib/mm/mm.c:36-53 | after `mm_add` the head node is Free with the given base, size and capinfo and no prev link, and the nodes after it are exactly the previous list in order |
| `MM.AddToEmpty` | lib/mm/mm.c:43-49 | `mm_add` on an empty list gives a one-node Free list whose prev and next are both NULL |
| `MM.AllocAlignedOutcome` | lib/mm/mm.c:58-61 | `mm_alloc_aligned` fails with exactly LIB_ERR_NOT_IMPLEMENTED and leaves `*retcap` as it was |
| `MM.Mm.AllocAligned` | lib/mm/mm.c:58-61 | the stub returns the outcome above for any size and alignment, reports the request it received, and changes nothing |
| `MM.Mm.Alloc` | lib/mm/mm.c:63-66 | `mm_alloc(mm, s, r)` calls `mm_alloc_aligned` with size `s`, alignment BASE_PAGE_SIZE (4096) and slot `r`, and has exactly its outcome |
| `MM.Mm.Free` | lib/mm/mm.c:69-72 | `mm_free` returns LIB_ERR_NOT_IMPLEMENTED, reports the request it received, and changes nothing |
| `MemAlloc.AosRamAllocAligned` | usr/init/mem_alloc.c:14-17 | `mm_alloc_aligned` receives the same size, alignment and return slot, and its outcome is returned |
| `MemAlloc.AosRamFree` | usr/init/mem_alloc.c:19-30 | a failed identification is returned as is and `mm_free` is not called; otherwise `mm_free` receives the capability with the identified address and size, and its result is returned |
| `MemAlloc.InitializeRamAllocator` | usr/init/mem_alloc.c:32-64 | a slot-allocator failure is returned pushed with MM_ERR_SLOT_ALLOC_INIT and `aos_mm` is untouched (mm_init not reached); otherwise `aos_mm` is configured for RAM with the prealloc slot functions and instance, and the failing `mm_init` ends in a panic |
| `MemAlloc.AddBootRegions` | usr/init/mem_alloc.c:79-97 | the loop calls `mm_add` exactly as `AddCalls` says, ends with the slot after the last Empty region, and `mem_avail` is the bytes of the successful adds modulo 2^64 |
| `MemAlloc.InitializeRamAlloc` | usr/init/mem_alloc.c:70-110 | a set-up error is returned before any region is walked; otherwise the walk is as above and a `ram_alloc_set` failure is pushed with LIB_ERR_RAM_ALLOC_SET, success giving SYS_ERR_OK |
| `MemAlloc.EmptyRegionsExactly` | usr/init/mem_alloc.c:86-88 | the regions handed to `mm_add` are exactly the Empty regions: no other type, and none of them skipped; each Empty region occurs among them exactly as often as in `bi->regions` and no other region occurs at all |
| `MemAlloc.AddCallsFollowEmptyRegions` | usr/init/mem_alloc.c:81-95 | the k-th `mm_add` call (from 0) adds the k-th Empty region's base and size with capability slot k, whatever the earlier adds returned |
| `MemAlloc.FailedAddLeavesBytes` | usr/init/mem_alloc.c:89-93 | one more region whose add fails, or which is not Empty, leaves the reported bytes unchanged; one whose add succeeds adds exactly its bytes |
| `MemAlloc.FailedAddsAddNothing` | usr/init/mem_alloc.c:89-93 | failed adds contribute nothing: if every add fails, `mem_avail` stays 0 |
| `MemAlloc.SuccessfulAddsAddAllEmpty` | usr/init/mem_alloc.c:80-90 | if every add succeeds, the bytes summed before the 64-bit wrap are the total size of the Empty regions, so the reported `mem_avail` is that total modulo 2^64 |
| `MemAlloc.BytesAddedBounded` | usr/init/mem_alloc.c:80-93 | whatever the outcomes, the reported bytes never exceed the total size of the Empty regions |
| `MemAlloc.StubbedMmAddsNothing` | lib/mm/mm.c:54 | with the modelled `mm_add`, which always fails, the walk reports no memory |
| `AosLmp.SetTypeAndLength` | include/aos/aos_lmp.h:57-65 | for a type below 256, the packed word's top eight bits are the type and its low 24 bits are the low 24 bits of the length |
| `AosLmp.ExtractType` | include/aos/aos_lmp.h:67-70 | the extracted type of any 32-bit word is below 256 |
| `AosLmp.ExtractSize` | include/aos/aos_lmp.h:72-75 | the extracted size of any 32-bit word is below 2^24 |
| `AosLmp.TypeRoundTrip` | include/aos/aos_lmp.h:57-70 | for a type below 256, extracting the type of a packed word gives it back for every length |
| `AosLmp.SizeRoundTrip` | include/aos/aos_lmp.h:57-75 | extracting the size of a packed word gives `len & 0xffffff`, so lengths of 2^24 or more truncate and shorter ones come back intact |
| `AosLmp.FieldsDisjoint` | include/aos/aos_lmp.h:64 | the type bits and the masked length bits never overlap, and the two fields cover the word |
| `AosLmp.WordRoundTrip` | include/aos/aos_lmp.h:64-75 | every 32-bit word is the packing of its own extracted type and size |
| `AosLmp.PackingInjective` | include/aos/aos_lmp.h:57-64 | equal packed words come from the same type and the same truncated length |
| `AosUmp.UrpcFull` | include/aos/aos_ump.h:13-17 | `URPC_FULL` is the bit-7 mask or zero, nonzero exactly when the byte is at least 0x80 |
| `AosUmp.UrpcFrag` | include/aos/aos_ump.h:14-18 | `URPC_FRAG` is the bit-6 mask or zero |
| `AosUmp.UrpcLast` | include/aos/aos_ump.h:15-19 | `URPC_LAST` is the bit-5 mask or zero |
| `AosUmp.UrpcLength` | include/aos/aos_ump.h:7-20 | `URPC_LENGTH` is the flags byte modulo 32, never more than `URPC_BYTES` (31) |
| `AosUmp.MasksDisjoint` | include/aos/aos_ump.h:13-20 | the three flags are bits 7, 6 and 5, pairwise disjoint and disjoint from the length mask, and all four fill the byte |
| `AosUmp.FlagsDecompose` | include/aos/aos_ump.h:10-20 | every flags byte is the union of its three flags and its length |
| `AosUmp.LastFragmentFlags` | include/aos/aos_ump.h:13-20 | for n at most 31, the bitwise or of `URPC_F_FULL`, `URPC_F_LAST` and n decodes with length n, full and last set and fragment clear |
| `AosUmp.SpawnNameFits` | include/aos/aos_ump.h:7-8 | `SPAWN_NAME_MAX` is `URPC_BYTES - 2`, that is 29 |
| `AosUmp.ChannelBytes` | include/aos/aos_ump.h:6-25 | a channel occupies 32 bytes (one cache line), the flags byte at offset 31 |
| `AosUmp.ChannelOfBytes` | include/aos/aos_ump.h:22-25 | a 32-byte line read as a channel gives a 31-byte packet holding the line's first 31 bytes and the flags byte at offset 31 |
| `AosUmp.ChannelRoundTrip` | include/aos/aos_ump.h:22-25 | reading a channel back from its 32 bytes gives the same packet and flags |
| `AosUmp.CacheLineRoundTrip` | include/aos/aos_ump.h:22-25 | every 32-byte line is the layout of the channel read from it |
| `AosUmp.UrpcWait` | include/aos/aos_ump.h:34-37 | `urpc_wait` receives on the pair's `back` channel with the caller's buffer length and returns the byte count that receive returned |
| `AosUmp.UrpcReply` | include/aos/aos_ump.h:39-42 | `urpc_reply` sends on the pair's `fore` channel with the caller's byte count |
| `AosUmp.ReplyReachesPeer` | include/aos/aos_ump.h:27-42 | what one end replies on is what the other end, holding the channels the other way round, waits on; a side with distinct channels never waits on its own reply channel |
| `AosMsgDef.HeaderFillsWord` | include/aos/aos_msg_def.h:184-198 | the header fields' widths 8, 54, 1 and 1 total 64 bits, one `AOS_MSG_HDR` word |
| `AosMsgDef.MsgTypeFitsField` | include/aos/aos_msg_def.h:152-157 | `AOS_MSGTYPE_MAX` (81) is below 256, and also below the 128 the assertion message names |
| `AosMsgDef.MaxSize` | include/aos/aos_msg_def.h:163-175 | `AOS_MSG_MAX` is `AOS_MSG_BODY + AOS_MSG_HDR` = 520 with a 512-byte body, and `AOS_MSG_WORDS` is 65 words of exactly that size |
| `AosMsgDef.RawMessageSize` | include/aos/aos_msg_def.h:200-206 | a header word plus `AOS_MSG_WORDS - 1` body words is `AOS_MSG_MAX` bytes |
| `AosMsgDef.AosMsgBlock` | include/aos/aos_lmp.h:22-23 | `AOS_MSG_BLOCK` (`LMP_PAYLOAD`) is a whole number of words, exactly `LMP_MSG_LENGTH - 1` of them |
| `AosMsgDef.AosMsgMaxString` | include/aos/aos_msg_def.h:182 | the string space plus one block is the body, and it is a whole number of words |
| `AosMsgDef.WordPaddedSize` | include/aos/aos_msg_def.h:198-229 | a word-aligned structure is its members' size rounded up to the next multiple of a word |
| `AosMsgDef.StringMessageSize` | include/aos/aos_msg_def.h:223-229 | for every LMP payload that fits in the body, a string message occupies `AOS_MSG_MAX - AOS_MSG_BLOCK` bytes |
| `AosMsgDef.EncodeHdr` | include/aos/aos_msg_def.h:184-196 | writing fields within their widths puts `msgtype` in bits 0-7, `length` in bits 8-61, `fragment` in bit 62 and `last` in bit 63 |
| `AosMsgDef.DecodeHdr` | include/aos/aos_msg_def.h:184-196 | every decoded field is within its bit width |
| `AosMsgDef.DecodeEncode` | include/aos/aos_msg_def.h:184-196 | writing four fields within their widths and decoding the word gives the same four values |
| `AosMsgDef.EncodeDecode` | include/aos/aos_msg_def.h:184-196 | every 64-bit word is the encoding of its own four decoded fields |
| `AosMsgDef.MsgTypeRoundTrip` | include/aos/aos_msg_def.h:152-187 | every message type up to `AOS_MSGTYPE_MAX` survives encoding into and decoding from the header |

## Left out

- `mm_destroy` (lib/mm/mm.c:28-31) only asserts "not yet implemented" and stops. Nothing is modelled for it.
- Aligned search, splitting, coalescing, retyping and capability destruction are absent from lib/mm/mm.c. The model invents none of them.
- The slab allocator is left out. `slab_init`'s record size, `slab_grow` and the static node buffer at usr/init/mem_alloc.c:60-61 are not modelled. Only the refill function recorded by `slab_init` is kept.
- The bodies of the slot allocator, `cap_direct_identify`, `get_address`, `get_size`, `ram_alloc_set`, `urpc_receive` and `urpc_send` are outside this model. The results of those that return one are inputs. `urpc_send` returns nothing, and its effect on the channel is not modelled.
- `grading_test_mm` (usr/init/mem_alloc.c:107) is test instrumentation outside this model. It is not modelled.
- `DEBUG_ERR` and `debug_printf` in the region walk only print, so they are left out. `USER_PANIC_ERR` is modelled as the `Panicked` outcome.
- `MemAlloc.AddBootRegions`: the slot counter `mem_cap.slot` is a 32-bit `cslot_t`, and its wrap-around is not modelled. A boot-info region list is far shorter than 2^32 entries.
- `MemAlloc.AddBootRegions`: the `mm_add` calls are returned as a list of calls, not applied to `aos_mm`. What each call does to the node list is stated by `MM.Mm.Add`.
- The memory behind addresses and sizes is not modelled. Bases and sizes are unbounded naturals, because the modelled memory manager does no arithmetic on them.
- `AOS_MSG_BLOCK` depends on `LMP_MSG_LENGTH`, which is defined outside the modelled files. It stays a parameter. The static size assertions for the fixed-payload message structures depend on C padding of members and are not modelled.
- The many message types of `enum aos_msgtype` are not named individually. Only their count, `AOS_MSGTYPE_MAX`, is used.
- Concurrency (the channel mutexes) and the LMP and UMP transports themselves are left out.
- The physical `urpc_channel` memory shared between cores is not modelled. Channels are named by reference (`ChanRef`) in pairs.
- `AosLmp.SetTypeAndLength`: the 4-byte `uintptr_t` requirement is met by the `bv32` type. The `assert(hdr)` non-NULL check has no counterpart, because the result is returned rather than stored through a pointer.
