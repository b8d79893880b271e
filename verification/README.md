# Wavefront donut server: a verified model

This project models the parts of the Rubin wavefront estimation service where a mistake would be silent: how an
exposure crosses into the process that computes on it, which configuration that process runs it under, and how the
HTTP front-end keeps talking to a child process that can die at any step. Everything is stated for all inputs or
all runs and proved with Dafny 4.11 (`dafny verify dfyconfig.toml`).

## The system and the files here

- **Wire format.** `Bytes.dfy`, `Utf8.dfy`, `Wire.dfy`, `WireTheorems.dfy`, `SensorParts.dfy`: the framed blob of
  named parts, its copying packer, its in-place framing, its zero-copy parser, and the `:img`/`:meta` naming. Names
  are byte strings; decoding is validity as section 4 of RFC 3629 gives it. Python's exceptions are `Err` values.
- **Encoding in place.** `ParallelEncode.dfy`: `build_parts_parallel`, with workers as writers of single bytes in
  any order.
- **Receiving.** `PushReceive.dfy` streams a body into the shared block; `SharedBlock.dfy` is many push handlers,
  one block and one child, as a state machine.
- **Caches.** `Lru.dfy` is the ordered-dict cache idiom; `RefCat.dfy` the shard cache and a pointing's store;
  `PreparedConfig.dfy` the coordinator's prepared bundles, calib halves and active mirrors,
  `PreparedTheorems.dfy` what every run of them keeps, and `CoordinatorProcess.dfy` the process that holds them.
- **Plotting.** `Plotting.dfy` is `PlotQueue`, and `PlotDrains.dfy` any number of its drain loops interleaved.
- **Coordinator lifecycle.** `Coord.dfy` is the front-end's record of one child and its bring-up loop;
  `CoordProtocol.dfy` interleaves callers, the restart task, an operator and dying children, one step per stretch of
  event loop between awaits; `CoordTheorems.dfy` draws the conclusions. `CoordHistory.dfy` follows callers, the
  messages read and the children alive over whole runs; `CoordScript.dfy` shows the interleaved bring-up to compute
  what the loop computes.
- **End to end.** `Delivery.dfy` composes encoder, receive, shared block and regrouping.
- **Settling.** `SettleWindow.dfy`: the trigger's polling loop over timed directory listings.

Code that updates state in place is a class or a method with a loop here, proved equal to a function of the old
state; the theorems are about those functions. Where a property one might expect is false of the code, the code is
kept, a lemma gives the run or input that breaks it, and the exact condition is proved instead:

- a malformed blob need not be a `ProtocolError`: a codec error escapes the parser exactly when the header is good and
  the first descriptor that cannot be read is all there but for a name that is not UTF-8 (`CodecErrorWhen`,
  `CodecErrorEscapes`), and the push handler then leaves the job receiving (`JobLeftIn`);
- an oversized body can be refused with either of two errors, depending on how it is cut: exactly when its header is
  bad and the block could hold a header (`OversizedErrorDependsOnCut`);
- a failed shard load skips eviction, so the shard cache can exceed its cap: exactly when the parents cached and read
  before the first unreadable one are more than the cap (`CapExceededWhen`, `FailureOverflows`);
- an activation that fails after the eviction it caused is not undone, so the active configuration's key can be evicted
  (`ActiveCanBeEvicted`, `ActiveEvictedInRun`); a key is cached exactly when fewer than three others were used since its
  last use (`ResidentWhen`);
- two drains can be listed as drawing one job: exactly when one of them is backing off from it (`ListedTogether`,
  `ListedTwice`), which also refuses an enqueue of it (`RefusedWhen`);
- a front-end can announce a restart that never comes: exactly after an operator's restart that falls into the reap of a
  misconfigured child by an earlier restart, until the operator asks again (`DoomedWhen`, `StrandsWhen`,
  `UnstrandedWhen`, `StrandedReachable`). The docstring of `request_restart` says it is safe in any state; the model
  follows the code. In the service as deployed this coincides with a shutdown, since the handler of fatal notices takes
  the server down (`StrandedOnlyInShutdown`).

Assumptions, each stated where it is used: a shard file holds only rows of its own pixel's children (`Tiled`); every
detector half of the calibs carries the same names (`SameNames`), and an identity always loads the same contents; the
sensors of one exposure have distinct names (`DistinctSensors`); a successful prepare reply carries a dump; spawning
a process succeeds.

## Model

| member | source | states |
|---|---|---|
| Bytes.ValueOfBigEndian | python/lsst/ts/donut_server/protocol.py:222-241 | a big-endian field that fits its width reads back as the number written |
| Bytes.BigEndianOfValue | python/lsst/ts/donut_server/protocol.py:110-127 | and a field's bytes are those of the number read from them |
| Bytes.WriteAt | python/lsst/ts/donut_server/server.py:2088-2094 | slice assignment replaces exactly the slice |
| Utf8.ValidConcat | python/lsst/ts/donut_server/protocol.py:130-132 | two valid encodings joined are a valid encoding |
| Utf8.ValidExactly | python/lsst/ts/donut_server/protocol.py:262 | a byte string decodes exactly when it is the encoding of some text |
| Utf8.TextInjective | python/lsst/ts/donut_server/protocol.py:130-132 | and of one text only, so names are told apart by their bytes |
| Wire.PackBlobLoop | python/lsst/ts/donut_server/protocol.py:222-241 | the packing loop, with its errors, is the header, descriptors and data in order |
| Wire.FirstError | python/lsst/ts/donut_server/protocol.py:225-239 | the first part whose descriptor cannot be written decides the error |
| Wire.FrameOk | python/lsst/ts/donut_server/protocol.py:206-219 | framing succeeds exactly when every field fits its width and every name is encodable |
| Wire.BuildFramingLoop | python/lsst/ts/donut_server/protocol.py:171-219 | the loops over sizes and offsets build exactly the framing specified, errors included |
| Wire.FramingOkWhen | python/lsst/ts/donut_server/protocol.py:171-219 | a framing is made exactly when names encode and every field fits; with pinned offsets there must be a part, and an offset for each, the missing offset being reported first |
| Wire.PinInOrder | python/lsst/ts/donut_server/protocol.py:192-198 | without offsets, each part is pinned at the sum of the sizes before it |
| Wire.PayloadCovering | python/lsst/ts/donut_server/protocol.py:199-204 | with offsets, the payload is the furthest end of any part |
| Wire.MaxEndCovers | python/lsst/ts/donut_server/protocol.py:203-204 | that payload contains every part and is no longer than needed |
| Wire.WriteRegion | python/lsst/ts/donut_server/protocol.py:206-214 | the descriptor region written is the descriptors in order |
| Wire.WriteAbsolute | python/lsst/ts/donut_server/protocol.py:217-219 | the absolute offsets handed out are data start plus the pinned offsets |
| Wire.ParseLayoutLoop | python/lsst/ts/donut_server/protocol.py:244-279 | the parser's loops return exactly the specified layout, or the specified error |
| Wire.ReadDescs | python/lsst/ts/donut_server/protocol.py:251-266 | the descriptor cursor reads each entry where the one before it ended, stopping at truncation or a bad name |
| Wire.BoundParts | python/lsst/ts/donut_server/protocol.py:267-279 | a layout is returned exactly when every part lies inside the declared payload |
| Wire.ToMapLookup | python/lsst/ts/donut_server/protocol.py:282-292 | distinct parts and the dict built from them hold the same names and data |
| WireTheorems.PackBlobOk | python/lsst/ts/donut_server/protocol.py:222-241 | packing succeeds exactly within the field limits |
| WireTheorems.RoundTrip | python/lsst/ts/donut_server/protocol.py:222-292 | unpacking a packed blob, with any bytes after it, gives the part map back |
| WireTheorems.PackedLayout | python/lsst/ts/donut_server/protocol.py:222-279 | the layout of a packed blob names each part at its own bytes and ends at the blob's end |
| WireTheorems.FramedBlockParses | python/lsst/ts/donut_server/protocol.py:171-279 | any block beginning with a framing parses to that framing's descriptors |
| WireTheorems.SlotInside | python/lsst/ts/donut_server/protocol.py:199-219 | every slot a framing hands out lies after the framing and before its total |
| WireTheorems.UnpinnedApart | python/lsst/ts/donut_server/protocol.py:192-219 | without pinned offsets the slots follow one another, so none overlap |
| WireTheorems.FillInPlace | python/lsst/ts/donut_server/protocol.py:171-219 | writing the framing and then each part into its slot, slots disjoint and gaps allowed, gives a block that unpacks to the parts and touches nothing past the total |
| WireTheorems.InPlaceRoundTrip | python/lsst/ts/donut_server/protocol.py:171-292 | a block that holds the framing and each part at its slot, in whatever order and by whomever written, unpacks to the part map |
| WireTheorems.InPlaceEqualsPacked | python/lsst/ts/donut_server/protocol.py:171-241 | without offsets the block filled in place is byte for byte the packed blob |
| WireTheorems.ParserSound | python/lsst/ts/donut_server/protocol.py:244-279 | on arbitrary bytes, every part returned lies after the descriptors, before the payload's end and inside the buffer |
| WireTheorems.AcceptedIsFramed | python/lsst/ts/donut_server/protocol.py:244-279 | an accepted blob begins with exactly the framing of the descriptors read from it: magic, version, counts, encodable names |
| WireTheorems.AcceptedExactly | python/lsst/ts/donut_server/protocol.py:244-279 | the parser accepts exactly the blobs that begin with a framing whose parts lie in a payload held in full |
| WireTheorems.DescsFailWhere | python/lsst/ts/donut_server/protocol.py:251-266 | reading descriptors fails exactly where the first unreadable one stands, with its error |
| WireTheorems.CodecErrorWhen | python/lsst/ts/donut_server/protocol.py:262 | the exact blobs whose error is a codec error and not a protocol error |
| WireTheorems.CodecErrorEscapes | python/lsst/ts/donut_server/protocol.py:262 | a blob of one part named by the byte 0xFF is one |
| WireTheorems.DescFields | python/lsst/ts/donut_server/protocol.py:211-214 | a descriptor is name length, offset, size and name, in that order and those widths |
| WireTheorems.SmallField | python/lsst/ts/donut_server/protocol.py:110-127 | fields are big-endian: a small number is its last byte |
| WireTheorems.PrefixDecides | python/lsst/ts/donut_server/protocol.py:244-279 | a blob cut short of its payload's end is rejected; cut anywhere after, it parses the same |
| WireTheorems.DescsExtend | python/lsst/ts/donut_server/protocol.py:251-266 | descriptors that end inside a buffer read the same in every longer buffer that begins with it |
| WireTheorems.TrailingBytes | python/lsst/ts/donut_server/protocol.py:244-279 | any bytes after any accepted blob leave it accepted, with the same layout |
| WireTheorems.SamePrefixSameParse | python/lsst/ts/donut_server/protocol.py:244-279 | a buffer that agrees with an accepted one up to its payload's end is accepted with the same layout, whatever follows |
| WireTheorems.PackedPrefixRejected | python/lsst/ts/donut_server/protocol.py:222-279 | every strict prefix of a packed blob is rejected |
| WireTheorems.PackInjective | python/lsst/ts/donut_server/protocol.py:222-241 | equal blobs carry equal part maps |
| SensorParts.NamingFacts | python/lsst/ts/donut_server/protocol.py:130-152 | image and metadata names never collide and each gives its sensor back |
| SensorParts.PartNameValid | python/lsst/ts/donut_server/protocol.py:130-132 | a part name of a valid sensor name is encodable |
| SensorParts.SplitParts | python/lsst/ts/donut_server/protocol.py:135-152 | regrouping succeeds exactly when every name has a known suffix and every sensor both halves, and gives each sensor its own pair; otherwise it names which rule failed |
| SensorParts.RegroupsExact | python/lsst/ts/donut_server/protocol.py:135-152 | part maps and their regroupings determine each other |
| SensorParts.FlattenRegroups | python/lsst/ts/donut_server/protocol.py:130-152 | naming a set of pairs and regrouping it gives the set back, for every sensor name |
| ParallelEncode.DescriptorRegionSize | python/lsst/ts/donut_server/protocol.py:155-168 | the sizing loop sums the descriptors of the names, or fails on the first bad name |
| ParallelEncode.RegionSizeOrder | python/lsst/ts/donut_server/daq.py:698-705 | summing names sensor by sensor or images first gives the same region |
| ParallelEncode.RegionErrorBlocksPack | python/lsst/ts/donut_server/daq.py:698-705 | a name that stops the sizing would stop the serial packer too |
| ParallelEncode.SlotsDisjoint | python/lsst/ts/donut_server/daq.py:683-741 | image slots do not overlap |
| ParallelEncode.ScheduleDoesNotMatter | python/lsst/ts/donut_server/daq.py:502-549 | every complete schedule of the workers' writes leaves the same block |
| ParallelEncode.ImagesInPlace | python/lsst/ts/donut_server/daq.py:727-743 | after any complete schedule the images stand in order from data start |
| ParallelEncode.FanOut | python/lsst/ts/donut_server/daq.py:782-848 | running a schedule on the block writes exactly its bytes |
| ParallelEncode.PinShots | python/lsst/ts/donut_server/daq.py:683-755 | images are pinned first and metas directly after the last image |
| ParallelEncode.SlotsAreFramed | python/lsst/ts/donut_server/daq.py:727-757 | each slot given to a worker before the framing exists is the absolute offset the framing later declares |
| ParallelEncode.WriteMetas | python/lsst/ts/donut_server/daq.py:765-768 | writing the metas fills the rest of the payload and touches no image |
| ParallelEncode.FinishBlob | python/lsst/ts/donut_server/daq.py:747-770 | framing and metas complete the block to the packed blob of the same parts, or the metas did not fit, or the framing's own error is raised |
| ParallelEncode.RoomWhen | python/lsst/ts/donut_server/daq.py:697-762 | the block has room for the packed blob exactly when the metadata keeps within eight times four mebibytes |
| ParallelEncode.BuildPartsParallel | python/lsst/ts/donut_server/daq.py:622-779 | for every schedule, a blob is returned exactly when the environment allows it and the serial packer's blob would fit, and it is that blob; it raises exactly for a name or framing the serial packer refuses, and otherwise names the first hindrance met |
| ParallelEncode.WireRegroups | python/lsst/ts/donut_server/daq.py:683-757 | the parts sent regroup to each sensor's own image and metadata |
| ParallelEncode.EncodedBlockDecodes | python/lsst/ts/donut_server/daq.py:622-779 | the block decodes to what the serial packer's blob of the same parts decodes to, whatever order it packs them in |
| PushReceive.ReceiveIntoBlock | python/lsst/ts/donut_server/server.py:2079-2122 | the block holds what was received followed by its old contents, and the answer is that of the specification |
| PushReceive.AbsorbChunks | python/lsst/ts/donut_server/server.py:2088-2110 | each loop over the stream advances the cursor by whole chunks and stops at the header or the first overflow |
| PushReceive.FillKeepsBytes | python/lsst/ts/donut_server/server.py:2088-2110 | no byte is lost or reordered between the two loops, and overflow means the body exceeds the block |
| PushReceive.ChunkingDoesNotMatter | python/lsst/ts/donut_server/server.py:2079-2122 | a body that fits is answered as if it came whole, however it is cut, empty chunks included |
| PushReceive.AcceptanceIsWhole | python/lsst/ts/donut_server/server.py:2079-2122 | acceptance, and the layout accepted, depend on the whole body only: size, header, cap and parse |
| PushReceive.JobLeftIn | python/lsst/ts/donut_server/server.py:2079-2124 | the reply and the state the job is left in, for every body and every cut: it computes exactly when accepted, fails exactly for a layout the parser refuses, stays receiving exactly for a codec error or an overflow after its header was admitted, and is otherwise prepared still |
| PushReceive.TwoErrors | python/lsst/ts/donut_server/server.py:2088-2107 | a body both too large and headed badly is refused as too large in one piece and for its header when the header comes first |
| PushReceive.OneError | python/lsst/ts/donut_server/server.py:2088-2110 | any other body is answered the same however it is cut |
| PushReceive.OversizedErrorDependsOnCut | python/lsst/ts/donut_server/server.py:2088-2110 | some two cuts of a body are answered differently exactly when it overflows a block that could hold a header and its header is bad |
| SharedBlock.StepKeeps | python/lsst/ts/donut_server/server.py:2067-2135 | every step of every handler and of the child keeps the block with its one holder |
| SharedBlock.RunKeeps | python/lsst/ts/donut_server/server.py:2067-2135 | and so does every run |
| SharedBlock.ServedFromOwnBody | python/lsst/ts/donut_server/coordinator.py:1473-1489 | while the child serves a push the block begins with exactly that push's body and the layout is its parse |
| SharedBlock.ServedPartsArePacked | python/lsst/ts/donut_server/coordinator.py:1473-1489 | so the parts it reads are the ones the producer packed, with nothing left from an earlier push |
| Lru.Evict | python/lsst/ts/donut_server/coordinator.py:759-768 | popping from the front leaves the last `cap` entries |
| Lru.GetTouch | python/lsst/ts/donut_server/coordinator.py:673-681 | storing or touching a key changes what is found for that key only |
| Lru.CacheExact | python/lsst/ts/donut_server/coordinator.py:759-768 | a cache trimmed after every use always holds the last `cap` distinct keys used, in order |
| Lru.RecentOrder | python/lsst/ts/donut_server/coordinator.py:324-327 | that order really is the order of last use |
| Lru.JustUsedStays | python/lsst/ts/donut_server/coordinator.py:832-868 | with room for one, the key just used is resident and last in line |
| Lru.ResidentIff | python/lsst/ts/donut_server/coordinator.py:759-768 | a key is resident exactly when fewer than `cap` other keys were used since its last use |
| RefCat.SelectCounts | python/lsst/ts/donut_server/refcat_store.py:223-229 | each row goes to its own child's catalog as often as it is in the file, and to no other |
| RefCat.SelectPicks | python/lsst/ts/donut_server/refcat_store.py:223-229 | a child's catalog is the file's rows at the child's positions, all of them, in file order |
| RefCat.ReshardExact | python/lsst/ts/donut_server/refcat_store.py:221-229 | splitting a file gives a catalog to exactly the children with a row in it, each holding exactly its own rows as often as the file does, in the file's order |
| RefCat.ReshardKeepsRows | python/lsst/ts/donut_server/refcat_store.py:203-229 | no row is lost or counted twice in the split |
| RefCat.CountRows | python/lsst/ts/donut_server/refcat_store.py:319 | the row count is the same in whatever order the catalogs come |
| RefCat.LoadAndReshardLoop | python/lsst/ts/donut_server/refcat_store.py:232-241 | the loop is the merge of the files' splits |
| RefCat.LoadKeepsRows | python/lsst/ts/donut_server/refcat_store.py:232-241 | a load holds exactly as many rows as its files |
| RefCat.LoadExact | python/lsst/ts/donut_server/refcat_store.py:232-241 | a load holds exactly the children with rows in one of its files, each with exactly the rows its own file has for it |
| RefCat.ShardCache.Ensure | python/lsst/ts/donut_server/refcat_store.py:262-287 | the loop, its insertions, moves and evictions, failures included; from a valid cache it answers with the uncached load and leaves a valid cache |
| RefCat.EnsureRefinesLoad | python/lsst/ts/donut_server/refcat_store.py:262-287 | from any valid cache the answer is the uncached load, and the cache stays valid, failures included |
| RefCat.WalkOrder | python/lsst/ts/donut_server/refcat_store.py:268-281 | exactly the absent parents are read, and the visited ones move to the end, up to the first that is neither cached nor on disk |
| RefCat.EnsureOrder | python/lsst/ts/donut_server/refcat_store.py:262-287 | a call succeeds exactly when every wanted parent is cached or on disk, and then keeps the last `cap` of the old order without the wanted ones followed by them, even when more are wanted than that |
| RefCat.CapExceededWhen | python/lsst/ts/donut_server/refcat_store.py:262-287 | after a call the cache exceeds its cap exactly when some wanted parent is neither cached nor on disk and the parents cached, with those read before the first such, are more than the cap |
| RefCat.FailureOverflows | python/lsst/ts/donut_server/refcat_store.py:270-285 | a full cache overflows by one when two more parents are wanted and only the first is there |
| RefCat.RefCatStore.Ensure | python/lsst/ts/donut_server/refcat_store.py:307-335 | a store's fields and report after a call; a store that was an uncached load is one of the wanted set afterwards, or unchanged by a failure |
| RefCat.StoreRefinesLoad | python/lsst/ts/donut_server/refcat_store.py:290-319 | a call that returns leaves the store the uncached load of the wanted set and reports its files, shards, rows and the parents read and kept; one that fails leaves it untouched |
| RefCat.StoreReturnsWhen | python/lsst/ts/donut_server/refcat_store.py:307-319 | a call answers from what it has exactly when that is what is wanted, and otherwise returns exactly when every wanted parent is cached or on disk |
| RefCat.StoreExact | python/lsst/ts/donut_server/refcat_store.py:307-319 | after a call that returns, the store holds exactly the children of the wanted parents that have rows, each with exactly its own rows in file order |
| RefCat.StoreRows | python/lsst/ts/donut_server/refcat_store.py:313-319 | the row count a store reports is its parents' files' |
| PreparedConfig.OverrideKeyLoop | python/lsst/ts/donut_server/coordinator.py:423-443 | the key built entry by entry |
| PreparedConfig.KeyIsEdits | python/lsst/ts/donut_server/coordinator.py:423-477 | two override lists have one key exactly when they apply the same edits in the same order |
| PreparedConfig.KeysMatchWhen | python/lsst/ts/donut_server/coordinator.py:423-443 | they have one key exactly when they say the same entry by entry, an absent, empty or default file name being one name and no list the empty list |
| PreparedConfig.SameKeySameBuild | python/lsst/ts/donut_server/coordinator.py:607-626 | commands with one prepare key build one configuration |
| PreparedTheorems.CalibsAreResolved | python/lsst/ts/donut_server/coordinator.py:645-727 | each half is the load of what the backend resolves now, and `reused` is true exactly when the call would also return with no load possible |
| PreparedTheorems.CalibsExact | python/lsst/ts/donut_server/coordinator.py:645-727 | over the caches alone: the call returns exactly when the backend resolves and each half is cached or can be read; each half is reported reused exactly when it was cached under the identity resolved now, and `reused` means both |
| PreparedTheorems.ActivateIsFresh | python/lsst/ts/donut_server/coordinator.py:747-756 | activation ends in the uncached configuration, or raises with the previous mirrors whole |
| PreparedTheorems.BuildIsFresh | python/lsst/ts/donut_server/coordinator.py:771-797 | a cold build gives the uncached entry whatever shards were cached |
| PreparedTheorems.InsertWhen | python/lsst/ts/donut_server/coordinator.py:771-797 | a cold build succeeds exactly when the overrides are accepted, the set-up works and every shard is cached or on disk, and reports exactly the parents it read |
| PreparedTheorems.ReuseIsNoOp | python/lsst/ts/donut_server/coordinator.py:803-826 | asking a cached entry's store for its own pointing again reads and changes nothing |
| PreparedTheorems.PrepareIsUncached | python/lsst/ts/donut_server/coordinator.py:800-829 | a prepare that returns leaves exactly the uncached configuration and replies with its dump; one that raises leaves the previous one active |
| PreparedTheorems.PushIsUncached | python/lsst/ts/donut_server/coordinator.py:832-868 | the same for a keyed push, for any command with its key |
| PreparedTheorems.PrepareReturnsWhen | python/lsst/ts/donut_server/coordinator.py:800-829 | a prepare returns exactly when its key exists, its entry is cached or can be built, and its calibs are available; its reply says truthfully what was reused |
| PreparedTheorems.PushReturnsWhen | python/lsst/ts/donut_server/coordinator.py:832-868 | a keyed push returns exactly when its key is recorded, its entry is cached or can be rebuilt, and its calibs are available |
| PreparedTheorems.RecordedWhen | python/lsst/ts/donut_server/coordinator.py:814-820 | a command is recorded exactly by a prepare that builds its entry, whether or not its activation works, and is never forgotten |
| PreparedTheorems.KeyedPushIsItsOwn | python/lsst/ts/donut_server/coordinator.py:2424-2434 | after any run, a keyed push runs under exactly the uncached build of its own prepare, or raises; a key never asked for raises |
| PreparedTheorems.PushOfPreparedRuns | python/lsst/ts/donut_server/coordinator.py:832-868 | a key that was once built runs whenever nothing outside fails, evicted or not |
| PreparedTheorems.ReturnedPrepareRuns | python/lsst/ts/donut_server/coordinator.py:800-868 | over any run, once a prepare has returned, a push with its key runs whenever nothing outside fails |
| PreparedTheorems.CachesAreExact | python/lsst/ts/donut_server/coordinator.py:673-868 | over every run both caches hold, in order, the last 3 and the last 2 distinct keys used |
| PreparedTheorems.ResidentWhen | python/lsst/ts/donut_server/coordinator.py:857-867 | a push finds its entry cached exactly when fewer than three other keys were used since |
| PreparedTheorems.ActivatedIsResident | python/lsst/ts/donut_server/coordinator.py:816-868 | the key of an operation that returned is resident and the last to be evicted |
| PreparedTheorems.ActiveCanBeEvicted | python/lsst/ts/donut_server/coordinator.py:816-828 | three prepares whose activation fails evict the key that stays active |
| PreparedTheorems.ActiveEvictedInRun | python/lsst/ts/donut_server/coordinator.py:816-828 | a concrete run of four prepares that does |
| CoordinatorProcess.Coordinator.EnsureCalibs | python/lsst/ts/donut_server/coordinator.py:691-727 | both calib caches after a call; the halves returned are the loads of what is resolved now |
| CoordinatorProcess.Coordinator.Prepare | python/lsst/ts/donut_server/coordinator.py:800-829 | the whole state after a prepare and its reply; the mirrors then hold the uncached build and the reply its dump, or the previous mirrors are intact |
| CoordinatorProcess.Coordinator.PrepareForPush | python/lsst/ts/donut_server/coordinator.py:832-868 | the whole state after a keyed push finds or rebuilds its entry; the mirrors hold the uncached build of the recorded prepare, or are intact |
| Plotting.PlotQueue.Enqueue | python/lsst/ts/donut_server/server.py:1413-1432 | an accepted job is on top of the stack, queued, without an error, and the wake event is set; a refused one changes nothing; stack and set stay in agreement |
| Plotting.PlotQueue.Take | python/lsst/ts/donut_server/server.py:1434-1441 | the newest job comes off both the stack and the set, and none exactly when the stack is empty |
| Plotting.PlotQueue.RecordError | python/lsst/ts/donut_server/server.py:1406-1411 | the message is on record and the log within its cap |
| Plotting.RecordKeeps | python/lsst/ts/donut_server/server.py:1406-1411 | recording one job's error makes it the newest and keeps every other one, but for the oldest when the log is full |
| Plotting.PlotQueue.DrainTop | python/lsst/ts/donut_server/server.py:1457-1473 | a drain sends the newest job, and sleeps exactly when there is none |
| Plotting.PlotQueue.DrainReply | python/lsst/ts/donut_server/server.py:1474-1525 | the job ends in exactly one of: drawn and counted, given an error, or back on top of the stack |
| PlotDrains.NextKeeps | python/lsst/ts/donut_server/server.py:1413-1525 | every step of every drain keeps conservation, exclusivity, the retry count and no lost wakeup, where a parked drain is woken by nothing but the event being set |
| PlotDrains.EveryRunKeeps | python/lsst/ts/donut_server/server.py:1413-1525 | so in every interleaving accepted jobs are pending, outstanding, drawn or failed, each in one place, none sent more than six times, none live with an error; work waiting means a drain is up, and none sleeps while the event is set |
| PlotDrains.ReplyDecides | python/lsst/ts/donut_server/server.py:1473-1525 | what a reply does to its job: drawn, counted on that flight; a fault of its own, that error at once; no usable child, an error exactly at the sixth send and otherwise next in line |
| PlotDrains.NextWorks | python/lsst/ts/donut_server/server.py:1457-1525 | every step but an enqueue uses up some of the remaining work |
| PlotDrains.RunIsShort | python/lsst/ts/donut_server/server.py:1457-1525 | once enqueues stop, only that many steps are left |
| PlotDrains.RestIsDone | python/lsst/ts/donut_server/server.py:1457-1525 | a pool at rest has an empty queue, and every accepted job was drawn or given an error |
| PlotDrains.RefusedWhen | python/lsst/ts/donut_server/server.py:1413-1426 | an enqueue is refused exactly when there are no flights, the job is live, or a drain backs off from it |
| PlotDrains.ListedTogether | python/lsst/ts/donut_server/server.py:1473-1525 | two drains are listed with one job exactly when one backs off from it and the other backs off from it or sends it |
| PlotDrains.ListedTwice | python/lsst/ts/donut_server/server.py:1506-1525 | a run in which that happens |
| Coord.BringUpSettles | python/lsst/ts/donut_server/server.py:655-725 | whatever each child does, bring-up spawns no more than its budget and ends READY with the counter at 0, or DEGRADED with a reason |
| Coord.TwiceTheAttempts | python/lsst/ts/donut_server/server.py:655-725 | entered with the counter at 0 that is at most twice the attempts allowed |
| Coord.WorstCase | python/lsst/ts/donut_server/server.py:655-725 | and some children make it exactly that many |
| Coord.SilentChildren | python/lsst/ts/donut_server/server.py:661-675 | children that never greet use up exactly the attempts left |
| Coord.FatalIsFinal | python/lsst/ts/donut_server/server.py:685-703 | a child that reports the service misconfigured is never replaced, and the handler given for that is called |
| Coord.NoReplayAfterPrepare | python/lsst/ts/donut_server/server.py:750-759 | after a loss provoked by a prepare nothing is replayed |
| Coord.Coord.RecordPrepared | python/lsst/ts/donut_server/server.py:727-748 | after a successful prepare it is that very command that would be replayed, and the dump vouched for is the one in its reply |
| Coord.Coord.OperatorRestart | python/lsst/ts/donut_server/server.py:834-854 | the child is to be killed unless the state is DEGRADED, and a restart is announced with its task unless a reader is parked on the pipe; from DEGRADED the count starts again |
| Coord.Coord.BringUpChild | python/lsst/ts/donut_server/server.py:655-725 | the retry loop, for every sequence of children, spawns no more than its budget, twice the attempts from a count of 0, and settles |
| CoordProtocol.NextControl | python/lsst/ts/donut_server/server.py:655-901 | at every step the lock, the restart task, the state and the callers agree on who is running |
| CoordProtocol.NextWire | python/lsst/ts/donut_server/server.py:554-570 | at every step at most one command is out on the current pipe, and nothing else is on it |
| CoordProtocol.NextTruth | python/lsst/ts/donut_server/server.py:727-775 | at every step the snapshot agrees with the child and with what was read from it |
| CoordTheorems.OwnAnswer | python/lsst/ts/donut_server/server.py:878-901 | in every interleaving the reply a caller reads is the current child's answer to that very command |
| CoordHistory.EveryCallerGoes | python/lsst/ts/donut_server/server.py:856-901 | what each step of every run makes of each caller: sent alone on the current pipe when READY, made to wait while startup runs and refused with CoordinatorUnavailable otherwise, given exactly the answer to its own command from a pipe that never lost one, told CoordinatorLost of a loss with a restart under way, and else untouched |
| CoordHistory.NextRecords | python/lsst/ts/donut_server/server.py:727-798 | at every step the command to replay, the one blamed and the one behind the snapshot agree with a history kept from the messages alone |
| CoordHistory.RunsAgree | python/lsst/ts/donut_server/server.py:727-901 | so over every run what would be replayed is the last prepare that succeeded, and every reply a caller ever got is an answer some child gave to its own command |
| CoordHistory.GreetedGetsItsDue | python/lsst/ts/donut_server/server.py:712-759 | a child that greets is sent exactly the last good prepare, alone on its pipe, unless a prepare was to blame for the last loss, and the front-end is then READY |
| CoordHistory.LossIsMarked | python/lsst/ts/donut_server/server.py:888-897 | every lost exchange or greeting is marked on its own pipe |
| CoordHistory.AtMostOneChild | python/lsst/ts/donut_server/server.py:625-653 | in every reachable state no child lives but the current one, and none while one is being reaped |
| CoordHistory.OperatorKills | python/lsst/ts/donut_server/server.py:819-854 | an operator's restart kills the child in use; with a reader parked nothing else changes, otherwise a restart is announced and has its task |
| CoordTheorems.TallyHolds | python/lsst/ts/donut_server/server.py:554-570 | on every pipe, commands sent minus answers read is 0 or 1 |
| CoordTheorems.ExchangeStartsQuiet | python/lsst/ts/donut_server/server.py:554-570 | a command is sent only on the current pipe, with nothing owed on it and no exchange on it ever lost |
| CoordTheorems.LostIsFinal | python/lsst/ts/donut_server/server.py:888-897 | a pipe that lost an exchange carries no further command |
| CoordTheorems.LostIsFinalOverRuns | python/lsst/ts/donut_server/server.py:888-897 | nor in any run after it |
| CoordTheorems.SnapshotTruth | python/lsst/ts/donut_server/server.py:2496-2502 | a snapshot not reported stale holds the dump of the last successful prepare read from this generation's child, and none is vouched for otherwise; when READY and idle it is what that child last prepared |
| CoordTheorems.WaitersAreWoken | python/lsst/ts/donut_server/server.py:865-876 | the event a caller waits on during startup is set exactly when no bring-up is under way, and the state is then settled |
| CoordTheorems.OperatorIsRequest | python/lsst/ts/donut_server/server.py:834-854 | an operator's step changes the record as the request does |
| CoordTheorems.BringWorks | python/lsst/ts/donut_server/server.py:655-725 | every step of a bring-up uses up some of its work, and its spawns come out of what remained |
| CoordTheorems.BringUpIsBounded | python/lsst/ts/donut_server/server.py:655-725 | however callers and deaths interleave, an undisturbed bring-up spawns no more than remained and is over within its work |
| CoordTheorems.LossRemaining | python/lsst/ts/donut_server/server.py:888-897 | after a lost command that is at most twice the attempts allowed; after a lost prepare, the attempts themselves |
| CoordTheorems.BringUpMoves | python/lsst/ts/donut_server/server.py:655-725 | an unfinished bring-up can always move, except while a living child owes it an answer |
| CoordScript.KeepsCourse | python/lsst/ts/donut_server/server.py:655-725 | no step of an undisturbed bring-up changes the state it is headed for |
| CoordScript.InterleavedIsBringUp | python/lsst/ts/donut_server/server.py:655-725 | so the interleaved bring-up ends in exactly the record the retry loop computes for the same children |
| CoordTheorems.StrandsWhen | python/lsst/ts/donut_server/server.py:694-703 | a step leaves a restart announced and none running exactly when it ends a doomed reap of a misconfigured child |
| CoordTheorems.DoomedWhen | python/lsst/ts/donut_server/server.py:694-854 | a reap is doomed exactly by an operator's restart during it, by a restart's bring-up, and only its end ends that |
| CoordTheorems.UnstrandedWhen | python/lsst/ts/donut_server/server.py:800-854 | the stranded state is left exactly by an operator's restart, which does start one |
| CoordTheorems.StrandedStays | python/lsst/ts/donut_server/server.py:800-876 | without one it lasts, and every command is refused |
| CoordTheorems.RestartingIsRestarting | python/lsst/ts/donut_server/server.py:800-817 | in every reachable state an announced restart has a task that will spawn a child exactly when the front-end is neither stranded nor doomed |
| CoordTheorems.StrandedReachable | python/lsst/ts/donut_server/server.py:694-854 | a run from startup that strands it |
| CoordTheorems.NoNoticeNoStrand | python/lsst/ts/donut_server/server.py:685-703 | children that send no fatal notice never do |
| CoordTheorems.StrandedOnlyInShutdown | python/lsst/ts/donut_server/server.py:1080-1091 | with a handler of fatal notices, or without notices, a stranded front-end belongs to a server that is being taken down |
| Delivery.PackedIsAccepted | python/lsst/ts/donut_server/server.py:2079-2122 | a packed blob, however cut, is accepted exactly when it fits the block and its payload the cap, with its own layout |
| Delivery.ExposureIsServed | python/lsst/ts/donut_server/coordinator.py:1473-1489 | while an encoded exposure's push is served, what is cut out of the block regroups to each sensor's own image and metadata |
| Delivery.Deliver | python/lsst/ts/donut_server/daq.py:622-779 | encoded under any schedule, streamed in any chunks and decoded out of the block, an exposure arrives as it left, exactly when the encoder may run and both blocks and the cap have room |
| SettleWindow.WaitForExposure | python/lsst/ts/donut_server/trigger.py:209-258 | the polling loop with its variables returns the specified verdict |
| SettleWindow.SettleGuarantee | python/lsst/ts/donut_server/trigger.py:209-258 | it returns only after the same 8-sensor sizes were seen at every poll of a maximal unchanged run at least the settle time long, whose first poll is `complete_at`; it raises only at or after the deadline |
| SettleWindow.QuietIsReturned | python/lsst/ts/donut_server/trigger.py:209-258 | an unchanged run long enough before the deadline is returned, no later than at its end |
| SettleWindow.WaitEnds | python/lsst/ts/donut_server/trigger.py:209-258 | with a clock that advances by the interval the loop ends by the deadline's poll |
| SettleWindow.MaximalRunUnique | python/lsst/ts/donut_server/trigger.py:221-243 | there is one maximal run ending at a poll, so `complete_at` is determined |

## Left out

- Operator restarts while startup runs with no reader parked, or in the reap that ends a startup: they start a second bring-up, and `Enabled` excludes them.
- Shutdown (`aclose`) and cancelled tasks: no step leads to STOPPING, and no handler, drain or bring-up is cancelled part-way.
- The reader's pipe, sentinel and process polling: only what it can conclude is modelled, a reply, or at any time a loss.
- Who of the callers waiting for a lock gets it: any may, where the event loop is first come first served.
- The loss callback that fails jobs on the front-end, and what happens after the fatal handler has asked the server to stop.
- Coord.Coord.RecordPrepared: the snapshot keeps the command in place of its override digest, and no time or hash.
- Coord.Coord.OperatorRestart: says that the child is to be killed, not its pid; the kill itself is a step of `CoordProtocol`.
- The exit code, pid and time in the record of a loss.
- CoordScript.InterleavedIsBringUp: follows a bring-up whose children do as a given script says and which no operator disturbs; whether the restart task still exists is not compared.
- CoordTheorems.BringUpMoves: says some step is enabled, not that the event loop takes it; a child that neither answers nor dies is waited for, as in the code.
- RefCat.RefCatStore.Ensure: the elapsed time and the echoed boresight are not in the report.
- Prepared entries hold their store by value, where the code shares one store object between the cache and the mirrors; `ReuseIsNoOp` is why no update through the share is missed.
- Missing fields in a prepare command, and the exception types and texts of failures; a failed call is `Missing`.
- Timings and logging everywhere, and the dimension universe, built once and never changed.
- An unkeyed push, which runs whatever is active, and the checks a job makes against its raws.
- Partial writes by workers that then fail: the block is thrown away, as in the code.
- ParallelEncode.BuildPartsParallel: exposures whose sensors share a name are excluded, where the code would merge their parts.
- Text as the type of a name: a name is its byte string, valid exactly when it encodes text.
- SettleWindow.WaitForExposure: the file list it returns is a second directory listing, and is left out.
- Job states after dispatch, visit de-duplication on submit, routing, authentication, health and table pages, and the client: settled by single branches or plumbing.
- Sky geometry, catalog columns, calib contents, the butler, the wavefront task and drawing: uninterpreted.
- `RefCatStore.uncovered`, a set difference.
