# kvpack: a verified model of its core

kvpack stores and streams the key/value cache of language models. This project
models its hardest parts in Dafny and proves what they promise. Each module
follows one source component; imperative code is imperative here (classes with
invariants, loops proved against specification functions), and concurrent code
is a step system over which every interleaving is quantified.

`dafny verify dfyconfig.toml` checks the whole project.

| part | modules |
|---|---|
| machine integers, limits, byte fields, symbolic identities | `Machine`, `Consts`, `LittleEndian`, `Symbols`, `StateKeys` |
| live handoff: manifest and frame plan | `HandoffTypes`, `Layout`, `BeginValidation` |
| live handoff: verifier, coordinator, receive loops | `Verifier`, `Coordinator`, `Session`, `Mux`, `SprayedSession` |
| live handoff: reader threads, permit pool, interrupts | `SprayPermits`, `SprayDeadlock`, `SprayPlan`, `Interrupt` |
| two-phase handoff | `SegmentManifest`, `AtomicReceiver` |
| lossless chunk codec | `ChunkCodec` |
| keyed prefix chain, streaming cut chain | `PrefixChain`, `CutChain` |
| families, manifests and their validator | `DependencyGraph`, `Families`, `Shapes`, `CutManifests` |
| export planning and the manifest chain | `Chunking`, `ExportPlan`, `ExportBuild`, `ExportChain` |
| chunk staging, the two state writers, what is set aside for them | `Staging`, `StateWriting`, `ExportWriting`, `ReservationBounds` |
| restore: chain walk, write plan, writes in any order, the trip there and back | `RestoreChain`, `RestorePlan`, `RestoreRun`, `ExportRestore` |
| half precision and the quantizer | `BitPacking`, `QuantError`, `HalfPrecision`, `Quantizer` |
| repack transforms and their descriptors | `Permutations`, `Repack`, `Wire`, `Transform` |

## Modelling conventions

- SHA-256, HMAC and canonical JSON are constructors over their preimages, so
  distinct preimages have distinct values.
- `u16`, `u32` and `u64` are bounded naturals; every checked, saturating or
  truncating operation of the source is written out.
- Disk writes, store answers, sink answers and clocks are parameters: functions
  or flags that give the outcome of each call. Theorems hold for all of them.
- Strings that only have to be compared are `string`; text that reaches a byte
  encoding is a byte sequence.
- The quantizer takes its half-precision rounding as a parameter, so its general
  theorems hold for every rounding; `HalfPrecision.HalfOf` is the code's own, on
  the values of the numbers.

## Where the code and its own words differ

- `crates/kvpack-handoff/src/receiver/session.rs:457-461` says a reader waiting
  for a permit always wakes. It does not in general.
  `SprayDeadlock.HangsExactlyWhenStarved` gives the exact condition on the
  spread of frames, and `AlternatingCanHang` a spread that meets it.
- The header check of a table-free stream has no upper end
  (`crates/kvpack-handoff/src/manifest/validation.rs:332-365`), so the total
  bound of `verify_plane` is reachable, exactly for one acceptable plane too
  many: `Verifier.IncrementalVerifier.VerifyPlane` and `FlatPlaneAfterTheLast`.
- `accept_segment` returns without aborting when the byte count overflows
  (`crates/kvpack-handoff/src/handoff_v2.rs:405-410`), after both hashes took
  the segment in. `AtomicReceiver.Session` proves that an install is sound
  exactly when no call meets that guard (`SomeDrop`, a condition on the calls
  alone), `CommitAfterDrop` that every complete streamed prefix can be
  committed after it, and `OverflowInstalls` gives three segments.
- A malformed tag (line 447) also returns without aborting:
  `Receiver.PrepareCommit` has the exact condition, `OpenAfterBadTag` an
  instance, and `InstallSigned` shows that the session can still install.
- `finish` of the artifact's state writer does not look at the poison flag
  (`crates/kvpack/src/writer.rs:668-690`). It succeeds after a refused over-long
  write (`FinishAfterOverlong`), and its not-resolved error is live:
  `StateWriter.Finish` and `WriteRegardless` have the exact condition,
  `UnresolvedHappens` an instance.
- A declared two-phase manifest may leave its required target component without
  any segment: `TargetMayBeOmitted`; `RequiredComponentsCovered` is the exact
  condition.
- A family with a tail-window state cannot be exported at more than one cut,
  because the second cut is a delta and the validator rejects tail windows
  there: `ExportChain.Commit` has the exact condition, `TailWindowFails` an
  instance.
- The error bound of the quantizer (`crates/kvpack-core/src/quant.rs:83-88`) is
  documented for every group, on the ground that rounding the scale costs a
  relative 2^-11. That holds for steps in the normal half-precision range only.
  `QuantError.BoundDecides` has the exact condition for every scale,
  `GroupExact` and `HalfRoundTrip` lift it to groups and to the whole trip.
  `UnderflowHappens` (scale zero), `CoarseHappens` (scale rounded down),
  `GapHappens` (scale rounded up, where the greatest element is fine and an
  inner one is not) and `OverflowHappens` (scale infinite) break the bound.
- `f32_to_f16` is documented to give the nearest half
  (`crates/kvpack-core/src/half.rs:42-43`). It does not between 2^-25 and 2^-24,
  where everything goes to zero (line 56): `HalfPrecision.NearestHalf` proves
  that this is exactly where it does not.

## Model

| member | source | states |
|---|---|---|
| `Layout.CollectLayers` | crates/kvpack-handoff/src/manifest.rs:121-134 | the loop over a class range yields exactly the stepped, non-excepted layers |
| `Layout.LayersAscend` | crates/kvpack-handoff/src/manifest.rs:121-134 | a class's layers are strictly ascending, inside its range and never excepted |
| `Layout.LayersMember` | crates/kvpack-handoff/src/manifest.rs:121-134 | a layer is in a class exactly when it is a whole number of steps into the range and not excepted |
| `Layout.ScheduleClassOrder` | crates/kvpack-handoff/src/manifest.rs:255-272 | the partitioning loops compute the declared order, or windowed classes before full-history ones |
| `Layout.DecodePriorityIsStable` | crates/kvpack-handoff/src/manifest.rs:255-272 | under decode-priority every windowed class precedes every full-history one and each half keeps its declared order |
| `Layout.ScheduleSum` | crates/kvpack-handoff/src/manifest.rs:255-272 | every per-class sum is the same under either schedule, so no class is lost or repeated |
| `Layout.ScheduleMembers` | crates/kvpack-handoff/src/manifest.rs:255-272 | the schedule has every class of the table and no other |
| `Layout.ScheduleOrdered` | crates/kvpack-handoff/src/manifest.rs:255-272 | classes are sent in declared order, under the window-first schedule windowed ones before full-history ones |
| `Layout.AppendClass` | crates/kvpack-handoff/src/manifest.rs:238-245 | one class is appended layer by layer, role by role |
| `Layout.LayoutWalk` | crates/kvpack-handoff/src/manifest.rs:236-247 | the nested loops build the class-by-class, layer-by-layer, role-by-role walk of the schedule |
| `Layout.WalkTotal` | crates/kvpack-handoff/src/manifest.rs:236-247 | any measure of the walk is the sum of its class measures in declared order, whatever the schedule |
| `Layout.WalkMembers` | crates/kvpack-handoff/src/manifest.rs:236-247 | a frame is planned exactly for each role of each layer of each class |
| `Layout.WalkOrdered` | crates/kvpack-handoff/src/manifest.rs:236-247 | frames come class by class in schedule order, within a class by ascending layer, within a layer key before value |
| `Layout.OrderWalkPaired` | crates/kvpack-handoff/src/manifest.rs:236-247 | every value frame directly follows its own key frame, and single-role keys stand alone |
| `Layout.FlatWalkAt` | crates/kvpack-handoff/src/manifest/validation.rs:332-365 | without a table sequence s is layer s/2, keys at even sequences |
| `Layout.FlatWalkTotals` | crates/kvpack-handoff/src/manifest/validation.rs:332-365 | the table-free walk is paired, has two planes a layer and one key a layer |
| `BeginValidation.SortDedup` | crates/kvpack-handoff/src/manifest/validation.rs:290-292 | the sorted, deduplicated list is strictly ascending with the same members, and keeps its length exactly when nothing repeats |
| `BeginValidation.CheckCoverage` | crates/kvpack-handoff/src/manifest/validation.rs:290-310 | the sort-dedup-compare test accepts exactly when every layer of the model is covered once and nothing else is |
| `BeginValidation.CheckedPlane` | crates/kvpack-handoff/src/manifest.rs:327-333 | the checked product is the size of a plane, over the window of the class and the element width of the role, or nothing exactly on overflow |
| `BeginValidation.AddClass` | crates/kvpack-handoff/src/manifest.rs:317-345 | one class adds its frames and bytes role by role, failing exactly when a plane or a sum overflows |
| `BeginValidation.FrameCounts` | crates/kvpack-handoff/src/manifest.rs:314-349 | the checked frame and byte sums succeed exactly when the unbounded sums over the planned frames fit u32 and u64, and then equal them |
| `BeginValidation.ValidateClass` | crates/kvpack-handoff/src/manifest/validation.rs:206-287 | one class is accepted, with its layers, exactly when range, widest plane, excepted layers, roles, label, heads, head dim and dtype are in bounds |
| `BeginValidation.WidestBounds` | crates/kvpack-handoff/src/manifest/validation.rs:206-287 | the widest plane of a class is within a bound exactly if the plane of each of its roles is |
| `BeginValidation.ValidateLayoutTable` | crates/kvpack-handoff/src/manifest/validation.rs:204-328 | a table is accepted exactly when every class is, every layer is covered once and the flat geometry agrees with it |
| `BeginValidation.CheckedFlatTotal` | crates/kvpack-handoff/src/manifest/validation.rs:11-19 | the checked product is the table-free total, or nothing exactly on overflow |
| `BeginValidation.FlatTotalIsFrames` | crates/kvpack-handoff/src/manifest/validation.rs:186-188 | the table-free total is two equal planes a layer |
| `BeginValidation.Counts` | crates/kvpack-handoff/src/manifest/validation.rs:95-116 | frame and byte counts are derived exactly when table, schedule and totals are valid, or the flat geometry is |
| `BeginValidation.FramesArePositive` | crates/kvpack-handoff/src/manifest/validation.rs:95-126 | a manifest that passes geometry and counts has at least one frame, so the average plane size never divides by zero |
| `BeginValidation.ValidateBegin` | crates/kvpack-handoff/src/manifest/validation.rs:62-184 | the whole manifest check accepts exactly the manifests that satisfy contract, geometry, counts, declared totals, precision, identity and lifetime |
| `BeginValidation.TableFreeBegin` | crates/kvpack-handoff/src/manifest/validation.rs:62-184 | without a table the check is, field by field: first version, within the limits, one key and one value plane a layer of at most the frame bound, exactly their bytes declared, half precision, and alive |
| `BeginValidation.ArmedPlan` | crates/kvpack-handoff/src/manifest.rs:236-349 | every accepted manifest, with or without a table and under either schedule, has a plan with exactly the declared frames and payload bytes, one key per layer in 0..num_layers and none beyond, values directly after their keys, and no plane over the frame bound |
| `BeginValidation.TablePlan` | crates/kvpack-handoff/src/manifest.rs:236-349 | the same for a layout table, whose plan is the scheduled walk |
| `BeginValidation.FlatPlan` | crates/kvpack-handoff/src/manifest/validation.rs:332-365 | the same without a table, whose plan alternates keys and values |
| `Verifier.DescriptorChainSha256` | crates/kvpack-handoff/src/manifest/validation.rs:431-439 | the hashing loop computes the batch descriptor chain of the header list |
| `Verifier.ArtifactSha256` | crates/kvpack-handoff/src/manifest/validation.rs:441-456 | the hashing loop computes the batch artifact identity |
| `Verifier.ValidatePreropeKeyPlaneFinite` | crates/kvpack-handoff/src/manifest/validation.rs:43-59 | accepts exactly planes of whole binary32 elements none of which has the all-ones exponent |
| `Verifier.AcceptedHeader` | crates/kvpack-handoff/src/manifest/validation.rs:332-424 | a header accepted at a sequence carries that sequence, the layer and role the plan has there, the token range of its class (the last window tokens, or all), the heads and head size of its class, and as byte length tokens times heads times head size times element width; it never exceeds the frame bound |
| `Verifier.HeaderExactly` | crates/kvpack-handoff/src/manifest/validation.rs:332-424 | inside the plan a header is accepted exactly if schema, transfer, digest form, sequence, layer, role, token range, shape, byte length and tags are those of the planned frame, field by field |
| `Verifier.DeclaredIsStated` | crates/kvpack-handoff/src/manifest.rs:314-349 | the declared payload of an accepted manifest is the sum of the byte lengths its headers state |
| `Verifier.FiniteIsExponent` | crates/kvpack-handoff/src/manifest/validation.rs:43-59 | the byte test of an element says exactly that the biased exponent of its little-endian word is not all ones |
| `Verifier.IncrementalVerifier.constructor` | crates/kvpack-handoff/src/verify.rs:136-156 | a new verifier is in the batch state of the empty stream |
| `Verifier.IncrementalVerifier.ValidateNextHeader` | crates/kvpack-handoff/src/verify.rs:220-244 | succeeds exactly on the next planned header of an unsealed stream; the frame-bound error is never among its errors |
| `Verifier.IncrementalVerifier.VerifyPlane` | crates/kvpack-handoff/src/verify.rs:248-307 | accepts exactly the next planned plane and then extends headers, payloads and all three rolling hashes; any failure changes nothing; the frame bound never fires, and the total bound or byte-count overflow fires exactly for an acceptable extra plane after the last frame of a table-free stream |
| `Verifier.PlaneTotal` | crates/kvpack-handoff/src/verify.rs:276-286 | the running byte total after an accepted plane is the planned prefix sum, and passes the declared total only beyond the last table-free frame |
| `Verifier.IncrementalVerifier.VerifySeal` | crates/kvpack-handoff/src/verify.rs:309-345 | accepts exactly once, exactly a seal the batch check accepts for the accepted stream, and only after all planned frames; the two disagreement errors are unreachable |
| `Verifier.SealExists` | crates/kvpack-handoff/src/manifest/validation.rs:491-561 | every complete stream of an accepted manifest has a seal that matches, for the prompt the manifest names, any time of its life, a canary exactly if keys travel unrotated and a tag exactly if a key is named |
| `Verifier.CompleteCounts` | crates/kvpack-handoff/src/manifest/validation.rs:491-561 | a complete stream has the declared number of frames and of bytes |
| `Verifier.FlatPlaneAfterTheLast` | crates/kvpack-handoff/src/manifest/validation.rs:332-365 | for every accepted table-free manifest one more plane past the last frame passes its own checks, so the total bound is reachable there |
| `Verifier.SealBindsStream` | crates/kvpack-handoff/src/manifest/validation.rs:491-561 | if the seal check accepts two streams of one manifest under one seal, they have the same headers and the same payloads |
| `Verifier.ArtifactMac` | crates/kvpack-handoff/src/manifest/validation.rs:458-488 | the loop computes the keyed tag over manifest, headers and core |
| `Verifier.IncrementalVerifier.AuthenticateSeal` | crates/kvpack-handoff/src/receiver/session.rs:262-279 | with an armed key a seal passes exactly when the manifest names a key and the seal carries its tag over this stream; without one it passes |
| `Verifier.TagBinds` | crates/kvpack-handoff/src/manifest/validation.rs:458-488 | one tag belongs to one key, one manifest, one header list and one core |
| `Verifier.TagBindsStream` | crates/kvpack-handoff/src/manifest/validation.rs:563-581 | two sealed streams with the same authenticated tag are the same stream of the same manifest, payload bytes included |
| `Coordinator.StreamingCoordinator.constructor` | crates/kvpack-handoff/src/coordinator.rs:214-226 | a new coordinator has reported nothing and waits for nothing |
| `Coordinator.StreamingCoordinator.CheckReadyCursor` | crates/kvpack-handoff/src/coordinator.rs:349-368 | advances exactly when the layer is the expected one and the count fits u32, and otherwise changes nothing |
| `Coordinator.StreamingCoordinator.IngestPlane` | crates/kvpack-handoff/src/coordinator.rs:244-342 | succeeds exactly for the next planned plane with a permit if and only if it is a key, staged; emits one event exactly when the plane completes its layer, made of the plane itself and, for a value, the key that waited, with that key's permit; after a key that completes nothing this very plane and permit wait; another-key, value-without-key, non-adjacent, cursor and overflow errors never occur; a staging failure leaves the verifier one plane ahead of an unchanged coordinator, and every other error changes nothing |
| `Coordinator.StreamingCoordinator.VerifyAndPrepareSeal` | crates/kvpack-handoff/src/coordinator.rs:370-380 | succeeds exactly for a matching seal on an unsealed stream that is written, and then every layer has been reported exactly once |
| `Coordinator.PlaneEffect` | crates/kvpack-handoff/src/coordinator.rs:244-342 | what one accepted plane does to the list of completed layers and to the waiting key, read off the plan alone |
| `Coordinator.NextPlane` | crates/kvpack-handoff/src/coordinator.rs:270-342 | an accepted key finds no key waiting; an accepted value finds its own key one frame before |
| `Coordinator.ValueJoins` | crates/kvpack-handoff/src/verify.rs:28-58 | an accepted value always forms a layer pair with the plane before it |
| `Coordinator.PairJoins` | crates/kvpack-handoff/src/verify.rs:28-58 | the pair of a key and a value is that key and that value, of one layer, the value one frame after the key |
| `Coordinator.SingleJoins` | crates/kvpack-handoff/src/coordinator.rs:284-342 | a key-only layer is its one plane and carries no value |
| `Coordinator.KeysAreLayers` | crates/kvpack-handoff/src/coordinator.rs:244-342 | at every point the keys received are the layers reported plus the one waiting |
| `Coordinator.NothingWaits` | crates/kvpack-handoff/src/coordinator.rs:370-375 | no key is pending once every planned frame is in |
| `Coordinator.EveryLayerOnce` | crates/kvpack-handoff/src/coordinator.rs:284-342 | the layers reported by a complete stream are a permutation of 0..num_layers |
| `Coordinator.PendingBlocksSeal` | crates/kvpack-handoff/src/coordinator.rs:370-375 | while a key waits no seal matches the stream, so the incomplete-pair guard rejects nothing the verifier would accept |
| `Session.Feed` | crates/kvpack-handoff/src/receiver/session.rs:203-239 | one frame is taken exactly when it extends the accepted planes and is written, and reports its layer if it completes one |
| `Session.Finish` | crates/kvpack-handoff/src/receiver/session.rs:253-256 | the seal step succeeds exactly on a complete stream under its seal |
| `Session.ReceiveOrdered` | crates/kvpack-handoff/src/receiver/session.rs:202-256 | one connection is received successfully exactly when it carries the planned frames in order and then a matching seal, each written, taken by the sink and not interrupted; the layers it then delivered are the stream's, each layer once, in order, and each made of the very header and bytes of the frames that carried it |
| `Session.StreamAssembled` | crates/kvpack-handoff/src/coordinator.rs:244-342 | the layers of any complete stream are, frame by frame, the keys at the positions where layers start, each with the value right after it if the layer has one |
| `Session.StartsAre` | crates/kvpack-handoff/src/coordinator.rs:244-342 | layers start exactly at the keys of the plan, in plan order |
| `Session.MadeOfPlanes` | crates/kvpack-handoff/src/verify.rs:28-58 | the pair reported at a completing frame holds the header and bytes of that frame and of its key |
| `Session.PlaneSequence` | crates/kvpack-handoff/src/receiver/session.rs:205-216 | an accepted plane carries its own position as sequence number |
| `Mux.SequenceMux.constructor` | crates/kvpack-handoff/src/receiver/spray.rs:69-75 | a new mux has accepted nothing |
| `Mux.SequenceMux.Accept` | crates/kvpack-handoff/src/receiver/spray.rs:77-91 | rejects exactly a sequence at or past the frame count or one seen before, and then changes nothing |
| `Mux.SequenceMux.PopReady` | crates/kvpack-handoff/src/receiver/spray.rs:94-98 | hands out sequence next exactly when it has arrived, so what was handed out is always the arrivals in sequence order |
| `Mux.InOrderGrows` | crates/kvpack-handoff/src/receiver/spray.rs:77-98 | later arrivals never disturb what is already in order |
| `SprayedSession.Drain` | crates/kvpack-handoff/src/receiver/session.rs:549-562 | feeds every frame that is next in order and stops only at a gap, or at a frame that cannot follow its predecessors, was interrupted, was not written or was refused by the sink |
| `SprayedSession.OnLayer` | crates/kvpack-handoff/src/receiver/session.rs:547-563 | one layer frame keeps the reassembly invariant, or no continuation of the events is a whole session, or the frame did not go through |
| `SprayedSession.NothingFollows` | crates/kvpack-handoff/src/receiver/session.rs:531-588 | after a complete stream and its seal any further event spoils the session |
| `SprayedSession.BadSequence` | crates/kvpack-handoff/src/receiver/spray.rs:77-91 | a sequence past the end or seen before spoils the session for good |
| `SprayedSession.BadPlane` | crates/kvpack-handoff/src/receiver/session.rs:549-562 | a plane that cannot follow its predecessors spoils the session for good |
| `SprayedSession.ForeignEvent` | crates/kvpack-handoff/src/receiver/session.rs:541-587 | an event that is neither a layer nor the seal spoils the session for good |
| `SprayedSession.ReceiveSprayed` | crates/kvpack-handoff/src/receiver/session.rs:531-594 | for every event order: success means a prefix of the events was one complete sealed stream and delivers exactly its layers, each once and made of the headers and bytes of its own frames; failure without interrupt, write error or refusal means no prefix was |
| `SprayedSession.SealsEndStreamZero` | crates/kvpack-handoff/src/receiver/session.rs:531-594 | a seal counts exactly if it is the terminal frame of connection 0 |
| `SprayedSession.WholeAssembled` | crates/kvpack-handoff/src/receiver/session.rs:531-594 | a whole session, in whatever order it came, assembles to its frames in sequence order |
| `SprayedSession.ShuffleRestored` | crates/kvpack-handoff/src/receiver/spray.rs:58-103 | any arrangement of a numbered stream is accepted without repeats and put back in its order |
| `SprayedSession.AnySprayingIsWhole` | crates/kvpack-handoff/src/receiver/session.rs:452-457 | however the frames of a stream are spread and interleaved, the sprayed loop sees a whole session and delivers what the single-connection loop delivers |
| `SprayedSession.CalmReceives` | crates/kvpack-handoff/src/receiver/session.rs:202-256 | without interrupts, write errors or refusals one connection is received exactly if the manifest is valid and the frames are its stream |
| `SprayedSession.UsedAll` | crates/kvpack-handoff/src/receiver/session.rs:531-594 | with no more frames than planned, a whole session uses every event and the frames in sequence order are the stream |
| `SprayedSession.PlacedInOrder` | crates/kvpack-handoff/src/receiver/spray.rs:58-103 | numbered frames are put in order even among frames past the planned count |
| `SprayedSession.WholePrefix` | crates/kvpack-handoff/src/receiver/session.rs:531-594 | a beginning of the events with exactly the planned sequences and the seal is a whole session exactly when the planned frames are a stream |
| `SprayedSession.LateFramesIgnored` | crates/kvpack-handoff/src/receiver/session.rs:531-594 | what arrives after the planned frames and the seal changes nothing |
| `SprayedSession.ReceiveEitherWay` | crates/kvpack-handoff/src/receiver/session.rs:202-594 | numbered frames and their seal, over one connection or spread and interleaved in any way: with no more frames than planned both loops succeed or neither does, exactly on a complete sealed stream, and with the same result; with more the single connection always fails, and the sprayed loop succeeds exactly when the planned frames are a stream and all of them and the seal arrive before any other |
| `SprayPermits.StepKeepsInv` | crates/kvpack-handoff/src/receiver/spray.rs:155-207 | every step of readers, channel, mux, coordinator and sink keeps frame positions, channel contents, per-connection order and permit accounting |
| `SprayPermits.RunKeepsInv` | crates/kvpack-handoff/src/receiver/spray.rs:155-207 | so does every run |
| `SprayPermits.PermitsAreConserved` | crates/kvpack-handoff/src/coordinator.rs:33-131 | in every reachable state available plus in-use is the capacity, in-use is the number of permits held by readers, channel, stash, pending key and sink, and no release saturates |
| `SprayPermits.StepWorks` | crates/kvpack-handoff/src/receiver/spray.rs:155-207 | every step moves some frame strictly forward |
| `SprayPermits.RunWorks` | crates/kvpack-handoff/src/receiver/spray.rs:155-207 | so no run is longer than seven steps a frame |
| `SprayPermits.HolderIsCounted` | crates/kvpack-handoff/src/coordinator.rs:115-125 | a held permit is counted, so giving it back never saturates |
| `SprayPermits.StuckIsParked` | crates/kvpack-handoff/src/receiver/spray.rs:174-198 | a hung session waits for a frame whose reader waits for a permit, and none is available |
| `SprayPermits.StuckHolderIsRival` | crates/kvpack-handoff/src/receiver/spray.rs:174-198 | every permit of a hung session is with a later key of another connection |
| `SprayPermits.StuckStarves` | crates/kvpack-handoff/src/coordinator.rs:56-73 | a state with missing frames and no enabled step waits for a key that at least capacity-many later keys on other connections have overtaken |
| `SprayDeadlock.StarvedHangs` | crates/kvpack-handoff/src/receiver/spray.rs:174-198 | whenever some key has that many later keys on other connections, a hung state is reachable |
| `SprayDeadlock.BlockedHangs` | crates/kvpack-handoff/src/receiver/spray.rs:174-198 | once such keys hold every permit, the session runs on into a hang |
| `SprayDeadlock.HangsExactlyWhenStarved` | crates/kvpack-handoff/src/receiver/session.rs:457-461 | a sprayed session can hang if and only if some permit-taking frame has at least capacity-many later permit takers on other connections |
| `SprayDeadlock.UnstarvedCompletes` | crates/kvpack-handoff/src/receiver/session.rs:457-461 | otherwise every run stops only with all frames in, and no run has more than seven steps a frame |
| `SprayDeadlock.KeysTogetherNeverHang` | crates/kvpack-handoff/src/receiver/spray.rs:174-198 | with all permit takers on one connection no interleaving hangs, for any capacity |
| `SprayDeadlock.AlternatingCanHang` | crates/kvpack-handoff/src/receiver/session.rs:457-461 | with the capacity-2 pool, four or more layers dealt to two connections in turn can hang |
| `SprayPlan.ArmedPlanHangs` | crates/kvpack-handoff/src/receiver/spray.rs:174-198 | the exact hang condition applies to the plan of every accepted manifest, every spread of its frames and every capacity from 1 to 64 |
| `SprayPlan.OneConnectionNeverHangs` | crates/kvpack-handoff/src/receiver/spray.rs:155-207 | with every frame on one connection no interleaving hangs, whatever the manifest |
| `Interrupt.StepKeepsInv` | crates/kvpack-handoff/src/receiver/interrupt.rs:54-96 | every atomic step of concurrent interrupt and register calls keeps the socket and reason invariant |
| `Interrupt.RunKeepsInv` | crates/kvpack-handoff/src/receiver/interrupt.rs:54-96 | so does every interleaving |
| `Interrupt.FirstReasonWins` | crates/kvpack-handoff/src/receiver/interrupt.rs:54-66 | once a reason is recorded no later step overwrites it |
| `Interrupt.NoSocketSurvives` | crates/kvpack-handoff/src/receiver/interrupt.rs:54-85 | once an interrupt and a register have both completed, the socket was shut down or its register returned an error |
| `Interrupt.KindsAreKept` | crates/kvpack-handoff/src/receiver/interrupt.rs:54-85 | a call keeps its kind and its socket under every schedule |
| `SegmentManifest.ValidateSegmentDescriptor` | crates/kvpack-handoff/src/handoff_v2.rs:502-545 | accepts exactly a well-formed descriptor that overlaps no recorded one of its component, role and layer, and then records it; against descriptors that each count a token, exactly one none of whose tokens any earlier descriptor of that component, role and layer has |
| `SegmentManifest.SpansClash` | crates/kvpack-handoff/src/handoff_v2.rs:534-543 | the recorded ranges clash with a descriptor exactly when some earlier descriptor of the same key overlaps it |
| `SegmentManifest.OverlapIsShared` | crates/kvpack-handoff/src/handoff_v2.rs:534-543 | two descriptors that each count a token overlap exactly if some token belongs to both |
| `SegmentManifest.DisjointIsApart` | crates/kvpack-handoff/src/handoff_v2.rs:534-543 | disjoint descriptors have no token of one component, role and layer in common |
| `SegmentManifest.FollowsIsNew` | crates/kvpack-handoff/src/handoff_v2.rs:502-545 | a descriptor that follows the recorded ones repeats none of their tokens |
| `SegmentManifest.DescriptorsApart` | crates/kvpack-handoff/src/handoff_v2.rs:169-176 | the descriptors of a valid manifest are pairwise apart, token by token |
| `SegmentManifest.ValidateComponents` | crates/kvpack-handoff/src/handoff_v2.rs:153-164 | accepts exactly nonempty distinct ids with hex identities, and reports whether target and DFlash components are required |
| `SegmentManifest.Validate` | crates/kvpack-handoff/src/handoff_v2.rs:100-193 | accepts exactly the manifests with a valid head, five hex identity digests, hex multimodal digests if any, valid components, a required target, contiguous disjoint descriptors, and a DFlash segment when one is required; no token of a component, role and layer is then described twice |
| `AtomicReceiver.HistoryIsAtomic` | crates/kvpack-handoff/src/handoff_v2.rs:307-315 | in every history the sink automaton allows nothing follows an install, an abort or a failed begin, a commit directly follows an accepted seal, and any other failed call is followed only by the abort |
| `AtomicReceiver.Sign` | crates/kvpack-handoff/src/handoff_v2.rs:248-287 | signs exactly as many payloads as descriptors, consistent, numbered and within the counters, with a seal that matches those segments |
| `AtomicReceiver.SealBindsSegments` | crates/kvpack-handoff/src/handoff_v2.rs:233-246 | one seal matches one segment sequence only |
| `AtomicReceiver.SealDecides` | crates/kvpack-handoff/src/handoff_v2.rs:419-446 | the receiver's rolling checks at the seal are the batch checks on the segments the sink took |
| `AtomicReceiver.Receiver.constructor` | crates/kvpack-handoff/src/handoff_v2.rs:339-353 | once the sink has agreed to begin, a new receiver has opened it and done nothing else |
| `AtomicReceiver.Receiver.Abort` | crates/kvpack-handoff/src/handoff_v2.rs:476-481 | calls the sink's abort exactly when not already committed or aborted |
| `AtomicReceiver.Receiver.Deliver` | crates/kvpack-handoff/src/handoff_v2.rs:411-417 | a hashed segment goes to the sink, and is taken or ends the session |
| `AtomicReceiver.Receiver.Hash` | crates/kvpack-handoff/src/handoff_v2.rs:399-410 | both rolling hashes take the segment in before anything can fail, and nothing else changes |
| `AtomicReceiver.Receiver.Record` | crates/kvpack-handoff/src/handoff_v2.rs:405-417 | a verified segment is hashed and counted; it spoils the session exactly when the count overflows |
| `AtomicReceiver.Receiver.AcceptSegment` | crates/kvpack-handoff/src/handoff_v2.rs:397-418 | takes a verified segment exactly when the byte count fits and the sink agrees; every other outcome aborts, except the byte-count overflow, which leaves the session open |
| `AtomicReceiver.Receiver.SegmentReady` | crates/kvpack-handoff/src/handoff_v2.rs:354-365 | takes exactly the next declared segment with matching payload |
| `AtomicReceiver.Receiver.SegmentReadyDeferred` | crates/kvpack-handoff/src/handoff_v2.rs:370-395 | takes exactly a next-numbered, well-formed descriptor that overlaps none taken before, with matching payload, in deferred mode |
| `AtomicReceiver.AcceptableIsNew` | crates/kvpack-handoff/src/handoff_v2.rs:370-395 | a well-formed streamed segment is refused for overlap exactly if one of its tokens was taken before for that component, role and layer |
| `AtomicReceiver.CompleteIsApart` | crates/kvpack-handoff/src/handoff_v2.rs:338-492 | the segments of a complete session have no token in common |
| `AtomicReceiver.Receiver.PrepareCommit` | crates/kvpack-handoff/src/handoff_v2.rs:419-460 | succeeds exactly when everything is in, seal, digests and tag match and the sink agrees; leaves the session open, with nothing changed, exactly when all but the tag's form is right |
| `AtomicReceiver.Receiver.Commit` | crates/kvpack-handoff/src/handoff_v2.rs:461-475 | commits exactly from the prepared state with the sink's consent, and otherwise ends aborted unless already committed |
| `AtomicReceiver.Session` | crates/kvpack-handoff/src/handoff_v2.rs:338-492 | over every call sequence and every sink behaviour, a refused begin included: the sink's history is allowed and ends installed or discarded; an install is complete and under a seal of the installed segments exactly when no call dropped a segment whose bytes no longer fit the count, which is decided by the calls alone, never happens to a declared manifest and never while the bytes offered fit u64; and exactly when the installed seal is one the signer produces; and whatever is installed, no token of a component, role and layer is in it twice |
| `AtomicReceiver.Serve` | crates/kvpack-handoff/src/handoff_v2.rs:354-481 | after any calls, one more call of any kind leaves the receiver where the calls say it is: what the sink holds, what was dropped, whether it may still commit |
| `AtomicReceiver.InDecides` | crates/kvpack-handoff/src/handoff_v2.rs:420-434 | the receiver's counters say everything is in exactly when the segments the sink took are complete |
| `AtomicReceiver.DropIsOffered` | crates/kvpack-handoff/src/handoff_v2.rs:405-410 | a dropped segment needs 2^64 bytes on offer in the session |
| `AtomicReceiver.DropNeedsThree` | crates/kvpack-handoff/src/handoff_v2.rs:405-410 | with payloads that fit a vector a segment is dropped only after at least two were taken |
| `AtomicReceiver.Fill` | crates/kvpack-handoff/src/handoff_v2.rs:354-418 | any complete material within the byte count can be streamed or declared into a receiver, which then holds exactly it |
| `AtomicReceiver.InstallSigned` | crates/kvpack-handoff/src/handoff_v2.rs:248-475 | complete signed material is installed, unchanged, under its seal, also after any number of seals with malformed tags |
| `AtomicReceiver.CommitAfterDrop` | crates/kvpack-handoff/src/handoff_v2.rs:405-446 | whenever the segments taken are complete and one more acceptable segment overflows the byte count, the session can still commit: the sink installs the segments taken under a seal whose descriptor digest covers the one it never received |
| `AtomicReceiver.OverflowInstalls` | crates/kvpack-handoff/src/handoff_v2.rs:405-446 | an accepted manifest and three segments, each within a vector's size, for which that happens |
| `AtomicReceiver.OpenAfterBadTag` | crates/kvpack-handoff/src/handoff_v2.rs:447-447 | a session in which a malformed tag fails the seal and the receiver keeps receiving |
| `AtomicReceiver.RequiredComponentsCovered` | crates/kvpack-handoff/src/handoff_v2.rs:420-434 | an installed generation has data for every required component exactly when it was streamed or its manifest names each of them in a segment |
| `AtomicReceiver.TargetMayBeOmitted` | crates/kvpack-handoff/src/handoff_v2.rs:165-187 | a concrete accepted declared manifest, identity and multimodal part included, whose required target has no segment |
| `ChunkCodec.RepeatedRun` | crates/kvpack-core/src/chunk.rs:152-158 | the scan returns the length of the longest run at the position, capped at 128 |
| `ChunkCodec.UnpackPackets` | crates/kvpack-core/src/chunk.rs:172-204 | unpacking the greedy packets of any plaintext gives the plaintext back |
| `ChunkCodec.RepeatPacket` | crates/kvpack-core/src/chunk.rs:172-204 | any run of three to 128 equal bytes is one packet of two bytes |
| `ChunkCodec.LiteralPacket` | crates/kvpack-core/src/chunk.rs:172-204 | up to 128 bytes with no three equal in a row are one packet of one byte more |
| `ChunkCodec.PacketSize` | crates/kvpack-core/src/chunk.rs:172-204 | the packets of n bytes take at most n + ceil(n/128) bytes |
| `ChunkCodec.LiteralReach` | crates/kvpack-core/src/chunk.rs:183-195 | the inner loop finds where a literal packet ends: at 128 bytes, at the end, or at a run of three |
| `ChunkCodec.EncodePackets` | crates/kvpack-core/src/chunk.rs:174-199 | the index-advancing loop emits exactly the greedy packets |
| `ChunkCodec.EncodeCodecFrame` | crates/kvpack-core/src/chunk.rs:162-206 | encoding succeeds exactly for in-bounds plaintexts and never by the encoded-bound error |
| `ChunkCodec.UnpackBounded` | crates/kvpack-core/src/chunk.rs:250-282 | the bounded expansion loop yields the unpacked bytes exactly when they have the declared length |
| `ChunkCodec.DecodeCodecFrame` | crates/kvpack-core/src/chunk.rs:208-289 | for both codecs decoding accepts exactly the encoder's image of the expected length and returns the plaintext it came from |
| `ChunkCodec.FrameInjective` | crates/kvpack-core/src/chunk.rs:208-289 | no two plaintexts share a frame |
| `ChunkCodec.Align` | crates/kvpack-core/src/chunk.rs:68-73 | the smallest multiple of 4096 that holds the value, or nothing exactly when rounding up overflows |
| `ChunkCodec.ObjectBytes` | crates/kvpack-core/src/chunk.rs:376-387 | for every in-bounds plaintext the object is the least multiple of 4096 that holds header, frame and, when encrypted, tag, and stays within the object bound |
| `CutChain.NoStraddle` | crates/kvpack-core/src/ids.rs:265-319 | under a valid policy no cut crosses the head/tail transition |
| `CutChain.BoundaryStep` | crates/kvpack-core/src/ids.rs:303-319 | each closed-form boundary is one positive stride past the previous one |
| `CutChain.CompleteCutsUnique` | crates/kvpack-core/src/ids.rs:265-319 | the number of complete cuts is the one whose boundary the stream has reached and whose next it has not |
| `CutChain.ChainIsPrefixStable` | crates/kvpack-core/src/ids.rs:321-401 | the ids of a prefix's cuts are a prefix of the longer stream's ids |
| `CutChain.CutIdentity` | crates/kvpack-core/src/ids.rs:321-401 | two cuts, under any two accepted policies, have the same id exactly if key, namespace, number of cuts, boundaries so far and the tokens up to the boundary are the same |
| `CutChain.CutIdentityOnePolicy` | crates/kvpack-core/src/ids.rs:321-401 | under one policy: exactly if key, namespace, number and tokens are |
| `CutChain.CutInjective` | crates/kvpack-core/src/ids.rs:321-401 | equal ids come from equal tokens, cut by cut |
| `CutChain.CutChainDeriver.constructor` | crates/kvpack-core/src/ids.rs:339-355 | a new deriver has consumed nothing and emitted nothing |
| `CutChain.CutChainDeriver.Absorb` | crates/kvpack-core/src/ids.rs:363-366 | appending tokens changes no id already emitted |
| `CutChain.CutChainDeriver.Consume` | crates/kvpack-core/src/ids.rs:378-389 | folding one complete cut into the tip moves the deriver to the next boundary |
| `CutChain.CutChainDeriver.PushTokens` | crates/kvpack-core/src/ids.rs:359-400 | each call emits exactly the ids of the cuts its tokens complete, keeps exactly the unconsumed suffix, and fails exactly when a 513th cut completes, permanently |
| `CutChain.DeriveAll` | crates/kvpack-core/src/ids.rs:338-401 | however a stream is split into calls, the ids of the accepted calls concatenate to the batch chain over the closed-form boundaries; the first call past 512 cuts fails and every later one is refused |
| `CutChain.PushAll` | crates/kvpack-core/src/ids.rs:359-401 | the same for any sequence of calls on one accepted policy |
| `PrefixChain.ChainPrefixNodes` | crates/kvpack-core/src/ids.rs:165-214 | the rolling-parent loop produces the batch nodes of the token list |
| `PrefixChain.NodeIdentity` | crates/kvpack-core/src/ids.rs:141-214 | two nodes have the same id if and only if context and exact token prefix are equal |
| `PrefixChain.TipInjective` | crates/kvpack-core/src/ids.rs:141-214 | equal tips come from equal contexts and equal token prefixes of equal block count |
| `PrefixChain.BlockPrefixNodes` | crates/kvpack-core/src/ids.rs:165-214 | the nodes of any 256-multiple prefix are a prefix of the longer prompt's nodes |
| `PrefixChain.DeriveInputCut` | crates/kvpack-core/src/ids.rs:216-250 | the derived cut has the last node's id and the whole token count |
| `PrefixChain.NodeIsCutRoot` | crates/kvpack-core/src/ids.rs:216-250 | a node's id is the token root derived for the prompt cut at that node |
| `PrefixChain.AuxiliaryIdentity` | crates/kvpack-core/src/ids.rs:69-97 | two auxiliary roots are equal exactly if key, tenant and the list of inputs are |
| `PrefixChain.CutsTell` | crates/kvpack-core/src/ids.rs:216-250 | two derived cuts share a token root exactly if key, tenant, model, family, auxiliary inputs and tokens are all the same |
| `DependencyGraph.Visit` | crates/kvpack-core/src/validator.rs:69-89 | the depth-first visit terminates, extends a topological order, and fails only on a real cycle |
| `DependencyGraph.CheckDependencyList` | crates/kvpack-core/src/validator.rs:51-67 | a list is accepted exactly when it is in strict order, names present states and not its own |
| `DependencyGraph.CollectGraph` | crates/kvpack-core/src/validator.rs:45-50 | the collected map has every state with exactly its dependencies |
| `DependencyGraph.TopologicalExtend` | crates/kvpack-core/src/validator.rs:81-88 | a state whose dependencies are done extends the topological order |
| `DependencyGraph.PathDescends` | crates/kvpack-core/src/validator.rs:69-97 | every dependency path descends in the topological order |
| `DependencyGraph.TopologicalAcyclic` | crates/kvpack-core/src/validator.rs:69-97 | a graph with a complete topological order has no cycle |
| `DependencyGraph.ValidateDependencies` | crates/kvpack-core/src/validator.rs:45-97 | accepts exactly well-formed acyclic families, with a complete topological order; a cycle error comes with a real cycle |
| `Families.CheckedElements` | crates/kvpack-core/src/validator.rs:146-155 | the checked product is the volume of the fixed extents; it is missing only if that overflows or is zero |
| `Families.TokenAxes` | crates/kvpack-core/src/validator.rs:134-140 | exactly the positions of the token dimension, ascending |
| `Families.ValidateFamilyState` | crates/kvpack-core/src/validator.rs:117-180 | one family state is accepted exactly when name, codec, rank, single token axis, element count and layout rules hold |
| `Families.ValidateFamily` | crates/kvpack-core/src/validator.rs:99-182 | a family is accepted exactly when its identities, size, key order, states and dependency graph are valid |
| `Shapes.ElementCount` | crates/kvpack-core/src/manifest.rs:41-47 | the checked product is the volume of the shape, or nothing when it does not fit u64 |
| `Shapes.ContiguousStrides` | crates/kvpack/src/export/plan.rs:58-68 | the reverse loop yields the row-major strides, or nothing when the volume does not fit u64 |
| `Shapes.PhysicalFootprint` | crates/kvpack-core/src/validator.rs:210-227 | the checked fold is the footprint of the strided tensor, or nothing when it does not fit u64 |
| `Shapes.ContiguousLast` | crates/kvpack/src/export/plan.rs:58-101 | a contiguous tensor has no holes: its last offset plus one is its volume |
| `Shapes.ShapeVolume` | crates/kvpack/src/export/plan.rs:46-56 | the volume at a token count is tokens times elements per token |
| `Shapes.FootprintMonotone` | crates/kvpack/src/export/plan.rs:82-101 | fewer tokens never have a larger footprint |
| `CutManifests.ValidateSpans` | crates/kvpack-core/src/validator.rs:463-527 | accepts exactly a contiguous token and byte partition of the range with valid references, overflow included |
| `CutManifests.ValidateStrides` | crates/kvpack-core/src/validator.rs:393-414 | accepts exactly the row-major strides of a representable volume |
| `CutManifests.ValidateShape` | crates/kvpack-core/src/validator.rs:184-208 | accepts exactly the shape of the state at the token count |
| `CutManifests.ValidateRange` | crates/kvpack-core/src/validator.rs:355-387 | accepts exactly the range, shapes and position the cut and the state's token rule demand |
| `CutManifests.CheckedBytes` | crates/kvpack-core/src/validator.rs:419-428 | the checked byte count of a shape, or nothing exactly on overflow |
| `CutManifests.CheckedOffset` | crates/kvpack-core/src/validator.rs:429-437 | the checked physical offset, or nothing exactly on overflow |
| `CutManifests.ValidateFootprints` | crates/kvpack-core/src/validator.rs:429-447 | accepts exactly the canonical physical offset, span and extent |
| `CutManifests.ValidateChunks` | crates/kvpack-core/src/validator.rs:448-527 | accepts exactly a chunk count in bounds whose spans partition the range |
| `CutManifests.ValidateGroup` | crates/kvpack-core/src/validator.rs:245-259 | one group is accepted exactly when its keys are in order, known and new |
| `CutManifests.ValidateStates` | crates/kvpack-core/src/validator.rs:341-538 | all states are accepted, with their byte totals, exactly when each is and both totals fit u64 |
| `CutManifests.ValidateGroups` | crates/kvpack-core/src/validator.rs:229-267 | accepts exactly groups in id order, each in key order, that partition the inventory |
| `CutManifests.ValidateState` | crates/kvpack-core/src/validator.rs:343-537 | one state is accepted exactly when range, shapes, strides, footprints, bytes and chunks agree, and then yields its two byte counts |
| `CutManifests.ValidateManifest` | crates/kvpack-core/src/validator.rs:269-548 | a manifest is accepted exactly when identities, family, kind, counts, groups, states and byte totals agree |
| `Chunking.NextChunkBytes` | crates/kvpack/src/export/plan.rs:185-209 | the next chunk is the largest within chunk limit, checkpoint and end, or nothing on overflow |
| `Chunking.NextChunkFits` | crates/kvpack/src/export/plan.rs:185-209 | a source whose bytes fit u64 and which leaves room for one more checkpoint meets neither overflow |
| `Chunking.RunsTile` | crates/kvpack/src/export/plan.rs:185-209 | iterating gives adjacent chunks that tile the range, none across a checkpoint and none oversized |
| `Chunking.CheckpointSplits` | crates/kvpack/src/export/plan.rs:185-209 | every 256-token boundary is a chunk boundary, and the chunks before it are those of the shorter stream |
| `Chunking.RunsCount` | crates/kvpack/src/export/plan.rs:211-218 | iterating yields exactly the closed-form number of chunks |
| `Chunking.ChunkAll` | crates/kvpack/src/export/plan.rs:185-218 | the export loop produces those chunks |
| `ExportPlan.CutFits` | crates/kvpack/src/export/plan.rs:82-183 | what fits at the final token count fits at every cut: bytes, strides, footprints and offsets stay inside u64 |
| `ExportPlan.ValidateDeclared` | crates/kvpack/src/export/plan.rs:140-177 | one declared state is accepted, with its byte counts, exactly when key, group, strides, token size and both totals are in bounds |
| `ExportPlan.ValidateExportDeclaration` | crates/kvpack/src/export/plan.rs:103-183 | a declaration is accepted exactly when its semantic model and its family are qualified and family, inventory, strides, token size and both byte totals are in bounds |
| `ExportBuild.Select` | crates/kvpack/src/export/manifests.rs:82-100 | skipping and taking by chunk ends selects exactly the stretch between the two boundaries |
| `ExportBuild.MatchIsPartition` | crates/kvpack-core/src/validator.rs:463-527 | chunks cut as planned are the partition the validator asks for |
| `ExportBuild.AddToGroup` | crates/kvpack/src/export/manifests.rs:139-142 | adding a key to its declared group keeps the groups ordered, disjoint and complete, and moves no other key |
| `ExportBuild.BuildState` | crates/kvpack/src/export/manifests.rs:75-163 | no state of an accepted export makes the builder fail; what it writes is the described schema over exactly the stored chunks of the range |
| `ExportBuild.AddState` | crates/kvpack/src/export/manifests.rs:74-164 | one iteration never fails and extends schemas, payloads, groups and byte totals by that state |
| `ExportBuild.DescribedIsOk` | crates/kvpack-core/src/validator.rs:343-537 | a built state is accepted by the validator exactly when it is not a tail window inside a delta |
| `ExportBuild.TotalsAgree` | crates/kvpack-core/src/validator.rs:528-546 | the builder's byte totals are those the validator recomputes through the shapes |
| `ExportBuild.BuiltIsAccepted` | crates/kvpack-core/src/validator.rs:269-548 | a manifest of built states passes validation exactly when identities and kind are valid and no tail window sits in a delta |
| `ExportBuild.ManifestForCut` | crates/kvpack/src/export/manifests.rs:45-187 | building never fails; the manifest names the node's id, the site's auxiliary root and the node's token count as its input cut and carries the site's tenant, epoch and model and the export's family; it passes validation exactly when its identities and kind are valid and no tail window sits in a delta, and every state has its own chunks and its declared group |
| `ExportChain.ChainNodesOk` | crates/kvpack-core/src/ids.rs:165-214 | the prefix chain of a nonempty prompt has one keyed node a checkpoint and ends at its last token |
| `ExportChain.Commit` | crates/kvpack/src/export/session.rs:230-269 | the commit loop succeeds exactly when the site identities are nonzero and there is one cut or no tail-window state; then every manifest passes validation, is named by its own node's id and token count and the site's identities, every eighth is full and the others extend their predecessor |
| `ExportChain.CommitPrompt` | crates/kvpack/src/export/session.rs:230-269 | deriving the cuts of a prompt and committing succeeds exactly for bounded, well-formed auxiliary inputs, a nonempty prompt within the chain bound, nonzero identities and one cut or no tail window; manifest i is then the cut derived for the first 256(i+1) tokens of that very prompt, and no two share a root |
| `ExportChain.CutsOfPrompt` | crates/kvpack-core/src/ids.rs:165-250 | each node of a prompt is the input cut derived for the prompt cut there |
| `ExportChain.RootsTell` | crates/kvpack-core/src/ids.rs:141-214 | two nodes of any two prompts share an id exactly if context and token prefix are the same |
| `ExportChain.LastIsFinal` | crates/kvpack-core/src/ids.rs:216-250 | the last node of a prompt is its final cut, and a prompt has a node a block |
| `ExportChain.ParentsTile` | crates/kvpack/src/export/session.rs:233-266 | following parents from any cut reaches a full manifest within seven deltas, and the segments met tile exactly the tokens before the cut |
| `ExportChain.TailWindowFails` | crates/kvpack/src/export/session.rs:230-269 | a declared, completely stored export of 257 tokens with one tail-window state, and for every such prompt the commit fails |
| `Staging.Stager.constructor` | crates/kvpack/src/writer.rs:382-398 | nothing is staged and nothing waits |
| `Staging.Stager.FlushPending` | crates/kvpack/src/writer.rs:637-666 | a put leaves nothing pending; if it succeeds every slot has its own reference, if it fails the writer is poisoned with a slot that never gets one; over an honest store it succeeds exactly when the store's put does |
| `Staging.Stager.Queue` | crates/kvpack/src/writer.rs:611-629 | a new chunk takes the next slot and waits for the put, which happens once 64 MiB wait |
| `Staging.Stager.Stage` | crates/kvpack/src/writer.rs:602-635 | a chunk becomes the next slot, resolved or waiting; a refused chunk changes no slot; a failed put leaves an unresolved slot; which of these happens is decided by the store and the chunks before |
| `Staging.Stager.Collect` | crates/kvpack/src/writer.rs:678-681 | yields every reference in slot order, or nothing exactly if a slot has none |
| `Staging.AfterPrefix` | crates/kvpack/src/writer.rs:571-666 | once staging has failed no later chunk changes the outcome |
| `Staging.PutsSucceed` | crates/kvpack/src/writer.rs:637-666 | a store whose puts succeed leaves no slot unresolved, and one that also answers every lookup stages everything |
| `Staging.HealthyCompletes` | crates/kvpack/src/writer.rs:571-666 | a working store completes every list of chunks |
| `StateWriting.SumBytes` | crates/kvpack/src/writer/helpers.rs:514-517 | the checked sum of segment bytes, or nothing exactly on overflow |
| `StateWriting.SumChunks` | crates/kvpack/src/writer/helpers.rs:518-528 | the checked sum of chunk counts, or nothing exactly on overflow |
| `StateWriting.EstimateReservation` | crates/kvpack/src/writer/helpers.rs:510-538 | the reservation is made, saturations included, exactly when the unbounded sum of bytes and allowances fits u64; every segment then ends at least 8192 below 2^64 |
| `StateWriting.SaturationIsHarmless` | crates/kvpack/src/writer.rs:549-553 | for a reserved segment the saturating sum exceeds the bound exactly when the true sum does |
| `StateWriting.StateWriter.constructor` | crates/kvpack/src/writer.rs:382-398 | a new writer holds nothing and waits for nothing |
| `StateWriting.StateWriter.Flush` | crates/kvpack/src/writer.rs:571-635 | stages the open chunk, fails exactly on a split token or a staging failure, and says which |
| `StateWriting.StateWriter.Append` | crates/kvpack/src/writer.rs:560-567 | one turn of the write loop keeps chunks and open chunk those of everything received, or records the staging failure |
| `StateWriting.StateWriter.WriteAll` | crates/kvpack/src/writer.rs:544-569 | refuses exactly a finished or poisoned writer and exactly the bytes past the segment; otherwise chunks and open chunk are those of everything received unless staging fails, which a working store never does |
| `StateWriting.PiecesGrow` | crates/kvpack/src/writer.rs:544-569 | more bytes only ever extend or close the open chunk |
| `StateWriting.FlattenPieces` | crates/kvpack/src/writer.rs:544-569 | the chunks of a stream are the stream, cut: no byte is lost, repeated or moved |
| `StateWriting.PiecesAreWhole` | crates/kvpack/src/writer.rs:668-690 | the chunks of a complete segment are whole tokens and add up to it |
| `StateWriting.StateWriter.Finish` | crates/kvpack/src/writer.rs:668-690 | success gives the references of the whole stream's chunks; over an honest store it succeeds exactly when the segment is complete and the store completes its chunks, poisoned or not; the not-resolved error occurs exactly after a failed put on a segment that is nonetheless complete, and never if all puts succeed |
| `StateWriting.WriteState` | crates/kvpack/src/writer.rs:543-690 | however the bytes are sliced into calls, the references depend on the concatenated bytes alone; a working store takes exactly a complete segment |
| `StateWriting.WriteRegardless` | crates/kvpack/src/writer.rs:543-690 | a caller that goes on after failed writes finishes exactly when the slices that fit add up to the segment and the store completes their chunks, with those references; and gets the not-resolved error exactly when the put of the last chunk fails |
| `StateWriting.FinishAfterOverlong` | crates/kvpack/src/writer.rs:553-559 | a complete state still finishes, with all its references, after an over-long write was refused and poisoned the writer |
| `StateWriting.UnresolvedHappens` | crates/kvpack/src/writer.rs:678-681 | a segment of sixteen full chunks and a store that is offline at the put, for which the not-resolved error occurs |
| `StateWriting.DeriveSpans` | crates/kvpack/src/writer/helpers.rs:223-243 | spans rebuilt from the references are a contiguous token and byte partition of the segment |
| `StateWriting.WriteAndDescribe` | crates/kvpack/src/writer/helpers.rs:194-280 | a written state always comes with spans the validator's partition check accepts |
| `ReservationBounds.ChunksAsEstimated` | crates/kvpack/src/writer/helpers.rs:518-528 | a complete segment is cut into exactly the number of chunks set aside for |
| `ReservationBounds.ObjectFits` | crates/kvpack/src/writer/helpers.rs:529-529 | an object exceeds its plaintext by no more than the allowance of twelve pages, for either codec, encrypted or not |
| `ReservationBounds.ReservationCovers` | crates/kvpack/src/store/publication/manifests.rs:283-292 | what was set aside pays for all objects of any complete artifact, whatever its bytes and codecs, and leaves the manifest's allowances whole, so only a manifest beyond them can exceed the reservation |
| `ExportWriting.TargetFits` | crates/kvpack/src/export/writer.rs:35-47 | the next chunk target is positive, whole tokens, within a chunk and a checkpoint, and ends inside the source, so the target errors never occur |
| `ExportWriting.PlannedStep` | crates/kvpack/src/export/writer.rs:118-149 | a chunk of the target size extends a planned list of chunks |
| `ExportWriting.PlannedEnd` | crates/kvpack/src/export/writer.rs:228-243 | planned chunks that reach the end are the plan, in the closed-form number |
| `ExportWriting.CutGrows` | crates/kvpack/src/export/writer.rs:34-53 | more bytes only ever extend or close the open planned chunk |
| `ExportWriting.CutIsComplete` | crates/kvpack/src/export/writer.rs:228-243 | a complete source is cut into exactly the planned number of chunks with nothing left over |
| `ExportWriting.ExportStateWriter.constructor` | crates/kvpack/src/export/session.rs:126-168 | a new writer holds nothing and waits for nothing |
| `ExportWriting.ExportStateWriter.Flush` | crates/kvpack/src/export/writer.rs:118-193 | a chunk of its planned size is staged with its own span; the split-token and checkpoint errors never occur |
| `ExportWriting.ExportStateWriter.Fill` | crates/kvpack/src/export/writer.rs:34-53 | one turn of the write loop takes bytes up to the planned chunk end and loses none; the target errors never occur |
| `ExportWriting.ExportStateWriter.WriteAll` | crates/kvpack/src/export/writer.rs:18-60 | refuses exactly a finished or poisoned writer, a count past u64 and bytes past the source; otherwise everything is received unless staging fails |
| `ExportWriting.ExportStateWriter.Finish` | crates/kvpack/src/export/writer.rs:228-259 | success gives one chunk a planned run, spanning it and named by the very bytes received that it spans; over an honest store it succeeds exactly when the source is complete, the plan fits the inventory and the store completes the planned chunks; the short-source and not-resolved errors have exact conditions |
| `ExportWriting.Delivered` | crates/kvpack/src/export/writer.rs:143-149 | references and spans of a planned list are the stored chunks the manifests expect, each naming the bytes of its span |
| `ExportWriting.WriteState` | crates/kvpack/src/export/writer.rs:17-260 | however the bytes are sliced, what is written is what the manifests rely on, each chunk named by its own bytes of the concatenated slices; a working store takes exactly a complete source in no more chunks than the inventory allows |
| `ExportWriting.WriteRegardless` | crates/kvpack/src/export/writer.rs:17-260 | a caller that goes on after failed writes finishes exactly when the slices taken complete the source, the plan fits the inventory and the store completes the planned chunks; and gets the not-resolved error exactly when the put of the last planned chunk fails: both conditions are on the slices and the store |
| `ExportWriting.Pull` | crates/kvpack/src/export/writer.rs:66-94 | one read moves its bytes from the reader to the writer and loses none; it fails exactly at the end of the reader, unless a read or staging fails |
| `ExportWriting.WriteSource` | crates/kvpack/src/export/writer.rs:62-116 | the read loop consumes exactly the source: not one byte short, not one more, whatever each read gives; a working reader and store succeed exactly then, if the plan fits the inventory |
| `ExportWriting.ExportAll` | crates/kvpack/src/export/session.rs:126-269 | an export that writes every state and commits has a valid manifest chain with the identities of its nodes and site, and in every manifest the spans of every state partition the manifest's own tokens and each reference names the bytes of its span; with a working store it succeeds exactly when every state arrives complete within the inventory, the identities are nonzero and there is one cut or no tail window |
| `ExportWriting.PieceBytes` | crates/kvpack/src/export/writer.rs:118-149 | chunk i is the bytes of the stream from the total of the chunks before it |
| `ExportWriting.HeldByManifest` | crates/kvpack/src/export/manifests.rs:75-163 | a manifest drawn from stored states holds, for each, the bytes of its own token range |
| `RestoreChain.LoadParent` | crates/kvpack/src/restore/helpers.rs:90-112 | the parent is found exactly where its child says, with the same model, family, tenant and epoch, or the chain does not reach a root |
| `RestoreChain.AuthenticateChain` | crates/kvpack/src/restore/helpers.rs:59-125 | the walk from a leaf to its full root succeeds exactly if the leaf is the expected one and every ancestor loads, sits where its child says and is alike; the guard against cycles and depths and the closing check of root and length never fire; the result is the lineage, oldest first |
| `RestoreChain.ParentIsNew` | crates/kvpack/src/restore/helpers.rs:94-98 | a parent is none of its descendants, so no chain of digests has a cycle |
| `RestorePlan.PlanState` | crates/kvpack/src/restore/helpers.rs:619-681 | a valid state is planned, one write a chunk, exactly if it starts where the chain has got to |
| `RestorePlan.PlanManifest` | crates/kvpack/src/restore/helpers.rs:611-682 | a valid manifest is planned exactly if every one of its states is where the manifest takes it up |
| `RestorePlan.AuthenticIsComposed` | crates/kvpack/src/restore/helpers.rs:59-125 | the lineage of an authenticated leaf is composed: valid manifests alike, a full root, each joined to the one before |
| `RestorePlan.Handover` | crates/kvpack/src/restore/helpers.rs:639-648 | each manifest of a composed chain takes every state up where the one before left it |
| `RestorePlan.BuildScatterPlan` | crates/kvpack/src/restore/helpers.rs:578-761 | for every authenticated chain the plan is the writes of its chunks in order, and the inventory, composition, range and coverage errors never occur; it fails exactly if the chain has more chunks than one manifest of its states may have |
| `RestoreRun.Execute` | crates/kvpack/src/restore/plan.rs:526-668 | in whatever order the writes come in, the run succeeds exactly if each is read, taken and not cancelled; if the writes cover the states the sink then has the contents, whatever it had before |
| `RestoreRun.PutKeeps` | crates/kvpack/src/restore/plan.rs:526-668 | a write puts its own place right and spoils no other |
| `ExportRestore.SpanOver` | crates/kvpack-core/src/validator.rs:463-527 | every byte of a span partition is in one of its spans |
| `ExportRestore.WriteServes` | crates/kvpack/src/restore/plan.rs:677-697 | a chunk that passes its content check is the bytes of the stream it was cut from, and its write puts them where they were |
| `ExportRestore.ByteCovered` | crates/kvpack/src/restore/helpers.rs:610-682 | every byte of a state before the cut is in the place of some write of the chain |
| `ExportRestore.ChainCount` | crates/kvpack/src/restore/helpers.rs:755-759 | a chain has as many writes as an export of the tokens before its cut has chunks |
| `ExportRestore.PlanFits` | crates/kvpack/src/restore/helpers.rs:755-759 | no cut of an export exceeds the bound on writes |
| `ExportRestore.RestoredIs` | crates/kvpack/src/restore/plan.rs:391-524 | what a cut restores to is, for each state of the family and nothing else, the first tokens of its stream |
| `ExportRestore.RestoreCut` | crates/kvpack/src/restore/plan.rs:5-78 | every cut of every export authenticates and plans without error; it is restored exactly if every write goes through, in any order, and then to the bytes of the first tokens of every state |
| `ExportRestore.ExportThenRestore` | crates/kvpack/src/restore/plan.rs:391-524 | exporting and restoring any cut gives back the first tokens of every state byte for byte, or nothing; with a working store and calm reads it gives them back exactly if the export can be made |
| `BitPacking.CursorMoves` | crates/kvpack-core/src/quant.rs:344-357 | for 2- and 4-bit codes no code straddles two bytes |
| `BitPacking.WriteRead` | crates/kvpack-core/src/quant.rs:344-380 | a code written above the bits in use reads back |
| `BitPacking.WriteKeeps` | crates/kvpack-core/src/quant.rs:367-380 | writing a code disturbs no code below it |
| `BitPacking.Place` | crates/kvpack-core/src/quant.rs:367-380 | ors the code into its byte, appending that byte first if it is new |
| `BitPacking.PushPacks` | crates/kvpack-core/src/quant.rs:367-380 | pushing a code keeps the packing exact |
| `BitPacking.BitWriter.Push` | crates/kvpack-core/src/quant.rs:367-380 | the packed bytes hold every pushed code in its place and nothing in the unused bits |
| `BitPacking.BitReader.Next` | crates/kvpack-core/src/quant.rs:344-357 | reads the code at the cursor, or nothing past the end |
| `BitPacking.PackingIsUnique` | crates/kvpack-core/src/quant.rs:337-380 | packed bytes determine their codes |
| `QuantError.CodeIsNearest` | crates/kvpack-core/src/quant.rs:466-472 | no level is closer to an element than the one its code names, for every scale and clamped codes too |
| `QuantError.CloseIsNearLevel` | crates/kvpack-core/src/quant.rs:83-88 | an element decodes within the documented bound exactly when some level lies within it |
| `QuantError.MeetsIsEnough` | crates/kvpack-core/src/quant.rs:83-88 | for every scale, if the top code reaches the greatest value up to the bound, or the zero point alone does where half a scale exceeds the bound, every value of the range decodes within it |
| `QuantError.TopDecides` | crates/kvpack-core/src/quant.rs:83-88 | where half a scale is within the bound the greatest value alone decides |
| `QuantError.BoundDecides` | crates/kvpack-core/src/quant.rs:83-88 | for every nonnegative scale and every zero point: all values of the range decode within the documented bound if and only if that condition on the extremes, the scale and the zero point holds |
| `QuantError.AccurateMeets` | crates/kvpack-core/src/quant.rs:83-88 | a scale within a relative 2^-11 of the step meets the condition, whatever the zero point |
| `QuantError.DecodedIsClose` | crates/kvpack-core/src/quant.rs:83-88 | whenever the scale is within a relative 2^-11 of the step, an element decodes within the documented bound, for every value of its group, clamped codes and flat groups included |
| `HalfPrecision.HalfIsFinite` | crates/kvpack-core/src/half.rs:44-78 | a number stays finite in half precision exactly below 65520 |
| `HalfPrecision.NormalIsAccurate` | crates/kvpack-core/src/half.rs:60-71 | in the normal range the rounding is off by at most a relative 2^-11 |
| `HalfPrecision.NearestHalf` | crates/kvpack-core/src/half.rs:42-78 | the rounding finds a nearest half exactly outside the open gap from 2^-25 to 2^-24 |
| `HalfPrecision.HalfOfIsHalf` | crates/kvpack-core/src/half.rs:44-78 | the result is a half, carries into the next binade included |
| `HalfPrecision.HalfIsExact` | crates/kvpack-core/src/half.rs:7-78 | every finite half survives the conversion |
| `HalfPrecision.SubnormalRounds` | crates/kvpack-core/src/half.rs:72-78 | below the normal range the rounding is to whole multiples of 2^-24, ties to even |
| `Quantizer.GroupsTile` | crates/kvpack-core/src/quant.rs:104-106 | the groups of a line tile it |
| `Quantizer.OffsetGroup` | crates/kvpack-core/src/quant.rs:162-172 | every offset lies in the group its quotient names |
| `Quantizer.Bounds` | crates/kvpack-core/src/quant.rs:452-458 | the scan finds the least and the greatest value of the group |
| `Quantizer.QuantizeLine` | crates/kvpack-core/src/quant.rs:445-474 | each group gets the rounded scale and zero point of its own extremes, each element the code they give it, infinite and undefined quotients included |
| `Quantizer.FitLines` | crates/kvpack-core/src/quant.rs:442-475 | all lines are fitted, group by group |
| `Quantizer.PackRows` | crates/kvpack-core/src/quant.rs:477-497 | the codes of the lines are repacked in row-major order for either axis, in exactly the bytes they need |
| `Quantizer.Quantize` | crates/kvpack-core/src/quant.rs:404-508 | quantization succeeds exactly on a matching shape in bounds whose elements are all finite, and yields the scales and zero points of the groups of its rows or columns and the row-major packing of their codes |
| `Quantizer.Decode` | crates/kvpack-core/src/quant.rs:135-160 | every element decodes to zero point plus code times scale of its group, or to no finite number if either is infinite; truncation and level errors never occur |
| `Quantizer.ElementRestored` | crates/kvpack-core/src/quant.rs:404-508 | every element decodes to what the fitted scale, zero point and code of its own group give |
| `Quantizer.LineCell` | crates/kvpack-core/src/quant.rs:435-442 | the element of a line at the offset of a cell is the value in that cell, row times columns plus column, for either axis |
| `Quantizer.SameGroupIs` | crates/kvpack-core/src/quant.rs:162-172 | two cells share a group exactly if they are in one row (or column) and their offsets in it have the same quotient by the group size |
| `Quantizer.ExtremesAre` | crates/kvpack-core/src/quant.rs:452-458 | the fitted extremes are the least and the greatest value of the cells that share the cell's group, and both occur there |
| `Quantizer.ExtremesUnique` | crates/kvpack-core/src/quant.rs:452-458 | a group has one least and one greatest value |
| `Quantizer.CellTrip` | crates/kvpack-core/src/quant.rs:404-508 | what becomes of a cell, in terms of its own value and the extremes of the cells that share its group |
| `Quantizer.KeepsIsEnough` | crates/kvpack-core/src/quant.rs:83-88 | a group that meets the condition keeps the documented bound on each of its elements |
| `Quantizer.ElementExact` | crates/kvpack-core/src/quant.rs:83-88 | one element keeps the documented bound exactly when scale and zero point are finite and some level lies within the bound |
| `Quantizer.GroupExact` | crates/kvpack-core/src/quant.rs:83-88 | where half a scale is within the bound, or scale or zero point are infinite, a group keeps the documented bound on all its elements if and only if it meets the condition |
| `Quantizer.HalfExact` | crates/kvpack-core/src/quant.rs:83-88 | the same with the code's own rounding; flat groups and groups with a step in the normal range always meet the condition, and no group that overflows does |
| `Quantizer.LostExactly` | crates/kvpack-core/src/quant.rs:460-465 | with the code's own rounding an element comes back as no finite number exactly when the least value or the step of its group reaches 65520 |
| `Quantizer.ScanCodes` | crates/kvpack-core/src/quant.rs:272-289 | on a tensor of the right sizes the truncation and level errors never occur |
| `Quantizer.RoundTrip` | crates/kvpack-core/src/quant.rs:404-508 | for every shape, axis, width, group size and rounding, each cell of the result is its own value rounded to a level between the least and the greatest of the cells that share its group, and within the documented bound wherever the group meets the condition |
| `Quantizer.HalfRoundTrip` | crates/kvpack-core/src/quant.rs:404-508 | with the code's own rounding: each cell of the result keeps the documented bound if and only if some level between the extremes of the cells that share its group lies within it, and always where those are equal or their step is normal |
| `Quantizer.UnderflowHappens` | crates/kvpack-core/src/quant.rs:83-88 | a group of two elements 2^-26 apart whose scale is zero and which breaks the bound |
| `Quantizer.CoarseHappens` | crates/kvpack-core/src/quant.rs:83-88 | a group with a nonzero scale, rounded down, whose greatest element breaks the bound |
| `Quantizer.GapHappens` | crates/kvpack-core/src/quant.rs:83-88 | a group with a scale rounded up whose greatest element keeps the bound and whose middle element breaks it |
| `Quantizer.OverflowHappens` | crates/kvpack-core/src/quant.rs:460-465 | a group of two finite elements both of which are lost |
| `Quantizer.ValidatePacking` | crates/kvpack-core/src/quant.rs:272-318 | accepts exactly zero tail bits and zero codes under zero scales |
| `Quantizer.QuantizedPasses` | crates/kvpack-core/src/quant.rs:272-318 | everything the quantizer produces passes the structural check |
| `Permutations.ValidatePermutation` | crates/kvpack-core/src/transform.rs:262-284 | the seen-table accepts exactly nonempty permutations within the width limit |
| `Permutations.NothingMissing` | crates/kvpack-core/src/transform.rs:262-284 | an order without repeats or out-of-range entries misses no source index |
| `Permutations.Invert` | crates/kvpack-core/src/transform/exec.rs:226-232 | the inversion loop computes the two-sided inverse, itself a permutation |
| `Permutations.MovedBack` | crates/kvpack-core/src/transform/exec.rs:62-150 | moving blocks by a permutation and then by its inverse restores the plane |
| `Permutations.BytesKept` | crates/kvpack-core/src/transform/exec.rs:62-150 | moving blocks by a permutation keeps the multiset of bytes |
| `Permutations.CopyBlock` | crates/kvpack-core/src/transform/exec.rs:62-76 | copying one block changes that block only |
| `Repack.ValidateOp` | crates/kvpack-core/src/transform.rs:206-243 | accepts exactly the operations within their bounds |
| `Repack.RopeInverts` | crates/kvpack-core/src/transform/exec.rs:131-140 | the two rotation orders are permutations that undo each other |
| `Repack.PermuteSlabs` | crates/kvpack-core/src/transform/exec.rs:62-76 | succeeds exactly when the slabs divide the plane, and moves slab order[i] to slot i |
| `Repack.PermutePairs` | crates/kvpack-core/src/transform/exec.rs:80-107 | succeeds exactly when the order matches the head pairs, and moves pair order[i] to slot i in every token row |
| `Repack.MoveBlock` | crates/kvpack-core/src/transform/exec.rs:62-107 | one block is moved into place and nothing already in place is disturbed |
| `Repack.RotateHead` | crates/kvpack-core/src/transform/exec.rs:128-147 | one head vector is reordered in place and no other is disturbed |
| `Repack.GridCovers` | crates/kvpack-core/src/transform/exec.rs:62-150 | an operation that fits divides the whole plane into the blocks it permutes |
| `Repack.PermuteRope` | crates/kvpack-core/src/transform/exec.rs:112-150 | succeeds exactly when the head dim matches, and reorders the elements of every head vector by the rotation order |
| `Repack.ApplyRepackOp` | crates/kvpack-core/src/transform/exec.rs:154-182 | succeeds exactly for a valid, fitting, exact operation on a plane of the declared size, with the result that operation prescribes |
| `Repack.InverseOrder` | crates/kvpack-core/src/transform/exec.rs:226-232 | the inverted order is again a valid operand |
| `Repack.InverseRepackOp` | crates/kvpack-core/src/transform/exec.rs:201-224 | exactly the block moves have an inverse, and it undoes their order |
| `Repack.InverseRestores` | crates/kvpack-core/src/transform/exec.rs:201-224 | applying an operation and then its inverse restores the plane |
| `Repack.MoveKeepsBytes` | crates/kvpack-core/src/transform/exec.rs:62-150 | an invertible operation keeps the plane's size and multiset of bytes |
| `Repack.SlabByte` | crates/kvpack-core/src/transform/exec.rs:62-76 | byte by byte: slab i of the result is slab order[i] of the plane |
| `Repack.PairByte` | crates/kvpack-core/src/transform/exec.rs:80-107 | byte by byte: in every token row, head pair i of the result is head pair order[i] |
| `Repack.RopeByte` | crates/kvpack-core/src/transform/exec.rs:112-150 | byte by byte: interleaving puts element i of the first half of a head vector at 2i and of the second half at 2i+1; the other direction takes them apart |
| `Wire.Decoder.Take` | crates/kvpack-core/src/canonical.rs:58-69 | takes exactly the next bytes, or nothing when too few are left |
| `Wire.Decoder.Number` | crates/kvpack-core/src/canonical.rs:70-81 | reads the little-endian field at the cursor |
| `Wire.Decoder.String` | crates/kvpack-core/src/canonical.rs:85-91 | reads the length-prefixed string at the cursor |
| `Wire.Decoder.Words` | crates/kvpack-core/src/transform.rs:253-260 | reads a list of four-byte words at the cursor |
| `Wire.NumberExact` | crates/kvpack-core/src/canonical.rs:70-81 | a field is read from a byte string exactly when the string starts with its encoding |
| `Wire.TextExact` | crates/kvpack-core/src/canonical.rs:31-37 | the same for strings |
| `Wire.WordsExact` | crates/kvpack-core/src/transform.rs:245-260 | the same for word lists |
| `Transform.OpExact` | crates/kvpack-core/src/transform.rs:130-204 | an operation is parsed from a byte string exactly when the string starts with that operation's bytes, and nothing else parses |
| `Transform.OpsExact` | crates/kvpack-core/src/transform.rs:332-366 | the same for operation lists |
| `Transform.PayloadExact` | crates/kvpack-core/src/transform.rs:332-366 | a descriptor is read to the end from exactly its own bytes |
| `Transform.DecodeOrder` | crates/kvpack-core/src/transform.rs:253-260 | the cursor decoder of a permutation computes its parse |
| `Transform.DecodeCast` | crates/kvpack-core/src/transform.rs:179-194 | the cursor decoder of a dtype cast computes its parse |
| `Transform.DecodeOp` | crates/kvpack-core/src/transform.rs:165-204 | the cursor decoder of an operation computes its parse |
| `Transform.DecodeOps` | crates/kvpack-core/src/transform.rs:345-366 | the cursor decoder of an operation list computes its parse |
| `Transform.DecodePayload` | crates/kvpack-core/src/transform.rs:345-366 | the cursor decoder of a descriptor computes its parse |
| `Transform.Validate` | crates/kvpack-core/src/transform.rs:309-329 | accepts exactly the descriptors within their bounds |
| `Transform.Encode` | crates/kvpack-core/src/transform.rs:332-343 | encodes exactly the valid descriptors, to their canonical bytes |
| `Transform.ScaleWire` | crates/kvpack-core/src/transform.rs:139-152 | an absent scale is 33 zero bytes, a present one its identity after a one |
| `Transform.Decode` | crates/kvpack-core/src/transform.rs:345-366 | accepts exactly the canonical bytes of valid descriptors, each as the descriptor it came from |
| `Transform.CanonicalIsInjective` | crates/kvpack-core/src/transform.rs:332-366 | distinct valid descriptors never share canonical bytes |
| `Transform.SizeAfter` | crates/kvpack-core/src/transform/exec.rs:154-182 | an applied operation leaves a plane of the declared size exactly when it is not a pad or trim to another size |
| `Transform.ApplyTransform` | crates/kvpack-core/src/transform/exec.rs:185-196 | succeeds exactly on a valid descriptor whose operations all fit the shape and, but for the last, keep its size; the result is reached by applying each in turn |
| `Transform.Undo` | crates/kvpack-core/src/transform/exec.rs:201-224 | applying the inverses in reverse order walks the same planes backwards to the first |
| `Transform.BytesSurvive` | crates/kvpack-core/src/transform/exec.rs:185-196 | the bytes of a plane survive every list of invertible operations |
| `Transform.ThereAndBack` | crates/kvpack-core/src/transform/exec.rs:185-232 | a list of invertible operations succeeds under that exact condition; applied and undone it restores the plane, and in between the bytes are only moved |

## Left out

- Sockets, TLS, timeouts, receipts and the BEGIN exchange of the receiver: only
  the ordered and the sprayed receive loops are modelled, from an accepted
  manifest on. That BEGIN must win the race to the event channel is not modelled.
- SprayPermits: each connection carries its frames in ascending sequence order,
  and the sink releases a permit some time after it was handed the layer; a sink
  that keeps permits forever is not modelled.
- SprayedSession.ReceiveSprayed: takes the events of at most one seal, because
  the reader of connection 0 ends at its terminal frame. In both receive loops
  the two interrupt checks around a frame are one, before it is fed.
- Coordinator: bundle files, file paths and durations are not modelled.
- Session and SprayedSession: run without an armed key; the gate that an armed key
  adds after the seal is `AuthenticateSeal`.
- ChunkCodec: encryption, object keys and the statistics sidecar of a chunk
  object are not modelled; the object size is.
- The canonical manifest and family encodings, the file format of packs, the SQLite
  catalog, garbage collection and provisional exports would
  add long but shallow models.
- ExportWriting: the token list of an export is in memory, so its length is at
  most 2^64 - 256. Interrupted reads, which are repeated, are not reads of the
  model. The id comparison after a put is not modelled, because chunks are named
  by their content.
- ExportChain.Commit: idempotent replay, publication and reservation estimates
  are not modelled.
- RestoreChain: a manifest loads only under its own digest and only if it
  validates; reading, decrypting and decoding it are not modelled.
- RestorePlan: the declarations handed to the sink with the writes (shapes,
  groups, sizes), resource limits and recompute marks are not modelled.
- RestoreRun.Execute: pins, the workers' channel and the sink's begin, commit and
  abort are not modelled; the order in which results arrive is.
- Staging: the store names chunks by content and answers each lookup and each
  put as told.
- StateWriting: the artifact writer around the state writer (declaration checks,
  commit, and the poison flag that a refused write leaves for it) is not
  modelled. That a segment's end offset fits u64 is taken from its declaration
  checks, and that room was reserved from `EstimateReservation`.
- Quantizer: works over the reals, so the f32 rounding of range, quotient and
  decoded value is not modelled, and neither is the tensor's canonical encoding,
  whose decoder rejects the infinite scales and zero points.
- Transform.Decode: labels are byte strings; text that is not UTF-8 is not
  ASCII either, so both are rejected by the same label check. The JSON form is
  not modelled.
- Interrupt: a failing socket clone, a poisoned lock and clearing the socket list
  at the end of a session are not modelled.
