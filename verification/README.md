# Crypto 3D stack: a verified model

This project models the secure processor stack of the repository and proves what it is
for. The parts, hardest first:

- **The CPU** (`src/3d.cpp`). `Isa` is a machine that runs one plaintext instruction at a
  time on plaintext data; it knows no caches, no ciphers and no pipeline. `Pipeline` is the
  six-stage machine with forwarding, the load-use stall, static prediction with recovery,
  the caches, the block map, in-place re-encryption of data and the AES coprocessor.
  `PipelineProof` proves that the second refines the first, `PipelineResults` draws the
  consequences, `PlainStores` and `Departures` say exactly where the machine leaves the
  documented rule, and `CpuTop` is the cycle loop over registers that are updated in place.
- **The Vertical Trust Fabric.** `VtfSystem`, `VtfGuard` and `VtfBridge` are the clocked
  units (as objects in `VtfUnits`); `VtfInvariant` is what they keep. `VtfFaults` is the
  single-upset theorem of the hardened fabric, `VtfWired` the same seen from the CPU behind
  its bridge, `VtfChannel` linearizability over a channel that may do anything but forge
  tags, `VtfEngine` the refinement of the fabric's tag engine by the CMAC unit,
  `VtfServing` and `VtfProgress` what becomes of every access, to the clock, over the real
  tag engines, and `VtfSoftware` with `VtfAgreement` the C++ fabric and its agreement with
  the guard.
- **The memory integrity tree.** `MitTree` and `MitSpec` are the tree and its accesses
  against storage an adversary rewrites; `MitEngine` is the C++ class. `MitRtl` is the
  hardware engine with storage that changes in every clock, `MitQuiet` its refinement of the
  software, `MitCores` both over the real ciphers, `MitLatency` how long an access takes
  there, `MitInit` the initialisation before, and `MitUnit` the registers as an object.
- **The sealed image.** `BlockMap`, `HiddenKey`, `Regions`, `SealedImage` and `SealOps` are
  the block permutation, the hidden key bits, the encryptor's and decryptor's loops and the
  seal, validate, extract and reseal operations; `LifeCycle` runs an image from encryption
  to resealing. `Assembler`, `AssemblerProof` and `AssemblerPasses` are the assembler.
- **The ciphers.** `AesTables`, `Aes` and `AesOps` are AES-128 and the array routines,
  `AesRtl` the iterative core, `CmacRtl` the 32-byte CMAC unit with its subkey cache,
  `CmacBytes` CMAC over byte buffers as in sections 6.1 and 6.2 of NIST SP 800-38B,
  `KeySchedule` the key schedule and `KeyWipe` what a zeroize leaves in it, `MaskedSBox` the two-share S-box and `Sha256` streaming
  SHA-256 as in sections 5.1.1 and 6.2.2 of FIPS 180-4.

Code that works step by step is a class or a method with the source's loops, tied by its
contract to a function; the theorems are about the functions. Tags and ciphers are never
assumed unbreakable: a statement about tags either names the collision or forgery that would
falsify it, or has the absence of forged tags as a stated hypothesis. The network, the
clock and random masks are inputs.

## Model

| member | source | states |
|---|---|---|
| `PipelineProof.PipelineRefinesIsa` | src/3d.cpp:1977-2437 | for every program, image and number of cycles, the pipeline stands for the state the sequential machine reaches after exactly as many instructions as were written back, locked or not, encrypted data or not |
| `PipelineProof.CycleHolds` | src/3d.cpp:2567-2600 | one pass of the cycle loop keeps standing for the same sequential state, or for the next one exactly if an instruction was written back, which then did not fault |
| `PipelineProof.ForwardIsNewest` | src/3d.cpp:2110-2150 | an operand read in execute is what the newest older instruction in flight leaves in that register |
| `PipelineProof.StoreIsPointUpdate` | src/3d.cpp:2313-2347 | decrypting, changing and re-encrypting a block changes exactly one plaintext word of the data region and no word outside it |
| `PipelineProof.CachedReadIsMemory` | src/3d.cpp:264-296 | the data cache never shows anything but the memory word, before and after a fill |
| `PipelineProof.ResumeStep` | src/3d.cpp:1759-1765 | when a store to an unencrypted word flushes the front end, fetch goes on exactly where the sequential rule for such stores says |
| `PipelineResults.MemoryIsIsa` | src/3d.cpp:2567-2600 | cut off after any number of cycles, without draining, the stored data decrypt to those of the sequential machine after the instructions that have passed the memory stage |
| `PipelineResults.DrainedPipelineIsIsa` | src/3d.cpp:2567-2600 | completing the instructions in flight gives registers, coprocessor and data of the sequential machine after the retired and the in-flight instructions, no more and no fewer |
| `PipelineResults.LocksArePrecise` | src/3d.cpp:2349-2401 | a machine that an access has locked, not a rejected image, has the registers and data of the state just before the faulting access, at which the sequential machine locks too; its coprocessor is that state's if and only if the instruction behind the access was not issued or leaves the coprocessor as it is |
| `PipelineResults.PipelineMakesProgress` | src/3d.cpp:1941-1975 | until the program ends or locks, n cycles write back at least (n - 5) / 6 instructions: no stall and no misprediction can hold the machine up longer |
| `PipelineResults.EveryInstructionRetires` | src/3d.cpp:2567-2600 | the converse of refinement: every state of the sequential run is one the pipeline comes to stand for |
| `PipelineResults.FaultsLock` | src/3d.cpp:2349-2401 | if the sequential machine faults, the pipeline locks, with exactly the instructions before the fault retired |
| `PipelineResults.EndIsFinal` | src/3d.cpp:1977-2019 | a program that has reached the end of its text stays there, in the same state |
| `PipelineResults.PipelineRefinesDocumentedIsa` | src/3d.cpp:2110-2233 | as long as no instruction departs from it, the documented rule (taken branches to their target's block, everything else to the next word) describes the pipeline |
| `Isa.NominalStepExactly` | src/3d.cpp:2191-2233 | the machine follows the documented rule in exactly the states that neither branch into their own block from slots 0 to 2 nor store to an unencrypted word |
| `Isa.NominalRunAgrees` | src/3d.cpp:2191-2233 | a whole run follows the documented rule if and only if no instruction of it departs |
| `PlainStores.RunIsDocumentedExactly` | src/3d.cpp:1759-1765 | a run shows the documented states, at positions that count the dropped instructions, if and only if no plain store drops instructions with an effect and no branch in slots 0 to 2 goes to its own block |
| `PlainStores.NothingLostIfInert` | src/3d.cpp:2371-2387 | behind a plain store with no jump next, nothing is lost if each dropped instruction is inert, and the documented machine walks over them unchanged if and only if each is |
| `PlainStores.NothingLostByJump` | src/3d.cpp:2055-2108 | a jump right behind a plain store has already been followed by prediction, so nothing is lost |
| `PlainStores.PaddedProgramsAreDocumented` | src/3d.cpp:1759-1765 | programs whose stores are followed by padding to the end of the block run as documented, encrypted or not |
| `Departures.PlainStoreLosesInstructions` | src/3d.cpp:2371-2387 | a concrete image and run from power-on in which three instructions behind a plain store are lost |
| `Departures.OwnBlockBranchFallsThrough` | src/3d.cpp:2191-2215 | a concrete image and run from power-on that falls through a branch the documented machine takes for ever |
| `Departures.CoprocessorAheadAtLock` | src/3d.cpp:2156-2177 | a concrete image and run from power-on that locks before its first instruction with one encryption already in the coprocessor |
| `CpuTop.Cpu.constructor` | src/3d.cpp:2510-2560 | a machine over an image starts in the reset state the theorems start from |
| `CpuTop.Cpu.StageFetch` | src/3d.cpp:1977-2019 | the in-place fetch stage: validate once, latching failure and security lock if that fails, then bring the mapped block, or stop at the end of text |
| `CpuTop.Cpu.ReadInstructionBlock` | src/3d.cpp:232-247 | the instruction cache's read: a line that misses is filled in place, and nothing else changes |
| `CpuTop.Cpu.StageDecrypt` | src/3d.cpp:2021-2053 | the in-place decrypt stage: it takes the fetched block and starts at its first instruction |
| `CpuTop.Cpu.StageDecode` | src/3d.cpp:2055-2108 | the in-place decode stage, with prediction and the step to the next slot |
| `CpuTop.Cpu.StageExecute` | src/3d.cpp:2110-2233 | the in-place execute stage, with forwarding, the coprocessor and the misprediction test |
| `CpuTop.Cpu.StageMemory` | src/3d.cpp:2349-2401 | the in-place memory stage: translate, lock on anything but a data word, load or store |
| `CpuTop.Cpu.WriteEncryptedWord` | src/3d.cpp:2313-2347 | the read-decrypt-change-encrypt-write loop of an encrypted store, with the cached words of the block dropped |
| `CpuTop.Cpu.StageWriteback` | src/3d.cpp:2403-2437 | the in-place writeback stage, register 0 excepted |
| `CpuTop.Cpu.CycleOnce` | src/3d.cpp:2567-2600 | the body of the cycle loop is one cycle of the model, oldest stage first |
| `CpuTop.Cpu.Run` | src/3d.cpp:2567-2600 | the cycle loop, for any bound, leaves the state after that many cycles and stops early on a lock or a rejected image |
| `VtfFaults.SingleUpsetIsSurvived` | hardware_3d/rtl/crypto3d_vtf_system_top.sv:186-383 | from power-on, with any one register of the fault set upset between any two clocks of any run, no request reaches the memory unless it is the one presented with the next sequence number and an exact tag, and no success response is untrue; only if a latched tag was struck may that one transaction pass with one bit of its tag wrong |
| `VtfFaults.FaultFreeRun` | hardware_3d/rtl/crypto3d_vtf_system_top.sv:235-383 | without upsets, hardened or not, every access is authentic, fresh and exact, every success response is true and no alarm is ever raised |
| `VtfFaults.UpsetIsContained` | hardware_3d/rtl/crypto3d_vtf_system_top.sv:186-197 | whatever state of a run the upset strikes, the fabric is left in a state from which only safe clocks follow |
| `VtfFaults.ContainedStep` | hardware_3d/rtl/crypto3d_vtf_system_top.sv:253-381 | a contained fault stays contained, and a struck tag is forgotten when the next request is accepted |
| `VtfFaults.UnhardenedUpsetAdmitsForgery` | hardware_3d/rtl/crypto3d_vtf_system_top.sv:189-190 | without hardening, one flipped decision bit lets an unsigned request through: the hardening is needed |
| `VtfTypes.FlipChangesParity` | hardware_3d/rtl/crypto3d_vtf_system_top.sv:195-196 | every single-bit upset of a word shows in its parity |
| `VtfInvariant.GoodStep` | hardware_3d/rtl/crypto3d_vtf_system_top.sv:253-381 | one clock of the fabric keeps the transaction on course, or, with one register spoilt, ends it before it reaches the memory |
| `VtfInvariant.ResetIsGood` | hardware_3d/rtl/crypto3d_vtf_system_top.sv:236-249 | power-on satisfies what every run keeps |
| `VtfWired.UpsetNeverFoolsCpu` | hardware_3d/rtl/crypto3d_vtf_soc_top.sv:55-92 | with bridge and hardened fabric wired together and one upset at any time, every success the CPU is ever told of is its own request's access, with the word that access returned |
| `VtfWired.UpsetKeepsLink` | hardware_3d/rtl/crypto3d_vtf_system_top.sv:343-371 | no upset of the fault set detaches the response under way from the request the bridge waits for |
| `VtfChannel.RunIsLinearizable` | hardware_3d/rtl/crypto3d_vtf_cpu_bridge.sv:102-173 | over a channel that drops, alters, duplicates, delays, replays or invents anything but right tags, within one epoch and before a counter wraps: every success the CPU sees is an execution that happened exactly once since the access was issued and returned what the executions before it left; the memory is always the result of the logged executions and none repeats |
| `VtfChannel.OkIsLinearized` | hardware_3d/rtl/crypto3d_vtf_cpu_bridge.sv:163-169 | the step of that theorem: a success shown to the CPU in this clock is such an execution |
| `VtfChannel.AuthenticRefusalNeverExecutes` | hardware_3d/rtl/crypto3d_vtf_cpu_bridge.sv:163-169 | a refusal with a right tag is final: the request has not executed and never will, however the run goes on |
| `VtfChannel.PowerOnIsSound` | hardware_3d/rtl/crypto3d_vtf_cpu_bridge.sv:123-130 | power-on satisfies the invariant of the channel theorem |
| `VtfChannel.LastWriteWins` | hardware_3d/rtl/crypto3d_vtf_system_top.sv:217-225 | the logged executions, one after the other, leave at every place the last word written there |
| `VtfBridge.FieldsMatchExactly` | hardware_3d/rtl/crypto3d_vtf_cpu_bridge.sv:101-109 | the field comparison passes exactly for the response message of this request, a write echoing its word |
| `VtfBridge.BridgeInvStep` | hardware_3d/rtl/crypto3d_vtf_cpu_bridge.sv:131-173 | the bridge's tag engine works on nothing but the request being signed or the response being checked |
| `VtfEngine.UnitIsTheEngine` | hardware_3d/rtl/crypto3d_vtf_system_top.sv:122-131 | from power-on, under any inputs, the CMAC unit under the fabric shows the ports of the engine the fabric theorems are about, with tags that are CMACs of the message |
| `VtfEngine.EngineIsUnit` | hardware_3d/rtl/aes_cmac32.sv:59-117 | one clock of that refinement, clears included, on the condition that no start is taken into a unit with a start left pending |
| `VtfEngine.PowerOnIsOnBoard` | hardware_3d/rtl/aes_cmac32.sv:60-71 | unit and engine agree after reset |
| `VtfProgress.EveryAccessIsServed` | hardware_3d/rtl/crypto3d_vtf_soc_top.sv:55-92 | from power-on, with keys ready, no alarm, and epoch and policy steady: an idle bridge accepts every access to a layer that exists, and the CPU hears of it after exactly 136 clocks of the real tag engines (110 unhardened; one fewer if it never reaches the memory) and not before, of success if and only if policy, address and access switch grant it, with the word; the memory has changed by that access and nothing else |
| `VtfProgress.JobClock` | hardware_3d/rtl/crypto3d_vtf_system_top.sv:253-381 | the step of that theorem: every clock brings the answer exactly one clock nearer |
| `VtfProgress.PacedStep` | hardware_3d/rtl/aes_cmac32.sv:73-108 | a tag engine left to its work keeps the CMAC unit's pace, with no work left over |
| `VtfServing.FabricMoves` | hardware_3d/rtl/crypto3d_vtf_system_top.sv:253-381 | an honest request passes both tag checks and the guard, makes its access exactly if the policy passes it, and is answered and signed |
| `VtfServing.TagVerifies` | hardware_3d/rtl/crypto3d_vtf_cpu_bridge.sv:101-169 | the answer carries the tag the bridge computes, and verifies with success exactly if the access was granted |
| `VtfServing.CalmJudge` | hardware_3d/rtl/vertical_trust_guard.sv:125-185 | without an alarm nothing an honest requester does is severe, and the guard's answer to it is the policy's |
| `VtfUnits.GuardUnit.Step` | hardware_3d/rtl/vertical_trust_guard.sv:125-206 | the guard's registers after a clock, and the verdict it gives in it |
| `VtfUnits.BridgeUnit.Step` | hardware_3d/rtl/crypto3d_vtf_cpu_bridge.sv:123-174 | the bridge's registers and its tag engine after a clock |
| `VtfUnits.FabricUnit.Step` | hardware_3d/rtl/crypto3d_vtf_system_top.sv:235-383 | the fabric's registers, guard, tag engine and memory after a clock |
| `VtfAgreement.RunsAgree` | src/vertical_trust_fabric.h:289-329 | in any run of alarms and requests within an epoch, hostile ones included, the C++ fabric and the unhardened guard accept the same requests and end with the same counters and lockdown |
| `VtfAgreement.VerdictIsFinding` | hardware_3d/rtl/vertical_trust_guard.sv:125-185 | without an alarm the guard's verdict, reason, severity and consumption are those of the C++ checks |
| `VtfAgreement.EpochKeepsAgreementExactly` | src/vertical_trust_fabric.h:374-381 | advancing the epoch keeps the two in step exactly if no sequence number was used: the counters are reset in software only |
| `VtfAgreement.HonestUseNeverLocks` | src/vertical_trust_fabric.h:383-437 | however honest requests are interleaved, and whatever the policy denies, requests that arrive in their order never lock the fabric |
| `VtfAgreement.LateRequestLocks` | src/vertical_trust_fabric.h:374-381 | a request issued before an epoch advance locks the fabric when it arrives after |
| `VtfAgreement.FreshIsHonest` | src/vertical_trust_fabric.h:518-534 | a fabric with nothing outstanding satisfies the hypothesis of the honest-use theorem |
| `VtfSoftware.VerticalTrustFabric.ValidateRequest` | src/vertical_trust_fabric.h:289-329 | which request passes, which denial each other gets, what is consumed and what locks |
| `VtfSoftware.VerticalTrustFabric.Execute` | src/vertical_trust_fabric.h:412-437 | what an accepted request does to the memory and what the reply reports |
| `VtfSoftware.VerticalTrustFabric.Issue` | src/vertical_trust_fabric.h:383-410 | an issued request carries the next number of its requester and a tag that passes |
| `VtfSoftware.VerticalTrustFabric.Trip` | src/vertical_trust_fabric.h:281-287 | what a severe denial wipes and locks |
| `VtfSoftware.VerticalTrustFabric.AdvanceEpoch` | src/vertical_trust_fabric.h:374-381 | the new epoch, with both counter sets cleared |
| `MitInit.InitThenRun` | hardware_3d/rtl/memory_integrity_tree.sv:209-316 | from an initialisation on, whatever its ciphers were left doing, every answer of every later run over storage that changes in every clock is right short of a tree collision or a forged data MAC, and over undisturbed storage every access is the software engine's |
| `MitInit.InitBuildsTree` | hardware_3d/rtl/memory_integrity_tree.sv:224-251 | initialisation ends at an exact clock with the root and every stored node of the tree over zero counters, and with the subkeys it then has |
| `MitInit.SubkeysExactly` | hardware_3d/rtl/memory_integrity_tree.sv:170-171 | both subkeys are those of their keys exactly if the AES core is idle when initialisation starts or its left-over result happens to be the encrypted zero block |
| `MitInit.EarlyInitIsWrong` | hardware_3d/rtl/memory_integrity_tree.sv:209-233 | an access, a zeroize and an initialisation within ten clocks make the tree subkey from the old access's keystream block |
| `MitInit.InitLeavesSound` | hardware_3d/rtl/memory_integrity_tree.sv:237-240 | a finished initialisation satisfies the invariant of the adversary theorem, the tracking state of the refinement and the cipher link |
| `MitCores.EveryChipRunIsRight` | hardware_3d/rtl/memory_integrity_tree.sv:84-102 | the adversary theorem over the real CMAC unit and AES core, with nothing assumed of their timing |
| `MitCores.ChipRefinesSoftware` | hardware_3d/rtl/memory_integrity_tree.sv:209-316 | over undisturbed storage the engine with its real ciphers answers, stores and flags as the C++ read and write do under the same keys |
| `MitCores.ChipStep` | hardware_3d/rtl/memory_integrity_tree.sv:159-207 | in every clock the ciphers are ready in the order the engine relies on, and the engine with them steps as the engine without |
| `MitCores.EngineIsCmac` | hardware_3d/rtl/memory_integrity_tree.sv:84-96 | with derived subkeys the two tag functions are CMACs and the stream function is AES under the engine's keys |
| `MitLatency.AccessLatency` | hardware_3d/rtl/memory_integrity_tree.sv:243-312 | whatever storage shows, over the real ciphers and for every depth: the first pass decides after exactly 1 + 26 * depth clocks (a refusal, zeros of a block never written, or on); then a read is answered exactly 26 clocks later, a write with success another 26 * depth + depth - 1 later, and nothing is answered before |
| `MitLatency.EveryAccessIsTimed` | hardware_3d/rtl/memory_integrity_tree.sv:209-312 | so is every access of every run from an initialisation on |
| `MitLatency.AccessStep` | hardware_3d/rtl/memory_integrity_tree.sv:252-312 | the step of that theorem: every clock of an access counts one off, or ends it |
| `MitRtl.EveryRunIsRight` | hardware_3d/rtl/memory_integrity_tree.sv:135-316 | for storage that may change in every clock, in the middle of an access too: every successful read is the last plaintext written and every successful write took effect, until a clock that accepts a collision or a forgery |
| `MitRtl.EngineStep` | hardware_3d/rtl/memory_integrity_tree.sv:209-316 | one clock keeps the root register true to the real counters, whatever storage shows |
| `MitQuiet.HardwareRefinesSoftware` | hardware_3d/rtl/memory_integrity_tree.sv:252-312 | over undisturbed storage each hardware answer, and the storage, root and flag it leaves, are those of the C++ access |
| `MitUnit.TreeUnit.Step` | hardware_3d/rtl/memory_integrity_tree.sv:243-312 | the engine's registers after a clock in any state of an access, arrays updated in place |
| `MitUnit.TreeUnit.EndPath` | hardware_3d/rtl/memory_integrity_tree.sv:264-293 | what the engine does when a tag of the path has come: up, check against the root, or replace it |
| `MitSpec.EveryRunIsRight` | src/memory_integrity.h:39-74 | for every run of reads, writes and arbitrary edits of all of storage: until an access meets a collision or a forgery, every successful read is the last plaintext written (zero if none), and no keystream input is used twice |
| `MitSpec.ReadReturnsLastWrite` | src/memory_integrity.h:39-52 | one successful read returns the last plaintext written, or yields two colliding messages or a forged triple |
| `MitSpec.WriteKeepsTrust` | src/memory_integrity.h:54-74 | one successful write keeps the root true and uses a fresh (block, counter) pair, or yields a collision |
| `MitSpec.PathUpdateIsRebuild` | src/memory_integrity.h:54-74 | the path update leaves root and every stored node as a full rebuild from the new counters would |
| `MitSpec.QuietRead` | src/memory_integrity.h:39-52 | over undisturbed storage every read succeeds with the last plaintext |
| `MitSpec.QuietWrite` | src/memory_integrity.h:54-74 | over undisturbed storage every write succeeds unless its counter is used up, and leaves storage undisturbed |
| `MitTree.RootChecks` | src/memory_integrity.h:39-52 | a path that gives the root is the honest one, or two different messages have the same tag |
| `MitTree.UpdatedRoot` | src/memory_integrity.h:54-74 | recomputing one path gives the root of the tree over the new counters |
| `MitTree.SlotsDisjoint` | src/memory_integrity.h:103-103 | no two nodes share a slot and every slot is in range, for every depth |
| `MitTree.LayoutTiles` | src/memory_integrity.h:103-103 | the levels follow each other without gaps and fill exactly all slots but the root's |
| `MitEngine.MemoryIntegrityTree.constructor` | src/memory_integrity.h:27-37 | a new engine over fresh storage is in the undisturbed state over zero counters |
| `MitEngine.MemoryIntegrityTree.Build` | src/memory_integrity.h:132-144 | the build loop leaves the root and every stored node of the tree |
| `MitEngine.MemoryIntegrityTree.Path` | src/memory_integrity.h:147-162 | the loop up the path computes root and nodes from stored or cached siblings, and fills the cache |
| `MitEngine.MemoryIntegrityTree.Read` | src/memory_integrity.h:39-52 | status, data and flag of a read, with nothing else changed |
| `MitEngine.MemoryIntegrityTree.Write` | src/memory_integrity.h:54-74 | status of a write and the whole storage, root and flag it leaves |
| `LifeCycle.SealRunReseal` | src/3d.cpp:2567-2630 | encrypt, seal, run for any number of cycles, reseal: unless an access locked the run, the image validates, opens to the same key, still carries the program, and its decrypted data are those of the sequential machine after the instructions that passed the memory stage |
| `LifeCycle.RunLeaves` | src/3d.cpp:2567-2600 | a run cut off at any cycle leaves the sequential machine's data and every other word as it was |
| `LifeCycle.UnopenedImageStays` | src/3d.cpp:1977-1995 | an image that does not open never runs: the security lock is latched with the mark that the key failed, and nothing else changes |
| `LifeCycle.SealCarries` | src/3d.cpp:1398-1499 | sealing moves neither program nor data, if no hidden bit falls on the data |
| `PipelineResults.RejectedImageRunsNothing` | src/3d.cpp:1977-1995 | the helper of that theorem: a platform that does not boot latches the failure and the lock in its first cycle, and changes no register and no word |
| `PipelineResults.KeyFailsExactly` | src/3d.cpp:1977-1995 | in every run from power-on the key is refused exactly if the image fails validation, in the first cycle, and otherwise taken then and kept |
| `BlockMap.MapPermutes` | src/3d.cpp:408-470 | for every region and epoch the searched affine map permutes the region's blocks and moves nothing else |
| `BlockMap.MapIsOnto` | src/3d.cpp:446-470 | every block of the region is where some block is stored |
| `BlockMap.SearchIsCoprime` | src/3d.cpp:373-444 | whatever the seed, the search ends with a multiplier coprime to the block count |
| `BlockMap.BuildParams` | src/3d.cpp:408-444 | the search loop computes the parameters the permutation theorem is about |
| `HiddenKey.PositionsApart` | src/3d.cpp:732-777 | positions that are found are 128, all different, in the window, outside header and text |
| `HiddenKey.FindPositions` | src/3d.cpp:732-777 | the search loops find exactly these positions, or fail exactly when there are none |
| `HiddenKey.HiddenKeyRoundTrip` | src/3d.cpp:779-811 | the hidden key is read back bit for bit, whatever was in the image |
| `HiddenKey.FlippedIsSeen` | src/3d.cpp:779-794 | inverting any one hidden bit changes the key that is read |
| `HiddenKey.HideElsewhere` | src/3d.cpp:796-811 | hiding changes no word that holds no hidden bit |
| `HiddenKey.HideWrapped` | src/3d.cpp:796-811 | the in-place loop hides the key as specified |
| `HiddenKey.ExtractHidden` | src/3d.cpp:779-794 | the extraction loop reads the key as specified |
| `Regions.TextRoundTrip` | src/decryptor.cpp:212-255 | for every text that fits, every epoch and key, what the decryptor reads from an encrypted region is the text, word for word |
| `Regions.EncryptText` | src/encryptor.cpp:342-387 | the encryptor's loop over the text puts every block, encrypted, where the map says and touches nothing else; it fails exactly on a region that reaches into the header |
| `Regions.EncryptData` | src/encryptor.cpp:389-426 | the encryptor's loop over the data encrypts every block in place and touches nothing else |
| `Regions.DecryptText` | src/decryptor.cpp:212-255 | the decryptor's loop recovers every word of the text region it covers |
| `SealedImage.SealThenOpen` | src/3d.cpp:1236-1499 | a sealed image validates exactly if its text region, as corrected, is block aligned, and then opens to the key it was sealed with |
| `SealedImage.HeaderRoundTrip` | src/3d.cpp:815-858 | a stored header is read back, and accepted exactly if its layout is well formed |
| `SealedImage.IntactOpens` | src/3d.cpp:1236-1291 | an intact image passes validation exactly if its image tag covers its contents, and then opens to its key |
| `SealedImage.ResealRestores` | src/3d.cpp:1032-1107 | resealing an intact image succeeds, changes only the image tag, and the result validates and opens to the same key |
| `SealedImage.ResealableExactly` | src/3d.cpp:1032-1107 | resealing succeeds after every change of data words exactly if no hidden bit lies in the data region |
| `SealedImage.LowDataIsClear` | src/3d.cpp:732-777 | a data region that ends at or below word 512 holds no hidden bit |
| `SealedImage.WideDataBreaksReseal` | src/3d.cpp:732-777 | with a data region over the whole hidden-bit window there are stores after which the image cannot be resealed |
| `SealedImage.UnalignedIsRejected` | src/3d.cpp:1117-1150 | an image sealed with an unaligned text region is rejected by validation |
| `SealedImage.SealKeepsText` | src/3d.cpp:1398-1499 | sealing changes no text word and no word between the header and word 512 |
| `SealOps.SecureLayer.CreateLargeBlock` | src/3d.cpp:1398-1499 | the in-place seal, its return code and its lock |
| `SealOps.SecureLayer.ValidateImage` | src/3d.cpp:1236-1291 | the return code of every check in its order, and the lock on failure |
| `SealOps.SecureLayer.ExtractKey` | src/3d.cpp:1367-1396 | the key of a valid image, zero and a lock otherwise |
| `SealOps.SecureLayer.ResealImage` | src/3d.cpp:1032-1107 | the in-place reseal, its return code and its lock |
| `AssemblerPasses.ControlLands` | src/asm_to_hex.cpp:688-747 | in every program that assembles, the block the CPU computes from a branch or jump is the block starting with the word emitted after its label |
| `AssemblerPasses.AddressesAgree` | src/asm_to_hex.cpp:298-490 | in every program that assembles, each statement's first-pass address is where the second pass emits it |
| `AssemblerPasses.InstructionPlaced` | src/asm_to_hex.cpp:752-822 | the words of every instruction stand in the program at its address |
| `AssemblerPasses.DataLabelLands` | src/asm_to_hex.cpp:318-353 | a data label's address is where the second pass will stand, and the CPU translates it to that word of the data region |
| `AssemblerPasses.DataPlacedExactly` | src/asm_to_hex.cpp:409-430 | every data list stands in the data image at its address exactly if none has 2^30 words or more, whose byte count wraps |
| `AssemblerPasses.HugeListIsLost` | src/asm_to_hex.cpp:409-430 | a program with 2^30 zeros in its data section assembles, to an empty data image |
| `AssemblerProof.EncodesAsWritten` | src/asm_to_hex.cpp:501-750 | every instruction takes the words the first pass reserves, and the CPU decodes opcode, registers and immediate as written |
| `AssemblerProof.LaLoads` | src/asm_to_hex.cpp:518-533 | the two words of a load-address leave exactly that 32-bit value in the register |
| `Assembler.FirstPass` | src/asm_to_hex.cpp:298-490 | the first pass's loop gives every statement and label its address, or fails where the source does |
| `Assembler.SecondPass` | src/asm_to_hex.cpp:752-843 | the second pass's loop emits the words of every statement, or fails where the source does |
| `Assembler.CollectData` | src/asm_to_hex.cpp:824-841 | the data words, zero where nothing was placed |
| `Aes.DecryptInvertsEncrypt` | src/3d.cpp:1547-1721 | for every key and block, decryption undoes encryption |
| `Aes.GaloisMul` | src/3d.cpp:1547-1558 | the product loop computes multiplication in the field of section 4.2 of FIPS 197 |
| `Aes.Aes128Inverts` | src/3d.cpp:1663-1721 | AES-128 is one of the ciphers the CPU and sealed-image theorems are proved for |
| `AesTables.SBoxInverts` | src/3d.cpp:1505-1541 | every byte comes back through the inverse table |
| `AesOps.ExpandKey` | src/3d.cpp:1629-1661 | the key expansion loop leaves the eleven round keys of section 5.2 of FIPS 197 |
| `AesOps.EncryptBlock` | src/3d.cpp:1663-1691 | the array routine computes the cipher |
| `AesOps.DecryptBlock` | src/3d.cpp:1693-1721 | the array routine computes the inverse cipher |
| `AesRtl.CoreEncrypts` | hardware_3d/rtl/aes128_core.sv:112-155 | eleven clocks after a start, not before and whatever is presented meanwhile, the core shows the encrypted block |
| `AesRtl.MixBytesIsMixColumn` | hardware_3d/rtl/aes128_core.sv:80-92 | the core's shift-and-add mix is the field multiplication of the cipher |
| `AesRtl.CoreUnit.Step` | hardware_3d/rtl/aes128_core.sv:122-155 | the core's registers after a clock |
| `CmacRtl.EveryTagIsRight` | hardware_3d/rtl/aes_cmac32.sv:59-117 | from reset, if no request is made into a unit with a start pending and either all requests bring their subkey or none does, every tag is the CMAC of its request, with clears at any clock |
| `CmacRtl.RequestAnswered` | hardware_3d/rtl/aes_cmac32.sv:78-108 | a unit left alone answers after exactly 25 or 37 clocks (one fewer with a start pending) with the tag of the work the request became |
| `CmacRtl.SettledAnswerExactly` | hardware_3d/rtl/aes_cmac32.sv:78-96 | with no start pending the answer is the CMAC exactly if the subkey used is that of the key; a cache miss always is |
| `CmacRtl.PendingExactly` | hardware_3d/rtl/aes_cmac32.sv:110-115 | a start is left pending exactly by a clear that meets a finished operation other than the last |
| `CmacRtl.PendingMissExactly` | hardware_3d/rtl/aes_cmac32.sv:78-96 | a miss with a start pending is answered rightly exactly if the stale operation gives the same block |
| `CmacRtl.PendingHitIsWrong` | hardware_3d/rtl/aes_cmac32.sv:78-96 | of two hits with a start pending that differ in the first block, at least one is answered wrongly |
| `CmacRtl.ClearLeavesPending` | hardware_3d/rtl/aes_cmac32.sv:110-115 | a clear twelve clocks after any request leaves such a unit, idle and accepting |
| `CmacRtl.ClearWipesExactly` | hardware_3d/rtl/aes_cmac32.sv:74-78 | a clear wipes the cached subkey except at the clock that fills the cache |
| `CmacRtl.MixedModesExactly` | hardware_3d/rtl/aes_cmac32.sv:78-92 | a request with its own subkey between two without leaves its subkey under the cached key: the second is right exactly if the two subkeys are equal |
| `CmacRtl.CmacUnit.Step` | hardware_3d/rtl/aes_cmac32.sv:59-117 | the unit's registers after a clock |
| `CmacBytes.AesCmac128` | src/aes_cmac.h:58-109 | the byte-buffer routine computes the CMAC of sections 6.1 and 6.2 of NIST SP 800-38B for messages of every length |
| `CmacBytes.HardwareIsSoftware` | src/aes_cmac.h:58-109 | on two full blocks the software routine and the hardware unit compute the same tag |
| `KeySchedule.OutputsAreDerived` | hardware_3d/rtl/vtf_key_schedule.sv:75-191 | under any interleaving of loads, epoch changes and zeroize, a ready unit shows exactly the working keys and subkeys of the last root for the active epoch, and any other shows zeros |
| `KeySchedule.RootBringsKeys` | hardware_3d/rtl/vtf_key_schedule.sv:116-181 | an accepted root is ready after exactly 169 clocks with the epoch hierarchy and 49 without |
| `KeySchedule.ZeroizeWipes` | hardware_3d/rtl/vtf_key_schedule.sv:108-114 | zeroize wipes the unit's own key registers in one clock; the registers of its AES core are not among them |
| `KeyWipe.ZeroizeCleansExactly` | hardware_3d/rtl/vtf_key_schedule.sv:20-21 | in every run, a zeroize leaves the whole unit as after a reset, state, round key and result of the AES core included, if and only if the core is neither at work nor about to start and its result register is blank |
| `KeyWipe.NoRootNoTrace` | hardware_3d/rtl/vtf_key_schedule.sv:117-122 | a unit that has never accepted a root holds nothing at all |
| `KeyWipe.ZeroizeSettles` | hardware_3d/rtl/aes128_core.sv:122-155 | eleven clocks after a zeroize, with no root accepted, the core's state and round key are blank too, and its result register holds the block of the operation that was under way, or else of the last one: all is clean if and only if that block is zero |
| `KeyWipe.RemnantIsKey` | hardware_3d/rtl/vtf_key_schedule.sv:116-181 | that block is a base key, a working key or the block a subkey is made from, whichever the unit was waiting for; in a ready unit its double is the erased response subkey |
| `KeyWipe.CoreKeepsKey` | hardware_3d/rtl/aes128_core.sv:132-151 | right after a zeroize a core that has just started holds the operation's key itself, and one at work a round key of it |
| `KeyWipe.ResultKeepsKey` | hardware_3d/rtl/vtf_key_schedule.sv:150-156 | from a working key's delivery on, until the next block comes, the result register shows that key after a zeroize |
| `KeyWipe.ReadyWipeKeepsSubkey` | hardware_3d/rtl/vtf_key_schedule.sv:108-114 | from any root, a unit that has come up and is zeroized, its core idle, goes on holding the block whose double is the erased response subkey |
| `KeyWipe.SomeWipeFails` | hardware_3d/rtl/vtf_key_schedule.sv:108-131 | for every root there is a zeroize that does not wipe: of one during the first base key and one during the second, both end with that base key in the result register, and at most one of them is zero |
| `KeyWipe.TracedStep` | hardware_3d/rtl/vtf_key_schedule.sv:103-187 | in every clock the core works under the key the unit asked with, its round key is of that key's schedule, and its result is what the unit took last |
| `KeySchedule.KeyUnit.Step` | hardware_3d/rtl/vtf_key_schedule.sv:95-191 | the unit's registers and key arrays after a clock |
| `KeySchedule.FabricKeys.DeriveDomainKeys` | src/vertical_trust_fabric.h:155-167 | the C++ class then holds the keys the hardware shows for the same root and epoch |
| `KeySchedule.FabricKeys.AdvanceEpoch` | src/vertical_trust_fabric.h:374-381 | and still does after an epoch advance |
| `MaskedSBox.MaskedIsSBox` | hardware_3d/rtl/aes_sbox_masked.sv:75-127 | for every input stream, every start state and every randomness, the two output shares sum to the S-box of the byte that went in nine clocks before |
| `MaskedSBox.ChainIsSBox` | hardware_3d/rtl/aes_sbox_masked.sv:47-57 | for every byte the power chain and the affine map give the table entry |
| `MaskedSBox.SquareIsLinear` | hardware_3d/rtl/aes_sbox_masked.sv:47-49 | squaring distributes over the shares |
| `MaskedSBox.SBoxUnit.Step` | hardware_3d/rtl/aes_sbox_masked.sv:75-123 | the nine stages of registers after a clock |
| `Sha256.StreamingIsDigest` | src/3d.cpp:563-612 | however a message is split into update calls, the result is the digest of the whole, padded and processed as in sections 5.1.1 and 6.2.2 of FIPS 180-4 |
| `Sha256.FinishPads` | src/3d.cpp:593-612 | finishing pads any buffered message as the standard does |
| `Sha256.Sha256Ctx.Transform` | src/3d.cpp:515-561 | the compression loop computes the compression function |
| `Sha256.Sha256Ctx.Update` | src/3d.cpp:576-585 | the byte loop absorbs its data |
| `Sha256.Sha256Ctx.Final` | src/3d.cpp:593-612 | the padding loop and the length end the message |

## Findings

What the documented or intended behaviour promises and the code does not keep. Each names
the member that says exactly when. Most also name one that exhibits a case; unaligned text,
hidden bits in data and early initialisation have none written out: their members say what
every image, or every clock, that meets the condition leads to.

- Stores to unencrypted data words flush the instructions behind them, decoded or not
  (src/3d.cpp:1759-1765), and fetch resumes with a later block: the rest of the store's
  block is lost unless it is inert or a jump directly behind the store was predicted
  (`PlainStores.RunIsDocumentedExactly`, `Departures.PlainStoreLosesInstructions`). With
  encrypted data, which is what the encryptor writes, this does not happen.
- A taken conditional branch in slots 0 to 2 whose target lies in its own block falls
  through: blocks are compared where words would be needed (src/3d.cpp:2191-2215,
  `Isa.NominalStepExactly`, `Departures.OwnBlockBranchFallsThrough`).
- When a load or store locks the machine, an AES encryption behind it may already be in the
  coprocessor register (`PipelineResults.LocksArePrecise`,
  `Departures.CoprocessorAheadAtLock`). Registers and memory are precise.
- Hidden key bits avoid header and text but not data: data above word 512 can make an image
  that validates and runs, and then cannot be resealed (`SealedImage.ResealableExactly`).
- Sealing accepts a text region that is not block aligned, and the sealed image then never
  validates (`SealedImage.SealThenOpen`).
- In the CMAC unit, a clear that meets a finished operation leaves a start pending, and the
  next request is answered from the stale operation; requests with and without a presented
  subkey in turn use a subkey of another key; and a clear at the clock that fills the cache
  keeps the subkey (`CmacRtl.PendingExactly`, `CmacRtl.MixedModesExactly`,
  `CmacRtl.ClearWipesExactly`). Inside the fabric none of these is met
  (`VtfEngine.UnitIsTheEngine`).
- Initialising the integrity engine within ten clocks of a zeroize that cut off an access
  makes the tree subkey from the old keystream block (`MitInit.SubkeysExactly`,
  `MitInit.EarlyInitIsWrong`). The tree still works, under tags that are not CMACs.
- Zeroizing the key schedule is to wipe the root copy and every derived key and subkey
  (hardware_3d/rtl/vtf_key_schedule.sv:20-21), but the AES core under it is not wiped. A
  zeroize is clean only if the core is idle and has never delivered a block, or a zero one
  (`KeyWipe.ZeroizeCleansExactly`). A core at work keeps round keys of the root or of a
  working key until it ends (`KeyWipe.CoreKeepsKey`), and the last block stays in its result
  register until the next operation: a base key, a working key or the source of a subkey
  (`KeyWipe.RemnantIsKey`, `KeyWipe.ReadyWipeKeepsSubkey`, `KeyWipe.SomeWipeFails`). The
  unit's outputs do show zeros.
- An epoch advance resets the sequence counters in software only, so software and guard
  part unless none was used, and a request still under way locks the fabric
  (`VtfAgreement.EpochKeepsAgreementExactly`, `VtfAgreement.LateRequestLocks`).
- A data list of 2^30 words or more assembles without its words
  (`AssemblerPasses.DataPlacedExactly`, `AssemblerPasses.HugeListIsLost`).

## Left out

- VtfFaults.SingleUpsetIsSurvived: the fault set is one state rail, one bit of the authentication code, any change of the latched request fields, one bit of the latched tag, any change of the engine's message register, one lockdown rail, one bit of a sequence counter or its parity, one bit of the response registers or their parity, and the shadow decision bits, first tag and alarm. Upsets inside the cipher datapath, of keys and subkeys, of the memory read register and of the output registers are outside it.
- VtfChannel.RunIsLinearizable: holds within one epoch and before a sequence counter wraps, and takes the absence of forged tags as a hypothesis; a channel that delivers nothing is allowed, so it says nothing about liveness; over the wires of the system on chip `VtfProgress.EveryAccessIsServed` does.
- VtfProgress.EveryAccessIsServed: keys are ready, no alarm is raised, epoch, roles and switches are steady, and accesses are to layers that exist (the guard locks on any other); how long an access takes that an alarm or an epoch change cuts short is not stated.
- MitUnit.TreeUnit.Step: the object has the states of an access; key loading and the build states are modelled on values in `MitInit`, and a zeroize there only as the clocks before an early initialisation; what else it leaves in the engine's two ciphers is not stated.
- VtfEngine.UnitIsTheEngine: holds for runs without upsets.
- MitInit.InitBuildsTree: storage is undisturbed during initialisation, which reads back the nodes it wrote; initialisation itself is modelled on values, not as an object.
- VtfAgreement.RunsAgree: requests have in-range layers and addresses, and one epoch.
- LifeCycle.SealRunReseal: data are encrypted, as the encryptor always leaves them.
- Nonce, key derivation, HMAC and measurement are functions of exactly the values the source feeds them; only SHA-256, CMAC and AES are modelled inside.
- Strength of AES, CMAC and SHA-256, side channels, masking order, randomness and physics.
- The assembler starts from parsed statements: trimming, splitting, number and register parsing, comments and file input and output are left out.
- Hexadecimal files, command lines, logging, traces and performance counters.
- Layers other than layer 0, TSV pass-through modules, sentinel and thermal measurement (their alarms are inputs), tamper logs and layer scrambling.
- The forwarding selectors of the hazard check, which the stages do not use.
- The decryptor's dump of single data words; the data region is read as a whole.
- Hidden-bit positions are pairs of word and bit rather than one number.
- Counters of the software fabric that only count events, and its route nonce beyond being a function of its inputs.
