# Verified model of the eon DMA driver

The repository is a Linux PCIe driver for a DMA accelerator. This project models
its four demanding parts in Dafny and proves what they promise:

- **The scatter/gather compiler and its execution.** A user buffer becomes one
  scatter entry per page, one 24-byte descriptor per entry, and a link back to
  the list's start. The list travels to the device by one plain DMA and the
  engine walks it. The theorem is that this copies `len` bytes and changes
  nothing else. It holds for every buffer address, page mapping and length under
  4 GiB, for either engine variant, and after any number of engine steps.
- **The completion protocol.** Callers, channel locks, the register-window lock,
  the engine's status events, and the handler thread's marks, clears and
  wake-ups, as a step relation.
- **The sliding register window.** 16 MiB of device memory behind BAR 2, moved by
  reprogramming a translation region, against a flat register file.
- **The resource ledger.** What each call holds after every failure.

## Layout

| file | part |
|---|---|
| `common.dfy`, `words.dfy`, `memory.dfy` | shared notions, machine words and bytes, memories |
| `descriptor.dfy` | element layout, setters in place on the buffer, decoding |
| `scatter.dfy` | page count and the split into scatter entries |
| `engine.dfy` | the engine's rules and the list walk |
| `registers.dfy`, `channel.dfy` | register maps, translation regions, what a channel's registers mean, and what starts an engine |
| `pipeline.dfy`, `list_builder.dfy` | list, jobs and the end-to-end copy theorems; the list-building loop |
| `window.dfy`, `device.dfy`, `linear.dfy` | the register window, the device object, concurrent register accesses |
| `setup.dfy`, `transfer.dfy`, `hdma.dfy` | pinning and tables, the two transmit functions, whole transfers |
| `interleave.dfy`, `progress.dfy` | any number of transfers at once, and that they all finish |
| `protocol.dfy` | the completion protocol and its locks |
| `completion.dfy`, `wakeups.dfy` | premature and lost completions; who is woken, and deadlock |
| `composed.dfy`, `composed_progress.dfy` | transfers whose waits end on the handler's mark, and that they all return |
| `handler.dfy` | the handler thread's loops and the interrupts |

`dafny verify dfyconfig.toml` checks everything.

## What is assumed of hardware and kernel

The repository does not define the engine, the translation unit or the kernel.
The model states them outright:

- The engine fetches 24 bytes at its pointer. LLP set: it goes to the element's
  pointer and flips its cycle state when TCB is set. LLP clear and CB equal to the
  cycle state: it copies and moves on by 24. LLP clear and CB different: it
  stops. A `strict` engine also stops at a link whose CB differs. Both variants
  are covered everywhere. Bit 0 of control1 selects list mode and bit 1 of
  cycle_off is the initial cycle state.
- A channel's engine starts when a store with bit 0 set reaches its doorbell
  register, on what the channel's registers say by then. No other store does
  anything but change its register.
- A read channel moves host to device and a write channel device to host. Lists
  are fetched from device memory.
- A translation region matches a BAR when enabled in BAR-match mode; the lowest
  matching region wins, and the value the driver stores as its size bounds it.
- Allocations, `get_user_pages_fast`, mappings and waits answer as an arbitrary
  `Outcomes` value says. `pci_map_sg` keeps one entry per page, at the page's own
  address. A CPU store to a mapped buffer is visible to the device.
- A wait's outcome comes with the number of engine steps taken before it ended.
- A caller in a wait looks at the state, sleeps if it is RUNNING, and looks again
  only when woken or when it gives the wait up.

## Where the code departs from its intent

Each departure is modelled as the code has it.

- A length of 4 GiB or more is cut to its low 32 bits: the table covers the
  buffer exactly when the length is under 2^32 (`Scatter.CoversIffShort`).
- A negative pin result compares as a large unsigned number and passes as
  success; the pages then released were never pinned (`Hdma.StrayExactly`).
- The scatter mapping is never undone: each successful set-up leaves one
  (`Hdma.EonHdmaInbound`, `Hdma.EonHdmaOutbound`).
- A wait ended by a signal returns 0. If that happens before the list was sent,
  the data phase runs on whatever lies at the list address, and may hit any
  device byte inbound (`Hdma.UnsentListRunsWild`) or any host byte outbound
  (`Hdma.UnsentListHitsHost`). If it happens during the data phase, the buffer is
  whole exactly when the engine had a step for each element by then.
- An outbound transfer that fails after its set-up answers 0.
- A batch of exactly sixteen register writes is skipped and the doorbell still
  rings (`Transfer.HdmaContext.DmaLlmodeTransmit`).
- A rejected register address leaks the argument buffer (`Device.EonDevice.EonRwReg`).
- A completion is never early exactly when transfers raise no event, or one event
  each and no wait is left before its time. With the driver's five-second
  time-out compiled in, waits can be left (`Completion.PrematureExactly`).
- The handler marks a channel completed before it clears the status. A whole next
  transfer fits in between, and its event is then cleared with the old one and
  never comes back. Keeping transfers from starting in that gap is exactly what
  would prevent it (`Completion.LostExactly`, `Completion.LostForever`,
  `Completion.LostReachable`).
- The token loop marks an abort like a completion, and wakes nobody for a status
  without the stop bit. Its caller sleeps on with the channel locked until it
  gives up (`Wakeups.NoStopBit`, `Wakeups.StrandedForever`). So without time-outs
  the driver is not free of deadlock; `Wakeups.DeadlockFree` gives the exact
  condition. With them it is (`Wakeups.DriverMoves`).
- An unaligned register access that crosses a window's end is not the flat access
  (`Window.FlatExactlyWhereFits`).

## Model

| member | source | states |
|---|---|---|
| Words.FromToBytes | hdma.c:18-22 | any value under 256^n comes back from its n little-endian bytes |
| Descriptor.SetDataElement | hdma.c:5-23 | the element's 24 bytes in plain numbers: CB, LLP, LIE and RIE at bits 0, 2, 3 and 4 of the first byte with its other bits kept, bytes 1 to 3 kept, then length, source and destination little-endian; all other bytes kept |
| Descriptor.SetLinkElement | hdma.c:25-34 | likewise a link's: CB, TCB and LLP at bits 0, 1 and 2, the pointer in bytes 8 to 15, everything else kept |
| Descriptor.DataFlagsValue | hdma.h:134-140 | the first byte of a data element as a sum of its bit fields |
| Descriptor.LinkFlagsValue | hdma.h:148-152 | the first byte of a link element as a sum of its bit fields |
| Descriptor.DecodeDataImage | hdma.h:134-146 | decoding a data element returns source, destination, length and flags for all 64-bit addresses and all values of the unwritten bits |
| Descriptor.DecodeLinkImage | hdma.h:148-156 | decoding a link element returns pointer, TCB and CB likewise |
| Scatter.PagesNrIsCeiling | test_dev.c:56-61 | the wrapping page-count formula is the number of pages touched, even where address plus length wraps |
| Scatter.FillTable | test_dev.c:190-208 | the loop leaves the table whose entry k is read off the cursor after k turns |
| Scatter.CursorClosed | test_dev.c:193-207 | the loop's remaining count and page offset after k turns, in closed form, for every 64-bit length |
| Scatter.CoversIffShort | test_dev.c:150-208 | for every 64-bit length the entries cover the buffer if and only if it is under 2^32; while the block count fits an int they cover the length modulo 2^32 |
| Scatter.ExactTiling | test_dev.c:190-208 | entries are non-empty, each inside one page, consecutive pages, only the first off a page boundary, and the count reaches zero at the last entry and not before |
| Scatter.ByteInEntry | test_dev.c:190-208 | which entry and offset hold byte x of the buffer |
| Pipeline.NarrowingLossless | test_dev.c:150-207 | under 4 GiB block count, entry lengths and descriptor bytes fit every narrower type they pass through |
| ListBuilder.BuildList | test_dev.c:283-310 | whatever the buffer held, it ends as the table's jobs byte for byte over the old contents, interrupts on the last only, closed by the self-link; read back, it is the list of those jobs |
| Pipeline.ImageIsList | test_dev.c:309-310 | that encoding, copied to the link's address, is a list the engine can walk |
| Engine.WalkOnce | test_dev.c:297-310 | on any such list the engine halts after exactly n+2 steps (n+1 if strict), having executed each element once and in order, for every step count |
| Pipeline.JobBytes | test_dev.c:283-308 | job i covers exactly the buffer bytes of entry i on the host side and their place from the device base on |
| Pipeline.InboundCopies | test_dev.c:283-308 | after k elements the first bytes of the target hold the user buffer's and nothing else has changed |
| Pipeline.OutboundCopies | test_dev.c:291-308 | after k elements the first bytes of the user buffer hold the device's and no other host byte has changed |
| Pipeline.InboundTransfer | test_dev.c:510-567 | from the built list on, after any number of engine steps: exact contents of every byte of both memories, the whole buffer moved exactly from step n on (n elements), and the engine halted exactly from step n+2 on (n+1 if strict) |
| Pipeline.OutboundTransfer | test_dev.c:569-625 | the mirror theorem with the data on the write channel |
| Registers.AddressInjective | hdma.h:27-130 | no two registers of any two channels or directions share an address |
| Channel.OnlyDoorbells | hdma.h:29-88 | the doorbells of the sixteen channel pairs lie 0x400 apart from 0x1004 on, and no other channel register is one |
| Registers.BelowAtu | hdma.h:22-130 | a channel's registers lie below the translation block exactly for indices under 16 |
| Registers.AtuAddressInjective | iatu.h:8-43 | no two translation registers share an address |
| Registers.MapSetsOneRegion | iatu.c:14-26 | programming a region sets exactly that region and direction, and changes no other region and no channel register |
| Channel.ProgramFrame | hdma.c:225-273 | programming a channel changes no other channel's register and no translation region |
| Channel.DescPhaseConfigures | test_dev.c:344-353 | whatever the channel's registers held, the list phase makes the next doorbell one plain copy of the list |
| Channel.ChainPhaseConfigures | test_dev.c:444-449 | whatever they held, the data phase makes it a walk from the list address in cycle state 1 |
| Channel.DescPhaseReadback | test_dev.c:344-353 | every register of the list phase read back at its plain address, the doorbell included |
| Channel.ChainPhaseReadback | test_dev.c:444-478 | and of the data phase |
| Device.EonDevice.constructor | eon_drv.c:119-123 | the state after set-up: region 0 on the descriptor memory in both directions, no window, no engine started, nothing held |
| Device.EonDevice.IatuMapInboundBar | iatu.c:33-57 | over 16 MiB fails and writes nothing; otherwise target, size and control values at the region's plain addresses, and no other register |
| Device.EonDevice.IatuMapOutboundBar | iatu.c:7-31 | the same outbound |
| Device.EonDevice.RegsOperations | test_dev.c:383-428 | rejects exactly the addresses out of range, else does the window's 32-bit operation; inbound and outbound region 1 both show the cached base, no other region, channel register or engine changes |
| Device.EonDevice.EonRwReg | test_dev.c:697-789 | the window's operation of any width with the same frame, every return value, and a leaked argument buffer exactly on a rejected address |
| Window.WindowTranslates | test_dev.c:396-404 | an access reaches its full address exactly when it fits its window |
| Window.AlignedFits | test_dev.c:396-397 | aligned accesses always fit |
| Window.WindowRefines | test_dev.c:749-773 | what is written and read through BAR 2 is the window's operation |
| Window.FlagEffects | test_dev.c:749-773 | byte by byte what each flag does: four bytes or two written low byte first, four or two read, nothing else |
| Window.FlatExactlyWhereFits | test_dev.c:726-773 | the window is the flat register file if and only if the access fits |
| Linear.MovedOk | test_dev.c:398-404 | the eight stores of a window move leave the new window in place in both directions over any old one |
| Linear.Linearizable | test_dev.c:725-785 | in every interleaving of store-by-store accesses by any number of callers, memory and results are those of the accesses in lock order on one flat register file, and between accesses both regions show the cached base |
| Setup.DpuGetPages | test_dev.c:63-121 | each return value and exactly what is held after it, stray pages included |
| Setup.DpuPutPages | test_dev.c:123-141 | gives back one pin per non-null page and the block array |
| Setup.DpuSetupSg | test_dev.c:144-247 | return values in order of failure, the table on success, and what is held; nothing on failure |
| Setup.DpuTeardownSg | test_dev.c:249-254 | gives back entries, header, pins and block array |
| Hdma.SetHdmaDesc | test_dev.c:256-317 | on success the list is in the buffer the device sees, byte for byte over what kmalloc left there; buffer and mapping are held only then |
| Hdma.TeardownDmaDesc | test_dev.c:319-325 | gives back mapping and buffer |
| Transfer.HdmaContext.SetAttr | hdma.c:245-254 | the three attribute registers and no other |
| Transfer.HdmaContext.SetXferData | hdma.c:256-273 | size, source and destination in five registers and no other |
| Transfer.HdmaContext.SetDescPointer | hdma.c:237-243 | the list pointer in two registers and no other |
| Transfer.HdmaContext.StartTransfer | hdma.c:225-229 | the store that starts the channel's engine, once, on what its registers say |
| Transfer.HdmaContext.TranferDesc | test_dev.c:327-381 | one start, one plain copy within the steps given, every programmed register read back, the channel state and the return value of each ending |
| Transfer.HdmaContext.ApplyBatch | test_dev.c:457-474 | fewer than sixteen enabled writes are applied up to the first illegal address, sixteen or more are not; no channel register and no region but the window's changes |
| Transfer.HdmaContext.DmaLlmodeTransmit | test_dev.c:430-496 | the engine is started once if the batch had no illegal address and enable is set, never otherwise; the walk starts at the list on the memory the batch left; every programmed register read back, the window base, the channel state and the return value |
| Transfer.BatchIsFlat | test_dev.c:457-474 | a batch of accesses that fit is the sequence of flat writes |
| Transfer.LastWriteWins | test_dev.c:457-474 | a byte the batch reaches holds what the last write that reaches it put there |
| Hdma.EonHdmaInbound | test_dev.c:510-567 | return value, ledger, channel state, registers and starts for every outcome; nothing but the ledger changes if an allocation failed; every byte of both memories, batch included, without a start and after a launch, where the whole buffer is there exactly when the engine had a step for each element, also when the second wait times out or is interrupted |
| Hdma.EonHdmaOutbound | test_dev.c:569-625 | the same outbound, with late failures answered 0 |
| Hdma.UnsentListRunsWild | test_dev.c:355-362 | after an early interrupted first wait the inbound walk may overwrite any device byte off the list |
| Hdma.UnsentListHitsHost | test_dev.c:602-610 | and the outbound walk any host byte, whatever host memory holds |
| Hdma.StrayExactly | test_dev.c:96-109 | pages are released unpinned if and only if a negative pin result meets a page array that is not all null |
| Interleave.EngineStep | test_dev.c:441-493 | amid other calls the engine's next step on a call's list is the step it takes alone |
| Interleave.StoreStarts | hdma.c:225-229 | of a phase's stores the doorbell's alone starts an engine |
| Interleave.RegsLatch | test_dev.c:344-353 | when a doorbell rings the engine latches what this phase asked for, whatever earlier calls left |
| Interleave.NonInterference | test_dev.c:336-493 | in every interleaving of register stores, engine steps and lock steps of any number of independent calls, each finished call has moved exactly its bytes, and nothing outside all calls' areas has changed |
| Progress.RunsEnd | test_dev.c:336-493 | every run is finite, with no more steps than its calls have work |
| Progress.AllFinish | test_dev.c:336-493 | from wherever it stands, every run goes on to one in which all calls have finished and moved their bytes |
| Composed.Simulates | test_dev.c:352-374 | with at most one event a transfer and no abandoned wait, a caller that finds its channel marked finds its engine stopped: each step is a step of that interleaving or leaves memories alone |
| Composed.ReturnedCallsMoved | test_dev.c:336-493 | so in every run of calls, engines and handler in which waits end on the handler's mark, each returned call has moved exactly its bytes, and nothing else has changed |
| ComposedProgress.AllReturn | test_dev.c:336-493 | where each transfer raises one event that wakes, no wait is abandoned and none starts between mark and clear, every run goes on to one in which all calls have returned and moved their bytes |
| Protocol.NoCyclicWait | test_dev.c:336-426 | a chain of callers waiting for each other's locks has at most three members and no cycle |
| Wakeups.DeadlockFree | test_dev.c:352-357 | in every reachable state some caller inside a call can move or is about to be woken or let in, if and only if waits may be abandoned, or transfers raise events, each with the stop bit (or every scan wakes), and none starts between mark and clear |
| Wakeups.DriverMoves | test_dev.c:336-493 | with time-outs compiled in, some caller inside a call can always take a step of its own |
| Wakeups.NoStopBit | eon_drv.c:239-250 | a run without stop bits that leaves a caller asleep on a channel already marked completed |
| Wakeups.WipedStop | eon_drv.c:243-250 | a run in which the clear that wipes a completion wakes its caller, which finds RUNNING and sleeps for good |
| Wakeups.StrandedForever | eon_drv.c:248-250 | a stranded caller sleeps on, with the channel locked, in every continuation in which it does not give up |
| Completion.PrematureExactly | eon_drv.c:236-271 | no run marks a RUNNING channel completed before its transfer raised an event, if and only if transfers raise no event, or one event each and no wait is abandoned |
| Completion.AbandonedEvent | test_dev.c:481-487 | a run in which an abandoned transfer's event completes the next one |
| Completion.SecondEvent | eon_drv.c:239-246 | a run in which a second event of one transfer completes the next one |
| Completion.LostAtClear | eon_drv.c:243-246 | one step wipes an event exactly when it clears a channel whose next transfer is due under the bits read before, in every configuration and state |
| Completion.NotOvertaken | eon_drv.c:243-246 | in no run of any configuration is a completion of a channel wiped unless a transfer was started on it between the handler's mark and clear |
| Completion.LostExactly | eon_drv.c:236-271 | no run loses a completion if and only if transfers raise no event or none may start between mark and clear |
| Completion.LostForever | eon_drv.c:236-271 | a wiped completion with no event left never comes, in any continuation of the run in which its caller does not give up |
| Completion.LostReachable | eon_drv.c:243-246 | in every configuration with events and no gate, a run with one channel and one caller that wipes an event |
| Handler.HandlerThread.BusyTokenLoop | eon_drv.c:168-315 | with interrupts between its turns the loop ends from every finite schedule; status registers, fifo, marks, wake-ups and channel states are exactly those of a trace of the events that came and the marks made, each of which read what its register held by then; no event is lost or made up, whatever tokens were dropped |
| Handler.HandlerThread.Settle | eon_drv.c:168-354 | passes without further interrupts carry that trace on and mark exactly the slots that were pending or raised; all other states are kept |
| Handler.StopsWake | eon_drv.c:239-250 | in such a trace a slot whose every raise holds the stop bit is woken each time it is marked |
| Handler.NoStopSleeps | eon_drv.c:239-250 | and one without a stop bit and without an extra scan is never woken |
| Handler.TokenBits | eon_drv.c:274-302 | tokens spent are the set bits among stop and watermark |
| Handler.PendingBits | eon_drv.c:239 | stop, watermark or abort alone gets a slot marked |
| Handler.HandlerThread.CompleteFirst | eon_drv.c:236-272 | a scan completes and clears exactly the first pending slot in scan order, or nothing |
| Handler.HandlerThread.Turn | eon_drv.c:234-315 | one turn of the token loop: slot, wake-up, tokens spent for each status, loop count, exit; flag is 0 again |
| Handler.HandlerThread.TokenLoop | eon_drv.c:234-315 | the loop ends from every fifo, status and count, completing the first k pending slots once each, at least one if there is a token, waking exactly the waiters whose status held the stop bit, and spending exactly their tokens and one more when it gives up with nothing pending |
| Handler.HandlerThread.OuterPass | eon_drv.c:223-354 | each pass with a pending slot completes at least one, token or not; the extra scan runs with the fifo empty and wakes whatever it completes |
| Handler.HandlerThread.Passes | eon_drv.c:223-354 | as many passes as pending slots drain all of them, each marked exactly once and in scan order, all others untouched; woken are those with the stop bit and those of extra scans, all of them if the fifo was empty |
| Handler.AllWoken | eon_drv.c:248-250 | every completed slot's waiter is woken if and only if each one's status held the stop bit or an extra scan completed it |
| Handler.PendingExactly | eon_drv.c:236-272 | the pending list is exactly the slots with a status bit, no slot twice, at most one per channel and direction |

## Left out

- Probe, remove, device registration, MSI set-up and DMA masks: kernel plumbing with no functional property to prove.
- `eon_hdma` and `device_ioctl`: argument copying and dispatch. The leak of the argument buffer on a bad index is the one shown for `EonRwReg`.
- `hdma_lock`, `hdma_unlock` and `hdma_islocking`: a test-and-set flag nothing calls.
- `hdma_test.c`: not in the build.
- Cache flushing, memory barriers, wall-clock time and sleeping under a spinlock: waits end by an arbitrary outcome instead.
- Transfers with `enable` unset, whose start the driver leaves to other hardware: the model rings no doorbell and moves nothing.
- Interrupt masks: the mask register's value is stated, its effect on delivery is not.
- Setup.DpuGetPages: from 2^31 pages on only the two allocation failures are covered, because the source's int counters overflow past them.
- Setup.DpuSetupSg: the same bound.
- Hdma.EonHdmaInbound: once the engine is started, memories are stated only when the list was sent, the batch is clear of it, and target, list and buffers lie apart; what an engine does after the call has returned on a time-out is not part of the statement.
- Hdma.EonHdmaOutbound: the same.
- Interleave.NonInterference: calls carry no register batch, and waits end with the engine's stop; Composed.ReturnedCallsMoved has them end on the handler's mark.
- Wakeups.DeadlockFree: fairness of lock hand-over and of the handler is not modelled.
- Handler.HandlerThread.BusyTokenLoop: interrupts arrive between turns; inside a turn they are covered by the protocol's handler, which reads, marks, clears and wakes in separate steps.
