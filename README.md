# A verified model of the gbaemu emulator cores

gbaemu is a Game Boy Advance emulator written three times: in C# (`src/GBA`,
`src/BitUtils.cs`), in C (`src/core`, `include/core`) and in C++
(`src/gbaemu`). This project models, in Dafny, the parts of each core that
decide what the emulated machine does:

- the ARM7TDMI register file, its banking and the CPSR;
- the instruction decoders;
- the barrel shifters and the flag helpers;
- the ARM data-processing, single, halfword and block transfers;
- the Thumb ALU and multiple load/store;
- the I/O register tables, the bus and work RAM;
- the video memories, the keypad, the interrupt controller, the timers and the DMA channels;
- the two display controllers (C# `PPU`, C++ `lcd`).

Each module is named after the core it belongs to:

- `Cs*` for the C# core;
- `C*` for the C core;
- `Cpp*` for the C++ core.

Two modules are shared:

- `Bits` holds the bit-level vocabulary: single bits, the signed right
  shift and the little-endian byte order.
- `ArmRef` holds the reference semantics that the three CPUs are measured
  against. These are the ARM Architecture Reference Manual's condition
  table (section A3.2), the addressing mode 1 shifter operands (section
  A5.1), the ALU's CarryFrom / BorrowFrom / OverflowFrom, and the block
  addresses of addressing mode 4 (section A5.4).

State that the source updates in place becomes a class with `modifies`
clauses:

- register files and CPU pipelines;
- work RAM, video memories and I/O tables;
- timers, DMA channels and the display.

Each such class has a ghost view of its state as a plain datatype. Every
method is specified by a function of the old state: `ensures State() ==
Spec(old(State()), …)`. The properties are proved as lemmas about those
functions.

Each pure helper of the source is a function. Its partner is a reference
definition, an inverse, or an invariant, and a lemma connects the two.

Where verification showed that the code does something its authors
evidently did not intend, the model keeps the code as written and adds a
corrected version. Usually a `corrected` flag or a second function selects
between them. Lemmas exhibit the difference; see "## Findings".

Calls into code outside the modelled files, and the outside world, become
parameters or outputs:

- a bus read becomes a function of the address;
- a bus write becomes an effect appended to a list;
- a front-end refresh becomes a flag.

## Model

| member | source | states |
|---|---|---|
| CsBitUtils.BitTest32IsBit | src/BitUtils.cs:3-5 | `BitTest32(value, n)` for n in 0..31 holds exactly when bit n of the word is set |
| CsBitUtils.BitTest32Wraps | src/BitUtils.cs:3-5 | the shift count of `1 << bitNumber` is taken modulo 32, so testing bit n + 32 is testing bit n |
| CsBitUtils.BitTest64IsBit | src/BitUtils.cs:7-9 | `BitTest64(value, n)` for n in 0..63 holds exactly when bit n of the 64-bit value is set |
| CsBitUtils.RotateRight32Spec | src/BitUtils.cs:11-13 | for 1..31 places `RotateRight32` is the ARM rotation Ror; for a multiple of 32 (where C# reduces the left shift by 32 to 0) it returns the word unchanged |
| CsBitUtils.RotateRight32Inverse | src/BitUtils.cs:11-13 | rotating right by b and then by 32 - b gives back the original word, for every b |
| CsBitUtils.RotateRight32IsRor | src/BitUtils.cs:11-13 | only the low five bits of the count matter: for counts whose low five bits are not zero the result is Ror by those bits |
| CsBitUtils.Mask16Bits | src/GBA/Keypad.cs:27-35 | the `ushort` bit mask `(ushort)(1 << bit)` is the single bit below 16, is cut to 0 from 16 to 31, and repeats every 32 |
| CsBusPeripheral.Read32LittleEndian | src/GBA/BusPeripheral.cs:5-11 | `Read32` is little-endian: byte k of the word is `Read8(addr + k)` |
| CsBusPeripheral.Write32Bytes | src/GBA/BusPeripheral.cs:15-23 | `Write32` makes exactly four `Write8` calls, byte k of the word to `addr + k`, lowest byte first |
| CsBusPeripheral.Write16ThenRead16 | src/GBA/BusPeripheral.cs:5-18 | on a memory of independent bytes, `Write16` then `Read16` at the same address returns the halfword |
| CsBusPeripheral.Write16Frame | src/GBA/BusPeripheral.cs:15-18 | `Write16` leaves every byte other than `addr` and `addr + 1` unchanged |
| CsBusPeripheral.Write32ThenRead32 | src/GBA/BusPeripheral.cs:9-23 | on a memory of independent bytes, `Write32` then `Read32` at the same address returns the word |
| CsWram.SizesArePowersOfTwo | src/GBA/GBA.cs:6-9 | the two work RAM sizes and the BIOS size are powers of two (2^18, 2^15 and 2^14), so `size - 1` is an address mask |
| CsWram.CellInRange | src/GBA/WRAM.cs:11-19 | `addr & addressMask` always indexes a cell of an array of `addressMask + 1` bytes |
| CsWram.DifferentCells | src/GBA/WRAM.cs:11-19 | addresses that differ in the masked bits reach different cells |
| CsWram.Mirror | src/GBA/WRAM.cs:11-14 | work RAM repeats every `size` bytes: `addr` and `addr + size` read the same byte |
| CsWram.Write8ThenRead8 | src/GBA/WRAM.cs:11-19 | after `Write8(addr, v)`, a read of any address that agrees with `addr` in the masked bits returns v |
| CsWram.Write8ChangesOneByte | src/GBA/WRAM.cs:16-19 | `Write8` changes exactly the one cell `addr & addressMask` and keeps the length |
| CsWram.Write8Frame | src/GBA/WRAM.cs:11-19 | a read of an address whose masked bits differ from the written one is unchanged by the write |
| CsWram.StoreThenRead | src/GBA/WRAM.cs:11-19 | a read after a write returns the written byte where the masked bits agree and the old byte elsewhere |
| CsWram.Write32Stores | src/GBA/BusPeripheral.cs:20-23 | the four byte writes that the inherited `Write32` makes store the word little-endian at the four masked cells |
| CsWram.WordCells | src/GBA/WRAM.cs:11-19 | with at least four bytes (mask bits 1:0 set), the four bytes of a word fall in four different cells |
| CsWram.Store32Bytes | src/GBA/BusPeripheral.cs:20-23 | each byte of a word written by `Write32` reads back from its own address |
| CsWram.Write32ThenRead32 | src/GBA/BusPeripheral.cs:9-23 | on a work RAM of at least four bytes, `Write32` then `Read32` at the same address returns the word |
| CsWram.Wram.constructor | src/GBA/WRAM.cs:6-9 | `new WRAM(size)` gives a zeroed array of `size` bytes and the mask `size - 1` |
| CsWram.Wram.Read8 | src/GBA/WRAM.cs:11-14 | returns the byte at `addr & addressMask` |
| CsWram.Wram.Write8 | src/GBA/WRAM.cs:16-19 | the array afterwards is the old one with that one cell replaced |
| CsWram.Wram.Read16 | src/GBA/BusPeripheral.cs:5-7 | the inherited `Read16` over this RAM's `Read8` |
| CsWram.Wram.Read32 | src/GBA/BusPeripheral.cs:9-11 | the inherited `Read32` over this RAM's `Read8` |
| CsWram.Wram.Write16 | src/GBA/BusPeripheral.cs:15-18 | the array afterwards has the two byte writes of `Write16` applied in order |
| CsWram.Wram.Write32 | src/GBA/BusPeripheral.cs:20-23 | the array afterwards has the four byte writes of `Write32` applied in order |
| CsBus.RouteTotal | src/GBA/Bus.cs:9-41 | every one of the 16 values of address bits 27:24 has a case, and it is the peripheral of the GBA memory map, so the `return 0` fallbacks are unreachable |
| CsBus.RouteDependsOnRegionBits | src/GBA/Bus.cs:10 | two addresses that agree in bits 27:24 go to the same peripheral |
| CsBus.HalfAlign | src/GBA/Bus.cs:44 | `addr &= 0xfffffffe` clears bit 0, keeps every other bit and never changes the peripheral chosen |
| CsBus.WordAlign | src/GBA/Bus.cs:80 | `addr &= 0xfffffffc` clears bits 1:0, keeps every other bit and never changes the peripheral chosen |
| CsBus.DispatchForwards | src/GBA/Bus.cs:43-113 | an access of any width always reaches the memory-map peripheral of its address, with the address aligned to the width |
| CsBus.Read8Forwards | src/GBA/Bus.cs:9-41 | `Read8` returns the chosen peripheral's `Read8` of the unchanged address |
| CsBus.Read16Forwards | src/GBA/Bus.cs:43-77 | `Read16` returns the chosen peripheral's `Read16` of the halfword-aligned address |
| CsBus.Read32Forwards | src/GBA/Bus.cs:79-113 | `Read32` returns the chosen peripheral's `Read32` of the word-aligned address |
| CsBus.WritesForward | src/GBA/Bus.cs:115-231 | each write reaches exactly one peripheral, that of the memory map, with the address aligned to the width and the value unchanged |
| CsBus.Read16Aligned | src/GBA/Bus.cs:43-77 | `Read16` of an address and of the address with bit 0 cleared are the same read |
| CsBus.Write16Aligned | src/GBA/Bus.cs:153-191 | `Write16` of an address and of the address with bit 0 cleared are the same write |
| CsBus.Read32Aligned | src/GBA/Bus.cs:79-113 | `Read32` of an address and of the address with bits 1:0 cleared are the same read |
| CsBus.Write32Aligned | src/GBA/Bus.cs:193-231 | `Write32` of an address and of the address with bits 1:0 cleared are the same write |
| CsBus.SameAlignSameRead16 | src/GBA/Bus.cs:43-77 | two addresses in the same halfword read the same value |
| CsBus.SameAlignSameWrite16 | src/GBA/Bus.cs:153-191 | two addresses in the same halfword make the same write |
| CsBus.SameAlignSameRead32 | src/GBA/Bus.cs:79-113 | two addresses in the same word read the same value |
| CsBus.SameAlignSameWrite32 | src/GBA/Bus.cs:193-231 | two addresses in the same word make the same write |
| CsBus.SameDispatch | src/GBA/Bus.cs:43-113 | addresses that align to the same address for a width are dispatched identically |
| CsIo.InitialConforms | src/GBA/IO.cs:31-113 | the table `InitRegisters` builds has 512 registers and gives each the callback and masks of its case (DISPCNT to IME, default read mask 0 and write mask 0xffff) |
| CsIo.TargetMap | src/GBA/IO.cs:116-134 | after `ConvertAddress`, every address whose low halfword is 0x0800 reaches the low memory-control register, 0x04000802 the high one, addresses below 0x04000400 table slot `(addr & 0x3ff) >> 1`, and all others the null register |
| CsIo.SlotOfAddress | src/GBA/IO.cs:124-134 | slot j of the table, built for the address with offset 2j, is the one `GetRegister` finds for that address |
| CsIo.TargetByteNeighbours | src/GBA/IO.cs:124-134 | the two bytes of a halfword below 0x04000400 reach the same register |
| CsIo.GetPut | src/GBA/IO.cs:124-159 | replacing one register changes what `GetRegister` returns for that register only |
| CsIo.Read8Halves | src/GBA/IO.cs:166-179 | `Read8` of the even and the odd byte put together is `Read16` of the halfword |
| CsIo.Write16Effect | src/GBA/IO.cs:150-159 | `Write16` replaces the bits of the target register under its write mask by those of the value and keeps the others, changes no other register, and calls the register's callback with the original address and value exactly when it has one |
| CsIo.Write16Conforms | src/GBA/IO.cs:150-159 | writes never change a register's masks or callback |
| CsIo.Write16ThenRead16 | src/GBA/IO.cs:150-179 | reading back a written halfword gives the merged value under the read mask |
| CsIo.KeyInputIsReadOnly | src/GBA/IO.cs:106-159 | no `Write16` changes KEYINPUT, whose write mask is 0 |
| CsIo.Write32ThenRead32 | src/GBA/IO.cs:161-183 | on two distinct registers with full masks, `Write32` then `Read32` returns the word (low half at `addr`, high half at `addr + 2`) |
| CsIo.Write32Calls | src/GBA/IO.cs:161-164 | `Write32` makes at most two callback calls, the first with the low half at `addr` when the first register has a callback |
| CsIo.Write8KeepsOtherByte | src/GBA/IO.cs:136-148 | the intended `Write8` (merging the byte into the halfword it reads) stores the byte and keeps the other byte of the register |
| CsIo.TransparentWriteRead | src/GBA/IO.cs:150-179 | a register with both masks 0xffff reads back exactly what was written |
| CsIo.SameTargetSameRead | src/GBA/IO.cs:176-179 | addresses that reach the same register read the same halfword |
| CsIo.TargetOtherByte | src/GBA/IO.cs:124-174 | flipping bit 0 of an address keeps the register and swaps which byte `BitTest32(addr, 0)` selects |
| CsIo.Write8AsWrittenCounterexample | src/GBA/IO.cs:136-148 | as written, `Write8` passes `val` rather than the merged `value` to `Write16`: writing 0x12 to BG0CNT's high byte leaves it 0 and sets the low byte instead; the intended merge stores 0x12 in the high byte |
| CsIo.Io.constructor | src/GBA/IO.cs:26-29 | `new IO` runs `InitRegisters` and yields the initial register bank |
| CsIo.Io.InitRegisters | src/GBA/IO.cs:31-114 | the loop over the 512 slots fills the array with the initial registers, the memory-control and null registers included |
| CsIo.Io.SetValue | src/GBA/IO.cs:6-18 | assigning `Register.Value` changes that register's value and nothing else |
| CsIo.Io.Write16 | src/GBA/IO.cs:150-159 | the new register bank and callback calls are those of the write specification, and the bank keeps its masks and callbacks |
| CsIo.Io.Write32 | src/GBA/IO.cs:161-164 | two `Write16` calls, low half first, as the write specification says |
| CsIo.Io.Write8 | src/GBA/IO.cs:136-148 | the as-written `Write8`: the new bank is that of `Write16(addr, val)` |
| CsIo.Io.Read16 | src/GBA/IO.cs:176-179 | returns the target register's value under its read mask |
| CsIo.Io.Read8 | src/GBA/IO.cs:166-174 | returns the high byte of `Read16` for an odd address and the low byte for an even one |
| CsIo.Io.Read32 | src/GBA/IO.cs:181-183 | returns `Read16(addr)` with `Read16(addr + 2)` above it |
| CsCpu.SetThenGetCpsr | src/GBA/CPU.cs:37-63 | writing the CPSR and reading it back keeps N, Z, C, V, I, F, T and the mode (bits 31:28 and 7:0) and loses bits 27:8 |
| CsCpu.GetThenSetCpsr | src/GBA/CPU.cs:37-63 | reading the CPSR and writing it back restores every flag and the mode |
| CsCpu.CheckMode | src/GBA/CPU.cs:269-288 | a mode is accepted exactly when it is one of the eleven of `enum Mode` (user, FIQ or short-bank modes), and every accepted mode fits in five bits; the others throw |
| CsCpu.ChangeModeFaults | src/GBA/CPU.cs:102-240 | `ChangeMode` throws exactly when the outgoing mode is IRQ, SVC, ABT or UND (or their old encodings), whose saves index `r_irq[5]` and the like in two-element arrays; when it does, only r8-r12 have been copied to the user bank and nothing else has changed |
| CsCpu.ChangeModeKeepsUnbanked | src/GBA/CPU.cs:102-240 | a mode change never moves r0-r7 or r15 |
| CsCpu.FiqRoundTrip | src/GBA/CPU.cs:102-240 | from a user-bank mode into FIQ and back to a user-bank mode restores r8-r14 and leaves the FIQ bank as saved |
| CsCpu.EnterFiqSwapsBanks | src/GBA/CPU.cs:105-194 | entering FIQ from a user-bank mode puts the FIQ bank in r8-r14 and saves the outgoing r8-r14 in the user bank |
| CsCpu.PipelineSettles | src/GBA/CPU.cs:312-332 | from any pipeline state, three or more cycles reach Execute, which the switch then keeps |
| CsCpu.PipelineOrder | src/GBA/CPU.cs:319-331 | from Flush the pipeline goes through Fetch, Decode and Execute, one per cycle |
| CsCpu.Zero | src/GBA/CPU.cs:242-257 | each clearing loop of `Reset` leaves every element of its array 0 |
| CsCpu.Cpu.constructor | src/GBA/CPU.cs:88-100 | allocates the seven register arrays with 16, 7, 7, 2, 2, 2 and 2 elements and resets: every register 0, every flag clear, mode SYS |
| CsCpu.Cpu.SetCpsr | src/GBA/CPU.cs:50-62 | the flags and mode become those of the written value, and the outcome says whether `CheckMode` accepts the mode |
| CsCpu.Cpu.ChangeMode | src/GBA/CPU.cs:102-240 | the register banks afterwards are those of the mode-change specification, with the mode set unless the save faulted |
| CsCpu.Cpu.SaveCurrentBank | src/GBA/CPU.cs:105-170 | the first switch of `ChangeMode`, stated against its specification |
| CsCpu.Cpu.LoadBankOf | src/GBA/CPU.cs:172-237 | the second switch of `ChangeMode`, stated against its specification |
| CsCpu.Cpu.Reset | src/GBA/CPU.cs:242-267 | every register of every bank 0, every flag clear and mode SYS |
| CsCpu.Cpu.Fetch | src/GBA/CPU.cs:302-310 | in Thumb state reads a halfword into the Thumb opcode and adds 2 to r15; in ARM state reads a word into the ARM opcode and adds 4; nothing else changes |
| CsCpu.Cpu.Cycle | src/GBA/CPU.cs:312-332 | fetches at the old r15 and advances the pipeline state by one step |
| CsCpuArm.InitArmDecodeTable | src/GBA/CPU_ARM.cs:10-52 | the loop fills all 4096 entries, each with the handler its index selects |
| CsCpuArm.IndexFields | src/GBA/CPU_ARM.cs:14-55 | the tests on the 12-bit index read opcode bits 27:26, 24:21 and 27:25 |
| CsCpuArm.TableEntryIsClass | src/GBA/CPU_ARM.cs:10-56 | the table entry at an opcode's index is the handler its bits select directly |
| CsCpuArm.DecodeMatchesClass | src/GBA/CPU_ARM.cs:54-56 | `DecodeARMOpcode` on the initialised table returns the handler the opcode's bits select |
| CsCpuArm.ArmClassRegions | src/GBA/CPU_ARM.cs:13-51 | B is chosen exactly for bits 27:25 = 101; the eight logical handlers only for bits 27:26 = 00; there the entry is empty exactly for the arithmetic opcodes 2-7, 0xa and 0xb |
| CsCpuArm.ShifterImmediateOperand | src/GBA/CPU_ARM.cs:218-230 | with the I bit set the shifter operand is the rotated 8-bit immediate of section A5.1.3 of the ARM Architecture Reference Manual, carry included |
| CsCpuArm.ShifterImmediateShift | src/GBA/CPU_ARM.cs:79-139 | a register shifted by an immediate amount gives the ARM manual's shift (LSL, LSR, ASR, ROR/RRX with their 0-encodings), with r15 read as pc + 4 |
| CsCpuArm.ShifterRejectsBit7 | src/GBA/CPU_ARM.cs:140-143 | the shifter throws `InvalidOpcodeException` exactly for a register-specified shift with bit 7 set |
| CsCpuArm.ShiftTypeField | src/GBA/CPU_ARM.cs:92-152 | the four values of bits 6:5 are LSL, LSR, ASR and ROR in that order |
| CsCpuArm.RegisterShiftLsr | src/GBA/CPU_ARM.cs:170-185 | for amounts below 256 the register-specified LSR is the ARM manual's |
| CsCpuArm.RegisterShiftAsr | src/GBA/CPU_ARM.cs:187-199 | for amounts below 256 the register-specified ASR is the ARM manual's |
| CsCpuArm.RegisterShiftRor | src/GBA/CPU_ARM.cs:201-215 | for amounts below 256 the register-specified ROR is the ARM manual's |
| CsCpuArm.RegisterShiftLslEdges | src/GBA/CPU_ARM.cs:153-166 | the register-specified LSL agrees with the ARM manual only for amount 0 and amounts 32 to 255 |
| CsCpuArm.ShifterIsRegisterShift | src/GBA/CPU_ARM.cs:140-217 | a register-specified shift uses the whole of `r[rs]` (plus 4 for r15) as its amount |
| CsCpuArm.ShifterRegisterShift | src/GBA/CPU_ARM.cs:140-217 | when `r[rs]` is below 256 (and, for LSL, 0 or at least 32) the shifter result and carry are the ARM manual's |
| CsCpuArm.ShifterRegisterLslCounterexample | src/GBA/CPU_ARM.cs:157-159 | as written, LSL by 1 of 2 gives 1 with carry set (a right shift, carry from bit 1); the ARM manual gives 4 with carry clear |
| CsCpuArm.ShifterWholeRsCounterexample | src/GBA/CPU_ARM.cs:146-183 | as written, LSR by `r[rs]` = 0x100 gives 0 with carry clear; the ARM manual uses the low byte, 0, and leaves the value and carry unchanged |
| CsCpuArm.CorrectedLsl | src/GBA/CPU_ARM.cs:153-166 | the corrected LSL (left shift, carry from bit 32 - n, amount `r[rs] & 0xff`) is the ARM manual's |
| CsCpuArm.CorrectedRegisterShiftIsReference | src/GBA/CPU_ARM.cs:140-217 | the corrected register-specified shift equals the ARM manual's for every type and every value of `r[rs]` |
| CsCpuArm.Shifter | src/GBA/CPU_ARM.cs:77-231 | throws exactly when the specification rejects the opcode; otherwise sets `shifterResult` and `shifterCarry` to the specification's value and carry, and leaves them alone when it throws |
| CsCpuArm.LogicalSpecUnfold | src/GBA/CPU_ARM.cs:233-258 | a logical instruction runs the shifter and then combines `Rn` (r15 + 4 when I is set) with the shifter result |
| CsCpuArm.TestWithoutSRejected | src/GBA/CPU_ARM.cs:289-346 | TST and TEQ without the S bit throw `InvalidOpcodeException`; AND, EOR, ORR, MOV, BIC and MVN never do once the shifter has accepted the opcode |
| CsCpuArm.LogicalWritesOnlyRd | src/GBA/CPU_ARM.cs:233-455 | a logical instruction changes only `Rd` with its result, jumps to the result instead when `Rd` is r15, writes nothing for TST and TEQ, and keeps the shifter fields |
| CsCpuArm.LogicalFlags | src/GBA/CPU_ARM.cs:250-256 | with S set N is bit 31 of the result, Z whether it is 0, C the shifter carry and V is untouched (or taken from the SPSR when `Rd` is r15); without S the status is unchanged |
| CsCpuArm.StatusAfterFlags | src/GBA/CPU_ARM.cs:250-256 | the status after the S-bit update, as in `LogicalFlags`, over any starting status |
| CsCpuArm.LogicalRestoresSpsr | src/GBA/CPU_ARM.cs:250-253 | with S set and `Rd` r15 the CPSR is loaded from the SPSR (mode, I, F, T), and the step faults exactly when the SPSR's mode is undefined |
| CsCpuArm.LogicalSetFlags | src/GBA/CPU_ARM.cs:66-70 | N is bit 31 of the result, Z whether it is 0, C the shifter carry |
| CsCpuArm.WriteRegister | src/GBA/CPU_ARM.cs:58-64 | r15 as destination jumps to the value and leaves the registers; any other destination gets the value |
| CsCpuArm.OpcodeArmLogical | src/GBA/CPU_ARM.cs:233-455 | the eight logical handlers: the new registers, status and outcome are those of the logical-instruction specification, and only the registers, the flags, the mode and the shifter fields may change (the SPSRs, the pipeline state and the fetched opcodes are kept) |
| CsCpuArm.LogicalAfterShifter | src/GBA/CPU_ARM.cs:236-258 | the part of a logical handler after the shifter, stated against its specification, changing only the registers, the flags, the mode and the shifter fields |
| CsCpuArm.LogicalUpdateStatus | src/GBA/CPU_ARM.cs:250-256 | the status update of a logical handler faults exactly when the SPSR's mode is undefined and otherwise gives the specified status |
| CsCpuArm.ForwardBranchRoundTrip | src/GBA/CPU_ARM.cs:457-465 | for a forward, word-aligned offset below 2^25 the corrected offset decoding inverts the encoding |
| CsCpuArm.BackwardBranchRoundTrip | src/GBA/CPU_ARM.cs:457-465 | for a backward, word-aligned offset of at most 2^25 bytes the corrected offset decoding inverts the encoding |
| CsCpuArm.BranchOffsetRoundTrip | src/GBA/CPU_ARM.cs:457-465 | every reachable branch offset survives encoding and the corrected, sign-extending decoding |
| CsCpuArm.BranchOffsetAsWrittenCounterexample | src/GBA/CPU_ARM.cs:464 | as written the 24-bit offset is not sign-extended: `B` with offset field 0xfffffe at 0x08000008 jumps to 0x0C000000 instead of back to 0x08000000 |
| CsCpuArm.BranchForwardAgrees | src/GBA/CPU_ARM.cs:464 | the as-written and corrected offsets agree for every forward branch |
| CsCpuArm.OpcodeArmB | src/GBA/CPU_ARM.cs:457-465 | with L set r14 becomes r15 - 4; the jump goes to r15 plus the offset as written, and nothing else changes |
| CsTimer.IncrementRipple | src/GBA/Timer.cs:33-53 | `Increment` of channel i steps exactly the channels the overflow carries to (each channel from i on overflows and the next counts up), each once, leaves the others, and raises the interrupt flags of the reached channels that overflow with irq set, in channel order |
| CsTimer.OverflowReloads | src/GBA/Timer.cs:33-47 | the incremented counter is the old one plus 1, or the reload value when it was 0xffff, and the channel's own flag is raised exactly when it overflows with irq set |
| CsTimer.OwnFlag | src/GBA/Timer.cs:21-39 | channel i raises `1 << (i + 3)` exactly when it overflows with irq set |
| CsTimer.DistinctFlags | src/GBA/Timer.cs:21 | the four channels own four different interrupt bits |
| CsTimer.OverflowCascades | src/GBA/Timer.cs:41-53 | an overflow of channel i steps channel i + 1 exactly when that channel counts up |
| CsTimer.IncrementSkips | src/GBA/Timer.cs:33-53 | `Increment` of channel i leaves the channels below i and every later channel not in count-up mode unchanged |
| CsTimer.IncrementKeepsSettings | src/GBA/Timer.cs:33-53 | counting never changes any channel's count-up mode, enable, prescaler or reload value |
| CsTimer.CycleTicksFreeRunning | src/GBA/Timer.cs:25-124 | with the cycle counter at 0 every enabled channel that does not count up is stepped exactly once by `Timer.Cycle` |
| CsTimer.ChannelCycleIdle | src/GBA/Timer.cs:25-31 | a disabled channel or one in count-up mode does nothing on `Cycle` |
| CsTimer.PrescalerPeriod | src/GBA/Timer.cs:27-65 | the prescaler test `(cycleCounter & prescaler) == 0` passes always for setting 0 and every 64, 256 and 1024 cycles for settings 1, 2 and 3 |
| CsTimer.ControlCountUp | src/GBA/Timer.cs:67-72 | count-up is bit 2 of the control value except on channel 0, where it is off and bit 2 of the register at 0x04000102 is cleared; other channels leave that register alone |
| CsTimer.ControlFlags | src/GBA/Timer.cs:74-75 | a control write sets irq from bit 6 and enable from bit 7, and keeps the counter and reload value |
| CsTimer.Timer.constructor | src/GBA/Timer.cs:109-118 | four idle channels and the cycle counter at 0 |
| CsTimer.Timer.Cycle | src/GBA/Timer.cs:120-124 | the channels and raised flags are those of one `Channel.Cycle` per channel in order |
| CsTimer.Timer.ChannelCycle | src/GBA/Timer.cs:25-31 | stated against the channel-cycle specification |
| CsTimer.Timer.Increment | src/GBA/Timer.cs:33-47 | stated against the increment specification, whose meaning `IncrementRipple` gives |
| CsTimer.Timer.LastOverflowed | src/GBA/Timer.cs:49-53 | stated against its specification: the channel counts the overflow only in count-up mode |
| CsTimer.Timer.WriteReload | src/GBA/Timer.cs:55-57 | only the reload value of that channel changes |
| CsTimer.Timer.WriteControl | src/GBA/Timer.cs:59-76 | only that channel's settings change, as the control specification says, and the register at 0x04000102 is updated as `ControlCountUp` states |
| CsKeypad.UpdatePressedKeys | src/GBA/Keypad.cs:22-33 | the loop computes the value of the key-input specification for the whole array of pressed keys |
| CsKeypad.PressedKeysClearBits | src/GBA/Keypad.cs:22-33 | for up to 16 keys, bit b of the stored KEYINPUT is 0 exactly when key b is in the array and pressed (active low), so released and absent keys read 1 |
| CsKeypad.PrefixClearsBits | src/GBA/Keypad.cs:25-29 | the loop invariant: after i iterations, bit b is clear exactly when b < i and key b is pressed |
| CsKeypad.KeyMaskShift | src/GBA/Keypad.cs:27 | `(ushort)~(1 << i)` for i below 16 is the word with only bit i clear |
| CsKeypad.Cycle | src/GBA/Keypad.cs:35-50 | returns the interrupt flags of the keypad-cycle specification |
| CsKeypad.CycleDisabled | src/GBA/Keypad.cs:39 | with KEYCNT bit 14 clear the keypad raises nothing |
| CsKeypad.CycleAllSelected | src/GBA/Keypad.cs:40-43 | with bits 14 and 15 set the keypad interrupt (bit 12) is raised exactly when every selected key among the ten is pressed, and nothing else is ever raised |
| CsKeypad.AndMode | src/GBA/Keypad.cs:41 | in the all-keys mode the test is equivalent to no selected key reading 1 in KEYINPUT |
| CsKeypad.EverySelectedPressed | src/GBA/Keypad.cs:41 | `keycnt & keyinput & 0x3ff == 0` holds exactly when each of the ten selected keys is pressed |
| CsKeypad.CycleAnySelected | src/GBA/Keypad.cs:44-48 | with bit 14 set and bit 15 clear the keypad interrupt is raised exactly when some selected key is pressed, and nothing else is ever raised |
| CsKeypad.SomeSelectedPressed | src/GBA/Keypad.cs:45 | `keycnt & ~keyinput & 0x3ff != 0` holds exactly when some selected key among the ten is pressed |
| CsGba.FixedAddresses | src/GBA/GBA.cs:76-80 | the fixed addresses the core uses (IF 0x04000202, DISPSTAT, VCOUNT) reach their own table slots |
| CsGba.SetValueConforms | src/GBA/GBA.cs:75-81 | assigning a register's value directly keeps every register's masks and callback |
| CsGba.SetValueOthers | src/GBA/GBA.cs:75-81 | assigning one register's value leaves every other register unchanged |
| CsGba.SetValueTwice | src/GBA/GBA.cs:75-81 | of two assignments to a register's value only the last one counts |
| CsGba.IfAfterSet | src/GBA/GBA.cs:76-80 | IF holds the value last assigned to it, bypassing its write mask 0 |
| CsGba.RaiseAssociates | src/GBA/GBA.cs:75-77 | raising flags in two steps is raising their union |
| CsGba.RaiseTwiceSame | src/GBA/GBA.cs:75-77 | raising the same flags twice is raising them once |
| CsGba.RaiseSymmetric | src/GBA/GBA.cs:75-77 | the union of flags does not depend on their order |
| CsGba.RaiseZero | src/GBA/GBA.cs:75-77 | raising no flag changes nothing |
| CsGba.ClearAfterRaise | src/GBA/GBA.cs:75-81 | acknowledging flags after raising them is the same as acknowledging them alone |
| CsGba.RaiseSetsFlag | src/GBA/GBA.cs:75-77 | `SetInterruptFlag` sets every bit of the flag in IF and keeps the other bits |
| CsGba.RaiseIdempotent | src/GBA/GBA.cs:75-77 | `SetInterruptFlag` twice with the same flag is `SetInterruptFlag` once |
| CsGba.RaiseTwice | src/GBA/GBA.cs:75-77 | two `SetInterruptFlag` calls are one with the union of their flags |
| CsGba.RaiseCommutes | src/GBA/GBA.cs:75-77 | the order of two `SetInterruptFlag` calls does not matter |
| CsGba.RaiseNothing | src/GBA/GBA.cs:75-77 | `SetInterruptFlag(0)` changes nothing |
| CsGba.RaiseAll | src/GBA/GBA.cs:75-77 | a sequence of `SetInterruptFlag` calls is one call with the union of all the flags |
| CsGba.AcknowledgeClears | src/GBA/GBA.cs:79-81 | `WriteToIF` clears every bit of the written value in IF and keeps the other bits |
| CsGba.AcknowledgeAfterRaise | src/GBA/GBA.cs:75-81 | acknowledging a flag just raised leaves IF as acknowledging alone would |
| CsGba.StoreIFAcknowledges | src/GBA/IO.cs:109-159 | a bus write to IF stores nothing (write mask 0) and its callback `WriteToIF` acknowledges the written bits |
| CsGba.CycleRaisesUnion | src/GBA/GBA.cs:66-73 | the register bank after a cycle has the PPU's DISPSTAT and VCOUNT writes and IF raised with the union of the PPU's and the timers' flags |
| CsGba.PpuWritesEffect | src/GBA/PPU.cs:40-107 | the PPU's register writes change only DISPSTAT (always) and VCOUNT (when a line starts) |
| CsGba.CycleIoEffect | src/GBA/GBA.cs:66-73 | after a cycle IF gains the raised flags, DISPSTAT and VCOUNT hold the PPU's values, and every other register is unchanged |
| CsGba.CycleIoConforms | src/GBA/GBA.cs:66-73 | a cycle keeps every register's masks and callback |
| CsGba.Gba.constructor | src/GBA/GBA.cs:40-60 | the IO bank starts in its initial state, the PPU's clock at 0 and the four timers idle |
| CsGba.Gba.SetInterruptFlag | src/GBA/GBA.cs:75-77 | the IO bank afterwards is that of the raise specification |
| CsGba.Gba.WriteToIF | src/GBA/GBA.cs:79-81 | the IO bank afterwards is that of the acknowledge specification |
| CsGba.Gba.Cycle | src/GBA/GBA.cs:66-73 | while DMA is active the CPU does not move; otherwise it takes one pipeline step; the PPU and the timers always take one step each, and the IO bank gets their register writes and flags |
| CsGba.Gba.CpuStep | src/GBA/GBA.cs:67-69 | the CPU cycles exactly when DMA is not active, and nothing else changes |
| CsGba.Gba.PpuStep | src/GBA/GBA.cs:71 | the PPU's clock advances one cycle and the IO bank gets its writes and interrupt flag; the timers and the CPU are untouched |
| CsGba.Gba.TimerStep | src/GBA/GBA.cs:72 | the timers take one cycle and raise their flags in order; the PPU and the CPU are untouched |
| CsPpu.VramOffsetFolds | src/GBA/PPU.cs:30-63 | VRAM offsets are taken in a 128 KB window whose top 32 KB fold onto 0x10000-0x17fff, and every offset is inside the 96 KB array |
| CsPpu.ByteIndexInRange | src/GBA/PPU.cs:28-40 | a palette or OAM byte read always indexes inside the 1 KB array |
| CsPpu.PairIndexInRange | src/GBA/PPU.cs:53-72 | both bytes of a palette or OAM halfword write fall inside the 1 KB array |
| CsPpu.Write16Small | src/GBA/PPU.cs:50-73 | a halfword write to palette RAM or OAM never faults, stores the low byte at `addr & 0x3fe` and the high byte after it, and changes nothing else |
| CsPpu.Write16ThenRead16Small | src/GBA/PPU.cs:25-73 | in palette RAM and OAM a halfword written at an even address reads back through the inherited `Read16` |
| CsPpu.Write8Duplicates | src/GBA/PPU.cs:46-56 | a byte written to palette RAM or OAM lands in both bytes of its halfword |
| CsPpu.Write16Vram | src/GBA/PPU.cs:58-67 | an aligned halfword write to VRAM stores both bytes at the folded offset and changes nothing else |
| CsPpu.Write16ThenRead16Vram | src/GBA/PPU.cs:30-67 | in VRAM a halfword written at an even address reads back |
| CsPpu.Write16VramFault | src/GBA/PPU.cs:58-67 | a VRAM halfword write throws (index out of range on `vram[addr + 1]`) exactly when the folded offset is the last byte, 0x17fff |
| CsPpu.VramWrite8AsWrittenCounterexample | src/GBA/PPU.cs:46-67 | as written, VRAM does not clear bit 0: `Write8` to 0x06017fff throws, and `Write8` to 0x06000001 stores the byte in bytes 1 and 2 instead of 0 and 1 |
| CsPpu.CorrectedWrite16OnSmallAreas | src/GBA/PPU.cs:50-75 | the corrected write, which clears bit 0 in VRAM too, is the written one for palette RAM and OAM |
| CsPpu.CorrectedWrite16InRange | src/GBA/PPU.cs:50-75 | the corrected halfword write never faults and keeps the array sizes |
| CsPpu.CorrectedWrite8Duplicates | src/GBA/PPU.cs:46-48 | with the corrected write a byte lands in both bytes of its halfword in all three memories |
| CsPpu.Write32Halves | src/GBA/BusPeripheral.cs:15-23 | the inherited `Write32` is two inherited `Write16` calls, the second only if the first did not throw |
| CsPpu.Write32AsWrittenCounterexample | src/GBA/BusPeripheral.cs:9-23 | as written, `Write32(0x05000000, 0x11223344)` reads back as 0x11113333: each `Write8` duplicates its byte over the halfword, so the second byte of each pair overwrites the first |
| CsPpu.Write32AsWrittenBytes | src/GBA/BusPeripheral.cs:20-23 | the four palette bytes after that write are 0x33, 0x33, 0x11, 0x11 |
| CsPpu.CorrectedWrite32ThenRead32 | src/GBA/BusPeripheral.cs:9-23 | a `Write32` as two halfword writes reads back as the word at any word-aligned palette or OAM address |
| CsPpu.ColorChannels | src/GBA/PPU.cs:77-83 | `ColorToRGB` puts red, green and blue (5 bits each) in bytes 0, 1 and 2 shifted up by 3, and 0xff in byte 3 |
| CsPpu.ColorRoundTrip | src/GBA/PPU.cs:77-83 | the 15-bit colour can be recovered from the 32-bit pixel: only bit 15 is lost |
| CsPpu.ColorToRGBInjective | src/GBA/PPU.cs:77-83 | two colours give the same pixel exactly when they agree in bits 14:0 |
| CsPpu.IdleStep | src/GBA/PPU.cs:125-180 | on three cycles of four `Cycle` only counts |
| CsPpu.ColumnStep | src/GBA/PPU.cs:126-129 | on the fourth cycle the column advances and nothing else happens away from columns 240 and 308 |
| CsPpu.HBlankStep | src/GBA/PPU.cs:162-173 | entering column 240 sets the H-blank flag, raises interrupt bit 1 when DISPSTAT bit 4 is set, and draws the line for rows below 160 |
| CsPpu.RowStep | src/GBA/PPU.cs:131-161 | at the end of an ordinary row the row advances, H-blank clears, the V-count flag is set exactly when LYC (bits 15:8) equals the new row (raising bit 2 when bit 5 is set), and VCOUNT gets the row |
| CsPpu.VBlankStep | src/GBA/PPU.cs:151-158 | reaching row 160 sets the V-blank flag, raises bit 0 when bit 3 is set, and fires the frame event |
| CsPpu.FrameWrapStep | src/GBA/PPU.cs:147-176 | after row 227 the row and counter restart (the counter at 1 after the increment), V-blank clears and VCOUNT gets 0 |
| CsPpu.ColumnAdvance | src/GBA/PPU.cs:126-133 | the column goes to the next one modulo 308 on every fourth cycle and stays otherwise |
| CsPpu.RowAdvance | src/GBA/PPU.cs:131-150 | the row goes to the next one modulo 228 exactly at the end of a row |
| CsPpu.CycleKeepsTiming | src/GBA/PPU.cs:125-181 | the row stays below 228, the column below 308 and the counter below 280896 |
| CsPpu.HBlankFlag | src/GBA/PPU.cs:135-163 | DISPSTAT bit 1 is set on entering column 240, cleared at the end of a row, and kept otherwise |
| CsPpu.VCountStore | src/GBA/PPU.cs:161 | VCOUNT is written exactly at the end of a row, with the new row |
| CsPpu.FrameAndLine | src/GBA/PPU.cs:151-172 | the frame event fires exactly on reaching row 160, and a line is drawn exactly on entering H-blank in rows below 160 |
| CsPpu.VBlankFlag | src/GBA/PPU.cs:150-152 | DISPSTAT bit 0 is set on reaching row 160, cleared at the wrap to row 0, and kept otherwise |
| CsPpu.VCountFlag | src/GBA/PPU.cs:137-145 | DISPSTAT bit 2 is recomputed at the end of every row from the LYC compare and kept otherwise |
| CsPpu.DispstatOtherBits | src/GBA/PPU.cs:125-181 | `Cycle` never changes DISPSTAT bits 15:3 |
| CsPpu.RaisedInterrupts | src/GBA/PPU.cs:140-168 | the interrupt bits raised in a cycle are V-blank (bit 0) on reaching row 160 with bit 3 set, H-blank (bit 1) on entering column 240 with bit 4 set, and V-count (bit 2) on a LYC match with bit 5 set |
| CsPpu.LastCycle | src/GBA/PPU.cs:125-181 | on an aligned clock the counter reaches 280895 exactly at the last column of row 227 |
| CsPpu.CycleKeepsAligned | src/GBA/PPU.cs:147-180 | every call keeps the counter in step with row and column, but the wrap restarts the counter at 1, not 0 |
| CsPpu.FrameWrapAsWrittenCounterexample | src/GBA/PPU.cs:147-176 | as written, after the wrap the counter is 1, so the first column of the next frame lasts three calls instead of four |
| CsPpu.LycAsWrittenCounterexample | src/GBA/PPU.cs:133-150 | as written, the LYC compare runs against row 228 before the wrap, so LYC 0 with its interrupt enabled never flags or interrupts at the start of a frame |
| CsPpu.CorrectedFrameWrapStep | src/GBA/PPU.cs:131-150 | the corrected wrap compares LYC against row 0 and lets the counter step like any other cycle |
| CsPpu.CorrectedCycleElsewhere | src/GBA/PPU.cs:125-181 | away from the frame wrap the corrected `Cycle` is the written one |
| CsPpu.CorrectedCycleKeepsAligned | src/GBA/PPU.cs:125-181 | the corrected `Cycle` keeps the clock aligned and steps the counter modulo 280896, so every frame lasts 280896 cycles |
| CsPpu.AlignedPosition | src/GBA/PPU.cs:13-15 | on an aligned clock the row is the counter divided by 1232 and the column the remainder divided by 4 |
| CsPpu.CorrectedVCountFlag | src/GBA/PPU.cs:137-161 | with the corrected `Cycle` the V-count flag is set at each row end exactly when LYC equals the row stored in VCOUNT |
| CsPpu.CorrectedLycAtFrameWrap | src/GBA/PPU.cs:137-145 | with the corrected `Cycle`, LYC 0 flags and raises bit 2 at the wrap to row 0 |
| CsPpu.StorePair | src/GBA/PPU.cs:53-72 | stores the low byte at k and the high byte at k + 1 |
| CsPpu.StoreVram | src/GBA/PPU.cs:65-66 | faults exactly when k + 1 is past the end, having stored the low byte; otherwise stores both bytes |
| CsPpu.CompareRow | src/GBA/PPU.cs:137-145 | sets or clears the V-count flag by the compare and raises bit 2 when it matches with bit 5 set |
| CsPpu.Ppu.constructor | src/GBA/PPU.cs:17-23 | zeroed palette (1024), VRAM (98304) and OAM (1024) arrays and the clock at row 0, column 0, cycle 0 |
| CsPpu.Ppu.Read8 | src/GBA/PPU.cs:25-44 | returns the byte of the read specification: palette, folded VRAM or OAM byte, and 0xff elsewhere |
| CsPpu.Ppu.Write16 | src/GBA/PPU.cs:50-75 | the memories afterwards, and whether it threw, are those of the write specification |
| CsPpu.Ppu.Write8 | src/GBA/PPU.cs:46-48 | a `Write16` of the byte duplicated into both halves |
| CsPpu.Ppu.Read16 | src/GBA/BusPeripheral.cs:5-7 | the inherited `Read16` over this `Read8` |
| CsPpu.Ppu.Read32 | src/GBA/BusPeripheral.cs:9-11 | the inherited `Read32` over this `Read8` |
| CsPpu.Ppu.InheritedWrite16 | src/GBA/BusPeripheral.cs:15-18 | the base class's `Write16`: two calls of the overriding `Write8` |
| CsPpu.Ppu.Write32 | src/GBA/BusPeripheral.cs:20-23 | the inherited `Write32`: four calls of the overriding `Write8` |
| CsPpu.Ppu.Cycle | src/GBA/PPU.cs:125-181 | the new clock, DISPSTAT value, VCOUNT store, interrupt bits, frame event and line drawing are those of the cycle specification |
| CsPpu.Ppu.Step | src/GBA/PPU.cs:126-174 | the column step of `Cycle`, stated against its specification |
| CsPpu.Ppu.EndRow | src/GBA/PPU.cs:131-161 | the end of a row, stated against its specification |
| CsPpu.Ppu.WrapFrame | src/GBA/PPU.cs:147-150 | the wrap after row 227, stated against its specification |
| CsPpu.Ppu.EnterVBlank | src/GBA/PPU.cs:151-158 | reaching row 160, stated against its specification |
| CsPpu.Ppu.NextRow | src/GBA/PPU.cs:131-161 | an ordinary row end, stated against its specification |
| CIrq.RaiseSetsRequest | src/core/irq.c:18-20 | raising a mask sets all of its bits in IF and keeps the others |
| CIrq.AcknowledgeClearsWritten | src/core/irq.c:34 | writing IF clears exactly the written bits and keeps the others |
| CIrq.AcknowledgeAll | src/core/irq.c:22-43 | writing back the value read from IF clears every request, after which no interrupt is signalled |
| CIrq.RaiseSignals | src/core/irq.c:18-43 | with IME on, raising an enabled request makes the controller signal the CPU |
| CIrq.MasterDisableMasks | src/core/irq.c:40-43 | with IME off nothing is ever signalled |
| CIrq.WriteThenReadIe | src/core/irq.c:24-33 | IE reads back exactly what was written |
| CIrq.WriteThenReadIme | src/core/irq.c:26-35 | IME reads back bit 0 of what was written |
| CIrq.UnknownAddress | src/core/irq.c:27-36 | any other address reads 0xffff and ignores writes |
| CIrq.Irq.constructor | src/core/irq.c:9-11 | the zero-initialised statics: IE, IF and IME all clear |
| CIrq.Irq.Reset | src/core/irq.c:13-16 | clears IE and IF and leaves IME as it was |
| CIrq.Irq.RaiseIrq | src/core/irq.c:18-20 | IF gains the mask's bits and nothing else changes |
| CIrq.Irq.IoRead16 | src/core/irq.c:22-29 | returns the value of the read specification |
| CIrq.Irq.IoWrite16 | src/core/irq.c:31-38 | the new state is that of the write specification |
| CIrq.Irq.GetSignal | src/core/irq.c:40-43 | true exactly when IME is on and some request is enabled |
| CKeypad.KeyInputClearsPressed | src/core/keypad.c:24-35 | bit b of KEYINPUT is 0 exactly when b is one of the ten buttons and that button is pressed; bits 10-15 read 1 |
| CKeypad.NonePressed | src/core/keypad.c:24-35 | with no button pressed KEYINPUT reads 0xffff |
| CKeypad.PrefixClearsBits | src/core/keypad.c:27-33 | the loop invariant: after i iterations bit b is clear exactly when b < i and button b is pressed |
| CKeypad.WriteThenReadKeycnt | src/core/keypad.c:37-51 | KEYCNT reads back exactly what was written |
| CKeypad.OtherAddresses | src/core/keypad.c:41-52 | writes to any address but KEYCNT are ignored, and reads of addresses other than the two registers give 0xffff |
| CKeypad.Keypad.constructor | src/core/keypad.c:7-8 | the zero-initialised statics: no button pressed and KEYCNT 0 |
| CKeypad.Keypad.Reset | src/core/keypad.c:10-14 | releases every button (KEYCNT is not reset) |
| CKeypad.Keypad.SetInput | src/core/keypad.c:16-18 | only that button's state changes |
| CKeypad.Keypad.IoRead16 | src/core/keypad.c:20-47 | returns the value of the read specification over the current buttons and KEYCNT |
| CKeypad.Keypad.IoWrite16 | src/core/keypad.c:49-54 | KEYCNT becomes that of the write specification |
| CBytes.Bytes4OfWord | src/core/ewram.c:28-33 | the four bytes of a word, put back together lowest first, give the word |
| CBytes.Store16ThenLoad16 | src/core/ewram.c:16-45 | a little-endian halfword stored at index k loads back from k |
| CBytes.Store32ThenLoad32 | src/core/ewram.c:25-54 | a little-endian word stored at index k loads back from k |
| CBytes.Load32Halves | src/core/ewram.c:25-34 | a word load is the halfword at k below the halfword at k + 2 |
| CBytes.Store16Frame | src/core/ewram.c:40-45 | a halfword store changes only cells k and k + 1 |
| CBytes.Store32Frame | src/core/ewram.c:47-54 | a word store changes only cells k to k + 3 |
| CBytes.Store16Disjoint | src/core/ewram.c:16-45 | a halfword store does not change a halfword load that does not overlap it |
| CBytes.StoreTwiceIsStore16 | src/core/gpu.c:100-106 | storing a byte into two consecutive cells is storing the halfword with that byte in both halves |
| CBytes.Load16At | src/core/ewram.c:16-23 | reads the little-endian halfword at k from the array |
| CBytes.Load32At | src/core/ewram.c:25-34 | reads the little-endian word at k from the array |
| CBytes.Store16At | src/core/ewram.c:40-45 | the array afterwards is the old one with the halfword stored at k |
| CBytes.Store32At | src/core/ewram.c:47-54 | the array afterwards is the old one with the word stored at k |
| CBytes.StoreTwiceAt | src/core/gpu.c:100-106 | the array afterwards is the old one with the byte in cells k and k + 1 |
| CBytes.Zero | src/core/ewram.c:8-10 | `memset(.., 0, ..)` leaves every cell 0 |
| CWram.RegionMasks | src/core/ewram.c:13-26 | the masks 0x3ffff and 0x7fff are one less than a power of two, and the halfword and word masks are 0x3fffe/0x3fffc and 0x7ffe/0x7ffc |
| CWram.Sizes | src/core/ewram.c:4 | the masks cover exactly 262144 and 32768 bytes, the array sizes |
| CWram.IndicesInRange | src/core/ewram.c:12-54 | every byte, halfword and word access stays inside the array |
| CWram.Write8ThenRead8 | src/core/ewram.c:12-38 | a byte written reads back from every address with the same masked bits |
| CWram.Write16ThenRead16 | src/core/ewram.c:16-45 | a halfword written reads back from every address in the same masked halfword |
| CWram.Write32ThenRead32 | src/core/ewram.c:25-54 | a word written reads back from every address in the same masked word |
| CWram.Read32LittleEndian | src/core/ewram.c:25-34 | a word read is the halfword at the word's index below the halfword two bytes on |
| CWram.Write16LittleEndian | src/core/ewram.c:40-45 | a halfword write puts the low byte at the aligned index and the high byte after it |
| CWram.Write16Frame | src/core/ewram.c:40-45 | a halfword write changes only its two cells |
| CWram.Mirror | src/core/ewram.c:12-14 | memory repeats every array size: `addr` and `addr + size` read the same byte |
| CWram.Wram.constructor | src/core/ewram.c:4-6 | the zero-initialised static array of the region's size |
| CWram.Wram.Reset | src/core/ewram.c:8-10 | every byte 0 |
| CWram.Wram.Read8 | src/core/ewram.c:12-14 | returns the byte of the read specification |
| CWram.Wram.Read16 | src/core/ewram.c:16-23 | returns the halfword of the read specification |
| CWram.Wram.Read32 | src/core/ewram.c:25-34 | returns the word of the read specification |
| CWram.Wram.Write8 | src/core/ewram.c:36-38 | the array afterwards is that of the write specification |
| CWram.Wram.Write16 | src/core/ewram.c:40-45 | the array afterwards is that of the write specification |
| CWram.Wram.Write32 | src/core/ewram.c:47-54 | the array afterwards is that of the write specification |
| CIo.Slot | src/core/io.c:50-79 | `(addr >> 1) & 0x1ff` is always a valid index of the 512-entry tables |
| CIo.NineBits | src/core/io.c:19-50 | nine masked bits index below 512 |
| CIo.SlotsDistinct | src/core/io.c:26-51 | two different even addresses of the I/O region never share a slot, so no ioInit store overwrites another |
| CIo.SlotBitsDistinct | src/core/io.c:26-51 | the masked bits of two different even I/O addresses differ |
| CIo.SlotOfSlotAddress | src/core/io.c:26-79 | every address maps to the slot of one even address of the region, which ioInit visits |
| CIo.SlotAddressBits | src/core/io.c:26-79 | the representative even address has the same nine slot bits as the address |
| CIo.InstallStep | src/core/io.c:26-52 | one ioInit iteration extends the installed prefix of the table by its address, keeping what was installed before |
| CIo.EvenBelow | src/core/io.c:26 | an even region address below the next loop address and not the current one lies below the current one |
| CIo.InstalledAll | src/core/io.c:26-53 | when the loop reaches 0x04000400 every slot holds the component of its address range |
| CIo.Dispatch | src/core/io.c:30-120 | after ioInit, any address (mirrors included) dispatches to the component of its representative halfword's range |
| CIo.Merge8Preserves | src/core/io.c:102-112 | the merged halfword holds the written byte at the addressed half and the old byte in the other half |
| CIo.DummySlot | src/core/io.c:45-148 | an unmapped register reads 0xffff and a write to it calls nothing |
| CIo.ServedSlot | src/core/io.c:30-120 | a mapped register reads what its component returns and a write calls exactly that component once with the address and value |
| CIo.KnownRegisters | src/core/io.c:30-44 | IE goes to the interrupt controller, KEYINPUT to the keypad, DMA0CNT_H to DMA, TM0CNT to the timers and DISPSTAT to the GPU |
| CIo.Write32Halves | src/core/io.c:123-138 | a word write to mapped registers is two halfword calls, aligned and two apart, whose values join back to the word |
| CIo.Io.constructor | src/core/io.c:19-20 | a fresh 512-entry table |
| CIo.Io.Init | src/core/io.c:25-53 | afterwards every slot holds the component ioInit chooses for its address range |
| CIo.Io.Read16 | src/core/io.c:78-80 | returns the value of the 16-bit read specification through the table |
| CIo.Io.Write16 | src/core/io.c:119-121 | returns the handler calls of the 16-bit write specification |
| CIo.Io.Read8 | src/core/io.c:55-76 | returns 0 for POSTFLG and HALTCNT, otherwise the addressed byte of the halfword |
| CIo.Io.Write8 | src/core/io.c:96-117 | ignores POSTFLG and HALTCNT, otherwise writes back the halfword with the byte merged in |
| CIo.Io.Read32 | src/core/io.c:82-94 | returns the two halfword reads at the aligned address, low first |
| CIo.Io.Write32 | src/core/io.c:123-138 | returns the calls for the low halfword at the aligned address then the high one two above |
| CTimer.IncrementSkips | src/core/timer.c:72-92 | an increment of channel i never changes a channel below i, nor a later channel that is not in count-up mode |
| CTimer.IncrementOwn | src/core/timer.c:72-86 | the incremented channel ends one up, or at its reload value when it passed 0xffff |
| CTimer.OverflowCascades | src/core/timer.c:75-92 | after a reset, an overflow of channel i counts channel i + 1 exactly when that one is in count-up mode |
| CTimer.UnlinkedIncrement | src/core/timer.c:58-86 | before any reset there is no chain: only the channel itself counts, and an overflow raises the zero flag if its irq is set |
| CTimer.RaisedFrom | src/core/timer.c:72-92 | an increment of channel i raises only flags of channels i and above |
| CTimer.OwnFlag | src/core/timer.c:60-78 | channel i's own flag is raised exactly when it overflows with irq enabled |
| CTimer.NotLater | src/core/timer.c:60 | a channel's flag is not the flag of any later channel |
| CTimer.DistinctFlags | src/core/timer.c:60 | the four channels own four different interrupt bits |
| CTimer.IncrementKeepsSettings | src/core/timer.c:72-92 | increments change counters only, never reload values, prescalers or modes |
| CTimer.CycleStepsChannel | src/core/timer.c:50-70 | in one cycle a channel not in count-up mode counts once exactly when it operates and the cycle counter masked by its prescaler is 0 |
| CTimer.CycleUpToChannel | src/core/timer.c:51-70 | the loop over the first k channels has stepped a non-count-up channel j exactly when j < k |
| CTimer.CycleStallsCountUpZero | src/core/timer.c:51-92 | channel 0 in count-up mode never counts, since nothing overflows into it |
| CTimer.PrescalerPeriod | src/core/timer.c:66-104 | the prescaler masks make a channel count every 1, 64, 256 or 1024 cycles |
| CTimer.ControlAsWrittenStallsTimer0 | src/core/timer.c:106-111 | as written, enabling count-up on timer 1 puts timer 0 in count-up mode, and timer 0 then never counts |
| CTimer.ControlConfiguresOwnChannel | src/core/timer.c:98-115 | the intended control write sets its own channel's prescaler, irq, operate and count-up bits and changes no other channel |
| CTimer.ControlAsWrittenDiffers | src/core/timer.c:106-111 | as written, a control write to channels 1-3 sets channel 0's count-up bit and leaves its own; the intended write does the opposite |
| CTimer.ControlZero | src/core/timer.c:106-108 | a control write to channel 0 turns count-up off and clears only bit 2 of 0x04000102 |
| CTimer.Timer.constructor | src/core/timer.c:23-24 | zero-initialised globals: no chain, zero counter and settings |
| CTimer.Timer.Reset | src/core/timer.c:43-62 | links the chain and gives channel i the flag `1 << (i + 3)`, keeping the channels' settings and counters |
| CTimer.Timer.Cycle | src/core/timer.c:50-56 | the channels and raised flags are those of the four channel cycles in order, and the cycle counter advances by one |
| CTimer.Timer.ChannelCycle | src/core/timer.c:64-70 | the channels and flags of one channel's cycle specification |
| CTimer.Timer.Increment | src/core/timer.c:72-86 | the channels and flags of the increment specification, the cascade included |
| CTimer.Timer.LastOverflowed | src/core/timer.c:88-92 | the channels and flags of the overflow specification: a count-up channel increments, others are untouched |
| CTimer.Timer.WriteReload | src/core/timer.c:94-96 | only the reload value of channel i changes |
| CTimer.Timer.WriteControl | src/core/timer.c:98-115 | the channels become those of the as-written control write, and 0x04000102 loses bit 2 for channel 0 |
| CDma.IoBases | src/core/dma.c:126-129 | channel i's registers start at 0x040000b0 + 12 * i |
| CDma.ReloadWordCountInRange | src/core/dma.c:224-234 | a reloaded word count is never 0 and at most 0x10000 |
| CDma.CountOfInRange | src/core/dma.c:224-234 | every CNT_L value stands for a count from 1 to 0x10000 |
| CDma.WidenedInRange | src/core/dma.c:225 | a non-zero 16-bit count widened to 32 bits is in range |
| CDma.DefaultsInRange | src/core/dma.c:229-231 | the substitutes 0x10000 and 0x4000 are in range |
| CDma.ZeroCountMeansMaximum | src/core/dma.c:227-233 | a CNT_L of 0 means 0x10000 units on channel 3 and 0x4000 on the others |
| CDma.FirstRunning | src/core/dma.c:73-81 | the channel found is running and no channel before it is; none is found only when none runs |
| CDma.CntHKeepsCounting | src/core/dma.c:83-104 | after a CNT_H write, as written and as intended, a channel that is enabled or running has a count in range |
| CDma.CycleKeepsCounting | src/core/dma.c:131-177 | a transfer step keeps the count of an enabled or running channel in range |
| CDma.CountDown | src/core/dma.c:167-171 | counting down a count in range that does not reach 0 stays in range |
| CDma.TriggerKeeps | src/core/dma.c:236-250 | the blank hooks keep counts in range and start only enabled channels |
| CDma.CntHSpecConsistent | src/core/dma.c:83-104 | after the intended CNT_H write a running channel is enabled |
| CDma.CycleKeepsConsistent | src/core/dma.c:131-196 | a transfer step keeps every running channel enabled |
| CDma.TimingAsWrittenNeverHblank | src/core/dma.c:83-104 | as written the start timing is a boolean, so no channel ever waits for HBlank and the HBlank hook starts nothing |
| CDma.HblankStartsAtOnce | src/core/dma.c:91-102 | as written a CNT_H of 0xa000 (enabled, HBlank timing) starts the channel at once; as intended it waits for the HBlank hook |
| CDma.HblankValue | src/core/dma.c:91-93 | 0xa000 has the enable bit and start timing 2 (HBlank) but not bit 12 |
| CDma.TimingField | src/core/dma.c:23-28 | the intended start timing is one of the four timings, HBlank exactly for bits 13:12 = 2 |
| CDma.TimingBelow | src/core/dma.c:23-28 | a two-bit field is below 4 |
| CDma.TimingHblank | src/core/dma.c:26 | the field is HBlank exactly when bits 13:12 are 10 |
| CDma.DisabledWriteStarts | src/core/dma.c:95-103 | as written, writing 0 to CNT_H of a disabled channel starts it running although it stays disabled |
| CDma.ZeroValue | src/core/dma.c:91-93 | a CNT_H of 0 has the enable bit clear and immediate timing |
| CDma.DisabledWriteStops | src/core/dma.c:93-96 | as intended, a write with the enable bit clear leaves the channel stopped and disabled |
| CDma.EnableLoads | src/core/dma.c:98-102 | an enabling write reloads source, destination and count from the channel's registers and runs the channel iff it was running or its timing is immediate |
| CDma.CycleCountsDown | src/core/dma.c:131-173 | a step that does not finish copies one unit from source to destination, advances both addresses and counts down, keeping the channel running |
| CDma.LastUnitDisables | src/core/dma.c:169-196 | the last unit of a one-shot transfer stops and disables the channel, clears bit 15 of its CNT_H and raises its interrupt if asked |
| CDma.LastUnitRepeats | src/core/dma.c:182-214 | the last unit of a repeating transfer keeps the controls, reloads the count and, in increment-reload mode only, the destination |
| CDma.Flags | src/core/dma.c:194 | the channels raise interrupt bits 8 to 11 |
| CDma.AdvanceSteps | src/core/dma.c:136-164 | an address moves by the unit size up, down or not at all by its control, and the fourth control counts up |
| CDma.CycleServesLowest | src/core/dma.c:73-81 | a cycle reports activity iff some channel runs, and changes at most the lowest running channel |
| CDma.Dma.constructor | src/core/dma.c:47 | four zero-initialised channels |
| CDma.Dma.Reset | src/core/dma.c:67-129 | each channel gets its index and register base and keeps everything else |
| CDma.Dma.WriteCntH | src/core/dma.c:83-124 | the channel written becomes that of the as-written CNT_H write, the others are unchanged |
| CDma.Dma.Cycle | src/core/dma.c:73-81 | activity, channels and requests are those of the cycle specification |
| CDma.Dma.ChannelCycle | src/core/dma.c:131-177 | the channel and the requests of one transfer step |
| CDma.Dma.Finish | src/core/dma.c:179-196 | the channel and the requests of finishing a transfer |
| CDma.Dma.OnBlank | src/core/dma.c:236-250 | each channel is started iff it is enabled, stopped and waiting for that blank |
| CBitops.RotateRightInverse | include/core/cpu/bitops.h:9-15 | rotating right by r and then by 32 - r gives the word back |
| CBitops.RotateRightIsRor | include/core/cpu/bitops.h:9-15 | for 0 < r < 32 the two-shift rotation is the ARM ROR of the reference |
| CBitops.SignExtend8to32 | include/core/cpu/bitops.h:17-19 | the low byte is kept and bits 8-31 all copy bit 7 |
| CBitops.SignExtend16to32 | include/core/cpu/bitops.h:21-23 | the low halfword is kept and bits 16-31 all copy bit 15 |
| CBitops.SignExtend26 | include/core/cpu/bitops.h:25-27 | the arithmetic shift pair fills bits 26-31 with bit 25 and keeps bits 0-25 |
| CBitops.SignExtend32to64 | include/core/cpu/bitops.h:29-31 | the 64-bit value lies in the signed 32-bit range and is negative iff bit 31 is set |
| CBitops.SignExtend32to64Wraps | include/core/cpu/bitops.h:29-31 | the extended value is congruent to the word modulo 2^32 |
| CBitops.OnesBound | include/core/cpu/bitops.h:33-53 | at most n of the n lowest bits are set |
| CBitops.OnesZero | include/core/cpu/bitops.h:44-53 | the weight is 0 exactly for the zero halfword |
| CBitops.HammingWeight16 | include/core/cpu/bitops.h:44-53 | the loop counts the set bits of the halfword, at most 16 |
| CBitops.HammingWeight8 | include/core/cpu/bitops.h:33-42 | the loop counts the set bits of the byte, at most 8 |
| CBitops.ByteOnes | include/core/cpu/bitops.h:33-42 | a byte has no set bit above bit 7, so its 16-bit and 8-bit weights agree |
| CBitops.GetCarrySub | include/core/cpu/bitops.h:65-67 | `left >= right` is the ARM NOT BorrowFrom of the subtraction |
| CBitops.CarrySubOrders | include/core/cpu/bitops.h:65-67 | carry set with a non-zero difference means left is strictly above right, and back |
| CBitops.OverflowSubIsReference | include/core/cpu/bitops.h:69-75 | the XOR test is the ARM OverflowFrom of a subtraction, for every result word |
| CBitops.CarrySbcIsReference | include/core/cpu/bitops.h:77-83 | the SBC carry test is NOT BorrowFrom of left - right - NOT carry |
| CBitops.OverflowAddIsReference | include/core/cpu/bitops.h:85-92 | the sign test is the ARM OverflowFrom of an addition, for every result word |
| CDecoder.ArmDecodeIndex | src/core/cpu/decoder.c:53-59 | the ARM index is below 4096, its top eight bits are opcode bits 27:20 and its low four bits are opcode bits 7:4 |
| CDecoder.ThumbDecodeIndex | src/core/cpu/decoder.c:47 | the Thumb index is below 1024 and holds exactly opcode bits 15:6 |
| CDecoder.ArmClassIsEncoding | src/core/cpu/decoder.c:73-159 | the ARM classifier picks, for every index, the instruction class of the ARMv4T encoding tables |
| CDecoder.ArmBranches | src/core/cpu/decoder.c:97-104 | index 0x121 is BX and bits 27:25 = 101 are B or BL by the link bit |
| CDecoder.ArmDataProcessingExactly | src/core/cpu/decoder.c:80-129 | an index is data processing exactly for an immediate operand or a register operand with a valid shift, outside the test-without-S space, and its opcode is bits 24:21 |
| CDecoder.ArmClassTotal | src/core/cpu/decoder.c:97-157 | every index gets a handler; none is left null |
| CDecoder.ThumbClassIsEncoding | src/core/cpu/decoder.c:161-231 | the corrected Thumb classifier picks, for every index, the format of the nineteen Thumb instruction formats |
| CDecoder.ThumbSwiFirst | src/core/cpu/decoder.c:182-219 | the SWI pattern is classified as SWI and not as a conditional branch |
| CDecoder.ThumbAsWrittenFourClasses | src/core/cpu/decoder.c:165-206 | as written, the chain only ever reaches four classes, since the half-word and move-shift tests catch everything before the later patterns |
| CDecoder.ThumbAsWrittenCounterexamples | src/core/cpu/decoder.c:165-206 | as written, an ALU instruction (index 0x100) is a move-shifted-register and SWI (index 0x37c) is a load/store halfword |
| CDecoder.HighRegisterAsWrittenRejectsBx | src/core/cpu/decoder.c:169-194 | as written the invalid-operand test rejects BX with a low register (index 0x11c), which the format allows |
| CDecoder.HighRegisterCorrection | src/core/cpu/decoder.c:169-194 | the corrected high-register test differs from the written one at index 0x11c only |
| CDecoder.ThumbClassTotal | src/core/cpu/decoder.c:186-229 | every Thumb index gets a handler, as written and corrected |
| CDecoder.DecodeTable.constructor | src/core/cpu/decoder.c:35-38 | both zero-initialised tables hold only null handlers |
| CDecoder.DecodeTable.Init | src/core/cpu/decoder.c:68-71 | afterwards every ARM entry is its index's ARM class and every Thumb entry its as-written Thumb class |
| CDecoder.DecodeTable.InitArm | src/core/cpu/decoder.c:73-159 | the loop fills all 4096 ARM entries with the classifier's result |
| CDecoder.DecodeTable.InitThumb | src/core/cpu/decoder.c:161-231 | the loop fills all 1024 Thumb entries with the as-written classifier's result |
| CCpu.SetThenGetCpsr | src/core/cpu/cpu.c:164-223 | setting the CPSR from a word and reading it back gives the word with its reserved bits 27-8 cleared |
| CCpu.KeepsConditionFlags | src/core/cpu/cpu.c:165-215 | the N, Z, C and V bits survive a set and get |
| CCpu.KeepsControlFlags | src/core/cpu/cpu.c:169-218 | the I, F and T bits survive a set and get |
| CCpu.KeepsMode | src/core/cpu/cpu.c:173-220 | the five mode bits survive a set and get |
| CCpu.ClearsReserved | src/core/cpu/cpu.c:209-223 | the read-back CPSR has bits 27-8 clear |
| CCpu.GetThenSetCpsr | src/core/cpu/cpu.c:164-223 | reading the flags and mode into a word and setting them from it gives the same flags and mode |
| CCpu.PackedFlags | src/core/cpu/cpu.c:212-218 | each flag is at its ARM bit of the packed CPSR |
| CCpu.PackedMode | src/core/cpu/cpu.c:220 | the mode is the low five bits of the packed CPSR |
| CCpu.CheckCondition | src/core/cpu/cpu.c:293-313 | for the sixteen condition codes the answer is the ARM condition test on N, Z, C, V; any other value fails |
| CCpu.LoadShape | src/core/cpu/cpu.c:385-450 | loading a defined mode's bank replaces r8-r14 with that bank and keeps r0-r7 and r15; an undefined mode loads nothing |
| CCpu.SaveShape | src/core/cpu/cpu.c:317-382 | the corrected save keeps the visible registers and leaves r8-r14 in the mode's bank |
| CCpu.LoadThenSave | src/core/cpu/cpu.c:317-450 | saving right after loading a mode changes no bank |
| CCpu.SavesAgree | src/core/cpu/cpu.c:341-350 | the written save is the corrected one except in IRQ mode, where r14 lands in the first IRQ slot over r13 |
| CCpu.ChangeModeKeepsUnbanked | src/core/cpu/cpu.c:315-454 | a mode change, as written and corrected, keeps r0-r7 and r15 |
| CCpu.ChangeModeRoundTrip | src/core/cpu/cpu.c:315-454 | with the corrected save, leaving a mode and coming back restores all sixteen visible registers |
| CCpu.ChangeModeAsWrittenRoundTrip | src/core/cpu/cpu.c:315-454 | as written the round trip restores the registers for every mode but IRQ |
| CCpu.Rebuilt | src/core/cpu/cpu.c:385-450 | a bank state with the same unbanked registers and the saved bank loads back the original registers |
| CCpu.SaveAfterLoadAsWritten | src/core/cpu/cpu.c:317-382 | a written save after a load keeps the visible registers and the bank of any non-IRQ mode |
| CCpu.IrqRoundTripCounterexample | src/core/cpu/cpu.c:348-349 | leaving IRQ mode for SVC and coming back, as written, gives r13 the old r14 and r14 the stale second IRQ slot |
| CCpu.Advance | src/core/cpu/cpu.c:157-159 | the pipeline moves one state towards EXECUTE and stays there |
| CCpu.PipelineSettles | src/core/cpu/cpu.c:157-159 | from any state, three steps reach EXECUTE |
| CCpu.Aligned | src/core/cpu/cpu.c:265-269 | a jump target is halfword-aligned in Thumb state and word-aligned in ARM state |
| CCpu.JumpChangesOnlyPc | src/core/cpu/cpu.c:262-273 | a jump sets r15 to the aligned target, flushes the pipeline and changes nothing else |
| CCpu.WriteRegisterAt | include/core/cpu/cpu.h:95-101 | a register write below r15 changes that one register; a write to r15 jumps and changes none of r0-r14; the flags never change |
| CCpu.SpsrRoundTrip | src/core/cpu/cpu.c:176-260 | in a mode with its own SPSR, setting the SPSR and reading it back gives the value and changes nothing else |
| CCpu.UserSpsrIsCpsr | src/core/cpu/cpu.c:178-233 | in USR, SYS and the old user mode the SPSR accessors read and write the CPSR |
| CCpu.RaiseSavesCpsr | src/core/cpu/cpu.c:275-463 | the intended exception entry saves the interrupted CPSR in the new mode's SPSR, links r14 to the old r15 and jumps to the vector |
| CCpu.RaiseAsWrittenSavesExceptionMode | src/core/cpu/cpu.c:275-291 | as written the mode is changed before the CPSR is saved, so the saved mode is the exception mode itself |
| CCpu.ThumbIndex | src/core/cpu/cpu.c:481 | a Thumb decode index is below 1024 |
| CCpu.ArmIndex | src/core/cpu/cpu.c:490-493 | an ARM decode index is below 4096 |
| CCpu.Pending | src/core/cpu/cpu.c:502-512 | a handler is due only in the EXECUTE state |
| CCpu.FetchMovesPc | src/core/cpu/cpu.c:465-475 | a fetch happens only from FETCH on; it latches the bus halfword or word and moves r15 by 2 or 4, changing nothing else |
| CCpu.DecodeLatches | src/core/cpu/cpu.c:477-500 | a decode happens only from DECODE on; it latches the fetched opcode and the table entry at its index |
| CCpu.ExecuteRunsPassingOpcodes | src/core/cpu/cpu.c:502-512 | at EXECUTE a Thumb handler always runs and an ARM handler runs iff its condition field passes on the flags |
| CCpu.EndStepAdvances | src/core/cpu/cpu.c:150-160 | a step moves the pipeline one state on, stopping at EXECUTE |
| CCpu.ArithmeticalFlagsSpec | include/core/cpu/flags.h:9-12 | only the flags change, never the mode or registers |
| CCpu.LogicalFlagsSpec | include/core/cpu/flags.h:14-17 | only the flags change, never the mode or registers |
| CCpu.FlagsMeanResult | include/core/cpu/flags.h:9-12 | afterwards EQ holds iff the result is 0 and MI iff bit 31 is set; C, V and the mode are kept |
| CCpu.LogicalCarryMeansCs | include/core/cpu/flags.h:14-17 | after a logical result, CS holds iff the shifter carry was set |
| CCpu.StubDispatch | src/core/cpu/cpu.c:514-520 | with cpu.c's stub table, an ARM opcode reaches BX exactly for index 0x121 (which decoder.c also sends to BX); every other opcode is undefined |
| CCpu.Zero | src/core/cpu/cpu.c:108-114 | every register of the array is 0 |
| CCpu.Copy | src/core/cpu/cpu.c:321-449 | the registers copied land at the target indices and nothing else in the target changes |
| CCpu.Cpu.State | src/core/cpu/cpu.c:60-79 | the C globals form a well-formed register state |
| CCpu.Cpu.constructor | src/core/cpu/cpu.c:60-79 | the zero-initialised globals: flags clear, registers zero, pipeline flushed |
| CCpu.Cpu.Init | src/core/cpu/cpu.c:90-94 | every ARM entry is undefined except BX at 0x121, and every Thumb entry is undefined |
| CCpu.Cpu.Reset | src/core/cpu/cpu.c:96-134 | the new state is the reset specification: flags and registers cleared, then the boot-skipping SYS setup or SVC mode |
| CCpu.Cpu.ClearRegisters | src/core/cpu/cpu.c:108-119 | every register of every bank is 0 |
| CCpu.Cpu.SetBootRegisters | src/core/cpu/cpu.c:124-127 | SP 0x03007f00, PC 0x08000000, IRQ SP 0x03007fa0, SVC SP 0x03007fe0 and nothing else |
| CCpu.Cpu.SaveBankedRegisters | src/core/cpu/cpu.c:317-382 | the banks become those of the as-written save for the current mode |
| CCpu.Cpu.SaveIrqRegisters | src/core/cpu/cpu.c:341-350 | r8-r12 go to the user bank and r14 to the first IRQ slot |
| CCpu.Cpu.SaveShortBank | src/core/cpu/cpu.c:352-381 | r8-r12 go to the user bank and r13-r14 to the mode's two-register bank |
| CCpu.Cpu.LoadBankedRegisters | src/core/cpu/cpu.c:385-450 | the banks become those of loading the new mode's bank |
| CCpu.Cpu.LoadShortBank | src/core/cpu/cpu.c:409-449 | r8-r12 come from the user bank and r13-r14 from the mode's bank |
| CCpu.Cpu.ChangeMode | src/core/cpu/cpu.c:315-454 | the mode is the new one and the banks those of the as-written mode change |
| CCpu.Cpu.Jump | src/core/cpu/cpu.c:262-273 | the new state is the jump specification |
| CCpu.Cpu.WriteRegister | include/core/cpu/cpu.h:95-101 | the new state is the register-write specification |
| CCpu.Cpu.SetCpsr | src/core/cpu/cpu.c:164-174 | the new state is the CPSR-write specification |
| CCpu.Cpu.SetSpsr | src/core/cpu/cpu.c:176-207 | the new state is the SPSR-write specification |
| CCpu.Cpu.RestoreCpsr | include/core/cpu/cpu.h:103-105 | the CPSR is set from the current SPSR |
| CCpu.Cpu.EnterVector | src/core/cpu/cpu.c:278-281 | LR takes PC, T is cleared, I set, and the CPU jumps to the vector |
| CCpu.Cpu.RaiseSwi | src/core/cpu/cpu.c:275-282 | the new state is the as-written SWI entry |
| CCpu.Cpu.RaiseUnd | src/core/cpu/cpu.c:284-291 | the new state is the as-written undefined-instruction entry |
| CCpu.Cpu.RaiseIrq | src/core/cpu/cpu.c:456-463 | the new state is the as-written IRQ entry |
| CCpu.Cpu.SetFlagsArithmetical | include/core/cpu/flags.h:9-12 | the new state is that of the arithmetical flag update |
| CCpu.Cpu.SetFlagsLogical | include/core/cpu/flags.h:14-17 | the new state is that of the logical flag update |
| CCpu.Cpu.Fetch | src/core/cpu/cpu.c:465-475 | the new state is the fetch specification on what the bus returns at the address |
| CCpu.Cpu.Decode | src/core/cpu/cpu.c:477-500 | the new state is the decode specification on the current tables |
| CCpu.Cpu.EndStep | src/core/cpu/cpu.c:150-160 | the new state is decode, fetch at the address read before the handler ran, and one pipeline step |
| CRegisterList.ListedFrom | src/core/cpu/op_arm_blockdatatransfer.c:70-74 | the registers listed from i on are all in i..n-1 |
| CRegisterList.ListedFromExactly | src/core/cpu/op_arm_blockdatatransfer.c:70-74 | the mask loop visits exactly the registers whose bit is set, in ascending order, each once |
| CRegisterList.SkipUnlisted | src/core/cpu/op_arm_blockdatatransfer.c:70-74 | registers whose bit is clear contribute nothing to the walk |
| CRegisterList.InListIsCounted | include/core/cpu/bitops.h:44-53 | the mask test `op & (1 << i)` and the bit the weight loop sees at place i agree |
| CRegisterList.ListedCountFrom | src/core/cpu/op_arm_blockdatatransfer.c:70-74 | the number of registers the walk visits from i to n is the weight of bits i..n-1 |
| CRegisterList.ListedCount | src/core/cpu/op_arm_blockdatatransfer.c:70-74 | the walk visits as many registers as `hammingWeight16` counts |
| CRegisterList.EmptyList | src/core/cpu/op_arm_blockdatatransfer.c:70-74 | the walk visits no register exactly when the low halfword is 0 |
| CRegisterList.IsFirst | src/core/cpu/op_arm_blockdatatransfer.c:126-140 | an index below which no register is listed, and which is listed or n, is the first listed |
| CRegisterList.FirstRegisterInList | src/core/cpu/op_arm_blockdatatransfer.c:126-140 | the loop returns the lowest listed register, or n when none is listed |
| CArmDataProcessing.DecodedOperation | src/core/cpu/decoder.c:105-129 | the decoder's data-processing entry names the operation of opcode bits 24-21, and sends a test operation only with S set |
| CArmDataProcessing.Operand2IsReference | src/core/cpu/op_arm_dataprocessing.c:314-484 | every form of the second operand, with its carry, is the ARM shifter operand for every shift type and amount |
| CArmDataProcessing.ShiftTypeField | src/core/cpu/op_arm_dataprocessing.c:332 | bits 6-5 name LSL, LSR, ASR and ROR in that order |
| CArmDataProcessing.ImmediateFormIsReference | src/core/cpu/op_arm_dataprocessing.c:318-330 | the rotated immediate and its carry are the ARM immediate operand |
| CArmDataProcessing.RegisterLsl | src/core/cpu/op_arm_dataprocessing.c:346-362 | LSL by a register amount 0, 1-31, 32 or more is the ARM register shift |
| CArmDataProcessing.RegisterLsr | src/core/cpu/op_arm_dataprocessing.c:364-380 | LSR by a register amount is the ARM register shift |
| CArmDataProcessing.RegisterAsr | src/core/cpu/op_arm_dataprocessing.c:382-397 | ASR by a register amount is the ARM register shift |
| CArmDataProcessing.RegisterRor | src/core/cpu/op_arm_dataprocessing.c:399-414 | ROR by a register amount is the ARM register shift |
| CArmDataProcessing.ImmediateLsl | src/core/cpu/op_arm_dataprocessing.c:420-431 | LSL by an immediate is the ARM immediate shift, LSL #0 passing the carry |
| CArmDataProcessing.ImmediateLsr | src/core/cpu/op_arm_dataprocessing.c:433-444 | LSR by an immediate is the ARM immediate shift, LSR #0 meaning LSR #32 |
| CArmDataProcessing.ImmediateAsr | src/core/cpu/op_arm_dataprocessing.c:446-459 | ASR by an immediate is the ARM immediate shift, ASR #0 meaning ASR #32 |
| CArmDataProcessing.SignFill | src/core/cpu/op_arm_dataprocessing.c:393-450 | an arithmetic shift by 31 fills the word with its sign |
| CArmDataProcessing.ImmediateRor | src/core/cpu/op_arm_dataprocessing.c:461-478 | ROR by an immediate is the ARM immediate shift, ROR #0 meaning RRX |
| CArmDataProcessing.AdcResultWraps | src/core/cpu/op_arm_dataprocessing.c:113-119 | the 64-bit sum written to Rd is the 32-bit sum with the carry |
| CArmDataProcessing.SubtractCarries | src/core/cpu/op_arm_dataprocessing.c:62-204 | SUB, CMP and RSB set C to NOT BorrowFrom of their operands |
| CArmDataProcessing.SubtractWithCarryCarries | src/core/cpu/op_arm_dataprocessing.c:147-168 | SBC and RSC set C to NOT BorrowFrom of the three-operand subtraction |
| CArmDataProcessing.AddWithCarryCarry | src/core/cpu/op_arm_dataprocessing.c:126 | ADC sets C to CarryFrom of the sum with the carry |
| CArmDataProcessing.AddCarries | src/core/cpu/op_arm_dataprocessing.c:102-217 | ADD and CMN set C, by the wrapped-result test, to CarryFrom of the sum |
| CArmDataProcessing.OverflowsAreReference | src/core/cpu/op_arm_dataprocessing.c:63-218 | every arithmetic handler sets V to the ARM OverflowFrom of its operation |
| CArmDataProcessing.AdcCarryIsReference | src/core/cpu/op_arm_dataprocessing.c:114-126 | the 64-bit sum exceeds 0xffffffff exactly when the ARM carry of the addition is set |
| CArmDataProcessing.FlagsStep | src/core/cpu/op_arm_dataprocessing.c:21-27 | a flag update that does not restore the CPSR changes only the flags |
| CArmDataProcessing.FlagsAfterArithmetic | src/core/cpu/op_arm_dataprocessing.c:61-63 | only the flags change |
| CArmDataProcessing.TestsNeverWrite | src/core/cpu/op_arm_dataprocessing.c:174-220 | TST, TEQ, CMP and CMN change no register and no pipeline state, only flags |
| CArmDataProcessing.WritesOnlyRd | src/core/cpu/op_arm_dataprocessing.c:19-55 | the other handlers with Rd below r15 change only Rd among the registers |
| CArmDataProcessing.WritesRd | src/core/cpu/op_arm_dataprocessing.c:12-312 | Rd receives the ALU result of Rn and the architecture's shifter operand |
| CArmDataProcessing.ArithmeticSetsFlags | src/core/cpu/op_arm_dataprocessing.c:57-65 | with S set, an arithmetic handler sets Z, N from the result and C, V from its operation, keeping everything else |
| CArmDataProcessing.LogicalSetsFlags | src/core/cpu/op_arm_dataprocessing.c:21-182 | with S set, a logical handler sets Z, N from the result and C from the shifter, keeping V |
| CArmDataProcessing.UserModeRestoreKeepsCpsr | src/core/cpu/op_arm_dataprocessing.c:22-23 | with S and Rd = r15 in a user mode, the CPSR restore keeps the CPSR and r0-r14 |
| CArmDataProcessing.DataProcessing | src/core/cpu/op_arm_dataprocessing.c:12-289 | the new CPU state is the handler's specification for the operation and opcode |
| CArmDataProcessing.Finish | src/core/cpu/op_arm_dataprocessing.c:19-27 | the new state is the write-back and flag step |
| CArmDataProcessing.StoreResult | src/core/cpu/op_arm_dataprocessing.c:19 | the new state is the write-back of the result |
| CArmDataProcessing.SetFlags | src/core/cpu/op_arm_dataprocessing.c:21-27 | the new state is the flag step |
| CArmDataProcessing.SetArithmeticFlags | src/core/cpu/op_arm_dataprocessing.c:61-63 | the new state is the arithmetic flag update |
| CArmSingleTransfer.SetupOf | src/core/cpu/op_arm_singledatatransfer.c:12-31 | the decoded base and destination register numbers are below 16 |
| CArmSingleTransfer.SingleDataTransfer | src/core/cpu/op_arm_singledatatransfer.c:11-58 | the new CPU state and the bus write are those of the as-written transfer specification |
| CArmSingleTransfer.Prepare | src/core/cpu/op_arm_singledatatransfer.c:12-31 | returns the decoded fields, base, offset and address; only the shifter carry changes |
| CArmSingleTransfer.GetOperand | src/core/cpu/op_arm_singledatatransfer.c:60-139 | returns the offset of the operand specification and leaves only the shifter carry it sets |
| CArmSingleTransfer.AccessBus | src/core/cpu/op_arm_singledatatransfer.c:33-45 | the state and the bus write of the access specification |
| CArmSingleTransfer.BaseUpdate | src/core/cpu/op_arm_singledatatransfer.c:47-57 | the state of the base write-back specification |
| CArmSingleTransfer.OffsetIsReference | src/core/cpu/op_arm_singledatatransfer.c:60-139 | the offset is the 12-bit immediate, or the register shifted by an immediate as the ARM shifter operand defines it |
| CArmSingleTransfer.OffsetCarry | src/core/cpu/op_arm_singledatatransfer.c:119-125 | a register offset sets the shifter carry as the ARM shift does, except RRX, which leaves the old carry |
| CArmSingleTransfer.ShiftedByImmediate | src/core/cpu/op_arm_singledatatransfer.c:67-135 | the shift branches are the ARM immediate shifts of the register (r15 read 4 further on) |
| CArmSingleTransfer.AddressIsReference | src/core/cpu/op_arm_singledatatransfer.c:20-31 | the access address is the ARM pre- or post-indexed address of Rn and the offset |
| CArmSingleTransfer.IndexedIsReference | src/core/cpu/op_arm_singledatatransfer.c:25-31 | adding or subtracting the offset before the access is ARM pre-indexing |
| CArmSingleTransfer.FinalBaseIsReference | src/core/cpu/op_arm_singledatatransfer.c:47-57 | the written-back base is Rn plus or minus the offset |
| CArmSingleTransfer.RegisterAfter | src/core/cpu/op_arm_singledatatransfer.c:33-57 | afterwards each of r0-r14 is the written-back base, else the loaded value, else unchanged |
| CArmSingleTransfer.KeepsPsr | src/core/cpu/op_arm_singledatatransfer.c:11-58 | the handler never changes the CPSR |
| CArmSingleTransfer.ByteLoadZeroExtends | src/core/cpu/op_arm_singledatatransfer.c:34-35 | a byte load gives the byte read with bits 31-8 clear |
| CArmSingleTransfer.StoreWrites | src/core/cpu/op_arm_singledatatransfer.c:39-45 | a store writes Rd (or its low byte) at the access address and nothing else |
| CArmSingleTransfer.LoadPcAsWritten | src/core/cpu/op_arm_singledatatransfer.c:35-37 | as written a load into r15 without write-back neither flushes the pipeline nor aligns the word |
| CArmSingleTransfer.LoadPcIntended | src/core/cpu/op_arm_singledatatransfer.c:35-37 | corrected, a load into r15 jumps: the pipeline is flushed and the word aligned |
| CArmSingleTransfer.LoadPcCounterexample | src/core/cpu/op_arm_singledatatransfer.c:33-38 | LDR pc, [r0] in the execute stage: as written the pipeline goes on, corrected it is flushed |
| CArmHalfwordTransfer.SetupOf | src/core/cpu/op_arm_halfwordsigneddatatransfer.c:8-37 | the decoded base and destination register numbers are below 16 |
| CArmHalfwordTransfer.HalfwordSignedDataTransfer | src/core/cpu/op_arm_halfwordsigneddatatransfer.c:7-85 | the new CPU state and the bus write are those of the transfer specification |
| CArmHalfwordTransfer.Prepare | src/core/cpu/op_arm_halfwordsigneddatatransfer.c:8-37 | returns the decoded fields, offset and address |
| CArmHalfwordTransfer.LoadValue | src/core/cpu/op_arm_halfwordsigneddatatransfer.c:40-61 | returns the value the load specification gives for the bus contents |
| CArmHalfwordTransfer.ExtendHalf | src/core/cpu/op_arm_halfwordsigneddatatransfer.c:43-54 | returns the halfword sign-extended, byte-extended or rotated as its alignment and signedness say |
| CArmHalfwordTransfer.AccessBus | src/core/cpu/op_arm_halfwordsigneddatatransfer.c:39-72 | the state and the bus write of the access specification |
| CArmHalfwordTransfer.BaseUpdate | src/core/cpu/op_arm_halfwordsigneddatatransfer.c:74-84 | the state of the base write-back specification |
| CArmHalfwordTransfer.OffsetIsReference | src/core/cpu/op_arm_halfwordsigneddatatransfer.c:22-27 | the offset is the split 8-bit immediate (below 0x100) or Rm |
| CArmHalfwordTransfer.AddressIsReference | src/core/cpu/op_arm_halfwordsigneddatatransfer.c:29-84 | the access address and the written-back base are the ARM indexed address and write-back of Rn and the offset |
| CArmHalfwordTransfer.UnsignedHalfwordLoad | src/core/cpu/op_arm_halfwordsigneddatatransfer.c:52-54 | an unsigned halfword load is the halfword, rotated right by 8 when the address is odd |
| CArmHalfwordTransfer.RotatedHalf | src/core/cpu/op_arm_halfwordsigneddatatransfer.c:53 | the rotated halfword has its high byte at bits 7-0, its low byte at bits 31-24 and zeros between |
| CArmHalfwordTransfer.SignedHalfwordLoad | src/core/cpu/op_arm_halfwordsigneddatatransfer.c:46-51 | a signed halfword load sign-extends the halfword, or its high byte from an odd address |
| CArmHalfwordTransfer.SignedByteLoad | src/core/cpu/op_arm_halfwordsigneddatatransfer.c:56-60 | a signed byte load keeps the byte and copies bit 7 into bits 31-8 |
| CArmHalfwordTransfer.StoreHalfword | src/core/cpu/op_arm_halfwordsigneddatatransfer.c:65-68 | STRH writes the low halfword of Rd at the access address |
| CArmHalfwordTransfer.StoreByte | src/core/cpu/op_arm_halfwordsigneddatatransfer.c:65-70 | the byte form of a store writes the low byte of Rd |
| CArmHalfwordTransfer.RegisterAfter | src/core/cpu/op_arm_halfwordsigneddatatransfer.c:39-84 | afterwards each of r0-r14 is the loaded value, else the written-back base (skipped when Rd = Rn on a load), else unchanged |
| CArmHalfwordTransfer.KeepsPsr | src/core/cpu/op_arm_halfwordsigneddatatransfer.c:7-85 | the handler never changes the CPSR |
| CArmHalfwordTransfer.LoadPcJumps | src/core/cpu/op_arm_halfwordsigneddatatransfer.c:63 | a load into r15 goes through the register write and so jumps: the pipeline is flushed |
| CArmBlockTransfer.SetupOf | src/core/cpu/op_arm_blockdatatransfer.c:11-20 | the decoded base register is below 16 and the register count is at most 16 |
| CArmBlockTransfer.Load | src/core/cpu/op_arm_blockdatatransfer.c:75-86 | loading one listed register keeps the CPU state well formed |
| CArmBlockTransfer.Move | src/core/cpu/op_arm_blockdatatransfer.c:74-114 | moving one listed register keeps the CPU state well formed |
| CArmBlockTransfer.Walk | src/core/cpu/op_arm_blockdatatransfer.c:70-118 | walking the list from any index keeps the CPU state well formed |
| CArmBlockTransfer.ListTransfer | src/core/cpu/op_arm_blockdatatransfer.c:54-123 | the non-empty list transfer keeps the CPU state well formed |
| CArmBlockTransfer.ListWriteBack | src/core/cpu/op_arm_blockdatatransfer.c:120-122 | the final base update keeps the CPU state well formed |
| CArmBlockTransfer.EmptyAccess | src/core/cpu/op_arm_blockdatatransfer.c:39-45 | the empty-list access (jump or store of pc + 4) keeps the CPU state well formed |
| CArmBlockTransfer.EmptyWriteBack | src/core/cpu/op_arm_blockdatatransfer.c:47-53 | the empty-list base update keeps the CPU state well formed |
| CArmBlockTransfer.EmptyTransfer | src/core/cpu/op_arm_blockdatatransfer.c:22-53 | the empty-list transfer keeps the CPU state well formed |
| CArmBlockTransfer.Transfer | src/core/cpu/op_arm_blockdatatransfer.c:10-124 | a block transfer keeps the CPU state well formed |
| CArmBlockTransfer.LdmStm | src/core/cpu/op_arm_blockdatatransfer.c:10-124 | the new register file and the bus writes are those of the as-written transfer specification |
| CArmBlockTransfer.Prepare | src/core/cpu/op_arm_blockdatatransfer.c:11-20 | returns the decoded setup of the opcode in the current state |
| CArmBlockTransfer.FirstAddress | src/core/cpu/op_arm_blockdatatransfer.c:60-68 | the first address is the ARM reference start address of a pre/post, up/down transfer of that size |
| CArmBlockTransfer.DownAfterUp | src/core/cpu/op_arm_blockdatatransfer.c:62-68 | adding 4 and then going down by the size equals base - size + 4, modulo 2^32 |
| CArmBlockTransfer.EmptyCase | src/core/cpu/op_arm_blockdatatransfer.c:22-53 | the new state and the bus writes are those of the empty-list specification |
| CArmBlockTransfer.EmptyWord | src/core/cpu/op_arm_blockdatatransfer.c:39-45 | the new state and bus write are those of the empty-list access specification |
| CArmBlockTransfer.EmptyBaseUpdate | src/core/cpu/op_arm_blockdatatransfer.c:47-53 | the new state is that of the empty-list write-back specification |
| CArmBlockTransfer.ListCase | src/core/cpu/op_arm_blockdatatransfer.c:54-123 | the new state and the bus writes are those of the list specification |
| CArmBlockTransfer.WalkList | src/core/cpu/op_arm_blockdatatransfer.c:70-118 | the loop over the sixteen mask bits leaves the state and writes of the walk specification |
| CArmBlockTransfer.ThenThen | src/core/cpu/op_arm_blockdatatransfer.c:109 | applying two batches of bus writes in turn equals applying their concatenation |
| CArmBlockTransfer.WalkStep | src/core/cpu/op_arm_blockdatatransfer.c:73-117 | one iteration of the mask loop moves the walk one register on, preserving its final outcome |
| CArmBlockTransfer.ListBaseUpdate | src/core/cpu/op_arm_blockdatatransfer.c:120-122 | the new state is that of the list write-back specification |
| CArmBlockTransfer.MoveRegister | src/core/cpu/op_arm_blockdatatransfer.c:75-111 | the new state and writes are those of moving that register |
| CArmBlockTransfer.LoadRegister | src/core/cpu/op_arm_blockdatatransfer.c:75-86 | the new state is that of loading that register |
| CArmBlockTransfer.StoredValue | src/core/cpu/op_arm_blockdatatransfer.c:88-107 | returns the stored value of the specification: pc + 4 for r15, the final base for a non-first rn with write-back, else the register |
| CArmBlockTransfer.Effects | src/core/cpu/op_arm_blockdatatransfer.c:73-118 | one bus effect per listed register |
| CArmBlockTransfer.MoveLoads | src/core/cpu/op_arm_blockdatatransfer.c:75-86 | an ordinary load writes the word read at the address into exactly register i and makes no bus write |
| CArmBlockTransfer.MovePsr | src/core/cpu/op_arm_blockdatatransfer.c:76-80 | a load changes the CPSR only for r15 with the S bit, and then to the SPSR; the SPSR is kept |
| CArmBlockTransfer.PcListed | src/core/cpu/op_arm_blockdatatransfer.c:56 | the pc-in-list flag holds exactly when bit 15 of the list is set |
| CArmBlockTransfer.RnListed | src/core/cpu/op_arm_blockdatatransfer.c:120 | the rn-in-list flag holds exactly when the base register's bit is set |
| CArmBlockTransfer.CountIsListed | src/core/cpu/op_arm_blockdatatransfer.c:16-58 | the register count is the number of listed registers, and the list is empty exactly when the count is zero |
| CArmBlockTransfer.MovesListed | src/core/cpu/op_arm_blockdatatransfer.c:54-123 | the j-th listed register is transferred at the start address plus 4j, in ascending order, and the base is written back unless a load lists it |
| CArmBlockTransfer.LoadsListed | src/core/cpu/op_arm_blockdatatransfer.c:75-122 | after an LDM each listed register holds the word at its slot, an unlisted base the final base under write-back, and every other register is kept |
| CArmBlockTransfer.LoadsKeepPsr | src/core/cpu/op_arm_blockdatatransfer.c:75-86 | an LDM without the S bit makes no bus write and keeps the CPSR |
| CArmBlockTransfer.ListWriteBackAt | src/core/cpu/op_arm_blockdatatransfer.c:120-122 | the write-back changes only rn, to the final base, and only with W set and not on a load that lists rn |
| CArmBlockTransfer.UserPcLoadAsWritten | src/core/cpu/op_arm_blockdatatransfer.c:76-80 | as written, an LDM with S and pc listed only copies the SPSR to the CPSR and loads no register |
| CArmBlockTransfer.UserPcLoadIntended | src/core/cpu/op_arm_blockdatatransfer.c:76-80 | corrected, such an LDM loads every listed low register from its slot |
| CArmBlockTransfer.UserPcLoadRestoresPsr | src/core/cpu/op_arm_blockdatatransfer.c:76-80 | corrected, such an LDM makes no bus write and restores the CPSR from the SPSR |
| CArmBlockTransfer.UserPcLoadCounterexample | src/core/cpu/op_arm_blockdatatransfer.c:76-80 | LDMIA r0, {r0, pc}^ leaves r0 unchanged as written, while the corrected transfer loads it from memory |
| CArmBlockTransfer.EmptyAddress | src/core/cpu/op_arm_blockdatatransfer.c:25-39 | the empty-list offsets 4, -0x40, 0, -0x3c give the reference start address of a 0x40-byte transfer |
| CArmBlockTransfer.EmptyMoves | src/core/cpu/op_arm_blockdatatransfer.c:22-53 | an empty list jumps to the loaded word or stores pc + 4 at that address, then moves the base by 0x40 under write-back |
| CArmBlockTransfer.EmptyMovesPc | src/core/cpu/op_arm_blockdatatransfer.c:10-53 | an opcode with an empty list behaves as the empty-list case from the decoded base |
| CThumbAlu.Apply | src/core/cpu/op_thumb_aluoperations.c:50-242 | applying an operation's flags and register write keeps the CPU state well formed |
| CThumbAlu.SetNz | src/core/cpu/op_thumb_aluoperations.c:54 | setting Z and N (and C from a shifter carry) changes only the status flags and the shifter carry, never the mode |
| CThumbAlu.SetCv | src/core/cpu/op_thumb_aluoperations.c:143-144 | setting C and V changes only the status flags, never the mode |
| CThumbAlu.Step | src/core/cpu/op_thumb_aluoperations.c:23-48 | a Thumb ALU instruction keeps the CPU state well formed |
| CThumbAlu.AluOperations | src/core/cpu/op_thumb_aluoperations.c:23-48 | the new CPU state is that of the as-written ALU step on the opcode |
| CThumbAlu.Finish | src/core/cpu/op_thumb_aluoperations.c:54-55 | the new state is that of applying the operation's effect to Rd and the flags |
| CThumbAlu.FinishNz | src/core/cpu/op_thumb_aluoperations.c:54 | the new state is the old one with Z and N (and a shifter carry) set from the effect |
| CThumbAlu.FinishCv | src/core/cpu/op_thumb_aluoperations.c:143-144 | the new state is the old one with the effect's C and V, where it has them |
| CThumbAlu.ShiftIsReference | src/core/cpu/op_thumb_aluoperations.c:66-132 | corrected, LSL, LSR, ASR and ROR give the ARM reference register shift of Rd by the bottom byte of Rs, value and carry, write Rd and set no C or V of their own |
| CThumbAlu.ShiftAsWrittenAgrees | src/core/cpu/op_thumb_aluoperations.c:66-179 | for shift amounts below 0x100 the as-written shifts agree with the corrected ones |
| CThumbAlu.ShiftCounterexample | src/core/cpu/op_thumb_aluoperations.c:66-87 | LSL r0, r1 with r1 = 0x100 clears r0 and C as written, while the architecture leaves both unchanged |
| CThumbAlu.AdcIsReference | src/core/cpu/op_thumb_aluoperations.c:134-146 | ADC stores Rs + Rd + C modulo 2^32 and sets the reference carry and overflow of the addition |
| CThumbAlu.SbcCarry | src/core/cpu/op_thumb_aluoperations.c:154 | SBC sets C to the reference not-borrow of Rd - Rs - NOT C |
| CThumbAlu.SbcWithCarry | src/core/cpu/op_thumb_aluoperations.c:151 | with C set, SBC stores Rd - Rs |
| CThumbAlu.SbcWithoutCarry | src/core/cpu/op_thumb_aluoperations.c:151 | with C clear, SBC stores Rd - Rs - 1 |
| CThumbAlu.SbcOverflow | src/core/cpu/op_thumb_aluoperations.c:155 | SBC sets V to the reference overflow of the subtraction Rd - Rs giving the stored result |
| CThumbAlu.CmpIsReference | src/core/cpu/op_thumb_aluoperations.c:195-202 | CMP computes Rd - Rs, writes no register, and sets C to the reference not-borrow |
| CThumbAlu.CmpOverflow | src/core/cpu/op_thumb_aluoperations.c:201 | CMP sets V to the reference overflow of Rd - Rs |
| CThumbAlu.CmnIsReference | src/core/cpu/op_thumb_aluoperations.c:204-211 | CMN computes Rs + Rd, writes no register, and sets the reference carry and overflow of the addition |
| CThumbAlu.CmnCarry | src/core/cpu/op_thumb_aluoperations.c:209 | the wrapped sum being below Rs is exactly the carry out of the 32-bit addition |
| CThumbAlu.NegAsWritten | src/core/cpu/op_thumb_aluoperations.c:188-193 | as written NEG stores 0 - Rs and sets only Z and N |
| CThumbAlu.NegIntended | src/core/cpu/op_thumb_aluoperations.c:188-193 | corrected, NEG also sets C and V of the subtraction 0 - Rs, C being set exactly when Rs is 0 |
| CThumbAlu.NegCounterexample | src/core/cpu/op_thumb_aluoperations.c:188-193 | NEG r0, r1 with r1 = 0 and C clear leaves C clear as written, while the architecture sets it |
| CThumbAlu.PlainKeepsCv | src/core/cpu/op_thumb_aluoperations.c:50-64 | AND, EOR, TST, ORR, MUL, BIC, MVN and the as-written NEG leave C and V unchanged |
| CThumbAlu.FlagsAfter | src/core/cpu/op_thumb_aluoperations.c:54 | afterwards Z and N come from the result, C from the operation's carry, else the shifter carry, else the old C, V from the operation's overflow else the old V |
| CThumbAlu.NzFlags | src/core/cpu/op_thumb_aluoperations.c:54 | Z is result = 0, N is bit 31 of the result, C is the shifter carry if there is one, and V is kept |
| CThumbAlu.RegistersAfter | src/core/cpu/op_thumb_aluoperations.c:55 | only Rd changes, to the result, and only for an operation that writes |
| CThumbAlu.WritesUnlessComparison | src/core/cpu/op_thumb_aluoperations.c:181-211 | an operation writes Rd exactly when it is not TST, CMP or CMN |
| CThumbMultiple.SetupOf | src/core/cpu/op_thumb_multipleloadstore.c:10-16 | the decoded base register Rb is one of the low registers r0-r7 |
| CThumbMultiple.Move | src/core/cpu/op_thumb_multipleloadstore.c:33-52 | moving one listed register keeps the CPU state well formed |
| CThumbMultiple.Walk | src/core/cpu/op_thumb_multipleloadstore.c:30-53 | walking the list from any index keeps the CPU state well formed |
| CThumbMultiple.ListTransfer | src/core/cpu/op_thumb_multipleloadstore.c:26-56 | the non-empty list transfer keeps the CPU state well formed |
| CThumbMultiple.EmptyTransfer | src/core/cpu/op_thumb_multipleloadstore.c:18-25 | the empty-list transfer keeps the CPU state well formed |
| CThumbMultiple.Transfer | src/core/cpu/op_thumb_multipleloadstore.c:9-57 | a Thumb LDMIA or STMIA keeps the CPU state well formed |
| CThumbMultiple.MultipleLoadStore | src/core/cpu/op_thumb_multipleloadstore.c:9-57 | the new register file and the bus writes are those of the as-written transfer specification |
| CThumbMultiple.Prepare | src/core/cpu/op_thumb_multipleloadstore.c:10-16 | returns the decoded setup of the opcode over the current registers |
| CThumbMultiple.EmptyCase | src/core/cpu/op_thumb_multipleloadstore.c:18-25 | the new state and the bus write are those of the empty-list specification |
| CThumbMultiple.ListCase | src/core/cpu/op_thumb_multipleloadstore.c:26-56 | the new state and the bus writes are those of the list specification |
| CThumbMultiple.WalkList | src/core/cpu/op_thumb_multipleloadstore.c:27-53 | the loop over the eight list bits leaves the state and writes of the walk specification and returns the address past the last word |
| CThumbMultiple.WalkStep | src/core/cpu/op_thumb_multipleloadstore.c:30-52 | one iteration moves the walk one register on, preserving its final outcome and its end address |
| CThumbMultiple.MoveRegister | src/core/cpu/op_thumb_multipleloadstore.c:34-49 | the new state and writes are those of moving that register |
| CThumbMultiple.StoredValue | src/core/cpu/op_thumb_multipleloadstore.c:37-46 | returns the stored value of the specification: the final base for an Rb that is not first in the list, else the register |
| CThumbMultiple.LoadRegister | src/core/cpu/op_thumb_multipleloadstore.c:35 | the new state has exactly that register replaced by the loaded word |
| CThumbMultiple.ByteListed | src/core/cpu/op_thumb_multipleloadstore.c:31-33 | a low register is listed in the opcode exactly when its bit is set in the opcode's low byte |
| CThumbMultiple.ByteMask | src/core/cpu/op_thumb_multipleloadstore.c:31-33 | testing a low bit of the opcode is testing it in the low byte |
| CThumbMultiple.ByteCount | src/core/cpu/op_thumb_multipleloadstore.c:16 | the population count of the low n bits is the number of registers listed below n |
| CThumbMultiple.CountIsListed | src/core/cpu/op_thumb_multipleloadstore.c:12-16 | the register count is the number of listed registers, and the list is empty exactly when it is zero |
| CThumbMultiple.RbFirst | src/core/cpu/op_thumb_multipleloadstore.c:13-14 | when Rb is listed, it is the first listed register exactly when it is at position 0 of the list |
| CThumbMultiple.FirstAt | src/core/cpu/op_thumb_multipleloadstore.c:59-73 | the first register found by the scan is the j-th listed one exactly when j is 0 |
| CThumbMultiple.EndIsWord | src/core/cpu/op_thumb_multipleloadstore.c:30-53 | the offset after the loop from index i is the address one word past each register listed from i on |
| CThumbMultiple.WordSpanAt | src/core/cpu/op_thumb_multipleloadstore.c:43 | the j-th word after an address is 4j bytes past it, for up to eight words |
| CThumbMultiple.EndAt | src/core/cpu/op_thumb_multipleloadstore.c:51-55 | the offset after the loop is the base plus four times the number of listed registers |
| CThumbMultiple.EndIsFinalBase | src/core/cpu/op_thumb_multipleloadstore.c:43-55 | the offset written back equals the final base a non-first Rb is stored as |
| CThumbMultiple.Stores | src/core/cpu/op_thumb_multipleloadstore.c:36-48 | one bus write per listed register |
| CThumbMultiple.StoresAt | src/core/cpu/op_thumb_multipleloadstore.c:36-51 | the j-th store writes the j-th listed register's stored value to the j-th word |
| CThumbMultiple.WalkStores | src/core/cpu/op_thumb_multipleloadstore.c:30-53 | a storing walk changes no register and makes exactly the stores of the listed registers, in ascending order |
| CThumbMultiple.MoveLoads | src/core/cpu/op_thumb_multipleloadstore.c:35 | a load writes the word at the address into exactly register i, keeps the CPSR and makes no bus write |
| CThumbMultiple.WalkLoadsQuietly | src/core/cpu/op_thumb_multipleloadstore.c:30-53 | a loading walk makes no bus write and keeps the CPSR |
| CThumbMultiple.ListedStep | src/core/cpu/op_thumb_multipleloadstore.c:51 | passing a listed register advances the address by one word |
| CThumbMultiple.WalkLoads | src/core/cpu/op_thumb_multipleloadstore.c:30-53 | after a loading walk every listed register holds the word at its slot and every other register is kept |
| CThumbMultiple.StoresListed | src/core/cpu/op_thumb_multipleloadstore.c:26-56 | STMIA stores the j-th listed register at base + 4j, in ascending order, and leaves Rb as the final base |
| CThumbMultiple.StoreFlag | src/core/cpu/op_thumb_multipleloadstore.c:10 | the load flag of the widened opcode is bit 11 of the opcode |
| CThumbMultiple.LoadsListed | src/core/cpu/op_thumb_multipleloadstore.c:26-56 | after LDMIA Rb holds the final base (as written even when listed), each listed register the word at its slot, the rest are kept, and there is no bus write |
| CThumbMultiple.LoadBaseOpcode | src/core/cpu/op_thumb_multipleloadstore.c:10-16 | 0xc801 is LDMIA r0!, {r0}: base r0, one register, r0 listed first |
| CThumbMultiple.LoadBaseCounterexample | src/core/cpu/op_thumb_multipleloadstore.c:35-55 | LDMIA r0!, {r0} leaves r0 as base + 4 as written, overwriting the loaded word that the architecture keeps |
| CGpu.SmallIndicesInRange | src/core/gpu.c:39-57 | the OAM and palette indices under the masks 0x3ff, 0x3fe and 0x3fc, with the bytes after them, stay inside the 1 KB arrays |
| CGpu.SmallWrite16Spec | src/core/gpu.c:66-71 | a halfword write keeps the size of the 1 KB memory |
| CGpu.SmallWrite32Spec | src/core/gpu.c:73-80 | a word write keeps the size of the 1 KB memory |
| CGpu.OamWrite8Spec | src/core/gpu.c:59-64 | an OAM byte write keeps the size of OAM |
| CGpu.PaletteWrite8AsWritten | src/core/gpu.c:102-107 | the as-written palette byte write, at the 8-bit index and the cell after it, keeps the size of palette RAM |
| CGpu.PaletteWrite8Spec | src/core/gpu.c:102-107 | the corrected palette byte write, at the aligned halfword, keeps the size of palette RAM |
| CGpu.SmallWrite16ThenRead16 | src/core/gpu.c:43-48 | reading a halfword back after writing it at the same address returns it |
| CGpu.SmallWrite32ThenRead32 | src/core/gpu.c:50-57 | reading a word back after writing it at the same address returns it |
| CGpu.SmallRead32LittleEndian | src/core/gpu.c:50-57 | a word read is the little-endian join of the halfwords at the aligned index and two bytes on |
| CGpu.OamWrite8Halfword | src/core/gpu.c:59-64 | an OAM byte write stores the byte into both halves of the aligned halfword and changes no other cell |
| CGpu.PaletteWrite8Halfword | src/core/gpu.c:102-107 | corrected, a palette byte write stores the byte into both halves of the aligned halfword and changes no other cell |
| CGpu.PaletteWrite8AsWrittenSpills | src/core/gpu.c:102-107 | as written, a byte write to palette offset 1 also stores into offset 2, outside its halfword |
| CGpu.PaletteWrite8AsWrittenOverruns | src/core/gpu.c:102-107 | as written, a byte write to palette offset 0x3ff stores one cell past the end of the array |
| CGpu.VramAddressInRange | src/core/gpu.c:176-186 | every computed VRAM address lies inside the 96 KB array |
| CGpu.HighBankBelow | src/core/gpu.c:180 | an address under the high mask 0x17fff is below 96 KB |
| CGpu.LowBanksBelow | src/core/gpu.c:182 | an address under the low mask 0xffff is below 96 KB |
| CGpu.VramUpperMirror | src/core/gpu.c:176-186 | the upper 32 KB of a 128 KB window mirror the third 32 KB bank |
| CGpu.VramWindowMirror | src/core/gpu.c:176-186 | addresses 128 KB apart reach the same VRAM cell |
| CGpu.VramIndicesInRange | src/core/gpu.c:125-147 | VRAM byte, halfword and word indices, with the bytes after them, stay inside the 96 KB array |
| CGpu.VramHalfInRange | src/core/gpu.c:129-136 | the byte after a VRAM halfword index is inside the array |
| CGpu.VramHalfHigh | src/core/gpu.c:129-136 | in the upper 64 KB, a halfword address maps to itself under the mask 0x17ffe |
| CGpu.VramHalfLow | src/core/gpu.c:129-136 | in the lower 64 KB, a halfword address maps to itself under the mask 0xfffe |
| CGpu.VramWordInRange | src/core/gpu.c:138-147 | the three bytes after a VRAM word index are inside the array |
| CGpu.VramWordHigh | src/core/gpu.c:138-147 | in the upper 64 KB, a word address maps to itself under the mask 0x17ffc |
| CGpu.VramWordLow | src/core/gpu.c:138-147 | in the lower 64 KB, a word address maps to itself under the mask 0xfffc |
| CGpu.VramWrite16Spec | src/core/gpu.c:156-163 | a VRAM halfword write keeps the size of VRAM |
| CGpu.VramWrite32Spec | src/core/gpu.c:165-174 | a VRAM word write keeps the size of VRAM |
| CGpu.VramWrite8AsWritten | src/core/gpu.c:149-154 | the as-written VRAM byte write, at the unaligned index and the cell after it, keeps the size of VRAM |
| CGpu.VramWrite8Spec | src/core/gpu.c:149-154 | the corrected VRAM byte write, at the aligned halfword, keeps the size of VRAM |
| CGpu.VramWrite16ThenRead16 | src/core/gpu.c:129-163 | reading a VRAM halfword back after writing it at the same address returns it |
| CGpu.VramWrite32ThenRead32 | src/core/gpu.c:138-174 | reading a VRAM word back after writing it at the same address returns it |
| CGpu.VramWrite8Halfword | src/core/gpu.c:149-154 | corrected, a VRAM byte write stores the byte into both halves of the aligned halfword and changes no other cell |
| CGpu.VramWrite8AsWrittenSpills | src/core/gpu.c:149-154 | as written, a byte write to VRAM offset 1 also stores into offset 2, outside its halfword |
| CGpu.VramWrite8AsWrittenOverruns | src/core/gpu.c:149-154 | as written, a byte write to VRAM offset 0x17fff stores one cell past the end of the array |
| CGpu.Gpu.constructor | src/core/gpu.c:19-21 | three fresh, distinct arrays of 1 KB, 1 KB and 96 KB |
| CGpu.Gpu.Reset | src/core/gpu.c:29-33 | every cell of OAM, palette RAM and VRAM is zero |
| CGpu.Gpu.OamRead8 | src/core/gpu.c:39-41 | returns the OAM byte at the address masked to 10 bits |
| CGpu.Gpu.OamRead16 | src/core/gpu.c:43-48 | returns the little-endian OAM halfword at the address masked to 0x3fe |
| CGpu.Gpu.OamRead32 | src/core/gpu.c:50-57 | returns the little-endian OAM word at the address masked to 0x3fc |
| CGpu.Gpu.OamWrite8 | src/core/gpu.c:59-64 | OAM becomes the byte-write specification: the byte in both cells of the aligned halfword |
| CGpu.Gpu.OamWrite16 | src/core/gpu.c:66-71 | OAM becomes the little-endian halfword-write specification |
| CGpu.Gpu.OamWrite32 | src/core/gpu.c:73-80 | OAM becomes the little-endian word-write specification |
| CGpu.Gpu.PaletteRead8 | src/core/gpu.c:82-84 | returns the palette byte at the address masked to 10 bits |
| CGpu.Gpu.PaletteRead16 | src/core/gpu.c:86-91 | returns the little-endian palette halfword at the address masked to 0x3fe |
| CGpu.Gpu.PaletteRead32 | src/core/gpu.c:93-100 | returns the little-endian palette word at the address masked to 0x3fc |
| CGpu.Gpu.PaletteWrite8 | src/core/gpu.c:102-107 | palette RAM becomes the as-written byte write: the byte at the 10-bit index and at the next cell |
| CGpu.Gpu.PaletteWrite16 | src/core/gpu.c:109-114 | palette RAM becomes the little-endian halfword-write specification |
| CGpu.Gpu.PaletteWrite32 | src/core/gpu.c:116-123 | palette RAM becomes the little-endian word-write specification |
| CGpu.Gpu.VramRead8 | src/core/gpu.c:125-127 | returns the VRAM byte at the computed address |
| CGpu.Gpu.VramRead16 | src/core/gpu.c:129-136 | returns the little-endian VRAM halfword at the computed aligned address |
| CGpu.Gpu.VramRead32 | src/core/gpu.c:138-147 | returns the little-endian VRAM word at the computed aligned address |
| CGpu.Gpu.VramWrite8 | src/core/gpu.c:149-154 | VRAM becomes the as-written byte write: the byte at the computed unaligned index and at the next cell |
| CGpu.Gpu.VramWrite16 | src/core/gpu.c:156-163 | VRAM becomes the little-endian halfword-write specification |
| CGpu.Gpu.VramWrite32 | src/core/gpu.c:165-174 | VRAM becomes the little-endian word-write specification |
| CppShift.ImmediateAmount | src/gbaemu/gba/cpu/impl/arm/shift_inline.hpp:8-11 | the immediate shift amount is bits 11-7 of the opcode, below 32 |
| CppShift.RegisterAmount | src/gbaemu/gba/cpu/impl/arm/shift_inline.hpp:13-25 | the register shift amount is the bottom byte of Rs, read as pc + 4 when Rs is r15 |
| CppShift.RegisterValue | src/gbaemu/gba/cpu/impl/arm/shift_inline.hpp:27-31 | the register-shift operand is Rm, read as pc + 4 when Rm is r15 |
| CppShift.RorMacroIsRor | src/gbaemu/gba/cpu/impl/arm/shift_inline.hpp:128 | the ROR macro is the reference rotation right for amounts 1-31 |
| CppShift.CarryBitIsBit | src/gbaemu/gba/cpu/impl/arm/shift_inline.hpp:39 | shifting right by n and taking bit 0 is bit n |
| CppShift.Sign32 | src/gbaemu/gba/cpu/impl/arm/shift_inline.hpp:72 | SIGN32 is 0 or 1, and 1 exactly when bit 31 is set |
| CppShift.AsrImmediateAgreesIffNonNegative | src/gbaemu/gba/cpu/impl/arm/shift_inline.hpp:94-104 | the as-written ASR #n gives the reference value exactly when Rm is non-negative |
| CppShift.ZeroAmountValue | src/gbaemu/gba/cpu/impl/arm/shift_inline.hpp:100-103 | ASR #0 as written agrees with the reference all-ones-or-zero value exactly when Rm is non-negative |
| CppShift.LogicalClearsSign | src/gbaemu/gba/cpu/impl/arm/shift_inline.hpp:98 | a logical shift right by 1-31 leaves bit 31 clear |
| CppShift.AsrKeepsSign | src/gbaemu/gba/cpu/impl/arm/shift_inline.hpp:98 | an arithmetic shift right of a negative value stays negative |
| CppShift.AsrOfNonNegative | src/gbaemu/gba/cpu/impl/arm/shift_inline.hpp:98 | on a non-negative value the arithmetic and logical shifts right agree |
| CppShift.AsrImmediateCarryAgrees | src/gbaemu/gba/cpu/impl/arm/shift_inline.hpp:97-99 | for ASR #1-31 the as-written carry-out is the reference carry-out |
| CppShift.AsrImmediateCounterexample | src/gbaemu/gba/cpu/impl/arm/shift_inline.hpp:94-104 | ASR #1 of 0x80000000 gives 0x40000000 as written against 0xc0000000, and ASR #0 gives 1 against 0xffffffff |
| CppShift.AsrRegisterAgreesIff | src/gbaemu/gba/cpu/impl/arm/shift_inline.hpp:106-122 | the as-written ASR by register equals the reference exactly when the amount is 0, at least 32, or the value non-negative |
| CppShift.AsrRegisterDiffers | src/gbaemu/gba/cpu/impl/arm/shift_inline.hpp:112-114 | for amounts 1-31 on a negative value the as-written result differs from the reference |
| CppShift.AsrRegisterShortAgrees | src/gbaemu/gba/cpu/impl/arm/shift_inline.hpp:112-114 | for amounts 1-31 on a non-negative value the as-written shift equals the reference |
| CppShift.AsrRegisterLongAgrees | src/gbaemu/gba/cpu/impl/arm/shift_inline.hpp:115-121 | for amounts 32-255 the as-written shift equals the reference |
| CppShift.AsrRegisterCounterexample | src/gbaemu/gba/cpu/impl/arm/shift_inline.hpp:106-122 | ASR by 4 of 0x80000000 gives 0x08000000 as written against 0xf8000000 |
| CppShift.LslImmediateIsReference | src/gbaemu/gba/cpu/impl/arm/shift_inline.hpp:34-44 | LSL by immediate equals the reference shift, value and carry, including LSL #0 keeping C |
| CppShift.LslRegisterIsReference | src/gbaemu/gba/cpu/impl/arm/shift_inline.hpp:46-62 | LSL by register equals the reference shift in each of the ranges 0, 1-31, 32 and above |
| CppShift.LsrImmediateIsReference | src/gbaemu/gba/cpu/impl/arm/shift_inline.hpp:64-74 | LSR by immediate equals the reference shift, LSR #0 meaning LSR #32 |
| CppShift.LsrRegisterIsReference | src/gbaemu/gba/cpu/impl/arm/shift_inline.hpp:76-92 | LSR by register equals the reference shift in each range |
| CppShift.RorImmediateIsReference | src/gbaemu/gba/cpu/impl/arm/shift_inline.hpp:124-135 | ROR by immediate equals the reference shift, ROR #0 meaning RRX through C |
| CppShift.RorRegisterIsReference | src/gbaemu/gba/cpu/impl/arm/shift_inline.hpp:137-152 | ROR by register equals the reference shift, including a multiple of 32 giving the value with C from bit 31 |
| CppShift.ImmediateIsReference | src/gbaemu/gba/cpu/impl/arm/shift_inline.hpp:154-165 | the rotated 8-bit immediate equals the reference immediate operand, value and carry |
| CppShift.RotationField | src/gbaemu/gba/cpu/impl/arm/shift_inline.hpp:155 | masking bits 11-8 and shifting right by 7 is twice the rotate field, below 32 |
| CppShift.Shifter.constructor | src/gbaemu/gba/cpu/impl/arm/shift_inline.hpp:33 | the shifter starts with result 0 and carry clear |
| CppShift.Shifter.Set | src/gbaemu/gba/cpu/impl/arm/shift_inline.hpp:37-43 | the shifter holds exactly the given result and carry |
| CppShift.Shifter.LslImmediate | src/gbaemu/gba/cpu/impl/arm/shift_inline.hpp:34-44 | leaves the reference LSL by the immediate amount of Rm |
| CppShift.Shifter.LslRegister | src/gbaemu/gba/cpu/impl/arm/shift_inline.hpp:46-62 | leaves the reference LSL of the register operand by the register amount |
| CppShift.Shifter.LsrImmediate | src/gbaemu/gba/cpu/impl/arm/shift_inline.hpp:64-74 | leaves the reference LSR by the immediate amount of Rm |
| CppShift.Shifter.LsrRegister | src/gbaemu/gba/cpu/impl/arm/shift_inline.hpp:76-92 | leaves the reference LSR of the register operand by the register amount |
| CppShift.Shifter.AsrImmediate | src/gbaemu/gba/cpu/impl/arm/shift_inline.hpp:94-104 | leaves the as-written (or, corrected, the reference) ASR by immediate, ASR #0 using the previous shifter carry |
| CppShift.Shifter.AsrRegister | src/gbaemu/gba/cpu/impl/arm/shift_inline.hpp:106-122 | leaves the as-written (or, corrected, the reference) ASR by register, the long case testing the sign of Rm as read |
| CppShift.Shifter.RorImmediate | src/gbaemu/gba/cpu/impl/arm/shift_inline.hpp:124-135 | leaves the reference ROR or RRX of Rm |
| CppShift.Shifter.RorRegister | src/gbaemu/gba/cpu/impl/arm/shift_inline.hpp:137-152 | leaves the reference ROR of the register operand by the register amount |
| CppShift.Shifter.Immediate | src/gbaemu/gba/cpu/impl/arm/shift_inline.hpp:154-165 | leaves the reference rotated immediate operand |
| CppCpu.MappingRow | src/gbaemu/gba/cpu.cpp:27-44 | each row of the mapping table has seven cells, each inside its array |
| CppCpu.RegisterMapping | src/gbaemu/gba/cpu.cpp:27-44 | every one of the 112 mapping entries points inside one of the seven register arrays |
| CppCpu.MappingEntry | src/gbaemu/gba/cpu.cpp:27-44 | entry reg * 7 + mi of the flat table is column mi of row reg |
| CppCpu.ReferenceCell | src/gbaemu/gba/cpu.cpp:6-12 | the reference banking of the ARM architecture names a cell inside the seven arrays for every register and mode |
| CppCpu.MappingIsReference | src/gbaemu/gba/cpu.cpp:27-44 | every entry of the mapping table is the architectural banked register for that register and mode |
| CppCpu.RowIsReference | src/gbaemu/gba/cpu.cpp:27-44 | each row of the table is the architectural banking of that register |
| CppCpu.InvalidModeReadsNextRegister | src/gbaemu/gba/cpu.cpp:16-25 | with an invalid mode index, register reg goes through the User cell of register reg + 1 |
| CppCpu.SharedRegisters | src/gbaemu/gba/cpu.cpp:28-35 | r0-r7 and r15 are the same cell in every mode |
| CppCpu.FiqBankOnly | src/gbaemu/gba/cpu.cpp:36-40 | r8-r12 are the User cells in every mode except FIQ |
| CppCpu.StackAndLinkBanked | src/gbaemu/gba/cpu.cpp:41-42 | r13 and r14 are shared by two modes exactly when the modes are the same or both use the User bank (User and System) |
| CppCpu.DistinctRegisters | src/gbaemu/gba/cpu.cpp:27-44 | within one mode, distinct registers go through distinct cells |
| CppCpu.Put | src/gbaemu/gba/cpu.cpp:69 | a store through a mapping entry keeps the sizes of the seven arrays |
| CppCpu.GetPut | src/gbaemu/gba/cpu.cpp:69 | a store through a mapping entry changes that cell and no other |
| CppCpu.ModeBits | src/gbaemu/gba/cpu.cpp:65 | the mode field is the five low bits of the CPSR |
| CppCpu.ModeIndex | src/gbaemu/gba/cpu.cpp:16-25 | the mode index of any five-bit mode value is one of the seven modes or MODE_INV |
| CppCpu.AddressableIff | src/gbaemu/gba/cpu.cpp:65-69 | the mapping index is inside the table for every register in a valid mode, and for all but r15 in an invalid one |
| CppCpu.WriteSpec | src/gbaemu/gba/cpu.cpp:68-70 | a register write keeps the sizes of the seven arrays |
| CppCpu.WriteThenRead | src/gbaemu/gba/cpu.cpp:64-70 | in a valid mode, reading a register after a write gives the written value for that register and the old value for every other |
| CppCpu.DistinctTargets | src/gbaemu/gba/cpu.cpp:64-70 | in a valid mode, distinct registers are reached through distinct cells |
| CppCpu.WriteSeenAcrossModes | src/gbaemu/gba/cpu.cpp:64-70 | a write in one mode is not seen from a mode that banks that register separately |
| CppCpu.ZeroStep | src/gbaemu/gba/cpu.cpp:51-55 | zeroing one more entry of the table extends the zeroed prefix |
| CppCpu.AllVisibleZero | src/gbaemu/gba/cpu.cpp:51-55 | once all 112 entries are zeroed, every register reads 0 in every mode |
| CppCpu.InitCpsr | src/gbaemu/gba/cpu.cpp:57-61 | the reset CPSR is SVC mode with the I and F bits set, Thumb and condition flags clear |
| CppCpu.Cpu.constructor | src/gbaemu/gba/cpu.cpp:6-14 | fresh, distinct register arrays of the declared sizes, CPSR 0 |
| CppCpu.Cpu.Load | src/gbaemu/gba/cpu.cpp:65 | returns the value in the cell a mapping entry names |
| CppCpu.Cpu.Store | src/gbaemu/gba/cpu.cpp:69 | the register arrays become the store specification for that cell |
| CppCpu.Cpu.RegisterRead | src/gbaemu/gba/cpu.cpp:64-66 | returns the register as the banking of the current mode maps it |
| CppCpu.Cpu.RegisterWrite | src/gbaemu/gba/cpu.cpp:68-70 | the register arrays become the write specification for the current mode |
| CppCpu.Cpu.Init | src/gbaemu/gba/cpu.cpp:49-62 | every register reads 0 in every mode, and the CPSR is the reset value in SVC mode |
| CppIo.ConvertAddress | src/gbaemu/gba/io.cpp:15-23 | an address converts to a table slot below 0x402 or to UINT32_MAX |
| CppIo.Index | src/gbaemu/gba/io.cpp:13 | a converted slot indexes the 0x402-entry table |
| CppIo.IndexInjective | src/gbaemu/gba/io.cpp:13 | distinct slots are distinct table entries |
| CppIo.SlotAddressConverts | src/gbaemu/gba/io.cpp:15-23 | every slot has an even address that init walks and that converts back to the slot |
| CppIo.ConvertsToSlotAddress | src/gbaemu/gba/io.cpp:15-23 | every address init walks converts to a slot whose address it is |
| CppIo.InitSlotsDistinct | src/gbaemu/gba/io.cpp:31-33 | distinct addresses walked by init fill distinct slots |
| CppIo.MemctlMirror | src/gbaemu/gba/io.cpp:16-17 | MEMCTL at 0x04000800 repeats every 64 KB and always lands in slot 0x400 or 0x401 |
| CppIo.UnmappedIff | src/gbaemu/gba/io.cpp:15-23 | an address is unmapped exactly when it is at or above 0x04000800 and not a MEMCTL mirror |
| CppIo.Read32Def | src/gbaemu/gba/io.cpp:179-183 | a word read joins the halfwords at the aligned address and two bytes on, low half first |
| CppIo.Write16Spec | src/gbaemu/gba/io.cpp:193-206 | a halfword write keeps the shape of the table |
| CppIo.Write8Spec | src/gbaemu/gba/io.cpp:185-191 | a byte write keeps the shape of the table |
| CppIo.Write32Spec | src/gbaemu/gba/io.cpp:208-212 | a word write keeps the shape of the table |
| CppIo.Write32Def | src/gbaemu/gba/io.cpp:208-212 | a word write is the low halfword write at the aligned address then the high one two bytes on, their handler calls in that order |
| CppIo.SetSpec | src/gbaemu/gba/io.cpp:214-216 | setting a register value keeps the shape of the table |
| CppIo.Set32Spec | src/gbaemu/gba/io.cpp:218-221 | setting a 32-bit value keeps the shape of the table |
| CppIo.Read16Masked | src/gbaemu/gba/io.cpp:169-177 | an unmapped halfword reads 0, and a mapped one shows no bit outside its read mask |
| CppIo.UnmappedWriteIgnored | src/gbaemu/gba/io.cpp:193-198 | a write to an unmapped address changes nothing and calls no handler |
| CppIo.Write16Effect | src/gbaemu/gba/io.cpp:193-206 | a mapped write changes only its entry: the bits under the write mask become the written ones, the rest stay, and the handler, if any, is called once with the written value |
| CppIo.MergeBits | src/gbaemu/gba/io.cpp:200-201 | the merged value keeps the old bits outside the write mask and takes the new ones under it |
| CppIo.Write16ThenRead16 | src/gbaemu/gba/io.cpp:169-206 | a register with full read and write masks reads back the halfword written |
| CppIo.FullMerge | src/gbaemu/gba/io.cpp:200-201 | under a full write mask the merged value is the written one |
| CppIo.ReadOnlyUnchanged | src/gbaemu/gba/io.cpp:200-201 | a write to a register whose write mask is 0 leaves the table unchanged |
| CppIo.EmptyMerge | src/gbaemu/gba/io.cpp:200-201 | under an empty write mask the value is unchanged |
| CppIo.Write8ClearsUnreadByte | src/gbaemu/gba/io.cpp:185-191 | on a write-only register, a byte write stores the byte with the other byte of the halfword cleared |
| CppIo.ZeroMasked | src/gbaemu/gba/io.cpp:176 | a value masked by 0 is 0, both bytes |
| CppIo.Write8ThenRead8 | src/gbaemu/gba/io.cpp:161-191 | on a fully readable and writable register, a byte reads back as written and the other byte of the halfword is kept |
| CppIo.SameHalf | src/gbaemu/gba/io.cpp:162-166 | the two bytes of a halfword share its even address and differ in bit 0 |
| CppIo.Read32Halves | src/gbaemu/gba/io.cpp:179-183 | the low half of a word read is the halfword at the aligned address and the high half the one two bytes on |
| CppIo.SetThenGet | src/gbaemu/gba/io.cpp:214-225 | get after set returns the set value for any index of the same halfword and the old value for others |
| CppIo.SetKeepsMasks | src/gbaemu/gba/io.cpp:214-216 | set changes neither the masks nor the handler of any entry |
| CppIo.Set32ThenGet32 | src/gbaemu/gba/io.cpp:218-229 | corrected (stepping by 2), get32 after set32 returns the word |
| CppIo.Get32AsWrittenRepeats | src/gbaemu/gba/io.cpp:227-229 | as written, get32 at an even index repeats the one halfword in both halves |
| CppIo.Set32AsWrittenOverwrites | src/gbaemu/gba/io.cpp:218-221 | as written, set32 at an even index leaves the high half in the first halfword and the next halfword unchanged |
| CppIo.Get32Counterexample | src/gbaemu/gba/io.cpp:218-229 | with DMA0SAD 0x08001234, get32 gives 0x08001234 corrected but 0x12341234 as written, and set32 then get32 gives 0x08000800 |
| CppIo.InterruptFlagsSlot | src/gbaemu/gba/io.hpp:119-120 | register number IF is the slot of IE at 0x04000200, not the slot of IF at 0x04000202 |
| CppIo.Install | src/gbaemu/gba/io.cpp:25-28 | installing an entry keeps the shape of the table |
| CppIo.BackgroundsRegisters | src/gbaemu/gba/io.cpp:35-50 | installing the display and background control registers keeps the shape of the table |
| CppIo.EffectsRegisters | src/gbaemu/gba/io.cpp:51-76 | installing the scroll, window and blending registers keeps the shape of the table |
| CppIo.SoundRegisters | src/gbaemu/gba/io.cpp:77-102 | installing the sound registers keeps the shape of the table |
| CppIo.DmaRegisters | src/gbaemu/gba/io.cpp:103-126 | installing the DMA registers keeps the shape of the table |
| CppIo.TimersRegisters | src/gbaemu/gba/io.cpp:127-134 | installing the timer registers keeps the shape of the table |
| CppIo.SerialRegisters | src/gbaemu/gba/io.cpp:135-150 | installing the serial and keypad registers keeps the shape of the table |
| CppIo.SystemRegisters | src/gbaemu/gba/io.cpp:151-158 | installing the interrupt, wait-state and memory-control registers keeps the shape of the table |
| CppIo.BackgroundsFrame | src/gbaemu/gba/io.cpp:35-50 | the first group changes only slots 0x000-0x00f |
| CppIo.EffectsFrame | src/gbaemu/gba/io.cpp:51-76 | the second group changes only slots 0x010-0x02f |
| CppIo.SoundFrame | src/gbaemu/gba/io.cpp:77-102 | the sound group changes only slots 0x030-0x057 |
| CppIo.DmaFrame | src/gbaemu/gba/io.cpp:103-126 | the DMA group changes only slots 0x058-0x07f |
| CppIo.TimersFrame | src/gbaemu/gba/io.cpp:127-134 | the timer group changes only slots 0x080-0x08f |
| CppIo.SerialFrame | src/gbaemu/gba/io.cpp:135-150 | the serial group changes only slots 0x090-0x0ff |
| CppIo.SystemFrame | src/gbaemu/gba/io.cpp:151-158 | the last group changes only slots 0x100-0x401 |
| CppIo.BlankTable | src/gbaemu/gba/io.cpp:31-33 | the table of blank entries has the table's shape |
| CppIo.InitialTable | src/gbaemu/gba/io.cpp:30-159 | the table init leaves has the table's shape |
| CppIo.FromBackgrounds | src/gbaemu/gba/io.cpp:30-50 | slots 0x000-0x00f of the initial table are those the first group installs |
| CppIo.FromEffects | src/gbaemu/gba/io.cpp:30-76 | slots 0x010-0x02f of the initial table are those the second group installs |
| CppIo.FromSound | src/gbaemu/gba/io.cpp:30-102 | the sound slots of the initial table are those the sound group installs |
| CppIo.FromDma | src/gbaemu/gba/io.cpp:30-126 | the DMA slots of the initial table are those the DMA group installs |
| CppIo.FromTimers | src/gbaemu/gba/io.cpp:30-134 | the timer slots of the initial table are those the timer group installs |
| CppIo.FromSerial | src/gbaemu/gba/io.cpp:30-150 | the serial slots of the initial table are those the serial group installs |
| CppIo.FromSystem | src/gbaemu/gba/io.cpp:30-159 | the remaining slots of the initial table are those the last group installs |
| CppIo.BackgroundsKeepZero | src/gbaemu/gba/io.cpp:35-50 | the first group installs only zero values |
| CppIo.EffectsKeepZero | src/gbaemu/gba/io.cpp:51-76 | the second group installs only zero values |
| CppIo.SoundKeepZero | src/gbaemu/gba/io.cpp:77-102 | the sound group installs only zero values |
| CppIo.DmaKeepZero | src/gbaemu/gba/io.cpp:103-126 | the DMA group installs only zero values |
| CppIo.TimersKeepZero | src/gbaemu/gba/io.cpp:127-134 | the timer group installs only zero values |
| CppIo.SerialKeepZero | src/gbaemu/gba/io.cpp:135-150 | the serial group installs only zero values |
| CppIo.SystemKeepZero | src/gbaemu/gba/io.cpp:151-158 | the last group installs only zero values |
| CppIo.BackgroundsFacts | src/gbaemu/gba/io.cpp:35-42 | DISPCNT is fully readable and writable with its handler, VCOUNT is read-only, and the four BGxCNT slots are readable and writable |
| CppIo.DmaFacts | src/gbaemu/gba/io.cpp:108-126 | the four DMAxCNT_H slots carry the handlers of channels 0 to 3 |
| CppIo.TimersFacts | src/gbaemu/gba/io.cpp:127-134 | each TMxCNT_L and TMxCNT_H slot carries the handler of its timer and half |
| CppIo.SerialFacts | src/gbaemu/gba/io.cpp:141 | KEYINPUT reads its ten key bits and ignores writes |
| CppIo.SystemFacts | src/gbaemu/gba/io.cpp:151-152 | IE carries the interrupt-flags handler and IF carries none; both are readable and writable |
| CppIo.InitialValuesZero | src/gbaemu/gba/io.cpp:30-159 | every register of the initial table holds 0 |
| CppIo.GroupsKeepZero | src/gbaemu/gba/io.cpp:35-158 | the seven groups together install only zero values |
| CppIo.InitialAccess | src/gbaemu/gba/io.cpp:38-141 | in the initial table VCOUNT is read-only, KEYINPUT reads ten bits and is read-only, and the scroll registers are write-only |
| CppIo.InitialHandlers | src/gbaemu/gba/io.cpp:35-152 | in the initial table DISPCNT and IE carry handlers and IF carries none |
| CppIo.InitialDmaHandlers | src/gbaemu/gba/io.cpp:108-126 | in the initial table the four DMA control slots carry their channels' handlers |
| CppIo.InitialTimerHandlers | src/gbaemu/gba/io.cpp:127-134 | in the initial table every timer slot carries its timer's handler |
| CppIo.Io.constructor | src/gbaemu/gba/io.cpp:13 | the table has 0x402 entries |
| CppIo.Io.InitRegister | src/gbaemu/gba/io.cpp:25-28 | the table becomes the old one with the entry installed at the address's slot |
| CppIo.Io.Read16 | src/gbaemu/gba/io.cpp:169-177 | returns the masked halfword read of the specification |
| CppIo.Io.Read8 | src/gbaemu/gba/io.cpp:161-167 | returns the byte of the halfword read that bit 0 selects |
| CppIo.Io.Read32 | src/gbaemu/gba/io.cpp:179-183 | returns the word read of the specification |
| CppIo.Io.Write16 | src/gbaemu/gba/io.cpp:193-206 | the table and the handler calls are those of the halfword-write specification |
| CppIo.Io.Write8 | src/gbaemu/gba/io.cpp:185-191 | the table and the handler calls are those of the byte-write specification |
| CppIo.Io.Write32 | src/gbaemu/gba/io.cpp:208-212 | the table and the handler calls are those of the word-write specification |
| CppIo.Io.Set | src/gbaemu/gba/io.cpp:214-216 | the table becomes the set specification |
| CppIo.Io.Get | src/gbaemu/gba/io.cpp:223-225 | returns the value of the halfword the index names |
| CppIo.Io.Set32 | src/gbaemu/gba/io.cpp:218-221 | the table becomes the as-written (or corrected) set32 specification |
| CppIo.Io.Get32 | src/gbaemu/gba/io.cpp:227-229 | returns the as-written (or corrected) get32 value |
| CppIo.Io.Init | src/gbaemu/gba/io.cpp:30-159 | the table becomes the initial table |
| CppIo.Io.InitBackgrounds | src/gbaemu/gba/io.cpp:35-50 | the table becomes the first group's installation over the old one |
| CppIo.Io.InitEffects | src/gbaemu/gba/io.cpp:51-76 | the table becomes the second group's installation over the old one |
| CppIo.Io.InitSound | src/gbaemu/gba/io.cpp:77-102 | the table becomes the sound group's installation over the old one |
| CppIo.Io.InitDma | src/gbaemu/gba/io.cpp:103-126 | the table becomes the DMA group's installation over the old one |
| CppIo.Io.InitTimers | src/gbaemu/gba/io.cpp:127-134 | the table becomes the timer group's installation over the old one |
| CppIo.Io.InitSerial | src/gbaemu/gba/io.cpp:135-150 | the table becomes the serial group's installation over the old one |
| CppIo.Io.InitSystem | src/gbaemu/gba/io.cpp:151-158 | the table becomes the last group's installation over the old one |
| CppIo.BlankStep | src/gbaemu/gba/io.cpp:31-33 | blanking one more address extends the blank prefix of the table |
| CppIo.AllBlank | src/gbaemu/gba/io.cpp:31-33 | once every address up to 0x04000802 is blanked, the table is the blank table |
| CppIo.SlotNumbered | src/gbaemu/gba/io.cpp:13 | every table index is the index of a slot |
| CppLcd.DecodeEncode | src/gbaemu/gba/lcd.cpp:181-182 | writing the DISPSTAT fields into a register value and reading them back gives the same fields |
| CppLcd.EncodeDecode | src/gbaemu/gba/lcd.cpp:181-226 | reading the DISPSTAT fields and writing them back gives the same register value |
| CppLcd.Lyc | src/gbaemu/gba/lcd.cpp:191 | the V-count setting is a number below 256 |
| CppLcd.Raise | src/gbaemu/gba/lcd.cpp:194 | raising interrupt bits keeps the shape of the I/O table |
| CppLcd.RaiseAll | src/gbaemu/gba/lcd.cpp:193-219 | the requests of one cycle keep the shape of the I/O table |
| CppLcd.CycleSpec | src/gbaemu/gba/lcd.cpp:179-230 | one cycle keeps the shape of the I/O table |
| CppLcd.TimingKeepsRaster | src/gbaemu/gba/lcd.cpp:184-198 | the beam stays within 228 rows and 308 columns |
| CppLcd.ColumnAdvance | src/gbaemu/gba/lcd.cpp:180-187 | the column changes exactly on every fourth cycle, and then to the next column modulo 308 |
| CppLcd.RowAdvance | src/gbaemu/gba/lcd.cpp:186-198 | the row changes exactly when a row ends, and then to the next row modulo 228 |
| CppLcd.CounterStaysInFrame | src/gbaemu/gba/lcd.cpp:179-229 | a cycle keeps the counter at most three cycles ahead of the beam position, and so below 4 * 308 * 228: the 32-bit counter never wraps |
| CppLcd.FrameRestart | src/gbaemu/gba/lcd.cpp:197-199 | after the last row the beam restarts at row 0, column 0, the counter at 1 as written and 0 corrected |
| CppLcd.CounterPhase | src/gbaemu/gba/lcd.cpp:180-229 | corrected, the counter keeps its phase modulo 4 across every cycle, so the beam moves every fourth cycle |
| CppLcd.CounterPhaseAsWritten | src/gbaemu/gba/lcd.cpp:197-199 | as written, clearing the counter before the increment at the frame restart breaks its phase modulo 4 |
| CppLcd.DrawLineIff | src/gbaemu/gba/lcd.cpp:213-223 | a row is drawn exactly when the beam reaches column 240 on a visible row |
| CppLcd.FrameDoneIff | src/gbaemu/gba/lcd.cpp:201-209 | the frame is handed over exactly when the beam reaches row 160 |
| CppLcd.VCountOnNewRow | src/gbaemu/gba/lcd.cpp:212 | VCOUNT becomes the new row when a row ends and is otherwise unchanged |
| CppLcd.CycleStat | src/gbaemu/gba/lcd.cpp:181-226 | DISPSTAT after a cycle is the DISPSTAT specification applied to the fields before |
| CppLcd.CycleRequests | src/gbaemu/gba/lcd.cpp:193-219 | the interrupt register after a cycle is the old value with the cycle's request bits set |
| CppLcd.MovingRequests | src/gbaemu/gba/lcd.cpp:193-219 | on a beam move the interrupt register gains exactly the cycle's request bits |
| CppLcd.RaiseValue | src/gbaemu/gba/lcd.cpp:194 | raising bits ORs them into the interrupt register |
| CppLcd.RaiseAllValue | src/gbaemu/gba/lcd.cpp:193-219 | the three requests of a cycle together OR the cycle's request bits into the interrupt register |
| CppLcd.OrAssociates | src/gbaemu/gba/lcd.cpp:194-218 | three successive ORs equal one OR of the three bit sets |
| CppLcd.SetOther | src/gbaemu/gba/lcd.cpp:212-226 | a set of one register leaves every other register's value |
| CppLcd.OrZero | src/gbaemu/gba/lcd.cpp:194 | ORing no bits leaves a value unchanged |
| CppLcd.NoRequests | src/gbaemu/gba/lcd.cpp:180 | a cycle that does not move the beam requests no interrupt |
| CppLcd.CycleFrame | src/gbaemu/gba/lcd.cpp:179-230 | a cycle changes only the values of DISPSTAT, VCOUNT and the interrupt register, never a mask or handler |
| CppLcd.SetSlot | src/gbaemu/gba/lcd.cpp:212-226 | a set changes only the value of its own slot |
| CppLcd.RaiseAllSlot | src/gbaemu/gba/lcd.cpp:193-219 | the requests change only the value of the interrupt register's slot |
| CppLcd.RaiseSlot | src/gbaemu/gba/lcd.cpp:194 | a raise changes only the value of the interrupt register's slot |
| CppLcd.VBlankFlag | src/gbaemu/gba/lcd.cpp:197-207 | the V-blank flag is set on entering row 160, cleared at the frame restart, and otherwise kept |
| CppLcd.HBlankFlag | src/gbaemu/gba/lcd.cpp:190-215 | the H-blank flag is set at column 240, cleared when a row ends, and otherwise kept |
| CppLcd.VCounterFlag | src/gbaemu/gba/lcd.cpp:191 | corrected, the V-counter flag on a new row is whether the row now shown equals the V-count setting; otherwise it is kept |
| CppLcd.VCounterFlagAsWritten | src/gbaemu/gba/lcd.cpp:191-198 | as written, with the V-count setting 0 the flag stays clear when the beam wraps to row 0, because row 228 is compared |
| CppLcd.SettingsKept | src/gbaemu/gba/lcd.cpp:181-226 | a cycle keeps the V-count setting, the unused bits and the three interrupt enables |
| CppLcd.RequestBits | src/gbaemu/gba/lcd.cpp:193-219 | each of the three request bits is set exactly when its request is made |
| CppLcd.VCounterRequest | src/gbaemu/gba/lcd.cpp:193-195 | corrected, the V-counter interrupt is requested exactly when a row ends, it is enabled and the new row matches the setting |
| CppLcd.VBlankRequest | src/gbaemu/gba/lcd.cpp:201-207 | the V-blank interrupt is requested exactly on entering row 160 with it enabled |
| CppLcd.HBlankRequest | src/gbaemu/gba/lcd.cpp:213-219 | the H-blank interrupt is requested exactly on reaching column 240 with it enabled |
| CppLcd.VCounterRequestAsWritten | src/gbaemu/gba/lcd.cpp:193-195 | as written, with the setting 5 the V-counter interrupt is requested on the step to row 1, and it lands in IE, leaving IF unchanged |
| CppLcd.NoneRequested | src/gbaemu/gba/lcd.cpp:179-230 | a cycle that neither ends a row nor starts the horizontal blank requests nothing |
| CppLcd.LayerKey | src/gbaemu/gba/lcd.cpp:33-38 | the key compared is a 16-bit value as written and the priority below 4 corrected |
| CppLcd.LayerKeys | src/gbaemu/gba/lcd.cpp:33-38 | there is one key per background layer |
| CppLcd.Lcd.constructor | src/gbaemu/gba/lcd.cpp:13-20 | the display starts at row 0, column 0 with the counter at 0, over the given I/O table, VRAM and frame buffer |
| CppLcd.Lcd.Cycle | src/gbaemu/gba/lcd.cpp:179-230 | the timing, the I/O table and the frame-done result are those of the cycle specification, and the frame buffer gains the row specification exactly when the cycle draws |
| CppLcd.Lcd.DrawLine | src/gbaemu/gba/lcd.cpp:162-177 | the frame buffer becomes the row specification for the current mode |
| CppLcd.Lcd.DrawMode0 | src/gbaemu/gba/lcd.cpp:110-122 | the frame buffer becomes the mode 0 specification: each enabled layer drawn in turn |
| CppLcd.Lcd.DrawLayers | src/gbaemu/gba/lcd.cpp:117-121 | the frame buffer becomes the mode 0 specification for the given DISPCNT |
| CppLcd.Lcd.DrawLayer | src/gbaemu/gba/lcd.cpp:52-108 | the current row of the frame buffer becomes the layer's row specification and nothing else changes |
| CppLcd.Lcd.DrawLayerRow | src/gbaemu/gba/lcd.cpp:59-107 | the current row becomes the layer row for the given control, offsets and row |
| CppLcd.Lcd.LayerPixel | src/gbaemu/gba/lcd.cpp:84-104 | returns the palette entry of the layer pixel specification at that column |
| CppLcd.Lcd.DrawMode3 | src/gbaemu/gba/lcd.cpp:132-136 | the current row becomes the mode 3 row: the direct colours of VRAM's halfwords for that row |
| CppLcd.Lcd.DrawMode4 | src/gbaemu/gba/lcd.cpp:138-147 | the current row becomes the mode 4 row from the frame DISPCNT selects |
| CppLcd.Lcd.DrawMode5 | src/gbaemu/gba/lcd.cpp:149-160 | the current row becomes the mode 5 row from the frame DISPCNT selects |
| CppLcd.Lcd.SortLayersByPriority | src/gbaemu/gba/lcd.cpp:26-50 | the layer order is the sort specification of the four layer keys |
| CppLcd.Lcd.MaxPriorityIndex | src/gbaemu/gba/lcd.cpp:33-44 | returns the position of the largest key from position i on, the first one on ties |
| CppLcd.Lcd.KeyAt | src/gbaemu/gba/lcd.cpp:38 | returns the key compared at position j |
| CppLcd.Lcd.RaiseInterrupt | src/gbaemu/gba/lcd.cpp:194 | the I/O table becomes the raise specification for that bit |
| CppLcd.Lcd.Advance | src/gbaemu/gba/lcd.cpp:180-229 | the timing, table, draw and frame-done results are those of the cycle specification |
| CppLcd.Lcd.Move | src/gbaemu/gba/lcd.cpp:181-226 | on a beam move, the table and draw and frame-done results are those of the cycle specification |
| CppLcd.Lcd.NewRow | src/gbaemu/gba/lcd.cpp:186-212 | at the end of a row, DISPSTAT, the requests, VCOUNT and the next timing are those of the new-row specification |
| CppLcd.Lcd.FrameEdge | src/gbaemu/gba/lcd.cpp:197-210 | the V-blank flag, the V-blank request and the restart follow the row the beam enters |
| CppLcd.Lcd.HBlankStart | src/gbaemu/gba/lcd.cpp:213-224 | at column 240 the H-blank flag and request are set and the row is drawn exactly when it is visible |
| CppDraw.BgMode | src/gbaemu/gba/lcd.cpp:166 | the background mode field is below 8 |
| CppDraw.DecodeBgcnt | src/gbaemu/gba/lcd.cpp:53-58 | every BGxCNT value decodes to a control with in-range map base, tile base and screen size |
| CppDraw.MapEntryAddress | src/gbaemu/gba/lcd.cpp:92 | the map entry read is halfword-aligned and lies within VRAM |
| CppDraw.TileNumber | src/gbaemu/gba/lcd.cpp:79 | the tile number masked from a map entry is below the tile count of the colour depth |
| CppDraw.TileByteAddress | src/gbaemu/gba/lcd.cpp:93 | the tile byte read lies inside that tile's bytes and within VRAM |
| CppDraw.PixelValue | src/gbaemu/gba/lcd.cpp:96-102 | in 16-colour mode a pixel is a nibble, below 16 |
| CppDraw.LayerLine | src/gbaemu/gba/lcd.cpp:83-107 | a layer row has one pixel per visible column |
| CppDraw.LayerLineOf | src/gbaemu/gba/lcd.cpp:52-108 | the row of a layer, from its own control and scroll registers, has one pixel per visible column |
| CppDraw.Mode3Line | src/gbaemu/gba/lcd.cpp:132-136 | a mode 3 row has one pixel per visible column |
| CppDraw.Mode4Line | src/gbaemu/gba/lcd.cpp:144-146 | a mode 4 row has one pixel per visible column |
| CppDraw.Mode5Line | src/gbaemu/gba/lcd.cpp:155-159 | a mode 5 row has at most one pixel per visible column |
| CppDraw.WriteRow | src/gbaemu/gba/lcd.cpp:104 | writing a row keeps the frame buffer's size |
| CppDraw.Mode0From | src/gbaemu/gba/lcd.cpp:117-121 | drawing the enabled layers keeps the frame buffer's size |
| CppDraw.LineSpec | src/gbaemu/gba/lcd.cpp:162-177 | drawing a row in any mode keeps the frame buffer's size |
| CppDraw.WriteRowStep | src/gbaemu/gba/lcd.cpp:104 | writing the next pixel extends the row written so far by that pixel |
| CppDraw.WriteRowFrame | src/gbaemu/gba/lcd.cpp:104 | writing a row changes only that row's pixels |
| CppDraw.WriteRowAt | src/gbaemu/gba/lcd.cpp:104 | each pixel written lands at its column of the row |
| CppDraw.LayerWraps | src/gbaemu/gba/lcd.cpp:61-88 | scrolling a layer by its full width or height shows the same pixel |
| CppDraw.LayerSizes | src/gbaemu/gba/lcd.cpp:61-88 | the layer is 512 pixels wide for screen sizes 1 and 3 and 512 high for sizes 2 and 3, else 256 |
| CppDraw.Mode4Pages | src/gbaemu/gba/lcd.cpp:142-145 | with the frame select bit set, mode 4 shows the second page from offset 0xa000, within VRAM |
| CppDraw.Mode5LowerRows | src/gbaemu/gba/lcd.cpp:155 | in mode 5 the rows from 128 on are left as they were |
| CppDraw.NoSuchMode | src/gbaemu/gba/lcd.cpp:174-175 | modes 6 and 7 draw nothing |
| CppDraw.TopLayer | src/gbaemu/gba/lcd.cpp:117-121 | the last enabled layer below a bound is enabled, and every layer after it is disabled |
| CppDraw.Mode0Top | src/gbaemu/gba/lcd.cpp:117-121 | in mode 0 each pixel of the row is the highest-numbered enabled layer's, or unchanged when none is enabled |
| CppDraw.TopLayerAt | src/gbaemu/gba/lcd.cpp:117-121 | the layer that wins is enabled, and the layers above it are disabled |
| CppDraw.ScrollStrideAsWritten | src/gbaemu/gba/lcd.cpp:55-56 | as written, layer 1's horizontal offset is read from BG0VOFS and its vertical offset from BG1HOFS |
| CppDraw.ScrollStrideCorrected | src/gbaemu/gba/lcd.cpp:55-56 | corrected, each layer's two scroll registers are distinct from each other and from every other layer's, within 0x10-0x1e |
| CppLayerSort.Swap | src/gbaemu/gba/lcd.cpp:46-48 | the two entries are exchanged and every other entry is kept |
| CppLayerSort.Selected | src/gbaemu/gba/lcd.cpp:36-44 | the inner loop selects a position from the scan start to the end |
| CppLayerSort.SelectedIsLargest | src/gbaemu/gba/lcd.cpp:36-44 | the selected key is no smaller than the starting best and than every key scanned |
| CppLayerSort.SelectedStep | src/gbaemu/gba/lcd.cpp:37-43 | one step of the inner loop moves the best only to a strictly larger key |
| CppLayerSort.Keyed | src/gbaemu/gba/lcd.cpp:33-38 | the key at each position is that of the layer sitting there |
| CppLayerSort.Compared | src/gbaemu/gba/lcd.cpp:33-38 | there is one compared key per position |
| CppLayerSort.ComparedAt | src/gbaemu/gba/lcd.cpp:33-38 | the key compared at a position is that position's own register as written, and the priority of the layer there corrected |
| CppLayerSort.Passes | src/gbaemu/gba/lcd.cpp:32-49 | the outer loop leaves four layer numbers |
| CppLayerSort.PassesStep | src/gbaemu/gba/lcd.cpp:32-49 | one pass swaps the selected layer into its position and continues from the next |
| CppLayerSort.Sorted | src/gbaemu/gba/lcd.cpp:26-50 | the sort leaves four layer numbers |
| CppLayerSort.SwapKeeps | src/gbaemu/gba/lcd.cpp:46-48 | a swap keeps the multiset of entries |
| CppLayerSort.PassesKeep | src/gbaemu/gba/lcd.cpp:32-49 | the passes keep the multiset of entries |
| CppLayerSort.SortIsPermutation | src/gbaemu/gba/lcd.cpp:26-50 | the sort leaves each of the four layers exactly once |
| CppLayerSort.CorrectedStep | src/gbaemu/gba/lcd.cpp:32-49 | corrected, a pass extends the sorted prefix by one position |
| CppLayerSort.CorrectedPasses | src/gbaemu/gba/lcd.cpp:32-49 | corrected, the passes from a sorted prefix order every layer by non-increasing priority |
| CppLayerSort.CorrectedSortOrders | src/gbaemu/gba/lcd.cpp:26-50 | corrected, the sort orders the layers by non-increasing priority |
| CppLayerSort.SortAsWrittenCounterexample | src/gbaemu/gba/lcd.cpp:26-50 | as written, when layer 3 has the strictly largest key the order is 0, 3, 2, 1, which is not ordered by key |
| CppLayerSort.PassAsWritten | src/gbaemu/gba/lcd.cpp:32-49 | as written, when position 3 holds the strictly largest key each pass swaps position 3 in |
| CppLayerSort.LastIsSelected | src/gbaemu/gba/lcd.cpp:36-44 | as written, when position 3 holds the strictly largest key the scan selects it |

## Left out

- CArmSingleTransfer.SingleDataTransfer, CArmHalfwordTransfer.HalfwordSignedDataTransfer, CArmBlockTransfer.LdmStm, CThumbMultiple.MultipleLoadStore: bus reads are pure functions of the address (`read8`, `read16`, `read32` parameters), so a read that changes an I/O register as a side effect is not modelled; bus writes are returned as a list of effects in program order.
- CArmBlockTransfer.LdmStm: `cpuReadRegisterUsr` and `cpuWriteRegisterUsr` are declared but not defined in the C core; the user-bank reads become the `readUsr` parameter and the user-bank writes become `UserWrite` effects.
- CsCpuArm.OpcodeArmLogical: the C# `Spsr` property and `PerformJump` are not defined in the C# core; the SPSR becomes the `spsr` parameter and a jump becomes the `Jumped` outcome.
- CsGba.Gba.Cycle: `DMA.Cycle` is not defined in the C# core; whether the DMA unit took the cycle is the `dmaActive` parameter.
- CGpu.Gpu.PaletteWrite8: the as-written byte write at offset 0x3ff stores one cell past the end of palette RAM; the method requires the offset to be below 0x3ff, and the overrun is stated on values by CGpu.PaletteWrite8AsWrittenOverruns.
- CGpu.Gpu.VramWrite8: likewise the as-written byte write at VRAM offset 0x17fff overruns the array; the method excludes it and CGpu.VramWrite8AsWrittenOverruns states it on values.
- CppLcd.Lcd.DrawLine: a pixel is the palette index or the direct colour the source passes to `getPaletteColor` or `colorToRgb`; those two conversions are not defined in the C++ core and the final RGB value is not modelled. The C# frame buffer's colour conversion is modelled by CsPpu.ColorRoundTrip only.
- CppLcd.Lcd.DrawMode0: `int layers[3]` receives four entries from `sortLayersByPriority`, overflowing the array, and the sorted order is then not used; the model sorts into a four-entry array (CppLcd.Lcd.SortLayersByPriority) and draws the layers in index order as the source does.
- CppLcd.Lcd.Cycle: `dispstat_t`, `bgcnt_t` and the `IRQ_*` constants are not defined in the C++ core; the model uses the Game Boy Advance layouts (DISPSTAT flags in bits 0-5 and the V-count setting in bits 15-8, interrupts V-blank 1, H-blank 2, V-counter 4).
- CppLcd.Lcd.Cycle: the `uint_fast32_t` cycle counter is a `nat` in the model; no wrap-around is written out because `cycleCounter = 0` at every frame restart (lcd.cpp line 199) keeps it below 4 * 308 * 228, which CppLcd.CounterStaysInFrame proves.
- CppLcd.Lcd.Cycle: `frontend::update` is not part of this model; reaching row 160 is the `frameDone` result.
- CppCpu.Cpu.RegisterRead: the SPSR registers of `cpu.cpp` are not modelled; reading r15 in the invalid mode (which indexes past the mapping table) is excluded by the requires.
- CppCpu.Cpu.RegisterWrite: writing r15 in the invalid mode is excluded by the requires for the same reason.
- CppIo.Io.Init: the long list of `initRegister` calls is grouped into seven methods (backgrounds, effects, sound, DMA, timers, serial, system), each proved to install its own group.
- CppIo.Io.Write32: both halves are stored before the handler calls are returned (low half first, then high); in io.cpp the low half's handler runs inside the first `write16`, before the high half is stored, so a handler that reads the neighbouring register would see the old high half there, which the model does not capture.
- CppIo.Io.InitEffects: the register number typo at io.cpp line 54 (BG3PD registered at 0x026) is modelled as written.
- The C++ files dma.cpp, timer.cpp, mmu.cpp and the instruction decoder tables of the C++ core are not part of this model.
- CThumbAlu.Sbc: the result is stated per value of C (CThumbAlu.SbcWithCarry, CThumbAlu.SbcWithoutCarry) rather than as the single equation Rd - Rs - NOT C.
- CKeypad.Keypad.SetInput: requires the key to be one of the ten keys; the source indexes its table without a check.
- CsBitUtils.BitTest16 / BitSet16 / BitClear16: called by PPU.cs and Keypad.cs but not defined in src/BitUtils.cs; the model gives them the meaning of their 32-bit siblings with the mask `(ushort)(1 << bit)`, an `int` shift whose count is reduced to five bits and whose result is cut to 16 bits (CsBitUtils.Mask16).
- CsKeypad.PressedKeysClearBits: stated for key lists of at most 16 entries, the width of KEYINPUT.
- CsKeypad.Cycle: the C# `Keypad.Cycle` is never called by the rest of the C# core, so it is modelled on its own and not wired into CsGba.Gba.Cycle.
- CsTimer.ChannelCycleSpec: the C# timer's `cycleCounter` is never advanced by the source, so the prescaler test always sees the same counter; the model keeps it as a parameter.
- CTimer.FlagOf: a channel's chain and interrupt flag exist only after `gba_timer_reset`; the model covers the state before and after it with one `linked` flag, and the channel `index`, which is stored but never read, is not modelled.
- CCpu.Cpu.EndStep: the call of the instruction handler chosen for the pending opcode is made by the caller (CCpu.Pending names it), not inside the step.

## Findings

| source | as written | input that shows it | evidently intended | confidence | as-written member | corrected member |
|---|---|---|---|---|---|---|
| src/GBA/CPU_ARM.cs:157-159 | a register-specified LSL shifts right and takes the carry from bit n | LSL by 1 of 2 gives 1 with carry set | a left shift with the carry from bit 32 - n: 4 with carry clear | high, not executed | CsCpuArm.ShifterRegisterLslCounterexample | CsCpuArm.CorrectedLsl |
| src/GBA/CPU_ARM.cs:146-183 | the shift amount is the whole of Rs | LSR by Rs = 0x100 gives 0 with carry clear | only the low byte of Rs counts, so the value and carry pass through | high, not executed | CsCpuArm.ShifterWholeRsCounterexample | CsCpuArm.CorrectedRegisterShiftIsReference |
| src/GBA/CPU_ARM.cs:464 | the 24-bit branch offset is not sign-extended | B with offset field 0xfffffe at 0x08000008 jumps to 0x0C000000 | a backward branch to 0x08000000 | high, not executed | CsCpuArm.BranchOffsetAsWrittenCounterexample | CsCpuArm.BranchOffsetRoundTrip |
| src/GBA/IO.cs:136-148 | `Write8` passes the raw byte, not the merged halfword, to `Write16` | writing 0x12 to the high byte of BG0CNT sets the low byte | the byte merged into its half of the register | high, not executed | CsIo.Write8AsWrittenCounterexample | CsIo.Write8KeepsOtherByte |
| src/GBA/PPU.cs:46-67 | VRAM byte and halfword writes do not clear bit 0 of the address | `Write8` to 0x06017fff throws; to 0x06000001 it stores bytes 1 and 2 | the aligned halfword, as for palette RAM and OAM | high, not executed | CsPpu.VramWrite8AsWrittenCounterexample | CsPpu.CorrectedWrite8Duplicates |
| src/GBA/BusPeripheral.cs:9-23 | `Write32` goes through the byte writes, which duplicate each byte over its halfword | `Write32(0x05000000, 0x11223344)` reads back 0x11113333 | the word stored as two halfwords | high, not executed | CsPpu.Write32AsWrittenCounterexample | CsPpu.CorrectedWrite32ThenRead32 |
| src/GBA/PPU.cs:133-150 | LYC is compared with row 228 before the wrap to row 0 | LYC 0 with its interrupt enabled never flags at the start of a frame | the compare against the row now shown | high, not executed | CsPpu.LycAsWrittenCounterexample | CsPpu.CorrectedLycAtFrameWrap |
| src/GBA/PPU.cs:147-176 | the counter is reset to 0 and then incremented at the frame wrap | the first column of each later frame lasts three calls, the frame 280895 | every frame 280896 cycles | medium, not executed | CsPpu.FrameWrapAsWrittenCounterexample | CsPpu.CorrectedCycleKeepsAligned |
| src/core/timer.c:106-111 | the control write of any channel stores count-up into channel 0 | enabling count-up on timer 1 makes timer 0 stop counting | each channel's own count-up bit | high, not executed | CTimer.ControlAsWrittenStallsTimer0 | CTimer.ControlConfiguresOwnChannel |
| src/core/dma.c:91-102 | the start timing keeps only bit 12 | CNT_H 0xa000 (enabled, H-blank timing) starts the channel at once | the two-bit field of bits 13-12 | high, not executed | CDma.HblankStartsAtOnce | CDma.TimingField |
| src/core/dma.c:95-103 | a write to CNT_H of an idle channel reloads and starts it whatever the enable bit | writing 0 to CNT_H of a disabled channel starts it | a write with the enable bit clear leaves the channel stopped | high, not executed | CDma.DisabledWriteStarts | CDma.DisabledWriteStops |
| src/core/cpu/decoder.c:165-206 | the Thumb class masks let the half-word transfer test shadow every index from 0x200 | index 0x100 (ALU) is a shifted move; SWI (0x37c) a half-word transfer | each index classified by its format | high, not executed | CDecoder.ThumbAsWrittenCounterexamples | CDecoder.ThumbClassIsEncoding |
| src/core/cpu/decoder.c:169-194 | the invalid high-register test rejects BX with a low register | index 0x11c (BX r0-r7) is undefined | BX with any register is allowed | high, not executed | CDecoder.HighRegisterAsWrittenRejectsBx | CDecoder.HighRegisterCorrection |
| src/core/cpu/cpu.c:348-349 | leaving IRQ mode saves r13 and then r14 into the same slot | IRQ to SVC and back gives r13 the old r14 | r13 and r14 in their own slots | high, not executed | CCpu.IrqRoundTripCounterexample | CCpu.ChangeModeRoundTrip |
| src/core/cpu/cpu.c:275-291 | the mode is switched before the CPSR is saved into the SPSR | SWI from user mode saves an SPSR whose mode is SVC | the interrupted CPSR saved | high, not executed | CCpu.RaiseAsWrittenSavesExceptionMode | CCpu.RaiseSavesCpsr |
| src/core/cpu/op_arm_singledatatransfer.c:33-38 | a load into r15 writes the register array without a jump | LDR pc, [r0] leaves the pipeline running | the pipeline flushed and the loaded address fetched | high, not executed | CArmSingleTransfer.LoadPcCounterexample | CArmSingleTransfer.LoadPcIntended |
| src/core/cpu/op_arm_blockdatatransfer.c:76-80 | an LDM with S and r15 listed only copies the SPSR to the CPSR | LDMIA r0, {r0, pc}^ leaves r0 unchanged | every listed register loaded, then the CPSR restored | high, not executed | CArmBlockTransfer.UserPcLoadCounterexample | CArmBlockTransfer.UserPcLoadIntended |
| src/core/cpu/op_thumb_aluoperations.c:66-87 | the Thumb register shifts use the whole of Rs | LSL r0, r1 with r1 = 0x100 clears r0 and C | only the low byte of Rs counts, so r0 and C are unchanged | high, not executed | CThumbAlu.ShiftCounterexample | CThumbAlu.ShiftIsReference |
| src/core/cpu/op_thumb_aluoperations.c:188-193 | NEG sets only Z and N | NEG r0, r1 with r1 = 0 and C clear leaves C clear | C and V of the subtraction 0 - Rs | high, not executed | CThumbAlu.NegCounterexample | CThumbAlu.NegIntended |
| src/core/cpu/op_thumb_multipleloadstore.c:35-55 | the base write-back comes after the loads, even when the base is listed | LDMIA r0!, {r0} with r0 = 0x03000000 leaves r0 = 0x03000004 | the loaded word kept in r0 | medium, not executed | CThumbMultiple.LoadBaseCounterexample | CThumbMultiple.LoadsListed |
| src/core/gpu.c:102-107 | a palette byte write stores at the byte index and the index after it | a write at offset 1 also stores at offset 2; at 0x3ff it overruns the array | the byte stored in both halves of its aligned halfword | high, not executed | CGpu.PaletteWrite8AsWrittenSpills | CGpu.PaletteWrite8Halfword |
| src/core/gpu.c:149-154 | a VRAM byte write stores at the byte index and the index after it | a write at offset 1 also stores at offset 2; at 0x17fff it overruns the array | the byte stored in both halves of its aligned halfword | high, not executed | CGpu.VramWrite8AsWrittenSpills | CGpu.VramWrite8Halfword |
| src/gbaemu/gba/cpu/impl/arm/shift_inline.hpp:94-104 | ASR by an immediate shifts logically, and ASR #0 yields the sign bit as 0 or 1 | ASR #1 of 0x80000000 gives 0x40000000 | the sign-filling shift: 0xc0000000 | high, not executed | CppShift.AsrImmediateCounterexample | CppShift.Shifter.AsrImmediate |
| src/gbaemu/gba/cpu/impl/arm/shift_inline.hpp:106-122 | ASR by a register of 1-31 shifts logically | ASR by 4 of 0x80000000 gives 0x08000000 | the sign-filling shift: 0xf8000000 | high, not executed | CppShift.AsrRegisterCounterexample | CppShift.Shifter.AsrRegister |
| src/gbaemu/gba/io.cpp:218-229 | `get32` and `set32` step to the next register by 1 instead of 2 | with DMA0SAD 0x08001234, `get32` gives 0x12341234 | the two halfwords of the word | high, not executed | CppIo.Get32Counterexample | CppIo.Set32ThenGet32 |
| src/gbaemu/gba/io.hpp:119-120 | IF has the same register number as IE | a V-counter request lands in IE, and IF is unchanged | IF the register at 0x04000202 | high, not executed | CppLcd.VCounterRequestAsWritten | CppLcd.CycleRequests |
| src/gbaemu/gba/lcd.cpp:191-198 | the V-count setting is compared with row 228 before the wrap | with the setting 0 the V-counter flag stays clear on the wrap to row 0 | the compare against the row now shown | high, not executed | CppLcd.VCounterFlagAsWritten | CppLcd.VCounterFlag |
| src/gbaemu/gba/lcd.cpp:193-195 | the V-counter interrupt is requested on every new row while it is enabled | with the setting 5 the step to row 1 requests it | a request only when the row matches the setting | high, not executed | CppLcd.VCounterRequestAsWritten | CppLcd.VCounterRequest |
| src/gbaemu/gba/lcd.cpp:197-199 | the counter is cleared and then incremented at the frame restart | the counter leaves its phase modulo 4 after the first frame | the counter stepping like on any other cycle | medium, not executed | CppLcd.CounterPhaseAsWritten | CppLcd.CounterPhase |
| src/gbaemu/gba/lcd.cpp:55-56 | each layer's scroll registers are found at a stride of 2 | layer 1 reads its horizontal offset from BG0VOFS | a stride of 4 | high, not executed | CppDraw.ScrollStrideAsWritten | CppDraw.ScrollStrideCorrected |
| src/gbaemu/gba/lcd.cpp:26-50 | the sort compares the whole BGxCNT of the position, not the priority of the layer now there | with layer 3's key the largest the order is 0, 3, 2, 1 | the layers ordered by priority | high, not executed | CppLayerSort.SortAsWrittenCounterexample | CppLayerSort.CorrectedSortOrders |
