# A verified model of the go-gameboy execution core

This project models the core of an unfinished Game Boy (DMG, Sharp
LR35902) emulator written in Go, and proves properties of that model. The
core is the bit helpers, the two register files, the instruction table
and its operand descriptors, operand resolution and fetch, the stack,
the two instruction-handler sets, the interrupt tables and registers, the
timer block, the memory buses and the cartridge header and checksums.

The repository holds several overlapping iterations of the same
subsystems, and some of them cannot even build together. Every Go file is
its own Dafny module, and different iterations are never merged:

| Dafny file | Go file |
|---|---|
| `bits_arithmetic.dfy` | internal/bits/arithmetic.go |
| `bits_bitwise.dfy` | internal/bits/bitwise.go |
| `processor_bitwise.dfy` | pkg/processor/bitwise.go |
| `processor_registers.dfy` | pkg/processor/registers.go |
| `cpu_registers.dfy` | pkg/cpu/registers.go, plus the `Get`, `Set`, `SetFlag(flag, bool)`, `IsCondition` and `SetRotateAndShiftFlags` helpers its callers use |
| `operands.dfy` | the register, data and condition names of pkg/instructions/operands.go |
| `instructions_operand.dfy` | pkg/instructions/operand.go |
| `instructions_opcodes.dfy` | pkg/instructions/opcodes.go |
| `cpu_operand.dfy` | pkg/cpu/operand.go |
| `cpu_memory.dfy`, `cpu.dfy` | pkg/cpu/cpu.go, with `Read8`/`Read16`/`Write8`/`Write16` over a flat 64 KiB memory |
| `cpu_symbol.dfy` | pkg/cpu/symbol.go |
| `cpu_resolve.dfy` | pkg/cpu/resolve.go |
| `cpu_stack.dfy` | pkg/cpu/stack.go |
| `cpu_access.dfy`, `cpu_arith.dfy` | the operand `Get`/`Set` helpers and the uint16 arithmetic of pkg/cpu/operations.go |
| `cpu_operations_alu.dfy` | INC, DEC, ADD, ADC, SUB, SBC, AND, OR, XOR, CP of pkg/cpu/operations.go |
| `cpu_operations_bits.dfy` | rotates, shifts, SWAP, DAA, CPL, SCF, CCF, BIT, RES, SET of pkg/cpu/operations.go |
| `cpu_operations_control.dfy` | NOP, STOP, HALT, JP, JR, CALL, RST, RET, RETI, DI, EI, PREFIX and ILLEGAL_xx of pkg/cpu/operations.go |
| `cpu_operations_load.dfy` | LD, LDH, POP, PUSH of pkg/cpu/operations.go |
| `cpu_process.dfy` | pkg/cpu/process.go |
| `cpu_instructions.dfy` | pkg/cpu/instructions.go |
| `cpu_interrupt.dfy` | pkg/cpu/interrupt.go |
| `interrupt_interrupt.dfy`, `interrupt_types.dfy` | pkg/interrupt/interrupt.go, pkg/interrupt/types.go |
| `timer_timer.dfy` | pkg/timer/timer.go |
| `mmu_map.dfy`, `mmu_mmu.dfy`, `mmu_ram.dfy`, `mmu_interrupt.dfy`, `mmu_serial.dfy`, `mmu_io.dfy`, `mmu_noop.dfy`, `mmu_lcd.dfy` | the files of the same names in pkg/mmu |
| `cpu_ram.dfy`, `cpu_mmu.dfy`, `dmg_bus.dfy` | pkg/cpu/ram.go, pkg/cpu/mmu.go, pkg/dmg/bus.go |
| `cartridge_cartridge.dfy`, `cartridge_checksum.dfy`, `cartridge_header.dfy` | the files of the same names in pkg/cartridge |
| `cart_cartridge.dfy`, `cart_checksum.dfy` | the files of the same names in pkg/cart |
| `errors.dfy` | the error kinds of pkg/errors/errors.go |

Conventions:

- A Go `byte` is a `bv8` and a `uint16` a `bv16`, so Go's wrap-around is
  the bit-vector's own arithmetic.
- A Go `panic`, or a returned `error`, becomes the failure case of a
  `Result` or an `Outcome`. That includes the runtime panics a handler can
  raise, such as an index out of range or a failed type assertion. The
  exceptions are listed under "Left out": the invalid-symbol panics that
  the model's closed operand types cannot reach, and the places where a
  comma-ok assertion hands an empty register name on instead of
  panicking.
- Code that changes state in place is a `class` with `modifies` clauses:
  the CPU, its register file, the timer, the interrupt block and the RAM
  regions. Each such method is proved against a function from the old
  state to the new one. The lemmas are stated about those functions.
- Code that only computes is a function. This covers the bit helpers,
  the tables, the address router, the header accessors and the stubs.

## Model

| member | source | states |
|---|---|---|
| BitsArithmetic.Add8 | internal/bits/arithmetic.go:12-16 | the sum is (x + y + carry) mod 256; the carry-out is 0 or 1, and for a carry-in of 0 or 1 it is 1 exactly when x + y + carry reaches 256 |
| BitsArithmetic.Add16 | internal/bits/arithmetic.go:18-22 | the sum is (x + y + carry) mod 65536; the carry-out is 1 exactly when x + y + carry reaches 65536 |
| BitsArithmetic.Sub8 | internal/bits/arithmetic.go:30-34 | the difference is (x - y - borrow) mod 256; the borrow-out is 1 exactly when x < y + borrow |
| BitsArithmetic.Sub16 | internal/bits/arithmetic.go:36-40 | the difference is (x - y - borrow) mod 65536 and the borrow-out is 0 or 1 |
| BitsArithmetic.Sub16Borrow | internal/bits/arithmetic.go:36-40 | Sub16's borrow-out is 1 exactly when x < y + borrow |
| BitsBitwise.Lo | internal/bits/bitwise.go:4-6 | the low byte is the value masked with 0xFF |
| BitsBitwise.Hi | internal/bits/bitwise.go:9-11 | the high byte shifted back up is the value masked with 0xFF00 |
| BitsBitwise.To16 | internal/bits/bitwise.go:14-16 | Hi and Lo of the joined value give back the high and the low byte |
| BitsBitwise.SplitJoin | internal/bits/bitwise.go:4-16 | To16(Hi(v), Lo(v)) = v for every 16-bit v |
| BitsBitwise.Mask | internal/bits/bitwise.go:19-31 | the byte `1 << bit` is zero exactly when bit >= 8 |
| BitsBitwise.GetNBit | internal/bits/bitwise.go:19-21 | false for bit >= 8, otherwise bit `bit` of the byte |
| BitsBitwise.SetNBit | internal/bits/bitwise.go:24-26 | for bit < 8 the bit is set afterwards; every other bit is unchanged; bit >= 8 returns the byte unchanged |
| BitsBitwise.ClearNBit | internal/bits/bitwise.go:29-31 | the bit is clear afterwards; every other bit is unchanged; bit >= 8 returns the byte unchanged |
| BitsBitwise.SetNBitIdempotent | internal/bits/bitwise.go:24-26 | setting a bit twice is setting it once |
| BitsBitwise.ClearNBitIdempotent | internal/bits/bitwise.go:29-31 | clearing a bit twice is clearing it once |
| ProcessorBitwise.Lo | pkg/processor/bitwise.go:4-6 | lo(v) = v mod 256 |
| ProcessorBitwise.Hi | pkg/processor/bitwise.go:9-11 | hi(v) = v div 256 |
| ProcessorBitwise.ToU16 | pkg/processor/bitwise.go:14-16 | toU16(h, l) = h * 256 + l |
| ProcessorBitwise.SplitJoin | pkg/processor/bitwise.go:4-16 | toU16(hi(v), lo(v)) = v |
| ProcessorBitwise.Mask | pkg/processor/bitwise.go:19-31 | the byte `1 << n` is zero exactly when n >= 8 |
| ProcessorBitwise.GetNBit | pkg/processor/bitwise.go:19-21 | false for n >= 8, otherwise bit n of the byte |
| ProcessorBitwise.SetNBit | pkg/processor/bitwise.go:24-26 | for n < 8 bit n is set afterwards, and every other bit is unchanged |
| ProcessorBitwise.ClearNBit | pkg/processor/bitwise.go:29-31 | bit n is clear afterwards, and every other bit is unchanged |
| ProcessorRegisters.Registers.GetAF | pkg/processor/registers.go:29-31 | A * 256 + F |
| ProcessorRegisters.Registers.GetBC | pkg/processor/registers.go:38-40 | B * 256 + C |
| ProcessorRegisters.Registers.GetDE | pkg/processor/registers.go:47-49 | D * 256 + E |
| ProcessorRegisters.Registers.GetHL | pkg/processor/registers.go:56-58 | H * 256 + L |
| ProcessorRegisters.Registers.SetAF | pkg/processor/registers.go:33-36 | GetAF afterwards returns the value, low nibble of F included; B, C, D, E, H, L, SP and PC are unchanged |
| ProcessorRegisters.Registers.SetBC | pkg/processor/registers.go:42-45 | GetBC afterwards returns the value; A, F, D, E, H, L, SP and PC are unchanged |
| ProcessorRegisters.Registers.SetDE | pkg/processor/registers.go:51-54 | GetDE afterwards returns the value; A, F, B, C, H, L, SP and PC are unchanged |
| ProcessorRegisters.Registers.SetHL | pkg/processor/registers.go:60-63 | GetHL afterwards returns the value; A, F, B, C, D, E, SP and PC are unchanged |
| ProcessorRegisters.Registers.SetFlag | pkg/processor/registers.go:92-94 | GetFlag of the flag is true afterwards; every other bit of F and every other register is unchanged |
| ProcessorRegisters.Registers.ClearFlag | pkg/processor/registers.go:96-98 | GetFlag of the flag is false afterwards; every other bit of F and every other register is unchanged |
| ProcessorRegisters.Registers.GetFlag | pkg/processor/registers.go:88-90 | the flag is bit fl of F; a bit number of 8 or more reads false |
| CpuRegisters.Regs.GetAF | pkg/cpu/registers.go:31-33 | the high byte is A and the low byte is F |
| CpuRegisters.Regs.GetBC | pkg/cpu/registers.go:40-42 | the high byte is B and the low byte is C |
| CpuRegisters.Regs.GetDE | pkg/cpu/registers.go:49-51 | the high byte is D and the low byte is E |
| CpuRegisters.Regs.GetHL | pkg/cpu/registers.go:58-60 | the high byte is H and the low byte is L |
| CpuRegisters.Regs.WithAF | pkg/cpu/registers.go:35-38 | GetAF afterwards returns the whole value, with no masking of F's low nibble; only A and F change |
| CpuRegisters.Regs.WithBC | pkg/cpu/registers.go:44-47 | GetBC afterwards returns the value; only B and C change |
| CpuRegisters.Regs.WithDE | pkg/cpu/registers.go:53-56 | GetDE afterwards returns the value; only D and E change |
| CpuRegisters.Regs.WithHL | pkg/cpu/registers.go:62-65 | GetHL afterwards returns the value; only H and L change |
| CpuRegisters.Regs.WithFlag | pkg/cpu/registers.go:94-100 | the flag reads back as the value set; every other bit of F and every other register is unchanged |
| CpuRegisters.Regs.Flag | pkg/cpu/registers.go:90-92 | (GetFlag) the flag is bit fl of F; a bit number of 8 or more reads false |
| CpuRegisters.FlagLayout | pkg/cpu/registers.go:79-92 | Z, N, H and C are bits 7, 6, 5 and 4 of F |
| CpuRegisters.PairRoundTrip | pkg/cpu/registers.go:31-65 | setting any pair and reading it back gives the value |
| CpuRegisters.Registers.SetAF | pkg/cpu/registers.go:35-38 | the new register file is the old one with AF set (A and F change, nothing else) |
| CpuRegisters.Registers.SetBC | pkg/cpu/registers.go:44-47 | the new register file is the old one with BC set |
| CpuRegisters.Registers.SetDE | pkg/cpu/registers.go:53-56 | the new register file is the old one with DE set |
| CpuRegisters.Registers.SetHL | pkg/cpu/registers.go:62-65 | the new register file is the old one with HL set |
| CpuRegisters.Registers.SetFlag | pkg/cpu/registers.go:94-96 | the new register file is the old one with the flag's bit set |
| CpuRegisters.Registers.ClearFlag | pkg/cpu/registers.go:98-100 | the new register file is the old one with the flag's bit cleared |
| CpuRegisters.Regs.Get | pkg/cpu/symbol.go:14-16 | (`Registers.Get`, called here) an 8-bit register reads below 0x100; AF, BC, DE and HL read as their pair getters |
| CpuRegisters.Regs.Set | pkg/cpu/operations.go:28-46 | (`Registers.Set`, called by the handlers) reading the register back gives the low byte for an 8-bit register and the whole value otherwise |
| CpuRegisters.SetFrame | pkg/cpu/registers.go:35-65 | a store leaves every 8-bit register, SP and PC outside its target as it was |
| CpuRegisters.SetFields | pkg/cpu/registers.go:35-65 | a store changes no 8-bit register outside the ones its target occupies |
| CpuRegisters.Regs.RotateShiftFlags | pkg/cpu/operations.go:529-541 | (`SetRotateAndShiftFlags`, called here) Z iff the result is 0, N and H cleared, C the carry out; only F changes |
| InstructionsOperand.Operand.Size | pkg/instructions/operand.go:19-26 | 2 exactly for AF, BC, DE, HL, PC, SP, d16 and a16, else 1; Deref, Inc and Dec play no part |
| InstructionsOperand.Operand.Is8 | pkg/instructions/operand.go:28-30 | holds exactly when the symbol is not one of the 16-bit registers, d16 or a16 |
| InstructionsOperand.Operand.Is16 | pkg/instructions/operand.go:32-34 | holds exactly for the 16-bit registers, d16 and a16 |
| InstructionsOperand.Operand.IsRegister | pkg/instructions/operand.go:36-39 | a register symbol is neither data nor a condition |
| InstructionsOperand.Operand.IsData | pkg/instructions/operand.go:49-52 | a data symbol is not a condition |
| InstructionsOperand.Operand.IsCondition | pkg/instructions/operand.go:62-65 | (IsConditon) a condition symbol is a one-byte operand |
| InstructionsOperand.SizeIsByteOrWord | pkg/instructions/operand.go:28-34 | exactly one of Is8 and Is16 holds, and neither depends on the Deref, Inc or Dec flags |
| InstructionsOperand.Operand.AsRegister | pkg/instructions/operand.go:41-47 | succeeds exactly when IsRegister holds, returning the symbol; fails with an operand-symbol error otherwise |
| InstructionsOperand.Operand.AsData | pkg/instructions/operand.go:54-60 | succeeds exactly when IsData holds, returning the symbol; fails with an operand-symbol error otherwise |
| InstructionsOperand.Operand.AsCondition | pkg/instructions/operand.go:67-73 | succeeds exactly when IsConditon holds, returning the symbol; fails with an operand-symbol error otherwise |
| CpuOperand.Operand.Size | pkg/cpu/operand.go:19-26 | 2 exactly for AF, BC, DE, HL, PC, SP, d16 and a16, else 1 |
| CpuOperand.Operand.Is8 | pkg/cpu/operand.go:28-30 | holds exactly when the symbol is not one of the 16-bit registers, d16 or a16 |
| CpuOperand.Operand.Is16 | pkg/cpu/operand.go:32-34 | holds exactly for the 16-bit registers, d16 and a16 |
| CpuOperand.Operand.IsRegister | pkg/cpu/operand.go:36-39 | a register symbol is neither data nor a condition |
| CpuOperand.Operand.IsData | pkg/cpu/operand.go:49-52 | a data symbol is not a condition |
| CpuOperand.Operand.IsCondition | pkg/cpu/operand.go:62-65 | (IsConditon) a condition symbol is a one-byte operand |
| CpuOperand.SizeIsByteOrWord | pkg/cpu/operand.go:28-34 | exactly one of Is8 and Is16 holds, whatever the flags |
| CpuOperand.Operand.AsRegister | pkg/cpu/operand.go:41-47 | succeeds exactly on a register symbol; fails with an operand-symbol error otherwise |
| CpuOperand.Operand.AsData | pkg/cpu/operand.go:54-60 | succeeds exactly on a data symbol; fails with an operand-symbol error otherwise |
| CpuOperand.Operand.AsCondition | pkg/cpu/operand.go:67-73 | succeeds exactly on a condition symbol; fails with an operand-symbol error otherwise |
| CpuSymbol.SignExtend | pkg/cpu/symbol.go:47-50 | `uint16(int8(v))`: the low byte is v; below 0x80 it is v, otherwise v - 0x100 mod 2^16 |
| CpuSymbol.ResolveWithoutFetch | pkg/cpu/symbol.go:14-16 | Register, Byte and Condition resolve without changing any state; a register gives Registers.Get, a byte itself, a condition 1 exactly when it holds and 0 otherwise |
| CpuSymbol.ResolveMovesPC | pkg/cpu/symbol.go:41-78 | Data and Address symbols move PC by the operand's width, 2 for d16/a16 and 1 otherwise, and change nothing else |
| CpuSymbol.ResolveExtends | pkg/cpu/symbol.go:43-50 | d8 is the byte at PC zero-extended and r8 the byte sign-extended, so 0xFE becomes 0xFFFE |
| CpuSymbol.ResolveHighPage | pkg/cpu/symbol.go:69-72 | a8 resolves to 0xFF00 or'd with the fetched byte, always within 0xFF00-0xFFFF |
| CpuSymbol.ResolveWord | pkg/cpu/symbol.go:45-74 | d16 and a16 resolve to the little-endian word at PC |
| CpuSymbol.Resolve | pkg/cpu/symbol.go:14-101 | the value and the new state are those of the resolve function on the old state |
| CpuResolve.ResolveCondition | pkg/cpu/resolve.go:25-38 | NZ holds iff Z is clear, Z iff Z is set, NC iff C is clear, C iff C is set |
| CpuResolve.ResolveConditionAgrees | pkg/cpu/resolve.go:25-38 | ResolveCondition decides every condition as Registers.IsCondition does |
| CpuResolve.ResolveRegisterAgrees | pkg/cpu/resolve.go:55-88 | resolveRegister reads every register as Registers.Get does: 8-bit registers, SP, PC and the pair getters |
| CpuResolve.ResolveDataHighPage | pkg/cpu/resolve.go:46-47 | a8 fetches one byte, lands in 0xFF00-0xFFFF with that byte as its low half, and leaves PC one higher |
| CpuResolve.ResolveDataWord | pkg/cpu/resolve.go:44-49 | d16 and a16 give the little-endian word at PC and leave PC two higher |
| CpuResolve.ResolveDataRejectsR8 | pkg/cpu/resolve.go:40-52 | resolveData fails exactly on r8, which has no case, and then fetches nothing |
| CpuResolve.ResolveDataKeepsMemory | pkg/cpu/resolve.go:40-52 | resolveData never writes memory |
| CpuResolve.ResolveValueCases | pkg/cpu/resolve.go:11-22 | a byte literal resolves to itself, a register to its value without moving PC, and every other non-data symbol fails |
| CpuResolve.ResolveData | pkg/cpu/resolve.go:40-53 | the result and new state are those of resolveData's function on the old state |
| CpuResolve.ResolveValue | pkg/cpu/resolve.go:11-22 | the result and new state are those of ResolveValue's function on the old state |
| Cpu.Fetch16IsTwoFetch8 | pkg/cpu/cpu.go:29-43 | Fetch16 is two Fetch8 calls, low byte first: the joined bytes, with PC where the second fetch leaves it |
| Cpu.ValueOfData | pkg/cpu/cpu.go:48-53 | on data, a 16-bit operand fetches the word and moves PC by 2; an 8-bit one (r8 included) fetches one byte zero-extended and moves PC by 1; memory is unchanged |
| Cpu.ValueOfNoFetch | pkg/cpu/cpu.go:54-63 | a register gives its value, or the byte it points at when dereferenced; other kinds fail; no state changes |
| Cpu.CPU.New | pkg/cpu/cpu.go:20-27 | the new CPU has the given registers and memory, IME true, IE 0, not halted |
| Cpu.CPU.Read16 | pkg/cpu/cpu.go:37-43 | the low byte is the byte at the address and the high byte the next one |
| Cpu.CPU.Fetch8 | pkg/cpu/cpu.go:29-35 | returns the byte at the old PC and leaves PC one higher, mod 2^16 |
| Cpu.CPU.Fetch16 | pkg/cpu/cpu.go:37-43 | returns the word at the old PC and leaves PC two higher, mod 2^16 |
| Cpu.CPU.ValueOf | pkg/cpu/cpu.go:46-65 | the result and new state are those of ValueOf's function on the old state |
| CpuMemory.Store | pkg/cpu/stack.go:7 | (`Write8`) the written address holds the value and every other address is unchanged |
| CpuMemory.Load16 | pkg/cpu/cpu.go:42 | (`Read16`) the low byte is at the address and the high byte at the next one, wrapping past 0xFFFF |
| CpuMemory.Store16 | pkg/cpu/operations.go:153-201 | (`Write16`) the low byte at the address, the high byte at the next, nothing else changed |
| CpuMemory.Load16Store16 | pkg/cpu/cpu.go:37-43 | a 16-bit write reads back as the same word, also across the wrap at 0xFFFF |
| CpuStack.Push16Layout | pkg/cpu/stack.go:10-13 | after StackPush16, SP is two lower, the low byte is at the new SP and the high byte above it |
| CpuStack.PushedWord | pkg/cpu/stack.go:10-13 | the word at the new SP after StackPush16 is the pushed value |
| CpuStack.Push16Frame | pkg/cpu/stack.go:10-13 | StackPush16 writes no byte other than its two |
| CpuStack.Pop16Reads | pkg/cpu/stack.go:21-26 | StackPop16 returns the little-endian word at SP and raises SP by two, changing nothing else |
| CpuStack.PushPopRoundTrip | pkg/cpu/stack.go:5-26 | StackPop16 after StackPush16 returns the pushed value and restores SP |
| CpuStack.StackPush8 | pkg/cpu/stack.go:5-8 | SP is decremented, then the byte is written at the new SP |
| CpuStack.StackPush16 | pkg/cpu/stack.go:10-13 | the high byte is pushed first, then the low byte |
| CpuStack.StackPop8 | pkg/cpu/stack.go:15-19 | the byte at SP is returned, then SP is incremented |
| CpuStack.StackPop16 | pkg/cpu/stack.go:21-26 | pops the low byte, then the high byte, and joins them |
| InstructionsOpcodes.FromOPCodeIllegal | pkg/instructions/opcodes.go:7-20 | every byte has an entry in both tables, so the lookup never returns nil; the entry is an ILLEGAL_xx naming its own opcode, with no operands, exactly for 0xD3, 0xDB, 0xDD, 0xE3, 0xE4, 0xEB, 0xEC, 0xED, 0xF4, 0xFC and 0xFD unprefixed |
| InstructionsOpcodes.FromOPCode | pkg/instructions/opcodes.go:7-20 | never nil; with the prefix the CB table's entry; without it the entry of the plain table, which keeps every mnemonic and differs from the table as written only at 0x38, 0xD8 and 0xDC (see Findings) |
| InstructionsOpcodes.Cbprefixed | pkg/instructions/opcodes.go:1049-2074 | every CB-prefixed entry is one of RLC, RRC, RL, RR, SLA, SRA, SWAP, SRL, BIT, RES or SET |
| InstructionsOpcodes.IllegalFromC0 | pkg/instructions/opcodes.go:867-1038 | from 0xC0 up, the ILLEGAL_xx entries sit exactly at the eleven illegal bytes |
| InstructionsOpcodes.NoIllegalBelowC0 | pkg/instructions/opcodes.go:22-818 | no plain byte below 0xC0 is illegal |
| InstructionsOpcodes.NoIllegalPrefixed | pkg/instructions/opcodes.go:1049-2074 | no CB-prefixed byte is illegal |
| InstructionsOpcodes.PrefixOpcode | pkg/instructions/opcodes.go:835-838 | 0xCB is the one and only PREFIX entry |
| InstructionsOpcodes.LdBlock | pkg/instructions/opcodes.go:279-534 | 0x40-0x7F other than 0x76 is LD with destination index (code>>3)&7 and source index code&7 over B, C, D, E, H, L, (HL), A; 0x76 is HALT |
| InstructionsOpcodes.CbRotates | pkg/instructions/opcodes.go:1050-1305 | CB 0x00-0x3F are RLC, RRC, RL, RR, SLA, SRA, SWAP, SRL in blocks of eight, on register index code&7 |
| InstructionsOpcodes.CbBits | pkg/instructions/opcodes.go:1306-2073 | CB 0x40-0xFF are BIT, RES and SET by quarter, with Bit((code>>3)&7) and register index code&7 |
| InstructionsOpcodes.Restarts | pkg/instructions/opcodes.go:819-1046 | RST at 0xC7 + 8k carries Hex(8k) |
| InstructionsOpcodes.RestartsOnlyThere | pkg/instructions/opcodes.go:22-1046 | RST appears at no other byte |
| InstructionsOpcodes.OnlyF8HasThreeOperands | pkg/instructions/opcodes.go:1015-1018 | 0xF8, {HL, Inc(SP), r8}, is the only three-operand entry |
| InstructionsOpcodes.CbHaveAtMostTwoOperands | pkg/instructions/opcodes.go:1049-2074 | no CB-prefixed entry has more than two operands |
| InstructionsOpcodes.CarryConditionWrittenAsRegister | pkg/instructions/opcodes.go:247-250 | 0x38, 0xD8 and 0xDC give register C as the condition operand, where 0xDA gives the condition Ca |
| InstructionsOpcodes.UnprefixedCorrected | pkg/instructions/opcodes.go:247-250 | the table with Ca in those three entries agrees with the table as written everywhere else, and keeps every mnemonic and operand count; FromOPCode looks plain opcodes up in it |
| InstructionsOpcodes.CorrectedConditionsAreConditions | pkg/instructions/opcodes.go:22-1046 | in the corrected table every conditional JP, JR, CALL and RET starts with a condition operand |
| CpuInstructions.Run | pkg/cpu/instructions.go:21-26 | the NOP handler returns 4 ticks and leaves the machine as it was |
| CpuInstructions.LookupFindsOnlyNop | pkg/cpu/instructions.go:13-27 | the corrected lookup finds an entry exactly for opcode 0, the NOP that returns 4 ticks and changes nothing |
| CpuInstructions.LookupAgreesWithTable | pkg/cpu/instructions.go:13-27 | the corrected lookup returns the table's entry wherever the one-entry table has one, and nil past it |
| CpuInstructions.AsWrittenOffByOne | pkg/cpu/instructions.go:14-17 | the `>` guard agrees with the corrected lookup on every opcode but 1, where the index into the one-element array panics |
| CpuInstructions.InstructionForOpcodeAsWritten | pkg/cpu/instructions.go:13-27 | as written, the lookup panics exactly on the opcode equal to the table's length; an entry it returns is the table's entry at that opcode |
| CpuInstructions.InstructionForOpcode | pkg/cpu/instructions.go:13-27 | the corrected lookup, labelled as corrected: nil exactly for opcodes past the table, and otherwise the table's entry |
| CpuInterrupt.InterruptToAddress | pkg/cpu/interrupt.go:37-43 | a type has a vector exactly when it is one of the five listed types |
| CpuInterrupt.InterruptBits | pkg/cpu/interrupt.go:15-34 | five types in priority order VBLANK, LCD_STAT, TIMER, SERIAL, JOYPAD; the i-th is bit i, so no two share a bit |
| CpuInterrupt.InterruptVectors | pkg/cpu/interrupt.go:37-43 | the vector of the i-th type is 0x40 + 8i, so vectors rise as priority falls |
| CpuInterrupt.TriggeredIsRequested | pkg/cpu/interrupt.go:56-72 | a type triggered through IE and IF is also a request: IF is non-zero |
| CpuInterrupt.FlaggedTypes | pkg/cpu/interrupt.go:56-72 | some listed type is flagged exactly when one of the five low bits of IF is set |
| CpuInterrupt.InterruptRequested | pkg/cpu/interrupt.go:56-58 | holds exactly when IF read through memory flags some bit of the full mask 0xFF |
| CpuInterrupt.InterruptEnabled | pkg/cpu/interrupt.go:64-67 | a type is enabled only when it names some bit and IE is non-zero |
| CpuInterrupt.InterruptFlagged | pkg/cpu/interrupt.go:69-72 | a type is flagged only when it names some bit and IF is non-zero |
| CpuInterrupt.InterruptTriggered | pkg/cpu/interrupt.go:60-62 | a triggered type is enabled, and an interrupt is then requested |
| InterruptInterrupt.Interrupt.constructor | pkg/interrupt/interrupt.go:27-35 | master disabled, EI and DI MASTER_SET_NONE, Flag and Enable 0 |
| InterruptInterrupt.Interrupt.Read | pkg/interrupt/interrupt.go:37-46 | Flag at 0xFF0F, Enable at 0xFFFF, a read error at any other address |
| InterruptInterrupt.Interrupt.Write | pkg/interrupt/interrupt.go:48-57 | the flag address changes only Flag and the enable address only Enable, and the byte reads back; any other address fails and changes nothing |
| InterruptInterrupt.TriggeredIsRequested | pkg/interrupt/interrupt.go:59-73 | a triggered type is flagged, and a flagged type means Requested |
| InterruptInterrupt.TriggeredSingleBit | pkg/interrupt/interrupt.go:63-73 | for a listed type, Triggered holds exactly when its bit is set in Enable & Flag; for a several-bit mask such as 0x03 it does not |
| InterruptInterrupt.RequestedMeansSomeType | pkg/interrupt/interrupt.go:59-61 | with only the five type bits usable in Flag, Requested holds exactly when some listed type is flagged |
| InterruptInterrupt.Interrupt.Requested | pkg/interrupt/interrupt.go:59-61 | holds exactly when Flag flags some bit of the full mask 0xFF |
| InterruptInterrupt.Interrupt.Enabled | pkg/interrupt/interrupt.go:67-69 | a type is enabled only when it names some bit and Enable is non-zero |
| InterruptInterrupt.Interrupt.Flagged | pkg/interrupt/interrupt.go:71-73 | a type is flagged only when it names some bit and Flag is non-zero |
| InterruptInterrupt.Interrupt.Triggered | pkg/interrupt/interrupt.go:63-65 | a triggered type is enabled, and an interrupt is then requested |
| InterruptTypes.TypeToAddress | pkg/interrupt/types.go:27-33 | a type has a vector exactly when it is listed; every vector is a multiple of 8 in 0x40-0x60 |
| InterruptTypes.TypesAreBits | pkg/interrupt/types.go:13-24 | Types has five entries, the i-th being 1 << i, pairwise disjoint |
| InterruptTypes.VectorsFollowPriority | pkg/interrupt/types.go:22-33 | every listed type has a vector, the i-th being 0x40 + 8i, strictly increasing along Types |
| TimerTimer.ClockBit | pkg/timer/timer.go:38-51 | TAC&3 = 00, 01, 10, 11 select DIV bit 9, 3, 5, 7 |
| TimerTimer.Count | pkg/timer/timer.go:54-62 | TIMA steps by one, or at 0xFF reloads TMA and requests the interrupt; DIV, TMA and TAC are kept |
| TimerTimer.TickAsWritten | pkg/timer/timer.go:32-63 | as written, a tick only advances DIV by one mod 2^16 and never requests the interrupt |
| TimerTimer.TickIntended | pkg/timer/timer.go:32-63 | the documented tick: DIV advances; a disabled timer changes nothing else; an interrupt only comes from a TIMA reload at 0xFF |
| TimerTimer.CheckBitNeverHolds | pkg/timer/timer.go:66-68 | for every bit from 1 up, `prev & (1 << bit) == 1` is never true, so checkBit is false for every bit Tick uses |
| TimerTimer.EnabledAsWrittenNeverHolds | pkg/timer/timer.go:54 | `TAC & (1 << 2) == 1` is never true; the enable bit is TAC & 4 == 4 |
| TimerTimer.CheckBitAsWritten | pkg/timer/timer.go:66-68 | as written, checkBit holds only where the selected bit also has a falling edge |
| TimerTimer.EnabledAsWritten | pkg/timer/timer.go:54 | as written, the enable test holds only where bit 2 of TAC is set |
| TimerTimer.Enabled | pkg/timer/timer.go:54 | the corrected enable test, labelled as corrected: bit 2 of TAC is set |
| TimerTimer.FallingEdgePeriod | pkg/timer/timer.go:38-68 | counting up, the selected DIV bit falls exactly when the new DIV is a multiple of twice that bit |
| TimerTimer.IntendedCountsOnEdge | pkg/timer/timer.go:53-62 | an enabled timer at a falling edge steps TIMA, or at 0xFF reloads TMA and requests the interrupt |
| TimerTimer.TickMissesEdge | pkg/timer/timer.go:54-67 | DIV 0x000F with TAC 0x05: the intended tick counts TIMA to 1, the tick as written leaves it 0 |
| TimerTimer.Timer.constructor | pkg/timer/timer.go:22-30 | DIV 0xAC00, TIMA, TMA and TAC 0 |
| TimerTimer.Timer.Tick | pkg/timer/timer.go:32-63 | the new registers and the interrupt flag are exactly those of the documented tick: DIV advances, TIMA counts on the falling edge of the selected DIV bit while enabled, and reloads from TMA with an interrupt on overflow |
| TimerTimer.Timer.Read | pkg/timer/timer.go:70-83 | Hi(DIV), TIMA, TMA or TAC at 0xFF04-0xFF07, a read error elsewhere |
| TimerTimer.Timer.Write | pkg/timer/timer.go:85-99 | DIV is cleared whatever the data; TIMA, TMA and TAC store the data; other addresses fail and change nothing |
| TimerTimer.DivResetAndTick | pkg/timer/timer.go:32-89 | after a DIV write the register reads 0; the tick as written leaves TIMA and TAC and DIV reads the new high byte |
| MmuMap.ReaderWriterFor | pkg/mmu/map.go:73-121 | the ranges are tried in order and the first match decides; any failure is an access error at that address |
| MmuMap.RoutesToCartridge | pkg/mmu/map.go:76-81 | an address goes to the cartridge exactly when it is in 0x0000-0x7FFF or 0xA000-0xBFFF |
| MmuMap.RoutesToRam | pkg/mmu/map.go:82-115 | work RAM serves exactly 0xC000-0xDFFF and high RAM exactly 0xFF80-0xFFFE |
| MmuMap.RoutesToRegisters | pkg/mmu/map.go:92-117 | the serial block serves exactly 0xFF01-0xFF02 and the interrupt block exactly 0xFF0F and 0xFFFF |
| MmuMap.RefusesUnmapped | pkg/mmu/map.go:84-120 | the router fails exactly on echo RAM, the unusable range and the addresses in no declared range |
| MmuMap.RangesInOrder | pkg/mmu/map.go:18-66 | the distinct declared ranges are non-empty and each ends before the next begins, so they are pairwise disjoint |
| MmuMap.RepeatedRangesNeverMatch | pkg/mmu/map.go:57-113 | the palette and WRAM-bank ranges repeat earlier ranges, so 0xFF68, 0xFF69 and 0xFF70 are refused |
| MmuMap.TimerRangeIsNoop | pkg/mmu/map.go:94-95 | 0xFF04-0xFF07 go to a no-op, not to the timer |
| MmuMmu.ReadByte | pkg/mmu/mmu.go:39-46 | Read8 fails with an access error where the router fails, gives 0 in a no-op region, and otherwise can fail only in the cartridge |
| MmuMmu.WriteOutcome | pkg/mmu/mmu.go:55-62 | Write8 completes exactly on routed addresses outside the read-only cartridge |
| MmuMmu.WriteByte | pkg/mmu/mmu.go:55-62 | a failed or no-op write leaves the bus as it was |
| MmuMmu.ReadWord | pkg/mmu/mmu.go:48-53 | Read16 succeeds exactly when both byte reads do; the low byte comes from the address and the high byte from the next, wrapping |
| MmuMmu.WordOutcome | pkg/mmu/mmu.go:64-67 | Write16 completes exactly when both bytes can be written, and otherwise reports the first failing address |
| MmuMmu.WriteWord | pkg/mmu/mmu.go:64-67 | a Write16 whose first byte fails changes nothing |
| MmuMmu.ReadsCartridge | pkg/mmu/mmu.go:39-46 | ROM and cartridge-RAM reads are the cartridge's own reads |
| MmuMmu.ReadsWram | pkg/mmu/mmu.go:39-46 | a work RAM read gives the cell at the address's distance from 0xC000 |
| MmuMmu.ReadsHram | pkg/mmu/mmu.go:39-46 | a high RAM read gives the cell at the address's distance from 0xFF80 |
| MmuMmu.ReadsRegisters | pkg/mmu/mmu.go:39-46 | SB, SC, IF and IE read as the serial and interrupt registers |
| MmuMmu.NoopRegionsReadZero | pkg/mmu/mmu.go:39-62 | reads of video RAM and the LCD range give 0 whatever was written; LY reads 0 on the bus although the LCD block returns 0x90 |
| MmuMmu.WriteThenRead | pkg/mmu/mmu.go:39-62 | a completed write to a RAM cell or register reads back; a failed write changes nothing |
| MmuMmu.WramWordIsLittleEndian | pkg/mmu/mmu.go:48-53 | a word in work RAM is its two cells, low byte first |
| MmuMmu.WramWordWrite | pkg/mmu/mmu.go:64-67 | a word write inside work RAM completes and fills two cells, low byte first |
| MmuMmu.WramWordRoundTrip | pkg/mmu/mmu.go:48-67 | when a and a+1 are both in work RAM, Read16 after Write16 returns the value |
| MmuMmu.HramWordIsLittleEndian | pkg/mmu/mmu.go:48-53 | a word in high RAM is its two cells, low byte first |
| MmuMmu.HramWordWrite | pkg/mmu/mmu.go:64-67 | a word write inside high RAM completes and fills two cells, low byte first |
| MmuMmu.HramWordRoundTrip | pkg/mmu/mmu.go:48-67 | when a and a+1 are both in high RAM, Read16 after Write16 returns the value |
| MmuMmu.RegisterWords | pkg/mmu/mmu.go:64-67 | a word written at SB fills SB and SC; one written at 0xFFFF sets IE and then fails at 0x0000, leaving IE changed |
| MmuMmu.MMU.constructor | pkg/mmu/mmu.go:23-37 | the cartridge, interrupt block and timer are shared; work RAM, high RAM and the serial registers start zeroed |
| MmuMmu.MMU.Read8 | pkg/mmu/mmu.go:39-46 | the byte is the one the bus state gives at the address |
| MmuMmu.MMU.Read16 | pkg/mmu/mmu.go:48-53 | the word is the one the bus state gives at the address |
| MmuMmu.MMU.Write8 | pkg/mmu/mmu.go:55-62 | the outcome and new bus state are those of one byte write; IME and the EI/DI fields are unchanged |
| MmuMmu.MMU.Write16 | pkg/mmu/mmu.go:64-67 | the outcome and new bus state are those of the two byte writes, low byte first |
| MmuMmu.MMU.DebugSerial | pkg/mmu/mmu.go:73-80 | when SC is 0x81 the byte in SB is output and SC is reset to 0; otherwise nothing changes |
| MmuRam.TranslateAddress | pkg/mmu/ram.go:39-46 | the uint16 distance from the offset, which must be below the size; for a region below 0x10000 exactly the region's own addresses pass |
| MmuRam.ReadCell | pkg/mmu/ram.go:48-50 | the translated cell, or the access error |
| MmuRam.WriteCell | pkg/mmu/ram.go:52-54 | the region keeps its size, and a refused address changes nothing |
| MmuRam.ReadAfterWriteCell | pkg/mmu/ram.go:48-54 | a written byte reads back; any other cell, and any address after a refused write, reads as before |
| MmuRam.Ram.WRAM | pkg/mmu/ram.go:23-29 | 0x2000 zero bytes at offset 0xC000 |
| MmuRam.Ram.HRAM | pkg/mmu/ram.go:31-37 | 0x80 zero bytes at offset 0xFF80 |
| MmuRam.Ram.Read | pkg/mmu/ram.go:48-50 | the byte at the translated address, or the access error |
| MmuRam.Ram.Write | pkg/mmu/ram.go:52-54 | the translated cell takes the byte and reads back; no other cell changes; a refused address changes nothing |
| MmuRam.RegionsAccept | pkg/mmu/ram.go:7-46 | work RAM accepts exactly 0xC000-0xDFFF and high RAM exactly 0xFF80-0xFFFF; 0xBFFF wraps and is refused |
| MmuRam.WramCells | pkg/mmu/ram.go:39-46 | inside work RAM an address selects its distance from 0xC000 |
| MmuRam.HramCells | pkg/mmu/ram.go:39-46 | inside high RAM an address selects its distance from 0xFF80 |
| MmuInterrupt.Interrupt.constructor | pkg/mmu/interrupt.go:17-19 | flag and enable start at 0 |
| MmuInterrupt.Interrupt.Read | pkg/mmu/interrupt.go:21-30 | flag at 0xFF0F, enable at 0xFFFF, a read error elsewhere |
| MmuInterrupt.Interrupt.Write | pkg/mmu/interrupt.go:32-41 | only the matching field changes, and it reads back; other addresses fail and change nothing |
| MmuSerial.Serial.constructor | pkg/mmu/serial.go:15-17 | transfer and control start at 0 |
| MmuSerial.Serial.Read | pkg/mmu/serial.go:19-28 | transfer at 0xFF01, control at 0xFF02, a read error elsewhere |
| MmuSerial.Serial.Write | pkg/mmu/serial.go:30-39 | only the matching field changes, and it reads back; other addresses fail and change nothing |
| MmuIo.CellOf | pkg/mmu/io.go:22-42 | 0xFF01 selects cell 0 and 0xFF02 cell 1; no other address selects a cell |
| MmuIo.Io.constructor | pkg/mmu/io.go:16-20 | both serialData cells start at 0 |
| MmuIo.Io.Read | pkg/mmu/io.go:22-31 | the selected cell, or a read error |
| MmuIo.Io.Write | pkg/mmu/io.go:33-42 | only the selected cell changes, and it reads back; other addresses fail and change nothing |
| MmuNoop.NewNoop | pkg/mmu/noop.go:9-11 | the stub keeps the debug flag |
| MmuNoop.Read | pkg/mmu/noop.go:13-20 | every read gives the dummy byte 0, whatever the address and the debug flag |
| MmuNoop.Write | pkg/mmu/noop.go:22-26 | a write leaves the stub exactly as it was |
| MmuNoop.ReadsIgnoreWrites | pkg/mmu/noop.go:13-26 | a read gives 0 after any write and with either debug flag; a write leaves the stub as it was |
| MmuLcd.Read | pkg/mmu/lcd.go:9-17 | non-zero exactly at 0xFF44 |
| MmuLcd.Write | pkg/mmu/lcd.go:19-21 | a write changes no later read at any address |
| MmuLcd.ReadsIgnoreWrites | pkg/mmu/lcd.go:9-21 | reads give 0x90 at 0xFF44 and do not depend on earlier writes |
| CpuRam.TranslateAddress | pkg/cpu/ram.go:15-23 | the distance from 0xC000, accepted exactly for 0xC000-0xDFFF |
| CpuRam.RAM.constructor | pkg/cpu/ram.go:10-13 | both arrays start zeroed |
| CpuRam.RAM.Read8 | pkg/cpu/ram.go:25-27 | the work RAM byte at the translated address, or an access error |
| CpuRam.RAM.Write8 | pkg/cpu/ram.go:29-31 | exactly one work RAM cell changes and reads back; hram is never touched; a refused address changes nothing |
| CpuMmu.Read | pkg/cpu/mmu.go:15-21 | below 0x8000 the cartridge's read; from 0x8000 up "not implemented" |
| CpuMmu.Write | pkg/cpu/mmu.go:23-30 | never succeeds: below 0x8000 the cartridge's write error, above it "not implemented" |
| CpuMmu.RomBoundary | pkg/cpu/mmu.go:7-21 | 0x7FFF is the last address handed to the cartridge; a ROM address inside the image reads its byte |
| DmgBus.BusRead | pkg/dmg/bus.go:9-15 | below 0x8000 the cartridge's read; from 0x8000 up "not implemented" |
| DmgBus.BusWrite | pkg/dmg/bus.go:17-24 | always fails with "not implemented" |
| DmgBus.BusReadsImage | pkg/dmg/bus.go:5-15 | a ROM address inside the image reads its byte; past the image or from 0x8000 up the read fails |
| CartridgeCartridge.FromBytes | pkg/cartridge/cartridge.go:24-29 | always succeeds; the cartridge holds the image and the slice's spare capacity, and the size is the image's length |
| CartridgeCartridge.Read | pkg/cartridge/cartridge.go:31-33 | succeeds exactly for an address inside the image, giving the image byte at that address; past its end the index error |
| CartridgeCartridge.Write | pkg/cartridge/cartridge.go:35-37 | always the write error naming the address |
| CartridgeCartridge.FromBytesThenRead | pkg/cartridge/cartridge.go:24-33 | a cartridge made from an image reads back each of its bytes and fails past its end |
| CartridgeChecksum.HeaderCheckSumOf | pkg/cartridge/checksum.go:4-16 | defined exactly when the image reaches 0x14C; otherwise the index error |
| CartridgeChecksum.HeaderTermsExtend | pkg/cartridge/checksum.go:9-13 | the header terms of a longer prefix are those of the shorter one plus the next byte's term |
| CartridgeChecksum.HeaderLoopStep | pkg/cartridge/checksum.go:10-12 | one turn of the loop, subtracting the byte and one, extends the negated prefix by that byte |
| CartridgeChecksum.CalculateHeaderCheckSum | pkg/cartridge/checksum.go:4-16 | the loop computes 0 minus the sum of (byte + 1) over 0x134..0x14C, or fails as the indexing does |
| CartridgeChecksum.IsValidHeaderCheckSum | pkg/cartridge/checksum.go:18-20 | defined exactly when 0x14D exists; true exactly when the computed checksum equals the byte there |
| CartridgeChecksum.CalculateGlobalCheckSum | pkg/cartridge/checksum.go:24-37 | the loop computes the 16-bit wrapping sum of every byte except 0x14E and 0x14F |
| CartridgeChecksum.IsValidGlobalCheckSum | pkg/cartridge/checksum.go:39-41 | defined exactly when 0x14F exists; true exactly when the sum equals the big-endian word at 0x14E |
| CartridgeChecksum.HeaderCheckSumLocal | pkg/cartridge/checksum.go:4-16 | the header checksum depends only on the bytes 0x134..0x14C |
| CartridgeChecksum.HeaderCheckSumCancels | pkg/cartridge/checksum.go:4-16 | the checksum added to the header terms gives 0 |
| CartridgeChecksum.StampHeaderCheckSum | pkg/cartridge/checksum.go:4-20 | storing the computed checksum at 0x14D makes IsValidHeaderCheckSum true |
| CartridgeChecksum.GlobalSumIgnoresChecksum | pkg/cartridge/checksum.go:28-33 | the global sum does not depend on the bytes at 0x14E and 0x14F |
| CartridgeChecksum.StampGlobalCheckSum | pkg/cartridge/checksum.go:24-41 | storing the computed sum at 0x14E..0x14F, high byte first, makes IsValidGlobalCheckSum true |
| CartridgeChecksum.GlobalStampKeepsHeader | pkg/cartridge/checksum.go:4-41 | stamping the global checksum does not change the header checksum |
| CartridgeHeader.ByteAt | pkg/cartridge/header.go:31-101 | a single-byte field is the byte at its offset, or the index error when the image is shorter |
| CartridgeHeader.Field | pkg/cartridge/header.go:11-47 | a fixed-size field is the first count bytes of its slice of the backing array, defined exactly when the slice's end is within the capacity (image plus spare bytes); within the image it is the image's bytes |
| CartridgeHeader.EntryPoint | pkg/cartridge/header.go:11-13 | defined exactly when the capacity (image plus spare bytes) reaches 0x104, otherwise the index error; the four bytes 0x100..0x103 of the backing array, which are image bytes when the image itself reaches 0x104 |
| CartridgeHeader.NintendoLogo | pkg/cartridge/header.go:15-17 | defined exactly when the capacity (image plus spare bytes) reaches 0x134, otherwise the index error; the 48 bytes 0x104..0x133 of the backing array, which are image bytes when the image itself reaches 0x134 |
| CartridgeHeader.Title | pkg/cartridge/header.go:19-21 | defined exactly when the capacity (image plus spare bytes) reaches 0x144, otherwise the index error; the first ten bytes of the slice 0x134..0x143 of the backing array, which are image bytes when the image itself reaches 0x144 |
| CartridgeHeader.ManufacturerCode | pkg/cartridge/header.go:27-29 | defined exactly when the capacity (image plus spare bytes) reaches 0x143, otherwise the index error; the four bytes 0x13F..0x142 of the backing array, which are image bytes when the image itself reaches 0x143 |
| CartridgeHeader.CGBFlag | pkg/cartridge/header.go:31-33 | defined exactly when 0x143 exists; the byte there; a shorter image is the index error |
| CartridgeHeader.SupportsColor | pkg/cartridge/header.go:35-38 | defined exactly when 0x143 exists; true exactly when the byte there is 0x80; a shorter image is the index error |
| CartridgeHeader.ColorOnly | pkg/cartridge/header.go:40-43 | defined exactly when 0x143 exists; true exactly when the byte there is 0xC0; a shorter image is the index error |
| CartridgeHeader.NewLicenseeCode | pkg/cartridge/header.go:45-47 | defined exactly when the capacity (image plus spare bytes) reaches 0x146, otherwise the index error; the two bytes 0x144..0x145 of the backing array, which are image bytes when the image itself reaches 0x146 |
| CartridgeHeader.SGBFlag | pkg/cartridge/header.go:54-56 | defined exactly when 0x146 exists; the byte there; a shorter image is the index error |
| CartridgeHeader.CartridgeType | pkg/cartridge/header.go:58-60 | defined exactly when 0x147 exists; the byte there; a shorter image is the index error |
| CartridgeHeader.ROMSize | pkg/cartridge/header.go:62-64 | defined exactly when 0x148 exists; the byte there; a shorter image is the index error |
| CartridgeHeader.RAMSize | pkg/cartridge/header.go:66-68 | defined exactly when 0x149 exists; the byte there; a shorter image is the index error |
| CartridgeHeader.DestinationCode | pkg/cartridge/header.go:70-72 | defined exactly when 0x14A exists; the byte there; a shorter image is the index error |
| CartridgeHeader.OldLicenseeCode | pkg/cartridge/header.go:74-76 | defined exactly when 0x14B exists; the byte there; a shorter image is the index error |
| CartridgeHeader.IsNewLicensee | pkg/cartridge/header.go:82-85 | defined exactly when 0x14B exists; true exactly when the byte there is 0x33; a shorter image is the index error |
| CartridgeHeader.LicenseeKey | pkg/cartridge/header.go:87-93 | (LicenseeString) defined exactly when 0x14B exists; the new code 0x144..0x145 when the old code is 0x33, otherwise the old code byte; a shorter image is the index error |
| CartridgeHeader.MaskRomVersion | pkg/cartridge/header.go:95-97 | defined exactly when 0x14C exists; the byte there; a shorter image is the index error |
| CartridgeHeader.HeaderChecksum | pkg/cartridge/header.go:99-101 | defined exactly when 0x14D exists; the byte there; a shorter image is the index error |
| CartridgeHeader.GlobalChecksum | pkg/cartridge/header.go:103-105 | the high byte is at 0x14E and the low byte at 0x14F |
| CartridgeHeader.ByteFieldOffsets | pkg/cartridge/header.go:31-101 | on a full header every single-byte field reads its own offset |
| CartridgeHeader.EntryPointThenLogo | pkg/cartridge/header.go:11-17 | the entry point and the logo are adjacent and together cover 0x100..0x133 |
| CartridgeHeader.TitleBeforeManufacturer | pkg/cartridge/header.go:19-29 | the ten-byte title stops at 0x13D, one byte before the gap at 0x13E and the manufacturer code at 0x13F |
| CartridgeHeader.ColorFlagsExclusive | pkg/cartridge/header.go:35-43 | SupportsColor holds exactly for flag 0x80 and ColorOnly exactly for 0xC0, never both |
| CartridgeHeader.LicenseeBranch | pkg/cartridge/header.go:82-93 | the new two-byte code is used exactly when the old code is 0x33, otherwise the old code byte |
| CartridgeHeader.SliceReachesSpareCapacity | pkg/cartridge/header.go:19-33 | with a 0x140-byte image and spare capacity, the title slice succeeds, the manufacturer code ends in spare bytes, and the index at 0x143 fails |
| CartridgeHeader.ShortImage | pkg/cartridge/header.go:58-105 | an image ending at 0x147 has a cartridge type but fails on the ROM size and the global checksum |
| CartCartridge.FromBytes | pkg/cart/cartridge.go:22-27 | always succeeds, and the size is the image's length |
| CartCartridge.Read | pkg/cart/cartridge.go:43-45 | succeeds exactly for an address inside the image, giving the image byte at that address; past its end the index error |
| CartCartridge.Write | pkg/cart/cartridge.go:47-49 | always "not implemented" |
| CartCartridge.FromBytesThenRead | pkg/cart/cartridge.go:22-45 | a cartridge made from an image reads back each of its bytes and fails past its end |
| CartChecksum.CalculateHeaderCheckSum | pkg/cart/checksum.go:4-13 | the loop computes the same header checksum as the other package's definition |
| CartChecksum.IsValidHeaderCheckSum | pkg/cart/checksum.go:15-17 | defined exactly when 0x14D exists; true exactly when the computed checksum equals the byte there |
| CartChecksum.CalculateGlobalCheckSum | pkg/cart/checksum.go:21-33 | the loop computes the 16-bit wrapping sum of every byte except 0x14E and 0x14F |
| CartChecksum.IsValidGlobalCheckSum | pkg/cart/checksum.go:35-37 | defined exactly when 0x14F exists; true exactly when the sum equals the big-endian word at 0x14E |
| CartChecksum.AgreesWithCartridge | pkg/cart/checksum.go:4-37 | both packages give the same verdict on the header and the global checksum of any image, whatever spare capacity lies past it |
| CpuOperationsAlu.CarryIn | pkg/cpu/operations.go:260-263 | the carry taken in is 1 exactly when flag C is set, and 0 otherwise |
| CpuOperationsAlu.INC | pkg/cpu/operations.go:28-45 | the outcome and new machine are those of the INC specification |
| CpuOperationsAlu.DEC | pkg/cpu/operations.go:48-65 | the outcome and new machine are those of the DEC specification |
| CpuOperationsAlu.ADD | pkg/cpu/operations.go:230-253 | the outcome and new machine are those of the ADD specification |
| CpuOperationsAlu.ADC | pkg/cpu/operations.go:256-272 | the outcome and new machine are those of the ADC specification |
| CpuOperationsAlu.SUB | pkg/cpu/operations.go:275-286 | the outcome and new machine are those of the SUB specification |
| CpuOperationsAlu.SBC | pkg/cpu/operations.go:289-305 | the outcome and new machine are those of the corrected SBC specification, which subtracts the operand and the carry |
| CpuOperationsAlu.AND | pkg/cpu/operations.go:308-317 | the outcome and new machine are those of the AND specification |
| CpuOperationsAlu.OR | pkg/cpu/operations.go:320-329 | the outcome and new machine are those of the OR specification |
| CpuOperationsAlu.XOR | pkg/cpu/operations.go:332-341 | the outcome and new machine are those of the XOR specification |
| CpuOperationsAlu.CP | pkg/cpu/operations.go:344-354 | the outcome and new machine are those of the CP specification |
| CpuOperationsAlu.IncRegister | pkg/cpu/operations.go:28-45 | INC of a register stores the register plus one, wrapping at the register's width |
| CpuOperationsAlu.DecRegister | pkg/cpu/operations.go:48-65 | DEC of a register stores the register minus one, wrapping at the register's width |
| CpuOperationsAlu.IncDecFlagsFrame | pkg/cpu/operations.go:42-64 | the INC and DEC flag updates change only F |
| CpuOperationsAlu.IncByte | pkg/cpu/operations.go:28-45 | INC of an 8-bit register passes, leaves memory alone and adds one to the byte, wrapping |
| CpuOperationsAlu.IncByteFlags | pkg/cpu/operations.go:42-44 | after INC of an 8-bit register, Z says the byte is 0, N is clear, H says the low nibble is 0, and C is kept |
| CpuOperationsAlu.DecByteFlags | pkg/cpu/operations.go:62-64 | after DEC of an 8-bit register, Z says the byte is 0, N is set, H says the low nibble is 0xF, and C is kept |
| CpuOperationsAlu.DecAfterIncByte | pkg/cpu/operations.go:28-65 | DEC after INC of an 8-bit register gives the register back |
| CpuOperationsAlu.IncPair | pkg/cpu/operations.go:36-40 | INC of a register pair or SP adds one and sets no flag |
| CpuOperationsAlu.DecPair | pkg/cpu/operations.go:56-60 | DEC of a register pair or SP subtracts one and sets no flag |
| CpuOperationsAlu.IncWide | pkg/cpu/operations.go:28-40 | INC of a register pair is the 16-bit sum with 1, and F is unchanged |
| CpuOperationsAlu.DecAfterIncWide | pkg/cpu/operations.go:28-65 | DEC after INC of a register pair or SP gives back the whole machine |
| CpuOperationsAlu.AddRegisters | pkg/cpu/operations.go:230-236 | ADD of two registers stores their wrapping sum in the destination |
| CpuOperationsAlu.AddByte | pkg/cpu/operations.go:230-253 | 8-bit ADD stores the byte sum in A; C is the carry out of bit 7, Z says A is 0, N is clear |
| CpuOperationsAlu.AddWide | pkg/cpu/operations.go:245-247 | ADD HL stores the 16-bit sum; C is the carry out of bit 15 and H the carry out of bit 11; Z is kept |
| CpuOperationsAlu.AddSP | pkg/cpu/operations.go:239-243 | ADD SP,n passes, adds the operand to SP, and clears Z and N |
| CpuOperationsAlu.AdcByte | pkg/cpu/operations.go:256-272 | ADC of a byte register stores the byte sum of A, the operand and the carry; C is that sum's carry out |
| CpuOperationsAlu.SubByte | pkg/cpu/operations.go:275-286 | SUB stores the byte difference in A; C says A is below the operand and Z that they are equal |
| CpuOperationsAlu.SubSelf | pkg/cpu/operations.go:275-286 | SUB A gives 0 with Z and N set and H and C clear |
| CpuOperationsAlu.CpIsSubWithoutStore | pkg/cpu/operations.go:275-354 | CP has the outcome and flags of SUB but keeps A |
| CpuOperationsAlu.CpByte | pkg/cpu/operations.go:344-354 | CP keeps A; Z says A equals the operand and C says A is below it |
| CpuOperationsAlu.SbcByte | pkg/cpu/operations.go:289-305 | the corrected SBC stores the byte difference of A, the operand and the carry; C is that difference's borrow |
| CpuOperationsAlu.SbcAsWrittenIgnoresOperand | pkg/cpu/operations.go:289-305 | SBC as written, reading A as its operand and adding the carry, always leaves the carry in A |
| CpuOperationsAlu.SbcAsWrittenExample | pkg/cpu/operations.go:289-305 | with A = 5, B = 1 and C set, SBC A,B as written gives 1 and the corrected form gives 3 |
| CpuOperationsAlu.IncAtHL | pkg/cpu/operations.go:28-45 | INC (HL) passes, adds one to the byte at HL, changes no other byte and no register but F |
| CpuOperationsAlu.LogicFlagsFields | pkg/cpu/operations.go:311-340 | after AND, OR or XOR, Z says A is 0, N and C are clear, H is set only by AND, and only F changes |
| CpuOperationsAlu.XorSelf | pkg/cpu/operations.go:332-341 | XOR A clears A and sets Z, and clears N, H and C |
| CpuOperationsAlu.XorStep | pkg/cpu/operations.go:332-341 | XOR stores A xor the operand's low byte and leaves the operand register alone |
| CpuOperationsAlu.XorTwice | pkg/cpu/operations.go:332-341 | XOR with the same register twice gives A back |
| CpuOperationsAlu.AndTestsA | pkg/cpu/operations.go:308-317 | AND A keeps A, Z says A is 0, and H is set |
| CpuOperationsAlu.OrTestsA | pkg/cpu/operations.go:320-329 | OR A keeps A, Z says A is 0, and H is clear |
| CpuOperationsAlu.AndStep | pkg/cpu/operations.go:308-317 | AND stores A and the operand's low byte, and leaves the operand register alone |
| CpuOperationsAlu.AndTwice | pkg/cpu/operations.go:308-317 | AND with the same register is idempotent |
| CpuOperationsAlu.OrStep | pkg/cpu/operations.go:320-329 | OR stores A or the operand's low byte, and leaves the operand register alone |
| CpuOperationsAlu.OrTwice | pkg/cpu/operations.go:320-329 | OR with the same register is idempotent |
| CpuOperationsBits.RotateLeftCircular | pkg/cpu/operations.go:357-368 | the byte rotated left by one place |
| CpuOperationsBits.RotateRightCircular | pkg/cpu/operations.go:371-382 | the byte rotated right by one place |
| CpuOperationsBits.RotateLeftThrough | pkg/cpu/operations.go:385-397 | bits 0-6 move up one place and the carry enters bit 0 |
| CpuOperationsBits.RotateRightThrough | pkg/cpu/operations.go:400-412 | bits 1-7 move down one place and the carry enters bit 7 |
| CpuOperationsBits.ShiftLeftArithmetic | pkg/cpu/operations.go:587-595 | bits 0-6 move up one place and bit 0 becomes 0 |
| CpuOperationsBits.ShiftRightArithmetic | pkg/cpu/operations.go:598-606 | bits 1-7 move down one place and bit 7 keeps its value |
| CpuOperationsBits.ShiftRightLogical | pkg/cpu/operations.go:609-617 | bits 1-7 move down one place and bit 7 becomes 0 |
| CpuOperationsBits.SwapNibbles | pkg/cpu/operations.go:620-633 | the high and low nibbles trade places, which is a rotation by four |
| CpuOperationsBits.BitWritten | pkg/cpu/operations.go:500-526 | bit n takes the given value and every other bit is kept |
| CpuOperationsBits.RLCA | pkg/cpu/operations.go:357-368 | A is rotated left, C takes the old bit 7, and the other flags follow the rotate-and-shift rule |
| CpuOperationsBits.RRCA | pkg/cpu/operations.go:371-382 | A is rotated right, C takes the old bit 0 |
| CpuOperationsBits.RLA | pkg/cpu/operations.go:385-397 | A is rotated left through the carry |
| CpuOperationsBits.RRA | pkg/cpu/operations.go:400-412 | A is rotated right through the carry |
| CpuOperationsBits.DAA | pkg/cpu/operations.go:415-454 | A and the flags become those of the DAA specification |
| CpuOperationsBits.DaaCorrection | pkg/cpu/operations.go:421-446 | the correction is 0x06 and/or 0x60, chosen from H, C and, after an addition, from the digits of A |
| CpuOperationsBits.CPL | pkg/cpu/operations.go:457-464 | A is complemented and N and H are set |
| CpuOperationsBits.SCF | pkg/cpu/operations.go:467-472 | C is set and N and H are cleared |
| CpuOperationsBits.CCF | pkg/cpu/operations.go:475-480 | C is inverted and N and H are cleared |
| CpuOperationsBits.BIT | pkg/cpu/operations.go:486-497 | the outcome and new machine are those of the BIT specification |
| CpuOperationsBits.RES | pkg/cpu/operations.go:500-515 | the outcome and new machine are those of the corrected RES specification, which writes (HL) back to HL |
| CpuOperationsBits.SET | pkg/cpu/operations.go:518-526 | the outcome and new machine are those of the SET specification |
| CpuOperationsBits.RLC | pkg/cpu/operations.go:529-540 | the outcome and new machine are those of the shift specification for RLC |
| CpuOperationsBits.RL | pkg/cpu/operations.go:543-555 | the outcome and new machine are those of the shift specification for RL |
| CpuOperationsBits.RRC | pkg/cpu/operations.go:558-569 | the outcome and new machine are those of the shift specification for RRC |
| CpuOperationsBits.RR | pkg/cpu/operations.go:572-584 | the outcome and new machine are those of the shift specification for RR |
| CpuOperationsBits.SLA | pkg/cpu/operations.go:587-595 | the outcome and new machine are those of the shift specification for SLA |
| CpuOperationsBits.SRA | pkg/cpu/operations.go:598-606 | the outcome and new machine are those of the shift specification for SRA |
| CpuOperationsBits.SRL | pkg/cpu/operations.go:609-617 | the outcome and new machine are those of the shift specification for SRL |
| CpuOperationsBits.SWAP | pkg/cpu/operations.go:620-633 | the outcome and new machine are those of the shift specification for SWAP, with C cleared |
| CpuOperationsBits.RotateCircularInverse | pkg/cpu/operations.go:357-382 | the left and right circular rotates undo each other |
| CpuOperationsBits.RotateThroughInverse | pkg/cpu/operations.go:385-412 | rotating through the carry left and then right, with the bit that left, gives the byte back |
| CpuOperationsBits.SwapInvolution | pkg/cpu/operations.go:620-633 | swapping the nibbles twice gives the byte back |
| CpuOperationsBits.ShiftArithmetic | pkg/cpu/operations.go:587-617 | SLA doubles the byte modulo 256 and SRL halves it |
| CpuOperationsBits.ShiftLeftThenRight | pkg/cpu/operations.go:587-617 | SRL after SLA clears bit 7 and keeps the rest |
| CpuOperationsBits.DaaAfterAddition | pkg/cpu/operations.go:415-454 | after adding two BCD bytes, DAA gives their decimal sum and C says the sum passed 99 |
| CpuOperationsBits.DaaAfterSubtraction | pkg/cpu/operations.go:415-454 | after subtracting two BCD bytes, DAA gives their decimal difference and C says a borrow happened |
| CpuOperationsBits.DaaFlags | pkg/cpu/operations.go:450-453 | after DAA, Z says A is 0, N is kept, H is clear, and C says the correction reached 0x60 |
| CpuOperationsBits.ShiftStoreRegister | pkg/cpu/operations.go:537-539 | storing a shifted byte in a register sets Z from the byte, clears N and H, and sets C to the bit shifted out |
| CpuOperationsBits.ShiftRegister | pkg/cpu/operations.go:529-633 | every CB shift of a register passes, stores the shifted byte, sets the flags from it and leaves memory alone |
| CpuOperationsBits.RlcThenRrc | pkg/cpu/operations.go:529-569 | RRC after RLC gives the register back |
| CpuOperationsBits.RlThenRr | pkg/cpu/operations.go:543-584 | RR after RL gives the register and the carry back |
| CpuOperationsBits.SwapTwice | pkg/cpu/operations.go:620-633 | SWAP twice gives the register back |
| CpuOperationsBits.SlaThenSrl | pkg/cpu/operations.go:587-617 | SRL after SLA gives the register with bit 7 cleared |
| CpuOperationsBits.ShiftAtHL | pkg/cpu/operations.go:529-633 | a CB shift of (HL) passes and writes the shifted byte to HL |
| CpuOperationsBits.RotateAIsShiftA | pkg/cpu/operations.go:357-412 | the A-only rotates have the same effect on the registers as the CB rotates of A |
| CpuOperationsBits.RotateAInverse | pkg/cpu/operations.go:357-412 | RRCA after RLCA, and RRA after RLA, give A back; RRA after RLA also restores C |
| CpuOperationsBits.CplTwice | pkg/cpu/operations.go:457-464 | CPL twice gives A back; CPL sets N and H and keeps Z and C |
| CpuOperationsBits.CcfTwice | pkg/cpu/operations.go:475-480 | CCF inverts C, clears N and H, keeps Z and A, and twice gives C back |
| CpuOperationsBits.ScfThenCcf | pkg/cpu/operations.go:467-480 | SCF sets C, keeps Z and A, and CCF after it clears C |
| CpuOperationsBits.BitRegister | pkg/cpu/operations.go:486-497 | BIT n,r passes; Z says bit n of the register is 0; N is clear, H is set, C, A and memory are kept |
| CpuOperationsBits.BitWriteRegister | pkg/cpu/operations.go:500-526 | RES and SET of a register pass, give bit n the chosen value and leave memory alone |
| CpuOperationsBits.BitWriteKeepsFlags | pkg/cpu/operations.go:500-526 | RES and SET of a register leave the flags alone |
| CpuOperationsBits.BitWriteOtherBits | pkg/cpu/operations.go:500-526 | RES and SET of a register keep every bit but bit n |
| CpuOperationsBits.SetThenBit | pkg/cpu/operations.go:486-526 | BIT n after SET n finds the bit set |
| CpuOperationsBits.ResThenBit | pkg/cpu/operations.go:486-515 | BIT n after RES n finds the bit clear |
| CpuOperationsBits.BitWriteAtHL | pkg/cpu/operations.go:500-526 | the corrected RES and SET of (HL) write the new byte at HL and nowhere else |
| CpuOperationsBits.ResAsWrittenAtHL | pkg/cpu/operations.go:500-515 | RES n,(HL) as written writes the cleared byte at the address equal to the byte it read |
| CpuOperationsBits.ResAsWrittenMissesOperand | pkg/cpu/operations.go:500-515 | with HL = 0xC000 holding 0xFF, RES 0,(HL) as written leaves 0xC000 unchanged and writes 0xFE to 0x00FF |
| CpuOperationsControl.JpConditional | pkg/cpu/operations.go:68-80 | JP cc,a16 passes; PC is the target when the condition holds and just past the operand when it fails |
| CpuOperationsControl.JpAlways | pkg/cpu/operations.go:68-80 | JP a16 changes nothing but PC, which becomes the target |
| CpuOperationsControl.JrRelative | pkg/cpu/operations.go:83-95 | JR adds the sign-extended offset to PC after the offset byte |
| CpuOperationsControl.CallTaken | pkg/cpu/operations.go:98-111 | a taken CALL jumps to the target and lowers SP by 2 |
| CpuOperationsControl.CallPushesReturn | pkg/cpu/operations.go:98-111 | a taken CALL pushes the address after its operand |
| CpuOperationsControl.CallNotTaken | pkg/cpu/operations.go:98-111 | a CALL whose condition fails only steps PC past its operand |
| CpuOperationsControl.RstVector | pkg/cpu/operations.go:114-119 | RST n jumps to n and pushes the old PC |
| CpuOperationsControl.RetConditional | pkg/cpu/operations.go:122-133 | RET cc changes nothing when the condition fails, and otherwise pops PC and raises SP by 2 |
| CpuOperationsControl.CallThenRet | pkg/cpu/operations.go:98-133 | RET after CALL returns to the instruction after the call with SP restored |
| CpuOperationsControl.RetiEnables | pkg/cpu/operations.go:136-140 | RETI sets IME, pops PC and raises SP by 2 |
| CpuOperationsControl.EiDiDeferred | pkg/cpu/operations.go:143-150 | EI and DI leave IME alone and only schedule the change |
| CpuOperationsControl.NOP | pkg/cpu/operations.go:13 | nothing changes |
| CpuOperationsControl.STOP | pkg/cpu/operations.go:16-20 | always "not implemented", and nothing changes |
| CpuOperationsControl.HALT | pkg/cpu/operations.go:23-25 | only the halted flag changes, and it is set |
| CpuOperationsControl.JP | pkg/cpu/operations.go:68-80 | the outcome and new machine are those of the JP specification |
| CpuOperationsControl.JR | pkg/cpu/operations.go:83-95 | the outcome and new machine are those of the JR specification |
| CpuOperationsControl.CALL | pkg/cpu/operations.go:98-111 | the outcome and new machine are those of the CALL specification |
| CpuOperationsControl.RST | pkg/cpu/operations.go:114-119 | the outcome and new machine are those of the RST specification |
| CpuOperationsControl.RET | pkg/cpu/operations.go:122-133 | the new machine is that of the RET specification |
| CpuOperationsControl.RETI | pkg/cpu/operations.go:136-140 | the new machine is that of the RETI specification |
| CpuOperationsControl.DI | pkg/cpu/operations.go:143-145 | only the DI schedule changes, to "set next" |
| CpuOperationsControl.EI | pkg/cpu/operations.go:148-150 | only the EI schedule changes, to "set next" |
| CpuOperationsControl.PREFIX | pkg/cpu/operations.go:483 | nothing changes |
| CpuOperationsControl.Illegal | pkg/cpu/operations.go:636-688 | always the illegal-instruction error for its opcode, and nothing changes |
| CpuOperationsLoad.AdjustHLStep | pkg/cpu/operations.go:186-200 | one turn of LD's loop extends the HL adjustment over the operands seen so far by the next operand |
| CpuOperationsLoad.AdjustHLPair | pkg/cpu/operations.go:186-200 | over two operands the loop adjusts for the destination and then for the source |
| CpuOperationsLoad.AdjustHLWithoutHL | pkg/cpu/operations.go:186-200 | operands that do not name HL leave the registers unchanged |
| CpuOperationsLoad.LdImmediate | pkg/cpu/operations.go:173-183 | LD r,d8 passes, puts the byte after the opcode in r, and moves PC past it |
| CpuOperationsLoad.LdHLIncrementStores | pkg/cpu/operations.go:173-200 | LD (HL+),A passes and stores A at the address HL held |
| CpuOperationsLoad.LdHLIncrementMoves | pkg/cpu/operations.go:186-200 | LD (HL+),A then moves HL up by one and changes no other register |
| CpuOperationsLoad.LdHLDecrement | pkg/cpu/operations.go:173-200 | LD A,(HL-) loads the byte at HL into A and then moves HL down by one |
| CpuOperationsLoad.LdSPOffset | pkg/cpu/operations.go:157-171 | LD HL,SP+r8 puts SP plus the sign-extended offset in HL and clears Z and N |
| CpuOperationsLoad.LdSPOffsetCarries | pkg/cpu/operations.go:160-163 | its H is the carry out of bit 3 and its C the carry out of bit 7 of that sum |
| CpuOperationsLoad.LdNeedsTwo | pkg/cpu/operations.go:173-174 | LD with fewer than two operands fails with an index error and changes nothing |
| CpuOperationsLoad.LdhLoad | pkg/cpu/operations.go:205-208 | LDH A,(a8) loads A from 0xFF00 plus the operand byte and moves PC past it |
| CpuOperationsLoad.LdhStore | pkg/cpu/operations.go:209-213 | LDH (a8),A stores A at 0xFF00 plus the operand byte; only PC moves |
| CpuOperationsLoad.PopNeedsRegister | pkg/cpu/operations.go:217-218 | POP of an operand that is not a register fails the type assertion and changes nothing |
| CpuOperationsLoad.PushThenPop | pkg/cpu/operations.go:217-227 | POP after PUSH of the same register passes and gives every register back, AF included |
| CpuOperationsLoad.PushWrites | pkg/cpu/operations.go:224-227 | PUSH writes the register's word below SP and lowers SP by 2 |
| CpuOperationsLoad.LD | pkg/cpu/operations.go:153-201 | the outcome and new machine are those of the LD specification |
| CpuOperationsLoad.LDH | pkg/cpu/operations.go:204-214 | the outcome and new machine are those of the LDH specification |
| CpuOperationsLoad.POP | pkg/cpu/operations.go:217-221 | the outcome and new machine are those of the POP specification |
| CpuOperationsLoad.PUSH | pkg/cpu/operations.go:224-227 | the outcome and new machine are those of the PUSH specification |
| CpuProcess.ConditionOf | pkg/cpu/process.go:49-51 | fails with an operand error exactly when the symbol is not a condition; otherwise the condition's truth |
| CpuProcess.Process | pkg/cpu/process.go:13-42 | the result and new state are those of the Process specification |
| CpuProcess.ProcessDispatch | pkg/cpu/process.go:13-42 | Process reports "not implemented" exactly for the mnemonics it does not dispatch, and then changes nothing; every dispatched handler gives 4 ticks or an operand or index error |
| CpuProcess.Jumper | pkg/cpu/process.go:45-75 | the result and new state are those of the jumper specification |
| CpuProcess.NOP | pkg/cpu/process.go:78-80 | 4 ticks and nothing changes |
| CpuProcess.INC | pkg/cpu/process.go:83-90 | the result and new state are those of the INC specification |
| CpuProcess.DEC | pkg/cpu/process.go:93-100 | the result and new state are those of the DEC specification |
| CpuProcess.JP | pkg/cpu/process.go:103-108 | jumper, neither relative nor pushing |
| CpuProcess.JR | pkg/cpu/process.go:111-116 | jumper, relative |
| CpuProcess.CALL | pkg/cpu/process.go:119-124 | jumper, pushing PC |
| CpuProcess.RET | pkg/cpu/process.go:127-141 | the result and new state are those of the RET specification |
| CpuProcess.RETI | pkg/cpu/process.go:144-152 | the result and new state are those of the RETI specification |
| CpuProcess.DI | pkg/cpu/process.go:155-158 | IME is cleared at once |
| CpuProcess.EI | pkg/cpu/process.go:161-164 | IME is set at once |
| CpuProcess.XOR | pkg/cpu/process.go:167-182 | the result and new state are those of the XOR specification |
| CpuProcess.LD | pkg/cpu/process.go:185-249 | the result and new state are those of the LD specification |
| CpuProcess.LdOffset | pkg/cpu/process.go:189-211 | the result and new state are those of the LD HL,SP+r8 specification |
| CpuProcess.LDH | pkg/cpu/process.go:252-268 | the result and new state are those of the LDH specification |
| CpuProcess.POP | pkg/cpu/process.go:271-283 | the result and new state are those of the POP specification |
| CpuProcess.PUSH | pkg/cpu/process.go:286-291 | the result and new state are those of the PUSH specification |
| CpuProcess.ValueOfError | pkg/cpu/cpu.go:46-65 | ValueOf fails, with an operand error, exactly on operands that are neither data, a register nor a byte |
| CpuProcess.JumperHandled | pkg/cpu/process.go:45-75 | jumper gives 4 ticks or an operand or index error |
| CpuProcess.RetHandled | pkg/cpu/process.go:127-152 | RET and RETI give 4 ticks or an operand or index error |
| CpuProcess.XorHandled | pkg/cpu/process.go:167-182 | XOR gives 4 ticks or an operand or index error |
| CpuProcess.LdHandled | pkg/cpu/process.go:185-249 | LD gives 4 ticks or an operand or index error |
| CpuProcess.LdhHandled | pkg/cpu/process.go:252-268 | LDH gives 4 ticks or an operand or index error |
| CpuProcess.JumpNotTaken | pkg/cpu/process.go:49-54 | a conditional jump whose condition fails returns 4 before reading its operand, so nothing changes, PC included |
| CpuProcess.JpNotTakenStaysOnOperand | pkg/cpu/process.go:49-54 | with Z set, JP NZ,a16 leaves PC on the operand, where JP of operations.go moves past it |
| CpuProcess.JpTaken | pkg/cpu/process.go:45-75 | JP a16, and JP cc,a16 when the condition holds, set PC to the word after the opcode and change nothing else |
| CpuProcess.JrRelativeTarget | pkg/cpu/process.go:66-72 | JR r8 sets PC to the address after the offset plus the sign-extended offset |
| CpuProcess.CallPushes | pkg/cpu/process.go:61-72 | CALL a16 jumps to the operand, lowers SP by 2 and leaves the address after the operand on the stack |
| CpuProcess.CallThenRet | pkg/cpu/process.go:119-141 | RET after CALL a16 returns to the instruction after the call with SP restored |
| CpuProcess.RetNotTaken | pkg/cpu/process.go:127-136 | RET cc pops before testing, so when the condition fails SP has still moved up by 2, where RET of operations.go changes nothing |
| CpuProcess.RetTaken | pkg/cpu/process.go:127-141 | RET, and RET cc when the condition holds, pop PC and raise SP by 2; nothing else changes |
| CpuProcess.RetiEnables | pkg/cpu/process.go:144-152 | RETI is RET followed by setting IME |
| CpuProcess.DiEiImmediate | pkg/cpu/process.go:155-164 | DI and EI change IME at once and nothing else, and each undoes the other |
| CpuProcess.XorRegsFields | pkg/cpu/process.go:167-182 | A becomes A xor the byte; N, H and C are cleared; Z is set when A is 0 and otherwise kept; only A and F change |
| CpuProcess.XorSelf | pkg/cpu/process.go:167-182 | XOR A clears A, sets Z and leaves memory alone |
| CpuProcess.XorKeepsStaleZero | pkg/cpu/process.go:171-174 | with A = 1, B = 0 and Z set, XOR B gives A = 1 with Z still set |
| CpuProcess.IncDecKeepFlags | pkg/cpu/process.go:83-100 | INC and DEC of a register other than F and AF leave the flags alone |
| CpuProcess.IncThenDecWide | pkg/cpu/process.go:83-100 | DEC after INC of BC, DE, HL or SP gives back the whole machine |
| CpuProcess.IncThenDecByte | pkg/cpu/process.go:83-100 | DEC after INC of an 8-bit register other than F gives back the whole machine |
| CpuProcess.LdHLDecrement | pkg/cpu/process.go:213-246 | LD A,(HL-) loads the byte at HL into A and then moves HL down by one |
| CpuProcess.LdHLIncrement | pkg/cpu/process.go:213-246 | LD (HL+),A stores A at the address named by the byte HL points at, then moves HL up by one |
| CpuProcess.LdDerefMissesAddress | pkg/cpu/process.go:218-225 | with HL = 0xC000 holding 0x12, LD (HL+),A writes A to 0x0012 and leaves 0xC000, where LD of operations.go writes A to 0xC000 |
| CpuProcess.LdOffsetRegsFields | pkg/cpu/process.go:189-211 | HL becomes SP plus the offset; Z and N are cleared; H and C are set on their carries and otherwise kept |
| CpuProcess.LdOffsetZeroExtends | pkg/cpu/process.go:189-211 | LD HL,SP+r8 adds the offset byte zero-extended |
| CpuProcess.LdOffsetMissesNegative | pkg/cpu/process.go:190-208 | with SP = 0xFFFE and offset 0xFF, HL becomes 0x00FD, where the sign-extending LD gives 0xFFFD |
| CpuProcess.HighPageOffset | pkg/cpu/process.go:259-264 | the high-page address is 0xFF00 plus the byte |
| CpuProcess.LdhRead | pkg/cpu/process.go:256-259 | LDH A,(a8) loads A from the high page and moves PC past a8 |
| CpuProcess.LdhWrite | pkg/cpu/process.go:261-265 | LDH (a8),A stores A in the high page and moves PC past a8 |
| CpuProcess.PopAFClearsLowNibble | pkg/cpu/process.go:274-276 | POP AF passes, A takes the high byte from the stack and the low nibble of F is cleared |
| CpuProcess.PushThenPop | pkg/cpu/process.go:271-291 | POP after PUSH gives BC, DE or HL back, and AF with the low nibble of F cleared |
| Cpu.CPU.Write8 | pkg/cpu/process.go:224 | (`Write8`, called here) only the byte at the address changes, and it takes the value |
| Cpu.CPU.Write16 | pkg/cpu/process.go:222 | (`Write16`, called here) only the two bytes at the address and the next change, low byte first |
| CpuMemory.Load16AfterStore | pkg/cpu/cpu.go:37-43 | a written byte reads back as the low half of the word at its address and the high half of the word before it |
| CpuMemory.Load16Bytes | pkg/cpu/cpu.go:37-43 | two bytes laid out low byte first read back as the word they came from |
| CpuRegisters.Registers.Set | pkg/cpu/operations.go:237 | (`Registers.Set`, called here) the new register file is the old one with the register stored |
| CpuRegisters.Registers.SetFlagTo | pkg/cpu/operations.go:42-44 | (the two-argument `SetFlag`, called here) the new register file is the old one with the flag set to the given value |
| CpuRegisters.Registers.SetRotateAndShiftFlags | pkg/cpu/operations.go:367 | (`SetRotateAndShiftFlags`, called here) the new register file has Z from the result, N and H clear and C the carry out |
| CpuRegisters.Registers.constructor | pkg/cpu/cpu.go:20-27 | the register file holds exactly the initial values |
| CpuAccess.Get | pkg/cpu/operations.go:30 | (`cpu.Get`, called here) the value and new state are those of the operand-read specification |
| CpuAccess.Set | pkg/cpu/operations.go:34 | (`cpu.Set`, called here) the outcome and new state are those of the operand-store specification |
| CpuAccess.SetFailsExactly | pkg/cpu/operations.go:34 | a store fails exactly on bytes, conditions and plain operands that are not registers |
| CpuAccess.SetGetDeref | pkg/cpu/operations.go:28-34 | a store through (r) writes the low byte there and changes no register, and a read through (r) gives it back |
| CpuAccess.GetWithoutFetch | pkg/cpu/operations.go:30 | reading a register, byte or condition operand leaves the machine as it was |
| MmuMmu.ReadFrom | pkg/mmu/mmu.go:39-46 | a no-op region reads 0; a read can fail only with the access error, or with the index error in the cartridge |
| MmuMmu.WriteTo | pkg/mmu/mmu.go:55-62 | the cartridge and no-op regions leave the bus unchanged |
| MmuMmu.WramWrite | pkg/mmu/mmu.go:55-62 | a byte write in work RAM changes exactly the address's cell |
| MmuMmu.HramWrite | pkg/mmu/mmu.go:55-62 | a byte write in high RAM changes exactly the address's cell |
| CpuResolve.ResolveRegister | pkg/cpu/resolve.go:55-88 | an 8-bit register resolves below 0x100 |

## Left out

- main.go, pkg/ui/sdl.go, internal/pretty and internal/debug: the command line, the SDL window and printing are I/O.
- pkg/emulator/emulator.go and pkg/dmg/emulator.go: the run loops only sequence the modelled steps and print.
- pkg/errors/errors.go: only the error kinds are modelled, not their message formatting.
- pkg/cartridge/constants.go: the licensee and cartridge-type name tables only feed display.
- FromFile, PrettyPrint, TitleString, NewLicenseeString and OldLicenseeString: file reading and display text; the capacity os.ReadFile leaves past the image is the `spare` argument of CartridgeCartridge.FromBytes.
- The `Printf` calls in the noop region and the debug serial port: the byte that would be printed is a returned value instead.
- The test files of the repository.
- Interrupt servicing (pushing PC and jumping to a vector), the EI/DI countdown and cycle timing: no modelled handler performs them, so neither does the model.
- cpu.Get/Set, Registers.Get/Set, SetFlag(flag, bool), IsCondition, SetRotateAndShiftFlags, CPU.Read8/Read16/Write8/Write16 and Halted: the bodies of these helpers are not modelled; they are given the behaviour their callers rely on.
- pkg/cart HeaderChecksum, GlobalChecksum and ShouldUseNewLicenseeCode are not modelled; they are given the bodies their pkg/cartridge counterparts have.
- The memory behind CPU.Read8/Write8 is one flat 64 KiB memory, so the model does not capture aliasing between the CPU's view and an MMU region.
- RegistersForDMG is not part of this model: the CPU constructor takes the power-up register values as a parameter.
- CpuProcess: a conditional instruction whose first operand is not a condition fails with an invalid-operand error; in Go the type assertion yields the zero value and IsCondition, which is not part of this model, decides.
- TimerTimer.Timer.Tick: counts TIMA on the documented falling edge; the comparisons with 1 as written are TickAsWritten (see Findings).
- InstructionsOpcodes.FromOPCode: looks plain opcodes up in the table with the carry condition corrected; the table as written is Unprefixed (see Findings).
- CpuRegisters.Registers.SetAF and ProcessorRegisters.Registers.SetAF: store all eight bits of F, as pkg/cpu/registers.go:35-38 and pkg/processor/registers.go:33-36 do; only POP AF in pkg/cpu/process.go clears the low nibble. Pan Docs ("CPU Registers and Flags", which pkg/cpu/registers.go:5 links) has the low nibble of F always read as zero.
- CpuProcess.EI: sets IME at once, as pkg/cpu/process.go does; the operations.go handler only schedules it, and Pan Docs ("Interrupts") has EI take effect after the next instruction.
- CpuProcess.LdOffset: zero-extends r8, as pkg/cpu/process.go does; Pan Docs ("CPU Instruction Set") has LD HL,SP+e8 add a signed offset (see Findings).
- CpuOperationsAlu.SBC: the method carries the corrected SBC (SbcSpec: A minus the second operand minus the carry), not the code as written, which subtracts A from itself and adds the carry; the as-written form is SbcAsWrittenSpec (see Findings).
- CpuOperationsBits.RES: the method carries the corrected RES (BitWriteSpec with the bit cleared, writing (HL) back at HL), not the code as written, which writes at the address equal to the byte it read; the as-written form is ResAsWrittenSpec (see Findings).
- CpuOperand.Symbol: the data kinds (d8, d16, r8) and address kinds (a8, a16) are closed datatypes, so the `default: panic(NewInvalidSymbolError)` branches of Data.Resolve and Address.Resolve (pkg/cpu/symbol.go:51-52 and 75-76) cannot be reached and are not modelled.
- CpuProcess.INC: a first operand that is not a register fails with an invalid-operand error; pkg/cpu/process.go:84 uses a comma-ok assertion, which does not panic but passes the empty register name on to Registers.Get and Registers.Set, whose behaviour on it is not part of this model.
- CpuProcess.DEC: as for INC, after the comma-ok assertion at pkg/cpu/process.go:94.
- CpuProcess.POP: as for INC, after the comma-ok assertion at pkg/cpu/process.go:278; the failure comes after the pop, so SP has moved up by 2, as it has in Go.
- CpuResolve.ResolveValue, CpuResolve.ResolveData and CpuResolve.ResolveRegister: the generic result type T of pkg/cpu/resolve.go is fixed at uint16; an instantiation at byte, which would truncate every value to its low byte, is not modelled.

## Findings

| source | as written | input that shows it | evidently intended | confidence | as-written member | corrected member |
|---|---|---|---|---|---|---|
| pkg/cpu/operations.go:289-305 | SBC takes the subtrahend from its first operand, which is A itself, and adds the carry instead of subtracting it | A=5, B=1, C flag set: SBC A,B gives 1 | A - B - carry, that is 3 | not executed | CpuOperationsAlu.SbcAsWrittenExample | CpuOperationsAlu.SbcByte |
| pkg/cpu/operations.go:500-515 | RES n,(HL) writes the cleared byte at the address given by the byte it read, not at HL | HL=0xC000 holding 0xFF: RES 0,(HL) writes 0xFE to 0x00FF and leaves 0xC000 | the byte at HL becomes 0xFE | not executed | CpuOperationsBits.ResAsWrittenMissesOperand | CpuOperationsBits.BitWriteAtHL |
| pkg/timer/timer.go:54-68 | the edge test and the enable test compare a single set bit with 1, which never holds, so TIMA never counts | DIV 0x000F, TAC 0x05: the tick leaves TIMA at 0 | TIMA counts to 1 on the falling edge of DIV bit 3 | not executed | TimerTimer.TickMissesEdge | TimerTimer.IntendedCountsOnEdge |
| pkg/cpu/instructions.go:14-17 | the guard `opcode > len(table)` lets opcode 1 index a one-element table | opcode 0x01: index out of range | `>=`: no entry for opcode 1 | not executed | CpuInstructions.AsWrittenOffByOne | CpuInstructions.LookupFindsOnlyNop |
| pkg/instructions/opcodes.go:247-250 | JR C,r8 (0x38), and likewise RET C (0xD8) and CALL C,a16 (0xDC), name register C where 0xDA names the carry condition Ca | opcode 0x38: the first operand is register C, so the jump's condition is not a condition | the condition Ca | not executed | InstructionsOpcodes.CarryConditionWrittenAsRegister | InstructionsOpcodes.CorrectedConditionsAreConditions |
| pkg/cpu/process.go:49-54 | a conditional jump whose condition fails returns before reading its operand, so PC is left on the operand bytes | JP NZ,a16 with Z set | PC moves past the operand | not executed | CpuProcess.JpNotTakenStaysOnOperand | CpuOperationsControl.JpConditional |
| pkg/cpu/process.go:127-136 | RET cc pops the return address before testing the condition | RET NZ with Z set: SP grows by 2 | SP unchanged when the return is not taken | not executed | CpuProcess.RetNotTaken | CpuOperationsControl.RetConditional |
| pkg/cpu/process.go:171-174 | XOR only sets Z, never clears it | A=1, B=0, Z set: XOR B leaves Z set with A=1 | Z clear | not executed | CpuProcess.XorKeepsStaleZero | CpuOperationsAlu.LogicFlagsFields |
| pkg/cpu/process.go:190-208 | the offset r8 of LD HL,SP+r8 is zero-extended | SP=0xFFFE, r8=0xFF: HL becomes 0x00FD | 0xFFFD | not executed | CpuProcess.LdOffsetMissesNegative | CpuOperationsLoad.LdSPOffset |
| pkg/cpu/process.go:218-225 | LD (HL+),A reads its destination through ValueOf, so it stores at the address held in memory at HL | HL=0xC000 holding 0x12: A is written to 0x0012 | A is written to 0xC000 | not executed | CpuProcess.LdDerefMissesAddress | CpuOperationsLoad.LdHLIncrementStores |
