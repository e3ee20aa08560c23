# LS-8 virtual CPU in Dafny

This project models the LS-8 virtual CPU of `ls8/cpu.c` and proves properties of it. The CPU has:

- 256 bytes of RAM;
- eight byte registers, of which R7 is the stack pointer;
- a program counter (PC);
- an unused FL byte and three condition flags: E (equal), L (less) and G (greater);
- a fetch-decode-execute loop that runs until HLT.

The project is made of these files:

- `isa.dfy` (module `Isa`): the `byte` type and its truncation `Wrap`, the opcode table (`Encode`/`Decode`), and the width decode from bits 0x80 and 0x40 (`Width`).
- `machine.dfy` (module `Machine`): the machine as values. It holds the `State`, the ALU, one instruction (`Exec`), one cycle (`Step`), a fuel-bounded run (`Run`), `cpu_init` (`Init`) and the loader's placement of bytes (`Placed`, `Load`).
- `cpu.dfy` (module `Ls8`): the `struct cpu` as the class `Cpu`. RAM and the registers are arrays that its methods update in place. `Alu`, `Exec`, `Step`, `Run`, `Init` and `Load` are proved to have exactly the effect of the matching `Machine` function on the abstract state `Abs()`. `RamRead` is a function that returns the addressed cell. `RamWrite` has no `Machine` counterpart: its contract gives the new state directly, as the old state with one cell replaced.
- `properties.dfy` (module `Properties`): what each instruction changes and what it leaves alone, the PUSH/POP and CALL/RET round trips, how bounded runs compose, and where the loader puts each line.
- `scenarios.dfy` (module `Scenarios`): whole programs run after `cpu_init` and `cpu_load`.

Modelling decisions:

- **Opcode values.** `cpu.h`, which defines the opcode values and the struct, is not part of this model. The opcodes take the standard LS-8 values: LDI 0x82, PRN 0x47, HLT 0x01, ADD 0xA0, MUL 0xA2, CMP 0xA7, PUSH 0x45, POP 0x46, CALL 0x50 and RET 0x11. Their two high bits agree with the width decode. `Width`'s contract proves this for every opcode.
- **PC width.** The PC is taken to be an unsigned char, like every address, so `PC + width` wraps modulo 256.
- **Uninitialised operands.** The C code leaves `operandA` and `operandB` uninitialised when the width is too small. The model reads both operand bytes, but `Machine.ExecReadsOnlyItsOperands` proves that an instruction's effect depends only on the operand bytes its width covers. The class's `Step` reads operands only as the C code does.
- **Undefined behaviour.** Where the C program's behaviour is undefined, the model stops with status `Undefined` and leaves the state unchanged. This happens in two cases:
  - A register operand is outside 0..7. The C code indexes `registers[]` out of bounds.
  - PUSH names R7. Here `--cpu->registers[7]` and the read of `cpu->registers[operandA]` are unsequenced arguments of one call, which section 6.5 of the C11 standard makes undefined.

  POP R7 is defined, because the increment happens before the call and the assignment after it. The model increments the stack pointer and then stores the loaded byte in R7. CALL R7 jumps to the already-decremented stack pointer, as the two separate statements in the source say.
- **Output.** PRN appends the register's value to the output sequence `out`, which stands for the decimal lines printed on standard output.
- **CALL's return address.** CALL pushes `PC + next_line`, which is PC + 2, because CALL (0x50) takes one operand byte. `Properties.CallEffect` and `Properties.CallRetRoundTrip` state it.

## Model

| member | source | states |
|---|---|---|
| Ls8.Cpu.RamRead | ls8/cpu.c:8-11 | reading RAM returns the byte stored at that address |
| Ls8.Cpu.RamWrite | ls8/cpu.c:13-16 | writing RAM changes exactly the addressed cell to the value; nothing else in the CPU changes |
| Machine.Alu | ls8/cpu.c:51-84 | ADD and MUL leave the low byte of the sum or product in register A, with every other register, the RAM, the PC, the flags and the output unchanged; CMP writes no register and turns on E, L or G as A = B, A < B or A > B, keeping every flag already set |
| Ls8.Cpu.Alu | ls8/cpu.c:51-84 | the in-place ALU has exactly the effect of Machine.Alu on the CPU state |
| Isa.Width | ls8/cpu.c:98-110 | the width is 1 to 3, and for every opcode of the table it is one plus the number of operand bytes that opcode reads |
| Isa.Decode | ls8/cpu.c:112-158 | a byte decodes to the instruction whose opcode it is, and to nothing exactly when it is no opcode of the table |
| Isa.DecodeEncode | ls8/cpu.c:112-158 | each instruction's opcode decodes back to that instruction, so the ten opcodes are distinct |
| Machine.ExecReadsOnlyItsOperands | ls8/cpu.c:96-110 | an instruction's effect does not depend on operand bytes its width leaves unread, so the uninitialised operands of the C code never matter |
| Machine.Exec | ls8/cpu.c:112-158 | every instruction keeps FL, never clears a flag, appends at most one output value, halts exactly for HLT, changes nothing when undefined, and, when defined and other than CALL and RET, leaves the PC at the next instruction, the instruction's address plus its decoded width (mod 256) |
| Ls8.Cpu.Exec | ls8/cpu.c:112-158 | the in-place switch has exactly the effect of Machine.Exec on the CPU state |
| Machine.Step | ls8/cpu.c:93-160 | one cycle keeps FL, never clears a flag, only appends output, halts exactly when the fetched byte is HLT, leaves the state unchanged when undefined (an out-of-range register operand, or PUSH R7), and, when defined and other than CALL and RET, advances the PC by the decoded width (mod 256) |
| Ls8.Cpu.Step | ls8/cpu.c:95-159 | one in-place cycle has exactly the effect of Machine.Step on the CPU state |
| Machine.Run | ls8/cpu.c:89-161 | a bounded run keeps FL, never clears a flag, appends at most one output value per cycle, and does nothing with no fuel |
| Ls8.Cpu.Run | ls8/cpu.c:89-161 | the in-place loop, stopped after at most `fuel` cycles, has exactly the effect of Machine.Run on the CPU state |
| Machine.Init | ls8/cpu.c:166-176 | after initialisation PC, FL, E, L and G are zero, R0 to R6 are zero, R7 is 0xF4, RAM cells 0 to 7 are zero, and the other cells are as they were |
| Ls8.Cpu.Init | ls8/cpu.c:166-176 | in-place initialisation has exactly the effect of Machine.Init on the CPU state |
| Machine.Placed | ls8/cpu.c:32-45 | a file never places more bytes than it has lines |
| Machine.PlacedPrefix | ls8/cpu.c:32-45 | what the first lines of a file place is a prefix of what the whole file places |
| Machine.PlacedNext | ls8/cpu.c:34-44 | each line appends its truncated value, or nothing if its parse consumed nothing, to what the earlier lines placed |
| Machine.PlacedLength | ls8/cpu.c:34-44 | the loader places exactly one byte per line whose parse consumed something, so the addresses used are 0 up to that count minus one |
| Machine.Load | ls8/cpu.c:32-45 | after loading, addresses 0 upwards hold the placed bytes and every other cell, register and flag is unchanged |
| Ls8.Cpu.Load | ls8/cpu.c:32-45 | the in-place `address++` loop has exactly the effect of Machine.Load |
| Properties.PlacedAt | ls8/cpu.c:37-44 | a line whose parse consumed something goes to the address equal to the number of bytes placed before it, truncated to a byte; a line that consumed nothing takes no address |
| Properties.PlacedFrom | ls8/cpu.c:37-44 | every placed byte comes, in order, from a line whose parse consumed something |
| Properties.LoadPlacesLine | ls8/cpu.c:32-45 | after loading, each parsed line's byte is in RAM at its address |
| Properties.AddEffect | ls8/cpu.c:59-61 | ADD sets register A to (A + B) mod 256; no other register, no RAM cell and no flag changes, and the PC advances by 3 |
| Properties.MulEffect | ls8/cpu.c:55-57 | MUL sets register A to (A * B) mod 256; no other register, no RAM cell and no flag changes, and the PC advances by 3 |
| Properties.CmpEffect | ls8/cpu.c:63-79 | CMP sets E, L or G by the comparison, leaves the other two flags as they were, writes no register or RAM, and advances the PC by 3 |
| Properties.CmpSetsExactlyOne | ls8/cpu.c:63-79 | from clear flags, CMP leaves exactly one of E, L, G set |
| Properties.LdiEffect | ls8/cpu.c:123-124 | LDI stores operand B in register A; nothing else changes except the PC, which advances by 3 |
| Properties.PrnEffect | ls8/cpu.c:127-129 | PRN appends register A to the output and changes nothing else except the PC, which advances by 2 |
| Properties.HltEffect | ls8/cpu.c:152-154 | HLT stops the loop, changes nothing else, and still advances the PC by 1 |
| Properties.UnknownEffect | ls8/cpu.c:156-159 | an opcode outside the table changes nothing except the PC, which advances by its decoded width |
| Properties.PushEffect | ls8/cpu.c:131-133 | PUSH decrements R7 mod 256 and then stores register A at the new R7; no other cell or register changes, and the PC advances by 2 |
| Properties.PopEffect | ls8/cpu.c:135-137 | POP loads RAM at R7 into register A and increments R7 mod 256, unless register A is R7, which then holds the popped byte; no other register changes, RAM is not written, and the PC advances by 2 |
| Properties.CallEffect | ls8/cpu.c:139-142 | CALL decrements R7, stores (PC + 2) mod 256 at the new R7, and sets the PC to register A without the width advance |
| Properties.RetEffect | ls8/cpu.c:144-146 | RET sets the PC to RAM at R7 and increments R7 mod 256; nothing else changes |
| Properties.UndefinedOperand | ls8/cpu.c:115-150 | an out-of-range register operand, or PUSH of R7, leaves the machine stopped and unchanged |
| Properties.PushPopRoundTrip | ls8/cpu.c:131-137 | PUSH rn then POP rm copies rn into rm and leaves every other register as it was, R7 included unless rm is R7, which then holds the popped byte; RAM gains the pushed byte in the freed slot, and the PC advances by 4 |
| Properties.PushPopRestores | ls8/cpu.c:131-137 | PUSH rn then POP rn restores every register, including rn and R7 |
| Properties.CallRetRoundTrip | ls8/cpu.c:139-146 | CALL followed by a RET at its target returns the PC to the instruction after the CALL, with every register, R7 included, as before |
| Properties.RunStopped | ls8/cpu.c:91-93 | once the loop has stopped, more fuel changes nothing |
| Properties.RunSplit | ls8/cpu.c:93-160 | running n + m cycles is running n and then, if still running, m more |
| Properties.RunHaltsAtHlt | ls8/cpu.c:152-154 | a run that halts has a cycle that was still running with HLT at its PC, and the step of that cycle is the run's result, so the halt comes from that HLT fetch |
| Scenarios.HltOnly | ls8/cpu.c:152-159 | after cpu_init and loading a lone HLT, the loop stops after one cycle with the PC at 1 and no output |
| Scenarios.LdiPrnHlt | ls8/cpu.c:123-129 | LDI R0,40; PRN R0; HLT, with a comment line among them, halts having printed 40 |
| Scenarios.AddPrnHlt | ls8/cpu.c:115-129 | ADD R0,R1 on initialised registers, then PRN R0 and HLT, halts having printed 0 |

## Left out

- Opening the program file, reading its lines, and the fatal `exit(1)` when the file is missing (ls8/cpu.c:23-30) are file I/O. The loader takes the lines already parsed: `Some(v)` holds the value `strtoul` returned, and `None` marks a line whose parse consumed nothing.
- How `strtoul` parses base 2 (whitespace, signs, overflow; ls8/cpu.c:37) is C library behaviour and is not modelled. Only the truncation of its result to an unsigned char is.
- `printf` in PRN is modelled as appending to the output sequence. The ALU's `default` case, which prints "error" (ls8/cpu.c:81-82), cannot be reached, because `AluOp` has just the three operations that `cpu_run` passes.
- `memset(cpu->registers, 0, 256)` (ls8/cpu.c:174) writes past an 8-byte register file into struct memory whose layout is in `cpu.h`, which is not part of this model. The model zeroes the eight registers only.
- `cpu_run` loops until HLT and may never stop. `Run` takes a fuel bound, so runs longer than the fuel are cut off with status `Running`.
- Ls8.Cpu.Load and Machine.Load require the program to fit in 256 bytes. The C loop writes past `ram` otherwise, which is undefined behaviour.
- The contents of RAM outside cells 0 to 7 after `cpu_init` are whatever the struct held before. The model keeps them as they were and assumes nothing about them.
